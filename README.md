# PostNL shipment adapter — a Dafny model

This project models the PostNL carrier integration of the Odoo module
`delivery_carrier_label_postnl`: the `stock.picking` extension that, for each
picking, looks up the PostNL carrier account of the picking's company, asks
PostNL's barcode web service for a shipment barcode, asks the labelling web
service for a PDF label carrying that barcode, and hands back one
`{exact_price, tracking_number, labels}` record per picking; it also builds the
public tracking link and keeps PostNL pickings out of the generic
"generate carrier label" action.

What the Python code does through I/O becomes an input of the model:

- the `carrier.account` search is given the account records as a sequence
  (`World.accounts`); the ORM's tie-break order is that sequence's order;
- `ir.config_parameter` is a map from key to text (`World.config`);
  `get_param` returns the stored value `or False`, so a missing key and a key
  holding the empty text both read as `None`, Python's `False`;
- the two `requests.post(...).json()` calls are an oracle
  `World.server(n, request)`, the decoded JSON answer to the n-th call of the
  run; `Send` also returns the requests it made, in order;
- `datetime.now().strftime(...)` is `World.clock(n)`, already formatted.

An unset Odoo Char field is Python `False`: such fields are `Option<string>`,
written into JSON bodies as `false` (`CharJson`) and into `%s` text as
`"False"` (`CharText`). The Python exceptions that a failed subscript raises
(KeyError, IndexError, TypeError) are the `Fault` values; `Error` adds the two
user errors of the module.

Modules: `Wrappers` (Option, Result), `Json` (JSON values and Python
subscripts), `Text` (`str()` of an integer, splitting text), `PostnlTypes`
(records), `PostnlConfig` (`_postnl_request_url`, `_postnl_get_tracking_link`),
`PostnlAccount` (`_postnl_carrier_account`), `PostnlRequest` (headers and
request bodies), `PostnlResponse` (`_postnl_error` and the two response
decoders), `PostnlSend` (`_postnl_send`), `PostnlLabelAction`
(`action_generate_carrier_label`) and `PostnlExamples` (concrete scenarios).

The account is looked up and the headers are built for every
picking inside the loop (stock_picking.py:33-39), not once per batch, and the
missing-account failure is a `UserError`. The constant `DELIVERY_TYPE_POSTNL`
is imported from `models/delivery_carrier.py`, which in this version of the module does not define
it; the model uses `"postnl"`, the selection value registered at
delivery_carrier.py:10.

## Model

| member | source | states |
|---|---|---|
| `PostnlAccount.SelectAccount` | delivery_carrier_label_postnl/models/stock_picking.py:155-177 | Fails exactly when no account is a PostNL account that is unscoped or owned by the picking's company, and then with a user error carrying the company name; otherwise returns a matching account that sorts first by company-scoped-before-unscoped and then sequence order, so a company-scoped account always beats the fallback |
| `PostnlAccount.FirstOfRank` | delivery_carrier_label_postnl/models/stock_picking.py:164-171 | The search with limit 1: the index found holds an account of the wanted rank and no earlier one does; None exactly when none does |
| `PostnlConfig.GetParam` | delivery_carrier_label_postnl/models/stock_picking.py:147 | A value comes back exactly when the key is stored with non-empty text, and it is that text; otherwise False |
| `PostnlConfig.EndpointKey` | delivery_carrier_label_postnl/models/stock_picking.py:148-151 | The key begins with "delivery_carrier_label_postnl." followed by the request type, and ends with "production" or "sandbox" as the carrier's environment says |
| `PostnlConfig.RequestUrl` | delivery_carrier_label_postnl/models/stock_picking.py:146-153 | The endpoint is the stored value of the endpoint key for the request type and environment, and is absent (Python False) exactly when that key is not stored or holds the empty text |
| `PostnlConfig.EndpointKeyShape` | delivery_carrier_label_postnl/models/stock_picking.py:148-151 | The key is "delivery_carrier_label_postnl." then the request type then "_endpoint_" then "production" or "sandbox" |
| `PostnlConfig.EndpointKeyInjective` | delivery_carrier_label_postnl/models/stock_picking.py:148-151 | Equal keys come from equal request types and equal production flags |
| `PostnlConfig.EndpointKeyEnvironmentsDiffer` | delivery_carrier_label_postnl/models/stock_picking.py:150 | A production key never equals a sandbox key, whatever the request types |
| `PostnlConfig.TrackingLink` | delivery_carrier_label_postnl/models/stock_picking.py:202-211 | The link is the configured base URL, then the tracking reference, "-", the partner's country code, "-" and the partner's zip, each unset value written as "False" (a tracking URL stored as the empty text is unset too); its length is the parts' lengths plus two |
| `PostnlConfig.TrackingLinkRoundTrip` | delivery_carrier_label_postnl/models/stock_picking.py:202-211 | The link is base URL and tracking reference, "-", country code, "-", zip: split back at the last two dashes it yields those parts when country code and zip hold no dash |
| `PostnlRequest.Headers` | delivery_carrier_label_postnl/models/stock_picking.py:35-39 | Exactly the keys apikey, accept, content-type: the account's API key and JSON for both content headers |
| `PostnlRequest.BarcodeBody` | delivery_carrier_label_postnl/models/stock_picking.py:54-58 | Exactly CustomerCode, CustomerNumber (the integer itself) and Type, from the account |
| `PostnlRequest.LabelBody` | delivery_carrier_label_postnl/models/stock_picking.py:82-122 | The label body has exactly the three parts Customer, Message and Shipments |
| `PostnlRequest.CustomerPartPaths` | delivery_carrier_label_postnl/models/stock_picking.py:83-95 | The Customer part holds the sender address, the account's customer code and collection location, and the customer number as decimal text |
| `PostnlRequest.MessagePartPaths` | delivery_carrier_label_postnl/models/stock_picking.py:96-100 | The Message part holds MessageID "1", the given timestamp and Printertype "GraphicFile\|PDF" |
| `PostnlRequest.ShipmentsPartPaths` | delivery_carrier_label_postnl/models/stock_picking.py:101-121 | The Shipments part holds a one-element address list with the receiver address, DeliveryAddress "01", ProductCodeDelivery "4945", and the picking's weight and volume under Dimension |
| `PostnlRequest.SenderAddressFields` | delivery_carrier_label_postnl/models/stock_picking.py:84-91 | The sender address has exactly the keys AddressType, City, CompanyName, Countrycode, Street and Zipcode: type "02" and the picking company's city, name, country code, street and zip |
| `PostnlRequest.ReceiverAddressFields` | delivery_carrier_label_postnl/models/stock_picking.py:103-112 | The receiver address has exactly the keys AddressType, City, Countrycode, HouseNr, HouseNrExt, Name, Street and Zipcode: type "01" and the partner's city, country code, street number, street number 2, name, street name and zip |
| `PostnlRequest.LabelBodyBarcode` | delivery_carrier_label_postnl/models/stock_picking.py:114 | Shipments.Barcode of the label body is the barcode passed in |
| `PostnlRequest.LabelBodyCustomer` | delivery_carrier_label_postnl/models/stock_picking.py:92-94 | Customer code and collection location from the account; CustomerNumber is the decimal text of the account's number, which reads back as that number |
| `PostnlRequest.LabelBodySender` | delivery_carrier_label_postnl/models/stock_picking.py:84-91 | Customer.Address of the label body is the sender address built from the picking's company |
| `PostnlRequest.LabelBodyMessage` | delivery_carrier_label_postnl/models/stock_picking.py:96-100 | Message.MessageID is "1", Message.MessageTimeStamp the given timestamp, Message.Printertype "GraphicFile\|PDF" |
| `PostnlRequest.LabelBodyShipment` | delivery_carrier_label_postnl/models/stock_picking.py:115-120 | Shipments.DeliveryAddress is "01", Shipments.ProductCodeDelivery "4945", and Shipments.Dimension holds the picking's weight and volume unchanged |
| `PostnlRequest.LabelBodyReceiver` | delivery_carrier_label_postnl/models/stock_picking.py:102-113 | Shipments.Addresses of the label body is a list holding exactly one address, the receiver address built from the picking's partner |
| `Text.IntToDecimalRoundTrip` | delivery_carrier_label_postnl/models/stock_picking.py:94 | `str()` of the customer number parses back to the same integer, negative numbers included |
| `PostnlResponse.FirstErrorAtUnique` | delivery_carrier_label_postnl/models/stock_picking.py:181-182 | Only one item can be the first carrying ErrorMsg, and it is the one the scan finds |
| `PostnlResponse.FirstErrorItem` | delivery_carrier_label_postnl/models/stock_picking.py:181-182 | The index found is the first item carrying ErrorMsg; None exactly when no item does |
| `PostnlResponse.ErrorFromItem` | delivery_carrier_label_postnl/models/stock_picking.py:183-190 | An API error with the request type, the item's ErrorMsg and its ErrorNumber exactly when ErrorNumber is present and a number; a bool ErrorNumber formats as 1 or 0; a missing ErrorNumber gives the KeyError on "ErrorNumber", and any other type the TypeError `%d` raises |
| `PostnlResponse.ErrorFor` | delivery_carrier_label_postnl/models/stock_picking.py:179-192 | When no array item carries ErrorMsg the original failure comes back unchanged; otherwise the error is built from the first item that does |
| `PostnlResponse.ExtractError` | delivery_carrier_label_postnl/models/stock_picking.py:179-192 | The early-return loop over the items computes exactly `ErrorFor` |
| `PostnlResponse.DecodeBarcode` | delivery_carrier_label_postnl/models/stock_picking.py:66-71 | Succeeds exactly when the response is an object with key Barcode, returning that value; otherwise fails with the `_postnl_error` outcome for "barcode" applied to the KeyError or TypeError of the lookup |
| `PostnlResponse.BarcodeRoundTrip` | delivery_carrier_label_postnl/models/stock_picking.py:66-71 | Decoding the carrier's `{"Barcode": b}` gives b |
| `PostnlResponse.DecodeLabelItems` | delivery_carrier_label_postnl/models/stock_picking.py:135-139 | The label list succeeds exactly when every item is an object with Labeltype and Content; then it has the same length and order, each entry being name = Labeltype, file = Content, file_type "pdf" |
| `PostnlResponse.DecodeLabels` | delivery_carrier_label_postnl/models/stock_picking.py:135-139 | Iterating Labels succeeds exactly when it is a list of objects with Labeltype and Content, an empty dict or an empty string; a list gives one label per item, the empty cases none |
| `PostnlResponse.ShipmentData` | delivery_carrier_label_postnl/models/stock_picking.py:130-140 | The `try` block succeeds exactly when ResponseShipments is a non-empty list whose first element has Barcode, and whose Labels is a list of objects each holding Labeltype and Content, an empty dict or an empty string (`LabelShape`); then the price is 0 and the tracking number is that Barcode |
| `PostnlResponse.DecodeLabel` | delivery_carrier_label_postnl/models/stock_picking.py:130-144 | Succeeds exactly when the response has that shape (`LabelShape`: a list of such label objects, an empty dict or an empty string under the first shipment's Labels); a failure is the `_postnl_error` outcome for "label" applied to the lookup failure |
| `PostnlResponse.DecodeLabelSuccess` | delivery_carrier_label_postnl/models/stock_picking.py:130-140 | A successful label decode means ResponseShipments is a non-empty list whose first element has Barcode and Labels; price 0, tracking number that Barcode, labels mapped one to one in order |
| `PostnlResponse.DecodeLabelNoShipment` | delivery_carrier_label_postnl/models/stock_picking.py:130-142 | An object response lacking ResponseShipments, or holding an empty list there, fails with the original KeyError or IndexError |
| `PostnlResponse.FirstErrorItemWins` | delivery_carrier_label_postnl/models/stock_picking.py:179-192 | For a list response, both decoders fail with the API error of the first ErrorMsg item and its request type, whatever follows it |
| `PostnlResponse.ErrorPayloadDecodes` | delivery_carrier_label_postnl/models/stock_picking.py:66-69 | The carrier's `[{"ErrorMsg": m, "ErrorNumber": n}]` makes the barcode step fail with ("barcode", n, m) and the label step with ("label", n, m) |
| `PostnlResponse.LabelItemsRoundTrip` | delivery_carrier_label_postnl/models/stock_picking.py:135-139 | Decoding the encoded label items gives back the PDF labels |
| `PostnlResponse.LabelRoundTrip` | delivery_carrier_label_postnl/models/stock_picking.py:130-144 | Decoding the carrier's label response gives price 0, its tracking number and its labels |
| `PostnlSend.BarcodeCall` | delivery_carrier_label_postnl/models/stock_picking.py:54-64 | The barcode POST goes to the configured barcode endpoint of the picking's environment (no URL, Python False, when that key is not stored or holds the empty text), with the shared headers and the account's customer number as an integer |
| `PostnlSend.LabelCall` | delivery_carrier_label_postnl/models/stock_picking.py:82-128 | The label POST goes to the configured label endpoint of the picking's environment (no URL, Python False, when that key is not stored or holds the empty text), with the shared headers and the given barcode at Shipments.Barcode |
| `PostnlSend.SendOne` | delivery_carrier_label_postnl/models/stock_picking.py:33-41 | One iteration makes at most two calls; none exactly when no account is found; two whenever it succeeds |
| `PostnlSend.SendOneSuccess` | delivery_carrier_label_postnl/models/stock_picking.py:34-41 | A picking that succeeds made two calls: the barcode call to the barcode endpoint first, then the label call to the label endpoint with the same API key, whose body is the label body built from the picking, the account, the barcode decoded from the first answer and the clock at that call; the result is the decoded second answer |
| `PostnlSend.SendOneFailure` | delivery_carrier_label_postnl/models/stock_picking.py:34-41 | A picking that fails made at most two calls; none exactly when no account was found, and then the error names the company; after one call the error is the barcode step's; after two calls the barcode was decoded and the result is the decoded second answer |
| `PostnlSend.StepOfTwoCalls` | delivery_carrier_label_postnl/models/stock_picking.py:40-41 | Every successful picking step makes exactly two calls |
| `PostnlSend.Loop` | delivery_carrier_label_postnl/models/stock_picking.py:32-42 | A run over the first n pickings that succeeds has n results; over no pickings it returns an empty list and makes no call |
| `PostnlSend.FailureStops` | delivery_carrier_label_postnl/models/stock_picking.py:32-42 | After a failing iteration the run's outcome and calls never change: no later picking is processed |
| `PostnlSend.LoopSuccess` | delivery_carrier_label_postnl/models/stock_picking.py:32-42 | A successful run has one result per picking in picking order, and calls 2k and 2k+1 are picking k's |
| `PostnlSend.LoopFailure` | delivery_carrier_label_postnl/models/stock_picking.py:32-42 | A failing run failed at a picking k: all earlier pickings succeeded, the error is k's, and no call follows k's own |
| `PostnlSend.RunOutcome` | delivery_carrier_label_postnl/models/stock_picking.py:32-42 | A whole run either returns one result per picking in order, each the outcome of that picking's two calls, or the first picking's failure with nothing sent afterwards |
| `PostnlSend.RunSteps` | delivery_carrier_label_postnl/models/stock_picking.py:32-42 | The loop, appending each result and aborting at the first failure, computes exactly the run `Loop` describes, for any per-picking step |
| `PostnlSend.Send` | delivery_carrier_label_postnl/models/stock_picking.py:25-42 | The loop's result and request log are exactly those of the run `Loop` describes |
| `PostnlLabelAction.GenericLabelPickings` | delivery_carrier_label_postnl/models/stock_picking.py:20-23 | No picking handed to the generic action has the PostNL delivery type, and the result is no longer than the input (`GenericLabelPickingsKeepsOthers` states that none is added) |
| `PostnlLabelAction.GenericLabelPickingsKeepsOthers` | delivery_carrier_label_postnl/models/stock_picking.py:22 | Each non-PostNL picking is kept exactly as often as it occurs; no PostNL picking is kept |
| `PostnlLabelAction.GenericLabelPickingsAppend` | delivery_carrier_label_postnl/models/stock_picking.py:22 | The filter keeps order: filtering a concatenation concatenates the filtered parts |
| `PostnlLabelAction.GenericLabelPickingsIdempotent` | delivery_carrier_label_postnl/models/stock_picking.py:22 | Filtering the already filtered pickings changes nothing |
| `PostnlExamples.CompanyAccountFirst` | delivery_carrier_label_postnl/models/stock_picking.py:164-171 | With an unscoped and a company account, the company account is chosen |
| `PostnlExamples.MissingAccount` | delivery_carrier_label_postnl/models/stock_picking.py:173-175 | With only another company's account, the user error names the picking's company |
| `PostnlExamples.TrackingLinkExample` | delivery_carrier_label_postnl/models/stock_picking.py:202-211 | "https://example/track/" with reference 3SABC123, NL and 1111AA gives "https://example/track/3SABC123-NL-1111AA" |
| `PostnlExamples.EmptyTrackingUrl` | delivery_carrier_label_postnl/models/stock_picking.py:202-211 | A tracking URL stored as the empty text is written as "False" in front of the reference |
| `PostnlExamples.SandboxAndProductionKeys` | delivery_carrier_label_postnl/models/stock_picking.py:148-151 | The barcode endpoint keys of both environments, written out |
| `PostnlExamples.HappyPath` | delivery_carrier_label_postnl/models/stock_picking.py:32-42 | With an account holding an API key and both sandbox endpoints configured, barcode B1 and one label T give price 0, tracking number B1 and label T as a PDF |
| `PostnlExamples.EndpointsResolve` | delivery_carrier_label_postnl/models/stock_picking.py:146-153 | The sandbox barcode and label keys stored with URLs resolve to those URLs |
| `PostnlExamples.HappyPathCalls` | delivery_carrier_label_postnl/models/stock_picking.py:33-41 | In that run the barcode and label calls go to the configured sandbox URLs, both with the account's API key |
| `PostnlExamples.ApiErrorPath` | delivery_carrier_label_postnl/models/stock_picking.py:66-69 | An error payload 555 from the barcode service fails the picking with API error 555 and its message |

## Left out

- HTTP failures are not modelled: `requests.post` and `.json()` (stock_picking.py:60-64, 124-128) are the total `World.server` oracle, so every call is assumed to return decoded JSON. Connection errors and non-JSON answers cannot be represented, nor can two cases the module can reach: an account without an API key (`postnl_api_key` has no default) puts `False` in the `apikey` header, which `requests` rejects; and an endpoint parameter that is unset or stored empty makes `requests.post(url=False)` raise. In both cases the model lets the oracle answer instead.
- The ORM: `carrier.account` search and `ir.config_parameter` are inputs. The search orders by `company_id ASC` only, so the order among accounts of the same rank is unspecified; the input sequence's order stands for that unspecified order.
- Wall-clock time: `datetime.now()` and its `%d-%m-%Y %H:%M:%S` formatting (stock_picking.py:98) are the `World.clock` input.
- Floating point: shipping weight and volume are passed through as opaque JSON values; JSON floats are not among the modelled values, so a float ErrorNumber (which `%d` accepts) is not modelled.
- Message texts: `_()` translation and the `%` formatting of the two user errors; errors keep the company name, or the request type, error number and message, as data.
- `PostnlResponse.ErrorFor`: only array responses whose items are objects are scanned. Python also iterates a dict response's keys and tests "ErrorMsg" by substring (a key containing it makes `item["ErrorNumber"]` raise TypeError), tests substring or list membership on string and list items, and raises TypeError on number, bool and null items; the model skips such items and returns the original failure.
- `ensure_one()` and recordset semantics: every per-picking operation takes one picking; the picking's company is always set.
- Writing the tracking number and labels back to the picking, and the generic `action_generate_carrier_label` that receives the filtered pickings, belong to the host modules, which are not part of this model.
- `models/delivery_carrier.py` hooks (they only raise NotImplementedError), `models/carrier_account.py` beyond its field defaults (`DefaultAccount`), the manifest and the test case, whose base class is not part of this model.
