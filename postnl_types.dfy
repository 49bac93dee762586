/**
 * The records the PostNL adapter reads (carrier account, picking, carrier,
 * company, partner) and the values it produces (requests, carrier results,
 * errors). An Odoo Char field that is not set holds Python `False`, so such
 * fields are `Option<string>` here.
 */
module PostnlTypes {
  import opened Wrappers
  import opened Json

  /** The delivery type under which the PostNL carrier is registered. */
  const Postnl: string := "postnl"

  /** A `carrier.account` record; `company` is the owning company's id, None when unscoped. */
  datatype Account = Account(
    deliveryType: string,
    company: Option<nat>,
    apiKey: Option<string>,
    barcodeType: Option<string>,
    collectionLocation: Option<string>,
    customerCode: Option<string>,
    customerNumber: int)

  /** The account a user gets when only the delivery type is filled in. */
  function DefaultAccount(company: Option<nat>): Account {
    Account(Postnl, company, None, Some("3S"), None, Some("DEVC"), 11223344)
  }

  datatype Carrier = Carrier(deliveryType: string, prodEnvironment: bool)

  /** The picking's own company: the sender of the shipment. */
  datatype Company = Company(
    id: nat,
    name: Option<string>,
    street: Option<string>,
    city: Option<string>,
    zip: Option<string>,
    countryCode: Option<string>)

  /** The destination partner: the receiver of the shipment. */
  datatype Partner = Partner(
    name: Option<string>,
    streetName: Option<string>,
    streetNumber: Option<string>,
    streetNumber2: Option<string>,
    city: Option<string>,
    zip: Option<string>,
    countryCode: Option<string>)

  /** A `stock.picking` record; weight and volume are floats, passed through untouched. */
  datatype Picking = Picking(
    carrier: Option<Carrier>,
    company: Company,
    partner: Partner,
    shippingWeight: Json,
    volume: Json,
    trackingRef: Option<string>)

  /** `picking.carrier_id.delivery_type`: an empty carrier reads as unset. */
  function DeliveryType(p: Picking): Option<string> {
    if p.carrier.Some? then Some(p.carrier.value.deliveryType) else None
  }

  /** `picking.carrier_id.prod_environment`: an empty carrier reads as False. */
  function Production(p: Picking): bool {
    p.carrier.Some? && p.carrier.value.prodEnvironment
  }

  /** A Char field as it appears in a JSON body: its text, or `false` when unset. */
  function CharJson(f: Option<string>): Json {
    match f
    case Some(s) => JStr(s)
    case None => JBool(false)
  }

  /** A Char field formatted with `%s`: its text, or "False" when unset. */
  function CharText(f: Option<string>): string {
    match f
    case Some(s) => s
    case None => "False"
  }

  /** One HTTP POST: the endpoint parameter (None when not configured), headers and JSON body. */
  datatype Request = Request(url: Option<string>, headers: map<string, Json>, body: Json)

  datatype Label = Label(name: Json, file: Json, fileType: string)

  /** The dictionary handed back to `delivery.carrier#send_shipping` for one picking. */
  datatype Shipped = Shipped(exactPrice: int, trackingNumber: Json, labels: seq<Label>)

  /** What `_postnl_send` and its helpers raise. */
  datatype Error =
    | NoAccount(companyName: string)                          // UserError: no PostNL account
    | ApiFailure(requestType: string, errorNumber: int, errorMsg: Json) // UserError built from ErrorMsg
    | Lookup(fault: Fault)                                    // the original KeyError/IndexError/TypeError
}
