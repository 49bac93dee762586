/**
 * Decoding of the two JSON responses (`_postnl_request_barcode`,
 * `_postnl_send_shipment`) and the error extraction `_postnl_error`.
 */
module PostnlResponse {
  import opened Wrappers
  import opened Json
  import opened PostnlTypes
  import opened PostnlConfig

  /** A response item that reports an API error. Only object items are inspected. */
  predicate CarriesErrorMsg(item: Json) {
    item.JObj? && "ErrorMsg" in item.fields
  }

  /** Item `k` is the first item that reports an API error. */
  predicate FirstErrorAt(items: seq<Json>, k: int) {
    0 <= k < |items| && CarriesErrorMsg(items[k]) && forall j :: 0 <= j < k ==> !CarriesErrorMsg(items[j])
  }

  /** The index of the first item that reports an API error. */
  function FirstErrorItem(items: seq<Json>): (r: Option<nat>)
    ensures r.Some? ==> r.value < |items| && CarriesErrorMsg(items[r.value])
    ensures r.Some? ==> forall j :: 0 <= j < r.value ==> !CarriesErrorMsg(items[j])
    ensures r.None? <==> forall j :: 0 <= j < |items| ==> !CarriesErrorMsg(items[j])
    decreases |items|
  {
    if items == [] then None
    else if CarriesErrorMsg(items[0]) then Some(0)
    else match FirstErrorItem(items[1..])
      case None => None
      case Some(k) => Some(k + 1)
  }

  /** The first error item is unique, and it is the one `FirstErrorItem` finds. */
  lemma FirstErrorAtUnique(items: seq<Json>, k: int)
    requires FirstErrorAt(items, k)
    ensures FirstErrorItem(items) == Some(k)
  {
  }

  /**
   * The user error built from an error item. `item["ErrorNumber"]` raises
   * KeyError when absent, and `%d` raises TypeError unless it is a number
   * (a bool formats as 0 or 1).
   */
  function ErrorFromItem(requestType: string, item: Json): (e: Error)
    requires CarriesErrorMsg(item)
    ensures e.ApiFailure? <==> "ErrorNumber" in item.fields && (item.fields["ErrorNumber"].JInt? || item.fields["ErrorNumber"].JBool?)
    ensures e.ApiFailure? ==> e.requestType == requestType && e.errorMsg == item.fields["ErrorMsg"]
    ensures e.ApiFailure? && item.fields["ErrorNumber"].JInt? ==> e.errorNumber == item.fields["ErrorNumber"].i
    ensures e.ApiFailure? && item.fields["ErrorNumber"].JBool? ==>
      e.errorNumber == if item.fields["ErrorNumber"].b then 1 else 0
    ensures "ErrorNumber" !in item.fields ==> e == Lookup(KeyError(JStr("ErrorNumber")))
    ensures "ErrorNumber" in item.fields && !item.fields["ErrorNumber"].JInt? && !item.fields["ErrorNumber"].JBool? ==>
      e == Lookup(TypeError)
  {
    match Get(item, "ErrorNumber")
    case Fail(f) => Lookup(f)
    case Ok(JInt(n)) => ApiFailure(requestType, n, item.fields["ErrorMsg"])
    case Ok(JBool(b)) => ApiFailure(requestType, if b then 1 else 0, item.fields["ErrorMsg"])
    case Ok(_) => Lookup(TypeError)
  }

  /**
   * What `_postnl_error` hands back: the error of the first array item that
   * carries ErrorMsg, or the original failure `reraise` unchanged.
   */
  function ErrorFor(requestType: string, response: Json, reraise: Error): (e: Error)
    ensures (!response.JArr? || forall j :: 0 <= j < |response.items| ==> !CarriesErrorMsg(response.items[j]))
      ==> e == reraise
    ensures forall k :: response.JArr? && FirstErrorAt(response.items, k) ==>
      e == ErrorFromItem(requestType, response.items[k])
  {
    if !response.JArr? then reraise
    else
      (forall k | FirstErrorAt(response.items, k) ensures FirstErrorItem(response.items) == Some(k) {
        FirstErrorAtUnique(response.items, k);
      }
      match FirstErrorItem(response.items)
      case None => reraise
      case Some(k) => ErrorFromItem(requestType, response.items[k]))
  }

  /** `_postnl_error` as the loop it is: scan the items, return at the first error item. */
  method ExtractError(requestType: string, response: Json, reraise: Error) returns (e: Error)
    ensures e == ErrorFor(requestType, response, reraise)
  {
    if !response.JArr? {
      return reraise;
    }
    var items := response.items;
    var i := 0;
    while i < |items|
      invariant 0 <= i <= |items|
      invariant forall j :: 0 <= j < i ==> !CarriesErrorMsg(items[j])
    {
      var item := items[i];
      if item.JObj? && "ErrorMsg" in item.fields {
        return ErrorFromItem(requestType, item);
      }
      i := i + 1;
    }
    return reraise;
  }

  /** `response["Barcode"]`, with `_postnl_error` applied to the failure. */
  function DecodeBarcode(response: Json): (r: Result<Json, Error>)
    ensures r.Ok? <==> response.JObj? && "Barcode" in response.fields
    ensures r.Ok? ==> r.value == response.fields["Barcode"]
    ensures r.Fail? ==> r.error == ErrorFor(BarcodeRequest, response,
      Lookup(if response.JObj? then KeyError(JStr("Barcode")) else TypeError))
  {
    match Get(response, "Barcode")
    case Ok(b) => Ok(b)
    case Fail(f) => Fail(ErrorFor(BarcodeRequest, response, Lookup(f)))
  }

  /** The label comprehension over a list: name from Labeltype, file from Content, in order. */
  function DecodeLabelItems(items: seq<Json>): (r: Result<seq<Label>, Fault>)
    ensures r.Ok? <==> WellFormedLabelItems(items)
    ensures r.Ok? ==> |r.value| == |items| && forall k :: 0 <= k < |items| ==>
      r.value[k] == Label(items[k].fields["Labeltype"], items[k].fields["Content"], "pdf")
    decreases |items|
  {
    if items == [] then Ok([])
    else
      var name :- Get(items[0], "Labeltype");
      var file :- Get(items[0], "Content");
      var rest :- DecodeLabelItems(items[1..]);
      Ok([Label(name, file, "pdf")] + rest)
  }

  /**
   * `for label in labels`: a list yields its items; an empty dict or string
   * yields nothing; a non-empty dict or string yields strings, which cannot
   * be subscripted by key; anything else is not iterable.
   */
  function DecodeLabels(labels: Json): (r: Result<seq<Label>, Fault>)
    ensures r.Ok? <==> LabelsShape(labels)
    ensures r.Ok? && labels.JArr? ==> |r.value| == |labels.items|
    ensures r.Ok? && !labels.JArr? ==> r.value == []
  {
    match labels
    case JArr(items) => DecodeLabelItems(items)
    case JObj(m) => if |m| == 0 then Ok([]) else Fail(TypeError)
    case JStr(s) => if |s| == 0 then Ok([]) else Fail(TypeError)
    case _ => Fail(TypeError)
  }

  /** Label items that the comprehension accepts: objects with Labeltype and Content. */
  predicate WellFormedLabelItems(items: seq<Json>) {
    forall k :: 0 <= k < |items| ==>
      items[k].JObj? && "Labeltype" in items[k].fields && "Content" in items[k].fields
  }

  /** A Labels value the comprehension can iterate: well-formed items, or an empty dict or string. */
  predicate LabelsShape(labels: Json) {
    || (labels.JArr? && WellFormedLabelItems(labels.items))
    || labels == JObj(map[])
    || labels == JStr("")
  }

  /** A label response from which the whole result can be read. */
  predicate LabelShape(response: Json) {
    && response.JObj? && "ResponseShipments" in response.fields
    && var shipments := response.fields["ResponseShipments"];
    && shipments.JArr? && |shipments.items| > 0
    && var first := shipments.items[0];
    && first.JObj? && "Barcode" in first.fields && "Labels" in first.fields
    && LabelsShape(first.fields["Labels"])
  }

  /** The `try` block of `_postnl_send_shipment`, in Python's evaluation order. */
  function ShipmentData(response: Json): (r: Result<Shipped, Fault>)
    ensures r.Ok? <==> LabelShape(response)
    ensures r.Ok? ==> r.value.exactPrice == 0
    ensures r.Ok? ==> r.value.trackingNumber == response.fields["ResponseShipments"].items[0].fields["Barcode"]
  {
    var shipments :- Get(response, "ResponseShipments");
    var first :- First(shipments);
    var tracking :- Get(first, "Barcode");
    var labels :- Get(first, "Labels");
    var decoded :- DecodeLabels(labels);
    Ok(Shipped(0, tracking, decoded))
  }

  /** The label response decoded, with `_postnl_error` applied to the failure. */
  function DecodeLabel(response: Json): (r: Result<Shipped, Error>)
    ensures r.Ok? <==> LabelShape(response)
    ensures r.Fail? ==> exists f :: r.error == ErrorFor(LabelRequest, response, Lookup(f))
  {
    match ShipmentData(response)
    case Ok(s) => Ok(s)
    case Fail(f) => Fail(ErrorFor(LabelRequest, response, Lookup(f)))
  }

  /** A successful label decode reads everything from `ResponseShipments[0]` and fixes the price at 0. */
  lemma DecodeLabelSuccess(response: Json)
    requires DecodeLabel(response).Ok?
    ensures response.JObj? && "ResponseShipments" in response.fields
    ensures var shipments := response.fields["ResponseShipments"];
      shipments.JArr? && |shipments.items| > 0
      && var first := shipments.items[0];
      && first.JObj? && "Barcode" in first.fields && "Labels" in first.fields
      && var s := DecodeLabel(response).value;
      && s.exactPrice == 0
      && s.trackingNumber == first.fields["Barcode"]
      && (first.fields["Labels"].JArr? ==> |s.labels| == |first.fields["Labels"].items|)
      && (first.fields["Labels"].JArr? ==> forall k :: 0 <= k < |s.labels| ==>
            var item := first.fields["Labels"].items[k];
            item.JObj? && "Labeltype" in item.fields && "Content" in item.fields
            && s.labels[k] == Label(item.fields["Labeltype"], item.fields["Content"], "pdf"))
      && (!first.fields["Labels"].JArr? ==> s.labels == [])
  {
  }

  /** A dict response without ResponseShipments, or with an empty list there, re-raises the lookup failure. */
  lemma DecodeLabelNoShipment(m: map<string, Json>)
    requires "ResponseShipments" !in m || m["ResponseShipments"] == JArr([])
    ensures DecodeLabel(JObj(m)) == Fail(Lookup(
      if "ResponseShipments" in m then IndexError(0) else KeyError(JStr("ResponseShipments"))))
  {
  }

  /**
   * A response that is a list of items fails both decoders, and the first
   * item carrying ErrorMsg decides the error, whatever the items after it.
   */
  lemma FirstErrorItemWins(items: seq<Json>, k: nat, n: int)
    requires FirstErrorAt(items, k)
    requires "ErrorNumber" in items[k].fields && items[k].fields["ErrorNumber"] == JInt(n)
    ensures DecodeBarcode(JArr(items)) == Fail(ApiFailure(BarcodeRequest, n, items[k].fields["ErrorMsg"]))
    ensures DecodeLabel(JArr(items)) == Fail(ApiFailure(LabelRequest, n, items[k].fields["ErrorMsg"]))
  {
  }

  /** The barcode response of the carrier. */
  function BarcodeResponse(barcode: Json): Json {
    JObj(map["Barcode" := barcode])
  }

  lemma BarcodeRoundTrip(barcode: Json)
    ensures DecodeBarcode(BarcodeResponse(barcode)) == Ok(barcode)
  {
  }

  /** The error payload of the carrier: a list holding one error item. */
  function ErrorPayload(number: int, msg: Json): Json {
    JArr([JObj(map["ErrorMsg" := msg, "ErrorNumber" := JInt(number)])])
  }

  lemma ErrorPayloadDecodes(number: int, msg: Json)
    ensures DecodeBarcode(ErrorPayload(number, msg)) == Fail(ApiFailure(BarcodeRequest, number, msg))
    ensures DecodeLabel(ErrorPayload(number, msg)) == Fail(ApiFailure(LabelRequest, number, msg))
  {
    FirstErrorItemWins(ErrorPayload(number, msg).items, 0, number);
  }

  /** The label items of the carrier's response, in order. */
  function EncodeLabels(labels: seq<Label>): (items: seq<Json>)
    decreases |labels|
  {
    if labels == [] then []
    else [JObj(map["Labeltype" := labels[0].name, "Content" := labels[0].file])] + EncodeLabels(labels[1..])
  }

  /** The label response of the carrier for one shipment. */
  function LabelResponse(tracking: Json, labels: seq<Label>): Json {
    JObj(map["ResponseShipments" := JArr([
      JObj(map["Barcode" := tracking, "Labels" := JArr(EncodeLabels(labels))])])])
  }

  lemma {:induction false} LabelItemsRoundTrip(labels: seq<Label>)
    requires forall k :: 0 <= k < |labels| ==> labels[k].fileType == "pdf"
    ensures DecodeLabelItems(EncodeLabels(labels)) == Ok(labels)
    decreases |labels|
  {
    if labels != [] {
      var items := EncodeLabels(labels);
      assert items[0] == JObj(map["Labeltype" := labels[0].name, "Content" := labels[0].file]);
      assert items[1..] == EncodeLabels(labels[1..]);
      assert Get(items[0], "Labeltype") == Ok(labels[0].name);
      assert Get(items[0], "Content") == Ok(labels[0].file);
      LabelItemsRoundTrip(labels[1..]);
      assert labels[0] == Label(labels[0].name, labels[0].file, "pdf");
      assert DecodeLabelItems(items) == Ok([Label(labels[0].name, labels[0].file, "pdf")] + labels[1..]);
      assert labels == [labels[0]] + labels[1..];
    }
  }

  /** Decoding the carrier's label response gives back its tracking number and PDF labels, at price 0. */
  lemma LabelRoundTrip(tracking: Json, labels: seq<Label>)
    requires forall k :: 0 <= k < |labels| ==> labels[k].fileType == "pdf"
    ensures DecodeLabel(LabelResponse(tracking, labels)) == Ok(Shipped(0, tracking, labels))
  {
    LabelItemsRoundTrip(labels);
  }
}
