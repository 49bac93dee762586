/**
 * The request headers and JSON bodies built by `_postnl_send`,
 * `_postnl_request_barcode` and `_postnl_send_shipment`.
 */
module PostnlRequest {
  import opened Wrappers
  import opened Json
  import opened Text
  import opened PostnlTypes

  /** The headers shared by both calls for one picking. */
  function Headers(acc: Account): (h: map<string, Json>)
    ensures h.Keys == {"apikey", "accept", "content-type"}
    ensures h["apikey"] == CharJson(acc.apiKey)
    ensures h["accept"] == h["content-type"] == JStr("application/json")
  {
    map["apikey" := CharJson(acc.apiKey),
        "accept" := JStr("application/json"),
        "content-type" := JStr("application/json")]
  }

  /** Body of the barcode call: customer code, customer number (an integer) and barcode type. */
  function BarcodeBody(acc: Account): (body: Json)
    ensures body.JObj? && body.fields.Keys == {"CustomerCode", "CustomerNumber", "Type"}
    ensures Path(body, ["CustomerCode"]) == Some(CharJson(acc.customerCode))
    ensures Path(body, ["CustomerNumber"]) == Some(JInt(acc.customerNumber))
    ensures Path(body, ["Type"]) == Some(CharJson(acc.barcodeType))
  {
    JObj(map[
      "CustomerCode" := CharJson(acc.customerCode),
      "CustomerNumber" := JInt(acc.customerNumber),
      "Type" := CharJson(acc.barcodeType)])
  }

  /** The sender address, taken from the picking's company. */
  function SenderAddress(c: Company): Json {
    JObj(map[
      "AddressType" := JStr("02"),
      "City" := CharJson(c.city),
      "CompanyName" := CharJson(c.name),
      "Countrycode" := CharJson(c.countryCode),
      "Street" := CharJson(c.street),
      "Zipcode" := CharJson(c.zip)])
  }

  /** The receiver address, taken from the picking's partner. */
  function ReceiverAddress(p: Partner): Json {
    JObj(map[
      "AddressType" := JStr("01"),
      "City" := CharJson(p.city),
      "Countrycode" := CharJson(p.countryCode),
      "HouseNr" := CharJson(p.streetNumber),
      "HouseNrExt" := CharJson(p.streetNumber2),
      "Name" := CharJson(p.name),
      "Street" := CharJson(p.streetName),
      "Zipcode" := CharJson(p.zip)])
  }

  /** The `Customer` part of the label body: sender address and account data. */
  function CustomerPart(c: Company, acc: Account): Json {
    JObj(map[
      "Address" := SenderAddress(c),
      "CollectionLocation" := CharJson(acc.collectionLocation),
      "CustomerCode" := CharJson(acc.customerCode),
      "CustomerNumber" := JStr(IntToDecimal(acc.customerNumber))])
  }

  /** The `Message` part of the label body. */
  function MessagePart(timestamp: string): Json {
    JObj(map[
      "MessageID" := JStr("1"),
      "MessageTimeStamp" := JStr(timestamp),
      "Printertype" := JStr("GraphicFile|PDF")])
  }

  /** The `Shipments` part of the label body: receiver, barcode, product and dimensions. */
  function ShipmentsPart(p: Picking, barcode: Json): Json {
    JObj(map[
      "Addresses" := JArr([ReceiverAddress(p.partner)]),
      "Barcode" := barcode,
      "DeliveryAddress" := JStr("01"),
      "Dimension" := JObj(map["Weight" := p.shippingWeight, "Volume" := p.volume]),
      "ProductCodeDelivery" := JStr("4945")])
  }

  /**
   * Body of the label call. `timestamp` is the already formatted
   * `DD-MM-YYYY HH:MM:SS` wall-clock time.
   */
  function LabelBody(p: Picking, acc: Account, barcode: Json, timestamp: string): (body: Json)
    ensures body.JObj? && body.fields.Keys == {"Customer", "Message", "Shipments"}
  {
    JObj(map[
      "Customer" := CustomerPart(p.company, acc),
      "Message" := MessagePart(timestamp),
      "Shipments" := ShipmentsPart(p, barcode)])
  }

  /** The sender address has exactly the six keys `_postnl_send_shipment` sets, typed "02". */
  lemma SenderAddressFields(c: Company)
    ensures var a := SenderAddress(c);
      && a.JObj? && a.fields.Keys == {"AddressType", "City", "CompanyName", "Countrycode", "Street", "Zipcode"}
      && a.fields["AddressType"] == JStr("02")
      && a.fields["CompanyName"] == CharJson(c.name)
      && a.fields["City"] == CharJson(c.city)
      && a.fields["Street"] == CharJson(c.street)
      && a.fields["Zipcode"] == CharJson(c.zip)
      && a.fields["Countrycode"] == CharJson(c.countryCode)
  {
  }

  /** The receiver address has exactly the eight keys `_postnl_send_shipment` sets, typed "01". */
  lemma ReceiverAddressFields(p: Partner)
    ensures var a := ReceiverAddress(p);
      && a.JObj? && a.fields.Keys == {"AddressType", "City", "Countrycode", "HouseNr", "HouseNrExt", "Name", "Street", "Zipcode"}
      && a.fields["AddressType"] == JStr("01")
      && a.fields["Name"] == CharJson(p.name)
      && a.fields["Street"] == CharJson(p.streetName)
      && a.fields["HouseNr"] == CharJson(p.streetNumber)
      && a.fields["HouseNrExt"] == CharJson(p.streetNumber2)
      && a.fields["City"] == CharJson(p.city)
      && a.fields["Zipcode"] == CharJson(p.zip)
      && a.fields["Countrycode"] == CharJson(p.countryCode)
  {
  }

  /** A path into the label body goes through one of its three parts. */
  lemma LabelBodyThrough(p: Picking, acc: Account, barcode: Json, timestamp: string, rest: seq<string>)
    ensures var body := LabelBody(p, acc, barcode, timestamp);
      && Path(body, ["Customer"] + rest) == Path(CustomerPart(p.company, acc), rest)
      && Path(body, ["Message"] + rest) == Path(MessagePart(timestamp), rest)
      && Path(body, ["Shipments"] + rest) == Path(ShipmentsPart(p, barcode), rest)
  {
    var body := LabelBody(p, acc, barcode, timestamp);
    PathThrough(body, ["Customer"], rest);
    PathThrough(body, ["Message"], rest);
    PathThrough(body, ["Shipments"], rest);
  }

  /** The label request carries the barcode obtained from the barcode call. */
  lemma LabelBodyBarcode(p: Picking, acc: Account, barcode: Json, timestamp: string)
    ensures Path(LabelBody(p, acc, barcode, timestamp), ["Shipments", "Barcode"]) == Some(barcode)
  {
    LabelBodyThrough(p, acc, barcode, timestamp, ["Barcode"]);
    assert ["Shipments"] + ["Barcode"] == ["Shipments", "Barcode"];
  }

  /** The account data and the sender address, inside the customer part. */
  lemma CustomerPartPaths(c: Company, acc: Account)
    ensures var cp := CustomerPart(c, acc);
      && Path(cp, ["Address"]) == Some(SenderAddress(c))
      && Path(cp, ["CustomerCode"]) == Some(CharJson(acc.customerCode))
      && Path(cp, ["CollectionLocation"]) == Some(CharJson(acc.collectionLocation))
      && Path(cp, ["CustomerNumber"]) == Some(JStr(IntToDecimal(acc.customerNumber)))
  {
  }

  /** The customer part: account data and the customer number as decimal text that reads back as the number. */
  lemma LabelBodyCustomer(p: Picking, acc: Account, barcode: Json, timestamp: string)
    ensures var body := LabelBody(p, acc, barcode, timestamp);
      && Path(body, ["Customer", "CustomerCode"]) == Some(CharJson(acc.customerCode))
      && Path(body, ["Customer", "CollectionLocation"]) == Some(CharJson(acc.collectionLocation))
      && Path(body, ["Customer", "CustomerNumber"]) == Some(JStr(IntToDecimal(acc.customerNumber)))
      && ParseDecimal(IntToDecimal(acc.customerNumber)) == Some(acc.customerNumber)
  {
    CustomerPartPaths(p.company, acc);
    LabelBodyThrough(p, acc, barcode, timestamp, ["CustomerCode"]);
    assert ["Customer"] + ["CustomerCode"] == ["Customer", "CustomerCode"];
    LabelBodyThrough(p, acc, barcode, timestamp, ["CollectionLocation"]);
    assert ["Customer"] + ["CollectionLocation"] == ["Customer", "CollectionLocation"];
    LabelBodyThrough(p, acc, barcode, timestamp, ["CustomerNumber"]);
    assert ["Customer"] + ["CustomerNumber"] == ["Customer", "CustomerNumber"];
    IntToDecimalRoundTrip(acc.customerNumber);
  }

  /**
   * The sender address sits at `Customer.Address`: the picking company's,
   * whose keys and values `SenderAddressFields` states.
   */
  lemma LabelBodySender(p: Picking, acc: Account, barcode: Json, timestamp: string)
    ensures Path(LabelBody(p, acc, barcode, timestamp), ["Customer", "Address"]) == Some(SenderAddress(p.company))
  {
    CustomerPartPaths(p.company, acc);
    LabelBodyThrough(p, acc, barcode, timestamp, ["Address"]);
    assert ["Customer"] + ["Address"] == ["Customer", "Address"];
  }

  /** The fixed literals inside the message part. */
  lemma MessagePartPaths(timestamp: string)
    ensures var m := MessagePart(timestamp);
      && Path(m, ["MessageID"]) == Some(JStr("1"))
      && Path(m, ["MessageTimeStamp"]) == Some(JStr(timestamp))
      && Path(m, ["Printertype"]) == Some(JStr("GraphicFile|PDF"))
  {
  }

  /** The fixed literals of the message part. */
  lemma LabelBodyMessage(p: Picking, acc: Account, barcode: Json, timestamp: string)
    ensures var body := LabelBody(p, acc, barcode, timestamp);
      && Path(body, ["Message", "MessageID"]) == Some(JStr("1"))
      && Path(body, ["Message", "MessageTimeStamp"]) == Some(JStr(timestamp))
      && Path(body, ["Message", "Printertype"]) == Some(JStr("GraphicFile|PDF"))
  {
    MessagePartPaths(timestamp);
    LabelBodyThrough(p, acc, barcode, timestamp, ["MessageID"]);
    assert ["Message"] + ["MessageID"] == ["Message", "MessageID"];
    LabelBodyThrough(p, acc, barcode, timestamp, ["MessageTimeStamp"]);
    assert ["Message"] + ["MessageTimeStamp"] == ["Message", "MessageTimeStamp"];
    LabelBodyThrough(p, acc, barcode, timestamp, ["Printertype"]);
    assert ["Message"] + ["Printertype"] == ["Message", "Printertype"];
  }

  /** The fixed literals and the pass-through dimensions, inside the shipment part. */
  lemma ShipmentsPartPaths(p: Picking, barcode: Json)
    ensures var s := ShipmentsPart(p, barcode);
      && Path(s, ["Addresses"]) == Some(JArr([ReceiverAddress(p.partner)]))
      && Path(s, ["DeliveryAddress"]) == Some(JStr("01"))
      && Path(s, ["ProductCodeDelivery"]) == Some(JStr("4945"))
      && Path(s, ["Dimension", "Weight"]) == Some(p.shippingWeight)
      && Path(s, ["Dimension", "Volume"]) == Some(p.volume)
  {
  }

  /** The fixed literals of the shipment part, and the pass-through dimensions. */
  lemma LabelBodyShipment(p: Picking, acc: Account, barcode: Json, timestamp: string)
    ensures var body := LabelBody(p, acc, barcode, timestamp);
      && Path(body, ["Shipments", "DeliveryAddress"]) == Some(JStr("01"))
      && Path(body, ["Shipments", "ProductCodeDelivery"]) == Some(JStr("4945"))
      && Path(body, ["Shipments", "Dimension", "Weight"]) == Some(p.shippingWeight)
      && Path(body, ["Shipments", "Dimension", "Volume"]) == Some(p.volume)
  {
    ShipmentsPartPaths(p, barcode);
    LabelBodyThrough(p, acc, barcode, timestamp, ["DeliveryAddress"]);
    assert ["Shipments"] + ["DeliveryAddress"] == ["Shipments", "DeliveryAddress"];
    LabelBodyThrough(p, acc, barcode, timestamp, ["ProductCodeDelivery"]);
    assert ["Shipments"] + ["ProductCodeDelivery"] == ["Shipments", "ProductCodeDelivery"];
    LabelBodyThrough(p, acc, barcode, timestamp, ["Dimension", "Weight"]);
    assert ["Shipments"] + ["Dimension", "Weight"] == ["Shipments", "Dimension", "Weight"];
    LabelBodyThrough(p, acc, barcode, timestamp, ["Dimension", "Volume"]);
    assert ["Shipments"] + ["Dimension", "Volume"] == ["Shipments", "Dimension", "Volume"];
  }

  /**
   * Exactly one receiver address at `Shipments.Addresses`: the partner's,
   * whose keys and values `ReceiverAddressFields` states.
   */
  lemma LabelBodyReceiver(p: Picking, acc: Account, barcode: Json, timestamp: string)
    ensures Path(LabelBody(p, acc, barcode, timestamp), ["Shipments", "Addresses"]) == Some(JArr([ReceiverAddress(p.partner)]))
  {
    ShipmentsPartPaths(p, barcode);
    LabelBodyThrough(p, acc, barcode, timestamp, ["Addresses"]);
    assert ["Shipments"] + ["Addresses"] == ["Shipments", "Addresses"];
  }
}
