/** The scenarios the module's behaviour is described by, on concrete data. */
module PostnlExamples {
  import opened Wrappers
  import opened Json
  import opened PostnlTypes
  import opened PostnlConfig
  import opened PostnlAccount
  import opened PostnlResponse
  import opened PostnlSend

  const Home: Company := Company(7, Some("YourCompany"), Some("Main 1"), Some("Utrecht"), Some("3511AA"), Some("NL"))
  const Receiver: Partner := Partner(Some("Jan"), Some("Kerkstraat"), Some("5"), None, Some("Amsterdam"), Some("1111AA"), Some("NL"))
  const Shipment: Picking := Picking(Some(Carrier(Postnl, false)), Home, Receiver, JInt(2), JInt(1), Some("3SABC123"))

  /** A company-scoped account beats the unscoped fallback listed before it. */
  lemma CompanyAccountFirst()
    ensures SelectAccount([DefaultAccount(None), DefaultAccount(Some(7))], Home) == Ok(DefaultAccount(Some(7)))
  {
  }

  /** Without a matching account the user error names the company. */
  lemma MissingAccount()
    ensures SelectAccount([DefaultAccount(Some(8))], Home) == Fail(NoAccount("YourCompany"))
  {
  }

  lemma TrackingLinkExample()
    ensures TrackingLink(map[TrackingUrlKey := "https://example/track/"], Shipment)
      == "https://example/track/3SABC123-NL-1111AA"
  {
  }

  /** A tracking URL stored as the empty text reads as False, which `%s` writes as "False". */
  lemma EmptyTrackingUrl()
    ensures TrackingLink(map[TrackingUrlKey := ""], Shipment) == "False3SABC123-NL-1111AA"
  {
  }

  lemma SandboxAndProductionKeys()
    ensures EndpointKey(BarcodeRequest, false) == "delivery_carrier_label_postnl.barcode_endpoint_sandbox"
    ensures EndpointKey(BarcodeRequest, true) == "delivery_carrier_label_postnl.barcode_endpoint_production"
  {
  }

  /** An account with an API key, and both sandbox endpoints configured. */
  const Keyed: Account := DefaultAccount(None).(apiKey := Some("key"))
  const Endpoints: map<string, string> := map[
    EndpointKey(BarcodeRequest, false) := "https://sandbox.example/barcode",
    EndpointKey(LabelRequest, false) := "https://sandbox.example/label"]

  /** The carrier answers the first call with a barcode and the second with one label. */
  function HappyServer(n: nat, req: Request): Json {
    if n == 0 then BarcodeResponse(JStr("B1"))
    else LabelResponse(JStr("B1"), [Label(JStr("T"), JStr("PDFDATA"), "pdf")])
  }

  lemma HappyPath()
    ensures SendOne(Shipment, World([Keyed], Endpoints, _ => "01-01-2021 00:00:00", HappyServer), 0).result
      == Ok(Shipped(0, JStr("B1"), [Label(JStr("T"), JStr("PDFDATA"), "pdf")]))
  {
    BarcodeRoundTrip(JStr("B1"));
    LabelRoundTrip(JStr("B1"), [Label(JStr("T"), JStr("PDFDATA"), "pdf")]);
  }

  /** Both configured endpoints resolve for a sandbox picking. */
  lemma EndpointsResolve()
    ensures RequestUrl(Endpoints, BarcodeRequest, false) == Some("https://sandbox.example/barcode")
    ensures RequestUrl(Endpoints, LabelRequest, false) == Some("https://sandbox.example/label")
  {
    var kb, kl := EndpointKey(BarcodeRequest, false), EndpointKey(LabelRequest, false);
    assert kb[|Namespace| + 1..|Namespace| + 2] == "b";
    assert kl[|Namespace| + 1..|Namespace| + 2] == "l";
    assert kb != kl;
  }

  /** The two calls of that run go to the configured sandbox endpoints with the account's API key. */
  lemma HappyPathCalls()
    ensures var s := SendOne(Shipment, World([Keyed], Endpoints, _ => "01-01-2021 00:00:00", HappyServer), 0);
      && |s.calls| == 2
      && s.calls[0].url == Some("https://sandbox.example/barcode")
      && s.calls[1].url == Some("https://sandbox.example/label")
      && s.calls[0].headers["apikey"] == s.calls[1].headers["apikey"] == JStr("key")
  {
    HappyPath();
    EndpointsResolve();
    SendOneSuccess(Shipment, World([Keyed], Endpoints, _ => "01-01-2021 00:00:00", HappyServer), 0);
  }

  /** The carrier rejects the barcode call with error 555. */
  lemma ApiErrorPath()
    ensures SendOne(Shipment, World([Keyed], Endpoints, _ => "01-01-2021 00:00:00",
        (n: nat, req: Request) => ErrorPayload(555, JStr("API exception message"))), 0).result
      == Fail(ApiFailure(BarcodeRequest, 555, JStr("API exception message")))
  {
    ErrorPayloadDecodes(555, JStr("API exception message"));
  }
}
