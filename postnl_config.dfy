/**
 * `ir.config_parameter` lookups of the adapter: the endpoint keys
 * (`_postnl_request_url`) and the tracking link (`_postnl_get_tracking_link`).
 */
module PostnlConfig {
  import opened Wrappers
  import opened Text
  import opened PostnlTypes

  const Namespace: string := "delivery_carrier_label_postnl"
  const BarcodeRequest: string := "barcode"
  const LabelRequest: string := "label"

  /**
   * `get_param(key)`, which returns the stored value `or` False: the stored
   * text, None (Python False) when the key is not set or holds the empty text.
   */
  function GetParam(config: map<string, string>, key: string): (v: Option<string>)
    ensures v.Some? <==> key in config && config[key] != ""
    ensures v.Some? ==> v.value == config[key] && v.value != ""
  {
    if key in config && config[key] != "" then Some(config[key]) else None
  }

  function Environment(production: bool): string {
    if production then "production" else "sandbox"
  }

  /** The configuration key naming the endpoint of one request type in one environment. */
  function EndpointKey(requestType: string, production: bool): (key: string)
    ensures |key| > |Namespace| + |requestType| && key[..|Namespace| + 1] == Namespace + "."
    ensures key[|Namespace| + 1..|Namespace| + 1 + |requestType|] == requestType
    ensures key[|key| - |Environment(production)|..] == Environment(production)
  {
    Namespace + "." + requestType + "_endpoint_" + Environment(production)
  }

  /** `_postnl_request_url`: the endpoint configured for the request type and the picking's environment. */
  function RequestUrl(config: map<string, string>, requestType: string, production: bool): (url: Option<string>)
    ensures var key := EndpointKey(requestType, production);
      url.Some? <==> key in config && config[key] != ""
    ensures url.Some? ==> url.value == config[EndpointKey(requestType, production)]
  {
    GetParam(config, EndpointKey(requestType, production))
  }

  /** The key has the namespace as prefix and the environment name as suffix. */
  lemma EndpointKeyShape(requestType: string, production: bool)
    ensures var key := EndpointKey(requestType, production);
      var env := if production then "production" else "sandbox";
      |key| == |Namespace| + 1 + |requestType| + 10 + |env|
      && key[..|Namespace| + 1] == "delivery_carrier_label_postnl."
      && key[|Namespace| + 1..|Namespace| + 1 + |requestType|] == requestType
      && key[|key| - |env| - 10..] == "_endpoint_" + env
  {
  }

  /** Distinct (request type, environment) pairs never share a key: the key determines both. */
  lemma EndpointKeyInjective(t1: string, p1: bool, t2: string, p2: bool)
    requires EndpointKey(t1, p1) == EndpointKey(t2, p2)
    ensures t1 == t2 && p1 == p2
  {
    var k := EndpointKey(t1, p1);
    assert k[|k| - 1] == (if p1 then 'n' else 'x');
    assert k[|k| - 1] == (if p2 then 'n' else 'x');
    EndpointKeyShape(t1, p1);
    EndpointKeyShape(t2, p2);
  }

  /** Production and sandbox keys differ whatever the request types. */
  lemma EndpointKeyEnvironmentsDiffer(t1: string, t2: string)
    ensures EndpointKey(t1, true) != EndpointKey(t2, false)
  {
    if EndpointKey(t1, true) == EndpointKey(t2, false) {
      EndpointKeyInjective(t1, true, t2, false);
    }
  }

  const TrackingUrlKey: string := Namespace + ".tracking_url"

  /** Where each part of a dash-joined tracking link sits. */
  lemma TrackingLinkSlices(base: string, ref: string, cc: string, zip: string)
    ensures var link := base + ref + "-" + cc + "-" + zip;
      && |link| == |base| + |ref| + |cc| + |zip| + 2
      && link[..|base|] == base
      && link[|base|..|base| + |ref|] == ref
      && link[|base| + |ref|] == '-'
      && link[|base| + |ref| + 1..|link| - |zip| - 1] == cc
      && link[|link| - |zip| - 1..] == "-" + zip
  {
    var link := base + ref + "-" + cc + "-" + zip;
    assert link == (base + ref) + (['-'] + cc) + (['-'] + zip);
    assert link[..|base|] == base;
    assert link[|base|..|base| + |ref|] == ref;
    assert link[|base| + |ref| + 1..|link| - |zip| - 1] == cc;
    assert link[|link| - |zip| - 1..] == ['-'] + zip;
  }

  /** `_postnl_get_tracking_link`: base URL, tracking reference, country code and zip, dash-separated. */
  function TrackingLink(config: map<string, string>, p: Picking): (link: string)
    ensures var base := CharText(GetParam(config, TrackingUrlKey));
      var ref := CharText(p.trackingRef);
      var cc, zip := CharText(p.partner.countryCode), CharText(p.partner.zip);
      && |link| == |base| + |ref| + |cc| + |zip| + 2
      && link[..|base|] == base
      && link[|base|..|base| + |ref|] == ref
      && link[|base| + |ref|] == '-'
      && link[|base| + |ref| + 1..|link| - |zip| - 1] == cc
      && link[|link| - |zip| - 1..] == "-" + zip
  {
    var base, ref := CharText(GetParam(config, TrackingUrlKey)), CharText(p.trackingRef);
    var cc, zip := CharText(p.partner.countryCode), CharText(p.partner.zip);
    TrackingLinkSlices(base, ref, cc, zip);
    base + ref + "-" + cc + "-" + zip
  }

  /** Reads a tracking link back from its end: (base URL and reference, country code, zip). */
  function ParseTrackingLink(link: string): Option<(string, string, string)> {
    match SplitLast(link, '-')
    case None => None
    case Some((rest, zip)) =>
      match SplitLast(rest, '-')
      case None => None
      case Some((head, country)) => Some((head, country, zip))
  }

  /** A tracking link whose country code and zip hold no dash gives back every part it was made of. */
  lemma TrackingLinkRoundTrip(config: map<string, string>, p: Picking)
    requires '-' !in CharText(p.partner.countryCode) && '-' !in CharText(p.partner.zip)
    ensures ParseTrackingLink(TrackingLink(config, p)) == Some((
      CharText(GetParam(config, TrackingUrlKey)) + CharText(p.trackingRef),
      CharText(p.partner.countryCode),
      CharText(p.partner.zip)))
  {
    var head := CharText(GetParam(config, TrackingUrlKey)) + CharText(p.trackingRef);
    var cc, zip := CharText(p.partner.countryCode), CharText(p.partner.zip);
    assert TrackingLink(config, p) == (head + ['-'] + cc) + ['-'] + zip;
    SplitLastJoin(head + ['-'] + cc, zip, '-');
    SplitLastJoin(head, cc, '-');
  }
}
