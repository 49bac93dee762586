/**
 * `_postnl_send`: for each picking in order, select the account, request a
 * barcode, request a label carrying that barcode, and collect one result.
 * The HTTP calls and the wall clock are the world's: `server(n, request)`
 * is the decoded JSON answer to the n-th call of the run and `clock(n)` the
 * formatted time at which the n-th call's body is built.
 */
module PostnlSend {
  import opened Wrappers
  import opened Json
  import opened PostnlTypes
  import opened PostnlConfig
  import opened PostnlAccount
  import opened PostnlRequest
  import opened PostnlResponse

  datatype World = World(
    accounts: seq<Account>,
    config: map<string, string>,
    clock: nat -> string,
    server: (nat, Request) -> Json)

  /** The outcome for one picking and the calls made for it, in order. */
  datatype Step = Step(result: Result<Shipped, Error>, calls: seq<Request>)

  /** The outcome for a batch of pickings and the calls made for it, in order. */
  datatype Batch = Batch(result: Result<seq<Shipped>, Error>, calls: seq<Request>)

  /** The POST of `_postnl_request_barcode`. */
  function BarcodeCall(p: Picking, acc: Account, config: map<string, string>): (c: Request)
    ensures var key := EndpointKey(BarcodeRequest, Production(p));
      c.url.Some? <==> key in config && config[key] != ""
    ensures c.url.Some? ==> c.url.value == config[EndpointKey(BarcodeRequest, Production(p))]
    ensures c.headers == Headers(acc) && c.headers["apikey"] == CharJson(acc.apiKey)
    ensures Path(c.body, ["CustomerNumber"]) == Some(JInt(acc.customerNumber))
  {
    Request(RequestUrl(config, BarcodeRequest, Production(p)), Headers(acc), BarcodeBody(acc))
  }

  /** The POST of `_postnl_send_shipment`. */
  function LabelCall(p: Picking, acc: Account, config: map<string, string>, barcode: Json, timestamp: string): (c: Request)
    ensures var key := EndpointKey(LabelRequest, Production(p));
      c.url.Some? <==> key in config && config[key] != ""
    ensures c.url.Some? ==> c.url.value == config[EndpointKey(LabelRequest, Production(p))]
    ensures c.headers == Headers(acc) && c.headers["apikey"] == CharJson(acc.apiKey)
    ensures Path(c.body, ["Shipments", "Barcode"]) == Some(barcode)
  {
    LabelBodyBarcode(p, acc, barcode, timestamp);
    Request(RequestUrl(config, LabelRequest, Production(p)), Headers(acc), LabelBody(p, acc, barcode, timestamp))
  }

  /** One iteration of the loop; `base` is the number of calls made before it. */
  function SendOne(p: Picking, w: World, base: nat): (s: Step)
    ensures |s.calls| <= 2
    ensures s.calls == [] <==> SelectAccount(w.accounts, p.company).Fail?
    ensures s.result.Ok? ==> |s.calls| == 2
  {
    match SelectAccount(w.accounts, p.company)
    case Fail(e) => Step(Fail(e), [])
    case Ok(acc) =>
      var b := BarcodeCall(p, acc, w.config);
      match DecodeBarcode(w.server(base, b))
      case Fail(e) => Step(Fail(e), [b])
      case Ok(code) =>
        var l := LabelCall(p, acc, w.config, code, w.clock(base + 1));
        Step(DecodeLabel(w.server(base + 1, l)), [b, l])
  }

  /**
   * A picking that succeeds made exactly two calls: first the barcode call to
   * the barcode endpoint, then the label call to the label endpoint carrying
   * the barcode decoded from the first answer; its result is the decoded
   * second answer.
   */
  lemma SendOneSuccess(p: Picking, w: World, base: nat)
    requires SendOne(p, w, base).result.Ok?
    ensures SelectAccount(w.accounts, p.company).Ok?
    ensures var acc := SelectAccount(w.accounts, p.company).value;
      var s := SendOne(p, w, base);
      && |s.calls| == 2
      && s.calls[0].url == RequestUrl(w.config, BarcodeRequest, Production(p))
      && s.calls[1].url == RequestUrl(w.config, LabelRequest, Production(p))
      && s.calls[0].headers["apikey"] == s.calls[1].headers["apikey"] == CharJson(acc.apiKey)
      && s.calls[0].body == BarcodeBody(acc)
      && s.calls[1].body == LabelBody(p, acc, DecodeBarcode(w.server(base, s.calls[0])).value, w.clock(base + 1))
      && DecodeBarcode(w.server(base, s.calls[0])).Ok?
      && Path(s.calls[1].body, ["Shipments", "Barcode"]) == Some(DecodeBarcode(w.server(base, s.calls[0])).value)
      && s.result == DecodeLabel(w.server(base + 1, s.calls[1]))
  {
    var acc := SelectAccount(w.accounts, p.company).value;
    var s := SendOne(p, w, base);
    LabelBodyBarcode(p, acc, DecodeBarcode(w.server(base, s.calls[0])).value, w.clock(base + 1));
  }

  /** A picking that fails made at most two calls, and none at all when no account matched. */
  lemma SendOneFailure(p: Picking, w: World, base: nat)
    requires SendOne(p, w, base).result.Fail?
    ensures var s := SendOne(p, w, base);
      && |s.calls| <= 2
      && (SelectAccount(w.accounts, p.company).Fail? <==> s.calls == [])
      && (s.calls == [] ==> s.result.error == NoAccount(CharText(p.company.name)))
      && (|s.calls| == 1 ==> DecodeBarcode(w.server(base, s.calls[0])) == Fail(s.result.error))
      && (|s.calls| == 2 ==> DecodeBarcode(w.server(base, s.calls[0])).Ok?)
      && (|s.calls| == 2 ==> s.result == DecodeLabel(w.server(base + 1, s.calls[1])))
  {
  }

  /** The per-picking step of one run of the adapter. */
  function StepOf(w: World): (Picking, nat) -> Step {
    (p: Picking, base: nat) => SendOne(p, w, base)
  }

  /** A step that succeeds has made exactly two calls. */
  ghost predicate TwoCallsOnSuccess(step: (Picking, nat) -> Step) {
    forall p: Picking, base: nat :: step(p, base).result.Ok? ==> |step(p, base).calls| == 2
  }

  lemma StepOfTwoCalls(w: World)
    ensures TwoCallsOnSuccess(StepOf(w))
  {
    forall p: Picking, base: nat | StepOf(w)(p, base).result.Ok?
      ensures |StepOf(w)(p, base).calls| == 2
    {
      SendOneSuccess(p, w, base);
    }
  }

  /**
   * The first `n` iterations of the loop, stopping at the first failure;
   * each step is numbered from the count of calls made before it.
   */
  function Loop(pickings: seq<Picking>, step: (Picking, nat) -> Step, n: nat): (b: Batch)
    requires n <= |pickings|
    ensures b.result.Ok? ==> |b.result.value| == n
    ensures n == 0 ==> b == Batch(Ok([]), [])
    decreases n
  {
    if n == 0 then Batch(Ok([]), [])
    else
      var prev := Loop(pickings, step, n - 1);
      if prev.result.Fail? then prev
      else
        var s := step(pickings[n - 1], |prev.calls|);
        match s.result
        case Ok(v) => Batch(Ok(prev.result.value + [v]), prev.calls + s.calls)
        case Fail(e) => Batch(Fail(e), prev.calls + s.calls)
  }

  /** Once an iteration fails, no later picking is processed. */
  lemma {:induction false} FailureStops(pickings: seq<Picking>, step: (Picking, nat) -> Step, n: nat, m: nat)
    requires n <= m <= |pickings|
    requires Loop(pickings, step, n).result.Fail?
    ensures Loop(pickings, step, m) == Loop(pickings, step, n)
    decreases m
  {
    if m > n {
      FailureStops(pickings, step, n, m - 1);
    }
  }

  /** A run that succeeds has one result per picking, in picking order, two calls per picking. */
  lemma {:induction false} LoopSuccess(pickings: seq<Picking>, step: (Picking, nat) -> Step, n: nat)
    requires n <= |pickings|
    requires TwoCallsOnSuccess(step)
    requires Loop(pickings, step, n).result.Ok?
    ensures var b := Loop(pickings, step, n);
      && |b.result.value| == n
      && |b.calls| == 2 * n
      && forall k :: 0 <= k < n ==>
           step(pickings[k], 2 * k) == Step(Ok(b.result.value[k]), b.calls[2 * k..2 * k + 2])
    decreases n
  {
    if n > 0 {
      LoopSuccess(pickings, step, n - 1);
      var prev := Loop(pickings, step, n - 1);
      var b := Loop(pickings, step, n);
      var s := step(pickings[n - 1], 2 * (n - 1));
      assert b.calls == prev.calls + s.calls;
      assert b.result.value == prev.result.value + [s.result.value];
      assert b.calls[2 * (n - 1)..2 * n] == s.calls;
      PairsKept(prev.calls, s.calls, n - 1);
    }
  }

  /** Appending calls keeps the pairs of calls already made. */
  lemma {:induction false} PairsKept(prev: seq<Request>, extra: seq<Request>, n: nat)
    requires |prev| == 2 * n
    ensures forall k :: 0 <= k < n ==> (prev + extra)[2 * k..2 * k + 2] == prev[2 * k..2 * k + 2]
  {
    forall k | 0 <= k < n
      ensures (prev + extra)[2 * k..2 * k + 2] == prev[2 * k..2 * k + 2]
    {
    }
  }

  /** Picking `k` is the first to fail and the run stopped right after its calls. */
  predicate FailsFirstAt(pickings: seq<Picking>, step: (Picking, nat) -> Step, k: nat, b: Batch)
    requires k < |pickings|
  {
    && (forall j :: 0 <= j < k ==> step(pickings[j], 2 * j).result.Ok?)
    && b.result.Fail?
    && step(pickings[k], 2 * k).result == Fail(b.result.error)
    && |b.calls| == 2 * k + |step(pickings[k], 2 * k).calls|
  }

  /**
   * A run that fails failed at some picking `k`: every earlier picking
   * succeeded, the error is picking `k`'s, and no call was made after its own.
   */
  lemma {:induction false} LoopFailure(pickings: seq<Picking>, step: (Picking, nat) -> Step, n: nat)
    requires n <= |pickings|
    requires TwoCallsOnSuccess(step)
    requires Loop(pickings, step, n).result.Fail?
    ensures exists k :: 0 <= k < n && FailsFirstAt(pickings, step, k, Loop(pickings, step, n))
    decreases n
  {
    var prev := Loop(pickings, step, n - 1);
    if prev.result.Fail? {
      LoopFailure(pickings, step, n - 1);
      var k :| 0 <= k < n - 1 && FailsFirstAt(pickings, step, k, prev);
      assert FailsFirstAt(pickings, step, k, Loop(pickings, step, n));
    } else {
      LoopSuccess(pickings, step, n - 1);
      assert FailsFirstAt(pickings, step, n - 1, Loop(pickings, step, n));
    }
  }

  /** What a whole run promises: one result per picking in order, or the first failure. */
  lemma RunOutcome(pickings: seq<Picking>, w: World)
    ensures var b := Loop(pickings, StepOf(w), |pickings|);
      && (b.result.Ok? ==> |b.result.value| == |pickings| && |b.calls| == 2 * |pickings|)
      && (b.result.Ok? ==> forall k :: 0 <= k < |pickings| ==> StepOf(w)(pickings[k], 2 * k).result == Ok(b.result.value[k]))
      && (b.result.Fail? ==> exists k :: 0 <= k < |pickings| && FailsFirstAt(pickings, StepOf(w), k, b))
  {
    StepOfTwoCalls(w);
    if Loop(pickings, StepOf(w), |pickings|).result.Ok? {
      LoopSuccess(pickings, StepOf(w), |pickings|);
    } else {
      LoopFailure(pickings, StepOf(w), |pickings|);
    }
  }

  /**
   * The loop of `_postnl_send` over any per-picking step: run the pickings in
   * order, numbering each step from the calls made so far, and abort at the
   * first failure. Its outcome is the run `Loop` describes.
   */
  method RunSteps(pickings: seq<Picking>, step: (Picking, nat) -> Step) returns (r: Result<seq<Shipped>, Error>, calls: seq<Request>)
    ensures Batch(r, calls) == Loop(pickings, step, |pickings|)
  {
    var results: seq<Shipped> := [];
    calls := [];
    var i := 0;
    while i < |pickings|
      invariant 0 <= i <= |pickings|
      invariant Loop(pickings, step, i) == Batch(Ok(results), calls)
    {
      var s := step(pickings[i], |calls|);
      calls := calls + s.calls;
      if s.result.Fail? {
        r := s.result.PropagateFailure();
        FailureStops(pickings, step, i + 1, |pickings|);
        return;
      }
      results := results + [s.result.value];
      i := i + 1;
    }
    r := Ok(results);
  }

  /**
   * `_postnl_send`: the loop over the pickings with the adapter's own step.
   * Its outcome is the run `Loop` describes; RunOutcome states what that run
   * promises.
   */
  method Send(pickings: seq<Picking>, w: World) returns (r: Result<seq<Shipped>, Error>, calls: seq<Request>)
    ensures Batch(r, calls) == Loop(pickings, StepOf(w), |pickings|)
  {
    r, calls := RunSteps(pickings, StepOf(w));
  }
}
