/**
 * `action_generate_carrier_label`: PostNL labels are made while sending, so
 * the generic label action only receives the other pickings.
 */
module PostnlLabelAction {
  import opened Wrappers
  import opened PostnlTypes

  predicate IsPostnl(p: Picking) {
    DeliveryType(p) == Some(Postnl)
  }

  /** The recordset `filtered` hands to the generic action, in the original order. */
  function GenericLabelPickings(pickings: seq<Picking>): (r: seq<Picking>)
    ensures |r| <= |pickings|
    ensures forall k :: 0 <= k < |r| ==> !IsPostnl(r[k])
    decreases |pickings|
  {
    if pickings == [] then []
    else
      (if IsPostnl(pickings[0]) then [] else [pickings[0]]) + GenericLabelPickings(pickings[1..])
  }

  /** Each non-PostNL picking is kept as often as it occurs; no PostNL picking is kept. */
  lemma {:induction false} GenericLabelPickingsKeepsOthers(pickings: seq<Picking>)
    ensures forall p :: multiset(GenericLabelPickings(pickings))[p] == if IsPostnl(p) then 0 else multiset(pickings)[p]
    decreases |pickings|
  {
    if pickings != [] {
      GenericLabelPickingsKeepsOthers(pickings[1..]);
      assert pickings == [pickings[0]] + pickings[1..];
    }
  }

  /** Filtering a concatenation filters each part and keeps them in order. */
  lemma {:induction false} GenericLabelPickingsAppend(a: seq<Picking>, b: seq<Picking>)
    ensures GenericLabelPickings(a + b) == GenericLabelPickings(a) + GenericLabelPickings(b)
    decreases |a|
  {
    if a != [] {
      var head := if IsPostnl(a[0]) then [] else [a[0]];
      assert (a + b)[0] == a[0];
      assert (a + b)[1..] == a[1..] + b;
      assert GenericLabelPickings(a + b) == head + GenericLabelPickings(a[1..] + b);
      GenericLabelPickingsAppend(a[1..], b);
    } else {
      assert a + b == b;
    }
  }

  /** The generic action never sees a PostNL picking, and filtering twice changes nothing. */
  lemma {:induction false} GenericLabelPickingsIdempotent(pickings: seq<Picking>)
    ensures GenericLabelPickings(GenericLabelPickings(pickings)) == GenericLabelPickings(pickings)
    decreases |pickings|
  {
    if pickings != [] {
      var head := if IsPostnl(pickings[0]) then [] else [pickings[0]];
      GenericLabelPickingsAppend(head, GenericLabelPickings(pickings[1..]));
      GenericLabelPickingsIdempotent(pickings[1..]);
    }
  }
}
