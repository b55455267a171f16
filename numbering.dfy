/** The product counter of `hover_and_click_icons`: it starts at
    `start_product_number` and goes up by one only when a product's whole
    `try` block finished, i.e. after its record was written AND its close
    buttons were clicked. */
module Numbering {

  /** What happened to one listing: skipped before anything was written, or
      written, with `closed` telling whether the rest of the block succeeded. */
  datatype Outcome<R> = Skipped | Written(record: R, closed: bool)

  predicate Completes<R>(o: Outcome<R>)
  {
    o.Written? && o.closed
  }

  /** The number of fully completed products. */
  function Completed<R>(outs: seq<Outcome<R>>): (c: nat)
    ensures c <= |outs|
  {
    if outs == [] then 0
    else Completed(outs[..|outs| - 1]) + (if Completes(outs[|outs| - 1]) then 1 else 0)
  }

  /** The counter's value when listing `i` is reached. */
  function NumberAt<R>(outs: seq<Outcome<R>>, start: int, i: nat): int
    requires i <= |outs|
  {
    start + Completed(outs[..i])
  }

  /** Every product is numbered after the fully completed ones before it. */
  lemma NumberStep<R>(outs: seq<Outcome<R>>, start: int, i: nat)
    requires i < |outs|
    ensures NumberAt(outs, start, i + 1) == NumberAt(outs, start, i) + (if Completes(outs[i]) then 1 else 0)
  {
    assert outs[..i + 1][..i] == outs[..i];
  }

  /** The counter never goes down and grows by at most one per listing. */
  lemma {:induction false} NumberMonotone<R>(outs: seq<Outcome<R>>, start: int, i: nat, j: nat)
    requires i <= j <= |outs|
    ensures NumberAt(outs, start, i) <= NumberAt(outs, start, j) <= NumberAt(outs, start, i) + (j - i)
  {
    if i < j {
      NumberMonotone(outs, start, i, j - 1);
      NumberStep(outs, start, j - 1);
    }
  }

  /** Fully completed products carry pairwise distinct numbers. */
  lemma CompletedNumbersDistinct<R>(outs: seq<Outcome<R>>, start: int, i: nat, j: nat)
    requires i < j < |outs|
    requires Completes(outs[i])
    ensures NumberAt(outs, start, i) < NumberAt(outs, start, j)
  {
    NumberStep(outs, start, i);
    NumberMonotone(outs, start, i + 1, j);
  }

  /** A product that was written but then failed at a close button leaves
      its number to the next product, as long as no product completes in
      between. */
  lemma {:induction false} NumberReused<R>(outs: seq<Outcome<R>>, start: int, i: nat, j: nat)
    requires i < j <= |outs|
    requires outs[i].Written? && !outs[i].closed
    requires forall k :: i < k < j ==> !Completes(outs[k])
    ensures NumberAt(outs, start, j) == NumberAt(outs, start, i)
  {
    NumberStep(outs, start, j - 1);
    if j - 1 > i {
      NumberReused(outs, start, i, j - 1);
    }
  }

  /** The counter ends at `start` plus the number of listings exactly when
      every listing completed. */
  lemma {:induction false} AllCompleted<R>(outs: seq<Outcome<R>>)
    ensures Completed(outs) == |outs| <==> forall k :: 0 <= k < |outs| ==> Completes(outs[k])
  {
    if outs != [] {
      var init := outs[..|outs| - 1];
      AllCompleted(init);
      assert forall k :: 0 <= k < |init| ==> init[k] == outs[k];
    }
  }
}
