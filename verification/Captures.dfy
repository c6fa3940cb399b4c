/** The capture loop of listen mode: it always takes the oldest uncaptured stream, and a
    capture that fails leaves the row as it was. */
module Captures {
  type AssetId = nat

  // `outcomes(n)`: would turn `n` capture the stream it tries?
  type Outcomes = nat -> bool

  /** The waiting streams, oldest first, after `n` turns of the loop. */
  function Waiting(assets: seq<AssetId>, outcomes: Outcomes, n: nat): (rest: seq<AssetId>)
    ensures |rest| <= |assets|
  {
    if n == 0 then assets
    else
      var before := Waiting(assets, outcomes, n - 1);
      if before != [] && outcomes(n - 1) then before[1..] else before
  }

  function Successes(outcomes: Outcomes, n: nat): nat {
    if n == 0 then 0 else Successes(outcomes, n - 1) + if outcomes(n - 1) then 1 else 0
  }

  /** Theorem: after `n` turns as many streams have been captured, the oldest ones, as turns have
      succeeded; so the loop has come to its end exactly when the successes number the streams. */
  lemma {:induction false} EndedIff(assets: seq<AssetId>, outcomes: Outcomes, n: nat)
    ensures Successes(outcomes, n) <= |assets| ==> Waiting(assets, outcomes, n) == assets[Successes(outcomes, n)..]
    ensures Waiting(assets, outcomes, n) == [] <==> Successes(outcomes, n) >= |assets|
  {
    if n > 0 { EndedIff(assets, outcomes, n - 1); }
  }

  lemma {:induction false} SuccessesGrow(outcomes: Outcomes, m: nat, n: nat)
    requires m <= n
    ensures Successes(outcomes, m) <= Successes(outcomes, n)
    ensures (forall i :: m <= i < n ==> !outcomes(i)) ==> Successes(outcomes, n) == Successes(outcomes, m)
    decreases n - m
  {
    if m < n { SuccessesGrow(outcomes, m, n - 1); }
  }

  /** A stream that can never be captured blocks itself and everything behind it for ever. */
  lemma FailingBlocks(assets: seq<AssetId>, outcomes: Outcomes, m: nat, n: nat)
    requires m <= n && forall i :: m <= i < n ==> !outcomes(i)
    ensures Waiting(assets, outcomes, m) != [] ==> Waiting(assets, outcomes, n) == Waiting(assets, outcomes, m) != []
  {
    SuccessesGrow(outcomes, m, n);
    EndedIff(assets, outcomes, m);
    EndedIff(assets, outcomes, n);
  }

  class CaptureWorker {
    var waiting: seq<AssetId>

    constructor (assets: seq<AssetId>)
      ensures waiting == assets
    {
      waiting := assets;
    }

    /** `process_captures`, cut off after `turns` turns. */
    method ProcessCaptures(outcomes: Outcomes, turns: nat) returns (count: nat, finished: bool)
      modifies this
      ensures waiting == Waiting(old(waiting), outcomes, turns)
      ensures count == |old(waiting)| - |waiting| && (finished <==> waiting == [])
    {
      count := 0;
      for i := 0 to turns
        invariant waiting == Waiting(old(waiting), outcomes, i)
        invariant count == |old(waiting)| - |waiting|
      {
        if waiting != [] && outcomes(i) {
          waiting := waiting[1..];
          count := count + 1;
        }
      }
      finished := waiting == [];
    }
  }
}
