/** Lease timing of the heartbeat loop: it renews first, then does its other work, then waits. */
module Lease {
  const VISIBILITY_TIMEOUT := 60.0
  const HEARTBEAT_INTERVAL := 15.0
  const SLACK := VISIBILITY_TIMEOUT - HEARTBEAT_INTERVAL

  /** When the loop renews: first at `first`, and after a cycle with `work` seconds of other
      work and stalls, that much and one interval later. */
  function Renewals(first: real, work: seq<real>): (times: seq<real>)
    ensures |times| == |work| + 1
  {
    if work == [] then [first]
    else
      var before := Renewals(first, work[..|work| - 1]);
      before + [before[|before| - 1] + work[|work| - 1] + HEARTBEAT_INTERVAL]
  }

  lemma {:induction false} RenewalAt(first: real, work: seq<real>, i: nat)
    requires i <= |work|
    ensures Renewals(first, work)[0] == first
    ensures i > 0 ==> Renewals(first, work)[i] == Renewals(first, work)[i - 1] + work[i - 1] + HEARTBEAT_INTERVAL
  {
    if work != [] {
      RenewalAt(first, work[..|work| - 1], if i < |work| then i else 0);
    }
  }

  /** The loop itself. */
  method Heartbeat(first: real, work: seq<real>) returns (times: seq<real>)
    ensures times == Renewals(first, work)
  {
    var now := first;
    times := [now];
    for i := 0 to |work|
      invariant times == Renewals(first, work[..i])
      invariant now == times[|times| - 1]
    {
      now := now + work[i];
      now := now + HEARTBEAT_INTERVAL;
      times := times + [now];
      assert work[..i + 1][..i] == work[..i];
    }
    assert work[..|work|] == work;
  }

  /** Some lease covers time `t`: the one that came with the message, or a renewal. */
  ghost predicate Covered(received: real, times: seq<real>, t: real) {
    received <= t < received + 60.0
    || exists i :: 0 <= i < |times| && times[i] <= t < times[i] + 60.0
  }

  ghost predicate NeverLapses(received: real, times: seq<real>, stop: real) {
    forall t :: received <= t <= stop ==> Covered(received, times, t)
  }

  /** Every wait for the next renewal fits inside a lease. */
  ghost predicate Timely(received: real, first: real, work: seq<real>, stop: real) {
    first <= received + 60.0
    && (forall i :: 0 <= i < |work| ==> work[i] <= 45.0)
    && stop < Renewals(first, work)[|work|] + 60.0
  }

  lemma {:induction false} RenewalsIncrease(first: real, work: seq<real>, i: nat, k: nat)
    requires forall j :: 0 <= j < |work| ==> work[j] >= 0.0
    requires i <= k <= |work|
    ensures Renewals(first, work)[i] <= Renewals(first, work)[k]
    decreases k - i
  {
    if i < k {
      RenewalsIncrease(first, work, i, k - 1);
      RenewalAt(first, work, k);
    }
  }

  /** A moment before renewal `k` expires is covered by `k` or by an earlier lease. */
  lemma {:induction false} CoverageAt(received: real, first: real, work: seq<real>, t: real, k: nat)
    requires forall j :: 0 <= j < |work| ==> 0.0 <= work[j] <= SLACK
    requires first <= received + VISIBILITY_TIMEOUT && received <= t && k <= |work|
    requires t < Renewals(first, work)[k] + VISIBILITY_TIMEOUT
    ensures Covered(received, Renewals(first, work), t)
    decreases k
  {
    var times := Renewals(first, work);
    RenewalAt(first, work, k);
    if t < times[k] && k > 0 {
      assert work[k - 1] <= SLACK;
      CoverageAt(received, first, work, t, k - 1);
    }
  }

  /** A gap opens as soon as one wait is too long: the moment the lease runs out is uncovered. */
  lemma GapAfter(received: real, first: real, work: seq<real>, i: nat)
    requires forall j :: 0 <= j < |work| ==> work[j] >= 0.0
    requires received <= first && i < |work| && work[i] > SLACK
    ensures !Covered(received, Renewals(first, work), Renewals(first, work)[i] + VISIBILITY_TIMEOUT)
  {
    var times := Renewals(first, work);
    var t := times[i] + VISIBILITY_TIMEOUT;
    RenewalAt(first, work, i + 1);
    RenewalsIncrease(first, work, 0, i);
    RenewalAt(first, work, 0);
    forall k | 0 <= k < |times|
      ensures !(times[k] <= t < times[k] + VISIBILITY_TIMEOUT)
    {
      if k <= i { RenewalsIncrease(first, work, k, i); } else { RenewalsIncrease(first, work, i + 1, k); }
    }
  }

  /** Before the first renewal there is only the lease that came with the message. */
  lemma GapBefore(received: real, first: real, work: seq<real>)
    requires forall j :: 0 <= j < |work| ==> work[j] >= 0.0
    requires first > received + VISIBILITY_TIMEOUT
    ensures !Covered(received, Renewals(first, work), received + VISIBILITY_TIMEOUT)
  {
    forall k | 0 <= k < |Renewals(first, work)|
      ensures Renewals(first, work)[k] >= first
    {
      RenewalAt(first, work, 0);
      RenewalsIncrease(first, work, 0, k);
    }
  }

  /** Theorem: from receipt to heartbeat stop the lease never lapses if and only if the first renewal
      comes within one lease, every cycle's other work fits in the slack of 45 seconds, and the
      stop comes before the last renewal runs out. */
  lemma NeverLapsesIff(received: real, first: real, work: seq<real>, stop: real)
    requires forall j :: 0 <= j < |work| ==> work[j] >= 0.0
    requires received <= first && Renewals(first, work)[|work|] <= stop
    ensures NeverLapses(received, Renewals(first, work), stop) <==> Timely(received, first, work, stop)
  {
    var times := Renewals(first, work);
    RenewalAt(first, work, 0);
    RenewalsIncrease(first, work, 0, |work|);
    if Timely(received, first, work, stop) {
      forall t | received <= t <= stop
        ensures Covered(received, times, t)
      {
        CoverageAt(received, first, work, t, |work|);
      }
    } else if first > received + VISIBILITY_TIMEOUT {
      GapBefore(received, first, work);
      assert !Covered(received, times, received + VISIBILITY_TIMEOUT);
    } else if i :| 0 <= i < |work| && work[i] > SLACK {
      GapAfter(received, first, work, i);
      RenewalsIncrease(first, work, 0, i);
      RenewalAt(first, work, i + 1);
      RenewalsIncrease(first, work, i + 1, |work|);
      assert !Covered(received, times, times[i] + VISIBILITY_TIMEOUT);
    } else {
      LateStop(received, first, work, stop);
      assert !Covered(received, times, stop);
    }
  }

  lemma LateStop(received: real, first: real, work: seq<real>, stop: real)
    requires forall j :: 0 <= j < |work| ==> work[j] >= 0.0
    requires received <= first && stop >= Renewals(first, work)[|work|] + VISIBILITY_TIMEOUT
    ensures !Covered(received, Renewals(first, work), stop)
  {
    RenewalAt(first, work, 0);
    RenewalsIncrease(first, work, 0, |work|);
    forall k | 0 <= k < |Renewals(first, work)|
      ensures Renewals(first, work)[k] <= Renewals(first, work)[|work|]
    {
      RenewalsIncrease(first, work, k, |work|);
    }
  }
}
