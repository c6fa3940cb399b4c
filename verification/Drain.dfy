/** The listen-mode drain: `process_pending` in one worker and in many, `recover_interrupted`,
    and the capture loop. */
module Drain {
  import opened Basics
  import opened Jobs

  type WorkerId = nat

  // `live`: the source asset is not soft-deleted.  Ids stand for creation order.
  datatype Row = Row(status: VariantStatus, live: bool, stream: bool) {
    predicate Claimable() { status == VPending && live }
  }

  type Table = map<VariantId, Row>

  function Claimable(rows: Table): set<VariantId> {
    set v | v in rows && rows[v].Claimable()
  }

  /** Where a transcode may leave its row: an abort leaves it PROCESSING, and only a stream
      goes back to PENDING. */
  predicate Ending(row: Row, end: VariantStatus) {
    (end == VPending ==> row.stream) && end != VCancelled
  }

  function SetRow(rows: Table, v: VariantId, status: VariantStatus): Table
    requires v in rows
  {
    rows[v := rows[v].(status := status)]
  }

  // ------------------------------------------------------- many workers

  // `returned` counts how often a variant came back to PENDING, by a retry or by a recovery.
  datatype State = State(rows: Table, held: map<WorkerId, VariantId>, claims: seq<(WorkerId, VariantId)>, returned: multiset<VariantId>)

  // A worker that dies leaves its row PROCESSING, as an abort does; `Recover` runs when one starts.
  datatype Step = Claim(w: WorkerId, v: VariantId) | Finish(w: WorkerId, end: VariantStatus) | Delete(v: VariantId) | Recover

  /** The row the claim query locks: the oldest claimable one. */
  predicate Oldest(rows: Table, v: VariantId) {
    v in rows && rows[v].Claimable() && forall u :: u in rows && u < v ==> !rows[u].Claimable()
  }

  /** The oldest row that is PENDING and whose asset has not been deleted. */
  lemma OldestIff(rows: Table, v: VariantId)
    ensures Oldest(rows, v)
            <==> v in rows && rows[v].status == VPending && rows[v].live
                 && forall u :: u in rows && rows[u].status == VPending && rows[u].live ==> v <= u
  {
  }

  predicate Enabled(s: State, a: Step) {
    match a
    case Claim(w, v) => w !in s.held && Oldest(s.rows, v)
    case Finish(w, end) => w in s.held && s.held[w] in s.rows && Ending(s.rows[s.held[w]], end)
    case Delete(v) => v in s.rows
    case Recover => true
  }

  function Stuck(rows: Table): set<VariantId> {
    set v | v in rows && rows[v].status == VProcessing
  }

  /** `recover_interrupted`: every PROCESSING row goes back, whoever is at it. */
  function Recovered(rows: Table): Table {
    map v | v in rows :: if rows[v].status == VProcessing then rows[v].(status := VPending) else rows[v]
  }

  function Do(s: State, a: Step): State
    requires Enabled(s, a)
  {
    match a
    case Claim(w, v) =>
      s.(rows := SetRow(s.rows, v, VProcessing), held := s.held[w := v], claims := s.claims + [(w, v)])
    case Finish(w, end) =>
      s.(rows := SetRow(s.rows, s.held[w], end), held := s.held - {w},
         returned := if end == VPending then s.returned + multiset{s.held[w]} else s.returned)
    case Delete(v) => s.(rows := s.rows[v := s.rows[v].(live := false)])
    case Recover => s.(rows := Recovered(s.rows), returned := s.returned + multiset(Stuck(s.rows)))
  }

  // When recoveries happen: not at all, only with nobody at work, or at any start.
  datatype Recoveries = Never | Alone | Anytime

  predicate Allowed(r: Recoveries, s: State, a: Step) {
    a.Recover? ==> r.Anytime? || (r.Alone? && s.held == map[])
  }

  ghost predicate IsRun(r: Recoveries, rows: Table, states: seq<State>, steps: seq<Step>) {
    |states| == |steps| + 1 && states[0] == State(rows, map[], [], multiset{})
    && forall i :: 0 <= i < |steps| ==>
         Enabled(states[i], steps[i]) && Allowed(r, states[i], steps[i]) && states[i + 1] == Do(states[i], steps[i])
  }

  function ClaimCount(claims: seq<(WorkerId, VariantId)>, v: VariantId): nat {
    if claims == [] then 0 else ClaimCount(claims[..|claims| - 1], v) + if claims[|claims| - 1].1 == v then 1 else 0
  }

  function Open(rows: Table, v: VariantId): nat {
    if v in rows && rows[v].Claimable() then 1 else 0
  }

  /** The books for one variant: what has been claimed and what still can be is what there was at
      the start and what came back; only a deletion takes something off. */
  ghost predicate Balanced(rows: Table, s: State, v: VariantId) {
    v in rows && v in s.rows && s.rows[v].stream == rows[v].stream
    && (s.rows[v].live ==> rows[v].live)
    && ClaimCount(s.claims, v) + Open(s.rows, v) <= Open(rows, v) + s.returned[v]
    && (s.rows[v].live ==> ClaimCount(s.claims, v) + Open(s.rows, v) == Open(rows, v) + s.returned[v])
  }

  /** Whoever holds a variant holds it alone, and its row says so. */
  ghost predicate Exclusive(s: State) {
    (forall w :: w in s.held ==> s.held[w] in s.rows && s.rows[s.held[w]].status == VProcessing)
    && (forall w, x :: w in s.held && x in s.held && w != x ==> s.held[w] != s.held[x])
  }

  lemma ClaimsAfter(s: State, a: Step, v: VariantId)
    requires Enabled(s, a)
    ensures ClaimCount(Do(s, a).claims, v) == ClaimCount(s.claims, v) + if a.Claim? && a.v == v then 1 else 0
  {
    if a.Claim? { assert Do(s, a).claims[..|Do(s, a).claims| - 1] == s.claims; }
  }

  lemma OpenAfter(s: State, a: Step, v: VariantId)
    requires Enabled(s, a) && Exclusive(s) && v in s.rows
    ensures var s' := Do(s, a);
      v in s'.rows && s'.rows[v].stream == s.rows[v].stream && (s'.rows[v].live ==> s.rows[v].live)
      && s'.returned[v] >= s.returned[v]
      && Open(s'.rows, v) + (if a.Claim? && a.v == v then 1 else 0) <= Open(s.rows, v) + s'.returned[v] - s.returned[v]
      && (s'.rows[v].live ==>
            Open(s'.rows, v) + (if a.Claim? && a.v == v then 1 else 0) == Open(s.rows, v) + s'.returned[v] - s.returned[v])
  {
    if a.Recover? { assert multiset(Stuck(s.rows))[v] == if v in Stuck(s.rows) then 1 else 0; }
  }

  lemma StepBalances(rows: Table, s: State, a: Step, v: VariantId)
    requires Enabled(s, a) && Balanced(rows, s, v) && Exclusive(s)
    ensures Balanced(rows, Do(s, a), v)
  {
    ClaimsAfter(s, a, v);
    OpenAfter(s, a, v);
  }

  lemma StepKeepsExclusive(r: Recoveries, s: State, a: Step)
    requires Enabled(s, a) && Allowed(r, s, a) && !r.Anytime? && Exclusive(s)
    ensures Exclusive(Do(s, a)) && Do(s, a).rows.Keys == s.rows.Keys
  {
  }

  /** Theorem: in every run whose recoveries happen with nobody at work, each variant is held by at
      most one worker, and the books balance for every variant. */
  lemma {:induction false} BooksBalance(r: Recoveries, rows: Table, states: seq<State>, steps: seq<Step>, n: nat)
    requires IsRun(r, rows, states, steps) && !r.Anytime? && n < |states|
    ensures Exclusive(states[n]) && states[n].rows.Keys == rows.Keys
    ensures forall v :: v in rows ==> Balanced(rows, states[n], v)
  {
    if n > 0 {
      BooksBalance(r, rows, states, steps, n - 1);
      assert Enabled(states[n - 1], steps[n - 1]);
      StepKeepsExclusive(r, states[n - 1], steps[n - 1]);
      forall v | v in rows ensures Balanced(rows, states[n], v) { StepBalances(rows, states[n - 1], steps[n - 1], v); }
    }
  }

  /** Theorem: such drains of a fixed set partition it.  A variant that never came back is claimed at
      most once; and once nothing is claimable, if its asset survived, it was claimed by exactly one
      worker if and only if it was claimable at the start. */
  lemma DrainPartitions(r: Recoveries, rows: Table, states: seq<State>, steps: seq<Step>, v: VariantId)
    requires IsRun(r, rows, states, steps) && !r.Anytime? && v in rows && states[|steps|].returned[v] == 0
    ensures var s := states[|steps|];
      ClaimCount(s.claims, v) <= 1
      && (Claimable(s.rows) == {} && v in s.rows && s.rows[v].live ==>
            (ClaimCount(s.claims, v) == 1 <==> rows[v].Claimable()) && s.rows[v].status != VPending)
  {
    BooksBalance(r, rows, states, steps, |steps|);
    var s := states[|steps|];
    assert Balanced(rows, s, v);
    if v in s.rows && s.rows[v].Claimable() { assert v in Claimable(s.rows); }
  }

  /** Theorem: a recovery keeps every holder alone on its variant if and only if there is no holder. */
  lemma RecoverKeepsExclusiveIff(s: State)
    requires Exclusive(s)
    ensures Exclusive(Do(s, Recover)) <==> s.held == map[]
  {
    if w :| w in s.held { assert Do(s, Recover).rows[s.held[w]].status == VPending; }
  }

  /** One worker claims the only variant, another one starts and recovers it, and claims it too. */
  lemma RecoverSharesVariant() returns (rows: Table, states: seq<State>, steps: seq<Step>)
    ensures IsRun(Anytime, rows, states, steps) && rows.Keys == {0}
    ensures var s := states[|steps|]; 0 in s.held && 1 in s.held && s.held[0] == s.held[1] == 0
  {
    rows := map[0 := Row.Row(VPending, true, false)];
    var s0 := State(rows, map[], [], multiset{});
    var s1 := Do(s0, Claim(0, 0));
    var s2 := Do(s1, Recover);
    assert s2.rows[0] == Row.Row(VPending, true, false) && s2.rows.Keys == {0};
    var s3 := Do(s2, Claim(1, 0));
    states, steps := [s0, s1, s2, s3], [Claim(0, 0), Recover, Claim(1, 0)];
  }

  // ------------------------------------------------------------- how long

  /** Theorem: how long the drains can go on.  The claims number at most the variants claimable at
      the start plus what came back, so without that they end. */
  lemma {:induction false} ClaimsBounded(r: Recoveries, rows: Table, states: seq<State>, steps: seq<Step>, n: nat)
    requires IsRun(r, rows, states, steps) && !r.Anytime? && n < |states|
    ensures |states[n].claims| + |Claimable(states[n].rows)| <= |Claimable(rows)| + |states[n].returned|
  {
    if n > 0 {
      ClaimsBounded(r, rows, states, steps, n - 1);
      BooksBalance(r, rows, states, steps, n - 1);
      var s, a := states[n - 1], steps[n - 1];
      assert Enabled(s, a);
      if a.Recover? { RecoverOpens(s); } else { ClaimableAfter(s, a); }
    }
  }

  lemma RecoverOpens(s: State)
    ensures var s' := Do(s, Recover);
      |Claimable(s'.rows)| + |s.returned| <= |Claimable(s.rows)| + |s'.returned|
  {
    var s' := Do(s, Recover);
    assert |s'.returned| == |s.returned| + |Stuck(s.rows)|;
    assert Claimable(s'.rows) <= Claimable(s.rows) + Stuck(s.rows);
    SizeUpTo(Claimable(s'.rows), Claimable(s.rows), Stuck(s.rows));
  }

  lemma SizeUpTo(a: set<VariantId>, b: set<VariantId>, c: set<VariantId>)
    requires a <= b + c
    ensures |a| <= |b| + |c|
  {
    assert (b + c) - (b + c - a) == a;
    assert |b + c| == |b| + |c| - |b * c|;
  }

  lemma ClaimableAfter(s: State, a: Step)
    requires Enabled(s, a) && Exclusive(s) && !a.Recover?
    ensures var s' := Do(s, a);
      |Claimable(s'.rows)| + |s'.claims| + |s.returned| <= |Claimable(s.rows)| + |s.claims| + |s'.returned|
  {
    var s' := Do(s, a);
    var v := match a case Claim(_, u) => u case Finish(w, _) => s.held[w] case Delete(u) => u case Recover => 0;
    ClaimableExcept(s.rows, s'.rows, v);
    if a.Finish? && a.end != VPending { assert v !in Claimable(s'.rows); }
    if a.Claim? { assert v in Claimable(s.rows) && v !in Claimable(s'.rows); }
    if a.Finish? { assert v !in Claimable(s.rows); }
  }

  lemma WithOrWithout(all: set<VariantId>, v: VariantId)
    ensures |all| == |all - {v}| + if v in all then 1 else 0
  {
    if v in all {
      assert all == (all - {v}) + {v};
    } else {
      assert all == all - {v};
    }
  }

  lemma ClaimableExcept(rows: Table, rows': Table, v: VariantId)
    requires rows'.Keys == rows.Keys && forall u :: u in rows && u != v ==> rows'[u] == rows[u]
    ensures |Claimable(rows')| == |Claimable(rows)| + (if v in Claimable(rows') then 1 else 0) - (if v in Claimable(rows) then 1 else 0)
  {
    assert Claimable(rows') - {v} == Claimable(rows) - {v} by {
      forall u ensures u in Claimable(rows') - {v} <==> u in Claimable(rows) - {v} {
        assert u in rows' <==> u in rows;
      }
    }
    WithOrWithout(Claimable(rows), v);
    WithOrWithout(Claimable(rows'), v);
  }

  // --------------------------------------------------- when it never ends

  lemma {:induction false} HeldWasClaimed(rows: Table, states: seq<State>, steps: seq<Step>, n: nat)
    requires IsRun(Never, rows, states, steps) && n < |states|
    ensures forall w :: w in states[n].held ==> ClaimCount(states[n].claims, states[n].held[w]) > 0
  {
    if n > 0 {
      HeldWasClaimed(rows, states, steps, n - 1);
      assert Enabled(states[n - 1], steps[n - 1]);
      if steps[n - 1].Claim? { assert states[n].claims[..|states[n].claims| - 1] == states[n - 1].claims; }
    }
  }

  /** There is an oldest claimable row as soon as there is a claimable one. */
  lemma {:induction false} OldestExists(rows: Table, v: VariantId) returns (u: VariantId)
    requires v in rows && rows[v].Claimable()
    ensures Oldest(rows, u)
  {
    if t :| t in rows && t < v && rows[t].Claimable() {
      u := OldestExists(rows, t);
    } else {
      u := v;
    }
  }

  /** One worker takes the oldest variant and fails it; a stream `v` comes back. */
  lemma OneRound(rows: Table, states: seq<State>, steps: seq<Step>, v: VariantId)
    returns (states': seq<State>, steps': seq<Step>)
    requires IsRun(Never, rows, states, steps)
    requires var s := states[|steps|]; s.held == map[] && v in s.rows && s.rows[v].Claimable() && s.rows[v].stream
    ensures IsRun(Never, rows, states', steps') && |states'[|steps'|].claims| == |states[|steps|].claims| + 1
    ensures var s := states'[|steps'|]; s.held == map[] && v in s.rows && s.rows[v].Claimable() && s.rows[v].stream
  {
    var s := states[|steps|];
    var u := OldestExists(s.rows, v);
    var s1 := Do(s, Claim(0, u));
    var finish := Finish(0, if u == v then VPending else VFailed);
    var s2 := Do(s1, finish);
    assert s2.held == map[];
    steps' := steps + [Claim(0, u), finish];
    states' := states + [s1, s2];
    forall i | 0 <= i < |steps'|
      ensures Enabled(states'[i], steps'[i]) && states'[i + 1] == Do(states'[i], steps'[i])
    {
      if i < |steps| { assert Enabled(states[i], steps[i]); }
    }
  }

  lemma {:induction false} LoopingRun(rows: Table, v: VariantId, k: nat) returns (states: seq<State>, steps: seq<Step>)
    requires v in rows && rows[v].Claimable() && rows[v].stream
    ensures IsRun(Never, rows, states, steps) && |states[|steps|].claims| == k
    ensures var s := states[|steps|]; s.held == map[] && v in s.rows && s.rows[v].Claimable() && s.rows[v].stream
  {
    if k == 0 {
      states, steps := [State(rows, map[], [], multiset{})], [];
    } else {
      states, steps := LoopingRun(rows, v, k - 1);
      states, steps := OneRound(rows, states, steps, v);
    }
  }

  ghost predicate Bounded(rows: Table, bound: nat) {
    forall states: seq<State>, steps: seq<Step> :: IsRun(Never, rows, states, steps) ==> |states[|steps|].claims| <= bound
  }

  /** Theorem: the drain of a fixed set is bounded if and only if nothing claimable is a stream;
      its bound is then the number of claimable variants. */
  lemma DrainBoundedIff(rows: Table)
    ensures (exists bound: nat :: Bounded(rows, bound)) <==> forall v :: v in Claimable(rows) ==> !rows[v].stream
    ensures (forall v :: v in Claimable(rows) ==> !rows[v].stream) ==> Bounded(rows, |Claimable(rows)|)
  {
    if v :| v in Claimable(rows) && rows[v].stream {
      forall bound: nat
        ensures !Bounded(rows, bound)
      {
        var states, steps := LoopingRun(rows, v, bound + 1);
        assert IsRun(Never, rows, states, steps);
      }
    } else {
      WithoutStreamsBounded(rows);
    }
  }

  lemma WithoutStreamsBounded(rows: Table)
    requires forall v :: v in Claimable(rows) ==> !rows[v].stream
    ensures Bounded(rows, |Claimable(rows)|)
  {
    forall states: seq<State>, steps: seq<Step> | IsRun(Never, rows, states, steps)
      ensures |states[|steps|].claims| <= |Claimable(rows)|
    {
      NothingReturns(rows, states, steps, |steps|);
      ClaimsBounded(Never, rows, states, steps, |steps|);
    }
  }

  lemma {:induction false} NothingReturns(rows: Table, states: seq<State>, steps: seq<Step>, n: nat)
    requires IsRun(Never, rows, states, steps) && n < |states|
    requires forall v :: v in Claimable(rows) ==> !rows[v].stream
    ensures states[n].returned == multiset{}
  {
    if n > 0 {
      NothingReturns(rows, states, steps, n - 1);
      BooksBalance(Never, rows, states, steps, n - 1);
      HeldWasClaimed(rows, states, steps, n - 1);
      var s, a := states[n - 1], steps[n - 1];
      assert Enabled(s, a);
      if a.Finish? {
        assert Balanced(rows, s, s.held[a.w]);
        assert s.held[a.w] in Claimable(rows);
      }
    }
  }

  // --------------------------------------------------------- one worker

  /** Where a transcode that ends as `end` leaves its row: only a stream is put back. */
  function Landed(row: Row, end: VariantStatus): VariantStatus {
    if end == VPending && !row.stream then VFailed else end
  }

  function Turn(rows: Table, v: VariantId, end: VariantStatus): Table
    requires v in rows
  {
    SetRow(rows, v, Landed(rows[v], end))
  }

  /** From `rows` to `after` by claiming the oldest claimable variant each time, with transcodes that
      end as `ends` says. */
  ghost predicate Drains(rows: Table, claims: seq<VariantId>, ends: seq<VariantStatus>, after: Table) {
    if claims == [] then after == rows
    else
      ends != [] && Oldest(rows, claims[0])
      && Drains(Turn(rows, claims[0], ends[0]), claims[1..], ends[1..], after)
  }

  lemma {:induction false} OneMoreTurn(rows: Table, claims: seq<VariantId>, ends: seq<VariantStatus>, after: Table, v: VariantId)
    requires Drains(rows, claims, ends, after) && |claims| < |ends| && Oldest(after, v)
    ensures Drains(rows, claims + [v], ends, Turn(after, v, ends[|claims|]))
  {
    var more := claims + [v];
    if claims != [] {
      assert more[1..] == claims[1..] + [v] && more[0] == claims[0];
      OneMoreTurn(Turn(rows, claims[0], ends[0]), claims[1..], ends[1..], after, v);
    }
  }

  /** Does turn `n` put a stream back? */
  predicate PutsBack(rows: Table, claims: seq<VariantId>, ends: seq<VariantStatus>, n: nat)
    requires n < |claims| && n < |ends|
  {
    ends[n] == VPending && claims[n] in rows && rows[claims[n]].stream
  }

  lemma TurnOpens(rows: Table, v: VariantId, end: VariantStatus)
    requires Oldest(rows, v) && !(end == VPending && rows[v].stream)
    ensures Claimable(Turn(rows, v, end)) == Claimable(rows) - {v} && v in Claimable(rows)
    ensures forall u :: u in Claimable(rows) ==> v <= u
  {
    var after := Turn(rows, v, end);
    forall u ensures u in Claimable(after) <==> u in Claimable(rows) - {v} {
      assert u != v && u in rows ==> after[u] == rows[u];
    }
    forall u | u in Claimable(rows) ensures v <= u { assert rows[u].Claimable(); }
  }

  /** Theorem: if no stream is put back, one worker's drain claims in order of age, each variant once,
      only claimable ones, and every claim makes those one fewer. */
  lemma {:induction false} ClaimsIncrease(rows: Table, claims: seq<VariantId>, ends: seq<VariantStatus>, after: Table)
    requires Drains(rows, claims, ends, after) && |claims| <= |ends|
    requires forall n :: 0 <= n < |claims| ==> !PutsBack(rows, claims, ends, n)
    ensures forall i, k :: 0 <= i < k < |claims| ==> claims[i] < claims[k]
    ensures forall i :: 0 <= i < |claims| ==> claims[i] in Claimable(rows)
    ensures |Claimable(after)| + |claims| == |Claimable(rows)|
  {
    if claims != [] {
      var v, rest := claims[0], claims[1..];
      var next := Turn(rows, v, ends[0]);
      assert !PutsBack(rows, claims, ends, 0);
      TurnOpens(rows, v, ends[0]);
      forall n | 0 <= n < |rest| ensures !PutsBack(next, rest, ends[1..], n) {
        assert !PutsBack(rows, claims, ends, n + 1);
      }
      ClaimsIncrease(next, rest, ends[1..], after);
      forall i | 0 < i < |claims| ensures claims[i] in Claimable(rows) && v < claims[i] { assert claims[i] == rest[i - 1]; }
      forall i, k | 0 <= i < k < |claims| ensures claims[i] < claims[k] {
        if i > 0 { assert claims[i] == rest[i - 1] && claims[k] == rest[k - 1]; }
      }
    }
  }

  class ListenWorker {
    var rows: Table

    constructor (rows: Table)
      ensures this.rows == rows
    {
      this.rows := rows;
    }

    /** The `while True` loop of one worker, for as many transcodes as `ends` foresees. */
    method ProcessPending(ends: seq<VariantStatus>) returns (claims: seq<VariantId>, finished: bool)
      modifies this
      ensures |claims| <= |ends| && Drains(old(rows), claims, ends, rows)
      ensures finished <==> Claimable(rows) == {}
      ensures !finished ==> |claims| == |ends|
    {
      claims := [];
      while true
        invariant |claims| <= |ends| && Drains(old(rows), claims, ends, rows)
        decreases |ends| - |claims|
      {
        var open := set v | v in rows && rows[v].Claimable();
        assert open == Claimable(rows);
        if open == {} { return claims, true; }
        if |claims| == |ends| { return claims, false; }
        var v := First(open);
        assert forall u :: u in rows && u < v ==> u !in open;
        OneMoreTurn(old(rows), claims, ends, rows, v);
        Transcode(v, ends[|claims|]);
        claims := claims + [v];
      }
    }

    /** One turn: PROCESSING in the claim's transaction, then where the transcode leaves it. */
    method Transcode(v: VariantId, end: VariantStatus)
      requires v in rows
      modifies this
      ensures rows == Turn(old(rows), v, end)
    {
      rows := SetRow(rows, v, VProcessing);
      rows := SetRow(rows, v, Landed(rows[v], end));
      assert rows == old(rows)[v := rows[v]];
    }

    /** `ORDER BY created_at LIMIT 1`. */
    method First(open: set<VariantId>) returns (v: VariantId)
      requires open != {}
      ensures v in open && forall u :: u in open ==> v <= u
    {
      v :| v in open;
      var rest := open - {v};
      while rest != {}
        invariant rest <= open && v in open && forall u :: u in open && u !in rest ==> v <= u
        decreases rest
      {
        var u :| u in rest;
        if u < v { v := u; }
        rest := rest - {u};
      }
    }

    /** `recover_interrupted`. */
    method RecoverInterrupted() returns (count: nat)
      modifies this
      ensures rows == Recovered(old(rows))
      ensures count == |set v | v in old(rows) && old(rows)[v].status == VProcessing|
    {
      var stuck := set v | v in rows && rows[v].status == VProcessing;
      count := |stuck|;
      ghost var all := stuck;
      while stuck != {}
        invariant stuck <= all && rows.Keys == old(rows).Keys
        invariant forall v :: v in rows ==>
                    rows[v] == if v in all - stuck then old(rows)[v].(status := VPending) else old(rows)[v]
        decreases stuck
      {
        var v :| v in stuck;
        rows := SetRow(rows, v, VPending);
        stuck := stuck - {v};
      }
      forall v | v in rows ensures rows[v] == Recovered(old(rows))[v] {
        assert v in all <==> old(rows)[v].status == VProcessing;
      }
      assert rows == Recovered(old(rows));
    }
  }
}
