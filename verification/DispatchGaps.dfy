/** How often one job can be dispatched when two claims of it may overlap: without bound. */
module DispatchGaps {
  import opened Basics
  import opened Jobs
  import opened Protocol
  import opened ProtocolInvariant
  import opened PublishSafety
  import opened DispatchBound
  import Gaps

  const JOB := Job(VariantTranscode, 0, Pending, 0, false, false)

  /** The workers are those numbered below `n`. */
  ghost predicate Crew(s: State, n: nat) {
    forall w: WorkerId :: w in s.workers <==> w < n
  }

  /** Is there a way to get one more message of job 0 to a worker? */
  predicate MoreToCome(r: Rules, s: State) {
    if r.singleSend then 0 in s.queue.messages && s.queue.messages[0].job == 0 else 0 in s.db.outbox
  }

  /** `n` workers have read job 0 as PENDING, and none has written it. */
  ghost predicate AllRead(r: Rules, s: State, n: nat) {
    Gaps.Reachable(r, s) && Crew(s, n) && s.db.jobs == map[0 := JOB] && s.db.deletedAssets == {}
    && (forall w :: w in s.workers ==> s.workers[w].phase == Claiming(JOB) && s.workers[w].job == 0)
    && s.dispatches == [] && MoreToCome(r, s)
  }

  /** The first `k` of them have claimed it and dispatched it. */
  ghost predicate SomeDispatched(r: Rules, s: State, k: nat, n: nat) {
    Gaps.Reachable(r, s) && k <= n && Crew(s, n) && 0 in s.db.jobs && s.db.jobs.Keys == {0} && s.db.deletedAssets == {}
    && s.db.jobs[0].kind == VariantTranscode
    && (forall w :: k <= w < n ==> s.workers[w].phase == Claiming(JOB) && s.workers[w].job == 0)
    && DispatchCount(s.dispatches, 0) == k
  }

  lemma StagedJob(r: Rules) returns (s: State)
    ensures AllRead(r, s, 0)
  {
    Gaps.BeginReachable(r, Video);
    s := Gaps.Next(r, Gaps.Begin(Video), Cms(Stage(VariantTranscode, 0)));
    assert s.db.jobs == map[0 := JOB];
    if r.singleSend { s := Gaps.Next(r, s, Queueing(Send(0))); }
  }

  /** The job's message comes once more, out of the outbox or back from a lapsed lease. */
  lemma OneMoreMessage(r: Rules, s: State, n: nat) returns (s': State, m: MsgId)
    requires !OneCount(r) && AllRead(r, s, n)
    ensures AllRead(r, s', n) && m in s'.queue.messages && s'.queue.messages[m].visible && s'.queue.messages[m].job == 0
  {
    if r.singleSend {
      m := 0;
      s' := Gaps.Next(r, s, Queueing(Lapse(0)));
    } else {
      m := s.queue.nextMsg;
      s' := Gaps.Next(r, s, Queueing(SendOnly(0)));
    }
  }

  lemma OneMoreRead(r: Rules, s: State, n: nat) returns (s': State)
    requires !OneCount(r) && AllRead(r, s, n)
    ensures AllRead(r, s', n + 1)
  {
    var s1, m := OneMoreMessage(r, s, n);
    var s2 := OneMoreTaken(r, s1, n, m);
    s' := Gaps.Next(r, s2, Work(n, ReadJob));
    assert s'.workers == s2.workers[n := s2.workers[n].(phase := Claiming(JOB))];
  }

  lemma OneMoreTaken(r: Rules, s: State, n: nat, m: MsgId) returns (s': State)
    requires AllRead(r, s, n) && m in s.queue.messages && s.queue.messages[m].visible && s.queue.messages[m].job == 0
    ensures Gaps.Reachable(r, s') && Crew(s', n + 1) && s'.db == s.db && s'.dispatches == [] && MoreToCome(r, s')
    ensures s'.workers == s.workers[n := s'.workers[n]] && s'.workers[n].phase == Received && s'.workers[n].job == 0
  {
    s' := Gaps.Next(r, s, Receive(n, m));
  }

  lemma {:induction false} ManyReads(r: Rules, n: nat) returns (s: State)
    requires !OneCount(r)
    ensures AllRead(r, s, n)
  {
    if n == 0 {
      s := StagedJob(r);
    } else {
      s := ManyReads(r, n - 1);
      s := OneMoreRead(r, s, n - 1);
    }
  }

  /** The next worker writes the count it has read, which uses up no attempt after the first. */
  lemma OneMoreClaim(r: Rules, s: State, k: nat, n: nat) returns (s': State)
    requires !r.freshClaim && k < n && SomeDispatched(r, s, k, n)
    ensures Gaps.Reachable(r, s') && Crew(s', n) && s'.db.jobs.Keys == {0} && s'.db.deletedAssets == {}
    ensures s'.db.jobs[0].kind == VariantTranscode && s'.dispatches == s.dispatches
    ensures s'.workers == s.workers[k := s.workers[k].(phase := Preflight(Bumped(JOB)))]
  {
    s' := Gaps.Next(r, s, Work(k, Claim(true)));
  }

  lemma OneMoreDispatch(r: Rules, s: State, k: nat, n: nat) returns (s': State)
    requires !r.freshClaim && k < n && SomeDispatched(r, s, k, n)
    ensures SomeDispatched(r, s', k + 1, n)
  {
    var s1 := OneMoreClaim(r, s, k, n);
    s' := Dispatches(r, s1, k);
    assert s'.dispatches[..|s'.dispatches| - 1] == s.dispatches;
  }

  lemma Dispatches(r: Rules, s: State, w: WorkerId) returns (s': State)
    requires Gaps.Reachable(r, s) && w in s.workers && s.workers[w].phase == Preflight(Bumped(JOB)) && s.workers[w].job == 0
    requires s.db.deletedAssets == {}
    ensures Gaps.Reachable(r, s') && s'.db == s.db && s'.dispatches == s.dispatches + [(0, 1)]
    ensures w in s'.workers && s'.workers == s.workers[w := s'.workers[w]]
  {
    s' := Gaps.Next(r, s, Work(w, Dispatch));
  }

  lemma {:induction false} ManyDispatches(r: Rules, k: nat, n: nat) returns (s: State)
    requires !OneCount(r) && k <= n
    ensures SomeDispatched(r, s, k, n)
  {
    if k == 0 {
      s := ManyReads(r, n);
    } else {
      s := ManyDispatches(r, k - 1, n);
      s := OneMoreDispatch(r, s, k - 1, n);
    }
  }

  /** Overlapping claims: four workers read a count of 0, and four dispatches use up one attempt. */
  lemma FourthDispatch() returns (s: State)
    ensures Gaps.Reachable(Gaps.STRICT.(singleSend := false, freshClaim := false), s) && DispatchCount(s.dispatches, 0) == 4
  {
    s := ManyDispatches(Gaps.STRICT.(singleSend := false, freshClaim := false), 4, 4);
  }

  ghost predicate Bounds(r: Rules, bound: nat) {
    forall run, n: nat, j :: IsRun(r, run) && n < |run.states| ==> DispatchCount(run.states[n].dispatches, j) <= bound
  }

  /** Theorem: there is a bound on the dispatches of one job row if and only if claims write over the
      counts they have read, or leases are held and sends single; the bound is then three. */
  lemma DispatchBoundedIff(r: Rules)
    ensures (exists bound: nat :: Bounds(r, bound)) <==> r.freshClaim || (r.leaseHeld && r.singleSend)
    ensures OneCount(r) ==> Bounds(r, MAX_JOB_RETRIES)
  {
    if OneCount(r) {
      forall run, n: nat, j | IsRun(r, run) && n < |run.states|
        ensures DispatchCount(run.states[n].dispatches, j) <= MAX_JOB_RETRIES
      {
        DispatchedAtMost(r, run, n, j);
      }
      assert Bounds(r, MAX_JOB_RETRIES);
    } else {
      forall bound: nat ensures !Bounds(r, bound) { NotBounded(r, bound); }
    }
  }

  lemma NotBounded(r: Rules, bound: nat)
    requires !OneCount(r)
    ensures !Bounds(r, bound)
  {
    var s := ManyDispatches(r, bound + 1, bound + 1);
    var run: Run :| IsRun(r, run) && run.states[|run.actions|] == s;
    assert DispatchCount(run.states[|run.actions|].dispatches, 0) > bound;
  }
}
