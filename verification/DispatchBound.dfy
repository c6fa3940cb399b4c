/** Retry accounting: how often one job row can be dispatched, and what happens to
    its target once the attempts are used up. */
module DispatchBound {
  import opened Basics
  import opened Jobs
  import opened Protocol
  import opened ProtocolInvariant
  import opened PublishSafety

  // -------------------------------------------------------------- invariant

  ghost predicate LogOk(db: Db, log: seq<(JobId, nat)>) {
    (forall i :: 0 <= i < |log| ==>
       1 <= log[i].1 <= MAX_JOB_RETRIES && log[i].0 < db.nextJob
       && (log[i].0 in db.jobs ==> log[i].1 <= db.jobs[log[i].0].retries))
    && (forall i, k :: 0 <= i < k < |log| ==> log[i] != log[k])
  }

  /** An attempt that has been granted and not yet dispatched has a number of its own. */
  predicate TicketOk(db: Db, log: seq<(JobId, nat)>, k: Worker) {
    k.phase.Preflight? ==>
      1 <= k.phase.row.retries <= MAX_JOB_RETRIES
      && (k.job in db.jobs ==> k.phase.row.retries <= db.jobs[k.job].retries)
      && (k.job, k.phase.row.retries) !in log
  }

  ghost predicate TicketsDistinct(ws: map<WorkerId, Worker>) {
    forall w, x :: w in ws && x in ws && w != x && ws[w].phase.Preflight? && ws[x].phase.Preflight? && ws[w].job == ws[x].job ==>
      ws[w].phase.row.retries != ws[x].phase.row.retries
  }

  ghost predicate Counted(s: State) {
    LogOk(s.db, s.dispatches) && TicketsDistinct(s.workers)
    && forall w :: w in s.workers ==> TicketOk(s.db, s.dispatches, s.workers[w])
  }

  /** A claim finds the count it has read. */
  predicate FreshCount(s: State, w: WorkerId, a: WorkStep)
    requires WorkEnabled(s, w, a)
  {
    a.Claim? ==> CountAsRead(s, w)
  }

  /** No transaction lowers a retry count, but for a claim that comes late. */
  ghost predicate RetriesGrow(db: Db, db': Db) {
    db.nextJob <= db'.nextJob && (forall j :: j in db'.jobs && j !in db.jobs ==> j >= db.nextJob)
    && forall j :: j in db.jobs && j in db'.jobs ==> db.jobs[j].retries <= db'.jobs[j].retries
  }

  lemma CmsRetries(s: State, c: CmsStep)
    requires DbOk(s.db) && CmsEnabled(s, c)
    ensures RetriesGrow(s.db, CmsDb(s.db, c))
  {
    CmsKeepsDb(s, c);
    CmsKeepsCounts(s, c);
  }

  lemma CmsKeepsCounts(s: State, c: CmsStep)
    requires DbOk(s.db) && CmsEnabled(s, c)
    ensures var db' := CmsDb(s.db, c); forall j :: j in s.db.jobs && j in db'.jobs ==> db'.jobs[j].retries == s.db.jobs[j].retries
  {
  }

  lemma FinalRetries(db: Db, j: JobId, row: Job, b: Branch)
    ensures RetriesGrow(db, FinalWrite(db, j, row, b))
  {
  }

  lemma EffectRetries(s: State, w: WorkerId, a: WorkStep)
    requires WorkEnabled(s, w, a) && FreshCount(s, w, a)
    ensures RetriesGrow(s.db, WorkEffect(s, s.workers[w], a).db)
  {
    var k := s.workers[w];
    match a
    case Handle(h) => HandlerLocal(s.db, s.outputs, k.phase.row, h, k.job);
    case Finalize(ok) => FinalRetries(s.db, k.job, k.phase.row, FinalBranch(k, k.phase.outcome));
    case _ =>
  }

  /** A granted claim that finds the count it has read hands out a number larger than any before it. */
  lemma ClaimGrants(s: State, w: WorkerId)
    requires w in s.workers && s.workers[w].phase.Claiming? && CountAsRead(s, w) && ClaimEffect(s, s.workers[w]).phase.Preflight?
    ensures var e := ClaimEffect(s, s.workers[w]); var j := s.workers[w].job;
      j in s.db.jobs && e.phase.row.retries == s.db.jobs[j].retries + 1 <= MAX_JOB_RETRIES
      && j in e.db.jobs && e.db.jobs[j].retries == e.phase.row.retries
  {
  }

  lemma HandlerNotPreflight(db: Db, outputs: set<VariantId>, row: Job, h: HandlerStep)
    ensures !Handler(db, outputs, row, h).phase.Preflight? && Handler(db, outputs, row, h).note.Silent?
  {
  }

  /** Only a claim leads into the pre-flight, and only a dispatch writes the log. */
  lemma Preflights(s: State, k: Worker, a: WorkStep)
    requires PhaseAllows(s, k, a)
    ensures WorkEffect(s, k, a).phase.Preflight? ==> a == Claim(true)
    ensures WorkEffect(s, k, a).note.Dispatching? ==>
      a == Dispatch && WorkEffect(s, k, a).note == Dispatching(k.job, k.phase.row.retries)
  {
    if a.Handle? { HandlerNotPreflight(s.db, s.outputs, k.phase.row, a.h); }
  }

  lemma WorkKeepsCounted(s: State, w: WorkerId, a: WorkStep)
    requires Base(s) && WorkEnabled(s, w, a) && FreshCount(s, w, a) && Counted(s)
    ensures Counted(DoWork(s, w, a))
  {
    var k := s.workers[w];
    var e := WorkEffect(s, k, a);
    EffectRetries(s, w, a);
    Preflights(s, k, a);
    if e.phase.Preflight? { ClaimGrants(s, w); }
    assert TicketOk(s.db, s.dispatches, k) && WorkerOk(s.db, s.queue, k);
    ApplyKeepsCounted(s, w, e);
  }

  /** What `WorkKeepsCounted` has found out about the effect of a step of `w`. */
  ghost predicate EffectCounts(s: State, w: WorkerId, e: Effect) {
    Base(s) && Counted(s) && w in s.workers && RetriesGrow(s.db, e.db) &&
    var k := s.workers[w];
    k.job < s.db.nextJob
    && (e.phase.Preflight? ==>
          k.job in s.db.jobs && e.phase.row.retries == s.db.jobs[k.job].retries + 1 <= MAX_JOB_RETRIES
          && k.job in e.db.jobs && e.db.jobs[k.job].retries == e.phase.row.retries && !e.note.Dispatching?)
    && (e.note.Dispatching? ==> k.phase.Preflight? && e.note == Dispatching(k.job, k.phase.row.retries))
  }

  lemma ApplyKeepsLog(s: State, w: WorkerId, e: Effect)
    requires EffectCounts(s, w, e)
    ensures LogOk(Apply(s, w, e).db, Apply(s, w, e).dispatches)
  {
    assert TicketOk(s.db, s.dispatches, s.workers[w]);
  }

  lemma ApplyKeepsTicket(s: State, w: WorkerId, e: Effect, x: WorkerId)
    requires EffectCounts(s, w, e) && x in s.workers
    ensures TicketOk(Apply(s, w, e).db, Apply(s, w, e).dispatches, Apply(s, w, e).workers[x])
  {
    assert TicketOk(s.db, s.dispatches, s.workers[x]) && WorkerOk(s.db, s.queue, s.workers[x]);
    assert TicketOk(s.db, s.dispatches, s.workers[w]);
  }

  lemma ApplyKeepsDistinct(s: State, w: WorkerId, e: Effect)
    requires EffectCounts(s, w, e)
    ensures TicketsDistinct(Apply(s, w, e).workers)
  {
    var ws := Apply(s, w, e).workers;
    forall x | x in ws && x != w && ws[x].phase.Preflight? && ws[w].phase.Preflight? && ws[x].job == ws[w].job
      ensures ws[x].phase.row.retries != ws[w].phase.row.retries
    {
      assert TicketOk(s.db, s.dispatches, s.workers[x]);
    }
  }

  lemma ApplyKeepsCounted(s: State, w: WorkerId, e: Effect)
    requires EffectCounts(s, w, e)
    ensures Counted(Apply(s, w, e))
  {
    ApplyKeepsLog(s, w, e);
    ApplyKeepsDistinct(s, w, e);
    forall x | x in Apply(s, w, e).workers
      ensures TicketOk(Apply(s, w, e).db, Apply(s, w, e).dispatches, Apply(s, w, e).workers[x])
    {
      ApplyKeepsTicket(s, w, e, x);
    }
  }

  lemma OtherStepKeepsCounted(s: State, a: Action)
    requires Base(s) && Enabled(s, a) && !a.Work? && Counted(s)
    ensures Counted(Do(s, a))
  {
    if a.Cms? {
      CmsRetries(s, a.cms);
      RowsKeepCounted(s, CmsDb(s.db, a.cms));
    } else {
      QuietKeepsCounted(s, a);
    }
  }

  lemma RowsKeepCounted(s: State, db: Db)
    requires Base(s) && Counted(s) && RetriesGrow(s.db, db)
    ensures Counted(s.(db := db))
  {
    forall x | x in s.workers
      ensures TicketOk(db, s.dispatches, s.workers[x])
    {
      assert TicketOk(s.db, s.dispatches, s.workers[x]) && WorkerOk(s.db, s.queue, s.workers[x]);
    }
  }

  lemma QuietKeepsCounted(s: State, a: Action)
    requires Base(s) && Enabled(s, a) && !a.Work? && !a.Cms? && Counted(s)
    ensures Counted(Do(s, a))
  {
    QuietFrame(s, a);
    LogIsDispatches(s, a);
    PhasesKeepCounted(s, Do(s, a));
  }

  /** Nothing but the phases and the counts matters. */
  lemma PhasesKeepCounted(s: State, s': State)
    requires Base(s) && Counted(s) && s'.dispatches == s.dispatches && OnlyStale(s.db.(outbox := {}), s'.db.(outbox := {}))
    requires forall x :: x in s'.workers && x !in s.workers ==> s'.workers[x].phase.Received?
    requires forall x :: x in s.workers && x in s'.workers ==>
               s'.workers[x].job == s.workers[x].job && (s'.workers[x].phase == s.workers[x].phase || s'.workers[x].phase.Exited?)
    ensures Counted(s')
  {
    forall x | x in s'.workers
      ensures TicketOk(s'.db, s'.dispatches, s'.workers[x])
    {
      if x in s.workers { assert TicketOk(s.db, s.dispatches, s.workers[x]) && WorkerOk(s.db, s.queue, s.workers[x]); }
    }
  }

  /** When are the counts fresh: by the rule, or because no job has two workers. */
  predicate OneCount(r: Rules) {
    r.freshClaim || (r.leaseHeld && r.singleSend)
  }

  lemma {:induction false} CountedHolds(r: Rules, run: Run, n: nat)
    requires OneCount(r) && IsRun(r, run) && n < |run.states|
    ensures Counted(run.states[n])
  {
    if n > 0 {
      CountedHolds(r, run, n - 1);
      BaseHolds(r, run, n - 1);
      assert StepsAt(r, run, n - 1);
      CountsFresh(r, run, n - 1);
      var s, a := run.states[n - 1], run.actions[n - 1];
      if a.Work? { WorkKeepsCounted(s, a.w, a.work); } else { OtherStepKeepsCounted(s, a); }
    }
  }

  // ---------------------------------------------------------- fresh counts

  ghost predicate ReadsFresh(s: State) {
    forall w :: w in s.workers && s.workers[w].phase.Claiming? ==> CountAsRead(s, w)
  }

  lemma WorkKeepsReads(s: State, w: WorkerId, a: WorkStep)
    requires Base(s) && Leased(s) && WorkEnabled(s, w, a) && ReadsFresh(s)
    ensures ReadsFresh(DoWork(s, w, a))
  {
    var e := WorkEffect(s, s.workers[w], a);
    EffectFrame(s, w, a);
    ReadIsFresh(s, s.workers[w], a);
    forall x | x in s.workers && x != w && s.workers[x].phase.Claiming?
      ensures s.workers[x].job != s.workers[w].job && CountAsRead(s, x)
    {
      RemovingExits(s, s.workers[w], a);
      OneWorkerPerJob(s, x, w);
    }
    ApplyKeepsReads(s, w, e);
  }

  lemma ReadIsFresh(s: State, k: Worker, a: WorkStep)
    requires PhaseAllows(s, k, a)
    ensures var e := WorkEffect(s, k, a); e.phase.Claiming? ==> e.db == s.db && k.job in s.db.jobs && e.phase.row == s.db.jobs[k.job]
  {
  }

  lemma ApplyKeepsReads(s: State, w: WorkerId, e: Effect)
    requires w in s.workers && Local(s.db, e.db, s.workers[w].job, TargetOf(s.workers[w]))
    requires e.phase.Claiming? ==> e.db == s.db && s.workers[w].job in s.db.jobs && e.phase.row == s.db.jobs[s.workers[w].job]
    requires forall x :: x in s.workers && x != w && s.workers[x].phase.Claiming? ==> s.workers[x].job != s.workers[w].job && CountAsRead(s, x)
    ensures ReadsFresh(Apply(s, w, e))
  {
    var s' := Apply(s, w, e);
    forall x | x in s'.workers && s'.workers[x].phase.Claiming? ensures CountAsRead(s', x) {
      if x != w { assert s'.workers[x] == s.workers[x]; }
    }
  }

  lemma OtherStepKeepsReads(s: State, a: Action)
    requires Base(s) && Enabled(s, a) && !a.Work? && ReadsFresh(s)
    ensures ReadsFresh(Do(s, a))
  {
    var s' := Do(s, a);
    if a.Cms? {
      CmsKeepsDb(s, a.cms);
      CmsKeepsCounts(s, a.cms);
    } else {
      QuietFrame(s, a);
    }
    forall x | x in s'.workers && s'.workers[x].phase.Claiming? ensures CountAsRead(s', x) {
      assert x in s.workers && WorkerOk(s.db, s.queue, s.workers[x]) && CountAsRead(s, x);
    }
  }

  lemma {:induction false} ReadsFreshHold(r: Rules, run: Run, n: nat)
    requires r.leaseHeld && r.singleSend && IsRun(r, run) && n < |run.states|
    ensures ReadsFresh(run.states[n])
  {
    if n > 0 {
      ReadsFreshHold(r, run, n - 1);
      LeasesHold(r, run, n - 1);
      assert StepsAt(r, run, n - 1);
      var s, a := run.states[n - 1], run.actions[n - 1];
      if a.Work? { WorkKeepsReads(s, a.w, a.work); } else { OtherStepKeepsReads(s, a); }
    }
  }

  lemma CountsFresh(r: Rules, run: Run, n: nat)
    requires OneCount(r) && IsRun(r, run) && n < |run.actions|
    ensures run.actions[n].Work? ==>
      WorkEnabled(run.states[n], run.actions[n].w, run.actions[n].work)
      && FreshCount(run.states[n], run.actions[n].w, run.actions[n].work)
  {
    assert StepsAt(r, run, n);
    if !r.freshClaim { ReadsFreshHold(r, run, n); }
  }

  // ---------------------------------------------------------------- bound

  function DispatchCount(log: seq<(JobId, nat)>, j: JobId): nat {
    if log == [] then 0
    else DispatchCount(log[..|log| - 1], j) + if log[|log| - 1].0 == j then 1 else 0
  }

  ghost function Attempts(log: seq<(JobId, nat)>, j: JobId): set<nat> {
    set i | 0 <= i < |log| && log[i].0 == j :: log[i].1
  }

  lemma {:induction false} CountIsAttempts(log: seq<(JobId, nat)>, j: JobId)
    requires forall i, k :: 0 <= i < k < |log| ==> log[i] != log[k]
    ensures DispatchCount(log, j) == |Attempts(log, j)|
  {
    if log != [] {
      var rest, last := log[..|log| - 1], log[|log| - 1];
      CountIsAttempts(rest, j);
      if last.0 == j {
        assert Attempts(log, j) == Attempts(rest, j) + {last.1};
        assert last.1 !in Attempts(rest, j);
      } else {
        assert Attempts(log, j) == Attempts(rest, j);
      }
    }
  }

  /** Theorem: if claims write over the counts they have read, as a rule or because leases are held
      and sends single, one job row is dispatched at most `MAX_JOB_RETRIES` times. */
  lemma DispatchedAtMost(r: Rules, run: Run, n: nat, j: JobId)
    requires OneCount(r) && IsRun(r, run) && n < |run.states|
    ensures DispatchCount(run.states[n].dispatches, j) <= MAX_JOB_RETRIES
  {
    CountedHolds(r, run, n);
    var log := run.states[n].dispatches;
    CountIsAttempts(log, j);
    SubsetSize(Attempts(log, j), {1, 2, 3});
  }

  lemma {:induction false} SubsetSize(a: set<nat>, b: set<nat>)
    requires a <= b
    ensures |a| <= |b|
  {
    assert b == a + (b - a);
  }

  /** The log is what it says: it grows by exactly the dispatch that a step makes. */
  lemma LogIsDispatches(s: State, a: Action)
    requires Enabled(s, a)
    ensures Do(s, a).dispatches ==
      if a.Work? && a.work.Dispatch? then s.dispatches + [(s.workers[a.w].job, s.workers[a.w].phase.row.retries)]
      else s.dispatches
  {
    if a.Work? { Preflights(s, s.workers[a.w], a.work); }
    if a.Beat? { BeatFrame(s, a.w, a.beat); }
  }

  // ------------------------------------------------------------ exhaustion

  /** A claim that goes through leads to the poison branch if and only if the count it has read was
      used up, and uses up one more attempt if and only if no count has gone by it since. */
  lemma ClaimFailsIff(s: State, k: Worker)
    requires k.phase.Claiming? && WriteClaim(s.db, k.job, k.phase.row).Some?
    ensures var e := ClaimEffect(s, k);
      (e.phase.Poison? <==> k.phase.row.retries >= MAX_JOB_RETRIES)
      && k.job in e.db.jobs
      && (e.db.jobs[k.job].retries > s.db.jobs[k.job].retries <==> s.db.jobs[k.job].retries <= k.phase.row.retries)
  {
  }

  /** Nothing is left waiting on the target: it is out of flight, gone, or a newer job's business. */
  predicate TargetSettled(db: Db, j: JobId, row: Job) {
    TargetInFlight(db, row) ==> NewerJob(db, j, row)
  }

  /** The mirror writes if and only if it has found its target unsettled, and its write settles it. */
  lemma MirrorSettles(db: Db, j: JobId, row: Job)
    ensures MirrorExhaustion(db, j, row) == Updated <==> !TargetSettled(db, j, row)
    ensures !TargetInFlight(FailTarget(db, row), row) && TargetSettled(FailTarget(db, row), j, row)
    ensures FailTarget(db, row).jobs == db.jobs && Local(db, FailTarget(db, row), j, row.target)
  {
  }

  predicate Exhausted(p: Phase) { p.Poison? || p.Mirroring? }

  /** A worker with an exhausted job stays in its branch, dies without touching the queue, or goes on
      when the target is settled. */
  lemma PoisonStep(s: State, w: WorkerId, a: WorkStep)
    requires WorkEnabled(s, w, a) && Exhausted(s.workers[w].phase)
    ensures var s' := Apply(s, w, WorkEffect(s, s.workers[w], a)); var k := s.workers[w];
      s'.workers[w].phase.Exited? || s'.workers[w].phase == Mirroring(k.phase.row)
      || (s'.workers[w].phase.Obsolete? && TargetSettled(s'.db, k.job, k.phase.row))
  {
    var k := s.workers[w];
    MirrorSettles(s.db, k.job, k.phase.row);
    ExhaustedStep(s, k, a);
    Applied(s, w, WorkEffect(s, k, a));
  }

  lemma Applied(s: State, w: WorkerId, e: Effect)
    requires w in s.workers
    ensures var s' := Apply(s, w, e); s'.db == e.db && w in s'.workers && s'.workers[w].phase == e.phase
  {
  }

  lemma ExhaustedStep(s: State, k: Worker, a: WorkStep)
    requires PhaseAllows(s, k, a) && Exhausted(k.phase)
    ensures var e := WorkEffect(s, k, a);
      e.phase.Exited? || e.phase == Mirroring(k.phase.row)
      || (e.phase.Obsolete? && (e.db == FailTarget(s.db, k.phase.row) || (e.db == s.db && MirrorExhaustion(s.db, k.job, k.phase.row) != Updated)))
  {
  }

  /** What the others do leaves a worker where it is. */
  lemma OthersLeavePhase(s: State, a: Action, w: WorkerId)
    requires Enabled(s, a) && w in s.workers && !(a.Work? && a.w == w)
    ensures var s' := Do(s, a);
      w in s'.workers && s'.workers[w].job == s.workers[w].job
      && (s'.workers[w].phase == s.workers[w].phase || s'.workers[w].phase.Exited?)
  {
    if !a.Work? && !a.Cms? { QuietFrame(s, a); }
  }

  /** Worker `w` is still the exhausted `k`, or has died as such. */
  predicate StillPoison(s: State, w: WorkerId, k: Worker) {
    w in s.workers && s.workers[w].job == k.job
    && (s.workers[w].phase.Exited? || (Exhausted(s.workers[w].phase) && k.phase.Poison? && s.workers[w].phase.row == k.phase.row))
  }

  lemma PoisonNext(s: State, a: Action, w: WorkerId, k: Worker)
    requires Enabled(s, a) && StillPoison(s, w, k) && k.phase.Poison?
    ensures StillPoison(Do(s, a), w, k) || TargetSettled(Do(s, a).db, k.job, k.phase.row)
  {
    if a.Work? && a.w == w { PoisonStep(s, w, a.work); } else { OthersLeavePhase(s, a, w); }
  }

  ghost predicate SettledBetween(run: Run, i: nat, n: nat, j: JobId, row: Job)
    requires n < |run.states|
  {
    exists m :: i < m <= n && TargetSettled(run.states[m].db, j, row)
  }

  lemma {:induction false} PoisonOrSettled(r: Rules, run: Run, i: nat, n: nat, w: WorkerId)
    requires IsRun(r, run) && i <= n < |run.states| && w in run.states[i].workers && run.states[i].workers[w].phase.Poison?
    ensures var k := run.states[i].workers[w];
      StillPoison(run.states[n], w, k) || SettledBetween(run, i, n, k.job, k.phase.row)
    decreases n - i
  {
    if i < n {
      PoisonOrSettled(r, run, i, n - 1, w);
      assert StepsAt(r, run, n - 1);
      var k := run.states[i].workers[w];
      if StillPoison(run.states[n - 1], w, k) { PoisonNext(run.states[n - 1], run.actions[n - 1], w, k); }
    }
  }

  /** Theorem: a worker whose job was exhausted, a transcode or an imager job, removes the message only
      after its target has been seen settled: out of flight, gone, or a newer job's business. */
  lemma PoisonRemovedSettled(r: Rules, run: Run, i: nat, n: nat, w: WorkerId, ok: bool)
    requires IsRun(r, run) && i <= n < |run.actions| && w in run.states[i].workers && run.states[i].workers[w].phase.Poison?
    requires run.actions[n] == Work(w, DeleteMessage(ok))
    ensures SettledBetween(run, i, n, run.states[i].workers[w].job, run.states[i].workers[w].phase.row)
  {
    PoisonOrSettled(r, run, i, n, w);
    assert StepsAt(r, run, n);
  }
}
