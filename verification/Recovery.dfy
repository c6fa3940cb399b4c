/** Which jobs come back: what becomes of an active job once nothing carries it any more. */
module Recovery {
  import opened Basics
  import opened Jobs
  import opened Protocol
  import opened ProtocolInvariant
  import opened PublishSafety

  /** The jobs the staleness monitor looks at, once their heartbeat has gone stale. */
  predicate Watched(db: Db, row: Job) {
    row.status == Processing && row.kind == VariantTranscode
    && row.target in db.variants && db.variants[row.target] == VProcessing && row.target !in db.superseded
  }

  /** The monitor watches job `j`, or has already picked it and can still write. */
  predicate Recoverable(db: Db, j: JobId) {
    j in db.jobs && (Watched(db, db.jobs[j])
                     || (j in db.picked && db.jobs[j].status == Processing && db.jobs[j].kind == VariantTranscode
                         && db.jobs[j].target in db.variants))
  }

  /** Past a claim that was granted, or that the index cannot refuse because its UPDATE leaves out the
      status, and not yet past the PROCESSING write. */
  predicate MayStart(k: Worker, v: VariantId) {
    (k.phase.Preflight? || k.phase.Dispatched? || k.phase.Checked? || (k.phase.Claiming? && k.phase.row.status == Processing))
    && k.phase.row.kind == VariantTranscode && k.phase.row.target == v
  }

  /** A variant that could still bring `row` to the monitor's attention. */
  predicate Concerns(db: Db, row: Job, v: VariantId) {
    row.kind == VariantTranscode && row.target == v && v !in db.superseded
  }

  /** Nobody is left to finish job `j` or to start on its variant. */
  ghost predicate Unattended(s: State, j: JobId, ws: set<WorkerId>)
    requires j in s.db.jobs
  {
    forall w :: w in s.workers && w !in ws && s.workers[w].phase.Live() ==>
      s.workers[w].job != j
      && (Concerns(s.db, s.db.jobs[j], s.db.jobs[j].target) ==> !MayStart(s.workers[w], s.db.jobs[j].target))
  }

  /** An active job of any kind that nobody works on, nothing carries, and the monitor will not recover. */
  ghost predicate Stranded(s: State, j: JobId) {
    j in s.db.jobs && s.db.jobs[j].status.Active() && !Recoverable(s.db, j)
    && j !in s.db.outbox
    && (forall m :: m in s.queue.messages ==> s.queue.messages[m].job != j)
    && Unattended(s, j, {})
  }

  /** Only a user deleting something gets rid of it. */
  predicate UserDeletes(s: State, a: Action, j: JobId) {
    a == Cms(DropJob(j))
    || (a.Cms? && a.cms.DeleteAsset? && j in s.db.jobs && HitBySoftDelete(s.db, s.db.jobs[j], a.cms.asset))
  }

  // ------------------------------------------------------------ main flow

  predicate NotProcessing(db: Db, v: VariantId) {
    v in db.variants ==> db.variants[v] != VProcessing
  }

  /** While `j` is active for `v`, the index refuses every other claim on `v` that sets a status. */
  lemma ClaimCannotStart(s: State, k: Worker, j: JobId, v: VariantId)
    requires j in s.db.jobs && k.job != j && ActiveFor(s.db.jobs[j], VariantTranscode, v)
    requires k.phase.Claiming? && k.phase.row.status != Processing && RowOk(s.db, k)
    requires WriteClaim(s.db, k.job, k.phase.row).Some? && Bumped(k.phase.row).status == Processing
    ensures !(k.phase.row.kind == VariantTranscode && k.phase.row.target == v)
  {
  }

  /** And no other job is read as PROCESSING for it. */
  lemma ReadCannotStart(s: State, i: JobId, j: JobId, v: VariantId)
    requires DbOk(s.db) && j in s.db.jobs && i != j && ActiveFor(s.db.jobs[j], VariantTranscode, v)
    requires ReadPhase(s.db, i).Claiming? && ReadPhase(s.db, i).row.status == Processing
    ensures !(ReadPhase(s.db, i).row.kind == VariantTranscode && ReadPhase(s.db, i).row.target == v)
  {
    if s.db.jobs[i].kind == VariantTranscode && s.db.jobs[i].target == v { OneActive(s.db.jobs, i, j, v); }
  }

  lemma HandlerPhases(db: Db, outputs: set<VariantId>, k: Worker, h: HandlerStep)
    requires HandlerEnabled(db, k, h)
    ensures var p := Handler(db, outputs, k.phase.row, h).phase;
      !p.Preflight? && (p.Checked? || p.Dispatched? ==> k.phase.Dispatched? && p.row == k.phase.row)
  {
  }

  predicate Starting(p: Phase) { p.Claiming? || p.Preflight? || p.Dispatched? || p.Checked? }

  lemma OthersStartNothing(s: State, k: Worker, a: WorkStep)
    requires PhaseAllows(s, k, a) && !a.ReadJob? && !a.Claim? && !a.Dispatch? && !a.Handle?
    ensures !Starting(WorkEffect(s, k, a).phase)
  {
  }

  lemma MayStartOnlyFrom(s: State, k: Worker, a: WorkStep, v: VariantId)
    requires PhaseAllows(s, k, a) && !a.Claim? && !a.ReadJob?
    ensures MayStart(Advance(k, WorkEffect(s, k, a).phase), v) ==> MayStart(k, v)
  {
    if a.Handle? {
      HandlerPhases(s.db, s.outputs, k, a.h);
    } else if !a.Dispatch? {
      OthersStartNothing(s, k, a);
    }
  }

  lemma ReadStartsNothing(s: State, k: Worker, j: JobId, v: VariantId)
    requires DbOk(s.db) && k.phase.Received? && j in s.db.jobs && ActiveFor(s.db.jobs[j], VariantTranscode, v) && k.job != j
    ensures !MayStart(Advance(k, ReadPhase(s.db, k.job)), v)
  {
    var p := ReadPhase(s.db, k.job);
    if p.Claiming? && p.row.status == Processing { ReadCannotStart(s, k.job, j, v); }
  }

  lemma ClaimStartsNothing(s: State, k: Worker, j: JobId, v: VariantId)
    requires k.phase.Claiming? && RowOk(s.db, k) && j in s.db.jobs && ActiveFor(s.db.jobs[j], VariantTranscode, v) && k.job != j
    requires !MayStart(k, v)
    ensures !MayStart(Advance(k, ClaimEffect(s, k).phase), v)
  {
    ClaimPhases(s, k);
    if k.phase.row.status != Processing && ClaimEffect(s, k).phase.Preflight? { ClaimCannotStart(s, k, j, v); }
  }

  lemma ClaimPhases(s: State, k: Worker)
    requires k.phase.Claiming?
    ensures var p := ClaimEffect(s, k).phase;
      p.Exited? || p.Poison?
      || (p == Preflight(Bumped(k.phase.row)) && WriteClaim(s.db, k.job, k.phase.row).Some? && Bumped(k.phase.row).status == Processing)
  {
  }

  lemma NoNewStarter(s: State, w: WorkerId, a: WorkStep, j: JobId, v: VariantId)
    requires Base(s) && WorkEnabled(s, w, a) && j in s.db.jobs && ActiveFor(s.db.jobs[j], VariantTranscode, v)
    requires s.workers[w].job != j && !MayStart(s.workers[w], v)
    ensures !MayStart(Advance(s.workers[w], WorkEffect(s, s.workers[w], a).phase), v)
  {
    var k := s.workers[w];
    assert RowOk(s.db, k) by { assert WorkerOk(s.db, s.queue, k); }
    match a
    case ReadJob => ReadStartsNothing(s, k, j, v);
    case Claim(ok) => if ok { ClaimStartsNothing(s, k, j, v); }
    case _ => MayStartOnlyFrom(s, k, a, v);
  }

  lemma HandlerStarts(db: Db, outputs: set<VariantId>, k: Worker, h: HandlerStep, v: VariantId)
    requires HandlerEnabled(db, k, h) && NotProcessing(db, v) && !(k.phase.Checked? && k.phase.row.target == v)
    ensures NotProcessing(Handler(db, outputs, k.phase.row, h).db, v)
  {
  }

  lemma FinalNeverStarts(db: Db, j: JobId, row: Job, b: Branch, v: VariantId)
    requires NotProcessing(db, v)
    ensures NotProcessing(FinalWrite(db, j, row, b), v)
  {
  }

  lemma MainNeverStarts(s: State, k: Worker, a: WorkStep, v: VariantId)
    requires PhaseAllows(s, k, a) && !a.Handle? && NotProcessing(s.db, v)
    ensures NotProcessing(WorkEffect(s, k, a).db, v)
  {
    match a
    case Claim(ok) => if ok && WriteClaim(s.db, k.job, k.phase.row).Some? { ClaimLocal(s.db, k.job, k.phase.row, v); }
    case Finalize(ok) => FinalNeverStarts(s.db, k.job, k.phase.row, FinalBranch(k, k.phase.outcome), v);
    case _ =>
  }

  lemma VariantNotStarted(s: State, w: WorkerId, a: WorkStep, v: VariantId)
    requires Base(s) && WorkEnabled(s, w, a) && NotProcessing(s.db, v) && !MayStart(s.workers[w], v)
    ensures NotProcessing(WorkEffect(s, s.workers[w], a).db, v)
  {
    var k := s.workers[w];
    if a.Handle? {
      assert WorkerOk(s.db, s.queue, k);
      HandlerStarts(s.db, s.outputs, k, a.h, v);
    } else {
      MainNeverStarts(s, k, a, v);
    }
  }

  lemma WorkKeepsStranded(s: State, w: WorkerId, a: WorkStep, j: JobId)
    requires Base(s) && WorkEnabled(s, w, a) && Stranded(s, j)
    ensures Stranded(DoWork(s, w, a), j)
  {
    var k := s.workers[w];
    var v := s.db.jobs[j].target;
    assert k.phase.Live() && k.job != j;
    EffectFrame(s, w, a);
    if Concerns(s.db, s.db.jobs[j], v) {
      NoNewStarter(s, w, a, j, v);
      if s.db.jobs[j].status == Processing { VariantNotStarted(s, w, a, v); }
    }
    ApplyKeepsStranded(s, w, WorkEffect(s, k, a), j);
  }

  lemma ApplyKeepsStranded(s: State, w: WorkerId, e: Effect, j: JobId)
    requires w in s.workers && Stranded(s, j) && Local(s.db, e.db, s.workers[w].job, TargetOf(s.workers[w])) && s.workers[w].job != j
    requires Concerns(s.db, s.db.jobs[j], s.db.jobs[j].target) ==>
      !MayStart(Advance(s.workers[w], e.phase), s.db.jobs[j].target)
      && (s.db.jobs[j].status == Processing ==> NotProcessing(e.db, s.db.jobs[j].target))
    ensures Stranded(Apply(s, w, e), j)
  {
    var s' := Apply(s, w, e);
    assert s'.db.jobs[j] == s.db.jobs[j] && !Recoverable(s'.db, j);
    assert s'.queue.messages.Keys <= s.queue.messages.Keys;
    forall x | x in s'.workers && s'.workers[x].phase.Live()
      ensures s'.workers[x].job != j
              && (Concerns(s'.db, s'.db.jobs[j], s.db.jobs[j].target) ==> !MayStart(s'.workers[x], s.db.jobs[j].target))
    {
      if x != w { assert s'.workers[x] == s.workers[x]; }
    }
  }

  // ------------------------------------------------------------------- CMS

  lemma CmsNeverStarts(s: State, c: CmsStep, v: VariantId)
    requires CmsEnabled(s, c) && NotProcessing(s.db, v)
    ensures NotProcessing(CmsDb(s.db, c), v)
  {
  }

  lemma CmsSupersedes(s: State, c: CmsStep)
    requires CmsEnabled(s, c)
    ensures s.db.superseded <= CmsDb(s.db, c).superseded
  {
  }

  /** No CMS step but a user's deletion writes the status of a job the monitor will not recover. */
  lemma CmsKeepsJob(s: State, c: CmsStep, j: JobId)
    requires Base(s) && CmsEnabled(s, c) && Stranded(s, j) && !UserDeletes(s, Cms(c), j)
    ensures j in CmsDb(s.db, c).jobs
    ensures var row, row' := s.db.jobs[j], CmsDb(s.db, c).jobs[j];
      row'.status == row.status && row'.kind == row.kind && row'.target == row.target
  {
    if c.RecoverStalled? { assert c.j != j; }
  }

  lemma CmsKeepsStranded(s: State, c: CmsStep, j: JobId)
    requires Base(s) && CmsEnabled(s, c) && Stranded(s, j) && !UserDeletes(s, Cms(c), j)
    ensures Stranded(Do(s, Cms(c)), j)
  {
    CmsOutbox(s, c);
    CmsKeepsJob(s, c, j);
    CmsSupersedes(s, c);
    var row, db' := s.db.jobs[j], CmsDb(s.db, c);
    if row.status == Processing && Concerns(s.db, row, row.target) { CmsNeverStarts(s, c, row.target); }
    PicksOnlyWatched(s, c, j);
    assert !Recoverable(db', j);
    assert j < s.db.nextJob;
  }

  lemma PicksOnlyWatched(s: State, c: CmsStep, j: JobId)
    requires CmsEnabled(s, c) && j in s.db.jobs && !Recoverable(s.db, j)
    ensures var db' := CmsDb(s.db, c);
      j in db'.picked && s.db.jobs[j].kind == VariantTranscode && s.db.jobs[j].status == Processing
      ==> j in s.db.picked && s.db.jobs[j].target !in db'.variants
  {
  }

  lemma QuietKeepsStranded(s: State, a: Action, j: JobId)
    requires Base(s) && Enabled(s, a) && !a.Work? && !a.Cms? && Stranded(s, j)
    ensures Stranded(Do(s, a), j)
  {
    QuietFrame(s, a);
    if a.Beat? { BeatFrame(s, a.w, a.beat); }
  }

  lemma StepKeepsStranded(s: State, a: Action, j: JobId)
    requires Base(s) && Enabled(s, a) && Stranded(s, j) && !UserDeletes(s, a, j)
    ensures Stranded(Do(s, a), j)
  {
    match a
    case Cms(c) => CmsKeepsStranded(s, c, j);
    case Work(w, k) => WorkKeepsStranded(s, w, k, j);
    case _ => QuietKeepsStranded(s, a, j);
  }

  // -------------------------------------------------------------- theorems

  /** Theorem: a stranded job stays stranded in every run, whatever any process does, until a user
      deletes the job or its asset. */
  lemma {:induction false} StrandedForGood(r: Rules, run: Run, i: nat, n: nat, j: JobId)
    requires IsRun(r, run) && i <= n < |run.states| && Stranded(run.states[i], j)
    requires forall k :: i <= k < n ==> !UserDeletes(run.states[k], run.actions[k], j)
    ensures Stranded(run.states[n], j)
    decreases n - i
  {
    if i < n {
      StrandedForGood(r, run, i, n - 1, j);
      BaseHolds(r, run, n - 1);
      assert StepsAt(r, run, n - 1);
      StepKeepsStranded(run.states[n - 1], run.actions[n - 1], j);
    }
  }

  /** A way on from a state, on which no user deletes job `j`. */
  ghost predicate IsPath(path: Run, j: JobId) {
    |path.states| == |path.actions| + 1
    && forall i :: 0 <= i < |path.actions| ==>
         Enabled(path.states[i], path.actions[i]) && path.states[i + 1] == Do(path.states[i], path.actions[i])
         && !UserDeletes(path.states[i], path.actions[i], j)
  }

  /** Some way on brings job `j` to an end. */
  ghost predicate CanEnd(s: State, j: JobId) {
    exists path :: IsPath(path, j) && path.states[0] == s
                   && var end := path.states[|path.actions|]; j in end.db.jobs && !end.db.jobs[j].status.Active()
  }

  lemma {:induction false} PathKeepsStranded(path: Run, j: JobId, n: nat)
    requires IsPath(path, j) && n < |path.states| && Base(path.states[0]) && Stranded(path.states[0], j)
    ensures Base(path.states[n]) && Stranded(path.states[n], j)
  {
    if n > 0 {
      PathKeepsStranded(path, j, n - 1);
      var s, a := path.states[n - 1], path.actions[n - 1];
      assert Enabled(s, a);
      StepKeepsBase(s, a);
      StepKeepsStranded(s, a, j);
    }
  }

  lemma StrandedNeverEnds(s: State, j: JobId)
    requires Base(s) && Stranded(s, j)
    ensures !CanEnd(s, j)
  {
    forall path | IsPath(path, j) && path.states[0] == s
      ensures var end := path.states[|path.actions|]; j in end.db.jobs ==> end.db.jobs[j].status.Active()
    {
      PathKeepsStranded(path, j, |path.actions|);
    }
  }

  /** The monitor ends a job it watches or has picked, in three steps or in two. */
  lemma RecoverableEnds(s: State, j: JobId)
    requires Base(s) && Recoverable(s.db, j)
    ensures CanEnd(s, j)
  {
    var s1 := GoesStale(s, j);
    if j in s.db.picked {
      var s2 := MonitorEnds(s1, j);
      EndsInTwo(s, s1, s2, j);
    } else {
      var s2 := Picks(s1, j);
      var s3 := MonitorEnds(s2, j);
      EndsInThree(s, s1, s2, s3, j);
    }
  }

  predicate Steps(s: State, c: CmsStep, s': State) {
    Enabled(s, Cms(c)) && s' == Do(s, Cms(c))
  }

  lemma EndsInTwo(s: State, s1: State, s2: State, j: JobId)
    requires Steps(s, GoStale(j), s1) && Steps(s1, RecoverStalled(j), s2) && j in s2.db.jobs && !s2.db.jobs[j].status.Active()
    ensures CanEnd(s, j)
  {
    var path := Run([s, s1, s2], [Cms(GoStale(j)), Cms(RecoverStalled(j))]);
    assert IsPath(path, j) && path.states[|path.actions|] == s2;
  }

  lemma EndsInThree(s: State, s1: State, s2: State, s3: State, j: JobId)
    requires Steps(s, GoStale(j), s1) && Steps(s1, PickStalled(j), s2) && Steps(s2, RecoverStalled(j), s3)
    requires j in s3.db.jobs && !s3.db.jobs[j].status.Active()
    ensures CanEnd(s, j)
  {
    var path := Run([s, s1, s2, s3], [Cms(GoStale(j)), Cms(PickStalled(j)), Cms(RecoverStalled(j))]);
    assert IsPath(path, j) && path.states[|path.actions|] == s3;
  }

  lemma GoesStale(s: State, j: JobId) returns (s': State)
    requires Base(s) && Recoverable(s.db, j)
    ensures Steps(s, GoStale(j), s') && DbOk(s'.db)
    ensures if j in s.db.picked then MayRecover(s'.db, j) else MonitorSees(s'.db, j)
  {
    s' := Do(s, Cms(GoStale(j)));
    StepKeepsBase(s, Cms(GoStale(j)));
  }

  lemma Picks(s: State, j: JobId) returns (s': State)
    requires DbOk(s.db) && MonitorSees(s.db, j)
    ensures Steps(s, PickStalled(j), s') && DbOk(s'.db) && MayRecover(s'.db, j)
  {
    s' := Do(s, Cms(PickStalled(j)));
  }

  lemma MonitorEnds(s: State, j: JobId) returns (s': State)
    requires DbOk(s.db) && MayRecover(s.db, j)
    ensures Steps(s, RecoverStalled(j), s')
    ensures j in s'.db.jobs && !s'.db.jobs[j].status.Active()
  {
    s' := Do(s, Cms(RecoverStalled(j)));
    RecoverStages(s.db, j);
  }

  /** Worker `w` is the last to hold anything that could bring its job back. */
  ghost predicate LastCarrier(s: State, w: WorkerId) {
    w in s.workers && Holds(s, s.workers[w])
    && var j := s.workers[w].job;
       j in s.db.jobs && j !in s.db.outbox
       && (forall m :: m in s.queue.messages && m != s.workers[w].msg ==> s.queue.messages[m].job != j)
       && Unattended(s, j, {w})
  }

  /** Theorem: when the last carrier of an active job is removed, the job can still come to an end if
      and only if the monitor watches it, a PROCESSING transcode whose variant is PROCESSING and has
      not been superseded, or has picked it already.  No other kind of job, and no other variant,
      comes back. */
  lemma LastCarrierIff(s: State, w: WorkerId)
    requires Base(s) && WorkEnabled(s, w, DeleteMessage(true)) && LastCarrier(s, w)
    requires s.db.jobs[s.workers[w].job].status.Active()
    ensures CanEnd(DoWork(s, w, DeleteMessage(true)), s.workers[w].job) <==> Recoverable(s.db, s.workers[w].job)
  {
    var j := s.workers[w].job;
    var s' := DoWork(s, w, DeleteMessage(true));
    StepKeepsBase(s, Work(w, DeleteMessage(true)));
    if Recoverable(s.db, j) {
      RecoverableEnds(s', j);
    } else {
      assert Stranded(s', j);
      StrandedNeverEnds(s', j);
    }
  }

  /** So it is for a shutdown that is not a timeout: its branch writes nothing and goes on to remove
      the message. */
  lemma InterruptedIff(s: State, w: WorkerId)
    requires Base(s) && WorkEnabled(s, w, Finalize(true)) && LastCarrier(s, w)
    requires FinalBranch(s.workers[w], s.workers[w].phase.outcome).Interrupted? && s.db.jobs[s.workers[w].job].status.Active()
    ensures var s1 := DoWork(s, w, Finalize(true));
      WorkEnabled(s1, w, DeleteMessage(true))
      && (CanEnd(DoWork(s1, w, DeleteMessage(true)), s.workers[w].job) <==> Recoverable(s.db, s.workers[w].job))
  {
    var s1 := DoWork(s, w, Finalize(true));
    StepKeepsBase(s, Work(w, Finalize(true)));
    assert s1.db == s.db && s1.queue == s.queue;
    assert LastCarrier(s1, w);
    LastCarrierIff(s1, w);
  }
}
