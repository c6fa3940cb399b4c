/** Which variants come back: what becomes of a variant in flight that no job is active for. */
module Orphans {
  import opened Basics
  import opened Jobs
  import opened Protocol
  import opened ProtocolInvariant
  import opened PublishSafety

  predicate JobOf(row: Job, v: VariantId) {
    row.kind == VariantTranscode && row.target == v
  }

  predicate OnVariant(db: Db, k: Worker, v: VariantId) {
    (k.phase.HasRow() && JobOf(k.phase.row, v)) || (k.job in db.jobs && JobOf(db.jobs[k.job], v))
  }

  /** In flight, with no active job, nothing that carries one of its jobs, and nobody at work on one. */
  ghost predicate Orphaned(s: State, v: VariantId) {
    v in s.db.variants && (s.db.variants[v] == VPending || s.db.variants[v] == VProcessing) && Quiet(s, v)
  }

  ghost predicate Quiet(s: State, v: VariantId) {
    v in s.db.variants
    && (forall j :: j in s.db.jobs && JobOf(s.db.jobs[j], v) ==> !s.db.jobs[j].status.Active() && j !in s.db.outbox)
    && (forall m :: m in s.queue.messages && s.queue.messages[m].job in s.db.jobs ==> !JobOf(s.db.jobs[s.queue.messages[m].job], v))
    && (forall w :: w in s.workers && s.workers[w].phase.Live() ==> !OnVariant(s.db, s.workers[w], v))
  }

  /** `j` is the newest job of variant `v`. */
  ghost predicate NewestOf(db: Db, j: JobId, v: VariantId) {
    j in db.jobs && JobOf(db.jobs[j], v) && forall i :: i in db.jobs && JobOf(db.jobs[i], v) ==> i <= j
  }

  /** A job that was cancelled ends its variant CANCELLED, one that failed with its attempts used up FAILED. */
  predicate EndsAs(row: Job, status: VariantStatus) {
    (row.status == Cancelled && status == VCancelled) || (row.status == Failed && row.retries > 3 && status == VFailed)
  }

  /** The newest job was cancelled, or failed with its attempts used up, and neither the variant nor its
      asset is on its way out; or the reconciler has already judged it. */
  ghost predicate Reconciled(db: Db, v: VariantId) {
    v in db.verdicts
    || (v !in db.superseded && !AssetDeleted(db, v)
        && exists j :: NewestOf(db, j, v) && (EndsAs(db.jobs[j], VCancelled) || EndsAs(db.jobs[j], VFailed)))
  }

  /** Nobody asks for variant `v` anew, and neither it nor a job of it is deleted. */
  predicate LeavesAlone(db: Db, a: Action, v: VariantId) {
    match a
    case Cms(Stage(kind, target)) => !(kind == VariantTranscode && target == v)
    case Cms(EnqueueOne(kind, target)) => !(kind == VariantTranscode && target == v)
    case Cms(DropVariant(u)) => u != v
    case Cms(ResetVariant(u)) => u != v
    case Cms(DropJob(j)) => !(j in db.jobs && JobOf(db.jobs[j], v))
    case _ => true
  }

  // ------------------------------------------------------------- one step

  /** What a step must not change of variant `v` and its jobs. */
  ghost predicate SameFor(db: Db, db': Db, v: VariantId) {
    v in db.variants && v in db'.variants && db'.variants[v] == db.variants[v]
    && (forall j :: (j in db'.jobs && JobOf(db'.jobs[j], v)) <==> (j in db.jobs && JobOf(db.jobs[j], v)))
    && (forall j :: j in db.jobs && JobOf(db.jobs[j], v) ==>
          db'.jobs[j].status == db.jobs[j].status && db'.jobs[j].retries == db.jobs[j].retries)
    && db.superseded <= db'.superseded && db.deletedAssets <= db'.deletedAssets && db'.origins == db.origins
    && (v in db'.verdicts <==> v in db.verdicts) && (v in db.verdicts ==> db'.verdicts[v] == db.verdicts[v])
  }

  lemma SameReconciled(db: Db, db': Db, v: VariantId)
    requires SameFor(db, db', v) && Reconciled(db', v)
    ensures Reconciled(db, v)
  {
    if v !in db'.verdicts {
      var j :| NewestOf(db', j, v) && (EndsAs(db'.jobs[j], VCancelled) || EndsAs(db'.jobs[j], VFailed));
      SameNewest(db, db', j, v);
    }
  }

  lemma SameNewest(db: Db, db': Db, j: JobId, v: VariantId)
    requires SameFor(db, db', v)
    ensures NewestOf(db', j, v) <==> NewestOf(db, j, v)
    ensures NewestOf(db, j, v) ==> db'.jobs[j].status == db.jobs[j].status && db'.jobs[j].retries == db.jobs[j].retries
  {
    assert forall i :: (i in db'.jobs && JobOf(db'.jobs[i], v)) <==> (i in db.jobs && JobOf(db.jobs[i], v));
  }

  lemma JudgedIsReconciled(db: Db, v: VariantId, j: JobId)
    requires Reconcilable(db, v, j) && Judge(db.jobs[j]).Some?
    ensures NewestOf(db, j, v) && EndsAs(db.jobs[j], Judge(db.jobs[j]).value.Status()) && Reconciled(db, v)
  {
    forall i | i in db.jobs && JobOf(db.jobs[i], v) ensures i <= j {
      assert Newest(db, j, VariantTranscode, v);
    }
  }

  lemma CmsSame(s: State, c: CmsStep, v: VariantId)
    requires Base(s) && CmsEnabled(s, c) && Quiet(s, v) && LeavesAlone(s.db, Cms(c), v)
    requires !(c.JudgeStranded? && c.v == v) && !(c.ReconcileStranded? && c.v == v)
    ensures SameFor(s.db, CmsDb(s.db, c), v)
  {
    match c
    case RecoverStalled(j) => RecoverSame(s.db, j, v);
    case Stage(kind, target) => AddSame(s.db, kind, target, v);
    case EnqueueOne(kind, target) => AddSame(s.db, kind, target, v);
    case RequestImager(kind, target) => AddSame(s.db.(imagers := s.db.imagers[(kind, target) := ImagerInFlight]), kind, target, v);
    case DeleteAsset(asset) => SoftDeleteSame(s.db, asset, v);
    case _ => RestSame(s, c, v);
  }

  lemma AddSame(db: Db, kind: Kind, target: nat, v: VariantId)
    requires DbOk(db) && v in db.variants && !(kind == VariantTranscode && target == v)
    ensures SameFor(db, AddJob(db, kind, target), v)
  {
  }

  lemma SoftDeleteSame(db: Db, asset: AssetId, v: VariantId)
    requires v in db.variants && forall j :: j in db.jobs && JobOf(db.jobs[j], v) ==> !db.jobs[j].status.Active()
    ensures SameFor(db, SoftDelete(db, asset), v)
  {
  }

  lemma RestSame(s: State, c: CmsStep, v: VariantId)
    requires CmsEnabled(s, c) && v in s.db.variants && LeavesAlone(s.db, Cms(c), v)
    requires !c.RecoverStalled? && !c.Stage? && !c.EnqueueOne? && !c.RequestImager? && !c.DeleteAsset?
    requires !(c.JudgeStranded? && c.v == v) && !(c.ReconcileStranded? && c.v == v)
    ensures SameFor(s.db, CmsDb(s.db, c), v)
  {
  }

  lemma RecoverSame(db: Db, j: JobId, v: VariantId)
    requires DbOk(db) && MayRecover(db, j) && v in db.variants && db.jobs[j].target != v
    ensures SameFor(db, Recover(db, j), v)
  {
    RecoverStages(db, j);
  }

  /** Whoever is not on variant `v` leaves it alone. */
  lemma HandlerSame(db: Db, outputs: set<VariantId>, k: Worker, h: HandlerStep, v: VariantId)
    requires HandlerEnabled(db, k, h) && v in db.variants && !JobOf(k.phase.row, v)
    requires k.phase.Producing() || k.phase.Published? || k.phase.Settled? ==> k.phase.row.kind == VariantTranscode
    ensures SameFor(db, Handler(db, outputs, k.phase.row, h).db, v)
  {
  }

  lemma FinalSame(db: Db, j: JobId, row: Job, b: Branch, v: VariantId)
    requires v in db.variants && !JobOf(row, v) && (j in db.jobs ==> !JobOf(db.jobs[j], v))
    ensures SameFor(db, FinalWrite(db, j, row, b), v)
  {
    match b
    case TimedOut => TimeOutSame(db, j, row, v);
    case CancelSeen => CancelSame(db, j, row, v);
    case TerminalFailure => StatusSame(db, j, Failed, v);
    case Retry => StatusSame(db, j, Pending, v);
    case _ =>
  }

  lemma TimeOutSame(db: Db, j: JobId, row: Job, v: VariantId)
    requires v in db.variants && !JobOf(row, v) && (j in db.jobs ==> !JobOf(db.jobs[j], v))
    ensures SameFor(db, TimeOutJob(db, j, row), v)
  {
  }

  lemma CancelSame(db: Db, j: JobId, row: Job, v: VariantId)
    requires v in db.variants && !JobOf(row, v) && (j in db.jobs ==> !JobOf(db.jobs[j], v))
    ensures SameFor(db, CancelJob(db, j, row), v)
  {
  }

  lemma ClaimSame(db: Db, j: JobId, read: Job, v: VariantId)
    requires v in db.variants && WriteClaim(db, j, read).Some? && !JobOf(db.jobs[j], v)
    ensures SameFor(db, WriteClaim(db, j, read).value, v)
  {
  }

  lemma StatusSame(db: Db, j: JobId, status: JobStatus, v: VariantId)
    requires v in db.variants && (j in db.jobs ==> !JobOf(db.jobs[j], v))
    ensures SameFor(db, SetStatus(db, j, status), v)
  {
  }

  lemma FailSame(db: Db, row: Job, v: VariantId)
    requires v in db.variants && !JobOf(row, v)
    ensures SameFor(db, FailTarget(db, row), v)
  {
  }

  lemma OthersSame(s: State, k: Worker, a: WorkStep, v: VariantId)
    requires PhaseAllows(s, k, a) && !a.Handle? && !a.Finalize? && v in s.db.variants && !OnVariant(s.db, k, v)
    ensures SameFor(s.db, WorkEffect(s, k, a).db, v)
  {
    match a
    case Claim(ok) => if ok && WriteClaim(s.db, k.job, k.phase.row).Some? { ClaimSame(s.db, k.job, k.phase.row, v); }
    case Mark(_) => StatusSame(s.db, k.job, Done, v);
    case MirrorFailure(_) => FailSame(s.db, k.phase.row, v);
    case CancelBefore(_) => CancelSame(s.db, k.job, k.phase.row, v);
    case ReadJob =>
    case ReadTarget =>
    case Dispatch =>
    case StopHeartbeat =>
    case DeleteMessage(_) =>
  }

  lemma WorkSame(s: State, w: WorkerId, a: WorkStep, v: VariantId)
    requires Base(s) && WorkEnabled(s, w, a) && v in s.db.variants && !OnVariant(s.db, s.workers[w], v)
    ensures SameFor(s.db, WorkEffect(s, s.workers[w], a).db, v)
  {
    var k := s.workers[w];
    assert WorkerOk(s.db, s.queue, k);
    match a
    case Handle(h) => HandlerSame(s.db, s.outputs, k, h, v);
    case Finalize(ok) => FinalSame(s.db, k.job, k.phase.row, FinalBranch(k, k.phase.outcome), v);
    case _ => OthersSame(s, k, a, v);
  }

  lemma WorkStaysOff(s: State, w: WorkerId, a: WorkStep, v: VariantId)
    requires Base(s) && WorkEnabled(s, w, a) && !OnVariant(s.db, s.workers[w], v)
    ensures var p := WorkEffect(s, s.workers[w], a).phase; !(p.HasRow() && JobOf(p.row, v))
  {
    EffectKeepsRow(s, w, a);
  }

  /** The reconciler's two steps on `v` itself. */
  predicate Judges(a: Action, v: VariantId) {
    match a
    case Cms(JudgeStranded(u, _)) => u == v
    case Cms(ReconcileStranded(u)) => u == v
    case _ => false
  }

  lemma WorkKeepsQuiet(s: State, w: WorkerId, a: WorkStep, v: VariantId)
    requires Base(s) && WorkEnabled(s, w, a) && Quiet(s, v)
    ensures Quiet(DoWork(s, w, a), v) && SameFor(s.db, DoWork(s, w, a).db, v)
  {
    RemovingExits(s, s.workers[w], a);
    WorkSame(s, w, a, v);
    WorkStaysOff(s, w, a, v);
    EffectFrame(s, w, a);
    ApplyKeepsQuiet(s, w, WorkEffect(s, s.workers[w], a), v);
  }

  lemma ApplyKeepsQuiet(s: State, w: WorkerId, e: Effect, v: VariantId)
    requires Quiet(s, v) && w in s.workers && s.workers[w].phase.Live()
    requires SameFor(s.db, e.db, v) && e.db.outbox == s.db.outbox && e.db.jobs.Keys == s.db.jobs.Keys
    requires !(e.phase.HasRow() && JobOf(e.phase.row, v))
    ensures Quiet(Apply(s, w, e), v)
  {
    ApplyStaysOff(s, w, e, v);
    var s' := Apply(s, w, e);
    assert forall m :: m in s'.queue.messages ==> m in s.queue.messages && s'.queue.messages[m] == s.queue.messages[m];
  }

  lemma ApplyStaysOff(s: State, w: WorkerId, e: Effect, v: VariantId)
    requires w in s.workers && s.workers[w].phase.Live() && SameFor(s.db, e.db, v) && e.db.jobs.Keys == s.db.jobs.Keys
    requires forall x :: x in s.workers && s.workers[x].phase.Live() ==> !OnVariant(s.db, s.workers[x], v)
    requires !(e.phase.HasRow() && JobOf(e.phase.row, v))
    ensures var s' := Apply(s, w, e);
      forall x :: x in s'.workers && s'.workers[x].phase.Live() ==> !OnVariant(s'.db, s'.workers[x], v)
  {
    var s' := Apply(s, w, e);
    forall x | x in s'.workers && s'.workers[x].phase.Live() ensures !OnVariant(s'.db, s'.workers[x], v) {
      assert !OnVariant(s.db, s.workers[x], v);
    }
  }

  /** With the same queue and workers, only the rows matter. */
  lemma RowsKeepQuiet(s: State, s': State, v: VariantId)
    requires Base(s) && Quiet(s, v) && SameFor(s.db, s'.db, v) && s'.queue == s.queue && s'.workers == s.workers
    requires forall j :: j in s'.db.outbox && j !in s.db.outbox ==> j >= s.db.nextJob
    requires forall j :: j in s'.db.jobs && j !in s.db.jobs ==> j >= s.db.nextJob
    ensures Quiet(s', v)
  {
    forall x | x in s'.workers && s'.workers[x].phase.Live() ensures !OnVariant(s'.db, s'.workers[x], v) {
      assert !OnVariant(s.db, s.workers[x], v);
    }
  }

  lemma CmsKeepsQuiet(s: State, c: CmsStep, v: VariantId)
    requires Base(s) && CmsEnabled(s, c) && Quiet(s, v) && LeavesAlone(s.db, Cms(c), v) && !Judges(Cms(c), v)
    ensures Quiet(Do(s, Cms(c)), v) && SameFor(s.db, Do(s, Cms(c)).db, v)
  {
    CmsSame(s, c, v);
    CmsOutbox(s, c);
    CmsKeepsDb(s, c);
    RowsKeepQuiet(s, Do(s, Cms(c)), v);
  }

  lemma StaleSame(db: Db, db': Db, v: VariantId)
    requires v in db.variants && OnlyStale(db.(outbox := {}), db'.(outbox := {}))
    ensures SameFor(db, db', v)
  {
    assert forall j :: j in db.jobs ==> db'.jobs[j].(stale := false) == db.jobs[j].(stale := false);
  }

  lemma QuietKeepsQuiet(s: State, a: Action, v: VariantId)
    requires Base(s) && Enabled(s, a) && !a.Work? && !a.Cms? && Quiet(s, v)
    ensures Quiet(Do(s, a), v) && SameFor(s.db, Do(s, a).db, v)
  {
    QuietFrame(s, a);
    var s' := Do(s, a);
    StaleSame(s.db, s'.db, v);
    if a.Beat? { BeatFrame(s, a.w, a.beat); }
    forall x | x in s'.workers && s'.workers[x].phase.Live() ensures !OnVariant(s'.db, s'.workers[x], v) {
      if x in s.workers { assert !OnVariant(s.db, s.workers[x], v); }
    }
  }

  lemma StepKeepsQuiet(s: State, a: Action, v: VariantId)
    requires Base(s) && Enabled(s, a) && Quiet(s, v) && LeavesAlone(s.db, a, v) && !Judges(a, v)
    ensures Quiet(Do(s, a), v) && SameFor(s.db, Do(s, a).db, v)
  {
    match a
    case Cms(c) => CmsKeepsQuiet(s, c, v);
    case Work(w, k) => WorkKeepsQuiet(s, w, k, v);
    case _ => QuietKeepsQuiet(s, a, v);
  }

  lemma StepKeepsOrphan(s: State, a: Action, v: VariantId)
    requires Base(s) && Enabled(s, a) && Orphaned(s, v) && !Reconciled(s.db, v) && LeavesAlone(s.db, a, v)
    ensures Orphaned(Do(s, a), v) && !Reconciled(Do(s, a).db, v)
  {
    if a.Cms? && a.cms.JudgeStranded? && a.cms.v == v {
      JudgedIsReconciled(s.db, v, a.cms.j);
      assert false;
    }
    StepKeepsQuiet(s, a, v);
    if Reconciled(Do(s, a).db, v) { SameReconciled(s.db, Do(s, a).db, v); }
  }

  // -------------------------------------------------------------- theorems

  /** A way on from a state on which `v` is left alone. */
  ghost predicate IsWay(path: Run, v: VariantId) {
    |path.states| == |path.actions| + 1
    && forall i :: 0 <= i < |path.actions| ==>
         Enabled(path.states[i], path.actions[i]) && path.states[i + 1] == Do(path.states[i], path.actions[i])
         && LeavesAlone(path.states[i].db, path.actions[i], v)
  }

  /** Some way on takes the variant out of flight. */
  ghost predicate CanSettle(s: State, v: VariantId) {
    exists path :: IsWay(path, v) && path.states[0] == s
                   && var db := path.states[|path.actions|].db; v in db.variants && !db.variants[v].InFlight()
  }

  lemma {:induction false} WayKeepsOrphan(path: Run, v: VariantId, n: nat)
    requires IsWay(path, v) && n < |path.states| && Base(path.states[0])
    requires Orphaned(path.states[0], v) && !Reconciled(path.states[0].db, v)
    ensures Base(path.states[n]) && Orphaned(path.states[n], v) && !Reconciled(path.states[n].db, v)
  {
    if n > 0 {
      WayKeepsOrphan(path, v, n - 1);
      var s, a := path.states[n - 1], path.actions[n - 1];
      assert Enabled(s, a);
      StepKeepsBase(s, a);
      StepKeepsOrphan(s, a, v);
    }
  }

  lemma VerdictSettles(s: State, v: VariantId)
    requires Orphaned(s, v) && v in s.db.verdicts
    ensures CanSettle(s, v)
  {
    var s' := ReconciledOnce(s, v);
    var path := Run([s, s'], [Cms(ReconcileStranded(v))]);
    assert IsWay(path, v) && path.states[|path.actions|] == s';
  }

  lemma JudgedSettles(s: State, v: VariantId, j: JobId)
    requires Orphaned(s, v) && v !in s.db.superseded && !AssetDeleted(s.db, v)
    requires NewestOf(s.db, j, v) && (EndsAs(s.db.jobs[j], VCancelled) || EndsAs(s.db.jobs[j], VFailed))
    ensures CanSettle(s, v)
  {
    var s1 := JudgedOnce(s, v, j);
    var s2 := ReconciledOnce(s1, v);
    var path := Run([s, s1, s2], [Cms(JudgeStranded(v, j)), Cms(ReconcileStranded(v))]);
    assert IsWay(path, v) && path.states[|path.actions|] == s2;
  }

  lemma JudgedOnce(s: State, v: VariantId, j: JobId) returns (s': State)
    requires Orphaned(s, v) && v !in s.db.superseded && !AssetDeleted(s.db, v)
    requires NewestOf(s.db, j, v) && (EndsAs(s.db.jobs[j], VCancelled) || EndsAs(s.db.jobs[j], VFailed))
    ensures Enabled(s, Cms(JudgeStranded(v, j))) && s' == Do(s, Cms(JudgeStranded(v, j)))
    ensures v in s'.db.verdicts && v in s'.db.variants
  {
    assert Reconcilable(s.db, v, j);
    s' := Do(s, Cms(JudgeStranded(v, j)));
  }

  lemma ReconciledOnce(s: State, v: VariantId) returns (s': State)
    requires v in s.db.verdicts && v in s.db.variants
    ensures Enabled(s, Cms(ReconcileStranded(v))) && s' == Do(s, Cms(ReconcileStranded(v)))
    ensures v in s'.db.variants && !s'.db.variants[v].InFlight()
  {
    s' := Do(s, Cms(ReconcileStranded(v)));
  }

  /** Theorem: a variant in flight that no job is active for, and that is left alone, can still come to an
      end if and only if the reconciler acts on it.  A newest job that is DONE, or failed with attempts
      left, or no job at all, strands it for good. */
  lemma OrphanSettlesIff(s: State, v: VariantId)
    requires Base(s) && Orphaned(s, v)
    ensures CanSettle(s, v) <==> Reconciled(s.db, v)
  {
    if v in s.db.verdicts {
      VerdictSettles(s, v);
    } else if Reconciled(s.db, v) {
      var j :| NewestOf(s.db, j, v) && (EndsAs(s.db.jobs[j], VCancelled) || EndsAs(s.db.jobs[j], VFailed));
      JudgedSettles(s, v, j);
    } else if path :| IsWay(path, v) && path.states[0] == s
                      && var db := path.states[|path.actions|].db; v in db.variants && !db.variants[v].InFlight() {
      WayKeepsOrphan(path, v, |path.actions|);
      assert false;
    }
  }

  // ------------------------------------------------------------ how it ends

  /** The newest job of `v` is `j`, it says `status`, and so does whatever has been judged or written. */
  ghost predicate SaysStatus(s: State, v: VariantId, j: JobId, status: VariantStatus) {
    Quiet(s, v) && NewestOf(s.db, j, v) && EndsAs(s.db.jobs[j], status)
    && (v in s.db.verdicts ==> s.db.verdicts[v].Status() == status)
    && (s.db.variants[v] == VPending || s.db.variants[v] == VProcessing || s.db.variants[v] == status)
  }

  lemma JudgeKeepsStatus(s: State, a: Action, v: VariantId, j: JobId, status: VariantStatus)
    requires Base(s) && Enabled(s, a) && Judges(a, v) && SaysStatus(s, v, j, status)
    ensures SaysStatus(Do(s, a), v, j, status)
  {
    var s' := Do(s, a);
    if a.cms.JudgeStranded? {
      JudgedIsReconciled(s.db, v, a.cms.j);
      assert a.cms.j == j;
    }
    forall x | x in s'.workers && s'.workers[x].phase.Live() ensures !OnVariant(s'.db, s'.workers[x], v) {
      assert !OnVariant(s.db, s.workers[x], v);
    }
  }

  lemma StepKeepsStatus(s: State, a: Action, v: VariantId, j: JobId, status: VariantStatus)
    requires Base(s) && Enabled(s, a) && LeavesAlone(s.db, a, v) && SaysStatus(s, v, j, status)
    ensures SaysStatus(Do(s, a), v, j, status)
  {
    if Judges(a, v) {
      JudgeKeepsStatus(s, a, v, j, status);
    } else {
      StepKeepsQuiet(s, a, v);
      SameNewest(s.db, Do(s, a).db, j, v);
    }
  }

  /** Theorem: it ends as its newest job says: CANCELLED where that was cancelled, FAILED where it failed
      with its attempts used up. */
  lemma {:induction false} OrphanEndsAs(path: Run, v: VariantId, j: JobId, status: VariantStatus, n: nat)
    requires IsWay(path, v) && n < |path.states| && Base(path.states[0])
    requires SaysStatus(path.states[0], v, j, status)
    ensures Base(path.states[n]) && SaysStatus(path.states[n], v, j, status)
    ensures var db := path.states[n].db; v in db.variants && (!db.variants[v].InFlight() ==> db.variants[v] == status)
  {
    if n > 0 {
      OrphanEndsAs(path, v, j, status, n - 1);
      var s, a := path.states[n - 1], path.actions[n - 1];
      assert Enabled(s, a);
      StepKeepsBase(s, a);
      StepKeepsStatus(s, a, v, j, status);
    }
  }
}
