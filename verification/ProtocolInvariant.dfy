/** What every run of the transcode protocol keeps, with no restriction on the run. */
module ProtocolInvariant {
  import opened Basics
  import opened Jobs
  import opened Protocol

  // -------------------------------------------------------------- invariant

  ghost predicate DbOk(db: Db) {
    Indexed(db.jobs) && db.outbox <= db.jobs.Keys && forall j :: j in db.jobs ==> j < db.nextJob
  }

  ghost predicate QueueOk(db: Db, q: Queue) {
    forall m :: m in q.messages ==>
      m < q.nextMsg && q.messages[m].receipt < q.nextReceipt && q.messages[m].job < db.nextJob
  }

  /** At most one stop reason, and the heartbeat is over once there is one. */
  predicate FlagsOk(k: Worker) {
    (k.cancelObserved || k.evicted || k.leaseLost ==> k.stop && k.hb.Stopped?)
    && !(k.cancelObserved && k.evicted) && !(k.cancelObserved && k.leaseLost) && !(k.evicted && k.leaseLost)
    && (k.phase.Finalizing? || k.phase.Deleting? ==> k.hb.Stopped?)
  }

  predicate RowOk(db: Db, k: Worker) {
    k.phase.HasRow() && k.job in db.jobs ==>
      db.jobs[k.job].kind == k.phase.row.kind && db.jobs[k.job].target == k.phase.row.target
  }

  predicate WorkerOk(db: Db, q: Queue, k: Worker) {
    k.receipt < q.nextReceipt && k.msg < q.nextMsg && k.job < db.nextJob
    && (k.msg in q.messages ==> q.messages[k.msg].job == k.job)
    && FlagsOk(k) && RowOk(db, k)
    && (k.phase.Producing() || k.phase.Published? || k.phase.Settled? ==> k.phase.row.kind == VariantTranscode)
  }

  ghost predicate WorkersOk(db: Db, q: Queue, ws: map<WorkerId, Worker>) {
    forall w :: w in ws ==> WorkerOk(db, q, ws[w])
  }

  ghost predicate ReceiptsDistinct(ws: map<WorkerId, Worker>) {
    forall w, x :: w in ws && x in ws && w != x ==> ws[w].receipt != ws[x].receipt
  }

  ghost predicate Base(s: State) {
    DbOk(s.db) && QueueOk(s.db, s.queue) && WorkersOk(s.db, s.queue, s.workers) && ReceiptsDistinct(s.workers)
  }

  // ------------------------------------------------------ database steps

  /** What every transaction keeps of the rows other transactions rely on. */
  ghost predicate Grows(db: Db, db': Db) {
    db'.origins == db.origins && db.nextJob <= db'.nextJob
    && (forall j :: j in db'.jobs && j in db.jobs ==>
          db'.jobs[j].kind == db.jobs[j].kind && db'.jobs[j].target == db.jobs[j].target)
    && (forall j :: j in db'.jobs && j !in db.jobs ==> j >= db.nextJob)
  }

  lemma PutKeepsDb(db: Db, j: JobId, row: Job)
    requires DbOk(db) && j in db.jobs && row.kind == db.jobs[j].kind && row.target == db.jobs[j].target
    requires row.status.Active() && !db.jobs[j].status.Active() ==> Admitted(db.jobs, j, row)
    ensures DbOk(PutJob(db, j, row)) && Grows(db, PutJob(db, j, row))
  {
    var jobs' := db.jobs[j := row];
    forall a, b | a in jobs' && b in jobs' && a != b
      ensures !(ActiveFor(jobs'[a], VariantTranscode, jobs'[b].target) && ActiveFor(jobs'[b], VariantTranscode, jobs'[b].target))
    {
      if a != j && b != j {
        assert a in db.jobs && b in db.jobs;
      } else if db.jobs[j].status.Active() {
        assert a in db.jobs && b in db.jobs;
        var c := if a == j then b else a;
        assert !(ActiveFor(db.jobs[c], VariantTranscode, db.jobs[j].target) && ActiveFor(db.jobs[j], VariantTranscode, db.jobs[j].target));
      }
    }
  }

  lemma AddKeepsDb(db: Db, kind: Kind, target: nat)
    requires DbOk(db) && Admitted(db.jobs, db.nextJob, Job(kind, target, Pending, 0, false, false))
    ensures DbOk(AddJob(db, kind, target)) && Grows(db, AddJob(db, kind, target))
  {
  }

  lemma ClaimKeepsDb(db: Db, j: JobId, read: Job)
    requires DbOk(db) && WriteClaim(db, j, read).Some?
    ensures DbOk(WriteClaim(db, j, read).value) && Grows(db, WriteClaim(db, j, read).value)
  {
    PutKeepsDb(db, j, Overwritten(db.jobs[j], read));
  }

  lemma StatusKeepsDb(db: Db, j: JobId, status: JobStatus)
    requires DbOk(db)
    requires status.Active() ==> !(j in db.jobs && !Admitted(db.jobs, j, db.jobs[j].(status := status)))
    ensures DbOk(SetStatus(db, j, status)) && Grows(db, SetStatus(db, j, status))
  {
    if j in db.jobs {
      PutKeepsDb(db, j, db.jobs[j].(status := status));
    }
  }

  /** The monitor's transaction is never refused by the index, and a job that was not flagged for
      cancellation always gets its replacement: the duplicate check cannot skip it.  Whatever the
      variant's status has become since the pick, it is written over. */
  lemma RecoverStages(db: Db, j: JobId)
    requires DbOk(db) && MayRecover(db, j)
    ensures DbOk(Recover(db, j)) && Grows(db, Recover(db, j))
    ensures !Recover(db, j).jobs[j].status.Active()
    ensures var v := db.jobs[j].target;
      if db.jobs[j].cancelRequested
      then Recover(db, j).variants[v] == VCancelled && Recover(db, j).outbox == db.outbox
           && forall i :: i in Recover(db, j).jobs ==> !ActiveFor(Recover(db, j).jobs[i], VariantTranscode, v)
      else Recover(db, j).variants[v] == VPending
           && Recover(db, j).jobs[db.nextJob] == Job(VariantTranscode, v, Pending, 0, false, false)
           && Recover(db, j).outbox == db.outbox + {db.nextJob}
  {
    var v := db.jobs[j].target;
    var status := if db.jobs[j].cancelRequested then Cancelled else Failed;
    var db0 := db.(picked := db.picked - {j});
    StatusKeepsDb(db0, j, status);
    var db1 := SetStatus(db0, j, status);
    forall i | i in db1.jobs
      ensures !ActiveFor(db1.jobs[i], VariantTranscode, v)
    {
      if i != j && ActiveFor(db.jobs[i], VariantTranscode, v) { OneActive(db.jobs, i, j, v); }
    }
    if !db.jobs[j].cancelRequested { RestageKeepsDb(SetVariant(db1, v, VPending), v); }
  }

  lemma RestageKeepsDb(db: Db, v: VariantId)
    requires DbOk(db) && forall i :: i in db.jobs ==> !ActiveFor(db.jobs[i], VariantTranscode, v)
    ensures var db' := StageJob(db, VariantTranscode, v);
      db' == AddJob(db, VariantTranscode, v) && DbOk(db') && Grows(db, db')
  {
    AddKeepsDb(db, VariantTranscode, v);
  }

  lemma SoftDeleteKeepsDb(db: Db, asset: AssetId)
    requires DbOk(db)
    ensures DbOk(SoftDelete(db, asset)) && Grows(db, SoftDelete(db, asset))
  {
    var jobs' := SoftDelete(db, asset).jobs;
    forall a, b | a in jobs' && b in jobs' && a != b
      ensures !(ActiveFor(jobs'[a], VariantTranscode, jobs'[b].target) && ActiveFor(jobs'[b], VariantTranscode, jobs'[b].target))
    {
      assert !(ActiveFor(db.jobs[a], VariantTranscode, db.jobs[b].target) && ActiveFor(db.jobs[b], VariantTranscode, db.jobs[b].target));
    }
  }

  lemma DropJobKeepsDb(db: Db, j: JobId)
    requires DbOk(db)
    ensures DbOk(CmsDb(db, DropJob(j))) && Grows(db, CmsDb(db, DropJob(j)))
  {
    var jobs' := db.jobs - {j};
    forall a, b | a in jobs' && b in jobs' && a != b
      ensures !(ActiveFor(jobs'[a], VariantTranscode, jobs'[b].target) && ActiveFor(jobs'[b], VariantTranscode, jobs'[b].target))
    {
      assert !(ActiveFor(db.jobs[a], VariantTranscode, db.jobs[b].target) && ActiveFor(db.jobs[b], VariantTranscode, db.jobs[b].target));
    }
  }

  lemma RequestKeepsDb(db: Db, kind: Kind, target: nat)
    requires DbOk(db) && kind.Imager()
    ensures DbOk(RequestImage(db, kind, target)) && Grows(db, RequestImage(db, kind, target))
  {
    if !((kind, target) in db.imagers && db.imagers[(kind, target)] != ImagerFailed) {
      AddKeepsDb(db.(imagers := db.imagers[(kind, target) := ImagerInFlight]), kind, target);
    }
  }

  lemma CmsKeepsDb(s: State, c: CmsStep)
    requires DbOk(s.db) && CmsEnabled(s, c)
    ensures DbOk(CmsDb(s.db, c)) && Grows(s.db, CmsDb(s.db, c))
  {
    match c
    case Stage(kind, target) =>
      if !exists i :: i in s.db.jobs && ActiveFor(s.db.jobs[i], kind, target) {
        AddKeepsDb(s.db, kind, target);
      }
    case EnqueueOne(kind, target) =>
      if Admitted(s.db.jobs, s.db.nextJob, Job(kind, target, Pending, 0, false, false)) {
        AddKeepsDb(s.db, kind, target);
      }
    case DropJob(j) => DropJobKeepsDb(s.db, j);
    case DeleteAsset(asset) => SoftDeleteKeepsDb(s.db, asset);
    case RequestCancel(j) =>
      if j in s.db.jobs { PutKeepsDb(s.db, j, s.db.jobs[j].(cancelRequested := true)); }
    case GoStale(j) => PutKeepsDb(s.db, j, s.db.jobs[j].(stale := true));
    case RecoverStalled(j) => RecoverStages(s.db, j);
    case CreateVariant(_) =>
    case SupersedeVariant(_) =>
    case DropVariant(_) =>
    case PickStalled(_) =>
    case JudgeStranded(_, _) =>
    case ReconcileStranded(_) =>
    case ResetVariant(_) =>
    case UnlinkOutput(_) =>
    case DropImager(_, _) =>
    case RequestImager(kind, target) => RequestKeepsDb(s.db, kind, target);
  }

  lemma FinalWriteKeepsDb(db: Db, j: JobId, row: Job, b: Branch)
    requires DbOk(db) && (b.Retry? ==> !RetryRefused(db, j))
    ensures DbOk(FinalWrite(db, j, row, b)) && Grows(db, FinalWrite(db, j, row, b))
  {
    match b
    case TimedOut => StatusKeepsDb(db, j, Failed);
    case CancelSeen => StatusKeepsDb(db, j, Cancelled);
    case TerminalFailure => StatusKeepsDb(db, j, Failed);
    case Success =>
    case Retry => StatusKeepsDb(db, j, Pending);
    case Interrupted =>
    case Evicted =>
    case LeaseLost =>
  }

  // ------------------------------------------- what a main-flow step touches

  /** `db'` differs from `db` at most in job row `j` and variant `v`, and `v` is not newly READY. */
  ghost predicate Local(db: Db, db': Db, j: JobId, v: VariantId) {
    db'.outbox == db.outbox && db'.nextJob == db.nextJob && db'.origins == db.origins
    && db'.deletedAssets == db.deletedAssets && db'.superseded == db.superseded
    && db'.picked == db.picked && db'.verdicts == db.verdicts
    && db'.jobs.Keys == db.jobs.Keys && db'.variants.Keys == db.variants.Keys
    && (forall i :: i in db.jobs && i != j ==> db'.jobs[i] == db.jobs[i])
    && (forall u :: u in db.variants && u != v ==> db'.variants[u] == db.variants[u])
  }

  predicate StaysUnready(db: Db, db': Db, v: VariantId) {
    v in db'.variants && db'.variants[v] == VReady ==> v in db.variants && db.variants[v] == VReady
  }

  /** The variant a phase works on; nobody's variant where there is none. */
  function TargetOf(k: Worker): VariantId {
    if k.phase.HasRow() then k.phase.row.target else 0
  }

  lemma HandlerLocal(db: Db, outputs: set<VariantId>, row: Job, h: HandlerStep, j: JobId)
    ensures Local(db, Handler(db, outputs, row, h).db, j, row.target)
    ensures h != Commit ==> StaysUnready(db, Handler(db, outputs, row, h).db, row.target)
    ensures Handler(db, outputs, row, h).db.jobs == db.jobs
  {
  }

  lemma ClaimLocal(db: Db, j: JobId, read: Job, v: VariantId)
    requires WriteClaim(db, j, read).Some?
    ensures var db' := WriteClaim(db, j, read).value;
      Local(db, db', j, v) && StaysUnready(db, db', v) && db'.variants == db.variants
  {
  }

  lemma FinalLocal(db: Db, j: JobId, row: Job, b: Branch)
    ensures Local(db, FinalWrite(db, j, row, b), j, row.target)
    ensures StaysUnready(db, FinalWrite(db, j, row, b), row.target)
  {
    match b
    case TimedOut => TimeOutLocal(db, j, row);
    case CancelSeen => CancelLocal(db, j, row);
    case _ =>
  }

  lemma TimeOutLocal(db: Db, j: JobId, row: Job)
    ensures var db' := TimeOutJob(db, j, row); Local(db, db', j, row.target) && StaysUnready(db, db', row.target)
  {
  }

  lemma MirrorLocal(db: Db, j: JobId, row: Job)
    ensures var db' := FailTarget(db, row); Local(db, db', j, row.target) && StaysUnready(db, db', row.target)
  {
  }

  lemma CancelLocal(db: Db, j: JobId, row: Job)
    ensures var db' := CancelJob(db, j, row); Local(db, db', j, row.target) && StaysUnready(db, db', row.target)
  {
  }

  /** A main-flow step writes no job row but its own, no variant but its target,
      and makes nothing READY unless it publishes. */
  lemma EffectFrame(s: State, w: WorkerId, a: WorkStep)
    requires WorkEnabled(s, w, a)
    ensures var k := s.workers[w]; var db' := WorkEffect(s, k, a).db;
      Local(s.db, db', k.job, TargetOf(k)) && (a != Handle(Commit) ==> StaysUnready(s.db, db', TargetOf(k)))
  {
    var k := s.workers[w];
    match a
    case ReadJob =>
    case Claim(ok) =>
      if ok && WriteClaim(s.db, k.job, k.phase.row).Some? { ClaimLocal(s.db, k.job, k.phase.row, TargetOf(k)); }
    case ReadTarget =>
    case MirrorFailure(_) => MirrorLocal(s.db, k.job, k.phase.row);
    case CancelBefore(_) => CancelLocal(s.db, k.job, k.phase.row);
    case Handle(h) => HandlerLocal(s.db, s.outputs, k.phase.row, h, k.job);
    case Finalize(ok) => FinalLocal(s.db, k.job, k.phase.row, FinalBranch(k, k.phase.outcome));
    case Dispatch =>
    case StopHeartbeat =>
    case Mark(_) =>
    case DeleteMessage(_) =>
  }

  /** A heartbeat step changes nothing but its own worker's flags, its lease, and one `stale` mark. */
  lemma BeatFrame(s: State, w: WorkerId, b: BeatStep)
    requires BeatEnabled(s, w, b)
    ensures var s' := DoBeat(s, w, b); var k := s.workers[w];
      OnlyStale(s.db, s'.db) && w in s'.workers && s'.workers == s.workers[w := s'.workers[w]]
      && s'.workers[w].phase == k.phase && s'.workers[w].job == k.job && s'.workers[w].msg == k.msg
      && (if Renews(s, k, b)
          then s'.queue == Lease(s.queue, k.msg) && s'.workers[w].receipt == s.queue.nextReceipt
          else s'.queue == s.queue && s'.workers[w].receipt == k.receipt)
      && s'.dispatches == s.dispatches && s'.finals == s.finals && s'.failures == s.failures && s'.outputs == s.outputs
  {
  }

  ghost predicate OnlyStale(db: Db, db': Db) {
    db'.variants == db.variants && db'.origins == db.origins && db'.nextJob == db.nextJob && db'.imagers == db.imagers
    && db'.deletedAssets == db.deletedAssets && db'.superseded == db.superseded && db'.jobs.Keys == db.jobs.Keys
    && db'.outbox == db.outbox && db'.picked == db.picked && db'.verdicts == db.verdicts
    && forall j :: j in db.jobs ==> db'.jobs[j].(stale := false) == db.jobs[j].(stale := false)
  }

  /** Outside the CMS and the main flow, nothing happens to the rows except marks and the outbox,
      and no worker changes phase except into Exited or by appearing. */
  lemma QuietFrame(s: State, a: Action)
    requires Enabled(s, a) && !a.Work? && !a.Cms?
    ensures var s' := Do(s, a);
      OnlyStale(s.db.(outbox := {}), s'.db.(outbox := {}))
      && s.workers.Keys <= s'.workers.Keys
      && (forall x :: x in s'.workers && x !in s.workers ==> s'.workers[x].phase.Received?)
      && (forall x :: x in s.workers ==> s'.workers[x].job == s.workers[x].job && s'.workers[x].msg == s.workers[x].msg
                                         && (s'.workers[x].phase == s.workers[x].phase || s'.workers[x].phase.Exited?))
  {
    if a.Beat? { BeatFrame(s, a.w, a.beat); }
  }

  // ---------------------------------------------------------- whole steps

  /** A step that leaves the queue alone and gives worker `w` a new record. */
  lemma PutKeepsBase(s: State, db': Db, w: WorkerId, k: Worker, s': State)
    requires Base(s) && w in s.workers && DbOk(db') && Grows(s.db, db')
    requires s'.db == db' && s'.queue == s.queue && s'.workers == s.workers[w := k]
    requires WorkerOk(db', s.queue, k) && k.receipt == s.workers[w].receipt
    ensures Base(s')
  {
    forall x | x in s'.workers
      ensures WorkerOk(s'.db, s'.queue, s'.workers[x])
    {
      if x != w { assert WorkerOk(s.db, s.queue, s.workers[x]); }
    }
  }

  lemma EffectKeepsDb(s: State, k: Worker, a: WorkStep)
    requires DbOk(s.db) && PhaseAllows(s, k, a)
    ensures DbOk(WorkEffect(s, k, a).db) && Grows(s.db, WorkEffect(s, k, a).db)
  {
    match a
    case Claim(ok) =>
      if ok && WriteClaim(s.db, k.job, k.phase.row).Some? { ClaimKeepsDb(s.db, k.job, k.phase.row); }
    case CancelBefore(ok) => StatusKeepsDb(s.db, k.job, Cancelled);
    case Finalize(ok) => FinalKeepsDb(s, k, ok);
    case Handle(h) => HandlerKeepsDb(s.db, s.outputs, k.phase.row, h);
    case Mark(ok) => StatusKeepsDb(s.db, k.job, Done);
    case ReadJob =>
    case ReadTarget =>
    case MirrorFailure(ok) =>
    case Dispatch =>
    case StopHeartbeat =>
    case DeleteMessage(ok) =>
  }

  lemma HandlerKeepsDb(db: Db, outputs: set<VariantId>, row: Job, h: HandlerStep)
    requires DbOk(db)
    ensures DbOk(Handler(db, outputs, row, h).db) && Grows(db, Handler(db, outputs, row, h).db)
  {
  }

  lemma FinalKeepsDb(s: State, k: Worker, ok: bool)
    requires DbOk(s.db) && k.phase.Finalizing?
    ensures DbOk(FinalEffect(s, k, ok).db) && Grows(s.db, FinalEffect(s, k, ok).db)
  {
    var b := FinalBranch(k, k.phase.outcome);
    if !(b.Retry? && RetryRefused(s.db, k.job)) { FinalWriteKeepsDb(s.db, k.job, k.phase.row, b); }
  }

  /** The phase a step leads to still carries the row that was claimed. */
  lemma EffectKeepsRow(s: State, w: WorkerId, a: WorkStep)
    requires Base(s) && WorkEnabled(s, w, a)
    ensures var k := s.workers[w]; var p := WorkEffect(s, k, a).phase;
      (p.HasRow() ==> if a.ReadJob? then k.job in s.db.jobs && p.row == s.db.jobs[k.job]
                      else k.phase.HasRow() && p.row == if a.Claim? then Bumped(k.phase.row) else k.phase.row)
      && (p.Producing() || p.Published? || p.Settled? ==> k.phase.HasRow() && k.phase.row.kind == VariantTranscode && p.row == k.phase.row)
  {
    assert WorkerOk(s.db, s.queue, s.workers[w]);
  }

  lemma WorkKeepsBase(s: State, w: WorkerId, a: WorkStep)
    requires Base(s) && WorkEnabled(s, w, a)
    ensures Base(DoWork(s, w, a))
  {
    var e := WorkEffect(s, s.workers[w], a);
    EffectKeepsDb(s, s.workers[w], a);
    EffectKeepsRow(s, w, a);
    ApplyKeepsBase(s, w, e);
  }

  lemma ApplyKeepsBase(s: State, w: WorkerId, e: Effect)
    requires Base(s) && w in s.workers && DbOk(e.db) && Grows(s.db, e.db)
    requires RowOk(e.db, s.workers[w].(phase := e.phase))
    requires e.phase.Producing() || e.phase.Published? || e.phase.Settled? ==> e.phase.row.kind == VariantTranscode
    ensures Base(Apply(s, w, e))
  {
    var s' := Apply(s, w, e);
    forall x | x in s'.workers
      ensures WorkerOk(s'.db, s'.queue, s'.workers[x])
    {
      assert WorkerOk(s.db, s.queue, s.workers[x]);
    }
  }

  lemma BeatKeepsFlags(s: State, k: Worker, b: BeatStep)
    requires FlagsOk(k)
    requires match b case Renew(_) => k.hb.Looping? case Stamp(_) => k.hb.Renewed? case Wake => k.hb.Sleeping? case Quit => true
    ensures FlagsOk(BeatWorker(s, k, b))
  {
  }

  lemma BeatKeepsDb(s: State, w: WorkerId, b: BeatStep)
    requires Base(s) && BeatEnabled(s, w, b)
    ensures DbOk(DoBeat(s, w, b).db)
  {
    var k := s.workers[w];
    if Stamps(s.db, k, b) {
      PutKeepsDb(s.db, k.job, s.db.jobs[k.job].(stale := false));
    }
  }

  lemma BeatKeepsBase(s: State, w: WorkerId, b: BeatStep)
    requires Base(s) && BeatEnabled(s, w, b)
    ensures Base(DoBeat(s, w, b))
  {
    var s' := DoBeat(s, w, b);
    var k := s.workers[w];
    assert WorkerOk(s.db, s.queue, k);
    BeatKeepsDb(s, w, b);
    BeatKeepsFlags(s, k, b);
    BeatFrame(s, w, b);
    forall x | x in s'.workers
      ensures WorkerOk(s'.db, s'.queue, s'.workers[x])
    {
      assert WorkerOk(s.db, s.queue, s.workers[x]);
    }
  }

  lemma QueueKeepsBase(s: State, q: QueueStep)
    requires Base(s) && QueueEnabled(s, q)
    ensures Base(DoQueue(s, q))
  {
    var s' := DoQueue(s, q);
    forall x | x in s'.workers
      ensures WorkerOk(s'.db, s'.queue, s'.workers[x])
    {
      assert WorkerOk(s.db, s.queue, s.workers[x]);
    }
  }

  lemma ReceiveKeepsBase(s: State, w: WorkerId, m: MsgId)
    requires Base(s) && ReceiveEnabled(s, w, m)
    ensures Base(DoReceive(s, w, m))
  {
    var s' := DoReceive(s, w, m);
    forall x | x in s'.workers
      ensures WorkerOk(s'.db, s'.queue, s'.workers[x])
    {
      if x != w { assert WorkerOk(s.db, s.queue, s.workers[x]); }
    }
  }

  lemma CmsKeepsBase(s: State, c: CmsStep)
    requires Base(s) && CmsEnabled(s, c)
    ensures Base(Do(s, Cms(c)))
  {
    CmsKeepsDb(s, c);
    var s' := Do(s, Cms(c));
    forall x | x in s'.workers
      ensures WorkerOk(s'.db, s'.queue, s'.workers[x])
    {
      assert WorkerOk(s.db, s.queue, s.workers[x]);
    }
  }

  /** Every step of every process keeps the base invariant. */
  lemma StepKeepsBase(s: State, a: Action)
    requires Base(s) && Enabled(s, a)
    ensures Base(Do(s, a))
  {
    match a
    case Cms(c) => CmsKeepsBase(s, c);
    case Queueing(q) => QueueKeepsBase(s, q);
    case Receive(w, m) => ReceiveKeepsBase(s, w, m);
    case Work(w, k) =>
      WorkKeepsBase(s, w, k);
    case Beat(w, b) => BeatKeepsBase(s, w, b);
    case Sigterm(w) =>
      assert WorkerOk(s.db, s.queue, s.workers[w]);
      PutKeepsBase(s, s.db, w, Do(s, a).workers[w], Do(s, a));
    case GrowOld(w) =>
      assert WorkerOk(s.db, s.queue, s.workers[w]);
      PutKeepsBase(s, s.db, w, Do(s, a).workers[w], Do(s, a));
    case Crash(w) =>
      assert WorkerOk(s.db, s.queue, s.workers[w]);
      PutKeepsBase(s, s.db, w, Do(s, a).workers[w], Do(s, a));
  }

  /** The base invariant holds in every state of every run. */
  lemma {:induction false} BaseHolds(r: Rules, run: Run, n: nat)
    requires IsRun(r, run) && n < |run.states|
    ensures Base(run.states[n])
  {
    if n > 0 {
      BaseHolds(r, run, n - 1);
      assert StepsAt(r, run, n - 1);
      StepKeepsBase(run.states[n - 1], run.actions[n - 1]);
    }
  }
}
