/** Which step writes what: the status of every row after every step, spelled out on the rows and on the
    flags of the attempts, and what a status then says about the run. */
module Statuses {
  import opened Basics
  import opened Jobs
  import opened Protocol
  import opened ProtocolInvariant
  import opened Finalization
  import opened StopReasons

  // ------------------------------------------------------------------ jobs

  /** Is another transcode PENDING or PROCESSING for the variant of job `j`? */
  predicate Taken(db: Db, j: JobId)
    requires j in db.jobs
  {
    db.jobs[j].kind == VariantTranscode
    && exists i :: i in db.jobs && i != j && db.jobs[i].kind == VariantTranscode && db.jobs[i].target == db.jobs[j].target
                   && (db.jobs[i].status == Pending || db.jobs[i].status == Processing)
  }

  /** What a worker whose handler is done, or that has been told to stop, writes to its job. */
  function FinalStatus(s: State, k: Worker): Option<JobStatus>
    requires k.phase.Finalizing?
  {
    if k.sigterm && !k.aged then None
    else if k.sigterm then Some(Failed)
    else if k.evicted || k.leaseLost then None
    else if k.cancelObserved then Some(Cancelled)
    else match k.phase.outcome
      case Terminal => Some(Failed)
      case Succeeded => None
      case NotDone => if k.job in s.db.jobs && Taken(s.db, k.job) then None else Some(Pending)
  }

  /** The status of a claim by a worker that has read `read`; none where it equals the one read. */
  function ClaimStatus(db: Db, j: JobId, read: Job): Option<JobStatus>
    requires j in db.jobs
  {
    if read.retries >= 3 then if read.status == Failed then None else Some(Failed)
    else if read.status == Processing || Taken(db, j) then None
    else Some(Processing)
  }

  function WorkerStatus(s: State, w: WorkerId, a: WorkStep): Option<JobStatus>
    requires WorkEnabled(s, w, a) && s.workers[w].job in s.db.jobs
  {
    match a
    case Claim(ok) => if ok then ClaimStatus(s.db, s.workers[w].job, s.workers[w].phase.row) else None
    case CancelBefore(ok) => if ok then Some(Cancelled) else None
    case Finalize(ok) => if ok then FinalStatus(s, s.workers[w]) else None
    case Mark(ok) => if ok then Some(Done) else None
    case _ => None
  }

  predicate AssetsJob(db: Db, row: Job, asset: AssetId) {
    (row.status == Pending || row.status == Processing)
    && ((row.kind == VariantTranscode && row.target in db.variants && OriginOf(db, row.target).asset == asset)
        || (row.kind == StreamCapture && row.target == asset))
  }

  function CmsStatus(s: State, c: CmsStep, j: JobId): Option<JobStatus>
    requires CmsEnabled(s, c) && j in s.db.jobs
  {
    match c
    case DeleteAsset(asset) => if AssetsJob(s.db, s.db.jobs[j], asset) then Some(Cancelled) else None
    case RecoverStalled(i) => if i != j then None else if s.db.jobs[j].cancelRequested then Some(Cancelled) else Some(Failed)
    case _ => None
  }

  /** The status that a step writes to job `j`, if it writes one. */
  function JobStatusWritten(s: State, a: Action, j: JobId): Option<JobStatus>
    requires Enabled(s, a) && j in s.db.jobs
  {
    match a
    case Cms(c) => CmsStatus(s, c, j)
    case Work(w, k) => if s.workers[w].job == j then WorkerStatus(s, w, k) else None
    case _ => None
  }

  predicate After<T(==)>(before: T, written: Option<T>, after: T) {
    after == if written.Some? then written.value else before
  }

  lemma ClaimWrites(db: Db, j: JobId, read: Job)
    requires DbOk(db) && j in db.jobs
    ensures var db' := if WriteClaim(db, j, read).Some? then WriteClaim(db, j, read).value else db;
      j in db'.jobs && After(db.jobs[j].status, ClaimStatus(db, j, read), db'.jobs[j].status)
  {
  }

  lemma BranchWrites(db: Db, j: JobId, row: Job, b: Branch)
    requires j in db.jobs
    ensures var db' := FinalWrite(db, j, row, b);
      j in db'.jobs
      && db'.jobs[j].status == match b
                               case TimedOut | TerminalFailure => Failed
                               case CancelSeen => Cancelled
                               case Retry => Pending
                               case Interrupted | Evicted | LeaseLost | Success => db.jobs[j].status
  {
  }

  lemma FinalWrites(s: State, k: Worker, ok: bool)
    requires k.phase.Finalizing? && k.job in s.db.jobs
    ensures var db' := FinalEffect(s, k, ok).db;
      k.job in db'.jobs && After(s.db.jobs[k.job].status, if ok then FinalStatus(s, k) else None, db'.jobs[k.job].status)
  {
    BranchWrites(s.db, k.job, k.phase.row, FinalBranch(k, k.phase.outcome));
  }

  lemma HandlerWritesNoJob(db: Db, outputs: set<VariantId>, row: Job, h: HandlerStep)
    ensures Handler(db, outputs, row, h).db.jobs == db.jobs
  {
  }

  lemma WorkerWrites(s: State, w: WorkerId, a: WorkStep)
    requires DbOk(s.db) && WorkEnabled(s, w, a) && s.workers[w].job in s.db.jobs
    ensures var j := s.workers[w].job; var db' := WorkEffect(s, s.workers[w], a).db;
      j in db'.jobs && After(s.db.jobs[j].status, WorkerStatus(s, w, a), db'.jobs[j].status)
  {
    var k := s.workers[w];
    match a
    case Claim(ok) => ClaimWrites(s.db, k.job, k.phase.row);
    case Finalize(ok) => FinalWrites(s, k, ok);
    case Handle(h) => HandlerWritesNoJob(s.db, s.outputs, k.phase.row, h);
    case CancelBefore(_) =>
    case Mark(_) =>
    case ReadJob =>
    case ReadTarget =>
    case MirrorFailure(_) =>
    case Dispatch =>
    case StopHeartbeat =>
    case DeleteMessage(_) =>
  }

  lemma CmsWrites(s: State, c: CmsStep, j: JobId)
    requires DbOk(s.db) && CmsEnabled(s, c) && j in s.db.jobs && j in CmsDb(s.db, c).jobs
    ensures After(s.db.jobs[j].status, CmsStatus(s, c, j), CmsDb(s.db, c).jobs[j].status)
  {
    if c.RecoverStalled? { RecoverWrites(s.db, c.j, j); }
  }

  lemma RecoverWrites(db: Db, i: JobId, j: JobId)
    requires DbOk(db) && MayRecover(db, i) && j in db.jobs
    ensures j in Recover(db, i).jobs
    ensures Recover(db, i).jobs[j]
            == if i != j then db.jobs[j] else db.jobs[j].(status := if db.jobs[j].cancelRequested then Cancelled else Failed)
  {
    RecoverStages(db, i);
  }

  /** Theorem: a job's status after any step is the one written, or what it was. */
  lemma JobStatusAfter(s: State, a: Action, j: JobId)
    requires Base(s) && Enabled(s, a) && j in s.db.jobs && j in Do(s, a).db.jobs
    ensures After(s.db.jobs[j].status, JobStatusWritten(s, a, j), Do(s, a).db.jobs[j].status)
  {
    match a
    case Cms(c) => CmsWrites(s, c, j);
    case Work(w, k) =>
      EffectFrame(s, w, k);
      if s.workers[w].job == j { WorkerWrites(s, w, k); }
    case _ => QuietKeepsStatus(s, a, j);
  }

  lemma QuietKeepsStatus(s: State, a: Action, j: JobId)
    requires Enabled(s, a) && !a.Cms? && !a.Work? && j in s.db.jobs
    ensures j in Do(s, a).db.jobs && Do(s, a).db.jobs[j].(stale := false) == s.db.jobs[j].(stale := false)
  {
    QuietFrame(s, a);
  }

  /** Both cancels write CANCELLED to the job and nothing else. */
  lemma CancelWrites(s: State, w: WorkerId, a: WorkStep)
    requires WorkEnabled(s, w, a) && s.workers[w].job in s.db.jobs
    requires a == CancelBefore(true)
             || (a == Finalize(true) && FinalBranch(s.workers[w], s.workers[w].phase.outcome).CancelSeen?)
    ensures var j := s.workers[w].job;
      DoWork(s, w, a).db.jobs == s.db.jobs[j := s.db.jobs[j].(status := Cancelled)]
  {
  }

  // -------------------------------------------------------------- variants

  predicate Waiting(db: Db, v: VariantId) {
    v in db.variants && (db.variants[v] == VPending || db.variants[v] == VProcessing)
  }

  function HandlerVariant(h: HandlerStep): Option<VariantStatus> {
    match h
    case FailEarly(retry) => Some(if retry then VPending else VFailed)
    case EncodeFails(retry) => Some(if retry then VPending else VFailed)
    case StoreFails(retry) => Some(if retry then VPending else VFailed)
    case Start => Some(VProcessing)
    case Commit => Some(VReady)
    case _ => None
  }

  function WorkerVariant(s: State, k: Worker, a: WorkStep): Option<VariantStatus>
    requires PhaseAllows(s, k, a) && k.phase.HasRow()
  {
    if a.Handle? then HandlerVariant(a.h)
    else if k.phase.row.kind != VariantTranscode then None
    else match a
      case MirrorFailure(ok) => if ok then Some(VFailed) else None
      case CancelBefore(ok) => if ok && Waiting(s.db, k.phase.row.target) then Some(VCancelled) else None
      case Finalize(ok) =>
        if ok && k.sigterm && k.aged then Some(VFailed)
        else if ok && !k.sigterm && !k.evicted && !k.leaseLost && k.cancelObserved && Waiting(s.db, k.phase.row.target) then Some(VCancelled)
        else None
      case _ => None
  }

  function CmsVariant(s: State, c: CmsStep, v: VariantId): Option<VariantStatus>
    requires CmsEnabled(s, c)
  {
    match c
    case RecoverStalled(j) =>
      if s.db.jobs[j].target != v then None else if s.db.jobs[j].cancelRequested then Some(VCancelled) else Some(VPending)
    case ReconcileStranded(u) =>
      if u != v || !Waiting(s.db, v) then None else if s.db.verdicts[v] == AsCancelled then Some(VCancelled) else Some(VFailed)
    case ResetVariant(u) => if u == v then Some(VPending) else None
    case _ => None
  }

  /** The status that a step writes to variant `v`, if it writes one. */
  function VariantStatusWritten(s: State, a: Action, v: VariantId): Option<VariantStatus>
    requires Enabled(s, a)
  {
    match a
    case Cms(c) => CmsVariant(s, c, v)
    case Work(w, k) =>
      if s.workers[w].phase.HasRow() && s.workers[w].phase.row.target == v then WorkerVariant(s, s.workers[w], k) else None
    case _ => None
  }

  lemma HandlerWritesVariant(db: Db, outputs: set<VariantId>, k: Worker, h: HandlerStep)
    requires HandlerEnabled(db, k, h) && k.phase.row.target in db.variants
    ensures var v := k.phase.row.target; var db' := Handler(db, outputs, k.phase.row, h).db;
      v in db'.variants && After(db.variants[v], HandlerVariant(h), db'.variants[v])
  {
  }

  lemma BranchWritesVariant(db: Db, j: JobId, row: Job, b: Branch)
    requires row.target in db.variants
    ensures var v := row.target; var db' := FinalWrite(db, j, row, b);
      v in db'.variants
      && db'.variants[v] == if row.kind == VariantTranscode && b == TimedOut then VFailed
                            else if row.kind == VariantTranscode && b == CancelSeen && Waiting(db, v) then VCancelled
                            else db.variants[v]
  {
  }

  lemma FinalWritesVariant(s: State, k: Worker, ok: bool)
    requires k.phase.Finalizing? && k.phase.row.target in s.db.variants
    ensures var v := k.phase.row.target; var db' := FinalEffect(s, k, ok).db;
      v in db'.variants && After(s.db.variants[v], WorkerVariant(s, k, Finalize(ok)), db'.variants[v])
  {
    BranchWritesVariant(s.db, k.job, k.phase.row, FinalBranch(k, k.phase.outcome));
  }

  lemma WorkerWritesVariant(s: State, k: Worker, a: WorkStep)
    requires PhaseAllows(s, k, a) && k.phase.HasRow() && k.phase.row.target in s.db.variants
    ensures var v := k.phase.row.target; var db' := WorkEffect(s, k, a).db;
      v in db'.variants && After(s.db.variants[v], WorkerVariant(s, k, a), db'.variants[v])
  {
    match a
    case Handle(h) => HandlerWritesVariant(s.db, s.outputs, k, h);
    case Finalize(ok) => FinalWritesVariant(s, k, ok);
    case Claim(ok) => if ok && WriteClaim(s.db, k.job, k.phase.row).Some? { ClaimLocal(s.db, k.job, k.phase.row, 0); }
    case CancelBefore(_) =>
    case MirrorFailure(_) =>
    case Mark(_) =>
    case _ =>
  }

  lemma RowlessWritesNoVariant(s: State, k: Worker, a: WorkStep)
    requires PhaseAllows(s, k, a) && !k.phase.HasRow()
    ensures WorkEffect(s, k, a).db == s.db
  {
  }

  lemma CmsWritesVariant(s: State, c: CmsStep, v: VariantId)
    requires CmsEnabled(s, c) && v in s.db.variants && v in CmsDb(s.db, c).variants
    ensures After(s.db.variants[v], CmsVariant(s, c, v), CmsDb(s.db, c).variants[v])
  {
  }

  /** Theorem: a variant's status after any step is the one written, or what it was. */
  lemma VariantStatusAfter(s: State, a: Action, v: VariantId)
    requires Enabled(s, a) && v in s.db.variants && v in Do(s, a).db.variants
    ensures After(s.db.variants[v], VariantStatusWritten(s, a, v), Do(s, a).db.variants[v])
  {
    match a
    case Cms(c) => CmsWritesVariant(s, c, v);
    case Work(w, k) => WorkVariantAfter(s, w, k, v);
    case _ => QuietFrame(s, a);
  }

  lemma WorkVariantAfter(s: State, w: WorkerId, a: WorkStep, v: VariantId)
    requires WorkEnabled(s, w, a) && v in s.db.variants
    ensures var db' := WorkEffect(s, s.workers[w], a).db;
      v in db'.variants && After(s.db.variants[v], VariantStatusWritten(s, Work(w, a), v), db'.variants[v])
  {
    var k := s.workers[w];
    if !k.phase.HasRow() {
      RowlessWritesNoVariant(s, k, a);
    } else if k.phase.row.target == v {
      WorkerWritesVariant(s, k, a);
    } else {
      EffectFrame(s, w, a);
    }
  }

  // --------------------------------------------- the other columns of a job

  /** Does the UPDATE of this claim go through? */
  predicate Claims(s: State, w: WorkerId, a: WorkStep)
    requires w in s.workers && a.Claim? ==> s.workers[w].phase.Claiming?
  {
    a == Claim(true) && w in s.workers && s.workers[w].job in s.db.jobs
    && var read := s.workers[w].phase.row;
       !(read.retries < 3 && read.status != Processing && Taken(s.db, s.workers[w].job))
  }

  /** Who has written `j`'s attempt count, cancel flag and heartbeat. */
  function CountWritten(s: State, a: Action, j: JobId): Option<nat>
    requires Enabled(s, a)
  {
    match a
    case Work(w, k) => if s.workers[w].job == j && Claims(s, w, k) then Some(s.workers[w].phase.row.retries + 1) else None
    case _ => None
  }

  predicate FlagsJob(s: State, a: Action, j: JobId)
    requires Enabled(s, a) && j in s.db.jobs
  {
    match a
    case Cms(RequestCancel(i)) =>
      i == j && s.db.jobs[j].kind == VariantTranscode && (s.db.jobs[j].status == Pending || s.db.jobs[j].status == Processing)
    case Cms(DeleteAsset(asset)) => AssetsJob(s.db, s.db.jobs[j], asset)
    case _ => false
  }

  function StaleWritten(s: State, a: Action, j: JobId): Option<bool>
    requires Enabled(s, a) && j in s.db.jobs
  {
    match a
    case Cms(GoStale(i)) => if i == j then Some(true) else None
    case Work(w, k) => if s.workers[w].job == j && Claims(s, w, k) && s.workers[w].phase.row.retries < 3 then Some(false) else None
    case Beat(w, b) => if s.workers[w].job == j && b == Stamp(true) && !Terminated(s.db.jobs[j].status) then Some(false) else None
    case _ => None
  }

  /** The columns after a step, when the step leaves the row there. */
  ghost predicate ColumnsAfter(s: State, a: Action, j: JobId, row: Job)
    requires Enabled(s, a) && j in s.db.jobs
  {
    row.kind == s.db.jobs[j].kind && row.target == s.db.jobs[j].target
    && After(s.db.jobs[j].retries, CountWritten(s, a, j), row.retries)
    && (row.cancelRequested <==> s.db.jobs[j].cancelRequested || FlagsJob(s, a, j))
    && After(s.db.jobs[j].stale, StaleWritten(s, a, j), row.stale)
  }

  lemma ClaimColumns(s: State, w: WorkerId)
    requires Base(s) && WorkEnabled(s, w, Claim(true)) && s.workers[w].job in s.db.jobs
    ensures var k := s.workers[w]; var db' := ClaimEffect(s, k).db;
      k.job in db'.jobs && ColumnsAfter(s, Work(w, Claim(true)), k.job, db'.jobs[k.job])
  {
    var k := s.workers[w];
    ClaimRefusedIff(s.db, k.job, k.phase.row);
    assert Claims(s, w, Claim(true)) <==> WriteClaim(s.db, k.job, k.phase.row).Some?;
  }

  lemma ClaimRefusedIff(db: Db, j: JobId, read: Job)
    requires DbOk(db) && j in db.jobs
    ensures WriteClaim(db, j, read).None? <==> read.retries < 3 && read.status != Processing && Taken(db, j)
  {
    if read.status == Processing && Taken(db, j) && db.jobs[j].status.Active() {
      var i :| i in db.jobs && i != j && ActiveFor(db.jobs[i], VariantTranscode, db.jobs[j].target);
      OneActive(db.jobs, i, j, db.jobs[j].target);
    }
  }

  lemma WorkColumns(s: State, w: WorkerId, a: WorkStep)
    requires Base(s) && WorkEnabled(s, w, a) && s.workers[w].job in s.db.jobs
    ensures var k := s.workers[w]; var db' := WorkEffect(s, k, a).db;
      k.job in db'.jobs && ColumnsAfter(s, Work(w, a), k.job, db'.jobs[k.job])
  {
    var k := s.workers[w];
    match a
    case Claim(ok) => if ok { ClaimColumns(s, w); }
    case Handle(h) => HandlerWritesNoJob(s.db, s.outputs, k.phase.row, h);
    case _ => OtherColumns(s, k, a);
  }

  lemma OtherColumns(s: State, k: Worker, a: WorkStep)
    requires PhaseAllows(s, k, a) && !a.Claim? && !a.Handle? && k.job in s.db.jobs
    ensures var db' := WorkEffect(s, k, a).db;
      k.job in db'.jobs && db'.jobs[k.job] == s.db.jobs[k.job].(status := db'.jobs[k.job].status)
  {
    if a.Finalize? { FinalColumns(s.db, k.job, k.phase.row, FinalBranch(k, k.phase.outcome)); }
  }

  lemma FinalColumns(db: Db, j: JobId, row: Job, b: Branch)
    requires j in db.jobs
    ensures var db' := FinalWrite(db, j, row, b); j in db'.jobs && db'.jobs[j] == db.jobs[j].(status := db'.jobs[j].status)
  {
  }

  lemma CmsColumns(s: State, c: CmsStep, j: JobId)
    requires Base(s) && CmsEnabled(s, c) && j in s.db.jobs && j in CmsDb(s.db, c).jobs
    ensures ColumnsAfter(s, Cms(c), j, CmsDb(s.db, c).jobs[j])
  {
    match c
    case RecoverStalled(i) => RecoverWrites(s.db, i, j);
    case DeleteAsset(asset) => SoftDeleteColumns(s.db, asset, j);
    case RequestCancel(i) => FlagColumns(s.db, i, j);
    case GoStale(_) =>
    case _ => OthersKeepRow(s, c, j);
  }

  lemma FlagColumns(db: Db, i: JobId, j: JobId)
    requires j in db.jobs
    ensures var jobs' := FlagCancel(db, i).jobs; var row := db.jobs[j];
      j in jobs'
      && jobs'[j] == if i == j && row.kind == VariantTranscode && !Terminated(row.status) then row.(cancelRequested := true) else row
  {
  }

  lemma OthersKeepRow(s: State, c: CmsStep, j: JobId)
    requires Base(s) && CmsEnabled(s, c) && j in s.db.jobs && j in CmsDb(s.db, c).jobs
    requires !c.RecoverStalled? && !c.DeleteAsset? && !c.RequestCancel? && !c.GoStale?
    ensures CmsDb(s.db, c).jobs[j] == s.db.jobs[j]
  {
  }

  lemma SoftDeleteColumns(db: Db, asset: AssetId, j: JobId)
    requires j in db.jobs
    ensures var jobs' := SoftDelete(db, asset).jobs;
      j in jobs'
      && jobs'[j] == if AssetsJob(db, db.jobs[j], asset) then db.jobs[j].(status := Cancelled, cancelRequested := true) else db.jobs[j]
  {
  }

  lemma BeatColumns(s: State, w: WorkerId, b: BeatStep, j: JobId)
    requires BeatEnabled(s, w, b) && j in s.db.jobs
    ensures j in DoBeat(s, w, b).db.jobs && ColumnsAfter(s, Beat(w, b), j, DoBeat(s, w, b).db.jobs[j])
  {
  }

  /** Theorem: so are a job's kind and target, attempt count, cancel flag and heartbeat. */
  lemma JobColumnsAfter(s: State, a: Action, j: JobId)
    requires Base(s) && Enabled(s, a) && j in s.db.jobs && j in Do(s, a).db.jobs
    ensures ColumnsAfter(s, a, j, Do(s, a).db.jobs[j])
  {
    match a
    case Cms(c) => CmsColumns(s, c, j);
    case Work(w, k) =>
      EffectFrame(s, w, k);
      if s.workers[w].job == j { WorkColumns(s, w, k); }
    case Beat(w, b) => BeatColumns(s, w, b, j);
    case _ =>
  }

  /** What a CMS step stages, if the index and the duplicate check let it. */
  function Staged(s: State, c: CmsStep): Option<(Kind, nat)>
    requires CmsEnabled(s, c)
  {
    match c
    case Stage(kind, target) => if Open(s.db, kind, target) then Some((kind, target)) else None
    case EnqueueOne(kind, target) => if kind != VariantTranscode || Open(s.db, kind, target) then Some((kind, target)) else None
    case RecoverStalled(j) => if s.db.jobs[j].cancelRequested then None else Some((VariantTranscode, s.db.jobs[j].target))
    case RequestImager(kind, target) =>
      if (kind, target) !in s.db.imagers || s.db.imagers[(kind, target)] == ImagerFailed then Some((kind, target)) else None
    case _ => None
  }

  /** Nothing of this kind is PENDING or PROCESSING for the target. */
  predicate Open(db: Db, kind: Kind, target: nat) {
    forall i :: i in db.jobs && db.jobs[i].kind == kind && db.jobs[i].target == target ==>
      db.jobs[i].status != Pending && db.jobs[i].status != Processing
  }

  function NewRows(db: Db, staged: Option<(Kind, nat)>): map<JobId, Job> {
    if staged.Some? then map[db.nextJob := Job(staged.value.0, staged.value.1, Pending, 0, false, false)] else map[]
  }

  /** Theorem: rows and outbox rows appear together, for exactly what was staged, and a job's row goes only
      with its own deletion. */
  lemma JobsAppear(s: State, c: CmsStep)
    requires Base(s) && CmsEnabled(s, c)
    ensures Grown(s.db, CmsDb(s.db, c), if c.DropJob? then {c.j} else {}, NewRows(s.db, Staged(s, c)))
  {
    match c
    case RecoverStalled(j) => RecoverAppears(s.db, j);
    case Stage(kind, target) => StageAppears(s.db, kind, target);
    case EnqueueOne(kind, target) => EnqueueAppears(s.db, kind, target);
    case RequestImager(kind, target) => AddAppears(s.db.(imagers := s.db.imagers[(kind, target) := ImagerInFlight]), kind, target);
    case _ => OthersStageNothing(s, c);
  }

  /** The rows and the outbox without `gone`, and with what was added. */
  ghost predicate Grown(db: Db, db': Db, gone: set<JobId>, added: map<JobId, Job>) {
    db'.jobs.Keys == db.jobs.Keys - gone + added.Keys
    && (forall j :: j in added ==> j in db'.jobs && db'.jobs[j] == added[j])
    && db'.outbox == db.outbox - gone + added.Keys
  }

  lemma AddAppears(db: Db, kind: Kind, target: nat)
    ensures Grown(db, AddJob(db, kind, target), {}, NewRows(db, Some((kind, target))))
  {
  }

  lemma StageAppears(db: Db, kind: Kind, target: nat)
    ensures Grown(db, StageJob(db, kind, target), {}, NewRows(db, if Open(db, kind, target) then Some((kind, target)) else None))
  {
    AddAppears(db, kind, target);
  }

  lemma EnqueueAppears(db: Db, kind: Kind, target: nat)
    requires DbOk(db)
    ensures Grown(db, EnqueueJob(db, kind, target), {},
                  NewRows(db, if kind != VariantTranscode || Open(db, kind, target) then Some((kind, target)) else None))
  {
    AddAppears(db, kind, target);
  }

  lemma OthersStageNothing(s: State, c: CmsStep)
    requires CmsEnabled(s, c) && !c.RecoverStalled? && !c.Stage? && !c.EnqueueOne? && !c.RequestImager?
    ensures Grown(s.db, CmsDb(s.db, c), if c.DropJob? then {c.j} else {}, map[])
  {
  }

  lemma RecoverAppears(db: Db, j: JobId)
    requires DbOk(db) && MayRecover(db, j)
    ensures Grown(db, Recover(db, j), {}, NewRows(db, if db.jobs[j].cancelRequested then None else Some((VariantTranscode, db.jobs[j].target))))
  {
    if !db.jobs[j].cancelRequested {
      var v := db.jobs[j].target;
      FailedIsOpen(db, j);
      AddAppears(Failing(db, j), VariantTranscode, v);
      assert Failing(db, j).jobs.Keys == db.jobs.Keys;
    }
  }

  /** The rows as they are when the monitor stages the replacement of job `j`. */
  function Failing(db: Db, j: JobId): Db
    requires j in db.jobs
  {
    SetVariant(SetStatus(db.(picked := db.picked - {j}), j, Failed), db.jobs[j].target, VPending)
  }

  lemma FailedIsOpen(db: Db, j: JobId)
    requires DbOk(db) && MayRecover(db, j) && !db.jobs[j].cancelRequested
    ensures Recover(db, j) == AddJob(Failing(db, j), VariantTranscode, db.jobs[j].target)
  {
    var db1, v := Failing(db, j), db.jobs[j].target;
    forall i | i in db1.jobs ensures !ActiveFor(db1.jobs[i], VariantTranscode, v) {
      if i != j && ActiveFor(db.jobs[i], VariantTranscode, v) { OneActive(db.jobs, i, j, v); }
    }
  }

  // ---------------------------------------------------------------- imagers

  /** What a step writes to the status of a base or provisioned image, as its jobs see it. */
  function ImagerWritten(s: State, a: Action, key: (Kind, nat)): Option<ImagerStatus>
    requires Enabled(s, a)
  {
    match a
    case Cms(RequestImager(kind, target)) =>
      if key == (kind, target) && (key !in s.db.imagers || s.db.imagers[key] == ImagerFailed) then Some(ImagerInFlight) else None
    case Work(w, MirrorFailure(ok)) =>
      var row := s.workers[w].phase.row;
      if ok && (row.kind == ImageImport || row.kind == ImageProvision) && key == (row.kind, row.target) then Some(ImagerFailed) else None
    case Work(w, Handle(ImagerWrite(ready))) =>
      var row := s.workers[w].phase.row;
      if key == (row.kind, row.target) then Some(if ready then ImagerReady else ImagerFailed) else None
    case _ => None
  }

  lemma CmsWritesImager(s: State, c: CmsStep, key: (Kind, nat))
    requires CmsEnabled(s, c) && key in CmsDb(s.db, c).imagers
    ensures var written := ImagerWritten(s, Cms(c), key);
      if written.Some? then CmsDb(s.db, c).imagers[key] == written.value
      else key in s.db.imagers && CmsDb(s.db, c).imagers[key] == s.db.imagers[key]
  {
  }

  lemma WorkWritesImager(s: State, w: WorkerId, a: WorkStep, key: (Kind, nat))
    requires WorkEnabled(s, w, a) && key in s.db.imagers
    ensures var db' := WorkEffect(s, s.workers[w], a).db;
      key in db'.imagers && After(s.db.imagers[key], ImagerWritten(s, Work(w, a), key), db'.imagers[key])
  {
    var k := s.workers[w];
    match a
    case Handle(h) => HandlerWritesImager(s, w, h, key);
    case MirrorFailure(_) =>
    case _ => OthersWriteNoImager(s, k, a);
  }

  lemma HandlerWritesImager(s: State, w: WorkerId, h: HandlerStep, key: (Kind, nat))
    requires WorkEnabled(s, w, Handle(h)) && key in s.db.imagers
    ensures var db' := Handler(s.db, s.outputs, s.workers[w].phase.row, h).db;
      key in db'.imagers && After(s.db.imagers[key], ImagerWritten(s, Work(w, Handle(h)), key), db'.imagers[key])
  {
  }

  lemma OthersWriteNoImager(s: State, k: Worker, a: WorkStep)
    requires PhaseAllows(s, k, a) && !a.Handle? && !a.MirrorFailure?
    ensures WorkEffect(s, k, a).db.imagers == s.db.imagers
  {
    match a
    case Finalize(_) => FinalWritesNoImager(s.db, k.job, k.phase.row, FinalBranch(k, k.phase.outcome));
    case CancelBefore(_) => FinalWritesNoImager(s.db, k.job, k.phase.row, CancelSeen);
    case _ =>
  }

  lemma FinalWritesNoImager(db: Db, j: JobId, row: Job, b: Branch)
    ensures FinalWrite(db, j, row, b).imagers == db.imagers
  {
  }

  /** Theorem: an image's status after any step is the one written, or what it was. */
  lemma ImagerStatusAfter(s: State, a: Action, key: (Kind, nat))
    requires Enabled(s, a) && key in s.db.imagers && key in Do(s, a).db.imagers
    ensures After(s.db.imagers[key], ImagerWritten(s, a, key), Do(s, a).db.imagers[key])
  {
    match a
    case Cms(c) => CmsWritesImager(s, c, key);
    case Work(w, k) => WorkWritesImager(s, w, k, key);
    case _ => QuietFrame(s, a);
  }

  // --------------------------------------------------------------- messages

  /** Theorem: a message goes exactly with the queue delete of the attempt that holds its current receipt. */
  lemma MessageGoesIff(s: State, a: Action, m: MsgId)
    requires Enabled(s, a) && m in s.queue.messages
    ensures m !in Do(s, a).queue.messages
            <==> a.Work? && a.work == DeleteMessage(true) && s.workers[a.w].msg == m
                 && s.workers[a.w].receipt == s.queue.messages[m].receipt
  {
    if a.Work? { RemovesIff(s, s.workers[a.w], a.work); }
    if a.Beat? { BeatFrame(s, a.w, a.beat); }
  }

  lemma RemovesIff(s: State, k: Worker, a: WorkStep)
    requires PhaseAllows(s, k, a)
    ensures WorkEffect(s, k, a).removes <==> a == DeleteMessage(true) && Holds(s, k)
  {
    if a.Handle? { HandlerRemovesNothing(s.db, s.outputs, k.phase.row, a.h); }
  }

  lemma HandlerRemovesNothing(db: Db, outputs: set<VariantId>, row: Job, h: HandlerStep)
    ensures !Handler(db, outputs, row, h).removes
  {
  }

  /** Which finished attempts go on to their queue delete: all but those that leave the message to be
      delivered again, or have lost it. */
  lemma GoesToDelete(s: State, w: WorkerId, ok: bool)
    requires WorkEnabled(s, w, Finalize(ok))
    ensures var k, p' := s.workers[w], FinalEffect(s, s.workers[w], ok).phase;
      if k.sigterm then p' == Deleting(k.aged)
      else if k.evicted then p' == Deleting(false)
      else if k.leaseLost || !ok then p' == Exited
      else if k.cancelObserved then p' == Deleting(false)
      else match k.phase.outcome
        case Terminal => p' == Deleting(true)
        case Succeeded =>
          p' == if k.job in s.db.jobs && !Terminated(s.db.jobs[k.job].status) then Marking(k.phase.row) else Deleting(false)
        case NotDone => p' == Exited
  {
  }

  /** What a message looks like after a step that leaves it there: a receive and a renewal give it a new
      receipt and hide it, a lapse shows it again. */
  lemma MessageAfter(s: State, a: Action, m: MsgId)
    requires Base(s) && Enabled(s, a) && m in s.queue.messages && m in Do(s, a).queue.messages
    ensures var before, after := s.queue.messages[m], Do(s, a).queue.messages[m];
      var leased := (a.Receive? && a.m == m) || (a.Beat? && a.beat == Renew(true) && s.workers[a.w].msg == m && s.workers[a.w].receipt == before.receipt);
      after.job == before.job
      && after.receipt == (if leased then s.queue.nextReceipt else before.receipt)
      && after.visible == (if leased then false else before.visible || a == Queueing(Lapse(m)))
  {
    if a.Work? { RemovesIff(s, s.workers[a.w], a.work); }
    if a.Beat? { BeatFrame(s, a.w, a.beat); }
  }

  /** And new ones are what the drainer sends. */
  lemma MessageComes(s: State, a: Action, m: MsgId)
    requires Base(s) && Enabled(s, a)
    ensures m in Do(s, a).queue.messages && m !in s.queue.messages
            <==> m == s.queue.nextMsg && a.Queueing? && (a.q.Send? || a.q.SendOnly?)
    ensures m in Do(s, a).queue.messages && m !in s.queue.messages ==>
      Do(s, a).queue.messages[m] == Message(a.q.j, s.queue.nextReceipt, true)
  {
    if a.Beat? { BeatFrame(s, a.w, a.beat); }
  }

  // ------------------------------------------------------------- what may run

  /** Whom the sweeps of the CMS pick, and what they may reset: spelled out on the rows. */
  lemma SweepsPickIff(s: State, j: JobId, v: VariantId)
    ensures CmsEnabled(s, PickStalled(j))
            <==> j in s.db.jobs
                 && var row := s.db.jobs[j];
                    row.kind == VariantTranscode && row.status == Processing && row.stale && row.target !in s.db.superseded
                    && row.target in s.db.variants && s.db.variants[row.target] == VProcessing
    ensures CmsEnabled(s, RecoverStalled(j))
            <==> j in s.db.jobs && j in s.db.picked
                 && var row := s.db.jobs[j];
                    row.kind == VariantTranscode && row.status == Processing && row.stale && row.target in s.db.variants
    ensures CmsEnabled(s, ResetVariant(v))
            <==> v in s.db.variants
                 && var origin := OriginOf(s.db, v);
                    origin.source == Image || (origin.source == SavedStream && origin.asset !in s.db.deletedAssets)
  {
  }

  /** The reconciler judges a live variant in flight without an active job, by its newest job. */
  lemma JudgesIff(s: State, v: VariantId, j: JobId)
    ensures CmsEnabled(s, JudgeStranded(v, j))
            <==> Waiting(s.db, v) && v !in s.db.superseded && OriginOf(s.db, v).asset !in s.db.deletedAssets
                 && j in s.db.jobs && s.db.jobs[j].kind == VariantTranscode && s.db.jobs[j].target == v
                 && (s.db.jobs[j].status == Cancelled || (s.db.jobs[j].status == Failed && s.db.jobs[j].retries > 3))
                 && forall i :: i in s.db.jobs && s.db.jobs[i].kind == VariantTranscode && s.db.jobs[i].target == v ==>
                      i <= j && s.db.jobs[i].status != Pending && s.db.jobs[i].status != Processing
    ensures CmsEnabled(s, JudgeStranded(v, j)) ==>
      CmsDb(s.db, JudgeStranded(v, j)).verdicts == s.db.verdicts[v := if s.db.jobs[j].status == Cancelled then AsCancelled else AsFailed]
  {
  }

  /** What the first look at its row makes of an attempt. */
  lemma ReadsIff(s: State, w: WorkerId)
    requires WorkEnabled(s, w, ReadJob)
    ensures var k := s.workers[w]; var p := WorkEffect(s, k, ReadJob).phase;
      p == if k.job !in s.db.jobs || s.db.jobs[k.job].status == Done then Obsolete else Claiming(s.db.jobs[k.job])
  {
  }

  /** An exhausted attempt goes on to fail its target exactly when that is in flight and no newer job of the
      same kind is about it. */
  lemma MirrorsIff(s: State, w: WorkerId)
    requires WorkEnabled(s, w, ReadTarget)
    ensures var k := s.workers[w]; var row := k.phase.row;
      WorkEffect(s, k, ReadTarget).phase == Mirroring(row)
      <==> (forall i :: i in s.db.jobs && s.db.jobs[i].kind == row.kind && s.db.jobs[i].target == row.target ==> i == k.job || (i < k.job && k.job in s.db.jobs))
           && if row.kind == VariantTranscode then Waiting(s.db, row.target)
              else (row.kind == ImageImport || row.kind == ImageProvision)
                   && (row.kind, row.target) in s.db.imagers && s.db.imagers[(row.kind, row.target)] == ImagerInFlight
  {
  }

  /** A handler puts back a saved stream only; every other source is FAILED. */
  lemma OnlyStreamsRetry(s: State, w: WorkerId, h: HandlerStep)
    requires WorkEnabled(s, w, Handle(h)) && HandlerVariant(h) == Some(VPending)
    ensures OriginOf(s.db, s.workers[w].phase.row.target).source == SavedStream
  {
  }

  // ------------------------------------------------------------------ runs

  /** Theorem: a job becomes DONE only at the `mark_done` of an attempt on it whose handler has reported
      success, a transcode's because it read its variant as READY. */
  lemma DoneReportsSuccess(r: Rules, run: Run, n: nat, j: JobId)
    requires IsRun(r, run) && n < |run.actions|
    requires j in run.states[n].db.jobs && run.states[n].db.jobs[j].status != Done
    requires j in run.states[n + 1].db.jobs && run.states[n + 1].db.jobs[j].status == Done
    ensures run.actions[n].Work? && run.actions[n].work == Mark(true)
    ensures var w := run.actions[n].w;
      w in run.states[n].workers && run.states[n].workers[w].job == j && Reported(run, n, w, Succeeded)
  {
    BaseHolds(r, run, n);
    assert StepsAt(r, run, n);
    JobStatusAfter(run.states[n], run.actions[n], j);
    assert run.actions[n].Work?;
    OutcomeReported(r, run, n, run.actions[n].w, Succeeded);
  }
}
