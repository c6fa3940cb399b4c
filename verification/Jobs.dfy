/** The database rows of the transcode pipeline, and the transactions on them
    that the worker and the CMS share (shared/services/jobs.py, the sweeps of
    cms/services/transcoder.py and the exhaustion mirror of worker/transcoder.py).

    A transaction is a function from one database to the next.  One that the
    partial unique index on active transcode jobs refuses is rolled back. */
module Jobs {
  import opened Basics

  // Ids are handed out in creation order, so "newest" is "largest".
  type JobId = nat
  type VariantId = nat
  type AssetId = nat

  const MAX_JOB_RETRIES := 3

  datatype Kind = VariantTranscode | StreamCapture | VoiceSynthesis | ImageImport | ImageProvision {
    predicate Imager() { ImageImport? || ImageProvision? }
  }

  datatype JobStatus = Pending | Processing | Done | Failed | Cancelled {
    predicate Active() { Pending? || Processing? }
  }

  // `stale`: no heartbeat has been stamped for longer than the monitor tolerates.
  datatype Job = Job(kind: Kind, target: nat, status: JobStatus, retries: nat, cancelRequested: bool, stale: bool)

  datatype VariantStatus = VPending | VProcessing | VReady | VFailed | VCancelled {
    predicate InFlight() { VPending? || VProcessing? }
  }

  datatype Source = Video | Image | SavedStream | Composed | Webpage {
    // Composed and webpage thumbnails publish without re-reading their job row.
    predicate Guarded() { !Composed? && !Webpage? }
  }

  // What never changes about a variant: its asset, and the type of that asset.
  datatype Origin = Origin(asset: AssetId, source: Source)

  // The status of a base image or of a provisioned image, as far as its jobs see it.
  datatype ImagerStatus = ImagerInFlight | ImagerReady | ImagerFailed

  datatype Verdict = AsCancelled | AsFailed {
    function Status(): VariantStatus { if AsCancelled? then VCancelled else VFailed }
  }

  datatype Db = Db(
    jobs: map<JobId, Job>,
    outbox: set<JobId>,
    nextJob: nat,
    variants: map<VariantId, VariantStatus>,
    superseded: set<VariantId>,
    deletedAssets: set<AssetId>,
    origins: map<VariantId, Origin>,
    imagers: map<(Kind, nat), ImagerStatus>,
    // What a CMS sweep has read and not yet written: the monitor's jobs, whose rows it has locked, and
    // the reconciler's verdicts.
    picked: set<JobId>,
    verdicts: map<VariantId, Verdict>)

  function OriginOf(db: Db, v: VariantId): Origin {
    if v in db.origins then db.origins[v] else Origin(v, Video)
  }

  predicate AssetDeleted(db: Db, v: VariantId) {
    OriginOf(db, v).asset in db.deletedAssets
  }

  predicate Guarded(db: Db, v: VariantId) {
    OriginOf(db, v).source.Guarded()
  }

  predicate ActiveFor(j: Job, kind: Kind, target: nat) {
    j.kind == kind && j.target == target && j.status.Active()
  }

  // ------------------------------------------------------------ unique index

  /** `uq_jobs_one_active_per_variant`. */
  ghost predicate Indexed(jobs: map<JobId, Job>) {
    forall i, j | i in jobs && j in jobs && i != j ::
      !(ActiveFor(jobs[i], VariantTranscode, jobs[j].target) && ActiveFor(jobs[j], VariantTranscode, jobs[j].target))
  }

  lemma OneActive(jobs: map<JobId, Job>, i: JobId, j: JobId, v: VariantId)
    requires Indexed(jobs) && i in jobs && j in jobs
    requires ActiveFor(jobs[i], VariantTranscode, v) && ActiveFor(jobs[j], VariantTranscode, v)
    ensures i == j
  {
  }

  /** The test the index makes when row `j` is written: no other row is active for its variant. */
  predicate Admitted(jobs: map<JobId, Job>, j: JobId, row: Job) {
    row.kind == VariantTranscode && row.status.Active() ==>
      forall i :: i in jobs && i != j ==> !ActiveFor(jobs[i], VariantTranscode, row.target)
  }

  function PutJob(db: Db, j: JobId, row: Job): Db {
    db.(jobs := db.jobs[j := row])
  }

  function SetStatus(db: Db, j: JobId, status: JobStatus): Db {
    if j in db.jobs then PutJob(db, j, db.jobs[j].(status := status)) else db
  }

  function SetVariant(db: Db, v: VariantId, status: VariantStatus): Db {
    if v in db.variants then db.(variants := db.variants[v := status]) else db
  }

  function SetImager(db: Db, kind: Kind, target: nat, status: ImagerStatus): Db {
    if (kind, target) in db.imagers then db.(imagers := db.imagers[(kind, target) := status]) else db
  }

  // ------------------------------------------------------- job transactions

  /** `claim_job` on the row as it has read it: the row the worker goes on with. */
  function Bumped(read: Job): Job {
    var row := read.(retries := read.retries + 1);
    if row.retries > MAX_JOB_RETRIES then row.(status := Failed) else row.(status := Processing, stale := false)
  }

  /** The UPDATE at the commit of `claim_job`, on the row as it is by then.  It writes the count it
      has computed, and a status only where that differs from the one it has read. */
  function Overwritten(row: Job, read: Job): Job {
    var b := Bumped(read);
    row.(retries := b.retries,
         status := if b.status == read.status then row.status else b.status,
         stale := b.status != Processing && row.stale)
  }

  /** Nothing, when the row is gone or the index refuses. */
  function WriteClaim(db: Db, j: JobId, read: Job): Option<Db> {
    if j in db.jobs && Admitted(db.jobs, j, Overwritten(db.jobs[j], read))
    then Some(PutJob(db, j, Overwritten(db.jobs[j], read))) else None
  }

  /** The retry branch's transaction: PENDING whatever the status was, unless the index refuses. */
  function RetryRefused(db: Db, j: JobId): bool {
    j in db.jobs && !Admitted(db.jobs, j, db.jobs[j].(status := Pending))
  }

  /** `stage_jobs` for one target, then the commit. */
  function StageJob(db: Db, kind: Kind, target: nat): Db {
    if exists i :: i in db.jobs && ActiveFor(db.jobs[i], kind, target) then db
    else AddJob(db, kind, target)
  }

  function AddJob(db: Db, kind: Kind, target: nat): Db {
    db.(jobs := db.jobs[db.nextJob := Job(kind, target, Pending, 0, false, false)],
        outbox := db.outbox + {db.nextJob},
        nextJob := db.nextJob + 1)
  }

  /** `enqueue_job`: no duplicate check of its own, so the index may refuse it. */
  function EnqueueJob(db: Db, kind: Kind, target: nat): Db {
    if Admitted(db.jobs, db.nextJob, Job(kind, target, Pending, 0, false, false)) then AddJob(db, kind, target) else db
  }

  // ----------------------------------------------------- CMS transactions

  predicate Stalled(db: Db, j: JobId) {
    j in db.jobs && db.jobs[j].kind == VariantTranscode && db.jobs[j].status == Processing && db.jobs[j].stale
  }

  /** Is this job one the staleness monitor would pick? */
  predicate MonitorSees(db: Db, j: JobId) {
    Stalled(db, j)
    && db.jobs[j].target in db.variants && db.variants[db.jobs[j].target] == VProcessing
    && db.jobs[j].target !in db.superseded
  }

  /** The pick locks the job row, so the job is still stalled when the monitor writes.  The variant
      row is not locked and may have any status by then; only if it is gone does the write fail. */
  predicate MayRecover(db: Db, j: JobId) {
    j in db.picked && Stalled(db, j) && db.jobs[j].target in db.variants
  }

  /** The writes of `recover_stalled_variants_once` on one row, committed together. */
  function Recover(db: Db, j: JobId): Db
    requires Stalled(db, j)
  {
    var v := db.jobs[j].target;
    var db' := db.(picked := db.picked - {j});
    if db.jobs[j].cancelRequested then
      SetVariant(SetStatus(db', j, Cancelled), v, VCancelled)
    else
      StageJob(SetVariant(SetStatus(db', j, Failed), v, VPending), VariantTranscode, v)
  }

  predicate HitBySoftDelete(db: Db, job: Job, asset: AssetId) {
    job.status.Active()
    && ((job.kind == VariantTranscode && job.target in db.variants && OriginOf(db, job.target).asset == asset)
        || (job.kind == StreamCapture && job.target == asset))
  }

  /** The asset route's soft delete: flags and cancels every active job of the asset. */
  function SoftDelete(db: Db, asset: AssetId): Db {
    db.(deletedAssets := db.deletedAssets + {asset},
        jobs := map j | j in db.jobs ::
          if HitBySoftDelete(db, db.jobs[j], asset)
          then db.jobs[j].(status := Cancelled, cancelRequested := true) else db.jobs[j])
  }

  /** `flag_profile_jobs_cancelled` on one job. */
  function FlagCancel(db: Db, j: JobId): Db {
    if j in db.jobs && db.jobs[j].kind == VariantTranscode && db.jobs[j].status.Active()
    then PutJob(db, j, db.jobs[j].(cancelRequested := true)) else db
  }

  /** No job of this kind and target is newer than `j`. */
  predicate Newest(db: Db, j: JobId, kind: Kind, target: nat) {
    forall i :: i in db.jobs && i > j ==> !(db.jobs[i].kind == kind && db.jobs[i].target == target)
  }

  /** Does `reconcile_stranded_variants_once` look at variant `v`, whose newest job is `j`? */
  predicate Reconcilable(db: Db, v: VariantId, j: JobId) {
    v in db.variants && v !in db.superseded && db.variants[v].InFlight() && !AssetDeleted(db, v)
    && (forall i :: i in db.jobs ==> !ActiveFor(db.jobs[i], VariantTranscode, v))
    && j in db.jobs && db.jobs[j].kind == VariantTranscode && db.jobs[j].target == v
    && Newest(db, j, VariantTranscode, v)
  }

  /** What the newest job says should become of its variant, if anything. */
  function Judge(job: Job): Option<Verdict> {
    if job.status == Cancelled then Some(AsCancelled)
    else if job.status == Failed && job.retries > MAX_JOB_RETRIES then Some(AsFailed)
    else None
  }

  /** The reconciler's conditional UPDATE. */
  function Reconcile(db: Db, v: VariantId): Db
    requires v in db.verdicts
  {
    var db' := db.(verdicts := db.verdicts - {v});
    if v in db.variants && db.variants[v].InFlight() then SetVariant(db', v, db.verdicts[v].Status()) else db'
  }

  /** May a CMS step reset variant `v`: a saved stream's is reset by a recapture, an image's by the
      start-up repair of its file name. */
  predicate Resettable(db: Db, v: VariantId) {
    v in db.variants
    && (OriginOf(db, v).source == Image || (OriginOf(db, v).source == SavedStream && !AssetDeleted(db, v)))
  }

  /** The imager routes: a new row or a failed base image goes in flight, and its job is enqueued. */
  function RequestImage(db: Db, kind: Kind, target: nat): Db {
    if (kind, target) in db.imagers && db.imagers[(kind, target)] != ImagerFailed then db
    else AddJob(db.(imagers := db.imagers[(kind, target) := ImagerInFlight]), kind, target)
  }

  // --------------------------------------------- worker-side variant writes

  datatype Mirror = NoTarget | SkippedNewerJob | Missing | SkippedStatus | Updated

  predicate SameTask(a: Job, b: Job) {
    a.kind == b.kind && a.target == b.target
  }

  /** Is there a newer job of the same kind and target? */
  predicate NewerJob(db: Db, j: JobId, row: Job) {
    exists i :: i in db.jobs && i != j && (i > j || j !in db.jobs) && SameTask(db.jobs[i], row)
  }

  // The row that the job's kind is mirrored onto; captures and syntheses are not mirrored.
  predicate HasTarget(db: Db, row: Job) {
    (row.kind == VariantTranscode && row.target in db.variants) || (row.kind.Imager() && (row.kind, row.target) in db.imagers)
  }

  predicate TargetInFlight(db: Db, row: Job) {
    HasTarget(db, row)
    && if row.kind == VariantTranscode then db.variants[row.target].InFlight()
       else db.imagers[(row.kind, row.target)] == ImagerInFlight
  }

  function FailTarget(db: Db, row: Job): Db {
    if row.kind == VariantTranscode then SetVariant(db, row.target, VFailed)
    else SetImager(db, row.kind, row.target, ImagerFailed)
  }

  /** What `mark_target_failed_on_exhaustion` and `mark_variant_failed_on_exhaustion`, of which at most
      one finds its kind, read before they write; `Updated` is to be followed by `FailTarget`. */
  function MirrorExhaustion(db: Db, j: JobId, row: Job): Mirror {
    if row.kind == StreamCapture || row.kind == VoiceSynthesis then NoTarget
    else if NewerJob(db, j, row) then SkippedNewerJob
    else if !HasTarget(db, row) then Missing
    else if !TargetInFlight(db, row) then SkippedStatus
    else Updated
  }

  /** Both cancel branches: the job unconditionally, the variant only while it is in flight. */
  function CancelJob(db: Db, j: JobId, row: Job): Db {
    var db' := SetStatus(db, j, Cancelled);
    if row.kind == VariantTranscode && row.target in db'.variants && db'.variants[row.target].InFlight()
    then SetVariant(db', row.target, VCancelled) else db'
  }

  /** The genuine-timeout branch: job and variant FAILED, neither guarded. */
  function TimeOutJob(db: Db, j: JobId, row: Job): Db {
    var db' := SetStatus(db, j, Failed);
    if row.kind == VariantTranscode then SetVariant(db', row.target, VFailed) else db'
  }

  /** `_mark_failed`: FAILED, or back to PENDING for a stream that is worth another try. */
  function MarkVariantFailed(db: Db, v: VariantId, retry: bool): Db {
    SetVariant(db, v, if retry then VPending else VFailed)
  }

  predicate MayRetry(db: Db, v: VariantId, retry: bool) {
    retry ==> OriginOf(db, v).source == SavedStream
  }

  /** `_owner_job_lost`. */
  predicate OwnerLost(db: Db, j: JobId) {
    j in db.jobs ==> !db.jobs[j].status.Active()
  }
}
