/** The queue-mode transcode protocol as a transition system: any number of
    worker attempts, the lease queue, the CMS and the database.

    One worker id is one worker process, which handles one message and exits.
    Each action is one statement or commit as the others see it: whatever a
    transaction reads without a lock and writes back later is two actions, and
    any other action may come between them. */
module Protocol {
  import opened Basics
  import opened Jobs

  type MsgId = nat
  type WorkerId = nat
  type Receipt = nat

  // ------------------------------------------------------------------ state

  datatype Message = Message(job: JobId, receipt: Receipt, visible: bool)

  // Receipts and message ids come from counters, so none is ever reused.
  datatype Queue = Queue(messages: map<MsgId, Message>, nextMsg: nat, nextReceipt: nat)

  // `Terminal` is an imager handler's deterministic failure.
  datatype Outcome = Succeeded | NotDone | Terminal

  // `row` is the job row as `claim_job` returned it; it is not refreshed afterwards.
  datatype Phase =
    | Received
    | Claiming(row: Job)     // as `claim_job` has read it, its UPDATE to come
    | Poison(row: Job)
    | Mirroring(row: Job)    // the mirror has read its target in flight, its UPDATE to come
    | Preflight(row: Job)
    | Dispatched(row: Job)
    | Checked(row: Job)      // variant read, and it was not READY
    | Working(row: Job)      // variant PROCESSING, encoder running
    | Encoded(row: Job)      // encoder exited cleanly, output hashed
    | Cleared(row: Job)      // the guards before the READY write have passed
    | Published(row: Job)    // READY committed, storage sync next
    | Settled(row: Job)      // `_transcode_one` has returned
    | Returned(row: Job, outcome: Outcome)
    | Finalizing(row: Job, outcome: Outcome)
    | Marking(row: Job)      // `mark_done` has read a job that is not terminal, its UPDATE to come
    | Obsolete               // only the queue message is left to remove, heartbeat still up
    | Deleting(counted: bool)  // queue delete next, and then the failure counter
    | Exited
  {
    predicate Live() { !Exited? }
    predicate PastClaim() { !Received? && !Claiming? && !Exited? }
    predicate HasRow() { !Received? && !Obsolete? && !Deleting? && !Exited? }
    // Past the READY check and not yet published.
    predicate Producing() { Checked? || Working? || Encoded? || Cleared? }
  }

  datatype Heartbeat = Looping | Renewed | Sleeping | Stopped

  // `stop` is the `lease_lost` event, which also asks the heartbeat to end.
  datatype Worker = Worker(
    job: JobId, msg: MsgId, receipt: Receipt, phase: Phase, hb: Heartbeat, stop: bool,
    sigterm: bool, aged: bool, cancelObserved: bool, evicted: bool, leaseLost: bool)

  datatype Branch = Interrupted | TimedOut | Evicted | LeaseLost | CancelSeen | TerminalFailure | Success | Retry

  // `dispatches`, `finals` and `failures` are the log lines and the failure counter.
  datatype State = State(
    db: Db, queue: Queue, workers: map<WorkerId, Worker>, outputs: set<VariantId>,
    dispatches: seq<(JobId, nat)>, finals: seq<(WorkerId, Branch)>, failures: nat)

  // ---------------------------------------------------------------- actions

  datatype CmsStep =
    | Stage(kind: Kind, target: nat)
    | EnqueueOne(kind: Kind, target: nat)
    | CreateVariant(v: VariantId)
    | SupersedeVariant(v: VariantId)
    | DropVariant(v: VariantId)
    | DropJob(j: JobId)
    | DeleteAsset(asset: AssetId)
    | RequestCancel(j: JobId)
    | GoStale(j: JobId)
    | PickStalled(j: JobId)
    | RecoverStalled(j: JobId)
    | JudgeStranded(v: VariantId, j: JobId)
    | ReconcileStranded(v: VariantId)
    | ResetVariant(v: VariantId)
    | UnlinkOutput(v: VariantId)
    | RequestImager(kind: Kind, target: nat)
    | DropImager(kind: Kind, target: nat)

  datatype QueueStep =
    | Send(j: JobId)            // the drainer sends and deletes the outbox row
    | SendOnly(j: JobId)        // it dies in between, so the row will be sent again
    | Lapse(m: MsgId)

  // Inside the handler that a job is dispatched to.
  datatype HandlerStep =
    | ImagerWrite(ready: bool)  // the imager handlers' own last transaction
    | OtherHandler(outcome: Outcome)
    | Check
    | FailEarly(retry: bool)
    | Start
    | Encode
    | EncodeFails(retry: bool)
    | Raise                     // an exception the handler does not catch
    | Killed
    | SeesDeletion
    | PassGuards
    | AbortLost
    | Commit
    | Stored
    | StoreFails(retry: bool)
    | ReadBack

  datatype WorkStep =
    | ReadJob
    | Claim(ok: bool)
    | ReadTarget
    | MirrorFailure(ok: bool)
    | CancelBefore(ok: bool)
    | Dispatch
    | Handle(h: HandlerStep)
    | StopHeartbeat
    | Finalize(ok: bool)
    | Mark(ok: bool)
    | DeleteMessage(ok: bool)

  datatype BeatStep = Renew(ok: bool) | Stamp(ok: bool) | Wake | Quit

  datatype Action =
    | Cms(cms: CmsStep)
    | Queueing(q: QueueStep)
    | Receive(w: WorkerId, m: MsgId)
    | Work(w: WorkerId, work: WorkStep)
    | Beat(w: WorkerId, beat: BeatStep)
    | Sigterm(w: WorkerId)
    | GrowOld(w: WorkerId)
    | Crash(w: WorkerId)

  // ---------------------------------------------------------- worker helpers

  /** Does this worker hold the message's current pop receipt? */
  predicate Holds(s: State, k: Worker) {
    k.msg in s.queue.messages && s.queue.messages[k.msg].receipt == k.receipt
  }

  predicate CancelNow(db: Db, row: Job) {
    row.cancelRequested
    || (row.kind == VariantTranscode && row.target in db.variants && AssetDeleted(db, row.target))
    || ((row.kind == StreamCapture || row.kind == VoiceSynthesis) && row.target in db.deletedAssets)
  }

  /** The guards in front of the READY write. */
  predicate GuardsPass(db: Db, j: JobId, row: Job) {
    !AssetDeleted(db, row.target) && (Guarded(db, row.target) ==> !OwnerLost(db, j))
  }

  /** The if-elif cascade that picks the finalize branch. */
  function FinalBranch(k: Worker, outcome: Outcome): Branch {
    if k.sigterm && !k.aged then Interrupted
    else if k.sigterm then TimedOut
    else if k.evicted then Evicted
    else if k.leaseLost then LeaseLost
    else if k.cancelObserved then CancelSeen
    else match outcome
      case Terminal => TerminalFailure
      case Succeeded => Success
      case NotDone => Retry
  }

  /** The row writes of a finalize branch, but for the write of `mark_done`. */
  function FinalWrite(db: Db, j: JobId, row: Job, b: Branch): Db {
    match b
    case Interrupted | Evicted | LeaseLost | Success => db
    case TimedOut => TimeOutJob(db, j, row)
    case CancelSeen => CancelJob(db, j, row)
    case TerminalFailure => SetStatus(db, j, Failed)
    case Retry => SetStatus(db, j, Pending)
  }

  /** Only these branches go on to remove the queue message. */
  predicate Deletes(b: Branch) {
    !b.LeaseLost? && !b.Retry?
  }

  function Put(s: State, w: WorkerId, k: Worker): State {
    s.(workers := s.workers[w := k])
  }

  // ------------------------------------------------------------- CMS steps

  predicate CmsEnabled(s: State, c: CmsStep) {
    match c
    case CreateVariant(v) =>
      v !in s.db.variants && forall j :: j in s.db.jobs ==> !(s.db.jobs[j].kind == VariantTranscode && s.db.jobs[j].target == v)
    case GoStale(j) => j in s.db.jobs
    case PickStalled(j) => MonitorSees(s.db, j)
    case RecoverStalled(j) => MayRecover(s.db, j)
    case JudgeStranded(v, j) => Reconcilable(s.db, v, j) && Judge(s.db.jobs[j]).Some?
    case ReconcileStranded(v) => v in s.db.verdicts
    case ResetVariant(v) => Resettable(s.db, v)
    case RequestImager(kind, target) => kind.ImageImport? || (kind.ImageProvision? && (kind, target) !in s.db.imagers)
    case _ => true
  }

  function CmsDb(db: Db, c: CmsStep): Db
    requires c.GoStale? ==> c.j in db.jobs
    requires c.RecoverStalled? ==> Stalled(db, c.j)
    requires c.JudgeStranded? ==> c.j in db.jobs && Judge(db.jobs[c.j]).Some?
    requires c.ReconcileStranded? ==> c.v in db.verdicts
  {
    match c
    case Stage(kind, target) => StageJob(db, kind, target)
    case EnqueueOne(kind, target) => EnqueueJob(db, kind, target)
    case CreateVariant(v) => db.(variants := db.variants[v := VPending])
    case SupersedeVariant(v) => db.(superseded := db.superseded + {v})
    case DropVariant(v) => db.(variants := db.variants - {v})
    case DropJob(j) => db.(jobs := db.jobs - {j}, outbox := db.outbox - {j})
    case DeleteAsset(asset) => SoftDelete(db, asset)
    case RequestCancel(j) => FlagCancel(db, j)
    case GoStale(j) => PutJob(db, j, db.jobs[j].(stale := true))
    case PickStalled(j) => db.(picked := db.picked + {j})
    case RecoverStalled(j) => Recover(db, j)
    case JudgeStranded(v, j) => db.(verdicts := db.verdicts[v := Judge(db.jobs[j]).value])
    case ReconcileStranded(v) => Reconcile(db, v)
    case ResetVariant(v) => SetVariant(db, v, VPending)
    case UnlinkOutput(_) => db
    case RequestImager(kind, target) => RequestImage(db, kind, target)
    case DropImager(kind, target) => db.(imagers := db.imagers - {(kind, target)})
  }

  /** A reset takes the file with it: a recapture has unlinked it, a repair has renamed it away. */
  function CmsOutputs(outputs: set<VariantId>, c: CmsStep): set<VariantId> {
    match c
    case ResetVariant(v) => outputs - {v}
    case UnlinkOutput(v) => outputs - {v}
    case _ => outputs
  }

  // ----------------------------------------------------------- queue steps

  predicate QueueEnabled(s: State, q: QueueStep) {
    match q
    case Send(j) => j in s.db.outbox
    case SendOnly(j) => j in s.db.outbox
    case Lapse(m) => m in s.queue.messages
  }

  function AddMessage(q: Queue, j: JobId): Queue {
    Queue(q.messages[q.nextMsg := Message(j, q.nextReceipt, true)], q.nextMsg + 1, q.nextReceipt + 1)
  }

  function DoQueue(s: State, q: QueueStep): State
    requires QueueEnabled(s, q)
  {
    match q
    case Send(j) => s.(queue := AddMessage(s.queue, j), db := s.db.(outbox := s.db.outbox - {j}))
    case SendOnly(j) => s.(queue := AddMessage(s.queue, j))
    case Lapse(m) =>
      s.(queue := s.queue.(messages := s.queue.messages[m := s.queue.messages[m].(visible := true)]))
  }

  /** A receive or a renewal: a new receipt, and the message out of sight. */
  function Lease(q: Queue, m: MsgId): Queue
    requires m in q.messages
  {
    q.(messages := q.messages[m := q.messages[m].(receipt := q.nextReceipt, visible := false)],
       nextReceipt := q.nextReceipt + 1)
  }

  predicate ReceiveEnabled(s: State, w: WorkerId, m: MsgId) {
    w !in s.workers && m in s.queue.messages && s.queue.messages[m].visible
  }

  function DoReceive(s: State, w: WorkerId, m: MsgId): State
    requires ReceiveEnabled(s, w, m)
  {
    s.(queue := Lease(s.queue, m),
       workers := s.workers[w :=
         Worker(s.queue.messages[m].job, m, s.queue.nextReceipt, Received, Looping, false,
                false, false, false, false, false)])
  }

  // ------------------------------------------------------------ main flow

  predicate HandlerEnabled(db: Db, k: Worker, h: HandlerStep) {
    var p := k.phase;
    match h
    case ImagerWrite(_) => p.Dispatched? && p.row.kind.Imager()
    case OtherHandler(outcome) =>
      p.Dispatched? && !p.row.kind.VariantTranscode?
      && (outcome.Terminal? ==> p.row.kind.Imager())
    case Check => p.Dispatched? && p.row.kind.VariantTranscode?
    case FailEarly(retry) => p.Checked? && MayRetry(db, p.row.target, retry)
    case Start => p.Checked?
    case Encode => p.Working?
    case EncodeFails(retry) => (p.Working? || p.Encoded? || p.Cleared?) && MayRetry(db, p.row.target, retry)
    case Raise => p.Dispatched? || p.Checked? || p.Working?
    case Killed => p.Working? && (k.stop || p.row.target !in db.variants)
    case SeesDeletion => (p.Working? || p.Encoded?) && AssetDeleted(db, p.row.target)
    case PassGuards => p.Encoded? && GuardsPass(db, k.job, p.row)
    case AbortLost =>
      p.Encoded? && !AssetDeleted(db, p.row.target) && Guarded(db, p.row.target) && OwnerLost(db, k.job)
    case Commit => p.Cleared?
    case Stored => p.Published?
    case StoreFails(retry) => p.Published? && MayRetry(db, p.row.target, retry)
    case ReadBack => p.Settled?
  }

  predicate PhaseAllows(s: State, k: Worker, a: WorkStep) {
    match a
    case ReadJob => k.phase.Received?
    case Claim(_) => k.phase.Claiming?
    case ReadTarget => k.phase.Poison?
    case MirrorFailure(_) => k.phase.Mirroring?
    case CancelBefore(_) => k.phase.Preflight? && CancelNow(s.db, k.phase.row)
    case Dispatch => k.phase.Preflight? && !CancelNow(s.db, k.phase.row)
    case Handle(h) => HandlerEnabled(s.db, k, h)
    case StopHeartbeat => k.phase.Returned? || k.phase.Obsolete?
    case Finalize(_) => k.phase.Finalizing?
    case Mark(_) => k.phase.Marking?
    case DeleteMessage(_) => k.phase.Deleting?
  }

  predicate WorkEnabled(s: State, w: WorkerId, a: WorkStep) {
    w in s.workers && PhaseAllows(s, s.workers[w], a)
  }

  /** What one main-flow step leaves behind: the rows, the output files, the log line
      it writes, whether the queue message goes, and the worker's next phase. */
  datatype Note = Silent | Dispatching(job: JobId, attempt: nat) | Finalized(branch: Branch) | FailureCounted

  datatype Effect = Effect(db: Db, outputs: set<VariantId>, phase: Phase, note: Note, removes: bool)

  function Handler(db: Db, outputs: set<VariantId>, row: Job, h: HandlerStep): Effect {
    var v := row.target;
    match h
    case ImagerWrite(ready) =>
      Effect(SetImager(db, row.kind, v, if ready then ImagerReady else ImagerFailed), outputs, Dispatched(row), Silent, false)
    case OtherHandler(outcome) => Effect(db, outputs, Returned(row, outcome), Silent, false)
    case Check =>
      Effect(db, outputs,
        if v !in db.variants then Returned(row, NotDone)
        else if db.variants[v] == VReady then Returned(row, Succeeded)
        else Checked(row), Silent, false)
    case FailEarly(retry) => Effect(MarkVariantFailed(db, v, retry), outputs, Settled(row), Silent, false)
    case Start =>
      if v in db.variants then Effect(SetVariant(db, v, VProcessing), outputs, Working(row), Silent, false)
      else Effect(db, outputs, Returned(row, NotDone), Silent, false)
    case Encode => Effect(db, outputs + {v}, Encoded(row), Silent, false)
    case EncodeFails(retry) => Effect(MarkVariantFailed(db, v, retry), outputs, Settled(row), Silent, false)
    case Raise => Effect(db, outputs, Returned(row, NotDone), Silent, false)
    case Killed => Effect(db, outputs, Settled(row), Silent, false)
    case SeesDeletion => Effect(db, outputs - {v}, Settled(row), Silent, false)
    case PassGuards => Effect(db, outputs, Cleared(row), Silent, false)
    case AbortLost => Effect(db, outputs - {v}, Settled(row), Silent, false)
    case Commit =>
      if v in db.variants then Effect(SetVariant(db, v, VReady), outputs, Published(row), Silent, false)
      else Effect(db, outputs, Settled(row), Silent, false)
    case Stored => Effect(db, outputs, Settled(row), Silent, false)
    case StoreFails(retry) => Effect(MarkVariantFailed(db, v, retry), outputs, Settled(row), Silent, false)
    case ReadBack =>
      var outcome := if v in db.variants && db.variants[v] == VReady then Succeeded else NotDone;
      Effect(db, outputs, Returned(row, outcome), Silent, false)
  }

  function ReadPhase(db: Db, j: JobId): Phase {
    if j !in db.jobs || db.jobs[j].status == Done then Obsolete else Claiming(db.jobs[j])
  }

  /** A row that has gone since it was read, and a refusal by the index, end the process. */
  function ClaimEffect(s: State, k: Worker): Effect
    requires k.phase.Claiming?
  {
    var row := Bumped(k.phase.row);
    match WriteClaim(s.db, k.job, k.phase.row)
    case None => Effect(s.db, s.outputs, Exited, Silent, false)
    case Some(db') => Effect(db', s.outputs, if row.status == Failed then Poison(row) else Preflight(row), Silent, false)
  }

  /** The mirror's UPDATE, which fails if its row has gone since it was read. */
  function MirrorEffect(s: State, row: Job, ok: bool): Effect {
    if ok && HasTarget(s.db, row) then Effect(FailTarget(s.db, row), s.outputs, Obsolete, Silent, false)
    else Effect(s.db, s.outputs, Exited, Silent, false)
  }

  function FinalEffect(s: State, k: Worker, ok: bool): Effect
    requires k.phase.Finalizing?
  {
    var b := FinalBranch(k, k.phase.outcome);
    var writes := b.CancelSeen? || b.TerminalFailure? || b.Success? || b.Retry?;
    // A failed write ends the process, except in the timeout branch, which swallows it.
    if writes && (!ok || (b.Retry? && RetryRefused(s.db, k.job))) then Effect(s.db, s.outputs, Exited, Silent, false)
    else if b.Success? && !OwnerLost(s.db, k.job) then Effect(s.db, s.outputs, Marking(k.phase.row), Silent, false)
    else
      Effect(if ok then FinalWrite(s.db, k.job, k.phase.row, b) else s.db, s.outputs,
             if Deletes(b) then Deleting(b.TimedOut? || b.TerminalFailure?) else Exited, Finalized(b), false)
  }

  /** `mark_done` writes DONE over whatever the row has become. */
  function MarkEffect(s: State, k: Worker, ok: bool): Effect {
    if ok && k.job in s.db.jobs then Effect(SetStatus(s.db, k.job, Done), s.outputs, Deleting(false), Finalized(Success), false)
    else Effect(s.db, s.outputs, Exited, Silent, false)
  }

  function WorkEffect(s: State, k: Worker, a: WorkStep): Effect
    requires PhaseAllows(s, k, a)
  {
    match a
    case ReadJob => Effect(s.db, s.outputs, ReadPhase(s.db, k.job), Silent, false)
    case Claim(ok) => if ok then ClaimEffect(s, k) else Effect(s.db, s.outputs, Exited, Silent, false)
    case ReadTarget =>
      var p := if MirrorExhaustion(s.db, k.job, k.phase.row) == Updated then Mirroring(k.phase.row) else Obsolete;
      Effect(s.db, s.outputs, p, Silent, false)
    case MirrorFailure(ok) => MirrorEffect(s, k.phase.row, ok)
    case CancelBefore(ok) =>
      if ok then Effect(CancelJob(s.db, k.job, k.phase.row), s.outputs, Obsolete, Silent, false)
      else Effect(s.db, s.outputs, Exited, Silent, false)
    case Dispatch => Effect(s.db, s.outputs, Dispatched(k.phase.row), Dispatching(k.job, k.phase.row.retries), false)
    case Handle(h) => Handler(s.db, s.outputs, k.phase.row, h)
    case StopHeartbeat =>
      Effect(s.db, s.outputs, if k.phase.Obsolete? then Deleting(false) else Finalizing(k.phase.row, k.phase.outcome), Silent, false)
    case Finalize(ok) => FinalEffect(s, k, ok)
    case Mark(ok) => MarkEffect(s, k, ok)
    case DeleteMessage(ok) =>
      Effect(s.db, s.outputs, Exited, if k.phase.counted then FailureCounted else Silent, ok && Holds(s, k))
  }

  /** The heartbeat does not outlive the process, and has ended once finalizing begins. */
  function Advance(k: Worker, p: Phase): Worker {
    if p.Exited? then k.(phase := p, hb := Stopped)
    else if p.Finalizing? || p.Deleting? then k.(phase := p, hb := Stopped, stop := true)
    else k.(phase := p)
  }

  function Apply(s: State, w: WorkerId, e: Effect): State
    requires w in s.workers
  {
    var k := s.workers[w];
    State(
      e.db,
      if e.removes then s.queue.(messages := s.queue.messages - {k.msg}) else s.queue,
      s.workers[w := Advance(k, e.phase)],
      e.outputs,
      if e.note.Dispatching? then s.dispatches + [(e.note.job, e.note.attempt)] else s.dispatches,
      if e.note.Finalized? then s.finals + [(w, e.note.branch)] else s.finals,
      if e.note == Finalized(Retry) || e.note == FailureCounted then s.failures + 1 else s.failures)
  }

  function DoWork(s: State, w: WorkerId, a: WorkStep): State
    requires WorkEnabled(s, w, a)
  {
    Apply(s, w, WorkEffect(s, s.workers[w], a))
  }

  // ------------------------------------------------------------- heartbeat

  predicate BeatEnabled(s: State, w: WorkerId, b: BeatStep) {
    w in s.workers && s.workers[w].phase.Live() &&
    var k := s.workers[w];
    match b
    case Renew(_) => k.hb.Looping? && !k.stop
    case Stamp(_) => k.hb.Renewed?
    case Wake => k.hb.Sleeping? && !k.stop
    case Quit => (k.hb.Looping? || k.hb.Sleeping?) && k.stop
  }

  predicate Renews(s: State, k: Worker, b: BeatStep) {
    b.Renew? && b.ok && Holds(s, k)
  }

  /** The stamp is an UPDATE that matches only a row that is not terminal. */
  predicate Stamps(db: Db, k: Worker, b: BeatStep) {
    b.Stamp? && b.ok && !OwnerLost(db, k.job)
  }

  function BeatWorker(s: State, k: Worker, b: BeatStep): Worker {
    match b
    case Renew(_) =>
      if Renews(s, k, b) then k.(receipt := s.queue.nextReceipt, hb := Renewed)
      else k.(leaseLost := true, stop := true, hb := Stopped)
    case Stamp(ok) =>
      if !ok then k.(hb := Sleeping)
      else if OwnerLost(s.db, k.job) then k.(evicted := true, stop := true, hb := Stopped)
      else if s.db.jobs[k.job].cancelRequested
      then k.(cancelObserved := true, stop := true, hb := Stopped)
      else k.(hb := Sleeping)
    case Wake => k.(hb := Looping)
    case Quit => k.(hb := Stopped)
  }

  function DoBeat(s: State, w: WorkerId, b: BeatStep): State
    requires BeatEnabled(s, w, b)
  {
    var k := s.workers[w];
    s.(workers := s.workers[w := BeatWorker(s, k, b)],
       queue := if Renews(s, k, b) then Lease(s.queue, k.msg) else s.queue,
       db := if Stamps(s.db, k, b) then PutJob(s.db, k.job, s.db.jobs[k.job].(stale := false)) else s.db)
  }

  // ------------------------------------------------------------- all steps

  predicate Enabled(s: State, a: Action) {
    match a
    case Cms(c) => CmsEnabled(s, c)
    case Queueing(q) => QueueEnabled(s, q)
    case Receive(w, m) => ReceiveEnabled(s, w, m)
    case Work(w, k) => WorkEnabled(s, w, k)
    case Beat(w, b) => BeatEnabled(s, w, b)
    case Sigterm(w) => w in s.workers && s.workers[w].phase.Live()
    case GrowOld(w) => w in s.workers && s.workers[w].phase.Live()
    case Crash(w) => w in s.workers && s.workers[w].phase.Live()
  }

  function Do(s: State, a: Action): State
    requires Enabled(s, a)
  {
    match a
    case Cms(c) => s.(db := CmsDb(s.db, c), outputs := CmsOutputs(s.outputs, c))
    case Queueing(q) => DoQueue(s, q)
    case Receive(w, m) => DoReceive(s, w, m)
    case Work(w, k) => DoWork(s, w, k)
    case Beat(w, b) => DoBeat(s, w, b)
    case Sigterm(w) => Put(s, w, s.workers[w].(sigterm := true, stop := true))
    case GrowOld(w) => Put(s, w, s.workers[w].(aged := true))
    case Crash(w) => Put(s, w, Advance(s.workers[w], Exited))
  }

  // --------------------------------------------------------- run disciplines

  /** Restrictions on runs.  With all of them false a run is any run of the code. */
  datatype Rules = Rules(
    leaseHeld: bool,      // a lease lapses only once its holder is gone
    singleSend: bool,     // the drainer's send and outbox delete land together
    atomicPublish: bool,  // at the READY commit the guards would still pass
    retryHolds: bool,     // the retry branch fires only under the current receipt
    noTimeout: bool,      // no genuine replica timeout
    storeOk: bool,        // no failure after the READY commit
    freshClaim: bool,     // a claim writes its count over the count it has read
    freshWrites: bool,    // the monitor and the mirror write over the status they have read
    solo: bool)           // nobody starts on, resets or unlinks a variant a worker is producing or publishing

  predicate BusyWith(k: Worker, v: VariantId) {
    (k.phase.Producing() || k.phase.Published?) && k.phase.row.target == v
  }

  predicate Undisturbed(s: State, v: VariantId) {
    forall w :: w in s.workers ==> !BusyWith(s.workers[w], v)
  }

  /** The count that worker `w` has read of its job is still the job's count. */
  predicate CountAsRead(s: State, w: WorkerId)
    requires w in s.workers && s.workers[w].phase.HasRow()
  {
    s.workers[w].job in s.db.jobs ==> s.db.jobs[s.workers[w].job].retries == s.workers[w].phase.row.retries
  }

  /** The monitor and the mirror have decided on a status that they read.  Does the write still find it? */
  predicate FreshWrite(s: State, a: Action)
    requires Enabled(s, a)
  {
    match a
    case Cms(RecoverStalled(j)) => s.db.variants[s.db.jobs[j].target] == VProcessing
    case Work(w, MirrorFailure(_)) => TargetInFlight(s.db, s.workers[w].phase.row)
    case _ => true
  }

  predicate Allowed(r: Rules, s: State, a: Action)
    requires Enabled(s, a)
  {
    match a
    case Cms(RecoverStalled(_)) => r.freshWrites ==> FreshWrite(s, a)
    case Cms(ResetVariant(v)) => r.solo ==> Undisturbed(s, v)
    case Cms(UnlinkOutput(v)) => r.solo ==> Undisturbed(s, v)
    case Queueing(Lapse(m)) =>
      r.leaseHeld ==> forall w :: w in s.workers && s.workers[w].phase.Live() && Holds(s, s.workers[w]) ==> s.workers[w].msg != m
    case Queueing(SendOnly(_)) => !r.singleSend
    case Work(w, Claim(_)) => r.freshClaim ==> CountAsRead(s, w)
    case Work(_, MirrorFailure(_)) => r.freshWrites ==> FreshWrite(s, a)
    case Work(w, Handle(Commit)) =>
      r.atomicPublish ==> GuardsPass(s.db, s.workers[w].job, s.workers[w].phase.row)
    case Work(w, Handle(Check)) =>
      r.solo ==> forall x :: x in s.workers && x != w ==> !BusyWith(s.workers[x], s.workers[w].phase.row.target)
    case Work(w, Handle(StoreFails(_))) => !r.storeOk
    case Work(w, Finalize(_)) =>
      var b := FinalBranch(s.workers[w], s.workers[w].phase.outcome);
      (r.retryHolds && b.Retry? ==> Holds(s, s.workers[w])) && (r.noTimeout ==> !b.TimedOut?)
    case _ => true
  }

  // -------------------------------------------------------------------- runs

  predicate Initial(s: State) {
    s.db.jobs == map[] && s.db.outbox == {} && s.queue.messages == map[] && s.workers == map[]
    && s.dispatches == [] && s.finals == [] && s.failures == 0
  }

  datatype Run = Run(states: seq<State>, actions: seq<Action>)

  ghost predicate IsRun(r: Rules, run: Run) {
    |run.states| == |run.actions| + 1 && Initial(run.states[0])
    && forall i :: 0 <= i < |run.actions| ==> StepsAt(r, run, i)
  }

  ghost predicate StepsAt(r: Rules, run: Run, i: nat)
    requires |run.states| == |run.actions| + 1 && i < |run.actions|
  {
    Enabled(run.states[i], run.actions[i])
    && Allowed(r, run.states[i], run.actions[i])
    && run.states[i + 1] == Do(run.states[i], run.actions[i])
  }
}
