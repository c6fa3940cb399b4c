/** One queue-mode attempt in the source's own form: an object whose fields are the database,
    the queue and the attempt's nonlocal variables, and whose methods assign them step by step.
    Each method is one action of the protocol, and is proved to do what that action says. */
module QueueWorker {
  import opened Basics
  import opened Jobs
  import opened Protocol

  class QueueMode {
    // shared with everybody
    var db: Db
    var outputs: set<VariantId>
    var queue: Queue
    var dispatches: seq<(JobId, nat)>
    var finals: seq<(WorkerId, Branch)>
    var failures: nat
    const others: map<WorkerId, Worker>
    // this attempt
    const me: WorkerId
    const jobId: JobId
    const msg: MsgId
    var currentReceipt: Receipt
    var phase: Phase
    var heartbeat: Heartbeat
    var leaseLostEvent: bool
    var sigtermReceived: bool
    var nearReplicaTimeout: bool
    var cancelObserved: bool
    var jobEvicted: bool
    var leaseActuallyLost: bool

    ghost function Self(): Worker
      reads this
    {
      Worker(jobId, msg, currentReceipt, phase, heartbeat, leaseLostEvent,
             sigtermReceived, nearReplicaTimeout, cancelObserved, jobEvicted, leaseActuallyLost)
    }

    /** The protocol state this object stands for. */
    ghost function Snapshot(): State
      reads this
    {
      State(db, queue, others[me := Self()], outputs, dispatches, finals, failures)
    }

    /** Taking a visible message from the queue starts the attempt. */
    constructor (s: State, w: WorkerId, m: MsgId)
      requires ReceiveEnabled(s, w, m)
      ensures Snapshot() == DoReceive(s, w, m) && me == w
    {
      db, outputs, dispatches, finals, failures := s.db, s.outputs, s.dispatches, s.finals, s.failures;
      queue := s.queue.(
        messages := s.queue.messages[m := s.queue.messages[m].(receipt := s.queue.nextReceipt, visible := false)],
        nextReceipt := s.queue.nextReceipt + 1);
      others, me, jobId, msg := s.workers, w, s.queue.messages[m].job, m;
      currentReceipt, phase, heartbeat, leaseLostEvent := s.queue.nextReceipt, Received, Looping, false;
      sigtermReceived, nearReplicaTimeout := false, false;
      cancelObserved, jobEvicted, leaseActuallyLost := false, false, false;
    }

    // ----------------------------------------------------------- heartbeat

    /** `update_message`: only under the current receipt does it renew, and hand out a new one. */
    method RenewLease(ok: bool)
      requires BeatEnabled(Snapshot(), me, Renew(ok))
      modifies this`queue, this`currentReceipt, this`heartbeat, this`leaseActuallyLost, this`leaseLostEvent
      ensures Snapshot() == DoBeat(old(Snapshot()), me, Renew(ok))
    {
      if ok && msg in queue.messages && queue.messages[msg].receipt == currentReceipt {
        var renewed := queue.messages[msg].(receipt := queue.nextReceipt, visible := false);
        currentReceipt := queue.nextReceipt;
        queue := queue.(messages := queue.messages[msg := renewed], nextReceipt := queue.nextReceipt + 1);
        heartbeat := Renewed;
      } else {
        leaseActuallyLost := true;
        leaseLostEvent := true;
        heartbeat := Stopped;
      }
      assert others[me := old(Self())][me := Self()] == others[me := Self()];
    }

    /** The liveness stamp and cancellation probe in one UPDATE. */
    method StampHeartbeat(ok: bool)
      requires BeatEnabled(Snapshot(), me, Stamp(ok))
      modifies this`db, this`heartbeat, this`cancelObserved, this`jobEvicted, this`leaseLostEvent
      ensures Snapshot() == DoBeat(old(Snapshot()), me, Stamp(ok))
      // Zero rows matched: evicted.  A row that is flagged: cancelled.  The stamp on a row otherwise.
      ensures jobEvicted == (old(jobEvicted) || (ok && !ActiveRow(old(db))))
      ensures cancelObserved == (old(cancelObserved) || (ok && ActiveRow(old(db)) && old(db).jobs[jobId].cancelRequested))
      ensures db == if ok && ActiveRow(old(db))
                    then old(db).(jobs := old(db).jobs[jobId := old(db).jobs[jobId].(stale := false)]) else old(db)
    {
      if !ok {
        heartbeat := Sleeping;
      } else if jobId in db.jobs && db.jobs[jobId].status.Active() {
        var flag := db.jobs[jobId].cancelRequested;
        db := db.(jobs := db.jobs[jobId := db.jobs[jobId].(stale := false)]);
        if flag {
          cancelObserved := true;
          leaseLostEvent := true;
          heartbeat := Stopped;
        } else {
          heartbeat := Sleeping;
        }
      } else {
        jobEvicted := true;
        leaseLostEvent := true;
        heartbeat := Stopped;
      }
      assert others[me := old(Self())][me := Self()] == others[me := Self()];
    }

    predicate ActiveRow(db: Db) {
      jobId in db.jobs && (db.jobs[jobId].status == Pending || db.jobs[jobId].status == Processing)
    }

    method StopTask()
      requires WorkEnabled(Snapshot(), me, StopHeartbeat)
      modifies this`leaseLostEvent, this`heartbeat, this`phase
      ensures Snapshot() == DoWork(old(Snapshot()), me, StopHeartbeat)
    {
      leaseLostEvent := true;
      heartbeat := Stopped;
      phase := if phase.Obsolete? then Deleting(false) else Finalizing(phase.row, phase.outcome);
      assert others[me := old(Self())][me := Self()] == others[me := Self()];
    }

    // ----------------------------------------------------------- pre-flight

    /** The SELECT of `claim_job`: no lock, and nothing is written for a job that is gone or DONE. */
    method ReadRow()
      requires phase.Received?
      modifies this`phase
      ensures Snapshot() == DoWork(old(Snapshot()), me, ReadJob)
    {
      if jobId !in db.jobs || db.jobs[jobId].status == Done {
        phase := Obsolete;
      } else {
        phase := Claiming(db.jobs[jobId]);
      }
      assert others[me := old(Self())][me := Self()] == others[me := Self()];
    }

    /** The UPDATE of `claim_job` at its commit: the columns that differ from what was read. */
    method WriteRow(read: Job, row: Job) returns (done: bool)
      requires row == Bumped(read)
      modifies this`db
      ensures done <==> WriteClaim(old(db), jobId, read).Some?
      ensures db == if done then WriteClaim(old(db), jobId, read).value else old(db)
    {
      if jobId !in db.jobs { return false; }
      var current := db.jobs[jobId].(retries := row.retries);
      if row.status != read.status { current := current.(status := row.status); }
      if row.status == Processing { current := current.(stale := false); }
      if !Admitted(db.jobs, jobId, current) { return false; }
      db := db.(jobs := db.jobs[jobId := current]);
      done := true;
    }

    /** One more attempt, or one too many. */
    method Bump(read: Job) returns (row: Job)
      ensures row == Bumped(read)
      ensures row == if read.retries < 3 then read.(retries := read.retries + 1, status := Processing, stale := false)
                     else read.(retries := read.retries + 1, status := Failed)
    {
      row := read.(retries := read.retries + 1);
      if row.retries > MAX_JOB_RETRIES {
        row := row.(status := Failed);
      } else {
        row := row.(status := Processing, stale := false);
      }
    }

    method GoOn(claimed: bool, row: Job)
      modifies this`phase, this`heartbeat
      ensures phase == if !claimed then Exited else if row.status == Failed then Poison(row) else Preflight(row)
      ensures heartbeat == if claimed then old(heartbeat) else Stopped
    {
      if !claimed {
        phase, heartbeat := Exited, Stopped;
      } else {
        phase := if row.status == Failed then Poison(row) else Preflight(row);
      }
    }

    /** What `claim_job` does with the row it has read, and the attempt with the row it gets back. */
    method ClaimRow()
      requires phase.Claiming?
      modifies this`db, this`phase, this`heartbeat
      ensures Snapshot() == Apply(old(Snapshot()), me, ClaimEffect(old(Snapshot()), old(Self())))
    {
      var read := phase.row;
      var row := Bump(read);
      var done := WriteRow(read, row);
      GoOn(done, row);
      assert others[me := old(Self())][me := Self()] == others[me := Self()];
    }

    /** `ORDER BY created_at DESC LIMIT 1` over the jobs of this kind and target. */
    method LatestJob(row: Job) returns (latest: Option<JobId>)
      ensures latest.None? ==> forall i :: i in db.jobs ==> !SameTask(db.jobs[i], row)
      ensures latest.Some? ==> latest.value in db.jobs && SameTask(db.jobs[latest.value], row)
      ensures latest.Some? ==> forall i :: i in db.jobs && SameTask(db.jobs[i], row) ==> i <= latest.value
    {
      latest := None;
      var todo := db.jobs.Keys;
      while todo != {}
        invariant todo <= db.jobs.Keys
        invariant latest.None? ==> forall i :: i in db.jobs && i !in todo ==> !SameTask(db.jobs[i], row)
        invariant latest.Some? ==> latest.value in db.jobs && SameTask(db.jobs[latest.value], row)
        invariant latest.Some? ==> forall i :: i in db.jobs && i !in todo && SameTask(db.jobs[i], row) ==> i <= latest.value
        decreases todo
      {
        var i: JobId :| i in todo;
        if SameTask(db.jobs[i], row) && (latest.None? || latest.value < i) { latest := Some(i); }
        todo := todo - {i};
      }
    }

    /** What the two mirrors read, which the poison branch calls one after the other; each skips the
        other's kinds. */
    method MustMirror(row: Job) returns (write: bool)
      requires jobId in db.jobs ==> SameTask(db.jobs[jobId], row)
      ensures write <==> MirrorExhaustion(db, jobId, row) == Updated
    {
      var latest := LatestJob(row);
      if latest.Some? && latest.value != jobId { return false; }
      assert !NewerJob(db, jobId, row);
      write := false;
      if row.kind.Imager() {
        write := (row.kind, row.target) in db.imagers && db.imagers[(row.kind, row.target)] == ImagerInFlight;
      }
      if row.kind == VariantTranscode {
        write := row.target in db.variants && db.variants[row.target].InFlight();
      }
    }

    method ReadPoison()
      requires phase.Poison? && (jobId in db.jobs ==> SameTask(db.jobs[jobId], phase.row))
      modifies this`phase
      ensures Snapshot() == DoWork(old(Snapshot()), me, ReadTarget)
    {
      var write := MustMirror(phase.row);
      phase := if write then Mirroring(phase.row) else Obsolete;
      assert others[me := old(Self())][me := Self()] == others[me := Self()];
    }

    /** The mirror's UPDATE by key, whatever the status is by then. */
    method MirrorPoison()
      requires phase.Mirroring?
      modifies this`db, this`phase, this`heartbeat
      ensures Snapshot() == Apply(old(Snapshot()), me, MirrorEffect(old(Snapshot()), old(phase.row), true))
    {
      var row := phase.row;
      phase := Obsolete;
      if row.kind == VariantTranscode && row.target in db.variants {
        db := db.(variants := db.variants[row.target := VFailed]);
      } else if row.kind.Imager() && (row.kind, row.target) in db.imagers {
        db := db.(imagers := db.imagers[(row.kind, row.target) := ImagerFailed]);
      } else {
        phase, heartbeat := Exited, Stopped;
      }
      assert others[me := old(Self())][me := Self()] == others[me := Self()];
    }

    /** The check before the dispatch. */
    method MustCancel() returns (cancel: bool)
      requires phase.Preflight?
      ensures cancel == CancelNow(db, phase.row)
      ensures cancel <==> phase.row.cancelRequested
                          || (phase.row.kind == VariantTranscode && phase.row.target in db.variants
                              && OriginOf(db, phase.row.target).asset in db.deletedAssets)
                          || (phase.row.kind == StreamCapture && phase.row.target in db.deletedAssets)
                          || (phase.row.kind == VoiceSynthesis && phase.row.target in db.deletedAssets)
    {
      var row := phase.row;
      cancel := false;
      if row.cancelRequested {
        cancel := true;
      } else if row.kind == VariantTranscode {
        if row.target in db.variants {
          var origin := if row.target in db.origins then db.origins[row.target] else Origin(row.target, Video);
          cancel := origin.asset in db.deletedAssets;
        }
      } else if row.kind == StreamCapture || row.kind == VoiceSynthesis {
        cancel := row.target in db.deletedAssets;
      }
    }

    method CancelPending()
      requires phase.Preflight? && CancelNow(db, phase.row)
      modifies this`db, this`phase
      ensures Snapshot() == DoWork(old(Snapshot()), me, CancelBefore(true))
      ensures db.jobs == if jobId in old(db).jobs then old(db).jobs[jobId := old(db).jobs[jobId].(status := Cancelled)] else old(db).jobs
    {
      CancelRows(phase.row);
      phase := Obsolete;
      assert others[me := old(Self())][me := Self()] == others[me := Self()];
    }

    /** The writes both cancel branches make: the variant only while it is in flight. */
    method CancelRows(row: Job)
      modifies this`db
      ensures db == CancelJob(old(db), jobId, row)
      ensures db.jobs == if jobId in old(db).jobs then old(db).jobs[jobId := old(db).jobs[jobId].(status := Cancelled)] else old(db).jobs
    {
      SetJobStatus(Cancelled);
      if row.kind == VariantTranscode && row.target in db.variants && db.variants[row.target].InFlight() {
        db := db.(variants := db.variants[row.target := VCancelled]);
      }
    }

    method SetJobStatus(status: JobStatus)
      modifies this`db
      ensures db == SetStatus(old(db), jobId, status)
      ensures jobId in old(db).jobs ==> db.jobs == old(db).jobs[jobId := old(db).jobs[jobId].(status := status)]
      ensures jobId !in old(db).jobs ==> db == old(db)
    {
      if jobId in db.jobs {
        db := db.(jobs := db.jobs[jobId := db.jobs[jobId].(status := status)]);
      }
    }

    // -------------------------------------------------------------- handler

    /** The guards in front of the READY write, in their order in the source. */
    method ReadGuards() returns (h: HandlerStep)
      requires phase.Encoded?
      ensures h == SeesDeletion || h == AbortLost || h == PassGuards
      ensures HandlerEnabled(db, Self(), h)
      ensures h == PassGuards <==> GuardsPass(db, jobId, phase.row)
    {
      var v := phase.row.target;
      var origin := if v in db.origins then db.origins[v] else Origin(v, Video);
      if origin.asset in db.deletedAssets { return SeesDeletion; }
      if origin.source.Guarded() && (jobId !in db.jobs || !db.jobs[jobId].status.Active()) { return AbortLost; }
      return PassGuards;
    }

    method PassGuardsOrAbort() returns (h: HandlerStep)
      requires phase.Encoded?
      modifies this`outputs, this`phase
      ensures HandlerEnabled(db, old(Self()), h) && (h == PassGuards <==> GuardsPass(db, jobId, old(phase.row)))
      ensures Snapshot() == Apply(old(Snapshot()), me, Handler(db, old(outputs), old(phase.row), h))
    {
      h := ReadGuards();
      if h == PassGuards {
        phase := Cleared(phase.row);
      } else {
        outputs := outputs - {phase.row.target};
        phase := Settled(phase.row);
      }
      assert others[me := old(Self())][me := Self()] == others[me := Self()];
    }

    method CommitVariant()
      requires phase.Cleared?
      modifies this`db, this`phase
      ensures Snapshot() == Apply(old(Snapshot()), me, Handler(old(db), outputs, old(phase.row), Commit))
    {
      var row := phase.row;
      if row.target in db.variants {
        db := db.(variants := db.variants[row.target := VReady]);
        phase := Published(row);
      } else {
        phase := Settled(row);
      }
      assert others[me := old(Self())][me := Self()] == others[me := Self()];
    }

    // ------------------------------------------------------------- finalize

    /** The if-elif cascade with its row writes, up to the queue delete of each branch; `done` unless a
        failed write ended the process or `mark_done` has a write to make.  The retry branch has no queue
        delete and counts at once. */
    method RunBranch(ok: bool) returns (done: bool, b: Branch)
      requires phase.Finalizing?
      modifies this`db, this`phase, this`failures
      ensures b == FinalBranch(old(Self()), old(phase.outcome))
      ensures done <==> ((b.CancelSeen? || b.TerminalFailure? || b.Success? || b.Retry?) ==>
                           ok && !(b.Retry? && RetryRefused(old(db), jobId)) && (b.Success? ==> OwnerLost(old(db), jobId)))
      ensures db == if done && ok then FinalWrite(old(db), jobId, old(phase.row), b) else old(db)
      ensures done && ok && jobId in old(db).jobs ==>
        db.jobs == old(db).jobs[jobId := old(db).jobs[jobId].(status :=
          match b
          case TimedOut => Failed
          case TerminalFailure => Failed
          case CancelSeen => Cancelled
          case Retry => Pending
          case Interrupted => old(db).jobs[jobId].status
          case Evicted => old(db).jobs[jobId].status
          case LeaseLost => old(db).jobs[jobId].status
          case Success => old(db).jobs[jobId].status)]
      ensures failures == if done && b.Retry? then old(failures) + 1 else old(failures)
      ensures phase == if done && Deletes(b) then Deleting(b.TimedOut? || b.TerminalFailure?)
                       else if ok && b.Success? then Marking(old(phase.row)) else Exited
    {
      var row, outcome := phase.row, phase.outcome;
      done := true;
      phase := Exited;
      if sigtermReceived && !nearReplicaTimeout {
        b := Interrupted;
        phase := Deleting(false);
      } else if sigtermReceived {
        b := TimedOut;
        phase := Deleting(true);
        if ok {
          SetJobStatus(Failed);
          if row.kind == VariantTranscode && row.target in db.variants {
            db := db.(variants := db.variants[row.target := VFailed]);
          }
        }
      } else if jobEvicted {
        b := Evicted;
        phase := Deleting(false);
      } else if leaseActuallyLost {
        b := LeaseLost;
      } else if cancelObserved {
        b, done := CancelSeen, ok;
        if ok {
          CancelRows(row);
          phase := Deleting(false);
        }
      } else if outcome.Terminal? {
        b, done := TerminalFailure, ok;
        if ok {
          SetJobStatus(Failed);
          phase := Deleting(true);
        }
      } else if outcome.Succeeded? {
        b, done := Success, ok && (jobId !in db.jobs || !db.jobs[jobId].status.Active());
        if ok { phase := if done then Deleting(false) else Marking(row); }
      } else {
        b, done := Retry, ok && (jobId in db.jobs ==> Admitted(db.jobs, jobId, db.jobs[jobId].(status := Pending)));
        if done {
          SetJobStatus(Pending);
          failures := failures + 1;
        }
      }
    }

    /** Everything after the heartbeat has stopped, up to the queue delete. */
    method FinalizeAttempt(ok: bool)
      requires phase.Finalizing? && heartbeat.Stopped? && leaseLostEvent
      modifies this`db, this`finals, this`failures, this`phase
      ensures Snapshot() == Apply(old(Snapshot()), me, FinalEffect(old(Snapshot()), old(Self()), ok))
    {
      var done, b := RunBranch(ok);
      if done { finals := finals + [(me, b)]; }
      assert others[me := old(Self())][me := Self()] == others[me := Self()];
    }

    /** `mark_done` on the job it has read: DONE by key, unless the row is gone. */
    method MarkDone(ok: bool)
      requires phase.Marking? && heartbeat.Stopped? && leaseLostEvent
      modifies this`db, this`finals, this`phase
      ensures Snapshot() == Apply(old(Snapshot()), me, MarkEffect(old(Snapshot()), old(Self()), ok))
    {
      if ok && jobId in db.jobs {
        SetJobStatus(Done);
        finals, phase := finals + [(me, Success)], Deleting(false);
      } else {
        phase := Exited;
      }
      assert others[me := old(Self())][me := Self()] == others[me := Self()];
    }

    /** `delete_message`, which a stale receipt or a network error leaves without effect; then the
        timeout and the terminal branch count their failure. */
    method RemoveMessage(ok: bool)
      requires phase.Deleting?
      modifies this`queue, this`phase, this`heartbeat, this`failures
      ensures Snapshot() == DoWork(old(Snapshot()), me, DeleteMessage(ok))
    {
      if ok && msg in queue.messages && queue.messages[msg].receipt == currentReceipt {
        queue := queue.(messages := queue.messages - {msg});
      }
      if phase.counted { failures := failures + 1; }
      phase, heartbeat := Exited, Stopped;
      assert others[me := old(Self())][me := Self()] == others[me := Self()];
    }
  }
}
