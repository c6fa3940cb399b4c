/** Runs that break what one might wish for, each reachable from an empty queue, and the
    exact condition under which the step in question does no harm. */
module Gaps {
  import opened Basics
  import opened Jobs
  import opened Protocol
  import opened ProtocolInvariant
  import opened PublishSafety
  import opened NoJobLost
  import opened ReadyAbsorbing
  import opened Recovery
  import opened Orphans

  const STRICT := Rules(true, true, true, true, true, true, true, true, true)

  ghost predicate Reachable(r: Rules, s: State) {
    exists run :: IsRun(r, run) && run.states[|run.actions|] == s
  }

  lemma Next(r: Rules, s: State, a: Action) returns (s': State)
    requires Reachable(r, s) && Enabled(s, a) && Allowed(r, s, a)
    ensures s' == Do(s, a) && Reachable(r, s')
  {
    s' := Do(s, a);
    var run := Extended(r, s, a);
  }

  // One action each, with what it changes spelled out.

  /** Worker `w` has moved to phase `p`, and nothing else has changed. */
  predicate Moved(s: State, s': State, w: WorkerId, p: Phase)
    requires w in s.workers
  {
    s'.db == s.db && s'.outputs == s.outputs && s'.queue == s.queue
    && s'.workers == s.workers[w := s.workers[w].(phase := p)]
  }

  lemma Checks(r: Rules, s: State, w: WorkerId, row: Job) returns (s': State)
    requires Reachable(r, s) && w in s.workers && s.workers[w].phase == Dispatched(row) && row.kind == VariantTranscode
    requires r.solo ==> forall x :: x in s.workers && x != w ==> !BusyWith(s.workers[x], row.target)
    requires row.target in s.db.variants && s.db.variants[row.target] != VReady
    ensures Reachable(r, s') && Moved(s, s', w, Checked(row))
  {
    s' := Next(r, s, Work(w, Handle(Check)));
  }

  lemma Starts(r: Rules, s: State, w: WorkerId, row: Job) returns (s': State)
    requires Reachable(r, s) && w in s.workers && s.workers[w].phase == Checked(row) && row.target in s.db.variants
    ensures Reachable(r, s') && Moved(s.(db := SetVariant(s.db, row.target, VProcessing)), s', w, Working(row))
  {
    s' := Next(r, s, Work(w, Handle(Start)));
  }

  lemma Encodes(r: Rules, s: State, w: WorkerId, row: Job) returns (s': State)
    requires Reachable(r, s) && w in s.workers && s.workers[w].phase == Working(row)
    ensures Reachable(r, s') && Moved(s.(outputs := s.outputs + {row.target}), s', w, Encoded(row))
  {
    s' := Next(r, s, Work(w, Handle(Encode)));
  }

  lemma Clears(r: Rules, s: State, w: WorkerId, row: Job) returns (s': State)
    requires Reachable(r, s) && w in s.workers && s.workers[w].phase == Encoded(row) && GuardsPass(s.db, s.workers[w].job, row)
    ensures Reachable(r, s') && Moved(s, s', w, Cleared(row))
  {
    s' := Next(r, s, Work(w, Handle(PassGuards)));
  }

  lemma Commits(r: Rules, s: State, w: WorkerId, row: Job) returns (s': State)
    requires Reachable(r, s) && w in s.workers && s.workers[w].phase == Cleared(row) && GuardsPass(s.db, s.workers[w].job, row)
    requires row.target in s.db.variants
    ensures Reachable(r, s') && Moved(s.(db := SetVariant(s.db, row.target, VReady)), s', w, Published(row))
  {
    s' := Next(r, s, Work(w, Handle(Commit)));
  }

  lemma Stores(r: Rules, s: State, w: WorkerId, row: Job) returns (s': State)
    requires Reachable(r, s) && w in s.workers && s.workers[w].phase == Published(row)
    ensures Reachable(r, s') && Moved(s, s', w, Settled(row))
  {
    s' := Next(r, s, Work(w, Handle(Stored)));
  }

  lemma Aborts(r: Rules, s: State, w: WorkerId, row: Job) returns (s': State)
    requires Reachable(r, s) && w in s.workers && s.workers[w].phase == Encoded(row)
    requires !AssetDeleted(s.db, row.target) && Guarded(s.db, row.target) && OwnerLost(s.db, s.workers[w].job)
    ensures Reachable(r, s') && Moved(s.(outputs := s.outputs - {row.target}), s', w, Settled(row))
  {
    s' := Next(r, s, Work(w, Handle(AbortLost)));
  }

  lemma Fails(r: Rules, s: State, w: WorkerId, row: Job) returns (s': State)
    requires Reachable(r, s) && w in s.workers && s.workers[w].phase == Working(row)
    ensures Reachable(r, s') && Moved(s.(db := SetVariant(s.db, row.target, VFailed)), s', w, Settled(row))
  {
    s' := Next(r, s, Work(w, Handle(EncodeFails(false))));
  }

  lemma Raises(r: Rules, s: State, w: WorkerId, row: Job) returns (s': State)
    requires Reachable(r, s) && w in s.workers && (s.workers[w].phase == Dispatched(row) || s.workers[w].phase == Working(row))
    ensures Reachable(r, s') && Moved(s, s', w, Returned(row, NotDone))
  {
    s' := Next(r, s, Work(w, Handle(Raise)));
  }

  lemma ReadsBack(r: Rules, s: State, w: WorkerId, row: Job) returns (s': State)
    requires Reachable(r, s) && w in s.workers && s.workers[w].phase == Settled(row) && row.target in s.db.variants
    ensures Reachable(r, s')
    ensures Moved(s, s', w, Returned(row, if s.db.variants[row.target] == VReady then Succeeded else NotDone))
  {
    s' := Next(r, s, Work(w, Handle(ReadBack)));
  }

  /** A claim whose read and write nothing comes between. */
  lemma Claims(r: Rules, s: State, w: WorkerId) returns (s': State)
    requires Reachable(r, s) && w in s.workers && s.workers[w].phase.Received?
    requires var j := s.workers[w].job; j in s.db.jobs && s.db.jobs[j].status != Done && s.db.jobs[j].retries < MAX_JOB_RETRIES
    requires var j := s.workers[w].job; WriteClaim(s.db, j, s.db.jobs[j]).Some?
    ensures Reachable(r, s')
    ensures var j := s.workers[w].job;
      Moved(s.(db := WriteClaim(s.db, j, s.db.jobs[j]).value), s', w, Preflight(Bumped(s.db.jobs[j])))
  {
    var j := s.workers[w].job;
    var row := s.db.jobs[j];
    var s1 := ReadsJob(r, s, w);
    s' := Wins(r, s1, w, j, row);
    MovedTwice(s, s1, s', w, Claiming(row), Preflight(Bumped(row)), WriteClaim(s.db, j, row).value);
  }

  lemma MovedTwice(s: State, s1: State, s2: State, w: WorkerId, p1: Phase, p2: Phase, db: Db)
    requires w in s.workers && Moved(s, s1, w, p1) && Moved(s1.(db := db), s2, w, p2)
    ensures Moved(s.(db := db), s2, w, p2)
  {
  }

  lemma ReadsJob(r: Rules, s: State, w: WorkerId) returns (s': State)
    requires Reachable(r, s) && w in s.workers && s.workers[w].phase.Received?
    requires s.workers[w].job in s.db.jobs && s.db.jobs[s.workers[w].job].status != Done
    ensures Reachable(r, s') && Moved(s, s', w, Claiming(s.db.jobs[s.workers[w].job]))
  {
    s' := Next(r, s, Work(w, ReadJob));
  }

  lemma Wins(r: Rules, s: State, w: WorkerId, j: JobId, row: Job) returns (s': State)
    requires Reachable(r, s) && w in s.workers && s.workers[w].phase == Claiming(row) && s.workers[w].job == j
    requires r.freshClaim ==> j in s.db.jobs && s.db.jobs[j].retries == row.retries
    requires row.retries < MAX_JOB_RETRIES && WriteClaim(s.db, j, row).Some?
    ensures Reachable(r, s') && Moved(s.(db := WriteClaim(s.db, j, row).value), s', w, Preflight(Bumped(row)))
  {
    s' := Next(r, s, Work(w, Claim(true)));
  }

  /** A claim that finds the attempts used up. */
  lemma Exhausts(r: Rules, s: State, w: WorkerId) returns (s': State)
    requires Reachable(r, s) && w in s.workers && s.workers[w].phase.Claiming? && (r.freshClaim ==> CountAsRead(s, w))
    requires s.workers[w].phase.row.retries >= MAX_JOB_RETRIES && WriteClaim(s.db, s.workers[w].job, s.workers[w].phase.row).Some?
    ensures Reachable(r, s')
    ensures var k := s.workers[w];
      Moved(s.(db := WriteClaim(s.db, k.job, k.phase.row).value), s', w, Poison(Bumped(k.phase.row)))
  {
    s' := Next(r, s, Work(w, Claim(true)));
  }

  lemma ReadsTarget(r: Rules, s: State, w: WorkerId) returns (s': State)
    requires Reachable(r, s) && w in s.workers && s.workers[w].phase.Poison?
    requires MirrorExhaustion(s.db, s.workers[w].job, s.workers[w].phase.row) == Updated
    ensures Reachable(r, s') && Moved(s, s', w, Mirroring(s.workers[w].phase.row))
  {
    s' := Next(r, s, Work(w, ReadTarget));
  }

  lemma PicksJob(r: Rules, s: State, j: JobId) returns (s': State)
    requires Reachable(r, s) && j in s.db.jobs && Watched(s.db, s.db.jobs[j])
    ensures Reachable(r, s') && s'.outputs == s.outputs && s'.queue == s.queue && s'.workers == s.workers
    ensures s'.db == s.db.(jobs := s.db.jobs[j := s.db.jobs[j].(stale := true)], picked := s.db.picked + {j})
  {
    s' := CmsActs(r, s, GoStale(j));
    s' := CmsActs(r, s', PickStalled(j));
  }

  lemma Dispatches(r: Rules, s: State, w: WorkerId) returns (s': State)
    requires Reachable(r, s) && w in s.workers && s.workers[w].phase.Preflight? && !CancelNow(s.db, s.workers[w].phase.row)
    ensures Reachable(r, s') && s'.db == s.db && s'.outputs == s.outputs && s'.queue == s.queue
    ensures s'.workers == s.workers[w := s.workers[w].(phase := Dispatched(s.workers[w].phase.row))]
  {
    s' := Next(r, s, Work(w, Dispatch));
  }

  lemma Stops(r: Rules, s: State, w: WorkerId) returns (s': State)
    requires Reachable(r, s) && w in s.workers && s.workers[w].phase.Returned?
    ensures Reachable(r, s') && s'.db == s.db && s'.outputs == s.outputs && s'.queue == s.queue
    ensures s'.workers == s.workers[w := s.workers[w].(
      phase := Finalizing(s.workers[w].phase.row, s.workers[w].phase.outcome), hb := Stopped, stop := true)]
  {
    s' := Next(r, s, Work(w, StopHeartbeat));
  }

  /** The finalize step, for a worker whose flags and outcome select branch `b`. */
  lemma Finishes(r: Rules, s: State, w: WorkerId, row: Job, b: Branch) returns (s': State)
    requires Reachable(r, s) && w in s.workers && s.workers[w].phase.Finalizing? && s.workers[w].phase.row == row
    requires FinalBranch(s.workers[w], s.workers[w].phase.outcome) == b
    requires b.Retry? ==> !RetryRefused(s.db, s.workers[w].job) && (r.retryHolds ==> Holds(s, s.workers[w]))
    requires (b.TimedOut? ==> !r.noTimeout) && !b.Success?
    ensures Reachable(r, s') && WorkEnabled(s, w, Finalize(true)) && s' == DoWork(s, w, Finalize(true))
    ensures s'.db == FinalWrite(s.db, s.workers[w].job, row, b) && s'.outputs == s.outputs && s'.queue == s.queue
    ensures s'.workers == s.workers[w := Advance(s.workers[w], if Deletes(b) then Deleting(b.TimedOut? || b.TerminalFailure?) else Exited)]
  {
    s' := Next(r, s, Work(w, Finalize(true)));
  }

  lemma Removes(r: Rules, s: State, w: WorkerId) returns (s': State)
    requires Reachable(r, s) && w in s.workers && s.workers[w].phase.Deleting? && Holds(s, s.workers[w])
    ensures Reachable(r, s') && s'.db == s.db && s'.outputs == s.outputs
    ensures s'.queue == s.queue.(messages := s.queue.messages - {s.workers[w].msg})
    ensures s'.workers == s.workers[w := Advance(s.workers[w], Exited)]
  {
    s' := Next(r, s, Work(w, DeleteMessage(true)));
  }

  lemma Signals(r: Rules, s: State, w: WorkerId, expired: bool) returns (s': State)
    requires Reachable(r, s) && w in s.workers && s.workers[w].phase.Live()
    ensures Reachable(r, s') && s'.db == s.db && s'.outputs == s.outputs && s'.queue == s.queue
    ensures s'.workers == s.workers[w := s.workers[w].(sigterm := true, stop := true, aged := expired || s.workers[w].aged)]
  {
    s' := s;
    if expired { s' := Next(r, s', GrowOld(w)); }
    s' := Next(r, s', Sigterm(w));
  }

  lemma CmsActs(r: Rules, s: State, c: CmsStep) returns (s': State)
    requires Reachable(r, s) && CmsEnabled(s, c) && Allowed(r, s, Cms(c))
    ensures Reachable(r, s') && s'.db == CmsDb(s.db, c) && s'.outputs == CmsOutputs(s.outputs, c) && s'.queue == s.queue && s'.workers == s.workers
  {
    s' := Next(r, s, Cms(c));
  }

  lemma Sends(r: Rules, s: State, j: JobId) returns (s': State)
    requires Reachable(r, s) && j in s.db.outbox
    ensures Reachable(r, s') && s'.db == s.db.(outbox := s.db.outbox - {j}) && s'.outputs == s.outputs
    ensures s'.queue == AddMessage(s.queue, j) && s'.workers == s.workers
  {
    s' := Next(r, s, Queueing(Send(j)));
  }

  /** A renewal under a stale receipt fails. */
  lemma LosesLease(r: Rules, s: State, w: WorkerId) returns (s': State)
    requires Reachable(r, s) && BeatEnabled(s, w, Renew(true)) && !Holds(s, s.workers[w])
    ensures Reachable(r, s') && s'.db == s.db && s'.outputs == s.outputs && s'.queue == s.queue
    ensures s'.workers == s.workers[w := s.workers[w].(leaseLost := true, stop := true, hb := Stopped)]
  {
    s' := Next(r, s, Beat(w, Renew(true)));
  }

  lemma Lapses(r: Rules, s: State, m: MsgId) returns (s': State)
    requires !r.leaseHeld && Reachable(r, s) && m in s.queue.messages
    ensures Reachable(r, s') && s'.db == s.db && s'.outputs == s.outputs && s'.workers == s.workers
    ensures s'.queue == s.queue.(messages := s.queue.messages[m := s.queue.messages[m].(visible := true)])
  {
    s' := Next(r, s, Queueing(Lapse(m)));
  }

  lemma Takes(r: Rules, s: State, w: WorkerId, m: MsgId) returns (s': State)
    requires Reachable(r, s) && w !in s.workers && m in s.queue.messages && s.queue.messages[m].visible
    ensures Reachable(r, s') && s'.db == s.db && s'.outputs == s.outputs && s'.queue == Lease(s.queue, m)
    ensures s'.workers == s.workers[w := Worker(s.queue.messages[m].job, m, s.queue.nextReceipt, Received, Looping, false,
                                                false, false, false, false, false)]
  {
    s' := Next(r, s, Receive(w, m));
  }

  // --------------------------------------------------------- common prefix

  /** One PENDING variant 0 of asset 9. */
  function Begin(source: Source): State {
    State(Db(map[], {}, 0, map[0 := VPending], {}, {}, map[0 := Origin(9, source)], map[], {}, map[]),
          Queue(map[], 0, 0), map[], {}, [], [], 0)
  }

  lemma BeginReachable(r: Rules, source: Source)
    ensures Reachable(r, Begin(source))
  {
    var run := Run([Begin(source)], []);
    assert IsRun(r, run) && run.states[|run.actions|] == Begin(source);
  }

  function Row(attempt: nat): Job {
    Job(VariantTranscode, 0, Processing, attempt, false, false)
  }

  /** Worker 0 in phase `p`, before anything has stopped it. */
  function At(p: Phase): Worker {
    Worker(0, 0, 1, p, Looping, false, false, false, false, false, false)
  }

  /** Worker 0 has claimed job 0 from message 0, and its encoder runs on variant 0. */
  predicate Encoding(s: State, source: Source) {
    s.db == Db(map[0 := Row(1)], {}, 1, map[0 := VProcessing], {}, {}, map[0 := Origin(9, source)], map[], {}, map[])
    && s.queue == Queue(map[0 := Message(0, 1, false)], 1, 2)
    && s.workers == map[0 := At(Working(Row(1)))]
    && s.outputs == {}
  }

  /** The transcode of variant 0 has been staged and sent. */
  lemma Queued(r: Rules, source: Source) returns (s: State)
    ensures Reachable(r, s)
    ensures s.db == Db(map[0 := Job(VariantTranscode, 0, Pending, 0, false, false)], {}, 1, map[0 := VPending], {}, {}, map[0 := Origin(9, source)], map[], {}, map[])
    ensures s.queue == Queue(map[0 := Message(0, 0, true)], 1, 1) && s.workers == map[] && s.outputs == {}
  {
    BeginReachable(r, source);
    s := CmsActs(r, Begin(source), Stage(VariantTranscode, 0));
    assert s.db.jobs == map[0 := Job(VariantTranscode, 0, Pending, 0, false, false)] && s.db.outbox == {0};
    s := Sends(r, s, 0);
  }

  lemma Claimed(r: Rules, source: Source) returns (s: State)
    ensures Reachable(r, s)
    ensures s.db == Db(map[0 := Row(1)], {}, 1, map[0 := VPending], {}, {}, map[0 := Origin(9, source)], map[], {}, map[])
    ensures s.queue == Queue(map[0 := Message(0, 1, false)], 1, 2)
    ensures s.workers == map[0 := At(Preflight(Row(1)))]
    ensures s.outputs == {}
  {
    s := Queued(r, source);
    s := Takes(r, s, 0, 0);
    s := Claims(r, s, 0);
  }

  lemma ToChecked(r: Rules, source: Source) returns (s: State)
    ensures Reachable(r, s) && s.queue == Queue(map[0 := Message(0, 1, false)], 1, 2)
    ensures s.db == Db(map[0 := Row(1)], {}, 1, map[0 := VPending], {}, {}, map[0 := Origin(9, source)], map[], {}, map[])
    ensures s.workers == map[0 := At(Checked(Row(1)))] && s.outputs == {}
  {
    s := Claimed(r, source);
    s := Dispatches(r, s, 0);
    assert s.workers == map[0 := At(Dispatched(Row(1)))];
    s := Checks(r, s, 0, Row(1));
  }

  lemma ToEncoding(r: Rules, source: Source) returns (s: State)
    ensures Reachable(r, s) && Encoding(s, source)
  {
    s := ToChecked(r, source);
    s := Starts(r, s, 0, Row(1));
    assert s.workers == map[0 := At(Working(Row(1)))];
  }

  /** Worker 0 publishes variant 0. */
  lemma ToPublished(r: Rules, source: Source) returns (s: State)
    ensures Reachable(r, s) && s.workers == map[0 := At(Published(Row(1)))] && s.queue == Queue(map[0 := Message(0, 1, false)], 1, 2)
    ensures s.db == Db(map[0 := Row(1)], {}, 1, map[0 := VReady], {}, {}, map[0 := Origin(9, source)], map[], {}, map[])
  {
    s := ToEncoded(r, source);
    s := Clears(r, s, 0, Row(1));
    assert s.workers == map[0 := At(Cleared(Row(1)))];
    s := Commits(r, s, 0, Row(1));
    assert s.workers == map[0 := At(Published(Row(1)))] && s.db.variants == map[0 := VReady];
  }

  /** Worker 0 has encoded, and the monitor has picked its job. */
  lemma ToPicked(r: Rules, source: Source) returns (s: State)
    ensures Reachable(r, s) && s.queue == Queue(map[0 := Message(0, 1, false)], 1, 2)
    ensures s.workers == map[0 := At(Encoded(Row(1)))] && s.outputs == {0}
    ensures s.db == Db(map[0 := Row(1).(stale := true)], {}, 1, map[0 := VProcessing], {}, {}, map[0 := Origin(9, source)], map[], {0}, map[])
  {
    s := ToEncoded(r, source);
    s := PicksJob(r, s, 0);
    assert s.db.jobs == map[0 := Row(1).(stale := true)] && s.db.picked == {0};
  }

  lemma ToEncoded(r: Rules, source: Source) returns (s: State)
    ensures Reachable(r, s) && s.queue == Queue(map[0 := Message(0, 1, false)], 1, 2)
    ensures s.workers == map[0 := At(Encoded(Row(1)))] && s.outputs == {0}
    ensures s.db == Db(map[0 := Row(1)], {}, 1, map[0 := VProcessing], {}, {}, map[0 := Origin(9, source)], map[], {}, map[])
  {
    s := ToEncoding(r, source);
    s := Encodes(r, s, 0, Row(1));
  }

  /** The monitor takes job 0 away from worker 0 and stages job 1. */
  lemma ToEvicted(r: Rules, source: Source) returns (s: State)
    ensures Reachable(r, s)
    ensures s.db == Db(map[0 := Row(1).(status := Failed, stale := true), 1 := Job(VariantTranscode, 0, Pending, 0, false, false)],
                       {1}, 2, map[0 := VPending], {}, {}, map[0 := Origin(9, source)], map[], {}, map[])
    ensures s.queue == Queue(map[0 := Message(0, 1, false)], 1, 2)
    ensures s.workers == map[0 := At(Encoded(Row(1)))]
    ensures s.outputs == {0}
  {
    s := ToPicked(r, source);
    s := CmsActs(r, s, RecoverStalled(0));
    RecoveredRows(s.db, source);
  }

  lemma RecoveredRows(db: Db, source: Source)
    requires db == Recover(Db(map[0 := Row(1).(stale := true)], {}, 1, map[0 := VProcessing], {}, {}, map[0 := Origin(9, source)], map[], {0}, map[]), 0)
    ensures db.jobs == map[0 := Row(1).(status := Failed, stale := true), 1 := Job(VariantTranscode, 0, Pending, 0, false, false)]
    ensures db.outbox == {1} && db.nextJob == 2 && db.variants == map[0 := VPending] && db.picked == {}
  {
  }

  // ------------------------------------------------------- READY overwritten

  /** A replica that has already published is timed out: READY becomes FAILED. */
  lemma TimeoutOverwritesReady() returns (s: State, s': State)
    ensures Reachable(STRICT.(noTimeout := false), s') && ReadyIn(s.db, 0) && 0 in s'.db.variants && s'.db.variants[0] == VFailed
    ensures WorkEnabled(s, 0, Finalize(true)) && s' == DoWork(s, 0, Finalize(true)) && s.workers[0].phase.outcome == Succeeded
  {
    var r := STRICT.(noTimeout := false);
    s := ToReadBack(r, Video);
    s := Signals(r, s, 0, true);
    assert s.workers[0].phase == Returned(Row(1), Succeeded);
    s := Stops(r, s, 0);
    assert s.workers[0].phase == Finalizing(Row(1), Succeeded) && s.workers[0].sigterm && s.workers[0].aged;
    s' := Finishes(r, s, 0, Row(1), TimedOut);
  }

  /** The storage sync fails after the commit: READY becomes FAILED. */
  lemma StoreFailureOverwritesReady() returns (s: State, s': State)
    ensures Reachable(STRICT.(storeOk := false), s') && ReadyIn(s.db, 0) && 0 in s'.db.variants && s'.db.variants[0] == VFailed
    ensures WorkEnabled(s, 0, Handle(StoreFails(false))) && s' == DoWork(s, 0, Handle(StoreFails(false)))
  {
    var r := STRICT.(storeOk := false);
    s := ToPublished(r, Video);
    s' := Next(r, s, Work(0, Handle(StoreFails(false))));
  }

  /** The monitor has picked a job while its variant was PROCESSING; the one worker there is publishes,
      and then the monitor's write turns READY into PENDING. */
  lemma MonitorOverwritesReady() returns (s: State, s': State)
    ensures Reachable(STRICT.(freshWrites := false), s') && ReadyIn(s.db, 0) && 0 in s'.db.variants && s'.db.variants[0] == VPending
    ensures s.workers == map[0 := At(Published(Row(1)))]
    ensures CmsEnabled(s, RecoverStalled(0)) && s' == Do(s, Cms(RecoverStalled(0)))
  {
    var r := STRICT.(freshWrites := false);
    s := ToPickedReady(r);
    s' := Next(r, s, Cms(RecoverStalled(0)));
    assert s'.db == Recover(s.db, 0);
  }

  lemma ToPickedReady(r: Rules) returns (s: State)
    ensures Reachable(r, s) && s.workers == map[0 := At(Published(Row(1)))]
    ensures s.db == Db(map[0 := Row(1).(stale := true)], {}, 1, map[0 := VReady], {}, {}, map[0 := Origin(9, Video)], map[], {0}, map[])
  {
    s := ToPickedCleared(r, Video);
    s := Commits(r, s, 0, Row(1));
    assert s.db.variants == map[0 := VReady];
  }

  lemma ToPickedCleared(r: Rules, source: Source) returns (s: State)
    ensures Reachable(r, s) && s.workers == map[0 := At(Cleared(Row(1)))]
    ensures s.db == Db(map[0 := Row(1).(stale := true)], {}, 1, map[0 := VProcessing], {}, {}, map[0 := Origin(9, source)], map[], {0}, map[])
  {
    s := ToPicked(r, source);
    s := Clears(r, s, 0, Row(1));
  }

  /** A fourth worker finds the attempts of a thumbnail's job used up and its variant PROCESSING; the
      third, whose lease has lapsed, publishes; and then the mirror's write turns READY into FAILED. */
  lemma MirrorOverwritesReady() returns (s: State, s': State)
    ensures Reachable(STRICT.(leaseHeld := false, freshWrites := false), s')
    ensures ReadyIn(s.db, 0) && 0 in s'.db.variants && s'.db.variants[0] == VFailed
    ensures WorkEnabled(s, 3, MirrorFailure(true)) && s' == DoWork(s, 3, MirrorFailure(true))
  {
    var r := STRICT.(leaseHeld := false, freshWrites := false);
    s := ToMirroring(r);
    s := Commits(r, s, 2, Row(3));
    assert s.workers[3].phase.Mirroring? && s.workers[3].phase.row.kind == VariantTranscode && s.workers[3].phase.row.target == 0;
    s' := Next(r, s, Work(3, MirrorFailure(true)));
  }

  /** One variant of the given status and source, whose job has been claimed `n` times. */
  predicate ClaimedTimes(s: State, n: nat, status: VariantStatus, source: Source) {
    s.db == Db(map[0 := Row(n)], {}, 1, map[0 := status], {}, {}, map[0 := Origin(9, source)], map[], {}, map[])
    && 0 in s.queue.messages && s.queue.messages[0].job == 0
  }

  /** The lease lapses, and the next worker claims the job. */
  lemma Reclaims(r: Rules, s: State, n: nat) returns (s': State)
    requires !r.leaseHeld && Reachable(r, s) && ClaimedTimes(s, n, VPending, Composed) && n < MAX_JOB_RETRIES && n !in s.workers
    ensures Reachable(r, s') && ClaimedTimes(s', n + 1, VPending, Composed) && s'.outputs == s.outputs
    ensures s'.workers.Keys == s.workers.Keys + {n} && (forall x :: x in s.workers ==> s'.workers[x] == s.workers[x])
    ensures s'.workers[n].phase == Preflight(Row(n + 1)) && s'.workers[n].job == 0
  {
    s' := TakenAgain(r, s, n);
    s' := Claims(r, s', n);
    assert s'.db.jobs == map[0 := Row(n + 1)];
  }

  lemma TakenAgain(r: Rules, s: State, w: WorkerId) returns (s': State)
    requires !r.leaseHeld && Reachable(r, s) && w !in s.workers && 0 in s.queue.messages && s.queue.messages[0].job == 0
    ensures Reachable(r, s') && s'.db == s.db && s'.outputs == s.outputs
    ensures 0 in s'.queue.messages && s'.queue.messages[0].job == 0
    ensures s'.workers.Keys == s.workers.Keys + {w} && (forall x :: x in s.workers ==> s'.workers[x] == s.workers[x])
    ensures s'.workers[w].phase == Received && s'.workers[w].job == 0
  {
    s' := Lapses(r, s, 0);
    s' := Takes(r, s', w, 0);
  }

  /** The third worker has encoded a thumbnail and is about to publish it. */
  lemma ToThird(r: Rules) returns (s: State)
    requires !r.leaseHeld
    ensures Reachable(r, s) && ClaimedTimes(s, 3, VProcessing, Composed) && s.workers.Keys == {0, 1, 2}
    ensures s.workers[2].phase == Cleared(Row(3)) && s.workers[2].job == 0
  {
    s := ToThirdWorking(r);
    s := Encodes(r, s, 2, Row(3));
    s := Clears(r, s, 2, Row(3));
  }

  lemma ToThirdWorking(r: Rules) returns (s: State)
    requires !r.leaseHeld
    ensures Reachable(r, s) && ClaimedTimes(s, 3, VProcessing, Composed) && s.workers.Keys == {0, 1, 2}
    ensures s.workers[2].phase == Working(Row(3)) && s.workers[2].job == 0
  {
    s := ToThirdChecked(r);
    s := Starts(r, s, 2, Row(3));
    assert s.db.variants == map[0 := VProcessing];
  }

  lemma ToThirdChecked(r: Rules) returns (s: State)
    requires !r.leaseHeld
    ensures Reachable(r, s) && ClaimedTimes(s, 3, VPending, Composed) && s.workers.Keys == {0, 1, 2}
    ensures s.workers[2].phase == Checked(Row(3)) && s.workers[2].job == 0
  {
    s := ToThirdClaim(r);
    s := Dispatches(r, s, 2);
    assert s.workers[2].phase == Dispatched(Row(3)) && s.workers[0].phase == Preflight(Row(1)) && s.workers[1].phase == Preflight(Row(2));
    s := Checks(r, s, 2, Row(3));
  }

  lemma ToThirdClaim(r: Rules) returns (s: State)
    requires !r.leaseHeld
    ensures Reachable(r, s) && ClaimedTimes(s, 3, VPending, Composed) && s.workers.Keys == {0, 1, 2}
    ensures s.workers[0].phase == Preflight(Row(1)) && s.workers[1].phase == Preflight(Row(2))
    ensures s.workers[2].phase == Preflight(Row(3)) && s.workers[2].job == 0
  {
    s := Claimed(r, Composed);
    s := Reclaims(r, s, 1);
    s := Reclaims(r, s, 2);
  }

  /** The fourth has read the exhausted job and its target. */
  lemma ToMirroring(r: Rules) returns (s: State)
    requires !r.leaseHeld
    ensures Reachable(r, s) && s.workers.Keys == {0, 1, 2, 3} && s.db.variants == map[0 := VProcessing]
    ensures s.db.deletedAssets == {} && s.db.origins == map[0 := Origin(9, Composed)]
    ensures s.workers[2].phase == Cleared(Row(3)) && s.workers[2].job == 0
    ensures s.workers[3].phase == Mirroring(Row(4).(status := Failed))
  {
    s := ToPoison(r);
    s := ReadsTarget(r, s, 3);
  }

  lemma ToPoison(r: Rules) returns (s: State)
    requires !r.leaseHeld
    ensures Reachable(r, s) && s.workers.Keys == {0, 1, 2, 3} && s.workers[2].phase == Cleared(Row(3)) && s.workers[2].job == 0
    ensures s.db == Db(map[0 := Row(4).(status := Failed)], {}, 1, map[0 := VProcessing], {}, {}, map[0 := Origin(9, Composed)], map[], {}, map[])
    ensures s.workers[3].phase == Poison(Row(4).(status := Failed)) && s.workers[3].job == 0
  {
    s := ToFourth(r);
    s := Exhausts(r, s, 3);
    assert s.db.jobs == map[0 := Row(4).(status := Failed)];
  }

  lemma ToFourth(r: Rules) returns (s: State)
    requires !r.leaseHeld
    ensures Reachable(r, s) && ClaimedTimes(s, 3, VProcessing, Composed) && s.workers.Keys == {0, 1, 2, 3}
    ensures s.workers[2].phase == Cleared(Row(3)) && s.workers[2].job == 0
    ensures s.workers[3].phase == Claiming(Row(3)) && s.workers[3].job == 0
  {
    s := ToThird(r);
    s := TakenAgain(r, s, 3);
    s := ReadsJob(r, s, 3);
  }

  // -------------------------------------------------------- DONE overwrites

  /** `mark_done` has read a job that is not terminal; a soft delete cancels it; and then it is DONE. */
  lemma DoneOverwritesCancelled() returns (s: State, s': State)
    ensures Reachable(STRICT, s') && 0 in s.db.jobs && s.db.jobs[0].status == Cancelled && 0 in s'.db.jobs && s'.db.jobs[0].status == Done
    ensures WorkEnabled(s, 0, Mark(true)) && s' == DoWork(s, 0, Mark(true))
  {
    s := ToMarking(STRICT, Video);
    s := CmsActs(STRICT, s, DeleteAsset(9));
    assert s.db.jobs[0].status == Cancelled;
    s' := Marks(STRICT, s, 0);
  }

  /** The guard of `mark_done` has let the write through; it loses a terminal status if and only if the job
      has become FAILED or CANCELLED since the guard read it. */
  lemma DoneOverwritesIff(s: State, w: WorkerId)
    requires WorkEnabled(s, w, Mark(true)) && s.workers[w].job in s.db.jobs
    ensures var j := s.workers[w].job; var s' := DoWork(s, w, Mark(true));
      j in s'.db.jobs
      && (OwnerLost(s.db, j) && s'.db.jobs[j].status != s.db.jobs[j].status
          <==> s.db.jobs[j].status == Failed || s.db.jobs[j].status == Cancelled)
  {
  }

  lemma Marks(r: Rules, s: State, w: WorkerId) returns (s': State)
    requires Reachable(r, s) && w in s.workers && s.workers[w].phase.Marking? && s.workers[w].job in s.db.jobs
    ensures Reachable(r, s') && WorkEnabled(s, w, Mark(true)) && s' == DoWork(s, w, Mark(true))
    ensures s'.db == SetStatus(s.db, s.workers[w].job, Done) && s'.outputs == s.outputs && s'.queue == s.queue
    ensures s'.workers == s.workers[w := Advance(s.workers[w], Deleting(false))]
  {
    s' := Next(r, s, Work(w, Mark(true)));
  }

  lemma ToMarking(r: Rules, source: Source) returns (s: State)
    ensures Reachable(r, s) && s.queue == Queue(map[0 := Message(0, 1, false)], 1, 2) && s.workers.Keys == {0}
    ensures s.db == Db(map[0 := Row(1)], {}, 1, map[0 := VReady], {}, {}, map[0 := Origin(9, source)], map[], {}, map[])
    ensures s.workers[0].phase == Marking(Row(1)) && s.workers[0].job == 0 && s.workers[0].msg == 0 && s.workers[0].receipt == 1
  {
    s := ToReadBack(r, source);
    s := Stops(r, s, 0);
    s := ReadsDone(r, s, 0);
  }

  lemma ReadsDone(r: Rules, s: State, w: WorkerId) returns (s': State)
    requires Reachable(r, s) && w in s.workers && s.workers[w].phase.Finalizing? && !OwnerLost(s.db, s.workers[w].job)
    requires FinalBranch(s.workers[w], s.workers[w].phase.outcome).Success?
    ensures Reachable(r, s') && Moved(s, s', w, Marking(s.workers[w].phase.row))
  {
    s' := Next(r, s, Work(w, Finalize(true)));
  }

  /** Worker 0's handler has published and reported success. */
  lemma ToReadBack(r: Rules, source: Source) returns (s: State)
    ensures Reachable(r, s) && s.workers == map[0 := At(Returned(Row(1), Succeeded))] && s.queue == Queue(map[0 := Message(0, 1, false)], 1, 2)
    ensures s.db == Db(map[0 := Row(1)], {}, 1, map[0 := VReady], {}, {}, map[0 := Origin(9, source)], map[], {}, map[])
  {
    s := ToPublished(r, source);
    s := Stores(r, s, 0, Row(1));
    assert s.workers == map[0 := At(Settled(Row(1)))];
    s := ReadsBack(r, s, 0, Row(1));
  }

  // ------------------------------------------------------- ownership skipped

  /** A composed or a webpage thumbnail is published under a job that the monitor has already failed. */
  lemma UnguardedSkipsOwnership(r: Rules, source: Source) returns (s: State)
    requires !source.Guarded()
    ensures Reachable(r, s) && Publishes(s, Work(0, Handle(Commit)), 0) && OriginOf(s.db, 0).source == source
    ensures Allowed(r, s, Work(0, Handle(Commit))) && !Owned(s, 0)
    ensures s.workers[0].job in s.db.jobs && !s.db.jobs[s.workers[0].job].status.Active() && 1 in s.db.jobs && ActiveFor(s.db.jobs[1], VariantTranscode, 0)
  {
    s := ToEvicted(r, source);
    s := Clears(r, s, 0, Row(1));
  }

  /** Worker `w` publishes under a job that is active for its variant. */
  predicate Owned(s: State, w: WorkerId) {
    w in s.workers && s.workers[w].phase.HasRow() && s.workers[w].job in s.db.jobs
    && ActiveFor(s.db.jobs[s.workers[w].job], VariantTranscode, s.workers[w].phase.row.target)
  }

  /** In every run, whoever publishes a variant of this source owns its job. */
  ghost predicate AlwaysOwned(r: Rules, source: Source) {
    forall run, i: nat, v ::
      IsRun(r, run) && i < |run.actions| && Publishes(run.states[i], run.actions[i], v) && OriginOf(run.states[i].db, v).source == source
      ==> Owned(run.states[i], run.actions[i].w)
  }

  /** Theorem: whatever other rules hold, the publications of a source are always made under the
      variant's own active job if and only if the source is neither a composed nor a webpage thumbnail, and
      guard and commit are one step. */
  lemma OwnedIffGuarded(r: Rules, source: Source)
    ensures AlwaysOwned(r, source) <==> source != Composed && source != Webpage && r.atomicPublish
  {
    if source.Guarded() && r.atomicPublish {
      forall run, i: nat, v | IsRun(r, run) && i < |run.actions| && Publishes(run.states[i], run.actions[i], v)
                              && OriginOf(run.states[i].db, v).source == source
        ensures Owned(run.states[i], run.actions[i].w)
      {
        PublishUnderOnlyActiveJob(r, run, i, v);
      }
    } else if source.Guarded() {
      var s := GuardWindow(r, source);
      NotAlwaysOwned(r, source, s);
    } else {
      var s := UnguardedSkipsOwnership(r, source);
      NotAlwaysOwned(r, source, s);
    }
  }

  lemma NotAlwaysOwned(r: Rules, source: Source, s: State)
    requires Reachable(r, s) && Publishes(s, Work(0, Handle(Commit)), 0) && OriginOf(s.db, 0).source == source
    requires Allowed(r, s, Work(0, Handle(Commit))) && !Owned(s, 0)
    ensures !AlwaysOwned(r, source)
  {
    var run := Extended(r, s, Work(0, Handle(Commit)));
    assert Publishes(run.states[|run.actions| - 1], run.actions[|run.actions| - 1], 0);
  }

  /** A run that ends with a given step. */
  lemma Extended(r: Rules, s: State, a: Action) returns (run: Run)
    requires Reachable(r, s) && Enabled(s, a) && Allowed(r, s, a)
    ensures IsRun(r, run) && |run.actions| > 0 && run.states[|run.actions| - 1] == s && run.actions[|run.actions| - 1] == a
    ensures run.states[|run.actions|] == Do(s, a)
  {
    var before :| IsRun(r, before) && before.states[|before.actions|] == s;
    run := Run(before.states + [Do(s, a)], before.actions + [a]);
    forall i | 0 <= i < |run.actions| ensures StepsAt(r, run, i) {
      if i < |before.actions| { assert StepsAt(r, before, i); }
    }
  }

  /** With a window between guard and commit, a variant of any source is published under a failed job. */
  lemma GuardWindow(r: Rules, source: Source) returns (s: State)
    requires !r.atomicPublish
    ensures Reachable(r, s) && Publishes(s, Work(0, Handle(Commit)), 0) && OriginOf(s.db, 0).source == source
    ensures Allowed(r, s, Work(0, Handle(Commit))) && !Owned(s, 0)
    ensures 0 in s.db.jobs && s.workers[0].job == 0 && !s.db.jobs[0].status.Active()
  {
    s := ToPickedCleared(r, source);
    s := CmsActs(r, s, RecoverStalled(0));
    RecoveredRows(s.db, source);
  }

  /** The window is harmless just when the guards would still pass at the commit. */
  lemma CommitOwnedIff(s: State, w: WorkerId)
    requires Base(s) && WorkEnabled(s, w, Handle(Commit)) && Guarded(s.db, s.workers[w].phase.row.target)
    ensures !OwnerLost(s.db, s.workers[w].job) <==>
      s.workers[w].job in s.db.jobs && ActiveFor(s.db.jobs[s.workers[w].job], VariantTranscode, s.workers[w].phase.row.target)
  {
    assert WorkerOk(s.db, s.queue, s.workers[w]);
  }

  // ---------------------------------------------------------- revived jobs

  /** Right after giving up on lost ownership, the worker sets its failed job back to PENDING. */
  lemma RetryRevives() returns (s: State, s': State)
    ensures Reachable(STRICT, s') && 0 in s.db.jobs && s.db.jobs[0].status == Failed && 0 in s'.db.jobs && s'.db.jobs[0].status == Pending
    ensures WorkEnabled(s, 0, Finalize(true)) && s' == DoWork(s, 0, Finalize(true))
  {
    s := ToDisowned();
    s := Stops(STRICT, s, 0);
    assert s.workers[0].phase == Finalizing(Row(1), NotDone) && Holds(s, s.workers[0]);
    s' := Finishes(STRICT, s, 0, Row(1), Retry);
  }

  /** Worker 0 has given up on lost ownership, and the replacement has been cancelled with the asset. */
  lemma ToDisowned() returns (s: State)
    ensures Reachable(STRICT, s) && s.workers == map[0 := At(Returned(Row(1), NotDone))]
    ensures s.queue == Queue(map[0 := Message(0, 1, false)], 1, 2)
    ensures s.db.jobs.Keys == {0, 1} && s.db.jobs[0].status == Failed && s.db.jobs[1].status == Cancelled
  {
    s := ToAborted();
    s := CmsActs(STRICT, s, DeleteAsset(9));
  }

  /** Worker 0 has given up on lost ownership. */
  lemma ToAborted() returns (s: State)
    ensures Reachable(STRICT, s) && s.workers == map[0 := At(Returned(Row(1), NotDone))]
    ensures s.queue == Queue(map[0 := Message(0, 1, false)], 1, 2)
    ensures s.db == Db(map[0 := Row(1).(status := Failed, stale := true), 1 := Job(VariantTranscode, 0, Pending, 0, false, false)],
                       {1}, 2, map[0 := VPending], {}, {}, map[0 := Origin(9, Video)], map[], {}, map[])
  {
    s := ToEvicted(STRICT, Video);
    s := Aborts(STRICT, s, 0, Row(1));
    assert s.workers == map[0 := At(Settled(Row(1)))];
    s := ReadsBack(STRICT, s, 0, Row(1));
  }

  /** The retry branch revives a terminal transcode job if and only if no job is active for its variant:
      while the replacement runs, the index refuses the write. */
  lemma RetryRevivesIff(s: State, w: WorkerId)
    requires Base(s) && WorkEnabled(s, w, Finalize(true))
    requires FinalBranch(s.workers[w], s.workers[w].phase.outcome).Retry?
    requires s.workers[w].job in s.db.jobs && !s.db.jobs[s.workers[w].job].status.Active()
    requires s.workers[w].phase.row.kind == VariantTranscode
    ensures DoWork(s, w, Finalize(true)).db.jobs[s.workers[w].job].status == Pending
      <==> forall i :: i in s.db.jobs ==> !ActiveFor(s.db.jobs[i], VariantTranscode, s.workers[w].phase.row.target)
  {
    assert WorkerOk(s.db, s.queue, s.workers[w]);
  }

  // ------------------------------------------------- writes without a lease

  /** A worker whose lease another has taken over still fails the job, because SIGTERM outranks it. */
  lemma SigtermOutranksLease() returns (s: State)
    ensures Reachable(STRICT.(leaseHeld := false, noTimeout := false), s)
    ensures 1 in s.workers && Holds(s, s.workers[1]) && s.workers[1].job == 0 && s.workers[1].phase.Preflight?
    ensures 0 in s.workers && s.workers[0].leaseLost && 0 in s.db.jobs && s.db.jobs[0].status == Failed
  {
    var r := STRICT.(leaseHeld := false, noTimeout := false);
    s := ToSignalled(r);
    s := Stops(r, s, 0);
    assert s.workers[0].phase == Finalizing(Row(1), NotDone) && s.workers[0].leaseLost;
    s := Finishes(r, s, 0, Row(1), TimedOut);
  }

  /** Worker 0 has noticed that its lease is gone, and an old replica is being shut down. */
  lemma ToSignalled(r: Rules) returns (s: State)
    requires !r.leaseHeld
    ensures Reachable(r, s) && s.db.jobs == map[0 := Row(2)] && s.db.variants == map[0 := VProcessing]
    ensures s.queue == Queue(map[0 := Message(0, 2, false)], 1, 3) && s.workers.Keys == {0, 1}
    ensures s.workers[1] == Worker(0, 0, 2, Preflight(Row(2)), Looping, false, false, false, false, false, false)
    ensures s.workers[0].phase == Returned(Row(1), NotDone) && s.workers[0].job == 0
    ensures s.workers[0].leaseLost && s.workers[0].aged && s.workers[0].sigterm
  {
    s := ToReclaimed(r);
    s := LosesLease(r, s, 0);
    s := Signals(r, s, 0, true);
    assert s.workers[0].phase == Working(Row(1)) && s.workers[0].leaseLost;
    s := Raises(r, s, 0, Row(1));
  }

  /** A retry write without the current receipt leaves a PENDING job that nothing carries. */
  lemma StaleRetryLosesJob() returns (s: State)
    ensures Reachable(STRICT.(leaseHeld := false, retryHolds := false), s)
    ensures 0 in s.db.jobs && s.db.jobs[0].status == Pending && !Carried(s, 0)
  {
    var r := STRICT.(leaseHeld := false, retryHolds := false);
    s := ToMessageGone(r);
    s := Raises(r, s, 0, Row(1));
    assert s.workers[0] == At(Returned(Row(1), NotDone));
    s := Stops(r, s, 0);
    assert s.workers[0].phase == Finalizing(Row(1), NotDone);
    s := Finishes(r, s, 0, Row(1), Retry);
  }

  /** Worker 1 is shut down and removes the message while worker 0 still works. */
  lemma ToMessageGone(r: Rules) returns (s: State)
    requires !r.leaseHeld
    ensures Reachable(r, s) && s.queue.messages == map[] && 0 in s.workers && s.workers[0] == At(Working(Row(1)))
    ensures s.db.jobs == map[0 := Row(2)] && s.db.outbox == {}
  {
    s := ToShutDown(r);
    s := Stops(r, s, 1);
    assert s.workers[1].phase == Finalizing(Row(2), NotDone) && s.workers[0] == At(Working(Row(1)));
    s := Finishes(r, s, 1, Row(2), Interrupted);
    assert s.workers[1].phase.Deleting? && Holds(s, s.workers[1]) && s.workers[0] == At(Working(Row(1)));
    s := Removes(r, s, 1);
  }

  /** Worker 1's handler has raised, and its replica is being shut down. */
  lemma ToShutDown(r: Rules) returns (s: State)
    requires !r.leaseHeld
    ensures Reachable(r, s) && s.queue == Queue(map[0 := Message(0, 2, false)], 1, 3) && s.db.jobs == map[0 := Row(2)] && s.db.outbox == {}
    ensures s.workers == map[0 := At(Working(Row(1))),
      1 := Worker(0, 0, 2, Returned(Row(2), NotDone), Looping, true, true, false, false, false, false)]
  {
    s := ToReclaimed(r);
    s := Dispatches(r, s, 1);
    assert s.workers[1].phase == Dispatched(Row(2)) && s.workers[0] == At(Working(Row(1)));
    s := Raises(r, s, 1, Row(2));
    assert s.workers[1].phase == Returned(Row(2), NotDone) && s.workers[0] == At(Working(Row(1)));
    s := Signals(r, s, 1, false);
  }

  /** The lease of worker 0 lapses unnoticed, and worker 1 claims the same job. */
  lemma ToReclaimed(r: Rules) returns (s: State)
    requires !r.leaseHeld
    ensures Reachable(r, s) && s.outputs == {}
    ensures s.db == Db(map[0 := Row(2)], {}, 1, map[0 := VProcessing], {}, {}, map[0 := Origin(9, Video)], map[], {}, map[])
    ensures s.queue == Queue(map[0 := Message(0, 2, false)], 1, 3)
    ensures s.workers == map[0 := At(Working(Row(1))),
      1 := Worker(0, 0, 2, Preflight(Row(2)), Looping, false, false, false, false, false, false)]
  {
    s := ToEncoding(r, Video);
    s := Lapses(r, s, 0);
    assert s.queue == Queue(map[0 := Message(0, 1, true)], 1, 2);
    s := Takes(r, s, 1, 0);
    assert s.queue == Queue(map[0 := Message(0, 2, false)], 1, 3);
    s := Claims(r, s, 1);
    assert s.db.jobs == map[0 := Row(2)];
  }

  // ----------------------------------------------------------- output files

  /** The monitor has replaced job 0, and worker 1 has claimed the replacement. */
  lemma ToTakenOver(r: Rules) returns (s: State)
    ensures Reachable(r, s) && s.outputs == {0}
    ensures s.workers == map[0 := At(Encoded(Row(1))), 1 := Second(Preflight(Row(1)))]
    ensures s.db == Db(map[0 := Row(1).(status := Failed, stale := true), 1 := Row(1)], {}, 2, map[0 := VPending], {}, {},
                       map[0 := Origin(9, Video)], map[], {}, map[])
  {
    s := ToReceived(r);
    s := Claims(r, s, 1);
    assert s.db.jobs == map[0 := Row(1).(status := Failed, stale := true), 1 := Row(1)];
  }

  /** Worker 1 has received the replacement's message. */
  lemma ToReceived(r: Rules) returns (s: State)
    ensures Reachable(r, s) && s.outputs == {0}
    ensures s.workers == map[0 := At(Encoded(Row(1))), 1 := Second(Received)]
    ensures s.db == Db(map[0 := Row(1).(status := Failed, stale := true), 1 := Job(VariantTranscode, 0, Pending, 0, false, false)],
                       {}, 2, map[0 := VPending], {}, {}, map[0 := Origin(9, Video)], map[], {}, map[])
  {
    s := ToEvicted(r, Video);
    s := Sends(r, s, 1);
    assert s.queue == Queue(map[0 := Message(0, 1, false), 1 := Message(1, 2, true)], 2, 3);
    s := Takes(r, s, 1, 1);
  }

  /** Worker 1 has started on the variant. */
  lemma ToRestarted(r: Rules) returns (s: State)
    requires !r.solo
    ensures Reachable(r, s) && s.outputs == {0}
    ensures s.workers == map[0 := At(Encoded(Row(1))), 1 := Second(Working(Row(1)))]
    ensures s.db == Db(map[0 := Row(1).(status := Failed, stale := true), 1 := Row(1)], {}, 2, map[0 := VProcessing], {}, {},
                       map[0 := Origin(9, Video)], map[], {}, map[])
  {
    s := ToTakenOver(r);
    s := Dispatches(r, s, 1);
    assert s.workers == map[0 := At(Encoded(Row(1))), 1 := Second(Dispatched(Row(1)))];
    s := Checks(r, s, 1, Row(1));
    assert s.workers == map[0 := At(Encoded(Row(1))), 1 := Second(Checked(Row(1)))];
    s := Starts(r, s, 1, Row(1));
    assert s.workers == map[0 := At(Encoded(Row(1))), 1 := Second(Working(Row(1)))];
  }

  /** Worker 1 goes on to publish. */
  lemma ToReplaced(r: Rules) returns (s: State)
    requires !r.solo
    ensures Reachable(r, s) && ReadyIn(s.db, 0) && s.outputs == {0}
    ensures s.db.deletedAssets == {} && s.db.origins == map[0 := Origin(9, Video)]
    ensures 0 in s.db.jobs && s.db.jobs[0].status == Failed
    ensures 0 in s.workers && s.workers[0] == At(Encoded(Row(1)))
  {
    s := ToRestarted(r);
    s := Encodes(r, s, 1, Row(1));
    assert s.workers[1] == Second(Encoded(Row(1))) && s.workers[0] == At(Encoded(Row(1))) && s.outputs == {0};
    s := Clears(r, s, 1, Row(1));
    assert s.workers[1] == Second(Cleared(Row(1))) && s.workers[0] == At(Encoded(Row(1)));
    s := Commits(r, s, 1, Row(1));
  }

  /** Worker 1, holding message 1 of job 1. */
  function Second(p: Phase): Worker {
    Worker(1, 1, 3, p, Looping, false, false, false, false, false, false)
  }

  /** The evicted worker then unlinks the file the replacement has published. */
  lemma AbortUnlinksPublished() returns (s: State)
    ensures Reachable(STRICT.(solo := false), s) && ReadyIn(s.db, 0) && 0 !in s.outputs
  {
    s := ToReplaced(STRICT.(solo := false));
    s := Aborts(STRICT.(solo := false), s, 0, Row(1));
  }

  // ---------------------------------------------------------- stranded jobs

  /** A shutdown kills a thumbnail's encoder and the handler records a failure: the job is left
      PROCESSING, its message goes, and nothing will ever pick it up. */
  lemma ShutdownStrands() returns (s: State)
    ensures Reachable(STRICT, s) && Base(s) && Stranded(s, 0)
  {
    s := ToUnwound();
    s := Stops(STRICT, s, 0);
    assert s.workers[0].phase == Finalizing(Row(1), NotDone) && s.workers[0].sigterm && !s.workers[0].aged;
    s := Finishes(STRICT, s, 0, Row(1), Interrupted);
    assert s.workers[0].phase.Deleting? && Holds(s, s.workers[0]);
    s := Removes(STRICT, s, 0);
    ReachableBase(STRICT, s);
  }

  /** SIGTERM has killed the encoder, and the handler has recorded a failure. */
  lemma ToUnwound() returns (s: State)
    ensures Reachable(STRICT, s) && s.queue == Queue(map[0 := Message(0, 1, false)], 1, 2)
    ensures s.workers == map[0 := At(Returned(Row(1), NotDone)).(sigterm := true, stop := true)]
    ensures s.db == Db(map[0 := Row(1)], {}, 1, map[0 := VFailed], {}, {}, map[0 := Origin(9, Video)], map[], {}, map[])
  {
    s := ToEncoding(STRICT, Video);
    s := Signals(STRICT, s, 0, false);
    assert s.workers == map[0 := At(Working(Row(1))).(sigterm := true, stop := true)];
    s := Fails(STRICT, s, 0, Row(1));
    assert s.workers == map[0 := At(Settled(Row(1))).(sigterm := true, stop := true)];
    s := ReadsBack(STRICT, s, 0, Row(1));
  }

  lemma ReachableBase(r: Rules, s: State)
    requires Reachable(r, s)
    ensures Base(s)
  {
    var run :| IsRun(r, run) && run.states[|run.actions|] == s;
    BaseHolds(r, run, |run.actions|);
  }

  /** The same happens to a stream capture at any time: no sweep looks at captures. */
  lemma ShutdownStrandsCapture() returns (s: State)
    ensures Reachable(STRICT, s) && Base(s) && Stranded(s, 0) && s.db.jobs[0].kind == StreamCapture
  {
    s := ToCaptureStopped();
    s := Stops(STRICT, s, 0);
    assert s.workers[0].phase == Finalizing(CAPTURE, NotDone) && s.workers[0].sigterm && !s.workers[0].aged;
    s := Finishes(STRICT, s, 0, CAPTURE, Interrupted);
    assert s.workers[0].phase.Deleting? && Holds(s, s.workers[0]);
    s := Removes(STRICT, s, 0);
    ReachableBase(STRICT, s);
  }

  const CAPTURE := Job(StreamCapture, 5, Processing, 1, false, false)

  lemma ToCaptureStopped() returns (s: State)
    ensures Reachable(STRICT, s) && s.queue == Queue(map[0 := Message(0, 1, false)], 1, 2)
    ensures s.workers == map[0 := At(Returned(CAPTURE, NotDone)).(sigterm := true, stop := true)]
    ensures s.db.jobs == map[0 := CAPTURE] && s.db.outbox == {}
  {
    s := ToCapturing();
    s := Signals(STRICT, s, 0, false);
    assert s.workers == map[0 := At(Dispatched(CAPTURE)).(sigterm := true, stop := true)];
    s := Raises(STRICT, s, 0, CAPTURE);
  }

  /** Worker 0 has dispatched a capture of asset 5. */
  lemma ToCapturing() returns (s: State)
    ensures Reachable(STRICT, s) && s.queue == Queue(map[0 := Message(0, 1, false)], 1, 2)
    ensures s.workers == map[0 := At(Dispatched(CAPTURE))] && s.db.jobs == map[0 := CAPTURE] && s.db.outbox == {}
  {
    s := ToCaptureSent();
    s := Takes(STRICT, s, 0, 0);
    s := Claims(STRICT, s, 0);
    assert s.db.jobs == map[0 := CAPTURE] && s.workers == map[0 := At(Preflight(CAPTURE))];
    s := Dispatches(STRICT, s, 0);
  }

  lemma ToCaptureSent() returns (s: State)
    ensures Reachable(STRICT, s) && s.queue == Queue(map[0 := Message(0, 0, true)], 1, 1) && s.workers == map[]
    ensures s.db.jobs == map[0 := Job(StreamCapture, 5, Pending, 0, false, false)] && s.db.outbox == {}
    ensures s.db.deletedAssets == {}
  {
    BeginReachable(STRICT, Video);
    s := CmsActs(STRICT, Begin(Video), Stage(StreamCapture, 5));
    assert s.db.jobs == map[0 := Job(StreamCapture, 5, Pending, 0, false, false)] && s.db.outbox == {0};
    s := Sends(STRICT, s, 0);
  }

  /** A recapture resets a variant that a worker has just encoded: the worker then publishes a READY
      variant without a file. */
  lemma RecaptureLosesFile() returns (s: State)
    ensures Reachable(STRICT.(solo := false), s) && ReadyIn(s.db, 0) && 0 !in s.outputs
  {
    var r := STRICT.(solo := false);
    s := ToEncoded(r, SavedStream);
    s := CmsActs(r, s, ResetVariant(0));
    assert s.db.variants == map[0 := VPending] && s.outputs == {};
    s := Clears(r, s, 0, Row(1));
    assert s.workers == map[0 := At(Cleared(Row(1)))];
    s := Commits(r, s, 0, Row(1));
  }

  /** A recapture and a profile's deletion unlink a file before they touch its row: until they commit,
      and for good if the commit fails, a READY variant of any source is without its file. */
  lemma CmsUnlinksReady(source: Source) returns (s: State)
    ensures Reachable(STRICT, s) && ReadyIn(s.db, 0) && 0 !in s.outputs && OriginOf(s.db, 0).source == source
    ensures 0 !in s.db.superseded && !AssetDeleted(s.db, 0)
  {
    s := ToPublished(STRICT, source);
    s := Stores(STRICT, s, 0, Row(1));
    assert s.workers == map[0 := At(Settled(Row(1)))];
    s := CmsActs(STRICT, s, UnlinkOutput(0));
  }

  /** A stream's variant has been published and its job is DONE; a recapture resets it; and nothing will
      ever stage a job for it. */
  lemma RecaptureOrphans() returns (s: State)
    ensures Reachable(STRICT, s) && Base(s) && Orphaned(s, 0) && s.db.variants[0] == VPending && !CanSettle(s, 0)
  {
    s := ToDone(STRICT, SavedStream);
    s := CmsActs(STRICT, s, ResetVariant(0));
    ReachableBase(STRICT, s);
    OrphanSettlesIff(s, 0);
  }

  /** The attempt is over, and its message is gone. */
  lemma ToDone(r: Rules, source: Source) returns (s: State)
    ensures Reachable(r, s) && s.queue.messages == map[] && s.workers.Keys == {0} && s.workers[0].phase.Exited?
    ensures s.db == Db(map[0 := Row(1).(status := Done)], {}, 1, map[0 := VReady], {}, {}, map[0 := Origin(9, source)], map[], {}, map[])
  {
    s := ToMarking(r, source);
    s := Marks(r, s, 0);
    assert s.db.jobs == map[0 := Row(1).(status := Done)] && s.workers[0].phase.Deleting?;
    s := Removes(r, s, 0);
  }
}
