/** Why an attempt ends: which event of the run sets which of its flags, what its handler has reported,
    and which finalize branch follows from them. */
module StopReasons {
  import opened Basics
  import opened Jobs
  import opened Protocol
  import opened ProtocolInvariant
  import opened Finalization

  // ---------------------------------------------------------------- events

  predicate Terminated(status: JobStatus) {
    status == Done || status == Failed || status == Cancelled
  }

  /** The stamp of attempt `w` finds its job's row gone or terminal. */
  predicate FindsEnd(s: State, a: Action, w: WorkerId) {
    a == Beat(w, Stamp(true)) && w in s.workers
    && (s.workers[w].job in s.db.jobs ==> Terminated(s.db.jobs[s.workers[w].job].status))
  }

  /** The stamp of attempt `w` finds its job PENDING or PROCESSING, and flagged for cancellation. */
  predicate FindsFlag(s: State, a: Action, w: WorkerId) {
    a == Beat(w, Stamp(true)) && w in s.workers && s.workers[w].job in s.db.jobs
    && !Terminated(s.db.jobs[s.workers[w].job].status) && s.db.jobs[s.workers[w].job].cancelRequested
  }

  /** The renewal of attempt `w` fails, or comes with a receipt that is no longer the message's. */
  predicate LosesLease(s: State, a: Action, w: WorkerId) {
    a.Beat? && a.w == w && a.beat.Renew? && w in s.workers
    && var k := s.workers[w];
       !(a.beat.ok && k.msg in s.queue.messages && s.queue.messages[k.msg].receipt == k.receipt)
  }

  ghost predicate FoundEnd(run: Run, n: nat, w: WorkerId)
    requires n <= |run.actions| < |run.states|
  {
    exists i :: 0 <= i < n && FindsEnd(run.states[i], run.actions[i], w)
  }

  ghost predicate FoundFlag(run: Run, n: nat, w: WorkerId)
    requires n <= |run.actions| < |run.states|
  {
    exists i :: 0 <= i < n && FindsFlag(run.states[i], run.actions[i], w)
  }

  ghost predicate LostLease(run: Run, n: nat, w: WorkerId)
    requires n <= |run.actions| < |run.states|
  {
    exists i :: 0 <= i < n && LosesLease(run.states[i], run.actions[i], w)
  }

  ghost predicate Signalled(run: Run, n: nat, w: WorkerId)
    requires n <= |run.actions|
  {
    exists i :: 0 <= i < n && run.actions[i] == Sigterm(w)
  }

  ghost predicate Aged(run: Run, n: nat, w: WorkerId)
    requires n <= |run.actions|
  {
    exists i :: 0 <= i < n && run.actions[i] == GrowOld(w)
  }

  // ----------------------------------------------------------------- flags

  /** One stamp sets one flag or none: which, is a matter of the job's row alone. */
  lemma StampSets(s: State, w: WorkerId)
    requires Base(s) && BeatEnabled(s, w, Stamp(true))
    ensures var k, k' := s.workers[w], DoBeat(s, w, Stamp(true)).workers[w];
      (k'.evicted <==> (k.job in s.db.jobs ==> Terminated(s.db.jobs[k.job].status)))
      && (k'.cancelObserved <==> k.job in s.db.jobs && !Terminated(s.db.jobs[k.job].status) && s.db.jobs[k.job].cancelRequested)
      && !k'.leaseLost && (k'.stop <==> k.stop || k'.evicted || k'.cancelObserved)
  {
    assert WorkerOk(s.db, s.queue, s.workers[w]);
  }

  function FlagsOf(s: State, w: WorkerId): (bool, bool, bool, bool, bool) {
    if w !in s.workers then (false, false, false, false, false)
    else var k := s.workers[w]; (k.cancelObserved, k.evicted, k.leaseLost, k.sigterm, k.aged)
  }

  lemma WorkKeepsFlags(s: State, x: WorkerId, e: Effect, w: WorkerId)
    requires x in s.workers
    ensures FlagsOf(Apply(s, x, e), w) == FlagsOf(s, w)
  {
  }

  lemma OwnBeatFlags(s: State, w: WorkerId, b: BeatStep)
    requires BeatEnabled(s, w, b)
    ensures var a := Beat(w, b); var k, k' := s.workers[w], BeatWorker(s, s.workers[w], b);
      k'.cancelObserved == (k.cancelObserved || FindsFlag(s, a, w)) && k'.evicted == (k.evicted || FindsEnd(s, a, w))
      && k'.leaseLost == (k.leaseLost || LosesLease(s, a, w)) && k'.sigterm == k.sigterm && k'.aged == k.aged
  {
    match b
    case Renew(ok) => RenewFlags(s, w, ok);
    case Stamp(ok) => StampFlags(s, w, ok);
    case Wake =>
    case Quit =>
  }

  lemma RenewFlags(s: State, w: WorkerId, ok: bool)
    requires BeatEnabled(s, w, Renew(ok))
    ensures var k, k' := s.workers[w], BeatWorker(s, s.workers[w], Renew(ok));
      k' == k.(receipt := k'.receipt, hb := k'.hb, stop := k'.stop, leaseLost := k.leaseLost || LosesLease(s, Beat(w, Renew(ok)), w))
  {
  }

  lemma StampFlags(s: State, w: WorkerId, ok: bool)
    requires BeatEnabled(s, w, Stamp(ok))
    ensures var a := Beat(w, Stamp(ok)); var k, k' := s.workers[w], BeatWorker(s, s.workers[w], Stamp(ok));
      k' == k.(hb := k'.hb, stop := k'.stop, cancelObserved := k.cancelObserved || FindsFlag(s, a, w), evicted := k.evicted || FindsEnd(s, a, w))
  {
  }

  lemma BeatFlags(s: State, x: WorkerId, b: BeatStep, w: WorkerId)
    requires BeatEnabled(s, x, b)
    ensures var a := Beat(x, b); var (c, e, l, t, o) := FlagsOf(s, w);
      FlagsOf(DoBeat(s, x, b), w) == (c || FindsFlag(s, a, w), e || FindsEnd(s, a, w), l || LosesLease(s, a, w), t, o)
  {
    var s' := DoBeat(s, x, b);
    if x == w {
      OwnBeatFlags(s, w, b);
      assert s'.workers[w] == BeatWorker(s, s.workers[w], b);
    } else {
      assert w in s'.workers <==> w in s.workers;
      assert FlagsOf(s', w) == FlagsOf(s, w);
    }
  }

  lemma StepFlags(s: State, a: Action, w: WorkerId)
    requires Enabled(s, a)
    ensures var (c, e, l, t, o) := FlagsOf(s, w);
      FlagsOf(Do(s, a), w)
      == (c || FindsFlag(s, a, w), e || FindsEnd(s, a, w), l || LosesLease(s, a, w), t || a == Sigterm(w), o || a == GrowOld(w))
  {
    match a
    case Work(x, k) => WorkKeepsFlags(s, x, WorkEffect(s, s.workers[x], k), w);
    case Beat(x, b) => BeatFlags(s, x, b, w);
    case _ =>
  }

  /** Theorem: in every run each flag of an attempt is set if and only if its event has happened. */
  lemma {:induction false} FlagsIff(r: Rules, run: Run, n: nat, w: WorkerId)
    requires IsRun(r, run) && n < |run.states|
    ensures FlagsOf(run.states[n], w)
            == (FoundFlag(run, n, w), FoundEnd(run, n, w), LostLease(run, n, w), Signalled(run, n, w), Aged(run, n, w))
  {
    if n > 0 {
      FlagsIff(r, run, n - 1, w);
      assert StepsAt(r, run, n - 1);
      var s, a := run.states[n - 1], run.actions[n - 1];
      StepFlags(s, a, w);
      assert FoundFlag(run, n, w) <==> FoundFlag(run, n - 1, w) || FindsFlag(s, a, w);
      assert FoundEnd(run, n, w) <==> FoundEnd(run, n - 1, w) || FindsEnd(s, a, w);
      assert LostLease(run, n, w) <==> LostLease(run, n - 1, w) || LosesLease(s, a, w);
      assert Signalled(run, n, w) <==> Signalled(run, n - 1, w) || a == Sigterm(w);
      assert Aged(run, n, w) <==> Aged(run, n - 1, w) || a == GrowOld(w);
    }
  }

  // --------------------------------------------------------------- outcomes

  /** At this step the handler of attempt `w` reports `outcome`: a transcode succeeds exactly where it
      reads its variant as READY, on the way in or on the way out. */
  predicate Reports(s: State, a: Action, w: WorkerId, outcome: Outcome) {
    a.Work? && a.w == w && a.work.Handle? && w in s.workers && s.workers[w].phase.HasRow()
    && var v := s.workers[w].phase.row.target;
       match a.work.h
       case OtherHandler(o) => outcome == o
       case Check => if v !in s.db.variants then outcome == NotDone else s.db.variants[v] == VReady && outcome == Succeeded
       case ReadBack => outcome == if v in s.db.variants && s.db.variants[v] == VReady then Succeeded else NotDone
       case Start => v !in s.db.variants && outcome == NotDone
       case Raise => outcome == NotDone
       case _ => false
  }

  /** A pickup of a READY variant reports success at once, and of any other it goes to work. */
  lemma CheckReports(s: State, w: WorkerId)
    requires WorkEnabled(s, w, Handle(Check)) && s.workers[w].phase.row.target in s.db.variants
    ensures var s' := DoWork(s, w, Handle(Check)); var row := s.workers[w].phase.row;
      s'.workers[w].phase == if s.db.variants[row.target] == VReady then Returned(row, Succeeded) else Checked(row)
    ensures DoWork(s, w, Handle(Check)).db == s.db
  {
  }

  ghost predicate Reported(run: Run, n: nat, w: WorkerId, outcome: Outcome)
    requires n <= |run.actions| < |run.states|
  {
    exists i :: 0 <= i < n && Reports(run.states[i], run.actions[i], w, outcome)
  }

  predicate HasOutcome(p: Phase, outcome: Outcome) {
    (p.Returned? && p.outcome == outcome) || (p.Finalizing? && p.outcome == outcome) || (p.Marking? && outcome == Succeeded)
  }

  predicate NoReason(k: Worker) {
    !k.sigterm && !k.evicted && !k.leaseLost && !k.cancelObserved
  }

  lemma HandlerReports(s: State, w: WorkerId, h: HandlerStep, outcome: Outcome)
    requires WorkEnabled(s, w, Handle(h))
    ensures HasOutcome(Handler(s.db, s.outputs, s.workers[w].phase.row, h).phase, outcome)
            <==> Reports(s, Work(w, Handle(h)), w, outcome)
  {
  }

  /** A phase gets its outcome from the phase before, or from the handler. */
  lemma OutcomeFrom(s: State, w: WorkerId, a: WorkStep, outcome: Outcome)
    requires WorkEnabled(s, w, a) && HasOutcome(WorkEffect(s, s.workers[w], a).phase, outcome)
    ensures if a.Handle? then Reports(s, Work(w, a), w, outcome) else HasOutcome(s.workers[w].phase, outcome)
  {
    if a.Handle? { HandlerReports(s, w, a.h, outcome); }
  }

  lemma {:induction false} OutcomeReported(r: Rules, run: Run, n: nat, w: WorkerId, outcome: Outcome)
    requires IsRun(r, run) && n < |run.states| && w in run.states[n].workers && HasOutcome(run.states[n].workers[w].phase, outcome)
    ensures Reported(run, n, w, outcome)
  {
    if n > 0 {
      assert StepsAt(r, run, n - 1);
      var s, a := run.states[n - 1], run.actions[n - 1];
      if a.Work? && a.w == w {
        OutcomeFrom(s, w, a.work, outcome);
        if !a.work.Handle? { OutcomeReported(r, run, n - 1, w, outcome); }
      } else {
        OthersKeepOutcome(s, a, w, outcome);
        OutcomeReported(r, run, n - 1, w, outcome);
      }
    }
  }

  lemma OthersKeepOutcome(s: State, a: Action, w: WorkerId, outcome: Outcome)
    requires Enabled(s, a) && !(a.Work? && a.w == w) && w in Do(s, a).workers && HasOutcome(Do(s, a).workers[w].phase, outcome)
    ensures w in s.workers && HasOutcome(s.workers[w].phase, outcome)
  {
    if !a.Work? && !a.Cms? { QuietFrame(s, a); }
  }

  // --------------------------------------------------------------- branches

  /** The branch that the history of an attempt calls for: a signal before an eviction, that before a lost
      lease, that before a cancellation, and only without any of them what the handler has reported. */
  ghost predicate CalledFor(run: Run, n: nat, w: WorkerId, b: Branch)
    requires n <= |run.actions| < |run.states|
  {
    if Signalled(run, n, w) then b == if Aged(run, n, w) then TimedOut else Interrupted
    else if FoundEnd(run, n, w) then b == Evicted
    else if LostLease(run, n, w) then b == LeaseLost
    else if FoundFlag(run, n, w) then b == CancelSeen
    else match b
      case TerminalFailure => Reported(run, n, w, Terminal)
      case Success => Reported(run, n, w, Succeeded)
      case Retry => Reported(run, n, w, NotDone)
      case _ => false
  }

  lemma BranchCalledFor(r: Rules, run: Run, n: nat, w: WorkerId)
    requires IsRun(r, run) && n < |run.states| && w in run.states[n].workers && run.states[n].workers[w].phase.Finalizing?
    ensures CalledFor(run, n, w, FinalBranch(run.states[n].workers[w], run.states[n].workers[w].phase.outcome))
  {
    FlagsIff(r, run, n, w);
    OutcomeReported(r, run, n, w, run.states[n].workers[w].phase.outcome);
  }

  /** At some step before `n` attempt `w` was finalizing, and its history by then called for branch `b`. */
  ghost predicate WasCalledFor(run: Run, n: nat, w: WorkerId, b: Branch)
    requires n <= |run.actions| < |run.states|
  {
    exists i :: 0 <= i < n && w in run.states[i].workers && run.states[i].workers[w].phase.Finalizing? && CalledFor(run, i, w, b)
  }

  lemma OthersKeepMarking(s: State, a: Action, w: WorkerId)
    requires Enabled(s, a) && !(a.Work? && a.w == w) && w in Do(s, a).workers && Do(s, a).workers[w].phase.Marking?
    ensures w in s.workers && s.workers[w].phase.Marking?
  {
    if !a.Work? && !a.Cms? { QuietFrame(s, a); }
  }

  lemma MarkingFrom(s: State, k: Worker, a: WorkStep)
    requires PhaseAllows(s, k, a) && WorkEffect(s, k, a).phase.Marking?
    ensures k.phase.Finalizing? && FinalBranch(k, k.phase.outcome) == Success
  {
    if a.Handle? { HandlerNeverMarks(s.db, s.outputs, k.phase.row, a.h); }
  }

  lemma HandlerNeverMarks(db: Db, outputs: set<VariantId>, row: Job, h: HandlerStep)
    ensures !Handler(db, outputs, row, h).phase.Marking?
  {
  }

  lemma {:induction false} MarkingCalledFor(r: Rules, run: Run, n: nat, w: WorkerId)
    requires IsRun(r, run) && n < |run.states| && w in run.states[n].workers && run.states[n].workers[w].phase.Marking?
    ensures WasCalledFor(run, n, w, Success)
  {
    if n > 0 {
      assert StepsAt(r, run, n - 1);
      var s, a := run.states[n - 1], run.actions[n - 1];
      if a.Work? && a.w == w {
        MarkingFrom(s, s.workers[w], a.work);
        BranchCalledFor(r, run, n - 1, w);
      } else {
        OthersKeepMarking(s, a, w);
        MarkingCalledFor(r, run, n - 1, w);
      }
    }
  }

  /** Theorem: every branch that an attempt has taken is the one that its history, up to the finalize
      block, called for.  So CancelSeen follows a stamp that found the job active and flagged, Evicted one
      that found it gone or terminal, and Success a handler that reported it. */
  lemma {:induction false} FinalsCalledFor(r: Rules, run: Run, n: nat)
    requires IsRun(r, run) && n < |run.states|
    ensures forall e :: 0 <= e < |run.states[n].finals| ==> WasCalledFor(run, n, run.states[n].finals[e].0, run.states[n].finals[e].1)
  {
    if n > 0 {
      FinalsCalledFor(r, run, n - 1);
      assert StepsAt(r, run, n - 1);
      var s, a := run.states[n - 1], run.actions[n - 1];
      if a.Work? {
        FinalNotes(s, a.w, a.work);
        if Finalizes(s, a.w, a.work) { TakenCalledFor(r, run, n - 1, a.w, a.work); }
      } else {
        OtherStepFrame(s, a);
      }
      forall e | 0 <= e < |run.states[n].finals|
        ensures WasCalledFor(run, n, run.states[n].finals[e].0, run.states[n].finals[e].1)
      {
        if e < |s.finals| { assert WasCalledFor(run, n - 1, s.finals[e].0, s.finals[e].1); }
      }
    }
  }

  lemma TakenCalledFor(r: Rules, run: Run, n: nat, w: WorkerId, a: WorkStep)
    requires IsRun(r, run) && n < |run.actions| && run.actions[n] == Work(w, a) && Finalizes(run.states[n], w, a)
    ensures WorkEnabled(run.states[n], w, a)
    ensures var e := WorkEffect(run.states[n], run.states[n].workers[w], a);
      e.note.Finalized? && WasCalledFor(run, n + 1, w, e.note.branch)
  {
    assert StepsAt(r, run, n);
    FinalNotes(run.states[n], w, a);
    if a.Mark? {
      MarkingCalledFor(r, run, n, w);
      var i :| 0 <= i < n && w in run.states[i].workers && run.states[i].workers[w].phase.Finalizing? && CalledFor(run, i, w, Success);
    } else {
      BranchCalledFor(r, run, n, w);
    }
  }
}
