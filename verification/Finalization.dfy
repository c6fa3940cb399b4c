/** One attempt ends once: the stop reasons exclude each other and settle with the
    heartbeat, and every attempt takes at most one finalize branch. */
module Finalization {
  import opened Basics
  import opened Jobs
  import opened Protocol
  import opened ProtocolInvariant

  // ---------------------------------------------------------- stop reasons

  /** Theorem: at most one of cancel-observed, evicted and lease-lost is ever set. */
  lemma OneStopReason(r: Rules, run: Run, n: nat, w: WorkerId)
    requires IsRun(r, run) && n < |run.states| && w in run.states[n].workers
    ensures var k := run.states[n].workers[w];
      !(k.cancelObserved && k.evicted) && !(k.cancelObserved && k.leaseLost) && !(k.evicted && k.leaseLost)
      && (k.cancelObserved || k.evicted || k.leaseLost ==> k.stop && k.hb.Stopped?)
  {
    BaseHolds(r, run, n);
    assert WorkerOk(run.states[n].db, run.states[n].queue, run.states[n].workers[w]);
  }

  predicate SameReasons(k: Worker, k': Worker) {
    k'.cancelObserved == k.cancelObserved && k'.evicted == k.evicted && k'.leaseLost == k.leaseLost
  }

  lemma ReasonsStep(s: State, a: Action, w: WorkerId)
    requires Enabled(s, a) && w in s.workers && s.workers[w].hb.Stopped?
    ensures w in Do(s, a).workers && Do(s, a).workers[w].hb.Stopped? && SameReasons(s.workers[w], Do(s, a).workers[w])
  {
    match a
    case Work(x, k) => ApplyReasons(s, x, WorkEffect(s, s.workers[x], k), w);
    case Beat(x, b) => assert x != w;
    case _ =>
  }

  lemma ApplyReasons(s: State, x: WorkerId, e: Effect, w: WorkerId)
    requires x in s.workers && w in s.workers && s.workers[w].hb.Stopped?
    ensures var s' := Apply(s, x, e);
      w in s'.workers && s'.workers[w].hb.Stopped? && SameReasons(s.workers[w], s'.workers[w])
  {
  }

  /** Theorem: once the heartbeat has stopped, no stop reason changes any more. */
  lemma {:induction false} ReasonsSettle(r: Rules, run: Run, i: nat, n: nat, w: WorkerId)
    requires IsRun(r, run) && i <= n < |run.states|
    requires w in run.states[i].workers && run.states[i].workers[w].hb.Stopped?
    ensures w in run.states[n].workers && run.states[n].workers[w].hb.Stopped?
            && SameReasons(run.states[i].workers[w], run.states[n].workers[w])
    decreases n - i
  {
    if i < n {
      ReasonsSettle(r, run, i, n - 1, w);
      assert StepsAt(r, run, n - 1);
      ReasonsStep(run.states[n - 1], run.actions[n - 1], w);
    }
  }

  // ------------------------------------------------------------- branches

  ghost predicate FinalsOk(s: State) {
    (forall i :: 0 <= i < |s.finals| ==>
       s.finals[i].0 in s.workers && (s.workers[s.finals[i].0].phase.Deleting? || s.workers[s.finals[i].0].phase.Exited?))
    && (forall i, k :: 0 <= i < k < |s.finals| ==> s.finals[i].0 != s.finals[k].0)
  }

  lemma HandlerSilent(db: Db, outputs: set<VariantId>, row: Job, h: HandlerStep)
    ensures Handler(db, outputs, row, h).note.Silent? && !Handler(db, outputs, row, h).phase.Deleting?
  {
  }

  /** Do the writes of the branch go through?  The timeout branch swallows a failing write; the success
      branch has one of its own to make when `mark_done` has read a job that is not terminal. */
  predicate GoesThrough(s: State, w: WorkerId, ok: bool)
    requires w in s.workers && s.workers[w].phase.Finalizing?
  {
    var b := FinalBranch(s.workers[w], s.workers[w].phase.outcome);
    (b.CancelSeen? || b.TerminalFailure? || b.Success? || b.Retry? ==> ok && !(b.Retry? && RetryRefused(s.db, s.workers[w].job)))
    && (b.Success? ==> OwnerLost(s.db, s.workers[w].job))
  }

  /** Is this the step with which a branch of the finalize block is through? */
  predicate Finalizes(s: State, w: WorkerId, a: WorkStep) {
    w in s.workers
    && match a
       case Finalize(ok) => s.workers[w].phase.Finalizing? && GoesThrough(s, w, ok)
       case Mark(ok) => s.workers[w].phase.Marking? && ok && s.workers[w].job in s.db.jobs
       case _ => false
  }

  lemma FinalNotes(s: State, w: WorkerId, a: WorkStep)
    requires WorkEnabled(s, w, a)
    ensures var k := s.workers[w]; var e := WorkEffect(s, k, a);
      (e.note.Finalized? <==> Finalizes(s, w, a))
      && (e.note.Finalized? ==> e.phase.Deleting? || e.phase.Exited?)
      && (e.note.Finalized? ==> if k.phase.Finalizing? then e.note.branch == FinalBranch(k, k.phase.outcome)
                                else k.phase.Marking? && e.note.branch == Success)
      && (k.phase.Deleting? || k.phase.Exited? ==> e.phase.Exited?)
  {
    if a.Handle? { HandlerSilent(s.db, s.outputs, s.workers[w].phase.row, a.h); }
  }

  lemma WorkKeepsFinals(s: State, w: WorkerId, a: WorkStep)
    requires WorkEnabled(s, w, a) && FinalsOk(s)
    ensures FinalsOk(DoWork(s, w, a))
  {
    FinalNotes(s, w, a);
    ApplyKeepsFinals(s, w, WorkEffect(s, s.workers[w], a));
  }

  lemma ApplyKeepsFinals(s: State, w: WorkerId, e: Effect)
    requires FinalsOk(s) && w in s.workers
    requires e.note.Finalized? ==>
      (s.workers[w].phase.Finalizing? || s.workers[w].phase.Marking?) && (e.phase.Deleting? || e.phase.Exited?)
    requires s.workers[w].phase.Deleting? || s.workers[w].phase.Exited? ==> e.phase.Exited? && !e.note.Finalized?
    ensures FinalsOk(Apply(s, w, e))
  {
  }

  lemma OtherStepFrame(s: State, a: Action)
    requires Enabled(s, a) && !a.Work?
    ensures Do(s, a).finals == s.finals && Do(s, a).failures == s.failures
  {
    if a.Beat? { BeatFrame(s, a.w, a.beat); }
  }

  lemma OtherStepKeepsFinals(s: State, a: Action)
    requires Enabled(s, a) && !a.Work? && FinalsOk(s)
    ensures FinalsOk(Do(s, a))
  {
    OtherStepFrame(s, a);
    if !a.Cms? { QuietFrame(s, a); }
  }

  /** Theorem: every attempt takes at most one finalize branch. */
  lemma {:induction false} OneBranchEach(r: Rules, run: Run, n: nat)
    requires IsRun(r, run) && n < |run.states|
    ensures FinalsOk(run.states[n])
  {
    if n > 0 {
      OneBranchEach(r, run, n - 1);
      assert StepsAt(r, run, n - 1);
      var s, a := run.states[n - 1], run.actions[n - 1];
      if a.Work? { WorkKeepsFinals(s, a.w, a.work); } else { OtherStepKeepsFinals(s, a); }
    }
  }

  ghost predicate TookBranch(s: State, w: WorkerId) {
    exists i :: 0 <= i < |s.finals| && s.finals[i].0 == w
  }

  /** At step `i` attempt `w` ran the finalize block, and its writes went through. */
  predicate FinalizesAt(run: Run, i: nat, w: WorkerId)
    requires i < |run.actions| && |run.states| == |run.actions| + 1
  {
    run.actions[i].Work? && run.actions[i].w == w && Finalizes(run.states[i], w, run.actions[i].work)
  }

  /** Theorem: an attempt has taken a branch, and so exactly one, if and only if its finalize block has
      run and its writes went through. */
  lemma {:induction false} TookBranchIff(r: Rules, run: Run, n: nat, w: WorkerId)
    requires IsRun(r, run) && n < |run.states|
    ensures TookBranch(run.states[n], w) <==> exists i :: 0 <= i < n && FinalizesAt(run, i, w)
  {
    if n > 0 {
      TookBranchIff(r, run, n - 1, w);
      assert StepsAt(r, run, n - 1);
      var s, a := run.states[n - 1], run.actions[n - 1];
      if a.Work? { FinalNotes(s, a.w, a.work); } else { OtherStepFrame(s, a); }
      if FinalizesAt(run, n - 1, w) {
        assert run.states[n].finals[|s.finals|].0 == w;
      } else if TookBranch(s, w) {
        var i :| 0 <= i < |s.finals| && s.finals[i].0 == w;
        assert run.states[n].finals[i].0 == w;
      }
    }
  }

  /** The only other way out of finalizing is a failing write or a crash. */
  lemma LeavesFinalizingBy(s: State, a: Action, w: WorkerId)
    requires Enabled(s, a) && w in s.workers && (s.workers[w].phase.Finalizing? || s.workers[w].phase.Marking?)
    ensures w in Do(s, a).workers
    ensures var p, p' := s.workers[w].phase, Do(s, a).workers[w].phase;
      p' == p || (p.Finalizing? && p' == Marking(p.row)) || p'.Exited? || (a.Work? && a.w == w && Finalizes(s, w, a.work))
  {
    if a.Beat? { BeatFrame(s, a.w, a.beat); }
  }

  // -------------------------------------------------------------- counter

  predicate Failing(b: Branch) { b.TimedOut? || b.TerminalFailure? || b.Retry? }

  function FailingFinals(finals: seq<(WorkerId, Branch)>): nat {
    if finals == [] then 0
    else FailingFinals(finals[..|finals| - 1]) + if Failing(finals[|finals| - 1].1) then 1 else 0
  }

  /** Attempts that have taken a failing branch and not yet reached the counter behind their queue delete. */
  function Uncounted(s: State): set<WorkerId> {
    set w | w in s.workers && s.workers[w].phase == Deleting(true)
  }

  predicate CrashesUncounted(s: State, a: Action) {
    a.Crash? && a.w in Uncounted(s)
  }

  /** How often a crash has kept an attempt from the counter for good. */
  function NeverCounted(run: Run, n: nat): nat
    requires n <= |run.actions| && |run.states| == |run.actions| + 1
  {
    if n == 0 then 0 else NeverCounted(run, n - 1) + if CrashesUncounted(run.states[n - 1], run.actions[n - 1]) then 1 else 0
  }

  lemma UncountedAfter(s: State, s': State, w: WorkerId)
    requires w in s.workers && w in s'.workers && s'.workers == s.workers[w := s'.workers[w]]
    ensures |Uncounted(s')| == |Uncounted(s)| - (if w in Uncounted(s) then 1 else 0) + if w in Uncounted(s') then 1 else 0
  {
    assert Uncounted(s') - {w} == Uncounted(s) - {w};
    if w in Uncounted(s) { assert Uncounted(s) == Uncounted(s) - {w} + {w}; } else { assert Uncounted(s) - {w} == Uncounted(s); }
    if w in Uncounted(s') { assert Uncounted(s') == Uncounted(s') - {w} + {w}; } else { assert Uncounted(s') - {w} == Uncounted(s'); }
  }

  /** Where the counter goes up, and which branches put that off behind the queue delete. */
  lemma CounterNotes(s: State, w: WorkerId, a: WorkStep)
    requires WorkEnabled(s, w, a)
    ensures var k := s.workers[w]; var e := WorkEffect(s, k, a);
      (e.note == FailureCounted <==> k.phase == Deleting(true))
      && (e.phase == Deleting(true) <==> e.note.Finalized? && (e.note.branch.TimedOut? || e.note.branch.TerminalFailure?))
  {
    if a.Handle? { HandlerSilent(s.db, s.outputs, s.workers[w].phase.row, a.h); }
  }

  lemma WorkCounts(s: State, w: WorkerId, a: WorkStep)
    requires WorkEnabled(s, w, a)
    ensures var s' := DoWork(s, w, a);
      s'.failures + |Uncounted(s')| + FailingFinals(s.finals) == s.failures + |Uncounted(s)| + FailingFinals(s'.finals)
  {
    CounterNotes(s, w, a);
    FinalNotes(s, w, a);
    ApplyCounts(s, w, WorkEffect(s, s.workers[w], a));
  }

  lemma ApplyCounts(s: State, w: WorkerId, e: Effect)
    requires w in s.workers
    requires e.note == FailureCounted <==> s.workers[w].phase == Deleting(true)
    requires e.phase == Deleting(true) <==> e.note.Finalized? && (e.note.branch.TimedOut? || e.note.branch.TerminalFailure?)
    ensures var s' := Apply(s, w, e);
      s'.failures + |Uncounted(s')| + FailingFinals(s.finals) == s.failures + |Uncounted(s)| + FailingFinals(s'.finals)
  {
    var s' := Apply(s, w, e);
    UncountedAfter(s, s', w);
    if e.note.Finalized? { assert s'.finals[..|s'.finals| - 1] == s.finals; }
  }

  lemma OtherStepCounts(s: State, a: Action)
    requires Enabled(s, a) && !a.Work?
    ensures |Uncounted(Do(s, a))| + (if CrashesUncounted(s, a) then 1 else 0) == |Uncounted(s)|
  {
    var s' := Do(s, a);
    if a.Crash? || a.Sigterm? || a.GrowOld? || a.Beat? {
      if a.Beat? { BeatFrame(s, a.w, a.beat); }
      UncountedAfter(s, s', a.w);
    } else {
      assert Uncounted(s') == Uncounted(s);
    }
  }

  /** Theorem: the failure counter is the number of attempts that took the timeout, the terminal or the
      retry branch, less those that have not come to the counter yet or crashed before it. */
  lemma {:induction false} FailuresCounted(r: Rules, run: Run, n: nat)
    requires IsRun(r, run) && n < |run.states|
    ensures run.states[n].failures + |Uncounted(run.states[n])| + NeverCounted(run, n) == FailingFinals(run.states[n].finals)
  {
    if n > 0 {
      FailuresCounted(r, run, n - 1);
      assert StepsAt(r, run, n - 1);
      var s, a := run.states[n - 1], run.actions[n - 1];
      if a.Work? {
        WorkCounts(s, a.w, a.work);
      } else {
        OtherStepFrame(s, a);
        OtherStepCounts(s, a);
      }
    } else {
      assert Uncounted(run.states[0]) == {};
    }
  }

  /** Without SIGTERM, an attempt that lost its lease ends without touching rows, queue or counter. */
  lemma LostLeaseWritesNothing(s: State, w: WorkerId, ok: bool)
    requires Base(s) && WorkEnabled(s, w, Finalize(ok)) && s.workers[w].leaseLost && !s.workers[w].sigterm
    ensures var s' := DoWork(s, w, Finalize(ok));
      s'.db == s.db && s'.queue == s.queue && s'.failures == s.failures && s'.outputs == s.outputs
      && s'.workers[w].phase.Exited? && s'.finals == s.finals + [(w, LeaseLost)]
  {
    assert WorkerOk(s.db, s.queue, s.workers[w]);
  }

  /** SIGTERM outranks lease loss: a worker that has lost its lease still removes the message or
      writes rows exactly when SIGTERM came too. */
  lemma LostLeaseActsIffSigterm(s: State, w: WorkerId)
    requires Base(s) && WorkEnabled(s, w, Finalize(true)) && s.workers[w].leaseLost
    ensures DoWork(s, w, Finalize(true)).workers[w].phase.Deleting? <==> s.workers[w].sigterm
  {
    assert WorkerOk(s.db, s.queue, s.workers[w]);
  }
}
