/** When a READY variant stays READY: exactly which steps undo it, and in which runs none does. */
module ReadyAbsorbing {
  import opened Basics
  import opened Jobs
  import opened Protocol
  import opened ProtocolInvariant
  import opened PublishSafety

  predicate ReadyIn(db: Db, v: VariantId) {
    v in db.variants && db.variants[v] == VReady
  }

  // ---------------------------------------------------- guarded transactions

  /** A user's deletion, a recapture and the start-up repair write a variant whatever its status. */
  predicate Regardless(c: CmsStep, v: VariantId) {
    c == DropVariant(v) || c == ResetVariant(v)
  }

  /** A step of the CMS, an exhaustion mirror or a cancel. */
  predicate Sweeps(s: State, a: Action)
    requires Enabled(s, a)
  {
    match a
    case Cms(_) => true
    case Work(w, k) =>
      k.MirrorFailure? || k.CancelBefore?
      || (k.Finalize? && FinalBranch(s.workers[w], s.workers[w].phase.outcome).CancelSeen?)
    case _ => false
  }

  /** Theorem: no cancel, no exhaustion mirror and no other step of the CMS changes a variant that
      has already left its in-flight states, as long as the status it was decided on is still there. */
  lemma SweepsKeepTerminal(s: State, a: Action, v: VariantId)
    requires Enabled(s, a) && Sweeps(s, a) && FreshWrite(s, a) && (a.Cms? ==> !Regardless(a.cms, v))
    requires v in s.db.variants && !s.db.variants[v].InFlight()
    ensures v in Do(s, a).db.variants && Do(s, a).db.variants[v] == s.db.variants[v]
  {
    if a.Cms? { CmsKeepsTerminal(s, a.cms, v); } else { WorkKeepsTerminal(s, a.w, a.work, v); }
  }

  lemma CmsKeepsTerminal(s: State, c: CmsStep, v: VariantId)
    requires CmsEnabled(s, c) && FreshWrite(s, Cms(c)) && !Regardless(c, v)
    requires v in s.db.variants && !s.db.variants[v].InFlight()
    ensures v in CmsDb(s.db, c).variants && CmsDb(s.db, c).variants[v] == s.db.variants[v]
  {
  }

  lemma WorkKeepsTerminal(s: State, w: WorkerId, a: WorkStep, v: VariantId)
    requires WorkEnabled(s, w, a) && Sweeps(s, Work(w, a)) && FreshWrite(s, Work(w, a))
    requires v in s.db.variants && !s.db.variants[v].InFlight()
    ensures var db := WorkEffect(s, s.workers[w], a).db; v in db.variants && db.variants[v] == s.db.variants[v]
  {
    var k := s.workers[w];
    if !a.MirrorFailure? { CancelKeepsTerminal(s.db, k.job, k.phase.row, v); }
  }

  lemma CancelKeepsTerminal(db: Db, j: JobId, row: Job, v: VariantId)
    requires v in db.variants && !db.variants[v].InFlight()
    ensures var db' := CancelJob(db, j, row); v in db'.variants && db'.variants[v] == db.variants[v]
  {
  }

  /** Each of them does act on its own target while that is in flight. */
  lemma CancelActsIff(db: Db, j: JobId, row: Job)
    requires row.kind == VariantTranscode && row.target in db.variants
    ensures CancelJob(db, j, row).variants != db.variants <==> db.variants[row.target].InFlight()
    ensures db.variants[row.target].InFlight() ==> CancelJob(db, j, row).variants[row.target] == VCancelled
  {
    if db.variants[row.target].InFlight() {
      assert CancelJob(db, j, row).variants[row.target] == VCancelled;
    }
  }

  // ----------------------------------------------------- exact characterisation

  predicate Overwrites(h: HandlerStep) {
    h.FailEarly? || h.Start? || h.EncodeFails? || h.StoreFails?
  }

  /** The steps that take `v` out of READY. */
  predicate Undoes(s: State, a: Action, v: VariantId)
    requires Enabled(s, a)
  {
    match a
    case Cms(RecoverStalled(j)) => s.db.jobs[j].target == v
    case Cms(c) => Regardless(c, v)
    case Work(w, MirrorFailure(ok)) => ok && s.workers[w].phase.row.kind == VariantTranscode && s.workers[w].phase.row.target == v
    case Work(w, Handle(h)) => Overwrites(h) && s.workers[w].phase.row.target == v
    case Work(w, Finalize(ok)) =>
      ok && FinalBranch(s.workers[w], s.workers[w].phase.outcome).TimedOut?
      && s.workers[w].phase.row.kind == VariantTranscode && s.workers[w].phase.row.target == v
    case _ => false
  }

  lemma HandlerUndoesIff(db: Db, outputs: set<VariantId>, k: Worker, h: HandlerStep, v: VariantId)
    requires HandlerEnabled(db, k, h) && ReadyIn(db, v)
    ensures !ReadyIn(Handler(db, outputs, k.phase.row, h).db, v) <==> Overwrites(h) && k.phase.row.target == v
  {
  }

  lemma FinalUndoesIff(db: Db, j: JobId, row: Job, b: Branch, v: VariantId)
    requires ReadyIn(db, v)
    ensures !ReadyIn(FinalWrite(db, j, row, b), v) <==> b.TimedOut? && row.kind == VariantTranscode && row.target == v
  {
  }

  lemma WorkUndoesIff(s: State, w: WorkerId, a: WorkStep, v: VariantId)
    requires WorkEnabled(s, w, a) && ReadyIn(s.db, v)
    ensures !ReadyIn(WorkEffect(s, s.workers[w], a).db, v) <==> Undoes(s, Work(w, a), v)
  {
    var k := s.workers[w];
    match a
    case Handle(h) => HandlerUndoesIff(s.db, s.outputs, k, h, v);
    case Finalize(ok) => FinalUndoesIff(s.db, k.job, k.phase.row, FinalBranch(k, k.phase.outcome), v);
    case Claim(ok) => if ok && WriteClaim(s.db, k.job, k.phase.row).Some? { ClaimLocal(s.db, k.job, k.phase.row, v); }
    case _ =>
  }

  lemma CmsUndoesIff(s: State, c: CmsStep, v: VariantId)
    requires CmsEnabled(s, c) && ReadyIn(s.db, v)
    ensures !ReadyIn(CmsDb(s.db, c), v) <==> Undoes(s, Cms(c), v)
  {
    if FreshWrite(s, Cms(c)) && !Regardless(c, v) { CmsKeepsTerminal(s, c, v); }
  }

  /** Theorem: a step takes a variant out of READY if and only if it is one of `Undoes`:
      the row's deletion or reset, the genuine-timeout branch, a write of the monitor or the mirror that
      comes after the status it was decided on has gone, or a handler write that does not look first. */
  lemma LeavesReadyIff(s: State, a: Action, v: VariantId)
    requires Enabled(s, a) && ReadyIn(s.db, v)
    ensures !ReadyIn(Do(s, a).db, v) <==> Undoes(s, a, v)
  {
    match a
    case Work(w, k) => WorkUndoesIff(s, w, k, v);
    case Cms(c) => CmsUndoesIff(s, c, v);
    case _ => QuietFrame(s, a);
  }

  // -------------------------------------------------------------------- runs

  /** One worker at a time between a variant's READY check and its storage sync, and none of
      those producing works on a variant that is READY. */
  ghost predicate Solo(s: State) {
    (forall w, x :: w in s.workers && x in s.workers && w != x && Busy(s.workers[w]) ==>
       !BusyWith(s.workers[x], s.workers[w].phase.row.target))
    && (forall w :: w in s.workers && s.workers[w].phase.Producing() ==> !ReadyIn(s.db, s.workers[w].phase.row.target))
  }

  predicate Busy(k: Worker) {
    k.phase.Producing() || k.phase.Published?
  }

  lemma NextBusy(s: State, k: Worker, a: WorkStep)
    requires PhaseAllows(s, k, a)
    requires k.phase.Producing() ==> !ReadyIn(s.db, k.phase.row.target)
    ensures var e := WorkEffect(s, k, a);
      e.phase.Producing() || e.phase.Published? ==>
        k.phase.HasRow() && e.phase.row == k.phase.row && (Busy(k) || a == Handle(Check))
        && (e.phase.Producing() ==> !ReadyIn(e.db, k.phase.row.target))
        && (e.phase.Published? ==> k.phase.Cleared?)
    ensures a == Handle(Commit) ==> k.phase.Producing()
  {
    match a
    case Handle(h) => HandlerNextBusy(s.db, s.outputs, k, h);
    case _ =>
  }

  lemma HandlerNextBusy(db: Db, outputs: set<VariantId>, k: Worker, h: HandlerStep)
    requires HandlerEnabled(db, k, h)
    requires k.phase.Producing() ==> !ReadyIn(db, k.phase.row.target)
    ensures var e := Handler(db, outputs, k.phase.row, h);
      e.phase.Producing() || e.phase.Published? ==>
        e.phase.row == k.phase.row && (Busy(k) || h == Check)
        && (e.phase.Producing() ==> !ReadyIn(e.db, k.phase.row.target))
        && (e.phase.Published? ==> k.phase.Cleared?)
  {
  }

  lemma WorkKeepsSolo(r: Rules, s: State, w: WorkerId, a: WorkStep)
    requires r.solo && WorkEnabled(s, w, a) && Allowed(r, s, Work(w, a)) && Solo(s)
    ensures Solo(DoWork(s, w, a))
  {
    var k := s.workers[w];
    EffectFrame(s, w, a);
    NextBusy(s, k, a);
    ApplyKeepsSolo(s, w, a, WorkEffect(s, k, a));
  }

  lemma ApplyKeepsSolo(s: State, w: WorkerId, a: WorkStep, e: Effect)
    requires Solo(s) && w in s.workers && Local(s.db, e.db, s.workers[w].job, TargetOf(s.workers[w]))
    requires a != Handle(Commit) ==> StaysUnready(s.db, e.db, TargetOf(s.workers[w]))
    requires a == Handle(Commit) ==> s.workers[w].phase.Producing()
    requires a == Handle(Check) && s.workers[w].phase.HasRow() ==>
      forall x :: x in s.workers && x != w ==> !BusyWith(s.workers[x], s.workers[w].phase.row.target)
    requires var k := s.workers[w];
      e.phase.Producing() || e.phase.Published? ==>
        k.phase.HasRow() && e.phase.row == k.phase.row && (Busy(k) || a == Handle(Check))
        && (e.phase.Producing() ==> !ReadyIn(e.db, k.phase.row.target))
    ensures Solo(Apply(s, w, e))
  {
    var k := s.workers[w];
    var s' := Apply(s, w, e);
    assert Busy(s'.workers[w]) ==> k.phase.HasRow() && s'.workers[w].phase.row == k.phase.row;
    forall x | x in s'.workers && s'.workers[x].phase.Producing()
      ensures !ReadyIn(s'.db, s'.workers[x].phase.row.target)
    {
      if x != w && a == Handle(Commit) {
        assert Busy(k) && !BusyWith(s.workers[x], k.phase.row.target);
      }
    }
  }

  lemma OtherStepKeepsSolo(s: State, a: Action)
    requires DbOk(s.db) && Enabled(s, a) && !a.Work? && Solo(s)
    ensures Solo(Do(s, a))
  {
    if a.Cms? { CmsQuiet(s, a.cms); } else { QuietKeepsSolo(s, a); }
  }

  lemma QuietKeepsSolo(s: State, a: Action)
    requires Enabled(s, a) && !a.Work? && !a.Cms? && Solo(s)
    ensures Solo(Do(s, a))
  {
    QuietFrame(s, a);
    SamePhases(s, Do(s, a));
  }

  /** Whoever is busy was so before, with the same row. */
  lemma SamePhases(s: State, s': State)
    requires Solo(s) && s'.db.variants == s.db.variants
    requires forall x :: x in s'.workers && x in s.workers ==> s'.workers[x].phase == s.workers[x].phase || s'.workers[x].phase.Exited?
    requires forall x :: x in s'.workers && x !in s.workers ==> s'.workers[x].phase.Received?
    ensures Solo(s')
  {
    assert forall x :: x in s'.workers && Busy(s'.workers[x]) ==> x in s.workers && s'.workers[x].phase == s.workers[x].phase;
  }

  lemma {:induction false} SoloHolds(r: Rules, run: Run, n: nat)
    requires r.solo && IsRun(r, run) && n < |run.states|
    ensures Solo(run.states[n])
  {
    if n > 0 {
      SoloHolds(r, run, n - 1);
      BaseHolds(r, run, n - 1);
      assert StepsAt(r, run, n - 1);
      var s, a := run.states[n - 1], run.actions[n - 1];
      if a.Work? { WorkKeepsSolo(r, s, a.w, a.work); } else { OtherStepKeepsSolo(s, a); }
    }
  }

  /** Under the rules, the only steps left that undo READY are the row's deletion and reset. */
  lemma OnlyCmsUndoes(r: Rules, s: State, a: Action, v: VariantId)
    requires r.noTimeout && r.storeOk && r.freshWrites && Enabled(s, a) && Allowed(r, s, a) && Solo(s) && ReadyIn(s.db, v)
    requires a.Cms? ==> !Regardless(a.cms, v)
    ensures !Undoes(s, a, v)
  {
    if a.Work? && a.work.Handle? && Overwrites(a.work.h) && !a.work.h.StoreFails? {
      assert s.workers[a.w].phase.Producing();
    }
  }

  /** Theorem: READY is absorbing in every run with no genuine timeout, no failure after the READY
      commit, fresh writes and no two workers on one variant, until the row is deleted or reset. */
  lemma {:induction false} ReadyStays(r: Rules, run: Run, i: nat, n: nat, v: VariantId)
    requires r.noTimeout && r.storeOk && r.freshWrites && r.solo && IsRun(r, run) && i <= n < |run.states|
    requires ReadyIn(run.states[i].db, v)
    requires forall k :: i <= k < n && run.actions[k].Cms? ==> !Regardless(run.actions[k].cms, v)
    ensures ReadyIn(run.states[n].db, v)
    decreases n - i
  {
    if i < n {
      ReadyStays(r, run, i, n - 1, v);
      SoloHolds(r, run, n - 1);
      assert StepsAt(r, run, n - 1);
      OnlyCmsUndoes(r, run.states[n - 1], run.actions[n - 1], v);
      LeavesReadyIff(run.states[n - 1], run.actions[n - 1], v);
    }
  }
}
