/** The file behind a READY variant: which steps take an output file away, and in which runs none
    takes it from under a READY row. */
module OutputFiles {
  import opened Basics
  import opened Jobs
  import opened Protocol
  import opened ProtocolInvariant
  import opened PublishSafety
  import opened ReadyAbsorbing

  /** The steps that remove variant `v`'s file: the two aborts of a worker on `v`, a reset, and an unlink
      by the CMS, which a recapture, a reaper, a profile's deletion and the clearing of errors make
      before they touch the row. */
  predicate TakesFile(s: State, a: Action, v: VariantId)
    requires Enabled(s, a)
  {
    match a
    case Cms(c) => c == ResetVariant(v) || c == UnlinkOutput(v)
    case Work(w, Handle(h)) => (h.AbortLost? || h.SeesDeletion?) && s.workers[w].phase.row.target == v
    case _ => false
  }

  lemma HandlerTakesIff(db: Db, outputs: set<VariantId>, k: Worker, h: HandlerStep, v: VariantId)
    requires HandlerEnabled(db, k, h) && v in outputs
    ensures v !in Handler(db, outputs, k.phase.row, h).outputs <==> (h.AbortLost? || h.SeesDeletion?) && k.phase.row.target == v
  {
  }

  lemma WorkTakesIff(s: State, w: WorkerId, a: WorkStep, v: VariantId)
    requires WorkEnabled(s, w, a) && v in s.outputs
    ensures v !in WorkEffect(s, s.workers[w], a).outputs <==> TakesFile(s, Work(w, a), v)
  {
    if a.Handle? { HandlerTakesIff(s.db, s.outputs, s.workers[w], a.h, v); }
  }

  /** Theorem: a variant's file goes at a step if and only if it is one of `TakesFile`. */
  lemma LosesFileIff(s: State, a: Action, v: VariantId)
    requires Enabled(s, a) && v in s.outputs
    ensures v !in Do(s, a).outputs <==> TakesFile(s, a, v)
  {
    if a.Work? { WorkTakesIff(s, a.w, a.work, v); }
    if a.Beat? { BeatFrame(s, a.w, a.beat); }
  }

  // ------------------------------------------------------------------ runs

  predicate HasEncoded(p: Phase, v: VariantId) {
    (p.Encoded? || p.Cleared? || p.Published?) && p.row.target == v
  }

  /** Whoever has encoded `v` and is still at it finds its file there. */
  ghost predicate FilesThere(s: State, v: VariantId) {
    forall w :: w in s.workers && HasEncoded(s.workers[w].phase, v) ==> v in s.outputs
  }

  lemma NextEncoded(s: State, k: Worker, a: WorkStep, v: VariantId)
    requires PhaseAllows(s, k, a)
    ensures var e := WorkEffect(s, k, a);
      HasEncoded(e.phase, v) ==> (HasEncoded(k.phase, v) && e.outputs == s.outputs) || v in e.outputs
  {
    if a.Handle? { HandlerEncoded(s.db, s.outputs, k, a.h, v); }
  }

  lemma HandlerEncoded(db: Db, outputs: set<VariantId>, k: Worker, h: HandlerStep, v: VariantId)
    requires HandlerEnabled(db, k, h)
    ensures var e := Handler(db, outputs, k.phase.row, h);
      HasEncoded(e.phase, v) ==> (HasEncoded(k.phase, v) && e.outputs == outputs) || v in e.outputs
  {
  }

  /** Another worker cannot take the file while `x` is at it. */
  lemma OneAtAFile(s: State, w: WorkerId, a: WorkStep, v: VariantId, x: WorkerId)
    requires WorkEnabled(s, w, a) && Solo(s) && x in s.workers && x != w && HasEncoded(s.workers[x].phase, v) && v in s.outputs
    ensures v in WorkEffect(s, s.workers[w], a).outputs
  {
    assert Busy(s.workers[x]) && !BusyWith(s.workers[w], v);
    WorkTakesIff(s, w, a, v);
    TakerIsBusy(s, w, a, v);
  }

  lemma TakerIsBusy(s: State, w: WorkerId, a: WorkStep, v: VariantId)
    requires WorkEnabled(s, w, a)
    ensures TakesFile(s, Work(w, a), v) ==> BusyWith(s.workers[w], v)
  {
  }

  lemma WorkKeepsFiles(s: State, w: WorkerId, a: WorkStep, v: VariantId)
    requires WorkEnabled(s, w, a) && Solo(s) && FilesThere(s, v)
    ensures FilesThere(DoWork(s, w, a), v)
  {
    NextEncoded(s, s.workers[w], a, v);
    forall x | x in s.workers && x != w && HasEncoded(s.workers[x].phase, v)
      ensures v in WorkEffect(s, s.workers[w], a).outputs
    {
      OneAtAFile(s, w, a, v, x);
    }
    ApplyKeepsFiles(s, w, WorkEffect(s, s.workers[w], a), v);
  }

  lemma ApplyKeepsFiles(s: State, w: WorkerId, e: Effect, v: VariantId)
    requires w in s.workers && FilesThere(s, v)
    requires HasEncoded(e.phase, v) ==> (HasEncoded(s.workers[w].phase, v) && e.outputs == s.outputs) || v in e.outputs
    requires forall x :: x in s.workers && x != w && HasEncoded(s.workers[x].phase, v) ==> v in e.outputs
    ensures FilesThere(Apply(s, w, e), v)
  {
  }

  lemma OthersKeepFiles(r: Rules, s: State, a: Action, v: VariantId)
    requires Enabled(s, a) && Allowed(r, s, a) && r.solo && !a.Work? && FilesThere(s, v)
    ensures FilesThere(Do(s, a), v)
  {
    var s' := Do(s, a);
    if !a.Cms? { QuietFrame(s, a); }
    forall x | x in s'.workers && HasEncoded(s'.workers[x].phase, v) ensures v in s'.outputs {
      assert x in s.workers && HasEncoded(s.workers[x].phase, v);
      LosesFileIff(s, a, v);
      assert BusyWith(s.workers[x], v);
      assert TakesFile(s, a, v) ==> Undisturbed(s, v);
    }
  }

  lemma {:induction false} FilesHold(r: Rules, run: Run, n: nat, v: VariantId)
    requires r.solo && IsRun(r, run) && n < |run.states|
    ensures FilesThere(run.states[n], v)
  {
    if n > 0 {
      FilesHold(r, run, n - 1, v);
      SoloHolds(r, run, n - 1);
      assert StepsAt(r, run, n - 1);
      var s, a := run.states[n - 1], run.actions[n - 1];
      if a.Work? { WorkKeepsFiles(s, a.w, a.work, v); } else { OthersKeepFiles(r, s, a, v); }
    }
  }

  /** Under the solo rule a READY variant loses its file only to an unlink by the CMS. */
  lemma ReadyKeepsFile(r: Rules, s: State, a: Action, v: VariantId)
    requires Enabled(s, a) && Solo(s) && ReadyIn(s.db, v) && ReadyIn(Do(s, a).db, v) && v in s.outputs
    requires a != Cms(UnlinkOutput(v))
    ensures v in Do(s, a).outputs
  {
    LosesFileIff(s, a, v);
    assert TakesFile(s, a, v) && a.Work? ==> s.workers[a.w].phase.Producing();
  }

  /** Theorem: if nobody starts on, resets or unlinks a variant that somebody is producing or
      publishing, a variant published in the run keeps its file for as long as it stays READY and the
      CMS does not unlink it. */
  lemma {:induction false} PublishedKeepsFile(r: Rules, run: Run, i: nat, n: nat, v: VariantId)
    requires r.solo && IsRun(r, run) && i < n < |run.states| && Publishes(run.states[i], run.actions[i], v)
    requires forall m :: i < m <= n ==> ReadyIn(run.states[m].db, v)
    requires forall m :: i < m < n ==> run.actions[m] != Cms(UnlinkOutput(v))
    ensures v in run.states[n].outputs
    decreases n - i
  {
    assert StepsAt(r, run, n - 1);
    if n == i + 1 {
      FilesHold(r, run, i, v);
      assert HasEncoded(run.states[i].workers[run.actions[i].w].phase, v);
    } else {
      PublishedKeepsFile(r, run, i, n - 1, v);
      SoloHolds(r, run, n - 1);
      ReadyKeepsFile(r, run.states[n - 1], run.actions[n - 1], v);
    }
  }
}
