/** What is never dispatched: a job that was flagged before its attempt read it, and a job of an asset that
    has been deleted. */
module Dispatching {
  import opened Basics
  import opened Jobs
  import opened Protocol
  import opened ProtocolInvariant
  import opened Finalization
  import opened StopReasons
  import opened Statuses

  /** The asset that a transcode, a capture or a synthesis is about has been deleted. */
  predicate AssetGone(db: Db, row: Job) {
    (row.kind == VariantTranscode && row.target in db.variants && OriginOf(db, row.target).asset in db.deletedAssets)
    || (row.kind == StreamCapture && row.target in db.deletedAssets)
    || (row.kind == VoiceSynthesis && row.target in db.deletedAssets)
  }

  /** The check before the dispatch decides between the two ways on. */
  lemma DispatchesIff(s: State, w: WorkerId)
    requires w in s.workers && s.workers[w].phase.Preflight?
    ensures WorkEnabled(s, w, Dispatch) <==> !s.workers[w].phase.row.cancelRequested && !AssetGone(s.db, s.workers[w].phase.row)
    ensures WorkEnabled(s, w, CancelBefore(true)) <==> s.workers[w].phase.row.cancelRequested || AssetGone(s.db, s.workers[w].phase.row)
  {
  }

  // ------------------------------------------------------------- invariant

  /** Job `j` is flagged, or gone for good. */
  predicate Flagged(s: State, j: JobId) {
    j < s.db.nextJob && (j in s.db.jobs ==> s.db.jobs[j].cancelRequested)
  }

  /** If attempt `w` is on job `j` and has not been dispatched, it has read no unflagged row of it. */
  predicate ReadFlagged(s: State, w: WorkerId, j: JobId) {
    w in s.workers && s.workers[w].job == j ==> Undispatched(s.workers[w].phase)
  }

  predicate Undispatched(p: Phase) {
    match p
    case Claiming(row) => row.cancelRequested
    case Preflight(row) => row.cancelRequested
    case Received | Poison(_) | Mirroring(_) | Obsolete | Deleting(_) | Exited => true
    case _ => false
  }

  lemma StepKeepsFlagged(s: State, a: Action, j: JobId)
    requires Base(s) && Enabled(s, a) && Flagged(s, j)
    ensures Flagged(Do(s, a), j)
  {
    if j in s.db.jobs && j in Do(s, a).db.jobs { JobColumnsAfter(s, a, j); }
    match a
    case Cms(c) =>
      CmsKeepsDb(s, c);
    case Work(w, k) => EffectFrame(s, w, k);
    case _ => QuietFrame(s, a);
  }

  lemma WorkReads(s: State, w: WorkerId, a: WorkStep, j: JobId)
    requires WorkEnabled(s, w, a) && Flagged(s, j) && ReadFlagged(s, w, j) && s.workers[w].job == j
    ensures ReadFlagged(DoWork(s, w, a), w, j)
  {
    EffectReads(s, s.workers[w], a);
  }

  lemma ClaimReads(s: State, k: Worker)
    requires k.phase.Claiming? && k.phase.row.cancelRequested
    ensures Undispatched(ClaimEffect(s, k).phase)
  {
  }

  lemma EffectReads(s: State, k: Worker, a: WorkStep)
    requires PhaseAllows(s, k, a) && Flagged(s, k.job) && Undispatched(k.phase)
    ensures Undispatched(WorkEffect(s, k, a).phase)
  {
    match a
    case Claim(_) => ClaimReads(s, k);
    case Dispatch => assert false;
    case Handle(_) => assert false;
    case Finalize(_) => assert false;
    case Mark(_) => assert false;
    case _ =>
  }

  lemma StepKeepsRead(s: State, a: Action, w: WorkerId, j: JobId)
    requires Base(s) && Enabled(s, a) && Flagged(s, j) && ReadFlagged(s, w, j)
    ensures ReadFlagged(Do(s, a), w, j)
  {
    if a.Work? && a.w == w {
      if s.workers[w].job == j { WorkReads(s, w, a.work, j); }
    } else if !a.Work? && !a.Cms? {
      QuietFrame(s, a);
    }
  }

  lemma {:induction false} ReadFlaggedHolds(r: Rules, run: Run, i: nat, n: nat, w: WorkerId, j: JobId)
    requires IsRun(r, run) && i <= n < |run.states| && Flagged(run.states[i], j) && ReadFlagged(run.states[i], w, j)
    ensures Flagged(run.states[n], j) && ReadFlagged(run.states[n], w, j)
    decreases n - i
  {
    if i < n {
      ReadFlaggedHolds(r, run, i, n - 1, w, j);
      BaseHolds(r, run, n - 1);
      assert StepsAt(r, run, n - 1);
      StepKeepsFlagged(run.states[n - 1], run.actions[n - 1], j);
      StepKeepsRead(run.states[n - 1], run.actions[n - 1], w, j);
    }
  }

  // -------------------------------------------------------------- theorems

  /** Theorem: a job that was flagged for cancellation before an attempt read its row is never
      dispatched by that attempt. */
  lemma FlaggedNotDispatched(r: Rules, run: Run, i: nat, n: nat, w: WorkerId)
    requires IsRun(r, run) && i <= n < |run.actions| && run.actions[n] == Work(w, Dispatch)
    requires w !in run.states[i].workers || run.states[i].workers[w].phase.Received?
    ensures w in run.states[n].workers
    ensures var j := run.states[n].workers[w].job; j in run.states[i].db.jobs ==> !run.states[i].db.jobs[j].cancelRequested
  {
    assert StepsAt(r, run, n);
    var j := run.states[n].workers[w].job;
    if j in run.states[i].db.jobs && run.states[i].db.jobs[j].cancelRequested {
      BaseHolds(r, run, i);
      assert Flagged(run.states[i], j) && ReadFlagged(run.states[i], w, j);
      ReadFlaggedHolds(r, run, i, n, w, j);
      DispatchesIff(run.states[n], w);
      assert false;
    }
  }

  lemma {:induction false} DeletionsStay(r: Rules, run: Run, i: nat, n: nat)
    requires IsRun(r, run) && i <= n < |run.states|
    ensures run.states[i].db.deletedAssets <= run.states[n].db.deletedAssets
    decreases n - i
  {
    if i < n {
      DeletionsStay(r, run, i, n - 1);
      assert StepsAt(r, run, n - 1);
      StepKeepsDeletions(run.states[n - 1], run.actions[n - 1]);
    }
  }

  lemma StepKeepsDeletions(s: State, a: Action)
    requires Enabled(s, a)
    ensures s.db.deletedAssets <= Do(s, a).db.deletedAssets
    ensures a.Cms? && a.cms.DeleteAsset? ==> a.cms.asset in Do(s, a).db.deletedAssets
  {
    match a
    case Cms(_) =>
    case Work(w, k) => EffectFrame(s, w, k);
    case _ => QuietFrame(s, a);
  }

  /** Theorem: once an asset has been deleted, no capture or synthesis of it and no transcode of a variant
      that is still there is dispatched. */
  lemma DeletedNotDispatched(r: Rules, run: Run, i: nat, n: nat, w: WorkerId, asset: AssetId)
    requires IsRun(r, run) && i < n < |run.actions| && run.actions[i] == Cms(DeleteAsset(asset)) && run.actions[n] == Work(w, Dispatch)
    ensures w in run.states[n].workers && run.states[n].workers[w].phase.Preflight?
    ensures var db, row := run.states[n].db, run.states[n].workers[w].phase.row;
      (row.kind == StreamCapture || row.kind == VoiceSynthesis ==> row.target != asset)
      && (row.kind == VariantTranscode && row.target in db.variants ==> OriginOf(db, row.target).asset != asset)
  {
    assert StepsAt(r, run, i) && StepsAt(r, run, n);
    StepKeepsDeletions(run.states[i], run.actions[i]);
    DeletionsStay(r, run, i + 1, n);
    DispatchesIff(run.states[n], w);
  }
}
