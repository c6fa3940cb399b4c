/** Who may publish a variant.  The READY write happens under the variant's only
    active job, and two workers never publish one variant without it having left
    READY in between. */
module PublishSafety {
  import opened Basics
  import opened Jobs
  import opened Protocol
  import opened ProtocolInvariant

  // ------------------------------------------------ what the CMS can touch

  /** No CMS transaction revives a terminal job or makes a variant READY. */
  lemma CmsQuiet(s: State, c: CmsStep)
    requires DbOk(s.db) && CmsEnabled(s, c)
    ensures var db' := CmsDb(s.db, c);
      (forall j :: j in s.db.jobs && j in db'.jobs && db'.jobs[j].status.Active() ==> db'.jobs[j] == s.db.jobs[j].(stale := db'.jobs[j].stale, cancelRequested := db'.jobs[j].cancelRequested))
      && (forall j :: j in db'.jobs && j !in s.db.jobs ==> j == s.db.nextJob && j in db'.outbox && db'.jobs[j].status == Pending)
      && (forall v :: v in db'.variants && db'.variants[v] == VReady ==> v in s.db.variants && s.db.variants[v] == VReady)
  {
    if c.RecoverStalled? { RecoverStages(s.db, c.j); }
  }

  // -------------------------------------------------------------- leases

  /** Every job has one carrier: its outbox row or its one message. */
  ghost predicate OneCarrier(s: State) {
    (forall m, n :: m in s.queue.messages && n in s.queue.messages && m != n ==>
       s.queue.messages[m].job != s.queue.messages[n].job)
    && (forall m :: m in s.queue.messages ==> s.queue.messages[m].job !in s.db.outbox)
  }

  ghost predicate AllHeld(s: State) {
    forall w :: w in s.workers && s.workers[w].phase.Live() ==>
      Holds(s, s.workers[w]) && !s.queue.messages[s.workers[w].msg].visible
  }

  ghost predicate Leased(s: State) {
    OneCarrier(s) && AllHeld(s)
  }

  lemma OneWorkerPerJob(s: State, w: WorkerId, x: WorkerId)
    requires Base(s) && Leased(s)
    requires w in s.workers && x in s.workers && w != x && s.workers[w].phase.Live() && s.workers[x].phase.Live()
    ensures s.workers[w].job != s.workers[x].job
  {
    assert WorkerOk(s.db, s.queue, s.workers[w]) && WorkerOk(s.db, s.queue, s.workers[x]);
    assert Holds(s, s.workers[w]) && Holds(s, s.workers[x]);
  }

  lemma WorkKeepsLeases(s: State, w: WorkerId, a: WorkStep)
    requires Base(s) && WorkEnabled(s, w, a) && Leased(s)
    ensures Leased(DoWork(s, w, a))
  {
    EffectFrame(s, w, a);
    RemovingExits(s, s.workers[w], a);
    ApplyKeepsLeases(s, w, WorkEffect(s, s.workers[w], a));
  }

  lemma RemovingExits(s: State, k: Worker, a: WorkStep)
    requires PhaseAllows(s, k, a)
    ensures k.phase.Live() && (WorkEffect(s, k, a).removes ==> WorkEffect(s, k, a).phase.Exited?)
  {
  }

  lemma ApplyKeepsLeases(s: State, w: WorkerId, e: Effect)
    requires Base(s) && Leased(s) && w in s.workers && s.workers[w].phase.Live()
    requires e.db.outbox == s.db.outbox && (e.removes ==> e.phase.Exited?)
    ensures Leased(Apply(s, w, e))
  {
    var s' := Apply(s, w, e);
    forall x | x in s'.workers && s'.workers[x].phase.Live()
      ensures Holds(s', s'.workers[x]) && !s'.queue.messages[s'.workers[x].msg].visible
    {
      assert Holds(s, s.workers[x]) && Holds(s, s.workers[w]);
    }
  }

  lemma BeatKeepsLeases(s: State, w: WorkerId, b: BeatStep)
    requires Base(s) && BeatEnabled(s, w, b) && Leased(s)
    ensures Leased(DoBeat(s, w, b))
  {
    BeatFrame(s, w, b);
    var s' := DoBeat(s, w, b);
    forall x | x in s'.workers && s'.workers[x].phase.Live()
      ensures Holds(s', s'.workers[x]) && !s'.queue.messages[s'.workers[x].msg].visible
    {
      assert Holds(s, s.workers[x]) && Holds(s, s.workers[w]);
    }
  }

  lemma QueueKeepsLeases(r: Rules, s: State, q: QueueStep)
    requires r.leaseHeld && r.singleSend
    requires Base(s) && QueueEnabled(s, q) && Allowed(r, s, Queueing(q)) && Leased(s)
    ensures Leased(DoQueue(s, q))
  {
    var s' := DoQueue(s, q);
    forall x | x in s'.workers && s'.workers[x].phase.Live()
      ensures Holds(s', s'.workers[x]) && !s'.queue.messages[s'.workers[x].msg].visible
    {
      assert WorkerOk(s.db, s.queue, s.workers[x]) && Holds(s, s.workers[x]);
    }
  }

  lemma ReceiveKeepsLeases(s: State, w: WorkerId, m: MsgId)
    requires Base(s) && ReceiveEnabled(s, w, m) && Leased(s)
    ensures Leased(DoReceive(s, w, m))
  {
    var s' := DoReceive(s, w, m);
    forall x | x in s'.workers && s'.workers[x].phase.Live()
      ensures Holds(s', s'.workers[x]) && !s'.queue.messages[s'.workers[x].msg].visible
    {
      if x != w { assert Holds(s, s.workers[x]); }
    }
  }

  lemma CmsKeepsLeases(s: State, c: CmsStep)
    requires Base(s) && CmsEnabled(s, c) && Leased(s)
    ensures Leased(Do(s, Cms(c)))
  {
    CmsOutbox(s, c);
    var s' := Do(s, Cms(c));
    forall x | x in s'.workers && s'.workers[x].phase.Live()
      ensures Holds(s', s'.workers[x]) && !s'.queue.messages[s'.workers[x].msg].visible
    {
      assert Holds(s, s.workers[x]);
    }
  }

  lemma SignalKeepsLeases(s: State, a: Action)
    requires Base(s) && Enabled(s, a) && Leased(s) && (a.Sigterm? || a.GrowOld? || a.Crash?)
    ensures Leased(Do(s, a))
  {
    var s' := Do(s, a);
    forall x | x in s'.workers && s'.workers[x].phase.Live()
      ensures Holds(s', s'.workers[x]) && !s'.queue.messages[s'.workers[x].msg].visible
    {
      assert Holds(s, s.workers[x]);
    }
  }

  lemma StepKeepsLeases(r: Rules, s: State, a: Action)
    requires r.leaseHeld && r.singleSend
    requires Base(s) && Enabled(s, a) && Allowed(r, s, a) && Leased(s)
    ensures Leased(Do(s, a))
  {
    match a
    case Cms(c) => CmsKeepsLeases(s, c);
    case Queueing(q) => QueueKeepsLeases(r, s, q);
    case Receive(w, m) => ReceiveKeepsLeases(s, w, m);
    case Work(w, k) => WorkKeepsLeases(s, w, k);
    case Beat(w, b) => BeatKeepsLeases(s, w, b);
    case _ => SignalKeepsLeases(s, a);
  }

  /** New outbox rows are for new jobs. */
  lemma CmsOutbox(s: State, c: CmsStep)
    requires DbOk(s.db) && CmsEnabled(s, c)
    ensures forall j :: j in CmsDb(s.db, c).outbox && j !in s.db.outbox ==> j >= s.db.nextJob
  {
    if c.RecoverStalled? { RecoverStages(s.db, c.j); }
  }

  // ----------------------------------------------------------- publishing

  /** Once a guarded variant is READY, whoever is still producing it has lost its job. */
  ghost predicate ReadyExcludes(s: State) {
    forall w :: w in s.workers && s.workers[w].phase.Producing() ==> Excluded(s.db, s.workers[w])
  }

  predicate Excluded(db: Db, k: Worker)
    requires k.phase.HasRow()
  {
    var v := k.phase.row.target;
    Guarded(db, v) && v in db.variants && db.variants[v] == VReady ==> OwnerLost(db, k.job)
  }

  lemma WorkKeepsExcluded(r: Rules, s: State, w: WorkerId, a: WorkStep, x: WorkerId)
    requires r.leaseHeld && r.singleSend && r.atomicPublish
    requires Base(s) && WorkEnabled(s, w, a) && Allowed(r, s, Work(w, a)) && Leased(s) && ReadyExcludes(s)
    requires x in s.workers && DoWork(s, w, a).workers[x].phase.Producing()
    ensures Excluded(DoWork(s, w, a).db, DoWork(s, w, a).workers[x])
  {
    if x != w {
      OtherStaysExcluded(r, s, w, a, x);
    } else {
      OwnWorkExcluded(s, w, a);
    }
  }

  lemma OwnWorkExcluded(s: State, w: WorkerId, a: WorkStep)
    requires WorkEnabled(s, w, a) && ReadyExcludes(s) && WorkEffect(s, s.workers[w], a).phase.Producing()
    ensures var s' := Apply(s, w, WorkEffect(s, s.workers[w], a));
      s'.workers[w].phase.HasRow() && Excluded(s'.db, s'.workers[w])
  {
    if s.workers[w].phase.Producing() { assert Excluded(s.db, s.workers[w]); }
    OwnKeepsExcluded(s, s.workers[w], a);
    ApplyExcluded(s, w, WorkEffect(s, s.workers[w], a));
  }

  lemma ApplyExcluded(s: State, w: WorkerId, e: Effect)
    requires w in s.workers && e.phase.HasRow() && e.phase.Producing() && Excluded(e.db, s.workers[w].(phase := e.phase))
    ensures var s' := Apply(s, w, e); s'.workers[w].phase.HasRow() && Excluded(s'.db, s'.workers[w])
  {
  }

  lemma OwnKeepsExcluded(s: State, k: Worker, a: WorkStep)
    requires PhaseAllows(s, k, a) && WorkEffect(s, k, a).phase.Producing()
    requires k.phase.Producing() ==> Excluded(s.db, k)
    ensures var e := WorkEffect(s, k, a); e.phase.HasRow() && Excluded(e.db, k.(phase := e.phase))
  {
    OthersProduceNothing(s, k, a);
    OwnStaysExcluded(s, k, a.h);
  }

  /** A step of `w` publishes under the only active job, so every other producer is excluded. */
  lemma OtherStaysExcluded(r: Rules, s: State, w: WorkerId, a: WorkStep, x: WorkerId)
    requires r.leaseHeld && r.singleSend && r.atomicPublish
    requires Base(s) && WorkEnabled(s, w, a) && Allowed(r, s, Work(w, a)) && Leased(s) && ReadyExcludes(s)
    requires x in s.workers && x != w && s.workers[x].phase.Producing()
    ensures Excluded(WorkEffect(s, s.workers[w], a).db, s.workers[x])
  {
    EffectFrame(s, w, a);
    assert Excluded(s.db, s.workers[x]);
    assert WorkerOk(s.db, s.queue, s.workers[x]) && WorkerOk(s.db, s.queue, s.workers[w]);
    assert s.workers[w].phase.Live();
    OneWorkerPerJob(s, w, x);
    if a == Handle(Commit) && Guarded(s.db, s.workers[w].phase.row.target) && s.workers[x].job in s.db.jobs {
      if s.workers[x].phase.row.target == s.workers[w].phase.row.target && s.db.jobs[s.workers[x].job].status.Active() {
        OneActive(s.db.jobs, s.workers[w].job, s.workers[x].job, s.workers[w].phase.row.target);
      }
    }
  }

  lemma OthersProduceNothing(s: State, k: Worker, a: WorkStep)
    requires PhaseAllows(s, k, a)
    ensures WorkEffect(s, k, a).phase.Producing() ==> a.Handle?
  {
  }

  /** Nobody goes on producing a variant that is READY, except a worker already excluded. */
  lemma OwnStaysExcluded(s: State, k: Worker, h: HandlerStep)
    requires HandlerEnabled(s.db, k, h) && Handler(s.db, s.outputs, k.phase.row, h).phase.Producing()
    requires k.phase.Producing() ==> Excluded(s.db, k)
    ensures var e := Handler(s.db, s.outputs, k.phase.row, h); e.phase.HasRow() && Excluded(e.db, k.(phase := e.phase))
  {
    HandlerProducing(s.db, s.outputs, k, h);
    var e := Handler(s.db, s.outputs, k.phase.row, h);
    StaysExcluded(s.db, k, e.db, k.(phase := e.phase));
  }

  lemma StaysExcluded(db: Db, k: Worker, db': Db, k': Worker)
    requires k.phase.HasRow() && k'.phase.HasRow() && k'.phase.row == k.phase.row && k'.job == k.job
    requires var v := k.phase.row.target; (Excluded(db, k) && db' == db) || (v in db'.variants && db'.variants[v] != VReady)
    ensures Excluded(db', k')
  {
  }

  lemma HandlerProducing(db: Db, outputs: set<VariantId>, k: Worker, h: HandlerStep)
    requires HandlerEnabled(db, k, h) && Handler(db, outputs, k.phase.row, h).phase.Producing()
    ensures var e := Handler(db, outputs, k.phase.row, h);
      e.phase.HasRow() && e.phase.row == k.phase.row
      && if k.phase.Producing() && h != Start then e.db == db
         else k.phase.row.target in e.db.variants && e.db.variants[k.phase.row.target] != VReady
  {
  }

  lemma CmsKeepsExcludes(s: State, c: CmsStep)
    requires Base(s) && CmsEnabled(s, c) && ReadyExcludes(s)
    ensures ReadyExcludes(Do(s, Cms(c)))
  {
    CmsKeepsDb(s, c);
    CmsQuiet(s, c);
    var db' := CmsDb(s.db, c);
    forall x | x in s.workers && s.workers[x].phase.Producing()
      ensures Excluded(db', s.workers[x])
    {
      assert Excluded(s.db, s.workers[x]) && WorkerOk(s.db, s.queue, s.workers[x]);
    }
  }

  lemma QuietStepKeepsExcludes(s: State, a: Action)
    requires Base(s) && Enabled(s, a) && !a.Work? && !a.Cms? && ReadyExcludes(s)
    ensures ReadyExcludes(Do(s, a))
  {
    QuietFrame(s, a);
    var s' := Do(s, a);
    forall x | x in s'.workers && s'.workers[x].phase.Producing()
      ensures Excluded(s'.db, s'.workers[x])
    {
      assert Excluded(s.db, s.workers[x]);
    }
  }

  lemma StepKeepsExcludes(r: Rules, s: State, a: Action)
    requires r.leaseHeld && r.singleSend && r.atomicPublish
    requires Base(s) && Enabled(s, a) && Allowed(r, s, a) && Leased(s) && ReadyExcludes(s)
    ensures ReadyExcludes(Do(s, a))
  {
    if a.Work? {
      var s' := Do(s, a);
      forall x | x in s'.workers && s'.workers[x].phase.Producing()
        ensures Excluded(s'.db, s'.workers[x])
      {
        WorkKeepsExcluded(r, s, a.w, a.work, x);
      }
    } else if a.Cms? {
      CmsKeepsExcludes(s, a.cms);
    } else {
      QuietStepKeepsExcludes(s, a);
    }
  }

  lemma {:induction false} LeasesHold(r: Rules, run: Run, n: nat)
    requires r.leaseHeld && r.singleSend && IsRun(r, run) && n < |run.states|
    ensures Base(run.states[n]) && Leased(run.states[n])
  {
    BaseHolds(r, run, n);
    if n > 0 {
      LeasesHold(r, run, n - 1);
      assert StepsAt(r, run, n - 1);
      StepKeepsLeases(r, run.states[n - 1], run.actions[n - 1]);
    }
  }

  lemma {:induction false} SafetyHolds(r: Rules, run: Run, n: nat)
    requires r.leaseHeld && r.singleSend && r.atomicPublish && IsRun(r, run) && n < |run.states|
    ensures Base(run.states[n]) && Leased(run.states[n]) && ReadyExcludes(run.states[n])
  {
    LeasesHold(r, run, n);
    if n > 0 {
      SafetyHolds(r, run, n - 1);
      LeasesHold(r, run, n - 1);
      assert StepsAt(r, run, n - 1);
      StepKeepsExcludes(r, run.states[n - 1], run.actions[n - 1]);
    }
  }

  // ------------------------------------------------------------- theorems

  predicate Publishes(s: State, a: Action, v: VariantId) {
    a.Work? && a.work == Handle(Commit) && a.w in s.workers && s.workers[a.w].phase.Cleared?
    && s.workers[a.w].phase.row.target == v
  }

  /** Theorem: in any run whose guards and commit are one step, nothing of a deleted asset is published,
      whatever its source. */
  lemma PublishOfLiveAsset(r: Rules, run: Run, i: nat, v: VariantId)
    requires r.atomicPublish && IsRun(r, run) && i < |run.actions| && Publishes(run.states[i], run.actions[i], v)
    ensures OriginOf(run.states[i].db, v).asset !in run.states[i].db.deletedAssets
  {
    assert StepsAt(r, run, i);
  }

  /** Theorem: in any run whose guards and commit are one step, a guarded variant is
      published under its only active job. */
  lemma PublishUnderOnlyActiveJob(r: Rules, run: Run, i: nat, v: VariantId)
    requires r.atomicPublish && IsRun(r, run) && i < |run.actions|
    requires Publishes(run.states[i], run.actions[i], v) && Guarded(run.states[i].db, v)
    ensures var s := run.states[i]; var j := s.workers[run.actions[i].w].job;
      j in s.db.jobs && ActiveFor(s.db.jobs[j], VariantTranscode, v)
      && forall x :: x in s.db.jobs && ActiveFor(s.db.jobs[x], VariantTranscode, v) ==> x == j
  {
    BaseHolds(r, run, i);
    var s := run.states[i];
    var k := s.workers[run.actions[i].w];
    assert StepsAt(r, run, i) && WorkerOk(s.db, s.queue, k);
    forall x | x in s.db.jobs && ActiveFor(s.db.jobs[x], VariantTranscode, v)
      ensures x == k.job
    {
      OneActive(s.db.jobs, x, k.job, v);
    }
  }

  /** Theorem: with leases that outlive their holders, single sends and atomic publishing,
      nobody publishes a guarded variant that is READY at that moment. */
  lemma NoPublishOverReady(r: Rules, run: Run, i: nat, v: VariantId)
    requires r.leaseHeld && r.singleSend && r.atomicPublish && IsRun(r, run) && i < |run.actions|
    requires Publishes(run.states[i], run.actions[i], v) && Guarded(run.states[i].db, v) && v in run.states[i].db.variants
    ensures run.states[i].db.variants[v] != VReady
  {
    SafetyHolds(r, run, i);
    assert StepsAt(r, run, i);
    assert Excluded(run.states[i].db, run.states[i].workers[run.actions[i].w]);
  }

  /** Theorem: hence between two publications of one variant it has left READY. */
  lemma NoDoublePublish(r: Rules, run: Run, i: nat, j: nat, v: VariantId) returns (n: nat)
    requires r.leaseHeld && r.singleSend && r.atomicPublish && IsRun(r, run) && i < j < |run.actions|
    requires Publishes(run.states[i], run.actions[i], v) && Publishes(run.states[j], run.actions[j], v)
    requires Guarded(run.states[i].db, v) && v in run.states[i].db.variants
    ensures i + 1 < n <= j && (v in run.states[n].db.variants ==> run.states[n].db.variants[v] != VReady)
    ensures v in run.states[i + 1].db.variants && run.states[i + 1].db.variants[v] == VReady
  {
    assert StepsAt(r, run, i);
    OriginsFixed(r, run, i, j);
    if v in run.states[j].db.variants { NoPublishOverReady(r, run, j, v); }
    n := j;
    assert run.states[i + 1].db.variants[v] == VReady;
  }

  lemma {:induction false} OriginsFixed(r: Rules, run: Run, i: nat, j: nat)
    requires IsRun(r, run) && i <= j < |run.states|
    ensures run.states[j].db.origins == run.states[i].db.origins
    decreases j - i
  {
    if i < j {
      OriginsFixed(r, run, i, j - 1);
      assert StepsAt(r, run, j - 1);
      var s, a := run.states[j - 1], run.actions[j - 1];
      BaseHolds(r, run, j - 1);
      match a {
        case Cms(c) => CmsKeepsDb(s, c);
        case Work(w, k) => EffectFrame(s, w, k);
        case _ =>
      }
    }
  }
}
