/** No job is lost: a PENDING job can always still be picked up. */
module NoJobLost {
  import opened Basics
  import opened Jobs
  import opened Protocol
  import opened ProtocolInvariant
  import opened PublishSafety

  /** Nobody who has got past the claim holds this message, so nobody is about to remove it. */
  ghost predicate Free(s: State, m: MsgId) {
    m in s.queue.messages
    && forall w :: w in s.workers && s.workers[w].phase.PastClaim() && s.workers[w].msg == m ==> !Holds(s, s.workers[w])
  }

  /** And whoever is in the middle of claiming it has read a PENDING job, so its UPDATE will set a status. */
  ghost predicate Ripe(s: State, m: MsgId) {
    Free(s, m)
    && forall w :: w in s.workers && s.workers[w].phase.Claiming? && s.workers[w].msg == m && Holds(s, s.workers[w]) ==>
         s.workers[w].phase.row.status == Pending
  }

  ghost predicate Carried(s: State, j: JobId) {
    j in s.db.outbox || exists m :: Free(s, m) && s.queue.messages[m].job == j
  }

  ghost predicate PendingCarried(s: State) {
    forall j :: j in s.db.jobs && s.db.jobs[j].status == Pending ==> Carried(s, j)
  }

  ghost predicate RipelyCarried(s: State, j: JobId) {
    j in s.db.outbox || exists m :: Ripe(s, m) && s.queue.messages[m].job == j
  }

  ghost predicate PendingRipe(s: State) {
    forall j :: j in s.db.jobs && s.db.jobs[j].status == Pending ==> RipelyCarried(s, j)
  }

  // ------------------------------------------------------------ main flow

  /** Which steps can leave the worker's own job PENDING. */
  lemma OwnStatus(s: State, w: WorkerId, a: WorkStep)
    requires Base(s) && WorkEnabled(s, w, a)
    ensures var k := s.workers[w]; var e := WorkEffect(s, k, a);
      k.job in e.db.jobs && e.db.jobs[k.job].status == Pending ==>
        s.db.jobs[k.job].status == Pending || (e.note == Finalized(Retry) && e.phase.Exited?)
  {
    EffectFrame(s, w, a);
    if a.Finalize? { FinalStatus(s, s.workers[w], a.ok); }
  }

  lemma PastClaims(s: State, k: Worker, a: WorkStep)
    requires PhaseAllows(s, k, a)
    ensures WorkEffect(s, k, a).removes ==> k.phase.PastClaim() && Holds(s, k)
    ensures WorkEffect(s, k, a).phase.PastClaim() ==> k.phase.PastClaim() || a.Claim? || a.ReadJob?
    ensures WorkEffect(s, k, a).phase.Claiming? ==> a.ReadJob?
  {
  }

  /** A job that stays PENDING over a claim was not read as PENDING, or the claim has failed. */
  lemma ClaimOfPending(s: State, k: Worker, a: WorkStep)
    requires PhaseAllows(s, k, a) && k.job in s.db.jobs && s.db.jobs[k.job].status == Pending
    requires var db' := WorkEffect(s, k, a).db; k.job in db'.jobs && db'.jobs[k.job].status == Pending
    ensures a.ReadJob? ==> WorkEffect(s, k, a).phase == Claiming(s.db.jobs[k.job])
    ensures a.Claim? && k.phase.row.status == Pending ==> WorkEffect(s, k, a).phase.Exited?
  {
  }

  lemma FinalStatus(s: State, k: Worker, ok: bool)
    requires k.phase.Finalizing?
    ensures var e := FinalEffect(s, k, ok);
      k.job in s.db.jobs && k.job in e.db.jobs && e.db.jobs[k.job].status == Pending ==>
        s.db.jobs[k.job].status == Pending || (e.note == Finalized(Retry) && e.phase.Exited?)
  {
  }

  /** A free message stays free, unless the worker that received it claims its job. */
  lemma WorkKeepsFree(s: State, w: WorkerId, a: WorkStep, m: MsgId)
    requires Base(s) && WorkEnabled(s, w, a) && Free(s, m)
    requires WorkEffect(s, s.workers[w], a).phase.PastClaim() && Holds(s, s.workers[w]) && s.workers[w].msg == m ==>
               s.workers[w].phase.PastClaim()
    ensures Free(DoWork(s, w, a), m) && DoWork(s, w, a).queue.messages[m] == s.queue.messages[m]
  {
    PastClaims(s, s.workers[w], a);
    ApplyKeepsFree(s, w, WorkEffect(s, s.workers[w], a), m);
  }

  lemma ApplyKeepsFree(s: State, w: WorkerId, e: Effect, m: MsgId)
    requires w in s.workers && Free(s, m) && (e.removes ==> s.workers[w].phase.PastClaim() && Holds(s, s.workers[w]))
    requires e.phase.PastClaim() && Holds(s, s.workers[w]) && s.workers[w].msg == m ==> s.workers[w].phase.PastClaim()
    ensures Free(Apply(s, w, e), m) && Apply(s, w, e).queue.messages[m] == s.queue.messages[m]
  {
    var s' := Apply(s, w, e);
    forall x | x in s'.workers && s'.workers[x].phase.PastClaim() && s'.workers[x].msg == m
      ensures !Holds(s', s'.workers[x])
    {
      assert x in s.workers && s'.workers[x].receipt == s.workers[x].receipt;
    }
  }

  /** A ripe message stays ripe for as long as its job stays PENDING. */
  lemma WorkKeepsRipe(s: State, w: WorkerId, a: WorkStep, m: MsgId)
    requires Base(s) && WorkEnabled(s, w, a) && Ripe(s, m)
    requires var j := s.queue.messages[m].job; var db' := WorkEffect(s, s.workers[w], a).db;
      j in s.db.jobs && s.db.jobs[j].status == Pending && j in db'.jobs && db'.jobs[j].status == Pending
    ensures Ripe(DoWork(s, w, a), m) && DoWork(s, w, a).queue.messages[m] == s.queue.messages[m]
  {
    var k := s.workers[w];
    assert WorkerOk(s.db, s.queue, k);
    PastClaims(s, k, a);
    if Holds(s, k) && k.msg == m { ClaimOfPending(s, k, a); }
    WorkKeepsFree(s, w, a, m);
    ApplyKeepsRipe(s, w, WorkEffect(s, k, a), m);
  }

  lemma ApplyKeepsRipe(s: State, w: WorkerId, e: Effect, m: MsgId)
    requires w in s.workers && Ripe(s, m) && Free(Apply(s, w, e), m)
    requires Holds(s, s.workers[w]) && s.workers[w].msg == m && e.phase.Claiming? ==> e.phase.row.status == Pending
    ensures Ripe(Apply(s, w, e), m)
  {
    var s' := Apply(s, w, e);
    forall x | x in s'.workers && s'.workers[x].phase.Claiming? && s'.workers[x].msg == m && Holds(s', s'.workers[x])
      ensures s'.workers[x].phase.row.status == Pending
    {
      assert x in s.workers && s'.workers[x].receipt == s.workers[x].receipt;
    }
  }

  /** A worker that exits holding its message leaves it free, and nobody claims it. */
  lemma ExitFrees(s: State, w: WorkerId, a: WorkStep)
    requires Base(s) && WorkEnabled(s, w, a) && Holds(s, s.workers[w])
    requires WorkEffect(s, s.workers[w], a).phase.Exited? && !WorkEffect(s, s.workers[w], a).removes
    ensures Ripe(DoWork(s, w, a), s.workers[w].msg)
  {
    var s' := Apply(s, w, WorkEffect(s, s.workers[w], a));
    forall x | x in s'.workers && s'.workers[x].phase.Live() && s'.workers[x].msg == s.workers[w].msg
      ensures !Holds(s', s'.workers[x])
    {
      assert x != w && s'.workers[x] == s.workers[x];
    }
  }

  lemma WorkKeepsPending(r: Rules, s: State, w: WorkerId, a: WorkStep)
    requires r.retryHolds && Base(s) && WorkEnabled(s, w, a) && Allowed(r, s, Work(w, a)) && PendingRipe(s)
    ensures PendingRipe(DoWork(s, w, a))
  {
    EffectFrame(s, w, a);
    OwnStatus(s, w, a);
    var k := s.workers[w];
    var e := WorkEffect(s, k, a);
    var s' := Apply(s, w, e);
    assert WorkerOk(s.db, s.queue, k);
    forall j | j in s'.db.jobs && s'.db.jobs[j].status == Pending
      ensures RipelyCarried(s', j)
    {
      if j == k.job && e.note == Finalized(Retry) && e.phase.Exited? {
        assert Holds(s, k) by { RetryHeld(r, s, w, a); }
        ExitFrees(s, w, a);
      } else {
        assert RipelyCarried(s, j);
        if j !in s.db.outbox {
          var m: MsgId :| Ripe(s, m) && s.queue.messages[m].job == j;
          WorkKeepsRipe(s, w, a, m);
        }
      }
    }
  }

  lemma RetryHeld(r: Rules, s: State, w: WorkerId, a: WorkStep)
    requires r.retryHolds && WorkEnabled(s, w, a) && Allowed(r, s, Work(w, a))
    requires WorkEffect(s, s.workers[w], a).note == Finalized(Retry)
    ensures Holds(s, s.workers[w])
  {
  }

  // ---------------------------------------------------------- other steps

  lemma CmsPending(s: State, c: CmsStep)
    requires DbOk(s.db) && CmsEnabled(s, c)
    ensures forall j :: j in CmsDb(s.db, c).jobs && CmsDb(s.db, c).jobs[j].status == Pending ==>
              j in CmsDb(s.db, c).outbox
              || (j in s.db.jobs && s.db.jobs[j].status == Pending && j !in s.db.outbox)
  {
    if c.RecoverStalled? { RecoverStages(s.db, c.j); }
  }

  lemma CmsKeepsPending(s: State, c: CmsStep)
    requires Base(s) && CmsEnabled(s, c) && PendingRipe(s)
    ensures PendingRipe(Do(s, Cms(c)))
  {
    CmsPending(s, c);
    var s' := Do(s, Cms(c));
    forall j | j in s'.db.jobs && s'.db.jobs[j].status == Pending
      ensures RipelyCarried(s', j)
    {
      if j !in s'.db.outbox {
        assert RipelyCarried(s, j);
        var m: MsgId :| Ripe(s, m) && s.queue.messages[m].job == j;
        assert Ripe(s', m);
      }
    }
  }

  lemma QueueKeepsPending(s: State, q: QueueStep)
    requires Base(s) && QueueEnabled(s, q) && PendingRipe(s)
    ensures PendingRipe(DoQueue(s, q))
  {
    var s' := DoQueue(s, q);
    forall j | j in s'.db.jobs && s'.db.jobs[j].status == Pending
      ensures RipelyCarried(s', j)
    {
      assert RipelyCarried(s, j);
      if j !in s'.db.outbox {
        if j in s.db.outbox {
          var m := s.queue.nextMsg;
          forall w | w in s'.workers
            ensures s'.workers[w].msg != m
          {
            assert WorkerOk(s.db, s.queue, s.workers[w]);
          }
          assert Ripe(s', m);
        } else {
          var m: MsgId :| Ripe(s, m) && s.queue.messages[m].job == j;
          assert m < s.queue.nextMsg;
          assert Ripe(s', m);
        }
      }
    }
  }

  /** Taking a new lease on `l` leaves a ripe message ripe. */
  lemma LeaseKeepsRipe(s: State, s': State, w: WorkerId, l: MsgId, m: MsgId)
    requires Base(s) && l in s.queue.messages && Ripe(s, m)
    requires s'.queue == Lease(s.queue, l) && w in s'.workers && s'.workers == s.workers[w := s'.workers[w]]
    requires s'.workers[w].msg == l
    requires s'.workers[w].phase.PastClaim() || s'.workers[w].phase.Claiming? ==>
               w in s.workers && s.workers[w].phase == s'.workers[w].phase && s.workers[w].msg == l && Holds(s, s.workers[w])
    ensures Ripe(s', m) && s'.queue.messages[m].job == s.queue.messages[m].job
  {
    forall x | x in s'.workers && s'.workers[x].phase.PastClaim() && s'.workers[x].msg == m
      ensures !Holds(s', s'.workers[x])
    {
      if x != w { assert WorkerOk(s.db, s.queue, s.workers[x]); }
    }
  }

  lemma ReceiveKeepsPending(s: State, w: WorkerId, l: MsgId)
    requires Base(s) && ReceiveEnabled(s, w, l) && PendingRipe(s)
    ensures PendingRipe(DoReceive(s, w, l))
  {
    var s' := DoReceive(s, w, l);
    forall j | j in s'.db.jobs && s'.db.jobs[j].status == Pending
      ensures RipelyCarried(s', j)
    {
      assert RipelyCarried(s, j);
      if j !in s.db.outbox {
        var m: MsgId :| Ripe(s, m) && s.queue.messages[m].job == j;
        LeaseKeepsRipe(s, s', w, l, m);
      }
    }
  }

  lemma BeatKeepsRipe(s: State, w: WorkerId, b: BeatStep, m: MsgId)
    requires Base(s) && BeatEnabled(s, w, b) && Ripe(s, m)
    ensures Ripe(DoBeat(s, w, b), m) && DoBeat(s, w, b).queue.messages[m].job == s.queue.messages[m].job
  {
    BeatFrame(s, w, b);
    var s' := DoBeat(s, w, b);
    if Renews(s, s.workers[w], b) {
      LeaseKeepsRipe(s, s', w, s.workers[w].msg, m);
    } else {
      forall x | x in s'.workers && s'.workers[x].phase.PastClaim() && s'.workers[x].msg == m
        ensures !Holds(s', s'.workers[x])
      {
        assert x in s.workers;
      }
    }
  }

  lemma BeatKeepsPending(s: State, w: WorkerId, b: BeatStep)
    requires Base(s) && BeatEnabled(s, w, b) && PendingRipe(s)
    ensures PendingRipe(DoBeat(s, w, b))
  {
    BeatFrame(s, w, b);
    var s' := DoBeat(s, w, b);
    forall j | j in s'.db.jobs && s'.db.jobs[j].status == Pending
      ensures RipelyCarried(s', j)
    {
      assert j in s.db.jobs && s.db.jobs[j].(stale := false) == s'.db.jobs[j].(stale := false);
      assert RipelyCarried(s, j);
      if j !in s.db.outbox {
        var m: MsgId :| Ripe(s, m) && s.queue.messages[m].job == j;
        BeatKeepsRipe(s, w, b, m);
      }
    }
  }

  lemma SignalKeepsPending(s: State, a: Action)
    requires Base(s) && Enabled(s, a) && (a.Sigterm? || a.GrowOld? || a.Crash?) && PendingRipe(s)
    ensures PendingRipe(Do(s, a))
  {
    var s' := Do(s, a);
    forall j | j in s'.db.jobs && s'.db.jobs[j].status == Pending
      ensures RipelyCarried(s', j)
    {
      assert RipelyCarried(s, j);
      if j !in s.db.outbox {
        var m: MsgId :| Ripe(s, m) && s.queue.messages[m].job == j;
        forall x | x in s'.workers && s'.workers[x].phase.PastClaim() && s'.workers[x].msg == m
          ensures !Holds(s', s'.workers[x])
        {
          assert x in s.workers;
        }
        assert Ripe(s', m);
      }
    }
  }

  lemma StepKeepsPending(r: Rules, s: State, a: Action)
    requires r.retryHolds && Base(s) && Enabled(s, a) && Allowed(r, s, a) && PendingRipe(s)
    ensures PendingRipe(Do(s, a))
  {
    match a
    case Cms(c) => CmsKeepsPending(s, c);
    case Queueing(q) => QueueKeepsPending(s, q);
    case Receive(w, m) => ReceiveKeepsPending(s, w, m);
    case Work(w, k) => WorkKeepsPending(r, s, w, k);
    case Beat(w, b) => BeatKeepsPending(s, w, b);
    case _ => SignalKeepsPending(s, a);
  }

  // ------------------------------------------------------------- theorems

  /** Theorem: in every run whose retry branch fires only under the current pop receipt,
      every PENDING job still has its outbox row or a message that nobody is about to remove. */
  lemma NoPendingJobLost(r: Rules, run: Run, n: nat)
    requires r.retryHolds && IsRun(r, run) && n < |run.states|
    ensures PendingCarried(run.states[n])
  {
    PendingRipeHolds(r, run, n);
    var s := run.states[n];
    forall j | j in s.db.jobs && s.db.jobs[j].status == Pending ensures Carried(s, j) {
      assert RipelyCarried(s, j);
    }
  }

  lemma {:induction false} PendingRipeHolds(r: Rules, run: Run, n: nat)
    requires r.retryHolds && IsRun(r, run) && n < |run.states|
    ensures PendingRipe(run.states[n])
  {
    if n > 0 {
      PendingRipeHolds(r, run, n - 1);
      BaseHolds(r, run, n - 1);
      assert StepsAt(r, run, n - 1);
      StepKeepsPending(r, run.states[n - 1], run.actions[n - 1]);
    }
  }

  /** Hence an active job that nothing carries is PROCESSING. */
  lemma UncarriedIsProcessing(r: Rules, run: Run, n: nat, j: JobId)
    requires r.retryHolds && IsRun(r, run) && n < |run.states|
    requires j in run.states[n].db.jobs && run.states[n].db.jobs[j].status.Active() && !Carried(run.states[n], j)
    ensures run.states[n].db.jobs[j].status == Processing
  {
    NoPendingJobLost(r, run, n);
  }

  /** The condition is exact: a retry write keeps its job carried just when the receipt is
      current or something else carries the job already. */
  lemma RetryKeepsJobIff(s: State, w: WorkerId)
    requires Base(s) && WorkEnabled(s, w, Finalize(true))
    requires FinalBranch(s.workers[w], s.workers[w].phase.outcome).Retry? && !RetryRefused(s.db, s.workers[w].job)
    ensures Carried(DoWork(s, w, Finalize(true)), s.workers[w].job)
            <==> Holds(s, s.workers[w]) || Carried(s, s.workers[w].job)
  {
    var k := s.workers[w];
    var a := Finalize(true);
    EffectFrame(s, w, a);
    var s' := Apply(s, w, WorkEffect(s, k, a));
    assert WorkerOk(s.db, s.queue, k);
    if Holds(s, k) {
      ExitFrees(s, w, a);
    } else if k.job !in s.db.outbox {
      forall m | m in s.queue.messages
        ensures Free(s', m) <==> Free(s, m)
      {
        if Free(s, m) { WorkKeepsFree(s, w, a, m); }
        if Free(s', m) {
          forall x | x in s.workers && s.workers[x].phase.PastClaim() && s.workers[x].msg == m
            ensures !Holds(s, s.workers[x])
          {
            if x != w { assert s'.workers[x] == s.workers[x]; }
          }
        }
      }
    }
  }
}
