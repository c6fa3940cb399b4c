/** Imager runs that break what the rules keep, each reachable from empty tables. */
module ImagerGaps {
  import opened Basics
  import opened Text
  import Download
  import opened Imager

  const NO_RULES := Rules(false, false, false)
  const PATH := Path("pi5", "v1")
  const ZEROS := seq(64, _ => '0')
  const ONES := seq(64, _ => '1')
  const ALL_ZERO: Hash := (b: Bytes) => ZEROS

  ghost predicate Reachable(hash: Hash, r: Rules, s: State) {
    exists run :: IsRun(hash, r, run) && run.states[|run.actions|] == s
  }

  lemma Start(hash: Hash, r: Rules)
    ensures Reachable(hash, r, EMPTY)
  {
    assert IsRun(hash, r, Run([EMPTY], []));
  }

  lemma Next(hash: Hash, r: Rules, s: State, a: Action) returns (s': State)
    requires Reachable(hash, r, s) && Enabled(hash, s, a) && Allowed(r, s, a)
    ensures s' == Do(hash, s, a) && Reachable(hash, r, s')
  {
    var run :| IsRun(hash, r, run) && run.states[|run.actions|] == s;
    s' := Do(hash, s, a);
    var run' := Run(run.states + [s'], run.actions + [a]);
    forall i | 0 <= i < |run'.actions| ensures StepsAt(hash, r, run', i) {
      if i < |run.actions| { assert StepsAt(hash, r, run, i); }
    }
    assert IsRun(hash, r, run') && run'.states[|run'.actions|] == s';
  }

  lemma Shas()
    ensures Download.IsSha256(ZEROS) && Download.IsSha256(ONES) && IsLowerHex(ZEROS) && IsLowerHex(ONES)
    ensures Lower(ZEROS) == ZEROS && Lower(ONES) == ONES && ZEROS != ONES
  {
    assert ZEROS[0] == '0' && ONES[0] == '1';
    LowerHexFixed(ZEROS);
    LowerHexFixed(ONES);
  }

  const FRESH := BaseRow(PATH, Importing, Some(ZEROS), None, None)
  const READY := BaseRow(PATH, BaseReady, Some(ZEROS), Some(ZEROS), Some(PATH))

  /** The tables and attempts, spelled out. */
  predicate Tables(s: State, base: BaseRow, images: map<ImageId, ImageRow>, attempts: map<AttemptId, Attempt>) {
    s.db.bases == map[0 := base] && s.db.images == images && s.attempts == attempts
  }

  /** A base row is requested and attempt 0 downloads it. */
  lemma Downloaded(r: Rules) returns (s: State)
    ensures Reachable(ALL_ZERO, r, s) && Tables(s, FRESH, map[], map[0 := Fetched(0, PATH, ZEROS, [])])
    ensures s.db.jobs == map[0 := Import(0)] && s.secrets == map[] && s.mirrors == map[]
  {
    Shas();
    Start(ALL_ZERO, r);
    s := Next(ALL_ZERO, r, EMPTY, RequestImport(0, PATH, Some(ZEROS), 0));
    assert Tables(s, FRESH, map[], map[]);
    s := Next(ALL_ZERO, r, s, StartImport(0, 0));
    assert Tables(s, FRESH, map[], map[0 := Fetching(0, PATH, Some(ZEROS))]);
    s := Next(ALL_ZERO, r, s, Fetch(0, ZEROS, []));
  }

  lemma Uploading(r: Rules) returns (s: State)
    ensures Reachable(ALL_ZERO, r, s) && Tables(s, FRESH, map[], map[0 := Uploaded(0, PATH, ZEROS, [])])
    ensures s.db.jobs == map[0 := Import(0)] && s.secrets == map[] && s.mirrors == map[] && PATH in s.db.blobs && s.db.blobs[PATH] == []
  {
    s := Downloaded(r);
    s := Next(ALL_ZERO, r, s, Upload(0));
  }

  // ---------------------------------------------------------- a stale pin

  /** A duplicate pickup of the same import fails, the base is requested again with another hash, and
      then the first attempt commits. */
  lemma StaleImport() returns (s: State)
    ensures Reachable(ALL_ZERO, NO_RULES, s) && 0 in s.db.bases
    ensures var row := s.db.bases[0];
      row.status == BaseReady && row.pin.Some? && row.sha.Some? && row.sha.value != Lower(row.pin.value)
  {
    Shas();
    s := DuplicateFailed();
    s := Restamped(s);
    s := Next(ALL_ZERO, NO_RULES, s, Commit(0));
  }

  lemma DuplicateFailed() returns (s: State)
    ensures Reachable(ALL_ZERO, NO_RULES, s) && s.db.jobs.Keys == {0}
    ensures Tables(s, FRESH.(status := BaseFailed), map[], map[0 := Uploaded(0, PATH, ZEROS, [])])
  {
    s := Uploading(NO_RULES);
    s := Next(ALL_ZERO, NO_RULES, s, StartImport(1, 0));
    assert Tables(s, FRESH, map[], map[0 := Uploaded(0, PATH, ZEROS, []), 1 := Fetching(0, PATH, Some(ZEROS))]);
    s := Next(ALL_ZERO, NO_RULES, s, Terminal(1));
  }

  lemma Restamped(s: State) returns (s': State)
    requires Reachable(ALL_ZERO, NO_RULES, s) && s.db.jobs.Keys == {0}
    requires Tables(s, FRESH.(status := BaseFailed), map[], map[0 := Uploaded(0, PATH, ZEROS, [])])
    ensures Reachable(ALL_ZERO, NO_RULES, s')
    ensures Tables(s', FRESH.(pin := Some(ONES)), map[], map[0 := Uploaded(0, PATH, ZEROS, [])])
  {
    assert 0 in RowsAt(s.db, PATH);
    s' := Next(ALL_ZERO, NO_RULES, s, RequestImport(0, PATH, Some(ONES), 1));
  }

  // ----------------------------------------------------------- READY lost

  const AT_WORK := Staging(0, 0, PATH, ZEROS, [])

  /** A base, an image in flight, and these attempts; the image's job is 1. */
  predicate InFlightWith(s: State, base: BaseRow, attempts: map<AttemptId, Attempt>) {
    Tables(s, base, map[0 := ImageRow(Some(0), Provisioning, Some([]), None)], attempts) && s.db.jobs == map[0 := Import(0), 1 := Provision(0)]
    && PATH in s.db.blobs && s.db.blobs[PATH] == []
  }

  /** Attempt 0 has read the image row. */
  lemma OneAttempt(r: Rules) returns (s: State)
    ensures Reachable(ALL_ZERO, r, s) && InFlightWith(s, READY, map[0 := AT_WORK]) && s.mirrors == map[]
  {
    Shas();
    s := Requested(r);
    s := Next(ALL_ZERO, r, s, StartProvision(0, 0));
  }

  lemma Requested(r: Rules) returns (s: State)
    ensures Reachable(ALL_ZERO, r, s) && InFlightWith(s, READY, map[]) && s.mirrors == map[]
  {
    Shas();
    s := Uploading(r);
    s := Next(ALL_ZERO, r, s, Commit(0));
    assert Tables(s, READY, map[], map[]);
    s := Next(ALL_ZERO, r, s, RequestBuild(0, 0, [], 1));
  }

  lemma Verifies(r: Rules, s: State, rest: map<AttemptId, Attempt>) returns (s': State)
    requires Reachable(ALL_ZERO, r, s) && 0 !in rest && InFlightWith(s, READY, rest[0 := AT_WORK])
    ensures Reachable(ALL_ZERO, r, s') && InFlightWith(s', READY, rest[0 := Verified(0, 0, ZEROS, [], [])]) && s'.mirrors == s.mirrors
  {
    s' := Next(ALL_ZERO, r, s, Verify(0));
    assert rest[0 := AT_WORK][0 := Verified(0, 0, ZEROS, [], [])] == rest[0 := Verified(0, 0, ZEROS, [], [])];
  }

  lemma Builds(r: Rules, s: State, rest: map<AttemptId, Attempt>) returns (s': State)
    requires Reachable(ALL_ZERO, r, s) && 0 !in rest && InFlightWith(s, READY, rest[0 := Verified(0, 0, ZEROS, [], [])])
    ensures Reachable(ALL_ZERO, r, s') && InFlightWith(s', READY, rest[0 := Built(0, 0, ZEROS, [], [], [])]) && s'.mirrors == s.mirrors
  {
    s' := Next(ALL_ZERO, r, s, Build(0, []));
    assert rest[0 := Verified(0, 0, ZEROS, [], [])][0 := Built(0, 0, ZEROS, [], [], [])] == rest[0 := Built(0, 0, ZEROS, [], [], [])];
  }

  lemma Stores(r: Rules, s: State, rest: map<AttemptId, Attempt>) returns (s': State)
    requires Reachable(ALL_ZERO, r, s) && 0 !in rest && InFlightWith(s, READY, rest[0 := Built(0, 0, ZEROS, [], [], [])])
    ensures Reachable(ALL_ZERO, r, s') && InFlightWith(s', READY, rest[0 := Stored(0, 0, ZEROS, [], [], [])])
    ensures s'.mirrors == s.mirrors && 0 in s'.db.outputs
  {
    s' := Next(ALL_ZERO, r, s, Store(0));
    assert rest[0 := Built(0, 0, ZEROS, [], [], [])][0 := Stored(0, 0, ZEROS, [], [], [])] == rest[0 := Stored(0, 0, ZEROS, [], [], [])];
  }

  lemma Finishes(r: Rules, s: State, rest: map<AttemptId, Attempt>) returns (s': State)
    requires Reachable(ALL_ZERO, r, s) && 0 !in rest && InFlightWith(s, READY, rest[0 := Stored(0, 0, ZEROS, [], [], [])]) && 0 in s.db.outputs
    ensures Reachable(ALL_ZERO, r, s') && s'.attempts == rest && s'.mirrors == s.mirrors && s'.db.jobs == s.db.jobs
    ensures 0 in s'.db.outputs && 0 in s'.db.images && s'.db.images[0].status == ImageReady
  {
    s' := Next(ALL_ZERO, r, s, Commit(0));
    assert rest[0 := Stored(0, 0, ZEROS, [], [], [])] - {0} == rest;
  }

  /** Attempt 0 goes through, whatever others there are. */
  lemma RunsThrough(r: Rules, s: State, rest: map<AttemptId, Attempt>) returns (s': State)
    requires Reachable(ALL_ZERO, r, s) && 0 !in rest && InFlightWith(s, READY, rest[0 := AT_WORK])
    ensures Reachable(ALL_ZERO, r, s') && s'.attempts == rest && s'.mirrors == s.mirrors && s'.db.jobs == s.db.jobs
    ensures 0 in s'.db.outputs && 0 in s'.db.images && s'.db.images[0].status == ImageReady
  {
    s' := Verifies(r, s, rest);
    s' := Builds(r, s', rest);
    s' := Stores(r, s', rest);
    s' := Finishes(r, s', rest);
  }

  /** One attempt finishes the image; then the other, which had read it before, fails it: READY is
      lost although the output is there. */
  lemma DuplicateFailsReady() returns (s: State, s': State)
    ensures Reachable(ALL_ZERO, NO_RULES, s) && 0 in s.db.images && s.db.images[0].status == ImageReady
    ensures Enabled(ALL_ZERO, s, Terminal(1)) && s' == Do(ALL_ZERO, s, Terminal(1))
    ensures Reachable(ALL_ZERO, NO_RULES, s') && 0 in s'.db.images && s'.db.images[0].status == ImageFailed && 0 in s'.db.outputs
  {
    s := OneAttempt(NO_RULES);
    s := Duplicates(s);
    s := RunsThrough(NO_RULES, s, map[1 := AT_WORK]);
    s' := Next(ALL_ZERO, NO_RULES, s, Terminal(1));
  }

  lemma Duplicates(s: State) returns (s': State)
    requires Reachable(ALL_ZERO, NO_RULES, s) && InFlightWith(s, READY, map[0 := AT_WORK])
    ensures Reachable(ALL_ZERO, NO_RULES, s') && InFlightWith(s', READY, map[1 := AT_WORK][0 := AT_WORK])
  {
    Shas();
    s' := Next(ALL_ZERO, NO_RULES, s, StartProvision(1, 0));
    assert map[0 := AT_WORK][1 := AT_WORK] == map[1 := AT_WORK][0 := AT_WORK];
  }

  /** A worker has found the image's job exhausted and the image PROVISIONING; the one attempt there is
      finishes it; then the worker's write turns READY into FAILED. */
  lemma MirrorFailsReady() returns (s: State, s': State)
    ensures Reachable(ALL_ZERO, Rules(true, true, false), s) && 0 in s.db.images && s.db.images[0].status == ImageReady && s.attempts == map[]
    ensures Enabled(ALL_ZERO, s, Mirrored(0)) && s' == Do(ALL_ZERO, s, Mirrored(0))
    ensures Reachable(ALL_ZERO, Rules(true, true, false), s')
    ensures 0 in s'.db.images && s'.db.images[0].status == ImageFailed && 0 in s'.db.outputs
  {
    var r := Rules(true, true, false);
    s := OneAttempt(r);
    s := Marked(r, s);
    s := RunsThrough(r, s, map[]);
    s' := Next(ALL_ZERO, r, s, Mirrored(0));
  }

  lemma Marked(r: Rules, s: State) returns (s': State)
    requires Reachable(ALL_ZERO, r, s) && InFlightWith(s, READY, map[0 := AT_WORK]) && s.mirrors == map[]
    ensures Reachable(ALL_ZERO, r, s') && InFlightWith(s', READY, map[][0 := AT_WORK]) && s'.mirrors == map[0 := 1]
  {
    s' := Next(ALL_ZERO, r, s, ReadTarget(0, 1));
  }
}
