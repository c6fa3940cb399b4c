/** What the imager keeps only under a rule, the exact step that breaks it, and a run that does. */
module ImagerRules {
  import opened Basics
  import opened Text
  import Download
  import opened Imager
  import opened ImagerLifecycle

  // --------------------------------------------------- one attempt at a time

  /** Nobody else works on the path, no row of it is READY meanwhile, and what was uploaded is there. */
  ghost predicate PathSolo(s: State, q: Path) {
    (forall x, y :: x in s.attempts && y in s.attempts && WorksOnPath(s.attempts[x], q) && WorksOnPath(s.attempts[y], q) ==> x == y)
    && (forall x, b :: x in s.attempts && WorksOnPath(s.attempts[x], q) && b in s.db.bases && s.db.bases[b].path == q ==>
          s.db.bases[b].status != BaseReady)
    && (forall x :: x in s.attempts && s.attempts[x].Uploaded? && s.attempts[x].path == q && q in s.db.blobs ==>
          s.db.blobs[q] == s.attempts[x].bytes)
  }

  predicate BlobOk(hash: Hash, db: Db, row: BaseRow) {
    row.status == BaseReady && row.path in db.blobs ==> row.sha == Some(Lower(hash(db.blobs[row.path])))
  }

  ghost predicate RowsSolo(hash: Hash, s: State, q: Path) {
    (forall b, c :: b in s.db.bases && c in s.db.bases && s.db.bases[b].path == q && s.db.bases[c].path == q ==> b == c)
    && forall b :: b in s.db.bases && s.db.bases[b].path == q ==> BlobOk(hash, s.db, s.db.bases[b])
  }

  ghost predicate Solo(hash: Hash, s: State, q: Path) { PathSolo(s, q) && RowsSolo(hash, s, q) }

  lemma RequestImportSolo(hash: Hash, s: State, a: Action, q: Path)
    requires CmsEnabled(s, a) && a.RequestImport? && Solo(hash, s, q)
    ensures Solo(hash, DoCms(s, a), q)
  {
    if RowsAt(s.db, a.path) == {} {
      assert forall c :: c in s.db.bases ==> c !in RowsAt(s.db, a.path);
    } else {
      assert a.b in s.db.bases && s.db.bases[a.b].path == a.path;
    }
    if !(a.b in s.db.bases && s.db.bases[a.b].status != BaseFailed) {
      StampedSolo(hash, s, DoCms(s, a), a.b, BaseRow(a.path, Importing, a.pin, None, None), q);
    }
  }

  /** A row that starts to import. */
  lemma StampedSolo(hash: Hash, s: State, s': State, b: BaseId, row: BaseRow, q: Path)
    requires Solo(hash, s, q) && s'.attempts == s.attempts && s'.db.blobs == s.db.blobs && s'.db.bases == s.db.bases[b := row]
    requires row.status == Importing
    requires row.path == q ==> forall c :: c in s.db.bases && s.db.bases[c].path == q ==> c == b
    ensures Solo(hash, s', q)
  {
  }

  lemma CmsSolo(hash: Hash, s: State, a: Action, q: Path)
    requires CmsEnabled(s, a) && Solo(hash, s, q)
    ensures Solo(hash, DoCms(s, a), q)
  {
    if a.RequestImport? { RequestImportSolo(hash, s, a, q); }
  }

  lemma EndSolo(hash: Hash, s: State, x: AttemptId, q: Path)
    requires Solo(hash, s, q)
    ensures Solo(hash, Ended(s, x), q)
  {
  }

  /** An attempt that moves on, or the only one that starts. */
  lemma BecomeSolo(hash: Hash, s: State, x: AttemptId, t: Attempt, q: Path)
    requires Solo(hash, s, q)
    requires WorksOnPath(t, q) ==> !t.Uploaded?
    requires WorksOnPath(t, q) && !(x in s.attempts && WorksOnPath(s.attempts[x], q)) ==>
               (forall y :: y in s.attempts ==> !WorksOnPath(s.attempts[y], q))
               && forall b :: b in s.db.bases && s.db.bases[b].path == q ==> s.db.bases[b].status != BaseReady
    ensures Solo(hash, Become(s, x, t), q)
  {
  }

  lemma UploadSolo(hash: Hash, s: State, x: AttemptId, q: Path)
    requires WorkEnabled(hash, s, Upload(x)) && Solo(hash, s, q)
    ensures Solo(hash, DoWork(hash, s, Upload(x)), q)
  {
  }

  /** No row becomes READY. */
  lemma FailSolo(hash: Hash, s: State, db: Db, q: Path)
    requires Solo(hash, s, q) && db.blobs == s.db.blobs && db.bases.Keys == s.db.bases.Keys
    requires forall b :: b in db.bases ==> db.bases[b] == s.db.bases[b] || db.bases[b] == s.db.bases[b].(status := BaseFailed)
    ensures Solo(hash, s.(db := db), q)
  {
  }

  lemma CommitSolo(hash: Hash, s: State, x: AttemptId, q: Path)
    requires WorkEnabled(hash, s, Commit(x)) && Solo(hash, s, q) && AttemptOk(hash, s, s.attempts[x])
    ensures Solo(hash, DoCommit(hash, s, x), q)
  {
    var t := s.attempts[x];
    if t.Uploaded? && t.base in s.db.bases {
      CommittedSolo(hash, s, DoCommit(hash, s, x), x, q);
    } else if t.Uploaded? {
      EndSolo(hash, s, x, q);
    } else {
      var s' := DoCommit(hash, s, x);
      assert s'.attempts == s.attempts - {x} && s'.db.blobs == s.db.blobs && s'.db.bases == s.db.bases;
    }
  }

  lemma CommittedSolo(hash: Hash, s: State, s': State, x: AttemptId, q: Path)
    requires x in s.attempts && s.attempts[x].Uploaded? && Solo(hash, s, q) && s.attempts[x].base in s.db.bases
    requires s.db.bases[s.attempts[x].base].path == s.attempts[x].path
    requires var t := s.attempts[x];
      s'.attempts == s.attempts - {x} && s'.db.blobs == s.db.blobs
      && s'.db.bases == s.db.bases[t.base := s.db.bases[t.base].(status := BaseReady, sha := Some(Lower(hash(t.bytes))), blob := Some(t.path))]
    ensures Solo(hash, s', q)
  {
  }

  lemma MoveSolo(hash: Hash, s: State, a: Action, q: Path)
    requires WorkEnabled(hash, s, a) && Solo(hash, s, q) && (a.StartProvision? || a.Fetch? || a.Verify? || a.Build?)
    ensures Solo(hash, DoWork(hash, s, a), q)
  {
    BecomeSolo(hash, s, a.a, DoWork(hash, s, a).attempts[a.a], q);
  }

  lemma TerminalSolo(hash: Hash, s: State, x: AttemptId, q: Path)
    requires WorkEnabled(hash, s, Terminal(x)) && Solo(hash, s, q)
    ensures Solo(hash, DoWork(hash, s, Terminal(x)), q)
  {
    EndSolo(hash, s, x, q);
    var t := s.attempts[x];
    FailSolo(hash, Ended(s, x), if t.OfImport() then FailBase(s.db, t.base) else FailImage(s.db, t.image), q);
  }

  lemma MirroredSolo(hash: Hash, s: State, x: AttemptId, q: Path)
    requires WorkEnabled(hash, s, Mirrored(x)) && Solo(hash, s, q)
    ensures Solo(hash, DoWork(hash, s, Mirrored(x)), q)
  {
    FailSolo(hash, s, FailTarget(s.db, s.db.jobs[s.mirrors[x]]), q);
  }

  lemma WorkSolo(hash: Hash, r: Rules, s: State, a: Action, q: Path)
    requires WorkEnabled(hash, s, a) && Allowed(r, s, a) && r.solo && Solo(hash, s, q) && AttemptsOk(hash, s)
    ensures Solo(hash, DoWork(hash, s, a), q)
  {
    match a
    case StartImport(_, _) => StartSolo(hash, r, s, a, q);
    case StartProvision(_, _) => MoveSolo(hash, s, a, q);
    case Upload(x) => UploadSolo(hash, s, x, q);
    case Store(x) => StoreSolo(hash, s, x, q);
    case Fetch(_, _, _) => MoveSolo(hash, s, a, q);
    case Verify(_) => MoveSolo(hash, s, a, q);
    case Build(_, _) => MoveSolo(hash, s, a, q);
    case Commit(x) => CommitSolo(hash, s, x, q);
    case Terminal(x) => TerminalSolo(hash, s, x, q);
    case Drop(x) => EndSolo(hash, s, x, q);
    case ReadTarget(_, _) =>
    case Mirrored(x) => MirroredSolo(hash, s, x, q);
  }

  lemma StartSolo(hash: Hash, r: Rules, s: State, a: Action, q: Path)
    requires a.StartImport? && WorkEnabled(hash, s, a) && Allowed(r, s, a) && r.solo && Solo(hash, s, q)
    ensures Solo(hash, DoWork(hash, s, a), q)
  {
    var row := s.db.bases[a.b];
    BecomeSolo(hash, s, a.a, Fetching(a.b, row.path, row.pin), q);
  }

  lemma StoreSolo(hash: Hash, s: State, x: AttemptId, q: Path)
    requires WorkEnabled(hash, s, Store(x)) && Solo(hash, s, q)
    ensures Solo(hash, DoWork(hash, s, Store(x)), q)
  {
    var t := s.attempts[x];
    BecomeSolo(hash, s, x, Stored(t.image, t.source, t.sha, t.payload, t.bytes, t.output), q);
  }

  lemma {:induction false} SoloHolds(hash: Hash, r: Rules, run: Run, n: nat, q: Path)
    requires IsRun(hash, r, run) && r.solo && n < |run.states|
    ensures Solo(hash, run.states[n], q)
  {
    if n > 0 {
      SoloHolds(hash, r, run, n - 1, q);
      assert StepsAt(hash, r, run, n - 1);
      var s, a := run.states[n - 1], run.actions[n - 1];
      ProvenanceHolds(hash, r, run, n - 1);
      if CmsEnabled(s, a) { CmsSolo(hash, s, a, q); } else { WorkSolo(hash, r, s, a, q); }
    }
  }

  /** Theorem: with one attempt per path at a time, the blob of a READY base, as long as it is there,
      has the hash the row says, so a provision finds no drift. */
  lemma ReadyBlobMatches(hash: Hash, r: Rules, run: Run, n: nat, b: BaseId)
    requires IsRun(hash, r, run) && r.solo && n < |run.states|
    requires b in run.states[n].db.bases && run.states[n].db.bases[b].status == BaseReady
    ensures var s := run.states[n]; var path := s.db.bases[b].path;
      path in s.db.blobs ==> s.db.bases[b].sha == Some(Lower(hash(s.db.blobs[path])))
  {
    SoloHolds(hash, r, run, n, run.states[n].db.bases[b].path);
  }

  // The same for one image.

  ghost predicate ImageSolo(hash: Hash, s: State, p: ImageId) {
    (forall x, y :: x in s.attempts && y in s.attempts && WorksOnImage(s.attempts[x], p) && WorksOnImage(s.attempts[y], p) ==> x == y)
    && (forall x :: x in s.attempts && WorksOnImage(s.attempts[x], p) ==>
          p in s.secrets && (p in s.db.images ==> s.db.images[p].status != ImageReady)
          && (s.attempts[x].Stored? && p in s.db.outputs ==> s.db.outputs[p] == s.attempts[x].output))
    && (p in s.db.images ==> p in s.secrets)
    && (p in s.db.images && s.db.images[p].status == ImageReady && p in s.db.outputs ==>
          s.db.images[p].sha == Some(Lower(hash(s.db.outputs[p]))))
  }

  lemma CmsImage(hash: Hash, s: State, a: Action, p: ImageId)
    requires CmsEnabled(s, a) && ImageSolo(hash, s, p)
    ensures ImageSolo(hash, DoCms(s, a), p)
  {
  }

  lemma BecomeImage(hash: Hash, s: State, x: AttemptId, t: Attempt, p: ImageId)
    requires ImageSolo(hash, s, p)
    requires WorksOnImage(t, p) ==> !t.Stored?
    requires WorksOnImage(t, p) && !(x in s.attempts && WorksOnImage(s.attempts[x], p)) ==>
               (forall y :: y in s.attempts ==> !WorksOnImage(s.attempts[y], p)) && p in s.db.images && s.db.images[p].status != ImageReady
    ensures ImageSolo(hash, Become(s, x, t), p)
  {
  }

  lemma MoveImage(hash: Hash, r: Rules, s: State, a: Action, p: ImageId)
    requires WorkEnabled(hash, s, a) && Allowed(r, s, a) && r.solo && ImageSolo(hash, s, p)
    requires a.StartImport? || a.StartProvision? || a.Fetch? || a.Verify? || a.Build?
    ensures ImageSolo(hash, DoWork(hash, s, a), p)
  {
    BecomeImage(hash, s, a.a, DoWork(hash, s, a).attempts[a.a], p);
  }

  lemma FilesImage(hash: Hash, s: State, a: Action, p: ImageId)
    requires WorkEnabled(hash, s, a) && ImageSolo(hash, s, p) && (a.Upload? || a.Store?)
    ensures ImageSolo(hash, DoWork(hash, s, a), p)
  {
  }

  lemma CommitImageSolo(hash: Hash, s: State, x: AttemptId, p: ImageId)
    requires WorkEnabled(hash, s, Commit(x)) && ImageSolo(hash, s, p)
    ensures ImageSolo(hash, DoCommit(hash, s, x), p)
  {
    var t, s' := s.attempts[x], DoCommit(hash, s, x);
    assert s'.attempts == s.attempts - {x} && s'.db.outputs == s.db.outputs && s'.secrets == s.secrets;
    if t.Uploaded? { assert s'.db.images == s.db.images; }
  }

  lemma FailingImage(hash: Hash, s: State, a: Action, p: ImageId)
    requires WorkEnabled(hash, s, a) && ImageSolo(hash, s, p) && (a.Terminal? || a.ReadTarget? || a.Mirrored? || a.Drop?)
    ensures ImageSolo(hash, DoWork(hash, s, a), p)
  {
  }

  lemma {:induction false} ImageSoloHolds(hash: Hash, r: Rules, run: Run, n: nat, p: ImageId)
    requires IsRun(hash, r, run) && r.solo && n < |run.states|
    ensures ImageSolo(hash, run.states[n], p)
  {
    if n > 0 {
      ImageSoloHolds(hash, r, run, n - 1, p);
      assert StepsAt(hash, r, run, n - 1);
      ImageStep(hash, r, run.states[n - 1], run.actions[n - 1], p);
    }
  }

  lemma ImageStep(hash: Hash, r: Rules, s: State, a: Action, p: ImageId)
    requires Enabled(hash, s, a) && Allowed(r, s, a) && r.solo && ImageSolo(hash, s, p)
    ensures ImageSolo(hash, Do(hash, s, a), p)
  {
    if CmsEnabled(s, a) { CmsImage(hash, s, a, p); }
    else if a.Commit? { CommitImageSolo(hash, s, a.a, p); }
    else if a.Upload? || a.Store? { FilesImage(hash, s, a, p); }
    else if a.Terminal? || a.ReadTarget? || a.Mirrored? || a.Drop? { FailingImage(hash, s, a, p); }
    else { MoveImage(hash, r, s, a, p); }
  }

  /** Theorem: with one attempt per image at a time and mirrors that write over what they have read, a
      READY image stays READY until it is deleted, and the stored output has the recorded hash. */
  lemma ReadyImageStays(hash: Hash, r: Rules, run: Run, n: nat, p: ImageId)
    requires IsRun(hash, r, run) && r.solo && r.freshMirror && n < |run.actions|
    requires p in run.states[n].db.images && run.states[n].db.images[p].status == ImageReady
    ensures var s, s' := run.states[n], run.states[n + 1];
      (p in s.db.outputs ==> s.db.images[p].sha == Some(Lower(hash(s.db.outputs[p]))))
      && (run.actions[n] != DeleteImage(p) ==>
            p in s'.db.images && s'.db.images[p].status == ImageReady && s'.db.images[p].sha == s.db.images[p].sha)
  {
    ImageSoloHolds(hash, r, run, n, p);
    assert StepsAt(hash, r, run, n);
    ReadyStep(hash, r, run.states[n], run.actions[n], p);
  }

  predicate SameReady(s: State, s': State, p: ImageId)
    requires p in s.db.images
  {
    p in s'.db.images && s'.db.images[p].status == ImageReady && s'.db.images[p].sha == s.db.images[p].sha
  }

  lemma ReadyStep(hash: Hash, r: Rules, s: State, a: Action, p: ImageId)
    requires Enabled(hash, s, a) && Allowed(r, s, a) && r.freshMirror && ImageSolo(hash, s, p) && p in s.db.images && s.db.images[p].status == ImageReady
    ensures a != DeleteImage(p) ==> SameReady(s, Do(hash, s, a), p)
  {
    if CmsEnabled(s, a) { ReadyCms(s, a, p); } else { ReadyWork(hash, r, s, a, p); }
  }

  lemma ReadyCms(s: State, a: Action, p: ImageId)
    requires CmsEnabled(s, a) && p in s.db.images && p in s.secrets && s.db.images[p].status == ImageReady
    ensures a != DeleteImage(p) ==> SameReady(s, DoCms(s, a), p)
  {
  }

  lemma ReadyWork(hash: Hash, r: Rules, s: State, a: Action, p: ImageId)
    requires WorkEnabled(hash, s, a) && Allowed(r, s, a) && r.freshMirror && ImageSolo(hash, s, p) && p in s.db.images && s.db.images[p].status == ImageReady
    ensures SameReady(s, DoWork(hash, s, a), p)
  {
    if a.Commit? {
      ReadyCommit(hash, s, a.a, p);
    } else if a.Terminal? {
      assert !WorksOnImage(s.attempts[a.a], p);
    }
  }

  lemma ReadyCommit(hash: Hash, s: State, x: AttemptId, p: ImageId)
    requires WorkEnabled(hash, s, Commit(x)) && ImageSolo(hash, s, p) && p in s.db.images && s.db.images[p].status == ImageReady
    ensures SameReady(s, DoCommit(hash, s, x), p)
  {
    var t := s.attempts[x];
    assert !WorksOnImage(t, p);
    if t.Uploaded? { assert DoCommit(hash, s, x).db.images == s.db.images; }
  }

  /** The write of a mirror for image `p`. */
  predicate Fails(s: State, a: Action, p: ImageId) {
    a.Mirrored? && a.a in s.mirrors && s.mirrors[a.a] in s.db.jobs && s.db.jobs[s.mirrors[a.a]] == Provision(p)
  }

  /** Without any rule: a READY image stops being READY exactly when it is deleted, when an attempt that
      had read it before ends in a terminal failure, or when a mirror that had read it before writes. */
  lemma LosesReadyIff(hash: Hash, s: State, a: Action, p: ImageId)
    requires Enabled(hash, s, a) && SecretsOk(s) && p in s.db.images && s.db.images[p].status == ImageReady
    ensures !(p in Do(hash, s, a).db.images && Do(hash, s, a).db.images[p].status == ImageReady)
            <==> a == DeleteImage(p) || Fails(s, a, p) || (a.Terminal? && WorksOnImage(s.attempts[a.a], p))
  {
    if CmsEnabled(s, a) {
      ReadyCms(s, a, p);
    } else {
      LosesReadyByWork(hash, s, a, p);
    }
  }

  lemma LosesReadyByWork(hash: Hash, s: State, a: Action, p: ImageId)
    requires WorkEnabled(hash, s, a) && p in s.db.images && s.db.images[p].status == ImageReady
    ensures !(p in DoWork(hash, s, a).db.images && DoWork(hash, s, a).db.images[p].status == ImageReady)
            <==> Fails(s, a, p) || (a.Terminal? && WorksOnImage(s.attempts[a.a], p))
  {
    if a.Commit? { KeepsReadyByCommit(hash, s, a.a, p); }
  }

  lemma KeepsReadyByCommit(hash: Hash, s: State, x: AttemptId, p: ImageId)
    requires WorkEnabled(hash, s, Commit(x)) && p in s.db.images && s.db.images[p].status == ImageReady
    ensures p in DoCommit(hash, s, x).db.images && DoCommit(hash, s, x).db.images[p].status == ImageReady
  {
    var t := s.attempts[x];
    if t.Stored? {
      assert DoCommit(hash, s, x).db
             == if t.image in s.db.images then CommitImage(hash, s.db, t.image, t.output) else s.db;
    } else {
      assert DoCommit(hash, s, x).db.images == s.db.images;
    }
  }

  // -------------------------------------------------- the pin of a base row

  /** What the row is pinned to is what its running imports, and its last one, were told to expect. */
  ghost predicate PinOk(s: State, b: BaseId) {
    b in s.db.bases ==>
      (forall x :: x in s.attempts && WorksOnBase(s.attempts[x], b) ==> FollowsPin(s.attempts[x], s.db.bases[b].pin))
      && (s.db.bases[b].status == BaseReady && s.db.bases[b].pin.Some? ==>
            b in s.lastImport && s.lastImport[b].expected == s.db.bases[b].pin.value)
  }

  predicate FollowsPin(t: Attempt, pin: Option<string>)
    requires t.OfImport()
  {
    match t
    case Fetching(_, _, p) => p == pin
    case _ => pin.Some? ==> t.expected == pin.value
  }

  lemma CmsKeepsPin(r: Rules, s: State, a: Action, b: BaseId)
    requires CmsEnabled(s, a) && Allowed(r, s, a) && r.restartAlone && PinOk(s, b)
    ensures PinOk(DoCms(s, a), b)
  {
    if a.RequestImport? && a.b == b {
      assert forall x :: x in s.attempts ==> !WorksOnBase(s.attempts[x], b);
    }
  }

  lemma BecomeKeepsPin(s: State, x: AttemptId, t: Attempt, b: BaseId)
    requires PinOk(s, b) && (b in s.db.bases && WorksOnBase(t, b) ==> FollowsPin(t, s.db.bases[b].pin))
    ensures PinOk(Become(s, x, t), b)
  {
  }

  lemma MoveKeepsPin(hash: Hash, s: State, a: Action, b: BaseId)
    requires WorkEnabled(hash, s, a) && PinOk(s, b) && (a.StartImport? || a.StartProvision? || a.Fetch? || a.Verify? || a.Build?)
    ensures PinOk(DoWork(hash, s, a), b)
  {
    BecomeKeepsPin(s, a.a, DoWork(hash, s, a).attempts[a.a], b);
  }

  lemma FilesKeepPin(hash: Hash, s: State, a: Action, b: BaseId)
    requires WorkEnabled(hash, s, a) && PinOk(s, b) && (a.Upload? || a.Store?)
    ensures PinOk(DoWork(hash, s, a), b)
  {
    BecomeKeepsPin(s, a.a, DoWork(hash, s, a).attempts[a.a], b);
  }

  lemma FailKeepsPin(hash: Hash, s: State, a: Action, b: BaseId)
    requires WorkEnabled(hash, s, a) && PinOk(s, b) && (a.Terminal? || a.ReadTarget? || a.Mirrored? || a.Drop?)
    ensures PinOk(DoWork(hash, s, a), b)
  {
  }

  lemma CommitKeepsPin(hash: Hash, s: State, x: AttemptId, b: BaseId)
    requires WorkEnabled(hash, s, Commit(x)) && PinOk(s, b)
    ensures PinOk(DoCommit(hash, s, x), b)
  {
    var t, s' := s.attempts[x], DoCommit(hash, s, x);
    assert s'.attempts == s.attempts - {x};
    if t.Stored? { assert s'.db.bases == s.db.bases && s'.lastImport == s.lastImport; }
  }

  lemma PinStep(hash: Hash, r: Rules, s: State, a: Action, b: BaseId)
    requires Enabled(hash, s, a) && Allowed(r, s, a) && r.restartAlone && PinOk(s, b)
    ensures PinOk(Do(hash, s, a), b)
  {
    if CmsEnabled(s, a) { CmsKeepsPin(r, s, a, b); }
    else if a.Commit? { CommitKeepsPin(hash, s, a.a, b); }
    else if a.Upload? || a.Store? { FilesKeepPin(hash, s, a, b); }
    else if a.Terminal? || a.ReadTarget? || a.Mirrored? || a.Drop? { FailKeepsPin(hash, s, a, b); }
    else { MoveKeepsPin(hash, s, a, b); }
  }

  lemma {:induction false} PinHolds(hash: Hash, r: Rules, run: Run, n: nat, b: BaseId)
    requires IsRun(hash, r, run) && r.restartAlone && n < |run.states|
    ensures PinOk(run.states[n], b)
  {
    if n > 0 {
      PinHolds(hash, r, run, n - 1, b);
      assert StepsAt(hash, r, run, n - 1);
      PinStep(hash, r, run.states[n - 1], run.actions[n - 1], b);
    }
  }

  /** Theorem: if a failed base is only imported again when no attempt on it is left, every READY base
      row with a pinned hash records exactly that hash, and it is the hash of the bytes uploaded. */
  lemma PinnedBaseMatches(hash: Hash, r: Rules, run: Run, n: nat, b: BaseId)
    requires IsRun(hash, r, run) && r.restartAlone && n < |run.states|
    requires b in run.states[n].db.bases && run.states[n].db.bases[b].status == BaseReady && run.states[n].db.bases[b].pin.Some?
    ensures var s := run.states[n];
      b in s.lastImport && s.db.bases[b].sha == Some(Lower(s.db.bases[b].pin.value))
      && s.db.bases[b].sha == Some(Lower(hash(s.lastImport[b].bytes)))
  {
    PinHolds(hash, r, run, n, b);
    ReadyBaseIsVerified(hash, r, run, n, b);
  }

  /** The step that breaks it: a commit leaves a pinned row at its pinned hash if and only if the
      attempt was told to expect that same hash. */
  lemma CommitMatchesPinIff(hash: Hash, s: State, x: AttemptId)
    requires WorkEnabled(hash, s, Commit(x)) && s.attempts[x].Uploaded? && AttemptOk(hash, s, s.attempts[x])
    requires s.attempts[x].base in s.db.bases && s.db.bases[s.attempts[x].base].pin.Some?
    ensures var b := s.attempts[x].base; var row := DoCommit(hash, s, x).db.bases[b];
      row.status == BaseReady
      && (row.sha == Some(Lower(row.pin.value)) <==> Lower(s.attempts[x].expected) == Lower(s.db.bases[b].pin.value))
  {
  }
}
