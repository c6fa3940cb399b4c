/** What every run of the imager keeps: where the secret is, and what a READY image was built from. */
module ImagerLifecycle {
  import opened Basics
  import opened Text
  import opened Imager

  // ----------------------------------------------------------- the secret

  /** A row in flight still holds the payload it was made with; a finished row holds none. */
  predicate SecretOk(row: ImageRow, secret: Payload) {
    row.status != Expired && row.payload == if row.status == Provisioning then Some(secret) else None
  }

  predicate HoldsPayload(t: Attempt) { t.Staging? || t.Verified? || t.Built? || t.Stored? }

  predicate PayloadOk(s: State, t: Attempt) {
    HoldsPayload(t) ==> t.image in s.secrets && t.payload == s.secrets[t.image]
  }

  ghost predicate SecretsOk(s: State) {
    (forall p :: p in s.db.images ==> p in s.secrets && SecretOk(s.db.images[p], s.secrets[p]))
    && forall x :: x in s.attempts ==> PayloadOk(s, s.attempts[x])
  }

  // ----------------------------------------------------------- provenance

  /** Some import of `base` ended with bytes of hash `sha`. */
  ghost predicate Recorded(hash: Hash, imports: seq<ImportRecord>, base: BaseId, sha: string) {
    exists i :: 0 <= i < |imports| && imports[i].base == base && Lower(hash(imports[i].bytes)) == sha
  }

  predicate RecordOk(hash: Hash, r: ImportRecord) {
    Lower(hash(r.bytes)) == Lower(r.expected)
  }

  ghost predicate ImportsOk(hash: Hash, s: State) {
    (forall i :: 0 <= i < |s.imports| ==> RecordOk(hash, s.imports[i]))
    && forall b :: b in s.lastImport ==> s.lastImport[b].base == b && s.lastImport[b] in s.imports
  }

  predicate BaseOk(hash: Hash, lastImport: map<BaseId, ImportRecord>, b: BaseId, row: BaseRow) {
    (row.status == BaseReady ==> row.sha.Some? && row.blob == Some(row.path))
    && (row.sha.Some? ==> b in lastImport && row.sha.value == Lower(hash(lastImport[b].bytes)))
  }

  ghost predicate BasesOk(hash: Hash, s: State) {
    forall b :: b in s.db.bases ==> BaseOk(hash, s.lastImport, b, s.db.bases[b])
  }

  ghost predicate AttemptOk(hash: Hash, s: State, t: Attempt) {
    match t
    case Fetched(b, path, expected, bytes) => Lower(hash(bytes)) == Lower(expected) && PathOfBase(s, b, path)
    case Uploaded(b, path, expected, bytes) => Lower(hash(bytes)) == Lower(expected) && PathOfBase(s, b, path)
    case Fetching(b, path, _) => PathOfBase(s, b, path)
    case Rejected(_) => true
    case Staging(_, source, _, sha, _) => Recorded(hash, s.imports, source, sha)
    case _ => Recorded(hash, s.imports, t.source, t.sha) && Lower(hash(t.bytes)) == Lower(t.sha)
  }

  /** A base keeps its path for good. */
  ghost predicate PathOfBase(s: State, b: BaseId, path: Path) {
    b in s.knownBases && (b in s.db.bases ==> s.db.bases[b].path == path)
  }

  ghost predicate AttemptsOk(hash: Hash, s: State) {
    (forall x :: x in s.attempts ==> AttemptOk(hash, s, s.attempts[x])) && s.db.bases.Keys <= s.knownBases
  }

  ghost predicate BuildOk(hash: Hash, s: State, p: ImageId, r: BuildRecord) {
    Lower(hash(r.bytes)) == Lower(r.sha) && Recorded(hash, s.imports, r.source, r.sha)
    && p in s.secrets && r.payload == s.secrets[p]
  }

  ghost predicate BuildsOk(hash: Hash, s: State) {
    (forall p :: p in s.builds ==> BuildOk(hash, s, p, s.builds[p]))
    && forall p :: p in s.db.images && s.db.images[p].status == ImageReady ==>
         p in s.builds && s.db.images[p].sha == Some(Lower(hash(s.builds[p].output)))
  }

  ghost predicate Provenance(hash: Hash, s: State) {
    SecretsOk(s) && ImportsOk(hash, s) && BasesOk(hash, s) && AttemptsOk(hash, s) && BuildsOk(hash, s)
  }

  // --------------------------------------------------------- what each piece keeps

  lemma EndKeeps(hash: Hash, s: State, x: AttemptId)
    requires Provenance(hash, s)
    ensures Provenance(hash, Ended(s, x))
  {
    var s' := Ended(s, x);
    forall y | y in s'.attempts ensures AttemptOk(hash, s', s'.attempts[y]) { assert AttemptOk(hash, s, s.attempts[y]); }
    forall p | p in s'.builds ensures BuildOk(hash, s', p, s'.builds[p]) { assert BuildOk(hash, s, p, s.builds[p]); }
  }

  lemma BecomeKeeps(hash: Hash, s: State, x: AttemptId, t: Attempt)
    requires Provenance(hash, s) && AttemptOk(hash, s, t) && PayloadOk(s, t)
    ensures Provenance(hash, Become(s, x, t))
  {
    var s' := Become(s, x, t);
    forall y | y in s'.attempts ensures AttemptOk(hash, s', s'.attempts[y]) {
      assert y != x ==> AttemptOk(hash, s, s.attempts[y]);
    }
    forall p | p in s'.builds ensures BuildOk(hash, s', p, s'.builds[p]) { assert BuildOk(hash, s, p, s.builds[p]); }
  }

  /** A change of rows that keeps every path, and finishes images only by clearing their payload. */
  lemma RowsKeep(hash: Hash, s: State, db: Db)
    requires Provenance(hash, s)
    requires db.bases.Keys <= s.db.bases.Keys && forall b :: b in db.bases ==>
      BaseOk(hash, s.lastImport, b, db.bases[b]) && db.bases[b].path == s.db.bases[b].path
    requires db.images.Keys <= s.db.images.Keys && forall p :: p in db.images ==>
      SecretOk(db.images[p], s.secrets[p])
      && (db.images[p].status == ImageReady ==> db.images[p].(base := s.db.images[p].base) == s.db.images[p])
    ensures Provenance(hash, s.(db := db))
  {
    var s' := s.(db := db);
    forall y | y in s'.attempts ensures AttemptOk(hash, s', s'.attempts[y]) { assert AttemptOk(hash, s, s.attempts[y]); }
    forall p | p in s'.builds ensures BuildOk(hash, s', p, s'.builds[p]) { assert BuildOk(hash, s, p, s.builds[p]); }
  }

  lemma FailBaseKeeps(hash: Hash, s: State, b: BaseId)
    requires Provenance(hash, s)
    ensures Provenance(hash, s.(db := FailBase(s.db, b)))
  {
    RowsKeep(hash, s, FailBase(s.db, b));
  }

  lemma FailImageKeeps(hash: Hash, s: State, p: ImageId)
    requires Provenance(hash, s)
    ensures Provenance(hash, s.(db := FailImage(s.db, p)))
  {
    RowsKeep(hash, s, FailImage(s.db, p));
  }

  lemma RecordedStays(hash: Hash, imports: seq<ImportRecord>, record: ImportRecord, base: BaseId, sha: string)
    requires Recorded(hash, imports, base, sha)
    ensures Recorded(hash, imports + [record], base, sha)
  {
    var i :| 0 <= i < |imports| && imports[i].base == base && Lower(hash(imports[i].bytes)) == sha;
    assert (imports + [record])[i] == imports[i];
  }

  lemma LoggedKeeps(hash: Hash, s: State, record: ImportRecord)
    requires Provenance(hash, s) && RecordOk(hash, record)
    requires record.base in s.db.bases ==> s.db.bases[record.base].sha == None || s.db.bases[record.base].sha.value == Lower(hash(record.bytes))
    ensures Provenance(hash, Logged(s, record))
  {
    var s' := Logged(s, record);
    forall b, sha | Recorded(hash, s.imports, b, sha) ensures Recorded(hash, s'.imports, b, sha) {
      RecordedStays(hash, s.imports, record, b, sha);
    }
    forall y | y in s'.attempts ensures AttemptOk(hash, s', s'.attempts[y]) { assert AttemptOk(hash, s, s.attempts[y]); }
    forall p | p in s'.builds ensures BuildOk(hash, s', p, s'.builds[p]) { assert BuildOk(hash, s, p, s.builds[p]); }
  }

  function WithBase(s: State, b: BaseId, row: BaseRow): State {
    s.(db := s.db.(bases := s.db.bases[b := row]))
  }

  lemma WithBaseKeeps(hash: Hash, s: State, b: BaseId, row: BaseRow)
    requires Provenance(hash, s) && b in s.db.bases && row.path == s.db.bases[b].path && BaseOk(hash, s.lastImport, b, row)
    ensures Provenance(hash, WithBase(s, b, row))
  {
    RowsKeep(hash, s, s.db.(bases := s.db.bases[b := row]));
  }

  function Logged(s: State, record: ImportRecord): State {
    s.(imports := s.imports + [record], lastImport := s.lastImport[record.base := record])
  }

  /** Publishing a base is clearing its hash, logging the import and writing the new hash. */
  lemma PublishInSteps(hash: Hash, s: State, path: Path, record: ImportRecord)
    requires record.base in s.db.bases
    ensures var b := record.base; var row := s.db.bases[b];
      PublishBase(hash, s, path, record)
      == WithBase(Logged(WithBase(s, b, row.(status := Importing, sha := None)), record), b,
                  row.(status := BaseReady, sha := Some(Lower(hash(record.bytes))), blob := Some(path)))
  {
    var b, row := record.base, s.db.bases[record.base];
    assert s.db.bases[b := row.(status := Importing, sha := None)]
                     [b := row.(status := BaseReady, sha := Some(Lower(hash(record.bytes))), blob := Some(path))]
        == s.db.bases[b := row.(status := BaseReady, sha := Some(Lower(hash(record.bytes))), blob := Some(path))];
  }

  lemma PublishBaseKeeps(hash: Hash, s: State, path: Path, record: ImportRecord)
    requires Provenance(hash, s) && RecordOk(hash, record) && PathOfBase(s, record.base, path)
    ensures Provenance(hash, PublishBase(hash, s, path, record))
  {
    var b := record.base;
    if b in s.db.bases {
      var row := s.db.bases[b];
      PublishInSteps(hash, s, path, record);
      var s1 := WithBase(s, b, row.(status := Importing, sha := None));
      WithBaseKeeps(hash, s, b, row.(status := Importing, sha := None));
      LoggedKeeps(hash, s1, record);
      WithBaseKeeps(hash, Logged(s1, record), b, row.(status := BaseReady, sha := Some(Lower(hash(record.bytes))), blob := Some(path)));
    }
  }

  lemma PublishImageKeeps(hash: Hash, s: State, p: ImageId, record: BuildRecord)
    requires Provenance(hash, s) && BuildOk(hash, s, p, record)
    ensures Provenance(hash, PublishImage(hash, s, p, record))
  {
    if p in s.db.images {
      var s' := PublishImage(hash, s, p, record);
      forall y | y in s'.attempts ensures AttemptOk(hash, s', s'.attempts[y]) { assert AttemptOk(hash, s, s.attempts[y]); }
      forall q | q in s'.builds ensures BuildOk(hash, s', q, s'.builds[q]) { assert q != p ==> BuildOk(hash, s, q, s.builds[q]); }
    }
  }

  // ----------------------------------------------------------------- steps

  lemma NewBaseKeeps(hash: Hash, s: State, b: BaseId, row: BaseRow)
    requires Provenance(hash, s) && (b in s.db.bases ==> row.path == s.db.bases[b].path) && (b !in s.db.bases ==> b !in s.knownBases)
    requires BaseOk(hash, s.lastImport, b, row)
    ensures Provenance(hash, WithBase(s, b, row).(knownBases := s.knownBases + {b}))
  {
    var s' := WithBase(s, b, row).(knownBases := s.knownBases + {b});
    forall x | x in s'.attempts ensures AttemptOk(hash, s', s'.attempts[x]) { assert AttemptOk(hash, s, s.attempts[x]); }
    forall p | p in s'.builds ensures BuildOk(hash, s', p, s'.builds[p]) { assert BuildOk(hash, s, p, s.builds[p]); }
  }

  lemma RequestImportKeeps(hash: Hash, s: State, b: BaseId, path: Path, pin: Option<string>, j: JobId)
    requires Provenance(hash, s) && CmsEnabled(s, RequestImport(b, path, pin, j))
    ensures Provenance(hash, DoRequestImport(s, b, path, pin, j))
  {
    if b !in s.db.bases || s.db.bases[b].status == BaseFailed {
      var row := BaseRow(path, Importing, pin, None, None);
      assert b in RowsAt(s.db, path) ==> s.db.bases[b].path == path;
      NewBaseKeeps(hash, s, b, row);
      var s' := WithBase(s, b, row).(knownBases := s.knownBases + {b});
      FilesKeep(hash, s', s'.db.(jobs := s.db.jobs[j := Import(b)]));
    }
  }

  lemma RequestBuildKeeps(hash: Hash, s: State, a: Action)
    requires Provenance(hash, s) && CmsEnabled(s, a) && a.RequestBuild?
    ensures Provenance(hash, DoCms(s, a))
  {
    var s' := DoCms(s, a);
    forall x | x in s'.attempts ensures AttemptOk(hash, s', s'.attempts[x]) && PayloadOk(s', s'.attempts[x]) {
      assert AttemptOk(hash, s, s.attempts[x]) && PayloadOk(s, s.attempts[x]);
    }
    forall p | p in s'.builds ensures BuildOk(hash, s', p, s'.builds[p]) { assert BuildOk(hash, s, p, s.builds[p]); }
  }

  lemma CmsKeeps(hash: Hash, s: State, a: Action)
    requires CmsEnabled(s, a) && Provenance(hash, s)
    ensures Provenance(hash, DoCms(s, a))
  {
    if a.RequestImport? {
      RequestImportKeeps(hash, s, a.b, a.path, a.pin, a.j);
    } else if a.RequestBuild? {
      RequestBuildKeeps(hash, s, a);
    } else {
      RowsKeep(hash, s, DoCms(s, a).db);
    }
  }

  lemma CommitKeeps(hash: Hash, s: State, x: AttemptId)
    requires WorkEnabled(hash, s, Commit(x)) && Provenance(hash, s)
    ensures Provenance(hash, DoCommit(hash, s, x))
  {
    var t := s.attempts[x];
    assert AttemptOk(hash, s, t) && PayloadOk(s, t);
    if t.Uploaded? {
      var record := ImportRecord(t.base, t.expected, t.bytes);
      PublishBaseKeeps(hash, s, t.path, record);
      EndKeeps(hash, PublishBase(hash, s, t.path, record), x);
    } else {
      var record := BuildRecord(t.source, t.sha, t.payload, t.bytes, t.output);
      PublishImageKeeps(hash, s, t.image, record);
      EndKeeps(hash, PublishImage(hash, s, t.image, record), x);
    }
  }

  lemma FirstReadOk(hash: Hash, s: State, p: ImageId)
    requires Provenance(hash, s) && p in s.db.images
    ensures AttemptOk(hash, s, FirstRead(s.db, p)) && PayloadOk(s, FirstRead(s.db, p))
  {
    if Usable(s.db, p) {
      var b := s.db.images[p].base.value;
      assert BaseOk(hash, s.lastImport, b, s.db.bases[b]);
      assert s.lastImport[b] in s.imports;
    }
  }

  lemma FilesKeep(hash: Hash, s: State, db: Db)
    requires Provenance(hash, s) && db.bases == s.db.bases && db.images == s.db.images
    ensures Provenance(hash, s.(db := db))
  {
    RowsKeep(hash, s, db);
  }

  lemma WorkKeeps(hash: Hash, s: State, a: Action)
    requires WorkEnabled(hash, s, a) && Provenance(hash, s)
    ensures Provenance(hash, DoWork(hash, s, a))
  {
    match a
    case StartImport(x, b) => BecomeKeeps(hash, s, x, Fetching(b, s.db.bases[b].path, s.db.bases[b].pin));
    case StartProvision(x, p) =>
      FirstReadOk(hash, s, p);
      BecomeKeeps(hash, s, x, FirstRead(s.db, p));
    case Upload(x) => UploadKeeps(hash, s, x);
    case Store(x) => StoreKeeps(hash, s, x);
    case Fetch(_, _, _) => MoveKeeps(hash, s, a);
    case Verify(_) => MoveKeeps(hash, s, a);
    case Build(_, _) => MoveKeeps(hash, s, a);
    case Commit(x) => CommitKeeps(hash, s, x);
    case Terminal(x) => TerminalKeeps(hash, s, x);
    case Drop(x) => EndKeeps(hash, s, x);
    case ReadTarget(x, j) => MirrorsKeep(hash, s, s.mirrors[x := j]);
    case Mirrored(x) => MirroredKeeps(hash, s, x);
  }

  lemma MoveKeeps(hash: Hash, s: State, a: Action)
    requires WorkEnabled(hash, s, a) && Provenance(hash, s) && (a.Fetch? || a.Verify? || a.Build?)
    ensures Provenance(hash, DoWork(hash, s, a))
  {
    assert AttemptOk(hash, s, s.attempts[a.a]) && PayloadOk(s, s.attempts[a.a]);
    BecomeKeeps(hash, s, a.a, DoWork(hash, s, a).attempts[a.a]);
  }

  lemma UploadKeeps(hash: Hash, s: State, x: AttemptId)
    requires WorkEnabled(hash, s, Upload(x)) && Provenance(hash, s)
    ensures Provenance(hash, DoWork(hash, s, Upload(x)))
  {
    var t := s.attempts[x];
    assert AttemptOk(hash, s, t);
    var s' := Become(s, x, Uploaded(t.base, t.path, t.expected, t.bytes));
    BecomeKeeps(hash, s, x, Uploaded(t.base, t.path, t.expected, t.bytes));
    FilesKeep(hash, s', s.db.(blobs := s.db.blobs[t.path := t.bytes]));
  }

  lemma StoreKeeps(hash: Hash, s: State, x: AttemptId)
    requires WorkEnabled(hash, s, Store(x)) && Provenance(hash, s)
    ensures Provenance(hash, DoWork(hash, s, Store(x)))
  {
    var t := s.attempts[x];
    assert AttemptOk(hash, s, t) && PayloadOk(s, t);
    var t' := Stored(t.image, t.source, t.sha, t.payload, t.bytes, t.output);
    BecomeKeeps(hash, s, x, t');
    FilesKeep(hash, Become(s, x, t'), s.db.(outputs := s.db.outputs[t.image := t.output]));
  }

  lemma TerminalKeeps(hash: Hash, s: State, x: AttemptId)
    requires WorkEnabled(hash, s, Terminal(x)) && Provenance(hash, s)
    ensures Provenance(hash, DoWork(hash, s, Terminal(x)))
  {
    var t := s.attempts[x];
    EndKeeps(hash, s, x);
    if t.OfImport() { FailBaseKeeps(hash, Ended(s, x), t.base); } else { FailImageKeeps(hash, Ended(s, x), t.image); }
  }

  lemma MirrorsKeep(hash: Hash, s: State, mirrors: map<AttemptId, JobId>)
    requires Provenance(hash, s)
    ensures Provenance(hash, s.(mirrors := mirrors))
  {
    var s' := s.(mirrors := mirrors);
    forall x | x in s'.attempts ensures AttemptOk(hash, s', s'.attempts[x]) && PayloadOk(s', s'.attempts[x]) {
      assert AttemptOk(hash, s, s.attempts[x]) && PayloadOk(s, s.attempts[x]);
    }
  }

  lemma MirroredKeeps(hash: Hash, s: State, x: AttemptId)
    requires WorkEnabled(hash, s, Mirrored(x)) && Provenance(hash, s)
    ensures Provenance(hash, DoWork(hash, s, Mirrored(x)))
  {
    var target := s.db.jobs[s.mirrors[x]];
    FailedKeeps(hash, s, target);
    MirrorsKeep(hash, s.(db := FailTarget(s.db, target)), s.mirrors - {x});
  }

  lemma FailedKeeps(hash: Hash, s: State, target: Target)
    requires Provenance(hash, s)
    ensures Provenance(hash, s.(db := FailTarget(s.db, target)))
  {
    match target
    case Import(b) => FailBaseKeeps(hash, s, b);
    case Provision(p) => FailImageKeeps(hash, s, p);
    case OtherTarget =>
  }

  lemma {:induction false} ProvenanceHolds(hash: Hash, r: Rules, run: Run, n: nat)
    requires IsRun(hash, r, run) && n < |run.states|
    ensures Provenance(hash, run.states[n])
  {
    if n > 0 {
      ProvenanceHolds(hash, r, run, n - 1);
      assert StepsAt(hash, r, run, n - 1);
      var s, a := run.states[n - 1], run.actions[n - 1];
      if CmsEnabled(s, a) { CmsKeeps(hash, s, a); } else { WorkKeeps(hash, s, a); }
    }
  }

  // -------------------------------------------------------------- theorems

  /** Theorem: in every reachable state a READY or FAILED image has no payload, and one still
      PROVISIONING has the payload it was created with, whatever attempts, retries, duplicates,
      mirrors and deletions went on. */
  lemma PayloadLifecycle(hash: Hash, r: Rules, run: Run, n: nat, p: ImageId)
    requires IsRun(hash, r, run) && n < |run.states| && p in run.states[n].db.images
    ensures var row := run.states[n].db.images[p];
      p in run.states[n].secrets
      && (row.payload == Some(run.states[n].secrets[p]) <==> row.status == Provisioning)
      && (row.payload == None <==> row.status == ImageReady || row.status == ImageFailed)
  {
    ProvenanceHolds(hash, r, run, n);
  }

  /** Theorem: a READY image was built, with the payload it was created with, from bytes whose hash is
      the one the base row held when the attempt read it; and that is a hash some import of this
      base was told to expect. */
  lemma ReadyImageIsVerified(hash: Hash, r: Rules, run: Run, n: nat, p: ImageId) returns (i: nat)
    requires IsRun(hash, r, run) && n < |run.states|
    requires p in run.states[n].db.images && run.states[n].db.images[p].status == ImageReady
    ensures var s := run.states[n];
      p in s.builds && p in s.secrets && i < |s.imports|
      && var build := s.builds[p];
         build.payload == s.secrets[p] && s.db.images[p].sha == Some(Lower(hash(build.output)))
         && Lower(hash(build.bytes)) == Lower(build.sha)
         && s.imports[i].base == build.source && Lower(hash(build.bytes)) == Lower(s.imports[i].expected)
  {
    ProvenanceHolds(hash, r, run, n);
    var s := run.states[n];
    var build := s.builds[p];
    assert BuildOk(hash, s, p, build);
    i :| 0 <= i < |s.imports| && s.imports[i].base == build.source && Lower(hash(s.imports[i].bytes)) == build.sha;
    assert RecordOk(hash, s.imports[i]);
    LowerTwice(hash(s.imports[i].bytes));
  }

  /** Theorem: a READY base row records the hash of the bytes that its import uploaded, and that is
      the hash this import was told to expect. */
  lemma ReadyBaseIsVerified(hash: Hash, r: Rules, run: Run, n: nat, b: BaseId)
    requires IsRun(hash, r, run) && n < |run.states|
    requires b in run.states[n].db.bases && run.states[n].db.bases[b].status == BaseReady
    ensures var s := run.states[n];
      b in s.lastImport && s.lastImport[b] in s.imports && s.lastImport[b].base == b
      && s.db.bases[b].sha == Some(Lower(hash(s.lastImport[b].bytes))) && s.db.bases[b].sha == Some(Lower(s.lastImport[b].expected))
      && s.db.bases[b].blob == Some(s.db.bases[b].path)
  {
    ProvenanceHolds(hash, r, run, n);
    var s := run.states[n];
    assert BaseOk(hash, s.lastImport, b, s.db.bases[b]);
    assert RecordOk(hash, s.lastImport[b]);
  }
}
