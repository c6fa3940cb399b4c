/** The imager: two linked row lifecycles, import of a base image and provisioning of a fleet
    image from it, driven by attempts that any number of workers run at once. */
module Imager {
  import opened Basics
  import opened Text
  import Download

  type BaseId = nat
  type ImageId = nat
  type JobId = nat
  type AttemptId = nat
  type Bytes = Download.Bytes
  type Hash = Download.Hash
  type Payload = Bytes

  // `<variant>/<version>/base.img.xz`; the two parts are unique among the rows.
  datatype Path = Path(variant: string, version: string)

  predicate PathOk(p: Path) {
    p.variant != "" && p.version != "" && forall c :: c in p.variant + p.version ==>
      'A' <= c <= 'Z' || 'a' <= c <= 'z' || '0' <= c <= '9' || c in "._-"
  }

  datatype BaseStatus = Importing | BaseReady | BaseFailed
  // `pin` is the expected hash stamped by the API, together with the source URL.
  datatype BaseRow = BaseRow(path: Path, status: BaseStatus, pin: Option<string>, sha: Option<string>, blob: Option<Path>)

  // EXPIRED is left to a future sweep: no code sets it.
  datatype ImageStatus = Provisioning | ImageReady | ImageFailed | Expired
  datatype ImageRow = ImageRow(base: Option<BaseId>, status: ImageStatus, payload: Option<Payload>, sha: Option<string>)

  datatype Target = Import(base: BaseId) | Provision(image: ImageId) | OtherTarget

  datatype Db = Db(
    bases: map<BaseId, BaseRow>, images: map<ImageId, ImageRow>,
    blobs: map<Path, Bytes>, outputs: map<ImageId, Bytes>,
    jobs: map<JobId, Target>)

  // ----------------------------------------------------------- transactions

  /** `_set_base_image_terminal`. */
  function FailBase(db: Db, b: BaseId): Db {
    if b in db.bases then db.(bases := db.bases[b := db.bases[b].(status := BaseFailed)]) else db
  }

  /** `_set_provisioned_terminal`: the secret goes with the status. */
  function FailImage(db: Db, p: ImageId): Db {
    if p in db.images then db.(images := db.images[p := db.images[p].(status := ImageFailed, payload := None)]) else db
  }

  function CommitBase(hash: Hash, db: Db, b: BaseId, path: Path, bytes: Bytes): Db {
    if b in db.bases
    then db.(bases := db.bases[b := db.bases[b].(status := BaseReady, sha := Some(Lower(hash(bytes))), blob := Some(path))])
    else db
  }

  function CommitImage(hash: Hash, db: Db, p: ImageId, output: Bytes): Db {
    if p in db.images
    then db.(images := db.images[p := db.images[p].(status := ImageReady, payload := None, sha := Some(Lower(hash(output))))])
    else db
  }

  /** What an exhaustion writes, by key. */
  function FailTarget(db: Db, target: Target): Db {
    match target
    case Import(b) => FailBase(db, b)
    case Provision(p) => FailImage(db, p)
    case OtherTarget => db
  }

  datatype Mirror = NotImager | SkippedNewerJob | Missing | SkippedStatus | Updated

  predicate Newest(db: Db, j: JobId, target: Target) {
    forall i :: i in db.jobs && db.jobs[i] == target && i != j ==> i < j && j in db.jobs
  }

  /** `mark_target_failed_on_exhaustion` for job `j`, as the worker read it, undisturbed: `Updated` is
      what it has read when it goes on to write. */
  function Exhaust(db: Db, j: JobId, target: Target): (Db, Mirror) {
    if target.OtherTarget? then (db, NotImager)
    else if !Newest(db, j, target) then (db, SkippedNewerJob)
    else match target
      case Import(b) =>
        if b !in db.bases then (db, Missing)
        else if db.bases[b].status != Importing then (db, SkippedStatus)
        else (FailTarget(db, target), Updated)
      case Provision(p) =>
        if p !in db.images then (db, Missing)
        else if db.images[p].status != Provisioning then (db, SkippedStatus)
        else (FailTarget(db, target), Updated)
      case OtherTarget => (db, NotImager)
  }

  predicate InFlight(db: Db, target: Target) {
    match target
    case Import(b) => b in db.bases && db.bases[b].status == Importing
    case Provision(p) => p in db.images && db.images[p].status == Provisioning
    case OtherTarget => false
  }

  /** Theorem: the mirror leaves the target in flight exactly when a newer job owns it, and otherwise
      changes the target alone, and only if it was in flight. */
  lemma MirrorSettles(db: Db, j: JobId, target: Target)
    requires j in db.jobs && db.jobs[j] == target
    ensures var (db', m) := Exhaust(db, j, target);
      (InFlight(db', target) <==> InFlight(db, target) && exists i :: i in db.jobs && i > j && db.jobs[i] == target)
      && (m == Updated <==> InFlight(db, target) && !InFlight(db', target))
      && (m != Updated ==> db' == db)
      && forall t :: t != target ==> (InFlight(db', t) <==> InFlight(db, t))
  {
  }

  // --------------------------------------------------------------- attempts

  /** One run of a handler, between the points where it waits. */
  datatype Attempt =
    | Fetching(base: BaseId, path: Path, pin: Option<string>)
    | Fetched(base: BaseId, path: Path, expected: string, bytes: Bytes)
    | Uploaded(base: BaseId, path: Path, expected: string, bytes: Bytes)
    | Rejected(image: ImageId)
    | Staging(image: ImageId, source: BaseId, blob: Path, sha: string, payload: Payload)
    | Verified(image: ImageId, source: BaseId, sha: string, payload: Payload, bytes: Bytes)
    | Built(image: ImageId, source: BaseId, sha: string, payload: Payload, bytes: Bytes, output: Bytes)
    | Stored(image: ImageId, source: BaseId, sha: string, payload: Payload, bytes: Bytes, output: Bytes)
  {
    predicate OfImport() { Fetching? || Fetched? || Uploaded? }
  }

  // What happened: every commit of an import, and the last commit of each build.
  datatype ImportRecord = ImportRecord(base: BaseId, expected: string, bytes: Bytes)
  datatype BuildRecord = BuildRecord(source: BaseId, sha: string, payload: Payload, bytes: Bytes, output: Bytes)

  datatype State = State(
    db: Db, attempts: map<AttemptId, Attempt>,
    secrets: map<ImageId, Payload>, knownBases: set<BaseId>,
    imports: seq<ImportRecord>, lastImport: map<BaseId, ImportRecord>, builds: map<ImageId, BuildRecord>,
    // Workers with an exhausted job that have read its target in flight, and not yet failed it.
    mirrors: map<AttemptId, JobId>)

  datatype Action =
    // CMS
    | RequestImport(b: BaseId, path: Path, pin: Option<string>, j: JobId)
    | RequestBuild(p: ImageId, b: BaseId, payload: Payload, j: JobId)
    | DeleteBase(b: BaseId)
    | DeleteImage(p: ImageId)
    | LoseBlob(path: Path)
    // worker
    | StartImport(a: AttemptId, b: BaseId)
    | Fetch(a: AttemptId, expected: string, bytes: Bytes)
    | Upload(a: AttemptId)
    | StartProvision(a: AttemptId, p: ImageId)
    | Verify(a: AttemptId)
    | Build(a: AttemptId, output: Bytes)
    | Store(a: AttemptId)
    | Commit(a: AttemptId)
    | Terminal(a: AttemptId)
    | Drop(a: AttemptId)
    | ReadTarget(a: AttemptId, j: JobId)
    | Mirrored(a: AttemptId)

  function RowsAt(db: Db, path: Path): set<BaseId> {
    set b | b in db.bases && db.bases[b].path == path
  }

  /** What the provision handler reads must be usable: a READY base with a proper blob path and hash,
      and a payload. */
  predicate Usable(db: Db, p: ImageId)
    requires p in db.images
  {
    var row := db.images[p];
    row.payload.Some? && row.base.Some? && row.base.value in db.bases
    && var base := db.bases[row.base.value];
       base.status == BaseReady && base.blob.Some? && PathOk(base.blob.value)
       && base.sha.Some? && Download.IsSha256(base.sha.value)
  }

  predicate StillImporting(db: Db, p: ImageId)
    requires p in db.images
  {
    var row := db.images[p];
    row.base.Some? && row.base.value in db.bases && db.bases[row.base.value].status == Importing
  }

  predicate CmsEnabled(s: State, a: Action) {
    match a
    case RequestImport(b, path, _, j) =>
      j !in s.db.jobs && if RowsAt(s.db, path) == {} then b !in s.knownBases else b in RowsAt(s.db, path)
    case RequestBuild(p, b, _, j) =>
      j !in s.db.jobs && p !in s.secrets && b in s.db.bases && s.db.bases[b].status == BaseReady
    case DeleteBase(b) => b in s.db.bases
    case DeleteImage(p) => p in s.db.images
    case LoseBlob(path) => path in s.db.blobs
    case _ => false
  }

  predicate WorkEnabled(hash: Hash, s: State, a: Action) {
    match a
    case StartImport(x, b) => x !in s.attempts && b in s.db.bases && s.db.bases[b].status != BaseReady
    case StartProvision(x, p) =>
      x !in s.attempts && p in s.db.images && s.db.images[p].status != ImageReady && !StillImporting(s.db, p)
    case Fetch(x, expected, bytes) =>
      x in s.attempts && s.attempts[x].Fetching? && (s.attempts[x].pin.Some? ==> expected == s.attempts[x].pin.value)
      && Download.IsSha256(expected) && Lower(hash(bytes)) == Lower(expected)
    case Upload(x) => x in s.attempts && s.attempts[x].Fetched? && PathOk(s.attempts[x].path)
    case Verify(x) =>
      x in s.attempts && s.attempts[x].Staging? && s.attempts[x].blob in s.db.blobs
      && Lower(hash(s.db.blobs[s.attempts[x].blob])) == Lower(s.attempts[x].sha)
    case Build(x, _) => x in s.attempts && s.attempts[x].Verified?
    case Store(x) => x in s.attempts && s.attempts[x].Built?
    case Commit(x) => x in s.attempts && (s.attempts[x].Uploaded? || s.attempts[x].Stored?)
    case Terminal(x) =>
      x in s.attempts && var t := s.attempts[x]; t.Fetching? || (t.Fetched? && !PathOk(t.path)) || t.Rejected? || t.Staging? || t.Verified?
    case Drop(x) => x in s.attempts
    case ReadTarget(x, j) => x !in s.mirrors && j in s.db.jobs && Exhaust(s.db, j, s.db.jobs[j]).1 == Updated
    case Mirrored(x) => x in s.mirrors && s.mirrors[x] in s.db.jobs
    case _ => false
  }

  predicate Enabled(hash: Hash, s: State, a: Action) {
    CmsEnabled(s, a) || WorkEnabled(hash, s, a)
  }

  /** The import route: a new row, a FAILED row stamped afresh, or nothing. */
  function DoRequestImport(s: State, b: BaseId, path: Path, pin: Option<string>, j: JobId): State {
    if b in s.db.bases && s.db.bases[b].status != BaseFailed then s
    else s.(db := s.db.(bases := s.db.bases[b := BaseRow(path, Importing, pin, None, None)], jobs := s.db.jobs[j := Import(b)]),
            knownBases := s.knownBases + {b})
  }

  function Orphaned(row: ImageRow, b: BaseId): ImageRow {
    if row.base == Some(b) then row.(base := None) else row
  }

  function DoCms(s: State, a: Action): State
    requires CmsEnabled(s, a)
  {
    match a
    case RequestImport(b, path, pin, j) => DoRequestImport(s, b, path, pin, j)
    case RequestBuild(p, b, payload, j) =>
      s.(db := s.db.(images := s.db.images[p := ImageRow(Some(b), Provisioning, Some(payload), None)], jobs := s.db.jobs[j := Provision(p)]),
         secrets := s.secrets[p := payload])
    case DeleteBase(b) =>
      s.(db := s.db.(bases := s.db.bases - {b}, images := map p | p in s.db.images :: Orphaned(s.db.images[p], b)))
    case DeleteImage(p) => s.(db := s.db.(images := s.db.images - {p}, outputs := s.db.outputs - {p}))
    case LoseBlob(path) => s.(db := s.db.(blobs := s.db.blobs - {path}))
  }

  function Become(s: State, x: AttemptId, t: Attempt): State {
    s.(attempts := s.attempts[x := t])
  }

  function Ended(s: State, x: AttemptId): State {
    s.(attempts := s.attempts - {x})
  }

  function FirstRead(db: Db, p: ImageId): Attempt
    requires p in db.images
  {
    if Usable(db, p) then
      var base := db.bases[db.images[p].base.value];
      Staging(p, db.images[p].base.value, base.blob.value, base.sha.value, db.images[p].payload.value)
    else Rejected(p)
  }

  function PublishBase(hash: Hash, s: State, path: Path, record: ImportRecord): State {
    if record.base in s.db.bases
    then s.(db := CommitBase(hash, s.db, record.base, path, record.bytes),
            imports := s.imports + [record], lastImport := s.lastImport[record.base := record])
    else s
  }

  function PublishImage(hash: Hash, s: State, p: ImageId, record: BuildRecord): State {
    if p in s.db.images
    then s.(db := CommitImage(hash, s.db, p, record.output), builds := s.builds[p := record])
    else s
  }

  /** The last transaction of a handler; a row that has vanished stays away. */
  function DoCommit(hash: Hash, s: State, x: AttemptId): State
    requires WorkEnabled(hash, s, Commit(x))
  {
    var t := s.attempts[x];
    Ended(if t.Uploaded? then PublishBase(hash, s, t.path, ImportRecord(t.base, t.expected, t.bytes))
          else PublishImage(hash, s, t.image, BuildRecord(t.source, t.sha, t.payload, t.bytes, t.output)), x)
  }

  function DoWork(hash: Hash, s: State, a: Action): State
    requires WorkEnabled(hash, s, a)
  {
    match a
    case StartImport(x, b) => Become(s, x, Fetching(b, s.db.bases[b].path, s.db.bases[b].pin))
    case StartProvision(x, p) => Become(s, x, FirstRead(s.db, p))
    case Fetch(x, expected, bytes) => Become(s, x, Fetched(s.attempts[x].base, s.attempts[x].path, expected, bytes))
    case Upload(x) =>
      var t := s.attempts[x];
      Become(s, x, Uploaded(t.base, t.path, t.expected, t.bytes)).(db := s.db.(blobs := s.db.blobs[t.path := t.bytes]))
    case Verify(x) =>
      var t := s.attempts[x];
      Become(s, x, Verified(t.image, t.source, t.sha, t.payload, s.db.blobs[t.blob]))
    case Build(x, output) =>
      var t := s.attempts[x];
      Become(s, x, Built(t.image, t.source, t.sha, t.payload, t.bytes, output))
    case Store(x) =>
      var t := s.attempts[x];
      Become(s, x, Stored(t.image, t.source, t.sha, t.payload, t.bytes, t.output)).(db := s.db.(outputs := s.db.outputs[t.image := t.output]))
    case Commit(x) => DoCommit(hash, s, x)
    case Terminal(x) =>
      var t := s.attempts[x];
      Ended(s, x).(db := if t.OfImport() then FailBase(s.db, t.base) else FailImage(s.db, t.image))
    case Drop(x) => Ended(s, x)
    case ReadTarget(x, j) => s.(mirrors := s.mirrors[x := j])
    case Mirrored(x) => s.(db := FailTarget(s.db, s.db.jobs[s.mirrors[x]]), mirrors := s.mirrors - {x})
  }

  function Do(hash: Hash, s: State, a: Action): State
    requires Enabled(hash, s, a)
  {
    if CmsEnabled(s, a) then DoCms(s, a) else DoWork(hash, s, a)
  }

  // ------------------------------------------------------------------- runs

  // `restartAlone`: a failed base is imported again only when no attempt on it is left.
  // `solo`: no two attempts work on one image, or on one blob path, at a time.
  // `freshMirror`: an exhausted worker writes over a target that is still in flight as read.
  datatype Rules = Rules(restartAlone: bool, solo: bool, freshMirror: bool)

  predicate WorksOnBase(t: Attempt, b: BaseId) { t.OfImport() && t.base == b }
  predicate WorksOnPath(t: Attempt, path: Path) { t.OfImport() && t.path == path }
  predicate WorksOnImage(t: Attempt, p: ImageId) { !t.OfImport() && t.image == p }

  ghost predicate Allowed(r: Rules, s: State, a: Action) {
    (r.restartAlone && a.RequestImport? ==> forall x :: x in s.attempts ==> !WorksOnBase(s.attempts[x], a.b))
    && (r.solo && a.StartImport? && a.b in s.db.bases ==> forall x :: x in s.attempts ==> !WorksOnPath(s.attempts[x], s.db.bases[a.b].path))
    && (r.solo && a.StartProvision? ==> forall x :: x in s.attempts ==> !WorksOnImage(s.attempts[x], a.p))
    && (r.freshMirror && a.Mirrored? && a.a in s.mirrors && s.mirrors[a.a] in s.db.jobs ==> InFlight(s.db, s.db.jobs[s.mirrors[a.a]]))
  }

  const EMPTY := State(Db(map[], map[], map[], map[], map[]), map[], map[], {}, [], map[], map[], map[])

  datatype Run = Run(states: seq<State>, actions: seq<Action>)

  ghost predicate StepsAt(hash: Hash, r: Rules, run: Run, i: nat)
    requires i < |run.actions| && |run.states| == |run.actions| + 1
  {
    Enabled(hash, run.states[i], run.actions[i]) && Allowed(r, run.states[i], run.actions[i])
    && run.states[i + 1] == Do(hash, run.states[i], run.actions[i])
  }

  ghost predicate IsRun(hash: Hash, r: Rules, run: Run) {
    |run.states| == |run.actions| + 1 && run.states[0] == EMPTY
    && forall i :: 0 <= i < |run.actions| ==> StepsAt(hash, r, run, i)
  }
}
