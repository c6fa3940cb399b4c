/** The imager handlers in the source's own form: methods that assign rows and files. */
module ImagerWorker {
  import opened Basics
  import opened Text
  import Download
  import opened Imager

  type Url = Download.Url

  // `Retry` stands for `return False` and for any exception that is not terminal.
  datatype Outcome = Success | Retry | TerminalError

  // What the catalog says when the row has no pinned hash.
  datatype Catalog = Entry(url: Url, expected: string, size: Option<nat>) | Refused | Unreachable

  datatype ImportWorld = ImportWorld(
    enoughDisk: bool, source: Url, catalog: Catalog,
    allowlist: set<string>, answers: nat -> Download.Answer, uploadOk: bool)

  datatype BuildResult = Image(output: Bytes) | ImagerError

  datatype BuildWorld = BuildWorld(enoughDisk: bool, isText: bool, build: BuildResult, uploadOk: bool)

  /** Where the bytes come from and what they must be: the row's pin, which knows no size, or the catalog. */
  function Resolve(row: BaseRow, w: ImportWorld): Catalog {
    match row.pin
    case Some(expected) => Entry(w.source, expected, None)
    case None => w.catalog
  }

  /** Everything an import needs to succeed on a row that is not READY. */
  ghost predicate Importable(row: BaseRow, w: ImportWorld, hash: Hash) {
    w.enoughDisk && w.uploadOk && PathOk(row.path) && Resolve(row, w).Entry?
    && var e := Resolve(row, w); Download.Downloadable(e.url, e.expected, e.size, w.allowlist, w.answers, hash)
  }

  /** What no further attempt can mend, given that there is disk for this one: no usable catalog entry, a
      fatal download, or a malformed path for what was downloaded. */
  ghost predicate Unimportable(row: BaseRow, w: ImportWorld, hash: Hash) {
    w.enoughDisk
    && match row.pin
       case Some(expected) => FatalSource(row.path, w.source, expected, None, w, hash)
       case None =>
         w.catalog.Refused? || (w.catalog.Entry? && FatalSource(row.path, w.catalog.url, w.catalog.expected, w.catalog.size, w, hash))
  }

  ghost predicate FatalSource(path: Path, url: Url, expected: string, size: Option<nat>, w: ImportWorld, hash: Hash) {
    Download.Fatal(url, expected, size, w.allowlist, w.answers, hash)
    || (Download.Downloadable(url, expected, size, w.allowlist, w.answers, hash) && !PathOk(path))
  }

  /** The same for a provision whose base is not on its way: rows it cannot be built from, and, given disk and
      a base blob, a blob that has drifted or a build that fails. */
  ghost predicate Unbuildable(db: Db, p: ImageId, w: BuildWorld, hash: Hash)
    requires p in db.images
  {
    var row := db.images[p];
    if row.base.None? || row.base.value !in db.bases then true
    else
      var base := db.bases[row.base.value];
      if base.status == Importing then false
      else if base.status != BaseReady || base.blob.None? || base.sha.None? || row.payload.None? || !w.isText then true
      else if !PathOk(base.blob.value) || !Download.IsSha256(base.sha.value) then true
      else w.enoughDisk && base.blob.value in db.blobs
           && (Lower(hash(db.blobs[base.blob.value])) != Lower(base.sha.value) || w.build.ImagerError?)
  }

  /** Everything a provision needs to succeed on an image that is not READY. */
  ghost predicate Buildable(db: Db, p: ImageId, w: BuildWorld, hash: Hash)
    requires p in db.images
  {
    Usable(db, p) && w.isText && w.enoughDisk && w.uploadOk && w.build.Image?
    && var base := db.bases[db.images[p].base.value];
       base.blob.value in db.blobs && Lower(hash(db.blobs[base.blob.value])) == Lower(base.sha.value)
  }

  class Worker {
    var bases: map<BaseId, BaseRow>
    var images: map<ImageId, ImageRow>
    var blobs: map<Path, Bytes>
    var outputs: map<ImageId, Bytes>
    var jobs: map<JobId, Target>

    ghost function Contents(): Db
      reads this
    {
      Db(bases, images, blobs, outputs, jobs)
    }

    constructor (db: Db)
      ensures Contents() == db
    {
      bases, images, blobs, outputs, jobs := db.bases, db.images, db.blobs, db.outputs, db.jobs;
    }

    method SetBaseImageTerminal(b: BaseId)
      modifies this`bases
      ensures Contents() == FailBase(old(Contents()), b)
      ensures bases == if b in old(bases) then old(bases)[b := old(bases)[b].(status := BaseFailed)] else old(bases)
    {
      if b !in bases { return; }
      bases := bases[b := bases[b].(status := BaseFailed)];
    }

    method SetProvisionedTerminal(p: ImageId)
      modifies this`images
      ensures Contents() == FailImage(old(Contents()), p)
      ensures images == if p in old(images) then old(images)[p := old(images)[p].(status := ImageFailed, payload := None)] else old(images)
    {
      if p !in images { return; }
      var row := images[p].(status := ImageFailed);
      row := row.(payload := None);
      images := images[p := row];
    }

    /** The newest job of the same target, if there is one. */
    method LatestJob(target: Target) returns (latest: Option<JobId>)
      ensures latest.None? ==> forall i :: i in jobs ==> jobs[i] != target
      ensures latest.Some? ==> latest.value in jobs && jobs[latest.value] == target
                               && forall i :: i in jobs && jobs[i] == target ==> i <= latest.value
    {
      latest := None;
      var todo := jobs.Keys;
      while todo != {}
        invariant todo <= jobs.Keys
        invariant latest.None? ==> forall i :: i in jobs && i !in todo ==> jobs[i] != target
        invariant latest.Some? ==> latest.value in jobs && jobs[latest.value] == target
                                   && forall i :: i in jobs && i !in todo && jobs[i] == target ==> i <= latest.value
        decreases todo
      {
        var i: JobId :| i in todo;
        if jobs[i] == target && (latest.None? || latest.value < i) { latest := Some(i); }
        todo := todo - {i};
      }
    }

    method MarkTargetFailedOnExhaustion(j: JobId, target: Target) returns (m: Mirror)
      requires j in jobs ==> jobs[j] == target
      modifies this`bases, this`images
      ensures (Contents(), m) == Exhaust(old(Contents()), j, target)
      ensures m == Updated && target.Import? ==>
        bases == old(bases)[target.base := old(bases)[target.base].(status := BaseFailed)] && images == old(images)
      ensures m == Updated && target.Provision? ==>
        images == old(images)[target.image := old(images)[target.image].(status := ImageFailed, payload := None)] && bases == old(bases)
    {
      if target.OtherTarget? { return NotImager; }
      var latest := LatestJob(target);
      if latest.Some? && latest.value != j { return SkippedNewerJob; }
      if target.Import? {
        if target.base !in bases { return Missing; }
        if bases[target.base].status != Importing { return SkippedStatus; }
        bases := bases[target.base := bases[target.base].(status := BaseFailed)];
        return Updated;
      }
      if target.image !in images { return Missing; }
      if images[target.image].status != Provisioning { return SkippedStatus; }
      images := images[target.image := images[target.image].(status := ImageFailed, payload := None)];
      m := Updated;
    }

    /** `import_base_image_by_id`, undisturbed: when it succeeds, and what it leaves behind. */
    method ImportBaseImage(b: BaseId, w: ImportWorld, hash: Hash) returns (r: Outcome, ghost bytes: Bytes)
      modifies this`bases, this`blobs
      ensures b !in old(bases) ==> r == Retry
      ensures b in old(bases) ==>
        (r == Success <==> old(bases)[b].status == BaseReady || Importable(old(bases)[b], w, hash))
      // Which failures are for good, and which are tried again.
      ensures r == TerminalError <==>
        b in old(bases) && old(bases)[b].status != BaseReady && Unimportable(old(bases)[b], w, hash)
      ensures r == Retry ==> Contents() == old(Contents())
      ensures r == TerminalError ==>
        bases == old(bases)[b := old(bases)[b].(status := BaseFailed)] && Contents() == FailBase(old(Contents()), b)
      ensures r == Success && old(bases)[b].status == BaseReady ==> Contents() == old(Contents())
      ensures r == Success && old(bases)[b].status != BaseReady ==>
        var path := old(bases)[b].path;
        Lower(hash(bytes)) == Lower(if old(bases)[b].pin.Some? then old(bases)[b].pin.value else w.catalog.expected)
        && bases == old(bases)[b := old(bases)[b].(status := BaseReady, sha := Some(Lower(hash(bytes))), blob := Some(path))]
        && Contents() == CommitBase(hash, old(Contents()).(blobs := old(blobs)[path := bytes]), b, path, bytes)
    {
      bytes := [];
      if b !in bases { return Retry, bytes; }
      if bases[b].status == BaseReady { return Success, bytes; }
      var path := bases[b].path;
      if !w.enoughDisk { return Retry, bytes; }
      var entry := if bases[b].pin.Some? then Entry(w.source, bases[b].pin.value, None) else w.catalog;
      if entry.Refused? { SetBaseImageTerminal(b); return TerminalError, bytes; }
      if entry.Unreachable? { return Retry, bytes; }
      var d := new Download.Downloader();
      var got := d.DownloadWithSha(entry.url, entry.expected, entry.size, w.allowlist, true, w.answers, hash);
      if got.Transient? { return Retry, bytes; }
      if got.Terminal? || !PathOk(path) { SetBaseImageTerminal(b); return TerminalError, bytes; }
      if !w.uploadOk { return Retry, bytes; }
      blobs := blobs[path := d.disk];
      bases := bases[b := bases[b].(sha := Some(Lower(got.sha)), blob := Some(path), status := BaseReady)];
      return Success, d.disk;
    }

    /** `provision_image_by_id`, undisturbed. */
    method ProvisionImage(p: ImageId, w: BuildWorld, hash: Hash) returns (r: Outcome)
      modifies this`images, this`outputs
      ensures p !in old(images) ==> r == Retry
      ensures p in old(images) ==>
        (r == Success <==> old(images)[p].status == ImageReady || Buildable(old(Contents()), p, w, hash))
      ensures r == TerminalError <==>
        p in old(images) && old(images)[p].status != ImageReady && Unbuildable(old(Contents()), p, w, hash)
      ensures r == Retry ==> Contents() == old(Contents())
      ensures r == TerminalError ==>
        images == old(images)[p := old(images)[p].(status := ImageFailed, payload := None)]
        && Contents() == FailImage(old(Contents()), p)
      ensures r == Success && old(images)[p].status == ImageReady ==> Contents() == old(Contents())
      ensures r == Success && old(images)[p].status != ImageReady ==>
        images == old(images)[p := old(images)[p].(
          status := ImageReady, payload := None, sha := Some(Lower(hash(w.build.output))))]
        && Contents() == CommitImage(hash, old(Contents()).(outputs := old(outputs)[p := w.build.output]), p, w.build.output)
    {
      if p !in images { return Retry; }
      if images[p].status == ImageReady { return Success; }
      var row := images[p];
      if row.base.None? || row.base.value !in bases { SetProvisionedTerminal(p); return TerminalError; }
      var base := bases[row.base.value];
      if base.status == Importing { return Retry; }
      if base.status != BaseReady || base.blob.None? || !PathOk(base.blob.value)
         || base.sha.None? || !Download.IsSha256(base.sha.value) || row.payload.None? || !w.isText
      {
        SetProvisionedTerminal(p);
        return TerminalError;
      }
      if !w.enoughDisk || base.blob.value !in blobs { return Retry; }
      var staged := blobs[base.blob.value];
      if Lower(hash(staged)) != Lower(base.sha.value) || w.build.ImagerError? { SetProvisionedTerminal(p); return TerminalError; }
      if !w.uploadOk { return Retry; }
      outputs := outputs[p := w.build.output];
      images := images[p := row.(status := ImageReady, sha := Some(Lower(hash(w.build.output))), payload := None)];
      r := Success;
    }
  }
}
