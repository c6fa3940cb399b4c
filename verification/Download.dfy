/** The verified download of the imager: a manual redirect walk, then a stream that is hashed
    while it is written. */
module Download {
  import opened Basics
  import opened Text

  type Byte = bv8
  type Bytes = seq<Byte>
  type Hash = Bytes -> string

  const MAX_REDIRECTS := 5
  const TICK_BYTES := 67_108_864

  datatype Url = Url(scheme: string, host: string, path: string)

  // The n-th request gets the n-th answer.  A stream may break off after some chunks.
  datatype Answer =
    | Redirect(location: Option<Url>)
    | ErrorStatus
    | NoAnswer
    | Stream(chunks: seq<Bytes>, broken: bool)

  datatype Result = Ok(sha: string, size: nat) | Terminal | Transient

  /** 64 hex digits; `$` also lets a final newline through. */
  predicate IsSha256(s: string) {
    (|s| == 64 || (|s| == 65 && s[64] == '\n')) && forall i :: 0 <= i < 64 ==> IsHexDigit(s[i])
  }

  predicate ValidUrl(url: Url, allowlist: set<string>) {
    url.scheme == "https" && Lower(url.host) in allowlist
  }

  function Concat(chunks: seq<Bytes>): Bytes {
    if chunks == [] then [] else Concat(chunks[..|chunks| - 1]) + chunks[|chunks| - 1]
  }

  // ---------------------------------------------------------- specification

  /** The URL of request `n`, if every answer before it is a redirect to a valid URL. */
  function Hop(url: Url, answers: nat -> Answer, allowlist: set<string>, n: nat): (r: Option<Url>)
    ensures r.Some? ==> ValidUrl(r.value, allowlist)
  {
    if n == 0 then if ValidUrl(url, allowlist) then Some(url) else None
    else if Hop(url, answers, allowlist, n - 1).Some? && Followed(answers(n - 1), allowlist) then answers(n - 1).location
    else None
  }

  predicate Followed(answer: Answer, allowlist: set<string>) {
    answer.Redirect? && answer.location.Some? && ValidUrl(answer.location.value, allowlist)
  }

  /** Every request before a reached one was answered by a redirect that was followed. */
  lemma {:induction false} HopsBefore(url: Url, answers: nat -> Answer, allowlist: set<string>, m: nat, n: nat)
    requires m < n && Hop(url, answers, allowlist, n).Some?
    ensures Hop(url, answers, allowlist, m).Some? && Followed(answers(m), allowlist)
  {
    if m < n - 1 { HopsBefore(url, answers, allowlist, m, n - 1); }
  }

  /** The walk has one end: an answer that is not followed. */
  lemma OneEnd(url: Url, answers: nat -> Answer, allowlist: set<string>, m: nat, n: nat)
    requires Hop(url, answers, allowlist, m).Some? && !Followed(answers(m), allowlist)
    requires Hop(url, answers, allowlist, n).Some? && !Followed(answers(n), allowlist)
    ensures m == n
  {
    if m < n { HopsBefore(url, answers, allowlist, m, n); }
    if n < m { HopsBefore(url, answers, allowlist, n, m); }
  }

  /** A stream that meets every expectation. */
  ghost predicate Good(answer: Answer, expected: string, size: Option<nat>, hash: Hash) {
    answer.Stream? && !answer.broken
    && Lower(hash(Concat(answer.chunks))) == Lower(expected)
    && (size.Some? ==> |Concat(answer.chunks)| == size.value)
  }

  // ------------------------------------------------------------ the failures

  /** An answer that ends the download for good: a redirect to a bad URL or past the limit, more bytes than
      expected, or a whole stream of the wrong hash or size. */
  ghost predicate FatalAnswer(answer: Answer, hops: nat, expected: string, size: Option<nat>, allowlist: set<string>, hash: Hash) {
    match answer
    case Redirect(location) => hops >= MAX_REDIRECTS || (location.Some? && !ValidUrl(location.value, allowlist))
    case Stream(chunks, broken) =>
      (size.Some? && |Concat(chunks)| > size.value)
      || (!broken && (Lower(hash(Concat(chunks))) != Lower(expected) || (size.Some? && |Concat(chunks)| != size.value)))
    case ErrorStatus => false
    case NoAnswer => false
  }

  /** The failures that no further attempt can mend: a malformed hash, a bad URL, or a fatal answer to one of
      the requests.  All others are the network's: an error status, no answer, a redirect to nowhere, a
      connection that breaks. */
  ghost predicate Fatal(url: Url, expected: string, size: Option<nat>, allowlist: set<string>, answers: nat -> Answer, hash: Hash) {
    !IsSha256(expected) || !ValidUrl(url, allowlist)
    || exists n: nat :: n <= MAX_REDIRECTS && Hop(url, answers, allowlist, n).Some?
                        && FatalAnswer(answers(n), n, expected, size, allowlist, hash)
  }

  /** The walk ends at `last`, so that answer decides. */
  lemma FatalIff(url: Url, expected: string, size: Option<nat>, allowlist: set<string>, answers: nat -> Answer, hash: Hash, last: nat)
    requires IsSha256(expected) && last <= MAX_REDIRECTS && Hop(url, answers, allowlist, last).Some?
    requires !Followed(answers(last), allowlist) || last == MAX_REDIRECTS
    ensures Fatal(url, expected, size, allowlist, answers, hash) <==> FatalAnswer(answers(last), last, expected, size, allowlist, hash)
  {
    if last > 0 { HopsBefore(url, answers, allowlist, 0, last); }
    assert Hop(url, answers, allowlist, 0).Some?;
    if n: nat :| n <= MAX_REDIRECTS && Hop(url, answers, allowlist, n).Some? && FatalAnswer(answers(n), n, expected, size, allowlist, hash) {
      if n < last { HopsBefore(url, answers, allowlist, n, last); }
      if last < n { HopsBefore(url, answers, allowlist, last, n); }
    }
  }

  predicate Fits(n: nat, size: Option<nat>) { size.Some? ==> n <= size.value }

  // -------------------------------------------------------------- the loops

  /** Ticks come at least `TICK_BYTES` apart, so there are at most written / 64 MiB of them. */
  ghost predicate Ticked(ticks: seq<nat>, written: nat) {
    |ticks| * 64 * 1024 * 1024 <= written && (forall i :: 0 <= i < |ticks| ==> ticks[i] <= written)
    && forall i :: 0 < i < |ticks| ==> ticks[i - 1] + TICK_BYTES <= ticks[i]
  }

  class Downloader {
    // the file, the requests made and the progress callbacks that were called
    var disk: Bytes
    var requests: seq<Url>
    var ticks: seq<nat>

    constructor ()
      ensures disk == [] && requests == [] && ticks == []
    {
      disk, requests, ticks := [], [], [];
    }

    /** The chunk loop; `Transient` when the connection breaks. */
    method WriteStream(chunks: seq<Bytes>, broken: bool, size: Option<nat>, progress: bool) returns (r: Option<Result>)
      requires disk == [] && ticks == []
      modifies this`disk, this`ticks
      ensures Fits(|disk|, size) && Ticked(ticks, |disk|) && (!progress ==> ticks == [])
      ensures disk <= Concat(chunks)
      ensures r == if !Fits(|Concat(chunks)|, size) then Some(Terminal) else if broken then Some(Transient) else None
      ensures Fits(|Concat(chunks)|, size) ==> disk == Concat(chunks)
    {
      var written := 0;
      var nextTick := TICK_BYTES;
      for i := 0 to |chunks|
        invariant disk == Concat(chunks[..i]) && written == |disk| && Fits(written, size)
        invariant Ticked(ticks, written) && (!progress ==> ticks == [])
        invariant nextTick == (if ticks == [] then 0 else ticks[|ticks| - 1]) + TICK_BYTES
        invariant |ticks| * TICK_BYTES <= nextTick - TICK_BYTES
      {
        var chunk := chunks[i];
        assert chunks[..i + 1][..i] == chunks[..i];
        PrefixOfConcat(chunks, i);
        PrefixOfConcat(chunks, i + 1);
        if chunk == [] { continue; }
        written := written + |chunk|;
        if size.Some? && written > size.value { return Some(Terminal); }
        disk := disk + chunk;
        if progress && written >= nextTick {
          ticks := ticks + [written];
          nextTick := written + TICK_BYTES;
        }
      }
      assert chunks[..|chunks|] == chunks;
      r := if broken then Some(Transient) else None;
    }

    /** The redirect walk; without a failure the last answer is one to stream from. */
    method FollowRedirects(url: Url, allowlist: set<string>, answers: nat -> Answer) returns (failure: Option<Result>)
      requires requests == []
      modifies this`requests
      ensures |requests| <= MAX_REDIRECTS + 1
      ensures Visited(url, answers, allowlist, requests)
      ensures failure.None? ==> requests != [] && answers(|requests| - 1).Stream?
      ensures failure.Some? ==> !failure.value.Ok?
      ensures failure.Some? ==> NothingToStream(url, answers, allowlist)
      ensures failure.Some? ==> forall expected, size, hash :: IsSha256(expected) ==>
                (failure.value.Terminal? <==> Fatal(url, expected, size, allowlist, answers, hash))
    {
      if !ValidUrl(url, allowlist) {
        BadStart(url, answers, allowlist);
        return Some(Terminal);
      }
      var target := url;
      var hops := 0;
      while true
        invariant 0 <= hops == |requests| <= MAX_REDIRECTS
        invariant Hop(url, answers, allowlist, hops) == Some(target)
        invariant Visited(url, answers, allowlist, requests)
        decreases MAX_REDIRECTS - hops
      {
        requests := requests + [target];
        var answer := answers(hops);
        if !answer.Stream? && (!Followed(answer, allowlist) || hops == MAX_REDIRECTS) { WalkFatalIff(url, answers, allowlist, hops); }
        if answer.Redirect? && hops < MAX_REDIRECTS {
          if answer.location.None? { NoStream(url, answers, allowlist, hops); return Some(Transient); }
          if !ValidUrl(answer.location.value, allowlist) { NoStream(url, answers, allowlist, hops); return Some(Terminal); }
          target := answer.location.value;
          hops := hops + 1;
          continue;
        }
        if answer.Redirect? { NoStream(url, answers, allowlist, hops); return Some(Terminal); }
        if !answer.Stream? { NoStream(url, answers, allowlist, hops); return Some(Transient); }
        return None;
      }
    }

    /** `_download_with_sha`: it succeeds exactly when the walk ends, within the limit, in a stream
        that meets every expectation; and then the file holds that stream. */
    method DownloadWithSha(url: Url, expected: string, size: Option<nat>, allowlist: set<string>,
                           progress: bool, answers: nat -> Answer, hash: Hash) returns (r: Result)
      requires disk == [] && ticks == [] && requests == []
      modifies this
      ensures |requests| <= 6 && forall u :: u in requests ==> u.scheme == "https" && Lower(u.host) in allowlist
      ensures Fits(|disk|, size) && Ticked(ticks, |disk|)
      ensures r.Ok? ==> (|expected| == 64 || (|expected| == 65 && expected[64] == '\n')) && forall i :: 0 <= i < 64 ==> IsHexDigit(expected[i])
      ensures r.Ok? ==> r == Ok(hash(disk), |disk|) && Lower(r.sha) == Lower(expected) && (size.Some? ==> r.size == size.value)
      ensures r.Ok? <==> Downloadable(url, expected, size, allowlist, answers, hash)
      ensures r.Terminal? <==> Fatal(url, expected, size, allowlist, answers, hash)
    {
      if !IsSha256(expected) { return Terminal; }
      var failure := FollowRedirects(url, allowlist, answers);
      if failure.Some? { return failure.value; }
      ghost var last := |requests| - 1;
      var answer := answers(|requests| - 1);
      TheStream(url, expected, size, allowlist, answers, hash, last);
      FatalIff(url, expected, size, allowlist, answers, hash, last);
      failure := WriteStream(answer.chunks, answer.broken, size, progress);
      if failure.Some? { return failure.value; }
      var sha := hash(disk);
      if Lower(sha) != Lower(expected) { return Terminal; }
      if size.Some? && |disk| != size.value { return Terminal; }
      r := Ok(sha, |disk|);
    }
  }

  /** At an answer without a stream, whether the failure is fatal does not depend on what was expected. */
  lemma WalkFatalIff(url: Url, answers: nat -> Answer, allowlist: set<string>, last: nat)
    requires last <= MAX_REDIRECTS && Hop(url, answers, allowlist, last).Some? && !answers(last).Stream?
    requires !Followed(answers(last), allowlist) || last == MAX_REDIRECTS
    ensures forall expected, size, hash :: IsSha256(expected) ==>
              (Fatal(url, expected, size, allowlist, answers, hash)
               <==> answers(last).Redirect?
                    && (last == MAX_REDIRECTS || (answers(last).location.Some? && !ValidUrl(answers(last).location.value, allowlist))))
  {
    forall expected, size, hash | IsSha256(expected)
      ensures Fatal(url, expected, size, allowlist, answers, hash)
              <==> answers(last).Redirect?
                   && (last == MAX_REDIRECTS || (answers(last).location.Some? && !ValidUrl(answers(last).location.value, allowlist)))
    {
      FatalIff(url, expected, size, allowlist, answers, hash, last);
    }
  }

  ghost predicate Downloadable(url: Url, expected: string, size: Option<nat>, allowlist: set<string>, answers: nat -> Answer, hash: Hash) {
    IsSha256(expected)
    && exists n: nat :: n <= MAX_REDIRECTS && Hop(url, answers, allowlist, n).Some? && Good(answers(n), expected, size, hash)
  }

  ghost predicate NothingToStream(url: Url, answers: nat -> Answer, allowlist: set<string>) {
    forall n: nat :: n <= MAX_REDIRECTS && Hop(url, answers, allowlist, n).Some? ==> !answers(n).Stream?
  }

  ghost predicate Visited(url: Url, answers: nat -> Answer, allowlist: set<string>, requests: seq<Url>) {
    forall i :: 0 <= i < |requests| ==> Hop(url, answers, allowlist, i) == Some(requests[i])
  }

  lemma BadStart(url: Url, answers: nat -> Answer, allowlist: set<string>)
    requires !ValidUrl(url, allowlist)
    ensures NothingToStream(url, answers, allowlist)
  {
    forall n: nat | n > 0 && Hop(url, answers, allowlist, n).Some? ensures false { HopsBefore(url, answers, allowlist, 0, n); }
  }

  /** Past the limit, at a bad redirect or at an error there is no stream within the limit. */
  lemma NoStream(url: Url, answers: nat -> Answer, allowlist: set<string>, hops: nat)
    requires Hop(url, answers, allowlist, hops).Some? && !answers(hops).Stream?
    requires !Followed(answers(hops), allowlist) || hops == MAX_REDIRECTS
    ensures NothingToStream(url, answers, allowlist)
  {
    forall n: nat | n <= MAX_REDIRECTS && Hop(url, answers, allowlist, n).Some?
      ensures !answers(n).Stream?
    {
      if n < hops { HopsBefore(url, answers, allowlist, n, hops); }
      if hops < n { HopsBefore(url, answers, allowlist, hops, n); }
    }
  }

  lemma TheStream(url: Url, expected: string, size: Option<nat>, allowlist: set<string>, answers: nat -> Answer, hash: Hash, last: nat)
    requires IsSha256(expected) && last <= MAX_REDIRECTS && Hop(url, answers, allowlist, last).Some? && answers(last).Stream?
    ensures Downloadable(url, expected, size, allowlist, answers, hash) <==> Good(answers(last), expected, size, hash)
  {
    if n: nat :| n <= MAX_REDIRECTS && Hop(url, answers, allowlist, n).Some? && Good(answers(n), expected, size, hash) {
      OneEnd(url, answers, allowlist, n, last);
    }
  }

  lemma {:induction false} PrefixOfConcat(chunks: seq<Bytes>, n: nat)
    requires n <= |chunks|
    ensures Concat(chunks[..n]) <= Concat(chunks)
  {
    if n < |chunks| {
      var init := chunks[..|chunks| - 1];
      PrefixOfConcat(init, n);
      assert init[..n] == chunks[..n];
    } else {
      assert chunks[..n] == chunks;
    }
  }
}
