/** The ffmpeg progress loops of the transcoder and of the stream capture. */
module Progress {
  import opened Basics

  // `at`: the last time= marker of a chunk of stderr, in seconds, if it has one.
  // `deleted` and `commitOk` are what the soft-delete probe and the commit would say at that point.
  datatype Chunk = Chunk(at: Option<real>, deleted: bool, commitOk: bool)

  // The same chunk, with the percentage it stands for.
  datatype Event = Event(pct: Option<real>, deleted: bool, commitOk: bool)

  datatype End = Drained | AssetDeleted | RowGone

  /** A duration of 0 stands for an unknown one, and reports nothing. */
  function Reading(c: Chunk, duration: real): (e: Event)
    ensures e.pct.Some? ==> e.pct.value <= 99.0
  {
    if duration == 0.0 || c.at.None? then Event(None, c.deleted, c.commitOk)
    else
      var pct := c.at.value / duration * 100.0;
      Event(Some(if pct < 99.0 then pct else 99.0), c.deleted, c.commitOk)
  }

  /** A marker at p percent of the duration reads as p, up to 99. */
  lemma ReadingAt(p: real, duration: real, deleted: bool, commitOk: bool)
    requires p >= 0.0 && duration > 0.0
    ensures Reading(Chunk(Some(duration * p / 100.0), deleted, commitOk), duration)
            == Event(Some(if p <= 99.0 then p else 99.0), deleted, commitOk)
  {
    Percent(p, duration);
  }

  lemma Percent(p: real, duration: real)
    requires duration > 0.0
    ensures duration * p / 100.0 / duration * 100.0 == p
  {
    assert duration * p / duration == p;
  }

  /** One decimal, as it is stored. */
  function Rounded(pct: real): real {
    (pct * 10.0 + 0.5).Floor as real / 10.0
  }

  /** A whole number of tenths, no more than half a tenth away. */
  lemma RoundedNear(pct: real)
    ensures -0.05 <= Rounded(pct) - pct <= 0.05 && Rounded(pct) * 10.0 == (Rounded(pct) * 10.0).Floor as real
  {
  }

  predicate Moves(e: Event, last: real) {
    e.pct.Some? && e.pct.value > last && e.pct.value - last >= 1.0
  }

  function Last(commits: seq<real>): real {
    if commits == [] then 0.0 else commits[|commits| - 1]
  }

  function Readings(chunks: seq<Chunk>, duration: real): seq<Event> {
    seq(|chunks|, i requires 0 <= i < |chunks| => Reading(chunks[i], duration))
  }

  ghost predicate Committed(commits: seq<real>) {
    (forall i :: 0 <= i < |commits| ==> 1.0 <= commits[i] <= 99.0)
    && (forall i :: 0 <= i < |commits| - 1 ==> commits[i] + 1.0 <= commits[i + 1])
  }

  /** Of the first n events, the picked ones are in order, and the commits are their values. */
  ghost predicate Picks(events: seq<Event>, n: nat, picked: seq<nat>, commits: seq<real>)
    requires n <= |events|
  {
    |picked| == |commits|
    && (forall i :: 0 <= i < |picked| ==> picked[i] < n && events[picked[i]].pct == Some(commits[i]))
    && (forall i, k :: 0 <= i < k < |picked| ==> picked[i] < picked[k])
  }

  /** An event is picked if and only if it moves on from what was committed before it. */
  ghost predicate PickedIff(events: seq<Event>, n: nat, picked: seq<nat>, commits: seq<real>)
    requires n <= |events| && |picked| == |commits|
  {
    forall i, c :: 0 <= i <= |picked| && 0 <= c < n && Between(picked, i, c)
      ==> (events[c].pct.Some? && events[c].pct.value >= Last(commits[..i]) + 1.0 <==> i < |picked| && c == picked[i])
  }

  ghost predicate Followed(events: seq<Event>, n: nat, picked: seq<nat>, commits: seq<real>) {
    n <= |events| && Committed(commits) && Picks(events, n, picked, commits) && PickedIff(events, n, picked, commits)
  }

  /** After the first i picks, and not after the next one. */
  ghost predicate Between(picked: seq<nat>, i: nat, c: nat)
    requires i <= |picked|
  {
    (i > 0 ==> picked[i - 1] < c) && (i < |picked| ==> c <= picked[i])
  }

  /** The loop over stderr.  `stopOnLoss` tells the transcode loop, which stops when its row is
      gone, from the capture loop, which goes on. */
  method Follow(events: seq<Event>, stopOnLoss: bool)
    returns (commits: seq<real>, end: End, read: nat, ghost picked: seq<nat>)
    requires forall c :: 0 <= c < |events| && events[c].pct.Some? ==> events[c].pct.value <= 99.0
    ensures read <= |events| && (end.Drained? ==> read == |events|)
    // The values written increase by at least one, stay within 1..99, and so number at most 99.
    // They are exactly the reports that move on from the one written before.
    ensures |commits| <= 99
    ensures !end.Drained? ==> read > 0
    ensures Followed(events, if end.Drained? then read else read - 1, picked, commits)
    // It stops early only where a report that moves on meets a deletion or a lost row.
    ensures end.AssetDeleted? ==> Moves(events[read - 1], Last(commits)) && events[read - 1].deleted
    ensures end.RowGone? ==> stopOnLoss && Moves(events[read - 1], Last(commits))
                             && !events[read - 1].deleted && !events[read - 1].commitOk
  {
    var lastProgressUpdate := 0.0;
    commits, end, read, picked := [], Drained, 0, [];
    while read < |events|
      invariant read <= |events| && end.Drained?
      invariant Followed(events, read, picked, commits) && lastProgressUpdate == Last(commits)
    {
      var e := events[read];
      read := read + 1;
      if e.pct.Some? && e.pct.value > lastProgressUpdate && e.pct.value - lastProgressUpdate >= 1.0 {
        if e.deleted {
          end := AssetDeleted;
          break;
        }
        if !e.commitOk && stopOnLoss {
          end := RowGone;
          break;
        }
        PickExtends(events, read - 1, picked, commits);
        commits, picked := commits + [e.pct.value], picked + [read - 1];
        lastProgressUpdate := e.pct.value;
      } else {
        PassExtends(events, read - 1, picked, commits);
      }
    }
    AtMost99(commits);
  }

  lemma PickExtends(events: seq<Event>, n: nat, picked: seq<nat>, commits: seq<real>)
    requires n < |events| && Followed(events, n, picked, commits)
    requires Moves(events[n], Last(commits)) && events[n].pct.value <= 99.0
    ensures Followed(events, n + 1, picked + [n], commits + [events[n].pct.value])
  {
    var ps, cs := picked + [n], commits + [events[n].pct.value];
    forall i, c | 0 <= i <= |ps| && 0 <= c < n + 1 && Between(ps, i, c)
      ensures Moves(events[c], Last(cs[..i])) <==> i < |ps| && c == ps[i]
    {
      assert i <= |picked|;
      assert cs[..i] == commits[..i] && commits[..|commits|] == commits;
      assert c < n ==> Between(picked, i, c);
      assert c == n ==> i == |picked|;
    }
  }

  lemma PassExtends(events: seq<Event>, n: nat, picked: seq<nat>, commits: seq<real>)
    requires n < |events| && Followed(events, n, picked, commits) && !Moves(events[n], Last(commits))
    ensures Followed(events, n + 1, picked, commits)
  {
    forall i, c | 0 <= i <= |picked| && 0 <= c < n + 1 && Between(picked, i, c)
      ensures Moves(events[c], Last(commits[..i])) <==> i < |picked| && c == picked[i]
    {
      assert commits[..|commits|] == commits;
      assert c == n ==> i == |picked|;
    }
  }

  /** From raw chunks: what reaches the row is the rounded reading of exactly those chunks that move on,
      strictly increasing as stored, and never above 99. */
  method FollowChunks(chunks: seq<Chunk>, duration: real, stopOnLoss: bool)
    returns (stored: seq<real>, end: End, read: nat, ghost picked: seq<nat>, ghost commits: seq<real>)
    ensures read <= |chunks| && (end.Drained? ==> read == |chunks|)
    ensures |stored| == |commits| <= 99 && forall i :: 0 <= i < |stored| ==> stored[i] == Rounded(commits[i])
    ensures forall i, k :: 0 <= i < k < |stored| ==> stored[i] < stored[k]
    ensures forall i :: 0 <= i < |stored| ==> 1.0 <= stored[i] <= 99.0
    ensures !end.Drained? ==> read > 0 && Moves(Reading(chunks[read - 1], duration), Last(commits))
    ensures Followed(Readings(chunks, duration), if end.Drained? then read else read - 1, picked, commits)
  {
    var values;
    values, end, read, picked := Follow(Readings(chunks, duration), stopOnLoss);
    commits := values;
    stored := seq(|values|, i requires 0 <= i < |values| => Rounded(values[i]));
    RoundedStored(values);
  }

  lemma {:induction false} Spread(commits: seq<real>, i: nat, k: nat)
    requires Committed(commits) && i < k < |commits|
    ensures commits[i] + 1.0 <= commits[k]
    decreases k
  {
    if i < k - 1 { Spread(commits, i, k - 1); }
  }

  lemma {:induction false} AtLeast(commits: seq<real>, i: nat)
    requires Committed(commits) && i < |commits|
    ensures commits[i] >= (i + 1) as real
  {
    if i > 0 { AtLeast(commits, i - 1); }
  }

  lemma AtMost99(commits: seq<real>)
    requires Committed(commits)
    ensures |commits| <= 99
  {
    if commits != [] { AtLeast(commits, |commits| - 1); }
  }

  lemma RoundedGrows(a: real, b: real)
    requires a + 1.0 <= b <= 99.0
    ensures Rounded(a) < Rounded(b) <= 99.0
  {
    assert (b * 10.0 + 0.5).Floor <= 990;
    assert (a * 10.0 + 0.5).Floor < (b * 10.0 + 0.5).Floor;
  }

  lemma RoundedStored(commits: seq<real>)
    requires Committed(commits)
    ensures forall i, k :: 0 <= i < k < |commits| ==> Rounded(commits[i]) < Rounded(commits[k])
    ensures forall i :: 0 <= i < |commits| ==> 1.0 <= Rounded(commits[i]) <= 99.0
  {
    forall i, k | 0 <= i < k < |commits|
      ensures Rounded(commits[i]) < Rounded(commits[k])
    {
      Spread(commits, i, k);
      RoundedGrows(commits[i], commits[k]);
    }
    forall i | 0 <= i < |commits|
      ensures 1.0 <= Rounded(commits[i]) <= 99.0
    {
      RoundedGrows(commits[i] - 1.0, commits[i]);
      assert (commits[i] * 10.0 + 0.5).Floor >= 10;
    }
  }
}
