/** The sliding-window limiter of the password-reset routes: one deque of accepted hits per
    key and address. */
module RateLimit {
  type Key = string
  type Ip = string
  type Id = (Key, Ip)

  /** Entries leave from the left, and only while the leftmost is too old. */
  function Pop(bucket: seq<real>, cutoff: real): seq<real> {
    if bucket != [] && bucket[0] < cutoff then Pop(bucket[1..], cutoff) else bucket
  }

  function Hit(bucket: seq<real>, now: real, limit: int, window: real): (seq<real>, bool) {
    var kept := Pop(bucket, now - window);
    if |kept| >= limit then (kept, false) else (kept + [now], true)
  }

  datatype Trace = Trace(bucket: seq<real>, accepted: seq<real>)

  /** The bucket, and everything that was ever accepted, after calls at `times`. */
  function After(times: seq<real>, limit: int, window: real): Trace {
    if times == [] then Trace([], [])
    else
      var before := After(times[..|times| - 1], limit, window);
      var now := times[|times| - 1];
      var (bucket, ok) := Hit(before.bucket, now, limit, window);
      Trace(bucket, if ok then before.accepted + [now] else before.accepted)
  }

  ghost predicate Monotone(times: seq<real>) {
    forall i, j :: 0 <= i < j < |times| ==> times[i] <= times[j]
  }

  /** The accepted hits of a closed interval, by index. */
  function Within(accepted: seq<real>, lo: real, hi: real): set<int> {
    set i | 0 <= i < |accepted| && lo <= accepted[i] <= hi
  }

  function Bound(limit: int): nat { if limit > 0 then limit else 0 }

  /** Two accepted hits that are `limit` apart are more than a window apart. */
  ghost predicate Spaced(accepted: seq<real>, limit: int, window: real) {
    forall i :: Bound(limit) <= i < |accepted| ==> accepted[i - Bound(limit)] + window < accepted[i]
  }

  lemma {:induction false} PopSplits(bucket: seq<real>, cutoff: real) returns (k: nat)
    ensures k <= |bucket| && Pop(bucket, cutoff) == bucket[k..]
    ensures forall i :: 0 <= i < k ==> bucket[i] < cutoff
    ensures k < |bucket| ==> bucket[k] >= cutoff
  {
    if bucket != [] && bucket[0] < cutoff {
      var k' := PopSplits(bucket[1..], cutoff);
      k := k' + 1;
    } else {
      k := 0;
    }
  }

  /** The bucket is the tail of what was accepted, and what is no longer in it is too old. */
  ghost predicate Tail(t: Trace, now: real, window: real) {
    |t.bucket| <= |t.accepted| && t.bucket == t.accepted[|t.accepted| - |t.bucket|..]
    && forall i :: 0 <= i < |t.accepted| - |t.bucket| ==> t.accepted[i] < now - window
  }

  ghost predicate Sound(t: Trace, now: real, limit: int, window: real) {
    Monotone(t.accepted) && Spaced(t.accepted, limit, window)
    && (forall i :: 0 <= i < |t.accepted| ==> t.accepted[i] <= now)
    && (limit <= 0 ==> t.accepted == [])
    && Tail(t, now, window)
  }

  /** Popping leaves exactly the accepted hits that are not too old. */
  lemma Popped(t: Trace, before: real, now: real, window: real) returns (k: nat)
    requires Tail(t, before, window) && before <= now
    ensures k <= |t.accepted| && Pop(t.bucket, now - window) == t.accepted[k..]
    ensures forall i :: 0 <= i < k ==> t.accepted[i] < now - window
    ensures k < |t.accepted| ==> t.accepted[k] >= now - window
  {
    var gone := |t.accepted| - |t.bucket|;
    var popped := PopSplits(t.bucket, now - window);
    k := gone + popped;
    forall i | gone <= i < k ensures t.accepted[i] < now - window { assert t.accepted[i] == t.bucket[i - gone]; }
  }

  /** One more hit is far enough from the others if what is still too young is few. */
  lemma AcceptedKeepsSpaced(accepted: seq<real>, k: nat, now: real, limit: int, window: real)
    requires Spaced(accepted, limit, window) && k <= |accepted| && |accepted| - k < limit
    requires forall i :: 0 <= i < k ==> accepted[i] < now - window
    ensures Spaced(accepted + [now], limit, window)
  {
    var all := accepted + [now];
    forall i | Bound(limit) <= i < |all| ensures all[i - Bound(limit)] + window < all[i] {
      if i == |accepted| {
        assert all[i - limit] == accepted[i - limit];
      } else {
        assert all[i] == accepted[i] && all[i - limit] == accepted[i - limit];
      }
    }
  }

  lemma HitKeepsSound(t: Trace, before: real, now: real, limit: int, window: real)
    requires Sound(t, before, limit, window) && before <= now
    ensures var (bucket, ok) := Hit(t.bucket, now, limit, window);
      Sound(Trace(bucket, if ok then t.accepted + [now] else t.accepted), now, limit, window)
  {
    var k := Popped(t, before, now, window);
    if |t.accepted| - k < limit {
      AcceptedKeepsSpaced(t.accepted, k, now, limit, window);
      AcceptedKeepsOrder(t, k, before, now, window);
    } else {
      assert Tail(Trace(t.accepted[k..], t.accepted), now, window);
    }
  }

  lemma AcceptedKeepsOrder(t: Trace, k: nat, before: real, now: real, window: real)
    requires Monotone(t.accepted) && before <= now && k <= |t.accepted|
    requires forall i :: 0 <= i < |t.accepted| ==> t.accepted[i] <= before
    requires forall i :: 0 <= i < k ==> t.accepted[i] < now - window
    ensures Monotone(t.accepted + [now]) && Tail(Trace(t.accepted[k..] + [now], t.accepted + [now]), now, window)
    ensures forall i :: 0 <= i < |t.accepted + [now]| ==> (t.accepted + [now])[i] <= now
  {
    assert t.accepted[k..] + [now] == (t.accepted + [now])[k..];
  }

  lemma {:induction false} AlwaysSound(times: seq<real>, limit: int, window: real, now: real)
    requires Monotone(times) && (times == [] || times[|times| - 1] == now)
    ensures Sound(After(times, limit, window), now, limit, window)
  {
    if times != [] {
      var n := |times| - 1;
      if n == 0 {
        AlwaysSound(times[..n], limit, window, now);
        HitKeepsSound(After(times[..n], limit, window), now, now, limit, window);
      } else {
        AlwaysSound(times[..n], limit, window, times[n - 1]);
        HitKeepsSound(After(times[..n], limit, window), times[n - 1], now, limit, window);
      }
    }
  }

  lemma {:induction false} IntervalSize(a: int, b: int, s: set<int>)
    requires a <= b && forall i :: i in s ==> a <= i < b
    ensures |s| <= b - a
    ensures (forall i :: a <= i < b ==> i in s) ==> |s| == b - a
    decreases b - a
  {
    if a < b {
      IntervalSize(a, b - 1, s - {b - 1});
      if b - 1 in s { assert s == s - {b - 1} + {b - 1}; } else { assert s == s - {b - 1}; }
    } else {
      assert s == {};
    }
  }

  lemma FarApart(accepted: seq<real>, limit: int, window: real, i: int, j: int)
    requires Monotone(accepted) && Spaced(accepted, limit, window) && 0 <= i && j < |accepted|
    ensures i + Bound(limit) <= j ==> accepted[i] + window < accepted[j]
  {
    if i + Bound(limit) <= j {
      var k := j - Bound(limit);
      assert i < k ==> accepted[i] <= accepted[k];
    }
  }

  /** Theorem: under a monotone clock, every closed window of that length holds at most `limit`
      accepted hits, wherever it starts. */
  lemma WindowHoldsAtMostLimit(times: seq<real>, limit: int, window: real, start: real)
    requires Monotone(times)
    ensures |Within(After(times, limit, window).accepted, start, start + window)| <= Bound(limit)
  {
    AlwaysSound(times, limit, window, if times == [] then 0.0 else times[|times| - 1]);
    var accepted := After(times, limit, window).accepted;
    var hits := Within(accepted, start, start + window);
    if i :| i in hits {
      var lo := Least(hits, i);
      forall j | j in hits ensures lo <= j < lo + Bound(limit) {
        FarApart(accepted, limit, window, lo, j);
      }
      IntervalSize(lo, lo + Bound(limit), hits);
    }
  }

  lemma {:induction false} Least(s: set<int>, i: int) returns (m: int)
    requires i in s
    ensures m in s && forall j :: j in s ==> m <= j
    decreases s
  {
    if j :| j in s && j < i {
      m := Least(s - {i}, j);
      assert forall l :: l in s && l != i ==> l in s - {i};
    } else {
      m := i;
    }
  }

  /** Theorem: a call is refused if and only if at least `limit` accepted hits lie in the window
      that ends now; there are then exactly `limit` of them. */
  lemma RefusedIff(times: seq<real>, now: real, limit: int, window: real)
    requires Monotone(times + [now])
    ensures var t := After(times, limit, window);
      (!Hit(t.bucket, now, limit, window).1 <==> |Within(t.accepted, now - window, now)| >= limit)
      && (limit >= 0 && !Hit(t.bucket, now, limit, window).1 ==> |Within(t.accepted, now - window, now)| == limit)
  {
    var t := After(times, limit, window);
    var last := if times == [] then now else times[|times| - 1];
    MonotoneParts(times, now);
    AlwaysSound(times, limit, window, last);
    var k := Popped(t, last, now, window);
    CountsTail(t.accepted, k, now - window, now);
    WindowHoldsAtMostLimit(times, limit, window, now - window);
    assert now - window + window == now;
  }

  lemma MonotoneParts(times: seq<real>, now: real)
    requires Monotone(times + [now])
    ensures Monotone(times) && (times != [] ==> times[|times| - 1] <= now)
  {
    var all := times + [now];
    forall i, j | 0 <= i < j < |times| ensures times[i] <= times[j] { assert all[i] <= all[j]; }
    if times != [] { assert all[|times| - 1] <= all[|times|]; }
  }

  lemma CountsTail(accepted: seq<real>, k: nat, lo: real, hi: real)
    requires k <= |accepted| && Monotone(accepted)
    requires forall i :: 0 <= i < |accepted| ==> accepted[i] <= hi
    requires forall i :: 0 <= i < k ==> accepted[i] < lo
    requires k < |accepted| ==> accepted[k] >= lo
    ensures |Within(accepted, lo, hi)| == |accepted| - k
  {
    forall i | 0 <= i < |accepted| ensures i in Within(accepted, lo, hi) <==> k <= i {
      assert k < i ==> accepted[k] <= accepted[i];
    }
    IntervalSize(k, |accepted|, Within(accepted, lo, hi));
  }

  // ------------------------------------------------------------- many keys

  datatype Call = Call(id: Id, now: real)

  function BucketOf(buckets: map<Id, seq<real>>, id: Id): seq<real> {
    if id in buckets then buckets[id] else []
  }

  function Buckets(calls: seq<Call>, limit: int, window: real): map<Id, seq<real>> {
    if calls == [] then map[]
    else
      var before := Buckets(calls[..|calls| - 1], limit, window);
      var c := calls[|calls| - 1];
      before[c.id := Hit(BucketOf(before, c.id), c.now, limit, window).0]
  }

  function TimesOf(calls: seq<Call>, id: Id): seq<real> {
    if calls == [] then []
    else TimesOf(calls[..|calls| - 1], id) + if calls[|calls| - 1].id == id then [calls[|calls| - 1].now] else []
  }

  lemma AfterOneMore(times: seq<real>, now: real, limit: int, window: real)
    ensures After(times + [now], limit, window).bucket == Hit(After(times, limit, window).bucket, now, limit, window).0
  {
    var all := times + [now];
    assert all[..|all| - 1] == times && all[|all| - 1] == now;
  }

  /** Keys and addresses do not disturb each other: a bucket is what its own calls make it. */
  lemma {:induction false} KeysIndependent(calls: seq<Call>, id: Id, limit: int, window: real)
    ensures BucketOf(Buckets(calls, limit, window), id) == After(TimesOf(calls, id), limit, window).bucket
  {
    if calls != [] {
      KeysIndependent(calls[..|calls| - 1], id, limit, window);
      var c := calls[|calls| - 1];
      if c.id == id {
        var times := TimesOf(calls[..|calls| - 1], id);
        AfterOneMore(times, c.now, limit, window);
      } else {
        assert TimesOf(calls, id) == TimesOf(calls[..|calls| - 1], id);
      }
    }
  }

  class ResetLimiter {
    var buckets: map<Id, seq<real>>

    constructor ()
      ensures buckets == map[]
    {
      buckets := map[];
    }

    /** `_reset_ratelimited`: true when the hit is under the limit and has been recorded. */
    method ResetRatelimited(key: Key, ip: Ip, now: real, limit: int, window: real) returns (allowed: bool)
      modifies this
      ensures var hit := Hit(BucketOf(old(buckets), (key, ip)), now, limit, window);
        buckets == old(buckets)[(key, ip) := hit.0] && allowed == hit.1
    {
      var id := (key, ip);
      if id !in buckets { buckets := buckets[id := []]; }
      var cutoff := now - window;
      while buckets[id] != [] && buckets[id][0] < cutoff
        invariant id in buckets && Pop(buckets[id], cutoff) == Pop(BucketOf(old(buckets), id), cutoff)
        invariant buckets == old(buckets)[id := buckets[id]]
        decreases |buckets[id]|
      {
        buckets := buckets[id := buckets[id][1..]];
      }
      if |buckets[id]| >= limit { return false; }
      buckets := buckets[id := buckets[id] + [now]];
      allowed := true;
    }
  }
}
