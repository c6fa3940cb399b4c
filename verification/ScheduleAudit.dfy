/** The read-only audit for schedule pairs that can collide on a shared device. */
module ScheduleAudit {
  import opened Basics

  type GroupId = string
  type TagId = string
  type DeviceId = string

  const DAY := 1440

  // Times are minutes of the day; dates are day numbers.
  datatype Schedule = Schedule(
    enabled: bool, group: Option<GroupId>, tag: Option<TagId>, priority: int,
    start: int, end: int, startDate: Option<int>, endDate: Option<int>, days: set<int>)
  {
    predicate Valid() { 0 <= start < DAY && 0 <= end < DAY }
  }

  // `tags` is None when the call for the device's tags did not come back with 200.
  datatype Device = Device(id: DeviceId, group: Option<GroupId>, tags: Option<set<TagId>>)

  // ------------------------------------------------------------ three tests

  function Spans(start: int, end: int): seq<(int, int)> {
    if end <= start then [(start, DAY), (0, end)] else [(start, end)]
  }

  predicate WindowsOverlap(aStart: int, aEnd: int, bStart: int, bEnd: int) {
    exists p, q :: p in Spans(aStart, aEnd) && q in Spans(bStart, bEnd) && p.0 < q.1 && q.0 < p.1
  }

  predicate DaysOverlap(a: set<int>, b: set<int>) {
    a == {} || b == {} || a * b != {}
  }

  predicate DatesOverlap(a: Schedule, b: Schedule) {
    !(a.endDate.Some? && b.startDate.Some? && a.endDate.value < b.startDate.value)
    && !(b.endDate.Some? && a.startDate.Some? && b.endDate.value < a.startDate.value)
  }

  // ------------------------------------------- when a schedule really plays

  /** Same-day reading: an overnight window covers the end and the beginning of each of its days. */
  predicate InWindow(start: int, end: int, minute: int) {
    0 <= minute < DAY && if end <= start then start <= minute || minute < end else start <= minute < end
  }

  predicate InDates(s: Schedule, date: int) {
    (s.startDate.Some? ==> s.startDate.value <= date) && (s.endDate.Some? ==> date <= s.endDate.value)
  }

  /** Day numbers to ISO weekdays 1..7. */
  function Weekday(date: int): int { date % 7 + 1 }

  predicate ActiveAt(s: Schedule, date: int, minute: int) {
    s.enabled && InDates(s, date) && (s.days == {} || Weekday(date) in s.days) && InWindow(s.start, s.end, minute)
  }

  /** The window test holds exactly when the two sets of minutes meet. */
  lemma WindowsOverlapIff(a: Schedule, b: Schedule)
    requires a.Valid() && b.Valid()
    ensures WindowsOverlap(a.start, a.end, b.start, b.end)
            <==> exists m :: InWindow(a.start, a.end, m) && InWindow(b.start, b.end, m)
  {
    if p, q :| p in Spans(a.start, a.end) && q in Spans(b.start, b.end) && p.0 < q.1 && q.0 < p.1 {
      var m := if p.0 <= q.0 then q.0 else p.0;
      assert InWindow(a.start, a.end, m) && InWindow(b.start, b.end, m);
    }
    if m :| InWindow(a.start, a.end, m) && InWindow(b.start, b.end, m) {
      var p := SpanOf(a.start, a.end, m);
      var q := SpanOf(b.start, b.end, m);
      assert p.0 < q.1 && q.0 < p.1;
    }
  }

  lemma SpanOf(start: int, end: int, m: int) returns (p: (int, int))
    requires InWindow(start, end, m)
    ensures p in Spans(start, end) && p.0 <= m < p.1
  {
    if end <= start && m < end {
      assert Spans(start, end)[1] == (0, end);
      p := (0, end);
    } else {
      p := Spans(start, end)[0];
    }
  }

  /** The date test holds for every pair with a common date, and for no other pair of nonempty ranges. */
  lemma DatesOverlapIff(a: Schedule, b: Schedule)
    ensures (exists d :: InDates(a, d) && InDates(b, d))
            <==> DatesOverlap(a, b) && (exists d :: InDates(a, d)) && (exists d :: InDates(b, d))
  {
    if DatesOverlap(a, b) && (exists d :: InDates(a, d)) && (exists d :: InDates(b, d)) {
      var da :| InDates(a, da);
      var db :| InDates(b, db);
      var d := if da <= db then db else da;
      if !(InDates(a, d) && InDates(b, d)) {
        var e := if da <= db then (if a.endDate.Some? && a.endDate.value < db then a.endDate.value else db)
                 else (if b.endDate.Some? && b.endDate.value < da then b.endDate.value else da);
        assert InDates(a, e) && InDates(b, e);
      }
    }
  }

  // --------------------------------------------------------------- pairing

  function GroupDevices(devices: seq<Device>, group: GroupId): set<DeviceId> {
    set d | d in devices && d.group == Some(group) :: d.id
  }

  function TagDevices(devices: seq<Device>, tag: TagId): set<DeviceId> {
    set d | d in devices && d.tags.Some? && tag in d.tags.value :: d.id
  }

  function TargetDevices(devices: seq<Device>, s: Schedule): set<DeviceId> {
    if s.group.None? then {}
    else if s.tag.None? then GroupDevices(devices, s.group.value)
    else GroupDevices(devices, s.group.value) * TagDevices(devices, s.tag.value)
  }

  predicate Collide(devices: seq<Device>, a: Schedule, b: Schedule) {
    a.priority == b.priority && DaysOverlap(a.days, b.days) && DatesOverlap(a, b)
    && WindowsOverlap(a.start, a.end, b.start, b.end)
    && TargetDevices(devices, a) * TargetDevices(devices, b) != {}
  }

  predicate Reported(devices: seq<Device>, schedules: seq<Schedule>, i: int, k: int) {
    0 <= i < k < |schedules| && schedules[i].enabled && schedules[k].enabled
    && schedules[i].group.Some? && schedules[i].group == schedules[k].group
    && Collide(devices, schedules[i], schedules[k])
  }

  datatype Finding = Finding(i: nat, k: nat, shared: set<DeviceId>)

  function Shared(devices: seq<Device>, a: Schedule, b: Schedule): set<DeviceId> {
    TargetDevices(devices, a) * TargetDevices(devices, b)
  }

  // The buckets: which schedules of each group, in order.
  ghost predicate Bucketed(schedules: seq<Schedule>, upto: int, groups: seq<GroupId>, byGroup: map<GroupId, seq<nat>>) {
    0 <= upto <= |schedules|
    && (forall g :: g in groups <==> g in byGroup)
    && (forall m, n :: 0 <= m < n < |groups| ==> groups[m] != groups[n])
    && (forall g, n :: g in byGroup && 0 <= n < |byGroup[g]| ==>
          byGroup[g][n] < upto && schedules[byGroup[g][n]].enabled && schedules[byGroup[g][n]].group == Some(g))
    && (forall g, m, n :: g in byGroup && 0 <= m < n < |byGroup[g]| ==> byGroup[g][m] < byGroup[g][n])
    && (forall i :: 0 <= i < upto && schedules[i].enabled && schedules[i].group.Some? ==>
          schedules[i].group.value in byGroup && i in byGroup[schedules[i].group.value])
  }

  /** The loop that fills `by_group`, a dictionary that keeps its keys in order of insertion. */
  method ByGroup(schedules: seq<Schedule>) returns (groups: seq<GroupId>, byGroup: map<GroupId, seq<nat>>)
    ensures Bucketed(schedules, |schedules|, groups, byGroup)
  {
    groups, byGroup := [], map[];
    for i := 0 to |schedules|
      invariant Bucketed(schedules, i, groups, byGroup)
    {
      var s := schedules[i];
      if s.enabled && s.group.Some? {
        var g := s.group.value;
        if g !in byGroup {
          groups := groups + [g];
          byGroup := byGroup[g := []];
        }
        ghost var before := byGroup[g];
        byGroup := byGroup[g := byGroup[g] + [i]];
        assert forall n :: n in before ==> n in byGroup[g];
      }
    }
  }

  // What the pairing loops append, one pair, one row and one bucket at a time.

  // The colliding pairs, with the devices each pair shares.
  type Hits = map<(nat, nat), set<DeviceId>>

  function AllHits(devices: seq<Device>, schedules: seq<Schedule>): Hits {
    map i: nat, k: nat | i < |schedules| && k < |schedules| && Collide(devices, schedules[i], schedules[k])
      :: (i, k) := Shared(devices, schedules[i], schedules[k])
  }

  function One(hits: Hits, i: nat, k: nat): seq<Finding> {
    if (i, k) in hits then [Finding(i, k, hits[(i, k)])] else []
  }

  function Row(hits: Hits, bucket: seq<nat>, x: nat, y: nat): seq<Finding>
    requires x < y <= |bucket|
    decreases y
  {
    if y == x + 1 then [] else Row(hits, bucket, x, y - 1) + One(hits, bucket[x], bucket[y - 1])
  }

  function Rows(hits: Hits, bucket: seq<nat>, x: nat): seq<Finding>
    requires x <= |bucket|
    decreases x
  {
    if x == 0 then [] else Rows(hits, bucket, x - 1) + Row(hits, bucket, x - 1, |bucket|)
  }

  function Buckets(hits: Hits, groups: seq<GroupId>, byGroup: map<GroupId, seq<nat>>, n: nat): seq<Finding>
    requires n <= |groups| && forall g :: g in groups ==> g in byGroup
  {
    if n == 0 then []
    else Buckets(hits, groups, byGroup, n - 1) + Rows(hits, byGroup[groups[n - 1]], |byGroup[groups[n - 1]]|)
  }

  /** How often the audit reports `f`: once if it is a colliding pair with the devices it shares. */
  function Times(devices: seq<Device>, schedules: seq<Schedule>, f: Finding): nat {
    if Reported(devices, schedules, f.i, f.k) && f.shared == Shared(devices, schedules[f.i], schedules[f.k]) then 1 else 0
  }

  /** `main` after the requests: the findings, and whether it says "Clean". */
  method Audit(devices: seq<Device>, schedules: seq<Schedule>) returns (findings: seq<Finding>, clean: bool)
    ensures forall f :: multiset(findings)[f] == Times(devices, schedules, f)
    ensures clean <==> forall i, k :: !Reported(devices, schedules, i, k)
  {
    var groups, byGroup := ByGroup(schedules);
    findings := [];
    for n := 0 to |groups|
      invariant findings == Buckets(AllHits(devices, schedules), groups, byGroup, n)
    {
      var found := PairsOfBucket(devices, schedules, byGroup[groups[n]]);
      findings := findings + found;
    }
    clean := findings == [];
    forall f ensures multiset(findings)[f] == Times(devices, schedules, f) {
      FindingsExact(devices, schedules, groups, byGroup, f);
    }
    CleanIff(devices, schedules, findings);
  }

  lemma CleanIff(devices: seq<Device>, schedules: seq<Schedule>, findings: seq<Finding>)
    requires forall f :: multiset(findings)[f] == Times(devices, schedules, f)
    ensures findings == [] <==> forall i, k :: !Reported(devices, schedules, i, k)
  {
    if i, k :| Reported(devices, schedules, i, k) {
      assert multiset(findings)[Finding(i, k, Shared(devices, schedules[i], schedules[k]))] == 1;
    }
    if findings != [] { assert multiset(findings)[findings[0]] > 0; }
  }

  method PairsOfBucket(devices: seq<Device>, schedules: seq<Schedule>, bucket: seq<nat>) returns (findings: seq<Finding>)
    requires forall n :: 0 <= n < |bucket| ==> bucket[n] < |schedules|
    ensures findings == Rows(AllHits(devices, schedules), bucket, |bucket|)
  {
    findings := [];
    for x := 0 to |bucket|
      invariant findings == Rows(AllHits(devices, schedules), bucket, x)
    {
      var found := PairsOfRow(devices, schedules, bucket, x, AllHits(devices, schedules));
      findings := findings + found;
    }
  }

  method PairsOfRow(devices: seq<Device>, schedules: seq<Schedule>, bucket: seq<nat>, x: nat, ghost hits: Hits) returns (findings: seq<Finding>)
    requires x < |bucket| && forall n :: 0 <= n < |bucket| ==> bucket[n] < |schedules|
    requires AllHits(devices, schedules) == hits
    ensures findings == Row(hits, bucket, x, |bucket|)
  {
    findings := [];
    for y := x + 1 to |bucket|
      invariant findings == Row(hits, bucket, x, y)
    {
      findings := Compare(devices, schedules, bucket[x], bucket[y], hits, findings);
    }
  }

  /** One pass of the inner loop. */
  method Compare(devices: seq<Device>, schedules: seq<Schedule>, i: nat, k: nat, ghost hits: Hits, before: seq<Finding>)
    returns (findings: seq<Finding>)
    requires i < |schedules| && k < |schedules| && AllHits(devices, schedules) == hits
    ensures findings == before + One(hits, i, k)
  {
    findings := before;
    var a, b := schedules[i], schedules[k];
    if a.priority != b.priority { return; }
    if !DaysOverlap(a.days, b.days) { return; }
    if !DatesOverlap(a, b) { return; }
    if !WindowsOverlap(a.start, a.end, b.start, b.end) { return; }
    var shared := Shared(devices, a, b);
    if shared == {} { return; }
    findings := findings + [Finding(i, k, shared)];
  }

  // ----------------------------------------------- no pair lost, none twice

  ghost predicate Increasing(bucket: seq<nat>) {
    forall m, n :: 0 <= m < n < |bucket| ==> bucket[m] < bucket[n]
  }

  predicate In(hits: Hits, f: Finding) {
    (f.i, f.k) in hits && hits[(f.i, f.k)] == f.shared
  }

  lemma OneCount(hits: Hits, i: nat, k: nat, f: Finding)
    ensures multiset(One(hits, i, k))[f] == if In(hits, f) && f.i == i && f.k == k then 1 else 0
  {
  }

  lemma OneMore<T>(s: seq<T>, lo: nat, hi: nat, e: T)
    requires lo < hi <= |s|
    ensures e in s[lo..hi] <==> e in s[lo..hi - 1] || e == s[hi - 1]
    ensures (forall m, n :: 0 <= m < n < |s| ==> s[m] != s[n]) ==> s[hi - 1] !in s[lo..hi - 1]
  {
    assert s[lo..hi] == s[lo..hi - 1] + [s[hi - 1]];
  }

  lemma {:induction false} RowCount(hits: Hits, bucket: seq<nat>, x: nat, y: nat, f: Finding)
    requires x < y <= |bucket| && Increasing(bucket)
    ensures multiset(Row(hits, bucket, x, y))[f] == if In(hits, f) && f.i == bucket[x] && f.k in bucket[x + 1..y] then 1 else 0
    decreases y
  {
    if y > x + 1 {
      RowCount(hits, bucket, x, y - 1, f);
      OneCount(hits, bucket[x], bucket[y - 1], f);
      OneMore(bucket, x + 1, y, f.k);
    }
  }

  lemma Behind(bucket: seq<nat>, x: nat, k: nat)
    requires Increasing(bucket) && x < |bucket|
    ensures k in bucket[x + 1..|bucket|] <==> k in bucket && bucket[x] < k
  {
    if k in bucket && bucket[x] < k {
      var q :| 0 <= q < |bucket| && bucket[q] == k;
      assert x < q;
      assert bucket[x + 1..][q - x - 1] == k;
    }
  }

  lemma {:induction false} RowsCount(hits: Hits, bucket: seq<nat>, x: nat, f: Finding)
    requires x <= |bucket| && Increasing(bucket)
    ensures multiset(Rows(hits, bucket, x))[f] == if In(hits, f) && f.i in bucket[0..x] && f.k in bucket && f.i < f.k then 1 else 0
    decreases x
  {
    if x > 0 {
      RowsCount(hits, bucket, x - 1, f);
      RowCount(hits, bucket, x - 1, |bucket|, f);
      Behind(bucket, x - 1, f.k);
      OneMore(bucket, 0, x, f.i);
    }
  }

  // A finding of bucket `g`: both schedules are in it, the first one first.
  predicate InBucket(hits: Hits, bucket: seq<nat>, f: Finding) {
    In(hits, f) && f.i in bucket && f.k in bucket && f.i < f.k
  }

  lemma BucketCount(hits: Hits, bucket: seq<nat>, f: Finding)
    requires Increasing(bucket)
    ensures multiset(Rows(hits, bucket, |bucket|))[f] == if InBucket(hits, bucket, f) then 1 else 0
  {
    RowsCount(hits, bucket, |bucket|, f);
    assert bucket[0..|bucket|] == bucket;
  }

  ghost predicate Sorted(groups: seq<GroupId>, byGroup: map<GroupId, seq<nat>>) {
    (forall g :: g in groups ==> g in byGroup && Increasing(byGroup[g]))
    && (forall m, n :: 0 <= m < n < |groups| ==> groups[m] != groups[n])
  }

  /** Buckets do not overlap, so a finding comes from the bucket of its first schedule's group, `own`. */
  lemma {:induction false} BucketsCount(hits: Hits, groups: seq<GroupId>, byGroup: map<GroupId, seq<nat>>, n: nat, f: Finding, own: GroupId)
    requires n <= |groups| && Sorted(groups, byGroup)
    requires forall g :: g in groups && g != own ==> f.i !in byGroup[g]
    ensures multiset(Buckets(hits, groups, byGroup, n))[f]
            == if own in groups[0..n] && own in byGroup && InBucket(hits, byGroup[own], f) then 1 else 0
  {
    if n > 0 {
      BucketsCount(hits, groups, byGroup, n - 1, f, own);
      BucketCount(hits, byGroup[groups[n - 1]], f);
      OneMore(groups, 0, n, own);
    }
  }

  lemma HitIsCollision(devices: seq<Device>, schedules: seq<Schedule>, f: Finding)
    ensures In(AllHits(devices, schedules), f)
            <==> f.i < |schedules| && f.k < |schedules| && Collide(devices, schedules[f.i], schedules[f.k])
                 && f.shared == Shared(devices, schedules[f.i], schedules[f.k])
  {
  }

  /** Going bucket by bucket finds each colliding pair of one group once, and nothing else. */
  lemma FindingsExact(devices: seq<Device>, schedules: seq<Schedule>, groups: seq<GroupId>, byGroup: map<GroupId, seq<nat>>, f: Finding)
    requires Bucketed(schedules, |schedules|, groups, byGroup)
    ensures multiset(Buckets(AllHits(devices, schedules), groups, byGroup, |groups|))[f] == Times(devices, schedules, f)
  {
    var own := if f.i < |schedules| && schedules[f.i].group.Some? then schedules[f.i].group.value else "";
    BucketsCount(AllHits(devices, schedules), groups, byGroup, |groups|, f, own);
    HitIsCollision(devices, schedules, f);
    assert groups[0..|groups|] == groups;
  }

  // -------------------------------------------------------- main theorems

  /** Two enabled schedules of equal priority that play on one device at one date and minute. */
  ghost predicate Clash(devices: seq<Device>, a: Schedule, b: Schedule, d: DeviceId, date: int, minute: int) {
    a.priority == b.priority && ActiveAt(a, date, minute) && ActiveAt(b, date, minute) && Plays(devices, a, d) && Plays(devices, b, d)
  }

  /** What a device really plays: its own group's schedules, narrowed to the tags it carries.
      `tags` of a device whose call failed are not known, and so are no excuse for the audit. */
  ghost predicate Plays(devices: seq<Device>, s: Schedule, d: DeviceId) {
    exists x :: x in devices && x.id == d && x.group.Some? && x.group == s.group
                && (s.tag.Some? ==> x.tags.Some? && s.tag.value in x.tags.value)
  }

  ghost predicate UniqueIds(devices: seq<Device>) {
    forall x, y :: x in devices && y in devices && x.id == y.id ==> x == y
  }

  lemma TargetsArePlayers(devices: seq<Device>, s: Schedule, d: DeviceId)
    requires UniqueIds(devices)
    ensures d in TargetDevices(devices, s) <==> Plays(devices, s, d)
  {
    if d in TargetDevices(devices, s) {
      var x :| x in devices && x.group == Some(s.group.value) && x.id == d;
      if s.tag.Some? {
        var y :| y in devices && y.tags.Some? && s.tag.value in y.tags.value && y.id == d;
        assert x == y;
      }
    }
  }

  /** Theorem: if the audit reports nothing, no device has two enabled schedules of equal priority
      that are both active at one date and minute. */
  lemma NothingReportedNoClash(devices: seq<Device>, schedules: seq<Schedule>, i: nat, k: nat, d: DeviceId, date: int, minute: int)
    requires UniqueIds(devices) && i < k < |schedules| && schedules[i].Valid() && schedules[k].Valid()
    ensures (forall x, y :: !Reported(devices, schedules, x, y)) ==> !Clash(devices, schedules[i], schedules[k], d, date, minute)
  {
    var a, b := schedules[i], schedules[k];
    if Clash(devices, a, b, d, date, minute) {
      TargetsArePlayers(devices, a, d);
      TargetsArePlayers(devices, b, d);
      assert d in TargetDevices(devices, a) * TargetDevices(devices, b);
      WindowsOverlapIff(a, b);
      DatesOverlapIff(a, b);
      DaysMeet(a, b, Weekday(date));
      assert a.group == b.group;
      assert Reported(devices, schedules, i, k);
    }
  }

  lemma DaysMeet(a: Schedule, b: Schedule, day: int)
    requires a.days == {} || day in a.days
    requires b.days == {} || day in b.days
    ensures DaysOverlap(a.days, b.days)
  {
    if a.days != {} && b.days != {} { assert day in a.days * b.days; }
  }

  /** A reported pair is a real clash if and only if some date lies in both ranges and has a
      weekday of both lists: the three tests look at dates and weekdays apart. */
  lemma ReportedIsClashIff(devices: seq<Device>, schedules: seq<Schedule>, i: nat, k: nat)
    requires UniqueIds(devices) && i < k < |schedules| && schedules[i].Valid() && schedules[k].Valid()
    requires Reported(devices, schedules, i, k)
    ensures (exists d, date, minute :: Clash(devices, schedules[i], schedules[k], d, date, minute))
            <==> exists date :: CommonDate(schedules[i], schedules[k], date)
  {
    var a, b := schedules[i], schedules[k];
    if date :| CommonDate(a, b, date) {
      WindowsOverlapIff(a, b);
      var minute :| InWindow(a.start, a.end, minute) && InWindow(b.start, b.end, minute);
      var d :| d in TargetDevices(devices, a) * TargetDevices(devices, b);
      TargetsArePlayers(devices, a, d);
      TargetsArePlayers(devices, b, d);
      assert Clash(devices, a, b, d, date, minute);
    }
    if d, date, minute :| Clash(devices, a, b, d, date, minute) {
      assert CommonDate(a, b, date);
    }
  }

  ghost predicate CommonDate(a: Schedule, b: Schedule, date: int) {
    InDates(a, date) && InDates(b, date)
    && (a.days == {} || Weekday(date) in a.days) && (b.days == {} || Weekday(date) in b.days)
  }

  /** The common dates run through a whole week, so no reported pair is a false alarm. */
  lemma WeekLongIsClash(devices: seq<Device>, schedules: seq<Schedule>, i: nat, k: nat, first: int)
    requires UniqueIds(devices) && i < k < |schedules| && schedules[i].Valid() && schedules[k].Valid()
    requires Reported(devices, schedules, i, k)
    requires forall s :: s in [schedules[i], schedules[k]] ==> s.days <= {1, 2, 3, 4, 5, 6, 7} && InDates(s, first) && InDates(s, first + 6)
    ensures exists d, date, minute :: Clash(devices, schedules[i], schedules[k], d, date, minute)
  {
    var a, b := schedules[i], schedules[k];
    assert a in [a, b] && b in [a, b];
    var day :| (a.days == {} || day in a.days) && (b.days == {} || day in b.days) && 1 <= day <= 7 by {
      if a.days == {} && b.days == {} { assert 1 <= 1 <= 7; }
      else if a.days == {} { var x :| x in b.days; assert 1 <= x <= 7; }
      else if b.days == {} { var x :| x in a.days; assert 1 <= x <= 7; }
      else { var x :| x in a.days * b.days; assert 1 <= x <= 7; }
    }
    var date := first + (day - 1 - first) % 7;
    assert Weekday(date) == day by { WeekdayReached(first, day); }
    assert CommonDate(a, b, date);
    ReportedIsClashIff(devices, schedules, i, k);
  }

  lemma WeekdayReached(first: int, day: int)
    requires 1 <= day <= 7
    ensures Weekday(first + (day - 1 - first) % 7) == day
  {
  }

  /** What the audit sees of the devices when the tags calls of some of them fail. */
  ghost predicate SeenAs(known: seq<Device>, seen: seq<Device>, failed: set<DeviceId>) {
    |seen| == |known|
    && forall n :: 0 <= n < |known| ==> seen[n] == if known[n].id in failed then known[n].(tags := None) else known[n]
  }

  lemma {:induction false} SeenTargets(known: seq<Device>, seen: seq<Device>, failed: set<DeviceId>, s: Schedule, d: DeviceId)
    requires UniqueIds(known) && SeenAs(known, seen, failed)
    ensures d in TargetDevices(seen, s) <==> d in TargetDevices(known, s) && (s.tag.Some? ==> d !in failed)
  {
    SeenGroup(known, seen, failed, s, d);
    if s.tag.Some? { SeenTag(known, seen, failed, s.tag.value, d); }
  }

  lemma SeenGroup(known: seq<Device>, seen: seq<Device>, failed: set<DeviceId>, s: Schedule, d: DeviceId)
    requires SeenAs(known, seen, failed)
    ensures s.group.Some? ==> (d in GroupDevices(seen, s.group.value) <==> d in GroupDevices(known, s.group.value))
  {
    if x :| x in known && x.group == s.group && x.id == d {
      var n :| 0 <= n < |known| && known[n] == x;
      assert seen[n] in seen && seen[n].id == d;
    }
    if x :| x in seen && x.group == s.group && x.id == d {
      var n :| 0 <= n < |seen| && seen[n] == x;
      assert known[n] in known && known[n].id == d;
    }
  }

  lemma SeenTag(known: seq<Device>, seen: seq<Device>, failed: set<DeviceId>, tag: TagId, d: DeviceId)
    requires SeenAs(known, seen, failed)
    ensures d in TagDevices(seen, tag) <==> d in TagDevices(known, tag) && d !in failed
  {
    if x :| x in known && x.tags.Some? && tag in x.tags.value && x.id == d {
      var n :| 0 <= n < |known| && known[n] == x;
      assert seen[n] in seen;
    }
    if x :| x in seen && x.tags.Some? && tag in x.tags.value && x.id == d {
      var n :| 0 <= n < |seen| && seen[n] == x;
      assert known[n] in known;
    }
  }

  /** Theorem: a pair that the audit would report with every tags call answered goes unreported if and
      only if one of its schedules is narrowed to a tag and the call failed for every device they share. */
  lemma MissedIff(known: seq<Device>, seen: seq<Device>, failed: set<DeviceId>, schedules: seq<Schedule>, i: nat, k: nat)
    requires UniqueIds(known) && SeenAs(known, seen, failed) && Reported(known, schedules, i, k)
    ensures !Reported(seen, schedules, i, k)
            <==> (schedules[i].tag.Some? || schedules[k].tag.Some?) && Shared(known, schedules[i], schedules[k]) <= failed
  {
    var a, b := schedules[i], schedules[k];
    forall d
      ensures d in Shared(seen, a, b)
              <==> d in Shared(known, a, b) && (a.tag.Some? || b.tag.Some? ==> d !in failed)
    {
      SeenTargets(known, seen, failed, a, d);
      SeenTargets(known, seen, failed, b, d);
    }
    if Shared(known, a, b) <= failed && (a.tag.Some? || b.tag.Some?) {
      assert Shared(seen, a, b) == {};
    } else {
      var d :| d in Shared(known, a, b) && (a.tag.Some? || b.tag.Some? ==> d !in failed);
      assert d in Shared(seen, a, b);
    }
  }

  /** And nothing is reported that would not be. */
  lemma FailedCallsAddNothing(known: seq<Device>, seen: seq<Device>, failed: set<DeviceId>, schedules: seq<Schedule>, i: nat, k: nat)
    requires UniqueIds(known) && SeenAs(known, seen, failed) && Reported(seen, schedules, i, k)
    ensures Reported(known, schedules, i, k)
  {
    var a, b := schedules[i], schedules[k];
    var d :| d in TargetDevices(seen, a) * TargetDevices(seen, b);
    SeenTargets(known, seen, failed, a, d);
    SeenTargets(known, seen, failed, b, d);
    assert d in Shared(known, a, b);
  }

  /** So "clean" can be trusted after failed calls if and only if no clashing pair is hidden that way. */
  lemma CleanTrustedIff(known: seq<Device>, seen: seq<Device>, failed: set<DeviceId>, schedules: seq<Schedule>)
    requires UniqueIds(known) && SeenAs(known, seen, failed) && forall i, k :: !Reported(seen, schedules, i, k)
    ensures (forall i, k :: !Reported(known, schedules, i, k))
            <==> forall i: nat, k: nat :: Reported(known, schedules, i, k)
                   ==> !((schedules[i].tag.Some? || schedules[k].tag.Some?) && Shared(known, schedules[i], schedules[k]) <= failed)
  {
    forall i: nat, k: nat | Reported(known, schedules, i, k)
      ensures (schedules[i].tag.Some? || schedules[k].tag.Some?) && Shared(known, schedules[i], schedules[k]) <= failed
    {
      MissedIff(known, seen, failed, schedules, i, k);
    }
  }

  /** The least such input: one device whose call fails, and two schedules for its tag. */
  lemma FailedTagCallHides() returns (known: seq<Device>, seen: seq<Device>, schedules: seq<Schedule>)
    ensures UniqueIds(known) && SeenAs(known, seen, {"d"})
    ensures |schedules| == 2 && (exists d :: Clash(known, schedules[0], schedules[1], d, 0, 0))
    ensures forall i, k :: !Reported(seen, schedules, i, k)
  {
    var s := Schedule(true, Some("g"), Some("t"), 0, 0, 60, None, None, {});
    schedules := [s, s];
    known := [Device("d", Some("g"), Some({"t"}))];
    seen := [Device("d", Some("g"), None)];
    assert known[0] in known;
    assert Plays(known, s, "d");
    assert Clash(known, schedules[0], schedules[1], "d", 0, 0);
    assert TagDevices(seen, "t") == {};
    assert Shared(seen, s, s) == {};
  }
}
