/** Migrations 0046 and 0047: a deck becomes one ordered list of slides, and each tag rule
    becomes one slide of that list. */
module Migration {
  import opened Basics

  type AssetId = nat
  type TagId = nat
  type SlideId = nat
  type Time = int

  datatype Playback = Playback(duration: int, transition: string, transitionMs: int, fit: string, effect: string, direction: string)

  const TRANSITIONS := {"cut", "fade", "fade_black", "dissolve", "push", "wipe", "zoom"}
  const FITS := {"cover", "contain", "contain_blur"}
  const EFFECTS := {"none", "ken_burns"}
  const DIRECTIONS := {"in", "out", "left", "right", "up", "down", "up_left", "up_right", "down_left", "down_right",
    "in_left", "in_right", "in_up", "in_down", "in_up_left", "in_up_right", "in_down_left", "in_down_right",
    "out_left", "out_right", "out_up", "out_down", "out_up_left", "out_up_right", "out_down_left", "out_down_right"}

  /** The vocabulary that CHECK constraints give a slide's playback columns, but not a rule's. */
  predicate Known(p: Playback) {
    p.transition in TRANSITIONS && 0 <= p.transitionMs <= 5000
    && p.fit in FITS && p.effect in EFFECTS && p.direction in DIRECTIONS
  }

  // A slide as migration 0015 and its successors know it, and as 0046 widens it.
  datatype OldSlide = OldSlide(show: AssetId, source: AssetId, position: int, playToEnd: bool, playback: Playback)
  datatype Kind = Asset | Tag | Other(name: string)
  datatype Slide = Slide(
    show: AssetId, kind: Kind, source: Option<AssetId>, tag: Option<TagId>, orderBy: Option<string>,
    position: int, playToEnd: bool, playback: Playback)
  datatype Rule = Rule(tag: TagId, orderBy: string, playback: Playback, anchor: Option<Time>)

  type Slides = map<SlideId, Slide>

  /** The two CHECK constraints of 0046. */
  predicate KindColumns(s: Slide) {
    (s.kind == Asset && s.source.Some? && s.tag.None?) || (s.kind == Tag && s.tag.Some? && s.source.None?)
  }

  predicate Checked(s: Slide) {
    KindColumns(s) && s.position >= 0 && s.playback.duration > 0
  }

  /** `uq_slideshow_slide_position`. */
  ghost predicate UniquePositions(slides: Slides) {
    forall i, k :: i in slides && k in slides && i != k && slides[i].show == slides[k].show ==> slides[i].position != slides[k].position
  }

  ghost predicate Constrained(slides: Slides) {
    UniquePositions(slides) && forall i :: i in slides ==> Checked(slides[i])
  }

  // --------------------------------------------------------------- the deck

  // `members(tag)` are the displayable assets that carry the tag, oldest tagging first.
  type Members = TagId -> seq<AssetId>

  datatype Spec = Spec(source: AssetId, playToEnd: bool, fromTag: bool, playback: Playback)

  function Block(members: seq<AssetId>, playback: Playback): seq<Spec> {
    seq(|members|, i requires 0 <= i < |members| => Spec(members[i], false, true, playback))
  }

  /** What one slide contributes: `_load_slide_specs` on one row. */
  function Expanded(s: Slide, members: Members): seq<Spec> {
    if s.kind == Tag then if s.tag.None? then [] else Block(members(s.tag.value), s.playback)
    else if s.source.None? then []
    else [Spec(s.source.value, s.playToEnd, false, s.playback)]
  }

  ghost function At(slides: Slides, show: AssetId, position: int, members: Members): seq<Spec> {
    if i :| i in slides && slides[i].show == show && slides[i].position == position then Expanded(slides[i], members) else []
  }

  ghost function Upto(slides: Slides, show: AssetId, n: nat, members: Members): seq<Spec> {
    if n == 0 then [] else Upto(slides, show, n - 1, members) + At(slides, show, n - 1, members)
  }

  /** `COALESCE(MAX(position) + 1, 0)` over one slideshow. */
  ghost predicate IsNext(slides: Slides, show: AssetId, n: int) {
    0 <= n && (forall i :: i in slides && slides[i].show == show ==> slides[i].position < n)
    && (n > 0 ==> exists i :: i in slides && slides[i].show == show && slides[i].position == n - 1)
  }

  ghost function Next(slides: Slides, show: AssetId): (n: nat)
    ensures IsNext(slides, show, n)
    decreases |slides|
  {
    if i :| i in slides && slides[i].show == show then
      var rest := Next(slides - {i}, show);
      assert forall k :: k in slides && k != i ==> k in slides - {i};
      if slides[i].position < rest then rest else slides[i].position + 1
    else 0
  }

  /** The deck of a slideshow: its slides in order of position, each expanded in place. */
  ghost function Deck(slides: Slides, show: AssetId, members: Members): seq<Spec>
  {
    Upto(slides, show, Next(slides, show), members)
  }

  /** Before 0047 the presence of a rule switches the slideshow into tag mode. */
  ghost function LegacyDeck(slides: Slides, rules: map<AssetId, Rule>, show: AssetId, members: Members): seq<Spec>
  {
    if show in rules then Block(members(rules[show].tag), rules[show].playback) else Deck(slides, show, members)
  }

  // ------------------------------------------------------------------- 0046

  function Widened(s: OldSlide): Slide {
    Slide(s.show, Asset, Some(s.source), None, None, s.position, s.playToEnd, s.playback)
  }

  function WidenedAll(rows: map<SlideId, OldSlide>): Slides {
    map i | i in rows :: Widened(rows[i])
  }

  /** After 0046 every existing row meets the new constraints, keeps its place and plays as before. */
  lemma WideningKeeps(rows: map<SlideId, OldSlide>, members: Members)
    requires forall i :: i in rows ==> rows[i].position >= 0 && rows[i].playback.duration > 0
    requires forall i, k :: i in rows && k in rows && i != k && rows[i].show == rows[k].show ==> rows[i].position != rows[k].position
    ensures Constrained(WidenedAll(rows))
    ensures forall i :: i in rows ==>
      At(WidenedAll(rows), rows[i].show, rows[i].position, members)
      == [Spec(rows[i].source, rows[i].playToEnd, false, rows[i].playback)]
  {
    var slides := WidenedAll(rows);
    assert forall i :: i in slides ==> slides[i] == Widened(rows[i]);
    assert UniquePositions(slides);
    forall i | i in rows
      ensures At(slides, rows[i].show, rows[i].position, members)
              == [Spec(rows[i].source, rows[i].playToEnd, false, rows[i].playback)]
    {
      OnlyAt(slides, i, members);
    }
  }

  // ------------------------------------------------------------------- 0047

  function FromRule(show: AssetId, r: Rule, position: int): Slide {
    Slide(show, Tag, None, Some(r.tag), Some(r.orderBy), position, false, r.playback)
  }

  datatype Db = Db(anchors: map<AssetId, Option<Time>>, slides: Slides, rules: map<AssetId, Rule>)

  /** Each rule sits on an existing asset and has a positive duration. */
  ghost predicate Valid(db: Db) {
    Constrained(db.slides) && forall a :: a in db.rules ==> a in db.anchors && db.rules[a].playback.duration > 0
  }

  // The ids that `gen_random_uuid()` gives the rules' slides, and whose each id is.
  datatype Uuids = Uuids(of: map<AssetId, SlideId>, owner: map<SlideId, AssetId>)

  /** New ids, all different, one for each rule. */
  ghost predicate FreshIds(slides: Slides, rules: map<AssetId, Rule>, ids: Uuids) {
    ids.of.Keys == rules.Keys && (forall i :: i in ids.owner ==> i !in slides)
    && (forall a :: a in ids.of ==> ids.of[a] in ids.owner && ids.owner[ids.of[a]] == a)
    && (forall i :: i in ids.owner ==> ids.owner[i] in ids.of && ids.of[ids.owner[i]] == i)
  }

  ghost predicate Anchored(anchors: map<AssetId, Option<Time>>, rules: map<AssetId, Rule>,
                           anchors': map<AssetId, Option<Time>>, done: set<AssetId>)
  {
    anchors'.Keys == anchors.Keys
    && forall a :: a in anchors ==>
         anchors'[a] == if a in done && a in rules && rules[a].anchor.Some? then rules[a].anchor else anchors[a]
  }

  ghost function RowOf(slides: Slides, rules: map<AssetId, Rule>, a: AssetId): Slide
    requires a in rules
  {
    FromRule(a, rules[a], Next(slides, a))
  }

  /** The rows of the `done` rules stand beside the rows that were there. */
  ghost predicate Inserted(slides: Slides, rules: map<AssetId, Rule>, ids: Uuids, slides': Slides, done: set<AssetId>)
    requires done <= rules.Keys
  {
    (forall i :: i in slides' <==> i in slides || (i in ids.owner && ids.owner[i] in done))
    && (forall i :: i in slides ==> slides'[i] == slides[i])
    && (forall i :: i in ids.owner && i !in slides && ids.owner[i] in done ==> slides'[i] == RowOf(slides, rules, ids.owner[i]))
  }

  /** The whole of 0047, when nothing is refused. */
  ghost predicate Upgraded(before: Db, ids: Uuids, after: Db) {
    Valid(before) && FreshIds(before.slides, before.rules, ids)
    && Anchored(before.anchors, before.rules, after.anchors, before.rules.Keys)
    && Inserted(before.slides, before.rules, ids, after.slides, before.rules.Keys)
    && after.rules == map[]
  }

  class Schema {
    var anchors: map<AssetId, Option<Time>>
    var slides: Slides
    var rules: map<AssetId, Rule>

    ghost function Contents(): Db
      reads this
    {
      Db(anchors, slides, rules)
    }

    /** 0046 on the rows as they were. */
    constructor Upgrade46(assets: set<AssetId>, rows: map<SlideId, OldSlide>, rules: map<AssetId, Rule>)
      ensures Contents() == Db(map a | a in assets :: None, WidenedAll(rows), rules)
    {
      this.anchors := map a | a in assets :: None;
      this.slides := map i | i in rows :: Widened(rows[i]);
      this.rules := rules;
    }

    /** 0047: three statements in one transaction, which a CHECK violation rolls back. */
    method Upgrade47(ids: Uuids) returns (ok: bool)
      requires Valid(Contents()) && FreshIds(slides, rules, ids)
      modifies this
      ensures ok <==> forall a :: a in old(rules) ==> Known(old(rules)[a].playback)
      ensures ok ==> Upgraded(old(Contents()), ids, Contents())
      ensures !ok ==> Contents() == old(Contents())
    {
      var savedAnchors, savedSlides := anchors, slides;
      CarryAnchors();
      ok := InsertSlides(ids);
      if ok {
        rules := map[];
      } else {
        anchors, slides := savedAnchors, savedSlides;
      }
    }

    /** `UPDATE assets SET slideshow_anchor_at ... WHERE anchor_at IS NOT NULL`. */
    method CarryAnchors()
      requires rules.Keys <= anchors.Keys
      modifies this`anchors
      ensures Anchored(old(anchors), rules, anchors, rules.Keys)
    {
      var todo := rules.Keys;
      while todo != {}
        invariant todo <= rules.Keys && Anchored(old(anchors), rules, anchors, rules.Keys - todo)
        decreases todo
      {
        var a :| a in todo;
        if rules[a].anchor.Some? { anchors := anchors[a := rules[a].anchor]; }
        todo := todo - {a};
      }
    }

    /** `INSERT ... SELECT`: the positions are those of the rows before the statement. */
    method InsertSlides(ids: Uuids) returns (ok: bool)
      requires FreshIds(slides, rules, ids) && forall a :: a in rules ==> rules[a].playback.duration > 0
      modifies this`slides
      ensures ok <==> forall a :: a in rules ==> Known(rules[a].playback)
      ensures ok ==> Inserted(old(slides), rules, ids, slides, rules.Keys)
    {
      var snapshot := slides;
      var todo := rules.Keys;
      while todo != {}
        invariant todo <= rules.Keys && Inserted(snapshot, rules, ids, slides, rules.Keys - todo)
        invariant forall a :: a in rules && a !in todo ==> Known(rules[a].playback)
        decreases todo
      {
        var a :| a in todo;
        var position := MaxPosition(snapshot, a);
        NextUnique(snapshot, a, position);
        var row := FromRule(a, rules[a], position);
        if !Checked(row) || !Known(row.playback) { return false; }
        OneInserted(snapshot, rules, ids, slides, rules.Keys - todo, a);
        slides := slides[ids.of[a] := row];
        assert rules.Keys - (todo - {a}) == (rules.Keys - todo) + {a};
        todo := todo - {a};
      }
      ok := true;
    }
  }

  lemma OneInserted(slides: Slides, rules: map<AssetId, Rule>, ids: Uuids, slides': Slides, done: set<AssetId>, a: AssetId)
    requires FreshIds(slides, rules, ids) && a in rules && done <= rules.Keys && Inserted(slides, rules, ids, slides', done)
    ensures Inserted(slides, rules, ids, slides'[ids.of[a] := RowOf(slides, rules, a)], done + {a})
  {
    assert forall i :: i in ids.owner ==> (ids.owner[i] == a <==> i == ids.of[a]);
  }

  method MaxPosition(slides: Slides, show: AssetId) returns (n: int)
    ensures IsNext(slides, show, n)
  {
    n := 0;
    var todo := slides.Keys;
    while todo != {}
      invariant todo <= slides.Keys && 0 <= n
      invariant forall i :: i in slides && i !in todo && slides[i].show == show ==> slides[i].position < n
      invariant n > 0 ==> exists i :: i in slides && slides[i].show == show && slides[i].position == n - 1
      decreases todo
    {
      var i :| i in todo;
      if slides[i].show == show && slides[i].position >= n { n := slides[i].position + 1; }
      todo := todo - {i};
    }
  }

  lemma NextUnique(slides: Slides, show: AssetId, n: int)
    requires IsNext(slides, show, n)
    ensures n == Next(slides, show)
  {
  }

  // --------------------------------------------------------- what 0047 keeps

  /** What 0047 means for one slideshow: its rows stay, and a rule adds `extra` behind them. */
  ghost predicate Grown(slides: Slides, slides': Slides, show: AssetId, extra: Option<Slide>) {
    (forall i :: i in slides ==> i in slides' && slides'[i] == slides[i])
    && (forall i :: i in slides' && i !in slides && slides'[i].show == show ==> extra == Some(slides'[i]))
    && (extra.Some? ==> extra.value.show == show && extra.value.position == Next(slides, show)
                        && exists i :: i in slides' && i !in slides && slides'[i] == extra.value)
  }

  ghost function Extra(before: Db, show: AssetId): Option<Slide> {
    if show in before.rules then Some(RowOf(before.slides, before.rules, show)) else None
  }

  lemma UpgradeGrows(before: Db, ids: Uuids, after: Db, show: AssetId)
    requires Upgraded(before, ids, after)
    ensures Grown(before.slides, after.slides, show, Extra(before, show))
  {
    if show in before.rules {
      assert ids.of[show] in after.slides && ids.owner[ids.of[show]] == show;
    }
  }

  /** Where a slide that was not there before comes from. */
  lemma Whence(before: Db, ids: Uuids, after: Db, i: SlideId)
    requires Upgraded(before, ids, after) && i in after.slides && i !in before.slides
    ensures i in ids.owner && ids.owner[i] in before.rules
    ensures after.slides[i] == RowOf(before.slides, before.rules, ids.owner[i]) && ids.of[ids.owner[i]] == i
  {
  }

  /** Theorem: the constraints hold after 0047 and there is one more slide for each rule. */
  lemma UpgradeKeepsConstraints(before: Db, ids: Uuids, after: Db)
    requires Upgraded(before, ids, after)
    ensures Constrained(after.slides)
    ensures |after.slides| == |before.slides| + |before.rules|
  {
    forall i, k | i in after.slides && k in after.slides && i != k && after.slides[i].show == after.slides[k].show
      ensures after.slides[i].position != after.slides[k].position
    {
      PositionsDiffer(before, ids, after, i, k);
    }
    forall i | i in after.slides ensures Checked(after.slides[i]) {
      if i !in before.slides { Whence(before, ids, after, i); } else { assert after.slides[i] == before.slides[i]; }
    }
    CountInserted(before, ids, after);
  }

  lemma PositionsDiffer(before: Db, ids: Uuids, after: Db, i: SlideId, k: SlideId)
    requires Upgraded(before, ids, after)
    requires i in after.slides && k in after.slides && i != k && after.slides[i].show == after.slides[k].show
    ensures after.slides[i].position != after.slides[k].position
  {
    if i in before.slides && k in before.slides {
      assert after.slides[i] == before.slides[i] && after.slides[k] == before.slides[k];
    } else if i in before.slides {
      NewIsLast(before, ids, after, k, i);
    } else if k in before.slides {
      NewIsLast(before, ids, after, i, k);
    } else {
      Whence(before, ids, after, i);
      Whence(before, ids, after, k);
    }
  }

  lemma NewIsLast(before: Db, ids: Uuids, after: Db, i: SlideId, k: SlideId)
    requires Upgraded(before, ids, after)
    requires i in after.slides && i !in before.slides && k in before.slides && after.slides[i].show == before.slides[k].show
    ensures after.slides[k] == before.slides[k] && before.slides[k].position < after.slides[i].position
  {
    Whence(before, ids, after, i);
    assert IsNext(before.slides, ids.owner[i], Next(before.slides, ids.owner[i]));
  }

  lemma CountInserted(before: Db, ids: Uuids, after: Db)
    requires Upgraded(before, ids, after)
    ensures |after.slides| == |before.slides| + |before.rules|
  {
    KeysAfter(before.slides, before.rules, ids, after.slides);
    assert ids.of.Keys == before.rules.Keys;
    SizeOfParts(before.slides.Keys, ids.owner.Keys);
    Bijection(ids.of, ids.owner);
  }

  lemma KeysAfter(slides: Slides, rules: map<AssetId, Rule>, ids: Uuids, slides': Slides)
    requires FreshIds(slides, rules, ids) && Inserted(slides, rules, ids, slides', rules.Keys)
    ensures slides'.Keys == slides.Keys + ids.owner.Keys && slides.Keys !! ids.owner.Keys
  {
    forall i ensures i in slides'.Keys <==> i in slides.Keys + ids.owner.Keys {
      assert i in ids.owner ==> ids.owner[i] in ids.of.Keys;
    }
    assert slides.Keys !! ids.owner.Keys by {
      forall i ensures !(i in slides.Keys && i in ids.owner.Keys) {}
    }
  }

  lemma SizeOfParts(a: set<SlideId>, b: set<SlideId>)
    requires a !! b
    ensures |a + b| == |a| + |b|
  {
  }

  lemma {:induction false} Bijection(of: map<AssetId, SlideId>, owner: map<SlideId, AssetId>)
    requires forall a :: a in of ==> of[a] in owner && owner[of[a]] == a
    requires forall i :: i in owner ==> owner[i] in of && of[owner[i]] == i
    ensures |of.Keys| == |owner.Keys|
    decreases |of|
  {
    if a :| a in of {
      var i := of[a];
      Bijection(of - {a}, owner - {i});
      assert of.Keys == (of - {a}).Keys + {a} && owner.Keys == (owner - {i}).Keys + {i};
    } else if i :| i in owner {
      assert owner[i] in of;
    } else {
      assert of.Keys == {} && owner.Keys == {};
    }
  }

  /** 0047 inserts slides with known playback values only. */
  lemma UpgradeKeepsVocabulary(before: Db, ids: Uuids, after: Db)
    requires Upgraded(before, ids, after)
    ensures (forall i :: i in after.slides ==> Known(after.slides[i].playback))
            <==> (forall i :: i in before.slides ==> Known(before.slides[i].playback))
                 && forall a :: a in before.rules ==> Known(before.rules[a].playback)
  {
    assert forall i :: i in before.slides ==> after.slides[i] == before.slides[i];
    forall a | a in before.rules
      ensures ids.of[a] in after.slides && after.slides[ids.of[a]].playback == before.rules[a].playback
    {
      Whence(before, ids, after, ids.of[a]);
    }
    forall i | i in after.slides && i !in before.slides
      ensures ids.owner[i] in before.rules && after.slides[i].playback == before.rules[ids.owner[i]].playback
    {
      Whence(before, ids, after, i);
    }
  }

  /** Each rule becomes one slide at the end of its slideshow, with the rule's tag, order and playback;
      there are no other new slides, and no rules any more. */
  lemma RuleBecomesSlide(before: Db, ids: Uuids, after: Db, a: AssetId)
    requires Upgraded(before, ids, after) && a in before.rules
    ensures after.rules == map[]
    ensures ids.of[a] in after.slides && ids.of[a] !in before.slides
    ensures var slide, r := after.slides[ids.of[a]], before.rules[a];
      slide.show == a && slide.kind == Tag && slide.source == None && slide.tag == Some(r.tag) && slide.orderBy == Some(r.orderBy)
      && !slide.playToEnd && slide.playback == r.playback
      && (forall i :: i in before.slides && before.slides[i].show == a ==> before.slides[i].position < slide.position)
    ensures forall i :: i in after.slides && i !in before.slides && after.slides[i].show == a ==> i == ids.of[a]
  {
    assert IsNext(before.slides, a, Next(before.slides, a));
    assert ids.of[a] in ids.owner && ids.owner[ids.of[a]] == a;
    forall i | i in after.slides && i !in before.slides && after.slides[i].show == a ensures i == ids.of[a] {
      Whence(before, ids, after, i);
    }
  }

  // -------------------------------------------------------------- the cycle

  /** The anchor that a slideshow's cycle goes by: the rule's as long as there is one, else its own. */
  function AnchorInUse(db: Db, a: AssetId): Option<Time>
    requires a in db.anchors
  {
    if a in db.rules then db.rules[a].anchor else db.anchors[a]
  }

  /** `started_at`: the anchor, or without one the last multiple of the cycle's length. */
  function StartedAt(anchor: Option<Time>, cycle: int, now: Time): Time
    requires cycle > 0
  {
    match anchor case Some(t) => t case None => now / cycle * cycle
  }

  /** How far into its cycle a deck is. */
  function Offset(anchor: Option<Time>, cycle: int, now: Time): int
    requires cycle > 0
  {
    (now - StartedAt(anchor, cycle, now)) % cycle
  }

  /** Theorem: the anchor in use is unchanged if and only if the slideshow has no rule, the rule has an
      anchor, or the slideshow had none of its own. */
  lemma AnchorUnchangedIff(before: Db, ids: Uuids, after: Db, a: AssetId)
    requires Upgraded(before, ids, after) && a in before.anchors
    ensures a in after.anchors
    ensures AnchorInUse(after, a) == AnchorInUse(before, a)
            <==> a !in before.rules || before.rules[a].anchor.Some? || before.anchors[a].None?
  {
    assert a in after.anchors;
  }

  lemma Remainder(y: int, k: int, c: int, r: int)
    requires c > 0 && y == k * c + r && 0 <= r < c
    ensures y % c == r
  {
    var q, m := y / c, y % c;
    assert (q - k) * c == r - m;
    if q > k { Multiple(q - k, c); }
    if q < k { Multiple(k - q, c); }
  }

  lemma Multiple(n: int, c: int)
    requires n >= 1 && c > 0
    ensures n * c >= c
  {
  }

  /** Without an anchor the cycles are those of an anchor at 0. */
  lemma OffsetOf(anchor: Option<Time>, cycle: int, now: Time)
    requires cycle > 0
    ensures Offset(anchor, cycle, now) == (now - if anchor.Some? then anchor.value else 0) % cycle
  {
    if anchor.None? { Remainder(now - now / cycle * cycle, 0, cycle, now % cycle); }
  }

  lemma Shifted(now: Time, t: Time, cycle: int)
    requires cycle > 0 && t % cycle == 0
    ensures (now - t) % cycle == now % cycle
  {
    Remainder(now - t, now / cycle - t / cycle, cycle, now % cycle);
  }

  /** Theorem: 0047 leaves a deck where it is in its cycle, at every moment, if and only if the anchor in
      use is unchanged or the one that takes its place is a multiple of the cycle's length. */
  lemma CycleUnmovedIff(before: Db, ids: Uuids, after: Db, a: AssetId, cycle: int)
    requires Upgraded(before, ids, after) && a in before.anchors && cycle > 0
    ensures a in after.anchors
    ensures (forall now :: Offset(AnchorInUse(after, a), cycle, now) == Offset(AnchorInUse(before, a), cycle, now))
            <==> a !in before.rules || before.rules[a].anchor.Some? || before.anchors[a].None? || before.anchors[a].value % cycle == 0
  {
    AnchorUnchangedIff(before, ids, after, a);
    var was, next := AnchorInUse(before, a), AnchorInUse(after, a);
    if next != was {
      var t := next.value;
      forall now ensures Offset(next, cycle, now) == (now - t) % cycle && Offset(was, cycle, now) == now % cycle {
        OffsetOf(next, cycle, now);
        OffsetOf(was, cycle, now);
      }
      if t % cycle == 0 {
        forall now ensures Offset(next, cycle, now) == Offset(was, cycle, now) { Shifted(now, t, cycle); }
      } else {
        assert Offset(next, cycle, t) == 0 && Offset(was, cycle, t) == t % cycle;
      }
    }
  }

  lemma OnlyAt(slides: Slides, i: SlideId, members: Members)
    requires UniquePositions(slides) && i in slides
    ensures At(slides, slides[i].show, slides[i].position, members) == Expanded(slides[i], members)
  {
  }

  lemma SameAt(slides: Slides, slides': Slides, show: AssetId, position: int, members: Members)
    requires UniquePositions(slides) && UniquePositions(slides')
    requires forall i :: i in slides && slides[i].show == show && slides[i].position == position ==> i in slides' && slides'[i] == slides[i]
    requires forall i :: i in slides' && slides'[i].show == show && slides'[i].position == position ==> i in slides && slides'[i] == slides[i]
    ensures At(slides', show, position, members) == At(slides, show, position, members)
  {
    if i :| i in slides && slides[i].show == show && slides[i].position == position {
      OnlyAt(slides, i, members);
      OnlyAt(slides', i, members);
    }
  }

  lemma {:induction false} SameUpto(slides: Slides, slides': Slides, show: AssetId, extra: Option<Slide>, n: nat, members: Members)
    requires UniquePositions(slides) && UniquePositions(slides') && Grown(slides, slides', show, extra)
    requires n <= Next(slides, show)
    ensures Upto(slides', show, n, members) == Upto(slides, show, n, members)
  {
    if n > 0 {
      SameUpto(slides, slides', show, extra, n - 1, members);
      SameAt(slides, slides', show, n - 1, members);
    }
  }

  lemma GrownNext(slides: Slides, slides': Slides, show: AssetId, extra: Option<Slide>)
    requires Grown(slides, slides', show, extra)
    ensures Next(slides', show) == Next(slides, show) + if extra.Some? then 1 else 0
  {
    var n := Next(slides, show);
    if extra.Some? {
      NextUnique(slides', show, n + 1);
    } else {
      if n > 0 {
        var i :| i in slides && slides[i].show == show && slides[i].position == n - 1;
        assert slides'[i] == slides[i];
      }
      NextUnique(slides', show, n);
    }
  }

  lemma GrownDeck(slides: Slides, slides': Slides, show: AssetId, extra: Option<Slide>, members: Members)
    requires UniquePositions(slides) && UniquePositions(slides') && Grown(slides, slides', show, extra)
    ensures Deck(slides', show, members) == Deck(slides, show, members) + if extra.Some? then Expanded(extra.value, members) else []
  {
    var n := Next(slides, show);
    GrownNext(slides, slides', show, extra);
    SameUpto(slides, slides', show, extra, n, members);
    if extra.Some? {
      var i :| i in slides' && i !in slides && slides'[i] == extra.value;
      OnlyAt(slides', i, members);
    }
  }

  /** 0047 puts the tag block of a slideshow's rule behind whatever the slideshow already had. */
  lemma DeckAfter(before: Db, ids: Uuids, after: Db, show: AssetId, members: Members)
    requires Upgraded(before, ids, after)
    ensures Deck(after.slides, show, members)
            == Deck(before.slides, show, members)
               + if show in before.rules then Block(members(before.rules[show].tag), before.rules[show].playback) else []
  {
    UpgradeKeepsConstraints(before, ids, after);
    UpgradeGrows(before, ids, after, show);
    GrownDeck(before.slides, after.slides, show, Extra(before, show), members);
  }

  /** Theorem: 0047 leaves the resolved deck of a slideshow unchanged if and only if the slideshow
      has no rule, or its own slides resolved to nothing. */
  lemma DeckUnchangedIff(before: Db, ids: Uuids, after: Db, show: AssetId, members: Members)
    requires Upgraded(before, ids, after)
    ensures Deck(after.slides, show, members) == LegacyDeck(before.slides, before.rules, show, members)
            <==> (show in before.rules ==> Deck(before.slides, show, members) == [])
  {
    DeckAfter(before, ids, after, show, members);
    var own := Deck(before.slides, show, members);
    if show in before.rules {
      var block := Block(members(before.rules[show].tag), before.rules[show].playback);
      assert |own + block| == |own| + |block|;
      if own == [] { assert own + block == block; }
    } else {
      assert own + [] == own;
    }
  }

  /** A tag-mode slideshow has no slides of its own, so its deck survives. */
  lemma LegacyTagDeckSurvives(before: Db, ids: Uuids, after: Db, show: AssetId, members: Members)
    requires Upgraded(before, ids, after)
    requires forall i :: i in before.slides ==> before.slides[i].show !in before.rules
    ensures Deck(after.slides, show, members) == LegacyDeck(before.slides, before.rules, show, members)
  {
    if show in before.rules {
      var n := Next(before.slides, show);
      assert IsNext(before.slides, show, n);
      assert Upto(before.slides, show, 0, members) == [];
    }
    DeckUnchangedIff(before, ids, after, show, members);
  }
}
