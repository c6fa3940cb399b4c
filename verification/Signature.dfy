/** The webhook signature: signing a connection id under a list of keys, checking a header, and
    the broker's own copy of both. */
module Signature {
  import opened Basics
  import opened Text

  type Key = string

  // `hex(HMAC_SHA256(key, payload))`, section 2 of RFC 2104, is left uninterpreted.
  type Hmac = (Key, string) -> string

  const PREFIX := "sha256="

  ghost predicate HexDigests(hmac: Hmac) {
    forall k, m :: IsLowerHex(hmac(k, m))
  }

  /** `raise ValueError` on an empty list of keys. */
  datatype Signed = Header(value: string) | ValueError

  // `compare_digest` accepts ASCII strings only, and raises on any other.
  datatype Verdict = Accepted | Rejected | TypeError

  predicate IsAscii(s: string) { forall c :: c in s ==> c < '\U{80}' }

  function Parts(hmac: Hmac, connection: string, keys: seq<Key>): seq<string> {
    if keys == [] then [] else Parts(hmac, connection, keys[..|keys| - 1]) + [PREFIX + hmac(keys[|keys| - 1], connection)]
  }

  function Entry(piece: string): seq<string> {
    var entry := Strip(piece);
    if PREFIX <= Lower(entry) then [entry[|PREFIX|..]] else []
  }

  function Presented(pieces: seq<string>): seq<string> {
    if pieces == [] then [] else Presented(pieces[..|pieces| - 1]) + Entry(pieces[|pieces| - 1])
  }

  // ------------------------------------------------------------- the loops

  method SignConnectionId(hmac: Hmac, connection: string, keys: seq<Key>) returns (signed: Signed)
    ensures signed == if keys == [] then ValueError else Header(Join(Parts(hmac, connection, keys), ','))
  {
    var parts := AllParts(hmac, connection, keys);
    if parts == [] { return ValueError; }
    signed := Header(Join(parts, ','));
  }

  method AllParts(hmac: Hmac, connection: string, keys: seq<Key>) returns (parts: seq<string>)
    ensures parts == Parts(hmac, connection, keys) && |parts| == |keys|
  {
    parts := [];
    for i := 0 to |keys|
      invariant parts == Parts(hmac, connection, keys[..i]) && |parts| == i
    {
      assert keys[..i + 1][..i] == keys[..i];
      parts := parts + [PREFIX + hmac(keys[i], connection)];
    }
    assert keys[..|keys|] == keys;
  }

  /** Where comparing one digest with the presented ones stops. */
  ghost predicate StopsAt(want: string, presented: seq<string>, n: int) {
    0 <= n < |presented| && (presented[n] == want || !IsAscii(presented[n]))
    && forall i :: 0 <= i < n ==> presented[i] != want && IsAscii(presented[i])
  }

  /** The inner loop: the first presented entry that ends it, or past the last one. */
  method CompareDigests(want: string, presented: seq<string>) returns (n: nat)
    ensures n <= |presented| && (n < |presented| ==> StopsAt(want, presented, n))
    ensures n == |presented| ==> forall i :: 0 <= i < |presented| ==> presented[i] != want && IsAscii(presented[i])
  {
    n := 0;
    while n < |presented| && IsAscii(presented[n]) && presented[n] != want
      invariant n <= |presented| && forall i :: 0 <= i < n ==> presented[i] != want && IsAscii(presented[i])
    {
      n := n + 1;
    }
  }

  /** What the nested loops decide.  An entry that is not ASCII is only survived by an earlier match
      with the first key. */
  ghost predicate Decides(wants: seq<string>, presented: seq<string>, v: Verdict) {
    match v
    case Accepted => exists k, n :: 0 <= k < |wants| && StopsAt(wants[k], presented, n) && presented[n] == wants[k]
                       && (k > 0 ==> forall i :: 0 <= i < |presented| ==> IsAscii(presented[i]))
    case TypeError => wants != [] && exists n :: StopsAt(wants[0], presented, n) && presented[n] != wants[0]
    case Rejected => wants == [] || (forall i :: 0 <= i < |presented| ==> IsAscii(presented[i]) && presented[i] !in wants)
  }

  function Wants(hmac: Hmac, connection: string, keys: seq<Key>): (wants: seq<string>)
    ensures |wants| == |keys|
  {
    seq(|keys|, i requires 0 <= i < |keys| => hmac(keys[i], connection))
  }

  method VerifySignature(hmac: Hmac, connection: string, header: string, keys: seq<Key>) returns (v: Verdict)
    requires HexDigests(hmac)
    ensures Decides(Wants(hmac, connection, keys), Presented(Split(header, ',')), v)
  {
    if header == "" {
      EmptyHeader();
      return Rejected;
    }
    var presented := ReadHeader(header);
    if presented == [] {
      NothingPresented(Wants(hmac, connection, keys));
      return Rejected;
    }
    v := TryKeys(hmac, connection, keys, presented);
  }

  /** The two loops: every key against every entry. */
  method TryKeys(hmac: Hmac, connection: string, keys: seq<Key>, presented: seq<string>) returns (v: Verdict)
    requires HexDigests(hmac)
    ensures Decides(Wants(hmac, connection, keys), presented, v)
  {
    ghost var wants := Wants(hmac, connection, keys);
    for k := 0 to |keys|
      invariant k > 0 ==> forall i :: 0 <= i < |presented| ==> IsAscii(presented[i]) && presented[i] !in wants[..k]
    {
      var want := hmac(keys[k], connection);
      assert want == wants[k];
      var n := CompareDigests(want, presented);
      if n < |presented| {
        HexIsAscii(want);
        assert StopsAt(wants[k], presented, n);
        if presented[n] == want { return Accepted; }
        assert k == 0;
        return TypeError;
      }
      assert wants[..k + 1] == wants[..k] + [want];
    }
    assert wants[..|keys|] == wants;
    v := Rejected;
  }

  lemma NothingPresented(wants: seq<string>)
    ensures Decides(wants, [], Rejected)
  {
  }

  method ReadHeader(header: string) returns (presented: seq<string>)
    ensures presented == Presented(Split(header, ','))
  {
    presented := [];
    var pieces := Split(header, ',');
    for i := 0 to |pieces|
      invariant presented == Presented(pieces[..i])
    {
      assert pieces[..i + 1][..i] == pieces[..i];
      var entry := Strip(pieces[i]);
      if !(PREFIX <= Lower(entry)) { continue; }
      presented := presented + [entry[|PREFIX|..]];
    }
    assert pieces[..|pieces|] == pieces;
  }

  lemma EmptyHeader()
    ensures Presented(Split("", ',')) == []
  {
    assert Split("", ',') == [""] && Entry("") == [];
    assert Presented([""]) == Presented([""][..0]) + Entry("");
  }

  lemma HexIsAscii(s: string)
    requires IsLowerHex(s)
    ensures IsAscii(s)
  {
  }

  /** The loops' decision is unique: `Decides` says which verdict, not just which are possible. */
  lemma DecidesOnce(wants: seq<string>, presented: seq<string>, v: Verdict, u: Verdict)
    requires forall w :: w in wants ==> IsLowerHex(w)
    requires Decides(wants, presented, v) && Decides(wants, presented, u)
    ensures v == u
  {
    forall w | w in wants ensures IsAscii(w) { HexIsAscii(w); }
    assert forall k :: 0 <= k < |wants| ==> wants[k] in wants;
    assert forall n, m :: wants != [] && StopsAt(wants[0], presented, n) && StopsAt(wants[0], presented, m) ==> n == m;
  }

  // ----------------------------------------------------------- the entries

  /** An entry is what follows the prefix, in any mixture of cases, of a piece without the blanks around it. */
  lemma EntryIff(piece: string, digest: string)
    ensures Entry(piece) == [digest] <==> exists p :: Lower(p) == PREFIX && Strip(piece) == p + digest
  {
    var entry := Strip(piece);
    if PREFIX <= Lower(entry) {
      var p := entry[..|PREFIX|];
      assert Lower(entry)[..|PREFIX|] == PREFIX;
      LowerOf(p, entry);
      assert entry == p + entry[|PREFIX|..];
    }
    if p :| Lower(p) == PREFIX && entry == p + digest {
      assert |p| == |PREFIX| && entry[..|PREFIX|] == p;
      LowerOf(p, entry);
      assert Lower(entry)[..|PREFIX|] == PREFIX && entry[|PREFIX|..] == digest;
    }
  }

  lemma LowerOf(p: string, s: string)
    requires p <= s
    ensures Lower(p) == Lower(s)[..|p|]
  {
    assert forall i :: 0 <= i < |p| ==> Lower(p)[i] == LowerChar(p[i]) && p[i] == s[i];
  }

  /** `padded` is `piece` with blanks around it. */
  ghost predicate Padded(piece: string, padded: string) {
    exists a, b :: Blank(a) && Blank(b) && padded == a + piece + b
  }

  lemma {:induction false} PaddedPresented(pieces: seq<string>, padded: seq<string>)
    requires |pieces| == |padded| && forall i :: 0 <= i < |pieces| ==> Padded(pieces[i], padded[i])
    ensures Presented(padded) == Presented(pieces)
  {
    if pieces != [] {
      var last := |pieces| - 1;
      assert forall i :: 0 <= i < last ==> pieces[..last][i] == pieces[i] && padded[..last][i] == padded[i];
      PaddedPresented(pieces[..last], padded[..last]);
      var a, b :| Blank(a) && Blank(b) && padded[last] == a + pieces[last] + b;
      StripPadded(a, pieces[last], b);
    }
  }

  lemma BlankHasNoComma(a: string)
    requires Blank(a)
    ensures ',' !in a
  {
  }

  /** Theorem: a header with blanks around its entries, as after the commas of a list, is judged like the
      one without. */
  lemma BlanksMakeNoDifference(hmac: Hmac, connection: string, keys: seq<Key>, pieces: seq<string>, padded: seq<string>, v: Verdict, u: Verdict)
    requires HexDigests(hmac) && pieces != [] && forall p :: p in pieces ==> ',' !in p
    requires |pieces| == |padded| && forall i :: 0 <= i < |pieces| ==> Padded(pieces[i], padded[i])
    requires Decides(Wants(hmac, connection, keys), Presented(Split(Join(pieces, ','), ',')), v)
    requires Decides(Wants(hmac, connection, keys), Presented(Split(Join(padded, ','), ',')), u)
    ensures v == u
  {
    forall p | p in padded ensures ',' !in p {
      var i :| 0 <= i < |padded| && padded[i] == p;
      var a, b :| Blank(a) && Blank(b) && padded[i] == a + pieces[i] + b;
      BlankHasNoComma(a);
      BlankHasNoComma(b);
      assert pieces[i] in pieces;
    }
    SplitJoin(pieces, ',');
    SplitJoin(padded, ',');
    PaddedPresented(pieces, padded);
    WantsAre(hmac, connection, keys);
    DecidesOnce(Wants(hmac, connection, keys), Presented(pieces), v, u);
  }

  // --------------------------------------------------------------- raising

  /** The first presented entry that ends a comparison with a digest. */
  function FirstStop(want: string, presented: seq<string>): Option<string> {
    if presented == [] then None
    else if presented[0] == want || !IsAscii(presented[0]) then Some(presented[0])
    else FirstStop(want, presented[1..])
  }

  lemma {:induction false} FirstStopStops(want: string, presented: seq<string>) returns (n: nat)
    ensures n <= |presented| && forall i :: 0 <= i < n ==> presented[i] != want && IsAscii(presented[i])
    ensures FirstStop(want, presented).None? <==> n == |presented|
    ensures n < |presented| ==> StopsAt(want, presented, n) && FirstStop(want, presented) == Some(presented[n])
  {
    if presented == [] || presented[0] == want || !IsAscii(presented[0]) {
      n := 0;
    } else {
      var m := FirstStopStops(want, presented[1..]);
      n := m + 1;
      assert forall i :: 0 < i < |presented| ==> presented[i] == presented[1..][i - 1];
    }
  }

  /** Theorem: verification raises if and only if, for the first key, an entry that is not ASCII comes
      before any entry equal to the digest.  Later keys never raise. */
  lemma RaisesIff(hmac: Hmac, connection: string, keys: seq<Key>, presented: seq<string>, v: Verdict)
    requires HexDigests(hmac) && Decides(Wants(hmac, connection, keys), presented, v)
    ensures v == TypeError
            <==> keys != [] && (var want := hmac(keys[0], connection);
                                var stop := FirstStop(want, presented);
                                stop.Some? && stop.value != want)
  {
    if keys != [] {
      var wants := Wants(hmac, connection, keys);
      var n := FirstStopStops(wants[0], presented);
      if n < |presented| && presented[n] != wants[0] {
        assert Decides(wants, presented, TypeError);
        WantsAre(hmac, connection, keys);
        DecidesOnce(wants, presented, v, TypeError);
      }
    }
  }

  /** The least such header: one entry of one character, under any key. */
  lemma NonAsciiRaises(hmac: Hmac, connection: string, key: Key, v: Verdict)
    requires HexDigests(hmac)
    requires Decides(Wants(hmac, connection, [key]), Presented(Split("sha256=\U{e9}", ',')), v)
    ensures v == TypeError
  {
    var entry := "\U{e9}";
    assert "sha256=\U{e9}" == PREFIX + entry;
    PresentedAlone(entry);
    HexIsAscii(hmac(key, connection));
    assert entry[0] in entry;
    assert FirstStop(hmac(key, connection), [entry]) == Some(entry);
    RaisesIff(hmac, connection, [key], [entry], v);
  }

  lemma PresentedAlone(entry: string)
    requires |entry| == 1 && entry[0] != ',' && !IsSpace(entry[0])
    ensures Presented(Split(PREFIX + entry, ',')) == [entry]
  {
    OnePart(entry);
    PlainEntry(entry);
    HeaderOf(PREFIX + entry);
  }

  lemma HeaderOf(header: string)
    requires ',' !in header
    ensures Presented(Split(header, ',')) == Entry(header)
  {
    SplitOne(header, ',');
    OnePiece(header);
  }

  lemma OnePart(entry: string)
    requires ',' !in entry
    ensures ',' !in PREFIX + entry
  {
    assert PREFIX == ['s', 'h', 'a', '2', '5', '6', '='];
  }

  lemma OnePiece(header: string)
    ensures Presented([header]) == Entry(header)
  {
    assert Presented([header]) == Presented([header][..0]) + Entry(header);
  }

  /** An entry that does not end in a blank is read as it is. */
  lemma PlainEntry(digest: string)
    requires digest != "" ==> !IsSpace(digest[|digest| - 1])
    ensures Entry(PREFIX + digest) == [digest]
  {
    var part := PREFIX + digest;
    assert PREFIX == ['s', 'h', 'a', '2', '5', '6', '='];
    assert Strip(part) == part;
    LowerPrefix(digest);
    assert part[|PREFIX|..] == digest;
  }

  // ------------------------------------------------------------ round trip

  lemma {:induction false} PartsPresented(hmac: Hmac, connection: string, keys: seq<Key>)
    requires HexDigests(hmac)
    ensures |Parts(hmac, connection, keys)| == |keys|
    ensures Presented(Parts(hmac, connection, keys)) == Wants(hmac, connection, keys)
    ensures forall p :: p in Parts(hmac, connection, keys) ==> ',' !in p
  {
    if keys != [] {
      var init, last := keys[..|keys| - 1], keys[|keys| - 1];
      PartsPresented(hmac, connection, init);
      var parts := Parts(hmac, connection, keys);
      assert parts[..|parts| - 1] == Parts(hmac, connection, init);
      EntryOfPart(hmac(last, connection));
      assert Wants(hmac, connection, keys) == Wants(hmac, connection, init) + [hmac(last, connection)];
    }
  }

  lemma EntryOfPart(digest: string)
    requires IsLowerHex(digest)
    ensures Entry(PREFIX + digest) == [digest] && ',' !in PREFIX + digest
  {
    assert digest != "" ==> digest[|digest| - 1] in digest;
    PlainEntry(digest);
    OnePart(digest);
  }

  lemma LowerPrefix(digest: string)
    ensures PREFIX <= Lower(PREFIX + digest)
  {
    assert PREFIX == ['s', 'h', 'a', '2', '5', '6', '='];
    assert forall i :: 0 <= i < |PREFIX| ==> LowerChar(PREFIX[i]) == PREFIX[i];
  }

  /** Theorem: a header made under keys A for one connection passes under keys B for another
      exactly when some key of each gives the same digest; it never raises. */
  lemma RoundTripIff(hmac: Hmac, connection: string, a: seq<Key>, other: string, b: seq<Key>, v: Verdict)
    requires HexDigests(hmac) && a != []
    requires Decides(Wants(hmac, other, b), Presented(Split(Join(Parts(hmac, connection, a), ','), ',')), v)
    ensures v == if exists x, y :: x in a && y in b && hmac(x, connection) == hmac(y, other) then Accepted else Rejected
  {
    PartsPresented(hmac, connection, a);
    SplitJoin(Parts(hmac, connection, a), ',');
    var presented, wants := Wants(hmac, connection, a), Wants(hmac, other, b);
    forall i | 0 <= i < |presented| ensures IsAscii(presented[i]) { HexIsAscii(presented[i]); }
    AsciiDecides(wants, presented, v);
    WantsAre(hmac, connection, a);
    WantsAre(hmac, other, b);
    if w :| w in presented && w in wants {
      assert exists x :: x in a && hmac(x, connection) == w;
    }
  }

  lemma WantsAre(hmac: Hmac, connection: string, keys: seq<Key>)
    ensures forall x :: x in keys ==> hmac(x, connection) in Wants(hmac, connection, keys)
    ensures forall w :: w in Wants(hmac, connection, keys) ==> exists x :: x in keys && hmac(x, connection) == w
  {
    var wants := Wants(hmac, connection, keys);
    forall x | x in keys ensures hmac(x, connection) in wants {
      var i :| 0 <= i < |keys| && keys[i] == x;
      assert wants[i] == hmac(x, connection);
    }
    forall w | w in wants ensures exists x :: x in keys && hmac(x, connection) == w {
      var i :| 0 <= i < |wants| && wants[i] == w;
      assert keys[i] in keys;
    }
  }

  /** Among ASCII entries the loops look for a common element, in any order. */
  lemma AsciiDecides(wants: seq<string>, presented: seq<string>, v: Verdict)
    requires Decides(wants, presented, v) && forall i :: 0 <= i < |presented| ==> IsAscii(presented[i])
    ensures v == if exists w :: w in presented && w in wants then Accepted else Rejected
  {
    match v
    case Accepted =>
      var k, n :| 0 <= k < |wants| && StopsAt(wants[k], presented, n) && presented[n] == wants[k];
      assert presented[n] in presented && wants[k] in wants;
    case Rejected =>
    case TypeError =>
  }

  // --------------------------------------------------------- broker's copy

  /** `_sign_webhook`: no error on an empty list. */
  method SignWebhook(hmac: Hmac, accessKey: Key, connection: string, keys: Option<seq<Key>>) returns (header: string)
    ensures header == Join(Parts(hmac, connection, KeyList(accessKey, keys)), ',')
  {
    var keyList := if keys.Some? then keys.value else [accessKey];
    var parts := AllParts(hmac, connection, keyList);
    header := Join(parts, ',');
  }

  function KeyList(accessKey: Key, keys: Option<seq<Key>>): seq<Key> {
    match keys case None => [accessKey] case Some(list) => list
  }

  /** `verify_webhook_signature`. */
  method VerifyWebhookSignature(hmac: Hmac, accessKey: Key, connection: string, header: string, keys: Option<seq<Key>>) returns (v: Verdict)
    requires HexDigests(hmac)
    ensures Decides(Wants(hmac, connection, KeyList(accessKey, keys)), Presented(Split(header, ',')), v)
  {
    if header == "" {
      EmptyHeader();
      return Rejected;
    }
    var keyList := if keys.Some? then keys.value else [accessKey];
    var presented := ReadHeader(header);
    if presented == [] {
      NothingPresented(Wants(hmac, connection, keyList));
      return Rejected;
    }
    v := TryKeys(hmac, connection, keyList, presented);
  }

  /** The two copies, run side by side: signing agrees exactly on the nonempty lists, verifying always. */
  method CopiesAgree(hmac: Hmac, accessKey: Key, connection: string, header: string, keys: seq<Key>)
    returns (signed: Signed, copied: string, v: Verdict, u: Verdict)
    requires HexDigests(hmac)
    ensures signed == Header(copied) <==> keys != []
    ensures keys == [] ==> signed == ValueError && copied == ""
    ensures v == u
  {
    signed := SignConnectionId(hmac, connection, keys);
    copied := SignWebhook(hmac, accessKey, connection, Some(keys));
    v := VerifySignature(hmac, connection, header, keys);
    u := VerifyWebhookSignature(hmac, accessKey, connection, header, Some(keys));
    DecidesOnce(Wants(hmac, connection, keys), Presented(Split(header, ',')), v, u);
  }

  /** Signing and checking, one after the other. */
  method SignThenVerify(hmac: Hmac, connection: string, a: seq<Key>, other: string, b: seq<Key>) returns (v: Verdict)
    requires HexDigests(hmac) && a != []
    ensures v == if exists x, y :: x in a && y in b && hmac(x, connection) == hmac(y, other) then Accepted else Rejected
  {
    var signed := SignConnectionId(hmac, connection, a);
    v := VerifySignature(hmac, other, signed.value, b);
    RoundTripIff(hmac, connection, a, other, b, v);
  }
}
