/** The string operations of the source that the models need. */
module Text {
  predicate IsHexDigit(c: char) {
    '0' <= c <= '9' || 'a' <= c <= 'f' || 'A' <= c <= 'F'
  }

  predicate IsLowerHex(s: string) {
    forall c :: c in s ==> '0' <= c <= '9' || 'a' <= c <= 'f'
  }

  function LowerChar(c: char): char {
    if 'A' <= c <= 'Z' then (c as int + 32) as char else c
  }

  /** `lower()`, on the letters that can occur in a hex string or in the tested prefix. */
  function Lower(s: string): (r: string)
    ensures |r| == |s| && forall i :: 0 <= i < |s| ==> r[i] == LowerChar(s[i])
  {
    if s == "" then "" else [LowerChar(s[0])] + Lower(s[1..])
  }

  lemma LowerHexFixed(s: string)
    requires IsLowerHex(s)
    ensures Lower(s) == s
  {
    assert forall i :: 0 <= i < |s| ==> s[i] in s;
  }

  lemma LowerTwice(s: string)
    ensures Lower(Lower(s)) == Lower(s)
  {
  }

  /** What `strip()` removes. */
  predicate IsSpace(c: char) {
    '\t' <= c <= '\r' || '\U{1c}' <= c <= ' ' || c == '\U{85}' || c == '\U{a0}' || c == '\U{1680}'
    || '\U{2000}' <= c <= '\U{200a}' || c == '\U{2028}' || c == '\U{2029}' || c == '\U{202f}'
    || c == '\U{205f}' || c == '\U{3000}'
  }

  function Strip(s: string): string
    decreases |s|
  {
    if s == "" then ""
    else if IsSpace(s[0]) then Strip(s[1..])
    else if IsSpace(s[|s| - 1]) then Strip(s[..|s| - 1])
    else s
  }

  predicate Blank(s: string) { forall c :: c in s ==> IsSpace(c) }

  /** What is stripped is blank, and what is left has no blank at its ends. */
  lemma {:induction false} StripSplits(s: string) returns (a: string, b: string)
    ensures s == a + Strip(s) + b && Blank(a) && Blank(b)
    ensures Strip(s) != "" ==> !IsSpace(Strip(s)[0]) && !IsSpace(Strip(s)[|Strip(s)| - 1])
    decreases |s|
  {
    if s == "" {
      a, b := "", "";
    } else if IsSpace(s[0]) {
      a, b := StripSplits(s[1..]);
      a := [s[0]] + a;
      assert s == [s[0]] + s[1..];
    } else if IsSpace(s[|s| - 1]) {
      a, b := StripSplits(s[..|s| - 1]);
      b := b + [s[|s| - 1]];
      assert s == s[..|s| - 1] + [s[|s| - 1]];
    } else {
      a, b := "", "";
    }
  }

  lemma {:induction false} StripBlank(a: string)
    requires Blank(a)
    ensures Strip(a) == ""
    decreases |a|
  {
    if a != "" {
      assert a[0] in a;
      assert forall c :: c in a[1..] ==> c in a;
      StripBlank(a[1..]);
    }
  }

  /** Blanks around a string make no difference. */
  lemma {:induction false} StripPadded(a: string, s: string, b: string)
    requires Blank(a) && Blank(b)
    ensures Strip(a + s + b) == Strip(s)
    decreases |a| + |b| + |s|
  {
    var all := a + s + b;
    if a != "" {
      assert a[0] in a && all[0] == a[0] && all[1..] == a[1..] + s + b;
      assert forall c :: c in a[1..] ==> c in a;
      StripPadded(a[1..], s, b);
    } else if s == "" {
      assert all == b;
      StripBlank(b);
    } else if IsSpace(s[0]) {
      assert all[0] == s[0] && all[1..] == a + s[1..] + b;
      StripPadded(a, s[1..], b);
    } else if b != "" {
      assert b[|b| - 1] in b && all[0] == s[0] && all[|all| - 1] == b[|b| - 1] && all[..|all| - 1] == a + s + b[..|b| - 1];
      assert forall c :: c in b[..|b| - 1] ==> c in b;
      StripPadded(a, s, b[..|b| - 1]);
    } else {
      assert all == s;
    }
  }

  /** `split`: the pieces between the separators; there is always at least one. */
  function Split(s: string, sep: char): (pieces: seq<string>)
    ensures |pieces| > 0
  {
    if s == "" then [""]
    else
      var rest := Split(s[1..], sep);
      if s[0] == sep then [""] + rest else [[s[0]] + rest[0]] + rest[1..]
  }

  function Join(parts: seq<string>, sep: char): string {
    if parts == [] then "" else if |parts| == 1 then parts[0] else parts[0] + [sep] + Join(parts[1..], sep)
  }

  lemma {:induction false} SplitPiece(piece: string, rest: string, sep: char)
    requires sep !in piece
    ensures Split(piece + [sep] + rest, sep) == [piece] + Split(rest, sep)
  {
    var all := piece + [sep] + rest;
    if piece == "" {
      assert all[1..] == rest;
    } else {
      assert all[1..] == piece[1..] + [sep] + rest && all[0] == piece[0] && piece[0] in piece;
      SplitPiece(piece[1..], rest, sep);
      assert [piece[0]] + piece[1..] == piece;
    }
  }

  lemma {:induction false} SplitOne(piece: string, sep: char)
    requires sep !in piece
    ensures Split(piece, sep) == [piece]
  {
    if piece != "" {
      assert piece[0] in piece;
      SplitOne(piece[1..], sep);
      assert [piece[0]] + piece[1..] == piece;
    }
  }

  /** Joining and splitting again gives the parts back, when none contains the separator. */
  lemma {:induction false} SplitJoin(parts: seq<string>, sep: char)
    requires parts != [] && forall p :: p in parts ==> sep !in p
    ensures Split(Join(parts, sep), sep) == parts
  {
    if |parts| == 1 {
      SplitOne(parts[0], sep);
    } else {
      SplitPiece(parts[0], Join(parts[1..], sep), sep);
      SplitJoin(parts[1..], sep);
    }
  }
}
