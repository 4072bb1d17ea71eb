/**
 What a checksum really hashes: the bytes of the canonical text in UTF-8 (section 3 of RFC 3629).
 The encoder replaces every surrogate without a partner by the same three bytes, so bytes determine
 a text only if it has no such surrogate; the canonical text never has one.
 */
module ChecksumBytes {
  import opened Common
  import opened CanonicalJson

  type Byte = x: int | 0 <= x < 256 witness 0

  const REPLACEMENT := 0xFFFD

  // ---- Code points of a text, by the ranges of section 3 of RFC 3629 ----

  predicate Lead(c: Unit) {
    0xD800 <= c <= 0xDBFF
  }

  predicate Trail(c: Unit) {
    0xDC00 <= c <= 0xDFFF
  }

  predicate StartsWithPair(t: Text) {
    |t| > 1 && Lead(t[0]) && Trail(t[1])
  }

  function HeadUnits(t: Text): (n: nat)
    requires |t| > 0
    ensures 1 <= n <= |t|
  {
    if StartsWithPair(t) then 2 else 1
  }

  /** The first code point; a surrogate without a partner counts as the replacement character. */
  function Head(t: Text): (p: int)
    requires |t| > 0
    ensures 0 <= p < 0x11_0000
  {
    if StartsWithPair(t) then 0x1_0000 + (t[0] - 0xD800) * 0x400 + (t[1] - 0xDC00)
    else if Lead(t[0]) || Trail(t[0]) then REPLACEMENT
    else t[0]
  }

  /** Every surrogate has its partner beside it. */
  predicate Paired(t: Text) {
    && (forall i :: 0 <= i < |t| && Lead(t[i]) ==> i + 1 < |t| && Trail(t[i + 1]))
    && (forall i :: 0 <= i < |t| && Trail(t[i]) ==> i > 0 && Lead(t[i - 1]))
  }

  lemma PairedTail(t: Text)
    requires Paired(t) && |t| > 0
    ensures Paired(t[HeadUnits(t)..])
    ensures Lead(t[0]) ==> StartsWithPair(t)
    ensures !Trail(t[0])
  {
    var n := HeadUnits(t);
    var rest := t[n..];
    forall i | 0 <= i < |rest| && Lead(rest[i]) ensures i + 1 < |rest| && Trail(rest[i + 1]) {
      assert Lead(t[n + i]);
    }
    forall i | 0 <= i < |rest| && Trail(rest[i]) ensures i > 0 && Lead(rest[i - 1]) {
      assert Trail(t[n + i]) && Lead(t[n + i - 1]);
    }
  }

  /** Without lone surrogates the first code point determines the units it was read from. */
  lemma HeadReads(t: Text, u: Text)
    requires |t| > 0 && |u| > 0 && Paired(t) && Paired(u) && Head(t) == Head(u)
    ensures HeadUnits(t) == HeadUnits(u) && t[..HeadUnits(t)] == u[..HeadUnits(u)]
  {
    PairedTail(t);
    PairedTail(u);
    if StartsWithPair(t) {
      PairDigits(t[0] - 0xD800, t[1] - 0xDC00, u[0] - 0xD800, if StartsWithPair(u) then u[1] - 0xDC00 else 0);
    }
  }

  lemma PairDigits(a: int, b: int, c: int, d: int)
    requires 0 <= b < 0x400 && 0 <= d < 0x400 && a * 0x400 + b == c * 0x400 + d
    ensures a == c && b == d
  {
  }

  // ---- UTF-8 ----

  function Continuation(x: int): Byte {
    0x80 + x % 64
  }

  function Encode(p: int): (b: seq<Byte>)
    requires 0 <= p < 0x11_0000
    ensures |b| > 0
  {
    if p < 0x80 then [p]
    else if p < 0x800 then [0xC0 + p / 64, Continuation(p)]
    else if p < 0x1_0000 then [0xE0 + p / 64 / 64, Continuation(p / 64), Continuation(p)]
    else [0xF0 + p / 64 / 64 / 64, Continuation(p / 64 / 64), Continuation(p / 64), Continuation(p)]
  }

  function Utf8(t: Text): seq<Byte> {
    if |t| == 0 then [] else Encode(Head(t)) + Utf8(t[HeadUnits(t)..])
  }

  /** The length announced by the first byte, and the code point read from that many bytes. */
  function SequenceLength(b: seq<Byte>): nat {
    if |b| == 0 || b[0] < 0x80 then 1 else if b[0] < 0xE0 then 2 else if b[0] < 0xF0 then 3 else 4
  }

  function Shift(x: int, b: int): int {
    x * 64 + b % 64
  }

  function Decode(b: seq<Byte>): int
    requires 0 < SequenceLength(b) <= |b|
  {
    var first: int := b[0];
    if first < 0x80 then first
    else if first < 0xE0 then Shift(first - 0xC0, b[1])
    else if first < 0xF0 then Shift(Shift(first - 0xE0, b[1]), b[2])
    else Shift(Shift(Shift(first - 0xF0, b[1]), b[2]), b[3])
  }

  lemma EncodeReads(p: int, rest: seq<Byte>)
    requires 0 <= p < 0x11_0000
    ensures SequenceLength(Encode(p) + rest) == |Encode(p)| && Decode(Encode(p) + rest) == p
  {
    var b := Encode(p) + rest;
    assert forall i :: 0 <= i < |Encode(p)| ==> b[i] == Encode(p)[i];
    Digits64(p);
    Digits64(p / 64);
    Digits64(p / 64 / 64);
  }

  lemma Digits64(x: int)
    requires x >= 0
    ensures Shift(x / 64, Continuation(x)) == x && x / 64 >= 0
  {
  }

  lemma SameEncodings(p: int, r: seq<Byte>, q: int, s: seq<Byte>)
    requires 0 <= p < 0x11_0000 && 0 <= q < 0x11_0000 && Encode(p) + r == Encode(q) + s
    ensures p == q && r == s
  {
    EncodeReads(p, r);
    EncodeReads(q, s);
    assert r == (Encode(p) + r)[|Encode(p)|..] && s == (Encode(q) + s)[|Encode(q)|..];
  }

  /** The bytes determine a text in which every surrogate has its partner. */
  lemma {:induction false} Utf8Reads(t: Text, u: Text)
    requires Paired(t) && Paired(u) && Utf8(t) == Utf8(u)
    ensures t == u
    decreases |t|
  {
    if |t| > 0 && |u| > 0 {
      PairedTail(t);
      PairedTail(u);
      var m, n := HeadUnits(t), HeadUnits(u);
      SameEncodings(Head(t), Utf8(t[m..]), Head(u), Utf8(u[n..]));
      HeadReads(t, u);
      Utf8Reads(t[m..], u[n..]);
      assert t == t[..m] + t[m..] && u == u[..n] + u[n..];
    }
  }

  lemma PairedConcat(a: Text, b: Text)
    requires Paired(a) && Paired(b)
    ensures Paired(a + b)
  {
    var t := a + b;
    forall i | 0 <= i < |t| && Lead(t[i]) ensures i + 1 < |t| && Trail(t[i + 1]) {
      if i < |a| { assert Trail(a[i + 1]); } else { assert Trail(b[i - |a| + 1]); }
    }
    forall i | 0 <= i < |t| && Trail(t[i]) ensures i > 0 && Lead(t[i - 1]) {
      if i < |a| { assert Lead(a[i - 1]); } else { assert Lead(b[i - |a| - 1]); }
    }
  }

  /** The units of the first code point, once a lone surrogate is replaced. */
  function HeadText(t: Text): Text
    requires |t| > 0
  {
    if StartsWithPair(t) then t[..2] else if Lead(t[0]) || Trail(t[0]) then [REPLACEMENT] else [t[0]]
  }

  /** The text with every surrogate that has no partner replaced. */
  function Repaired(t: Text): Text {
    if |t| == 0 then [] else HeadText(t) + Repaired(t[HeadUnits(t)..])
  }

  lemma {:induction false} RepairedIsPaired(t: Text)
    ensures Paired(Repaired(t))
  {
    if |t| > 0 {
      RepairedIsPaired(t[HeadUnits(t)..]);
      PairedConcat(HeadText(t), Repaired(t[HeadUnits(t)..]));
    }
  }

  lemma {:induction false} RepairedSameBytes(t: Text)
    ensures Utf8(Repaired(t)) == Utf8(t)
  {
    if |t| > 0 {
      var rest := Repaired(t[HeadUnits(t)..]);
      RepairedSameBytes(t[HeadUnits(t)..]);
      var r := HeadText(t) + rest;
      assert HeadUnits(r) == |HeadText(t)| && Head(r) == Head(t);
      assert r[HeadUnits(r)..] == rest;
    }
  }

  /** Two texts have the same bytes exactly when they differ only in surrogates without a partner. */
  lemma {:induction false} SameBytesIff(t: Text, u: Text)
    ensures Utf8(t) == Utf8(u) <==> Repaired(t) == Repaired(u)
  {
    RepairedSameBytes(t);
    RepairedSameBytes(u);
    RepairedIsPaired(t);
    RepairedIsPaired(u);
    if Utf8(t) == Utf8(u) { Utf8Reads(Repaired(t), Repaired(u)); }
  }

  // ---- The canonical text has neither lone surrogates nor control units ----

  predicate NoControls(t: Text) {
    forall i :: 0 <= i < |t| ==> t[i] >= 32
  }

  predicate Clean(t: Text) {
    Paired(t) && NoControls(t)
  }

  lemma CleanConcat(a: Text, b: Text)
    requires Clean(a) && Clean(b)
    ensures Clean(a + b)
  {
    PairedConcat(a, b);
  }

  lemma PairIsPlain(s: Text, i: nat)
    requires i + 1 < |s| && Lead(s[i]) && Trail(s[i + 1])
    ensures Chunk(s, i) == [s[i]] && Chunk(s, i + 1) == [s[i + 1]] && Clean([s[i], s[i + 1]])
  {
  }

  lemma PlainIsClean(c: Unit)
    requires c >= 32 && !Lead(c) && !Trail(c)
    ensures Clean([c])
  {
  }

  lemma EscapeIsClean(c: Unit)
    ensures Clean(UnicodeEscape(c))
    ensures ShortEscape(c).Some? ==> Clean([BACKSLASH, ShortEscape(c).value])
  {
    var t := UnicodeEscape(c);
    assert forall d :: 0 <= d < 16 ==> 48 <= Hex(d) <= 102;
    assert forall k :: 0 <= k < 6 ==> 48 <= t[k] <= 117;
  }

  lemma SingleIsClean(s: Text, i: nat)
    requires i < |s| && !(i > 0 && Lead(s[i - 1]) && Trail(s[i])) && !(i + 1 < |s| && Lead(s[i]) && Trail(s[i + 1]))
    ensures Clean(Chunk(s, i))
  {
    EscapeIsClean(s[i]);
    if s[i] >= 32 && !Lone(s, i) { PlainIsClean(s[i]); }
  }

  /** From any unit that is not the second half of a pair on, the escaped string is clean. */
  lemma {:induction false} EscapedIsClean(s: Text, i: nat)
    requires i <= |s| && !(0 < i < |s| && Lead(s[i - 1]) && Trail(s[i]))
    ensures Clean(Escaped(s, i))
    decreases |s| - i
  {
    if i < |s| {
      if i + 1 < |s| && Lead(s[i]) && Trail(s[i + 1]) {
        EscapedIsClean(s, i + 2);
        PairIsPlain(s, i);
        CleanConcat([s[i], s[i + 1]], Escaped(s, i + 2));
        assert Escaped(s, i) == [s[i]] + ([s[i + 1]] + Escaped(s, i + 2)) == [s[i], s[i + 1]] + Escaped(s, i + 2);
      } else {
        EscapedIsClean(s, i + 1);
        SingleIsClean(s, i);
        CleanConcat(Chunk(s, i), Escaped(s, i + 1));
      }
    }
  }

  lemma QuotedIsClean(s: Text)
    ensures Clean(Quoted(s))
  {
    EscapedIsClean(s, 0);
    BracketedIsClean(QUOTE, Escaped(s, 0), QUOTE);
  }

  lemma BracketedIsClean(open: Unit, t: Text, close: Unit)
    requires Clean(t) && 32 <= open < 0xD800 && 32 <= close < 0xD800
    ensures Clean([open] + t + [close])
  {
    CleanConcat([open], t);
    CleanConcat([open] + t, [close]);
  }

  lemma WordIsClean(t: Text)
    requires NumberText(t) || t == NULL_TEXT || t == TRUE_TEXT || t == FALSE_TEXT
    ensures Clean(t)
  {
    assert forall i :: 0 <= i < |t| ==> 32 <= t[i] < 0xD800;
  }

  lemma {:induction false} CanonIsClean(v: Value)
    requires WellFormed(v)
    ensures Clean(Canon(v))
    decreases v
  {
    match v
    case Str(s) => QuotedIsClean(s);
    case Arr(items) =>
      ElementsAreClean(v, 0);
      BracketedIsClean(OPEN_ARRAY, Elements(v, 0), CLOSE_ARRAY);
    case Obj(ms) =>
      FieldsAreClean(v, SortedMembers(ms), 0);
      BracketedIsClean(OPEN_OBJECT, Fields(v, SortedMembers(ms), 0), CLOSE_OBJECT);
    case _ =>
      WordIsClean(Canon(v));
  }

  lemma {:induction false} ElementsAreClean(v: Value, i: nat)
    requires v.Arr? && WellFormed(v) && i <= |v.items|
    ensures Clean(Elements(v, i))
    decreases v, |v.items| - i
  {
    if i < |v.items| {
      CanonIsClean(v.items[i]);
      ElementsAreClean(v, i + 1);
      CleanConcat(Separator(i), Canon(v.items[i]));
      CleanConcat(Separator(i) + Canon(v.items[i]), Elements(v, i + 1));
    }
  }

  lemma {:induction false} FieldsAreClean(v: Value, ms: seq<Member>, i: nat)
    requires FieldsIn(v, ms) && WellFormed(v) && i <= |ms|
    ensures Clean(Fields(v, ms, i))
    decreases v, |ms| - i
  {
    if i < |ms| {
      MemberIsWellFormed(v, ms, i);
      QuotedIsClean(ms[i].key);
      CanonIsClean(ms[i].value.value);
      FieldsAreClean(v, ms, i + 1);
      CleanConcat(Separator(i), Quoted(ms[i].key));
      CleanConcat(Separator(i) + Quoted(ms[i].key), [COLON]);
      CleanConcat(Separator(i) + Quoted(ms[i].key) + [COLON], Canon(ms[i].value.value));
      CleanConcat(Separator(i) + Quoted(ms[i].key) + [COLON] + Canon(ms[i].value.value), Fields(v, ms, i + 1));
    }
  }

  /** The bytes that are hashed are equal exactly when the values mean the same. */
  lemma {:induction false} HashedBytesIff(v: Value, w: Value)
    requires WellFormed(v) && WellFormed(w)
    ensures Utf8(Canon(v)) == Utf8(Canon(w)) <==> MeaningOf(v) == MeaningOf(w)
  {
    CanonIsClean(v);
    CanonIsClean(w);
    CanonicalIff(v, w);
    if Utf8(Canon(v)) == Utf8(Canon(w)) { Utf8Reads(Canon(v), Canon(w)); }
  }
}
