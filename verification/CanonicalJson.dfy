/**
 The canonical text of a JSON value. It does not depend on the order of object keys or on members
 that are undefined, and it determines everything else about the value, so equal checksums of the
 text stand for equal values. Text is a sequence of UTF-16 code units; a number is identified with
 the text in which it is written.
 */
module CanonicalJson {
  import opened Common

  type Unit = x: int | 0 <= x < 0x1_0000 witness 0

  type Text = seq<Unit>

  datatype Value =
    | Null
    | Bool(b: bool)
    | Number(text: Text)
    | Str(s: Text)
    | Arr(items: seq<Value>)
    | Obj(members: seq<Member>)

  /** An object member in insertion order; an undefined member has no value. */
  datatype Member = Member(key: Text, value: Option<Value>)

  const QUOTE: Unit := 34
  const COMMA: Unit := 44
  const COLON: Unit := 58
  const OPEN_ARRAY: Unit := 91
  const BACKSLASH: Unit := 92
  const CLOSE_ARRAY: Unit := 93
  const LETTER_U: Unit := 117
  const OPEN_OBJECT: Unit := 123
  const CLOSE_OBJECT: Unit := 125

  // ---- Which values there are ----

  predicate Digit(c: Unit) {
    48 <= c <= 57
  }

  /** Digits, sign, point and exponent: the units a number is written with. */
  predicate NumberUnit(c: Unit) {
    Digit(c) || c == 43 || c == 45 || c == 46 || c == 101
  }

  predicate NumberText(t: Text) {
    |t| > 0 && (Digit(t[0]) || t[0] == 45) && forall i :: 0 <= i < |t| ==> NumberUnit(t[i])
  }

  predicate DistinctKeys(ms: seq<Member>) {
    forall i, j :: 0 <= i < j < |ms| ==> ms[i].key != ms[j].key
  }

  predicate WellFormed(v: Value)
    decreases v
  {
    match v
    case Number(t) => NumberText(t)
    case Arr(items) => forall i :: 0 <= i < |items| ==> WellFormed(items[i])
    case Obj(ms) => DistinctKeys(ms) && forall i :: 0 <= i < |ms| && ms[i].value.Some? ==> WellFormed(ms[i].value.value)
    case _ => true
  }

  // ---- Strings ----

  predicate High(c: Unit) {
    0xD800 <= c < 0xDC00
  }

  predicate Low(c: Unit) {
    0xDC00 <= c < 0xE000
  }

  /** A surrogate without its partner. */
  predicate Lone(s: Text, i: nat)
    requires i < |s|
  {
    || (High(s[i]) && !(i + 1 < |s| && Low(s[i + 1])))
    || (Low(s[i]) && !(i > 0 && High(s[i - 1])))
  }

  function Hex(d: int): Unit
    requires 0 <= d < 16
  {
    if d < 10 then 48 + d else 87 + d
  }

  function HexValue(c: Unit): int {
    if c < 58 then c - 48 else c - 87
  }

  function UnicodeEscape(c: Unit): (t: Text)
    ensures |t| == 6
  {
    [BACKSLASH, LETTER_U, Hex(c / 4096), Hex(c / 256 % 16), Hex(c / 16 % 16), Hex(c % 16)]
  }

  /** The letter of a two-unit escape, if the unit has one. */
  function ShortEscape(c: Unit): Option<Unit> {
    if c == 8 then Some(98)
    else if c == 9 then Some(116)
    else if c == 10 then Some(110)
    else if c == 12 then Some(102)
    else if c == 13 then Some(114)
    else if c == QUOTE then Some(QUOTE)
    else if c == BACKSLASH then Some(BACKSLASH)
    else None
  }

  /** How one unit of a string is written. */
  function Chunk(s: Text, i: nat): (t: Text)
    requires i < |s|
    ensures |t| > 0 && t[0] != QUOTE
  {
    if ShortEscape(s[i]).Some? then [BACKSLASH, ShortEscape(s[i]).value]
    else if s[i] < 32 || Lone(s, i) then UnicodeEscape(s[i])
    else [s[i]]
  }

  function Escaped(s: Text, i: nat): Text
    requires i <= |s|
    decreases |s| - i
  {
    if i == |s| then [] else Chunk(s, i) + Escaped(s, i + 1)
  }

  function Quoted(s: Text): Text {
    [QUOTE] + Escaped(s, 0) + [QUOTE]
  }

  /** How many units of the text one written unit takes, and which unit it stands for. */
  function ReadLength(t: Text): nat {
    if |t| > 0 && t[0] != BACKSLASH then 1
    else if |t| > 1 && t[1] == LETTER_U then 6
    else 2
  }

  function ReadUnit(t: Text): int {
    if |t| > 0 && t[0] != BACKSLASH then t[0]
    else if |t| < 2 then 0
    else if t[1] != LETTER_U then LongForm(t[1])
    else if |t| < 6 then 0
    else ((HexValue(t[2]) * 16 + HexValue(t[3])) * 16 + HexValue(t[4])) * 16 + HexValue(t[5])
  }

  function LongForm(c: Unit): int {
    if c == 98 then 8 else if c == 116 then 9 else if c == 110 then 10 else if c == 102 then 12 else if c == 114 then 13
    else c as int
  }

  lemma HexDigits(c: Unit)
    ensures var t := UnicodeEscape(c);
            ((HexValue(t[2]) * 16 + HexValue(t[3])) * 16 + HexValue(t[4])) * 16 + HexValue(t[5]) == c
  {
    var x := c / 16;
    var y := x / 16;
    assert c / 256 == y && c / 4096 == y / 16;
    assert c == x * 16 + c % 16 && x == y * 16 + x % 16 && y == y / 16 * 16 + y % 16;
  }

  /** One written unit can be read back whatever follows it. */
  lemma ChunkReads(s: Text, i: nat, rest: Text)
    requires i < |s|
    ensures ReadLength(Chunk(s, i) + rest) == |Chunk(s, i)| && ReadUnit(Chunk(s, i) + rest) == s[i]
  {
    var chunk := Chunk(s, i);
    var t := chunk + rest;
    assert forall k :: 0 <= k < |chunk| ==> t[k] == chunk[k];
    HexDigits(s[i]);
  }

  lemma SameChunks(s: Text, i: nat, r: Text, t: Text, j: nat, q: Text)
    requires i < |s| && j < |t| && Chunk(s, i) + r == Chunk(t, j) + q
    ensures s[i] == t[j] && r == q
  {
    ChunkReads(s, i, r);
    ChunkReads(t, j, q);
    assert r == (Chunk(s, i) + r)[|Chunk(s, i)|..] && q == (Chunk(t, j) + q)[|Chunk(t, j)|..];
  }

  /** The text of a string from unit i on, with its closing quote and what follows. */
  function Closed(s: Text, i: nat, r: Text): Text
    requires i <= |s|
  {
    Escaped(s, i) + [QUOTE] + r
  }

  lemma ClosedUnfold(s: Text, i: nat, r: Text)
    requires i <= |s|
    ensures |Closed(s, i, r)| > 0 && (Closed(s, i, r)[0] == QUOTE <==> i == |s|)
    ensures i < |s| ==> Closed(s, i, r) == Chunk(s, i) + Closed(s, i + 1, r)
    ensures i == |s| ==> Closed(s, i, r)[1..] == r
  {
    if i < |s| { assert Closed(s, i, r) == Chunk(s, i) + Closed(s, i + 1, r); }
  }

  lemma {:induction false} EscapedReads(s: Text, i: nat, r: Text, t: Text, j: nat, q: Text)
    requires i <= |s| && j <= |t| && Closed(s, i, r) == Closed(t, j, q)
    ensures s[i..] == t[j..] && r == q
    decreases |s| - i
  {
    ClosedUnfold(s, i, r);
    ClosedUnfold(t, j, q);
    if i < |s| {
      SameChunks(s, i, Closed(s, i + 1, r), t, j, Closed(t, j + 1, q));
      EscapedReads(s, i + 1, r, t, j + 1, q);
      assert s[i..] == [s[i]] + s[i + 1..] && t[j..] == [t[j]] + t[j + 1..];
    }
  }

  /** Two quoted strings that agree with what follows are the same string. */
  lemma QuotedReads(s: Text, r: Text, t: Text, q: Text)
    requires Quoted(s) + r == Quoted(t) + q
    ensures s == t && r == q
  {
    assert (Quoted(s) + r)[1..] == Closed(s, 0, r);
    assert (Quoted(t) + q)[1..] == Closed(t, 0, q);
    EscapedReads(s, 0, r, t, 0, q);
  }

  // ---- Key order ----

  /** The order of strings by code units. */
  predicate Less(a: Text, b: Text)
    decreases |a|
  {
    if |b| == 0 then false
    else if |a| == 0 then true
    else a[0] < b[0] || (a[0] == b[0] && Less(a[1..], b[1..]))
  }

  lemma {:induction false} LessTotal(a: Text, b: Text)
    ensures a != b ==> Less(a, b) || Less(b, a)
    ensures !(Less(a, b) && Less(b, a)) && !Less(a, a)
    decreases |a|
  {
    if |a| > 0 && |b| > 0 {
      LessTotal(a[1..], b[1..]);
      LessTotal(a[1..], a[1..]);
      assert a == [a[0]] + a[1..] && b == [b[0]] + b[1..];
    } else if |a| > 0 {
      LessTotal(a[1..], a[1..]);
    }
  }

  lemma {:induction false} LessTransitive(a: Text, b: Text, c: Text)
    requires Less(a, b) && Less(b, c)
    ensures Less(a, c)
    decreases |a|
  {
    if |a| > 0 && a[0] == b[0] && b[0] == c[0] { LessTransitive(a[1..], b[1..], c[1..]); }
  }

  predicate KeySorted(ms: seq<Member>) {
    forall i, j :: 0 <= i < j < |ms| ==> Less(ms[i].key, ms[j].key)
  }

  /** The defined members, inserted one by one into key order. */
  function Insert(ms: seq<Member>, m: Member): (r: seq<Member>)
    ensures forall x :: x in r <==> x == m || x in ms
  {
    if |ms| == 0 || Less(m.key, ms[0].key) then [m] + ms else [ms[0]] + Insert(ms[1..], m)
  }

  function SortedMembers(ms: seq<Member>): (r: seq<Member>)
    ensures forall x :: x in r <==> x in ms && x.value.Some?
  {
    if |ms| == 0 then []
    else
      var last := |ms| - 1;
      var before := SortedMembers(ms[..last]);
      if ms[last].value.Some? then Insert(before, ms[last]) else before
  }

  lemma {:induction false} InsertSorts(ms: seq<Member>, m: Member)
    requires KeySorted(ms) && forall i :: 0 <= i < |ms| ==> ms[i].key != m.key
    ensures KeySorted(Insert(ms, m))
  {
    if |ms| > 0 {
      var r := Insert(ms, m);
      LessTotal(m.key, ms[0].key);
      if Less(m.key, ms[0].key) {
        forall j | 0 < j < |r| ensures Less(r[0].key, r[j].key) {
          if j > 1 { LessTransitive(m.key, ms[0].key, ms[j - 1].key); }
        }
      } else {
        InsertSorts(ms[1..], m);
        forall j | 0 < j < |r| ensures Less(r[0].key, r[j].key) {
          assert r[j] in Insert(ms[1..], m);
        }
      }
    }
  }

  lemma {:induction false} SortedMembersSorted(ms: seq<Member>)
    requires DistinctKeys(ms)
    ensures KeySorted(SortedMembers(ms))
  {
    if |ms| > 0 {
      var last := |ms| - 1;
      SortedMembersSorted(ms[..last]);
      var before := SortedMembers(ms[..last]);
      if ms[last].value.Some? {
        forall i | 0 <= i < |before| ensures before[i].key != ms[last].key {
          assert before[i] in ms[..last];
        }
        InsertSorts(before, ms[last]);
      }
    }
  }

  // ---- Canonical text ----

  const NULL_TEXT: Text := [110, 117, 108, 108]
  const TRUE_TEXT: Text := [116, 114, 117, 101]
  const FALSE_TEXT: Text := [102, 97, 108, 115, 101]

  function Separator(i: nat): Text {
    if i == 0 then [] else [COMMA]
  }

  function Canon(v: Value): Text
    decreases v
  {
    match v
    case Null => NULL_TEXT
    case Bool(b) => if b then TRUE_TEXT else FALSE_TEXT
    case Number(t) => t
    case Str(s) => Quoted(s)
    case Arr(items) => [OPEN_ARRAY] + Elements(v, 0) + [CLOSE_ARRAY]
    case Obj(ms) => [OPEN_OBJECT] + Fields(v, SortedMembers(ms), 0) + [CLOSE_OBJECT]
  }

  function Elements(v: Value, i: nat): Text
    requires v.Arr? && i <= |v.items|
    decreases v, |v.items| - i
  {
    if i == |v.items| then [] else Separator(i) + Canon(v.items[i]) + Elements(v, i + 1)
  }

  function Fields(v: Value, ms: seq<Member>, i: nat): Text
    requires v.Obj? && i <= |ms| && forall k :: 0 <= k < |ms| ==> ms[k] in v.members && ms[k].value.Some?
    decreases v, |ms| - i
  {
    if i == |ms| then []
    else Separator(i) + Quoted(ms[i].key) + [COLON] + Canon(ms[i].value.value) + Fields(v, ms, i + 1)
  }

  // ---- What a value means ----

  /** A value with its objects as maps: no order of keys, no undefined members. */
  datatype Meaning =
    | MNull
    | MBool(b: bool)
    | MNumber(text: Text)
    | MStr(s: Text)
    | MArr(items: seq<Meaning>)
    | MObj(fields: map<Text, Meaning>)

  function KeysOf(ms: seq<Member>): set<Text> {
    set m | m in ms && m.value.Some? :: m.key
  }

  function ValueAt(ms: seq<Member>, key: Text): (v: Value)
    requires key in KeysOf(ms)
    ensures Member(key, Some(v)) in ms
  {
    if ms[|ms| - 1].key == key && ms[|ms| - 1].value.Some? then ms[|ms| - 1].value.value
    else
      assert exists m :: m in ms[..|ms| - 1] && m.value.Some? && m.key == key by {
        var m :| m in ms && m.value.Some? && m.key == key;
        assert m in ms[..|ms| - 1];
      }
      ValueAt(ms[..|ms| - 1], key)
  }

  function MeaningOf(v: Value): Meaning
    decreases v
  {
    match v
    case Null => MNull
    case Bool(b) => MBool(b)
    case Number(t) => MNumber(t)
    case Str(s) => MStr(s)
    case Arr(items) => MArr(seq(|items|, i requires 0 <= i < |items| => MeaningOf(items[i])))
    case Obj(ms) =>
      MObj(map key | key in KeysOf(ms) ::
             var x := ValueAt(ms, key);
             assert Member(key, Some(x)) in ms;
             MeaningOf(x))
  }

  // ---- The text determines the meaning ----

  /** What can follow a value: nothing, a comma, or a closing bracket. */
  predicate Delimited(r: Text) {
    |r| == 0 || r[0] == COMMA || r[0] == CLOSE_ARRAY || r[0] == CLOSE_OBJECT
  }

  lemma {:induction false} FirstUnit(v: Value)
    requires WellFormed(v)
    ensures |Canon(v)| > 0
    ensures v.Null? <==> Canon(v)[0] == 110
    ensures v.Bool? && v.b <==> Canon(v)[0] == 116
    ensures v.Bool? && !v.b <==> Canon(v)[0] == 102
    ensures v.Number? <==> Digit(Canon(v)[0]) || Canon(v)[0] == 45
    ensures v.Str? <==> Canon(v)[0] == QUOTE
    ensures v.Arr? <==> Canon(v)[0] == OPEN_ARRAY
    ensures v.Obj? <==> Canon(v)[0] == OPEN_OBJECT
  {
  }

  lemma NumberReads(t: Text, r: Text, u: Text, q: Text)
    requires NumberText(t) && NumberText(u) && Delimited(r) && Delimited(q) && t + r == u + q
    ensures t == u && r == q
  {
    NumberNotLonger(t, r, u, q);
    NumberNotLonger(u, q, t, r);
    assert t == (t + r)[..|t|] && u == (u + q)[..|u|];
    assert r == (t + r)[|t|..] && q == (u + q)[|u|..];
  }

  lemma NumberNotLonger(t: Text, r: Text, u: Text, q: Text)
    requires NumberText(t) && NumberText(u) && Delimited(r) && t + r == u + q
    ensures |u| <= |t|
  {
    assert forall k :: 0 <= k < |u| ==> NumberUnit((u + q)[k]);
    assert |t| < |t + r| ==> !NumberUnit((t + r)[|t|]);
  }

  lemma SamePrefix(p: Text, r: Text, q: Text)
    requires p + r == p + q
    ensures r == q
  {
    assert r == (p + r)[|p|..] && q == (p + q)[|p|..];
  }

  /** The elements from i on, with the closing bracket and what follows. */
  function ArrayTail(v: Value, i: nat, r: Text): Text
    requires v.Arr? && i <= |v.items|
  {
    Elements(v, i) + [CLOSE_ARRAY] + r
  }

  lemma {:induction false} ArrayTailUnfold(v: Value, i: nat, r: Text)
    requires v.Arr? && WellFormed(v) && i <= |v.items|
    ensures |ArrayTail(v, i, r)| > 0 && (ArrayTail(v, i, r)[0] == CLOSE_ARRAY <==> i == |v.items|)
    ensures i > 0 ==> Delimited(ArrayTail(v, i, r))
    ensures i < |v.items| ==> ArrayTail(v, i, r) == Separator(i) + (Canon(v.items[i]) + ArrayTail(v, i + 1, r))
    ensures i == |v.items| ==> ArrayTail(v, i, r)[1..] == r
  {
    if i < |v.items| {
      FirstUnit(v.items[i]);
      assert ArrayTail(v, i, r) == Separator(i) + (Canon(v.items[i]) + ArrayTail(v, i + 1, r));
    }
  }

  /** Defined members of an object, in the order in which they are printed. */
  predicate FieldsIn(v: Value, ms: seq<Member>) {
    v.Obj? && forall k :: 0 <= k < |ms| ==> ms[k] in v.members && ms[k].value.Some?
  }

  /** The fields from i on, with the closing brace and what follows. */
  function ObjectTail(v: Value, ms: seq<Member>, i: nat, r: Text): Text
    requires FieldsIn(v, ms) && i <= |ms|
  {
    Fields(v, ms, i) + [CLOSE_OBJECT] + r
  }

  function FieldText(key: Text, value: Text, rest: Text): Text {
    Quoted(key) + ([COLON] + (value + rest))
  }

  lemma FieldAppend(sep: Text, key: Text, value: Text, more: Text, r: Text)
    ensures sep + Quoted(key) + [COLON] + value + more + [CLOSE_OBJECT] + r == sep + FieldText(key, value, more + [CLOSE_OBJECT] + r)
  {
  }

  lemma ObjectTailUnfold(v: Value, ms: seq<Member>, i: nat, r: Text)
    requires FieldsIn(v, ms) && i <= |ms|
    ensures |ObjectTail(v, ms, i, r)| > 0 && (ObjectTail(v, ms, i, r)[0] == CLOSE_OBJECT <==> i == |ms|)
    ensures i > 0 ==> Delimited(ObjectTail(v, ms, i, r))
    ensures i < |ms| ==>
              ObjectTail(v, ms, i, r)
              == Separator(i) + FieldText(ms[i].key, Canon(ms[i].value.value), ObjectTail(v, ms, i + 1, r))
    ensures i == |ms| ==> ObjectTail(v, ms, i, r)[1..] == r
  {
    if i < |ms| {
      FieldAppend(Separator(i), ms[i].key, Canon(ms[i].value.value), Fields(v, ms, i + 1), r);
    }
  }

  lemma FieldTextReads(key: Text, value: Text, rest: Text, key2: Text, value2: Text, rest2: Text)
    requires FieldText(key, value, rest) == FieldText(key2, value2, rest2)
    ensures key == key2 && value + rest == value2 + rest2
  {
    QuotedReads(key, [COLON] + (value + rest), key2, [COLON] + (value2 + rest2));
    SamePrefix([COLON], value + rest, value2 + rest2);
  }

  lemma {:induction false} OpenArray(v: Value, r: Text)
    requires v.Arr?
    ensures Canon(v) + r == [OPEN_ARRAY] + ArrayTail(v, 0, r)
  {
  }

  lemma {:induction false} OpenObject(v: Value, ms: seq<Member>, r: Text)
    requires v.Obj? && ms == SortedMembers(v.members)
    ensures FieldsIn(v, ms) && Canon(v) + r == [OPEN_OBJECT] + ObjectTail(v, ms, 0, r)
  {
    assert forall k :: 0 <= k < |ms| ==> ms[k] in ms;
  }

  /** Texts of two values agree only if the values are of one kind. */
  lemma {:induction false} SameKind(v: Value, r: Text, w: Value, q: Text)
    requires WellFormed(v) && WellFormed(w) && Canon(v) + r == Canon(w) + q
    ensures v.Null? == w.Null? && v.Bool? == w.Bool? && v.Number? == w.Number? && v.Str? == w.Str?
    ensures v.Arr? == w.Arr? && v.Obj? == w.Obj? && (v.Bool? ==> v.b == w.b)
  {
    FirstUnit(v);
    FirstUnit(w);
    assert (Canon(v) + r)[0] == Canon(v)[0] && (Canon(w) + q)[0] == Canon(w)[0];
  }

  /** Two values whose texts agree, with what follows, mean the same. */
  lemma {:induction false} CanonReads(v: Value, r: Text, w: Value, q: Text)
    requires WellFormed(v) && WellFormed(w) && Delimited(r) && Delimited(q) && Canon(v) + r == Canon(w) + q
    ensures MeaningOf(v) == MeaningOf(w) && r == q
    decreases v, 2, 0
  {
    SameKind(v, r, w, q);
    match v
    case Null => SamePrefix(NULL_TEXT, r, q);
    case Bool(b) => SamePrefix(Canon(v), r, q);
    case Number(t) => NumberReads(t, r, w.text, q);
    case Str(s) => QuotedReads(s, r, w.s, q);
    case Arr(items) => ArrayReads(v, r, w, q);
    case Obj(ms) => ObjectReads(v, r, w, q);
  }

  lemma {:induction false} ArrayReads(v: Value, r: Text, w: Value, q: Text)
    requires v.Arr? && w.Arr? && WellFormed(v) && WellFormed(w) && Delimited(r) && Delimited(q) && Canon(v) + r == Canon(w) + q
    ensures MeaningOf(v) == MeaningOf(w) && r == q
    decreases v, 1, 0
  {
    OpenArray(v, r);
    OpenArray(w, q);
    SamePrefix([OPEN_ARRAY], ArrayTail(v, 0, r), ArrayTail(w, 0, q));
    ElementsRead(v, r, w, q, 0);
  }

  lemma {:induction false} ObjectReads(v: Value, r: Text, w: Value, q: Text)
    requires v.Obj? && w.Obj? && WellFormed(v) && WellFormed(w) && Delimited(r) && Delimited(q) && Canon(v) + r == Canon(w) + q
    ensures MeaningOf(v) == MeaningOf(w) && r == q
    decreases v, 1, 0
  {
    var a, b := SortedMembers(v.members), SortedMembers(w.members);
    OpenObject(v, a, r);
    OpenObject(w, b, q);
    SamePrefix([OPEN_OBJECT], ObjectTail(v, a, 0, r), ObjectTail(w, b, 0, q));
    FieldsRead(v, a, r, w, b, q, 0);
    SameFieldsSameMeaning(v, a, w, b);
  }

  /** Both lists of elements end together, or go on with elements whose texts agree. */
  lemma {:induction false} ElementStep(v: Value, r: Text, w: Value, q: Text, i: nat)
    requires v.Arr? && w.Arr? && WellFormed(v) && WellFormed(w)
    requires i <= |v.items| && i <= |w.items| && ArrayTail(v, i, r) == ArrayTail(w, i, q)
    ensures i == |v.items| <==> i == |w.items|
    ensures i == |v.items| ==> r == q
    ensures i < |v.items| ==>
              && Canon(v.items[i]) + ArrayTail(v, i + 1, r) == Canon(w.items[i]) + ArrayTail(w, i + 1, q)
              && Delimited(ArrayTail(v, i + 1, r)) && Delimited(ArrayTail(w, i + 1, q))
  {
    ArrayTailUnfold(v, i, r);
    ArrayTailUnfold(w, i, q);
    if i < |v.items| {
      ArrayTailUnfold(v, i + 1, r);
      ArrayTailUnfold(w, i + 1, q);
      SamePrefix(Separator(i), Canon(v.items[i]) + ArrayTail(v, i + 1, r), Canon(w.items[i]) + ArrayTail(w, i + 1, q));
    }
  }

  predicate SameItem(v: Value, w: Value) {
    MeaningOf(v) == MeaningOf(w)
  }

  lemma {:induction false} ElementsRead(v: Value, r: Text, w: Value, q: Text, i: nat)
    requires v.Arr? && w.Arr? && WellFormed(v) && WellFormed(w) && Delimited(r) && Delimited(q)
    requires i <= |v.items| && i <= |w.items| && ArrayTail(v, i, r) == ArrayTail(w, i, q)
    ensures |v.items| == |w.items| && r == q
    ensures forall k :: i <= k < |v.items| ==> SameItem(v.items[k], w.items[k])
    decreases v, 0, |v.items| - i
  {
    ElementStep(v, r, w, q, i);
    if i < |v.items| {
      CanonReads(v.items[i], ArrayTail(v, i + 1, r), w.items[i], ArrayTail(w, i + 1, q));
      assert SameItem(v.items[i], w.items[i]);
      ElementsRead(v, r, w, q, i + 1);
    }
  }

  predicate SameField(a: Member, b: Member) {
    a.key == b.key && a.value.Some? && b.value.Some? && SameItem(a.value.value, b.value.value)
  }

  lemma FieldStep(v: Value, a: seq<Member>, r: Text, w: Value, b: seq<Member>, q: Text, i: nat)
    requires FieldsIn(v, a) && FieldsIn(w, b)
    requires i <= |a| && i <= |b| && ObjectTail(v, a, i, r) == ObjectTail(w, b, i, q)
    ensures i == |a| <==> i == |b|
    ensures i == |a| ==> r == q
    ensures i < |a| ==>
              && a[i].key == b[i].key
              && Canon(a[i].value.value) + ObjectTail(v, a, i + 1, r) == Canon(b[i].value.value) + ObjectTail(w, b, i + 1, q)
              && Delimited(ObjectTail(v, a, i + 1, r)) && Delimited(ObjectTail(w, b, i + 1, q))
  {
    ObjectTailUnfold(v, a, i, r);
    ObjectTailUnfold(w, b, i, q);
    if i < |a| {
      ObjectTailUnfold(v, a, i + 1, r);
      ObjectTailUnfold(w, b, i + 1, q);
      var restA, restB := ObjectTail(v, a, i + 1, r), ObjectTail(w, b, i + 1, q);
      var x, y := Canon(a[i].value.value), Canon(b[i].value.value);
      SamePrefix(Separator(i), FieldText(a[i].key, x, restA), FieldText(b[i].key, y, restB));
      FieldTextReads(a[i].key, x, restA, b[i].key, y, restB);
    }
  }

  lemma {:induction false} MemberIsWellFormed(v: Value, ms: seq<Member>, i: nat)
    requires FieldsIn(v, ms) && WellFormed(v) && i < |ms|
    ensures WellFormed(ms[i].value.value)
  {
    assert ms[i] in v.members;
  }

  lemma {:induction false} FieldsRead(v: Value, a: seq<Member>, r: Text, w: Value, b: seq<Member>, q: Text, i: nat)
    requires FieldsIn(v, a) && FieldsIn(w, b) && WellFormed(v) && WellFormed(w) && Delimited(r) && Delimited(q)
    requires i <= |a| && i <= |b| && ObjectTail(v, a, i, r) == ObjectTail(w, b, i, q)
    ensures |a| == |b| && r == q
    ensures forall k :: i <= k < |a| ==> SameField(a[k], b[k])
    decreases v, 0, |a| - i
  {
    FieldStep(v, a, r, w, b, q, i);
    if i < |a| {
      MemberIsWellFormed(v, a, i);
      MemberIsWellFormed(w, b, i);
      assert a[i] in v.members;
      CanonReads(a[i].value.value, ObjectTail(v, a, i + 1, r), b[i].value.value, ObjectTail(w, b, i + 1, q));
      assert SameField(a[i], b[i]);
      FieldsRead(v, a, r, w, b, q, i + 1);
    }
  }

  predicate SortedOf(v: Value, ms: seq<Member>) {
    v.Obj? && ms == SortedMembers(v.members)
  }

  /** The field a sorted member stands for. */
  lemma {:induction false} SortedField(v: Value, ms: seq<Member>, i: nat)
    requires SortedOf(v, ms) && WellFormed(v) && i < |ms|
    ensures ms[i].value.Some? && ms[i].key in KeysOf(v.members)
    ensures MeaningOf(v).fields[ms[i].key] == MeaningOf(ms[i].value.value)
  {
    assert ms[i] in ms;
    var x := ValueAt(v.members, ms[i].key);
    assert Member(ms[i].key, Some(x)) in v.members;
    assert Member(ms[i].key, Some(x)) == ms[i];
  }

  lemma KeysAreSortedKeys(v: Value, ms: seq<Member>, key: Text)
    requires SortedOf(v, ms)
    ensures key in KeysOf(v.members) <==> HasKey(ms, key)
  {
    if key in KeysOf(v.members) {
      var m :| m in v.members && m.value.Some? && m.key == key;
      assert m in ms;
    }
    if HasKey(ms, key) {
      var i :| 0 <= i < |ms| && ms[i].key == key;
      assert ms[i] in ms;
    }
  }

  lemma {:induction false} SameFieldsSameMeaning(v: Value, a: seq<Member>, w: Value, b: seq<Member>)
    requires SortedOf(v, a) && SortedOf(w, b) && WellFormed(v) && WellFormed(w) && |a| == |b|
    requires forall k :: 0 <= k < |a| ==> SameField(a[k], b[k])
    ensures MeaningOf(v) == MeaningOf(w)
  {
    var x, y := MeaningOf(v).fields, MeaningOf(w).fields;
    SameFieldsSameKeys(v, a, w, b);
    forall key | key in x ensures x[key] == y[key] {
      KeysAreSortedKeys(v, a, key);
      var i :| 0 <= i < |a| && a[i].key == key;
      SameFieldValue(v, a, w, b, i);
    }
    assert x == y;
  }

  lemma {:induction false} SameFieldsSameKeys(v: Value, a: seq<Member>, w: Value, b: seq<Member>)
    requires SortedOf(v, a) && SortedOf(w, b) && |a| == |b|
    requires forall k :: 0 <= k < |a| ==> a[k].key == b[k].key
    ensures KeysOf(v.members) == KeysOf(w.members)
  {
    forall key ensures key in KeysOf(v.members) <==> key in KeysOf(w.members) {
      KeysAreSortedKeys(v, a, key);
      KeysAreSortedKeys(w, b, key);
      SameKeysOnce(a, b, key);
      SameKeysOnce(b, a, key);
    }
  }

  lemma SameKeysOnce(a: seq<Member>, b: seq<Member>, key: Text)
    requires |a| == |b| && forall k :: 0 <= k < |a| ==> a[k].key == b[k].key
    ensures HasKey(a, key) ==> HasKey(b, key)
  {
    if HasKey(a, key) {
      var i :| 0 <= i < |a| && a[i].key == key;
      assert b[i].key == key;
    }
  }

  lemma {:induction false} SameFieldValue(v: Value, a: seq<Member>, w: Value, b: seq<Member>, i: nat)
    requires SortedOf(v, a) && SortedOf(w, b) && WellFormed(v) && WellFormed(w) && |a| == |b| && i < |a|
    requires SameField(a[i], b[i])
    ensures a[i].key in MeaningOf(v).fields && a[i].key in MeaningOf(w).fields
    ensures MeaningOf(v).fields[a[i].key] == MeaningOf(w).fields[a[i].key]
  {
    SortedField(v, a, i);
    SortedField(w, b, i);
  }

  // ---- The meaning determines the text ----

  lemma {:induction false} SameMeaningSameKind(v: Value, w: Value)
    requires MeaningOf(v) == MeaningOf(w)
    ensures v.Arr? ==> w.Arr? && |v.items| == |w.items|
                       && forall i :: 0 <= i < |v.items| ==> SameItem(v.items[i], w.items[i])
    ensures v.Obj? ==> w.Obj?
    ensures !v.Arr? && !v.Obj? ==> v == w
  {
    if v.Arr? {
      assert |MeaningOf(v).items| == |v.items| && |MeaningOf(w).items| == |w.items|;
      forall i | 0 <= i < |v.items| ensures SameItem(v.items[i], w.items[i]) {
        assert MeaningOf(v).items[i] == MeaningOf(w).items[i];
      }
    }
  }

  lemma {:induction false} SameMeaningSameCanon(v: Value, w: Value)
    requires WellFormed(v) && WellFormed(w) && MeaningOf(v) == MeaningOf(w)
    ensures Canon(v) == Canon(w)
    decreases v, 1, 0
  {
    SameMeaningSameKind(v, w);
    match v
    case Arr(items) => SameElements(v, w, 0);
    case Obj(ms) =>
      var a, b := SortedMembers(ms), SortedMembers(w.members);
      SameSortedFields(v, a, w, b);
      OpenObject(v, a, []);
      OpenObject(w, b, []);
      SameFields(v, a, w, b, 0);
    case _ =>
  }

  lemma {:induction false} SameElements(v: Value, w: Value, i: nat)
    requires v.Arr? && w.Arr? && WellFormed(v) && WellFormed(w) && i <= |v.items| == |w.items|
    requires forall k :: 0 <= k < |v.items| ==> SameItem(v.items[k], w.items[k])
    ensures Elements(v, i) == Elements(w, i)
    decreases v, 0, |v.items| - i
  {
    if i < |v.items| {
      assert SameItem(v.items[i], w.items[i]);
      SameMeaningSameCanon(v.items[i], w.items[i]);
      SameElements(v, w, i + 1);
    }
  }

  lemma {:induction false} SameFieldCanon(v: Value, a: Member, w: Value, b: Member)
    requires v.Obj? && w.Obj? && WellFormed(v) && WellFormed(w) && a in v.members && b in w.members && SameField(a, b)
    ensures a.key == b.key && Canon(a.value.value) == Canon(b.value.value)
    decreases v, 0, 0
  {
    SameMeaningSameCanon(a.value.value, b.value.value);
  }

  lemma {:induction false} SameFields(v: Value, a: seq<Member>, w: Value, b: seq<Member>, i: nat)
    requires FieldsIn(v, a) && FieldsIn(w, b) && WellFormed(v) && WellFormed(w) && i <= |a| == |b|
    requires forall k :: 0 <= k < |a| ==> SameField(a[k], b[k])
    ensures Fields(v, a, i) == Fields(w, b, i)
    decreases v, 0, |a| - i
  {
    if i < |a| {
      SameFieldCanon(v, a[i], w, b[i]);
      SameFields(v, a, w, b, i + 1);
    }
  }

  /** Objects with the same meaning have the same fields in the same order. */
  lemma {:induction false} SameSortedFields(v: Value, a: seq<Member>, w: Value, b: seq<Member>)
    requires SortedOf(v, a) && SortedOf(w, b) && WellFormed(v) && WellFormed(w) && MeaningOf(v) == MeaningOf(w)
    ensures |a| == |b| && forall k :: 0 <= k < |a| ==> SameField(a[k], b[k])
  {
    SortedMembersSorted(v.members);
    SortedMembersSorted(w.members);
    forall key ensures HasKey(a, key) <==> HasKey(b, key) {
      KeysAreSortedKeys(v, a, key);
      KeysAreSortedKeys(w, b, key);
      assert key in MeaningOf(v).fields <==> key in MeaningOf(w).fields;
    }
    SortedKeysUnique(a, b);
    forall k | 0 <= k < |a| ensures SameField(a[k], b[k]) {
      SortedField(v, a, k);
      SortedField(w, b, k);
    }
  }

  predicate HasKey(ms: seq<Member>, key: Text) {
    exists i :: 0 <= i < |ms| && ms[i].key == key
  }

  /** Strictly sorted lists with the same keys list them alike. */
  lemma {:induction false} SortedKeysUnique(a: seq<Member>, b: seq<Member>)
    requires KeySorted(a) && KeySorted(b) && forall key :: HasKey(a, key) <==> HasKey(b, key)
    ensures |a| == |b| && forall k :: 0 <= k < |a| ==> a[k].key == b[k].key
    decreases |a|
  {
    if |a| > 0 && |b| > 0 {
      FirstKeys(a, b);
      forall key ensures HasKey(a[1..], key) <==> HasKey(b[1..], key) {
        TailKeys(a, key);
        TailKeys(b, key);
      }
      SortedKeysUnique(a[1..], b[1..]);
      assert forall k :: 0 < k < |a| ==> a[k] == a[1..][k - 1] && b[k] == b[1..][k - 1];
    } else if |a| > 0 {
      assert HasKey(a, a[0].key);
    } else if |b| > 0 {
      assert HasKey(b, b[0].key);
    }
  }

  lemma FirstKeys(a: seq<Member>, b: seq<Member>)
    requires KeySorted(a) && KeySorted(b) && |a| > 0 && |b| > 0 && forall key :: HasKey(a, key) <==> HasKey(b, key)
    ensures a[0].key == b[0].key
  {
    assert HasKey(a, a[0].key) && HasKey(b, b[0].key);
    var i :| 0 <= i < |b| && b[i].key == a[0].key;
    var j :| 0 <= j < |a| && a[j].key == b[0].key;
    LessTotal(a[0].key, b[0].key);
  }

  lemma TailKeys(ms: seq<Member>, key: Text)
    requires KeySorted(ms) && |ms| > 0
    ensures HasKey(ms[1..], key) <==> HasKey(ms, key) && key != ms[0].key
  {
    if HasKey(ms[1..], key) {
      var i :| 0 <= i < |ms[1..]| && ms[1..][i].key == key;
      assert ms[i + 1].key == key;
      LessTotal(ms[0].key, key);
    }
    if HasKey(ms, key) && key != ms[0].key {
      var i :| 0 <= i < |ms| && ms[i].key == key;
      assert ms[1..][i - 1].key == key;
    }
  }

  /** The canonical text is the same for two values exactly when they mean the same. */
  lemma {:induction false} CanonicalIff(v: Value, w: Value)
    requires WellFormed(v) && WellFormed(w)
    ensures Canon(v) == Canon(w) <==> MeaningOf(v) == MeaningOf(w)
  {
    if Canon(v) == Canon(w) {
      assert Canon(v) + [] == Canon(w) + [];
      CanonReads(v, [], w, []);
    }
    if MeaningOf(v) == MeaningOf(w) { SameMeaningSameCanon(v, w); }
  }
}
