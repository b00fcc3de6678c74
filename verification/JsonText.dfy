/**
 JSON values as ECMAScript sees them, with the text that `JSON.stringify` writes and the reader
 that `JSON.parse` is.

 A string is a sequence of UTF-16 code units. A number is kept as the lexeme that spells it.
 An object lists its members in own-key order: array-index keys first in ascending numeric
 order, then the other keys in the order they were added.
 */
module JsonText {

  type Unit = u: int | 0 <= u < 0x10000
  type Text = seq<Unit>

  datatype Value =
    | Null
    | Bool(b: bool)
    | Num(lexeme: Text)
    | Str(text: Text)
    | Arr(items: Items)
    | Obj(members: Members)

  datatype Items = NoItems | Item(first: Value, others: Items)

  datatype Members = NoMembers | Member(key: Text, value: Value, rest: Members)

  const QUOTE: Unit := 34       // "
  const COMMA: Unit := 44       // ,
  const MINUS: Unit := 45       // -
  const COLON: Unit := 58       // :
  const OPEN_LIST: Unit := 91   // [
  const BACKSLASH: Unit := 92   // \
  const CLOSE_LIST: Unit := 93  // ]
  const OPEN: Unit := 123       // {
  const CLOSE: Unit := 125      // }
  const NULL: Text := [110, 117, 108, 108]
  const TRUE: Text := [116, 114, 117, 101]
  const FALSE: Text := [102, 97, 108, 115, 101]

  predicate IsDigit(u: Unit) { 48 <= u <= 57 }

  // ---------------------------------------------------------------- own-key order

  /** Order of strings by code unit, as `Array.prototype.sort` compares keys. */
  predicate Less(a: Text, b: Text) {
    b != [] && (a == [] || a[0] < b[0] || (a[0] == b[0] && Less(a[1..], b[1..])))
  }

  lemma {:induction false} LessTotal(a: Text, b: Text)
    ensures Less(a, b) || Less(b, a) || a == b
    ensures !(Less(a, b) && Less(b, a))
    ensures !Less(a, a)
  {
    if a != [] && b != [] {
      LessTotal(a[1..], b[1..]);
      LessTotal(a[1..], a[1..]);
      assert a == [a[0]] + a[1..] && b == [b[0]] + b[1..];
    } else if a != [] {
      LessTotal(a[1..], a[1..]);
    }
  }

  lemma {:induction false} LessTransitive(a: Text, b: Text, c: Text)
    requires Less(a, b) && Less(b, c)
    ensures Less(a, c)
  {
    if a != [] && a[0] == b[0] == c[0] {
      LessTransitive(a[1..], b[1..], c[1..]);
    }
  }

  const MAX_INDEX: Text := [52, 50, 57, 52, 57, 54, 55, 50, 57, 52]  // 2^32 - 2

  /** A canonical numeral of an integer from 0 to 2^32 - 2. */
  predicate IsArrayIndex(k: Text) {
    && k != []
    && (forall i :: 0 <= i < |k| ==> IsDigit(k[i]))
    && (k[0] == 48 ==> |k| == 1)
    && (|k| < 10 || (|k| == 10 && !Less(MAX_INDEX, k)))
  }

  /** Canonical numerals compare as numbers: fewer digits first, then digit by digit. */
  predicate NumeralLess(a: Text, b: Text) {
    |a| < |b| || (|a| == |b| && Less(a, b))
  }

  /** Whether key `a` may be listed before key `b` in an object. */
  predicate MayPrecede(a: Text, b: Text) {
    a != b && (IsArrayIndex(b) ==> IsArrayIndex(a) && NumeralLess(a, b))
  }

  predicate PrecedesAll(k: Text, ms: Members) {
    ms.Member? ==> MayPrecede(k, ms.key) && PrecedesAll(k, ms.rest)
  }

  predicate OwnOrder(ms: Members) {
    ms.Member? ==> PrecedesAll(ms.key, ms.rest) && OwnOrder(ms.rest)
  }

  /** Adding or replacing an own property. */
  function Put(ms: Members, k: Text, v: Value): Members {
    match ms
    case NoMembers => Member(k, v, NoMembers)
    case Member(k0, v0, rest) =>
      if k0 == k then Member(k, v, rest)
      else if IsArrayIndex(k) && !(IsArrayIndex(k0) && NumeralLess(k0, k)) then Member(k, v, ms)
      else Member(k0, v0, Put(rest, k, v))
  }

  function Append(a: Members, b: Members): Members {
    match a
    case NoMembers => b
    case Member(k, v, rest) => Member(k, v, Append(rest, b))
  }

  lemma {:induction false} PutAtEnd(ms: Members, k: Text, v: Value, tail: Members)
    requires OwnOrder(Append(ms, Member(k, v, tail)))
    ensures Append(Put(ms, k, v), tail) == Append(ms, Member(k, v, tail))
  {
    if ms.Member? {
      PutAtEnd(ms.rest, k, v, tail);
      PrecedesLater(ms.key, ms.rest, k, v, tail);
    }
  }

  lemma {:induction false} PrecedesLater(k0: Text, ms: Members, k: Text, v: Value, tail: Members)
    requires PrecedesAll(k0, Append(ms, Member(k, v, tail)))
    ensures MayPrecede(k0, k)
  {
    if ms.Member? { PrecedesLater(k0, ms.rest, k, v, tail); }
  }

  // ---------------------------------------------------------------- JSON.stringify

  predicate IsLead(u: Unit) { 0xD800 <= u < 0xDC00 }
  predicate IsTrail(u: Unit) { 0xDC00 <= u < 0xE000 }

  function HexDigit(n: nat): Unit
    requires n < 16
  {
    if n < 10 then 48 + n else 87 + n
  }

  function UnicodeEscape(u: Unit): Text {
    var d3, d2 := u / 16, u / 16 / 16;
    [BACKSLASH, 117, HexDigit(d2 / 16), HexDigit(d2 % 16), HexDigit(d3 % 16), HexDigit(u % 16)]
  }

  /** The two-character escapes of `QuoteJSONString`. */
  function ShortEscape(u: Unit): Unit {
    match u
    case 8 => 98 case 9 => 116 case 10 => 110 case 12 => 102 case 13 => 114 case 34 => 34 case 92 => 92
    case _ => 0
  }

  /** How many code units the next escape of `s` covers: two for a surrogate pair. */
  function HeadLength(s: Text): (n: nat)
    requires s != []
    ensures 1 <= n <= |s| && n <= 2
  {
    if ShortEscape(s[0]) == 0 && IsLead(s[0]) && |s| > 1 && IsTrail(s[1]) then 2 else 1
  }

  function EscapedHead(s: Text): Text
    requires s != []
  {
    if ShortEscape(s[0]) != 0 then [BACKSLASH, ShortEscape(s[0])]
    else if HeadLength(s) == 2 then s[..2]
    else if s[0] < 0x20 || IsLead(s[0]) || IsTrail(s[0]) then UnicodeEscape(s[0])
    else [s[0]]
  }

  function Escaped(s: Text): Text {
    if s == [] then [] else EscapedHead(s) + Escaped(s[HeadLength(s)..])
  }

  function Quoted(s: Text): (q: Text)
    ensures |q| >= 2 && q[0] == QUOTE
  {
    [QUOTE] + Escaped(s) + [QUOTE]
  }

  function Print(v: Value): Text {
    match v
    case Null => NULL
    case Bool(b) => if b then TRUE else FALSE
    case Num(lexeme) => lexeme
    case Str(text) => Quoted(text)
    case Arr(items) => [OPEN_LIST] + PrintItems(items) + [CLOSE_LIST]
    case Obj(members) => [OPEN] + PrintMembers(members) + [CLOSE]
  }

  function PrintItems(items: Items): Text {
    match items
    case NoItems => []
    case Item(v, NoItems) => Print(v)
    case Item(v, others) => Print(v) + [COMMA] + PrintItems(others)
  }

  function PrintMembers(ms: Members): Text {
    match ms
    case NoMembers => []
    case Member(k, v, NoMembers) => Quoted(k) + [COLON] + Print(v)
    case Member(k, v, rest) => Quoted(k) + [COLON] + Print(v) + [COMMA] + PrintMembers(rest)
  }

  // ---------------------------------------------------------------- number lexemes

  predicate IsNumberUnit(u: Unit) {
    IsDigit(u) || u == MINUS || u == 43 || u == 46 || u == 69 || u == 101
  }

  function DropDigits(s: Text): (r: Text)
    ensures |r| <= |s|
  {
    if s != [] && IsDigit(s[0]) then DropDigits(s[1..]) else s
  }

  predicate IsExponent(s: Text) {
    s == [] ||
    ((s[0] == 69 || s[0] == 101) &&
     var t := if |s| > 1 && (s[1] == 43 || s[1] == MINUS) then s[2..] else s[1..];
     t != [] && DropDigits(t) == [])
  }

  predicate IsFraction(s: Text) {
    if s != [] && s[0] == 46 then |s| > 1 && IsDigit(s[1]) && IsExponent(DropDigits(s[1..])) else IsExponent(s)
  }

  /** The number grammar of RFC 8259, section 6. */
  predicate IsNumber(s: Text) {
    var t := if s != [] && s[0] == MINUS then s[1..] else s;
    && (forall i :: 0 <= i < |s| ==> IsNumberUnit(s[i]))
    && t != [] && IsDigit(t[0])
    && IsFraction(if t[0] == 48 then t[1..] else DropDigits(t))
  }

  // ---------------------------------------------------------------- JSON.parse

  datatype Parsed<+T> = Fail | Read(value: T, rest: Text)

  predicate IsBlank(u: Unit) { u == 32 || u == 9 || u == 10 || u == 13 }

  function SkipBlanks(s: Text): (r: Text)
    ensures |r| <= |s|
    ensures r != [] ==> !IsBlank(r[0])
  {
    if s != [] && IsBlank(s[0]) then SkipBlanks(s[1..]) else s
  }

  function NumberRun(s: Text): (r: nat)
    ensures r <= |s| && forall i :: 0 <= i < r ==> IsNumberUnit(s[i])
    ensures r < |s| ==> !IsNumberUnit(s[r])
  {
    if s != [] && IsNumberUnit(s[0]) then 1 + NumberRun(s[1..]) else 0
  }

  function HexValue(u: Unit): (n: int)
    ensures -1 <= n < 16
  {
    if 48 <= u <= 57 then u - 48
    else if 97 <= u <= 102 then u - 87
    else if 65 <= u <= 70 then u - 55
    else -1
  }

  /** What a backslash followed by `e` stands for, `e` other than `u`. */
  function Unescape(e: Unit): int {
    match e
    case 34 => 34 case 92 => 92 case 47 => 47
    case 98 => 8 case 102 => 12 case 110 => 10 case 114 => 13 case 116 => 9
    case _ => -1
  }

  /** The rest of a string literal, after its opening quote. */
  function ReadString(s: Text): (r: Parsed<Text>)
    ensures r.Read? ==> |r.rest| < |s|
  {
    if s == [] || s[0] < 0x20 then Fail
    else if s[0] == QUOTE then Read([], s[1..])
    else if s[0] != BACKSLASH then Prepend([s[0]], ReadString(s[1..]))
    else if |s| >= 2 && Unescape(s[1]) >= 0 then Prepend([Unescape(s[1])], ReadString(s[2..]))
    else if |s| >= 6 && s[1] == 117 && HexValue(s[2]) >= 0 && HexValue(s[3]) >= 0 && HexValue(s[4]) >= 0 && HexValue(s[5]) >= 0 then
      Prepend([4096 * HexValue(s[2]) + 256 * HexValue(s[3]) + 16 * HexValue(s[4]) + HexValue(s[5])], ReadString(s[6..]))
    else Fail
  }

  /** Adds units in front of the string read. */
  function Prepend(units: Text, r: Parsed<Text>): Parsed<Text> {
    match r
    case Fail => Fail
    case Read(t, rest) => Read(units + t, rest)
  }

  function ReadValue(s: Text): (r: Parsed<Value>)
    ensures r.Read? ==> |r.rest| < |s|
    decreases |s|, 0
  {
    if s == [] then Fail
    else if s[0] == OPEN then
      var t := SkipBlanks(s[1..]);
      if t != [] && t[0] == CLOSE then Read(Obj(NoMembers), t[1..])
      else
        (match ReadMembers(t, NoMembers)
         case Fail => Fail
         case Read(ms, rest) => Read(Obj(ms), rest))
    else if s[0] == OPEN_LIST then
      var t := SkipBlanks(s[1..]);
      if t != [] && t[0] == CLOSE_LIST then Read(Arr(NoItems), t[1..])
      else
        (match ReadItems(t)
         case Fail => Fail
         case Read(items, rest) => Read(Arr(items), rest))
    else if s[0] == QUOTE then
      match ReadString(s[1..])
      case Fail => Fail
      case Read(t, rest) => Read(Str(t), rest)
    else ReadScalar(s)
  }

  function ReadScalar(s: Text): (r: Parsed<Value>)
    ensures r.Read? ==> |r.rest| < |s| && r.rest == s[|s| - |r.rest|..]
  {
    if NULL <= s then Read(Null, s[4..])
    else if TRUE <= s then Read(Bool(true), s[4..])
    else if FALSE <= s then Read(Bool(false), s[5..])
    else
      var n := NumberRun(s);
      if IsNumber(s[..n]) then Read(Num(s[..n]), s[n..]) else Fail
  }

  /** One or more items, then the closing bracket. */
  function ReadItems(s: Text): (r: Parsed<Items>)
    ensures r.Read? ==> |r.rest| < |s|
    decreases |s|, 1
  {
    match ReadValue(s)
    case Fail => Fail
    case Read(v, after) =>
      var t := SkipBlanks(after);
      if t == [] then Fail
      else if t[0] == CLOSE_LIST then Read(Item(v, NoItems), t[1..])
      else if t[0] == COMMA then
        match ReadItems(SkipBlanks(t[1..]))
        case Fail => Fail
        case Read(others, rest) => Read(Item(v, others), rest)
      else Fail
  }

  datatype Pair = Pair(key: Text, value: Value)

  /** A key, a colon and a value. */
  function ReadMember(s: Text): (r: Parsed<Pair>)
    ensures r.Read? ==> |r.rest| < |s|
    decreases |s|, 1
  {
    if s == [] || s[0] != QUOTE then Fail
    else
      match ReadString(s[1..])
      case Fail => Fail
      case Read(k, afterKey) =>
        var colon := SkipBlanks(afterKey);
        if colon == [] || colon[0] != COLON then Fail
        else
          match ReadValue(SkipBlanks(colon[1..]))
          case Fail => Fail
          case Read(v, after) => Read(Pair(k, v), after)
  }

  /** One or more members, then the closing brace, on top of the members read so far. */
  function ReadMembers(s: Text, soFar: Members): (r: Parsed<Members>)
    ensures r.Read? ==> |r.rest| < |s|
    decreases |s|, 2
  {
    match ReadMember(s)
    case Fail => Fail
    case Read(Pair(k, v), after) =>
      var t := SkipBlanks(after);
      if t == [] then Fail
      else if t[0] == CLOSE then Read(Put(soFar, k, v), t[1..])
      else if t[0] == COMMA then ReadMembers(SkipBlanks(t[1..]), Put(soFar, k, v))
      else Fail
  }

  datatype Outcome = SyntaxError | Parsed(value: Value)

  /** `JSON.parse` */
  function Parse(s: Text): Outcome {
    match ReadValue(SkipBlanks(s))
    case Fail => SyntaxError
    case Read(v, rest) => if SkipBlanks(rest) == [] then Parsed(v) else SyntaxError
  }

  // ---------------------------------------------------------------- round trip

  /** The values that exist at run time: lexemes spell numbers, objects are in own-key order. */
  predicate IsJs(v: Value) {
    match v
    case Num(lexeme) => IsNumber(lexeme)
    case Arr(items) => ItemsJs(items)
    case Obj(ms) => OwnOrder(ms) && MembersJs(ms)
    case _ => true
  }

  predicate ItemsJs(items: Items) {
    items.Item? ==> IsJs(items.first) && ItemsJs(items.others)
  }

  predicate MembersJs(ms: Members) {
    ms.Member? ==> IsJs(ms.value) && MembersJs(ms.rest)
  }

  lemma HexRoundTrip(n: nat)
    requires n < 16
    ensures HexValue(HexDigit(n)) == n
  {
  }

  lemma ReadPlain(u: Unit, tail: Text)
    requires u >= 0x20 && u != QUOTE && u != BACKSLASH
    ensures ReadString([u] + tail) == Prepend([u], ReadString(tail))
  {
    assert ([u] + tail)[1..] == tail;
  }

  lemma ReadPair(u: Unit, w: Unit, tail: Text)
    requires u >= 0x80 && w >= 0x80
    ensures ReadString([u, w] + tail) == Prepend([u, w], ReadString(tail))
  {
    hide ReadString;
    ReadPlain(u, [w] + tail);
    ReadPlain(w, tail);
    assert [u, w] + tail == [u] + ([w] + tail);
    if ReadString(tail).Read? {
      assert [u] + ([w] + ReadString(tail).value) == [u, w] + ReadString(tail).value;
    }
  }

  lemma ReadShortEscape(u: Unit, tail: Text)
    requires ShortEscape(u) != 0
    ensures ReadString([BACKSLASH, ShortEscape(u)] + tail) == Prepend([u], ReadString(tail))
  {
    assert ([BACKSLASH, ShortEscape(u)] + tail)[2..] == tail;
  }

  lemma ReadUnicodeEscape(u: Unit, tail: Text)
    ensures ReadString(UnicodeEscape(u) + tail) == Prepend([u], ReadString(tail))
  {
    hide HexDigit, HexValue;
    var text := UnicodeEscape(u) + tail;
    assert text[6..] == tail;
    var d3, d2 := u / 16, u / 16 / 16;
    HexRoundTrip(d2 / 16);
    HexRoundTrip(d2 % 16);
    HexRoundTrip(d3 % 16);
    HexRoundTrip(u % 16);
  }

  lemma ReadHead(s: Text, tail: Text)
    requires s != []
    ensures ReadString(EscapedHead(s) + tail) == Prepend(s[..HeadLength(s)], ReadString(tail))
  {
    hide ReadString, UnicodeEscape;
    assert s[..1] == [s[0]];
    if ShortEscape(s[0]) != 0 {
      ReadShortEscape(s[0], tail);
    } else if HeadLength(s) == 2 {
      assert s[..2] == [s[0], s[1]];
      ReadPair(s[0], s[1], tail);
    } else if s[0] < 0x20 || IsLead(s[0]) || IsTrail(s[0]) {
      ReadUnicodeEscape(s[0], tail);
    } else {
      ReadPlain(s[0], tail);
    }
  }

  lemma ReadEndQuote(rest: Text)
    ensures ReadString([QUOTE] + rest) == Read([], rest)
  {
    assert ([QUOTE] + rest)[1..] == rest;
  }

  lemma Regroup(p: Text, q: Text, r: Text, e: Text)
    ensures (p + q + r) + e == p + (q + (r + e))
    ensures (p + q) + r + e == p + (q + r + e)
  {
  }

  lemma {:induction false} ReadQuoted(s: Text, rest: Text)
    ensures ReadString(Escaped(s) + [QUOTE] + rest) == Read(s, rest)
    decreases |s|
  {
    hide ReadString, EscapedHead, HeadLength;
    if s == [] {
      assert Escaped(s) + [QUOTE] + rest == [QUOTE] + rest;
      ReadEndQuote(rest);
    } else {
      var n := HeadLength(s);
      var tail := Escaped(s[n..]) + [QUOTE] + rest;
      ReadQuoted(s[n..], rest);
      ReadHead(s, tail);
      Regroup(EscapedHead(s), Escaped(s[n..]), [QUOTE], rest);
      assert s[..n] + s[n..] == s;
    }
  }

  /** A text that no number could swallow the start of. */
  predicate EndsNumber(rest: Text) {
    rest == [] || !IsNumberUnit(rest[0])
  }

  lemma {:induction false} NumberRunStops(lexeme: Text, rest: Text)
    requires forall i :: 0 <= i < |lexeme| ==> IsNumberUnit(lexeme[i])
    requires EndsNumber(rest)
    ensures NumberRun(lexeme + rest) == |lexeme|
  {
    if lexeme == [] {
      assert lexeme + rest == rest;
    } else {
      NumberRunStops(lexeme[1..], rest);
      assert (lexeme + rest)[1..] == lexeme[1..] + rest;
    }
  }

  lemma ReadScalarPrinted(v: Value, rest: Text)
    requires v.Null? || v.Bool? || (v.Num? && IsNumber(v.lexeme) && EndsNumber(rest))
    ensures ReadValue(Print(v) + rest) == Read(v, rest)
    ensures Print(v) != [] && !IsBlank(Print(v)[0]) && Print(v)[0] != CLOSE_LIST
  {
    var s := Print(v) + rest;
    match v
    case Null => assert s[4..] == rest; assert s[..4] == NULL;
    case Bool(b) => assert s[|Print(v)|..] == rest; assert s[..|Print(v)|] == Print(v); assert s[0] == Print(v)[0];
    case Num(lexeme) =>
      NumberRunStops(lexeme, rest);
      assert s[..|lexeme|] == lexeme && s[|lexeme|..] == rest;
      assert IsNumberUnit(s[0]);
  }

  lemma SkipNone(s: Text)
    requires s == [] || !IsBlank(s[0])
    ensures SkipBlanks(s) == s
  {
  }

  /** One step of the reader into a list and into an object that is not empty. */
  lemma ReadOpened(t: Text)
    requires t != [] && !IsBlank(t[0])
    ensures t[0] != CLOSE_LIST && ReadItems(t).Read? ==>
      ReadValue([OPEN_LIST] + t) == Read(Arr(ReadItems(t).value), ReadItems(t).rest)
    ensures t[0] == QUOTE && ReadMembers(t, NoMembers).Read? ==>
      ReadValue([OPEN] + t) == Read(Obj(ReadMembers(t, NoMembers).value), ReadMembers(t, NoMembers).rest)
    ensures t[0] == CLOSE_LIST ==> ReadValue([OPEN_LIST] + t) == Read(Arr(NoItems), t[1..])
    ensures t[0] == CLOSE ==> ReadValue([OPEN] + t) == Read(Obj(NoMembers), t[1..])
  {
    hide ReadItems, ReadMembers, ReadString, ReadScalar;
    SkipNone(t);
    assert ([OPEN_LIST] + t)[1..] == t;
    assert ([OPEN] + t)[1..] == t;
  }

  lemma ReadStringValue(t: Text)
    requires ReadString(t).Read?
    ensures ReadValue([QUOTE] + t) == Read(Str(ReadString(t).value), ReadString(t).rest)
  {
    hide ReadItems, ReadMembers, ReadString, ReadScalar;
    assert ([QUOTE] + t)[1..] == t;
  }

  /** Reading the text of a value gives the value back and leaves whatever follows. */
  lemma {:induction false} ReadPrinted(v: Value, rest: Text)
    requires IsJs(v)
    requires v.Num? ==> EndsNumber(rest)
    ensures ReadValue(Print(v) + rest) == Read(v, rest)
    ensures Print(v) != [] && !IsBlank(Print(v)[0]) && Print(v)[0] != CLOSE_LIST
    decreases v, 0
  {
    hide ReadValue, ReadItems, ReadMembers, ReadString;
    match v
    case Str(text) =>
      ReadQuoted(text, rest);
      Regroup([QUOTE], Escaped(text), [QUOTE], rest);
      ReadStringValue(Escaped(text) + [QUOTE] + rest);
    case Arr(items) =>
      var t := PrintItems(items) + ([CLOSE_LIST] + rest);
      Regroup([OPEN_LIST], PrintItems(items), [CLOSE_LIST], rest);
      if items.NoItems? {
        assert t[1..] == rest;
      } else {
        ReadItemsPrinted(items, rest);
        assert t[0] == PrintItems(items)[0];
      }
      ReadOpened(t);
    case Obj(ms) =>
      var t := PrintMembers(ms) + ([CLOSE] + rest);
      Regroup([OPEN], PrintMembers(ms), [CLOSE], rest);
      if ms.NoMembers? {
        assert t[1..] == rest;
      } else {
        ReadMembersPrinted(ms, NoMembers, rest);
        assert t[0] == PrintMembers(ms)[0];
      }
      ReadOpened(t);
    case _ => ReadScalarPrinted(v, rest);
  }

  /** One item, up to the bracket or comma that follows it. */
  lemma ReadItemStep(s: Text, v: Value, t: Text)
    requires ReadValue(s) == Read(v, t)
    requires t != [] && (t[0] == CLOSE_LIST || (t[0] == COMMA && |t| > 1 && !IsBlank(t[1])))
    ensures t[0] == CLOSE_LIST ==> ReadItems(s) == Read(Item(v, NoItems), t[1..])
    ensures t[0] == COMMA && ReadItems(t[1..]).Read? ==>
      ReadItems(s) == Read(Item(v, ReadItems(t[1..]).value), ReadItems(t[1..]).rest)
  {
    hide ReadValue;
    SkipNone(t);
    if t[0] == COMMA {
      SkipNone(t[1..]);
    }
  }

  lemma {:induction false} ReadItemsPrinted(items: Items, rest: Text)
    requires items.Item? && ItemsJs(items)
    ensures ReadItems(PrintItems(items) + ([CLOSE_LIST] + rest)) == Read(items, rest)
    ensures PrintItems(items) != [] && !IsBlank(PrintItems(items)[0]) && PrintItems(items)[0] != CLOSE_LIST
    decreases items, 0
  {
    hide ReadValue, ReadItems;
    var v, others := items.first, items.others;
    if others.NoItems? {
      var t := [CLOSE_LIST] + rest;
      ReadPrinted(v, t);
      ReadItemStep(Print(v) + t, v, t);
      assert t[1..] == rest;
    } else {
      var next := PrintItems(others) + ([CLOSE_LIST] + rest);
      var t := [COMMA] + next;
      ReadPrinted(v, t);
      ReadItemsPrinted(others, rest);
      assert t[1..] == next;
      assert next[0] == PrintItems(others)[0];
      ReadItemStep(Print(v) + t, v, t);
      Regroup(Print(v), [COMMA], PrintItems(others), [CLOSE_LIST] + rest);
    }
  }

  /** One member, up to the brace or comma that follows it. */
  lemma ReadMemberStep(s: Text, k: Text, v: Value, soFar: Members, t: Text)
    requires ReadMember(s) == Read(Pair(k, v), t)
    requires t != [] && (t[0] == CLOSE || t[0] == COMMA)
    ensures ReadMembers(s, soFar) ==
      if t[0] == CLOSE then Read(Put(soFar, k, v), t[1..]) else ReadMembers(SkipBlanks(t[1..]), Put(soFar, k, v))
  {
    hide ReadMember, Put;
    SkipNone(t);
  }

  lemma {:induction false} ReadMembersPrinted(ms: Members, soFar: Members, rest: Text)
    requires ms.Member? && MembersJs(ms) && OwnOrder(Append(soFar, ms))
    ensures ReadMembers(PrintMembers(ms) + ([CLOSE] + rest), soFar) == Read(Append(soFar, ms), rest)
    ensures PrintMembers(ms) != [] && PrintMembers(ms)[0] == QUOTE
    decreases ms, 0
  {
    hide ReadValue, ReadMember, ReadMembers, Quoted, Put;
    var k, v := ms.key, ms.value;
    PutAtEnd(soFar, k, v, ms.rest);
    if ms.rest.NoMembers? {
      AppendNothing(Put(soFar, k, v));
      var t := [CLOSE] + rest;
      ReadMemberPrinted(k, v, t);
      ReadMemberStep(PrintMembers(ms) + t, k, v, soFar, t);
      assert t[1..] == rest;
    } else {
      var next := PrintMembers(ms.rest) + ([CLOSE] + rest);
      var t := [COMMA] + next;
      ReadMembersPrinted(ms.rest, Put(soFar, k, v), rest);
      assert t[1..] == next && next[0] == QUOTE;
      SkipNone(next);
      ReadMemberPrinted(k, v, t);
      ReadMemberStep(Quoted(k) + [COLON] + Print(v) + t, k, v, soFar, t);
      Regroup(Quoted(k) + [COLON] + Print(v), [COMMA], PrintMembers(ms.rest), [CLOSE] + rest);
    }
  }

  lemma {:induction false} AppendNothing(ms: Members)
    ensures Append(ms, NoMembers) == ms
  {
    if ms.Member? { AppendNothing(ms.rest); }
  }

  lemma {:induction false} ReadMemberPrinted(k: Text, v: Value, t: Text)
    requires IsJs(v) && EndsNumber(t)
    ensures ReadMember(Quoted(k) + [COLON] + Print(v) + t) == Read(Pair(k, v), t)
    decreases v, 1
  {
    hide ReadValue, ReadString, Escaped;
    var s := Quoted(k) + [COLON] + Print(v) + t;
    var colon := [COLON] + Print(v) + t;
    assert s[1..] == Escaped(k) + [QUOTE] + colon;
    ReadQuoted(k, colon);
    ReadPrinted(v, t);
    assert colon[1..] == Print(v) + t;
    assert (Print(v) + t)[0] == Print(v)[0];
    SkipNone(colon);
    SkipNone(Print(v) + t);
  }

  /** `JSON.parse(JSON.stringify(v))` is `v`, for every value. */
  lemma ParsePrint(v: Value)
    requires IsJs(v)
    ensures Parse(Print(v)) == Parsed(v)
  {
    ReadPrinted(v, []);
    assert Print(v) + [] == Print(v);
    SkipNone(Print(v));
  }

  /** Two values with the same text are the same value, member order included. */
  lemma PrintInjective(v: Value, w: Value)
    requires IsJs(v) && IsJs(w)
    requires Print(v) == Print(w)
    ensures v == w
  {
    ParsePrint(v);
    ParsePrint(w);
  }
}
