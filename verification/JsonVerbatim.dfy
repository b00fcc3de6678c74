/** JSON text and code fences word for word, as code units. */
module JsonVerbatim {
  import opened JsonText
  import opened JsonExtraction
  import JsonCanonical
  import Text

  /** The code units of an ASCII text. */
  function Units(s: string): (r: JsonText.Text)
    ensures |r| == |s| && forall i :: 0 <= i < |s| ==> r[i] == s[i] as int % 0x10000
  {
    seq(|s|, i requires 0 <= i < |s| => s[i] as int % 0x10000)
  }

  // ---------------------------------------------------------------- what is printed

  lemma Punctuation()
    ensures [QUOTE] == Units("\"") && [COMMA] == Units(",") && [MINUS] == Units("-") && [COLON] == Units(":")
    ensures [OPEN_LIST] == Units("[") && [CLOSE_LIST] == Units("]") && [OPEN] == Units("{") && [CLOSE] == Units("}")
    ensures [BACKSLASH] == Units("\\") && [TICK] == Units("`") && [NEWLINE] == Units("\n")
    ensures NULL == Units("null") && TRUE == Units("true") && FALSE == Units("false") && JSON == Units("json")
  {
  }

  lemma ProtoKey()
    ensures JsonCanonical.PROTO == Units("__proto__")
  {
  }

  lemma {:induction false} PrintedItems(v: Value, others: Items)
    ensures PrintItems(Item(v, others)) == Print(v) + if others.NoItems? then [] else [COMMA] + PrintItems(others)
  {
    hide Print;
  }

  lemma PrintedEmpties()
    ensures Print(Obj(NoMembers)) == [123, 125] && Print(Arr(NoItems)) == [91, 93]
    ensures Print(Null) == [110, 117, 108, 108] && Print(Bool(true)) == [116, 114, 117, 101]
    ensures Print(Bool(false)) == [102, 97, 108, 115, 101]
  {
  }

  lemma PrintedLists()
    ensures PrintItems(Item(Bool(false), Item(Arr(NoItems), Item(Obj(NoMembers), NoItems)))) ==
      [102, 97, 108, 115, 101, 44, 91, 93, 44, 123, 125]
  {
    hide Print, PrintItems;
    PrintedEmpties();
    PrintedItems(Obj(NoMembers), NoItems);
    PrintedItems(Arr(NoItems), Item(Obj(NoMembers), NoItems));
    PrintedItems(Bool(false), Item(Arr(NoItems), Item(Obj(NoMembers), NoItems)));
  }

  /** A list is written without a blank: `[null,true,false,[],{}]`. */
  lemma PrintedList()
    ensures Print(Arr(Item(Null, Item(Bool(true), Item(Bool(false), Item(Arr(NoItems), Item(Obj(NoMembers), NoItems))))))) ==
      [91, 110, 117, 108, 108, 44, 116, 114, 117, 101, 44, 102, 97, 108, 115, 101, 44, 91, 93, 44, 123, 125, 93]
  {
    hide Print, PrintItems;
    PrintedEmpties();
    PrintedLists();
    var no := Item(Bool(false), Item(Arr(NoItems), Item(Obj(NoMembers), NoItems)));
    var yes := Item(Bool(true), no);
    PrintedItems(Bool(true), no);
    PrintedItems(Null, yes);
    ListText(Item(Null, yes));
  }

  lemma ListText(items: Items)
    ensures Print(Arr(items)) == [OPEN_LIST] + PrintItems(items) + [CLOSE_LIST]
  {
  }

  // ---------------------------------------------------------------- escapes

  /** Four digits of base sixteen that spell a code unit. */
  ghost predicate SpelledBy(u: Unit, digits: JsonText.Text) {
    exists a, b, c, d :: 0 <= a < 16 && 0 <= b < 16 && 0 <= c < 16 && 0 <= d < 16 && FourDigits(u, digits, a, b, c, d)
  }

  predicate FourDigits(u: Unit, digits: JsonText.Text, a: int, b: int, c: int, d: int)
    requires 0 <= a < 16 && 0 <= b < 16 && 0 <= c < 16 && 0 <= d < 16
  {
    && u == 4096 * a + 256 * b + 16 * c + d
    && digits == [Text.HEX[a] as int % 0x10000, Text.HEX[b] as int % 0x10000, Text.HEX[c] as int % 0x10000, Text.HEX[d] as int % 0x10000]
  }

  lemma HexMeans(n: nat)
    requires n < 16
    ensures HexDigit(n) == Text.HEX[n] as int
  {
  }

  lemma UnicodeEscapeMeans(u: Unit)
    ensures |UnicodeEscape(u)| == 6 && UnicodeEscape(u)[..2] == Units("\\u") && SpelledBy(u, UnicodeEscape(u)[2..])
  {
    hide HexDigit, Text.HEX;
    var a, b, c, d := u / 16 / 16 / 16, u / 16 / 16 % 16, u / 16 % 16, u % 16;
    HexMeans(a);
    HexMeans(b);
    HexMeans(c);
    HexMeans(d);
    assert FourDigits(u, UnicodeEscape(u)[2..], a, b, c, d);
  }

  /** The units that have a letter of their own, and the letters. */
  const SHORT: seq<(Unit, char)> := [(8, 'b'), (9, 't'), (10, 'n'), (12, 'f'), (13, 'r'), (34, '"'), (92, '\\')]

  lemma ShortMeans(u: Unit)
    ensures (ShortEscape(u) == 0 <==> forall i :: 0 <= i < |SHORT| ==> SHORT[i].0 != u)
    ensures forall i :: 0 <= i < |SHORT| ==> (SHORT[i].0 == u ==> ShortEscape(u) == SHORT[i].1 as int)
  {
    assert SHORT[0] == (8, 'b') && SHORT[1] == (9, 't') && SHORT[2] == (10, 'n') && SHORT[3] == (12, 'f')
      && SHORT[4] == (13, 'r') && SHORT[5] == (34, '"') && SHORT[6] == (92, '\\');
  }

  predicate Surrogate(u: Unit) {
    0xD800 <= u <= 0xDFFF
  }

  predicate Paired(u: Unit, rest: JsonText.Text) {
    0xD800 <= u <= 0xDBFF && rest != [] && 0xDC00 <= rest[0] <= 0xDFFF
  }

  lemma PairEscaped(u: Unit, rest: JsonText.Text)
    requires Paired(u, rest)
    ensures Escaped([u] + rest) == [u, rest[0]] + Escaped(rest[1..])
  {
    var s := [u] + rest;
    assert ShortEscape(s[0]) == 0 && HeadLength(s) == 2;
    assert s[2..] == rest[1..] && s[..2] == [u, rest[0]];
  }

  /**
   How a string is written, unit by unit: the seven units with a letter behind a backslash; the other control
   characters and the surrogates that stand alone by four lower-case digits; everything else as it is.
   */
  lemma EscapedMeans(u: Unit, rest: JsonText.Text)
    ensures Paired(u, rest) ==> Escaped([u] + rest) == [u, rest[0]] + Escaped(rest[1..])
    ensures !Paired(u, rest) ==>
      exists e :: Escaped([u] + rest) == e + Escaped(rest) && WrittenAs(u, e)
  {
    if Paired(u, rest) {
      PairEscaped(u, rest);
    } else {
      var s := [u] + rest;
      assert s[1..] == rest;
      assert HeadLength(s) == 1;
      hide EscapedHead, WrittenAs, HeadLength;
      assert Escaped(s) == EscapedHead(s) + Escaped(rest);
      Written(u, EscapedHead(s), rest);
    }
  }

  ghost predicate WrittenAs(u: Unit, e: JsonText.Text) {
    && (forall i :: 0 <= i < |SHORT| ==> (SHORT[i].0 == u ==> e == Units(['\\', SHORT[i].1])))
    && ((forall i :: 0 <= i < |SHORT| ==> SHORT[i].0 != u) ==>
          if u < 32 || Surrogate(u) then |e| == 6 && e[..2] == Units("\\u") && SpelledBy(u, e[2..]) else e == [u])
  }

  lemma Written(u: Unit, e: JsonText.Text, rest: JsonText.Text)
    requires !Paired(u, rest) && e == EscapedHead([u] + rest)
    ensures WrittenAs(u, e)
  {
    hide ShortEscape, UnicodeEscape, SpelledBy;
    ShortMeans(u);
    UnicodeEscapeMeans(u);
    assert ([u] + rest)[0] == u && (rest != [] ==> ([u] + rest)[1] == rest[0]);
  }

  // ---------------------------------------------------------------- numbers

  predicate Digits(s: JsonText.Text) {
    s != [] && forall i :: 0 <= i < |s| ==> 48 <= s[i] <= 57
  }

  predicate Fraction(s: JsonText.Text) {
    s == [] || (s[0] == 46 && Digits(s[1..]))
  }

  predicate Exponent(s: JsonText.Text) {
    s == [] || (s[0] in [69, 101] && (Digits(s[1..]) || (|s| > 1 && s[1] in [43, 45] && Digits(s[2..]))))
  }

  /** The grammar of section 6 of RFC 8259: a sign, digits without a leading zero, a fraction and an exponent. */
  ghost predicate NumberShape(s: JsonText.Text, sign: JsonText.Text, whole: JsonText.Text, fraction: JsonText.Text, exponent: JsonText.Text) {
    && s == sign + (whole + (fraction + exponent))
    && (sign == [] || sign == [45]) && Digits(whole) && (whole[0] == 48 ==> |whole| == 1)
    && Fraction(fraction) && Exponent(exponent)
  }

  lemma {:induction false} DigitsDropped(s: JsonText.Text) returns (run: JsonText.Text)
    ensures s == run + DropDigits(s) && (forall i :: 0 <= i < |run| ==> IsDigit(run[i]))
    ensures DropDigits(s) == [] || !IsDigit(DropDigits(s)[0])
    ensures s != [] && IsDigit(s[0]) ==> run != [] && run[0] == s[0]
  {
    run := [];
    if s != [] && IsDigit(s[0]) {
      var rest := DigitsDropped(s[1..]);
      run := [s[0]] + rest;
      assert s == [s[0]] + s[1..];
    }
  }

  lemma {:induction false} DropIs(run: JsonText.Text, rest: JsonText.Text)
    requires (forall i :: 0 <= i < |run| ==> IsDigit(run[i])) && (rest == [] || !IsDigit(rest[0]))
    ensures DropDigits(run + rest) == rest
  {
    if run == [] {
      assert run + rest == rest;
    } else {
      assert (run + rest)[1..] == run[1..] + rest;
      DropIs(run[1..], rest);
    }
  }

  lemma AllDigits(s: JsonText.Text)
    ensures s != [] && DropDigits(s) == [] <==> Digits(s)
  {
    if Digits(s) {
      DropIs(s, []);
      assert s + [] == s;
    }
    var run := DigitsDropped(s);
    assert run + [] == run;
  }

  lemma ExponentMeans(s: JsonText.Text)
    ensures IsExponent(s) <==> Exponent(s)
  {
    hide DropDigits, Digits;
    if s != [] {
      AllDigits(s[1..]);
      if |s| > 1 {
        AllDigits(s[2..]);
        if s[1] in [43, 45] { SignNoDigit(s[1..]); }
      }
    }
  }

  lemma SignNoDigit(s: JsonText.Text)
    requires s != [] && s[0] in [43, 45]
    ensures !Digits(s)
  {
  }

  /** What may follow the whole digits. */
  lemma FractionSplits(s: JsonText.Text) returns (fraction: JsonText.Text, exponent: JsonText.Text)
    requires IsFraction(s)
    ensures s == fraction + exponent && Fraction(fraction) && Exponent(exponent)
  {
    hide IsExponent, Exponent;
    if s != [] && s[0] == 46 {
      var run := DigitsDropped(s[1..]);
      fraction, exponent := [46] + run, DropDigits(s[1..]);
      assert fraction[1..] == run;
      ExponentMeans(exponent);
    } else {
      fraction, exponent := [], s;
      ExponentMeans(s);
    }
  }

  lemma ExponentStart(s: JsonText.Text)
    requires Exponent(s)
    ensures s == [] || (!IsDigit(s[0]) && s[0] != 46)
    ensures forall i :: 0 <= i < |s| ==> IsNumberUnit(s[i])
  {
    if s != [] {
      assert forall i :: 1 <= i < |s| ==> s[i] == s[1..][i - 1];
      assert forall i :: 2 <= i < |s| ==> s[i] == s[2..][i - 2];
    }
  }

  lemma FractionJoins(fraction: JsonText.Text, exponent: JsonText.Text)
    requires Fraction(fraction) && Exponent(exponent)
    ensures IsFraction(fraction + exponent)
    ensures fraction + exponent == [] || !IsDigit((fraction + exponent)[0])
    ensures forall i :: 0 <= i < |fraction + exponent| ==> IsNumberUnit((fraction + exponent)[i])
  {
    hide IsExponent, Exponent;
    ExponentMeans(exponent);
    ExponentStart(exponent);
    if fraction == [] {
      assert fraction + exponent == exponent;
    } else {
      assert (fraction + exponent)[1..] == fraction[1..] + exponent;
      DropIs(fraction[1..], exponent);
      assert forall i :: 1 <= i < |fraction| ==> fraction[i] == fraction[1..][i - 1];
    }
  }

  /** The part after the sign. */
  predicate Unsigned(t: JsonText.Text) {
    t != [] && IsDigit(t[0]) && IsFraction(if t[0] == 48 then t[1..] else DropDigits(t))
  }

  lemma UnsignedSplits(t: JsonText.Text) returns (whole: JsonText.Text, fraction: JsonText.Text, exponent: JsonText.Text)
    requires Unsigned(t)
    ensures t == whole + (fraction + exponent) && Digits(whole) && (whole[0] == 48 ==> |whole| == 1)
    ensures Fraction(fraction) && Exponent(exponent)
  {
    hide IsFraction, Fraction, Exponent;
    if t[0] == 48 {
      whole := [48];
      fraction, exponent := FractionSplits(t[1..]);
      assert t == [t[0]] + t[1..];
    } else {
      whole := DigitsDropped(t);
      fraction, exponent := FractionSplits(DropDigits(t));
    }
  }

  lemma UnsignedJoins(whole: JsonText.Text, fraction: JsonText.Text, exponent: JsonText.Text)
    requires Digits(whole) && (whole[0] == 48 ==> |whole| == 1) && Fraction(fraction) && Exponent(exponent)
    ensures Unsigned(whole + (fraction + exponent))
    ensures forall i :: 0 <= i < |whole + (fraction + exponent)| ==> IsNumberUnit((whole + (fraction + exponent))[i])
  {
    hide IsFraction, Fraction, Exponent;
    FractionJoins(fraction, exponent);
    DropIs(whole, fraction + exponent);
    if whole[0] == 48 {
      assert (whole + (fraction + exponent))[1..] == fraction + exponent;
    }
  }

  /** Which lexemes are numbers. */
  lemma NumberMeans(s: JsonText.Text)
    ensures IsNumber(s) <==> exists sign, whole, fraction, exponent :: NumberShape(s, sign, whole, fraction, exponent)
  {
    hide IsFraction, Fraction, Exponent, Digits, DropDigits;
    if IsNumber(s) {
      var t := if s != [] && s[0] == MINUS then s[1..] else s;
      var whole, fraction, exponent := UnsignedSplits(t);
      if s[0] == MINUS {
        assert s == [45] + t;
        assert NumberShape(s, [45], whole, fraction, exponent);
      } else {
        assert s == [] + t;
        assert NumberShape(s, [], whole, fraction, exponent);
      }
    }
    if sign, whole, fraction, exponent :| NumberShape(s, sign, whole, fraction, exponent) {
      UnsignedJoins(whole, fraction, exponent);
      Signed(sign, whole + (fraction + exponent));
    }
  }

  lemma Signed(sign: JsonText.Text, t: JsonText.Text)
    requires (sign == [] || sign == [45]) && Unsigned(t) && forall i :: 0 <= i < |t| ==> IsNumberUnit(t[i])
    ensures IsNumber(sign + t)
  {
    hide IsFraction, DropDigits;
    assert sign == [] ==> sign + t == t;
    assert sign == [45] ==> (sign + t)[1..] == t;
  }

  // ---------------------------------------------------------------- code fences

  /** White space in a fence is that of the other components. */
  lemma SpaceSame(c: char)
    requires c as int < 0x10000
    ensures IsSpace(c as int) <==> Text.IsSpace(c)
  {
  }

  predicate TicksAt(s: JsonText.Text, i: nat) {
    i + 3 <= |s| && s[i..i + 3] == [96, 96, 96]
  }

  predicate NoTicksBefore(s: JsonText.Text, n: nat) {
    forall i: nat :: i < n ==> !TicksAt(s, i)
  }

  lemma TicksMean(s: JsonText.Text, i: nat)
    ensures FenceAt(s, i) <==> TicksAt(s, i)
  {
    if i + 3 <= |s| {
      assert s[i..i + 3] == [s[i], s[i + 1], s[i + 2]];
    }
  }

  /** The parts of a fence: the tag, the white space after it, the body and the line break before the closing ticks. */
  datatype Parts = Parts(pre: JsonText.Text, tag: JsonText.Text, gap: JsonText.Text, body: JsonText.Text, tail: JsonText.Text, post: JsonText.Text)

  /** From the body on. */
  function Within(p: Parts): JsonText.Text {
    p.body + (p.tail + ([96, 96, 96] + p.post))
  }

  function Laid(p: Parts): JsonText.Text {
    p.pre + ([96, 96, 96] + (p.tag + (p.gap + Within(p))))
  }

  /**
   The first match of the fence's pattern: the earliest ticks open it, the tag and the white space are as long as they
   can be, the body ends at the first ticks after that, and one line feed before them is not part of it.
   */
  ghost predicate Matches(s: JsonText.Text, p: Parts) {
    && s == Laid(p)
    && NoTicksBefore(s, |p.pre|)
    && (p.tag == Units("json") || (p.tag == [] && !(Units("json") <= p.gap + Within(p))))
    && (forall i :: 0 <= i < |p.gap| ==> IsSpace(p.gap[i])) && !IsSpace(Within(p)[0])
    && NoTicksBefore(Within(p), |p.body + p.tail|)
    && (p.tail == [10] || (p.tail == [] && (p.body == [] || p.body[|p.body| - 1] != 10)))
  }

  lemma TicksBehind(s: JsonText.Text, start: nat, i: nat)
    requires start <= |s|
    ensures FenceAt(s, start + i) <==> TicksAt(s[start..], i)
  {
    TicksMean(s[start..], i);
  }

  lemma SkipSpacesIs(s: JsonText.Text, from: nat, to: nat)
    requires from <= to < |s| && (forall i :: from <= i < to ==> IsSpace(s[i])) && !IsSpace(s[to])
    ensures SkipSpaces(s, from) == to
  {
    hide SkipSpaces, IsSpace;
  }

  lemma JsonUnits()
    ensures JSON == Units("json") && TICK == 96 && NEWLINE == 10 && JSON == [106, 115, 111, 110]
  {
  }

  /** The parts of a match, put at their places. */
  lemma PartsInPlace(s: JsonText.Text, p: Parts)
    requires s == Laid(p)
    ensures
      var open, tagged := |p.pre|, |p.pre| + 3 + |p.tag|;
      var start := tagged + |p.gap|;
      && open + 3 <= tagged <= start <= |s|
      && s[open + 3..] == p.tag + (p.gap + Within(p)) && s[tagged..] == p.gap + Within(p)
      && s[start..] == Within(p) && TicksAt(s, open)
      && (forall i :: tagged <= i < start ==> s[i] == p.gap[i - tagged])
      && Within(p) != [] && |p.body + p.tail| + 3 <= |Within(p)| && TicksAt(Within(p), |p.body + p.tail|)
  {
  }

  lemma MatchOpens(s: JsonText.Text, p: Parts)
    requires Matches(s, p)
    ensures FindFence(s, 0) == |p.pre|
    ensures (JSON <= s[|p.pre| + 3..] <==> |p.tag| == 4) && (|p.tag| == 4 || |p.tag| == 0)
  {
    hide TicksAt, FindFence, IsSpace, FenceAt, Laid, Within;
    PartsInPlace(s, p);
    forall i: nat ensures FenceAt(s, i) <==> TicksAt(s, i) { TicksMean(s, i); }
    FindFenceIs(s, 0, |p.pre|);
    JsonUnits();
    assert p.tag == [] ==> p.tag + (p.gap + Within(p)) == p.gap + Within(p);
  }

  function StartOf(p: Parts): nat {
    |p.pre| + 3 + |p.tag| + |p.gap|
  }

  lemma MatchStarts(s: JsonText.Text, p: Parts)
    requires Matches(s, p)
    ensures StartOf(p) < |s| && SkipSpaces(s, |p.pre| + 3 + |p.tag|) == StartOf(p) && s[StartOf(p)..] == Within(p)
  {
    hide TicksAt, FindFence, SkipSpaces, IsSpace, FenceAt, Laid, Within;
    PartsInPlace(s, p);
    assert s[StartOf(p)] == s[StartOf(p)..][0];
    SkipSpacesIs(s, |p.pre| + 3 + |p.tag|, StartOf(p));
  }

  lemma FirstTicks(s: JsonText.Text, start: nat, n: nat)
    requires start <= |s| && TicksAt(s[start..], n) && NoTicksBefore(s[start..], n)
    ensures FindFence(s, start) == start + n
  {
    hide TicksAt, FindFence, FenceAt;
    TicksBehind(s, start, n);
    forall j: nat | start <= j < start + n ensures !FenceAt(s, j) { TicksBehind(s, start, j - start); }
    FindFenceIs(s, start, start + n);
  }

  lemma BodyBefore(s: JsonText.Text, start: nat, p: Parts)
    requires start <= |s| && s[start..] == Within(p)
    requires p.tail == [10] || (p.tail == [] && (p.body == [] || p.body[|p.body| - 1] != 10))
    requires p.body == [] ==> p.tail == []
    ensures
      var close := start + |p.body + p.tail|;
      && close <= |s|
      && p.body == s[start..if close > start && s[close - 1] == NEWLINE then close - 1 else close]
  {
    var w := Within(p);
    assert |s| == start + |w|;
    assert forall i :: 0 <= i < |w| ==> s[start + i] == s[start..][i] == w[i];
    assert s[start..start + |p.body|] == p.body;
  }

  lemma LoneTail(s: JsonText.Text, p: Parts)
    requires Matches(s, p)
    ensures p.body == [] ==> p.tail == []
  {
    assert Within(p)[0] == (p.body + p.tail + [96])[0];
  }

  lemma MatchCloses(s: JsonText.Text, p: Parts)
    requires Matches(s, p)
    ensures
      var start, close := StartOf(p), StartOf(p) + |p.body + p.tail|;
      && start <= close <= |s| && FindFence(s, start) == close
      && p.body == s[start..if close > start && s[close - 1] == NEWLINE then close - 1 else close]
  {
    hide TicksAt, FindFence, SkipSpaces, IsSpace, FenceAt, Laid, Within;
    PartsInPlace(s, p);
    FirstTicks(s, StartOf(p), |p.body + p.tail|);
    LoneTail(s, p);
    BodyBefore(s, StartOf(p), p);
  }

  lemma MatchIsBody(s: JsonText.Text, p: Parts)
    requires Matches(s, p)
    ensures FenceBody(s) == Body(p.body)
  {
    hide Matches, TicksAt, FindFence, SkipSpaces, IsSpace, FenceAt, Laid, Within;
    MatchOpens(s, p);
    MatchStarts(s, p);
    MatchCloses(s, p);
  }

  function Cut(s: JsonText.Text, open: nat, tagged: nat, start: nat, end: nat, close: nat): Parts
    requires open + 3 <= tagged <= start <= end <= close && close + 3 <= |s|
  {
    Parts(s[..open], s[open + 3..tagged], s[tagged..start], s[start..end], s[end..close], s[close + 3..])
  }

  lemma CutAt(s: JsonText.Text, i: nat, j: nat)
    requires i <= j <= |s|
    ensures s[i..] == s[i..j] + s[j..]
  {
  }

  lemma CutTicks(s: JsonText.Text, i: nat)
    requires i + 3 <= |s| && TicksAt(s, i)
    ensures [96, 96, 96] + s[i + 3..] == s[i..]
  {
    CutAt(s, i, i + 3);
  }

  lemma CutTwice(s: JsonText.Text, i: nat, j: nat, k: nat)
    requires i <= j <= k <= |s|
    ensures s[i..j] + (s[j..k] + s[k..]) == s[i..] && |s[i..j] + s[j..k]| == k - i
  {
    CutAt(s, i, j);
    CutAt(s, j, k);
  }

  lemma CutIsWhole(s: JsonText.Text, open: nat, tagged: nat, start: nat, end: nat, close: nat)
    requires open + 3 <= tagged <= start <= end <= close && close + 3 <= |s| && TicksAt(s, open) && TicksAt(s, close)
    ensures
      var p := Cut(s, open, tagged, start, end, close);
      s == Laid(p) && Within(p) == s[start..] && p.gap + Within(p) == s[tagged..] && |p.body + p.tail| == close - start
  {
    hide TicksAt;
    CutTicks(s, close);
    CutTwice(s, start, end, close);
    CutAt(s, tagged, start);
    CutAt(s, open + 3, tagged);
    CutTicks(s, open);
    assert s == s[..open] + s[open..];
  }

  lemma FoundFence(s: JsonText.Text, from: nat) returns (i: nat)
    requires from <= |s| && FindFence(s, from) != -1
    ensures i == FindFence(s, from) && from <= i && TicksAt(s, i) && NoTicksBefore(s[from..], i - from)
  {
    hide FindFence, FenceAt, TicksAt;
    i := FindFence(s, from);
    TicksMean(s, i);
    forall j: nat | j < i - from ensures !TicksAt(s[from..], j) { TicksBehind(s, from, j); }
  }

  lemma TagCut(s: JsonText.Text, open: nat) returns (tagged: nat)
    requires open + 3 <= |s|
    ensures tagged == if JSON <= s[open + 3..] then open + 7 else open + 3
    ensures open + 3 <= tagged <= |s|
    ensures s[open + 3..tagged] == Units("json") || (s[open + 3..tagged] == [] && !(Units("json") <= s[tagged..]))
  {
    JsonUnits();
    tagged := if JSON <= s[open + 3..] then open + 7 else open + 3;
    if JSON <= s[open + 3..] {
      assert s[open + 3..][..4] == s[open + 3..tagged];
    }
  }

  function EndOf(s: JsonText.Text, start: nat, close: nat): nat
    requires close <= |s|
  {
    if close > start && s[close - 1] == NEWLINE then close - 1 else close
  }

  /** The places of a match. */
  ghost predicate Places(s: JsonText.Text, open: nat, tagged: nat, start: nat, end: nat, close: nat) {
    && open + 3 <= tagged <= start <= end <= close && close + 3 <= |s|
    && TicksAt(s, open) && NoTicksBefore(s, open)
    && (s[open + 3..tagged] == Units("json") || (s[open + 3..tagged] == [] && !(Units("json") <= s[tagged..])))
    && (forall i :: tagged <= i < start ==> IsSpace(s[i])) && !IsSpace(s[start])
    && TicksAt(s, close) && NoTicksBefore(s[start..], close - start) && end == EndOf(s, start, close)
  }

  lemma BodyUnfolds(s: JsonText.Text) returns (open: nat, tagged: nat, start: nat, close: nat)
    requires FenceBody(s).Body?
    ensures open == FindFence(s, 0) && open + 3 <= |s| && tagged == (if JSON <= s[open + 3..] then open + 7 else open + 3)
    ensures tagged <= |s| && start == SkipSpaces(s, tagged) && close == FindFence(s, start) && close <= |s|
    ensures FenceBody(s) == Body(s[start..EndOf(s, start, close)])
  {
    hide FindFence, SkipSpaces, IsSpace;
    open := FindFence(s, 0);
    tagged := if JSON <= s[open + 3..] then open + 7 else open + 3;
    start := SkipSpaces(s, tagged);
    close := FindFence(s, start);
  }

  lemma PlacesFound(s: JsonText.Text) returns (open: nat, tagged: nat, start: nat, end: nat, close: nat)
    requires FenceBody(s).Body?
    ensures Places(s, open, tagged, start, end, close) && FenceBody(s) == Body(s[start..end])
  {
    hide FenceBody, FindFence, SkipSpaces, IsSpace, FenceAt, TicksAt, NoTicksBefore, Units, JSON;
    open, tagged, start, close := BodyUnfolds(s);
    var i := FoundFence(s, 0);
    assert s[0..] == s;
    i := TagCut(s, open);
    i := FoundFence(s, start);
    TicksFit(s, close);
    end := EndOf(s, start, close);
  }

  lemma PlacesMatch(s: JsonText.Text, open: nat, tagged: nat, start: nat, end: nat, close: nat)
    requires Places(s, open, tagged, start, end, close)
    ensures Matches(s, Cut(s, open, tagged, start, end, close))
  {
    hide IsSpace, TicksAt, NoTicksBefore, Units, Laid, Within;
    CutIsWhole(s, open, tagged, start, end, close);
    CutEnds(s, start, end, close);
  }

  /** The body a fence has is that of a match. */
  lemma BodyIsMatch(s: JsonText.Text) returns (p: Parts)
    requires FenceBody(s).Body?
    ensures Matches(s, p) && FenceBody(s) == Body(p.body)
  {
    hide Matches, FenceBody, TicksAt, IsSpace, Units;
    var open, tagged, start, end, close := PlacesFound(s);
    PlacesMatch(s, open, tagged, start, end, close);
    p := Cut(s, open, tagged, start, end, close);
  }

  lemma TicksFit(s: JsonText.Text, i: nat)
    requires TicksAt(s, i)
    ensures i + 3 <= |s| && !IsSpace(s[i])
  {
    assert s[i] == s[i..i + 3][0];
  }

  lemma CutEnds(s: JsonText.Text, start: nat, end: nat, close: nat)
    requires start <= close <= |s| && end == EndOf(s, start, close)
    ensures s[end..close] == [10] || (s[end..close] == [] && (s[start..end] == [] || s[start..end][end - start - 1] != 10))
  {
  }

  /** A text has a fence with this body exactly when the pattern matches with it, and none when it does not match. */
  lemma FenceBodyMeans(s: JsonText.Text, body: JsonText.Text)
    ensures FenceBody(s) == Body(body) <==> exists p :: Matches(s, p) && p.body == body
    ensures FenceBody(s) == NoFence <==> forall p :: !Matches(s, p)
  {
    hide FenceBody, Matches;
    if FenceBody(s).Body? {
      var p := BodyIsMatch(s);
    }
    forall p | Matches(s, p) ensures FenceBody(s) == Body(p.body) { MatchIsBody(s, p); }
  }

  // ---------------------------------------------------------------- what is extracted

  lemma {:induction false} DepthCounts(s: JsonText.Text)
    ensures Depth(s) + multiset(s)[125] == multiset(s)[123]
  {
    if s != [] {
      DepthCounts(s[..|s| - 1]);
      assert s == s[..|s| - 1] + [s[|s| - 1]];
    }
  }

  /** The text ends in a closing brace and has as many opening ones. */
  ghost predicate EvenAt(s: JsonText.Text, n: nat) {
    0 < n <= |s| && s[n - 1] == 125 && multiset(s[..n])[123] == multiset(s[..n])[125]
  }

  lemma EvenMeans(s: JsonText.Text, i: nat)
    ensures Closes(s, i) <==> EvenAt(s, i + 1)
  {
    if i < |s| {
      DepthCounts(s[..i + 1]);
    }
  }

  /** The shortest piece from an opening brace on whose braces are even in number. */
  ghost predicate FirstEven(s: JsonText.Text, n: nat) {
    s != [] && s[0] == 123 && EvenAt(s, n) && forall m: nat :: m < n ==> !EvenAt(s, m)
  }

  lemma FirstEvenMeans(s: JsonText.Text, n: nat)
    requires s != []
    ensures FirstEven(s, n) <==> s[0] == OPEN && CloseOf(s) > 0 && n == CloseOf(s) + 1
  {
    hide Closes, EvenAt;
    var end := CloseOf(s);
    forall i: nat ensures Closes(s, i) <==> EvenAt(s, i + 1) { EvenMeans(s, i); }
    assert !EvenAt(s, 0) && (s[0] == OPEN ==> !Closes(s, 0)) by { NotAtOnce(s); }
    if FirstEven(s, n) {
      assert Closes(s, n - 1);
      assert end >= 0 && EvenAt(s, end + 1) && !(end < n - 1);
    }
    if s[0] == OPEN && end > 0 {
      forall m: nat | m < end + 1 ensures !EvenAt(s, m) {
        if m > 0 { assert !Closes(s, m - 1); }
      }
    }
  }

  lemma NotAtOnce(s: JsonText.Text)
    requires s != []
    ensures !EvenAt(s, 0) && (s[0] == OPEN ==> !Closes(s, 0))
  {
  }

  /** What stands from the first opening brace or bracket on. */
  ghost predicate FromFirst(content: JsonText.Text, pre: JsonText.Text, sub: JsonText.Text) {
    content == pre + sub && sub != [] && sub[0] in [123, 91] && 123 !in pre && 91 !in pre
  }

  ghost predicate ParsesFrom(sub: JsonText.Text, v: Value) {
    || Parse(sub) == Parsed(v)
    || (Parse(sub).SyntaxError? && exists n: nat :: FirstEven(sub, n) && Parse(sub[..n]) == Parsed(v))
  }

  lemma ParsesFromMeans(sub: JsonText.Text, v: Value)
    requires sub != []
    ensures FromBracket(sub) == Found(v) <==> ParsesFrom(sub, v)
  {
    hide Parse, CloseOf, FirstEven;
    forall n: nat ensures FirstEven(sub, n) <==> sub[0] == OPEN && CloseOf(sub) > 0 && n == CloseOf(sub) + 1 { FirstEvenMeans(sub, n); }
    if sub[0] == OPEN && CloseOf(sub) > 0 {
      assert FirstEven(sub, CloseOf(sub) + 1);
    }
  }

  lemma FirstBracket(content: JsonText.Text, pre: JsonText.Text, sub: JsonText.Text)
    ensures
      var brace, bracket := IndexOf(content, OPEN), IndexOf(content, OPEN_LIST);
      var start := if brace >= 0 && (bracket < 0 || brace < bracket) then brace else bracket;
      FromFirst(content, pre, sub) <==> start >= 0 && pre == content[..start] && sub == content[start..]
  {
    hide IndexOf;
    if FromFirst(content, pre, sub) {
      assert content[|pre|] == sub[0];
      assert forall i :: 0 <= i < |pre| ==> content[i] == pre[i] && content[i] in pre;
    }
  }

  ghost predicate Unfenced(content: JsonText.Text) {
    forall p :: !Matches(content, p)
  }

  /**
   The value taken from an answer: that of the whole text; or else that of the first fence's body; or else, where there
   is no fence, that of the text from the first bracket on, or of its shortest piece with even braces.
   */
  lemma ExtractedMeans(content: JsonText.Text, v: Value)
    ensures Extracted(content) == Found(v) <==>
      || Parse(content) == Parsed(v)
      || (Parse(content).SyntaxError? && exists p :: Matches(content, p) && Parse(p.body) == Parsed(v))
      || (Parse(content).SyntaxError? && Unfenced(content) && exists pre, sub :: FromFirst(content, pre, sub) && ParsesFrom(sub, v))
    ensures Extracted(content) == MalformedFence <==>
      Parse(content).SyntaxError? && exists p :: Matches(content, p) && Parse(p.body).SyntaxError?
  {
    hide Parse, FenceBody, Matches, FromBracket, FromFirst, ParsesFrom, IndexOf;
    if Parse(content).SyntaxError? {
      FenceBodyMeans(content, []);
      if FenceBody(content).Body? {
        FenceBodyMeans(content, FenceBody(content).text);
        forall p | Matches(content, p) ensures FenceBody(content) == Body(p.body) { MatchIsBody(content, p); }
      } else {
        UnfencedMeans(content, v);
      }
    }
  }

  lemma UnfencedMeans(content: JsonText.Text, v: Value)
    requires Parse(content).SyntaxError? && FenceBody(content).NoFence?
    ensures Extracted(content) == Found(v) <==> exists pre, sub :: FromFirst(content, pre, sub) && ParsesFrom(sub, v)
    ensures Extracted(content) != MalformedFence
  {
    hide Parse, FenceBody, FromBracket, FromFirst, ParsesFrom, IndexOf;
    var brace, bracket := IndexOf(content, OPEN), IndexOf(content, OPEN_LIST);
    var start := if brace >= 0 && (bracket < 0 || brace < bracket) then brace else bracket;
    forall pre, sub
      ensures FromFirst(content, pre, sub) <==> start >= 0 && pre == content[..start] && sub == content[start..]
    {
      FirstBracket(content, pre, sub);
    }
    if start >= 0 {
      var sub := content[start..];
      assert FromFirst(content, content[..start], sub);
      ParsesFromMeans(sub, v);
      FromBracketWhole(sub);
    }
  }

  lemma FromBracketWhole(sub: JsonText.Text)
    requires sub != []
    ensures FromBracket(sub) != MalformedFence
  {
    hide Parse, CloseOf;
  }
}
