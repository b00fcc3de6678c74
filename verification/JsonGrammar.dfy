/** The texts that `JSON.parse` accepts are those of the grammar of RFC 8259, and it reads them for what they say. */
module JsonGrammar {
  import opened JsonText

  // ---------------------------------------------------------------- strings

  /** What a string literal is made of: a unit, a letter behind a backslash, or four digits behind `\u`. */
  datatype Mark = Plain(u: Unit) | Letter(e: Unit) | Code(a: Unit, b: Unit, c: Unit, d: Unit)

  predicate MarkOk(m: Mark) {
    match m
    case Plain(u) => u >= 32 && u != 34 && u != 92
    case Letter(e) => Unescape(e) >= 0
    case Code(a, b, c, d) => HexValue(a) >= 0 && HexValue(b) >= 0 && HexValue(c) >= 0 && HexValue(d) >= 0
  }

  function MarkText(m: Mark): Text {
    match m
    case Plain(u) => [u]
    case Letter(e) => [92, e]
    case Code(a, b, c, d) => [92, 117, a, b, c, d]
  }

  function MarkUnit(m: Mark): Unit
    requires MarkOk(m)
  {
    match m
    case Plain(u) => u
    case Letter(e) => Unescape(e)
    case Code(a, b, c, d) => 4096 * HexValue(a) + 256 * HexValue(b) + 16 * HexValue(c) + HexValue(d)
  }

  predicate MarksOk(ms: seq<Mark>) {
    forall i :: 0 <= i < |ms| ==> MarkOk(ms[i])
  }

  function MarksText(ms: seq<Mark>): Text {
    if ms == [] then [] else MarkText(ms[0]) + MarksText(ms[1..])
  }

  function MarksUnits(ms: seq<Mark>): Text
    requires MarksOk(ms)
  {
    if ms == [] then [] else [MarkUnit(ms[0])] + MarksUnits(ms[1..])
  }

  /** The letters that may stand behind a backslash, and what they stand for. */
  const LETTERS: seq<(char, Unit)> :=
    [('"', 34), ('\\', 92), ('/', 47), ('b', 8), ('f', 12), ('n', 10), ('r', 13), ('t', 9)]

  lemma LettersMean(e: Unit)
    ensures Unescape(e) < 0 <==> forall i :: 0 <= i < |LETTERS| ==> LETTERS[i].0 as int != e
    ensures forall i :: 0 <= i < |LETTERS| ==> (LETTERS[i].0 as int == e ==> Unescape(e) == LETTERS[i].1)
  {
    assert LETTERS[0] == ('"', 34) && LETTERS[1] == ('\\', 92) && LETTERS[2] == ('/', 47) && LETTERS[3] == ('b', 8)
      && LETTERS[4] == ('f', 12) && LETTERS[5] == ('n', 10) && LETTERS[6] == ('r', 13) && LETTERS[7] == ('t', 9);
  }

  lemma DigitMeans(u: Unit, n: nat)
    requires n < 16
    ensures HexValue(u) == n <==> u == "0123456789abcdef"[n] as int || u == "0123456789ABCDEF"[n] as int
  {
  }

  lemma BlankMeans(u: Unit)
    ensures IsBlank(u) <==> u in ['\t' as int, '\n' as int, '\r' as int, ' ' as int]
  {
  }

  lemma MarkReads(m: Mark, rest: Text)
    requires MarkOk(m)
    ensures ReadString(MarkText(m) + rest) == Prepend([MarkUnit(m)], ReadString(rest))
  {
    var s := MarkText(m) + rest;
    match m
    case Plain(u) => assert s[1..] == rest;
    case Letter(e) => assert s[2..] == rest;
    case Code(a, b, c, d) =>
      assert s[6..] == rest;
      assert Unescape(s[1]) == -1;
  }

  lemma {:induction false} MarksRead(ms: seq<Mark>, rest: Text)
    requires MarksOk(ms)
    ensures ReadString(MarksText(ms) + ([34] + rest)) == Read(MarksUnits(ms), rest)
  {
    hide MarkText, MarkUnit, MarkOk, ReadString;
    var tail := [34] + rest;
    if ms == [] {
      assert MarksText(ms) + tail == tail;
      QuoteReads(rest);
    } else {
      MarksRead(ms[1..], rest);
      MarkReads(ms[0], MarksText(ms[1..]) + tail);
      Regroup(MarkText(ms[0]), MarksText(ms[1..]), tail);
    }
  }

  lemma QuoteReads(rest: Text)
    ensures ReadString([34] + rest) == Read([], rest)
  {
    assert ([34] + rest)[1..] == rest;
  }

  /** The first mark of a text that reads as a string and is not over. */
  lemma FirstMark(s: Text) returns (m: Mark, tail: Text)
    requires ReadString(s).Read? && s[0] != 34
    ensures MarkOk(m) && s == MarkText(m) + tail && ReadString(tail).Read?
    ensures ReadString(s) == Prepend([MarkUnit(m)], ReadString(tail))
  {
    if s[0] != 92 {
      m, tail := Plain(s[0]), s[1..];
    } else if Unescape(s[1]) >= 0 {
      m, tail := Letter(s[1]), s[2..];
      assert s == [s[0], s[1]] + tail;
    } else {
      m, tail := Code(s[2], s[3], s[4], s[5]), s[6..];
      assert s == [s[0], s[1], s[2], s[3], s[4], s[5]] + tail;
    }
  }

  lemma {:induction false} StringMarks(s: Text) returns (ms: seq<Mark>)
    requires ReadString(s).Read?
    ensures MarksOk(ms) && s == MarksText(ms) + ([34] + ReadString(s).rest) && ReadString(s).value == MarksUnits(ms)
    decreases |s|
  {
    hide MarkText, MarkUnit, MarkOk;
    if s[0] == 34 {
      ms := [];
      assert s == [34] + s[1..];
    } else {
      var m, tail := FirstMark(s);
      assert |tail| < |s| by { MarkNotEmpty(m); }
      var others := StringMarks(tail);
      ms := [m] + others;
      assert ms[1..] == others;
      Regroup(MarkText(m), MarksText(others), [34] + ReadString(tail).rest);
    }
  }

  lemma MarkNotEmpty(m: Mark)
    ensures |MarkText(m)| > 0
  {
  }

  lemma Regroup(a: Text, b: Text, c: Text)
    ensures a + (b + c) == a + b + c
  {
  }

  // ---------------------------------------------------------------- values

  /** A value as it is spelled: every mark, every digit and every gap. */
  datatype Tree =
    | NullTree
    | BoolTree(b: bool)
    | NumberTree(lexeme: Text)
    | StringTree(marks: seq<Mark>)
    | ListTree(gap: Text, elements: Elements)
    | ObjectTree(gap: Text, pairs: Pairs)

  /** `after` is the gap behind the element, `before` the one between the comma and the next. */
  datatype Elements = NoElements | Element(first: Tree, after: Text, before: Text, others: Elements)

  datatype Pairs = NoPairs | Entry(key: seq<Mark>, left: Text, right: Text, value: Tree, after: Text, before: Text, others: Pairs)

  predicate Blanks(s: Text) {
    forall i :: 0 <= i < |s| ==> IsBlank(s[i])
  }

  predicate TreeOk(t: Tree) {
    match t
    case NullTree => true
    case BoolTree(_) => true
    case NumberTree(lexeme) => IsNumber(lexeme)
    case StringTree(marks) => MarksOk(marks)
    case ListTree(gap, es) => Blanks(gap) && ElementsOk(es)
    case ObjectTree(gap, ps) => Blanks(gap) && PairsOk(ps)
  }

  predicate ElementsOk(es: Elements) {
    es.Element? ==> TreeOk(es.first) && Blanks(es.after) && Blanks(es.before) && ElementsOk(es.others)
  }

  predicate PairsOk(ps: Pairs) {
    ps.Entry? ==>
      && MarksOk(ps.key) && Blanks(ps.left) && Blanks(ps.right) && TreeOk(ps.value)
      && Blanks(ps.after) && Blanks(ps.before) && PairsOk(ps.others)
  }

  /** The text of a tree with what follows it. */
  function Spelled(t: Tree, rest: Text): Text
    decreases t, 0
  {
    match t
    case NullTree => [110, 117, 108, 108] + rest
    case BoolTree(b) => (if b then [116, 114, 117, 101] else [102, 97, 108, 115, 101]) + rest
    case NumberTree(lexeme) => lexeme + rest
    case StringTree(marks) => [34] + (MarksText(marks) + ([34] + rest))
    case ListTree(gap, es) => [91] + (gap + SpelledElements(es, [93] + rest))
    case ObjectTree(gap, ps) => [123] + (gap + SpelledPairs(ps, [125] + rest))
  }

  function SpelledElements(es: Elements, rest: Text): Text
    decreases es, 0
  {
    match es
    case NoElements => rest
    case Element(t, after, _, NoElements) => Spelled(t, after + rest)
    case Element(t, after, before, others) => Spelled(t, after + ([44] + (before + SpelledElements(others, rest))))
  }

  function SpelledPairs(ps: Pairs, rest: Text): Text
    decreases ps, 0
  {
    match ps
    case NoPairs => rest
    case Entry(k, left, right, t, after, _, NoPairs) => SpelledEntry(k, left, right, t, after + rest)
    case Entry(k, left, right, t, after, before, others) =>
      SpelledEntry(k, left, right, t, after + ([44] + (before + SpelledPairs(others, rest))))
  }

  function SpelledEntry(key: seq<Mark>, left: Text, right: Text, t: Tree, rest: Text): Text
    decreases t, 1
  {
    [34] + (MarksText(key) + ([34] + (left + ([58] + (right + Spelled(t, rest))))))
  }

  /** What a tree says. Of members with one key the last counts, in the place of the first. */
  function Said(t: Tree): Value
    requires TreeOk(t)
  {
    match t
    case NullTree => Null
    case BoolTree(b) => Bool(b)
    case NumberTree(lexeme) => Num(lexeme)
    case StringTree(marks) => Str(MarksUnits(marks))
    case ListTree(_, es) => Arr(SaidElements(es))
    case ObjectTree(_, ps) => Obj(SaidPairs(ps, NoMembers))
  }

  function SaidElements(es: Elements): Items
    requires ElementsOk(es)
  {
    match es
    case NoElements => NoItems
    case Element(t, _, _, others) => Item(Said(t), SaidElements(others))
  }

  function SaidPairs(ps: Pairs, soFar: Members): Members
    requires PairsOk(ps)
  {
    match ps
    case NoPairs => soFar
    case Entry(k, _, _, t, _, _, others) => SaidPairs(others, Put(soFar, MarksUnits(k), Said(t)))
  }

  // ---------------------------------------------------------------- gaps and first units

  lemma {:induction false} GapSkipped(gap: Text, rest: Text)
    requires Blanks(gap) && (rest == [] || !IsBlank(rest[0]))
    ensures SkipBlanks(gap + rest) == rest
  {
    if gap == [] {
      assert gap + rest == rest;
    } else {
      assert (gap + rest)[1..] == gap[1..] + rest;
      GapSkipped(gap[1..], rest);
    }
  }

  lemma {:induction false} GapBefore(s: Text) returns (gap: Text)
    ensures Blanks(gap) && s == gap + SkipBlanks(s)
  {
    gap := [];
    if s != [] && IsBlank(s[0]) {
      var others := GapBefore(s[1..]);
      gap := [s[0]] + others;
      assert s == [s[0]] + s[1..];
    }
  }

  /** What a value may start with. */
  predicate Starts(u: Unit) {
    u in [34, 45, 91, 102, 110, 116, 123] || 48 <= u <= 57
  }

  lemma NumberStarts(s: Text)
    requires IsNumber(s)
    ensures s != [] && (s[0] == 45 || 48 <= s[0] <= 57)
  {
  }

  lemma SpelledStarts(t: Tree, rest: Text)
    requires TreeOk(t)
    ensures Spelled(t, rest) != [] && Starts(Spelled(t, rest)[0]) && !IsBlank(Spelled(t, rest)[0])
    ensures !t.NumberTree? && t != NullTree && !t.BoolTree? ==> Spelled(t, rest)[0] in [34, 91, 123]
  {
    hide IsNumber, MarksText, SpelledElements, SpelledPairs;
    if t.NumberTree? { NumberStarts(t.lexeme); }
  }

  lemma GapFree(gap: Text, rest: Text)
    requires Blanks(gap) && EndsNumber(rest)
    ensures EndsNumber(gap + rest)
  {
    if gap != [] { assert (gap + rest)[0] == gap[0]; } else { assert gap + rest == rest; }
  }

  // ---------------------------------------------------------------- spelled values are read

  lemma ScalarReads(t: Tree, rest: Text)
    requires TreeOk(t) && (t == NullTree || t.BoolTree? || t.NumberTree?) && (t.NumberTree? ==> EndsNumber(rest))
    ensures ReadValue(Spelled(t, rest)) == Read(Said(t), rest)
  {
    var s := Spelled(t, rest);
    match t
    case NullTree =>
      assert s[0] == 110 && NULL <= s && s[4..] == rest;
    case BoolTree(b) =>
      assert b ==> s[0] == 116 && TRUE <= s && s[4..] == rest;
      assert !b ==> s[0] == 102 && FALSE <= s && s[5..] == rest;
    case NumberTree(lexeme) =>
      NumberStarts(lexeme);
      assert s[0] == lexeme[0];
      NumberRunStops(lexeme, rest);
      assert s[..|lexeme|] == lexeme && s[|lexeme|..] == rest;
  }

  lemma QuoteOpens(s: Text)
    requires s != [] && s[0] == 34
    ensures ReadValue(s) == match ReadString(s[1..]) case Fail => Fail case Read(u, rest) => Read(Str(u), rest)
  {
  }

  lemma ListOpens(s: Text)
    requires s != [] && s[0] == 91
    ensures
      var u := SkipBlanks(s[1..]);
      ReadValue(s) ==
        if u != [] && u[0] == 93 then Read(Arr(NoItems), u[1..])
        else match ReadItems(u) case Fail => Fail case Read(items, rest) => Read(Arr(items), rest)
  {
  }

  lemma ObjectOpens(s: Text)
    requires s != [] && s[0] == 123
    ensures
      var u := SkipBlanks(s[1..]);
      ReadValue(s) ==
        if u != [] && u[0] == 125 then Read(Obj(NoMembers), u[1..])
        else match ReadMembers(u, NoMembers) case Fail => Fail case Read(ms, rest) => Read(Obj(ms), rest)
  {
  }

  lemma HeadTail(u: Unit, rest: Text)
    ensures ([u] + rest)[0] == u && ([u] + rest)[1..] == rest
  {
  }

  lemma {:induction false} TreeReads(t: Tree, rest: Text)
    requires TreeOk(t) && (t.NumberTree? ==> EndsNumber(rest))
    ensures ReadValue(Spelled(t, rest)) == Read(Said(t), rest)
    decreases t, 0
  {
    hide ReadValue, ReadItems, ReadMembers, SkipBlanks, IsBlank, MarksText, ReadString;
    match t
    case NullTree => ScalarReads(t, rest);
    case BoolTree(_) => ScalarReads(t, rest);
    case NumberTree(_) => ScalarReads(t, rest);
    case StringTree(marks) =>
      HeadTail(34, MarksText(marks) + ([34] + rest));
      QuoteOpens(Spelled(t, rest));
      MarksRead(marks, rest);
    case ListTree(gap, es) =>
      var inside := SpelledElements(es, [93] + rest);
      HeadTail(91, gap + inside);
      HeadTail(93, rest);
      ListOpens(Spelled(t, rest));
      ElementsStart(es, rest);
      GapSkipped(gap, inside);
      if es.Element? { ElementsRead(es, rest); }
    case ObjectTree(gap, ps) =>
      var inside := SpelledPairs(ps, [125] + rest);
      HeadTail(123, gap + inside);
      HeadTail(125, rest);
      ObjectOpens(Spelled(t, rest));
      PairsStart(ps, rest);
      GapSkipped(gap, inside);
      if ps.Entry? { PairsRead(ps, NoMembers, rest); }
  }

  lemma ElementsStart(es: Elements, rest: Text)
    requires ElementsOk(es)
    ensures var s := SpelledElements(es, [93] + rest); s != [] && !IsBlank(s[0]) && (es.Element? <==> s[0] != 93)
  {
    hide Spelled;
    if es.Element? {
      SpelledStarts(es.first, es.after + ([93] + rest));
      SpelledStarts(es.first, es.after + ([44] + (es.before + SpelledElements(es.others, [93] + rest))));
    }
  }

  lemma PairsStart(ps: Pairs, rest: Text)
    requires PairsOk(ps)
    ensures var s := SpelledPairs(ps, [125] + rest); s != [] && !IsBlank(s[0]) && (ps.Entry? <==> s[0] != 125)
  {
    hide Spelled, MarksText;
  }

  /** What stands behind an element. */
  lemma BehindElement(s: Text, v: Value, behind: Text, after: Text, next: Text)
    requires ReadValue(s) == Read(v, behind) && behind == after + next && Blanks(after) && next != [] && !IsBlank(next[0])
    ensures ReadItems(s) ==
      if next[0] == 93 then Read(Item(v, NoItems), next[1..])
      else if next[0] == 44 then
        match ReadItems(SkipBlanks(next[1..])) case Fail => Fail case Read(others, rest) => Read(Item(v, others), rest)
      else Fail
  {
    hide ReadValue, SkipBlanks, IsBlank;
    GapSkipped(after, next);
  }

  lemma {:induction false} ElementsRead(es: Elements, rest: Text)
    requires ElementsOk(es) && es.Element?
    ensures ReadItems(SpelledElements(es, [93] + rest)) == Read(SaidElements(es), rest)
    decreases es, 0
  {
    hide ReadValue, ReadItems, SkipBlanks, IsBlank, Spelled, IsNumberUnit;
    var s := SpelledElements(es, [93] + rest);
    assert !IsNumberUnit(93) && !IsNumberUnit(44) && !IsBlank(93) && !IsBlank(44) by { Marks(); }
    if es.others.NoElements? {
      var next := [93] + rest;
      HeadTail(93, rest);
      GapFree(es.after, next);
      TreeReads(es.first, es.after + next);
      BehindElement(s, Said(es.first), es.after + next, es.after, next);
    } else {
      var others := SpelledElements(es.others, [93] + rest);
      var next := [44] + (es.before + others);
      HeadTail(44, es.before + others);
      GapFree(es.after, next);
      TreeReads(es.first, es.after + next);
      BehindElement(s, Said(es.first), es.after + next, es.after, next);
      ElementsStart(es.others, rest);
      GapSkipped(es.before, others);
      ElementsRead(es.others, rest);
    }
  }

  lemma Marks()
    ensures !IsNumberUnit(93) && !IsNumberUnit(44) && !IsNumberUnit(125)
    ensures !IsBlank(93) && !IsBlank(44) && !IsBlank(125) && !IsBlank(58)
  {
  }

  lemma EntryReads(ps: Pairs, behind: Text)
    requires PairsOk(ps) && ps.Entry? && ReadValue(Spelled(ps.value, behind)) == Read(Said(ps.value), behind)
    ensures ReadMember(SpelledEntry(ps.key, ps.left, ps.right, ps.value, behind)) == Read(Pair(MarksUnits(ps.key), Said(ps.value)), behind)
  {
    hide ReadValue, ReadString, SkipBlanks, IsBlank, Spelled, MarksText;
    var value := Spelled(ps.value, behind);
    var colon := [58] + (ps.right + value);
    var key := MarksText(ps.key) + ([34] + (ps.left + colon));
    HeadTail(34, key);
    HeadTail(58, ps.right + value);
    MarksRead(ps.key, ps.left + colon);
    Marks();
    GapSkipped(ps.left, colon);
    SpelledStarts(ps.value, behind);
    GapSkipped(ps.right, value);
  }

  lemma BehindEntry(s: Text, k: Text, v: Value, soFar: Members, behind: Text, after: Text, next: Text)
    requires ReadMember(s) == Read(Pair(k, v), behind) && behind == after + next && Blanks(after) && next != [] && !IsBlank(next[0])
    ensures ReadMembers(s, soFar) ==
      if next[0] == 125 then Read(Put(soFar, k, v), next[1..])
      else if next[0] == 44 then ReadMembers(SkipBlanks(next[1..]), Put(soFar, k, v))
      else Fail
  {
    hide ReadMember, SkipBlanks, IsBlank, Put;
    GapSkipped(after, next);
  }

  lemma {:induction false} PairsRead(ps: Pairs, soFar: Members, rest: Text)
    requires PairsOk(ps) && ps.Entry?
    ensures ReadMembers(SpelledPairs(ps, [125] + rest), soFar) == Read(SaidPairs(ps, soFar), rest)
    decreases ps, 0
  {
    hide ReadValue, ReadMember, ReadMembers, SkipBlanks, IsBlank, Spelled, SpelledEntry, IsNumberUnit, Put, MarksUnits;
    var s := SpelledPairs(ps, [125] + rest);
    Marks();
    if ps.others.NoPairs? {
      var next := [125] + rest;
      HeadTail(125, rest);
      GapFree(ps.after, next);
      TreeReads(ps.value, ps.after + next);
      EntryReads(ps, ps.after + next);
      BehindEntry(s, MarksUnits(ps.key), Said(ps.value), soFar, ps.after + next, ps.after, next);
    } else {
      var others := SpelledPairs(ps.others, [125] + rest);
      var next := [44] + (ps.before + others);
      HeadTail(44, ps.before + others);
      GapFree(ps.after, next);
      TreeReads(ps.value, ps.after + next);
      EntryReads(ps, ps.after + next);
      BehindEntry(s, MarksUnits(ps.key), Said(ps.value), soFar, ps.after + next, ps.after, next);
      PairsStart(ps.others, rest);
      GapSkipped(ps.before, others);
      PairsRead(ps.others, Put(soFar, MarksUnits(ps.key), Said(ps.value)), rest);
    }
  }

  // ---------------------------------------------------------------- what is read is spelled

  lemma ScalarTree(s: Text) returns (t: Tree)
    requires ReadScalar(s).Read?
    ensures TreeOk(t) && s == Spelled(t, ReadScalar(s).rest) && ReadScalar(s).value == Said(t)
  {
    hide IsNumber, NumberRun;
    if NULL <= s {
      t := NullTree;
      Behind(NULL, s);
    } else if TRUE <= s {
      t := BoolTree(true);
      Behind(TRUE, s);
    } else if FALSE <= s {
      t := BoolTree(false);
      Behind(FALSE, s);
    } else {
      var n := NumberRun(s);
      t := NumberTree(s[..n]);
      Behind(s[..n], s);
    }
  }

  lemma Behind(p: Text, s: Text)
    requires p <= s
    ensures s == p + s[|p|..]
  {
  }

  lemma ScalarIs(s: Text)
    requires s != [] && s[0] !in [34, 91, 123]
    ensures ReadValue(s) == ReadScalar(s)
  {
  }

  /** The tree spells what the text was read for. */
  ghost predicate TreeOf(s: Text, t: Tree) {
    ReadValue(s).Read? && TreeOk(t) && s == Spelled(t, ReadValue(s).rest) && ReadValue(s).value == Said(t)
  }

  lemma StringTreeOf(s: Text) returns (t: Tree)
    requires s != [] && s[0] == 34 && ReadValue(s).Read?
    ensures TreeOf(s, t)
  {
    hide ReadValue, ReadString, MarksText;
    QuoteOpens(s);
    var marks := StringMarks(s[1..]);
    t := StringTree(marks);
    assert s == [34] + s[1..];
  }

  lemma EmptyTreeOf(s: Text, gap: Text, u: Text) returns (t: Tree)
    requires s != [] && u != [] && ((s[0] == 91 && u[0] == 93) || (s[0] == 123 && u[0] == 125))
    requires u == SkipBlanks(s[1..]) && s[1..] == gap + u && Blanks(gap)
    ensures TreeOf(s, t)
  {
    hide ReadValue, ReadItems, ReadMembers, SkipBlanks, IsBlank;
    assert s == [s[0]] + s[1..] && u == [u[0]] + u[1..];
    if s[0] == 91 {
      ListOpens(s);
      t := ListTree(gap, NoElements);
      assert TreeOk(t);
      assert Spelled(t, u[1..]) == [91] + (gap + ([93] + u[1..]));
      assert Said(t) == Arr(NoItems);
    } else {
      ObjectOpens(s);
      t := ObjectTree(gap, NoPairs);
      assert TreeOk(t);
      assert Spelled(t, u[1..]) == [123] + (gap + ([125] + u[1..]));
      assert Said(t) == Obj(NoMembers);
      assert ReadValue(s) == Read(Obj(NoMembers), u[1..]);
    }
  }

  lemma ListTreeOf(s: Text, gap: Text, u: Text, es: Elements)
    requires s != [] && s[0] == 91 && u == SkipBlanks(s[1..]) && s[1..] == gap + u && Blanks(gap) && !(u != [] && u[0] == 93)
    requires ReadItems(u).Read? && ElementsOk(es) && u == SpelledElements(es, [93] + ReadItems(u).rest) && ReadItems(u).value == SaidElements(es)
    ensures TreeOf(s, ListTree(gap, es))
  {
    hide ReadValue, ReadItems, SkipBlanks, IsBlank, SpelledElements;
    ListOpens(s);
    assert s == [s[0]] + s[1..];
  }

  lemma ObjectTreeOf(s: Text, gap: Text, u: Text, ps: Pairs)
    requires s != [] && s[0] == 123 && u == SkipBlanks(s[1..]) && s[1..] == gap + u && Blanks(gap) && !(u != [] && u[0] == 125)
    requires ReadMembers(u, NoMembers).Read? && PairsOk(ps) && u == SpelledPairs(ps, [125] + ReadMembers(u, NoMembers).rest)
    requires ReadMembers(u, NoMembers).value == SaidPairs(ps, NoMembers)
    ensures TreeOf(s, ObjectTree(gap, ps))
  {
    hide ReadValue, ReadMembers, SkipBlanks, IsBlank, SpelledPairs;
    ObjectOpens(s);
    assert s == [s[0]] + s[1..];
  }

  lemma {:induction false} ReadTree(s: Text) returns (t: Tree)
    requires ReadValue(s).Read?
    ensures TreeOf(s, t)
    decreases |s|, 0
  {
    assert s != [];
    hide ReadValue, ReadItems, ReadMembers, ReadString, SkipBlanks, IsBlank, SpelledElements, SpelledPairs, SaidElements, SaidPairs;
    if s[0] == 34 {
      t := StringTreeOf(s);
    } else if s[0] == 91 || s[0] == 123 {
      var gap := GapBefore(s[1..]);
      var u := SkipBlanks(s[1..]);
      if u != [] && u[0] == (if s[0] == 91 then 93 else 125) {
        t := EmptyTreeOf(s, gap, u);
      } else if s[0] == 91 {
        ListOpens(s);
        var es := ReadElements(u);
        t := ListTree(gap, es);
        ListTreeOf(s, gap, u, es);
      } else {
        ObjectOpens(s);
        var ps := ReadPairs(u, NoMembers);
        t := ObjectTree(gap, ps);
        ObjectTreeOf(s, gap, u, ps);
      }
    } else {
      ScalarIs(s);
      t := ScalarTree(s);
    }
  }

  lemma ItemsUnfold(s: Text)
    requires ReadItems(s).Read?
    ensures ReadValue(s).Read? && SkipBlanks(ReadValue(s).rest) != []
    ensures
      var next := SkipBlanks(ReadValue(s).rest);
      || (next[0] == 93 && ReadItems(s) == Read(Item(ReadValue(s).value, NoItems), next[1..]))
      || (&& next[0] == 44 && ReadItems(SkipBlanks(next[1..])).Read?
          && |SkipBlanks(next[1..])| < |s|
          && ReadItems(s) == Read(Item(ReadValue(s).value, ReadItems(SkipBlanks(next[1..])).value), ReadItems(SkipBlanks(next[1..])).rest))
  {
    hide ReadValue;
  }

  lemma {:induction false} ReadElements(s: Text) returns (es: Elements)
    requires ReadItems(s).Read?
    ensures es.Element? && ElementsOk(es) && s == SpelledElements(es, [93] + ReadItems(s).rest) && ReadItems(s).value == SaidElements(es)
    decreases |s|, 1
  {
    hide ReadValue, ReadItems, SkipBlanks, IsBlank, Spelled, Said;
    ItemsUnfold(s);
    var first := ReadTree(s);
    var after := GapBefore(ReadValue(s).rest);
    var next := SkipBlanks(ReadValue(s).rest);
    assert next == [next[0]] + next[1..];
    if next[0] == 93 {
      es := Element(first, after, [], NoElements);
    } else {
      var before := GapBefore(next[1..]);
      var others := ReadElements(SkipBlanks(next[1..]));
      es := Element(first, after, before, others);
    }
  }

  lemma MemberUnfolds(s: Text)
    requires ReadMember(s).Read?
    ensures s != [] && s[0] == 34 && ReadString(s[1..]).Read?
    ensures
      var key := ReadString(s[1..]);
      var colon := SkipBlanks(key.rest);
      && colon != [] && colon[0] == 58 && ReadValue(SkipBlanks(colon[1..])).Read?
      && |SkipBlanks(colon[1..])| < |s|
      && ReadMember(s) == Read(Pair(key.value, ReadValue(SkipBlanks(colon[1..])).value), ReadValue(SkipBlanks(colon[1..])).rest)
  {
    hide ReadValue, ReadString;
  }

  lemma MembersUnfold(s: Text, soFar: Members)
    requires ReadMembers(s, soFar).Read?
    ensures ReadMember(s).Read? && SkipBlanks(ReadMember(s).rest) != []
    ensures
      var next := SkipBlanks(ReadMember(s).rest);
      var put := Put(soFar, ReadMember(s).value.key, ReadMember(s).value.value);
      || (next[0] == 125 && ReadMembers(s, soFar) == Read(put, next[1..]))
      || (&& next[0] == 44 && |SkipBlanks(next[1..])| < |s| && ReadMembers(s, soFar) == ReadMembers(SkipBlanks(next[1..]), put))
  {
    hide ReadMember, Put;
  }

  lemma {:induction false} ReadPairs(s: Text, soFar: Members) returns (ps: Pairs)
    requires ReadMembers(s, soFar).Read?
    ensures ps.Entry? && PairsOk(ps) && s == SpelledPairs(ps, [125] + ReadMembers(s, soFar).rest)
    ensures ReadMembers(s, soFar).value == SaidPairs(ps, soFar)
    decreases |s|, 1
  {
    hide ReadValue, ReadString, ReadMember, ReadMembers, SkipBlanks, IsBlank, Spelled, Said, MarksText, MarksUnits, Put;
    MembersUnfold(s, soFar);
    MemberUnfolds(s);
    var key := StringMarks(s[1..]);
    var left := GapBefore(ReadString(s[1..]).rest);
    var colon := SkipBlanks(ReadString(s[1..]).rest);
    var right := GapBefore(colon[1..]);
    var value := ReadTree(SkipBlanks(colon[1..]));
    assert s == [34] + s[1..] && colon == [58] + colon[1..];
    var after := GapBefore(ReadMember(s).rest);
    var next := SkipBlanks(ReadMember(s).rest);
    assert next == [next[0]] + next[1..];
    if next[0] == 125 {
      ps := Entry(key, left, right, value, after, [], NoPairs);
    } else {
      var before := GapBefore(next[1..]);
      var others := ReadPairs(SkipBlanks(next[1..]), Put(soFar, ReadMember(s).value.key, ReadMember(s).value.value));
      ps := Entry(key, left, right, value, after, before, others);
    }
  }

  // ---------------------------------------------------------------- whole texts

  /** A text spells a value: one tree, with blanks around it. */
  ghost predicate Spells(s: Text, v: Value) {
    exists before: Text, t: Tree, after: Text ::
      Blanks(before) && Blanks(after) && TreeOk(t) && s == before + Spelled(t, after) && Said(t) == v
  }

  lemma BlanksFree(s: Text)
    requires Blanks(s)
    ensures EndsNumber(s) && SkipBlanks(s) == []
  {
    GapSkipped(s, []);
    assert s + [] == s;
  }

  /** `JSON.parse` accepts a text if and only if the grammar has it, and reads it for what it says. */
  lemma ParseMeans(s: Text, v: Value)
    ensures Parse(s) == Parsed(v) <==> Spells(s, v)
  {
    hide ReadValue, SkipBlanks, IsBlank, Spelled, Said;
    if Parse(s) == Parsed(v) {
      var before := GapBefore(s);
      var t := ReadTree(SkipBlanks(s));
      var after := GapBefore(ReadValue(SkipBlanks(s)).rest);
      assert after + [] == after;
      assert Spells(s, v);
    }
    if before: Text, t: Tree, after: Text
       :| Blanks(before) && Blanks(after) && TreeOk(t) && s == before + Spelled(t, after) && Said(t) == v {
      SpelledStarts(t, after);
      GapSkipped(before, Spelled(t, after));
      BlanksFree(after);
      TreeReads(t, after);
    }
  }

  // ---------------------------------------------------------------- members under one key

  predicate Lists(ms: Members, k: Text, v: Value) {
    ms.Member? && ((ms.key == k && ms.value == v) || Lists(ms.rest, k, v))
  }

  predicate HasKey(ms: Members, k: Text) {
    ms.Member? && (ms.key == k || HasKey(ms.rest, k))
  }

  function Without(ms: Members, k: Text): Members {
    match ms
    case NoMembers => NoMembers
    case Member(k0, v0, rest) => if k0 == k then Without(rest, k) else Member(k0, v0, Without(rest, k))
  }

  lemma {:induction false} AllPrecede(k0: Text, ms: Members, k: Text, v: Value)
    requires PrecedesAll(k0, ms) && MayPrecede(k0, k)
    ensures PrecedesAll(k0, Put(ms, k, v))
  {
    hide MayPrecede, IsArrayIndex, NumeralLess;
    if ms.Member? { AllPrecede(k0, ms.rest, k, v); }
  }

  lemma {:induction false} IndexPrecedes(k: Text, k0: Text, ms: Members)
    requires IsArrayIndex(k) && !(IsArrayIndex(k0) && NumeralLess(k0, k)) && k != k0 && PrecedesAll(k0, ms)
    ensures MayPrecede(k, k0) && PrecedesAll(k, ms)
  {
    MayPrecedeIndex(k, k0);
    if ms.Member? {
      IndexPrecedes(k, k0, ms.rest);
      PrecedesThrough(k, k0, ms.key);
    }
  }

  lemma MayPrecedeIndex(k: Text, k0: Text)
    requires IsArrayIndex(k) && !(IsArrayIndex(k0) && NumeralLess(k0, k)) && k != k0
    ensures MayPrecede(k, k0)
  {
    hide IsArrayIndex;
    LessTotal(k, k0);
  }

  lemma PrecedesThrough(a: Text, b: Text, c: Text)
    requires IsArrayIndex(a) && MayPrecede(a, b) && MayPrecede(b, c)
    ensures MayPrecede(a, c)
  {
    hide IsArrayIndex;
    if IsArrayIndex(c) && |a| == |b| == |c| { LessTransitive(a, b, c); }
    LessTotal(a, c);
    if a == c { LessTotal(a, b); }
  }

  /** One more member: its key is listed with its value and no other, every other member stays, and the order is kept. */
  lemma {:induction false} PutMeans(ms: Members, k: Text, v: Value)
    requires OwnOrder(ms)
    ensures OwnOrder(Put(ms, k, v)) && Without(Put(ms, k, v), k) == Without(ms, k)
    ensures HasKey(Put(ms, k, v), k) && forall w :: Lists(Put(ms, k, v), k, w) ==> w == v
  {
    hide IsArrayIndex, NumeralLess, MayPrecede;
    if ms.Member? {
      PutMeans(ms.rest, k, v);
      if ms.key == k {
        NotAgain(k, ms.rest);
      } else if IsArrayIndex(k) && !(IsArrayIndex(ms.key) && NumeralLess(ms.key, k)) {
        IndexPrecedes(k, ms.key, ms.rest);
        NotAgain(k, ms);
      } else {
        PrecedesNew(ms.key, k);
        AllPrecede(ms.key, ms.rest, k, v);
      }
    }
  }

  lemma PrecedesNew(k0: Text, k: Text)
    requires k0 != k && !(IsArrayIndex(k) && !(IsArrayIndex(k0) && NumeralLess(k0, k)))
    ensures MayPrecede(k0, k)
  {
  }

  lemma {:induction false} NotAgain(k: Text, ms: Members)
    requires PrecedesAll(k, ms)
    ensures !HasKey(ms, k) && forall w :: !Lists(ms, k, w)
  {
    if ms.Member? { NotAgain(k, ms.rest); }
  }

  /** Whatever is read is a value as there are at run time: own keys in order, each once. */
  lemma {:induction false} SaidIsJs(t: Tree)
    requires TreeOk(t)
    ensures IsJs(Said(t))
  {
    hide OwnOrder, IsNumber;
    match t
    case NullTree =>
    case BoolTree(_) =>
    case NumberTree(_) =>
    case StringTree(_) =>
    case ListTree(_, es) => ElementsJs(es);
    case ObjectTree(_, ps) =>
      assert OwnOrder(NoMembers) by { NothingOrdered(); }
      PairsJs(ps, NoMembers);
  }

  lemma NothingOrdered()
    ensures OwnOrder(NoMembers)
  {
  }

  lemma {:induction false} ElementsJs(es: Elements)
    requires ElementsOk(es)
    ensures ItemsJs(SaidElements(es))
  {
    if es.Element? {
      SaidIsJs(es.first);
      ElementsJs(es.others);
    }
  }

  lemma {:induction false} PairsJs(ps: Pairs, soFar: Members)
    requires PairsOk(ps) && OwnOrder(soFar) && MembersJs(soFar)
    ensures OwnOrder(SaidPairs(ps, soFar)) && MembersJs(SaidPairs(ps, soFar))
  {
    hide OwnOrder, Put, MarksUnits;
    if ps.Entry? {
      SaidIsJs(ps.value);
      var k, v := MarksUnits(ps.key), Said(ps.value);
      PutMeans(soFar, k, v);
      PutJs(soFar, k, v);
      PairsJs(ps.others, Put(soFar, k, v));
    }
  }

  lemma {:induction false} PutJs(ms: Members, k: Text, v: Value)
    requires MembersJs(ms) && IsJs(v)
    ensures MembersJs(Put(ms, k, v))
  {
    hide IsJs, IsArrayIndex, NumeralLess;
    if ms.Member? { PutJs(ms.rest, k, v); }
  }

  /** So everything parsed prints and parses again as itself. */
  lemma ParsedIsJs(s: Text)
    requires Parse(s).Parsed?
    ensures IsJs(Parse(s).value)
  {
    hide Parse, IsJs, Spelled, Said, Blanks;
    ParseMeans(s, Parse(s).value);
    var before, t, after :|
      Blanks(before) && Blanks(after) && TreeOk(t) && s == before + Spelled(t, after) && Said(t) == Parse(s).value;
    SaidIsJs(t);
  }
}
