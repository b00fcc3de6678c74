/**
 `extractJson`: finding the JSON value in a model's answer. The whole text is tried first, then
 the body of a code fence, then the text from the first bracket on, then the text up to the
 brace that closes the first one.
 */
module JsonExtraction {
  import opened JsonText

  datatype Extraction = Found(value: Value) | MalformedFence | NoJson

  const TICK: Unit := 96
  const NEWLINE: Unit := 10
  const JSON: Text := [106, 115, 111, 110]

  /** First index of a code unit, or -1: `String.prototype.indexOf`. */
  function IndexOf(s: Text, u: Unit): (i: int)
    ensures -1 <= i < |s|
    ensures i >= 0 ==> s[i] == u && forall j :: 0 <= j < i ==> s[j] != u
    ensures i == -1 ==> u !in s
  {
    if s == [] then -1
    else if s[0] == u then 0
    else
      var i := IndexOf(s[1..], u);
      assert u in s ==> u in s[1..];
      assert i >= 0 ==> s[i + 1] == u && forall j :: 1 <= j < i + 1 ==> s[j] == s[1..][j - 1] != u;
      if i == -1 then -1 else i + 1
  }

  // ---------------------------------------------------------------- the brace scan

  function Step(u: Unit): int {
    if u == OPEN then 1 else if u == CLOSE then -1 else 0
  }

  function Depth(s: Text): int {
    if s == [] then 0 else Depth(s[..|s| - 1]) + Step(s[|s| - 1])
  }

  /** A closing brace at which the depth of the text is back at zero. */
  predicate Closes(s: Text, i: nat) {
    i < |s| && s[i] == CLOSE && Depth(s[..i + 1]) == 0
  }

  ghost predicate FirstClose(s: Text, end: int) {
    if end < 0 then end == -1 && forall i: nat :: !Closes(s, i)
    else Closes(s, end) && forall i: nat :: i < end ==> !Closes(s, i)
  }

  /** The scan loop: `end` is the offset of the brace that closes the first one, or -1. */
  method ScanForClose(s: Text) returns (end: int)
    ensures FirstClose(s, end)
  {
    var depth := 0;
    end := -1;
    for i := 0 to |s|
      invariant depth == Depth(s[..i])
      invariant end == -1 && forall j: nat :: j < i ==> !Closes(s, j)
    {
      assert s[..i + 1][..i] == s[..i];
      if s[i] == OPEN {
        depth := depth + 1;
      }
      if s[i] == CLOSE {
        depth := depth - 1;
        if depth == 0 {
          return i;
        }
      }
    }
  }

  lemma FirstCloseUnique(s: Text, a: int, b: int)
    requires FirstClose(s, a) && FirstClose(s, b)
    ensures a == b
  {
  }

  ghost function CloseOf(s: Text): (end: int)
    ensures FirstClose(s, end)
  {
    if exists i: nat :: Closes(s, i) then
      CloseExists(s);
      var i: nat :| Closes(s, i) && forall j: nat :: j < i ==> !Closes(s, j);
      i
    else -1
  }

  lemma CloseExists(s: Text)
    requires exists i: nat :: Closes(s, i)
    ensures exists i: nat :: Closes(s, i) && forall j: nat :: j < i ==> !Closes(s, j)
  {
    var k: nat :| Closes(s, k);
    while exists j: nat :: j < k && Closes(s, j)
      invariant Closes(s, k)
      decreases k
    {
      var j: nat :| j < k && Closes(s, j);
      k := j;
    }
  }

  /** Up to the closing brace the depth never falls below one. */
  lemma {:induction false} DepthPositive(s: Text, end: int, i: nat)
    requires s != [] && s[0] == OPEN && FirstClose(s, end)
    requires i < |s| && (end >= 0 ==> i < end)
    ensures Depth(s[..i + 1]) >= 1
  {
    assert s[..i + 1][..i] == s[..i];
    if i > 0 {
      DepthPositive(s, end, i - 1);
      assert !Closes(s, i);
    } else {
      assert Depth(s[..0]) == 0;
    }
  }

  // ---------------------------------------------------------------- code fences

  /** The white space of `\s` in a regular expression. */
  predicate IsSpace(u: Unit) {
    9 <= u <= 13 || u == 32 || u == 0xA0 || u == 0x1680 || 0x2000 <= u <= 0x200A
    || u == 0x2028 || u == 0x2029 || u == 0x202F || u == 0x205F || u == 0x3000 || u == 0xFEFF
  }

  predicate FenceAt(s: Text, i: nat) {
    i + 3 <= |s| && s[i] == TICK && s[i + 1] == TICK && s[i + 2] == TICK
  }

  function FindFence(s: Text, from: nat): (i: int)
    ensures i == -1 || (from <= i && FenceAt(s, i))
    ensures forall j: nat :: from <= j && (j < i || i == -1) ==> !FenceAt(s, j)
    decreases |s| - from
  {
    if from + 3 > |s| then -1 else if FenceAt(s, from) then from else FindFence(s, from + 1)
  }

  function SkipSpaces(s: Text, from: nat): (i: nat)
    requires from <= |s|
    ensures from <= i <= |s| && (i < |s| ==> !IsSpace(s[i]))
    ensures forall j :: from <= j < i ==> IsSpace(s[j])
    decreases |s| - from
  {
    if from < |s| && IsSpace(s[from]) then SkipSpaces(s, from + 1) else from
  }

  datatype Fence = NoFence | Body(text: Text)

  /** The first match of ```` ```(?:json)?\s*\n?([\s\S]*?)\n?``` ````: no backtick is skipped on the way in. */
  function FenceBody(s: Text): Fence {
    var open := FindFence(s, 0);
    if open == -1 then NoFence
    else
      var tagged := if JSON <= s[open + 3..] then open + 7 else open + 3;
      var start := SkipSpaces(s, tagged);
      var close := FindFence(s, start);
      if close == -1 then NoFence
      else Body(s[start..if close > start && s[close - 1] == NEWLINE then close - 1 else close])
  }

  // ---------------------------------------------------------------- extractJson

  /** The last two fallbacks: the text from a bracket on, then the text up to the closing brace. */
  ghost function FromBracket(sub: Text): Extraction
    requires sub != []
  {
    match Parse(sub)
    case Parsed(v) => Found(v)
    case SyntaxError =>
      if sub[0] == OPEN && CloseOf(sub) > 0 then
        match Parse(sub[..CloseOf(sub) + 1])
        case Parsed(v) => Found(v)
        case SyntaxError => NoJson
      else NoJson
  }

  ghost function Extracted(content: Text): Extraction {
    match Parse(content)
    case Parsed(v) => Found(v)
    case SyntaxError =>
      match FenceBody(content)
      case Body(text) => (match Parse(text) case Parsed(v) => Found(v) case SyntaxError => MalformedFence)
      case NoFence =>
        var brace, bracket := IndexOf(content, OPEN), IndexOf(content, OPEN_LIST);
        var start := if brace >= 0 && (bracket < 0 || brace < bracket) then brace else bracket;
        if start < 0 then NoJson else FromBracket(content[start..])
  }

  method ExtractJson(content: Text) returns (r: Extraction)
    ensures r == Extracted(content)
  {
    hide Parse, FenceBody, IndexOf, FirstClose;
    var whole := Parse(content);
    if whole.Parsed? {
      return Found(whole.value);
    }
    var fence := FenceBody(content);
    if fence.Body? {
      var inside := Parse(fence.text);
      return if inside.Parsed? then Found(inside.value) else MalformedFence;
    }
    var brace, bracket := IndexOf(content, OPEN), IndexOf(content, OPEN_LIST);
    var start := if brace >= 0 && (bracket < 0 || brace < bracket) then brace else bracket;
    if start >= 0 {
      var sub := content[start..];
      var tail := Parse(sub);
      if tail.Parsed? {
        return Found(tail.value);
      }
      if content[start] == OPEN {
        var end := ScanForClose(sub);
        FirstCloseUnique(sub, end, CloseOf(sub));
        if end > 0 {
          var slice := Parse(sub[..end + 1]);
          if slice.Parsed? {
            return Found(slice.value);
          }
        }
      }
    }
    return NoJson;
  }

  // ---------------------------------------------------------------- reading more text

  lemma {:induction false} SkipBlanksExtends(s: Text, t: Text)
    ensures SkipBlanks(s) != [] ==> SkipBlanks(s + t) == SkipBlanks(s) + t
    ensures SkipBlanks(s) == [] ==> SkipBlanks(s + t) == SkipBlanks(t)
  {
    if s == [] {
      assert s + t == t;
    } else if IsBlank(s[0]) {
      SkipBlanksExtends(s[1..], t);
      assert (s + t)[1..] == s[1..] + t;
    }
  }

  lemma {:induction false} SkipBlanksAll(s: Text)
    ensures SkipBlanks(s) == [] <==> forall i :: 0 <= i < |s| ==> IsBlank(s[i])
  {
    if s != [] && IsBlank(s[0]) {
      SkipBlanksAll(s[1..]);
      assert forall i :: 1 <= i < |s| ==> s[i] == s[1..][i - 1];
    }
  }

  lemma {:induction false} ReadStringExtends(s: Text, t: Text)
    requires ReadString(s).Read?
    ensures ReadString(s + t) == Read(ReadString(s).value, ReadString(s).rest + t)
    decreases |s|
  {
    hide HexValue, Unescape;
    if s[0] == QUOTE {
      assert (s + t)[1..] == s[1..] + t;
    } else if s[0] != BACKSLASH {
      ReadStringExtends(s[1..], t);
      assert (s + t)[1..] == s[1..] + t;
    } else if Unescape(s[1]) >= 0 {
      ReadStringExtends(s[2..], t);
      assert (s + t)[2..] == s[2..] + t;
    } else {
      ReadStringExtends(s[6..], t);
      assert (s + t)[6..] == s[6..] + t;
    }
  }

  lemma PrefixExtends(l: Text, s: Text, t: Text)
    requires l != [] && s != []
    ensures l <= s ==> l <= s + t
    ensures l[0] != s[0] ==> !(l <= s + t) && !(l <= s)
  {
    assert (s + t)[0] == s[0];
    if l <= s {
      assert (s + t)[..|l|] == s[..|l|];
    }
  }

  lemma ReadScalarExtends(s: Text, t: Text)
    requires ReadScalar(s).Read? && ReadScalar(s).rest != []
    ensures ReadScalar(s + t) == Read(ReadScalar(s).value, ReadScalar(s).rest + t)
  {
    hide IsNumber, IsNumberUnit;
    var n := |s| - |ReadScalar(s).rest|;
    SplitExtends(s, t, n);
    PrefixExtends(NULL, s, t);
    PrefixExtends(TRUE, s, t);
    PrefixExtends(FALSE, s, t);
    if !(NULL <= s) && !(TRUE <= s) && !(FALSE <= s) {
      NumberRunStops(s[..n], s[n..] + t);
      assert s[..n] + (s[n..] + t) == s + t;
      NumberStart(s[..n]);
    }
  }

  lemma SplitExtends(s: Text, t: Text, n: nat)
    requires n <= |s|
    ensures (s + t)[..n] == s[..n] && (s + t)[n..] == s[n..] + t
  {
  }

  lemma NumberStart(s: Text)
    requires IsNumber(s)
    ensures s != [] && s[0] != NULL[0] && s[0] != TRUE[0] && s[0] != FALSE[0]
  {
  }

  lemma {:induction false} ReadValueExtends(s: Text, t: Text)
    requires ReadValue(s).Read? && ReadValue(s).rest != []
    ensures ReadValue(s + t) == Read(ReadValue(s).value, ReadValue(s).rest + t)
    decreases |s|, 1
  {
    hide ReadItems, ReadMembers, ReadString, ReadScalar;
    assert (s + t)[0] == s[0] && (s + t)[1..] == s[1..] + t;
    if s[0] != OPEN && s[0] != OPEN_LIST && s[0] != QUOTE {
      ReadScalarExtends(s, t);
    } else {
      ReadOpenedExtends(s, t);
    }
  }

  /** The same for strings, lists and objects, which are complete at their closing mark even at the very end. */
  lemma {:induction false} ReadOpenedExtends(s: Text, t: Text)
    requires s != [] && (s[0] == OPEN || s[0] == OPEN_LIST || s[0] == QUOTE) && ReadValue(s).Read?
    ensures ReadValue(s + t) == Read(ReadValue(s).value, ReadValue(s).rest + t)
    decreases |s|, 0
  {
    hide ReadItems, ReadMembers, ReadString, ReadScalar;
    assert (s + t)[0] == s[0] && (s + t)[1..] == s[1..] + t;
    var u := SkipBlanks(s[1..]);
    SkipBlanksExtends(s[1..], t);
    if s[0] == QUOTE {
      ReadStringExtends(s[1..], t);
    } else if u == [] {
      ReadNothing(NoMembers);
    } else if s[0] == OPEN && u[0] != CLOSE {
      ReadMembersExtends(u, NoMembers, t);
    } else if s[0] == OPEN_LIST && u[0] != CLOSE_LIST {
      ReadItemsExtends(u, t);
    } else {
      assert (u + t)[1..] == u[1..] + t;
    }
  }

  lemma ReadNothing(soFar: Members)
    ensures ReadItems([]).Fail? && ReadMembers([], soFar).Fail?
  {
  }

  lemma {:induction false} ReadItemsExtends(s: Text, t: Text)
    requires ReadItems(s).Read?
    ensures ReadItems(s + t) == Read(ReadItems(s).value, ReadItems(s).rest + t)
    decreases |s|, 2
  {
    hide ReadValue;
    var after := ReadValue(s).rest;
    var u := SkipBlanks(after);
    ReadValueExtends(s, t);
    SkipBlanksExtends(after, t);
    assert (u + t)[1..] == u[1..] + t;
    if u[0] == COMMA {
      SkipBlanksExtends(u[1..], t);
      if SkipBlanks(u[1..]) == [] {
        ReadNothing(NoMembers);
      } else {
        ReadItemsExtends(SkipBlanks(u[1..]), t);
      }
    }
  }

  lemma {:induction false} ReadMemberExtends(s: Text, t: Text)
    requires ReadMember(s).Read? && ReadMember(s).rest != []
    ensures ReadMember(s + t) == Read(ReadMember(s).value, ReadMember(s).rest + t)
    decreases |s|, 2
  {
    hide ReadValue, ReadString;
    assert (s + t)[0] == s[0] && (s + t)[1..] == s[1..] + t;
    ReadStringExtends(s[1..], t);
    var afterKey := ReadString(s[1..]).rest;
    var colon := SkipBlanks(afterKey);
    SkipBlanksExtends(afterKey, t);
    assert (colon + t)[1..] == colon[1..] + t;
    var start := SkipBlanks(colon[1..]);
    SkipBlanksExtends(colon[1..], t);
    ReadValueNonempty(start);
    ReadValueExtends(start, t);
  }

  lemma {:induction false} ReadMembersExtends(s: Text, soFar: Members, t: Text)
    requires ReadMembers(s, soFar).Read?
    ensures ReadMembers(s + t, soFar) == Read(ReadMembers(s, soFar).value, ReadMembers(s, soFar).rest + t)
    decreases |s|, 3
  {
    hide ReadMember, Put;
    ReadMemberExtends(s, t);
    var Read(Pair(k, v), after) := ReadMember(s);
    var u := SkipBlanks(after);
    SkipBlanksExtends(after, t);
    assert (u + t)[1..] == u[1..] + t;
    if u[0] == COMMA {
      SkipBlanksExtends(u[1..], t);
      if SkipBlanks(u[1..]) == [] {
        ReadNothing(Put(soFar, k, v));
      } else {
        ReadMembersExtends(SkipBlanks(u[1..]), Put(soFar, k, v), t);
      }
    }
  }

  lemma ReadValueNonempty(s: Text)
    requires ReadValue(s).Read?
    ensures s != []
  {
  }

  // ---------------------------------------------------------------- braces of printed values

  lemma {:induction false} DepthConcat(a: Text, b: Text)
    ensures Depth(a + b) == Depth(a) + Depth(b)
  {
    if b == [] {
      assert a + b == a;
    } else {
      DepthConcat(a, b[..|b| - 1]);
      assert (a + b)[..|a + b| - 1] == a + b[..|b| - 1];
    }
  }

  ghost predicate Balanced(s: Text) {
    Depth(s) == 0 && forall i :: 0 <= i <= |s| ==> Depth(s[..i]) >= 0
  }

  lemma BalancedConcat(a: Text, b: Text)
    requires Balanced(a) && Balanced(b)
    ensures Balanced(a + b)
  {
    DepthConcat(a, b);
    forall i | 0 <= i <= |a + b| ensures Depth((a + b)[..i]) >= 0 {
      if i <= |a| {
        assert (a + b)[..i] == a[..i];
      } else {
        assert (a + b)[..i] == a + b[..i - |a|];
        DepthConcat(a, b[..i - |a|]);
      }
    }
  }

  predicate NoBraces(s: Text) {
    forall i :: 0 <= i < |s| ==> s[i] != OPEN && s[i] != CLOSE
  }

  lemma {:induction false} NoBracesDepth(s: Text)
    requires NoBraces(s)
    ensures Depth(s) == 0
  {
    if s != [] { NoBracesDepth(s[..|s| - 1]); }
  }

  lemma NoBracesBalanced(s: Text)
    requires NoBraces(s)
    ensures Balanced(s)
  {
    NoBracesDepth(s);
    forall i | 0 <= i <= |s| ensures Depth(s[..i]) >= 0 {
      NoBracesDepth(s[..i]);
    }
  }

  /** Braces around a balanced text are closed by the last of them and by no other. */
  lemma BracedBalanced(s: Text)
    requires Balanced(s)
    ensures Balanced([OPEN] + s + [CLOSE])
    ensures forall i :: 0 < i <= |s| + 1 ==> Depth(([OPEN] + s + [CLOSE])[..i]) >= 1
  {
    var b := [OPEN] + s + [CLOSE];
    forall i | 0 < i <= |s| + 1 ensures Depth(b[..i]) >= 1 {
      assert b[..i] == [OPEN] + s[..i - 1];
      DepthConcat([OPEN], s[..i - 1]);
    }
    DepthConcat([OPEN] + s, [CLOSE]);
    assert b[..|s| + 1] == [OPEN] + s;
    DepthConcat([OPEN], s);
    assert b[..|b|] == b && b[..0] == [];
  }

  /** No string of the value holds a brace, keys included. */
  predicate BraceFree(v: Value) {
    match v
    case Str(text) => NoBraces(text)
    case Arr(items) => ItemsBraceFree(items)
    case Obj(ms) => MembersBraceFree(ms)
    case _ => true
  }

  predicate ItemsBraceFree(items: Items) {
    items.Item? ==> BraceFree(items.first) && ItemsBraceFree(items.others)
  }

  predicate MembersBraceFree(ms: Members) {
    ms.Member? ==> NoBraces(ms.key) && BraceFree(ms.value) && MembersBraceFree(ms.rest)
  }

  lemma {:induction false} EscapedNoBraces(s: Text)
    requires NoBraces(s)
    ensures NoBraces(Escaped(s))
    decreases |s|
  {
    if s != [] {
      EscapedNoBraces(s[HeadLength(s)..]);
    }
  }

  lemma QuotedBalanced(s: Text)
    requires NoBraces(s)
    ensures Balanced(Quoted(s))
  {
    EscapedNoBraces(s);
    NoBracesBalanced(Quoted(s));
  }

  lemma {:induction false} PrintBalanced(v: Value)
    requires IsJs(v) && BraceFree(v)
    ensures Balanced(Print(v))
    decreases v
  {
    hide Balanced, Quoted;
    match v
    case Str(text) => QuotedBalanced(text);
    case Arr(items) =>
      PrintItemsBalanced(items);
      NoBracesBalanced([OPEN_LIST]);
      NoBracesBalanced([CLOSE_LIST]);
      BalancedConcat([OPEN_LIST], PrintItems(items));
      BalancedConcat([OPEN_LIST] + PrintItems(items), [CLOSE_LIST]);
    case Obj(ms) =>
      PrintMembersBalanced(ms);
      BracedBalanced(PrintMembers(ms));
    case _ => NoBracesBalanced(Print(v));
  }

  lemma {:induction false} PrintItemsBalanced(items: Items)
    requires ItemsJs(items) && ItemsBraceFree(items)
    ensures Balanced(PrintItems(items))
    decreases items
  {
    hide Balanced;
    if items.NoItems? {
      NoBracesBalanced([]);
    } else {
      PrintBalanced(items.first);
      PrintItemsBalanced(items.others);
      NoBracesBalanced([COMMA]);
      BalancedConcat(Print(items.first), [COMMA]);
      BalancedConcat(Print(items.first) + [COMMA], PrintItems(items.others));
    }
  }

  lemma {:induction false} PrintMembersBalanced(ms: Members)
    requires MembersJs(ms) && MembersBraceFree(ms)
    ensures Balanced(PrintMembers(ms))
    decreases ms
  {
    hide Balanced, Quoted;
    if ms.NoMembers? {
      NoBracesBalanced([]);
    } else {
      var head := Quoted(ms.key) + [COLON];
      QuotedBalanced(ms.key);
      PrintBalanced(ms.value);
      PrintMembersBalanced(ms.rest);
      NoBracesBalanced([COLON]);
      NoBracesBalanced([COMMA]);
      BalancedConcat(Quoted(ms.key), [COLON]);
      BalancedConcat(head, Print(ms.value));
      BalancedConcat(head + Print(ms.value), [COMMA]);
      BalancedConcat(head + Print(ms.value) + [COMMA], PrintMembers(ms.rest));
    }
  }

  /** The scan over a printed object stops at its own last brace, whatever follows. */
  lemma ObjectCloses(v: Value, post: Text)
    requires v.Obj? && IsJs(v) && BraceFree(v)
    ensures CloseOf(Print(v) + post) == |Print(v)| - 1
  {
    hide Print, CloseOf;
    var inner := PrintMembers(v.members);
    PrintMembersBalanced(v.members);
    BracedBalanced(inner);
    assert Print(v) == [OPEN] + inner + [CLOSE] by { PrintObject(v); }
    var p, s := Print(v), Print(v) + post;
    var end := |p| - 1;
    assert s[..end + 1] == p && p[..|p|] == p;
    forall i: nat | i < end ensures !Closes(s, i) {
      assert s[..i + 1] == p[..i + 1];
    }
    FirstCloseUnique(s, end, CloseOf(s));
  }

  lemma PrintObject(v: Value)
    requires v.Obj?
    ensures Print(v) == [OPEN] + PrintMembers(v.members) + [CLOSE]
  {
  }

  // ---------------------------------------------------------------- what extraction returns

  /** The prose before a value: no bracket in it, and it does not start a string. */
  predicate IsProse(pre: Text) {
    OPEN !in pre && OPEN_LIST !in pre && (SkipBlanks(pre) == [] || SkipBlanks(pre)[0] != QUOTE)
  }

  /** What a scalar takes from a text is a literal or made of number units. */
  lemma ScalarTakes(s: Text, u: Unit)
    requires ReadScalar(s).Read? && !IsNumberUnit(u) && u !in NULL + TRUE + FALSE
    ensures var n := |s| - |ReadScalar(s).rest|; 0 <= n <= |s| && u !in s[..n]
  {
    hide IsNumber;
    var n := |s| - |ReadScalar(s).rest|;
    if NULL <= s {
      assert s[..n] == NULL;
    } else if TRUE <= s {
      assert s[..n] == TRUE;
    } else if FALSE <= s {
      assert s[..n] == FALSE;
    }
  }

  lemma ReadsAsScalar(s: Text)
    requires s != [] && s[0] != OPEN && s[0] != OPEN_LIST && s[0] != QUOTE
    ensures ReadValue(s) == ReadScalar(s)
  {
    hide ReadScalar, ReadItems, ReadMembers, ReadString;
  }

  /** A text that starts with no bracket and no quote is not JSON if it holds one unit that is neither
      blank, nor part of a number, nor a letter of a literal. */
  lemma ScalarStops(s: Text, u: Unit)
    requires s != [] && !IsBlank(s[0]) && s[0] != OPEN && s[0] != OPEN_LIST && s[0] != QUOTE
    requires u in s && !IsBlank(u) && !IsNumberUnit(u) && u !in NULL + TRUE + FALSE
    ensures Parse(s) == SyntaxError
  {
    hide ReadValue, ReadScalar;
    SkipNone(s);
    ReadsAsScalar(s);
    var r := ReadScalar(s);
    if r.Read? {
      ScalarTakes(s, u);
      var n := |s| - |r.rest|;
      assert s == s[..n] + r.rest;
      assert u in r.rest;
      SkipBlanksAll(r.rest);
    }
  }

  lemma ParseOfValueText(v: Value, post: Text)
    requires IsJs(v) && (v.Num? ==> EndsNumber(post))
    ensures Parse(Print(v) + post) == if SkipBlanks(post) == [] then Parsed(v) else SyntaxError
  {
    hide ReadValue, Print;
    ReadPrinted(v, post);
    assert (Print(v) + post)[0] == Print(v)[0];
    SkipNone(Print(v) + post);
  }

  lemma {:induction false} SkipBlanksInside(s: Text)
    ensures SkipBlanks(s) == s[|s| - |SkipBlanks(s)|..]
  {
    if s != [] && IsBlank(s[0]) { SkipBlanksInside(s[1..]); }
  }

  lemma SameParse(s: Text, t: Text)
    requires SkipBlanks(s) == SkipBlanks(t)
    ensures Parse(s) == Parse(t)
  {
  }

  /** Prose in front of a bracket or a fence makes the whole text not JSON; blanks in front change nothing. */
  lemma ParseAfterProse(pre: Text, sub: Text, u: Unit)
    requires SkipBlanks(pre) != [] ==> SkipBlanks(pre)[0] != OPEN && SkipBlanks(pre)[0] != OPEN_LIST && SkipBlanks(pre)[0] != QUOTE
    requires u in sub && !IsBlank(u) && !IsNumberUnit(u) && u !in NULL + TRUE + FALSE
    ensures Parse(pre + sub) == if SkipBlanks(pre) == [] then Parse(sub) else SyntaxError
  {
    hide Parse;
    SkipBlanksExtends(pre, sub);
    if SkipBlanks(pre) == [] {
      SameParse(pre + sub, sub);
    } else {
      var s := SkipBlanks(pre) + sub;
      assert s[0] == SkipBlanks(pre)[0];
      SkipNone(s);
      SameParse(pre + sub, s);
      ScalarStops(s, u);
    }
  }

  /** The bracket search finds the object that follows the prose. */
  lemma StartOfObject(pre: Text, sub: Text)
    requires OPEN !in pre && OPEN_LIST !in pre && sub != [] && sub[0] == OPEN
    ensures IndexOf(pre + sub, OPEN) == |pre|
    ensures var bracket := IndexOf(pre + sub, OPEN_LIST); bracket < 0 || bracket > |pre|
    ensures (pre + sub)[|pre|..] == sub
  {
    hide IndexOf;
    var s := pre + sub;
    assert s[|pre|] == OPEN;
    assert forall j :: 0 <= j < |pre| ==> s[j] == pre[j];
  }

  /** A piece of the text of an object, a list or a string that stops short is never read as that value. */
  lemma SliceShort(v: Value, end: nat)
    requires IsJs(v) && end + 1 < |Print(v)| && Print(v)[0] in [OPEN, OPEN_LIST, QUOTE]
    ensures Parse(Print(v)[..end + 1]) != Parsed(v)
  {
    hide Parse, Print, ReadValue;
    var p := Print(v);
    var slice, missing := p[..end + 1], p[end + 1..];
    ReadPrinted(v, []);
    assert slice + missing == p == p + [];
    assert slice[0] == p[0];
    if Parse(slice) == Parsed(v) {
      SkipNone(slice);
      ReadOfParse(slice, v);
      ReadOpenedExtends(slice, missing);
    }
  }

  /** Neither is one that goes on to a later brace; only the exact text is. */
  lemma SliceParses(v: Value, post: Text, end: nat)
    requires v.Obj? && IsJs(v) && end < |Print(v) + post| && (Print(v) + post)[end] == CLOSE
    ensures Parse((Print(v) + post)[..end + 1]) == Parsed(v) <==> end == |Print(v)| - 1
  {
    hide Parse, Print;
    var p, s := Print(v), Print(v) + post;
    if end + 1 < |p| {
      PrintObject(v);
      SliceShort(v, end);
      assert s[..end + 1] == p[..end + 1];
    } else {
      var extra := post[..end + 1 - |p|];
      assert s[..end + 1] == p + extra;
      ParseOfValueText(v, extra);
      SkipBlanksAll(extra);
      if extra != [] {
        assert extra[|extra| - 1] == CLOSE;
      }
    }
  }

  lemma ReadOfParse(s: Text, v: Value)
    requires SkipBlanks(s) == s && Parse(s) == Parsed(v)
    ensures ReadValue(s).Read? && ReadValue(s).value == v
  {
  }

  lemma TailReturns(v: Value, post: Text)
    requires v.Obj? && IsJs(v)
    ensures Print(v) + post != []
    ensures FromBracket(Print(v) + post) == Found(v) <==>
      SkipBlanks(post) == [] || CloseOf(Print(v) + post) == |Print(v)| - 1
  {
    hide Parse, Print, CloseOf;
    PrintObject(v);
    ParseOfValueText(v, post);
    var sub := Print(v) + post;
    assert sub[0] == OPEN;
    var end := CloseOf(sub);
    if end > 0 {
      SliceParses(v, post, end);
    }
  }

  /**
   An object inside prose, no code fence around: it is returned if and only if only blanks follow it,
   or the brace scan stops at its own last brace.
   */
  lemma ExtractObject(pre: Text, v: Value, post: Text)
    requires v.Obj? && IsJs(v) && IsProse(pre)
    requires FenceBody(pre + (Print(v) + post)).NoFence?
    ensures Extracted(pre + (Print(v) + post)) == Found(v) <==>
      SkipBlanks(post) == [] || CloseOf(Print(v) + post) == |Print(v)| - 1
  {
    hide Parse, Print, FenceBody, IndexOf, FromBracket;
    PrintObject(v);
    var sub := Print(v) + post;
    SkipBlanksInside(pre);
    assert SkipBlanks(pre) != [] ==> SkipBlanks(pre)[0] in pre;
    assert sub[0] == OPEN;
    ParseAfterProse(pre, sub, OPEN);
    ParseOfValueText(v, post);
    StartOfObject(pre, sub);
    TailReturns(v, post);
  }

  /** If no string of the object holds a brace, it is returned whatever follows it. */
  lemma ExtractBraceFree(pre: Text, v: Value, post: Text)
    requires v.Obj? && IsJs(v) && IsProse(pre) && BraceFree(v)
    requires FenceBody(pre + (Print(v) + post)).NoFence?
    ensures Extracted(pre + (Print(v) + post)) == Found(v)
  {
    ExtractObject(pre, v, post);
    ObjectCloses(v, post);
  }

  /** An object whose string holds a brace, followed by prose, is lost: the scan stops inside the string. */
  lemma BraceInString()
    ensures var v := Obj(Member([97], Str([CLOSE]), NoMembers));  // {"a":"}"}
      && IsJs(v)
      && Extracted([] + (Print(v) + [33])) != Found(v)
  {
    var v := Obj(Member([97], Str([CLOSE]), NoMembers));
    var s := Print(v) + [33];
    QuotedPlain(97);
    QuotedPlain(CLOSE);
    PrintObject(v);
    assert Print(v.members.value) == Quoted([CLOSE]);
    assert PrintMembers(v.members) == Quoted([97]) + [COLON] + Quoted([CLOSE]);
    assert Print(v) == [OPEN, QUOTE, 97, QUOTE, COLON, QUOTE, CLOSE, QUOTE, CLOSE];
    assert s[..7] == [OPEN] + [QUOTE, 97, QUOTE, COLON, QUOTE] + [CLOSE];
    NoBracesBalanced([QUOTE, 97, QUOTE, COLON, QUOTE]);
    BracedBalanced([QUOTE, 97, QUOTE, COLON, QUOTE]);
    assert Closes(s, 6);
    assert FindFence([] + s, 0) == -1;
    assert SkipBlanks([33]) == [33];
    assert IsProse([]);
    assert IsJs(v.members.value) && MembersJs(v.members.rest) && OwnOrder(v.members);
    ExtractObject([], v, [33]);
  }

  lemma QuotedPlain(u: Unit)
    requires 0x20 <= u < 0x80 && ShortEscape(u) == 0
    ensures Quoted([u]) == [QUOTE, u, QUOTE]
  {
    assert Escaped([u]) == [u] + Escaped([u][1..]);
  }

  const TICKS: Text := [TICK, TICK, TICK]

  function Fenced(pre: Text, p: Text, post: Text): Text {
    pre + (TICKS + JSON + [NEWLINE] + p + [NEWLINE] + TICKS + post)
  }

  lemma PrintStart(v: Value)
    requires IsJs(v)
    ensures Print(v) != [] && !IsSpace(Print(v)[0]) && Print(v)[0] != TICK
  {
    ReadPrinted(v, []);
    if v.Num? {
      assert IsNumberUnit(v.lexeme[0]);
    }
  }

  lemma FenceLayout(pre: Text, p: Text, post: Text)
    ensures var s, n, e := Fenced(pre, p, post), |pre|, |pre| + 8 + |p|;
      && |s| >= e + 4
      && (forall j :: 0 <= j < n ==> s[j] == pre[j])
      && FenceAt(s, n) && FenceAt(s, e + 1) && s[e] == NEWLINE && s[n + 7] == NEWLINE
      && s[n + 8..e] == p
      && JSON <= s[n + 3..]
  {
    var s, n := Fenced(pre, p, post), |pre|;
    assert s[n + 3..][..4] == JSON;
  }

  lemma FindFenceIs(s: Text, from: nat, i: nat)
    requires from <= i && FenceAt(s, i) && forall j: nat :: from <= j < i ==> !FenceAt(s, j)
    ensures FindFence(s, from) == i
  {
    hide FindFence, FenceAt;
  }

  ghost predicate NoFenceIn(s: Text) {
    forall i: nat :: !FenceAt(s, i)
  }

  predicate EndsInTick(s: Text) {
    s != [] && s[|s| - 1] == TICK
  }

  /** The fence opens where it should: no three backticks before it, and none that touches it. */
  lemma FenceOpens(pre: Text, p: Text, post: Text)
    requires NoFenceIn(pre) && !EndsInTick(pre)
    ensures FindFence(Fenced(pre, p, post), 0) == |pre|
  {
    hide Fenced, FindFence;
    var s := Fenced(pre, p, post);
    FenceLayout(pre, p, post);
    forall j: nat | j < |pre|
      ensures !FenceAt(s, j)
    {
      assert !FenceAt(pre, j);
      assert s[|pre| - 1] != TICK;
    }
    FindFenceIs(s, 0, |pre|);
  }

  /** Inside the value, the fences are the value's own: the line break after it keeps them apart from the closing one. */
  lemma FencesInside(s: Text, p: Text, at: nat)
    requires at + |p| < |s| && s[at..at + |p|] == p && s[at + |p|] == NEWLINE
    ensures forall j: nat :: at <= j <= at + |p| ==> (FenceAt(s, j) <==> FenceAt(p, j - at))
  {
    assert forall j :: 0 <= j < |p| ==> s[at + j] == s[at..at + |p|][j] == p[j];
  }

  /** Where the lazy body ends: at the first three backticks, without the line break before them. */
  lemma LazyBody(s: Text, p: Text, at: nat) returns (k: nat)
    requires at + |p| + 4 <= |s| && s[at..at + |p|] == p && s[at + |p|] == NEWLINE && FenceAt(s, at + |p| + 1)
    requires p != [] && !IsSpace(p[0]) && p[0] != TICK
    ensures 0 < k <= |p| && (k == |p| <==> NoFenceIn(p))
    ensures
      var close := FindFence(s, at);
      close > at && p[..k] == s[at..if s[close - 1] == NEWLINE then close - 1 else close]
  {
    hide FindFence;
    FencesInside(s, p, at);
    var close := FindFence(s, at);
    assert s[at] == s[at..at + |p|][0] == p[0];
    if NoFenceIn(p) {
      hide FenceAt;
      FindFenceIs(s, at, at + |p| + 1);
      k := |p|;
      assert p[..k] == p;
    } else {
      var i: nat :| FenceAt(p, i);
      assert FenceAt(p, at + i - at) && FenceAt(s, at + i);
      k := if s[close - 1] == NEWLINE then close - 1 - at else close - at;
      assert p[..k] == s[at..at + k];
    }
  }

  /** The body of the fence is the value's text, or the piece of it before the three backticks inside. */
  lemma FenceBodyOf(pre: Text, p: Text, post: Text) returns (k: nat)
    requires NoFenceIn(pre) && !EndsInTick(pre) && p != [] && !IsSpace(p[0]) && p[0] != TICK
    ensures 0 < k <= |p| && FenceBody(Fenced(pre, p, post)) == Body(p[..k])
    ensures k == |p| <==> NoFenceIn(p)
  {
    hide Fenced, FindFence, SkipSpaces, NoFenceIn, EndsInTick;
    var s, n := Fenced(pre, p, post), |pre|;
    FenceLayout(pre, p, post);
    FenceOpens(pre, p, post);
    assert s[n + 8] == s[n + 8..n + 8 + |p|][0] == p[0];
    assert SkipSpaces(s, n + 7) == n + 8;
    k := LazyBody(s, p, n + 8);
  }

  /** A backtick that touches the fence from before shifts it: the body then opens with a backtick. */
  lemma ShiftedFence(pre: Text, p: Text, post: Text)
    requires NoFenceIn(pre) && EndsInTick(pre)
    ensures var b := FenceBody(Fenced(pre, p, post)); b.Body? && b.text != [] && b.text[0] == TICK
  {
    hide Fenced, FindFence, SkipSpaces;
    var s, n, e := Fenced(pre, p, post), |pre|, |pre| + 8 + |p|;
    FenceLayout(pre, p, post);
    var open: nat := if n >= 2 && pre[n - 2] == TICK then n - 2 else n - 1;
    forall j: nat | j < open
      ensures !FenceAt(s, j)
    {
      assert !FenceAt(pre, j);
      assert j + 3 <= n || s[n - 2] != TICK || j == n - 3;
    }
    assert FenceAt(s, open);
    FindFenceIs(s, 0, open);
    assert s[open + 3] == TICK && JSON[0] != TICK;
    assert s[open + 3..][0] == TICK;
    assert !(JSON <= s[open + 3..]);
    assert SkipSpaces(s, open + 3) == open + 3;
    assert s[n + 3] == s[n + 3..][0] == JSON[0];
    assert !FenceAt(s, open + 3);
    var close := FindFence(s, open + 3);
    assert close != -1 && close > open + 3;
  }

  lemma {:induction false} TickIsQuoted(v: Value)
    requires IsJs(v) && TICK in Print(v)
    ensures Print(v)[0] in [OPEN, OPEN_LIST, QUOTE]
  {
    PrintStart(v);
  }

  /**
   A value in a tagged code fence, whatever stands before and after: it is returned if and only if its own text holds
   no three backticks and no backtick touches the fence from before.
   */
  lemma ExtractFenced(pre: Text, v: Value, post: Text)
    requires IsJs(v) && NoFenceIn(pre)
    requires SkipBlanks(pre) != [] ==> SkipBlanks(pre)[0] !in [OPEN, OPEN_LIST, QUOTE]
    ensures Extracted(Fenced(pre, Print(v), post)) == Found(v) <==> NoFenceIn(Print(v)) && !EndsInTick(pre)
  {
    hide Parse, Print, FenceBody, IndexOf, CloseOf, NoFenceIn;
    PrintStart(v);
    var sub := TICKS + JSON + [NEWLINE] + Print(v) + [NEWLINE] + TICKS + post;
    assert sub[0] == TICK;
    ScalarStops(sub, TICK);
    ParseAfterProse(pre, sub, TICK);
    if EndsInTick(pre) {
      ShiftedFence(pre, Print(v), post);
      ScalarStops(FenceBody(Fenced(pre, Print(v), post)).text, TICK);
    } else {
      var k := FenceBodyOf(pre, Print(v), post);
      ParsePrint(v);
      if k < |Print(v)| {
        FenceHasTick(Print(v));
        TickIsQuoted(v);
        SliceShort(v, k - 1);
      } else {
        assert Print(v)[..k] == Print(v);
      }
    }
  }

  lemma FenceHasTick(s: Text)
    requires !NoFenceIn(s)
    ensures TICK in s
  {
  }
}
