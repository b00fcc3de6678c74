/**
 A reference printer for the layout that the Alertmanager parser expects, and the proof that
 parsing what it prints gives back exactly what was printed.
 */
module AlertLayout {
  import opened Wrappers
  import opened Text
  import opened AlertRouting

  datatype RouteBlock = RouteBlock(route: Route, extra: seq<string>)

  datatype ReceiverBlock = ReceiverBlock(name: string, body: seq<string>)

  datatype Layout = Layout(
    preamble: seq<string>,
    root: string,
    options: seq<string>,
    routes: seq<RouteBlock>,
    between: seq<string>,
    receivers: seq<ReceiverBlock>)

  // ---------------------------------------------------------------- printing

  function MatcherLine(m: Matcher): string {
    "        - " + m.name + "=\"" + m.value + "\""
  }

  function MatcherLines(ms: seq<Matcher>): seq<string> {
    if ms == [] then [] else [MatcherLine(ms[0])] + MatcherLines(ms[1..])
  }

  function BlockLines(b: RouteBlock): seq<string> {
    MatcherLines(b.route.matchers)
    + ([ROUTE_RECEIVER + b.route.receiver]
       + ((if b.route.continueMatching then [ROUTE_CONTINUE + "true"] else []) + b.extra))
  }

  function RouteLines(blocks: seq<RouteBlock>): seq<string> {
    if blocks == [] then [] else [HEADER] + (BlockLines(blocks[0]) + RouteLines(blocks[1..]))
  }

  function ReceiverLines(blocks: seq<ReceiverBlock>): seq<string> {
    if blocks == [] then [] else [NAME + blocks[0].name] + (blocks[0].body + ReceiverLines(blocks[1..]))
  }

  function RouteTail(l: Layout): seq<string> {
    l.between + ([RECEIVERS] + ReceiverLines(l.receivers))
  }

  function Lines(l: Layout): seq<string> {
    l.preamble + ([ROUTE] + ([ROOT_RECEIVER + l.root] + (l.options + ([ROUTES] + (RouteLines(l.routes) + RouteTail(l))))))
  }

  // ---------------------------------------------------------------- what may be printed

  predicate ValidMatcher(m: Matcher) {
    m.name != "" && (forall i :: 0 <= i < |m.name| ==> IsWord(m.name[i])) && '"' !in m.value
  }

  /** A value that `trim` leaves alone. */
  predicate ValidName(s: string) {
    s != "" && !IsSpace(s[0]) && !IsSpace(s[|s| - 1])
  }

  /** A line that says nothing inside a route block. */
  predicate Quiet(line: string) {
    && !EndsBlock(line) && ParseMatcher(TrimStart(line)).None?
    && !StartsWith(line, ROUTE_RECEIVER) && !StartsWith(line, ROUTE_CONTINUE)
  }

  predicate NotTop(line: string) {
    line != ROUTE && line != RECEIVERS
  }

  predicate ValidRoute(b: RouteBlock) {
    && (forall i :: 0 <= i < |b.route.matchers| ==> ValidMatcher(b.route.matchers[i]))
    && ValidName(b.route.receiver)
    && forall i :: 0 <= i < |b.extra| ==> Quiet(b.extra[i]) && NotTop(b.extra[i])
  }

  predicate ValidReceiver(b: ReceiverBlock) {
    ValidName(b.name) && forall i :: 0 <= i < |b.body| ==> !StartsWith(b.body[i], NAME)
  }

  /** Lines after the last route: quiet up to `inhibit_rules:`, or to the very end. */
  predicate ClosesRoutes(rest: seq<string>) {
    var n := BlockSpan(rest);
    (forall i :: 0 <= i < n ==> Quiet(rest[i])) && (n < |rest| ==> rest[n] == INHIBIT)
  }

  /** Everything up to `receivers:` is as the parser expects it; nothing is said of the receivers. */
  predicate ValidSections(l: Layout) {
    && (forall i :: 0 <= i < |l.preamble| ==> NotTop(l.preamble[i]))
    && ValidName(l.root)
    && (forall i :: 0 <= i < |l.options| ==>
          NotTop(l.options[i]) && l.options[i] != ROUTES && !StartsWith(l.options[i], ROOT_RECEIVER))
    && (forall i :: 0 <= i < |l.routes| ==> ValidRoute(l.routes[i]))
    && (forall i :: 0 <= i < |l.between| ==> NotTop(l.between[i]))
    && ClosesRoutes(RouteTail(l))
  }

  predicate ValidLayout(l: Layout) {
    ValidSections(l) && forall i :: 0 <= i < |l.receivers| ==> ValidReceiver(l.receivers[i])
  }

  function RoutesIn(blocks: seq<RouteBlock>): (r: seq<Route>)
    ensures |r| == |blocks| && forall i :: 0 <= i < |r| ==> r[i] == blocks[i].route
  {
    seq(|blocks|, i requires 0 <= i < |blocks| => blocks[i].route)
  }

  function ReceiversIn(blocks: seq<ReceiverBlock>): (r: seq<Receiver>)
    ensures |r| == |blocks| && forall i :: 0 <= i < |r| ==> r[i] == Receiver(blocks[i].name, KindsOf(blocks[i].body))
  {
    seq(|blocks|, i requires 0 <= i < |blocks| => Receiver(blocks[i].name, KindsOf(blocks[i].body)))
  }

  function Described(l: Layout): Config {
    Config(l.root, RoutesIn(l.routes), ReceiversIn(l.receivers))
  }

  // ---------------------------------------------------------------- single lines

  lemma {:induction false} TrimStartIndent(line: string, k: nat)
    requires k < |line| && (forall i :: 0 <= i < k ==> IsSpace(line[i])) && !IsSpace(line[k])
    ensures TrimStart(line) == line[k..]
  {
    if k > 0 { TrimStartIndent(line[1..], k - 1); }
  }

  lemma TrimValid(s: string)
    requires ValidName(s)
    ensures Trim(s) == s
  {
  }

  lemma AfterPrefix(prefix: string, s: string)
    requires ValidName(s)
    ensures StartsWith(prefix + s, prefix) && After(prefix + s, prefix) == s
  {
    TrimValid(s);
    assert (prefix + s)[|prefix|..] == s;
  }

  lemma {:induction false} WordRunStops(word: string, rest: string)
    requires (forall i :: 0 <= i < |word| ==> IsWord(word[i])) && (rest == [] || !IsWord(rest[0]))
    ensures WordRun(word + rest) == |word|
  {
    if word == [] {
      assert word + rest == rest;
    } else {
      WordRunStops(word[1..], rest);
      assert (word + rest)[1..] == word[1..] + rest;
    }
  }

  lemma WordNotSpace(c: char)
    requires IsWord(c)
    ensures !IsSpace(c)
  {
  }

  function MatcherText(m: Matcher): string {
    m.name + ("=\"" + m.value + "\"")
  }

  lemma MatcherTextReads(m: Matcher)
    requires ValidMatcher(m)
    ensures var t := MatcherText(m);
      && WordRun(t) == |m.name| && t[..|m.name|] == m.name
      && var rest := t[|m.name|..];
         |rest| >= 3 && rest[0] == '=' && rest[1] == '"' && rest[|rest| - 1] == '"' && rest[2..|rest| - 1] == m.value
  {
    hide IsWord;
    SpaceFacts();
    var tail := "=\"" + m.value + "\"";
    WordRunStops(m.name, tail);
    assert (m.name + tail)[|m.name|..] == tail && (m.name + tail)[..|m.name|] == m.name;
    assert tail[2..|tail| - 1] == m.value;
  }

  lemma DashedReads(m: Matcher)
    requires ValidMatcher(m)
    ensures ParseMatcher("- " + MatcherText(m)) == Some(m)
  {
    hide IsWord, IsSpace, MatcherText, TrimStart, WordRun;
    SpaceFacts();
    MatcherTextReads(m);
    WordNotSpace(m.name[0]);
    var t := MatcherText(m);
    assert t[0] == m.name[0];
    var s := "- " + t;
    TrimStartIndent(s, 0);
    assert s[0..] == s;
    assert s[1..] == " " + t;
    TrimStartIndent(s[1..], 1);
    assert s[1..][1..] == t;
  }

  lemma MatcherLineReads(m: Matcher)
    requires ValidMatcher(m)
    ensures ParseMatcher(TrimStart(MatcherLine(m))) == Some(m)
  {
    hide IsWord, IsSpace, ParseMatcher, TrimStart;
    SpaceFacts();
    var line := MatcherLine(m);
    assert line[8..] == "- " + MatcherText(m);
    TrimStartIndent(line, 8);
    DashedReads(m);
  }

  lemma MatcherLineInside(m: Matcher)
    ensures !EndsBlock(MatcherLine(m)) && NotTop(MatcherLine(m))
  {
    var line := MatcherLine(m);
    assert line[4] == ' ' && HEADER[4] == '-' && line[0] == ' ' && INHIBIT[0] == 'i' && ROUTE[0] == 'r' && RECEIVERS[0] == 'r';
  }

  lemma SpaceFacts()
    ensures IsSpace(' ') && !IsSpace('-') && !IsSpace('r') && !IsSpace('c') && !IsWord('=')
  {
  }

  lemma IndentedNotMatcher(line: string, k: nat)
    requires k < |line| && (forall i :: 0 <= i < k ==> line[i] == ' ') && !IsSpace(line[k]) && line[k] != '-'
    ensures ParseMatcher(TrimStart(line)).None?
  {
    TrimStartIndent(line, k);
  }

  lemma ReceiverLineReads(r: string, def: Route)
    requires ValidName(r)
    ensures Absorb(def, ROUTE_RECEIVER + r) == def.(receiver := r)
    ensures !EndsBlock(ROUTE_RECEIVER + r) && NotTop(ROUTE_RECEIVER + r)
  {
    hide IsSpace, After;
    SpaceFacts();
    var line := ROUTE_RECEIVER + r;
    assert line[6] == 'r' && line[4] == ' ' && HEADER[4] == '-' && line[0] == ' ' && INHIBIT[0] == 'i';
    IndentedNotMatcher(line, 6);
    AfterPrefix(ROUTE_RECEIVER, r);
  }

  lemma ContinueLineReads(def: Route)
    ensures Absorb(def, ROUTE_CONTINUE + "true") == def.(continueMatching := true)
    ensures !EndsBlock(ROUTE_CONTINUE + "true") && NotTop(ROUTE_CONTINUE + "true")
  {
    hide After;
    SpaceFacts();
    var line := ROUTE_CONTINUE + "true";
    assert line[6] == 'c' && ROUTE_RECEIVER[6] == 'r' && line[4] == ' ' && HEADER[4] == '-' && line[0] == ' ' && INHIBIT[0] == 'i';
    IndentedNotMatcher(line, 6);
    AfterPrefix(ROUTE_CONTINUE, "true");
  }

  // ---------------------------------------------------------------- route blocks

  /** The definition after some more lines of the same block. */
  function Absorbed(def: Route, lines: seq<string>): Route
    decreases |lines|
  {
    if lines == [] then def else Absorbed(Absorb(def, lines[0]), lines[1..])
  }

  lemma {:induction false} AbsorbedConcat(def: Route, a: seq<string>, b: seq<string>)
    ensures Absorbed(def, a + b) == Absorbed(Absorbed(def, a), b)
    decreases |a|
  {
    hide Absorb;
    if a == [] {
      assert a + b == b;
    } else {
      AbsorbedConcat(Absorb(def, a[0]), a[1..], b);
      assert (a + b)[1..] == a[1..] + b;
    }
  }

  lemma {:induction false} DefinitionAbsorbed(lines: seq<string>)
    ensures DefinitionOf(lines) == Absorbed(BLANK, lines)
  {
    hide Absorb;
    if lines != [] {
      var init, last := lines[..|lines| - 1], lines[|lines| - 1];
      DefinitionAbsorbed(init);
      AbsorbedConcat(BLANK, init, [last]);
      assert lines == init + [last];
      assert Absorbed(Absorbed(BLANK, init), [last]) == Absorb(Absorbed(BLANK, init), last);
    }
  }

  lemma AbsorbedCons(def: Route, line: string, lines: seq<string>)
    ensures Absorbed(def, [line] + lines) == Absorbed(Absorb(def, line), lines)
  {
    hide Absorb;
    assert ([line] + lines)[1..] == lines;
  }

  lemma AbsorbMatcher(def: Route, m: Matcher)
    requires ValidMatcher(m)
    ensures Absorb(def, MatcherLine(m)) == def.(matchers := def.matchers + [m])
  {
    hide ParseMatcher, TrimStart, StartsWith;
    MatcherLineReads(m);
  }

  lemma {:induction false} AbsorbMatchers(def: Route, ms: seq<Matcher>)
    requires forall i :: 0 <= i < |ms| ==> ValidMatcher(ms[i])
    ensures Absorbed(def, MatcherLines(ms)) == def.(matchers := def.matchers + ms)
    decreases |ms|
  {
    hide Absorb, Absorbed, MatcherLine, ValidMatcher;
    if ms == [] {
      AbsorbQuiet(def, []);
      assert def.matchers + ms == def.matchers;
    } else {
      AbsorbMatcher(def, ms[0]);
      var def' := def.(matchers := def.matchers + [ms[0]]);
      AbsorbMatchers(def', ms[1..]);
      AbsorbedCons(def, MatcherLine(ms[0]), MatcherLines(ms[1..]));
      assert def'.matchers + ms[1..] == def.matchers + ms;
    }
  }

  lemma {:induction false} MatcherLinesInside(ms: seq<Matcher>)
    ensures forall i :: 0 <= i < |MatcherLines(ms)| ==> !EndsBlock(MatcherLines(ms)[i]) && NotTop(MatcherLines(ms)[i])
  {
    hide MatcherLine, EndsBlock, NotTop;
    if ms != [] {
      MatcherLineInside(ms[0]);
      MatcherLinesInside(ms[1..]);
    }
  }

  lemma {:induction false} AbsorbQuiet(def: Route, lines: seq<string>)
    requires forall i :: 0 <= i < |lines| ==> Quiet(lines[i])
    ensures Absorbed(def, lines) == def
  {
    if lines != [] {
      assert Quiet(lines[0]);
      AbsorbQuiet(def, lines[1..]);
    }
  }

  lemma AbsorbOne(def: Route, line: string)
    ensures Absorbed(def, [line]) == Absorb(def, line)
  {
    hide Absorb;
    assert [line][1..] == [];
  }

  /** The lines of a block, and quiet lines after it, define exactly its route. */
  lemma BlockDefines(b: RouteBlock, quiet: seq<string>)
    requires ValidRoute(b) && forall i :: 0 <= i < |quiet| ==> Quiet(quiet[i])
    ensures DefinitionOf(BlockLines(b) + quiet) == b.route
  {
    hide Absorb, Absorbed, Quiet, DefinitionOf, MatcherLines;
    var r := b.route;
    var flag := if r.continueMatching then [ROUTE_CONTINUE + "true"] else [];
    var a, c := MatcherLines(r.matchers), [ROUTE_RECEIVER + r.receiver];
    DefinitionAbsorbed(BlockLines(b) + quiet);
    AbsorbedConcat(BLANK, BlockLines(b), quiet);
    AbsorbedConcat(BLANK, a, c + (flag + b.extra));
    AbsorbMatchers(BLANK, r.matchers);
    assert BLANK.matchers + r.matchers == r.matchers;
    var d1 := Absorbed(BLANK, a);
    AbsorbedConcat(d1, c, flag + b.extra);
    AbsorbOne(d1, c[0]);
    ReceiverLineReads(r.receiver, d1);
    var d2 := Absorbed(d1, c);
    AbsorbedConcat(d2, flag, b.extra);
    if r.continueMatching {
      AbsorbOne(d2, flag[0]);
      ContinueLineReads(d2);
    } else {
      AbsorbQuiet(d2, flag);
    }
    AbsorbQuiet(Absorbed(d2, flag), b.extra);
    AbsorbQuiet(r, quiet);
  }

  lemma BlockInside(b: RouteBlock)
    requires ValidRoute(b)
    ensures forall i :: 0 <= i < |BlockLines(b)| ==> !EndsBlock(BlockLines(b)[i]) && NotTop(BlockLines(b)[i])
  {
    hide EndsBlock, NotTop, MatcherLines, Absorb;
    MatcherLinesInside(b.route.matchers);
    ReceiverLineReads(b.route.receiver, BLANK);
    ContinueLineReads(BLANK);
    assert forall i :: 0 <= i < |b.extra| ==> !EndsBlock(b.extra[i]) by {
      forall i | 0 <= i < |b.extra| ensures !EndsBlock(b.extra[i]) {
        QuietInside(b.extra[i]);
      }
    }
  }

  lemma QuietInside(line: string)
    requires Quiet(line)
    ensures !EndsBlock(line)
  {
    hide EndsBlock;
  }

  lemma {:induction false} BlockSpanConcat(a: seq<string>, rest: seq<string>)
    requires forall i :: 0 <= i < |a| ==> !EndsBlock(a[i])
    ensures BlockSpan(a + rest) == |a| + BlockSpan(rest)
  {
    hide EndsBlock;
    if a == [] {
      assert a + rest == rest;
    } else {
      BlockSpanConcat(a[1..], rest);
      assert (a + rest)[1..] == a[1..] + rest;
    }
  }

  lemma HeaderFacts()
    ensures IsHeader(HEADER) && EndsBlock(HEADER) && HEADER != INHIBIT && NotTop(HEADER)
  {
    assert HEADER[0] == ' ' && INHIBIT[0] == 'i' && ROUTE[0] == 'r' && RECEIVERS[0] == 'r';
  }

  /** One printed block in front of lines that either start the next block or close the routes. */
  lemma BlockReads(b: RouteBlock, rest: seq<string>, soFar: seq<Route>)
    requires ValidRoute(b) && forall i :: 0 <= i < BlockSpan(rest) ==> Quiet(rest[i])
    ensures RoutesOf([HEADER] + (BlockLines(b) + rest), soFar) == RoutesOf(rest[BlockSpan(rest)..], soFar + [b.route])
  {
    hide Quiet, BlockLines, RoutesOf, BlockSpan, DefinitionOf, IsHeader;
    HeaderFacts();
    BlockInside(b);
    var n, lines := BlockSpan(rest), [HEADER] + (BlockLines(b) + rest);
    BlockSpanConcat(BlockLines(b), rest);
    assert lines[1..] == BlockLines(b) + rest;
    RoutesStep(lines, 0, soFar);
    assert lines[0..] == lines;
    var next := 1 + |BlockLines(b)| + n;
    assert lines[1..next] == BlockLines(b) + rest[..n];
    assert lines[next..] == rest[n..];
    BlockDefines(b, rest[..n]);
  }

  lemma RegroupLines(h: seq<string>, a: seq<string>, b: seq<string>, rest: seq<string>)
    ensures (h + (a + b)) + rest == h + (a + (b + rest))
  {
  }

  lemma {:induction false} RoutesRead(blocks: seq<RouteBlock>, rest: seq<string>, soFar: seq<Route>)
    requires (forall i :: 0 <= i < |blocks| ==> ValidRoute(blocks[i])) && ClosesRoutes(rest)
    ensures RoutesOf(RouteLines(blocks) + rest, soFar) == Ok(soFar + RoutesIn(blocks))
    decreases |blocks|
  {
    hide RoutesOf, BlockLines, Quiet, ValidRoute, EndsBlock, BlockSpan, IsHeader;
    if blocks == [] {
      assert RouteLines(blocks) + rest == rest && soFar + RoutesIn(blocks) == soFar;
      var n := BlockSpan(rest);
      RoutesSkip(rest, n, soFar);
      RoutesClosed(rest[n..], soFar);
    } else {
      var b, next := blocks[0], RouteLines(blocks[1..]) + rest;
      RoutesRead(blocks[1..], rest, soFar + [b.route]);
      RegroupLines([HEADER], BlockLines(b), RouteLines(blocks[1..]), rest);
      HeaderFacts();
      if |blocks| > 1 {
        assert next[0] == HEADER;
        assert next[0..] == next;
        BlockReads(b, next, soFar);
      } else {
        assert next == rest;
        BlockReads(b, rest, soFar);
        RoutesSkip(rest, BlockSpan(rest), soFar + [b.route]);
      }
      assert soFar + [b.route] + RoutesIn(blocks[1..]) == soFar + RoutesIn(blocks);
    }
  }

  lemma RoutesClosed(rest: seq<string>, soFar: seq<Route>)
    requires rest == [] || rest[0] == INHIBIT
    ensures RoutesOf(rest, soFar) == Ok(soFar)
  {
  }

  // ---------------------------------------------------------------- receivers and sections

  lemma {:induction false} NameSpanConcat(a: seq<string>, rest: seq<string>)
    requires forall i :: 0 <= i < |a| ==> !StartsWith(a[i], NAME)
    ensures NameSpan(a + rest) == |a| + NameSpan(rest)
  {
    hide StartsWith;
    if a == [] {
      assert a + rest == rest;
    } else {
      NameSpanConcat(a[1..], rest);
      assert (a + rest)[1..] == a[1..] + rest;
    }
  }

  lemma {:induction false} ReceiversRead(blocks: seq<ReceiverBlock>)
    requires forall i :: 0 <= i < |blocks| ==> ValidReceiver(blocks[i])
    ensures ReceiversOf(ReceiverLines(blocks)) == ReceiversIn(blocks)
    decreases |blocks|
  {
    hide ReceiversOf, StartsWith, After, KindsOf, ValidName, NameSpan;
    if blocks == [] {
      NoReceivers();
    } else {
      var b, next := blocks[0], ReceiverLines(blocks[1..]);
      var lines := ReceiverLines(blocks);
      ReceiversRead(blocks[1..]);
      AfterPrefix(NAME, b.name);
      if |blocks| > 1 {
        AfterPrefix(NAME, blocks[1].name);
        assert next[0] == NAME + blocks[1].name;
      }
      assert NameSpan(next) == 0;
      NameSpanConcat(b.body, next);
      assert lines[1..] == b.body + next;
      ReceiversStep(lines, 0);
      assert lines[0..] == lines;
      assert lines[1..1 + |b.body|] == b.body && lines[1 + |b.body|..] == next;
      assert ReceiversIn(blocks) == [Receiver(b.name, KindsOf(b.body))] + ReceiversIn(blocks[1..]);
    }
  }

  lemma {:induction false} SectionSkips(options: seq<string>, rest: seq<string>, root: string)
    requires forall i :: 0 <= i < |options| ==> options[i] != ROUTES && !StartsWith(options[i], ROOT_RECEIVER)
    ensures RouteSection(options + rest, root) == RouteSection(rest, root)
  {
    hide StartsWith, After;
    if options == [] {
      assert options + rest == rest;
    } else {
      SectionSkips(options[1..], rest, root);
      assert (options + rest)[1..] == options[1..] + rest;
    }
  }

  lemma {:induction false} ConfigSkips(lines: seq<string>, rest: seq<string>, c: Config)
    requires forall i :: 0 <= i < |lines| ==> NotTop(lines[i])
    ensures ConfigOf(lines + rest, c) == ConfigOf(rest, c)
  {
    hide RouteSection, RoutesOf, ReceiversOf;
    if lines == [] {
      assert lines + rest == rest;
    } else {
      assert NotTop(lines[0]);
      ConfigSkips(lines[1..], rest, c);
      assert (lines + rest)[1..] == lines[1..] + rest;
    }
  }

  lemma TopFacts()
    ensures NotTop(ROUTES) && !StartsWith(ROUTES, ROOT_RECEIVER) && ROUTE != RECEIVERS
  {
    assert ROUTES[0] == ' ' && ROUTE[0] == 'r' && RECEIVERS[0] == 'r' && |ROUTES| == 9 && |ROOT_RECEIVER| == 12;
  }

  lemma RootLine(root: string)
    ensures NotTop(ROOT_RECEIVER + root) && ROOT_RECEIVER + root != ROUTES
  {
    var line := ROOT_RECEIVER + root;
    assert line[0] == ' ' && ROUTE[0] == 'r' && RECEIVERS[0] == 'r' && |ROUTES| == 9;
  }

  /** The route section of a printed layout: its root receiver and the lines of its routes. */
  lemma SectionReads(l: Layout, rest: seq<string>, root: string)
    requires ValidName(l.root)
    requires forall i :: 0 <= i < |l.options| ==> l.options[i] != ROUTES && !StartsWith(l.options[i], ROOT_RECEIVER)
    ensures RouteSection([ROOT_RECEIVER + l.root] + (l.options + ([ROUTES] + rest)), root) == Section(l.root, Some(rest))
  {
    hide StartsWith, After, ValidName;
    var tail := l.options + ([ROUTES] + rest);
    RootLine(l.root);
    AfterPrefix(ROOT_RECEIVER, l.root);
    assert ([ROOT_RECEIVER + l.root] + tail)[1..] == tail;
    SectionSkips(l.options, [ROUTES] + rest, l.root);
    TopFacts();
    assert ([ROUTES] + rest)[1..] == rest;
  }

  lemma {:induction false} RouteLinesInside(blocks: seq<RouteBlock>)
    requires forall i :: 0 <= i < |blocks| ==> ValidRoute(blocks[i])
    ensures forall i :: 0 <= i < |RouteLines(blocks)| ==> NotTop(RouteLines(blocks)[i])
  {
    hide BlockLines, NotTop, ValidRoute, EndsBlock;
    if blocks != [] {
      RouteLinesInside(blocks[1..]);
      HeaderFacts();
      BlockInside(blocks[0]);
    }
  }

  lemma ConfigRoute(rest: seq<string>, c: Config, root: string, lines: seq<string>, routes: seq<Route>)
    requires RouteSection(rest, c.rootReceiver) == Section(root, Some(lines))
    requires RoutesOf(lines, c.routes) == Ok(routes)
    ensures ConfigOf([ROUTE] + rest, c) == ConfigOf(rest, c.(rootReceiver := root, routes := routes))
  {
    hide RouteSection, RoutesOf, ReceiversOf;
    assert ([ROUTE] + rest)[1..] == rest;
  }

  lemma ConfigReceivers(rest: seq<string>, c: Config)
    ensures ConfigOf([RECEIVERS] + rest, c) == Ok(c.(receivers := c.receivers + ReceiversOf(rest)))
  {
    hide RouteSection, RoutesOf, ReceiversOf;
    TopFacts();
    assert ([RECEIVERS] + rest)[1..] == rest;
  }

  /** Root receiver and routes are read as printed, whatever stands in the receiver section. */
  lemma SectionsRead(l: Layout)
    requires ValidSections(l)
    ensures ConfigOf(Lines(l), EMPTY) == Ok(Config(l.root, RoutesIn(l.routes), ReceiversOf(ReceiverLines(l.receivers))))
  {
    hide ConfigOf, RoutesOf, RouteSection, ReceiversOf, RouteLines, ReceiverLines, RouteTail, NotTop, ClosesRoutes, ValidRoute, ValidName, StartsWith;
    var tail := RouteTail(l);
    var routeLines := RouteLines(l.routes) + tail;
    var section := [ROOT_RECEIVER + l.root] + (l.options + ([ROUTES] + routeLines));
    ConfigSkips(l.preamble, [ROUTE] + section, EMPTY);
    SectionReads(l, routeLines, EMPTY.rootReceiver);
    RoutesRead(l.routes, tail, []);
    assert [] + RoutesIn(l.routes) == RoutesIn(l.routes);
    ConfigRoute(section, EMPTY, l.root, routeLines, RoutesIn(l.routes));
    SectionSkipped(l, Config(l.root, RoutesIn(l.routes), []));
    assert [] + ReceiversOf(ReceiverLines(l.receivers)) == ReceiversOf(ReceiverLines(l.receivers));
  }

  /** Parsing the printed lines of a layout gives exactly the configuration it describes. */
  lemma LayoutRoundTrip(l: Layout)
    requires ValidLayout(l)
    ensures ConfigOf(Lines(l), EMPTY) == Ok(Described(l))
  {
    hide ConfigOf, ReceiversOf, Lines, ReceiverLines, ValidSections, ValidReceiver;
    SectionsRead(l);
    ReceiversRead(l.receivers);
  }

  /** Nothing between `route:` and `receivers:` is a section heading of its own. */
  lemma SectionSkipped(l: Layout, c: Config)
    requires ValidSections(l)
    ensures ConfigOf([ROOT_RECEIVER + l.root] + (l.options + ([ROUTES] + (RouteLines(l.routes) + RouteTail(l)))), c)
      == Ok(c.(receivers := c.receivers + ReceiversOf(ReceiverLines(l.receivers))))
  {
    hide ConfigOf, ReceiversOf, RouteLines, ReceiverLines, NotTop, ClosesRoutes, ValidRoute, ValidName, StartsWith;
    var end := [RECEIVERS] + ReceiverLines(l.receivers);
    RootLine(l.root);
    TopFacts();
    RouteLinesInside(l.routes);
    ConfigSkips([ROOT_RECEIVER + l.root], l.options + ([ROUTES] + (RouteLines(l.routes) + RouteTail(l))), c);
    ConfigSkips(l.options, [ROUTES] + (RouteLines(l.routes) + RouteTail(l)), c);
    ConfigSkips([ROUTES], RouteLines(l.routes) + RouteTail(l), c);
    ConfigSkips(RouteLines(l.routes), RouteTail(l), c);
    ConfigSkips(l.between, end, c);
    ConfigReceivers(ReceiverLines(l.receivers), c);
  }
}
