/**
 What the Alertmanager parser makes of lines that stand before the layout it expects, whatever they are: sections
 that they open run on into the layout, and routes are read once for every `route:` line.
 */
module AlertStrays {
  import opened Wrappers
  import opened Text
  import opened AlertRouting
  import opened AlertLayout

  // ---------------------------------------------------------------- what the lines before the layout do

  /** The lines after the first `receivers:`. */
  function Opened(lines: seq<string>): seq<string> {
    if lines == [] then [] else if lines[0] == RECEIVERS then lines[1..] else Opened(lines[1..])
  }

  /**
   Root receiver and routes once these lines are read, in front of a layout with the given root and routes. A
   `route:` line whose section finds no `  routes:` of its own runs on and reads the layout's routes, and so do route
   blocks that no `inhibit_rules:` closes.
   */
  function Strays(lines: seq<string>, root: string, routes: seq<Route>, c: Config): Result<Config, ParseError> {
    if lines == [] || lines[0] == RECEIVERS then Ok(c)
    else if lines[0] != ROUTE then Strays(lines[1..], root, routes, c)
    else
      var section := RouteSection(lines[1..], c.rootReceiver);
      match section.routes
      case None => Strays(lines[1..], root, routes, c.(rootReceiver := root, routes := c.routes + routes))
      case Some(own) =>
        match RoutesOf(own, c.routes)
        case Err(e) => Err(e)
        case Ok(read) =>
          Strays(lines[1..], root, routes,
            c.(rootReceiver := section.rootReceiver, routes := if INHIBIT in own then read else read + routes))
  }

  /** The lines of a layout after its `route:` line. */
  function Rest(l: Layout): seq<string> {
    [ROOT_RECEIVER + l.root] + (l.options + ([ROUTES] + (RouteLines(l.routes) + RouteTail(l))))
  }

  /** A layout whose fixed lines say nothing inside a stray route block either. */
  predicate Embeddable(l: Layout) {
    && ValidSections(l.(preamble := []))
    && Quiet(ROUTE) && Quiet(ROUTES) && Quiet(ROOT_RECEIVER + l.root)
    && forall i :: 0 <= i < |l.options| ==> Quiet(l.options[i])
  }

  /** The configuration read from a layout behind these lines. */
  function ReadBehind(lines: seq<string>, l: Layout): Result<Config, ParseError> {
    match Strays(lines, l.root, RoutesIn(l.routes), EMPTY)
    case Err(e) => Err(e)
    case Ok(c) =>
      if RECEIVERS in lines then Ok(c.(receivers := ReceiversOf(Opened(lines) + ([ROUTE] + Rest(l)))))
      else Ok(Config(l.root, c.routes + RoutesIn(l.routes), ReceiversOf(ReceiverLines(l.receivers))))
  }

  // ---------------------------------------------------------------- sections that run on

  lemma {:induction false} SectionRuns(a: seq<string>, l: Layout, root: string)
    requires Embeddable(l)
    ensures
      var own, all := RouteSection(a, root), RouteSection(a + ([ROUTE] + Rest(l)), root);
      all == if own.routes.Some? then Section(own.rootReceiver, Some(own.routes.value + ([ROUTE] + Rest(l))))
             else Section(l.root, Some(RouteLines(l.routes) + RouteTail(l)))
  {
    hide StartsWith, After, Embeddable, Rest;
    var tail := [ROUTE] + Rest(l);
    if a == [] {
      assert a + tail == tail;
      OwnSection(l, root);
    } else {
      assert (a + tail)[0] == a[0] && (a + tail)[1..] == a[1..] + tail;
      SectionRuns(a[1..], l, if StartsWith(a[0], ROOT_RECEIVER) then After(a[0], ROOT_RECEIVER) else root);
    }
  }

  lemma OwnSection(l: Layout, root: string)
    requires Embeddable(l)
    ensures RouteSection([ROUTE] + Rest(l), root) == Section(l.root, Some(RouteLines(l.routes) + RouteTail(l)))
  {
    hide StartsWith, RouteSection, RouteLines, RouteTail, ClosesRoutes, Quiet, ValidName;
    RouteLineIsPlain();
    SectionSkips([ROUTE], Rest(l), root);
    SectionReads(l, RouteLines(l.routes) + RouteTail(l), root);
  }

  lemma RouteLineIsPlain()
    ensures ROUTE != ROUTES && !StartsWith(ROUTE, ROOT_RECEIVER)
  {
    assert ROUTE[0] == 'r' && ROUTES[0] == ' ' && ROOT_RECEIVER[0] == ' ';
  }

  // ---------------------------------------------------------------- blocks that run on

  /** Lines that add exactly these routes, and nothing to a block that is still open before them. */
  ghost predicate Adds(tail: seq<string>, routes: seq<Route>) {
    var n := BlockSpan(tail);
    && (forall i :: 0 <= i < n ==> Quiet(tail[i]))
    && forall soFar :: RoutesOf(tail[n..], soFar) == Ok(soFar + routes)
  }

  /** What the routes of `a` are when `tail` is read on after them. */
  ghost predicate RunsOn(a: seq<string>, tail: seq<string>, routes: seq<Route>, soFar: seq<Route>) {
    RoutesOf(a + tail, soFar) ==
      if INHIBIT in a then RoutesOf(a, soFar)
      else match RoutesOf(a, soFar) case Err(e) => Err(e) case Ok(read) => Ok(read + routes)
  }

  /** One step on both sides: past a line that opens no block, */
  lemma RunsPastLine(a: seq<string>, tail: seq<string>, routes: seq<Route>, soFar: seq<Route>)
    requires a != [] && a[0] != INHIBIT && !IsHeader(a[0]) && RunsOn(a[1..], tail, routes, soFar)
    ensures RunsOn(a, tail, routes, soFar)
  {
    hide IsHeader, BlockSpan, DefinitionOf, RoutesOf, INHIBIT;
    RoutesUnfold(a, soFar);
    RoutesUnfold(a + tail, soFar);
    assert (a + tail)[1..] == a[1..] + tail && a == [a[0]] + a[1..];
  }

  /** past a block that ends in `a`, */
  lemma RunsPastBlock(a: seq<string>, tail: seq<string>, routes: seq<Route>, soFar: seq<Route>)
    requires Adds(tail, routes) && a != [] && a[0] != INHIBIT && IsHeader(a[0]) && BlockSpan(a[1..]) < |a| - 1
    requires
      var span := BlockSpan(a[1..]);
      RunsOn(a[1 + span..], tail, routes, soFar + [DefinitionOf(a[1..1 + span])])
    ensures RunsOn(a, tail, routes, soFar)
  {
    hide Adds, IsHeader, BlockSpan, DefinitionOf, RoutesOf, INHIBIT;
    RoutesUnfold(a, soFar);
    RoutesUnfold(a + tail, soFar);
    BlockRuns(a, tail, routes);
    var all, span := a + tail, BlockSpan(a[1..]);
    assert all[1..] == a[1..] + tail && a[1..][..span] == a[1..1 + span];
    CutWithin(a, tail, 1 + span);
    InhibitBeyond(a, span);
  }

  lemma CutWithin(a: seq<string>, b: seq<string>, k: nat)
    requires 1 <= k <= |a|
    ensures (a + b)[1..k] == a[1..k] && (a + b)[k..] == a[k..] + b
  {
  }

  /** and past one that is still open where `a` ends. */
  lemma RunsPastLast(a: seq<string>, tail: seq<string>, routes: seq<Route>, soFar: seq<Route>)
    requires Adds(tail, routes) && a != [] && a[0] != INHIBIT && IsHeader(a[0]) && BlockSpan(a[1..]) == |a| - 1
    ensures RunsOn(a, tail, routes, soFar)
  {
    hide Adds, IsHeader, BlockSpan, DefinitionOf, RoutesOf, INHIBIT;
    RoutesUnfold(a, soFar);
    RoutesUnfold(a + tail, soFar);
    BlockRuns(a, tail, routes);
    var all, span, n := a + tail, BlockSpan(a[1..]), BlockSpan(tail);
    var def := DefinitionOf(a[1..1 + span]);
    assert all[1..] == a[1..] + tail && a[1..][..span] == a[1..1 + span];
    assert all[1 + span + n..] == tail[n..] && a[1 + span..] == [];
    InhibitBeyond(a, span);
    NothingAdded(soFar + [def]);
    AddsAt(tail, routes, soFar + [def]);
  }

  lemma {:induction false} RoutesRun(a: seq<string>, tail: seq<string>, routes: seq<Route>, soFar: seq<Route>)
    requires Adds(tail, routes)
    ensures RunsOn(a, tail, routes, soFar)
    decreases |a|
  {
    hide Adds, IsHeader, BlockSpan, DefinitionOf, RoutesOf, INHIBIT;
    if a == [] {
      assert a + tail == tail;
      NothingAdded(soFar);
      TailAdds(tail, routes, soFar);
    } else if a[0] == INHIBIT {
      RoutesUnfold(a, soFar);
      RoutesUnfold(a + tail, soFar);
    } else if !IsHeader(a[0]) {
      RoutesRun(a[1..], tail, routes, soFar);
      RunsPastLine(a, tail, routes, soFar);
    } else {
      var span := BlockSpan(a[1..]);
      if span < |a| - 1 {
        RoutesRun(a[1 + span..], tail, routes, soFar + [DefinitionOf(a[1..1 + span])]);
        RunsPastBlock(a, tail, routes, soFar);
      } else {
        RunsPastLast(a, tail, routes, soFar);
      }
    }
  }

  lemma RoutesUnfold(rest: seq<string>, soFar: seq<Route>)
    requires rest != []
    ensures rest[0] == INHIBIT ==> RoutesOf(rest, soFar) == Ok(soFar)
    ensures rest[0] != INHIBIT && !IsHeader(rest[0]) ==> RoutesOf(rest, soFar) == RoutesOf(rest[1..], soFar)
    ensures rest[0] != INHIBIT && IsHeader(rest[0]) ==>
      var next := 1 + BlockSpan(rest[1..]);
      var def := DefinitionOf(rest[1..next]);
      RoutesOf(rest, soFar) == if def.receiver == "" then Err(MissingRouteReceiver) else RoutesOf(rest[next..], soFar + [def])
  {
    hide *;
    RoutesStep(rest, 0, soFar);
    assert rest[0..] == rest;
  }

  lemma NothingAdded(soFar: seq<Route>)
    ensures RoutesOf([], soFar) == Ok(soFar)
  {
  }

  lemma AddsAt(tail: seq<string>, routes: seq<Route>, soFar: seq<Route>)
    requires Adds(tail, routes)
    ensures RoutesOf(tail[BlockSpan(tail)..], soFar) == Ok(soFar + routes)
  {
    hide RoutesOf, BlockSpan, Quiet;
  }

  lemma TailAdds(tail: seq<string>, routes: seq<Route>, soFar: seq<Route>)
    requires Adds(tail, routes)
    ensures RoutesOf(tail, soFar) == Ok(soFar + routes)
  {
    hide RoutesOf, Quiet, Adds, EndsBlock, BlockSpan;
    RoutesSkip(tail, BlockSpan(tail), soFar);
    AddsAt(tail, routes, soFar);
  }

  /** `inhibit_rules:` is not inside the first block. */
  lemma InhibitBeyond(a: seq<string>, span: nat)
    requires a != [] && a[0] != INHIBIT && span == BlockSpan(a[1..])
    ensures INHIBIT in a <==> INHIBIT in a[1 + span..]
  {
    hide IsHeader, BlockSpan;
    assert a == [a[0]] + a[1..][..span] + a[1 + span..];
    assert INHIBIT !in a[1..][..span];
  }

  /** The first block, with or without the lines after it. */
  lemma BlockRuns(a: seq<string>, tail: seq<string>, routes: seq<Route>)
    requires a != [] && Adds(tail, routes)
    ensures
      var own, all := BlockSpan(a[1..]), BlockSpan((a + tail)[1..]);
      && (own < |a| - 1 ==> all == own)
      && (own == |a| - 1 ==> all == own + BlockSpan(tail))
      && (own == |a| - 1 ==> DefinitionOf((a + tail)[1..1 + all]) == DefinitionOf(a[1..1 + own]))
  {
    hide EndsBlock, RoutesOf, Quiet, BlockSpan, DefinitionOf;
    var b := a[1..];
    var own, n := BlockSpan(b), BlockSpan(tail);
    assert (a + tail)[1..] == b + tail;
    if own < |b| {
      assert forall i :: 0 <= i < |b| ==> (b + tail)[i] == b[i];
      SpanIs(b + tail, own);
    } else {
      BlockSpanConcat(b, tail);
      assert (a + tail)[1..1 + own + n] == b + tail[..n];
      assert a[1..1 + own] == b;
      QuietTail(b, tail[..n]);
    }
  }

  lemma QuietTail(block: seq<string>, quiet: seq<string>)
    requires forall i :: 0 <= i < |quiet| ==> Quiet(quiet[i])
    ensures DefinitionOf(block + quiet) == DefinitionOf(block)
  {
    hide Quiet, DefinitionOf;
    DefinitionAbsorbed(block + quiet);
    DefinitionAbsorbed(block);
    AbsorbedConcat(BLANK, block, quiet);
    AbsorbQuiet(Absorbed(BLANK, block), quiet);
  }

  /** Quiet lines before make no difference. */
  lemma AddsBehindQuiet(head: seq<string>, tail: seq<string>, routes: seq<Route>)
    requires Adds(tail, routes) && forall i :: 0 <= i < |head| ==> Quiet(head[i])
    ensures Adds(head + tail, routes)
  {
    hide Quiet, RoutesOf, EndsBlock, BlockSpan;
    forall i | 0 <= i < |head|
      ensures !EndsBlock(head[i])
    {
      QuietInside(head[i]);
    }
    BlockSpanConcat(head, tail);
    var n := BlockSpan(tail);
    assert (head + tail)[|head| + n..] == tail[n..];
    assert forall i :: |head| <= i < |head| + n ==> (head + tail)[i] == tail[i - |head|];
  }

  lemma RouteLinesAdd(l: Layout)
    requires Embeddable(l)
    ensures Adds(RouteLines(l.routes) + RouteTail(l), RoutesIn(l.routes))
  {
    hide Quiet, RoutesOf, RouteLines, RouteTail, Embeddable, ClosesRoutes, EndsBlock, BlockSpan;
    var routeLines := RouteLines(l.routes) + RouteTail(l);
    TailClosed(l);
    RouteLinesStart(l);
    forall soFar
      ensures RoutesOf(routeLines[BlockSpan(routeLines)..], soFar) == Ok(soFar + RoutesIn(l.routes))
    {
      LayoutRoutes(l, soFar);
      RoutesSkip(routeLines, BlockSpan(routeLines), soFar);
    }
  }

  /** The layout itself, from its `route:` line on, adds its own routes. */
  lemma LayoutAdds(l: Layout)
    requires Embeddable(l)
    ensures Adds([ROUTE] + Rest(l), RoutesIn(l.routes))
  {
    hide Quiet, Adds, RouteLines, RouteTail, ClosesRoutes, ValidRoute, ValidName;
    var head := [ROUTE] + ([ROOT_RECEIVER + l.root] + (l.options + [ROUTES]));
    RouteLinesAdd(l);
    AddsBehindQuiet(head, RouteLines(l.routes) + RouteTail(l), RoutesIn(l.routes));
    assert [ROUTE] + Rest(l) == head + (RouteLines(l.routes) + RouteTail(l));
  }

  lemma TailClosed(l: Layout)
    requires Embeddable(l)
    ensures ClosesRoutes(RouteTail(l))
  {
    hide ClosesRoutes, Quiet, ValidRoute, ValidName;
  }

  lemma RouteLinesStart(l: Layout)
    requires ClosesRoutes(RouteTail(l))
    ensures
      var routeLines := RouteLines(l.routes) + RouteTail(l);
      forall i :: 0 <= i < BlockSpan(routeLines) ==> Quiet(routeLines[i])
  {
    hide Quiet, EndsBlock, RouteTail;
    var routeLines := RouteLines(l.routes) + RouteTail(l);
    if l.routes == [] {
      assert routeLines == RouteTail(l);
    } else {
      HeaderFacts();
      assert routeLines[0] == HEADER;
      assert BlockSpan(routeLines) == 0;
    }
  }

  // ---------------------------------------------------------------- the whole text

  /** What stands before the layout is read as `Strays` says, and the layout behind it as itself. */
  lemma {:induction false} ConfigRuns(lines: seq<string>, l: Layout, c: Config)
    requires Embeddable(l)
    ensures
      var all, own := ConfigOf(lines + ([ROUTE] + Rest(l)), c), Strays(lines, l.root, RoutesIn(l.routes), c);
      && (own.Err? ==> all == Err(own.error))
      && (own.Ok? && RECEIVERS in lines ==>
          all == Ok(own.value.(receivers := c.receivers + ReceiversOf(Opened(lines) + ([ROUTE] + Rest(l))))))
      && (own.Ok? && RECEIVERS !in lines ==>
          all == Ok(Config(l.root, own.value.routes + RoutesIn(l.routes), c.receivers + ReceiversOf(ReceiverLines(l.receivers)))))
    decreases |lines|
  {
    hide ConfigOf, RoutesOf, RouteSection, ReceiversOf, Embeddable, Rest, ReceiverLines, RouteLines;
    var tail := [ROUTE] + Rest(l);
    var all := lines + tail;
    if lines == [] {
      assert all == tail;
      LayoutRead(l, c);
    } else {
      assert lines == [lines[0]] + lines[1..];
      assert all == [lines[0]] + (lines[1..] + tail);
      TopFacts();
      if lines[0] == RECEIVERS {
        ConfigReceivers(lines[1..] + tail, c);
      } else if lines[0] != ROUTE {
        ConfigSkips([lines[0]], lines[1..] + tail, c);
        ConfigRuns(lines[1..], l, c);
      } else {
        SectionRuns(lines[1..], l, c.rootReceiver);
        LayoutAdds(l);
        StrayRoute(lines[1..], l, c);
        var next := StrayStep(lines[1..], l.root, RoutesIn(l.routes), c);
        if next.Ok? {
          ConfigRuns(lines[1..], l, next.value);
        }
      }
    }
  }

  /** One stray `route:` line, in front of these lines. */
  function StrayStep(lines: seq<string>, root: string, routes: seq<Route>, c: Config): (r: Result<Config, ParseError>)
    ensures Strays([ROUTE] + lines, root, routes, c) ==
      match r case Err(e) => Err(e) case Ok(next) => Strays(lines, root, routes, next)
    ensures r.Ok? ==> r.value.receivers == c.receivers
  {
    assert ([ROUTE] + lines)[1..] == lines;
    TopFacts();
    var section := RouteSection(lines, c.rootReceiver);
    match section.routes
    case None => Ok(c.(rootReceiver := root, routes := c.routes + routes))
    case Some(own) =>
      match RoutesOf(own, c.routes)
      case Err(e) => Err(e)
      case Ok(read) =>
        Ok(c.(rootReceiver := section.rootReceiver, routes := if INHIBIT in own then read else read + routes))
  }

  lemma StrayRoute(lines: seq<string>, l: Layout, c: Config)
    requires Embeddable(l)
    ensures
      var rest, step := lines + ([ROUTE] + Rest(l)), StrayStep(lines, l.root, RoutesIn(l.routes), c);
      ConfigOf([ROUTE] + rest, c) == match step case Err(e) => Err(e) case Ok(next) => ConfigOf(rest, next)
  {
    hide RoutesOf, RouteSection, ReceiversOf, Embeddable, Rest, Strays, RouteLines, RouteTail;
    var tail := [ROUTE] + Rest(l);
    var own := RouteSection(lines, c.rootReceiver);
    SectionRuns(lines, l, c.rootReceiver);
    LayoutAdds(l);
    assert ([ROUTE] + (lines + tail))[1..] == lines + tail;
    if own.routes.Some? {
      RoutesRun(own.routes.value, tail, RoutesIn(l.routes), c.routes);
    } else {
      LayoutRoutes(l, c.routes);
    }
  }

  lemma LayoutRoutes(l: Layout, soFar: seq<Route>)
    requires Embeddable(l)
    ensures RoutesOf(RouteLines(l.routes) + RouteTail(l), soFar) == Ok(soFar + RoutesIn(l.routes))
  {
    hide RoutesOf, RouteLines, RouteTail, ClosesRoutes, ValidRoute, Quiet, ValidName;
    TailClosed(l);
    RoutesRead(l.routes, RouteTail(l), soFar);
  }

  /** The layout itself, from its `route:` line on. */
  lemma LayoutRead(l: Layout, c: Config)
    requires Embeddable(l)
    ensures ConfigOf([ROUTE] + Rest(l), c) ==
      Ok(Config(l.root, c.routes + RoutesIn(l.routes), c.receivers + ReceiversOf(ReceiverLines(l.receivers))))
  {
    hide ConfigOf, RoutesOf, RouteSection, ReceiversOf, RouteLines, ReceiverLines, RouteTail, Quiet, ClosesRoutes, ValidRoute, ValidName, StartsWith;
    var m := l.(preamble := []);
    var routeLines := RouteLines(l.routes) + RouteTail(l);
    SectionReads(l, routeLines, c.rootReceiver);
    LayoutRoutes(l, c.routes);
    ConfigRoute(Rest(l), c, l.root, routeLines, c.routes + RoutesIn(l.routes));
    SameTail(l);
    SectionSkipped(m, c.(rootReceiver := l.root, routes := c.routes + RoutesIn(l.routes)));
  }

  lemma SameTail(l: Layout)
    ensures RouteTail(l.(preamble := [])) == RouteTail(l)
  {
  }

  /** Any lines at all before a layout. */
  lemma BehindStrays(l: Layout)
    requires Embeddable(l)
    ensures ConfigOf(Lines(l), EMPTY) == ReadBehind(l.preamble, l)
  {
    hide ConfigOf, ReceiversOf, Strays, Embeddable, RouteLines, ReceiverLines, RouteTail;
    ConfigRuns(l.preamble, l, EMPTY);
    assert forall rs: seq<Receiver> :: [] + rs == rs;
    assert Lines(l) == l.preamble + ([ROUTE] + Rest(l));
  }

  // ---------------------------------------------------------------- lines that open no routes of their own

  /** How many `route:` lines there are before the first `receivers:`. */
  function Heads(lines: seq<string>): nat {
    if lines == [] || lines[0] == RECEIVERS then 0 else (if lines[0] == ROUTE then 1 else 0) + Heads(lines[1..])
  }

  /** No `route:` line that is read has a `  routes:` line after it. */
  predicate Unsectioned(lines: seq<string>) {
    lines == [] || lines[0] == RECEIVERS || ((lines[0] == ROUTE ==> ROUTES !in lines[1..]) && Unsectioned(lines[1..]))
  }

  function Repeated(routes: seq<Route>, n: nat): (r: seq<Route>)
    ensures |r| == n * |routes|
  {
    if n == 0 then [] else routes + Repeated(routes, n - 1)
  }

  lemma {:induction false} NoRoutesLine(lines: seq<string>, root: string)
    requires ROUTES !in lines
    ensures RouteSection(lines, root).routes.None?
  {
    hide StartsWith, After;
    if lines != [] {
      assert lines[0] in lines && forall x :: x in lines[1..] ==> x in lines;
      NoRoutesLine(lines[1..], if StartsWith(lines[0], ROOT_RECEIVER) then After(lines[0], ROOT_RECEIVER) else root);
    }
  }

  /** Each `route:` line then reads the layout's routes once more, and nothing else. */
  lemma {:induction false} UnsectionedRepeats(lines: seq<string>, root: string, routes: seq<Route>, c: Config)
    requires Unsectioned(lines) && c.rootReceiver == root
    ensures Strays(lines, root, routes, c) == Ok(c.(routes := c.routes + Repeated(routes, Heads(lines))))
    decreases |lines|
  {
    hide RouteSection, RoutesOf;
    TopFacts();
    if lines == [] || lines[0] == RECEIVERS {
      assert c.routes + [] == c.routes;
    } else if lines[0] == ROUTE {
      NoRoutesLine(lines[1..], c.rootReceiver);
      var next := c.(rootReceiver := root, routes := c.routes + routes);
      UnsectionedRepeats(lines[1..], root, routes, next);
      var more := Repeated(routes, Heads(lines[1..]));
      assert (c.routes + routes) + more == c.routes + (routes + more);
    } else {
      UnsectionedRepeats(lines[1..], root, routes, c);
    }
  }

  /** Lines without a `route:` among them, or without a `  routes:`, open no routes. */
  lemma {:induction false} PlainUnsectioned(lines: seq<string>)
    requires ROUTE !in lines || ROUTES !in lines
    ensures Unsectioned(lines)
    ensures ROUTE !in lines ==> Heads(lines) == 0
  {
    if lines != [] {
      assert lines[0] in lines && forall x :: x in lines[1..] ==> x in lines;
      PlainUnsectioned(lines[1..]);
    }
  }

  // ---------------------------------------------------------------- routing behind other routes

  /** Some route matches and does not continue. */
  predicate Stops(routes: seq<Route>, labels: Labels) {
    exists i :: 0 <= i < |routes| && RouteMatches(routes[i], labels) && !routes[i].continueMatching
  }

  lemma {:induction false} ReachBehind(before: seq<Route>, routes: seq<Route>, labels: Labels)
    ensures Reach(before + routes, labels) ==
      if Stops(before, labels) then Reach(before, labels) else |before| + Reach(routes, labels)
  {
    hide RouteMatches;
    if before == [] {
      assert before + routes == routes;
    } else {
      ReachBehind(before[1..], routes, labels);
      assert (before + routes)[0] == before[0] && (before + routes)[1..] == before[1..] + routes;
      assert forall i :: 1 <= i < |before| ==> before[i] == before[1..][i - 1];
      if RouteMatches(before[0], labels) && !before[0].continueMatching {
        assert Stops(before, labels);
      } else {
        StopsLater(before, labels);
      }
    }
  }

  lemma StopsLater(routes: seq<Route>, labels: Labels)
    requires routes != [] && !(RouteMatches(routes[0], labels) && !routes[0].continueMatching)
    ensures Stops(routes, labels) <==> Stops(routes[1..], labels)
  {
    hide RouteMatches;
    if Stops(routes, labels) {
      var i :| 0 <= i < |routes| && RouteMatches(routes[i], labels) && !routes[i].continueMatching;
      assert routes[1..][i - 1] == routes[i];
    }
    if Stops(routes[1..], labels) {
      var i :| 0 <= i < |routes[1..]| && RouteMatches(routes[1..][i], labels) && !routes[1..][i].continueMatching;
      assert routes[i + 1] == routes[1..][i];
    }
  }

  lemma {:induction false} MatchingConcat(a: seq<Route>, b: seq<Route>, labels: Labels)
    ensures Matching(a + b, labels) == Matching(a, labels) + Matching(b, labels)
  {
    hide RouteMatches;
    if b == [] {
      assert a + b == a;
    } else {
      MatchingConcat(a, b[..|b| - 1], labels);
      assert (a + b)[..|a + b| - 1] == a + b[..|b| - 1];
    }
  }

  /** Routes that stop an alert keep it from those behind them; others only put their receivers in front. */
  lemma TargetsBehind(root: string, before: seq<Route>, routes: seq<Route>, labels: Labels)
    ensures Stops(before, labels) ==> Targets(root, before + routes, labels) == Targets(root, before, labels)
    ensures !Stops(before, labels) ==>
      var found := Matching(before, labels) + Matching(routes[..Reach(routes, labels)], labels);
      Targets(root, before + routes, labels) == if found == [] then [root] else found
  {
    hide RouteMatches, Matching, Reach;
    var all := before + routes;
    ReachBehind(before, routes, labels);
    if Stops(before, labels) {
      var n := Reach(before, labels);
      assert all[..n] == before[..n];
    } else {
      var n := Reach(routes, labels);
      assert all[..|before| + n] == before + routes[..n];
      MatchingConcat(before, routes[..n], labels);
    }
  }
}
