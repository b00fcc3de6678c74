/**
 The Alertmanager renderer and the routing probe end to end: what the probe concludes about the text rendered for any
 environment, line breaks inside its settings included.
 */
module AlertEndToEnd {
  import opened Wrappers
  import opened Text
  import opened AlertRouting
  import opened AlertLayout
  import opened AlertText
  import opened AlertStrays
  import opened AlertRenderer

  // ---------------------------------------------------------------- what the parser reads

  function ParsedText(e: Env): Result<Config, ParseError> {
    ConfigOf(Split(TextOf(RenderedLines(e))), EMPTY)
  }

  /** The lines before `route:` as the parser meets them: those of the mail settings, split at their line breaks. */
  function Lead(e: Env): seq<string> {
    Flat(Preamble(e))
  }

  function FixedRoutes(): seq<Route> {
    RoutesIn(ROUTE_BLOCKS)
  }

  lemma IndentedQuiet(line: string, k: nat)
    requires k < 4 && k < |line| && (forall i :: 0 <= i < k ==> line[i] == ' ') && !IsSpace(line[k]) && line[k] != '-'
    requires line != INHIBIT
    ensures Quiet(line)
  {
    hide IsSpace, ParseMatcher, TrimStart;
    IndentedNotMatcher(line, k);
    SpaceFacts();
    assert HEADER[0] == ' ' && HEADER[1] == ' ' && HEADER[2] == ' ' && HEADER[3] == ' ';
    assert ROUTE_RECEIVER[0] == ' ' && ROUTE_RECEIVER[1] == ' ' && ROUTE_RECEIVER[2] == ' ' && ROUTE_RECEIVER[3] == ' ';
    assert ROUTE_CONTINUE[0] == ' ' && ROUTE_CONTINUE[1] == ' ' && ROUTE_CONTINUE[2] == ' ' && ROUTE_CONTINUE[3] == ' ';
  }

  lemma FixedQuiet()
    ensures Quiet(ROUTE) && Quiet(ROUTES) && Quiet(ROOT_RECEIVER + "default")
  {
    hide Quiet, IsSpace;
    LetterNotSpace('r');
    assert INHIBIT[0] == 'i' && ROUTE[0] == 'r' && ROUTES[0] == ' ' && ROUTES[1] == ' ' && ROUTES[2] == 'r';
    IndentedQuiet(ROUTE, 0);
    IndentedQuiet(ROUTES, 2);
    var line := ROOT_RECEIVER + "default";
    assert line[0] == ' ' && line[1] == ' ' && line[2] == 'r';
    IndentedQuiet(line, 2);
  }

  lemma OptionsQuiet()
    ensures forall i :: 0 <= i < |OPTIONS| ==> Quiet(OPTIONS[i])
  {
    hide Quiet, IsSpace;
    LetterNotSpace('g');
    LetterNotSpace('r');
    assert INHIBIT[0] == 'i';
    assert OPTIONS[0][0] == ' ' && OPTIONS[0][1] == ' ' && OPTIONS[0][2] == 'g';
    assert OPTIONS[1][0] == ' ' && OPTIONS[1][1] == ' ' && OPTIONS[1][2] == 'g';
    assert OPTIONS[2][0] == ' ' && OPTIONS[2][1] == ' ' && OPTIONS[2][2] == 'g';
    assert OPTIONS[3][0] == ' ' && OPTIONS[3][1] == ' ' && OPTIONS[3][2] == 'r';
    IndentedQuiet(OPTIONS[0], 2);
    IndentedQuiet(OPTIONS[1], 2);
    IndentedQuiet(OPTIONS[2], 2);
    IndentedQuiet(OPTIONS[3], 2);
  }

  lemma RenderedEmbeddable(e: Env)
    ensures Embeddable(ReadLayout(e))
  {
    hide StartsWith, ValidRoute, ClosesRoutes, Quiet, Preamble, IsLowerCase, SplitReceivers, ValidName, ReceiverLines, Flat, NotTop;
    OptionsValid();
    BetweenValid();
    RoutesValid();
    NamesLower();
    LowerValid("default");
    FixedQuiet();
    OptionsQuiet();
    TailCloses([RECEIVERS] + ReceiverLines(SplitReceivers(e)));
  }

  /**
   For every environment: the parser reads what the lines of the mail settings make of themselves, and then the layout
   that the renderer means, or receivers only, if the settings have opened them.
   */
  lemma ParsedBehindSettings(e: Env)
    ensures ParsedText(e) == ReadBehind(Lead(e), ReadLayout(e))
  {
    hide ConfigOf, Split, TextOf, RenderedLines, Lines, Embeddable, ReadBehind, SplitReceivers, Flat, Preamble;
    ReadLines(e);
    RenderedEmbeddable(e);
    BehindStrays(ReadLayout(e));
  }

  // ---------------------------------------------------------------- settings that open no routes

  /** How often the routes are read: for each `route:` line of a mail setting, and once as meant, unless `receivers:` came before. */
  function Copies(e: Env): nat {
    Heads(Lead(e)) + if RECEIVERS in Lead(e) then 0 else 1
  }

  /** No setting passes for structure. */
  predicate Tame(e: Env) {
    Copies(e) == 1 && NameCount(Opened(Lead(e))) == 0 && CalmBodies(e)
  }

  lemma {:induction false} RepeatedEnd(routes: seq<Route>, n: nat)
    ensures Repeated(routes, n) + routes == Repeated(routes, n + 1)
  {
    if n == 0 {
      assert Repeated(routes, 0) == [] && [] + routes == routes + [];
    } else {
      RepeatedEnd(routes, n - 1);
      assert (routes + Repeated(routes, n - 1)) + routes == routes + (Repeated(routes, n - 1) + routes);
    }
  }

  lemma {:induction false} NeverOpened(lines: seq<string>)
    requires RECEIVERS !in lines
    ensures Opened(lines) == []
  {
    if lines != [] {
      assert lines[0] in lines && forall x :: x in lines[1..] ==> x in lines;
      NeverOpened(lines[1..]);
    }
  }

  lemma {:induction false} ReceiversSkip(lines: seq<string>, rest: seq<string>)
    requires NameCount(lines) == 0
    ensures ReceiversOf(lines + rest) == ReceiversOf(rest)
  {
    hide StartsWith, ReceiversOf;
    if lines == [] {
      assert lines + rest == rest;
    } else {
      assert (lines + rest)[0] == lines[0] && (lines + rest)[1..] == lines[1..] + rest;
      ReceiversUnfold(lines + rest);
      ReceiversSkip(lines[1..], rest);
    }
  }

  /** None of the fixed lines between `route:` and `receivers:` opens a receiver. */
  lemma MiddleOpensNothing()
    ensures NameCount(Middle()) == 0
  {
    hide RouteLines, NameCount, StartsWith;
    FixedLinesNameless();
    RouteLinesNameless();
    NoNames(Middle());
  }

  lemma FixedLinesNameless()
    ensures !StartsWith(ROUTE, NAME) && !StartsWith(ROOT_RECEIVER + "default", NAME) && !StartsWith(ROUTES, NAME) && !StartsWith(RECEIVERS, NAME)
    ensures forall i :: 0 <= i < |OPTIONS| ==> !StartsWith(OPTIONS[i], NAME)
    ensures forall i :: 0 <= i < |BETWEEN| ==> !StartsWith(BETWEEN[i], NAME)
  {
    assert NAME[0] == ' ' && NAME[2] == '-' && NAME[4] == 'n';
    assert ROUTE[0] == 'r' && RECEIVERS[0] == 'r' && ROUTES[2] == 'r' && (ROOT_RECEIVER + "default")[2] == 'r';
    assert OPTIONS[0][2] == 'g' && OPTIONS[1][2] == 'g' && OPTIONS[2][2] == 'g' && OPTIONS[3][2] == 'r';
    assert BETWEEN[1][0] == 'i' && BETWEEN[2][4] == 's' && BETWEEN[3][2] == ' ' && BETWEEN[4][2] == ' ' && BETWEEN[5][2] == ' '
      && BETWEEN[6][2] == ' ';
  }

  lemma Indented(line: string)
    requires |line| > 2 && line[2] == ' '
    ensures !StartsWith(line, NAME)
  {
    assert NAME[2] == '-';
  }

  lemma {:induction false} MatcherLinesNameless(ms: seq<Matcher>)
    ensures forall i :: 0 <= i < |MatcherLines(ms)| ==> !StartsWith(MatcherLines(ms)[i], NAME)
  {
    hide StartsWith;
    if ms != [] {
      MatcherLinesNameless(ms[1..]);
      Indented(MatcherLine(ms[0]));
    }
  }

  lemma BlockNameless(b: RouteBlock)
    requires forall i :: 0 <= i < |b.extra| ==> !StartsWith(b.extra[i], NAME)
    ensures forall i :: 0 <= i < |BlockLines(b)| ==> !StartsWith(BlockLines(b)[i], NAME)
  {
    hide StartsWith, MatcherLines;
    MatcherLinesNameless(b.route.matchers);
    Indented(ROUTE_RECEIVER + b.route.receiver);
    Indented(ROUTE_CONTINUE + "true");
  }

  lemma {:induction false} BlocksNameless(blocks: seq<RouteBlock>)
    requires forall i, j :: 0 <= i < |blocks| && 0 <= j < |blocks[i].extra| ==> !StartsWith(blocks[i].extra[j], NAME)
    ensures forall i :: 0 <= i < |RouteLines(blocks)| ==> !StartsWith(RouteLines(blocks)[i], NAME)
  {
    hide StartsWith, BlockLines;
    if blocks != [] {
      BlocksNameless(blocks[1..]);
      BlockNameless(blocks[0]);
      Indented(HEADER);
    }
  }

  lemma RouteLinesNameless()
    ensures forall i :: 0 <= i < |RouteLines(ROUTE_BLOCKS)| ==> !StartsWith(RouteLines(ROUTE_BLOCKS)[i], NAME)
  {
    hide StartsWith, RouteLines;
    Indented("      repeat_interval: 1m");
    BlocksNameless(ROUTE_BLOCKS);
  }

  /** The receivers read where a mail setting has opened them: its own first, and then those of the layout. */
  lemma OpenedReceivers(e: Env)
    ensures
      var found := ReceiversOf(Opened(Lead(e)) + ([ROUTE] + Rest(ReadLayout(e))));
      var last := ReceiversOf(ReceiverLines(SplitReceivers(e)));
      && |found| == NameCount(Opened(Lead(e))) + |last|
      && (NameCount(Opened(Lead(e))) == 0 ==> found == last)
  {
    hide ReceiversOf, ReceiverLines, SplitReceivers, NameCount, Opened, Flat, Preamble, Middle;
    var own, end := Opened(Lead(e)), ReceiverLines(SplitReceivers(e));
    LinesInThree([], SplitReceivers(e));
    assert [ROUTE] + Rest(ReadLayout(e)) == Middle() + end by { RestIsMiddle(e); }
    MiddleOpensNothing();
    ReceiversSkip(Middle(), end);
    ReceiversCounted(own + (Middle() + end));
    ReceiversCounted(Middle() + end);
    NameCountConcat(own, Middle() + end);
    if NameCount(own) == 0 {
      ReceiversSkip(own, Middle() + end);
    }
  }

  lemma RestIsMiddle(e: Env)
    ensures [ROUTE] + Rest(ReadLayout(e)) == Middle() + ReceiverLines(SplitReceivers(e))
  {
    hide RouteLines, ReceiverLines, SplitReceivers, Middle;
    LinesInThree([], SplitReceivers(e));
    var l := Layout([], "default", OPTIONS, ROUTE_BLOCKS, BETWEEN, SplitReceivers(e));
    assert Rest(l) == Rest(ReadLayout(e));
    assert Lines(l) == [] + ([ROUTE] + Rest(l));
    assert [] + (Middle() + ReceiverLines(SplitReceivers(e))) == Middle() + ReceiverLines(SplitReceivers(e));
    assert [] + ([ROUTE] + Rest(l)) == [ROUTE] + Rest(l);
  }

  function FoundReceivers(e: Env): seq<Receiver> {
    if RECEIVERS in Lead(e) then ReceiversOf(Opened(Lead(e)) + ([ROUTE] + Rest(ReadLayout(e))))
    else ReceiversOf(ReceiverLines(SplitReceivers(e)))
  }

  /** The receivers found are the ones meant if and only if no setting opens a receiver or adds a kind of delivery. */
  lemma FoundReceiversMean(e: Env)
    ensures FoundReceivers(e) == IntendedReceivers(e) <==> NameCount(Opened(Lead(e))) == 0 && CalmBodies(e)
  {
    hide Lead, Rest, ReceiversOf, ReceiverLines, SplitReceivers, IntendedReceivers, CalmBodies, Opened, NameCount;
    ReceiversMean(e);
    OpenedReceivers(e);
    SixReceivers(e);
    if RECEIVERS !in Lead(e) {
      NeverOpened(Lead(e));
      NothingCounted();
    }
  }

  lemma ParsedCopies(e: Env)
    requires Unsectioned(Lead(e))
    ensures ParsedText(e) == Ok(Config("default", Repeated(FixedRoutes(), Copies(e)), FoundReceivers(e)))
  {
    hide ParsedText, Lead, Rest, ReceiversOf, ReceiverLines, SplitReceivers, Opened, Heads, Strays, Repeated, FixedRoutes, Unsectioned;
    var n := Heads(Lead(e));
    ParsedBehindSettings(e);
    FixedAre();
    UnsectionedRepeats(Lead(e), "default", FixedRoutes(), EMPTY);
    assert [] + Repeated(FixedRoutes(), n) == Repeated(FixedRoutes(), n);
    RepeatedEnd(FixedRoutes(), n);
  }

  /**
   Unless a `route:` line of a mail setting has a `  routes:` line after it there, the rendered text always parses. Its
   routes are the ones meant, as often as `Copies` says; and everything is as meant if and only if no setting passes
   for structure.
   */
  lemma RenderedTextParses(e: Env)
    requires Unsectioned(Lead(e))
    ensures ParsedText(e).Ok? && ParsedText(e).value.rootReceiver == "default"
    ensures ParsedText(e).value.routes == Repeated(FixedRoutes(), Copies(e))
    ensures ParsedText(e) == Ok(Intended(e)) <==> Tame(e)
  {
    hide ParsedText, Lead, FoundReceivers, IntendedReceivers, CalmBodies, Opened, NameCount, Repeated, FixedRoutes, Unsectioned, Copies,
      RoutesIn;
    ParsedCopies(e);
    OneCopy(Copies(e));
    FoundReceiversMean(e);
  }

  lemma FixedAre()
    ensures FixedRoutes() == RoutesIn(ROUTE_BLOCKS)
  {
  }

  lemma OneCopy(n: nat)
    ensures Repeated(FixedRoutes(), n) == RoutesIn(ROUTE_BLOCKS) <==> n == 1
  {
    hide RoutesIn;
    assert |FixedRoutes()| == 5;
    if n == 1 {
      assert Repeated(FixedRoutes(), 0) == [];
      assert FixedRoutes() + [] == FixedRoutes();
    }
  }

  lemma SixReceivers(e: Env)
    ensures |IntendedReceivers(e)| == 6 && |ReceiversOf(ReceiverLines(SplitReceivers(e)))| >= 6
  {
    hide ReceiversOf, ReceiverLines, SplitReceivers, NameCount, DefaultKinds, CriticalKinds, WarningKinds, Kinds, BodyNames;
    ReceiversCounted(ReceiverLines(SplitReceivers(e)));
    ReceiverLinesCounted(SplitReceivers(e));
    NamesValid(e);
  }

  // ---------------------------------------------------------------- where the fixed routes send an alert

  lemma Values()
    ensures "security" != "billing" && "critical" != "warning" && "info" != "critical" && "info" != "warning"
    ensures "AttestorApiDown" != "Watchdog" && "AttestorHttp5xxBurst" != "Watchdog" && "AttestorInfo" != "Watchdog"
    ensures "SecurityBoundary" != "Watchdog" && "BillingLag" != "Watchdog" && "SecurityAudit" != "Watchdog"
    ensures "alertname" != "severity" && "alertname" != "team" && "severity" != "team"
  {
    assert "security"[0] == 's' && "billing"[0] == 'b' && "critical"[0] == 'c' && "warning"[0] == 'w' && "info"[0] == 'i';
    assert "AttestorApiDown"[0] == 'A' && "Watchdog"[0] == 'W' && "AttestorHttp5xxBurst"[0] == 'A' && "AttestorInfo"[0] == 'A';
    assert "SecurityBoundary"[0] == 'S' && "BillingLag"[0] == 'B' && "SecurityAudit"[0] == 'S';
    assert "alertname"[0] == 'a' && "severity"[0] == 's' && "team"[0] == 't';
  }

  lemma SingleMatch(m: Matcher, receiver: string, continues: bool, l: Labels)
    ensures RouteMatches(Route([m], receiver, continues), l) <==> m.name in l && l[m.name] == m.value
  {
    assert m in [m];
  }

  /** Which of the five fixed routes a set of labels matches. */
  lemma FixedMatches(l: Labels)
    ensures RouteMatches(ROUTE_BLOCKS[0].route, l) <==> "alertname" in l && l["alertname"] == "Watchdog"
    ensures RouteMatches(ROUTE_BLOCKS[1].route, l) <==> "team" in l && l["team"] == "security"
    ensures RouteMatches(ROUTE_BLOCKS[2].route, l) <==> "team" in l && l["team"] == "billing"
    ensures RouteMatches(ROUTE_BLOCKS[3].route, l) <==> "severity" in l && l["severity"] == "critical"
    ensures RouteMatches(ROUTE_BLOCKS[4].route, l) <==> "severity" in l && l["severity"] == "warning"
  {
    hide RouteMatches;
    SingleMatch(Matcher("alertname", "Watchdog"), "watchdog", false, l);
    SingleMatch(Matcher("team", "security"), "security", true, l);
    SingleMatch(Matcher("team", "billing"), "billing", true, l);
    SingleMatch(Matcher("severity", "critical"), "critical", false, l);
    SingleMatch(Matcher("severity", "warning"), "warning", false, l);
  }

  lemma MatchingStep(routes: seq<Route>, k: nat, l: Labels)
    requires k < |routes|
    ensures Matching(routes[..k + 1], l) == Matching(routes[..k], l) + (if RouteMatches(routes[k], l) then [routes[k].receiver] else [])
  {
    hide RouteMatches;
    assert routes[..k + 1][..k] == routes[..k];
  }

  /** First-match routing over the fixed routes: the two team routes continue, the others stop. */
  lemma FixedTargets(root: string, routes: seq<Route>, l: Labels)
    requires |routes| == 5
    requires !routes[0].continueMatching && routes[1].continueMatching && routes[2].continueMatching
    requires !routes[3].continueMatching && !routes[4].continueMatching
    ensures RouteMatches(routes[0], l) ==> Targets(root, routes, l) == [routes[0].receiver]
    ensures !RouteMatches(routes[0], l) ==>
      var found := (if RouteMatches(routes[1], l) then [routes[1].receiver] else [])
        + (if RouteMatches(routes[2], l) then [routes[2].receiver] else [])
        + (if RouteMatches(routes[3], l) then [routes[3].receiver]
           else if RouteMatches(routes[4], l) then [routes[4].receiver] else []);
      Targets(root, routes, l) == if found == [] then [root] else found
  {
    hide RouteMatches, Reach, Matching;
    var n := if RouteMatches(routes[0], l) then 1 else if RouteMatches(routes[3], l) then 4 else 5;
    ReachIs(routes, l, n);
    NoneMatching(l);
    assert routes[..0] == [];
    MatchingStep(routes, 0, l);
    MatchingStep(routes, 1, l);
    MatchingStep(routes, 2, l);
    MatchingStep(routes, 3, l);
    MatchingStep(routes, 4, l);
  }

  lemma NoneMatching(l: Labels)
    ensures Matching([], l) == []
  {
  }

  /** With the routes the renderer means, every scenario reaches exactly the receivers it expects. */
  lemma FixedRouting(c: Config)
    requires c.rootReceiver == "default" && c.routes == RoutesIn(ROUTE_BLOCKS)
    ensures RoutingValid(c)
  {
    hide TargetsOf, RoutesIn;
    forall i | 0 <= i < |SCENARIOS| ensures TargetsOf(c, SCENARIOS[i]) == SCENARIOS[i].expected {
      FixedScenario(c, i);
    }
  }

  /** Where the five fixed routes send a set of labels. */
  lemma FixedRoutesSend(c: Config, l: Labels)
    requires c.rootReceiver == "default" && c.routes == RoutesIn(ROUTE_BLOCKS)
    ensures "alertname" in l && l["alertname"] == "Watchdog" ==> Targets(c.rootReceiver, c.routes, l) == ["watchdog"]
    ensures !("alertname" in l && l["alertname"] == "Watchdog") ==>
      var found := (if "team" in l && l["team"] == "security" then ["security"] else [])
        + (if "team" in l && l["team"] == "billing" then ["billing"] else [])
        + (if "severity" in l && l["severity"] == "critical" then ["critical"]
           else if "severity" in l && l["severity"] == "warning" then ["warning"] else []);
      Targets(c.rootReceiver, c.routes, l) == if found == [] then ["default"] else found
  {
    hide RouteMatches, Targets;
    FixedMatches(l);
    FixedTargets(c.rootReceiver, c.routes, l);
  }

  lemma FixedScenario(c: Config, i: nat)
    requires i < |SCENARIOS| && c.rootReceiver == "default" && c.routes == RoutesIn(ROUTE_BLOCKS)
    ensures TargetsOf(c, SCENARIOS[i]) == SCENARIOS[i].expected
  {
    hide Targets, RoutesIn;
    Values();
    FixedRoutesSend(c, SCENARIOS[i].labels);
  }

  /** Without routes even the watchdog goes to the root receiver. */
  lemma NoRoutesNoRouting(c: Config)
    requires c.rootReceiver == "default" && c.routes == []
    ensures !RoutingValid(c)
  {
    hide RouteMatches;
    assert TargetsOf(c, SCENARIOS[0]) == ["default"];
    assert ["default"][0][0] == 'd' && ["watchdog"][0][0] == 'w';
  }

  /** The last scenario, a security alert of no severity, matches the security route and goes on. */
  lemma SecurityGoesOn(labels: Labels)
    requires labels == SCENARIOS[6].labels
    ensures !Stops(FixedRoutes(), labels) && Matching(FixedRoutes(), labels) == ["security"]
  {
    hide RouteMatches, Matching;
    Values();
    FixedMatches(labels);
    var routes := FixedRoutes();
    NoneMatching(labels);
    assert routes[..0] == [] && routes[..5] == routes;
    MatchingStep(routes, 0, labels);
    MatchingStep(routes, 1, labels);
    MatchingStep(routes, 2, labels);
    MatchingStep(routes, 3, labels);
    MatchingStep(routes, 4, labels);
  }

  /** Read twice, the security route sends that alert twice. */
  lemma RepeatedMisroutes(c: Config, n: nat)
    requires n >= 2 && c.routes == Repeated(FixedRoutes(), n)
    ensures !RoutingValid(c)
  {
    hide Targets, Matching, Reach, FixedRoutes, Stops;
    var labels, routes, rest := SCENARIOS[6].labels, FixedRoutes(), Repeated(FixedRoutes(), n - 2);
    SecurityGoesOn(labels);
    TargetsBehind(c.rootReceiver, routes, routes + rest, labels);
    ReachBehind(routes, rest, labels);
    var k := Reach(rest, labels);
    assert (routes + rest)[..|routes| + k] == routes + rest[..k];
    MatchingConcat(routes, rest[..k], labels);
    assert |Targets(c.rootReceiver, c.routes, labels)| >= 2;
    assert TargetsOf(c, SCENARIOS[6]) != SCENARIOS[6].expected;
  }

  /**
   The routing the probe finds in the rendered text is valid if and only if the routes are read exactly once, for every
   environment whose mail settings open no routes of their own.
   */
  lemma RoutingOfRendered(e: Env)
    requires Unsectioned(Lead(e))
    ensures ParsedText(e).Ok? && (RoutingValid(ParsedText(e).value) <==> Copies(e) == 1)
  {
    hide ParsedText, RoutingValid, Tame, Intended, Copies, Unsectioned, Lead, FixedRoutes;
    RenderedTextParses(e);
    OneCopy(Copies(e));
    if Copies(e) == 0 {
      NoRoutesNoRouting(ParsedText(e).value);
    } else if Copies(e) == 1 {
      FixedRouting(ParsedText(e).value);
    } else {
      RepeatedMisroutes(ParsedText(e).value, Copies(e));
    }
  }

  // ---------------------------------------------------------------- settings that open routes of their own

  /** In front of the fixed routes, these do not change where the alert of a scenario goes. */
  predicate Harmless(before: seq<Route>, s: Scenario) {
    if Stops(before, s.labels) then Targets("default", before, s.labels) == s.expected
    else Matching(before, s.labels) == [] || (Matching(before, s.labels) == ["default"] && s.expected == ["default"])
  }

  lemma {:induction false} MatchingFrom(routes: seq<Route>, labels: Labels, name: string)
    requires name in Matching(routes, labels)
    ensures exists i :: 0 <= i < |routes| && routes[i].receiver == name
  {
    hide RouteMatches;
    var n := |routes| - 1;
    if name in Matching(routes[..n], labels) {
      MatchingFrom(routes[..n], labels, name);
      var i :| 0 <= i < n && routes[..n][i].receiver == name;
      assert routes[i].receiver == name;
    } else {
      assert routes[n].receiver == name;
    }
  }

  lemma FixedNeverDefault(labels: Labels, n: nat)
    requires n <= 5
    ensures Matching(FixedRoutes()[..n], labels) != ["default"]
  {
    hide Matching, RouteMatches;
    ReceiverNames();
    if Matching(FixedRoutes()[..n], labels) == ["default"] {
      assert "default" in Matching(FixedRoutes()[..n], labels);
      MatchingFrom(FixedRoutes()[..n], labels, "default");
    }
  }

  lemma HarmlessMeans(before: seq<Route>, i: nat)
    requires i < |SCENARIOS|
    ensures Targets("default", before + FixedRoutes(), SCENARIOS[i].labels) == SCENARIOS[i].expected <==> Harmless(before, SCENARIOS[i])
  {
    hide Matching, Reach, Stops, RouteMatches;
    var s := SCENARIOS[i];
    var routes := FixedRoutes();
    TargetsBehind("default", before, routes, s.labels);
    FixedScenario(Config("default", routes, []), i);
    FixedNeverDefault(s.labels, Reach(routes, s.labels));
  }

  /**
   For every environment, whatever the mail settings open: the text parses exactly when their route blocks do, and their
   routes come before the fixed ones, or alone if they open the receivers too. The routing is then valid if and only if
   each scenario's alert passes them by or is sent on right; alone, if and only if they send each where it belongs.
   */
  lemma RoutingBehindSettings(e: Env)
    ensures
      var own := Strays(Lead(e), "default", FixedRoutes(), EMPTY);
      && (ParsedText(e).Ok? <==> own.Ok?)
      && (own.Ok? && RECEIVERS !in Lead(e) ==>
          && ParsedText(e).value.rootReceiver == "default" && ParsedText(e).value.routes == own.value.routes + FixedRoutes()
          && (RoutingValid(ParsedText(e).value) <==> forall i :: 0 <= i < |SCENARIOS| ==> Harmless(own.value.routes, SCENARIOS[i])))
      && (own.Ok? && RECEIVERS in Lead(e) ==>
          && ParsedText(e).value.rootReceiver == own.value.rootReceiver && ParsedText(e).value.routes == own.value.routes
          && (RoutingValid(ParsedText(e).value) <==> RoutingValid(own.value)))
  {
    hide ParsedText, Rest, ReceiversOf, ReceiverLines, SplitReceivers, Strays, Harmless, Targets, Lead, RoutesIn, Opened;
    ParsedBehindSettings(e);
    var own := Strays(Lead(e), "default", FixedRoutes(), EMPTY);
    if own.Ok? && RECEIVERS !in Lead(e) {
      forall i | 0 <= i < |SCENARIOS|
        ensures TargetsOf(ParsedText(e).value, SCENARIOS[i]) == SCENARIOS[i].expected <==> Harmless(own.value.routes, SCENARIOS[i])
      {
        HarmlessMeans(own.value.routes, i);
      }
    }
    if own.Ok? && RECEIVERS in Lead(e) {
      forall i | 0 <= i < |SCENARIOS|
        ensures TargetsOf(ParsedText(e).value, SCENARIOS[i]) == TargetsOf(own.value, SCENARIOS[i])
      {
      }
    }
  }

  // ---------------------------------------------------------------- delivery coverage

  lemma ReceiverNames()
    ensures "default" !in ["watchdog", "critical", "warning", "security", "billing"]
    ensures "critical" !in ["warning", "security", "billing"] && "warning" !in ["security", "billing"]
  {
    assert "default"[0] == 'd' && "watchdog"[0] == 'w' && "critical"[0] == 'c' && "warning"[0] == 'w' && "security"[0] == 's' && "billing"[0] == 'b';
  }

  lemma {:induction false} LookupAt(receivers: seq<Receiver>, i: nat, name: string)
    requires i < |receivers| && receivers[i].name == name
    requires forall j :: i < j < |receivers| ==> receivers[j].name != name
    ensures Lookup(receivers, name) == Some(receivers[i])
  {
    if i < |receivers| - 1 { LookupAt(receivers[..|receivers| - 1], i, name); }
  }

  lemma DeliveryOf(e: Env)
    ensures HasDelivery(Intended(e), "default") <==> DefaultKinds(e) != []
    ensures HasDelivery(Intended(e), "critical") <==> CriticalKinds(e) != []
    ensures HasDelivery(Intended(e), "warning") <==> WarningKinds(e) != []
  {
    hide DefaultKinds, CriticalKinds, WarningKinds, Lookup;
    ReceiverNames();
    NotWatchdog();
    var r := IntendedReceivers(e);
    LookupAt(r, 0, "default");
    LookupAt(r, 2, "critical");
    LookupAt(r, 3, "warning");
  }

  /** The settings under which the three delivery-critical receivers each have a delivery target. */
  predicate Covered(e: Env) {
    && (e.defaultWebhook.Some? || e.defaultSlackWebhook.Some?)
    && (e.criticalWebhook.Some? || e.criticalPagerDutyKey.Some? || e.emailTo.Some?)
    && (e.warningWebhook.Some? || e.warningSlackWebhook.Some? || e.emailTo.Some?)
  }

  lemma CoveredKinds(e: Env)
    requires Refusal(e).None?
    ensures Covered(e) <==> DefaultKinds(e) != [] && CriticalKinds(e) != [] && WarningKinds(e) != []
  {
  }

  /** Scenarios 1 to 3 are the ones that need delivery: critical, warning and default. */
  lemma CoverageOf(c: Config)
    requires RoutingValid(c)
    ensures DeliveryCoverageValid(c) <==>
      HasDelivery(c, "default") && HasDelivery(c, "critical") && HasDelivery(c, "warning")
  {
    hide HasDelivery, TargetsOf;
    assert TargetsOf(c, SCENARIOS[1]) == ["critical"] && TargetsOf(c, SCENARIOS[2]) == ["warning"] && TargetsOf(c, SCENARIOS[3]) == ["default"];
    assert "critical" in TargetsOf(c, SCENARIOS[1]) && "warning" in TargetsOf(c, SCENARIOS[2]) && "default" in TargetsOf(c, SCENARIOS[3]);
  }

  /** No setting opens a receiver. */
  predicate NoReceiverOpened(e: Env) {
    NameCount(Opened(Lead(e))) == 0 && forall i :: 0 <= i < |SplitReceivers(e)| ==> NameCount(SplitReceivers(e)[i].body) == 0
  }

  lemma ReceiversAsRendered(e: Env)
    requires Unsectioned(Lead(e)) && NoReceiverOpened(e)
    ensures ParsedText(e).Ok? && ParsedText(e).value.receivers == ReceiversIn(SplitReceivers(e))
  {
    hide ParsedText, Lead, Rest, ReceiversOf, ReceiverLines, SplitReceivers, Opened, Heads, NameCount, Strays, Repeated, FixedRoutes,
      Unsectioned, ReceiversIn;
    ParsedCopies(e);
    OpenedReceivers(e);
    ReceiversWithoutStrays(e);
  }

  /** Lines inside the settings can only add kinds of delivery. */
  lemma KindsAdded(e: Env)
    ensures
      var blocks := SplitReceivers(e);
      && |blocks| == 6
      && |KindsOf(blocks[0].body)| >= |DefaultKinds(e)| && |KindsOf(blocks[2].body)| >= |CriticalKinds(e)|
      && |KindsOf(blocks[3].body)| >= |WarningKinds(e)|
  {
    hide KindsOf, NameCount, Flat, DefaultBody, CriticalBody, WarningBody, WebhookBody, DefaultKinds, CriticalKinds, WarningKinds,
      Kinds, Calm, SlackCalm, EmailCalm, SplitReceivers, CriticalCalm, WarningCalm;
    BodiesRead(e);
    DefaultBodyKinds(e);
    CriticalBodyKinds(e);
    WarningBodyKinds(e);
  }

  lemma DeliveryIn(c: Config, blocks: seq<ReceiverBlock>)
    requires |blocks| == 6 && c.receivers == ReceiversIn(blocks)
    requires blocks[0].name == "default" && blocks[1].name == "watchdog" && blocks[2].name == "critical"
    requires blocks[3].name == "warning" && blocks[4].name == "security" && blocks[5].name == "billing"
    ensures HasDelivery(c, "default") <==> KindsOf(blocks[0].body) != []
    ensures HasDelivery(c, "critical") <==> KindsOf(blocks[2].body) != []
    ensures HasDelivery(c, "warning") <==> KindsOf(blocks[3].body) != []
  {
    hide KindsOf, Lookup;
    ReceiverNames();
    NotWatchdog();
    LookupAt(c.receivers, 0, "default");
    LookupAt(c.receivers, 2, "critical");
    LookupAt(c.receivers, 3, "warning");
  }

  /**
   Where the routes are read once and no setting opens a receiver: delivery is covered if and only if the default,
   critical and warning receivers have a kind of delivery among their lines, and so it is wherever the environment
   covers them.
   */
  lemma CoverageOfRendered(e: Env)
    requires Unsectioned(Lead(e)) && Copies(e) == 1 && NoReceiverOpened(e) && BuildConfig(e).Ok?
    ensures ParsedText(e).Ok? && |SplitReceivers(e)| == 6
    ensures DeliveryCoverageValid(ParsedText(e).value) <==>
      && KindsOf(SplitReceivers(e)[0].body) != [] && KindsOf(SplitReceivers(e)[2].body) != []
      && KindsOf(SplitReceivers(e)[3].body) != []
    ensures Covered(e) ==> DeliveryCoverageValid(ParsedText(e).value)
  {
    hide ParsedText, RoutingValid, DeliveryCoverageValid, HasDelivery, DefaultKinds, CriticalKinds, WarningKinds, Covered, Refusal,
      SplitReceivers, KindsOf, Lead, Unsectioned, Copies, NoReceiverOpened, RenderedLines, TextOf, ReceiversIn, Flat, DefaultBody,
      CriticalBody, WarningBody, WebhookBody;
    RoutingOfRendered(e);
    ReceiversAsRendered(e);
    CoverageOf(ParsedText(e).value);
    BodiesRead(e);
    DeliveryIn(ParsedText(e).value, SplitReceivers(e));
    KindsAdded(e);
    CoveredKinds(e);
  }

  predicate Delivers(receivers: seq<Receiver>, name: string) {
    Lookup(receivers, name).Some? && Lookup(receivers, name).value.deliveryKinds != []
  }

  /**
   Where the routes are read once, even if settings open receivers: coverage is valid if and only if the last receiver
   found of each of the three names has a kind of delivery.
   */
  lemma CoverageByLastReceiver(e: Env)
    requires Unsectioned(Lead(e)) && Copies(e) == 1
    ensures ParsedText(e).Ok?
    ensures DeliveryCoverageValid(ParsedText(e).value) <==>
      Delivers(FoundReceivers(e), "default") && Delivers(FoundReceivers(e), "critical") && Delivers(FoundReceivers(e), "warning")
  {
    hide ParsedText, RoutingValid, DeliveryCoverageValid, Lead, Unsectioned, Copies, FoundReceivers, FixedRoutes, Lookup;
    RoutingOfRendered(e);
    ParsedCopies(e);
    CoverageOf(ParsedText(e).value);
    NotWatchdog();
  }

  lemma NoDefaultTarget(e: Env)
    requires e.defaultWebhook.None? && e.defaultSlackWebhook.None?
    ensures |SplitReceivers(e)| == 6 && KindsOf(SplitReceivers(e)[0].body) == []
  {
    hide SplitReceivers, KindsOf, CriticalBody, WarningBody, WebhookBody;
    BodiesRead(e);
    NothingFlat();
    NothingCounted();
    assert DefaultBody(e) == [] by { NoDefaultBody(e); }
  }

  lemma NoDefaultBody(e: Env)
    requires e.defaultWebhook.None? && e.defaultSlackWebhook.None?
    ensures DefaultBody(e) == []
  {
  }

  /**
   For every environment the renderer accepts and whose settings do not pass for structure, the probe finds the routing
   valid, and finds the delivery coverage valid if and only if the environment covers the default, critical and
   warning receivers.
   */
  lemma ProbeOfRendered(e: Env)
    requires Unsectioned(Lead(e)) && Tame(e) && BuildConfig(e).Ok?
    ensures ParsedText(e).Ok? && RoutingValid(ParsedText(e).value)
    ensures DeliveryCoverageValid(ParsedText(e).value) <==> Covered(e)
  {
    hide Tame, ParsedText, RoutingValid, DeliveryCoverageValid, HasDelivery, DefaultKinds, CriticalKinds, WarningKinds,
      Covered, Refusal, Intended, RenderedLines, TextOf, Unsectioned, Lead;
    RenderedTextParses(e);
    RoutingOfRendered(e);
    TameReadsOnce(e);
    CoverageOf(Intended(e));
    DeliveryOf(e);
    CoveredKinds(e);
  }

  lemma TameReadsOnce(e: Env)
    requires Tame(e)
    ensures Copies(e) == 1
  {
    hide Copies, Lead, CalmBodies, Opened, NameCount;
  }

  // ---------------------------------------------------------------- settings of one line each

  predicate OneLineValue(v: Option<string>) {
    v.Some? ==> '\n' !in v.value
  }

  /** No setting holds a line break. */
  predicate OneLineSettings(e: Env) {
    && OneLineValue(e.defaultWebhook) && OneLineValue(e.defaultSlackWebhook) && OneLineValue(e.defaultSlackChannel)
    && OneLineValue(e.criticalWebhook) && OneLineValue(e.criticalPagerDutyKey)
    && OneLineValue(e.warningWebhook) && OneLineValue(e.warningSlackWebhook) && OneLineValue(e.warningSlackChannel)
    && OneLineValue(e.securityWebhook) && OneLineValue(e.billingWebhook)
    && OneLineValue(e.emailTo) && OneLineValue(e.emailFrom) && OneLineValue(e.smarthost)
    && OneLineValue(e.smtpAuthUsername) && OneLineValue(e.smtpAuthPassword)
  }

  lemma OneLineCalm(k: Key, value: Option<string>)
    requires OneLineValue(value) && InBody(k)
    ensures Calm(k, value)
  {
    hide Entry, Inert, OneLine, Pieces;
    if value.Some? {
      EntryInert(k, value.value);
      OnePiece(Entry(k, value.value));
    }
  }

  lemma OneLineAvoids(k: Key, value: Option<string>, line: string)
    requires OneLineValue(value) && (line == ROUTE || line == RECEIVERS)
    ensures Avoids(k, value, line)
  {
    hide Entry, OneLine, Pieces;
    if value.Some? {
      EntryOneLine(k, value.value);
      OnePiece(Entry(k, value.value));
      assert ROUTE[0] == 'r' && RECEIVERS[0] == 'r';
    }
  }

  lemma OneLineNoStray(e: Env, line: string)
    requires OneLineSettings(e) && (line == ROUTE || line == RECEIVERS)
    ensures NoStray(e, line)
  {
    hide OneLineValue, Avoids;
    OneLineAvoids(SmtpSmarthost, e.smarthost, line);
    OneLineAvoids(SmtpFrom, e.emailFrom, line);
    OneLineAvoids(SmtpAuthUsername, e.smtpAuthUsername, line);
    OneLineAvoids(SmtpAuthPassword, e.smtpAuthPassword, line);
  }

  lemma OneLineLead(e: Env)
    requires OneLineSettings(e)
    ensures Unsectioned(Lead(e)) && Copies(e) == 1 && Opened(Lead(e)) == []
  {
    hide OneLineSettings, NoStray, Lead, Unsectioned, Copies, Opened;
    OneLineNoStray(e, ROUTE);
    OneLineNoStray(e, RECEIVERS);
    PlainLead(e);
    NeverOpened(Lead(e));
  }

  lemma OneLineCalmBodies(e: Env)
    requires OneLineSettings(e)
    ensures CalmBodies(e)
  {
    hide OneLineValue, Calm;
    OneLineCalm(Url, e.defaultWebhook);
    OneLineCalm(ApiUrl, e.defaultSlackWebhook);
    OneLineCalm(Channel, e.defaultSlackChannel);
    OneLineCalm(Url, e.criticalWebhook);
    OneLineCalm(RoutingKey, e.criticalPagerDutyKey);
    OneLineCalm(Url, e.warningWebhook);
    OneLineCalm(ApiUrl, e.warningSlackWebhook);
    OneLineCalm(Channel, e.warningSlackChannel);
    OneLineCalm(Url, e.securityWebhook);
    OneLineCalm(Url, e.billingWebhook);
    OneLineCalm(To, e.emailTo);
    OneLineCalm(From, e.emailFrom);
  }

  /** Settings without line breaks do not pass for structure. */
  lemma OneLineTame(e: Env)
    requires OneLineSettings(e)
    ensures Unsectioned(Lead(e)) && Tame(e)
  {
    hide OneLineSettings, CalmBodies, Copies, Lead, Unsectioned;
    OneLineLead(e);
    OneLineCalmBodies(e);
  }

  // ---------------------------------------------------------------- settings that pass for structure

  predicate Unquoted(s: string) {
    forall i :: 0 <= i < |s| ==> s[i] != '\''
  }

  lemma {:induction false} NothingDoubled(s: string)
    requires Unquoted(s)
    ensures DoubleQuotes(s) == s
  {
    if s != [] {
      NothingDoubled(s[1..]);
      assert s == [s[0]] + s[1..];
    }
  }

  /** A setting with lines between its first and its last renders with those lines bare. */
  lemma BareLines(k: Key, first: string, bare: seq<string>, last: string)
    requires OneLine(KeyText(k) + "'" + first) && AllOneLine(bare) && OneLine(last + "'")
    requires Unquoted(first) && Unquoted(TextOf(bare)) && Unquoted(last)
    ensures Pieces(Entry(k, first + "\n" + (TextOf(bare) + last))) == [KeyText(k) + "'" + first] + (bare + [last + "'"])
  {
    hide KeyText, OneLine, Pieces, TextOf;
    var value := first + "\n" + (TextOf(bare) + last);
    NothingDoubled(value);
    assert Entry(k, value) == (KeyText(k) + "'" + first) + "\n" + (TextOf(bare) + (last + "'"));
    FirstPiece(KeyText(k) + "'" + first, TextOf(bare) + (last + "'"));
    BarePieces(bare, last + "'");
  }

  /** Production settings whose smart host, read from a file, holds these lines between its first and its last. */
  function StrayHost(url: string, bare: seq<string>): Env {
    Env(Some(url), None, None, Some(url), None, Some(url), None, None, None, None, None, None,
        Some("h" + "\n" + (TextOf(bare) + "x")), None, None, true)
  }

  const OPENING := ["global:", "  resolve_timeout: 5m"]

  lemma StrayHostLead(url: string, bare: seq<string>)
    requires AllOneLine(bare) && Unquoted(TextOf(bare))
    ensures Lead(StrayHost(url, bare)) == OPENING + ([KeyText(SmtpSmarthost) + "'" + "h"] + (bare + ["x" + "'"])) + [""]
  {
    hide KeyText, Pieces, OneLine, TextOf, Flat, Entry;
    SmtpKeysClean(SmtpSmarthost);
    assert OneLine(KeyText(SmtpSmarthost) + "'" + "h") && OneLine("x" + "'") by { HostEnds(); }
    BareLines(SmtpSmarthost, "h", bare, "x");
    var host := "h" + "\n" + (TextOf(bare) + "x");
    GlobalLines();
    assert Preamble(StrayHost(url, bare)) == OPENING + [Entry(SmtpSmarthost, host)] + [""];
    FlatConcat(OPENING + [Entry(SmtpSmarthost, host)], [""]);
    FlatConcat(OPENING, [Entry(SmtpSmarthost, host)]);
    FlatOneLines(OPENING);
    FlatOneLines([""]);
    FlatOne(Entry(SmtpSmarthost, host));
  }

  lemma HostEnds()
    ensures OneLine(KeyText(SmtpSmarthost) + "'" + "h") && OneLine("x" + "'")
  {
    SmtpKeysClean(SmtpSmarthost);
  }

  /** The lines around the bare ones are no headings. */
  lemma HostLinesPlain(line: string)
    requires line == ROUTE || line == RECEIVERS || line == ROUTES
    ensures line !in OPENING && line != KeyText(SmtpSmarthost) + "'" + "h" && line != "x" + "'" && line != ""
  {
    var key := KeyText(SmtpSmarthost) + "'" + "h";
    assert key[0] == ' ' && key[2] == 's' && ("x" + "'")[0] == 'x';
    assert ROUTE[0] == 'r' && RECEIVERS[0] == 'r' && ROUTES[0] == ' ' && ROUTES[2] == 'r' && |ROUTES| == 9;
    assert OPENING[0][0] == 'g' && OPENING[1][0] == ' ' && |OPENING[1]| == 21;
  }

  /** Lines that are no headings change nothing. */
  lemma {:induction false} HeadsBehind(lines: seq<string>, rest: seq<string>)
    requires ROUTE !in lines && RECEIVERS !in lines
    ensures Heads(lines + rest) == Heads(rest) && Unsectioned(lines + rest) == Unsectioned(rest)
    ensures forall root, routes, c :: Strays(lines + rest, root, routes, c) == Strays(rest, root, routes, c)
  {
    if lines == [] {
      assert lines + rest == rest;
    } else {
      assert lines[0] in lines && forall x :: x in lines[1..] ==> x in lines;
      assert (lines + rest)[0] == lines[0] && (lines + rest)[1..] == lines[1..] + rest;
      HeadsBehind(lines[1..], rest);
    }
  }

  function HostFront(): seq<string> {
    OPENING + [KeyText(SmtpSmarthost) + "'" + "h"]
  }

  function HostBack(): seq<string> {
    ["x" + "'", ""]
  }

  lemma StrayHostParts(url: string, bare: seq<string>)
    requires AllOneLine(bare) && Unquoted(TextOf(bare))
    ensures Lead(StrayHost(url, bare)) == HostFront() + (bare + HostBack())
    ensures ROUTE !in HostFront() && RECEIVERS !in HostFront() && ROUTES !in HostFront()
    ensures ROUTE !in HostBack() && RECEIVERS !in HostBack() && ROUTES !in HostBack()
  {
    hide KeyText, TextOf, Lead;
    StrayHostLead(url, bare);
    HostLinesPlain(ROUTE);
    HostLinesPlain(RECEIVERS);
    HostLinesPlain(ROUTES);
  }

  lemma HeadingLines()
    ensures AllOneLine([ROUTE]) && AllOneLine([RECEIVERS]) && AllOneLine([ROUTE, ROUTES, INHIBIT])
    ensures Unquoted(TextOf([ROUTE])) && Unquoted(TextOf([RECEIVERS])) && Unquoted(TextOf([ROUTE, ROUTES, INHIBIT]))
  {
    FixedLines();
    assert OneLine(INHIBIT);
    assert TextOf([]) == "" && [ROUTE][1..] == [] && [RECEIVERS][1..] == [];
    assert [ROUTE, ROUTES, INHIBIT][1..] == [ROUTES, INHIBIT] && [ROUTES, INHIBIT][1..] == [INHIBIT] && [INHIBIT][1..] == [];
    assert TextOf([INHIBIT]) == INHIBIT + "\n";
    assert TextOf([ROUTES, INHIBIT]) == ROUTES + "\n" + TextOf([INHIBIT]);
  }

  lemma StrayHostAccepted(url: string, bare: seq<string>)
    ensures BuildConfig(StrayHost(url, bare)).Ok? && Covered(StrayHost(url, bare))
  {
    hide RenderedLines, TextOf;
  }

  /**
   The renderer accepts a smart host with a line `receivers:` and the settings cover every receiver, yet the probe finds
   no route in the rendered text and the routing invalid.
   */
  lemma StrayReceiversLoseRoutes(url: string)
    ensures
      var e := StrayHost(url, [RECEIVERS]);
      && BuildConfig(e).Ok? && Covered(e)
      && ParsedText(e).Ok? && ParsedText(e).value.routes == [] && !RoutingValid(ParsedText(e).value)
  {
    hide StrayHost, BuildConfig, Covered, ParsedText, RoutingValid, Lead, Tame, HostFront, TextOf, AllOneLine;
    var e := StrayHost(url, [RECEIVERS]);
    StrayHostAccepted(url, [RECEIVERS]);
    HeadingLines();
    StrayHostParts(url, [RECEIVERS]);
    TopFacts();
    HeadsBehind(HostFront(), [RECEIVERS] + HostBack());
    assert ([RECEIVERS] + HostBack())[0] == RECEIVERS;
    RenderedTextParses(e);
    RoutingOfRendered(e);
  }

  /** One line `route:` is no better: the routes are read twice, and some alerts are sent twice. */
  lemma StrayRouteDoublesRoutes(url: string)
    ensures
      var e := StrayHost(url, [ROUTE]);
      && BuildConfig(e).Ok? && Covered(e)
      && ParsedText(e).Ok? && |ParsedText(e).value.routes| == 10 && !RoutingValid(ParsedText(e).value)
  {
    hide StrayHost, BuildConfig, Covered, ParsedText, RoutingValid, Lead, Tame, HostFront, HostBack, TextOf, AllOneLine, Repeated;
    var e := StrayHost(url, [ROUTE]);
    StrayHostAccepted(url, [ROUTE]);
    HeadingLines();
    StrayHostParts(url, [ROUTE]);
    TopFacts();
    HeadsBehind(HostFront(), [ROUTE] + HostBack());
    assert ([ROUTE] + HostBack())[1..] == HostBack();
    PlainUnsectioned(HostBack());
    assert Copies(e) == 2;
    RenderedTextParses(e);
    RoutingOfRendered(e);
  }

  /** But a route section that closes at once does no harm, although the settings then open routes of their own. */
  lemma StraySectionMayBeHarmless(url: string)
    ensures
      var e := StrayHost(url, [ROUTE, ROUTES, INHIBIT]);
      && BuildConfig(e).Ok? && !Unsectioned(Lead(e))
      && ParsedText(e).Ok? && RoutingValid(ParsedText(e).value)
  {
    hide StrayHost, BuildConfig, Covered, ParsedText, RoutingValid, Lead, HostFront, HostBack, TextOf, AllOneLine, NoStray, Harmless, FixedRoutes,
      RouteSection, RoutesOf;
    var bare := [ROUTE, ROUTES, INHIBIT];
    var e := StrayHost(url, bare);
    StrayHostAccepted(url, bare);
    HeadingLines();
    StrayHostParts(url, bare);
    HeadsBehind(HostFront(), bare + HostBack());
    ClosedSectionStrays(HostBack(), FixedRoutes());
    HeadingsApart();
    RoutingBehindSettings(e);
    assert [] + FixedRoutes() == FixedRoutes();
    FixedAre();
    FixedRouting(ParsedText(e).value);
  }

  lemma HeadingsApart()
    ensures ROUTE != RECEIVERS && ROUTES != RECEIVERS && INHIBIT != RECEIVERS && ROUTES != ROUTE && INHIBIT != ROUTE
  {
    assert INHIBIT[0] == 'i' && ROUTE[0] == 'r' && RECEIVERS[0] == 'r' && ROUTES[0] == ' ' && |ROUTE| == 6 && |RECEIVERS| == 10;
  }

  lemma ClosedSectionStrays(back: seq<string>, routes: seq<Route>)
    requires ROUTE !in back && RECEIVERS !in back
    ensures Strays([ROUTE, ROUTES, INHIBIT] + back, "default", routes, EMPTY) == Ok(EMPTY)
    ensures !Unsectioned([ROUTE, ROUTES, INHIBIT] + back)
  {
    hide RouteSection, RoutesOf;
    HeadingsApart();
    var own := [INHIBIT] + back;
    var after := [ROUTES] + own;
    assert [ROUTE, ROUTES, INHIBIT] + back == [ROUTE] + after;
    assert ([ROUTE] + after)[1..] == after && after[0] == ROUTES && own[0] == INHIBIT;
    ClosedSection(own);
    HeadsBehind(after, []);
    assert after + [] == after;
    assert ROUTES in after;
  }

  lemma ClosedSection(own: seq<string>)
    requires own != [] && own[0] == INHIBIT
    ensures RouteSection([ROUTES] + own, "default") == Section("default", Some(own)) && RoutesOf(own, []) == Ok([])
  {
    TopFacts();
    assert ([ROUTES] + own)[1..] == own;
  }

  // ---------------------------------------------------------------- delivery settings that pass for structure

  /** A receiver that a body opens is one more receiver. */
  lemma ReceiverLinesSplit(name: string, a: seq<string>, other: string, b: seq<string>, rest: seq<ReceiverBlock>)
    ensures ReceiverLines([ReceiverBlock(name, a + ([NAME + other] + b))] + rest)
      == ReceiverLines([ReceiverBlock(name, a), ReceiverBlock(other, b)] + rest)
  {
    var one, two := [ReceiverBlock(name, a + ([NAME + other] + b))] + rest, [ReceiverBlock(name, a), ReceiverBlock(other, b)] + rest;
    assert one[1..] == rest && two[1..] == [ReceiverBlock(other, b)] + rest && two[1..][1..] == rest;
    assert two[1..][0] == ReceiverBlock(other, b);
  }

  /** Production settings whose default webhook, read from a file, holds the line that opens a receiver of that name. */
  function StrayName(url: string): Env {
    Env(Some("u" + "\n" + (TextOf([NAME + "default"]) + "x")), None, None, Some(url), None, Some(url), None, None, None, None, None, None,
        None, None, None, true)
  }

  lemma StrayNameBody(url: string)
    requires '\n' !in url
    ensures Flat(DefaultBody(StrayName(url))) ==
      [KindText(Webhook), SEND_RESOLVED, KeyText(Url) + "'" + "u"] + ([NAME + "default"] + ["x" + "'"])
    ensures !StartsWith(KindText(Webhook), NAME) && !StartsWith(SEND_RESOLVED, NAME) && !StartsWith(KeyText(Url) + "'" + "u", NAME)
    ensures !StartsWith("x" + "'", NAME) && KindOf("x" + "'").None?
  {
    hide KeyText, Pieces, OneLine, TextOf, Flat, Entry, KindText, StartsWith, KindOf, IsLowerCase;
    var value := "u" + "\n" + (TextOf([NAME + "default"]) + "x");
    NamesLower();
    LowerValid("default");
    LowerNonempty("default");
    PrefixedOneLine("default");
    NameUnquoted();
    WebhookEnds();
    BareLines(Url, "u", [NAME + "default"], "x");
    KindLine(Webhook);
    ResolvedLine();
    var head := [KindText(Webhook), SEND_RESOLVED];
    assert DefaultBody(StrayName(url)) == head + [Entry(Url, value)];
    FlatConcat(head, [Entry(Url, value)]);
    FlatOneLines(head);
    FlatOne(Entry(Url, value));
  }

  lemma NameUnquoted()
    ensures Unquoted("u") && Unquoted("x") && Unquoted(TextOf([NAME + "default"]))
  {
    assert [NAME + "default"][1..] == [] && TextOf([]) == "";
    assert TextOf([NAME + "default"]) == NAME + "default" + "\n";
  }

  lemma WebhookEnds()
    ensures OneLine(KeyText(Url) + "'" + "u") && OneLine("x" + "'")
    ensures !StartsWith(KeyText(Url) + "'" + "u", NAME) && !StartsWith("x" + "'", NAME) && KindOf("x" + "'").None?
  {
    ShortKeysClean(Url);
    assert NAME[0] == ' ' && NAME[2] == '-' && (KeyText(Url) + "'" + "u")[2] == ' ' && ("x" + "'")[0] == 'x';
    LetterNotSpace('x');
    var line := "x" + "'";
    assert TrimStart(line) == line;
    TrimEndKeepsStart(line);
    assert "webhook_configs:"[0] == 'w' && "slack_configs:"[0] == 's' && "pagerduty_configs:"[0] == 'p' && "email_configs:"[0] == 'e';
  }

  lemma StrayNameBlocks(url: string)
    requires '\n' !in url
    ensures
      var e := StrayName(url);
      var blocks := SplitReceivers(e);
      && |blocks| == 6 && blocks[0].name == "default"
      && (forall i :: 1 <= i < 6 ==> ValidReceiver(blocks[i]) && blocks[i].name != "default")
  {
    hide KindsOf, NameCount, Flat, DefaultBody, CriticalBody, WarningBody, WebhookBody, Kinds, Calm, SplitReceivers, ValidName,
      StartsWith, DefaultKinds, CriticalKinds, WarningKinds, IntendedReceivers, TextOf;
    var e := StrayName(url);
    BodiesRead(e);
    NamesValid(e);
    ReceiverNames();
    OneLineCalm(Url, Some(url));
    CriticalBodyKinds(e);
    WarningBodyKinds(e);
    WebhookBodyKinds(e.securityWebhook);
    LastBodyKinds(e);
    assert Calm(Url, None) && Calm(RoutingKey, None) by { NothingCalm(); }
    var blocks := SplitReceivers(e);
    NothingCounted();
    forall i | 1 <= i < 6
      ensures ValidReceiver(blocks[i]) && blocks[i].name != "default"
    {
      NoNames(blocks[i].body);
    }
  }

  lemma NothingCalm()
    ensures Calm(Url, None) && Calm(RoutingKey, None)
  {
  }

  lemma StrayNameReceivers(url: string)
    requires '\n' !in url
    ensures
      var found := ReceiversOf(ReceiverLines(SplitReceivers(StrayName(url))));
      Lookup(found, "default") == Some(Receiver("default", []))
  {
    hide ReceiversOf, ReceiverLines, SplitReceivers, KindsOf, Flat, DefaultBody, CriticalBody, WarningBody, WebhookBody, StartsWith,
      KindText, KeyText, KindOf, ValidName, StrayName, IsLowerCase, Lookup;
    var e := StrayName(url);
    var blocks := SplitReceivers(e);
    BodiesRead(e);
    StrayNameBody(url);
    StrayNameBlocks(url);
    var first := [KindText(Webhook), SEND_RESOLVED, KeyText(Url) + "'" + "u"];
    ReceiverLinesSplit("default", first, "default", ["x" + "'"], blocks[1..]);
    assert blocks == [blocks[0]] + blocks[1..];
    var seven := [ReceiverBlock("default", first), ReceiverBlock("default", ["x" + "'"])] + blocks[1..];
    NamesLower();
    LowerValid("default");
    forall i | 0 <= i < |seven|
      ensures ValidReceiver(seven[i]) && (i > 1 ==> seven[i].name != "default")
    {
      assert i > 1 ==> seven[i] == blocks[i - 1];
    }
    ReceiversRead(seven);
    NoKinds(["x" + "'"]);
    LookupAt(ReceiversIn(seven), 1, "default");
  }

  /**
   The renderer accepts a default webhook that opens a second receiver of that name and the settings cover every
   receiver, yet alerts to the default receiver go nowhere: the last receiver of a name is the one that counts.
   */
  lemma StrayNameLosesDelivery(url: string)
    requires '\n' !in url
    ensures
      var e := StrayName(url);
      && BuildConfig(e).Ok? && Covered(e)
      && ParsedText(e).Ok? && RoutingValid(ParsedText(e).value)
      && Lookup(ParsedText(e).value.receivers, "default") == Some(Receiver("default", []))
      && !DeliveryCoverageValid(ParsedText(e).value)
  {
    var e := StrayName(url);
    assert BuildConfig(e).Ok? && Covered(e) && NoStray(e, ROUTE) && NoStray(e, RECEIVERS) by { StrayNameAccepted(url); }
    hide StrayName, BuildConfig, Covered, NoStray, ParsedText, RoutingValid, DeliveryCoverageValid, Flat, Preamble, Lookup,
      ReceiversOf, ReceiverLines, SplitReceivers, FixedRoutes, Repeated, Unsectioned, Heads;
    PlainLead(e);
    RoutingOfRendered(e);
    ParsedCopies(e);
    StrayNameReceivers(url);
    CoverageOf(ParsedText(e).value);
    NotWatchdog();
  }

  lemma PlainLead(e: Env)
    requires NoStray(e, ROUTE) && NoStray(e, RECEIVERS)
    ensures Unsectioned(Lead(e)) && Copies(e) == 1 && RECEIVERS !in Lead(e)
  {
    hide NoStray, Flat, Preamble, Unsectioned;
    PreambleStray(e, ROUTE);
    PreambleStray(e, RECEIVERS);
    PlainUnsectioned(Lead(e));
  }

  lemma NotWatchdog()
    ensures "default" != "watchdog" && "critical" != "watchdog" && "warning" != "watchdog"
  {
    assert "watchdog"[2] == 't' && "warning"[2] == 'r' && "critical"[0] == 'c' && "default"[0] == 'd';
  }

  lemma StrayNameAccepted(url: string)
    ensures
      var e := StrayName(url);
      BuildConfig(e).Ok? && Covered(e) && NoStray(e, ROUTE) && NoStray(e, RECEIVERS)
  {
    hide RenderedLines, TextOf;
  }

  /** Settings with e-mail as the only alert target. */
  function EmailOnly(to: string, host: string): Env {
    Env(None, None, None, None, None, None, None, None, None, None, Some(to), None, Some(host), None, None, true)
  }

  /** Production mode with e-mail as the only target renders, yet the default receiver read back delivers nowhere. */
  lemma EmailOnlyUncovered(to: string, host: string)
    requires '\n' !in to && '\n' !in host
    ensures
      var e := EmailOnly(to, host);
      && BuildConfig(e).Ok? && ParsedText(e).Ok?
      && Lookup(ParsedText(e).value.receivers, "default") == Some(Receiver("default", []))
      && !DeliveryCoverageValid(ParsedText(e).value)
  {
    hide TextOf, RenderedLines, ParsedText, Unsectioned, Lead, Tame, RoutingValid, DeliveryCoverageValid, CriticalKinds, WarningKinds, Lookup;
    var e := EmailOnly(to, host);
    assert !Covered(e) && DefaultKinds(e) == [];
    OneLineTame(e);
    RenderedTextParses(e);
    ProbeOfRendered(e);
    ReceiverNames();
    LookupAt(IntendedReceivers(e), 0, "default");
  }
}
