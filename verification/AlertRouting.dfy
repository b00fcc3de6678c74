/**
 The Alertmanager configuration as the routing probe reads it: a line-by-line parser whose nested
 loops share and rewrite their indices, and first-match routing with `continue`.
 */
module AlertRouting {
  import opened Wrappers
  import opened Text

  datatype Matcher = Matcher(name: string, value: string)

  datatype Route = Route(matchers: seq<Matcher>, receiver: string, continueMatching: bool)

  datatype Kind = Webhook | Slack | PagerDuty | Email

  datatype Receiver = Receiver(name: string, deliveryKinds: seq<Kind>)

  datatype Config = Config(rootReceiver: string, routes: seq<Route>, receivers: seq<Receiver>)

  datatype ParseError = MissingRouteReceiver

  // ---------------------------------------------------------------- lines

  /** `line.slice(prefix.length).trim()` */
  function After(line: string, prefix: string): string
    requires StartsWith(line, prefix)
  {
    Trim(line[|prefix|..])
  }

  predicate IsWord(c: char) {
    'A' <= c <= 'Z' || 'a' <= c <= 'z' || '0' <= c <= '9' || c == '_'
  }

  function WordRun(s: string): (n: nat)
    ensures n <= |s| && forall i :: 0 <= i < n ==> IsWord(s[i])
    ensures n < |s| ==> !IsWord(s[n])
  {
    if s != [] && IsWord(s[0]) then 1 + WordRun(s[1..]) else 0
  }

  const ROUTE := "route:"
  const RECEIVERS := "receivers:"
  const ROUTES := "  routes:"
  const ROOT_RECEIVER := "  receiver: "
  const HEADER := "    - matchers:"
  const INHIBIT := "inhibit_rules:"
  const ROUTE_RECEIVER := "      receiver: "
  const ROUTE_CONTINUE := "      continue: "
  const NAME := "  - name: "

  /** `line.match(/^\s*-\s+([A-Za-z0-9_]+)="([^"]*)"$/)` */
  function ParseMatcher(line: string): Option<Matcher> {
    var s := TrimStart(line);
    if s == [] || s[0] != '-' || |s| < 2 || !IsSpace(s[1]) then None
    else
      var t := TrimStart(s[1..]);
      var n := WordRun(t);
      var rest := t[n..];
      if n > 0 && |rest| >= 3 && rest[0] == '=' && rest[1] == '"' && rest[|rest| - 1] == '"' && '"' !in rest[2..|rest| - 1]
      then Some(Matcher(t[..n], rest[2..|rest| - 1]))
      else None
  }

  predicate IsHeader(line: string) { StartsWith(line, HEADER) }

  predicate EndsBlock(line: string) { IsHeader(line) || line == INHIBIT }

  // ---------------------------------------------------------------- what the parser computes

  const BLANK := Route([], "", false)

  /** What one line of a route block adds to its definition. */
  function Absorb(def: Route, line: string): Route {
    match ParseMatcher(TrimStart(line))
    case Some(m) => def.(matchers := def.matchers + [m])
    case None =>
      if StartsWith(line, ROUTE_RECEIVER) then def.(receiver := After(line, ROUTE_RECEIVER))
      else if StartsWith(line, ROUTE_CONTINUE) then def.(continueMatching := After(line, ROUTE_CONTINUE) == "true")
      else def
  }

  function DefinitionOf(block: seq<string>): Route {
    if block == [] then BLANK else Absorb(DefinitionOf(block[..|block| - 1]), block[|block| - 1])
  }

  /** How many lines there are before the next route block or the end of the routes. */
  function BlockSpan(rest: seq<string>): (n: nat)
    ensures n <= |rest| && forall i :: 0 <= i < n ==> !EndsBlock(rest[i])
    ensures n < |rest| ==> EndsBlock(rest[n])
  {
    if rest == [] || EndsBlock(rest[0]) then 0 else 1 + BlockSpan(rest[1..])
  }

  /** The routes listed in `rest`, one per block, on top of those already read. */
  function RoutesOf(rest: seq<string>, soFar: seq<Route>): Result<seq<Route>, ParseError>
    decreases |rest|
  {
    if rest == [] || rest[0] == INHIBIT then Ok(soFar)
    else if !IsHeader(rest[0]) then RoutesOf(rest[1..], soFar)
    else
      var span := BlockSpan(rest[1..]);
      var def := DefinitionOf(rest[1..1 + span]);
      if def.receiver == "" then Err(MissingRouteReceiver) else RoutesOf(rest[1 + span..], soFar + [def])
  }

  datatype Section = Section(rootReceiver: string, routes: Option<seq<string>>)

  /** The root receiver, and the lines after `routes:` if there are any. */
  function RouteSection(rest: seq<string>, root: string): Section {
    if rest == [] then Section(root, None)
    else
      var root' := if StartsWith(rest[0], ROOT_RECEIVER) then After(rest[0], ROOT_RECEIVER) else root;
      if rest[0] == ROUTES then Section(root', Some(rest[1..])) else RouteSection(rest[1..], root')
  }

  function KindOf(line: string): Option<Kind> {
    var t := Trim(line);
    if t == "webhook_configs:" then Some(Webhook)
    else if t == "slack_configs:" then Some(Slack)
    else if t == "pagerduty_configs:" then Some(PagerDuty)
    else if t == "email_configs:" then Some(Email)
    else None
  }

  function KindsOf(body: seq<string>): seq<Kind> {
    if body == [] then []
    else
      match KindOf(body[|body| - 1])
      case Some(k) => KindsOf(body[..|body| - 1]) + [k]
      case None => KindsOf(body[..|body| - 1])
  }

  function NameSpan(rest: seq<string>): (n: nat)
    ensures n <= |rest| && forall i :: 0 <= i < n ==> !StartsWith(rest[i], NAME)
    ensures n < |rest| ==> StartsWith(rest[n], NAME)
  {
    if rest == [] || StartsWith(rest[0], NAME) then 0 else 1 + NameSpan(rest[1..])
  }

  function ReceiversOf(rest: seq<string>): seq<Receiver>
    decreases |rest|
  {
    if rest == [] then []
    else if !StartsWith(rest[0], NAME) then ReceiversOf(rest[1..])
    else
      var span := NameSpan(rest[1..]);
      [Receiver(After(rest[0], NAME), KindsOf(rest[1..1 + span]))] + ReceiversOf(rest[1 + span..])
  }

  function ConfigOf(rest: seq<string>, soFar: Config): Result<Config, ParseError> {
    if rest == [] then Ok(soFar)
    else if rest[0] == ROUTE then
      var section := RouteSection(rest[1..], soFar.rootReceiver);
      match (match section.routes case Some(lines) => RoutesOf(lines, soFar.routes) case None => Ok(soFar.routes))
      case Err(e) => Err(e)
      case Ok(routes) => ConfigOf(rest[1..], soFar.(rootReceiver := section.rootReceiver, routes := routes))
    else if rest[0] == RECEIVERS then Ok(soFar.(receivers := soFar.receivers + ReceiversOf(rest[1..])))
    else ConfigOf(rest[1..], soFar)
  }

  const EMPTY := Config("default", [], [])

  // ---------------------------------------------------------------- the loops

  lemma {:induction false} RoutesSkip(rest: seq<string>, n: nat, soFar: seq<Route>)
    requires n <= |rest| && forall i :: 0 <= i < n ==> !EndsBlock(rest[i])
    ensures RoutesOf(rest, soFar) == RoutesOf(rest[n..], soFar)
  {
    if n > 0 {
      assert rest[1..][n - 1..] == rest[n..];
      RoutesSkip(rest[1..], n - 1, soFar);
    } else {
      assert rest[0..] == rest;
    }
  }

  /** One route block: the `offset` loop, which also moves `child` for the loop around it. */
  method ReadBlock(lines: seq<string>, header: nat) returns (definition: Route, child: nat)
    requires header < |lines|
    ensures var span := BlockSpan(lines[header + 1..]);
      && definition == DefinitionOf(lines[header + 1..header + 1 + span])
      && (child == header + span || (child == header && header + 1 + span == |lines|))
  {
    hide EndsBlock, ParseMatcher, StartsWith, After, TrimStart, DefinitionOf, BlockSpan;
    definition := BLANK;
    child := header;
    var offset := header + 1;
    NothingDefined();
    assert lines[header + 1..offset] == [];
    while offset < |lines|
      invariant header + 1 <= offset <= |lines|
      invariant child == header || (offset == |lines| && child == offset - 1)
      invariant definition == DefinitionOf(lines[header + 1..offset])
      invariant forall i :: header < i < offset ==> !EndsBlock(lines[i])
    {
      var line := lines[offset];
      if EndsBlock(line) {
        child := offset - 1;
        break;
      }
      assert lines[header + 1..offset + 1] == lines[header + 1..offset] + [line];
      DefinitionStep(lines[header + 1..offset], line);
      var matcher := ParseMatcher(TrimStart(line));
      if matcher.Some? {
        definition := definition.(matchers := definition.matchers + [matcher.value]);
        offset := offset + 1;
        continue;
      }
      if StartsWith(line, ROUTE_RECEIVER) {
        definition := definition.(receiver := After(line, ROUTE_RECEIVER));
        offset := offset + 1;
        continue;
      }
      if StartsWith(line, ROUTE_CONTINUE) {
        definition := definition.(continueMatching := After(line, ROUTE_CONTINUE) == "true");
        offset := offset + 1;
        continue;
      }
      if offset == |lines| - 1 {
        child := offset;
      }
      offset := offset + 1;
    }
    SpanIs(lines[header + 1..], offset - header - 1);
  }

  lemma NothingDefined()
    ensures DefinitionOf([]) == BLANK
  {
  }

  lemma DefinitionStep(block: seq<string>, line: string)
    ensures DefinitionOf(block + [line]) == Absorb(DefinitionOf(block), line)
  {
    assert (block + [line])[..|block|] == block;
  }

  lemma {:induction false} SpanIs(rest: seq<string>, n: nat)
    requires n <= |rest| && (forall i :: 0 <= i < n ==> !EndsBlock(rest[i])) && (n < |rest| ==> EndsBlock(rest[n]))
    ensures BlockSpan(rest) == n
  {
    if n > 0 { SpanIs(rest[1..], n - 1); }
  }

  /** One turn of the routes loop at `child`, in terms of the lines from there on. */
  lemma RoutesStep(lines: seq<string>, child: nat, soFar: seq<Route>)
    requires child < |lines|
    ensures lines[child] == INHIBIT ==> RoutesOf(lines[child..], soFar) == Ok(soFar)
    ensures lines[child] != INHIBIT && !IsHeader(lines[child]) ==>
      RoutesOf(lines[child..], soFar) == RoutesOf(lines[child + 1..], soFar)
    ensures lines[child] != INHIBIT && IsHeader(lines[child]) ==>
      var next := child + 1 + BlockSpan(lines[child + 1..]);
      var def := DefinitionOf(lines[child + 1..next]);
      RoutesOf(lines[child..], soFar) ==
        if def.receiver == "" then Err(MissingRouteReceiver) else RoutesOf(lines[next..], soFar + [def])
  {
    hide IsHeader, DefinitionOf;
    var span := BlockSpan(lines[child + 1..]);
    assert lines[child..][1..] == lines[child + 1..];
    assert lines[child..][1..1 + span] == lines[child + 1..child + 1 + span];
    assert lines[child..][1 + span..] == lines[child + 1 + span..];
  }

  /** The `child` loop: every block is read once, in order, although the block loop moves `child`. */
  method ReadRoutes(lines: seq<string>, from: nat, soFar: seq<Route>) returns (r: Result<seq<Route>, ParseError>)
    requires from <= |lines|
    ensures r == RoutesOf(lines[from..], soFar)
  {
    hide IsHeader, DefinitionOf, RoutesOf, BlockSpan;
    var routes := soFar;
    var child := from;
    while child < |lines|
      invariant from <= child <= |lines|
      invariant RoutesOf(lines[from..], soFar) == RoutesOf(lines[child..], routes)
      decreases |lines| - child
    {
      RoutesStep(lines, child, routes);
      if lines[child] == INHIBIT {
        return Ok(routes);
      }
      if !IsHeader(lines[child]) {
        child := child + 1;
        continue;
      }
      var definition, last := ReadBlock(lines, child);
      if definition.receiver == "" {
        return Err(MissingRouteReceiver);
      }
      routes := routes + [definition];
      ghost var rest := lines[child + 1..];
      RoutesSkip(rest, BlockSpan(rest), routes);
      assert rest[BlockSpan(rest)..] == lines[child + 1 + BlockSpan(rest)..];
      child := last + 1;
    }
    RoutesEnd(routes);
    assert lines[|lines|..] == [];
    return Ok(routes);
  }

  lemma RoutesEnd(soFar: seq<Route>)
    ensures RoutesOf([], soFar) == Ok(soFar)
  {
  }

  lemma {:induction false} NameSpanIs(rest: seq<string>, n: nat)
    requires n <= |rest| && (forall i :: 0 <= i < n ==> !StartsWith(rest[i], NAME)) && (n < |rest| ==> StartsWith(rest[n], NAME))
    ensures NameSpan(rest) == n
  {
    if n > 0 { NameSpanIs(rest[1..], n - 1); }
  }

  lemma KindsStep(body: seq<string>, line: string)
    ensures KindsOf([]) == []
    ensures KindsOf(body + [line]) == KindsOf(body) + match KindOf(line) case Some(k) => [k] case None => []
  {
    hide KindOf;
    assert (body + [line])[..|body|] == body;
  }

  /** One receiver block: the `offset` loop, which also moves `inner`. */
  method ReadReceiver(lines: seq<string>, start: nat) returns (kinds: seq<Kind>, inner: nat)
    requires start < |lines|
    ensures var span := NameSpan(lines[start + 1..]);
      kinds == KindsOf(lines[start + 1..start + 1 + span]) && inner == start + span
  {
    hide StartsWith, KindOf, KindsOf, NameSpan;
    KindsStep([], "");
    assert lines[start + 1..start + 1] == [];
    kinds := [];
    inner := start;
    var offset := start + 1;
    while offset < |lines|
      invariant start + 1 <= offset <= |lines|
      invariant inner == if offset < |lines| then start else offset - 1
      invariant kinds == KindsOf(lines[start + 1..offset])
      invariant forall i :: start < i < offset ==> !StartsWith(lines[i], NAME)
    {
      if StartsWith(lines[offset], NAME) {
        inner := offset - 1;
        break;
      }
      KindsStep(lines[start + 1..offset], lines[offset]);
      assert lines[start + 1..offset + 1] == lines[start + 1..offset] + [lines[offset]];
      var kind := KindOf(lines[offset]);
      if kind.Some? {
        kinds := kinds + [kind.value];
      }
      if offset == |lines| - 1 {
        inner := offset;
      }
      offset := offset + 1;
    }
    NameSpanIs(lines[start + 1..], offset - start - 1);
  }

  lemma ReceiversUnfold(rest: seq<string>)
    requires rest != []
    ensures !StartsWith(rest[0], NAME) ==> ReceiversOf(rest) == ReceiversOf(rest[1..])
    ensures StartsWith(rest[0], NAME) ==>
      var span := NameSpan(rest[1..]);
      ReceiversOf(rest) == [Receiver(After(rest[0], NAME), KindsOf(rest[1..1 + span]))] + ReceiversOf(rest[1 + span..])
  {
    hide StartsWith, After, KindsOf, NameSpan;
  }

  lemma ReceiversStep(lines: seq<string>, inner: nat)
    requires inner < |lines|
    ensures !StartsWith(lines[inner], NAME) ==> ReceiversOf(lines[inner..]) == ReceiversOf(lines[inner + 1..])
    ensures StartsWith(lines[inner], NAME) ==>
      var next := inner + 1 + NameSpan(lines[inner + 1..]);
      ReceiversOf(lines[inner..]) ==
        [Receiver(After(lines[inner], NAME), KindsOf(lines[inner + 1..next]))] + ReceiversOf(lines[next..])
  {
    hide StartsWith, After, KindsOf, NameSpan, ReceiversOf;
    ReceiversUnfold(lines[inner..]);
    var span := NameSpan(lines[inner + 1..]);
    assert lines[inner..][1..] == lines[inner + 1..];
    assert lines[inner..][1..1 + span] == lines[inner + 1..inner + 1 + span];
    assert lines[inner..][1 + span..] == lines[inner + 1 + span..];
  }

  /** The `inner` loop over the receivers. */
  method ReadReceivers(lines: seq<string>, from: nat) returns (receivers: seq<Receiver>)
    requires from <= |lines|
    ensures receivers == ReceiversOf(lines[from..])
  {
    hide StartsWith, After, KindsOf, ReceiversOf, NameSpan;
    receivers := [];
    var inner := from;
    while inner < |lines|
      invariant from <= inner <= |lines|
      invariant receivers + ReceiversOf(lines[inner..]) == ReceiversOf(lines[from..])
      decreases |lines| - inner
    {
      ReceiversStep(lines, inner);
      if !StartsWith(lines[inner], NAME) {
        inner := inner + 1;
        continue;
      }
      var name := After(lines[inner], NAME);
      var kinds, last := ReadReceiver(lines, inner);
      receivers := receivers + [Receiver(name, kinds)];
      inner := last + 1;
    }
    assert lines[|lines|..] == [];
    NoReceivers();
  }

  lemma NoReceivers()
    ensures ReceiversOf([]) == []
  {
  }

  /** `parseRenderedAlertmanagerConfig` on the split lines. */
  method ParseConfig(lines: seq<string>) returns (r: Result<Config, ParseError>)
    ensures r == ConfigOf(lines, EMPTY)
  {
    hide StartsWith, After, RoutesOf, ReceiversOf;
    var config := EMPTY;
    var index := 0;
    while index < |lines|
      invariant 0 <= index <= |lines|
      invariant ConfigOf(lines, EMPTY) == ConfigOf(lines[index..], config)
    {
      var line := lines[index];
      assert lines[index..][1..] == lines[index + 1..];
      ghost var before := config;
      if line == ROUTE {
        var inner := index + 1;
        while inner < |lines|
          invariant index + 1 <= inner <= |lines|
          invariant config.routes == before.routes && config.receivers == before.receivers
          invariant RouteSection(lines[index + 1..], before.rootReceiver) == RouteSection(lines[inner..], config.rootReceiver)
        {
          var routeLine := lines[inner];
          assert lines[inner..][1..] == lines[inner + 1..];
          if StartsWith(routeLine, ROOT_RECEIVER) {
            config := config.(rootReceiver := After(routeLine, ROOT_RECEIVER));
          }
          if routeLine == ROUTES {
            var routes := ReadRoutes(lines, inner + 1, config.routes);
            if routes.Err? {
              return Err(routes.error);
            }
            config := config.(routes := routes.value);
            break;
          }
          inner := inner + 1;
        }
      }
      if line == RECEIVERS {
        var receivers := ReadReceivers(lines, index + 1);
        return Ok(config.(receivers := config.receivers + receivers));
      }
      index := index + 1;
    }
    return Ok(config);
  }

  // ---------------------------------------------------------------- routing

  type Labels = map<string, string>

  predicate RouteMatches(route: Route, labels: Labels) {
    forall m :: m in route.matchers ==> m.name in labels && labels[m.name] == m.value
  }

  /** How many routes are looked at: up to and including the first match that does not continue. */
  function Reach(routes: seq<Route>, labels: Labels): (n: nat)
    ensures n <= |routes|
    ensures forall i :: 0 <= i < n - 1 ==> RouteMatches(routes[i], labels) ==> routes[i].continueMatching
    ensures n < |routes| ==> n > 0 && RouteMatches(routes[n - 1], labels) && !routes[n - 1].continueMatching
  {
    if routes == [] then 0
    else if RouteMatches(routes[0], labels) && !routes[0].continueMatching then 1
    else 1 + Reach(routes[1..], labels)
  }

  function Matching(routes: seq<Route>, labels: Labels): seq<string> {
    if routes == [] then []
    else Matching(routes[..|routes| - 1], labels) +
         if RouteMatches(routes[|routes| - 1], labels) then [routes[|routes| - 1].receiver] else []
  }

  /** The receivers of the matching routes within reach, or else the root receiver. */
  function Targets(root: string, routes: seq<Route>, labels: Labels): (receivers: seq<string>)
    ensures receivers != []
  {
    var found := Matching(routes[..Reach(routes, labels)], labels);
    if found == [] then [root] else found
  }

  method EvaluateRoutes(root: string, routes: seq<Route>, labels: Labels) returns (receivers: seq<string>)
    ensures receivers == Targets(root, routes, labels)
  {
    receivers := [];
    var matchedAny := false;
    var i := 0;
    while i < |routes|
      invariant 0 <= i <= |routes|
      invariant receivers == Matching(routes[..i], labels) && matchedAny == (receivers != [])
      invariant forall j :: 0 <= j < i ==> RouteMatches(routes[j], labels) ==> routes[j].continueMatching
    {
      var route := routes[i];
      assert routes[..i + 1][..i] == routes[..i];
      i := i + 1;
      if !RouteMatches(route, labels) {
        continue;
      }
      matchedAny := true;
      receivers := receivers + [route.receiver];
      if !route.continueMatching {
        break;
      }
    }
    ReachIs(routes, labels, i);
    if !matchedAny {
      receivers := [root];
    }
  }

  lemma {:induction false} ReachIs(routes: seq<Route>, labels: Labels, n: nat)
    requires n <= |routes|
    requires forall i :: 0 <= i < n - 1 ==> RouteMatches(routes[i], labels) ==> routes[i].continueMatching
    requires n < |routes| ==> n > 0 && RouteMatches(routes[n - 1], labels) && !routes[n - 1].continueMatching
    ensures Reach(routes, labels) == n
  {
    hide RouteMatches;
    if n > 1 || (n == 1 && |routes| == 1) {
      assert forall i :: 0 <= i < n - 1 ==> routes[1..][i] == routes[i + 1];
      if n > 1 { ReachIs(routes[1..], labels, n - 1); }
    }
  }

  /** The labels satisfy every matcher of the route. */
  predicate Fits(route: Route, labels: Labels) {
    forall i :: 0 <= i < |route.matchers| ==>
      route.matchers[i].name in labels && labels[route.matchers[i].name] == route.matchers[i].value
  }

  predicate SomeFits(routes: seq<Route>, labels: Labels) {
    exists i :: 0 <= i < |routes| && Fits(routes[i], labels)
  }

  lemma FitsMeans(route: Route, labels: Labels)
    ensures RouteMatches(route, labels) <==> Fits(route, labels)
  {
  }

  lemma {:induction false} MatchingHead(route: Route, rest: seq<Route>, labels: Labels)
    ensures Matching([route] + rest, labels) == Given(RouteMatches(route, labels), route.receiver) + Matching(rest, labels)
  {
    hide RouteMatches;
    var routes := [route] + rest;
    if rest != [] {
      MatchingHead(route, rest[..|rest| - 1], labels);
      assert routes[..|routes| - 1] == [route] + rest[..|rest| - 1];
    } else {
      assert routes == [route] && [route][..0] == [];
    }
  }

  lemma {:induction false} NoneMatch(routes: seq<Route>, labels: Labels)
    ensures Matching(routes[..Reach(routes, labels)], labels) == [] <==> !SomeFits(routes, labels)
  {
    hide RouteMatches, Fits, Matching;
    if routes == [] {
      NothingMatches(labels);
    } else {
      NoneMatch(routes[1..], labels);
      FitsMeans(routes[0], labels);
      var n := Reach(routes, labels);
      assert routes[..n] == [routes[0]] + routes[1..][..n - 1];
      MatchingHead(routes[0], routes[1..][..n - 1], labels);
      assert forall i :: 1 <= i < |routes| ==> routes[i] == routes[1..][i - 1];
      assert SomeFits(routes, labels) <==> Fits(routes[0], labels) || SomeFits(routes[1..], labels);
    }
  }

  lemma NothingMatches(labels: Labels)
    ensures Matching([], labels) == []
  {
  }

  /**
   Routing from the first route on: no route leaves the root; a route that does not fit is passed over; one that fits
   takes the alert, and hands it on only if it continues and a later one fits.
   */
  lemma TargetsMean(root: string, routes: seq<Route>, labels: Labels)
    ensures routes == [] ==> Targets(root, routes, labels) == [root]
    ensures routes != [] && !Fits(routes[0], labels) ==> Targets(root, routes, labels) == Targets(root, routes[1..], labels)
    ensures routes != [] && Fits(routes[0], labels) ==>
      Targets(root, routes, labels) ==
        [routes[0].receiver]
        + if routes[0].continueMatching && SomeFits(routes[1..], labels) then Targets(root, routes[1..], labels) else []
  {
    hide RouteMatches, Fits, Matching;
    NothingMatches(labels);
    if routes != [] {
      FitsMeans(routes[0], labels);
      NoneMatch(routes[1..], labels);
      var n := Reach(routes, labels);
      assert routes[..n] == [routes[0]] + routes[1..][..n - 1];
      MatchingHead(routes[0], routes[1..][..n - 1], labels);
    }
  }
}
