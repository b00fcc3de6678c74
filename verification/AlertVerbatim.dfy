/**
 The alert configuration word for word: what the renderer writes for every environment, how a quoted setting reads
 back, and which lines the parser takes for matchers.
 */
module AlertVerbatim {
  import opened Wrappers
  import opened Text
  import opened AlertText
  import opened AlertRouting
  import opened AlertLayout
  import opened AlertRenderer

  // ---------------------------------------------------------------- quoted settings

  /** The inside of a single-quoted scalar up to its closing quote, as section 7.3.2 of YAML 1.2 has it: a pair of quotes is one quote. */
  function Unquoted(s: string): Option<string> {
    if s == "" then None
    else if s[0] != '\'' then
      match Unquoted(s[1..]) case Some(rest) => Some([s[0]] + rest) case None => None
    else if |s| == 1 then Some("")
    else if s[1] != '\'' then None
    else match Unquoted(s[2..]) case Some(rest) => Some("'" + rest) case None => None
  }

  function ReadScalar(s: string): Option<string> {
    if s != "" && s[0] == '\'' then Unquoted(s[1..]) else None
  }

  lemma {:induction false} DoubledReads(s: string)
    ensures Unquoted(DoubleQuotes(s) + "'") == Some(s)
  {
    if s != "" {
      DoubledReads(s[1..]);
      var rest := DoubleQuotes(s[1..]) + "'";
      assert s == [s[0]] + s[1..];
      if s[0] == '\'' {
        assert DoubleQuotes(s) + "'" == "''" + rest;
        assert ("''" + rest)[2..] == rest;
      } else {
        assert DoubleQuotes(s) + "'" == [s[0]] + rest;
      }
    }
  }

  /** A quoted setting reads back as the setting. */
  lemma YamlRoundTrip(s: string)
    ensures ReadScalar(Yaml(s)) == Some(s)
  {
    hide Unquoted, DoubleQuotes;
    DoubledReads(s);
    assert Yaml(s)[1..] == DoubleQuotes(s) + "'";
  }

  // ---------------------------------------------------------------- the rendered lines

  function Mail(prefix: string, setting: Option<string>): seq<string> {
    match setting case Some(v) => [prefix + Yaml(v)] case None => []
  }

  function WebhookText(url: Option<string>): seq<string> {
    match url
    case Some(u) => ["    " + "webhook_configs:", "      - send_resolved: true", "        url: " + Yaml(u)]
    case None => []
  }

  function SlackText(url: Option<string>, channel: Option<string>, title: string): seq<string> {
    if url.None? || channel.None? then []
    else
      ["    " + "slack_configs:", "      - send_resolved: true", "        api_url: " + Yaml(url.value),
       "        channel: " + Yaml(channel.value), "        title: " + Yaml(title),
       "        text: " + Yaml("{{ .CommonAnnotations.summary }}")]
  }

  function PagerDutyText(key: Option<string>): seq<string> {
    match key
    case Some(k) =>
      ["    " + "pagerduty_configs:", "      - send_resolved: true", "        routing_key: " + Yaml(k),
       "        severity: " + Yaml("critical"), "        description: " + Yaml("{{ .CommonAnnotations.summary }}")]
    case None => []
  }

  function EmailText(e: Env, subject: string): seq<string> {
    if e.emailTo.None? || e.smarthost.None? then []
    else
      ["    " + "email_configs:", "      - send_resolved: true", "        to: " + Yaml(e.emailTo.value)]
      + Mail("        from: ", e.emailFrom) + ["        headers:", "          Subject: " + Yaml(subject)]
  }

  function Opening(e: Env): seq<string> {
    ["global:", "  resolve_timeout: 5m"]
    + Mail("  smtp_smarthost: ", e.smarthost) + Mail("  smtp_from: ", e.emailFrom)
    + Mail("  smtp_auth_username: ", e.smtpAuthUsername) + Mail("  smtp_auth_password: ", e.smtpAuthPassword)
  }

  const ROUTE_HEAD: seq<string> := [
    "",
    "route:",
    "  receiver: default",
    "  group_by: [alertname, severity]",
    "  group_wait: 30s",
    "  group_interval: 5m",
    "  repeat_interval: 4h",
    "  routes:"]

  const FIVE_ROUTES: seq<string> := [
    "    - matchers:",
    "        - alertname=\"Watchdog\"",
    "      receiver: watchdog",
    "      repeat_interval: 1m",
    "    - matchers:",
    "        - team=\"security\"",
    "      receiver: security",
    "      continue: true",
    "    - matchers:",
    "        - team=\"billing\"",
    "      receiver: billing",
    "      continue: true",
    "    - matchers:",
    "        - severity=\"critical\"",
    "      receiver: critical",
    "    - matchers:",
    "        - severity=\"warning\"",
    "      receiver: warning"]

  const INHIBITED: seq<string> := [
    "",
    "inhibit_rules:",
    "  - source_matchers:",
    "      - severity=\"critical\"",
    "    target_matchers:",
    "      - severity=\"warning\"",
    "    equal: [alertname]",
    "",
    "receivers:"]

  function DefaultText(e: Env): seq<string> {
    WebhookText(e.defaultWebhook)
    + SlackText(e.defaultSlackWebhook, e.defaultSlackChannel, "[attestor][" + "default" + "] {{ .CommonLabels.alertname }}")
  }

  function CriticalText(e: Env): seq<string> {
    WebhookText(e.criticalWebhook) + PagerDutyText(e.criticalPagerDutyKey)
    + EmailText(e, "[attestor][" + "critical" + "] {{ .CommonLabels.alertname }}")
  }

  function WarningText(e: Env): seq<string> {
    WebhookText(e.warningWebhook)
    + SlackText(e.warningSlackWebhook, e.warningSlackChannel, "[attestor][" + "warning" + "] {{ .CommonLabels.alertname }}")
    + EmailText(e, "[attestor][" + "warning" + "] {{ .CommonLabels.alertname }}")
  }

  function ReceiversText(e: Env): seq<string> {
    ["  - name: default"] + DefaultText(e)
    + ["  - name: watchdog"]
    + ["  - name: critical"] + CriticalText(e)
    + ["  - name: warning"] + WarningText(e)
    + ["  - name: security"] + WebhookText(e.securityWebhook)
    + ["  - name: billing"] + WebhookText(e.billingWebhook)
  }

  /** Every line the renderer writes, in order. */
  function Verbatim(e: Env): seq<string> {
    Opening(e) + ROUTE_HEAD + FIVE_ROUTES + INHIBITED + ReceiversText(e)
  }

  lemma WebhookVerbatim(url: Option<string>)
    ensures WebhookBody(url) == WebhookText(url)
  {
    hide Yaml;
  }

  lemma SlackVerbatim(url: Option<string>, channel: Option<string>, title: string)
    ensures SlackBody(url, channel, title) == SlackText(url, channel, title)
  {
    hide Yaml;
  }

  lemma PagerDutyVerbatim(key: Option<string>)
    ensures PagerDutyBody(key) == PagerDutyText(key)
  {
    hide Yaml;
  }

  lemma EmailVerbatim(e: Env, subject: string)
    ensures EmailBody(e, subject) == EmailText(e, subject)
  {
    hide Yaml;
  }

  lemma BodiesVerbatim(e: Env)
    ensures DefaultBody(e) == DefaultText(e) && CriticalBody(e) == CriticalText(e) && WarningBody(e) == WarningText(e)
  {
    hide WebhookBody, WebhookText, SlackBody, SlackText, PagerDutyBody, PagerDutyText, EmailBody, EmailText;
    WebhookVerbatim(e.defaultWebhook);
    WebhookVerbatim(e.criticalWebhook);
    WebhookVerbatim(e.warningWebhook);
    SlackVerbatim(e.defaultSlackWebhook, e.defaultSlackChannel, TitleOf("default"));
    SlackVerbatim(e.warningSlackWebhook, e.warningSlackChannel, TitleOf("warning"));
    PagerDutyVerbatim(e.criticalPagerDutyKey);
    EmailVerbatim(e, TitleOf("critical"));
    EmailVerbatim(e, TitleOf("warning"));
  }

  lemma OpeningVerbatim(e: Env)
    ensures Preamble(e) == Opening(e) + [""]
  {
    hide Yaml;
  }

  lemma RouteVerbatim(name: string, value: string, receiver: string, continues: bool, extra: seq<string>, rest: seq<RouteBlock>)
    ensures
      var block := RouteBlock(Route([Matcher(name, value)], receiver, continues), extra);
      RouteLines([block] + rest) ==
        ["    - matchers:", "        - " + name + "=\"" + value + "\"", "      receiver: " + receiver]
        + (if continues then ["      continue: " + "true"] else []) + extra + RouteLines(rest)
  {
    var m := Matcher(name, value);
    var blocks := [RouteBlock(Route([m], receiver, continues), extra)] + rest;
    assert [m][1..] == [] && blocks[1..] == rest;
    assert MatcherLines([m]) == [MatcherLine(m)];
  }

  lemma MatchersVerbatim()
    ensures "        - " + "alertname" + "=\"" + "Watchdog" + "\"" == "        - alertname=\"Watchdog\""
    ensures "        - " + "team" + "=\"" + "security" + "\"" == "        - team=\"security\""
    ensures "        - " + "team" + "=\"" + "billing" + "\"" == "        - team=\"billing\""
  {
  }

  lemma SeveritiesVerbatim()
    ensures "        - " + "severity" + "=\"" + "critical" + "\"" == "        - severity=\"critical\""
    ensures "        - " + "severity" + "=\"" + "warning" + "\"" == "        - severity=\"warning\""
  {
  }

  lemma ReceiversVerbatim()
    ensures "      receiver: " + "watchdog" == "      receiver: watchdog" && "      receiver: " + "security" == "      receiver: security"
    ensures "      receiver: " + "billing" == "      receiver: billing" && "      receiver: " + "critical" == "      receiver: critical"
    ensures "      receiver: " + "warning" == "      receiver: warning" && "      continue: " + "true" == "      continue: true"
    ensures "  receiver: " + "default" == "  receiver: default"
  {
  }

  lemma NamesVerbatim()
    ensures "  - name: " + "default" == "  - name: default" && "  - name: " + "watchdog" == "  - name: watchdog"
    ensures "  - name: " + "critical" == "  - name: critical" && "  - name: " + "warning" == "  - name: warning"
    ensures "  - name: " + "security" == "  - name: security" && "  - name: " + "billing" == "  - name: billing"
  {
  }

  lemma SeverityRoutesVerbatim()
    ensures RouteLines(ROUTE_BLOCKS[3..]) == FIVE_ROUTES[12..]
  {
    hide RouteLines;
    SeveritiesVerbatim();
    ReceiversVerbatim();
    var b := ROUTE_BLOCKS;
    RouteVerbatim("severity", "warning", "warning", false, [], []);
    RouteVerbatim("severity", "critical", "critical", false, [], b[4..]);
    NoRouteLines();
    assert b[3..] == [b[3]] + b[4..] && b[4..] == [b[4]] + [];
  }

  lemma RoutesVerbatim()
    ensures RouteLines(ROUTE_BLOCKS) == FIVE_ROUTES
  {
    hide RouteLines;
    MatchersVerbatim();
    ReceiversVerbatim();
    SeverityRoutesVerbatim();
    var b := ROUTE_BLOCKS;
    RouteVerbatim("team", "billing", "billing", true, [], b[3..]);
    RouteVerbatim("team", "security", "security", true, [], b[2..]);
    RouteVerbatim("alertname", "Watchdog", "watchdog", false, ["      repeat_interval: 1m"], b[1..]);
    assert b == [b[0]] + b[1..] && b[1..] == [b[1]] + b[2..] && b[2..] == [b[2]] + b[3..];
  }

  lemma NoRouteLines()
    ensures RouteLines([]) == []
  {
  }

  lemma ReceiverVerbatim(name: string, body: seq<string>, rest: seq<ReceiverBlock>)
    ensures ReceiverLines([ReceiverBlock(name, body)] + rest) == ["  - name: " + name] + body + ReceiverLines(rest)
  {
    assert ([ReceiverBlock(name, body)] + rest)[1..] == rest;
  }

  lemma ReceiverBlocksVerbatim(e: Env)
    ensures ReceiverLines(ReceiverBlocks(e)) == ReceiversText(e)
  {
    hide ReceiverLines, DefaultBody, DefaultText, CriticalBody, CriticalText, WarningBody, WarningText, WebhookBody, WebhookText;
    NamesVerbatim();
    BodiesVerbatim(e);
    WebhookVerbatim(e.securityWebhook);
    WebhookVerbatim(e.billingWebhook);
    var b := ReceiverBlocks(e);
    ReceiverVerbatim("billing", WebhookBody(e.billingWebhook), []);
    ReceiverVerbatim("security", WebhookBody(e.securityWebhook), b[5..]);
    ReceiverVerbatim("warning", WarningBody(e), b[4..]);
    ReceiverVerbatim("critical", CriticalBody(e), b[3..]);
    ReceiverVerbatim("watchdog", [], b[2..]);
    ReceiverVerbatim("default", DefaultBody(e), b[1..]);
    NoReceiverLines();
    assert b == [b[0]] + b[1..] && b[1..] == [b[1]] + b[2..] && b[2..] == [b[2]] + b[3..] && b[3..] == [b[3]] + b[4..]
      && b[4..] == [b[4]] + b[5..] && b[5..] == [b[5]] + [];
  }

  lemma NoReceiverLines()
    ensures ReceiverLines([]) == []
  {
  }

  lemma HeadVerbatim()
    ensures [""] + ([ROUTE] + ([ROOT_RECEIVER + "default"] + (OPTIONS + [ROUTES]))) == ROUTE_HEAD
    ensures BETWEEN + [RECEIVERS] == INHIBITED
  {
    ReceiversVerbatim();
  }

  lemma Regrouped(opening: seq<string>, blank: seq<string>, a: seq<string>, b: seq<string>, c: seq<string>, d: seq<string>,
                  routes: seq<string>, between: seq<string>, heading: seq<string>, receivers: seq<string>)
    ensures (opening + blank) + (a + (b + (c + (d + (routes + (between + (heading + receivers))))))) ==
            opening + (blank + (a + (b + (c + d)))) + routes + (between + heading) + receivers
  {
  }

  /** For every environment, what is rendered is this list of lines. */
  lemma RenderedVerbatim(e: Env)
    ensures RenderedLines(e) == Verbatim(e)
  {
    hide Preamble, Opening, RouteLines, ReceiverLines, ReceiverBlocks, ReceiversText, ROUTE_BLOCKS, FIVE_ROUTES, OPTIONS, BETWEEN, INHIBITED, ROUTE_HEAD, ROUTE, ROUTES, RECEIVERS, ROOT_RECEIVER;
    OpeningVerbatim(e);
    HeadVerbatim();
    RoutesVerbatim();
    ReceiverBlocksVerbatim(e);
    Regrouped(Opening(e), [""], [ROUTE], [ROOT_RECEIVER + "default"], OPTIONS, [ROUTES], RouteLines(ROUTE_BLOCKS), BETWEEN, [RECEIVERS],
              ReceiverLines(ReceiverBlocks(e)));
  }

  /** Nothing is rendered if and only if a pair is half set, mail lacks its host or its addressee, or a production target is missing. */
  lemma AcceptedMeans(e: Env)
    ensures BuildConfig(e).Ok? <==>
      && (e.defaultSlackWebhook.Some? <==> e.defaultSlackChannel.Some?)
      && (e.warningSlackWebhook.Some? <==> e.warningSlackChannel.Some?)
      && (e.smtpAuthUsername.Some? <==> e.smtpAuthPassword.Some?)
      && (e.emailTo.Some? ==> e.smarthost.Some?)
      && (e.emailFrom.Some? || e.smtpAuthUsername.Some? ==> e.smarthost.Some? && e.emailTo.Some?)
      && (e.productionMode && e.emailTo.None? ==>
            && (e.defaultWebhook.Some? || e.defaultSlackWebhook.Some?)
            && (e.criticalWebhook.Some? || e.criticalPagerDutyKey.Some?)
            && (e.warningWebhook.Some? || e.warningSlackWebhook.Some?))
    ensures BuildConfig(e).Ok? ==> BuildConfig(e).value == TextOf(Verbatim(e))
  {
    hide RenderedLines, Verbatim, TextOf;
    RenderedVerbatim(e);
  }

  // ---------------------------------------------------------------- the text

  /** Lines end in a line feed each. */
  lemma TextExample()
    ensures TextOf(["a", "b"]) == "a\nb\n"
  {
    assert ["a", "b"][1..] == ["b"] && ["b"][1..] == [];
    assert TextOf([]) == "" && TextOf(["b"]) == "b\n";
  }

  /** Reading drops one carriage return before a line feed, and there is always a last line. */
  lemma SplitExample()
    ensures Split("a\r\r\nb\n") == ["a\r", "b", ""]
  {
    hide NewlineAt;
    var text := "a\r\r\nb\n";
    FirstNewline(text, 3);
    assert text[..3] == "a\r\r" && text[4..] == "b\n";
    assert DropReturn("a\r\r") == "a\r" by { assert "a\r\r"[..2] == "a\r"; }
    SplitLast();
  }

  lemma SplitLast()
    ensures Split("b\n") == ["b", ""]
  {
    hide NewlineAt;
    FirstNewline("b\n", 1);
    assert "b\n"[..1] == "b" && "b\n"[2..] == "";
    SplitEmpty();
  }

  // ---------------------------------------------------------------- matcher lines

  /** The pattern of a matcher line, with the white space before and after the dash. */
  ghost predicate MatcherShape(line: string, m: Matcher, before: string, after: string) {
    && line == before + ("-" + (after + (m.name + ("=\"" + (m.value + "\"")))))
    && AllSpace(before) && after != "" && AllSpace(after)
    && m.name != "" && (forall i :: 0 <= i < |m.name| ==> InWord(m.name[i])) && '"' !in m.value
  }

  const OTHER := "0123456789_"

  predicate InWord(c: char) {
    c in UPPER || c in LOWER || c in OTHER
  }

  lemma OtherMeans(c: char)
    ensures '0' <= c <= '9' || c == '_' <==> c in OTHER
  {
    assert |OTHER| == 11 && forall k :: 0 <= k < 10 ==> OTHER[k] as int == 48 + k;
    assert OTHER[10] == '_';
    if '0' <= c <= '9' { assert OTHER[c as int - 48] == c; }
  }

  lemma WordMeans(c: char)
    ensures IsWord(c) <==> InWord(c)
  {
    hide UPPER, LOWER, OTHER;
    UpperRange(c);
    LowerRange(c);
    OtherMeans(c);
  }

  lemma {:induction false} TrimStartIs(before: string, rest: string)
    requires AllSpace(before) && (rest == "" || !IsSpace(rest[0]))
    ensures TrimStart(before + rest) == rest
  {
    hide IsSpace;
    if before == "" {
      assert before + rest == rest;
    } else {
      assert (before + rest)[1..] == before[1..] + rest;
      TrimStartIs(before[1..], rest);
    }
  }

  lemma WordRunIs(name: string, rest: string)
    requires (forall i :: 0 <= i < |name| ==> IsWord(name[i])) && rest != "" && !IsWord(rest[0])
    ensures WordRun(name + rest) == |name|
  {
    hide WordRun, IsWord;
    var n := WordRun(name + rest);
    assert (name + rest)[|name|] == rest[0];
  }

  /** A line is a matcher exactly when it has the shape of one, and then for that name and value. */
  lemma MatcherMeans(line: string, m: Matcher)
    ensures ParseMatcher(line) == Some(m) <==> exists before, after :: MatcherShape(line, m, before, after)
  {
    if ParseMatcher(line) == Some(m) {
      ParsedShape(line, m);
    }
    if before, after :| MatcherShape(line, m, before, after) {
      ShapeParses(line, m, before, after);
    }
  }

  lemma ParsedShape(line: string, m: Matcher)
    requires ParseMatcher(line) == Some(m)
    ensures exists before, after :: MatcherShape(line, m, before, after)
  {
    hide IsSpace, IsWord, TrimStart, WordRun, InWord;
    var before := TrimStartMeans(line);
    var s := TrimStart(line);
    var t := TrimStart(s[1..]);
    var after := TrimStartMeans(s[1..]);
    var n := WordRun(t);
    var rest := t[n..];
    forall i | 0 <= i < n ensures InWord(m.name[i]) { WordMeans(t[i]); }
    assert t == m.name + rest && rest == "=\"" + (m.value + "\"");
    assert s == "-" + s[1..];
    assert MatcherShape(line, m, before, after);
  }

  lemma ShapeParses(line: string, m: Matcher, before: string, after: string)
    requires MatcherShape(line, m, before, after)
    ensures ParseMatcher(line) == Some(m)
  {
    hide IsSpace, IsWord, TrimStart, WordRun, InWord;
    var rest := "=\"" + (m.value + "\"");
    var t := m.name + rest;
    var s := "-" + (after + t);
    forall i | 0 <= i < |m.name| ensures IsWord(m.name[i]) && !IsSpace(m.name[i]) { WordMeans(m.name[i]); WordNotSpace(m.name[i]); }
    WordNotSpace('-');
    TrimStartIs(before, s);
    assert s[1..] == after + t && t[0] == m.name[0] && s[1] == after[0];
    TrimStartIs(after, t);
    WordRunIs(m.name, rest);
    assert t[..|m.name|] == m.name && t[|m.name|..] == rest && rest[2..|rest| - 1] == m.value;
  }

  lemma WordNotSpace(c: char)
    ensures IsWord(c) || c == '-' ==> !IsSpace(c)
    ensures !IsWord('=')
  {
  }
}
