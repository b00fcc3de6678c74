/**
 The Alertmanager renderer, the scenarios of the routing probe, and what the lines of each setting say to the parser
 once they are split.
 */
module AlertRenderer {
  import opened Wrappers
  import opened Text
  import opened AlertLayout
  import opened AlertRouting
  import opened AlertText

  // ---------------------------------------------------------------- the renderer

  /** The settings the renderer reads, each trimmed and not empty when present. */
  datatype Env = Env(
    defaultWebhook: Option<string>, defaultSlackWebhook: Option<string>, defaultSlackChannel: Option<string>,
    criticalWebhook: Option<string>, criticalPagerDutyKey: Option<string>,
    warningWebhook: Option<string>, warningSlackWebhook: Option<string>, warningSlackChannel: Option<string>,
    securityWebhook: Option<string>, billingWebhook: Option<string>,
    emailTo: Option<string>, emailFrom: Option<string>, smarthost: Option<string>,
    smtpAuthUsername: Option<string>, smtpAuthPassword: Option<string>,
    productionMode: bool)

  datatype RenderError = UnpairedSetting | SmarthostRequired | EmailToRequired | DeliveryTargetRequired

  /** The checks made before anything is rendered, in order. */
  function Refusal(e: Env): Option<RenderError> {
    if e.defaultSlackWebhook.Some? != e.defaultSlackChannel.Some?
       || e.warningSlackWebhook.Some? != e.warningSlackChannel.Some?
       || e.smtpAuthUsername.Some? != e.smtpAuthPassword.Some? then Some(UnpairedSetting)
    else if (e.emailTo.Some? || e.emailFrom.Some? || e.smtpAuthUsername.Some? || e.smtpAuthPassword.Some?) && e.smarthost.None? then
      Some(SmarthostRequired)
    else if (e.emailFrom.Some? || e.smtpAuthUsername.Some? || e.smtpAuthPassword.Some?) && e.emailTo.None? then
      Some(EmailToRequired)
    else if e.productionMode
         && ((e.defaultWebhook.None? && e.defaultSlackWebhook.None? && e.emailTo.None?)
             || (e.criticalWebhook.None? && e.criticalPagerDutyKey.None? && e.emailTo.None?)
             || (e.warningWebhook.None? && e.warningSlackWebhook.None? && e.emailTo.None?)) then
      Some(DeliveryTargetRequired)
    else None
  }

  function DoubleQuotes(s: string): string {
    if s == [] then "" else (if s[0] == '\'' then "''" else [s[0]]) + DoubleQuotes(s[1..])
  }

  function Yaml(s: string): string {
    "'" + DoubleQuotes(s) + "'"
  }

  datatype Key =
    | SmtpSmarthost | SmtpFrom | SmtpAuthUsername | SmtpAuthPassword
    | Url | ApiUrl | Channel | Title | Text | RoutingKey | Severity | Description | To | From | Subject

  function KeyText(k: Key): string {
    match k
    case SmtpSmarthost => "  smtp_smarthost: "
    case SmtpFrom => "  smtp_from: "
    case SmtpAuthUsername => "  smtp_auth_username: "
    case SmtpAuthPassword => "  smtp_auth_password: "
    case Url => "        url: "
    case ApiUrl => "        api_url: "
    case Channel => "        channel: "
    case Title => "        title: "
    case Text => "        text: "
    case RoutingKey => "        routing_key: "
    case Severity => "        severity: "
    case Description => "        description: "
    case To => "        to: "
    case From => "        from: "
    case Subject => "          Subject: "
  }

  function Entry(k: Key, value: string): string {
    KeyText(k) + Yaml(value)
  }

  function Setting(k: Key, value: Option<string>): seq<string> {
    match value case Some(v) => [Entry(k, v)] case None => []
  }

  function KindWord(kind: Kind): string {
    match kind
    case Webhook => "webhook_configs:"
    case Slack => "slack_configs:"
    case PagerDuty => "pagerduty_configs:"
    case Email => "email_configs:"
  }

  function KindText(kind: Kind): string {
    "    " + KindWord(kind)
  }

  const SEND_RESOLVED := "      - send_resolved: true"
  const HEADERS := "        headers:"
  const SUMMARY := "{{ .CommonAnnotations.summary }}"

  function WebhookBody(url: Option<string>): seq<string> {
    match url
    case Some(u) => [KindText(Webhook)] + [SEND_RESOLVED, Entry(Url, u)]
    case None => []
  }

  function SlackBody(url: Option<string>, channel: Option<string>, title: string): seq<string> {
    if url.Some? && channel.Some? then
      [KindText(Slack)] + [SEND_RESOLVED, Entry(ApiUrl, url.value), Entry(Channel, channel.value), Entry(Title, title), Entry(Text, SUMMARY)]
    else []
  }

  function PagerDutyBody(key: Option<string>): seq<string> {
    match key
    case Some(k) =>
      [KindText(PagerDuty)] + [SEND_RESOLVED, Entry(RoutingKey, k), Entry(Severity, "critical"), Entry(Description, SUMMARY)]
    case None => []
  }

  function EmailBody(e: Env, subject: string): seq<string> {
    if e.emailTo.Some? && e.smarthost.Some? then
      [KindText(Email)]
      + ([SEND_RESOLVED, Entry(To, e.emailTo.value)] + Setting(From, e.emailFrom) + [HEADERS, Entry(Subject, subject)])
    else []
  }

  function TitleOf(level: string): string {
    "[attestor][" + level + "] {{ .CommonLabels.alertname }}"
  }

  const OPTIONS := ["  group_by: [alertname, severity]", "  group_wait: 30s", "  group_interval: 5m", "  repeat_interval: 4h"]

  const BETWEEN := ["", "inhibit_rules:", "  - source_matchers:", "      - severity=\"critical\"",
                    "    target_matchers:", "      - severity=\"warning\"", "    equal: [alertname]", ""]

  const ROUTE_BLOCKS := [
    RouteBlock(Route([Matcher("alertname", "Watchdog")], "watchdog", false), ["      repeat_interval: 1m"]),
    RouteBlock(Route([Matcher("team", "security")], "security", true), []),
    RouteBlock(Route([Matcher("team", "billing")], "billing", true), []),
    RouteBlock(Route([Matcher("severity", "critical")], "critical", false), []),
    RouteBlock(Route([Matcher("severity", "warning")], "warning", false), [])]

  function Preamble(e: Env): seq<string> {
    ["global:", "  resolve_timeout: 5m"]
    + Setting(SmtpSmarthost, e.smarthost)
    + Setting(SmtpFrom, e.emailFrom)
    + Setting(SmtpAuthUsername, e.smtpAuthUsername)
    + Setting(SmtpAuthPassword, e.smtpAuthPassword)
    + [""]
  }

  function DefaultBody(e: Env): seq<string> {
    WebhookBody(e.defaultWebhook) + SlackBody(e.defaultSlackWebhook, e.defaultSlackChannel, TitleOf("default"))
  }

  function CriticalBody(e: Env): seq<string> {
    WebhookBody(e.criticalWebhook) + PagerDutyBody(e.criticalPagerDutyKey) + EmailBody(e, TitleOf("critical"))
  }

  function WarningBody(e: Env): seq<string> {
    WebhookBody(e.warningWebhook) + SlackBody(e.warningSlackWebhook, e.warningSlackChannel, TitleOf("warning"))
    + EmailBody(e, TitleOf("warning"))
  }

  function ReceiverBlocks(e: Env): seq<ReceiverBlock> {
    [ReceiverBlock("default", DefaultBody(e)), ReceiverBlock("watchdog", []),
     ReceiverBlock("critical", CriticalBody(e)), ReceiverBlock("warning", WarningBody(e)),
     ReceiverBlock("security", WebhookBody(e.securityWebhook)),
     ReceiverBlock("billing", WebhookBody(e.billingWebhook))]
  }

  /** The lines that `buildConfig` pushes, in order. */
  function RenderedLines(e: Env): seq<string> {
    Lines(Layout(Preamble(e), "default", OPTIONS, ROUTE_BLOCKS, BETWEEN, ReceiverBlocks(e)))
  }

  function BuildConfig(e: Env): Result<string, RenderError> {
    match Refusal(e) case Some(r) => Err(r) case None => Ok(TextOf(RenderedLines(e)))
  }

  // ---------------------------------------------------------------- the probe

  datatype Scenario = Scenario(labels: Labels, expected: seq<string>, requiresDelivery: bool)

  const SCENARIOS := [
    Scenario(map["alertname" := "Watchdog", "severity" := "warning"], ["watchdog"], false),
    Scenario(map["alertname" := "AttestorApiDown", "severity" := "critical"], ["critical"], true),
    Scenario(map["alertname" := "AttestorHttp5xxBurst", "severity" := "warning"], ["warning"], true),
    Scenario(map["alertname" := "AttestorInfo", "severity" := "info"], ["default"], true),
    Scenario(map["alertname" := "SecurityBoundary", "severity" := "critical", "team" := "security"], ["security", "critical"], false),
    Scenario(map["alertname" := "BillingLag", "severity" := "warning", "team" := "billing"], ["billing", "warning"], false),
    Scenario(map["alertname" := "SecurityAudit", "severity" := "info", "team" := "security"], ["security"], false)]

  /** `receiverMap.get(name)`: of several receivers with one name, the last. */
  function Lookup(receivers: seq<Receiver>, name: string): Option<Receiver> {
    if receivers == [] then None
    else if receivers[|receivers| - 1].name == name then Some(receivers[|receivers| - 1])
    else Lookup(receivers[..|receivers| - 1], name)
  }

  predicate HasDelivery(c: Config, name: string) {
    name == "watchdog" || (Lookup(c.receivers, name).Some? && Lookup(c.receivers, name).value.deliveryKinds != [])
  }

  function TargetsOf(c: Config, s: Scenario): seq<string> {
    Targets(c.rootReceiver, c.routes, s.labels)
  }

  predicate RoutingValid(c: Config) {
    forall i :: 0 <= i < |SCENARIOS| ==> TargetsOf(c, SCENARIOS[i]) == SCENARIOS[i].expected
  }

  predicate DeliveryCoverageValid(c: Config) {
    forall i :: 0 <= i < |SCENARIOS| ==>
      SCENARIOS[i].requiresDelivery ==> forall name :: name in TargetsOf(c, SCENARIOS[i]) ==> HasDelivery(c, name)
  }

  // ---------------------------------------------------------------- what a line break in a setting can do

  /** A line of a receiver body that opens no receiver and adds no kind of delivery. */
  predicate Inert(line: string) {
    !StartsWith(line, NAME) && KindOf(line).None?
  }

  predicate AllInert(lines: seq<string>) {
    forall i :: 0 <= i < |lines| ==> Inert(lines[i])
  }

  /** Every line that a setting of a receiver body turns into is inert. */
  predicate Calm(k: Key, value: Option<string>) {
    value.Some? ==> AllInert(Pieces(Entry(k, value.value)))
  }

  predicate SlackCalm(url: Option<string>, channel: Option<string>) {
    url.Some? && channel.Some? ==> Calm(ApiUrl, url) && Calm(Channel, channel)
  }

  predicate EmailCalm(e: Env) {
    e.emailTo.Some? && e.smarthost.Some? ==> Calm(To, e.emailTo) && Calm(From, e.emailFrom)
  }

  predicate CalmBodies(e: Env) {
    && Calm(Url, e.defaultWebhook) && SlackCalm(e.defaultSlackWebhook, e.defaultSlackChannel)
    && Calm(Url, e.criticalWebhook) && Calm(RoutingKey, e.criticalPagerDutyKey)
    && Calm(Url, e.warningWebhook) && SlackCalm(e.warningSlackWebhook, e.warningSlackChannel)
    && EmailCalm(e)
    && Calm(Url, e.securityWebhook) && Calm(Url, e.billingWebhook)
  }

  predicate Avoids(k: Key, value: Option<string>, line: string) {
    value.Some? ==> line !in Pieces(Entry(k, value.value))
  }

  /** No mail setting turns into a line that is exactly this one. */
  predicate NoStray(e: Env, line: string) {
    && Avoids(SmtpSmarthost, e.smarthost, line) && Avoids(SmtpFrom, e.emailFrom, line)
    && Avoids(SmtpAuthUsername, e.smtpAuthUsername, line) && Avoids(SmtpAuthPassword, e.smtpAuthPassword, line)
  }

  lemma {:induction false} YamlOneLine(s: string)
    requires '\n' !in s
    ensures '\n' !in DoubleQuotes(s)
  {
    if s != [] {
      assert s[0] in s && forall c :: c in s[1..] ==> c in s;
      YamlOneLine(s[1..]);
    }
  }

  lemma {:induction false} TrimEndKeepsStart(s: string)
    requires s != [] && !IsSpace(s[0])
    ensures TrimEnd(s) != [] && TrimEnd(s) <= s
  {
    if IsSpace(s[|s| - 1]) { TrimEndKeepsStart(s[..|s| - 1]); }
  }

  /** Indented text whose first letters start none of the delivery keywords. */
  lemma InertIndented(line: string, k: nat)
    requires 4 <= k && k + 1 < |line| && (forall i :: 0 <= i < k ==> line[i] == ' ') && !IsSpace(line[k])
    requires line[k] !in ['w', 's', 'p', 'e'] || (line[k] == 's' && line[k + 1] == 'e')
    ensures !StartsWith(line, NAME) && KindOf(line).None?
  {
    hide IsSpace, TrimStart, TrimEnd;
    assert IsSpace(' ') by { SpaceFacts(); }
    TrimStartIndent(line, k);
    TrimEndKeepsStart(line[k..]);
    var t := Trim(line);
    assert t[0] == line[k] && (|t| > 1 ==> t[1] == line[k + 1]);
    assert line[2] == ' ' && NAME[2] == '-';
    assert "webhook_configs:"[0] == 'w' && "slack_configs:"[0] == 's' && "slack_configs:"[1] == 'l'
      && "pagerduty_configs:"[0] == 'p' && "email_configs:"[0] == 'e';
  }

  predicate InBody(k: Key) {
    !k.SmtpSmarthost? && !k.SmtpFrom? && !k.SmtpAuthUsername? && !k.SmtpAuthPassword?
  }

  lemma KeyTextIndent(k: Key)
    requires InBody(k)
    ensures var key, i := KeyText(k), if k.Subject? then 10 else 8;
      && i + 1 < |key| && (forall j :: 0 <= j < i ==> key[j] == ' ') && !IsSpace(key[i])
      && (key[i] !in ['w', 's', 'p', 'e'] || (key[i] == 's' && key[i + 1] == 'e'))
  {
    match k case _ =>
  }

  predicate Clean(s: string) {
    s != "" && '\n' !in s && s[0] == ' '
  }

  lemma SmtpKeysClean(k: Key)
    requires !InBody(k)
    ensures Clean(KeyText(k))
  {
    match k case _ =>
  }

  lemma ShortKeysClean(k: Key)
    requires k.Url? || k.ApiUrl? || k.Channel? || k.Title? || k.Text? || k.To? || k.From?
    ensures Clean(KeyText(k))
  {
    match k case _ =>
  }

  lemma LongKeysClean(k: Key)
    requires k.RoutingKey? || k.Severity? || k.Description? || k.Subject?
    ensures Clean(KeyText(k))
  {
    match k case _ =>
  }

  lemma KeyTextClean(k: Key)
    ensures Clean(KeyText(k))
  {
    hide KeyText, Clean;
    if !InBody(k) {
      SmtpKeysClean(k);
    } else if k.RoutingKey? || k.Severity? || k.Description? || k.Subject? {
      LongKeysClean(k);
    } else {
      ShortKeysClean(k);
    }
  }

  lemma EntryOneLine(k: Key, v: string)
    requires '\n' !in v
    ensures OneLine(Entry(k, v)) && Entry(k, v)[0] == ' '
  {
    hide KeyText, DoubleQuotes;
    KeyTextClean(k);
    YamlOneLine(v);
  }

  lemma EntryInert(k: Key, v: string)
    requires InBody(k) && '\n' !in v
    ensures OneLine(Entry(k, v)) && Inert(Entry(k, v))
  {
    hide KeyText, Yaml, KindOf, StartsWith, IsSpace, OneLine;
    EntryOneLine(k, v);
    KeyTextIndent(k);
    InertIndented(Entry(k, v), if k.Subject? then 10 else 8);
  }

  lemma KindWordShape(kind: Kind)
    ensures var word := KindWord(kind);
      |word| > 1 && 'a' <= word[0] <= 'z' && word[|word| - 1] == ':' && '\n' !in word
  {
    match kind case _ =>
  }

  lemma WordsDiffer()
    ensures "webhook_configs:" != "slack_configs:" && "webhook_configs:" != "pagerduty_configs:" && "webhook_configs:" != "email_configs:"
    ensures "slack_configs:" != "pagerduty_configs:" && "slack_configs:" != "email_configs:" && "pagerduty_configs:" != "email_configs:"
  {
    assert "webhook_configs:"[0] == 'w' && "slack_configs:"[0] == 's' && "pagerduty_configs:"[0] == 'p' && "email_configs:"[0] == 'e';
  }

  /** The keyword line that opens a delivery section. */
  lemma KindLine(kind: Kind)
    ensures OneLine(KindText(kind)) && !StartsWith(KindText(kind), NAME) && KindOf(KindText(kind)) == Some(kind)
  {
    hide TrimStart, IsSpace, KindWord, TrimEnd;
    SpaceFacts();
    KindWordShape(kind);
    var line, word := KindText(kind), KindWord(kind);
    LetterNotSpace(word[0]);
    LetterNotSpace(':');
    assert line[4] == word[0];
    TrimStartIndent(line, 4);
    assert line[4..] == word;
    NothingToTrim(word);
    WordKind(kind);
    assert line[2] == ' ' && NAME[2] == '-';
  }

  lemma WordKind(kind: Kind)
    ensures Trim(KindText(kind)) == KindWord(kind) ==> KindOf(KindText(kind)) == Some(kind)
  {
    hide Trim;
    WordsDiffer();
  }

  lemma NothingToTrim(s: string)
    requires s != "" && !IsSpace(s[|s| - 1])
    ensures TrimEnd(s) == s
  {
  }

  lemma ResolvedLine()
    ensures OneLine(SEND_RESOLVED) && Inert(SEND_RESOLVED)
  {
    hide KindOf, StartsWith, IsSpace;
    SpaceFacts();
    InertIndented(SEND_RESOLVED, 6);
  }

  lemma HeadersLine()
    ensures OneLine(HEADERS) && Inert(HEADERS)
  {
    hide KindOf, StartsWith, IsSpace;
    LetterNotSpace('h');
    InertIndented(HEADERS, 8);
  }

  lemma LetterNotSpace(c: char)
    requires 'A' <= c <= 'z' || c == ':'
    ensures !IsSpace(c)
  {
  }

  lemma EmptyLine()
    ensures OneLine("") && Inert("")
  {
  }

  lemma SummaryOneLine()
    ensures '\n' !in SUMMARY
  {
  }

  lemma TitleOneLine(level: string)
    requires '\n' !in level
    ensures '\n' !in TitleOf(level)
  {
    assert '\n' !in "[attestor][";
    assert '\n' !in "] {{ .CommonLabels.alertname }}";
  }

  // ---------------------------------------------------------------- what a body adds

  /** How many receivers these lines open. */
  function NameCount(lines: seq<string>): nat {
    if lines == [] then 0 else (if StartsWith(lines[0], NAME) then 1 else 0) + NameCount(lines[1..])
  }

  lemma {:induction false} NameCountConcat(a: seq<string>, b: seq<string>)
    ensures NameCount(a + b) == NameCount(a) + NameCount(b)
  {
    hide StartsWith;
    if a == [] {
      assert a + b == b;
    } else {
      NameCountConcat(a[1..], b);
      assert (a + b)[1..] == a[1..] + b;
    }
  }

  lemma {:induction false} NoNames(lines: seq<string>)
    ensures NameCount(lines) == 0 <==> forall i :: 0 <= i < |lines| ==> !StartsWith(lines[i], NAME)
  {
    hide StartsWith;
    if lines != [] {
      NoNames(lines[1..]);
      assert forall i :: 1 <= i < |lines| ==> lines[i] == lines[1..][i - 1];
    }
  }

  lemma {:induction false} NoKinds(lines: seq<string>)
    ensures KindsOf(lines) == [] <==> forall i :: 0 <= i < |lines| ==> KindOf(lines[i]).None?
  {
    hide KindOf;
    if lines != [] {
      NoKinds(lines[..|lines| - 1]);
      assert forall i :: 0 <= i < |lines| - 1 ==> lines[i] == lines[..|lines| - 1][i];
    }
  }

  lemma {:induction false} KindsConcat(a: seq<string>, b: seq<string>)
    ensures KindsOf(a + b) == KindsOf(a) + KindsOf(b)
  {
    hide KindOf;
    if b == [] {
      assert a + b == a;
    } else {
      KindsConcat(a, b[..|b| - 1]);
      assert (a + b)[..|a + b| - 1] == a + b[..|b| - 1];
    }
  }

  /**
   The lines of a body, split, add at least these kinds; and they add exactly these and open no receiver
   if and only if the body is calm.
   */
  ghost predicate BodyOf(body: seq<string>, kinds: seq<Kind>, calm: bool) {
    && |KindsOf(Flat(body))| >= |kinds|
    && (calm <==> NameCount(Flat(body)) == 0 && |KindsOf(Flat(body))| == |kinds|)
    && (calm ==> KindsOf(Flat(body)) == kinds)
  }

  lemma BodyConcat(a: seq<string>, ka: seq<Kind>, ca: bool, b: seq<string>, kb: seq<Kind>, cb: bool)
    requires BodyOf(a, ka, ca) && BodyOf(b, kb, cb)
    ensures BodyOf(a + b, ka + kb, ca && cb)
  {
    hide KindsOf, Flat, NameCount;
    FlatConcat(a, b);
    KindsConcat(Flat(a), Flat(b));
    NameCountConcat(Flat(a), Flat(b));
  }

  lemma NoBody()
    ensures BodyOf([], [], true)
  {
  }

  lemma LineBody(line: string)
    ensures BodyOf([line], [], AllInert(Pieces(line)))
  {
    hide KindsOf, Flat, NameCount, Pieces, KindOf, StartsWith;
    FlatOne(line);
    NoNames(Pieces(line));
    NoKinds(Pieces(line));
  }

  lemma InertBody(line: string)
    requires OneLine(line) && Inert(line)
    ensures BodyOf([line], [], true)
  {
    hide BodyOf, Inert, OneLine;
    OnePiece(line);
    LineBody(line);
  }

  lemma KindBody(kind: Kind)
    ensures BodyOf([KindText(kind)], [kind], true)
  {
    hide KindText, KindOf, StartsWith, OneLine;
    KindLine(kind);
    var line := KindText(kind);
    FlatOne(line);
    OnePiece(line);
    NoNames([line]);
    KindsStep([], line);
    assert [] + [line] == [line];
  }

  lemma AddLine(body: seq<string>, kinds: seq<Kind>, calm: bool, line: string, lineCalm: bool)
    requires BodyOf(body, kinds, calm) && BodyOf([line], [], lineCalm)
    ensures BodyOf(body + [line], kinds, calm && lineCalm)
  {
    hide BodyOf;
    BodyConcat(body, kinds, calm, [line], [], lineCalm);
    assert kinds + [] == kinds;
  }

  /** The keyword line and the line after it, with which every delivery section opens. */
  lemma SectionHead(kind: Kind)
    ensures BodyOf([KindText(kind), SEND_RESOLVED], [kind], true)
  {
    hide BodyOf, Inert, KindText, OneLine;
    KindBody(kind);
    ResolvedLine();
    InertBody(SEND_RESOLVED);
    AddLine([KindText(kind)], [kind], true, SEND_RESOLVED, true);
    assert [KindText(kind)] + [SEND_RESOLVED] == [KindText(kind), SEND_RESOLVED];
  }

  lemma EntryBody(k: Key, v: string)
    ensures BodyOf([Entry(k, v)], [], Calm(k, Some(v)))
  {
    hide BodyOf, AllInert, Entry;
    LineBody(Entry(k, v));
  }

  lemma FixedEntry(k: Key, v: string)
    requires InBody(k) && '\n' !in v
    ensures BodyOf([Entry(k, v)], [], true)
  {
    hide BodyOf, Inert, Entry, OneLine;
    EntryInert(k, v);
    InertBody(Entry(k, v));
  }

  // ---------------------------------------------------------------- receiver bodies

  function Kinds(present: bool, kind: Kind): seq<Kind> {
    if present then [kind] else []
  }

  lemma WebhookBodyKinds(url: Option<string>)
    ensures BodyOf(WebhookBody(url), Kinds(url.Some?, Webhook), Calm(Url, url))
  {
    hide BodyOf, Entry, KindText, AllInert;
    NoBody();
    SectionHead(Webhook);
    if url.Some? {
      EntryBody(Url, url.value);
      var head := [KindText(Webhook), SEND_RESOLVED];
      AddLine(head, [Webhook], true, Entry(Url, url.value), Calm(Url, url));
      assert WebhookBody(url) == head + [Entry(Url, url.value)];
    }
  }

  lemma SlackBodyKinds(url: Option<string>, channel: Option<string>, title: string)
    requires '\n' !in title
    ensures BodyOf(SlackBody(url, channel, title), Kinds(url.Some? && channel.Some?, Slack), SlackCalm(url, channel))
  {
    hide BodyOf, Entry, KindText, Calm;
    NoBody();
    if url.Some? && channel.Some? {
      SectionHead(Slack);
      SummaryOneLine();
      EntryBody(ApiUrl, url.value);
      EntryBody(Channel, channel.value);
      FixedEntry(Title, title);
      FixedEntry(Text, SUMMARY);
      var b0 := [KindText(Slack), SEND_RESOLVED];
      AddLine(b0, [Slack], true, Entry(ApiUrl, url.value), Calm(ApiUrl, url));
      var b1 := b0 + [Entry(ApiUrl, url.value)];
      AddLine(b1, [Slack], Calm(ApiUrl, url), Entry(Channel, channel.value), Calm(Channel, channel));
      var b2 := b1 + [Entry(Channel, channel.value)];
      AddLine(b2, [Slack], SlackCalm(url, channel), Entry(Title, title), true);
      var b3 := b2 + [Entry(Title, title)];
      AddLine(b3, [Slack], SlackCalm(url, channel), Entry(Text, SUMMARY), true);
      assert SlackBody(url, channel, title) == b3 + [Entry(Text, SUMMARY)];
    }
  }

  lemma PagerDutyBodyKinds(key: Option<string>)
    ensures BodyOf(PagerDutyBody(key), Kinds(key.Some?, PagerDuty), Calm(RoutingKey, key))
  {
    hide BodyOf, Entry, KindText, AllInert;
    NoBody();
    if key.Some? {
      SectionHead(PagerDuty);
      SummaryOneLine();
      EntryBody(RoutingKey, key.value);
      FixedEntry(Severity, "critical");
      FixedEntry(Description, SUMMARY);
      var b0 := [KindText(PagerDuty), SEND_RESOLVED];
      AddLine(b0, [PagerDuty], true, Entry(RoutingKey, key.value), Calm(RoutingKey, key));
      var b1 := b0 + [Entry(RoutingKey, key.value)];
      AddLine(b1, [PagerDuty], Calm(RoutingKey, key), Entry(Severity, "critical"), true);
      var b2 := b1 + [Entry(Severity, "critical")];
      AddLine(b2, [PagerDuty], Calm(RoutingKey, key), Entry(Description, SUMMARY), true);
      assert PagerDutyBody(key) == b2 + [Entry(Description, SUMMARY)];
    }
  }

  lemma EmailBodyKinds(e: Env, subject: string)
    requires '\n' !in subject
    ensures BodyOf(EmailBody(e, subject), Kinds(e.emailTo.Some? && e.smarthost.Some?, Email), EmailCalm(e))
  {
    hide BodyOf, Entry, KindText, Calm, OneLine, Inert;
    NoBody();
    if e.emailTo.Some? && e.smarthost.Some? {
      SectionHead(Email);
      HeadersLine();
      EntryBody(To, e.emailTo.value);
      InertBody(HEADERS);
      FixedEntry(Subject, subject);
      var b0 := [KindText(Email), SEND_RESOLVED];
      AddLine(b0, [Email], true, Entry(To, e.emailTo.value), Calm(To, e.emailTo));
      var b1 := b0 + [Entry(To, e.emailTo.value)];
      SettingBody(b1, [Email], Calm(To, e.emailTo), From, e.emailFrom);
      var b2 := b1 + Setting(From, e.emailFrom);
      AddLine(b2, [Email], EmailCalm(e), HEADERS, true);
      var b3 := b2 + [HEADERS];
      AddLine(b3, [Email], EmailCalm(e), Entry(Subject, subject), true);
      assert EmailBody(e, subject) == b3 + [Entry(Subject, subject)];
    }
  }

  lemma SettingBody(body: seq<string>, kinds: seq<Kind>, calm: bool, k: Key, value: Option<string>)
    requires BodyOf(body, kinds, calm)
    ensures BodyOf(body + Setting(k, value), kinds, calm && Calm(k, value))
  {
    hide BodyOf, Entry, AllInert;
    if value.Some? {
      EntryBody(k, value.value);
      AddLine(body, kinds, calm, Entry(k, value.value), Calm(k, value));
    } else {
      assert body + [] == body;
    }
  }

  function DefaultKinds(e: Env): seq<Kind> {
    Kinds(e.defaultWebhook.Some?, Webhook) + Kinds(e.defaultSlackWebhook.Some? && e.defaultSlackChannel.Some?, Slack)
  }

  function CriticalKinds(e: Env): seq<Kind> {
    Kinds(e.criticalWebhook.Some?, Webhook) + Kinds(e.criticalPagerDutyKey.Some?, PagerDuty)
    + Kinds(e.emailTo.Some? && e.smarthost.Some?, Email)
  }

  function WarningKinds(e: Env): seq<Kind> {
    Kinds(e.warningWebhook.Some?, Webhook) + Kinds(e.warningSlackWebhook.Some? && e.warningSlackChannel.Some?, Slack)
    + Kinds(e.emailTo.Some? && e.smarthost.Some?, Email)
  }

  predicate CriticalCalm(e: Env) {
    Calm(Url, e.criticalWebhook) && Calm(RoutingKey, e.criticalPagerDutyKey) && EmailCalm(e)
  }

  predicate WarningCalm(e: Env) {
    Calm(Url, e.warningWebhook) && SlackCalm(e.warningSlackWebhook, e.warningSlackChannel) && EmailCalm(e)
  }

  lemma DefaultBodyKinds(e: Env)
    ensures BodyOf(DefaultBody(e), DefaultKinds(e),
      Calm(Url, e.defaultWebhook) && SlackCalm(e.defaultSlackWebhook, e.defaultSlackChannel))
  {
    hide BodyOf, WebhookBody, SlackBody, TitleOf, Calm, SlackCalm;
    TitleOneLine("default");
    WebhookBodyKinds(e.defaultWebhook);
    SlackBodyKinds(e.defaultSlackWebhook, e.defaultSlackChannel, TitleOf("default"));
    BodyConcat(
      WebhookBody(e.defaultWebhook), Kinds(e.defaultWebhook.Some?, Webhook), Calm(Url, e.defaultWebhook),
      SlackBody(e.defaultSlackWebhook, e.defaultSlackChannel, TitleOf("default")),
      Kinds(e.defaultSlackWebhook.Some? && e.defaultSlackChannel.Some?, Slack),
      SlackCalm(e.defaultSlackWebhook, e.defaultSlackChannel));
  }

  lemma CriticalBodyKinds(e: Env)
    ensures BodyOf(CriticalBody(e), CriticalKinds(e), CriticalCalm(e))
  {
    hide BodyOf, WebhookBody, PagerDutyBody, EmailBody, TitleOf, Calm, EmailCalm;
    TitleOneLine("critical");
    var web, pager := WebhookBody(e.criticalWebhook), PagerDutyBody(e.criticalPagerDutyKey);
    var webKinds, pagerKinds := Kinds(e.criticalWebhook.Some?, Webhook), Kinds(e.criticalPagerDutyKey.Some?, PagerDuty);
    var webCalm, pagerCalm := Calm(Url, e.criticalWebhook), Calm(RoutingKey, e.criticalPagerDutyKey);
    WebhookBodyKinds(e.criticalWebhook);
    PagerDutyBodyKinds(e.criticalPagerDutyKey);
    EmailBodyKinds(e, TitleOf("critical"));
    BodyConcat(web, webKinds, webCalm, pager, pagerKinds, pagerCalm);
    BodyConcat(web + pager, webKinds + pagerKinds, webCalm && pagerCalm,
      EmailBody(e, TitleOf("critical")), Kinds(e.emailTo.Some? && e.smarthost.Some?, Email), EmailCalm(e));
  }

  lemma WarningBodyKinds(e: Env)
    ensures BodyOf(WarningBody(e), WarningKinds(e), WarningCalm(e))
  {
    hide BodyOf, WebhookBody, SlackBody, EmailBody, TitleOf, Calm, SlackCalm, EmailCalm;
    TitleOneLine("warning");
    var web := WebhookBody(e.warningWebhook);
    var slack := SlackBody(e.warningSlackWebhook, e.warningSlackChannel, TitleOf("warning"));
    var webKinds := Kinds(e.warningWebhook.Some?, Webhook);
    var slackKinds := Kinds(e.warningSlackWebhook.Some? && e.warningSlackChannel.Some?, Slack);
    var webCalm, slackCalm := Calm(Url, e.warningWebhook), SlackCalm(e.warningSlackWebhook, e.warningSlackChannel);
    WebhookBodyKinds(e.warningWebhook);
    SlackBodyKinds(e.warningSlackWebhook, e.warningSlackChannel, TitleOf("warning"));
    EmailBodyKinds(e, TitleOf("warning"));
    BodyConcat(web, webKinds, webCalm, slack, slackKinds, slackCalm);
    BodyConcat(web + slack, webKinds + slackKinds, webCalm && slackCalm,
      EmailBody(e, TitleOf("warning")), Kinds(e.emailTo.Some? && e.smarthost.Some?, Email), EmailCalm(e));
  }

  // ---------------------------------------------------------------- the rendered layout

  function FlatBlocks(blocks: seq<ReceiverBlock>): (r: seq<ReceiverBlock>)
    ensures |r| == |blocks|
    ensures forall i :: 0 <= i < |r| ==> r[i] == ReceiverBlock(blocks[i].name, Flat(blocks[i].body))
  {
    if blocks == [] then [] else [ReceiverBlock(blocks[0].name, Flat(blocks[0].body))] + FlatBlocks(blocks[1..])
  }

  function SplitReceivers(e: Env): seq<ReceiverBlock> {
    var blocks := FlatBlocks(ReceiverBlocks(e));
    blocks[..5] + [blocks[5].(body := blocks[5].body + [""])]
  }

  /**
   The layout as the parser meets it: settings split at their line breaks, and one empty line for the
   line break that ends the text.
   */
  function ReadLayout(e: Env): Layout {
    Layout(Flat(Preamble(e)), "default", OPTIONS, ROUTE_BLOCKS, BETWEEN, SplitReceivers(e))
  }

  /** The lines from `route:` to `receivers:`, which hold no setting. */
  function Middle(): seq<string> {
    [ROUTE] + ([ROOT_RECEIVER + "default"] + (OPTIONS + ([ROUTES] + (RouteLines(ROUTE_BLOCKS) + (BETWEEN + [RECEIVERS])))))
  }

  lemma LinesInThree(preamble: seq<string>, receivers: seq<ReceiverBlock>)
    ensures Lines(Layout(preamble, "default", OPTIONS, ROUTE_BLOCKS, BETWEEN, receivers))
      == preamble + (Middle() + ReceiverLines(receivers))
  {
    hide RouteLines, ReceiverLines;
    var end := ReceiverLines(receivers);
    Regroup3(BETWEEN, [RECEIVERS], end);
    Regroup3(RouteLines(ROUTE_BLOCKS), BETWEEN + [RECEIVERS], end);
    Regroup3([ROUTES], RouteLines(ROUTE_BLOCKS) + (BETWEEN + [RECEIVERS]), end);
    Regroup3(OPTIONS, [ROUTES] + (RouteLines(ROUTE_BLOCKS) + (BETWEEN + [RECEIVERS])), end);
    Regroup3([ROOT_RECEIVER + "default"], OPTIONS + ([ROUTES] + (RouteLines(ROUTE_BLOCKS) + (BETWEEN + [RECEIVERS]))), end);
    Regroup3([ROUTE],
      [ROOT_RECEIVER + "default"] + (OPTIONS + ([ROUTES] + (RouteLines(ROUTE_BLOCKS) + (BETWEEN + [RECEIVERS])))), end);
  }

  lemma Regroup3(a: seq<string>, b: seq<string>, c: seq<string>)
    ensures (a + b) + c == a + (b + c)
  {
  }

  lemma {:induction false} ReceiverLinesEnd(init: seq<ReceiverBlock>, last: ReceiverBlock, x: string)
    ensures ReceiverLines(init + [last]) + [x] == ReceiverLines(init + [last.(body := last.body + [x])])
  {
    var last' := last.(body := last.body + [x]);
    if init == [] {
      assert init + [last] == [last] && init + [last'] == [last'];
      assert [last][1..] == [] && [last'][1..] == [];
    } else {
      ReceiverLinesEnd(init[1..], last, x);
      assert (init + [last])[1..] == init[1..] + [last];
      assert (init + [last'])[1..] == init[1..] + [last'];
    }
  }

  lemma OptionsValid()
    ensures forall i :: 0 <= i < |OPTIONS| ==>
      NotTop(OPTIONS[i]) && OPTIONS[i] != ROUTES && !StartsWith(OPTIONS[i], ROOT_RECEIVER)
  {
    assert ROUTE[0] == 'r' && RECEIVERS[0] == 'r' && ROUTES[2] == 'r' && ROUTES[3] == 'o' && ROOT_RECEIVER[2] == 'r' && ROOT_RECEIVER[4] == 'c';
    assert OPTIONS[0][0] == ' ' && OPTIONS[0][2] == 'g' && OPTIONS[1][0] == ' ' && OPTIONS[1][2] == 'g';
    assert OPTIONS[2][0] == ' ' && OPTIONS[2][2] == 'g' && OPTIONS[3][0] == ' ' && OPTIONS[3][3] == 'e' && OPTIONS[3][4] == 'p';
  }

  lemma BetweenValid()
    ensures forall i :: 0 <= i < |BETWEEN| ==> NotTop(BETWEEN[i])
  {
    assert ROUTE[0] == 'r' && RECEIVERS[0] == 'r' && BETWEEN[1][0] == 'i';
    assert BETWEEN[2][0] == ' ' && BETWEEN[3][0] == ' ' && BETWEEN[4][0] == ' ' && BETWEEN[5][0] == ' ' && BETWEEN[6][0] == ' ';
  }

  lemma EmptyQuiet()
    ensures Quiet("")
  {
    assert |INHIBIT| > 0 && |HEADER| > 0;
  }

  lemma TailCloses(rest: seq<string>)
    ensures ClosesRoutes(BETWEEN + rest)
  {
    hide Quiet;
    EmptyQuiet();
    QuietInside("");
    var tail := BETWEEN + rest;
    assert tail[0] == "" && tail[1] == INHIBIT;
    assert tail[1..][0] == INHIBIT;
    assert BlockSpan(tail) == 1;
  }

  lemma RepeatQuiet()
    ensures Quiet("      repeat_interval: 1m") && NotTop("      repeat_interval: 1m")
  {
    hide IsSpace, ParseMatcher, TrimStart;
    var line := "      repeat_interval: 1m";
    LetterNotSpace('r');
    IndentedNotMatcher(line, 6);
    assert line[8] == 'p' && ROUTE_RECEIVER[8] == 'c' && line[6] == 'r' && ROUTE_CONTINUE[6] == 'c';
    assert line[4] == ' ' && HEADER[4] == '-' && line[0] == ' ' && INHIBIT[0] == 'i' && ROUTE[0] == 'r' && RECEIVERS[0] == 'r';
  }

  predicate IsLowerCase(s: string) {
    s != "" && forall i :: 0 <= i < |s| ==> 'a' <= s[i] <= 'z'
  }

  lemma LowerValid(s: string)
    requires IsLowerCase(s)
    ensures ValidName(s) && OneLine(s)
  {
  }

  lemma NamesLower()
    ensures IsLowerCase("default") && IsLowerCase("watchdog") && IsLowerCase("security") && IsLowerCase("billing") && IsLowerCase("critical") && IsLowerCase("warning")
  {
  }

  lemma FixedMatcher(m: Matcher)
    requires IsLowerCase(m.name) && forall i :: 0 <= i < |m.value| ==> 'A' <= m.value[i] <= 'z'
    ensures ValidMatcher(m) && OneLine(MatcherLine(m))
  {
    hide IsSpace;
    assert '\n' !in "        - " && '\n' !in "=\"";
  }

  lemma RoutesValid()
    ensures forall i :: 0 <= i < |ROUTE_BLOCKS| ==> ValidRoute(ROUTE_BLOCKS[i])
  {
    hide Quiet, ValidMatcher, ValidName, NotTop, IsLowerCase, MatcherLine;
    NamesLower();
    MatchersValid();
    RepeatQuiet();
    LowerValid("watchdog"); LowerValid("security"); LowerValid("billing"); LowerValid("critical"); LowerValid("warning");
  }

  lemma MatchersValid()
    ensures forall i, j :: 0 <= i < |ROUTE_BLOCKS| && 0 <= j < |ROUTE_BLOCKS[i].route.matchers| ==>
      ValidMatcher(ROUTE_BLOCKS[i].route.matchers[j]) && OneLine(MatcherLine(ROUTE_BLOCKS[i].route.matchers[j]))
  {
    hide ValidMatcher, OneLine, MatcherLine;
    FixedMatcher(Matcher("alertname", "Watchdog"));
    FixedMatcher(Matcher("team", "security"));
    FixedMatcher(Matcher("team", "billing"));
    FixedMatcher(Matcher("severity", "critical"));
    FixedMatcher(Matcher("severity", "warning"));
  }

  lemma GlobalLines()
    ensures NotTop("global:") && OneLine("global:") && NotTop("  resolve_timeout: 5m") && OneLine("  resolve_timeout: 5m")
    ensures NotTop("") && OneLine("")
  {
    assert ROUTE[0] == 'r' && RECEIVERS[0] == 'r' && "global:"[0] == 'g' && "  resolve_timeout: 5m"[0] == ' ';
  }

  // ---------------------------------------------------------------- the fixed lines are one line each

  lemma FixedLines()
    ensures OneLine(ROUTE) && OneLine(RECEIVERS) && OneLine(ROUTES) && OneLine(HEADER)
    ensures OneLine("      repeat_interval: 1m")
  {
  }

  lemma OptionLines()
    ensures AllOneLine(OPTIONS)
  {
    assert OneLine(OPTIONS[0]) && OneLine(OPTIONS[1]);
    assert OneLine(OPTIONS[2]) && OneLine(OPTIONS[3]);
  }

  lemma BetweenLines()
    ensures AllOneLine(BETWEEN)
  {
    hide OneLine;
    SourceLines();
    TargetLines();
  }

  lemma SourceLines()
    ensures OneLine(BETWEEN[0]) && OneLine(BETWEEN[1]) && OneLine(BETWEEN[2]) && OneLine(BETWEEN[3])
  {
  }

  lemma TargetLines()
    ensures OneLine(BETWEEN[4]) && OneLine(BETWEEN[5]) && OneLine(BETWEEN[6]) && OneLine(BETWEEN[7])
  {
  }

  lemma PrefixedOneLine(name: string)
    requires name != "" && OneLine(name)
    ensures OneLine(ROOT_RECEIVER + name) && OneLine(ROUTE_RECEIVER + name) && OneLine(ROUTE_CONTINUE + name) && OneLine(NAME + name)
  {
    assert '\n' !in ROOT_RECEIVER && '\n' !in ROUTE_RECEIVER && '\n' !in ROUTE_CONTINUE && '\n' !in NAME;
  }

  lemma {:induction false} MatcherLinesOneLine(ms: seq<Matcher>)
    requires forall i :: 0 <= i < |ms| ==> OneLine(MatcherLine(ms[i]))
    ensures AllOneLine(MatcherLines(ms))
  {
    hide OneLine, MatcherLine;
    if ms != [] { MatcherLinesOneLine(ms[1..]); }
  }

  lemma {:induction false} RouteLinesOneLine(blocks: seq<RouteBlock>)
    requires forall i :: 0 <= i < |blocks| ==> AllOneLine(BlockLines(blocks[i]))
    ensures AllOneLine(RouteLines(blocks))
  {
    hide OneLine, BlockLines;
    FixedLines();
    if blocks != [] { RouteLinesOneLine(blocks[1..]); }
  }

  lemma LowerNonempty(s: string)
    requires IsLowerCase(s)
    ensures s != ""
  {
  }

  lemma BlocksOneLine()
    ensures forall i :: 0 <= i < |ROUTE_BLOCKS| ==> AllOneLine(BlockLines(ROUTE_BLOCKS[i]))
  {
    hide OneLine, MatcherLines, IsLowerCase, ValidMatcher, ValidName;
    MatchersValid();
    FixedLines();
    NamesLower();
    LowerOneLine("watchdog"); LowerOneLine("security"); LowerOneLine("billing"); LowerOneLine("critical"); LowerOneLine("warning");
    assert IsLowerCase("true") by { TrueLower(); }
    LowerOneLine("true");
    forall i | 0 <= i < |ROUTE_BLOCKS| ensures AllOneLine(BlockLines(ROUTE_BLOCKS[i])) {
      MatcherLinesOneLine(ROUTE_BLOCKS[i].route.matchers);
    }
  }

  lemma TrueLower()
    ensures IsLowerCase("true")
  {
  }

  lemma LowerOneLine(s: string)
    requires IsLowerCase(s)
    ensures OneLine(ROOT_RECEIVER + s) && OneLine(ROUTE_RECEIVER + s) && OneLine(ROUTE_CONTINUE + s)
  {
    hide OneLine, IsLowerCase;
    LowerValid(s);
    LowerNonempty(s);
    PrefixedOneLine(s);
  }

  lemma MiddleOneLine()
    ensures AllOneLine(Middle())
  {
    hide OneLine, IsLowerCase, RouteLines, BlockLines;
    FixedLines();
    OptionLines();
    BetweenLines();
    BlocksOneLine();
    RouteLinesOneLine(ROUTE_BLOCKS);
    NamesLower();
    LowerOneLine("default");
  }

  lemma {:induction false} FlatReceiverLines(blocks: seq<ReceiverBlock>)
    requires forall i :: 0 <= i < |blocks| ==> IsLowerCase(blocks[i].name)
    ensures Flat(ReceiverLines(blocks)) == ReceiverLines(FlatBlocks(blocks))
    decreases |blocks|
  {
    hide Flat, IsLowerCase, OneLine;
    if blocks == [] {
      FlatOneLines([]);
    } else {
      var b := blocks[0];
      FlatReceiverLines(blocks[1..]);
      LowerValid(b.name);
      LowerNonempty(b.name);
      PrefixedOneLine(b.name);
      FlatOne(NAME + b.name);
      OnePiece(NAME + b.name);
      FlatConcat([NAME + b.name], b.body + ReceiverLines(blocks[1..]));
      FlatConcat(b.body, ReceiverLines(blocks[1..]));
      assert FlatBlocks(blocks)[1..] == FlatBlocks(blocks[1..]);
    }
  }

  lemma ReceiverNamesLower(e: Env)
    ensures forall i :: 0 <= i < 6 ==> IsLowerCase(ReceiverBlocks(e)[i].name)
  {
    hide IsLowerCase, DefaultBody, CriticalBody, WarningBody, WebhookBody;
    NamesLower();
  }

  /** What the parser is given: the read layout, line by line. */
  lemma ReadLines(e: Env)
    ensures Split(TextOf(RenderedLines(e))) == Lines(ReadLayout(e))
  {
    hide Preamble, ReceiverBlocks, Middle, Lines, Flat, Split, TextOf, ReceiverLines, FlatBlocks, IsLowerCase;
    var pre, blocks := Preamble(e), ReceiverBlocks(e);
    SplitText(RenderedLines(e));
    LinesInThree(pre, blocks);
    FlatConcat(pre, Middle() + ReceiverLines(blocks));
    FlatConcat(Middle(), ReceiverLines(blocks));
    MiddleOneLine();
    FlatOneLines(Middle());
    ReceiverNamesLower(e);
    SixBlocks(e);
    FlatReceiverLines(blocks);
    var split := FlatBlocks(blocks);
    assert split == split[..5] + [split[5]];
    ReceiverLinesEnd(split[..5], split[5], "");
    LinesInThree(Flat(pre), SplitReceivers(e));
    var end := ReceiverLines(split);
    assert (Flat(pre) + (Middle() + end)) + [""] == Flat(pre) + (Middle() + (end + [""]));
  }

  lemma SixBlocks(e: Env)
    ensures |ReceiverBlocks(e)| == 6
  {
    hide DefaultBody, CriticalBody, WarningBody, WebhookBody;
  }

  // ---------------------------------------------------------------- the mail settings

  lemma SettingStray(k: Key, value: Option<string>, line: string)
    ensures line !in Flat(Setting(k, value)) <==> Avoids(k, value, line)
  {
    hide Entry, Pieces;
    if value.Some? {
      FlatOne(Entry(k, value.value));
    }
  }

  lemma PreambleStray(e: Env, line: string)
    requires line == ROUTE || line == RECEIVERS
    ensures line !in Flat(Preamble(e)) <==> NoStray(e, line)
  {
    hide Flat, Setting, Avoids, NotTop, OneLine;
    GlobalLines();
    TopFacts();
    var global := ["global:", "  resolve_timeout: 5m"];
    var a, b := Setting(SmtpSmarthost, e.smarthost), Setting(SmtpFrom, e.emailFrom);
    var c, d := Setting(SmtpAuthUsername, e.smtpAuthUsername), Setting(SmtpAuthPassword, e.smtpAuthPassword);
    FlatConcat(global + a + b + c + d, [""]);
    FlatConcat(global + a + b + c, d);
    FlatConcat(global + a + b, c);
    FlatConcat(global + a, b);
    FlatConcat(global, a);
    FlatOneLines(global);
    FlatOneLines([""]);
    assert line !in global && line !in [""] by { OpeningLines(line); }
    SettingStray(SmtpSmarthost, e.smarthost, line);
    SettingStray(SmtpFrom, e.emailFrom, line);
    SettingStray(SmtpAuthUsername, e.smtpAuthUsername, line);
    SettingStray(SmtpAuthPassword, e.smtpAuthPassword, line);
  }

  lemma OpeningLines(line: string)
    requires line == ROUTE || line == RECEIVERS
    ensures line !in ["global:", "  resolve_timeout: 5m"] && line !in [""]
  {
    GlobalLines();
  }

  // ---------------------------------------------------------------- the receivers

  /** The receivers the renderer means to describe. */
  function IntendedReceivers(e: Env): seq<Receiver> {
    [Receiver("default", DefaultKinds(e)), Receiver("watchdog", []),
     Receiver("critical", CriticalKinds(e)), Receiver("warning", WarningKinds(e)),
     Receiver("security", Kinds(e.securityWebhook.Some?, Webhook)),
     Receiver("billing", Kinds(e.billingWebhook.Some?, Webhook))]
  }

  function Intended(e: Env): Config {
    Config("default", RoutesIn(ROUTE_BLOCKS), IntendedReceivers(e))
  }

  lemma {:induction false} ReceiversCounted(rest: seq<string>)
    ensures |ReceiversOf(rest)| == NameCount(rest)
    decreases |rest|
  {
    hide StartsWith, After, KindsOf, NameSpan, ReceiversOf;
    if rest == [] {
      NoReceivers();
    } else {
      ReceiversUnfold(rest);
      if StartsWith(rest[0], NAME) {
        var span := NameSpan(rest[1..]);
        assert rest[1..] == rest[1..1 + span] + rest[1 + span..];
        NameCountConcat(rest[1..1 + span], rest[1 + span..]);
        NoNames(rest[1..1 + span]);
        ReceiversCounted(rest[1 + span..]);
      } else {
        ReceiversCounted(rest[1..]);
      }
    }
  }

  function BodyNames(blocks: seq<ReceiverBlock>): nat {
    if blocks == [] then 0 else NameCount(blocks[0].body) + BodyNames(blocks[1..])
  }

  lemma {:induction false} ReceiverLinesCounted(blocks: seq<ReceiverBlock>)
    ensures NameCount(ReceiverLines(blocks)) == |blocks| + BodyNames(blocks)
  {
    hide StartsWith;
    if blocks != [] {
      ReceiverLinesCounted(blocks[1..]);
      NameLine(blocks[0].name);
      NameCountConcat([NAME + blocks[0].name], blocks[0].body + ReceiverLines(blocks[1..]));
      NameCountConcat(blocks[0].body, ReceiverLines(blocks[1..]));
      assert [NAME + blocks[0].name][1..] == [];
    }
  }

  lemma NameLine(name: string)
    ensures StartsWith(NAME + name, NAME)
  {
  }

  lemma {:induction false} NoBodyNames(blocks: seq<ReceiverBlock>)
    ensures BodyNames(blocks) == 0 <==> forall i :: 0 <= i < |blocks| ==> NameCount(blocks[i].body) == 0
  {
    hide NameCount;
    if blocks != [] {
      NoBodyNames(blocks[1..]);
      assert forall i :: 1 <= i < |blocks| ==> blocks[i] == blocks[1..][i - 1];
    }
  }

  /** What each of the six bodies adds, line breaks and all. */
  lemma BodiesRead(e: Env)
    ensures
      var blocks := SplitReceivers(e);
      && |blocks| == 6
      && blocks[0].name == "default" && blocks[1].name == "watchdog" && blocks[2].name == "critical"
      && blocks[3].name == "warning" && blocks[4].name == "security" && blocks[5].name == "billing"
      && blocks[0].body == Flat(DefaultBody(e)) && blocks[1].body == [] && blocks[2].body == Flat(CriticalBody(e))
      && blocks[3].body == Flat(WarningBody(e)) && blocks[4].body == Flat(WebhookBody(e.securityWebhook))
      && blocks[5].body == Flat(WebhookBody(e.billingWebhook) + [""])
  {
    hide DefaultBody, CriticalBody, WarningBody, WebhookBody, OneLine;
    GlobalLines();
    FlatConcat(WebhookBody(e.billingWebhook), [""]);
    FlatOneLines([""]);
    NothingFlat();
    var blocks := FlatBlocks(ReceiverBlocks(e));
    assert |blocks| == 6;
  }

  lemma NothingFlat()
    ensures Flat([]) == []
  {
  }

  lemma LastBodyKinds(e: Env)
    ensures BodyOf(WebhookBody(e.billingWebhook) + [""], Kinds(e.billingWebhook.Some?, Webhook), Calm(Url, e.billingWebhook))
  {
    hide BodyOf, WebhookBody, Calm, Inert, OneLine;
    WebhookBodyKinds(e.billingWebhook);
    EmptyLine();
    InertBody("");
    AddLine(WebhookBody(e.billingWebhook), Kinds(e.billingWebhook.Some?, Webhook), Calm(Url, e.billingWebhook), "", true);
  }

  /** The six bodies are as meant, kind for kind, if and only if every delivery setting is calm. */
  lemma BodiesMean(e: Env)
    ensures
      var blocks := SplitReceivers(e);
      && |blocks| == 6
      && (CalmBodies(e) <==>
          && (forall i :: 0 <= i < 6 ==> NameCount(blocks[i].body) == 0)
          && (forall i :: 0 <= i < 6 ==> |KindsOf(blocks[i].body)| == |IntendedReceivers(e)[i].deliveryKinds|))
      && (CalmBodies(e) ==> forall i :: 0 <= i < 6 ==> KindsOf(blocks[i].body) == IntendedReceivers(e)[i].deliveryKinds)
  {
    hide KindsOf, NameCount, Flat, DefaultBody, CriticalBody, WarningBody, WebhookBody, DefaultKinds, CriticalKinds, WarningKinds,
      Kinds, Calm, SlackCalm, EmailCalm, SplitReceivers;
    BodiesRead(e);
    DefaultBodyKinds(e);
    CriticalBodyKinds(e);
    WarningBodyKinds(e);
    WebhookBodyKinds(e.securityWebhook);
    LastBodyKinds(e);
    NothingCounted();
    CalmParts(e);
  }

  lemma NothingCounted()
    ensures KindsOf([]) == [] && NameCount([]) == 0
  {
  }

  lemma CalmParts(e: Env)
    ensures CalmBodies(e) <==>
      && Calm(Url, e.defaultWebhook) && SlackCalm(e.defaultSlackWebhook, e.defaultSlackChannel)
      && CriticalCalm(e) && WarningCalm(e) && Calm(Url, e.securityWebhook) && Calm(Url, e.billingWebhook)
  {
    hide Calm, SlackCalm, EmailCalm;
  }

  lemma NamesValid(e: Env)
    ensures forall i :: 0 <= i < |SplitReceivers(e)| ==> ValidName(SplitReceivers(e)[i].name)
    ensures |SplitReceivers(e)| == 6
    ensures forall i :: 0 <= i < 6 ==> SplitReceivers(e)[i].name == IntendedReceivers(e)[i].name
  {
    hide IsLowerCase, ValidName, SplitReceivers, DefaultKinds, CriticalKinds, WarningKinds, Kinds, Flat, DefaultBody, CriticalBody,
      WarningBody, WebhookBody;
    BodiesRead(e);
    NamesLower();
    LowerValid("default"); LowerValid("watchdog"); LowerValid("security"); LowerValid("billing"); LowerValid("critical"); LowerValid("warning");
  }

  /** Where no body opens a receiver, the receivers read are the six, with the kinds of their split bodies. */
  lemma ReceiversWithoutStrays(e: Env)
    requires forall i :: 0 <= i < |SplitReceivers(e)| ==> NameCount(SplitReceivers(e)[i].body) == 0
    ensures ReceiversOf(ReceiverLines(SplitReceivers(e))) == ReceiversIn(SplitReceivers(e))
  {
    hide ReceiversOf, ReceiverLines, SplitReceivers, NameCount, StartsWith, ValidName, ReceiversIn, IntendedReceivers;
    var blocks := SplitReceivers(e);
    NamesValid(e);
    forall i | 0 <= i < |blocks|
      ensures ValidReceiver(blocks[i])
    {
      NoNames(blocks[i].body);
    }
    ReceiversRead(blocks);
  }

  /** The receivers read are the ones meant if and only if every delivery setting is calm. */
  lemma ReceiversMean(e: Env)
    ensures ReceiversOf(ReceiverLines(SplitReceivers(e))) == IntendedReceivers(e) <==> CalmBodies(e)
  {
    hide ReceiversOf, ReceiverLines, SplitReceivers, NameCount, KindsOf, CalmBodies, DefaultKinds, CriticalKinds, WarningKinds,
      Kinds, ValidName, BodyNames;
    var blocks, found, meant := SplitReceivers(e), ReceiversOf(ReceiverLines(SplitReceivers(e))), IntendedReceivers(e);
    BodiesMean(e);
    NamesValid(e);
    NoBodyNames(blocks);
    ReceiversCounted(ReceiverLines(blocks));
    ReceiverLinesCounted(blocks);
    if CalmBodies(e) || found == meant {
      ReceiversWithoutStrays(e);
      if found == meant {
        forall i | 0 <= i < 6
          ensures KindsOf(blocks[i].body) == meant[i].deliveryKinds
        {
          assert found[i] == meant[i];
        }
      }
    }
  }
}
