/**
 The readiness tree: repository pipeline, observability packet, high-availability packet and runtime
 authority, each with its list of issues, and the production packet that joins them.
 */
module ProductionReadiness {
  import opened Wrappers
  import opened Text
  import Alert = AlertRenderer
  import Rendered = AlertEndToEnd
  import AlertStrays
  import Ha = HaReadiness

  datatype State = Ready | Blocked

  /** `[...new Set(items)]` */
  function Distinct<T(==,!new)>(items: seq<T>): (r: seq<T>)
    ensures r == [] <==> items == []
    ensures forall x :: x in r <==> x in items
  {
    if items == [] then []
    else
      var init, last := items[..|items| - 1], items[|items| - 1];
      if last in Distinct(init) then Distinct(init) else Distinct(init) + [last]
  }

  // ---------------------------------------------------------------- repository pipeline

  datatype Field = Flag(on: bool) | Words(text: string) | Nested(flags: map<string, bool>) | OtherField

  /** A parsed summary; `NotObject` for every JSON value without properties. */
  datatype Payload = NotObject | Object(fields: map<string, Field>)

  datatype SummaryFile = NoFile | Unparsable | Parsed(payload: Payload)

  datatype RepoInput = RepoInput(explicit: Option<string>, summaryPath: Option<string>, file: SummaryFile)

  datatype RepoSource = FromEnv | FromSummary | NoProof | BadProof

  datatype Repo = Repo(ready: bool, source: RepoSource, issue: bool, missingInput: bool)

  const PASS_WORDS := ["ok", "pass", "passed", "success", "ready", "ready-for-environment-promotion"]
  const FAIL_WORDS := ["fail", "failed", "error", "blocked", "blocked-on-environment-inputs"]

  function FlagOf(p: Payload, key: string): Option<bool> {
    if p.Object? && key in p.fields && p.fields[key].Flag? then Some(p.fields[key].on) else None
  }

  function WordsOf(p: Payload, key: string): Option<bool> {
    if p.Object? && key in p.fields && p.fields[key].Words? then
      var word := Lower(Trim(p.fields[key].text));
      if word in PASS_WORDS then Some(true) else if word in FAIL_WORDS then Some(false) else None
    else None
  }

  function NestedOf(p: Payload): Option<bool> {
    if p.Object? && "readiness" in p.fields && p.fields["readiness"].Nested? then
      var flags := p.fields["readiness"].flags;
      if "repoPipelineReady" in flags then Some(flags["repoPipelineReady"])
      else if "promotionGatePassed" in flags then Some(flags["promotionGatePassed"])
      else None
    else None
  }

  function OrElse(a: Option<bool>, b: Option<bool>): Option<bool> {
    if a.Some? then a else b
  }

  /** `inferSummaryReady`: the first recognizable signal decides. */
  function InferReady(p: Payload): Option<bool> {
    var flags := OrElse(FlagOf(p, "ok"), OrElse(FlagOf(p, "passed"), FlagOf(p, "success")));
    var words := OrElse(WordsOf(p, "status"), OrElse(WordsOf(p, "state"), WordsOf(p, "result")));
    OrElse(flags, OrElse(words, NestedOf(p)))
  }

  function ParseBoolean(s: string): Option<bool> {
    if Lower(s) in ["1", "true", "yes", "on"] then Some(true)
    else if Lower(s) in ["0", "false", "no", "off"] then Some(false)
    else None
  }

  function ResolveRepo(i: RepoInput): Repo {
    if i.explicit.Some? then
      match ParseBoolean(i.explicit.value)
      case None => Repo(false, BadProof, true, false)
      case Some(b) => Repo(b, FromEnv, !b, false)
    else if i.summaryPath.None? then Repo(false, NoProof, true, true)
    else match i.file
      case NoFile => Repo(false, BadProof, true, false)
      case Unparsable => Repo(false, BadProof, true, false)
      case Parsed(p) =>
        match InferReady(p)
        case None => Repo(false, BadProof, true, false)
        case Some(b) => Repo(b, FromSummary, !b, false)
  }

  /** The repository counts as ready only on a positive proof, and every other case leaves an issue. */
  lemma RepoMeans(i: RepoInput)
    ensures
      var r := ResolveRepo(i);
      && (r.ready <==> !r.issue)
      && (r.missingInput ==> r.issue)
      && (r.ready <==>
          if i.explicit.Some? then ParseBoolean(i.explicit.value) == Some(true)
          else i.summaryPath.Some? && i.file.Parsed? && InferReady(i.file.payload) == Some(true))
  {
    hide ParseBoolean, InferReady;
  }

  predicate IsFlag(fields: map<string, Field>, key: string) {
    key in fields && fields[key].Flag?
  }

  predicate Passes(word: string) {
    word in ["ok", "pass", "passed", "success", "ready", "ready-for-environment-promotion"]
  }

  predicate Fails(word: string) {
    word in ["fail", "failed", "error", "blocked", "blocked-on-environment-inputs"]
  }

  function WordAt(fields: map<string, Field>, key: string): string
    requires key in fields && fields[key].Words?
  {
    Lower(Trim(fields[key].text))
  }

  predicate SaysWord(fields: map<string, Field>, key: string) {
    key in fields && fields[key].Words? && (Passes(WordAt(fields, key)) || Fails(WordAt(fields, key)))
  }

  /** The first key of the three that is a flag. */
  predicate FirstFlag(fields: map<string, Field>, keys: seq<string>, i: nat)
    requires i < |keys|
  {
    IsFlag(fields, keys[i]) && forall j :: 0 <= j < i ==> !IsFlag(fields, keys[j])
  }

  /** The first key of the three whose text is one of the eleven words. */
  predicate FirstWord(fields: map<string, Field>, keys: seq<string>, i: nat)
    requires i < |keys|
  {
    SaysWord(fields, keys[i]) && forall j :: 0 <= j < i ==> !SaysWord(fields, keys[j])
  }

  predicate NestedPasses(fields: map<string, Field>) {
    && "readiness" in fields && fields["readiness"].Nested?
    && var flags := fields["readiness"].flags;
    && (("repoPipelineReady" in flags && flags["repoPipelineReady"])
        || ("repoPipelineReady" !in flags && "promotionGatePassed" in flags && flags["promotionGatePassed"]))
  }

  /** A summary passes by its first flag, or without flags by its first word, or without either by its nested flag. */
  ghost predicate SummaryPasses(fields: map<string, Field>) {
    var flags, words := ["ok", "passed", "success"], ["status", "state", "result"];
    if exists i :: 0 <= i < 3 && IsFlag(fields, flags[i]) then
      exists i :: 0 <= i < 3 && FirstFlag(fields, flags, i) && fields[flags[i]] == Flag(true)
    else if exists i :: 0 <= i < 3 && SaysWord(fields, words[i]) then
      exists i :: 0 <= i < 3 && FirstWord(fields, words, i) && Passes(WordAt(fields, words[i]))
    else NestedPasses(fields)
  }

  /** The repository leaf, over the texts and summaries themselves. */
  lemma RepoLeafMeans(i: RepoInput)
    ensures i.explicit.Some? ==>
      && (ResolveRepo(i).ready <==> Lower(i.explicit.value) in ["1", "true", "yes", "on"])
      && (ResolveRepo(i).source == FromEnv <==> Lower(i.explicit.value) in ["1", "true", "yes", "on", "0", "false", "no", "off"])
      && (ResolveRepo(i).source != FromEnv ==> ResolveRepo(i).source == BadProof)
    ensures i.explicit.None? ==>
      && (ResolveRepo(i).ready <==>
          && i.summaryPath.Some? && i.file.Parsed? && i.file.payload.Object? && SummaryPasses(i.file.payload.fields))
      && (ResolveRepo(i).source == NoProof <==> i.summaryPath.None?)
    ensures ResolveRepo(i).missingInput <==> i.explicit.None? && i.summaryPath.None?
  {
    hide SummaryPasses, InferReady, Lower, ParseBoolean;
    if i.explicit.Some? {
      BooleanMeans(i.explicit.value);
    }
    if i.file.Parsed? {
      InferMeans(i.file.payload);
    }
  }

  lemma BooleanMeans(s: string)
    ensures ParseBoolean(s) == Some(true) <==> Lower(s) in ["1", "true", "yes", "on"]
    ensures ParseBoolean(s).Some? <==> Lower(s) in ["1", "true", "yes", "on", "0", "false", "no", "off"]
  {
    hide Lower;
  }

  lemma WordsMean(p: Payload, key: string)
    ensures WordsOf(p, key) == Some(true) <==> p.Object? && SaysWord(p.fields, key) && Passes(WordAt(p.fields, key))
    ensures WordsOf(p, key).Some? <==> p.Object? && SaysWord(p.fields, key)
  {
    hide Lower, Trim;
  }

  lemma InferMeans(p: Payload)
    ensures InferReady(p) == Some(true) <==> p.Object? && SummaryPasses(p.fields)
  {
    hide WordsOf, SaysWord, Passes, Fails, WordAt;
    WordsMean(p, "status");
    WordsMean(p, "state");
    WordsMean(p, "result");
    if p.Object? {
      var f, flags, words := p.fields, ["ok", "passed", "success"], ["status", "state", "result"];
      assert (exists i :: 0 <= i < 3 && IsFlag(f, flags[i])) <==> IsFlag(f, flags[0]) || IsFlag(f, flags[1]) || IsFlag(f, flags[2]);
      assert (exists i :: 0 <= i < 3 && SaysWord(f, words[i])) <==> SaysWord(f, words[0]) || SaysWord(f, words[1]) || SaysWord(f, words[2]);
      FirstFlagIs(f, flags);
      FirstWordIs(f, words);
    }
  }

  lemma FirstFlagIs(f: map<string, Field>, keys: seq<string>)
    requires |keys| == 3
    ensures (exists i :: 0 <= i < 3 && FirstFlag(f, keys, i) && f[keys[i]] == Flag(true)) <==>
      if IsFlag(f, keys[0]) then f[keys[0]].on
      else if IsFlag(f, keys[1]) then f[keys[1]].on
      else IsFlag(f, keys[2]) && f[keys[2]].on
  {
    assert FirstFlag(f, keys, 0) <==> IsFlag(f, keys[0]);
    assert FirstFlag(f, keys, 1) <==> IsFlag(f, keys[1]) && !IsFlag(f, keys[0]);
    assert FirstFlag(f, keys, 2) <==> IsFlag(f, keys[2]) && !IsFlag(f, keys[0]) && !IsFlag(f, keys[1]);
  }

  lemma FirstWordIs(f: map<string, Field>, keys: seq<string>)
    requires |keys| == 3
    ensures (exists i :: 0 <= i < 3 && FirstWord(f, keys, i) && Passes(WordAt(f, keys[i]))) <==>
      if SaysWord(f, keys[0]) then Passes(WordAt(f, keys[0]))
      else if SaysWord(f, keys[1]) then Passes(WordAt(f, keys[1]))
      else SaysWord(f, keys[2]) && Passes(WordAt(f, keys[2]))
  {
    hide Passes, Fails;
    assert FirstWord(f, keys, 0) <==> SaysWord(f, keys[0]);
    assert FirstWord(f, keys, 1) <==> SaysWord(f, keys[1]) && !SaysWord(f, keys[0]);
    assert FirstWord(f, keys, 2) <==> SaysWord(f, keys[2]) && !SaysWord(f, keys[0]) && !SaysWord(f, keys[1]);
  }

  // ---------------------------------------------------------------- high-availability packet

  datatype HaPacketIssue = ProbeIssue(i: Ha.Issue) | StillMissing(v: Ha.Var) | RepoInputMissing | RepoIssue

  datatype HaPacket = HaPacket(
    repoReady: bool, inputsComplete: bool, gatePassed: bool, state: State, issues: seq<HaPacketIssue>, missingCount: nat)

  function ProbeIssues(issues: seq<Ha.Issue>): (r: seq<HaPacketIssue>)
    ensures r == [] <==> issues == []
  {
    if issues == [] then [] else ProbeIssues(issues[..|issues| - 1]) + [ProbeIssue(issues[|issues| - 1])]
  }

  function MissingIssues(vs: seq<Ha.Var>): (r: seq<HaPacketIssue>)
    ensures r == [] <==> vs == []
  {
    if vs == [] then [] else MissingIssues(vs[..|vs| - 1]) + [StillMissing(vs[|vs| - 1])]
  }

  function HaPacketOf(w: Ha.World, repo: Repo): HaPacket {
    var probe := Ha.Probe(w);
    var missing := Ha.MissingInputs(w);
    var issues := Distinct(
      ProbeIssues(probe.issues)
      + (MissingIssues(missing) + (if repo.missingInput then [RepoInputMissing] else []))
      + (if repo.issue then [RepoIssue] else []));
    var complete := missing == [] && !repo.missingInput && probe.envComplete;
    var passed := probe.bundleRendered && probe.connectivityPassed;
    HaPacket(
      repo.ready, complete, passed, if repo.ready && complete && passed then Ready else Blocked, issues,
      |missing| + if repo.missingInput then 1 else 0)
  }

  lemma HaPacketMeans(w: Ha.World, i: RepoInput)
    ensures
      var p := HaPacketOf(w, ResolveRepo(i));
      && (p.state == Ready <==> p.issues == [])
      && (p.state == Ready <==> p.repoReady && p.inputsComplete && p.gatePassed)
      && (p.state == Ready <==>
          Ha.EnvOk(w) && Ha.Reachable(w) && w.bundleRenders && Ha.MissingInputs(w) == [] && ResolveRepo(i).ready)
  {
    hide Ha.EnvOk, Ha.Reachable, Ha.Probe, Ha.MissingInputs, ResolveRepo, ProbeIssues, MissingIssues, Distinct;
    Ha.ProbeMeans(w);
    RepoMeans(i);
  }

  // ---------------------------------------------------------------- observability packet

  datatype ObsProvider = GenericObs | GrafanaCloud | GrafanaAlloy

  /** A variable's own text, whether its companion names a file, and that file's text; texts are trimmed and not empty. */
  datatype Setting = Setting(direct: Option<string>, viaFile: bool, text: Option<string>)

  /** `envOrFile` */
  function Read(s: Setting): Option<string> {
    if s.direct.Some? then s.direct else if s.viaFile then s.text else None
  }

  predicate Readable(s: Setting) {
    Read(s).Some?
  }

  /** Present, directly or by a file, whatever the file holds. */
  predicate Named(s: Setting) {
    s.direct.Some? || s.viaFile
  }

  datatype AlertSettings = AlertSettings(
    defaultWebhook: Setting, defaultSlackWebhook: Setting, defaultSlackChannel: Setting,
    criticalWebhook: Setting, criticalPagerDutyKey: Setting,
    warningWebhook: Setting, warningSlackWebhook: Setting, warningSlackChannel: Setting,
    securityWebhook: Setting, billingWebhook: Setting,
    emailTo: Setting, emailFrom: Setting, smarthost: Setting, smtpAuthUsername: Setting, smtpAuthPassword: Setting,
    productionMode: bool)

  /** What the renderer reads. */
  function AlertEnv(a: AlertSettings): Alert.Env {
    Alert.Env(
      Read(a.defaultWebhook), Read(a.defaultSlackWebhook), Read(a.defaultSlackChannel),
      Read(a.criticalWebhook), Read(a.criticalPagerDutyKey),
      Read(a.warningWebhook), Read(a.warningSlackWebhook), Read(a.warningSlackChannel),
      Read(a.securityWebhook), Read(a.billingWebhook),
      Read(a.emailTo), Read(a.emailFrom), Read(a.smarthost), Read(a.smtpAuthUsername), Read(a.smtpAuthPassword),
      a.productionMode)
  }

  /** The packet and the probe settle the secret mode separately, so it is given twice. */
  datatype ObsWorld = ObsWorld(
    provider: ObsProvider, packetUsesExternalSecret: bool, probeUsesExternalSecret: bool,
    endpoint: Setting, username: Setting, token: Setting, storeSet: bool,
    bundleRenders: bool, flushed: bool, prometheus: Option<bool>, alertmanager: Option<bool>, alert: AlertSettings)

  datatype ObsIssue =
    | NeedsEndpoint | NeedsUsername | NeedsToken | NeedsStore
    | ObsRenderFailed | ReceiversFailed | AlertRoutingFailed
    | EndpointMissing | UsernameMissing | TokenMissing | DefaultTargetMissing | CriticalTargetMissing
    | WarningTargetMissing | StoreMissing | ObsRepoInputMissing | ObsRepoIssue

  datatype ObsProbe = ObsProbe(
    envComplete: bool, rendered: bool, receiversPassed: bool, routingPassed: bool, issues: seq<ObsIssue>)

  datatype ObsError = AlertRendererRefused | AlertConfigUnreadable

  function Add(issues: seq<ObsIssue>, condition: bool, i: ObsIssue): (r: seq<ObsIssue>)
    ensures r == [] <==> issues == [] && !condition
  {
    if condition then issues + [i] else issues
  }

  predicate Grafana(o: ObsWorld) {
    o.provider == GrafanaCloud || o.provider == GrafanaAlloy
  }

  function ObsEnvIssues(o: ObsWorld): seq<ObsIssue> {
    var endpoint := Add([], Grafana(o) && !Readable(o.endpoint), NeedsEndpoint);
    var username := Add(endpoint, Grafana(o) && !Readable(o.username), NeedsUsername);
    var token := Add(username, Grafana(o) && !Readable(o.token), NeedsToken);
    Add(token, o.probeUsesExternalSecret && !o.storeSet, NeedsStore)
  }

  predicate ReceiversOk(o: ObsWorld) {
    o.flushed && o.prometheus != Some(false) && o.alertmanager != Some(false)
  }

  /** What `probe-alert-routing` finds in the configuration rendered from the environment. */
  function AlertProbe(e: Alert.Env): Result<bool, ObsError> {
    if Alert.BuildConfig(e).Err? then Err(AlertRendererRefused)
    else match Rendered.ParsedText(e)
      case Err(_) => Err(AlertConfigUnreadable)
      case Ok(config) => Ok(Alert.RoutingValid(config) && Alert.DeliveryCoverageValid(config))
  }

  function ProbeObs(o: ObsWorld): Result<ObsProbe, ObsError> {
    var env := ObsEnvIssues(o);
    if env != [] then Ok(ObsProbe(false, false, false, false, env))
    else if !o.bundleRenders then Ok(ObsProbe(false, false, false, false, Add([], true, ObsRenderFailed)))
    else match AlertProbe(AlertEnv(o.alert))
      case Err(e) => Err(e)
      case Ok(routed) =>
        var issues := Add(Add([], !ReceiversOk(o), ReceiversFailed), !routed, AlertRoutingFailed);
        Ok(ObsProbe(issues == [], true, ReceiversOk(o), routed, issues))
  }

  /** `probeObservabilityReleaseInputs`, with its flags raised branch by branch. */
  method RunObsProbe(o: ObsWorld) returns (r: Result<ObsProbe, ObsError>)
    ensures r == ProbeObs(o)
  {
    hide AlertProbe, Readable;
    var issues: seq<ObsIssue> := [];
    if Grafana(o) {
      if !Readable(o.endpoint) { issues := issues + [NeedsEndpoint]; }
      if !Readable(o.username) { issues := issues + [NeedsUsername]; }
      if !Readable(o.token) { issues := issues + [NeedsToken]; }
    }
    if o.probeUsesExternalSecret && !o.storeSet {
      issues := issues + [NeedsStore];
    }
    var rendered, received, routed := false, false, false;
    if issues == [] {
      rendered := o.bundleRenders;
      if !rendered {
        issues := issues + [ObsRenderFailed];
      } else {
        received := ReceiversOk(o);
        if !received {
          issues := issues + [ReceiversFailed];
        }
        var routing := AlertProbe(AlertEnv(o.alert));
        if routing.Err? {
          return Err(routing.error);
        }
        routed := routing.value;
        if !routed {
          issues := issues + [AlertRoutingFailed];
        }
      }
    }
    r := Ok(ObsProbe(issues == [], rendered, received, routed, issues));
  }

  /**
   Where no mail setting opens routes of its own: the routing probe ends where the renderer does not refuse, and passes
   if and only if the routes are read exactly once and delivery is covered in the text. On settings that do not pass
   for structure that is when the environment covers the receivers; and where none opens a receiver, it is enough.
   */
  lemma AlertProbeMeans(e: Alert.Env)
    requires AlertStrays.Unsectioned(Rendered.Lead(e))
    ensures Rendered.ParsedText(e).Ok? && (AlertProbe(e).Ok? <==> Alert.BuildConfig(e).Ok?)
    ensures AlertProbe(e) == Ok(true) <==>
      && Alert.BuildConfig(e).Ok? && Rendered.Copies(e) == 1
      && Alert.DeliveryCoverageValid(Rendered.ParsedText(e).value)
    ensures AlertProbe(e).Ok? && Rendered.Tame(e) ==> (AlertProbe(e).value <==> Rendered.Covered(e))
    ensures AlertProbe(e).Ok? && Rendered.Copies(e) == 1 && Rendered.NoReceiverOpened(e) && Rendered.Covered(e) ==>
      AlertProbe(e).value
  {
    hide Rendered.Lead, Rendered.Tame, Rendered.Copies, Rendered.NoReceiverOpened, Alert.BuildConfig, Rendered.Covered, Alert.RoutingValid,
      Alert.DeliveryCoverageValid, Rendered.ParsedText, AlertStrays.Unsectioned;
    Rendered.RoutingOfRendered(e);
    if Alert.BuildConfig(e).Ok? && Rendered.Tame(e) {
      Rendered.ProbeOfRendered(e);
    }
    if Alert.BuildConfig(e).Ok? && Rendered.Copies(e) == 1 && Rendered.NoReceiverOpened(e) {
      Rendered.CoverageOfRendered(e);
    }
  }

  predicate ObsEnvOk(o: ObsWorld) {
    && (Grafana(o) ==> Readable(o.endpoint) && Readable(o.username) && Readable(o.token))
    && (o.probeUsesExternalSecret ==> o.storeSet)
  }

  /** Where the probe returns, it has no issue exactly when inputs, rendering, receivers and alert routing are in order. */
  lemma ObsProbeMeans(o: ObsWorld)
    requires ProbeObs(o).Ok?
    ensures
      var s := ProbeObs(o).value;
      && (s.issues == [] <==> ObsEnvOk(o) && o.bundleRenders && ReceiversOk(o) && AlertProbe(AlertEnv(o.alert)) == Ok(true))
      && (s.envComplete <==> s.issues == [])
      && (s.issues == [] ==> s.rendered && s.receiversPassed && s.routingPassed)
  {
    hide AlertProbe, Readable, ReceiversOk;
  }

  predicate DefaultNamed(a: AlertSettings) {
    Named(a.defaultWebhook) || (Named(a.defaultSlackWebhook) && Named(a.defaultSlackChannel)) || Named(a.emailTo)
  }

  predicate CriticalNamed(a: AlertSettings) {
    Named(a.criticalWebhook) || Named(a.criticalPagerDutyKey) || Named(a.emailTo)
  }

  predicate WarningNamed(a: AlertSettings) {
    Named(a.warningWebhook) || (Named(a.warningSlackWebhook) && Named(a.warningSlackChannel)) || Named(a.emailTo)
  }

  function ObsMissing(o: ObsWorld): seq<ObsIssue> {
    var endpoint := Add([], Grafana(o) && !Named(o.endpoint), EndpointMissing);
    var username := Add(endpoint, Grafana(o) && !Named(o.username), UsernameMissing);
    var token := Add(username, Grafana(o) && !Named(o.token), TokenMissing);
    var byDefault := Add(token, o.alert.productionMode && !DefaultNamed(o.alert), DefaultTargetMissing);
    var critical := Add(byDefault, o.alert.productionMode && !CriticalNamed(o.alert), CriticalTargetMissing);
    var warning := Add(critical, o.alert.productionMode && !WarningNamed(o.alert), WarningTargetMissing);
    Add(warning, o.packetUsesExternalSecret && !o.storeSet, StoreMissing)
  }

  datatype ObsPacket = ObsPacket(
    repoReady: bool, inputsComplete: bool, gatePassed: bool, state: State, issues: seq<ObsIssue>, missing: seq<ObsIssue>)

  function ObsPacketOf(o: ObsWorld, repo: Repo): Result<ObsPacket, ObsError> {
    match ProbeObs(o)
    case Err(e) => Err(e)
    case Ok(probe) =>
      var missing := Add(ObsMissing(o), repo.missingInput, ObsRepoInputMissing);
      var issues := Distinct(probe.issues + missing + if repo.issue then [ObsRepoIssue] else []);
      var complete := missing == [] && probe.envComplete;
      var passed := probe.rendered && probe.receiversPassed && probe.routingPassed;
      Ok(ObsPacket(
        repo.ready, complete, passed, if repo.ready && complete && passed then Ready else Blocked, issues, missing))
  }

  lemma ObsPacketMeans(o: ObsWorld, i: RepoInput)
    requires ObsPacketOf(o, ResolveRepo(i)).Ok?
    ensures
      var p := ObsPacketOf(o, ResolveRepo(i)).value;
      && (p.state == Ready <==> p.issues == [])
      && (p.state == Ready <==> p.repoReady && p.inputsComplete && p.gatePassed)
      && (p.state == Ready <==>
          && ObsEnvOk(o) && o.bundleRenders && ReceiversOk(o) && AlertProbe(AlertEnv(o.alert)) == Ok(true)
          && ObsMissing(o) == [] && ResolveRepo(i).ready)
  {
    hide ObsEnvOk, ProbeObs, ReceiversOk, AlertProbe, ObsMissing, ResolveRepo, Distinct;
    ObsProbeMeans(o);
    RepoMeans(i);
  }

  /** A target that the renderer accepts is never listed as missing: it reads no setting that is not named. */
  lemma AcceptedTargetsAreNamed(o: ObsWorld)
    requires Alert.BuildConfig(AlertEnv(o.alert)).Ok?
    ensures DefaultTargetMissing !in ObsMissing(o) && CriticalTargetMissing !in ObsMissing(o)
    ensures WarningTargetMissing !in ObsMissing(o)
  {
    hide Alert.RenderedLines;
    var e := AlertEnv(o.alert);
    assert Alert.Refusal(e).None?;
    assert forall s: Setting :: Read(s).Some? ==> Named(s);
  }

  /**
   The two lists disagree about e-mail. Where an e-mail target is all there is for the default receiver, the packet's
   list of missing inputs is satisfied, yet that receiver delivers nowhere and the packet stays blocked, unless another
   setting opens a receiver by a line break.
   */
  lemma EmailAloneIsNotMissingYetBlocks(o: ObsWorld, i: RepoInput)
    requires AlertStrays.Unsectioned(Rendered.Lead(AlertEnv(o.alert))) && Rendered.NoReceiverOpened(AlertEnv(o.alert))
    requires ObsPacketOf(o, ResolveRepo(i)).Ok?
    requires Named(o.alert.emailTo) && !Readable(o.alert.defaultWebhook) && !Readable(o.alert.defaultSlackWebhook)
    ensures DefaultTargetMissing !in ObsMissing(o) && CriticalTargetMissing !in ObsMissing(o)
    ensures WarningTargetMissing !in ObsMissing(o)
    ensures ObsPacketOf(o, ResolveRepo(i)).value.state == Blocked
  {
    hide ResolveRepo, ObsPacketOf, ProbeObs, AlertProbe, Rendered.NoReceiverOpened, Rendered.Lead, AlertStrays.Unsectioned, Rendered.Copies,
      Alert.BuildConfig, Rendered.ParsedText, Alert.DeliveryCoverageValid, ReceiversOk, ObsEnvOk;
    var e := AlertEnv(o.alert);
    ObsPacketMeans(o, i);
    AlertProbeMeans(e);
    if AlertProbe(e) == Ok(true) {
      Rendered.CoverageOfRendered(e);
      Rendered.NoDefaultTarget(e);
      assert false;
    }
  }

  // ---------------------------------------------------------------- runtime authority

  datatype AuthorityIssue = ProfileRequired | ProfileUnsupported | LocalDev | AuthorityUrlRequired | StorageNotShared

  datatype Authority = Authority(passed: bool, issues: seq<AuthorityIssue>, missingCount: nat)

  predicate AuthorityOk(profile: Option<string>, pgConfigured: bool, storageReady: bool) {
    || profile == Some("single-node-durable")
    || (profile == Some("production-shared") && pgConfigured && storageReady)
  }

  /** `evaluateRuntimeAuthorityWithStorage`: one branch for the profile, one for its storage. */
  function AuthorityOf(profile: Option<string>, pgConfigured: bool, storageReady: bool): Authority {
    var shared := profile == Some("production-shared");
    var byProfile :=
      if profile.None? || profile.value == "" then [ProfileRequired]
      else if profile.value !in Ha.PROFILES then [ProfileUnsupported]
      else if profile.value == "local-dev" then [LocalDev]
      else if shared && !pgConfigured then [AuthorityUrlRequired]
      else [];
    var issues := byProfile + if shared && !storageReady then [StorageNotShared] else [];
    var missing :=
      (if ProfileRequired in byProfile || AuthorityUrlRequired in byProfile then 1 else 0)
      + if shared && !storageReady then 1 else 0;
    Authority(missing == 0 && issues == [], issues, missing)
  }

  lemma AuthorityMeans(profile: Option<string>, pgConfigured: bool, storageReady: bool)
    ensures
      var a := AuthorityOf(profile, pgConfigured, storageReady);
      && (a.passed <==> a.issues == [])
      && (a.passed <==> AuthorityOk(profile, pgConfigured, storageReady))
  {
    assert |"local-dev"| == 9 && |"single-node-durable"| == 19 && |"production-shared"| == 17 && |""| == 0;
  }

  // ---------------------------------------------------------------- the production packet

  datatype Benchmarks = Benchmarks(obsAge: real, obsMaxAge: real, haAge: real, haMaxAge: real)

  datatype PacketIssue = ObsPart(obs: ObsIssue) | HaPart(ha: HaPacketIssue) | AuthorityPart(authority: AuthorityIssue)
                       | ObsBenchmarkStale | HaBenchmarkStale

  datatype Packet = Packet(
    repoReady: bool, inputsComplete: bool, benchmarksFresh: bool, gatePassed: bool, state: State, issues: seq<PacketIssue>)

  function Tag<T, U>(items: seq<T>, f: T -> U): (r: seq<U>)
    ensures r == [] <==> items == []
  {
    if items == [] then [] else Tag(items[..|items| - 1], f) + [f(items[|items| - 1])]
  }

  function FreshnessIssues(b: Benchmarks): seq<PacketIssue> {
    (if b.obsAge > b.obsMaxAge then [ObsBenchmarkStale] else [])
    + if b.haAge > b.haMaxAge then [HaBenchmarkStale] else []
  }

  datatype Inputs = Inputs(
    obs: ObsWorld, ha: Ha.World, repo: RepoInput, profile: Option<string>, pgConfigured: bool, storageReady: bool,
    benchmarks: Benchmarks)

  /** `renderProductionReadinessPacket`, where it returns. */
  function PacketOf(i: Inputs): Result<Packet, ObsError> {
    var repo := ResolveRepo(i.repo);
    match ObsPacketOf(i.obs, repo)
    case Err(e) => Err(e)
    case Ok(obs) =>
      var ha := HaPacketOf(i.ha, repo);
      var authority := AuthorityOf(i.profile, i.pgConfigured, i.storageReady);
      var stale := FreshnessIssues(i.benchmarks);
      var issues := Distinct(
        Tag(obs.issues, x => ObsPart(x)) + Tag(ha.issues, x => HaPart(x))
        + Tag(authority.issues, x => AuthorityPart(x)) + stale);
      var complete := obs.inputsComplete && ha.inputsComplete && authority.passed;
      var repoReady := obs.repoReady && ha.repoReady;
      var passed := obs.gatePassed && ha.gatePassed && authority.passed;
      Ok(Packet(
        repoReady, complete, stale == [], passed,
        if repoReady && complete && stale == [] && passed then Ready else Blocked, issues))
  }

  /**
   Through the whole tree and for every input, ready and an empty list of issues are the same thing; and both
   mean a ready repository, a clean and reachable environment whose bundles render, a routing probe that
   passes, a durable runtime authority and fresh benchmarks.
   */
  lemma ReadyMeansNoIssues(i: Inputs)
    requires PacketOf(i).Ok?
    ensures
      var p := PacketOf(i).value;
      && (p.state == Ready <==> p.issues == [])
      && (p.state == Ready <==>
          && ResolveRepo(i.repo).ready
          && ObsEnvOk(i.obs) && i.obs.bundleRenders && ReceiversOk(i.obs) && AlertProbe(AlertEnv(i.obs.alert)) == Ok(true)
          && ObsMissing(i.obs) == []
          && Ha.EnvOk(i.ha) && Ha.Reachable(i.ha) && i.ha.bundleRenders && Ha.MissingInputs(i.ha) == []
          && AuthorityOk(i.profile, i.pgConfigured, i.storageReady)
          && i.benchmarks.obsAge <= i.benchmarks.obsMaxAge && i.benchmarks.haAge <= i.benchmarks.haMaxAge)
  {
    hide ObsPacketOf, HaPacketOf, AuthorityOf, ResolveRepo, Distinct, Tag, ObsEnvOk, ReceiversOk, AlertProbe,
      ObsMissing, Ha.EnvOk, Ha.Reachable, Ha.MissingInputs, AuthorityOk;
    ObsPacketMeans(i.obs, i.repo);
    HaPacketMeans(i.ha, i.repo);
    AuthorityMeans(i.profile, i.pgConfigured, i.storageReady);
  }

  /** On alert settings that do not pass for structure, ready means in particular that alerts reach someone. */
  lemma ReadyMeansCovered(i: Inputs)
    requires PacketOf(i).Ok? && PacketOf(i).value.issues == []
    requires AlertStrays.Unsectioned(Rendered.Lead(AlertEnv(i.obs.alert))) && Rendered.Tame(AlertEnv(i.obs.alert))
    ensures Rendered.Covered(AlertEnv(i.obs.alert))
  {
    hide *;
    ReadyMeansNoIssues(i);
    AlertProbeMeans(AlertEnv(i.obs.alert));
  }

  // ---------------------------------------------------------------- the issues, one by one

  lemma AddIs(issues: seq<ObsIssue>, condition: bool, i: ObsIssue)
    ensures Add(issues, condition, i) == issues + Given(condition, i)
  {
  }

  /** Given directly or by a companion, whatever that holds. */
  predicate Present(s: Setting) {
    s.direct.Some? || s.viaFile
  }

  predicate HoldsText(s: Setting) {
    s.direct.Some? || (s.viaFile && s.text.Some?)
  }

  /** Which issues the probe raises on its inputs, in order. */
  lemma ObsEnvIssuesMean(o: ObsWorld)
    ensures ObsEnvIssues(o) ==
      var grafana := o.provider == GrafanaCloud || o.provider == GrafanaAlloy;
      Given(grafana && !HoldsText(o.endpoint), NeedsEndpoint) + Given(grafana && !HoldsText(o.username), NeedsUsername)
      + Given(grafana && !HoldsText(o.token), NeedsToken) + Given(o.probeUsesExternalSecret && !o.storeSet, NeedsStore)
  {
    hide Add, Given;
    forall issues, c, i ensures Add(issues, c, i) == issues + Given(c, i) { AddIs(issues, c, i); }
    var first := Given(Grafana(o) && !Readable(o.endpoint), NeedsEndpoint);
    assert [] + first == first;
  }

  /** The inputs still to be named, in order: who takes the alerts matters only in production. */
  function ObsMissingReport(o: ObsWorld): seq<ObsIssue> {
    var grafana, a := o.provider == GrafanaCloud || o.provider == GrafanaAlloy, o.alert;
    Given(grafana && !Present(o.endpoint), EndpointMissing) + Given(grafana && !Present(o.username), UsernameMissing)
    + Given(grafana && !Present(o.token), TokenMissing)
    + Given(a.productionMode
            && !(Present(a.defaultWebhook) || (Present(a.defaultSlackWebhook) && Present(a.defaultSlackChannel)) || Present(a.emailTo)),
            DefaultTargetMissing)
    + Given(a.productionMode && !(Present(a.criticalWebhook) || Present(a.criticalPagerDutyKey) || Present(a.emailTo)), CriticalTargetMissing)
    + Given(a.productionMode
            && !(Present(a.warningWebhook) || (Present(a.warningSlackWebhook) && Present(a.warningSlackChannel)) || Present(a.emailTo)),
            WarningTargetMissing)
    + Given(o.packetUsesExternalSecret && !o.storeSet, StoreMissing)
  }

  lemma NamedIsPresent(s: Setting)
    ensures Named(s) <==> Present(s)
  {
  }

  /** Which inputs the packet lists as missing, in order. */
  lemma ObsMissingMean(o: ObsWorld)
    ensures ObsMissing(o) == ObsMissingReport(o)
  {
    hide Add, Given, Named, Present;
    forall s: Setting ensures Named(s) <==> Present(s) { NamedIsPresent(s); }
    forall issues, c, i ensures Add(issues, c, i) == issues + Given(c, i) { AddIs(issues, c, i); }
    var first := Given(Grafana(o) && !Named(o.endpoint), EndpointMissing);
    assert [] + first == first;
  }

  /** The issues of the two packets and of the whole: each of its parts', and no other. */
  lemma HaPacketIssuesMean(w: Ha.World, repo: Repo, x: HaPacketIssue)
    ensures x in HaPacketOf(w, repo).issues <==>
      match x
      case ProbeIssue(i) => i in Ha.Probe(w).issues
      case StillMissing(v) => v in Ha.MissingInputs(w)
      case RepoInputMissing => repo.missingInput
      case RepoIssue => repo.issue
  {
    hide Ha.Probe, Ha.MissingInputs;
    ProbeIssuesHold(Ha.Probe(w).issues, x);
    MissingIssuesHold(Ha.MissingInputs(w), x);
  }

  lemma {:induction false} ProbeIssuesHold(issues: seq<Ha.Issue>, x: HaPacketIssue)
    ensures x in ProbeIssues(issues) <==> x.ProbeIssue? && x.i in issues
  {
    if issues != [] {
      ProbeIssuesHold(issues[..|issues| - 1], x);
      assert issues == issues[..|issues| - 1] + [issues[|issues| - 1]];
    }
  }

  lemma {:induction false} MissingIssuesHold(vs: seq<Ha.Var>, x: HaPacketIssue)
    ensures x in MissingIssues(vs) <==> x.StillMissing? && x.v in vs
  {
    if vs != [] {
      MissingIssuesHold(vs[..|vs| - 1], x);
      assert vs == vs[..|vs| - 1] + [vs[|vs| - 1]];
    }
  }

  lemma ObsPacketIssuesMean(o: ObsWorld, repo: Repo, x: ObsIssue)
    requires ProbeObs(o).Ok?
    ensures ObsPacketOf(o, repo).Ok?
    ensures x in ObsPacketOf(o, repo).value.issues <==>
      || x in ProbeObs(o).value.issues || x in ObsMissing(o)
      || (x == ObsRepoInputMissing && repo.missingInput) || (x == ObsRepoIssue && repo.issue)
  {
    hide ProbeObs, ObsMissing;
  }

  lemma {:induction false} TagHolds<T, U>(items: seq<T>, f: T -> U, x: U)
    ensures x in Tag(items, f) <==> exists item :: item in items && x == f(item)
  {
    if items != [] {
      var init, last := items[..|items| - 1], items[|items| - 1];
      assert items == init + [last];
      TagHolds(init, f, x);
    }
  }

  lemma PacketIssuesMean(i: Inputs, x: PacketIssue)
    requires PacketOf(i).Ok?
    ensures ObsPacketOf(i.obs, ResolveRepo(i.repo)).Ok?
    ensures x in PacketOf(i).value.issues <==>
      match x
      case ObsPart(part) => part in ObsPacketOf(i.obs, ResolveRepo(i.repo)).value.issues
      case HaPart(part) => part in HaPacketOf(i.ha, ResolveRepo(i.repo)).issues
      case AuthorityPart(part) => part in AuthorityOf(i.profile, i.pgConfigured, i.storageReady).issues
      case ObsBenchmarkStale => i.benchmarks.obsAge > i.benchmarks.obsMaxAge
      case HaBenchmarkStale => i.benchmarks.haAge > i.benchmarks.haMaxAge
  {
    hide ObsPacketOf, HaPacketOf, AuthorityOf, ResolveRepo, Tag;
    var obs, ha := ObsPacketOf(i.obs, ResolveRepo(i.repo)).value, HaPacketOf(i.ha, ResolveRepo(i.repo));
    var authority := AuthorityOf(i.profile, i.pgConfigured, i.storageReady);
    TagHolds(obs.issues, p => ObsPart(p), x);
    TagHolds(ha.issues, p => HaPart(p), x);
    TagHolds(authority.issues, p => AuthorityPart(p), x);
  }

  /** What the runtime authority reports of profile and storage. */
  lemma AuthorityIssuesMean(profile: Option<string>, pgConfigured: bool, storageReady: bool, x: AuthorityIssue)
    ensures x in AuthorityOf(profile, pgConfigured, storageReady).issues <==>
      match x
      case ProfileRequired => profile.None? || profile.value == ""
      case ProfileUnsupported =>
        profile.Some? && profile.value != "" && profile.value !in ["local-dev", "single-node-durable", "production-shared"]
      case LocalDev => profile == Some("local-dev")
      case AuthorityUrlRequired => profile == Some("production-shared") && !pgConfigured
      case StorageNotShared => profile == Some("production-shared") && !storageReady
  {
    assert |"local-dev"| == 9 && |"single-node-durable"| == 19 && |"production-shared"| == 17 && |""| == 0;
  }

  predicate Answers(receiver: Option<bool>) {
    receiver.None? || receiver.value
  }

  /** The probe's flags and issues: each later one is asked only where the earlier ones hold. */
  lemma ObsProbeReports(o: ObsWorld)
    requires ProbeObs(o).Ok?
    ensures
      var s, clean, routed := ProbeObs(o).value, ObsEnvIssues(o) == [], AlertProbe(AlertEnv(o.alert)) == Ok(true);
      var rendered, received := clean && o.bundleRenders, o.flushed && Answers(o.prometheus) && Answers(o.alertmanager);
      && (s.rendered <==> rendered) && (s.receiversPassed <==> rendered && received) && (s.routingPassed <==> rendered && routed)
      && s.issues ==
           ObsEnvIssues(o) + Given(clean && !o.bundleRenders, ObsRenderFailed)
           + Given(rendered && !received, ReceiversFailed) + Given(rendered && !routed, AlertRoutingFailed)
      && (s.envComplete <==> s.issues == [])
  {
    hide ObsEnvIssues, AlertProbe;
  }

  /** The fields of the two packets and of the whole. */
  lemma HaPacketReports(w: Ha.World, repo: Repo)
    ensures
      var p, probe, missing := HaPacketOf(w, repo), Ha.Probe(w), Ha.MissingInputs(w);
      && p.repoReady == repo.ready
      && (p.inputsComplete <==> |missing| == 0 && !repo.missingInput && probe.envComplete)
      && (p.gatePassed <==> probe.bundleRendered && probe.connectivityPassed)
      && p.missingCount == |missing| + |Given(repo.missingInput, RepoInputMissing)|
      && p.state == if repo.ready && p.inputsComplete && p.gatePassed then Ready else Blocked
  {
    hide Ha.Probe, Ha.MissingInputs, ProbeIssues, MissingIssues, Distinct;
  }

  lemma ObsPacketReports(o: ObsWorld, repo: Repo)
    requires ProbeObs(o).Ok?
    ensures ObsPacketOf(o, repo).Ok?
    ensures
      var p, probe := ObsPacketOf(o, repo).value, ProbeObs(o).value;
      && p.repoReady == repo.ready
      && p.missing == ObsMissing(o) + Given(repo.missingInput, ObsRepoInputMissing)
      && (p.inputsComplete <==> |p.missing| == 0 && probe.envComplete)
      && (p.gatePassed <==> probe.rendered && probe.receiversPassed && probe.routingPassed)
      && p.state == if repo.ready && p.inputsComplete && p.gatePassed then Ready else Blocked
  {
    hide ProbeObs, ObsMissing, Distinct;
  }

  lemma PacketReports(i: Inputs)
    requires PacketOf(i).Ok?
    ensures ObsPacketOf(i.obs, ResolveRepo(i.repo)).Ok?
    ensures
      var p, obs, ha := PacketOf(i).value, ObsPacketOf(i.obs, ResolveRepo(i.repo)).value, HaPacketOf(i.ha, ResolveRepo(i.repo));
      var authority := |AuthorityOf(i.profile, i.pgConfigured, i.storageReady).issues| == 0;
      && (p.repoReady <==> obs.repoReady && ha.repoReady)
      && (p.inputsComplete <==> obs.inputsComplete && ha.inputsComplete && authority)
      && (p.gatePassed <==> obs.gatePassed && ha.gatePassed && authority)
      && (p.benchmarksFresh <==> i.benchmarks.obsAge <= i.benchmarks.obsMaxAge && i.benchmarks.haAge <= i.benchmarks.haMaxAge)
      && p.state == if p.repoReady && p.inputsComplete && p.benchmarksFresh && p.gatePassed then Ready else Blocked
  {
    hide ObsPacketOf, HaPacketOf, AuthorityOf, ResolveRepo, Tag, Distinct, AuthorityOk;
    AuthorityMeans(i.profile, i.pgConfigured, i.storageReady);
  }

  /** How many inputs the runtime authority counts as missing. */
  lemma AuthorityMissing(profile: Option<string>, pgConfigured: bool, storageReady: bool)
    ensures AuthorityOf(profile, pgConfigured, storageReady).missingCount ==
      |Given(profile.None? || profile.value == "", 0) + Given(profile == Some("production-shared") && !pgConfigured, 1)
       + Given(profile == Some("production-shared") && !storageReady, 2)|
  {
    assert |"local-dev"| == 9 && |"single-node-durable"| == 19 && |"production-shared"| == 17 && |""| == 0;
  }

  /** What is read for a setting: its own text, or else that of its file. */
  predicate ReadFrom(read: Option<string>, s: Setting) {
    if s.direct.Some? then read == s.direct else read == if s.viaFile then s.text else None
  }

  /** The renderer's environment, setting by setting. */
  lemma AlertEnvReads(a: AlertSettings)
    ensures
      var e := AlertEnv(a);
      && ReadFrom(e.defaultWebhook, a.defaultWebhook) && ReadFrom(e.defaultSlackWebhook, a.defaultSlackWebhook)
      && ReadFrom(e.defaultSlackChannel, a.defaultSlackChannel) && ReadFrom(e.criticalWebhook, a.criticalWebhook)
      && ReadFrom(e.criticalPagerDutyKey, a.criticalPagerDutyKey) && ReadFrom(e.warningWebhook, a.warningWebhook)
      && ReadFrom(e.warningSlackWebhook, a.warningSlackWebhook) && ReadFrom(e.warningSlackChannel, a.warningSlackChannel)
      && ReadFrom(e.securityWebhook, a.securityWebhook) && ReadFrom(e.billingWebhook, a.billingWebhook)
      && ReadFrom(e.emailTo, a.emailTo) && ReadFrom(e.emailFrom, a.emailFrom) && ReadFrom(e.smarthost, a.smarthost)
      && ReadFrom(e.smtpAuthUsername, a.smtpAuthUsername) && ReadFrom(e.smtpAuthPassword, a.smtpAuthPassword)
      && e.productionMode == a.productionMode
  {
  }
}
