/**
 The high-availability release inputs: the environment checks, the connectivity probe they unlock, and
 the packet's own list of missing inputs.

 Reading files, URL parsing, the format tests on single values, the network and the spawned renderer are
 functions or flags of a `World`.
 */
module HaReadiness {
  import opened Wrappers
  import opened Text

  datatype Provider = Generic | Aws | Gke

  datatype Var =
    | ApiImage | WorkerImage | PublicHostname | RedisUrl | ControlPlanePg | BillingLedgerPg | RuntimePg
    | RuntimeProfile | ReleaseAuthorityPg | PkiPath | PkiSharedPath | PkiStorageClass
    | AdminKey | MetricsKey | MfaKey | CookieSecure | StripeMock | OidcInsecure | EmailMode | SmtpIgnoreTls
    | StripeKey | StripeSecret | PricePilot | PriceStarter | PricePro | OverageStarter | OveragePro
    | SuccessUrl | CancelUrl | PortalUrl | PublicBaseUrl
    | OidcIssuer | OidcClient | OidcStateKey
    | SamlXml | SamlPath | SamlRelayKey | SamlSign | SamlSpKey | SamlSpCert
    | AlbCertificates | ClusterIssuer | TlsCert | TlsKey | TlsMode
    | SecretMode | SecretStore | StoreKind | RefreshInterval | CreationPolicy | DeletionPolicy

  /** A variable, or its companion with `_FILE` at the end. */
  datatype Name = Direct(v: Var) | FileOf(v: Var)

  datatype World = World(
    env: map<Name, string>, file: string -> string, provider: Provider,
    pinnedImage: string -> bool, storageClass: string -> bool, interval: string -> bool,
    hostname: string -> bool, imageRef: string -> bool, certificate: string -> bool, privateKey: string -> bool,
    acmArns: string -> bool, protocol: string -> Option<string>,
    redisUrl: Option<string>, redisUp: string -> bool, pgUp: string -> bool, bundleRenders: bool)

  datatype Check = HostnameCheck | ImagesCheck | RedisCheck | ControlPlaneCheck | BillingCheck | RuntimePgCheck
                 | ProfileCheck | ReleaseAuthorityCheck | TlsCheck

  datatype Issue = Required(v: Var) | NotValid(v: Var) | NotAllowed(v: Var) | Connectivity(check: Check) | RenderFailed

  // ---------------------------------------------------------------- reading the environment

  function Value(w: World, n: Name): Option<string> {
    if n in w.env && Trim(w.env[n]) != "" then Some(Trim(w.env[n])) else None
  }

  function Get(w: World, v: Var): Option<string> {
    Value(w, Direct(v))
  }

  predicate IsSet(w: World, v: Var) {
    Get(w, v).Some?
  }

  /** `envOrFile`: the variable, else the trimmed contents of the file its companion names. */
  function GetOrFile(w: World, v: Var): Option<string> {
    if IsSet(w, v) then Get(w, v)
    else match Value(w, FileOf(v))
      case None => None
      case Some(path) => if Trim(w.file(path)) != "" then Some(Trim(w.file(path))) else None
  }

  predicate YesWord(s: string) {
    Lower(s) in ["1", "true", "yes", "on"]
  }

  /** `envTruthy` looks at the value as it is, without trimming. */
  predicate Truthy(w: World, v: Var) {
    Direct(v) in w.env && YesWord(w.env[Direct(v)])
  }

  function Tls(w: World): string {
    match Get(w, TlsMode)
    case None => "secret"
    case Some(mode) => mode
  }

  // ---------------------------------------------------------------- single checks

  function When(condition: bool, i: Issue): Option<Issue> {
    if condition then Some(i) else None
  }

  function Add(issues: seq<Issue>, i: Option<Issue>): (r: seq<Issue>)
    ensures r == [] <==> issues == [] && i.None?
  {
    if i.Some? then issues + [i.value] else issues
  }

  function Needs(w: World, v: Var): Option<Issue> {
    When(!IsSet(w, v), Required(v))
  }

  function NeedsOrFile(w: World, v: Var): Option<Issue> {
    When(GetOrFile(w, v).None?, Required(v))
  }

  predicate Fits(w: World, v: Var, test: string -> bool) {
    IsSet(w, v) && test(Get(w, v).value)
  }

  function NeedsFit(w: World, v: Var, test: string -> bool): Option<Issue> {
    if !IsSet(w, v) then Some(Required(v)) else When(!test(Get(w, v).value), NotValid(v))
  }

  predicate IsHttps(w: World, v: Var) {
    IsSet(w, v) && w.protocol(Get(w, v).value) == Some("https:")
  }

  function NeedsHttps(w: World, v: Var): Option<Issue> {
    if !IsSet(w, v) then Some(Required(v)) else When(!IsHttps(w, v), NotValid(v))
  }

  const PROFILES := ["local-dev", "single-node-durable", "production-shared"]

  predicate Shared(w: World) {
    Get(w, RuntimeProfile) == Some("production-shared")
  }

  predicate ProfileOk(w: World) {
    && Get(w, RuntimeProfile) in [Some("single-node-durable"), Some("production-shared")]
    && (Shared(w) ==> IsSet(w, ReleaseAuthorityPg))
  }

  function ProfileIssue(w: World): Option<Issue> {
    match Get(w, RuntimeProfile)
    case None => Some(Required(RuntimeProfile))
    case Some(profile) =>
      if profile !in PROFILES then Some(NotValid(RuntimeProfile))
      else if profile == "local-dev" then Some(NotAllowed(RuntimeProfile))
      else if profile == "production-shared" then Needs(w, ReleaseAuthorityPg)
      else None
  }

  predicate Public(w: World) {
    IsSet(w, PublicHostname)
  }

  predicate NoWord(w: World) {
    IsSet(w, CookieSecure) && Lower(Get(w, CookieSecure).value) in ["0", "false", "no"]
  }

  predicate InsecureSmtp(w: World) {
    IsSet(w, EmailMode) && Lower(Get(w, EmailMode).value) == "smtp" && Truthy(w, SmtpIgnoreTls)
  }

  predicate Oidc(w: World) {
    IsSet(w, OidcIssuer) && IsSet(w, OidcClient)
  }

  predicate Saml(w: World) {
    IsSet(w, SamlXml) || IsSet(w, SamlPath)
  }

  predicate ExternalSecrets(w: World) {
    Get(w, SecretMode) == Some("external-secret") || Tls(w) == "external-secret"
  }

  predicate OneOf(w: World, v: Var, allowed: seq<string>) {
    IsSet(w, v) ==> Get(w, v).value in allowed
  }

  // ---------------------------------------------------------------- the environment checks, in order

  class IssueList {
    var items: seq<Issue>

    constructor ()
      ensures items == []
    {
      items := [];
    }

    method Report(i: Option<Issue>)
      modifies this
      ensures items == Add(old(items), i)
    {
      if i.Some? {
        items := items + [i.value];
      }
    }

    method ReportAll(more: seq<Issue>)
      modifies this
      ensures items == old(items) + more
    {
      items := items + more;
    }
  }

  function CoreIssues(w: World, b: seq<Issue>): seq<Issue> {
    var images := Add(Add(b, NeedsFit(w, ApiImage, w.pinnedImage)), NeedsFit(w, WorkerImage, w.pinnedImage));
    var stores := Add(Add(Add(Add(images, Needs(w, PublicHostname)), Needs(w, RedisUrl)), Needs(w, ControlPlanePg)),
                      Needs(w, BillingLedgerPg));
    Add(stores, ProfileIssue(w))
  }

  function KeyIssues(w: World, b: seq<Issue>): seq<Issue> {
    var pki := Add(Add(Add(b, Needs(w, PkiPath)), When(!Truthy(w, PkiSharedPath), Required(PkiSharedPath))),
                   NeedsFit(w, PkiStorageClass, w.storageClass));
    Add(Add(Add(pki, Needs(w, AdminKey)), Needs(w, MetricsKey)), Needs(w, MfaKey))
  }

  function PublicFlagIssues(w: World, b: seq<Issue>): seq<Issue> {
    var cookie := Add(b, When(Public(w) && NoWord(w), NotAllowed(CookieSecure)));
    var mock := Add(cookie, When(Public(w) && Truthy(w, StripeMock), NotAllowed(StripeMock)));
    var oidc := Add(mock, When(Public(w) && Truthy(w, OidcInsecure), NotAllowed(OidcInsecure)));
    Add(oidc, When(Public(w) && InsecureSmtp(w), NotAllowed(SmtpIgnoreTls)))
  }

  function BillingIssues(w: World, b: seq<Issue>): seq<Issue> {
    if !Public(w) then b else
    var stripe := Add(Add(b, Needs(w, StripeKey)), Needs(w, StripeSecret));
    var prices := Add(Add(Add(stripe, Needs(w, PricePilot)), Needs(w, PriceStarter)), Needs(w, PricePro));
    var overages := Add(Add(prices, Needs(w, OverageStarter)), Needs(w, OveragePro));
    Add(Add(Add(overages, NeedsHttps(w, SuccessUrl)), NeedsHttps(w, CancelUrl)), NeedsHttps(w, PortalUrl))
  }

  function SignInIssues(w: World, b: seq<Issue>): seq<Issue> {
    var base := Add(b, When(Public(w) && IsSet(w, PublicBaseUrl) && !IsHttps(w, PublicBaseUrl), NotValid(PublicBaseUrl)));
    var oidc := if Oidc(w) then Add(base, Needs(w, OidcStateKey)) else base;
    if !Saml(w) then oidc else
    var saml := Add(oidc, Needs(w, SamlRelayKey));
    if Truthy(w, SamlSign) then Add(Add(saml, NeedsOrFile(w, SamlSpKey)), NeedsOrFile(w, SamlSpCert)) else saml
  }

  function TlsIssues(w: World, b: seq<Issue>): seq<Issue> {
    var acm := if w.provider == Aws && Tls(w) == "aws-acm" then Add(b, Needs(w, AlbCertificates)) else b;
    var issuer := if w.provider == Gke && Tls(w) == "cert-manager" then Add(acm, Needs(w, ClusterIssuer)) else acm;
    if Tls(w) == "secret" then Add(Add(issuer, NeedsOrFile(w, TlsCert)), NeedsOrFile(w, TlsKey)) else issuer
  }

  function SecretIssues(w: World, b: seq<Issue>): seq<Issue> {
    var store := if ExternalSecrets(w) then Add(b, Needs(w, SecretStore)) else b;
    var kind := Add(store, When(!OneOf(w, StoreKind, ["ClusterSecretStore", "SecretStore"]), NotValid(StoreKind)));
    var every := Add(kind, When(IsSet(w, RefreshInterval) && !w.interval(Get(w, RefreshInterval).value), NotValid(RefreshInterval)));
    var create := Add(every, When(!OneOf(w, CreationPolicy, ["Owner", "Orphan", "Merge", "None"]), NotValid(CreationPolicy)));
    Add(create, When(!OneOf(w, DeletionPolicy, ["Retain", "Merge", "Delete"]), NotValid(DeletionPolicy)))
  }

  function EnvIssues(w: World): seq<Issue> {
    SecretIssues(w, TlsIssues(w, SignInIssues(w, BillingIssues(w, PublicFlagIssues(w, KeyIssues(w, CoreIssues(w, [])))))))
  }

  method CheckCore(w: World, issues: IssueList)
    modifies issues
    ensures issues.items == CoreIssues(w, old(issues.items))
  {
    hide NeedsFit, Needs, ProfileIssue, Add;
    issues.Report(NeedsFit(w, ApiImage, w.pinnedImage));
    issues.Report(NeedsFit(w, WorkerImage, w.pinnedImage));
    issues.Report(Needs(w, PublicHostname));
    issues.Report(Needs(w, RedisUrl));
    issues.Report(Needs(w, ControlPlanePg));
    issues.Report(Needs(w, BillingLedgerPg));
    issues.Report(ProfileIssue(w));
  }

  method CheckKeys(w: World, issues: IssueList)
    modifies issues
    ensures issues.items == KeyIssues(w, old(issues.items))
  {
    hide NeedsFit, Needs, Truthy, Add;
    issues.Report(Needs(w, PkiPath));
    issues.Report(When(!Truthy(w, PkiSharedPath), Required(PkiSharedPath)));
    issues.Report(NeedsFit(w, PkiStorageClass, w.storageClass));
    issues.Report(Needs(w, AdminKey));
    issues.Report(Needs(w, MetricsKey));
    issues.Report(Needs(w, MfaKey));
  }

  method CheckPublicFlags(w: World, issues: IssueList)
    modifies issues
    ensures issues.items == PublicFlagIssues(w, old(issues.items))
  {
    hide Truthy, Add, NoWord, InsecureSmtp, Public;
    issues.Report(When(Public(w) && NoWord(w), NotAllowed(CookieSecure)));
    issues.Report(When(Public(w) && Truthy(w, StripeMock), NotAllowed(StripeMock)));
    issues.Report(When(Public(w) && Truthy(w, OidcInsecure), NotAllowed(OidcInsecure)));
    issues.Report(When(Public(w) && InsecureSmtp(w), NotAllowed(SmtpIgnoreTls)));
  }

  method CheckBilling(w: World, issues: IssueList)
    modifies issues
    ensures issues.items == BillingIssues(w, old(issues.items))
  {
    hide Needs, NeedsHttps, Add, Public;
    if Public(w) {
      issues.Report(Needs(w, StripeKey));
      issues.Report(Needs(w, StripeSecret));
      issues.Report(Needs(w, PricePilot));
      issues.Report(Needs(w, PriceStarter));
      issues.Report(Needs(w, PricePro));
      issues.Report(Needs(w, OverageStarter));
      issues.Report(Needs(w, OveragePro));
      issues.Report(NeedsHttps(w, SuccessUrl));
      issues.Report(NeedsHttps(w, CancelUrl));
      issues.Report(NeedsHttps(w, PortalUrl));
    }
  }

  method CheckSignIn(w: World, issues: IssueList)
    modifies issues
    ensures issues.items == SignInIssues(w, old(issues.items))
  {
    hide Needs, NeedsOrFile, IsHttps, Add, Public, Oidc, Saml, Truthy;
    issues.Report(When(Public(w) && IsSet(w, PublicBaseUrl) && !IsHttps(w, PublicBaseUrl), NotValid(PublicBaseUrl)));
    if Oidc(w) {
      issues.Report(Needs(w, OidcStateKey));
    }
    if Saml(w) {
      issues.Report(Needs(w, SamlRelayKey));
      if Truthy(w, SamlSign) {
        issues.Report(NeedsOrFile(w, SamlSpKey));
        issues.Report(NeedsOrFile(w, SamlSpCert));
      }
    }
  }

  method CheckTls(w: World, issues: IssueList)
    modifies issues
    ensures issues.items == TlsIssues(w, old(issues.items))
  {
    hide Needs, NeedsOrFile, Add, Tls;
    if w.provider == Aws && Tls(w) == "aws-acm" {
      issues.Report(Needs(w, AlbCertificates));
    }
    if w.provider == Gke && Tls(w) == "cert-manager" {
      issues.Report(Needs(w, ClusterIssuer));
    }
    if Tls(w) == "secret" {
      issues.Report(NeedsOrFile(w, TlsCert));
      issues.Report(NeedsOrFile(w, TlsKey));
    }
  }

  method CheckSecrets(w: World, issues: IssueList)
    modifies issues
    ensures issues.items == SecretIssues(w, old(issues.items))
  {
    hide Needs, Add, ExternalSecrets, OneOf;
    if ExternalSecrets(w) {
      issues.Report(Needs(w, SecretStore));
    }
    issues.Report(When(!OneOf(w, StoreKind, ["ClusterSecretStore", "SecretStore"]), NotValid(StoreKind)));
    var badInterval := IsSet(w, RefreshInterval) && !w.interval(Get(w, RefreshInterval).value);
    issues.Report(When(badInterval, NotValid(RefreshInterval)));
    issues.Report(When(!OneOf(w, CreationPolicy, ["Owner", "Orphan", "Merge", "None"]), NotValid(CreationPolicy)));
    issues.Report(When(!OneOf(w, DeletionPolicy, ["Retain", "Merge", "Delete"]), NotValid(DeletionPolicy)));
  }

  // ---------------------------------------------------------------- connectivity

  predicate Up(url: Option<string>, probe: string -> bool) {
    url.Some? && probe(url.value)
  }

  predicate TlsValid(w: World) {
    if Tls(w) == "secret" || Tls(w) == "external-secret" then
      && GetOrFile(w, TlsCert).Some? && w.certificate(GetOrFile(w, TlsCert).value)
      && GetOrFile(w, TlsKey).Some? && w.privateKey(GetOrFile(w, TlsKey).value)
    else if Tls(w) == "cert-manager" then IsSet(w, ClusterIssuer)
    else if Tls(w) == "aws-acm" then Fits(w, AlbCertificates, w.acmArns)
    else false
  }

  predicate ProfileValid(w: World) {
    Get(w, RuntimeProfile) in [Some("single-node-durable"), Some("production-shared")]
  }

  function ConnectivityIssues(w: World): seq<Issue> {
    var b0 := Add([], When(!Fits(w, PublicHostname, w.hostname), Connectivity(HostnameCheck)));
    var b1 := Add(b0, When(!Fits(w, ApiImage, w.imageRef) || !Fits(w, WorkerImage, w.imageRef), Connectivity(ImagesCheck)));
    var b2 := Add(b1, When(!Up(w.redisUrl, w.redisUp), Connectivity(RedisCheck)));
    var b3 := Add(b2, When(!Up(Get(w, ControlPlanePg), w.pgUp), Connectivity(ControlPlaneCheck)));
    var b4 := Add(b3, When(!Up(Get(w, BillingLedgerPg), w.pgUp), Connectivity(BillingCheck)));
    var b5 := Add(b4, When(IsSet(w, RuntimePg) && !Up(Get(w, RuntimePg), w.pgUp), Connectivity(RuntimePgCheck)));
    var b6 := Add(b5, When(!ProfileValid(w), Connectivity(ProfileCheck)));
    var authorityDown := !Up(Get(w, ReleaseAuthorityPg), w.pgUp);
    var b7 := Add(b6, When(Shared(w) && authorityDown, Connectivity(ReleaseAuthorityCheck)));
    var b8 := Add(b7, When(!Shared(w) && IsSet(w, ReleaseAuthorityPg) && authorityDown, Connectivity(ReleaseAuthorityCheck)));
    Add(b8, When(!TlsValid(w), Connectivity(TlsCheck)))
  }

  predicate Reachable(w: World) {
    && Fits(w, PublicHostname, w.hostname)
    && Fits(w, ApiImage, w.imageRef) && Fits(w, WorkerImage, w.imageRef)
    && Up(w.redisUrl, w.redisUp)
    && Up(Get(w, ControlPlanePg), w.pgUp) && Up(Get(w, BillingLedgerPg), w.pgUp)
    && (IsSet(w, RuntimePg) ==> Up(Get(w, RuntimePg), w.pgUp))
    && ProfileValid(w)
    && (Shared(w) || IsSet(w, ReleaseAuthorityPg) ==> Up(Get(w, ReleaseAuthorityPg), w.pgUp))
    && TlsValid(w)
  }

  lemma ConnectivityMeans(w: World)
    ensures ConnectivityIssues(w) == [] <==> Reachable(w)
  {
    hide Fits, Up, TlsValid, ProfileValid, Shared;
  }

  // ---------------------------------------------------------------- the release probe

  datatype ProbeSummary = ProbeSummary(
    envComplete: bool, bundleRendered: bool, connectivityPassed: bool, issues: seq<Issue>)

  function Probe(w: World): ProbeSummary {
    if EnvIssues(w) != [] then ProbeSummary(false, false, false, EnvIssues(w))
    else
      var connected := ConnectivityIssues(w);
      var issues := Add(connected, When(!w.bundleRenders, RenderFailed));
      ProbeSummary(issues == [], w.bundleRenders, connected == [], issues)
  }

  /** `probeHaReleaseInputs`: the environment first; only a clean one is probed and rendered. */
  method RunProbe(w: World) returns (s: ProbeSummary)
    ensures s == Probe(w)
  {
    hide CoreIssues, KeyIssues, PublicFlagIssues, BillingIssues, SignInIssues, TlsIssues, SecretIssues, ConnectivityIssues;
    var issues := new IssueList();
    CheckCore(w, issues);
    CheckKeys(w, issues);
    CheckPublicFlags(w, issues);
    CheckBilling(w, issues);
    CheckSignIn(w, issues);
    CheckTls(w, issues);
    CheckSecrets(w, issues);
    var rendered, connected := false, false;
    if |issues.items| == 0 {
      var failures := ConnectivityIssues(w);
      connected := failures == [];
      if !connected {
        issues.ReportAll(failures);
      }
      rendered := w.bundleRenders;
      if !rendered {
        issues.Report(Some(RenderFailed));
      }
    }
    s := ProbeSummary(|issues.items| == 0, rendered, connected, issues.items);
  }

  // ---------------------------------------------------------------- what a clean environment is

  predicate AllSet(w: World, vs: seq<Var>) {
    forall i :: 0 <= i < |vs| ==> IsSet(w, vs[i])
  }

  const ALWAYS := [PublicHostname, RedisUrl, ControlPlanePg, BillingLedgerPg, PkiPath, AdminKey, MetricsKey, MfaKey,
                   StripeKey, StripeSecret, PricePilot, PriceStarter, PricePro, OverageStarter, OveragePro]

  predicate PublicFlagsOk(w: World) {
    !NoWord(w) && !Truthy(w, StripeMock) && !Truthy(w, OidcInsecure) && !InsecureSmtp(w)
  }

  predicate UrlsOk(w: World) {
    && IsHttps(w, SuccessUrl) && IsHttps(w, CancelUrl) && IsHttps(w, PortalUrl)
    && (IsSet(w, PublicBaseUrl) ==> IsHttps(w, PublicBaseUrl))
  }

  predicate SignInOk(w: World) {
    && (Oidc(w) ==> IsSet(w, OidcStateKey))
    && (Saml(w) ==>
        && IsSet(w, SamlRelayKey)
        && (Truthy(w, SamlSign) ==> GetOrFile(w, SamlSpKey).Some? && GetOrFile(w, SamlSpCert).Some?))
  }

  predicate TlsOk(w: World) {
    && (w.provider == Aws && Tls(w) == "aws-acm" ==> IsSet(w, AlbCertificates))
    && (w.provider == Gke && Tls(w) == "cert-manager" ==> IsSet(w, ClusterIssuer))
    && (Tls(w) == "secret" ==> GetOrFile(w, TlsCert).Some? && GetOrFile(w, TlsKey).Some?)
  }

  predicate SecretsOk(w: World) {
    && (ExternalSecrets(w) ==> IsSet(w, SecretStore))
    && OneOf(w, StoreKind, ["ClusterSecretStore", "SecretStore"])
    && (IsSet(w, RefreshInterval) ==> w.interval(Get(w, RefreshInterval).value))
    && OneOf(w, CreationPolicy, ["Owner", "Orphan", "Merge", "None"])
    && OneOf(w, DeletionPolicy, ["Retain", "Merge", "Delete"])
  }

  /** Since a public hostname is required, the checks for public deployments always apply. */
  predicate EnvOk(w: World) {
    && AllSet(w, ALWAYS)
    && Fits(w, ApiImage, w.pinnedImage) && Fits(w, WorkerImage, w.pinnedImage)
    && Fits(w, PkiStorageClass, w.storageClass) && Truthy(w, PkiSharedPath)
    && ProfileOk(w)
    && PublicFlagsOk(w) && UrlsOk(w)
    && SignInOk(w) && TlsOk(w) && SecretsOk(w)
  }

  lemma ProfileMeans(w: World)
    ensures ProfileIssue(w).None? <==> ProfileOk(w)
  {
    hide Get;
    assert |"local-dev"| == 9 && |"single-node-durable"| == 19 && |"production-shared"| == 17;
  }

  lemma AlwaysSet(w: World)
    ensures AllSet(w, ALWAYS) <==>
      && IsSet(w, PublicHostname) && IsSet(w, RedisUrl) && IsSet(w, ControlPlanePg) && IsSet(w, BillingLedgerPg)
      && IsSet(w, PkiPath) && IsSet(w, AdminKey) && IsSet(w, MetricsKey) && IsSet(w, MfaKey)
      && IsSet(w, StripeKey) && IsSet(w, StripeSecret) && IsSet(w, PricePilot) && IsSet(w, PriceStarter)
      && IsSet(w, PricePro) && IsSet(w, OverageStarter) && IsSet(w, OveragePro)
  {
    hide IsSet;
    if AllSet(w, ALWAYS) {
      assert IsSet(w, ALWAYS[0]) && IsSet(w, ALWAYS[1]) && IsSet(w, ALWAYS[2]) && IsSet(w, ALWAYS[3]);
      assert IsSet(w, ALWAYS[4]) && IsSet(w, ALWAYS[5]) && IsSet(w, ALWAYS[6]) && IsSet(w, ALWAYS[7]);
      assert IsSet(w, ALWAYS[8]) && IsSet(w, ALWAYS[9]) && IsSet(w, ALWAYS[10]) && IsSet(w, ALWAYS[11]);
      assert IsSet(w, ALWAYS[12]) && IsSet(w, ALWAYS[13]) && IsSet(w, ALWAYS[14]);
    }
  }

  lemma CoreMeans(w: World, b: seq<Issue>)
    ensures CoreIssues(w, b) == [] <==>
      && b == [] && Fits(w, ApiImage, w.pinnedImage) && Fits(w, WorkerImage, w.pinnedImage)
      && IsSet(w, PublicHostname) && IsSet(w, RedisUrl) && IsSet(w, ControlPlanePg) && IsSet(w, BillingLedgerPg)
      && ProfileOk(w)
  {
    hide IsSet, ProfileIssue, ProfileOk, Add;
    ProfileMeans(w);
  }

  lemma KeysMean(w: World, b: seq<Issue>)
    ensures KeyIssues(w, b) == [] <==>
      && b == [] && IsSet(w, PkiPath) && Truthy(w, PkiSharedPath) && Fits(w, PkiStorageClass, w.storageClass)
      && IsSet(w, AdminKey) && IsSet(w, MetricsKey) && IsSet(w, MfaKey)
  {
    hide IsSet, Truthy, Add;
  }

  lemma PublicFlagsMean(w: World, b: seq<Issue>)
    requires Public(w)
    ensures PublicFlagIssues(w, b) == [] <==> b == [] && PublicFlagsOk(w)
  {
    hide Public, NoWord, Truthy, InsecureSmtp, Add;
  }

  lemma BillingMeans(w: World, b: seq<Issue>)
    requires Public(w)
    ensures BillingIssues(w, b) == [] <==>
      && b == [] && IsSet(w, StripeKey) && IsSet(w, StripeSecret) && IsSet(w, PricePilot) && IsSet(w, PriceStarter)
      && IsSet(w, PricePro) && IsSet(w, OverageStarter) && IsSet(w, OveragePro)
      && IsHttps(w, SuccessUrl) && IsHttps(w, CancelUrl) && IsHttps(w, PortalUrl)
  {
    hide Public, Get, Add;
  }

  lemma SignInMeans(w: World, b: seq<Issue>)
    requires Public(w)
    ensures SignInIssues(w, b) == [] <==>
      b == [] && SignInOk(w) && (IsSet(w, PublicBaseUrl) ==> IsHttps(w, PublicBaseUrl))
  {
    hide Public, IsSet, IsHttps, Oidc, Saml, Truthy, GetOrFile, Add;
  }

  lemma TlsMeans(w: World, b: seq<Issue>)
    ensures TlsIssues(w, b) == [] <==> b == [] && TlsOk(w)
  {
    hide IsSet, Tls, GetOrFile, Add;
  }

  lemma SecretsMean(w: World, b: seq<Issue>)
    ensures SecretIssues(w, b) == [] <==> b == [] && SecretsOk(w)
  {
    hide Get, ExternalSecrets, OneOf, Add;
  }

  /** The seven groups of checks leave no issue exactly for a clean environment. */
  lemma EnvMeans(w: World)
    ensures EnvIssues(w) == [] <==> EnvOk(w)
  {
    hide CoreIssues, KeyIssues, PublicFlagIssues, BillingIssues, SignInIssues, TlsIssues, SecretIssues, AllSet,
      ProfileOk, PublicFlagsOk, SignInOk, TlsOk, SecretsOk, IsHttps, Fits, Truthy, IsSet;
    var core := CoreIssues(w, []);
    var keys := KeyIssues(w, core);
    var flags := PublicFlagIssues(w, keys);
    var billing := BillingIssues(w, flags);
    var signIn := SignInIssues(w, billing);
    var tls := TlsIssues(w, signIn);
    CoreMeans(w, []);
    KeysMean(w, core);
    SecretsMean(w, tls);
    TlsMeans(w, signIn);
    AlwaysSet(w);
    if Public(w) {
      PublicFlagsMean(w, keys);
      BillingMeans(w, flags);
      SignInMeans(w, billing);
    } else {
      IssuesStay(w, core);
    }
  }

  /** An issue once reported is never dropped. */
  lemma IssuesStay(w: World, b: seq<Issue>)
    requires b != []
    ensures SecretIssues(w, TlsIssues(w, SignInIssues(w, BillingIssues(w, PublicFlagIssues(w, KeyIssues(w, b)))))) != []
  {
    hide NeedsFit, Needs, NeedsHttps, NeedsOrFile, When, Public, Oidc, Saml, Truthy, Tls, ExternalSecrets, Add;
  }

  /** The probe is clean exactly when the environment is, everything answers and the bundle renders. */
  lemma ProbeMeans(w: World)
    ensures
      var s := Probe(w);
      && (s.issues == [] <==> EnvOk(w) && Reachable(w) && w.bundleRenders)
      && (s.envComplete <==> s.issues == [])
      && (s.issues == [] ==> s.bundleRendered && s.connectivityPassed)
  {
    hide EnvIssues, EnvOk, ConnectivityIssues, Reachable;
    EnvMeans(w);
    ConnectivityMeans(w);
  }

  // ---------------------------------------------------------------- the packet's own list

  /** `requireOne`: the variable or its file companion is set. */
  predicate HasOne(w: World, v: Var) {
    IsSet(w, v) || Value(w, FileOf(v)).Some?
  }

  function Lack(missing: seq<Var>, absent: bool, v: Var): (r: seq<Var>)
    ensures r == [] <==> missing == [] && !absent
  {
    if absent then missing + [v] else missing
  }

  function LackAll(w: World, missing: seq<Var>, vs: seq<Var>): seq<Var>
    decreases |vs|
  {
    if vs == [] then missing
    else Lack(LackAll(w, missing, vs[..|vs| - 1]), !HasOne(w, vs[|vs| - 1]), vs[|vs| - 1])
  }

  const FIRST_INPUTS := [ApiImage, WorkerImage, PublicHostname, RedisUrl, ControlPlanePg, BillingLedgerPg, RuntimeProfile]
  const KEY_INPUTS := [AdminKey, MetricsKey, MfaKey]
  const PUBLIC_INPUTS := [StripeKey, StripeSecret, PricePilot, PriceStarter, PricePro, OverageStarter, OveragePro,
                          SuccessUrl, CancelUrl, PortalUrl]

  predicate SignsTrimmed(w: World) {
    IsSet(w, SamlSign) && YesWord(Get(w, SamlSign).value)
  }

  /** `detectMissingInputs` of the promotion packet. */
  function MissingInputs(w: World): seq<Var> {
    var first := LackAll(w, [], FIRST_INPUTS);
    var authority := if Shared(w) then LackAll(w, first, [ReleaseAuthorityPg]) else first;
    var pki := Lack(LackAll(w, authority, [PkiPath]), !Truthy(w, PkiSharedPath), PkiSharedPath);
    var keys := LackAll(w, pki, KEY_INPUTS);
    var public := if Public(w) then LackAll(w, keys, PUBLIC_INPUTS) else keys;
    var secret := if Tls(w) == "secret" then LackAll(w, public, [TlsCert, TlsKey]) else public;
    var issuer := if Tls(w) == "cert-manager" then LackAll(w, secret, [ClusterIssuer]) else secret;
    var acm := if w.provider == Aws && Tls(w) == "aws-acm" then LackAll(w, issuer, [AlbCertificates]) else issuer;
    var store := if ExternalSecrets(w) then LackAll(w, acm, [SecretStore]) else acm;
    var oidc := if Oidc(w) then LackAll(w, store, [OidcStateKey]) else store;
    if !Saml(w) then oidc else
    var saml := LackAll(w, oidc, [SamlRelayKey]);
    if SignsTrimmed(w) then LackAll(w, saml, [SamlSpKey, SamlSpCert]) else saml
  }

  predicate AllHave(w: World, vs: seq<Var>) {
    forall i :: 0 <= i < |vs| ==> HasOne(w, vs[i])
  }

  lemma {:induction false} LackAllMeans(w: World, missing: seq<Var>, vs: seq<Var>)
    ensures LackAll(w, missing, vs) == [] <==> missing == [] && AllHave(w, vs)
    decreases |vs|
  {
    hide HasOne;
    if vs != [] {
      var init := vs[..|vs| - 1];
      LackAllMeans(w, missing, init);
      assert forall i :: 0 <= i < |init| ==> vs[i] == init[i];
      assert forall i :: 0 <= i < |vs| ==> i == |init| || vs[i] == init[i];
    }
  }

  lemma SetHasOne(w: World, v: Var)
    ensures IsSet(w, v) ==> HasOne(w, v)
    ensures GetOrFile(w, v).Some? ==> HasOne(w, v)
  {
  }

  lemma OneHas(w: World, missing: seq<Var>, v: Var)
    ensures LackAll(w, missing, [v]) == [] <==> missing == [] && HasOne(w, v)
  {
    hide HasOne, LackAll;
    LackAllMeans(w, missing, [v]);
    assert AllHave(w, [v]) <==> HasOne(w, [v][0]);
  }

  lemma TwoHave(w: World, missing: seq<Var>, v: Var, u: Var)
    ensures LackAll(w, missing, [v, u]) == [] <==> missing == [] && HasOne(w, v) && HasOne(w, u)
  {
    hide HasOne, LackAll;
    LackAllMeans(w, missing, [v, u]);
    assert AllHave(w, [v, u]) <==> HasOne(w, [v, u][0]) && HasOne(w, [v, u][1]);
  }

  lemma CleanHasFirst(w: World)
    requires EnvOk(w)
    ensures AllHave(w, FIRST_INPUTS) && AllHave(w, KEY_INPUTS) && AllHave(w, PUBLIC_INPUTS)
    ensures HasOne(w, PkiPath) && (Shared(w) ==> HasOne(w, ReleaseAuthorityPg)) && Truthy(w, PkiSharedPath)
  {
    hide Get, Truthy, AllSet, PublicFlagsOk, SignInOk, TlsOk, SecretsOk, Value;
    AlwaysSet(w);
  }

  lemma CleanHasRest(w: World)
    requires EnvOk(w) && Reachable(w)
    ensures Tls(w) == "secret" ==> HasOne(w, TlsCert) && HasOne(w, TlsKey)
    ensures Tls(w) == "cert-manager" ==> HasOne(w, ClusterIssuer)
    ensures w.provider == Aws && Tls(w) == "aws-acm" ==> HasOne(w, AlbCertificates)
    ensures ExternalSecrets(w) ==> HasOne(w, SecretStore)
    ensures Oidc(w) ==> HasOne(w, OidcStateKey)
    ensures Saml(w) ==> HasOne(w, SamlRelayKey)
  {
    hide AllSet, ProfileOk, PublicFlagsOk, UrlsOk, Fits, Up, ProfileValid, Truthy, Tls, Get, GetOrFile, Oidc, Saml, ExternalSecrets;
    SetHasOne(w, TlsCert);
    SetHasOne(w, TlsKey);
    assert Tls(w) == "cert-manager" ==> IsSet(w, ClusterIssuer) by { IssuerSet(w); }
  }

  lemma IssuerSet(w: World)
    requires TlsValid(w)
    ensures Tls(w) == "cert-manager" ==> IsSet(w, ClusterIssuer)
  {
    hide Tls, GetOrFile, IsSet, Fits;
    assert |"cert-manager"| == 12 && |"secret"| == 6 && |"external-secret"| == 15;
  }

  /**
   The packet's list of missing inputs and the probe look at the environment differently: the list accepts a
   file companion anywhere and asks for an issuer under every provider, while the probe does not trim its
   flags. Still, where the probe is clean the list is empty, with one exception: a SAML signing flag padded
   with blanks, which the list honours and the probe does not.
   */
  lemma CleanProbeLeavesNothingMissing(w: World)
    requires Probe(w).issues == []
    ensures MissingInputs(w) == [] <==>
      (Saml(w) && SignsTrimmed(w) ==> HasOne(w, SamlSpKey) && HasOne(w, SamlSpCert))
    ensures (Direct(SamlSign) in w.env ==> Trim(w.env[Direct(SamlSign)]) == w.env[Direct(SamlSign)]) ==> MissingInputs(w) == []
  {
    ProbeMeans(w);
    CleanHasFirst(w);
    CleanHasRest(w);
    SigningMaterial(w);
    hide *;
    MissingInputsMean(w);
  }

  lemma SigningMaterial(w: World)
    requires EnvOk(w)
    ensures
      (Direct(SamlSign) in w.env ==> Trim(w.env[Direct(SamlSign)]) == w.env[Direct(SamlSign)])
      ==> (Saml(w) && SignsTrimmed(w) ==> HasOne(w, SamlSpKey) && HasOne(w, SamlSpCert))
  {
    hide AllSet, ProfileOk, PublicFlagsOk, UrlsOk, Fits, TlsOk, SecretsOk, Saml, YesWord, Trim, Oidc;
    SetHasOne(w, SamlSpKey);
    SetHasOne(w, SamlSpCert);
  }

  lemma MissingInputsMean(w: World)
    ensures MissingInputs(w) == [] <==>
      && AllHave(w, FIRST_INPUTS) && (Shared(w) ==> HasOne(w, ReleaseAuthorityPg))
      && HasOne(w, PkiPath) && Truthy(w, PkiSharedPath) && AllHave(w, KEY_INPUTS)
      && (Public(w) ==> AllHave(w, PUBLIC_INPUTS))
      && (Tls(w) == "secret" ==> HasOne(w, TlsCert) && HasOne(w, TlsKey))
      && (Tls(w) == "cert-manager" ==> HasOne(w, ClusterIssuer))
      && (w.provider == Aws && Tls(w) == "aws-acm" ==> HasOne(w, AlbCertificates))
      && (ExternalSecrets(w) ==> HasOne(w, SecretStore))
      && (Oidc(w) ==> HasOne(w, OidcStateKey))
      && (Saml(w) ==> HasOne(w, SamlRelayKey) && (SignsTrimmed(w) ==> HasOne(w, SamlSpKey) && HasOne(w, SamlSpCert)))
  {
    hide LackAll, AllHave, HasOne, Shared, Truthy, Public, Tls, ExternalSecrets, Oidc, Saml, SignsTrimmed;
    forall missing, v ensures LackAll(w, missing, [v]) == [] <==> missing == [] && HasOne(w, v) {
      OneHas(w, missing, v);
    }
    forall missing, v, u ensures LackAll(w, missing, [v, u]) == [] <==> missing == [] && HasOne(w, v) && HasOne(w, u) {
      TwoHave(w, missing, v, u);
    }
    forall missing, vs ensures LackAll(w, missing, vs) == [] <==> missing == [] && AllHave(w, vs) {
      LackAllMeans(w, missing, vs);
    }
  }

  // ---------------------------------------------------------------- a clean environment that the packet still finds wanting

  /** A public deployment on one node with SAML sign-in, whose signing flag is padded with a blank. */
  function PaddedValue(v: Var): Option<string> {
    match v
    case RuntimeProfile => Some("single-node-durable")
    case PkiSharedPath => Some("true")
    case SamlSign => Some(" true")
    case ApiImage | WorkerImage | PublicHostname | RedisUrl | ControlPlanePg | BillingLedgerPg | PkiPath | PkiStorageClass => Some("x")
    case AdminKey | MetricsKey | MfaKey | StripeKey | StripeSecret | PricePilot | PriceStarter | PricePro => Some("x")
    case OverageStarter | OveragePro | SuccessUrl | CancelUrl | PortalUrl | SamlXml | SamlRelayKey | TlsCert | TlsKey => Some("x")
    case _ => None
  }

  function PaddedEnv(): (env: map<Name, string>)
    ensures forall v :: Direct(v) in env <==> PaddedValue(v).Some?
    ensures forall v :: Direct(v) in env ==> env[Direct(v)] == PaddedValue(v).value
    ensures forall v :: FileOf(v) !in env
  {
    map v: Var | PaddedValue(v).Some? :: Direct(v) := PaddedValue(v).value
  }

  /** Where every format test and every service says yes. */
  function PaddedWorld(): World {
    World(
      PaddedEnv(), s => "", Generic, s => true, s => true, s => true, s => true, s => true, s => true, s => true, s => true,
      s => Some("https:"), Some("x"), s => true, s => true, true)
  }

  lemma PaddedGet(v: Var)
    ensures Get(PaddedWorld(), v) ==
      match v
      case SamlSign => Some("true")
      case _ => PaddedValue(v)
    ensures Value(PaddedWorld(), FileOf(v)) == None
  {
    hide PaddedEnv;
    PlainTrims();
  }

  lemma PlainTrims()
    ensures Trim("x") == "x" && Trim("true") == "true" && Trim("single-node-durable") == "single-node-durable" && Trim(" true") == "true"
  {
    assert IsSpace(' ') && " true"[1..] == "true" && TrimStart(" true") == TrimStart("true");
    assert TrimStart("true") == "true" && TrimEnd("true") == "true";
  }

  lemma PaddedTruthy(v: Var)
    ensures Truthy(PaddedWorld(), v) <==> PaddedValue(v).Some? && YesWord(PaddedValue(v).value)
  {
    hide PaddedEnv, YesWord;
  }

  lemma YesWords()
    ensures YesWord("true") && !YesWord(" true")
  {
    assert Lower("true") == "true";
    assert Lower(" true")[0] == ' ';
    assert "1"[0] == '1' && "true"[0] == 't' && "yes"[0] == 'y' && "on"[0] == 'o';
  }

  lemma PaddedSet(v: Var)
    requires PaddedValue(v) == Some("x")
    ensures
      var w := PaddedWorld();
      && IsSet(w, v) && GetOrFile(w, v) == Some("x")
      && Fits(w, v, w.pinnedImage) && Fits(w, v, w.storageClass) && Fits(w, v, w.hostname) && Fits(w, v, w.imageRef)
      && IsHttps(w, v) && Up(Get(w, v), w.pgUp) && w.certificate("x") && w.privateKey("x")
  {
    hide Get, PaddedEnv, PaddedValue;
    PaddedGet(v);
    assert v != SamlSign by { SignIsPadded(); }
  }

  lemma SignIsPadded()
    ensures PaddedValue(SamlSign) == Some(" true") && " true" != "x"
  {
    assert |" true"| == 5 && |"x"| == 1;
  }

  lemma PaddedUnset(v: Var)
    requires PaddedValue(v) == None
    ensures Get(PaddedWorld(), v) == None && !IsSet(PaddedWorld(), v) && !HasOne(PaddedWorld(), v)
  {
    hide Value, PaddedEnv, PaddedValue;
    PaddedGet(v);
    SignIsPadded();
  }

  lemma PaddedIsSet(v: Var)
    requires PaddedValue(v).Some? && v != SamlSign
    ensures IsSet(PaddedWorld(), v)
  {
    hide Get, PaddedWorld, PaddedValue;
    PaddedGet(v);
  }

  lemma PaddedAlways()
    ensures AllSet(PaddedWorld(), ALWAYS)
  {
    hide IsSet, PaddedWorld;
    forall i | 0 <= i < |ALWAYS|
      ensures IsSet(PaddedWorld(), ALWAYS[i])
    {
      PaddedIsSet(ALWAYS[i]);
    }
  }

  lemma PaddedProfile()
    ensures ProfileOk(PaddedWorld()) && ProfileValid(PaddedWorld()) && !Shared(PaddedWorld()) && !IsSet(PaddedWorld(), ReleaseAuthorityPg)
  {
    hide Get, PaddedWorld;
    PaddedGet(RuntimeProfile);
    PaddedGet(ReleaseAuthorityPg);
    assert |"single-node-durable"| == 19 && |"production-shared"| == 17;
  }

  lemma PaddedFormats()
    ensures
      var w := PaddedWorld();
      && Fits(w, ApiImage, w.pinnedImage) && Fits(w, WorkerImage, w.pinnedImage) && Fits(w, PkiStorageClass, w.storageClass)
      && UrlsOk(w)
  {
    hide IsSet, GetOrFile, Fits, IsHttps, Up, PaddedWorld, HasOne;
    PaddedSet(ApiImage);
    PaddedSet(WorkerImage);
    PaddedSet(PkiStorageClass);
    PaddedSet(SuccessUrl);
    PaddedSet(CancelUrl);
    PaddedSet(PortalUrl);
    PaddedUnset(PublicBaseUrl);
  }

  lemma PaddedShared()
    ensures Truthy(PaddedWorld(), PkiSharedPath)
  {
    hide PaddedWorld, YesWord, Truthy;
    YesWords();
    PaddedTruthy(PkiSharedPath);
  }

  lemma PaddedFlags()
    ensures PublicFlagsOk(PaddedWorld())
  {
    hide Truthy, PaddedWorld, YesWord, HasOne, Get;
    PaddedTruthy(StripeMock);
    PaddedTruthy(OidcInsecure);
    PaddedUnset(CookieSecure);
    PaddedUnset(EmailMode);
  }

  lemma PaddedSignIn()
    ensures SignInOk(PaddedWorld()) && Saml(PaddedWorld())
  {
    hide Truthy, PaddedWorld, YesWord, HasOne, Get, GetOrFile;
    YesWords();
    PaddedTruthy(SamlSign);
    PaddedUnset(OidcIssuer);
    PaddedIsSet(SamlXml);
    PaddedIsSet(SamlRelayKey);
  }

  lemma PaddedSigns()
    ensures SignsTrimmed(PaddedWorld()) && !HasOne(PaddedWorld(), SamlSpKey)
  {
    hide PaddedWorld, YesWord, HasOne, Get;
    YesWords();
    PaddedUnset(SamlSpKey);
    PaddedGet(SamlSign);
  }

  lemma PaddedTls()
    ensures Tls(PaddedWorld()) == "secret" && TlsOk(PaddedWorld()) && TlsValid(PaddedWorld())
  {
    hide PaddedWorld, HasOne, Get, GetOrFile, Fits, IsHttps, Up;
    PaddedUnset(TlsMode);
    PaddedSet(TlsCert);
    PaddedSet(TlsKey);
    assert |"secret"| == 6 && |"aws-acm"| == 7 && |"cert-manager"| == 12;
  }

  lemma PaddedOneOf(v: Var, allowed: seq<string>)
    requires PaddedValue(v) == None
    ensures OneOf(PaddedWorld(), v, allowed)
  {
    hide PaddedWorld, HasOne, Get, PaddedValue;
    PaddedUnset(v);
  }

  lemma PaddedSecrets()
    ensures SecretsOk(PaddedWorld())
  {
    hide PaddedWorld, HasOne, Get, Tls, OneOf, TlsOk, TlsValid;
    PaddedTls();
    PaddedUnset(SecretMode);
    PaddedUnset(RefreshInterval);
    PaddedOneOf(StoreKind, ["ClusterSecretStore", "SecretStore"]);
    PaddedOneOf(CreationPolicy, ["Owner", "Orphan", "Merge", "None"]);
    PaddedOneOf(DeletionPolicy, ["Retain", "Merge", "Delete"]);
    assert |"secret"| == 6 && |"external-secret"| == 15;
  }

  lemma PaddedReachable()
    ensures Reachable(PaddedWorld())
  {
    hide PaddedWorld, HasOne, GetOrFile, Fits, IsHttps, Up, TlsValid, ProfileValid, Tls, Shared;
    PaddedTls();
    PaddedProfile();
    PaddedSet(PublicHostname);
    PaddedSet(ApiImage);
    PaddedSet(WorkerImage);
    PaddedSet(ControlPlanePg);
    PaddedSet(BillingLedgerPg);
    PaddedUnset(RuntimePg);
    assert Up(PaddedWorld().redisUrl, PaddedWorld().redisUp) by { PaddedRedis(); }
  }

  lemma PaddedRedis()
    ensures Up(PaddedWorld().redisUrl, PaddedWorld().redisUp) && PaddedWorld().bundleRenders
  {
    hide PaddedEnv;
  }

  /** The probe is clean, and yet the packet lists the signing material as missing. */
  lemma PaddedFlagStillMissing()
    ensures Probe(PaddedWorld()).issues == [] && MissingInputs(PaddedWorld()) != []
  {
    assert EnvOk(PaddedWorld()) by { PaddedEnvOk(); }
    hide PaddedWorld, EnvOk, Reachable, Probe, MissingInputs, Saml, SignsTrimmed, HasOne;
    PaddedSignIn();
    PaddedSigns();
    PaddedReachable();
    ProbeMeans(PaddedWorld());
    PaddedRedis();
    CleanProbeLeavesNothingMissing(PaddedWorld());
  }

  lemma PaddedEnvOk()
    ensures EnvOk(PaddedWorld())
  {
    hide AllSet, Fits, Truthy, ProfileOk, UrlsOk, PublicFlagsOk, SignInOk, TlsOk, SecretsOk, PaddedWorld;
    PaddedAlways();
    PaddedFormats();
    PaddedShared();
    PaddedProfile();
    PaddedFlags();
    PaddedSignIn();
    PaddedTls();
    PaddedSecrets();
  }

  // ---------------------------------------------------------------- issues over the raw environment

  predicate Blank(w: World, n: Name) {
    n in w.env ==> Trim(w.env[n]) == ""
  }

  function TextOf(w: World, n: Name): string
    requires !Blank(w, n)
  {
    Trim(w.env[n])
  }

  predicate SaysYes(w: World, v: Var) {
    Direct(v) in w.env && Lower(w.env[Direct(v)]) in ["1", "true", "yes", "on"]
  }

  /** The variable holds this text. */
  predicate Is(w: World, v: Var, text: string) {
    !Blank(w, Direct(v)) && TextOf(w, Direct(v)) == text
  }

  /** The variable holds something, or the file that its companion names does. */
  predicate FoundIn(w: World, v: Var) {
    !Blank(w, Direct(v)) || (!Blank(w, FileOf(v)) && Trim(w.file(TextOf(w, FileOf(v)))) != "")
  }

  function Opt(o: Option<Issue>): seq<Issue> {
    match o case Some(i) => [i] case None => []
  }

  lemma AddIs(issues: seq<Issue>, i: Option<Issue>)
    ensures Add(issues, i) == issues + Opt(i)
  {
  }

  /** What single checks report. */
  lemma LeavesMean(w: World, v: Var, test: string -> bool, allowed: seq<string>)
    ensures Opt(Needs(w, v)) == Given(Blank(w, Direct(v)), Required(v))
    ensures Opt(NeedsFit(w, v, test)) ==
      if Blank(w, Direct(v)) then [Required(v)] else Given(!test(TextOf(w, Direct(v))), NotValid(v))
    ensures Opt(NeedsHttps(w, v)) ==
      if Blank(w, Direct(v)) then [Required(v)] else Given(w.protocol(TextOf(w, Direct(v))) != Some("https:"), NotValid(v))
    ensures Opt(NeedsOrFile(w, v)) == Given(!FoundIn(w, v), Required(v))
    ensures Truthy(w, v) <==> SaysYes(w, v)
    ensures OneOf(w, v, allowed) <==> Blank(w, Direct(v)) || TextOf(w, Direct(v)) in allowed
    ensures IsSet(w, v) <==> !Blank(w, Direct(v))
    ensures Fits(w, v, test) <==> !Blank(w, Direct(v)) && test(TextOf(w, Direct(v)))
  {
    hide Trim, Lower;
  }

  function ProfileReport(w: World): seq<Issue> {
    if Blank(w, Direct(RuntimeProfile)) then [Required(RuntimeProfile)]
    else if Is(w, RuntimeProfile, "local-dev") then [NotAllowed(RuntimeProfile)]
    else if Is(w, RuntimeProfile, "single-node-durable") then []
    else if Is(w, RuntimeProfile, "production-shared") then Given(Blank(w, Direct(ReleaseAuthorityPg)), Required(ReleaseAuthorityPg))
    else [NotValid(RuntimeProfile)]
  }

  lemma ProfileMeansReport(w: World)
    ensures Opt(ProfileIssue(w)) == ProfileReport(w)
  {
    hide Trim;
    assert |"local-dev"| == 9 && |"single-node-durable"| == 19 && |"production-shared"| == 17;
  }

  /** The environment's issues, in order: images, stores and profile, */
  lemma CoreIssuesMean(w: World, b: seq<Issue>)
    ensures CoreIssues(w, b) ==
      b + Opt(NeedsFit(w, ApiImage, w.pinnedImage)) + Opt(NeedsFit(w, WorkerImage, w.pinnedImage))
      + Opt(Needs(w, PublicHostname)) + Opt(Needs(w, RedisUrl)) + Opt(Needs(w, ControlPlanePg)) + Opt(Needs(w, BillingLedgerPg))
      + Opt(ProfileIssue(w))
  {
    hide Add, NeedsFit, Needs, ProfileIssue, Opt;
    forall issues, i ensures Add(issues, i) == issues + Opt(i) { AddIs(issues, i); }
  }

  /** keys, */
  lemma KeyIssuesMean(w: World, b: seq<Issue>)
    ensures KeyIssues(w, b) ==
      b + Opt(Needs(w, PkiPath)) + Given(!SaysYes(w, PkiSharedPath), Required(PkiSharedPath)) + Opt(NeedsFit(w, PkiStorageClass, w.storageClass))
      + Opt(Needs(w, AdminKey)) + Opt(Needs(w, MetricsKey)) + Opt(Needs(w, MfaKey))
  {
    hide Add, NeedsFit, Needs, Opt, Given, When, Lower;
    forall issues, i ensures Add(issues, i) == issues + Opt(i) { AddIs(issues, i); }
    WhenIs(!SaysYes(w, PkiSharedPath), Required(PkiSharedPath));
  }

  predicate SaysNo(w: World, v: Var) {
    !Blank(w, Direct(v)) && Lower(TextOf(w, Direct(v))) in ["0", "false", "no"]
  }

  predicate PlainSmtp(w: World) {
    !Blank(w, Direct(EmailMode)) && Lower(TextOf(w, Direct(EmailMode))) == "smtp" && SaysYes(w, SmtpIgnoreTls)
  }

  lemma FlagsMean(w: World)
    ensures Public(w) <==> !Blank(w, Direct(PublicHostname))
    ensures NoWord(w) <==> SaysNo(w, CookieSecure)
    ensures InsecureSmtp(w) <==> PlainSmtp(w)
    ensures Truthy(w, StripeMock) <==> SaysYes(w, StripeMock)
    ensures Truthy(w, OidcInsecure) <==> SaysYes(w, OidcInsecure)
  {
    hide Trim, Lower;
  }

  /** flags that a public deployment must not set, */
  lemma PublicFlagIssuesMean(w: World, b: seq<Issue>)
    ensures PublicFlagIssues(w, b) ==
      var public := !Blank(w, Direct(PublicHostname));
      b + Given(public && SaysNo(w, CookieSecure), NotAllowed(CookieSecure)) + Given(public && SaysYes(w, StripeMock), NotAllowed(StripeMock))
      + Given(public && SaysYes(w, OidcInsecure), NotAllowed(OidcInsecure)) + Given(public && PlainSmtp(w), NotAllowed(SmtpIgnoreTls))
  {
    hide Add, Opt, Given, When, Public, NoWord, InsecureSmtp, Truthy, SaysNo, SaysYes, PlainSmtp, Blank;
    FlagsMean(w);
    forall issues, i ensures Add(issues, i) == issues + Opt(i) { AddIs(issues, i); }
    forall c, i ensures Opt(When(c, i)) == Given(c, i) { WhenIs(c, i); }
  }

  lemma WhenIs(c: bool, i: Issue)
    ensures Opt(When(c, i)) == Given(c, i)
  {
  }

  /** billing, */
  lemma BillingIssuesMean(w: World, b: seq<Issue>)
    ensures BillingIssues(w, b) ==
      if Blank(w, Direct(PublicHostname)) then b
      else
        b + Opt(Needs(w, StripeKey)) + Opt(Needs(w, StripeSecret)) + Opt(Needs(w, PricePilot)) + Opt(Needs(w, PriceStarter)) + Opt(Needs(w, PricePro))
        + Opt(Needs(w, OverageStarter)) + Opt(Needs(w, OveragePro))
        + Opt(NeedsHttps(w, SuccessUrl)) + Opt(NeedsHttps(w, CancelUrl)) + Opt(NeedsHttps(w, PortalUrl))
  {
    hide Add, NeedsHttps, Needs, Trim, Opt;
    forall issues, i ensures Add(issues, i) == issues + Opt(i) { AddIs(issues, i); }
  }

  /** A check made only where a condition holds. */
  lemma AddWhere(b: seq<Issue>, condition: bool, lacks: bool, i: Issue)
    ensures (if condition then Add(b, When(lacks, i)) else b) == b + Given(condition && lacks, i)
  {
  }

  predicate NotHttps(w: World, v: Var) {
    !Blank(w, Direct(v)) && w.protocol(TextOf(w, Direct(v))) != Some("https:")
  }

  lemma SignInLeaves(w: World)
    ensures Public(w) && IsSet(w, PublicBaseUrl) && !IsHttps(w, PublicBaseUrl) <==> !Blank(w, Direct(PublicHostname)) && NotHttps(w, PublicBaseUrl)
    ensures Oidc(w) <==> !Blank(w, Direct(OidcIssuer)) && !Blank(w, Direct(OidcClient))
    ensures Saml(w) <==> !(Blank(w, Direct(SamlXml)) && Blank(w, Direct(SamlPath)))
    ensures Truthy(w, SamlSign) <==> SaysYes(w, SamlSign)
    ensures Needs(w, OidcStateKey) == When(Blank(w, Direct(OidcStateKey)), Required(OidcStateKey))
    ensures Needs(w, SamlRelayKey) == When(Blank(w, Direct(SamlRelayKey)), Required(SamlRelayKey))
    ensures NeedsOrFile(w, SamlSpKey) == When(!FoundIn(w, SamlSpKey), Required(SamlSpKey))
    ensures NeedsOrFile(w, SamlSpCert) == When(!FoundIn(w, SamlSpCert), Required(SamlSpCert))
  {
    hide Trim, Lower;
  }

  predicate SamlOn(w: World) {
    !(Blank(w, Direct(SamlXml)) && Blank(w, Direct(SamlPath)))
  }

  /** sign-in, */
  lemma SignInIssuesMean(w: World, b: seq<Issue>)
    ensures SignInIssues(w, b) ==
      b + Given(!Blank(w, Direct(PublicHostname)) && NotHttps(w, PublicBaseUrl), NotValid(PublicBaseUrl))
      + Given(!Blank(w, Direct(OidcIssuer)) && !Blank(w, Direct(OidcClient)) && Blank(w, Direct(OidcStateKey)), Required(OidcStateKey))
      + Given(SamlOn(w) && Blank(w, Direct(SamlRelayKey)), Required(SamlRelayKey))
      + Given(SamlOn(w) && SaysYes(w, SamlSign) && !FoundIn(w, SamlSpKey), Required(SamlSpKey))
      + Given(SamlOn(w) && SaysYes(w, SamlSign) && !FoundIn(w, SamlSpCert), Required(SamlSpCert))
  {
    hide Add, Given, When, Public, Oidc, Saml, Truthy, SaysYes, Blank, NotHttps, FoundIn, Needs, NeedsOrFile, IsSet, IsHttps;
    SignInLeaves(w);
    var insecure := !Blank(w, Direct(PublicHostname)) && NotHttps(w, PublicBaseUrl);
    AddWhere(b, true, insecure, NotValid(PublicBaseUrl));
    var base := Add(b, When(insecure, NotValid(PublicBaseUrl)));
    AddWhere(base, Oidc(w), Blank(w, Direct(OidcStateKey)), Required(OidcStateKey));
    var oidc := if Oidc(w) then Add(base, When(Blank(w, Direct(OidcStateKey)), Required(OidcStateKey))) else base;
    AddWhere(oidc, Saml(w), Blank(w, Direct(SamlRelayKey)), Required(SamlRelayKey));
    var saml := if Saml(w) then Add(oidc, When(Blank(w, Direct(SamlRelayKey)), Required(SamlRelayKey))) else oidc;
    var signs := Saml(w) && Truthy(w, SamlSign);
    AddWhere(saml, signs, !FoundIn(w, SamlSpKey), Required(SamlSpKey));
    var key := if signs then Add(saml, When(!FoundIn(w, SamlSpKey), Required(SamlSpKey))) else saml;
    AddWhere(key, signs, !FoundIn(w, SamlSpCert), Required(SamlSpCert));
    var cert := if signs then Add(key, When(!FoundIn(w, SamlSpCert), Required(SamlSpCert))) else key;
    assert SignInIssues(w, b) == cert;
  }

  function TlsModeOf(w: World): string {
    if Blank(w, Direct(TlsMode)) then "secret" else TextOf(w, Direct(TlsMode))
  }

  lemma TlsLeaves(w: World)
    ensures Tls(w) == TlsModeOf(w)
    ensures Needs(w, AlbCertificates) == When(Blank(w, Direct(AlbCertificates)), Required(AlbCertificates))
    ensures Needs(w, ClusterIssuer) == When(Blank(w, Direct(ClusterIssuer)), Required(ClusterIssuer))
    ensures NeedsOrFile(w, TlsCert) == When(!FoundIn(w, TlsCert), Required(TlsCert))
    ensures NeedsOrFile(w, TlsKey) == When(!FoundIn(w, TlsKey), Required(TlsKey))
  {
    hide Trim;
  }

  /** TLS, */
  lemma TlsIssuesMean(w: World, b: seq<Issue>)
    ensures TlsIssues(w, b) ==
      b + Given(w.provider == Aws && TlsModeOf(w) == "aws-acm" && Blank(w, Direct(AlbCertificates)), Required(AlbCertificates))
      + Given(w.provider == Gke && TlsModeOf(w) == "cert-manager" && Blank(w, Direct(ClusterIssuer)), Required(ClusterIssuer))
      + Given(TlsModeOf(w) == "secret" && !FoundIn(w, TlsCert), Required(TlsCert))
      + Given(TlsModeOf(w) == "secret" && !FoundIn(w, TlsKey), Required(TlsKey))
  {
    hide Add, Given, When, Tls, TlsModeOf, Blank, FoundIn, Needs, NeedsOrFile;
    TlsLeaves(w);
    var mode := Tls(w);
    AddWhere(b, w.provider == Aws && mode == "aws-acm", Blank(w, Direct(AlbCertificates)), Required(AlbCertificates));
    var acm := b + Given(w.provider == Aws && mode == "aws-acm" && Blank(w, Direct(AlbCertificates)), Required(AlbCertificates));
    AddWhere(acm, w.provider == Gke && mode == "cert-manager", Blank(w, Direct(ClusterIssuer)), Required(ClusterIssuer));
    var issuer := acm + Given(w.provider == Gke && mode == "cert-manager" && Blank(w, Direct(ClusterIssuer)), Required(ClusterIssuer));
    AddWhere(issuer, mode == "secret", !FoundIn(w, TlsCert), Required(TlsCert));
    var cert := issuer + Given(mode == "secret" && !FoundIn(w, TlsCert), Required(TlsCert));
    AddWhere(cert, mode == "secret", !FoundIn(w, TlsKey), Required(TlsKey));
  }

  predicate NoneOf(w: World, v: Var, allowed: seq<string>) {
    !Blank(w, Direct(v)) && TextOf(w, Direct(v)) !in allowed
  }

  lemma SecretLeaves(w: World)
    ensures ExternalSecrets(w) <==> Is(w, SecretMode, "external-secret") || Is(w, TlsMode, "external-secret")
    ensures Needs(w, SecretStore) == When(Blank(w, Direct(SecretStore)), Required(SecretStore))
    ensures IsSet(w, RefreshInterval) && !w.interval(Get(w, RefreshInterval).value) <==>
      !Blank(w, Direct(RefreshInterval)) && !w.interval(TextOf(w, Direct(RefreshInterval)))
  {
    hide Trim;
    assert |"secret"| == 6 && |"external-secret"| == 15;
  }

  lemma OneOfMeans(w: World, v: Var, allowed: seq<string>)
    ensures !OneOf(w, v, allowed) <==> NoneOf(w, v, allowed)
  {
    hide Trim;
  }

  /** and secrets. */
  lemma SecretIssuesMean(w: World, b: seq<Issue>)
    ensures SecretIssues(w, b) ==
      b + Given((Is(w, SecretMode, "external-secret") || Is(w, TlsMode, "external-secret")) && Blank(w, Direct(SecretStore)), Required(SecretStore))
      + Given(NoneOf(w, StoreKind, ["ClusterSecretStore", "SecretStore"]), NotValid(StoreKind))
      + Given(!Blank(w, Direct(RefreshInterval)) && !w.interval(TextOf(w, Direct(RefreshInterval))), NotValid(RefreshInterval))
      + Given(NoneOf(w, CreationPolicy, ["Owner", "Orphan", "Merge", "None"]), NotValid(CreationPolicy))
      + Given(NoneOf(w, DeletionPolicy, ["Retain", "Merge", "Delete"]), NotValid(DeletionPolicy))
  {
    hide Add, Given, When, ExternalSecrets, Is, Needs, NoneOf, OneOf, Trim, Opt;
    SecretLeaves(w);
    OneOfMeans(w, StoreKind, ["ClusterSecretStore", "SecretStore"]);
    OneOfMeans(w, CreationPolicy, ["Owner", "Orphan", "Merge", "None"]);
    OneOfMeans(w, DeletionPolicy, ["Retain", "Merge", "Delete"]);
    forall issues, i ensures Add(issues, i) == issues + Opt(i) { AddIs(issues, i); }
    forall c, i ensures Opt(When(c, i)) == Given(c, i) { WhenIs(c, i); }
    AddWhere(b, ExternalSecrets(w), Blank(w, Direct(SecretStore)), Required(SecretStore));
  }

  // ---------------------------------------------------------------- connectivity and missing inputs, field by field

  /** What connectivity reports of hostname, images and stores, */
  function StoresReport(w: World): seq<Issue> {
    Given(!Fits(w, PublicHostname, w.hostname), Connectivity(HostnameCheck))
    + Given(!Fits(w, ApiImage, w.imageRef) || !Fits(w, WorkerImage, w.imageRef), Connectivity(ImagesCheck))
    + Given(!(w.redisUrl.Some? && w.redisUp(w.redisUrl.value)), Connectivity(RedisCheck))
    + Given(!Answers(w, ControlPlanePg), Connectivity(ControlPlaneCheck))
    + Given(!Answers(w, BillingLedgerPg), Connectivity(BillingCheck))
    + Given(!Blank(w, Direct(RuntimePg)) && !Answers(w, RuntimePg), Connectivity(RuntimePgCheck))
  }

  /** and of profile, release authority and TLS. */
  function ConnectivityReport(w: World): seq<Issue> {
    StoresReport(w)
    + Given(!(Is(w, RuntimeProfile, "single-node-durable") || Is(w, RuntimeProfile, "production-shared")), Connectivity(ProfileCheck))
    + Given((Is(w, RuntimeProfile, "production-shared") || !Blank(w, Direct(ReleaseAuthorityPg))) && !Answers(w, ReleaseAuthorityPg),
            Connectivity(ReleaseAuthorityCheck))
    + Given(!TlsValid(w), Connectivity(TlsCheck))
  }

  /** The stores' part of the issues, as the probe builds it. */
  function StoreIssues(w: World): seq<Issue> {
    var b0 := Add([], When(!Fits(w, PublicHostname, w.hostname), Connectivity(HostnameCheck)));
    var b1 := Add(b0, When(!Fits(w, ApiImage, w.imageRef) || !Fits(w, WorkerImage, w.imageRef), Connectivity(ImagesCheck)));
    var b2 := Add(b1, When(!Up(w.redisUrl, w.redisUp), Connectivity(RedisCheck)));
    var b3 := Add(b2, When(!Up(Get(w, ControlPlanePg), w.pgUp), Connectivity(ControlPlaneCheck)));
    var b4 := Add(b3, When(!Up(Get(w, BillingLedgerPg), w.pgUp), Connectivity(BillingCheck)));
    Add(b4, When(IsSet(w, RuntimePg) && !Up(Get(w, RuntimePg), w.pgUp), Connectivity(RuntimePgCheck)))
  }

  lemma StoreIssuesMean(w: World)
    ensures StoreIssues(w) == StoresReport(w)
  {
    hide Add, Given, When, Fits, Up, Blank, Answers, IsSet, Get;
    StoreLeaves(w);
    var first := Given(!Fits(w, PublicHostname, w.hostname), Connectivity(HostnameCheck));
    assert [] + first == first;
    forall b, c, i ensures Add(b, When(c, i)) == b + Given(c, i) { AddWhen(b, c, i); }
  }

  lemma StoreLeaves(w: World)
    ensures Up(w.redisUrl, w.redisUp) <==> w.redisUrl.Some? && w.redisUp(w.redisUrl.value)
    ensures Up(Get(w, ControlPlanePg), w.pgUp) <==> Answers(w, ControlPlanePg)
    ensures Up(Get(w, BillingLedgerPg), w.pgUp) <==> Answers(w, BillingLedgerPg)
    ensures Up(Get(w, RuntimePg), w.pgUp) <==> Answers(w, RuntimePg)
    ensures IsSet(w, RuntimePg) <==> !Blank(w, Direct(RuntimePg))
  {
    hide Trim;
  }

  /** Which connectivity issues are reported, in order. */
  lemma ConnectivityIssuesMean(w: World)
    ensures ConnectivityIssues(w) == ConnectivityReport(w)
  {
    hide Add, Given, When, TlsValid, Up, Is, Blank, Shared, ProfileValid, Answers, IsSet, StoresReport, Fits, Get;
    StoreIssuesMean(w);
    ConnectivityLeaves(w);
    var x, down, check := StoresReport(w) + Given(!ProfileValid(w), Connectivity(ProfileCheck)), !Answers(w, ReleaseAuthorityPg), Connectivity(ReleaseAuthorityCheck);
    assert StoreIssues(w) == StoresReport(w);
    forall b, c, i ensures Add(b, When(c, i)) == b + Given(c, i) { AddWhen(b, c, i); }
    EitherGiven(x, Shared(w) && down, !Shared(w) && IsSet(w, ReleaseAuthorityPg) && down, check);
    EitherHolds(Shared(w), IsSet(w, ReleaseAuthorityPg), down, check);
  }

  lemma EitherHolds(a: bool, b: bool, c: bool, i: Issue)
    ensures Given((a && c) || (!a && b && c), i) == Given((a || b) && c, i)
  {
  }

  lemma AddWhen(b: seq<Issue>, c: bool, i: Issue)
    ensures Add(b, When(c, i)) == b + Given(c, i)
  {
  }

  predicate Answers(w: World, v: Var) {
    !Blank(w, Direct(v)) && w.pgUp(TextOf(w, Direct(v)))
  }

  lemma ConnectivityLeaves(w: World)
    ensures Up(Get(w, ReleaseAuthorityPg), w.pgUp) <==> Answers(w, ReleaseAuthorityPg)
    ensures IsSet(w, ReleaseAuthorityPg) <==> !Blank(w, Direct(ReleaseAuthorityPg))
    ensures Shared(w) <==> Is(w, RuntimeProfile, "production-shared")
    ensures ProfileValid(w) <==> Is(w, RuntimeProfile, "single-node-durable") || Is(w, RuntimeProfile, "production-shared")
  {
    hide Trim;
  }

  lemma EitherGiven(x: seq<Issue>, a: bool, b: bool, i: Issue)
    requires !(a && b)
    ensures x + Given(a, i) + Given(b, i) == x + Given(a || b, i)
  {
  }

  /** What the variable holds, or else the file that its companion names. */
  function FoundText(w: World, v: Var): string
    requires FoundIn(w, v)
  {
    if !Blank(w, Direct(v)) then TextOf(w, Direct(v)) else Trim(w.file(TextOf(w, FileOf(v))))
  }

  /** TLS is valid with certificate and key, an issuer, or certificate ARNs, as the mode has it. */
  lemma TlsValidMeans(w: World)
    ensures TlsValid(w) <==>
      var mode := TlsModeOf(w);
      || ((mode == "secret" || mode == "external-secret")
          && FoundIn(w, TlsCert) && w.certificate(FoundText(w, TlsCert)) && FoundIn(w, TlsKey) && w.privateKey(FoundText(w, TlsKey)))
      || (mode == "cert-manager" && !Blank(w, Direct(ClusterIssuer)))
      || (mode == "aws-acm" && !Blank(w, Direct(AlbCertificates)) && w.acmArns(TextOf(w, Direct(AlbCertificates))))
  {
    hide Trim, Tls, TlsModeOf, GetOrFile, FoundIn, Fits, IsSet;
    TlsLeaves(w);
    TextFound(w, TlsCert);
    TextFound(w, TlsKey);
    LeavesMean(w, ClusterIssuer, w.acmArns, []);
    LeavesMean(w, AlbCertificates, w.acmArns, []);
    assert |"secret"| == 6 && |"external-secret"| == 15 && |"aws-acm"| == 7 && |"cert-manager"| == 12;
  }

  lemma TextFound(w: World, v: Var)
    ensures GetOrFile(w, v).Some? <==> FoundIn(w, v)
    ensures FoundIn(w, v) ==> GetOrFile(w, v) == Some(FoundText(w, v))
  {
    hide Trim;
  }

  /** The variable or its companion holds something. */
  predicate NamedAtAll(w: World, v: Var) {
    !Blank(w, Direct(v)) || !Blank(w, FileOf(v))
  }

  lemma HasOneMeans(w: World, v: Var)
    ensures HasOne(w, v) <==> NamedAtAll(w, v)
  {
    hide Trim;
  }

  lemma {:induction false} LackAllHas(w: World, missing: seq<Var>, vs: seq<Var>, v: Var)
    ensures v in LackAll(w, missing, vs) <==> v in missing || (v in vs && !NamedAtAll(w, v))
    decreases |vs|
  {
    hide HasOne, NamedAtAll;
    if vs != [] {
      var init, last := vs[..|vs| - 1], vs[|vs| - 1];
      assert vs == init + [last];
      LackAllHas(w, missing, init, v);
      HasOneMeans(w, last);
    }
  }

  /** Which inputs the packet asks for: the common ones, those of a shared profile and of a public deployment, */
  predicate WantedFirst(w: World, v: Var) {
    || v in [ApiImage, WorkerImage, PublicHostname, RedisUrl, ControlPlanePg, BillingLedgerPg, RuntimeProfile, PkiPath, AdminKey, MetricsKey, MfaKey]
    || (v == ReleaseAuthorityPg && Is(w, RuntimeProfile, "production-shared"))
    || (v in [StripeKey, StripeSecret, PricePilot, PriceStarter, PricePro, OverageStarter, OveragePro, SuccessUrl, CancelUrl, PortalUrl]
        && !Blank(w, Direct(PublicHostname)))
  }

  /** and those of the modes of TLS, secrets and sign-in. */
  predicate WantedLast(w: World, v: Var) {
    || (v in [TlsCert, TlsKey] && TlsModeOf(w) == "secret")
    || (v == ClusterIssuer && TlsModeOf(w) == "cert-manager")
    || (v == AlbCertificates && w.provider == Aws && TlsModeOf(w) == "aws-acm")
    || (v == SecretStore && (Is(w, SecretMode, "external-secret") || Is(w, TlsMode, "external-secret")))
    || (v == OidcStateKey && !Blank(w, Direct(OidcIssuer)) && !Blank(w, Direct(OidcClient)))
    || (v == SamlRelayKey && SamlOn(w))
    || (v in [SamlSpKey, SamlSpCert] && SamlOn(w) && !Blank(w, Direct(SamlSign)) && Lower(TextOf(w, Direct(SamlSign))) in ["1", "true", "yes", "on"])
  }

  /** Asking for more inputs, only where a condition holds. */
  lemma LackWhere(w: World, missing: seq<Var>, condition: bool, vs: seq<Var>, v: Var)
    ensures v in (if condition then LackAll(w, missing, vs) else missing) <==> v in missing || (condition && v in vs && !NamedAtAll(w, v))
  {
    hide LackAll, NamedAtAll;
    LackAllHas(w, missing, vs, v);
  }

  /** The inputs asked for in the first half of the list, */
  function FirstMissing(w: World): seq<Var> {
    var first := LackAll(w, [], FIRST_INPUTS);
    var authority := if Shared(w) then LackAll(w, first, [ReleaseAuthorityPg]) else first;
    var pki := Lack(LackAll(w, authority, [PkiPath]), !Truthy(w, PkiSharedPath), PkiSharedPath);
    var keys := LackAll(w, pki, KEY_INPUTS);
    if Public(w) then LackAll(w, keys, PUBLIC_INPUTS) else keys
  }

  /** and in the second. */
  function LastMissing(w: World, public: seq<Var>): seq<Var> {
    var secret := if Tls(w) == "secret" then LackAll(w, public, [TlsCert, TlsKey]) else public;
    var issuer := if Tls(w) == "cert-manager" then LackAll(w, secret, [ClusterIssuer]) else secret;
    var acm := if w.provider == Aws && Tls(w) == "aws-acm" then LackAll(w, issuer, [AlbCertificates]) else issuer;
    SignInMissing(w, if ExternalSecrets(w) then LackAll(w, acm, [SecretStore]) else acm)
  }

  function SignInMissing(w: World, store: seq<Var>): seq<Var> {
    var oidc := if Oidc(w) then LackAll(w, store, [OidcStateKey]) else store;
    var saml := if Saml(w) then LackAll(w, oidc, [SamlRelayKey]) else oidc;
    if Saml(w) && SignsTrimmed(w) then LackAll(w, saml, [SamlSpKey, SamlSpCert]) else saml
  }

  lemma MissingInTwo(w: World)
    ensures MissingInputs(w) == LastMissing(w, FirstMissing(w))
  {
    hide LackAll, Lack, Shared, Public, Tls, ExternalSecrets, Oidc, Saml, SignsTrimmed, Truthy;
  }

  lemma FirstMissingHas(w: World, v: Var)
    ensures v in FirstMissing(w) <==>
      || (v == PkiSharedPath && !Truthy(w, PkiSharedPath))
      || (!NamedAtAll(w, v)
          && (v in FIRST_INPUTS || v == PkiPath || v in KEY_INPUTS || (v == ReleaseAuthorityPg && Shared(w)) || (v in PUBLIC_INPUTS && Public(w))))
  {
    hide LackAll, NamedAtAll, Shared, Public, Truthy;
    LackAllHas(w, [], FIRST_INPUTS, v);
    var first := LackAll(w, [], FIRST_INPUTS);
    LackWhere(w, first, Shared(w), [ReleaseAuthorityPg], v);
    var authority := if Shared(w) then LackAll(w, first, [ReleaseAuthorityPg]) else first;
    LackAllHas(w, authority, [PkiPath], v);
    var pki := Lack(LackAll(w, authority, [PkiPath]), !Truthy(w, PkiSharedPath), PkiSharedPath);
    LackAllHas(w, pki, KEY_INPUTS, v);
    LackWhere(w, LackAll(w, pki, KEY_INPUTS), Public(w), PUBLIC_INPUTS, v);
  }

  lemma SignInMissingHas(w: World, store: seq<Var>, v: Var)
    ensures v in SignInMissing(w, store) <==>
      || v in store
      || (!NamedAtAll(w, v)
          && (|| (v == OidcStateKey && Oidc(w))
              || (v == SamlRelayKey && Saml(w))
              || (v in [SamlSpKey, SamlSpCert] && Saml(w) && SignsTrimmed(w))))
  {
    hide LackAll, NamedAtAll, Oidc, Saml, SignsTrimmed;
    LackWhere(w, store, Oidc(w), [OidcStateKey], v);
    var oidc := if Oidc(w) then LackAll(w, store, [OidcStateKey]) else store;
    LackWhere(w, oidc, Saml(w), [SamlRelayKey], v);
    var saml := if Saml(w) then LackAll(w, oidc, [SamlRelayKey]) else oidc;
    LackWhere(w, saml, Saml(w) && SignsTrimmed(w), [SamlSpKey, SamlSpCert], v);
  }

  lemma LastMissingHas(w: World, public: seq<Var>, v: Var)
    ensures v in LastMissing(w, public) <==>
      || v in public
      || (!NamedAtAll(w, v)
          && (|| (v in [TlsCert, TlsKey] && Tls(w) == "secret")
              || (v == ClusterIssuer && Tls(w) == "cert-manager")
              || (v == AlbCertificates && w.provider == Aws && Tls(w) == "aws-acm")
              || (v == SecretStore && ExternalSecrets(w))
              || (v == OidcStateKey && Oidc(w))
              || (v == SamlRelayKey && Saml(w))
              || (v in [SamlSpKey, SamlSpCert] && Saml(w) && SignsTrimmed(w))))
  {
    hide LackAll, NamedAtAll, Tls, ExternalSecrets, Oidc, Saml, SignsTrimmed, SignInMissing;
    LackWhere(w, public, Tls(w) == "secret", [TlsCert, TlsKey], v);
    var secret := if Tls(w) == "secret" then LackAll(w, public, [TlsCert, TlsKey]) else public;
    LackWhere(w, secret, Tls(w) == "cert-manager", [ClusterIssuer], v);
    var issuer := if Tls(w) == "cert-manager" then LackAll(w, secret, [ClusterIssuer]) else secret;
    LackWhere(w, issuer, w.provider == Aws && Tls(w) == "aws-acm", [AlbCertificates], v);
    var acm := if w.provider == Aws && Tls(w) == "aws-acm" then LackAll(w, issuer, [AlbCertificates]) else issuer;
    LackWhere(w, acm, ExternalSecrets(w), [SecretStore], v);
    SignInMissingHas(w, if ExternalSecrets(w) then LackAll(w, acm, [SecretStore]) else acm, v);
  }

  lemma FirstWanted(w: World, v: Var)
    ensures v in FirstMissing(w) <==> (v == PkiSharedPath && !SaysYes(w, PkiSharedPath)) || (WantedFirst(w, v) && !NamedAtAll(w, v))
  {
    hide FirstMissing, NamedAtAll, Shared, Public, Truthy, SaysYes, Is, Blank, Tls, TlsModeOf, ExternalSecrets, Oidc, Saml, SamlOn, SignsTrimmed, Lower, Trim;
    MissingLeaves(w);
    FirstMissingHas(w, v);
  }

  lemma LastWanted(w: World, v: Var)
    ensures v in LastMissing(w, []) <==> WantedLast(w, v) && !NamedAtAll(w, v)
    ensures forall public :: v in LastMissing(w, public) <==> v in public || v in LastMissing(w, [])
  {
    hide LastMissing, NamedAtAll, Shared, Public, Truthy, SaysYes, Is, Blank, Tls, TlsModeOf, ExternalSecrets, Oidc, Saml, SamlOn, SignsTrimmed, Lower, Trim;
    MissingLeaves(w);
    LastMissingHas(w, [], v);
    forall public ensures v in LastMissing(w, public) <==> v in public || v in LastMissing(w, []) { LastMissingHas(w, public, v); }
  }

  /** Exactly which inputs the packet lists as missing. */
  lemma MissingInputsHold(w: World, v: Var)
    ensures v in MissingInputs(w) <==>
      (v == PkiSharedPath && !SaysYes(w, PkiSharedPath)) || ((WantedFirst(w, v) || WantedLast(w, v)) && !NamedAtAll(w, v))
  {
    hide MissingInputs, FirstMissing, LastMissing, NamedAtAll, WantedFirst, WantedLast, SaysYes;
    MissingInTwo(w);
    FirstWanted(w, v);
    LastWanted(w, v);
  }

  lemma MissingLeaves(w: World)
    ensures Shared(w) <==> Is(w, RuntimeProfile, "production-shared")
    ensures Public(w) <==> !Blank(w, Direct(PublicHostname))
    ensures Tls(w) == TlsModeOf(w)
    ensures ExternalSecrets(w) <==> Is(w, SecretMode, "external-secret") || Is(w, TlsMode, "external-secret")
    ensures Oidc(w) <==> !Blank(w, Direct(OidcIssuer)) && !Blank(w, Direct(OidcClient))
    ensures Saml(w) <==> SamlOn(w)
    ensures SignsTrimmed(w) <==> !Blank(w, Direct(SamlSign)) && Lower(TextOf(w, Direct(SamlSign))) in ["1", "true", "yes", "on"]
    ensures Truthy(w, PkiSharedPath) <==> SaysYes(w, PkiSharedPath)
  {
    hide Trim, Lower;
    ConnectivityLeaves(w);
    SecretLeaves(w);
  }
}
