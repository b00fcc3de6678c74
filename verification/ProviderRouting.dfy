/**
 Choosing a language-model provider for a request: selection, failover compatibility, and the
 evidence that a production route must bring before it counts as ready.
 */
module ProviderRouting {
  import opened Wrappers
  import Text

  datatype Purpose = Reasoning | Vision | StructuredOutput | ToolRouting | Fallback

  datatype WireStatus = Wired | Planned | Disabled

  datatype OutputMode = OpenaiJsonSchema | AnthropicStrictTool | VertexResponseSchema | AzureJsonSchema | NoMode

  datatype Capability = Capability(
    textGeneration: bool, multimodalVision: bool, toolCalling: bool, structuredOutputMode: OutputMode)

  datatype Provider = Provider(
    id: string, wireStatus: WireStatus, models: map<Purpose, string>, capability: Capability, rateLimitSignals: seq<string>)

  datatype Request = Request(
    purpose: Purpose, providerId: Option<string>, requireProductionRuntime: bool, requireFailover: bool,
    requireStructuredOutput: bool, providers: seq<Provider>)

  datatype Requirements = Requirements(
    textGeneration: bool, multimodalVision: bool, toolCalling: bool, structuredOutput: bool, rateLimitPolicy: bool)

  datatype Role = Primary | Failover

  datatype DigestName =
    | CustomerApproval | DataResidencyApproval | RetentionApproval | TimeoutPolicy | BudgetPolicy
    | LiveSmokeProof | RateLimitPolicy | OutputSchema | ToolSchema

  datatype Issue =
    | EvidenceMissing | ProviderMismatch | PurposeMismatch | ModelMismatch
    | RawPromptStorage | RawBodyStorage | CredentialExposure
    | DigestRequired(name: DigestName)
    | SmokeProofNotValid | SdkRetriesNotDisabled | ResponseStorageNotDisabled

  datatype Blocker =
    | PrimaryNotWiredForPurpose | SelectedProviderNotWired
    | ModelNotConfigured | TextGenerationNotSupported | VisionNotSupported | ToolCallingNotSupported
    | StructuredOutputNotSupported | RateLimitPolicyMissing
    | FailoverProviderNotWired | CompatibleFailoverNotReady
    | LiveSmokeProofRequired
    | Evidence(role: Role, issue: Issue)

  /** `pushBlocker` under a condition: a blocker is recorded once. */
  function PushIf(bs: seq<Blocker>, condition: bool, b: Blocker): (r: seq<Blocker>)
    ensures r == [] <==> bs == [] && !condition
    ensures forall x :: x in r <==> x in bs || (condition && x == b)
  {
    if condition && b !in bs then bs + [b] else bs
  }

  // ---------------------------------------------------------------- routes

  predicate HasModel(p: Provider, purpose: Purpose) {
    purpose in p.models && p.models[purpose] != ""
  }

  function RequirementsOf(r: Request): Requirements {
    Requirements(
      r.purpose != Vision,
      r.purpose == Vision,
      r.purpose == ToolRouting,
      r.requireStructuredOutput || r.purpose == StructuredOutput,
      r.requireFailover || r.requireProductionRuntime)
  }

  function ProviderBlockers(p: Provider, purpose: Purpose, need: Requirements): seq<Blocker> {
    var b0 := PushIf([], !HasModel(p, purpose), ModelNotConfigured);
    var b1 := PushIf(b0, need.textGeneration && !p.capability.textGeneration, TextGenerationNotSupported);
    var b2 := PushIf(b1, need.multimodalVision && !p.capability.multimodalVision, VisionNotSupported);
    var b3 := PushIf(b2, need.toolCalling && !p.capability.toolCalling, ToolCallingNotSupported);
    var b4 := PushIf(b3, need.structuredOutput && p.capability.structuredOutputMode == NoMode, StructuredOutputNotSupported);
    PushIf(b4, need.rateLimitPolicy && p.rateLimitSignals == [], RateLimitPolicyMissing)
  }

  /** `providers.find(...)` by id. */
  function FindById(ps: seq<Provider>, id: string): Option<Provider> {
    if ps == [] then None else if ps[0].id == id then Some(ps[0]) else FindById(ps[1..], id)
  }

  function FindWired(ps: seq<Provider>, purpose: Purpose): Option<Provider> {
    if ps == [] then None
    else if ps[0].wireStatus.Wired? && HasModel(ps[0], purpose) then Some(ps[0])
    else FindWired(ps[1..], purpose)
  }

  function Selected(r: Request): Option<Provider> {
    if r.providerId.Some? && r.providerId.value != "" then FindById(r.providers, r.providerId.value)
    else FindWired(r.providers, r.purpose)
  }

  predicate IsOther(p: Provider, selected: Option<Provider>) {
    selected.Some? ==> p.id != selected.value.id
  }

  predicate IsFailover(p: Provider, selected: Option<Provider>, purpose: Purpose, need: Requirements) {
    p.wireStatus.Wired? && IsOther(p, selected) && ProviderBlockers(p, purpose, need) == []
  }

  function Failovers(ps: seq<Provider>, selected: Option<Provider>, purpose: Purpose, need: Requirements): (fs: seq<Provider>)
    ensures forall f :: f in fs <==> f in ps && IsFailover(f, selected, purpose, need)
  {
    if ps == [] then []
    else (if IsFailover(ps[0], selected, purpose, need) then [ps[0]] else []) + Failovers(ps[1..], selected, purpose, need)
  }

  predicate HasWiredOther(ps: seq<Provider>, selected: Option<Provider>) {
    exists p :: p in ps && p.wireStatus.Wired? && IsOther(p, selected)
  }

  /** The loop that copies the provider's own blockers. */
  function PushAll(bs: seq<Blocker>, more: seq<Blocker>): (r: seq<Blocker>)
    ensures r == [] <==> bs == [] && more == []
    ensures forall x :: x in r <==> x in bs || x in more
  {
    if more == [] then bs else PushIf(PushAll(bs, more[..|more| - 1]), true, more[|more| - 1])
  }

  function RouteFailovers(r: Request): seq<Provider> {
    Failovers(r.providers, Selected(r), r.purpose, RequirementsOf(r))
  }

  function RouteBlockers(r: Request): seq<Blocker> {
    var selected, need := Selected(r), RequirementsOf(r);
    var b0 := PushIf([], selected.None?, PrimaryNotWiredForPurpose);
    var b1 := PushIf(b0, selected.Some? && !selected.value.wireStatus.Wired?, SelectedProviderNotWired);
    var b2 := PushAll(b1, if selected.Some? then ProviderBlockers(selected.value, r.purpose, need) else []);
    var wiredOther := HasWiredOther(r.providers, selected);
    var b3 := PushIf(b2, r.requireFailover && !wiredOther, FailoverProviderNotWired);
    var b4 := PushIf(b3, r.requireFailover && wiredOther && RouteFailovers(r) == [], CompatibleFailoverNotReady);
    PushIf(b4, r.requireProductionRuntime, LiveSmokeProofRequired)
  }

  function Ids(ps: seq<Provider>): (ids: seq<string>)
    ensures |ids| == |ps| && forall i :: 0 <= i < |ps| ==> ids[i] == ps[i].id
  {
    seq(|ps|, i requires 0 <= i < |ps| => ps[i].id)
  }

  datatype Decision = Decision(
    selected: bool, providerId: Option<string>, model: Option<string>, need: Requirements,
    failoverIds: seq<string>, blockers: seq<Blocker>)

  function EvaluateRoute(r: Request): Decision {
    var p := Selected(r);
    Decision(
      RouteBlockers(r) == [],
      if p.Some? then Some(p.value.id) else None,
      if p.Some? && r.purpose in p.value.models then Some(p.value.models[r.purpose]) else None,
      RequirementsOf(r),
      Ids(RouteFailovers(r)),
      RouteBlockers(r))
  }

  predicate DistinctIds(ps: seq<Provider>) {
    forall i, j :: 0 <= i < j < |ps| ==> ps[i].id != ps[j].id
  }

  lemma {:induction false} FindByIdDistinct(ps: seq<Provider>, p: Provider)
    requires DistinctIds(ps) && p in ps
    ensures FindById(ps, p.id) == Some(p)
  {
    if ps[0] != p {
      assert p in ps[1..];
      FindByIdDistinct(ps[1..], p);
    }
  }

  lemma {:induction false} FindByIdIn(ps: seq<Provider>, id: string)
    ensures FindById(ps, id).Some? ==> FindById(ps, id).value in ps && FindById(ps, id).value.id == id
  {
    if ps != [] { FindByIdIn(ps[1..], id); }
  }

  lemma {:induction false} FindWiredIn(ps: seq<Provider>, purpose: Purpose)
    ensures FindWired(ps, purpose).Some? ==>
      var p := FindWired(ps, purpose).value; p in ps && p.wireStatus.Wired? && HasModel(p, purpose)
    ensures FindWired(ps, purpose).None? <==> forall p :: p in ps ==> !(p.wireStatus.Wired? && HasModel(p, purpose))
  {
    if ps != [] { FindWiredIn(ps[1..], purpose); }
  }

  lemma SelectedIn(r: Request)
    ensures Selected(r).Some? ==> Selected(r).value in r.providers
  {
    FindWiredIn(r.providers, r.purpose);
    if r.providerId.Some? { FindByIdIn(r.providers, r.providerId.value); }
  }

  // ---------------------------------------------------------------- failover symmetry

  /**
   If a route is selected, re-issuing the request pinned to any of its failovers is selected too,
   goes to that failover, and lists the original provider among its own failovers.
   */
  lemma FailoverSymmetry(r: Request, f: Provider)
    requires DistinctIds(r.providers) && EvaluateRoute(r).selected && f in RouteFailovers(r) && f.id != ""
    ensures var pinned := EvaluateRoute(r.(providerId := Some(f.id)));
      && pinned.selected
      && pinned.providerId == Some(f.id)
      && EvaluateRoute(r).providerId.value in pinned.failoverIds
  {
    var r' := r.(providerId := Some(f.id));
    SelectedIn(r);
    var p := Selected(r).value;
    FindByIdDistinct(r.providers, f);
    assert Selected(r') == Some(f);
    assert IsFailover(p, Some(f), r.purpose, RequirementsOf(r'));
    assert p in RouteFailovers(r');
    var i :| 0 <= i < |RouteFailovers(r')| && RouteFailovers(r')[i] == p;
    assert Ids(RouteFailovers(r'))[i] == p.id;
  }

  // ---------------------------------------------------------------- monotonicity of route blockers

  /** The same request with possibly more required of it. */
  predicate RequiresMore(r: Request, r': Request) {
    && r' == r.(requireProductionRuntime := r'.requireProductionRuntime, requireFailover := r'.requireFailover,
                requireStructuredOutput := r'.requireStructuredOutput)
    && (r.requireProductionRuntime ==> r'.requireProductionRuntime)
    && (r.requireFailover ==> r'.requireFailover)
    && (r.requireStructuredOutput ==> r'.requireStructuredOutput)
  }

  lemma ProviderBlockersGrow(p: Provider, r: Request, r': Request)
    requires RequiresMore(r, r')
    ensures forall b :: b in ProviderBlockers(p, r.purpose, RequirementsOf(r)) ==>
      b in ProviderBlockers(p, r.purpose, RequirementsOf(r'))
  {
  }

  lemma FailoversShrink(r: Request, r': Request)
    requires RequiresMore(r, r')
    ensures Selected(r') == Selected(r)
    ensures forall f :: f in RouteFailovers(r') ==> f in RouteFailovers(r)
  {
    forall f | f in RouteFailovers(r') ensures f in RouteFailovers(r) {
      ProviderBlockersGrow(f, r, r');
    }
  }

  /** Requiring more of a route never removes a blocker. */
  lemma RouteBlockersGrow(r: Request, r': Request)
    requires RequiresMore(r, r')
    ensures forall b :: b in RouteBlockers(r) ==> b in RouteBlockers(r')
  {
    FailoversShrink(r, r');
    if Selected(r).Some? {
      ProviderBlockersGrow(Selected(r).value, r, r');
    }
    assert RouteFailovers(r) == [] ==> RouteFailovers(r') == [] by {
      if RouteFailovers(r') != [] { assert RouteFailovers(r')[0] in RouteFailovers(r); }
    }
  }

  // ---------------------------------------------------------------- runtime evidence

  datatype SmokeState = NotConfigured | Valid | Invalid | Stale

  datatype RuntimeEvidence = RuntimeEvidence(
    providerId: string, purpose: Purpose, configuredModel: string,
    smokeState: Option<SmokeState>, digests: map<DigestName, string>,
    sdkRetriesDisabled: bool, responseStorageDisabled: bool,
    rawPromptStored: bool, rawBodyStored: bool, credentialsExposed: bool)

  /** `/^sha256:[a-f0-9]{64}$/` */
  predicate IsSha256(s: string) {
    && |s| == 71 && s[..7] == "sha256:"
    && forall i :: 7 <= i < 71 ==> '0' <= s[i] <= '9' || 'a' <= s[i] <= 'f'
  }

  predicate HasDigest(e: RuntimeEvidence, name: DigestName) {
    name in e.digests && IsSha256(e.digests[name])
  }

  /** What the evidence for one provider has to speak about, and how much of it is required. */
  datatype Expectation = Expectation(
    role: Role, providerId: string, purpose: Purpose, model: string,
    production: bool, rateLimit: bool, structured: bool, tools: bool)

  function NeedDigest(bs: seq<Blocker>, e: RuntimeEvidence, x: Expectation, required: bool, name: DigestName): (r: seq<Blocker>)
    ensures r == [] <==> bs == [] && (required ==> HasDigest(e, name))
    ensures forall b :: b in r <==> b in bs || (required && !HasDigest(e, name) && b == Evidence(x.role, DigestRequired(name)))
  {
    PushIf(bs, required && !HasDigest(e, name), Evidence(x.role, DigestRequired(name)))
  }

  function IdentityBlockers(e: RuntimeEvidence, x: Expectation): seq<Blocker> {
    var b1 := PushIf([], e.providerId != x.providerId, Evidence(x.role, ProviderMismatch));
    var b2 := PushIf(b1, e.purpose != x.purpose, Evidence(x.role, PurposeMismatch));
    var b3 := PushIf(b2, e.configuredModel != x.model, Evidence(x.role, ModelMismatch));
    var b4 := PushIf(b3, e.rawPromptStored, Evidence(x.role, RawPromptStorage));
    var b5 := PushIf(b4, e.rawBodyStored, Evidence(x.role, RawBodyStorage));
    PushIf(b5, e.credentialsExposed, Evidence(x.role, CredentialExposure))
  }

  function ProductionBlockers(b0: seq<Blocker>, e: RuntimeEvidence, x: Expectation): seq<Blocker> {
    var b1 := NeedDigest(b0, e, x, x.production, CustomerApproval);
    var b2 := NeedDigest(b1, e, x, x.production, DataResidencyApproval);
    var b3 := NeedDigest(b2, e, x, x.production, RetentionApproval);
    var b4 := NeedDigest(b3, e, x, x.production, TimeoutPolicy);
    var b5 := NeedDigest(b4, e, x, x.production, BudgetPolicy);
    var b6 := NeedDigest(b5, e, x, x.production, LiveSmokeProof);
    var b7 := PushIf(b6, x.production && e.smokeState != Some(Valid), Evidence(x.role, SmokeProofNotValid));
    var b8 := PushIf(b7, x.production && !e.sdkRetriesDisabled, Evidence(x.role, SdkRetriesNotDisabled));
    PushIf(b8, x.production && !e.responseStorageDisabled, Evidence(x.role, ResponseStorageNotDisabled))
  }

  function EvidenceBlockers(evidence: Option<RuntimeEvidence>, x: Expectation): seq<Blocker> {
    match evidence
    case None => PushIf([], x.production || x.rateLimit || x.structured || x.tools, Evidence(x.role, EvidenceMissing))
    case Some(e) =>
      var b0 := ProductionBlockers(IdentityBlockers(e, x), e, x);
      var b1 := NeedDigest(b0, e, x, x.rateLimit, RateLimitPolicy);
      var b2 := NeedDigest(b1, e, x, x.structured, OutputSchema);
      NeedDigest(b2, e, x, x.tools, ToolSchema)
  }

  /** Evidence that a production route may rest on. */
  predicate IsSound(e: RuntimeEvidence, x: Expectation) {
    && e.providerId == x.providerId && e.purpose == x.purpose && e.configuredModel == x.model
    && !e.rawPromptStored && !e.rawBodyStored && !e.credentialsExposed
    && e.smokeState == Some(Valid) && e.sdkRetriesDisabled && e.responseStorageDisabled
    && HasDigest(e, CustomerApproval) && HasDigest(e, DataResidencyApproval) && HasDigest(e, RetentionApproval)
    && HasDigest(e, TimeoutPolicy) && HasDigest(e, BudgetPolicy) && HasDigest(e, LiveSmokeProof)
    && (x.rateLimit ==> HasDigest(e, RateLimitPolicy))
    && (x.structured ==> HasDigest(e, OutputSchema))
    && (x.tools ==> HasDigest(e, ToolSchema))
  }

  /** In production, evidence raises no blocker exactly when it is there and sound. */
  lemma EvidenceSound(evidence: Option<RuntimeEvidence>, x: Expectation)
    requires x.production
    ensures EvidenceBlockers(evidence, x) == [] <==> evidence.Some? && IsSound(evidence.value, x)
  {
    hide HasDigest;
  }

  /** More required of the same evidence never removes one of its blockers. */
  lemma EvidenceBlockersGrow(evidence: Option<RuntimeEvidence>, x: Expectation, x': Expectation)
    requires x' == x.(production := x'.production, rateLimit := x'.rateLimit, structured := x'.structured)
    requires (x.production ==> x'.production) && (x.rateLimit ==> x'.rateLimit) && (x.structured ==> x'.structured)
    ensures forall b :: b in EvidenceBlockers(evidence, x) ==> b in EvidenceBlockers(evidence, x')
  {
    hide HasDigest, PushIf, NeedDigest, IdentityBlockers, ProductionBlockers;
    if evidence.Some? {
      var e := evidence.value;
      IdentityUnaffected(e, x, x');
      ProductionBlockersGrow(IdentityBlockers(e, x), e, x, x');
    }
  }

  lemma IdentityUnaffected(e: RuntimeEvidence, x: Expectation, x': Expectation)
    requires x' == x.(production := x'.production, rateLimit := x'.rateLimit, structured := x'.structured)
    ensures IdentityBlockers(e, x') == IdentityBlockers(e, x)
  {
    hide PushIf;
  }

  lemma ProductionBlockersGrow(bs: seq<Blocker>, e: RuntimeEvidence, x: Expectation, x': Expectation)
    requires x'.role == x.role && (x.production ==> x'.production)
    ensures forall b :: b in ProductionBlockers(bs, e, x) ==> b in ProductionBlockers(bs, e, x')
  {
    hide HasDigest, PushIf, NeedDigest;
  }

  // ---------------------------------------------------------------- routing readiness

  datatype Input = Input(request: Request, primaryEvidence: Option<RuntimeEvidence>, failoverEvidence: seq<RuntimeEvidence>)

  datatype State = EvaluationReady | ProductionReady | Blocked

  datatype Readiness = Readiness(state: State, primary: Option<string>, model: Option<string>, failoverIds: seq<string>,
                                 evidenceIds: seq<string>, blockers: seq<Blocker>)

  function WithoutSmoke(bs: seq<Blocker>): (r: seq<Blocker>)
    ensures forall b :: b in r <==> b in bs && b != LiveSmokeProofRequired
  {
    if bs == [] then []
    else WithoutSmoke(bs[..|bs| - 1]) + if bs[|bs| - 1] == LiveSmokeProofRequired then [] else [bs[|bs| - 1]]
  }

  function Unique<T(==,!new)>(xs: seq<T>): (r: seq<T>)
    ensures r == [] <==> xs == []
    ensures forall x :: x in r <==> x in xs
    ensures forall i, j :: 0 <= i < j < |r| ==> r[i] != r[j]
  {
    if xs == [] then []
    else
      var init, last := Unique(xs[..|xs| - 1]), xs[|xs| - 1];
      if last in init then init else init + [last]
  }

  function FindEvidence(es: seq<RuntimeEvidence>, id: string, purpose: Purpose): Option<RuntimeEvidence> {
    if es == [] then None
    else if es[0].providerId == id && es[0].purpose == purpose then Some(es[0])
    else FindEvidence(es[1..], id, purpose)
  }

  function PrimaryExpectation(r: Request, id: string, model: string): Expectation {
    var need := RequirementsOf(r);
    Expectation(Primary, id, r.purpose, model, r.requireProductionRuntime, need.rateLimitPolicy, need.structuredOutput, need.toolCalling)
  }

  function FailoverExpectation(r: Request, id: string, model: string): Expectation {
    var need := RequirementsOf(r);
    Expectation(Failover, id, r.purpose, model, r.requireProductionRuntime, true, need.structuredOutput, need.toolCalling)
  }

  function PrimaryBlockers(input: Input): seq<Blocker> {
    var route := EvaluateRoute(input.request);
    if route.providerId.Some? && route.providerId.value != "" && route.model.Some? && route.model.value != "" then
      EvidenceBlockers(input.primaryEvidence, PrimaryExpectation(input.request, route.providerId.value, route.model.value))
    else []
  }

  /** The blockers one listed failover contributes: none if its id leads to a provider without a model. */
  function FailoverBlockers(input: Input, id: string): seq<Blocker> {
    var r := input.request;
    var p := FindById(r.providers, id);
    if p.Some? && HasModel(p.value, r.purpose) then
      EvidenceBlockers(FindEvidence(input.failoverEvidence, id, r.purpose), FailoverExpectation(r, id, p.value.models[r.purpose]))
    else []
  }

  function AllFailoverBlockers(input: Input, ids: seq<string>): (bs: seq<Blocker>)
    ensures bs == [] <==> forall id :: id in ids ==> FailoverBlockers(input, id) == []
    ensures forall b :: b in bs <==> exists id :: id in ids && b in FailoverBlockers(input, id)
  {
    if ids == [] then []
    else
      assert forall id :: id in ids <==> id in ids[..|ids| - 1] || id == ids[|ids| - 1];
      AllFailoverBlockers(input, ids[..|ids| - 1]) + FailoverBlockers(input, ids[|ids| - 1])
  }

  /** The evidence that is looked at is named, the primary's by the id it carries. */
  function PrimaryEvidenceIds(input: Input): seq<string> {
    var route := EvaluateRoute(input.request);
    if route.providerId.Some? && route.providerId.value != "" && route.model.Some? && route.model.value != ""
       && input.primaryEvidence.Some?
    then [input.primaryEvidence.value.providerId] else []
  }

  function FailoverEvidenceIds(input: Input, ids: seq<string>): (r: seq<string>)
    ensures forall id :: id in r <==> id in ids && Consulted(input, id)
  {
    if ids == [] then []
    else
      var last := ids[|ids| - 1];
      assert forall id :: id in ids <==> id in ids[..|ids| - 1] || id == last;
      FailoverEvidenceIds(input, ids[..|ids| - 1]) + if Consulted(input, last) then [last] else []
  }

  predicate Consulted(input: Input, id: string) {
    var p := FindById(input.request.providers, id);
    && p.Some? && HasModel(p.value, input.request.purpose)
    && FindEvidence(input.failoverEvidence, id, input.request.purpose).Some?
  }

  function EvidenceIds(input: Input): seq<string> {
    Unique(PrimaryEvidenceIds(input)
      + if input.request.requireFailover then FailoverEvidenceIds(input, EvaluateRoute(input.request).failoverIds) else [])
  }

  lemma FailoverEvidenceIdsStep(input: Input, ids: seq<string>, i: nat)
    requires i < |ids|
    ensures FailoverEvidenceIds(input, ids[..i + 1])
      == FailoverEvidenceIds(input, ids[..i]) + if Consulted(input, ids[i]) then [ids[i]] else []
  {
    hide Consulted;
    assert ids[..i + 1][..i] == ids[..i];
  }

  lemma {:induction false} FoundEvidenceId(es: seq<RuntimeEvidence>, id: string, purpose: Purpose)
    ensures FindEvidence(es, id, purpose).Some? ==> FindEvidence(es, id, purpose).value.providerId == id
  {
    if es != [] {
      FoundEvidenceId(es[1..], id, purpose);
    }
  }

  function ReadinessBlockers(input: Input): seq<Blocker> {
    var route := EvaluateRoute(input.request);
    Unique(WithoutSmoke(route.blockers) + PrimaryBlockers(input)
      + if input.request.requireFailover then AllFailoverBlockers(input, route.failoverIds) else [])
  }

  lemma NoFailoverBlockers(input: Input)
    ensures AllFailoverBlockers(input, []) == []
  {
  }

  lemma NoFailoverIds(input: Input)
    ensures FailoverEvidenceIds(input, []) == []
  {
  }

  lemma FailoverBlockersStep(input: Input, ids: seq<string>, i: nat)
    requires i < |ids|
    ensures AllFailoverBlockers(input, ids[..i + 1]) == AllFailoverBlockers(input, ids[..i]) + FailoverBlockers(input, ids[i])
  {
    hide FailoverBlockers;
    assert ids[..i + 1][..i] == ids[..i];
  }

  method EvaluateReadiness(input: Input) returns (r: Readiness)
    ensures r.blockers == ReadinessBlockers(input) && r.evidenceIds == EvidenceIds(input)
    ensures r.state == if r.blockers != [] then Blocked
                       else if input.request.requireProductionRuntime then ProductionReady else EvaluationReady
    ensures var route := EvaluateRoute(input.request);
      r.primary == route.providerId && r.model == route.model && r.failoverIds == route.failoverIds
  {
    hide EvidenceBlockers, EvaluateRoute, AllFailoverBlockers, WithoutSmoke, Unique, PrimaryBlockers, FindEvidence, FindById, RequirementsOf,
      FailoverEvidenceIds, PrimaryEvidenceIds;
    var route := EvaluateRoute(input.request);
    var blockers := WithoutSmoke(route.blockers);
    blockers := blockers + PrimaryBlockers(input);
    var evidenceIds := PrimaryEvidenceIds(input);
    if input.request.requireFailover {
      ghost var before, beforeIds := blockers, evidenceIds;
      NoFailoverIds(input);
      NoFailoverBlockers(input);
      assert route.failoverIds[..0] == [];
      for i := 0 to |route.failoverIds|
        invariant blockers == before + AllFailoverBlockers(input, route.failoverIds[..i])
        invariant evidenceIds == beforeIds + FailoverEvidenceIds(input, route.failoverIds[..i])
      {
        var id := route.failoverIds[i];
        FailoverBlockersStep(input, route.failoverIds, i);
        FailoverEvidenceIdsStep(input, route.failoverIds, i);
        var provider := FindById(input.request.providers, id);
        if provider.None? || !HasModel(provider.value, input.request.purpose) {
          continue;
        }
        var evidence := FindEvidence(input.failoverEvidence, id, input.request.purpose);
        blockers := blockers
          + EvidenceBlockers(evidence, FailoverExpectation(input.request, id, provider.value.models[input.request.purpose]));
        if evidence.Some? {
          FoundEvidenceId(input.failoverEvidence, id, input.request.purpose);
          evidenceIds := evidenceIds + [evidence.value.providerId];
        }
      }
      assert route.failoverIds[..|route.failoverIds|] == route.failoverIds;
    } else {
      assert blockers + [] == blockers && evidenceIds + [] == evidenceIds;
    }
    var unique := Unique(blockers);
    var state := if unique != [] then Blocked else if input.request.requireProductionRuntime then ProductionReady else EvaluationReady;
    r := Readiness(state, route.providerId, route.model, route.failoverIds, Unique(evidenceIds), unique);
  }

  // ---------------------------------------------------------------- soundness and completeness

  /** A provider that a route may use: wired, with a model, and meeting every requirement. */
  predicate IsCapable(p: Provider, purpose: Purpose, need: Requirements) {
    && p.wireStatus.Wired? && HasModel(p, purpose)
    && (need.textGeneration ==> p.capability.textGeneration)
    && (need.multimodalVision ==> p.capability.multimodalVision)
    && (need.toolCalling ==> p.capability.toolCalling)
    && (need.structuredOutput ==> p.capability.structuredOutputMode != NoMode)
    && (need.rateLimitPolicy ==> p.rateLimitSignals != [])
  }

  predicate EvidenceCovers(evidence: Option<RuntimeEvidence>, x: Expectation) {
    evidence.Some? && IsSound(evidence.value, x)
  }

  /** What a production-ready route guarantees, said without any list of blockers. */
  predicate ProductionGuarantee(input: Input) {
    var r := input.request;
    var need, p := RequirementsOf(r), Selected(r);
    && p.Some? && IsCapable(p.value, r.purpose, need)
    && EvidenceCovers(input.primaryEvidence, PrimaryExpectation(r, p.value.id, p.value.models[r.purpose]))
    && (r.requireFailover ==>
          && (exists f :: f in r.providers && f.id != p.value.id && IsCapable(f, r.purpose, need))
          && (forall f :: f in r.providers && f.id != p.value.id && IsCapable(f, r.purpose, need) ==>
                EvidenceCovers(FindEvidence(input.failoverEvidence, f.id, r.purpose), FailoverExpectation(r, f.id, f.models[r.purpose]))))
  }

  lemma CapableNoBlockers(p: Provider, purpose: Purpose, need: Requirements)
    ensures IsCapable(p, purpose, need) <==> p.wireStatus.Wired? && ProviderBlockers(p, purpose, need) == []
  {
  }

  lemma OwnBlockers(p: Provider, purpose: Purpose, need: Requirements)
    ensures forall b :: b in ProviderBlockers(p, purpose, need) ==> b != LiveSmokeProofRequired && !b.Evidence?
    ensures ProviderBlockers(p, purpose, need) == [] <==> forall b :: b !in ProviderBlockers(p, purpose, need)
  {
    if ProviderBlockers(p, purpose, need) != [] {
      assert ProviderBlockers(p, purpose, need)[0] in ProviderBlockers(p, purpose, need);
    }
  }

  lemma WithoutSmokeEmpty(bs: seq<Blocker>)
    ensures WithoutSmoke(bs) == [] <==> forall b :: b in bs ==> b == LiveSmokeProofRequired
  {
    if WithoutSmoke(bs) != [] { assert WithoutSmoke(bs)[0] in WithoutSmoke(bs); }
  }

  /** The route blockers that survive the filter, without any list. */
  lemma RouteBlockersEmpty(r: Request)
    ensures WithoutSmoke(RouteBlockers(r)) == [] <==>
      && Selected(r).Some? && IsCapable(Selected(r).value, r.purpose, RequirementsOf(r))
      && (r.requireFailover ==> RouteFailovers(r) != [])
  {
    hide ProviderBlockers, WithoutSmoke, IsCapable, RequirementsOf, Failovers, PushIf, PushAll, Selected;
    var bs := RouteBlockers(r);
    WithoutSmokeEmpty(bs);
    if Selected(r).None? {
      assert PrimaryNotWiredForPurpose in bs;
    } else {
      var p := Selected(r).value;
      CapableNoBlockers(p, r.purpose, RequirementsOf(r));
      OwnBlockers(p, r.purpose, RequirementsOf(r));
      assert !p.wireStatus.Wired? ==> SelectedProviderNotWired in bs;
      assert forall b :: b in ProviderBlockers(p, r.purpose, RequirementsOf(r)) ==> b in bs;
      assert r.requireFailover && RouteFailovers(r) == [] ==> FailoverProviderNotWired in bs || CompatibleFailoverNotReady in bs;
    }
    assert RouteFailovers(r) != [] ==> HasWiredOther(r.providers, Selected(r)) by {
      if RouteFailovers(r) != [] { assert RouteFailovers(r)[0] in RouteFailovers(r); }
    }
  }

  lemma {:induction false} IdsOf(ps: seq<Provider>)
    ensures forall id :: id in Ids(ps) <==> exists p :: p in ps && p.id == id
  {
    forall p | p in ps ensures p.id in Ids(ps) {
      var i :| 0 <= i < |ps| && ps[i] == p;
      assert Ids(ps)[i] == p.id;
    }
  }

  /** The provider that the failover's id leads to has the failover's own model for the purpose. */
  predicate LookupAgrees(r: Request, f: Provider) {
    var p := FindById(r.providers, f.id);
    && p.Some? && HasModel(p.value, r.purpose) && HasModel(f, r.purpose)
    && p.value.models[r.purpose] == f.models[r.purpose]
  }

  /** The route itself has no blocker but the one that evidence lifts. */
  predicate RouteOpen(r: Request) {
    && Selected(r).Some? && IsCapable(Selected(r).value, r.purpose, RequirementsOf(r))
    && (r.requireFailover ==> RouteFailovers(r) != [])
  }

  /** The selected provider has an id, and each compatible failover is found under its own. */
  predicate LookupsAgree(r: Request) {
    && (Selected(r).Some? ==> Selected(r).value.id != "")
    && (r.requireFailover ==> forall f :: f in RouteFailovers(r) ==> LookupAgrees(r, f))
  }

  lemma FailoverEvidence(input: Input, f: Provider)
    requires input.request.requireProductionRuntime && LookupAgrees(input.request, f)
    ensures FailoverBlockers(input, f.id) == [] <==>
      EvidenceCovers(FindEvidence(input.failoverEvidence, f.id, input.request.purpose),
        FailoverExpectation(input.request, f.id, f.models[input.request.purpose]))
  {
    hide IsSound, EvidenceBlockers;
    var r := input.request;
    EvidenceSound(FindEvidence(input.failoverEvidence, f.id, r.purpose), FailoverExpectation(r, f.id, f.models[r.purpose]));
  }

  lemma FailoversCapable(r: Request, p: Provider)
    requires Selected(r) == Some(p)
    ensures forall f :: f in RouteFailovers(r) <==> f in r.providers && f.id != p.id && IsCapable(f, r.purpose, RequirementsOf(r))
  {
    hide ProviderBlockers, Failovers, IsCapable, RequirementsOf, Selected;
    forall f | f in r.providers
      ensures f in RouteFailovers(r) <==> f.id != p.id && IsCapable(f, r.purpose, RequirementsOf(r))
    {
      CapableNoBlockers(f, r.purpose, RequirementsOf(r));
    }
  }

  /** The failover half of the guarantee, once there is a capable primary. */
  lemma FailoverReadiness(input: Input, p: Provider)
    requires input.request.requireProductionRuntime && Selected(input.request) == Some(p)
    requires forall f :: f in RouteFailovers(input.request) ==> LookupAgrees(input.request, f)
    ensures var r, need := input.request, RequirementsOf(input.request);
      (RouteFailovers(r) != [] && AllFailoverBlockers(input, Ids(RouteFailovers(r))) == []) <==>
      (&& (exists f :: f in r.providers && f.id != p.id && IsCapable(f, r.purpose, need))
       && (forall f :: f in r.providers && f.id != p.id && IsCapable(f, r.purpose, need) ==>
             EvidenceCovers(FindEvidence(input.failoverEvidence, f.id, r.purpose), FailoverExpectation(r, f.id, f.models[r.purpose]))))
  {
    hide EvidenceCovers, EvidenceBlockers, ProviderBlockers, FailoverBlockers, FailoverExpectation, FindEvidence, IsCapable, RequirementsOf,
      RouteFailovers, LookupAgrees, Selected;
    var r := input.request;
    var need, fs := RequirementsOf(r), RouteFailovers(r);
    IdsOf(fs);
    FailoversCapable(r, p);
    forall f | f in fs
      ensures HasModel(f, r.purpose)
      ensures FailoverBlockers(input, f.id) == [] <==>
        EvidenceCovers(FindEvidence(input.failoverEvidence, f.id, r.purpose), FailoverExpectation(r, f.id, f.models[r.purpose]))
    {
      CapableHasModel(f, r.purpose, need);
      FailoverEvidence(input, f);
    }
    assert fs != [] <==> exists f :: f in fs by {
      if fs != [] { assert fs[0] in fs; }
    }
  }

  /** Readiness and the guarantee agree on this evidence. */
  predicate Agree(input: Input) {
    ReadinessBlockers(input) == [] <==> ProductionGuarantee(input)
  }

  lemma OpenRouteReadiness(input: Input)
    ensures ReadinessBlockers(input) == [] <==>
      && RouteOpen(input.request) && PrimaryBlockers(input) == []
      && (input.request.requireFailover ==> AllFailoverBlockers(input, Ids(RouteFailovers(input.request))) == [])
  {
    hide RouteOpen, PrimaryBlockers, AllFailoverBlockers, WithoutSmoke, RouteBlockers, RouteFailovers, Selected, RequirementsOf, Unique;
    OpenRoute(input.request);
  }

  lemma OpenRoute(r: Request)
    ensures WithoutSmoke(RouteBlockers(r)) == [] <==> RouteOpen(r)
  {
    hide IsCapable, RouteBlockers, WithoutSmoke, RequirementsOf, Selected, RouteFailovers;
    RouteBlockersEmpty(r);
  }

  lemma GuaranteeNeedsOpenRoute(input: Input)
    ensures ProductionGuarantee(input) ==> RouteOpen(input.request)
  {
    hide IsCapable, EvidenceCovers, RequirementsOf, Selected, RouteFailovers, FailoverExpectation, PrimaryExpectation, FindEvidence;
    var r := input.request;
    if ProductionGuarantee(input) {
      FailoversCapable(r, Selected(r).value);
    }
  }

  /** Where lookups agree, a production request is ready if and only if the guarantee holds. */
  lemma AgreeingLookupsSuffice(input: Input)
    requires input.request.requireProductionRuntime && (RouteOpen(input.request) ==> LookupsAgree(input.request))
    ensures Agree(input)
  {
    hide IsSound, EvidenceBlockers, IsCapable, RouteBlockers, FailoverExpectation, FindEvidence, AllFailoverBlockers, ReadinessBlockers,
      RequirementsOf, Selected, RouteFailovers, LookupAgrees;
    var r := input.request;
    OpenRouteReadiness(input);
    GuaranteeNeedsOpenRoute(input);
    if RouteOpen(r) {
      var p := Selected(r).value;
      CapableHasModel(p, r.purpose, RequirementsOf(r));
      EvidenceSound(input.primaryEvidence, PrimaryExpectation(r, p.id, p.models[r.purpose]));
      if r.requireFailover {
        FailoverReadiness(input, p);
      }
    }
  }

  function Zeros(n: nat): (s: string)
    ensures |s| == n && forall i :: 0 <= i < n ==> s[i] == '0'
  {
    if n == 0 then "" else Zeros(n - 1) + "0"
  }

  /** A well-formed digest. */
  function ZeroDigest(): (s: string)
    ensures IsSha256(s)
  {
    var s := "sha256:" + Zeros(64);
    assert s[..7] == "sha256:" && forall i :: 7 <= i < 71 ==> s[i] == Zeros(64)[i - 7];
    s
  }

  /** Evidence with nothing to object to. */
  function Full(id: string, purpose: Purpose, model: string): RuntimeEvidence {
    var d := ZeroDigest();
    RuntimeEvidence(
      id, purpose, model, Some(Valid),
      map[CustomerApproval := d, DataResidencyApproval := d, RetentionApproval := d, TimeoutPolicy := d,
          BudgetPolicy := d, LiveSmokeProof := d, RateLimitPolicy := d, OutputSchema := d, ToolSchema := d],
      true, true, false, false, false)
  }

  lemma FullIsSound(id: string, purpose: Purpose, model: string, x: Expectation)
    requires x.production
    ensures EvidenceBlockers(Some(Full(id, purpose, model)), x) == [] <==>
      id == x.providerId && purpose == x.purpose && model == x.model
  {
    hide EvidenceBlockers, IsSha256, ZeroDigest;
    EvidenceSound(Some(Full(id, purpose, model)), x);
  }

  /** The model that the lookup by id leads to. */
  function LookupModel(r: Request, id: string): string {
    var p := FindById(r.providers, id);
    if p.Some? && HasModel(p.value, r.purpose) then p.value.models[r.purpose] else ""
  }

  /** For each failover, full evidence about the model that its id leads to. */
  function LookupEvidence(r: Request, fs: seq<Provider>): seq<RuntimeEvidence> {
    if fs == [] then [] else [Full(fs[0].id, r.purpose, LookupModel(r, fs[0].id))] + LookupEvidence(r, fs[1..])
  }

  lemma {:induction false} FindLookupEvidence(r: Request, fs: seq<Provider>, f: Provider)
    requires f in fs
    ensures FindEvidence(LookupEvidence(r, fs), f.id, r.purpose) == Some(Full(f.id, r.purpose, LookupModel(r, f.id)))
  {
    hide Full, LookupModel;
    FullNames(fs[0].id, r.purpose, LookupModel(r, fs[0].id));
    var es := LookupEvidence(r, fs);
    assert es[1..] == LookupEvidence(r, fs[1..]);
    if fs[0].id != f.id {
      assert f in fs[1..];
      FindLookupEvidence(r, fs[1..], f);
    }
  }

  lemma FullNames(id: string, purpose: Purpose, model: string)
    ensures
      var e := Full(id, purpose, model);
      e.providerId == id && e.purpose == purpose && e.configuredModel == model
  {
  }

  lemma LookupEvidenceUnblocked(r: Request, primary: Option<RuntimeEvidence>, f: Provider)
    requires r.requireProductionRuntime && f in RouteFailovers(r)
    ensures FailoverBlockers(Input(r, primary, LookupEvidence(r, RouteFailovers(r))), f.id) == []
  {
    hide EvidenceBlockers, Full, LookupEvidence, RouteFailovers, FindEvidence, FindById;
    FindLookupEvidence(r, RouteFailovers(r), f);
    if LookupModel(r, f.id) != "" {
      FullIsSound(f.id, r.purpose, LookupModel(r, f.id), FailoverExpectation(r, f.id, LookupModel(r, f.id)));
    }
  }

  /** Evidence that follows the lookups is all that an open route asks for. */
  lemma LookupEvidenceReady(r: Request, primary: Option<RuntimeEvidence>)
    requires r.requireProductionRuntime && RouteOpen(r)
    requires PrimaryBlockers(Input(r, primary, LookupEvidence(r, RouteFailovers(r)))) == []
    ensures ReadinessBlockers(Input(r, primary, LookupEvidence(r, RouteFailovers(r)))) == []
  {
    hide PrimaryBlockers, FailoverBlockers, LookupEvidence, RouteFailovers, RouteOpen, ReadinessBlockers;
    var input := Input(r, primary, LookupEvidence(r, RouteFailovers(r)));
    OpenRouteReadiness(input);
    IdsOf(RouteFailovers(r));
    forall f | f in RouteFailovers(r)
      ensures FailoverBlockers(input, f.id) == []
    {
      LookupEvidenceUnblocked(r, primary, f);
    }
  }

  lemma LookupEvidenceUncovered(r: Request, primary: Option<RuntimeEvidence>, f: Provider)
    requires r.requireFailover && Selected(r).Some? && f in RouteFailovers(r) && !LookupAgrees(r, f)
    ensures !ProductionGuarantee(Input(r, primary, LookupEvidence(r, RouteFailovers(r))))
  {
    hide Full, LookupEvidence, RouteFailovers, FindEvidence, FindById, IsCapable, RequirementsOf, Selected;
    FailoversCapable(r, Selected(r).value);
    CapableHasModel(f, r.purpose, RequirementsOf(r));
    FindLookupEvidence(r, RouteFailovers(r), f);
    FullNames(f.id, r.purpose, LookupModel(r, f.id));
    assert LookupModel(r, f.id) != f.models[r.purpose];
  }

  lemma NamelessPrimary(r: Request, failover: seq<RuntimeEvidence>)
    requires Selected(r).Some? && Selected(r).value.id == ""
    ensures PrimaryBlockers(Input(r, None, failover)) == [] && !ProductionGuarantee(Input(r, None, failover))
  {
    hide RouteBlockers, RouteFailovers, Selected, RequirementsOf, IsCapable, FindEvidence;
  }

  lemma FullPrimary(r: Request, failover: seq<RuntimeEvidence>) returns (primary: Option<RuntimeEvidence>)
    requires r.requireProductionRuntime && RouteOpen(r)
    ensures PrimaryBlockers(Input(r, primary, failover)) == []
  {
    hide RouteBlockers, RouteFailovers, Selected, RequirementsOf, IsCapable, EvidenceBlockers;
    var p := Selected(r).value;
    CapableHasModel(p, r.purpose, RequirementsOf(r));
    var model := p.models[r.purpose];
    primary := Some(Full(p.id, r.purpose, model));
    FullIsSound(p.id, r.purpose, model, PrimaryExpectation(r, p.id, model));
  }

  /** Where they do not, there is evidence on which readiness and the guarantee part. */
  lemma DisagreeingLookupsPart(r: Request) returns (input: Input)
    requires r.requireProductionRuntime && RouteOpen(r) && !LookupsAgree(r)
    ensures input.request == r && !Agree(input)
  {
    hide ReadinessBlockers, PrimaryBlockers, RouteFailovers, LookupEvidence, ProductionGuarantee, LookupAgrees, Selected, IsCapable, RequirementsOf;
    var failover := LookupEvidence(r, RouteFailovers(r));
    if Selected(r).value.id == "" {
      input := Input(r, None, failover);
      NamelessPrimary(r, failover);
      LookupEvidenceReady(r, None);
    } else {
      var f :| f in RouteFailovers(r) && !LookupAgrees(r, f);
      var primary := FullPrimary(r, failover);
      input := Input(r, primary, failover);
      LookupEvidenceReady(r, primary);
      LookupEvidenceUncovered(r, primary, f);
    }
  }

  /**
   The exact condition, for every production request over every registry: readiness means the guarantee, whatever the
   evidence, if and only if the route is not open anyway, or its provider has an id and every compatible failover is
   found under its own id with its own model.
   */
  lemma GuaranteeExact(r: Request)
    requires r.requireProductionRuntime
    ensures (forall primary, failover :: Agree(Input(r, primary, failover))) <==> (RouteOpen(r) ==> LookupsAgree(r))
  {
    hide Agree, RouteOpen, LookupsAgree;
    if RouteOpen(r) ==> LookupsAgree(r) {
      forall primary, failover
        ensures Agree(Input(r, primary, failover))
      {
        AgreeingLookupsSuffice(Input(r, primary, failover));
      }
    } else {
      var input := DisagreeingLookupsPart(r);
      assert input == Input(r, input.primaryEvidence, input.failoverEvidence);
    }
  }

  /**
   In particular over a registry with distinct ids: the filtered live-smoke blocker is re-imposed by the evidence, for
   the primary and every failover.
   */
  lemma ProductionReadiness(input: Input)
    requires DistinctIds(input.request.providers) && input.request.requireProductionRuntime
    requires forall p :: p in input.request.providers ==> p.id != ""
    ensures ReadinessBlockers(input) == [] <==> ProductionGuarantee(input)
  {
    hide ReadinessBlockers, ProductionGuarantee, RouteOpen;
    DistinctAgree(input.request);
    AgreeingLookupsSuffice(input);
  }

  lemma DistinctAgree(r: Request)
    requires DistinctIds(r.providers) && forall p :: p in r.providers ==> p.id != ""
    ensures LookupsAgree(r)
  {
    hide Selected, RequirementsOf;
    SelectedIn(r);
    forall f | f in RouteFailovers(r)
      ensures LookupAgrees(r, f)
    {
      CapableNoBlockers(f, r.purpose, RequirementsOf(r));
      FindByIdDistinct(r.providers, f);
    }
  }

  /** A production-ready answer names as evidence exactly its primary and, where failover is required, its failovers. */
  lemma ReadyNamesItsEvidence(input: Input)
    requires input.request.requireProductionRuntime && LookupsAgree(input.request) && ReadinessBlockers(input) == []
    ensures forall id :: id in EvidenceIds(input) <==>
      || Some(id) == EvaluateRoute(input.request).providerId
      || (input.request.requireFailover && id in EvaluateRoute(input.request).failoverIds)
  {
    hide IsSound, EvidenceBlockers, IsCapable, RouteBlockers, FailoverExpectation, FindEvidence, FindById, AllFailoverBlockers, ReadinessBlockers,
      RequirementsOf, Selected, RouteFailovers, FailoverBlockers;
    var r := input.request;
    OpenRouteReadiness(input);
    var p := Selected(r).value;
    CapableHasModel(p, r.purpose, RequirementsOf(r));
    EvidenceSound(input.primaryEvidence, PrimaryExpectation(r, p.id, p.models[r.purpose]));
    SoundNames(input.primaryEvidence, PrimaryExpectation(r, p.id, p.models[r.purpose]));
    IdsOf(RouteFailovers(r));
    if r.requireFailover {
      forall f | f in RouteFailovers(r)
        ensures Consulted(input, f.id)
      {
        FailoverEvidence(input, f);
      }
    }
  }

  lemma SoundNames(evidence: Option<RuntimeEvidence>, x: Expectation)
    ensures evidence.Some? && IsSound(evidence.value, x) ==> evidence.value.providerId == x.providerId
  {
    hide HasDigest;
  }

  lemma CapableHasModel(p: Provider, purpose: Purpose, need: Requirements)
    requires IsCapable(p, purpose, need)
    ensures HasModel(p, purpose)
  {
  }

  const ABLE := Capability(true, true, true, NoMode)
  const FIRST := Provider("a", Wired, map[Reasoning := "m"], ABLE, ["s"])
  const SHADOW := Provider("f", Planned, map[], ABLE, ["s"])
  const SECOND := Provider("f", Wired, map[Reasoning := "m"], ABLE, ["s"])
  const SHADOWED := Request(Reasoning, None, true, true, false, [FIRST, SHADOW, SECOND])

  lemma ShadowedRoute()
    ensures Selected(SHADOWED) == Some(FIRST)
    ensures IsCapable(FIRST, Reasoning, RequirementsOf(SHADOWED)) && IsCapable(SECOND, Reasoning, RequirementsOf(SHADOWED))
    ensures SECOND in SHADOWED.providers && SECOND.id != FIRST.id && SECOND in RouteFailovers(SHADOWED)
    ensures FindById(SHADOWED.providers, "f") == Some(SHADOW)
    ensures forall f :: f in RouteFailovers(SHADOWED) ==> f.id == "f"
  {
    assert "a"[0] != "f"[0];
    assert SHADOWED.providers[1..][0] == SHADOW;
    CapableNoBlockers(SECOND, Reasoning, RequirementsOf(SHADOWED));
    assert SECOND in SHADOWED.providers;
  }

  /** Without distinct ids the guarantee can fail: the lookup by id meets a provider without a model and skips the check. */
  lemma DuplicateIdSkipsEvidence(primary: RuntimeEvidence)
    requires IsSound(primary, Expectation(Primary, "a", Reasoning, "m", true, true, false, false))
    ensures var input := Input(SHADOWED, Some(primary), []);
      ReadinessBlockers(input) == [] && !ProductionGuarantee(input)
  {
    hide IsSound, EvidenceBlockers, RouteBlockers, IsCapable, Failovers, Selected, FindById, WithoutSmoke, Unique, FailoverBlockers;
    var input := Input(SHADOWED, Some(primary), []);
    ShadowedRoute();
    RouteBlockersEmpty(SHADOWED);
    EvidenceSound(input.primaryEvidence, PrimaryExpectation(SHADOWED, "a", "m"));
    IdsOf(RouteFailovers(SHADOWED));
    ShadowedSkips(input);
    assert FindEvidence([], "f", Reasoning) == None;
  }

  lemma ShadowedSkips(input: Input)
    requires input.request == SHADOWED
    ensures FailoverBlockers(input, "f") == []
  {
    ShadowedRoute();
  }

  // ---------------------------------------------------------------- monotonicity of readiness

  predicate Grows(input: Input, r': Request) {
    forall b :: b in ReadinessBlockers(input) ==> b in ReadinessBlockers(input.(request := r'))
  }

  predicate KeepsFailovers(r: Request, r': Request) {
    forall f :: f in RouteFailovers(r) ==> f in RouteFailovers(r')
  }

  lemma FailoverBlockersGrow(input: Input, r': Request, id: string)
    requires RequiresMore(input.request, r')
    ensures forall b :: b in FailoverBlockers(input, id) ==> b in FailoverBlockers(input.(request := r'), id)
  {
    hide EvidenceBlockers;
    var r := input.request;
    var p := FindById(r.providers, id);
    if p.Some? && HasModel(p.value, r.purpose) {
      EvidenceBlockersGrow(FindEvidence(input.failoverEvidence, id, r.purpose),
        FailoverExpectation(r, id, p.value.models[r.purpose]), FailoverExpectation(r', id, p.value.models[r.purpose]));
    }
  }

  lemma PrimaryBlockersGrow(input: Input, r': Request)
    requires RequiresMore(input.request, r')
    ensures forall b :: b in PrimaryBlockers(input) ==> b in PrimaryBlockers(input.(request := r'))
  {
    hide EvidenceBlockers, RouteBlockers, Failovers;
    var r, p := input.request, Selected(input.request);
    FailoversShrink(r, r');
    if p.Some? && HasModel(p.value, r.purpose) {
      var model := p.value.models[r.purpose];
      EvidenceBlockersGrow(input.primaryEvidence, PrimaryExpectation(r, p.value.id, model), PrimaryExpectation(r', p.value.id, model));
    }
  }

  /** Requiring more never removes a readiness blocker as long as no compatible failover is lost by it. */
  lemma ReadinessGrows(input: Input, r': Request)
    requires RequiresMore(input.request, r')
    requires input.request.requireFailover ==> KeepsFailovers(input.request, r')
    ensures Grows(input, r')
  {
    hide RouteBlockers, PrimaryBlockers, FailoverBlockers, Failovers;
    var r, input' := input.request, input.(request := r');
    RouteBlockersGrow(r, r');
    PrimaryBlockersGrow(input, r');
    IdsOf(RouteFailovers(r));
    IdsOf(RouteFailovers(r'));
    forall id: string ensures forall b :: b in FailoverBlockers(input, id) ==> b in FailoverBlockers(input', id) {
      FailoverBlockersGrow(input, r', id);
    }
  }

  /** Requiring production or failover never loses a failover that mattered; so readiness blockers only grow. */
  lemma ReadinessGrowsUnlessStructured(input: Input, r': Request)
    requires RequiresMore(input.request, r') && r'.requireStructuredOutput == input.request.requireStructuredOutput
    ensures Grows(input, r')
  {
    hide Grows, Failovers, Selected;
    var r := input.request;
    FailoversShrink(r, r');
    if r.requireFailover {
      assert RequirementsOf(r) == RequirementsOf(r');
    }
    ReadinessGrows(input, r');
  }

  lemma StructuredKeeps(r: Request)
    requires r.requireFailover
    ensures KeepsFailovers(r, r.(requireStructuredOutput := true)) <==>
      forall f :: f in RouteFailovers(r) ==> f.capability.structuredOutputMode != NoMode
  {
    var r' := r.(requireStructuredOutput := true);
    FailoversShrink(r, r');
    forall f | f in RouteFailovers(r)
      ensures f in RouteFailovers(r') <==> f.capability.structuredOutputMode != NoMode
    {
      CapableNoBlockers(f, r.purpose, RequirementsOf(r));
      CapableNoBlockers(f, r.purpose, RequirementsOf(r'));
    }
  }

  const LEAK := Evidence(Failover, RawPromptStorage)

  /** Evidence that says only that one failover stored raw prompts. */
  function Leaky(f: Provider, purpose: Purpose): RuntimeEvidence {
    RuntimeEvidence(f.id, purpose, "", None, map[], false, false, true, false, false)
  }

  lemma LeakOnlyFrom(r: Request, f: Provider, id: string)
    requires DistinctIds(r.providers) && f in r.providers && HasModel(f, r.purpose)
    ensures LEAK in FailoverBlockers(Input(r, None, [Leaky(f, r.purpose)]), id) <==> id == f.id
  {
    var input := Input(r, None, [Leaky(f, r.purpose)]);
    FindByIdDistinct(r.providers, f);
    assert [Leaky(f, r.purpose)][1..] == [];
    assert FindEvidence([], id, r.purpose) == None;
  }

  lemma RouteBlockersNoEvidence(r: Request)
    ensures forall b :: b in RouteBlockers(r) ==> !b.Evidence?
  {
    hide ProviderBlockers, RequirementsOf, Failovers, PushIf, PushAll, Selected;
    if Selected(r).Some? {
      OwnBlockers(Selected(r).value, r.purpose, RequirementsOf(r));
    }
  }

  predicate OfRole(bs: seq<Blocker>, role: Role) {
    forall b :: b in bs ==> b.Evidence? && b.role == role
  }

  lemma IdentityRole(e: RuntimeEvidence, x: Expectation)
    ensures OfRole(IdentityBlockers(e, x), x.role)
  {
    hide PushIf;
  }

  lemma ProductionRole(bs: seq<Blocker>, e: RuntimeEvidence, x: Expectation)
    requires OfRole(bs, x.role)
    ensures OfRole(ProductionBlockers(bs, e, x), x.role)
  {
    hide PushIf, NeedDigest, HasDigest;
  }

  lemma EvidenceRole(evidence: Option<RuntimeEvidence>, x: Expectation)
    ensures OfRole(EvidenceBlockers(evidence, x), x.role)
  {
    hide PushIf, NeedDigest, HasDigest, IdentityBlockers, ProductionBlockers;
    if evidence.Some? {
      IdentityRole(evidence.value, x);
      ProductionRole(IdentityBlockers(evidence.value, x), evidence.value, x);
    }
  }

  lemma PrimaryBlockersRole(input: Input)
    ensures forall b :: b in PrimaryBlockers(input) ==> b.Evidence? && b.role == Primary
  {
    hide EvidenceBlockers, EvaluateRoute;
    var r, route := input.request, EvaluateRoute(input.request);
    if route.providerId.Some? && route.model.Some? {
      EvidenceRole(input.primaryEvidence, PrimaryExpectation(r, route.providerId.value, route.model.value));
    }
  }

  lemma ReadinessMember(input: Input, b: Blocker)
    ensures b in ReadinessBlockers(input) <==>
      || (b in RouteBlockers(input.request) && b != LiveSmokeProofRequired)
      || b in PrimaryBlockers(input)
      || (input.request.requireFailover && exists f :: f in RouteFailovers(input.request) && b in FailoverBlockers(input, f.id))
  {
    hide RouteBlockers, PrimaryBlockers, FailoverBlockers, RouteFailovers, Unique, WithoutSmoke, Selected, RequirementsOf;
    IdsOf(RouteFailovers(input.request));
  }

  lemma LeakInReadiness(r: Request, f: Provider)
    requires DistinctIds(r.providers) && r.requireFailover && f in r.providers && HasModel(f, r.purpose)
    ensures LEAK in ReadinessBlockers(Input(r, None, [Leaky(f, r.purpose)])) <==> f in RouteFailovers(r)
  {
    hide RouteBlockers, PrimaryBlockers, FailoverBlockers, Failovers, Leaky, ReadinessBlockers, Selected, RequirementsOf, IsFailover;
    var input := Input(r, None, [Leaky(f, r.purpose)]);
    RouteBlockersNoEvidence(r);
    PrimaryBlockersRole(input);
    ReadinessMember(input, LEAK);
    forall g | g in RouteFailovers(r) ensures LEAK in FailoverBlockers(input, g.id) <==> g == f {
      LeakOnlyFrom(r, f, g.id);
      FindByIdDistinct(r.providers, f);
      FindByIdDistinct(r.providers, g);
    }
  }

  /**
   Turning on structured output under failover: readiness blockers only grow, whatever the evidence,
   if and only if every compatible failover can produce structured output.
   */
  lemma StructuredOutputMonotone(r: Request)
    requires DistinctIds(r.providers) && r.requireFailover && !r.requireStructuredOutput
    ensures (forall primary, failover :: Grows(Input(r, primary, failover), r.(requireStructuredOutput := true))) <==>
      forall f :: f in RouteFailovers(r) ==> f.capability.structuredOutputMode != NoMode
  {
    hide Failovers, RouteBlockers, ReadinessBlockers;
    var r' := r.(requireStructuredOutput := true);
    StructuredKeeps(r);
    if KeepsFailovers(r, r') {
      forall primary, failover ensures Grows(Input(r, primary, failover), r') {
        ReadinessGrows(Input(r, primary, failover), r');
      }
    } else {
      var f :| f in RouteFailovers(r) && f !in RouteFailovers(r');
      CapableNoBlockers(f, r.purpose, RequirementsOf(r));
      LeakInReadiness(r, f);
      LeakInReadiness(r', f);
      assert !Grows(Input(r, None, [Leaky(f, r.purpose)]), r');
    }
  }

  // ---------------------------------------------------------------- routes and readiness, over the request's own fields

  /** The first provider of the pinned id, or, without one, the first wired provider with a model for the purpose. */
  lemma SelectedMeans(r: Request, p: Provider)
    ensures Selected(r) == Some(p) <==>
      exists i :: 0 <= i < |r.providers| && r.providers[i] == p
        && (if r.providerId.Some? && r.providerId.value != "" then FirstOfId(r.providers, i, r.providerId.value)
            else FirstWired(r.providers, i, r.purpose))
  {
    hide HasModel;
    if r.providerId.Some? && r.providerId.value != "" {
      FindByIdFirst(r.providers, r.providerId.value, p);
    } else {
      FindWiredFirst(r.providers, r.purpose, p);
    }
  }

  predicate FirstOfId(ps: seq<Provider>, i: nat, id: string)
    requires i < |ps|
  {
    ps[i].id == id && forall j :: 0 <= j < i ==> ps[j].id != id
  }

  predicate UsableFor(p: Provider, purpose: Purpose) {
    p.wireStatus == Wired && purpose in p.models && p.models[purpose] != ""
  }

  predicate FirstWired(ps: seq<Provider>, i: nat, purpose: Purpose)
    requires i < |ps|
  {
    UsableFor(ps[i], purpose) && forall j :: 0 <= j < i ==> !UsableFor(ps[j], purpose)
  }

  lemma {:induction false} FindByIdFirst(ps: seq<Provider>, id: string, p: Provider)
    ensures FindById(ps, id) == Some(p) <==> exists i :: 0 <= i < |ps| && ps[i] == p && FirstOfId(ps, i, id)
  {
    if ps != [] {
      FindByIdFirst(ps[1..], id, p);
      if ps[0].id == id {
        assert FirstOfId(ps, 0, id);
      } else {
        if FindById(ps, id) == Some(p) {
          var i :| 0 <= i < |ps[1..]| && ps[1..][i] == p && FirstOfId(ps[1..], i, id);
          assert ps[i + 1] == p && FirstOfId(ps, i + 1, id) by {
            assert forall j :: 1 <= j < i + 1 ==> ps[j] == ps[1..][j - 1];
          }
        }
        if i :| 0 <= i < |ps| && ps[i] == p && FirstOfId(ps, i, id) {
          assert ps[1..][i - 1] == p && FirstOfId(ps[1..], i - 1, id);
        }
      }
    }
  }

  lemma {:induction false} FindWiredFirst(ps: seq<Provider>, purpose: Purpose, p: Provider)
    ensures FindWired(ps, purpose) == Some(p) <==> exists i :: 0 <= i < |ps| && ps[i] == p && FirstWired(ps, i, purpose)
  {
    if ps != [] {
      FindWiredFirst(ps[1..], purpose, p);
      assert UsableFor(ps[0], purpose) <==> ps[0].wireStatus.Wired? && HasModel(ps[0], purpose);
      if UsableFor(ps[0], purpose) {
        assert FirstWired(ps, 0, purpose);
      } else {
        if FindWired(ps, purpose) == Some(p) {
          var i :| 0 <= i < |ps[1..]| && ps[1..][i] == p && FirstWired(ps[1..], i, purpose);
          assert ps[i + 1] == p && FirstWired(ps, i + 1, purpose) by {
            assert forall j :: 1 <= j < i + 1 ==> ps[j] == ps[1..][j - 1];
          }
        }
        if i :| 0 <= i < |ps| && ps[i] == p && FirstWired(ps, i, purpose) {
          assert ps[1..][i - 1] == p && FirstWired(ps[1..], i - 1, purpose);
        }
      }
    }
  }

  /** What a provider must be to serve the request. */
  predicate Serves(p: Provider, r: Request) {
    && p.wireStatus == Wired && r.purpose in p.models && p.models[r.purpose] != ""
    && (r.purpose == ToolRouting ==> p.capability.toolCalling)
    && (r.purpose == Vision ==> p.capability.multimodalVision)
    && (r.purpose in [Reasoning, StructuredOutput, ToolRouting, Fallback] ==> p.capability.textGeneration)
    && (r.requireStructuredOutput || r.purpose == StructuredOutput ==>
        p.capability.structuredOutputMode in [OpenaiJsonSchema, AnthropicStrictTool, VertexResponseSchema, AzureJsonSchema])
    && (r.requireFailover || r.requireProductionRuntime ==> |p.rateLimitSignals| > 0)
  }

  lemma ServesMeansCapable(p: Provider, r: Request)
    ensures Serves(p, r) <==> IsCapable(p, r.purpose, RequirementsOf(r))
  {
  }

  /** Someone else can take over. */
  predicate HasTakeover(r: Request, id: string) {
    exists f :: f in r.providers && f.id != id && Serves(f, r)
  }

  /**
   A route for every request: it goes to the selected provider, and is selected if and only if that provider serves the
   request, someone else does too where failover is required, and no production runtime is asked for, which only
   evidence can answer. Its failovers are exactly the others that serve it.
   */
  lemma RouteMeans(r: Request)
    ensures
      var route := EvaluateRoute(r);
      && (route.selected <==>
          && !r.requireProductionRuntime && Selected(r).Some? && Serves(Selected(r).value, r)
          && (r.requireFailover ==> HasTakeover(r, Selected(r).value.id)))
      && (Selected(r).Some? ==> route.providerId == Some(Selected(r).value.id))
      && (Selected(r).Some? && Serves(Selected(r).value, r) ==> route.model == Some(Selected(r).value.models[r.purpose]))
      && (Selected(r).Some? ==>
          forall id :: id in route.failoverIds <==>
            id != Selected(r).value.id && exists f :: f in r.providers && f.id == id && Serves(f, r))
  {
    hide Failovers, ProviderBlockers, IsCapable, RequirementsOf, Serves, Selected, RouteBlockers, WithoutSmoke, RouteFailovers;
    RouteBlockersEmpty(r);
    SmokeOnlyInProduction(r);
    IdsOf(RouteFailovers(r));
    if Selected(r).Some? {
      var p := Selected(r).value;
      ServesMeansCapable(p, r);
      FailoversCapable(r, p);
      forall f ensures Serves(f, r) <==> IsCapable(f, r.purpose, RequirementsOf(r)) { ServesMeansCapable(f, r); }
      if Serves(p, r) {
        CapableHasModel(p, r.purpose, RequirementsOf(r));
      }
      assert RouteFailovers(r) != [] <==> exists f :: f in RouteFailovers(r) by {
        if RouteFailovers(r) != [] { assert RouteFailovers(r)[0] in RouteFailovers(r); }
      }
    }
  }

  lemma SmokeOnlyInProduction(r: Request)
    ensures RouteBlockers(r) == [] <==> WithoutSmoke(RouteBlockers(r)) == [] && !r.requireProductionRuntime
  {
    hide ProviderBlockers, RequirementsOf, Failovers, PushIf, PushAll, Selected, WithoutSmoke;
    var bs := RouteBlockers(r);
    WithoutSmokeEmpty(bs);
    assert r.requireProductionRuntime ==> LiveSmokeProofRequired in bs;
    if !r.requireProductionRuntime {
      if Selected(r).Some? {
        OwnBlockers(Selected(r).value, r.purpose, RequirementsOf(r));
      }
      assert LiveSmokeProofRequired !in bs;
      if bs != [] { assert bs[0] in bs; }
    }
  }

  /** A digest as the evidence must carry it. */
  ghost predicate Digested(e: RuntimeEvidence, name: DigestName) {
    name in e.digests && Text.Sha256Text(e.digests[name])
  }

  lemma DigestedMeans(e: RuntimeEvidence, name: DigestName)
    ensures Digested(e, name) <==> HasDigest(e, name)
  {
    hide Text.Sha256Text;
    if name in e.digests { Text.Sha256Means(e.digests[name]); }
  }

  /**
   What the evidence about a provider and its model must be, for the request. Only the primary may do without any, and
   only where nothing is asked of it.
   */
  ghost predicate Vouches(evidence: Option<RuntimeEvidence>, id: string, model: string, r: Request, role: Role) {
    var rateLimited := role == Failover || r.requireFailover || r.requireProductionRuntime;
    var structured := r.requireStructuredOutput || r.purpose == StructuredOutput;
    match evidence
    case None => !r.requireProductionRuntime && !rateLimited && !structured && r.purpose != ToolRouting
    case Some(e) =>
      && e.providerId == id && e.purpose == r.purpose && e.configuredModel == model
      && !e.rawPromptStored && !e.rawBodyStored && !e.credentialsExposed
      && (r.requireProductionRuntime ==>
          && e.smokeState == Some(Valid) && e.sdkRetriesDisabled && e.responseStorageDisabled
          && Digested(e, CustomerApproval) && Digested(e, DataResidencyApproval) && Digested(e, RetentionApproval)
          && Digested(e, TimeoutPolicy) && Digested(e, BudgetPolicy) && Digested(e, LiveSmokeProof))
      && (rateLimited ==> Digested(e, RateLimitPolicy))
      && (structured ==> Digested(e, OutputSchema))
      && (r.purpose == ToolRouting ==> Digested(e, ToolSchema))
  }

  function ExpectationFor(r: Request, id: string, model: string, role: Role): Expectation {
    if role == Primary then PrimaryExpectation(r, id, model) else FailoverExpectation(r, id, model)
  }

  lemma VouchesMeansUnblocked(evidence: Option<RuntimeEvidence>, id: string, model: string, r: Request, role: Role)
    ensures Vouches(evidence, id, model, r, role) <==> EvidenceBlockers(evidence, ExpectationFor(r, id, model, role)) == []
  {
    hide Digested, HasDigest;
    if evidence.Some? {
      var e := evidence.value;
      DigestedMeans(e, CustomerApproval);
      DigestedMeans(e, DataResidencyApproval);
      DigestedMeans(e, RetentionApproval);
      DigestedMeans(e, TimeoutPolicy);
      DigestedMeans(e, BudgetPolicy);
      DigestedMeans(e, LiveSmokeProof);
      DigestedMeans(e, RateLimitPolicy);
      DigestedMeans(e, OutputSchema);
      DigestedMeans(e, ToolSchema);
    }
  }

  /** The first piece of evidence about a provider for the purpose. */
  ghost predicate FirstAbout(es: seq<RuntimeEvidence>, id: string, purpose: Purpose, e: RuntimeEvidence) {
    exists i :: 0 <= i < |es| && es[i] == e && AboutFirst(es, id, purpose, i)
  }

  predicate About(e: RuntimeEvidence, id: string, purpose: Purpose) {
    e.providerId == id && e.purpose == purpose
  }

  predicate AboutFirst(es: seq<RuntimeEvidence>, id: string, purpose: Purpose, i: nat)
    requires i < |es|
  {
    About(es[i], id, purpose) && forall j :: 0 <= j < i ==> !About(es[j], id, purpose)
  }

  lemma {:induction false} FindEvidenceFirst(es: seq<RuntimeEvidence>, id: string, purpose: Purpose, e: RuntimeEvidence)
    ensures FindEvidence(es, id, purpose) == Some(e) <==> FirstAbout(es, id, purpose, e)
  {
    if es != [] {
      FindEvidenceFirst(es[1..], id, purpose, e);
      if About(es[0], id, purpose) {
        assert AboutFirst(es, id, purpose, 0);
      } else {
        if FindEvidence(es, id, purpose) == Some(e) {
          var i :| 0 <= i < |es[1..]| && es[1..][i] == e && AboutFirst(es[1..], id, purpose, i);
          assert es[i + 1] == e && AboutFirst(es, id, purpose, i + 1) by {
            assert forall j :: 1 <= j < i + 1 ==> es[j] == es[1..][j - 1];
          }
        }
        if i :| 0 <= i < |es| && es[i] == e && AboutFirst(es, id, purpose, i) {
          assert es[1..][i - 1] == e && AboutFirst(es[1..], id, purpose, i - 1);
        }
      }
    }
  }

  lemma {:induction false} NoneAbout(es: seq<RuntimeEvidence>, id: string, purpose: Purpose)
    requires FindEvidence(es, id, purpose).None?
    ensures forall e :: !FirstAbout(es, id, purpose, e)
  {
    hide FirstAbout;
    forall e ensures !FirstAbout(es, id, purpose, e) { FindEvidenceFirst(es, id, purpose, e); }
  }

  /** The evidence about this provider that stands first among what was given for failovers vouches for it. */
  ghost predicate FailoverVouched(input: Input, f: Provider, model: string) {
    exists e :: FirstAbout(input.failoverEvidence, f.id, input.request.purpose, e) && Vouches(Some(e), f.id, model, input.request, Failover)
  }

  lemma FailoverVouchedMeans(input: Input, f: Provider)
    requires LookupAgrees(input.request, f)
    ensures FailoverVouched(input, f, f.models[input.request.purpose]) <==> FailoverBlockers(input, f.id) == []
  {
    hide Vouches, FirstAbout, EvidenceBlockers, FindEvidence;
    var r, model := input.request, f.models[input.request.purpose];
    var found := FindEvidence(input.failoverEvidence, f.id, r.purpose);
    VouchesMeansUnblocked(found, f.id, model, r, Failover);
    if found.Some? {
      FindEvidenceFirst(input.failoverEvidence, f.id, r.purpose, found.value);
      if e :| FirstAbout(input.failoverEvidence, f.id, r.purpose, e) && Vouches(Some(e), f.id, model, r, Failover) {
        FindEvidenceFirst(input.failoverEvidence, f.id, r.purpose, e);
      }
    } else {
      NoneAbout(input.failoverEvidence, f.id, r.purpose);
      assert !Vouches(None, f.id, model, r, Failover) by { NothingVouches(f.id, model, r); }
    }
  }

  lemma NothingVouches(id: string, model: string, r: Request)
    ensures !Vouches(None, id, model, r, Failover)
  {
  }

  /**
   A ready answer said over request, registry and evidence alone, wherever lookups agree, in production or not: the
   selected provider serves the request and its evidence vouches for it; and where failover is required there is another
   that serves it, and every such one is vouched for.
   */
  lemma ReadinessMeans(input: Input)
    requires LookupsAgree(input.request)
    ensures ReadinessBlockers(input) == [] <==>
      var r := input.request;
      && Selected(r).Some? && Serves(Selected(r).value, r)
      && Vouches(input.primaryEvidence, Selected(r).value.id, Selected(r).value.models[r.purpose], r, Primary)
      && (r.requireFailover ==>
          && HasTakeover(r, Selected(r).value.id)
          && forall f :: f in r.providers && f.id != Selected(r).value.id && Serves(f, r) ==> FailoverVouched(input, f, f.models[r.purpose]))
  {
    hide Serves, IsCapable, Vouches, RequirementsOf, Selected, FailoverVouched, PrimaryExpectation, FailoverExpectation, EvidenceBlockers,
      ReadinessBlockers, FindEvidence, LookupAgrees, AllFailoverBlockers, RouteFailovers, FailoverBlockers, RouteBlockers;
    var r := input.request;
    OpenRouteReadiness(input);
    IdsOf(RouteFailovers(r));
    forall f ensures Serves(f, r) <==> IsCapable(f, r.purpose, RequirementsOf(r)) { ServesMeansCapable(f, r); }
    forall f | Serves(f, r) ensures HasModel(f, r.purpose) { CapableHasModel(f, r.purpose, RequirementsOf(r)); }
    if Selected(r).Some? && Serves(Selected(r).value, r) {
      var p := Selected(r).value;
      FailoversCapable(r, p);
      VouchesMeansUnblocked(input.primaryEvidence, p.id, p.models[r.purpose], r, Primary);
      assert RouteFailovers(r) != [] <==> exists f :: f in RouteFailovers(r) by {
        if RouteFailovers(r) != [] { assert RouteFailovers(r)[0] in RouteFailovers(r); }
      }
      if r.requireFailover {
        forall f | f in RouteFailovers(r)
          ensures FailoverVouched(input, f, f.models[r.purpose]) <==> FailoverBlockers(input, f.id) == []
        {
          FailoverVouchedMeans(input, f);
        }
      }
    }
  }

  // ---------------------------------------------------------------- which blockers, and in which order

  function OrderOf(issue: Issue): nat {
    match issue
    case EvidenceMissing => 0
    case ProviderMismatch => 1 case PurposeMismatch => 2 case ModelMismatch => 3
    case RawPromptStorage => 4 case RawBodyStorage => 5 case CredentialExposure => 6
    case DigestRequired(CustomerApproval) => 7 case DigestRequired(DataResidencyApproval) => 8
    case DigestRequired(RetentionApproval) => 9 case DigestRequired(TimeoutPolicy) => 10
    case DigestRequired(BudgetPolicy) => 11 case DigestRequired(LiveSmokeProof) => 12
    case SmokeProofNotValid => 13 case SdkRetriesNotDisabled => 14 case ResponseStorageNotDisabled => 15
    case DigestRequired(RateLimitPolicy) => 16 case DigestRequired(OutputSchema) => 17 case DigestRequired(ToolSchema) => 18
  }

  /** The order in which blockers are reported. */
  function Rank(b: Blocker): nat {
    match b
    case PrimaryNotWiredForPurpose => 0 case SelectedProviderNotWired => 1
    case ModelNotConfigured => 2 case TextGenerationNotSupported => 3 case VisionNotSupported => 4
    case ToolCallingNotSupported => 5 case StructuredOutputNotSupported => 6 case RateLimitPolicyMissing => 7
    case FailoverProviderNotWired => 8 case CompatibleFailoverNotReady => 9 case LiveSmokeProofRequired => 10
    case Evidence(Primary, issue) => 20 + OrderOf(issue)
    case Evidence(Failover, issue) => 40 + OrderOf(issue)
  }

  lemma RouteRanks()
    ensures Rank(PrimaryNotWiredForPurpose) == 0 && Rank(SelectedProviderNotWired) == 1 && Rank(ModelNotConfigured) == 2
    ensures Rank(TextGenerationNotSupported) == 3 && Rank(VisionNotSupported) == 4 && Rank(ToolCallingNotSupported) == 5
    ensures Rank(StructuredOutputNotSupported) == 6 && Rank(RateLimitPolicyMissing) == 7
    ensures Rank(FailoverProviderNotWired) == 8 && Rank(CompatibleFailoverNotReady) == 9 && Rank(LiveSmokeProofRequired) == 10
  {
  }

  function BaseOf(role: Role): nat {
    if role == Primary then 20 else 40
  }

  lemma EvidenceRank(role: Role, issue: Issue)
    ensures Rank(Evidence(role, issue)) == BaseOf(role) + OrderOf(issue)
  {
  }

  /** Each blocker once, in the order of their ranks. */
  predicate Ranked(bs: seq<Blocker>) {
    forall i, j :: 0 <= i < j < |bs| ==> Rank(bs[i]) < Rank(bs[j])
  }

  predicate RankedBelow(bs: seq<Blocker>, n: nat) {
    Ranked(bs) && forall i :: 0 <= i < |bs| ==> Rank(bs[i]) < n
  }

  lemma PushRanked(bs: seq<Blocker>, condition: bool, b: Blocker, n: nat)
    requires RankedBelow(bs, n) && n <= Rank(b)
    ensures RankedBelow(PushIf(bs, condition, b), Rank(b) + 1)
  {
    hide Rank;
  }

  lemma WiderRank(bs: seq<Blocker>, m: nat, n: nat)
    requires RankedBelow(bs, m) && m <= n
    ensures RankedBelow(bs, n)
  {
    hide Rank;
  }

  lemma {:induction false} PushAllIs(bs: seq<Blocker>, more: seq<Blocker>)
    requires forall b :: b in more ==> b !in bs
    requires forall i, j :: 0 <= i < j < |more| ==> more[i] != more[j]
    ensures PushAll(bs, more) == bs + more
    decreases |more|
  {
    hide PushAll;
    PushAllUnfold(bs, more);
    if more == [] {
      assert bs + more == bs;
    } else {
      var n := |more| - 1;
      var init, last := more[..n], more[n];
      PushAllIs(bs, init);
      assert last in more && last !in init;
      assert bs + more == bs + init + [last];
    }
  }

  lemma PushAllUnfold(bs: seq<Blocker>, more: seq<Blocker>)
    ensures PushAll(bs, more) == if more == [] then bs else PushIf(PushAll(bs, more[..|more| - 1]), true, more[|more| - 1])
  {
  }

  lemma ProviderBlockersRanked(p: Provider, purpose: Purpose, need: Requirements)
    ensures RankedBelow(ProviderBlockers(p, purpose, need), 8)
  {
    hide PushIf, RankedBelow, Rank, HasModel;
    RouteRanks();
    NothingRanked();
    var b0 := PushIf([], !HasModel(p, purpose), ModelNotConfigured);
    PushRanked([], !HasModel(p, purpose), ModelNotConfigured, 0);
    var b1 := PushIf(b0, need.textGeneration && !p.capability.textGeneration, TextGenerationNotSupported);
    PushRanked(b0, need.textGeneration && !p.capability.textGeneration, TextGenerationNotSupported, 3);
    var b2 := PushIf(b1, need.multimodalVision && !p.capability.multimodalVision, VisionNotSupported);
    PushRanked(b1, need.multimodalVision && !p.capability.multimodalVision, VisionNotSupported, 4);
    var b3 := PushIf(b2, need.toolCalling && !p.capability.toolCalling, ToolCallingNotSupported);
    PushRanked(b2, need.toolCalling && !p.capability.toolCalling, ToolCallingNotSupported, 5);
    var b4 := PushIf(b3, need.structuredOutput && p.capability.structuredOutputMode == NoMode, StructuredOutputNotSupported);
    PushRanked(b3, need.structuredOutput && p.capability.structuredOutputMode == NoMode, StructuredOutputNotSupported, 6);
    PushRanked(b4, need.rateLimitPolicy && p.rateLimitSignals == [], RateLimitPolicyMissing, 7);
  }

  lemma ProviderBlockersAbove(p: Provider, purpose: Purpose, need: Requirements)
    ensures forall b :: b in ProviderBlockers(p, purpose, need) ==> 2 <= Rank(b)
  {
    hide PushIf, HasModel;
  }

  lemma NothingRanked()
    ensures RankedBelow([], 0)
  {
  }

  lemma RankedConcat(a: seq<Blocker>, b: seq<Blocker>, m: nat, n: nat)
    requires RankedBelow(a, m) && RankedBelow(b, n) && m <= n && forall x :: x in b ==> m <= Rank(x)
    ensures RankedBelow(a + b, n)
  {
    hide Rank;
    assert forall i :: 0 <= i < |b| ==> b[i] in b;
  }

  lemma RankedApart(a: seq<Blocker>, b: seq<Blocker>, m: nat, n: nat)
    requires RankedBelow(a, m) && RankedBelow(b, n) && forall x :: x in b ==> m <= Rank(x)
    ensures forall x :: x in b ==> x !in a
    ensures forall i, j :: 0 <= i < j < |b| ==> b[i] != b[j]
  {
    hide Rank;
  }

  /** Some provider other than the selected one is wired. */
  predicate OtherWired(r: Request) {
    exists f :: f in r.providers && f.wireStatus == Wired && (Selected(r).Some? ==> f.id != Selected(r).value.id)
  }

  predicate OtherServes(r: Request) {
    exists f :: f in r.providers && Serves(f, r) && (Selected(r).Some? ==> f.id != Selected(r).value.id)
  }

  /** Exactly which blockers a route carries, each for its own reason and in order. */
  lemma RouteBlockersMean(r: Request)
    ensures Ranked(RouteBlockers(r))
    ensures forall b :: b in RouteBlockers(r) <==>
      match b
      case PrimaryNotWiredForPurpose => Selected(r).None?
      case SelectedProviderNotWired => Selected(r).Some? && Selected(r).value.wireStatus != Wired
      case ModelNotConfigured =>
        Selected(r).Some? && !(r.purpose in Selected(r).value.models && Selected(r).value.models[r.purpose] != "")
      case TextGenerationNotSupported => Selected(r).Some? && r.purpose != Vision && !Selected(r).value.capability.textGeneration
      case VisionNotSupported => Selected(r).Some? && r.purpose == Vision && !Selected(r).value.capability.multimodalVision
      case ToolCallingNotSupported => Selected(r).Some? && r.purpose == ToolRouting && !Selected(r).value.capability.toolCalling
      case StructuredOutputNotSupported =>
        && Selected(r).Some? && (r.requireStructuredOutput || r.purpose == StructuredOutput)
        && Selected(r).value.capability.structuredOutputMode == NoMode
      case RateLimitPolicyMissing =>
        Selected(r).Some? && (r.requireFailover || r.requireProductionRuntime) && Selected(r).value.rateLimitSignals == []
      case FailoverProviderNotWired => r.requireFailover && !OtherWired(r)
      case CompatibleFailoverNotReady => r.requireFailover && OtherWired(r) && !OtherServes(r)
      case LiveSmokeProofRequired => r.requireProductionRuntime
      case Evidence(_, _) => false
  {
    hide PushIf, PushAll, Rank, Ranked, Selected, Serves, Failovers;
    FailoverLists(r);
    RouteBlockersRanked(r);
  }

  lemma FailoverLists(r: Request)
    ensures HasWiredOther(r.providers, Selected(r)) <==> OtherWired(r)
    ensures RouteFailovers(r) == [] <==> !OtherServes(r)
  {
    hide Selected, ProviderBlockers, RequirementsOf, Serves;
    var fs := RouteFailovers(r);
    forall f ensures f in fs <==> f in r.providers && Serves(f, r) && (Selected(r).Some? ==> f.id != Selected(r).value.id) {
      ServesMeansCapable(f, r);
      CapableNoBlockers(f, r.purpose, RequirementsOf(r));
    }
    if fs != [] {
      assert fs[0] in fs;
    }
  }

  lemma RouteBlockersRanked(r: Request)
    ensures Ranked(RouteBlockers(r))
  {
    hide PushIf, PushAll, RankedBelow, Selected, ProviderBlockers, RequirementsOf, RouteFailovers, HasWiredOther, Rank, Ranked;
    var selected, need := Selected(r), RequirementsOf(r);
    RouteRanks();
    NothingRanked();
    PushRanked([], selected.None?, PrimaryNotWiredForPurpose, 0);
    var b0 := PushIf([], selected.None?, PrimaryNotWiredForPurpose);
    PushRanked(b0, selected.Some? && !selected.value.wireStatus.Wired?, SelectedProviderNotWired, 1);
    var b1 := PushIf(b0, selected.Some? && !selected.value.wireStatus.Wired?, SelectedProviderNotWired);
    var own := if selected.Some? then ProviderBlockers(selected.value, r.purpose, need) else [];
    assert RankedBelow(own, 8) && forall b :: b in own ==> 2 <= Rank(b) by {
      WiderRank([], 0, 8);
      if selected.Some? {
        ProviderBlockersRanked(selected.value, r.purpose, need);
        ProviderBlockersAbove(selected.value, r.purpose, need);
      }
    }
    RankedApart(b1, own, 2, 8);
    PushAllIs(b1, own);
    RankedConcat(b1, own, 2, 8);
    var b2 := PushAll(b1, own);
    assert RankedBelow(b2, 8);
    var wiredOther := HasWiredOther(r.providers, selected);
    PushRanked(b2, r.requireFailover && !wiredOther, FailoverProviderNotWired, 8);
    var b3 := PushIf(b2, r.requireFailover && !wiredOther, FailoverProviderNotWired);
    PushRanked(b3, r.requireFailover && wiredOther && RouteFailovers(r) == [], CompatibleFailoverNotReady, 9);
    var b4 := PushIf(b3, r.requireFailover && wiredOther && RouteFailovers(r) == [], CompatibleFailoverNotReady);
    PushRanked(b4, r.requireProductionRuntime, LiveSmokeProofRequired, 10);
    RankedIs(PushIf(b4, r.requireProductionRuntime, LiveSmokeProofRequired), 11);
  }

  lemma RankedIs(bs: seq<Blocker>, n: nat)
    requires RankedBelow(bs, n)
    ensures Ranked(bs)
  {
  }

  /** The evidence raises this issue, said over the request's own fields. */
  ghost predicate Raises(evidence: Option<RuntimeEvidence>, id: string, model: string, r: Request, role: Role, issue: Issue) {
    var rateLimited := role == Failover || r.requireFailover || r.requireProductionRuntime;
    var structured := r.requireStructuredOutput || r.purpose == StructuredOutput;
    match evidence
    case None => issue == EvidenceMissing && (rateLimited || structured || r.purpose == ToolRouting)
    case Some(e) =>
      match issue
      case EvidenceMissing => false
      case ProviderMismatch => e.providerId != id
      case PurposeMismatch => e.purpose != r.purpose
      case ModelMismatch => e.configuredModel != model
      case RawPromptStorage => e.rawPromptStored
      case RawBodyStorage => e.rawBodyStored
      case CredentialExposure => e.credentialsExposed
      case DigestRequired(name) =>
        && !Digested(e, name)
        && (match name
            case RateLimitPolicy => rateLimited
            case OutputSchema => structured
            case ToolSchema => r.purpose == ToolRouting
            case _ => r.requireProductionRuntime)
      case SmokeProofNotValid => r.requireProductionRuntime && e.smokeState != Some(Valid)
      case SdkRetriesNotDisabled => r.requireProductionRuntime && !e.sdkRetriesDisabled
      case ResponseStorageNotDisabled => r.requireProductionRuntime && !e.responseStorageDisabled
  }

  lemma IdentityRaises(e: RuntimeEvidence, x: Expectation, b: Blocker)
    ensures b in IdentityBlockers(e, x) <==>
      && b.Evidence? && b.role == x.role
      && (match b.issue
          case ProviderMismatch => e.providerId != x.providerId
          case PurposeMismatch => e.purpose != x.purpose
          case ModelMismatch => e.configuredModel != x.model
          case RawPromptStorage => e.rawPromptStored
          case RawBodyStorage => e.rawBodyStored
          case CredentialExposure => e.credentialsExposed
          case _ => false)
  {
    hide PushIf;
  }

  lemma ProductionRaises(bs: seq<Blocker>, e: RuntimeEvidence, x: Expectation, b: Blocker)
    ensures b in ProductionBlockers(bs, e, x) <==>
      || b in bs
      || (x.production && b.Evidence? && b.role == x.role
          && (match b.issue
              case DigestRequired(name) => !HasDigest(e, name) && name != RateLimitPolicy && name != OutputSchema && name != ToolSchema
              case SmokeProofNotValid => e.smokeState != Some(Valid)
              case SdkRetriesNotDisabled => !e.sdkRetriesDisabled
              case ResponseStorageNotDisabled => !e.responseStorageDisabled
              case _ => false))
  {
    hide PushIf, NeedDigest, HasDigest;
  }

  /** Exactly which issues a piece of evidence raises. */
  lemma EvidenceBlockersMean(evidence: Option<RuntimeEvidence>, id: string, model: string, r: Request, role: Role, b: Blocker)
    ensures b in EvidenceBlockers(evidence, ExpectationFor(r, id, model, role)) <==>
      b.Evidence? && b.role == role && Raises(evidence, id, model, r, role, b.issue)
  {
    hide PushIf, NeedDigest, Digested, HasDigest, IdentityBlockers, ProductionBlockers;
    if evidence.Some? {
      var e, x := evidence.value, ExpectationFor(r, id, model, role);
      IdentityRaises(e, x, b);
      ProductionRaises(IdentityBlockers(e, x), e, x, b);
      if b.Evidence? && b.issue.DigestRequired? {
        DigestedMeans(e, b.issue.name);
      }
    }
  }

  /**
   The blockers of an answer, wherever lookups agree: those of the route without the live-smoke one, those of the primary's
   evidence, and where failover is required those of the evidence for each provider that serves the request.
   */
  lemma ReadinessBlockersMean(input: Input, b: Blocker)
    requires LookupsAgree(input.request)
    ensures b in ReadinessBlockers(input) <==>
      var r := input.request;
      || (b in RouteBlockers(r) && b != LiveSmokeProofRequired)
      || (&& Selected(r).Some? && r.purpose in Selected(r).value.models && Selected(r).value.models[r.purpose] != ""
          && b.Evidence? && b.role == Primary
          && Raises(input.primaryEvidence, Selected(r).value.id, Selected(r).value.models[r.purpose], r, Primary, b.issue))
      || (&& r.requireFailover && b.Evidence? && b.role == Failover
          && exists f :: f in RouteFailovers(r) && r.purpose in f.models
               && Raises(FindEvidence(input.failoverEvidence, f.id, r.purpose), f.id, f.models[r.purpose], r, Failover, b.issue))
  {
    hide RouteBlockers, RouteFailovers, Selected, RequirementsOf, Raises, EvidenceBlockers, FindEvidence, FindById, ReadinessBlockers, PrimaryExpectation,
      FailoverExpectation;
    var r := input.request;
    ReadinessMember(input, b);
    if Selected(r).Some? && r.purpose in Selected(r).value.models {
      var p := Selected(r).value;
      EvidenceBlockersMean(input.primaryEvidence, p.id, p.models[r.purpose], r, Primary, b);
    }
    if r.requireFailover {
      forall f | f in RouteFailovers(r)
        ensures r.purpose in f.models
        ensures b in FailoverBlockers(input, f.id) <==>
          b.Evidence? && b.role == Failover && Raises(FindEvidence(input.failoverEvidence, f.id, r.purpose), f.id, f.models[r.purpose], r, Failover, b.issue)
      {
        EvidenceBlockersMean(FindEvidence(input.failoverEvidence, f.id, r.purpose), f.id, f.models[r.purpose], r, Failover, b);
      }
    }
  }

  lemma EvidenceBlockersRanked(evidence: Option<RuntimeEvidence>, x: Expectation)
    ensures Ranked(EvidenceBlockers(evidence, x))
  {
    hide PushIf, HasDigest, RankedBelow, IdentityBlockers, ProductionBlockers, Rank, NeedDigest, Ranked;
    NothingRanked();
    var base := BaseOf(x.role);
    EvidenceRank(x.role, EvidenceMissing);
    match evidence
    case None =>
      PushRanked([], x.production || x.rateLimit || x.structured || x.tools, Evidence(x.role, EvidenceMissing), 0);
      RankedIs(EvidenceBlockers(evidence, x), base + 1);
    case Some(e) =>
      IdentityRanked(e, x);
      ProductionRanked(IdentityBlockers(e, x), e, x);
      var b0 := ProductionBlockers(IdentityBlockers(e, x), e, x);
      NeedRanked(b0, e, x, x.rateLimit, RateLimitPolicy, base + 16);
      var b1 := NeedDigest(b0, e, x, x.rateLimit, RateLimitPolicy);
      NeedRanked(b1, e, x, x.structured, OutputSchema, base + 17);
      var b2 := NeedDigest(b1, e, x, x.structured, OutputSchema);
      NeedRanked(b2, e, x, x.tools, ToolSchema, base + 18);
      RankedIs(NeedDigest(b2, e, x, x.tools, ToolSchema), base + 19);
  }

  lemma NeedRanked(bs: seq<Blocker>, e: RuntimeEvidence, x: Expectation, required: bool, name: DigestName, n: nat)
    requires RankedBelow(bs, n) && n == BaseOf(x.role) + OrderOf(DigestRequired(name))
    ensures RankedBelow(NeedDigest(bs, e, x, required, name), n + 1)
  {
    hide PushIf, RankedBelow, Rank, HasDigest;
    EvidenceRank(x.role, DigestRequired(name));
    PushRanked(bs, required && !HasDigest(e, name), Evidence(x.role, DigestRequired(name)), n);
  }

  lemma IdentityRanked(e: RuntimeEvidence, x: Expectation)
    ensures RankedBelow(IdentityBlockers(e, x), BaseOf(x.role) + 7)
  {
    hide PushIf, RankedBelow, Rank;
    NothingRanked();
    var base := BaseOf(x.role);
    EvidenceRank(x.role, ProviderMismatch);
    EvidenceRank(x.role, PurposeMismatch);
    EvidenceRank(x.role, ModelMismatch);
    EvidenceRank(x.role, RawPromptStorage);
    EvidenceRank(x.role, RawBodyStorage);
    EvidenceRank(x.role, CredentialExposure);
    PushRanked([], e.providerId != x.providerId, Evidence(x.role, ProviderMismatch), 0);
    var b1 := PushIf([], e.providerId != x.providerId, Evidence(x.role, ProviderMismatch));
    PushRanked(b1, e.purpose != x.purpose, Evidence(x.role, PurposeMismatch), base + 2);
    var b2 := PushIf(b1, e.purpose != x.purpose, Evidence(x.role, PurposeMismatch));
    PushRanked(b2, e.configuredModel != x.model, Evidence(x.role, ModelMismatch), base + 3);
    var b3 := PushIf(b2, e.configuredModel != x.model, Evidence(x.role, ModelMismatch));
    PushRanked(b3, e.rawPromptStored, Evidence(x.role, RawPromptStorage), base + 4);
    var b4 := PushIf(b3, e.rawPromptStored, Evidence(x.role, RawPromptStorage));
    PushRanked(b4, e.rawBodyStored, Evidence(x.role, RawBodyStorage), base + 5);
    var b5 := PushIf(b4, e.rawBodyStored, Evidence(x.role, RawBodyStorage));
    PushRanked(b5, e.credentialsExposed, Evidence(x.role, CredentialExposure), base + 6);
  }

  lemma ProductionRanked(bs: seq<Blocker>, e: RuntimeEvidence, x: Expectation)
    requires RankedBelow(bs, BaseOf(x.role) + 7)
    ensures RankedBelow(ProductionBlockers(bs, e, x), BaseOf(x.role) + 16)
  {
    hide PushIf, RankedBelow, HasDigest, NeedDigest, Rank;
    var base := BaseOf(x.role);
    EvidenceRank(x.role, SmokeProofNotValid);
    EvidenceRank(x.role, SdkRetriesNotDisabled);
    EvidenceRank(x.role, ResponseStorageNotDisabled);
    NeedRanked(bs, e, x, x.production, CustomerApproval, base + 7);
    var b1 := NeedDigest(bs, e, x, x.production, CustomerApproval);
    NeedRanked(b1, e, x, x.production, DataResidencyApproval, base + 8);
    var b2 := NeedDigest(b1, e, x, x.production, DataResidencyApproval);
    NeedRanked(b2, e, x, x.production, RetentionApproval, base + 9);
    var b3 := NeedDigest(b2, e, x, x.production, RetentionApproval);
    NeedRanked(b3, e, x, x.production, TimeoutPolicy, base + 10);
    var b4 := NeedDigest(b3, e, x, x.production, TimeoutPolicy);
    NeedRanked(b4, e, x, x.production, BudgetPolicy, base + 11);
    var b5 := NeedDigest(b4, e, x, x.production, BudgetPolicy);
    NeedRanked(b5, e, x, x.production, LiveSmokeProof, base + 12);
    var b6 := NeedDigest(b5, e, x, x.production, LiveSmokeProof);
    PushRanked(b6, x.production && e.smokeState != Some(Valid), Evidence(x.role, SmokeProofNotValid), base + 13);
    var b7 := PushIf(b6, x.production && e.smokeState != Some(Valid), Evidence(x.role, SmokeProofNotValid));
    PushRanked(b7, x.production && !e.sdkRetriesDisabled, Evidence(x.role, SdkRetriesNotDisabled), base + 14);
    var b8 := PushIf(b7, x.production && !e.sdkRetriesDisabled, Evidence(x.role, SdkRetriesNotDisabled));
    PushRanked(b8, x.production && !e.responseStorageDisabled, Evidence(x.role, ResponseStorageNotDisabled), base + 15);
  }
}
