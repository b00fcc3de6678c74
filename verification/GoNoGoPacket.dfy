/**
 The production go/no-go packet: eight gates over a loaded candidate summary and the operator's inputs,
 their blockers, and the decision; and how it follows the candidate's own verdict.
 */
module GoNoGoPacket {
  import opened Wrappers
  import opened Text
  import opened ArtifactBundle
  import opened ArtifactCopy
  import opened PromotionCandidate

  datatype Status = Pass | Fail | NotApplicable

  datatype Scope = EnvironmentPromotion | CustomerEnforcement

  datatype RouteMode = NotUsed | RouteRequired

  datatype ApprovalSource = WorkflowActor | ProtectedEnvironment | SignedApproval

  datatype GateId =
    | CandidateGate | RehearsalEvidenceGate | ExternalSignerGate | SharedStoreGate | CustomerPepGate
    | ProviderRouteGate | IncidentRunbookGate | HumanApprovalGate

  datatype GateBlocker =
    | SummaryMissing | SchemaMismatch | VerdictNotGo | HasBlockers | PacketNotReady | PacketGateNotPassed
    | AttestationMissing
    | EvidenceMissing(id: string) | EvidenceNotAllPassing | ArtifactsMissing | DigestMismatch
    | SignerProofRequired | PepProofRequired | RouteProofRequired
    | ProfileNotShared | AuthorityNotRequired | FallbackNotBlocked | StoreNotCleared
    | RunbookMissing | StopConditionsMissing | ObservabilityStepMissing | NoOverclaimMissing
    | ObservabilityEvidenceMissing
    | ActorRequired | TimestampRequired | IndependentSourceRequired | EvidenceRefRequired | SignedApprovalRequired

  datatype Gate = Gate(id: GateId, status: Status, required: bool, blockers: seq<GateBlocker>)

  /** What the packet reads of a candidate's summary file; any part may be absent. */
  datatype Loaded = Loaded(
    schemaVersion: Option<string>, verdict: Option<string>, blockerCount: Option<nat>,
    packetState: Option<string>, packetGatePassed: Option<bool>, signaturePresent: bool, attestationPath: bool,
    profile: Option<string>, requireSharedAuthority: Option<bool>, noLocalFallback: Option<bool>,
    requiredCount: Option<nat>, passingRequiredCount: Option<nat>,
    includedIds: seq<string>, missingCount: Option<nat>, mismatchCount: Option<nat>)

  datatype Inputs = Inputs(
    scope: Scope, mode: RouteMode, signerDigest: string, pepDigest: string, routeDigest: string,
    runbook: Option<string>, approvedBy: string, approvedAt: Option<int>, approvalSource: ApprovalSource,
    approvalRef: string, now: int)

  datatype Decision = Decision(gates: seq<Gate>, verdict: Verdict, blockers: seq<(GateId, GateBlocker)>)

  const SCHEMA := "attestor.production-promotion-candidate.v1"
  const OBSERVABILITY_ID := "production-rehearsal-observability-alerting"
  const REQUIRED_IDS := [
    "repo-verify-output", "production-readiness-packet", "production-rehearsal-substrate-readiness",
    "production-rehearsal-consequence-behavior", "production-rehearsal-async-recovery",
    "production-rehearsal-backup-restore-dr", OBSERVABILITY_ID, "release-provenance-verification"]

  // ---------------------------------------------------------------- texts

  predicate IsHexDigit(c: char) {
    '0' <= c <= '9' || 'a' <= c <= 'f' || 'A' <= c <= 'F'
  }

  predicate AllHex(s: string) {
    forall i :: 0 <= i < |s| ==> IsHexDigit(s[i])
  }

  /** `sha256:` without regard to case; in Unicode matching the long s folds to s. */
  predicate DigestPrefix(s: string) {
    |s| == 7 && s[0] in {'s', 'S', '\U{017F}'} && s[1] in {'h', 'H'} && s[2] in {'a', 'A'} && s[3..] == "256:"
  }

  predicate ValidDigest(s: string) {
    || (7 <= |s| && DigestPrefix(s[..7]) && 32 <= |s| - 7 <= 64 && AllHex(s[7..]))
    || (|s| == 64 && AllHex(s))
  }

  predicate IsRefChar(c: char) {
    'A' <= c <= 'Z' || 'a' <= c <= 'z' || '0' <= c <= '9' || c in {'_', '.', ':', '/', '@', '-'}
  }

  predicate TaggedRef(s: string, tag: string) {
    StartsWith(s, tag) && 3 <= |s| - |tag| <= 200 && forall i :: |tag| <= i < |s| ==> IsRefChar(s[i])
  }

  predicate ValidApprovalRef(s: string) {
    ValidDigest(s) || TaggedRef(s, "github-environment:") || TaggedRef(s, "signed-approval:")
  }

  // ---------------------------------------------------------------- gates

  function Push(bs: seq<GateBlocker>, condition: bool, b: GateBlocker): (r: seq<GateBlocker>)
    ensures r == [] <==> bs == [] && !condition
  {
    if condition then bs + [b] else bs
  }

  /** A gate built from its collected blockers passes exactly when there are none. */
  function Judged(id: GateId, blockers: seq<GateBlocker>): Gate {
    if blockers == [] then Gate(id, Pass, true, []) else Gate(id, Fail, true, blockers)
  }

  function Candidate(s: Option<Loaded>): Gate {
    if s.None? then Gate(CandidateGate, Fail, true, [SummaryMissing])
    else
      var l := s.value;
      var b0 := Push([], l.schemaVersion != Some(SCHEMA), SchemaMismatch);
      var b1 := Push(b0, l.verdict != Some("go"), VerdictNotGo);
      var b2 := Push(b1, l.blockerCount.Some? && l.blockerCount.value > 0, HasBlockers);
      var b3 := Push(b2, l.packetState != Some("ready-for-environment-promotion"), PacketNotReady);
      var b4 := Push(b3, l.packetGatePassed != Some(true), PacketGateNotPassed);
      Judged(CandidateGate, Push(b4, !l.signaturePresent || !l.attestationPath, AttestationMissing))
  }

  function MissingIds(ids: seq<string>, included: seq<string>): seq<GateBlocker> {
    if ids == [] then []
    else
      var last := ids[|ids| - 1];
      MissingIds(ids[..|ids| - 1], included) + if last in included && last != "" then [] else [EvidenceMissing(last)]
  }

  function RehearsalEvidence(s: Option<Loaded>): Gate {
    if s.None? then Judged(RehearsalEvidenceGate, MissingIds(REQUIRED_IDS, []))
    else
      var l := s.value;
      var b0 := MissingIds(REQUIRED_IDS, l.includedIds);
      var b1 := Push(
        b0,
        l.requiredCount.Some? && l.passingRequiredCount.Some? && l.passingRequiredCount.value < l.requiredCount.value,
        EvidenceNotAllPassing);
      var b2 := Push(b1, l.missingCount.Some? && l.missingCount.value > 0, ArtifactsMissing);
      Judged(RehearsalEvidenceGate, Push(b2, l.mismatchCount.Some? && l.mismatchCount.value > 0, DigestMismatch))
  }

  function ExternalSigner(digest: string): Gate {
    Judged(ExternalSignerGate, Push([], !ValidDigest(digest), SignerProofRequired))
  }

  function SharedStore(s: Option<Loaded>): Gate {
    var b0 := Push([], s.None? || s.value.profile != Some("production-shared"), ProfileNotShared);
    var b1 := Push(b0, s.None? || s.value.requireSharedAuthority != Some(true), AuthorityNotRequired);
    var b2 := Push(b1, s.None? || s.value.noLocalFallback != Some(true), FallbackNotBlocked);
    Judged(SharedStoreGate, Push(b2, s.None? || s.value.packetGatePassed != Some(true), StoreNotCleared))
  }

  function CustomerPep(scope: Scope, digest: string): Gate {
    if scope == EnvironmentPromotion then Gate(CustomerPepGate, NotApplicable, false, [])
    else Judged(CustomerPepGate, Push([], !ValidDigest(digest), PepProofRequired))
  }

  function ProviderRoute(mode: RouteMode, digest: string): Gate {
    if mode == NotUsed then Gate(ProviderRouteGate, NotApplicable, false, [])
    else Judged(ProviderRouteGate, Push([], !ValidDigest(digest), RouteProofRequired))
  }

  const STOP_CONDITIONS := "## Stop Conditions"
  const OBSERVABILITY_STEP := "rehearse:production-observability-alerting"
  const NO_OVERCLAIM := "do not call production ready"

  function RunbookBlockers(runbook: Option<string>): seq<GateBlocker> {
    if runbook.None? then [RunbookMissing]
    else
      var b0 := Push([], !Contains(runbook.value, STOP_CONDITIONS), StopConditionsMissing);
      var b1 := Push(b0, !Contains(runbook.value, OBSERVABILITY_STEP), ObservabilityStepMissing);
      Push(b1, !Contains(runbook.value, NO_OVERCLAIM), NoOverclaimMissing)
  }

  function IncidentRunbook(runbook: Option<string>, s: Option<Loaded>): Gate {
    Judged(
      IncidentRunbookGate,
      Push(RunbookBlockers(runbook), s.None? || OBSERVABILITY_ID !in s.value.includedIds, ObservabilityEvidenceMissing))
  }

  function HumanApproval(i: Inputs): Gate {
    var b0 := Push([], Trim(i.approvedBy) == "", ActorRequired);
    var b1 := Push(b0, i.approvedAt.None? || i.approvedAt.value > i.now + 300_000, TimestampRequired);
    var b2 := Push(b1, i.approvalSource == WorkflowActor, IndependentSourceRequired);
    var b3 := Push(b2, !ValidApprovalRef(i.approvalRef), EvidenceRefRequired);
    Judged(
      HumanApprovalGate,
      Push(b3, i.scope == CustomerEnforcement && i.approvalSource != SignedApproval, SignedApprovalRequired))
  }

  function Gates(s: Option<Loaded>, i: Inputs): seq<Gate> {
    [ Candidate(s), RehearsalEvidence(s), ExternalSigner(i.signerDigest), SharedStore(s),
      CustomerPep(i.scope, i.pepDigest), ProviderRoute(i.mode, i.routeDigest), IncidentRunbook(i.runbook, s),
      HumanApproval(i) ]
  }

  function Named(id: GateId, blockers: seq<GateBlocker>): (r: seq<(GateId, GateBlocker)>)
    ensures |r| == |blockers|
  {
    if blockers == [] then [] else Named(id, blockers[..|blockers| - 1]) + [(id, blockers[|blockers| - 1])]
  }

  function Collected(gates: seq<Gate>): seq<(GateId, GateBlocker)> {
    if gates == [] then []
    else
      var g := gates[|gates| - 1];
      Collected(gates[..|gates| - 1]) + if g.required && g.status != Pass then Named(g.id, g.blockers) else []
  }

  function Decide(s: Option<Loaded>, i: Inputs): Decision {
    var blockers := Collected(Gates(s, i));
    Decision(Gates(s, i), if blockers == [] then Go else NoGo, blockers)
  }

  // ---------------------------------------------------------------- the decision

  /** No gate fails silently, and none that is judged escapes being required. */
  predicate Honest(g: Gate) {
    && (g.status == Fail ==> g.required && g.blockers != [])
    && (g.status == Pass ==> g.required && g.blockers == [])
    && (g.status == NotApplicable ==> !g.required)
  }

  lemma {:induction false} CollectedMeans(gates: seq<Gate>)
    requires forall k :: 0 <= k < |gates| ==> Honest(gates[k])
    ensures Collected(gates) == [] <==> forall k :: 0 <= k < |gates| && gates[k].required ==> gates[k].status == Pass
  {
    if gates != [] {
      CollectedMeans(gates[..|gates| - 1]);
      assert gates == gates[..|gates| - 1] + [gates[|gates| - 1]];
    }
  }

  lemma GatesHonest(s: Option<Loaded>, i: Inputs)
    ensures forall k :: 0 <= k < 8 ==> Honest(Gates(s, i)[k])
  {
    hide MissingIds, ValidDigest, ValidApprovalRef, RunbookBlockers, Trim;
  }

  /** The verdict is go exactly when every required gate passes: no gate can fail without leaving a blocker. */
  lemma GoMeansGatesPass(s: Option<Loaded>, i: Inputs)
    ensures
      var d := Decide(s, i);
      d.verdict == Go <==> forall k :: 0 <= k < 8 && d.gates[k].required ==> d.gates[k].status == Pass
    ensures Decide(s, i).verdict == Go <==> Decide(s, i).blockers == []
  {
    hide Candidate, RehearsalEvidence, ExternalSigner, SharedStore, CustomerPep, ProviderRoute, IncidentRunbook,
      HumanApproval, Honest;
    GatesHonest(s, i);
    CollectedMeans(Gates(s, i));
  }

  // ---------------------------------------------------------------- what a go packet means

  predicate CandidateOk(l: Loaded) {
    && l.schemaVersion == Some(SCHEMA) && l.verdict == Some("go")
    && (l.blockerCount.Some? ==> l.blockerCount.value == 0)
    && l.packetState == Some("ready-for-environment-promotion") && l.packetGatePassed == Some(true)
    && l.signaturePresent && l.attestationPath
  }

  predicate EvidenceOk(l: Loaded) {
    && (forall k :: 0 <= k < |REQUIRED_IDS| ==> REQUIRED_IDS[k] in l.includedIds)
    && (l.requiredCount.Some? && l.passingRequiredCount.Some? ==> l.passingRequiredCount.value >= l.requiredCount.value)
    && (l.missingCount.Some? ==> l.missingCount.value == 0)
    && (l.mismatchCount.Some? ==> l.mismatchCount.value == 0)
  }

  predicate StoreOk(l: Loaded) {
    && l.profile == Some("production-shared") && l.requireSharedAuthority == Some(true)
    && l.noLocalFallback == Some(true) && l.packetGatePassed == Some(true)
  }

  predicate RunbookOk(text: string) {
    Contains(text, STOP_CONDITIONS) && Contains(text, OBSERVABILITY_STEP) && Contains(text, NO_OVERCLAIM)
  }

  predicate ApprovalOk(i: Inputs) {
    && Trim(i.approvedBy) != ""
    && i.approvedAt.Some? && i.approvedAt.value <= i.now + 300_000
    && ValidApprovalRef(i.approvalRef)
    && (if i.scope == CustomerEnforcement then i.approvalSource == SignedApproval else i.approvalSource != WorkflowActor)
  }

  lemma {:induction false} MissingIdsMeans(ids: seq<string>, included: seq<string>)
    requires "" !in ids
    ensures MissingIds(ids, included) == [] <==> forall k :: 0 <= k < |ids| ==> ids[k] in included
  {
    if ids != [] {
      assert ids == ids[..|ids| - 1] + [ids[|ids| - 1]];
      assert forall k :: 0 <= k < |ids| - 1 ==> ids[..|ids| - 1][k] == ids[k];
      MissingIdsMeans(ids[..|ids| - 1], included);
    }
  }

  lemma RequiredIdsNonempty()
    ensures forall k :: 0 <= k < |REQUIRED_IDS| ==> REQUIRED_IDS[k] != ""
    ensures "" !in REQUIRED_IDS
    ensures OBSERVABILITY_ID == REQUIRED_IDS[6]
  {
  }

  lemma EvidenceGateMeans(s: Option<Loaded>)
    ensures RehearsalEvidence(s).status == Pass <==> s.Some? && EvidenceOk(s.value)
  {
    hide MissingIds;
    RequiredIdsNonempty();
    MissingIdsMeans(REQUIRED_IDS, if s.None? then [] else s.value.includedIds);
    assert REQUIRED_IDS[0] !in [];
  }

  lemma RunbookGateMeans(runbook: Option<string>, s: Option<Loaded>)
    ensures IncidentRunbook(runbook, s).status == Pass <==>
      runbook.Some? && RunbookOk(runbook.value) && s.Some? && OBSERVABILITY_ID in s.value.includedIds
  {
    hide Contains;
  }

  lemma ApprovalGateMeans(i: Inputs)
    ensures HumanApproval(i).status == Pass <==> ApprovalOk(i)
  {
    hide Trim, ValidApprovalRef;
  }

  /** A go packet, said outright: both directions, for every summary and every input. */
  lemma GoPacketMeans(s: Option<Loaded>, i: Inputs)
    ensures Decide(s, i).verdict == Go <==>
      && s.Some? && CandidateOk(s.value) && EvidenceOk(s.value) && StoreOk(s.value)
      && ValidDigest(i.signerDigest)
      && (i.scope == CustomerEnforcement ==> ValidDigest(i.pepDigest))
      && (i.mode == RouteRequired ==> ValidDigest(i.routeDigest))
      && i.runbook.Some? && RunbookOk(i.runbook.value)
      && ApprovalOk(i)
  {
    hide RehearsalEvidence, IncidentRunbook, HumanApproval, EvidenceOk, RunbookOk, ApprovalOk, ValidDigest, Collected, Honest;
    GatesHonest(s, i);
    GoMeansGatesPass(s, i);
    EvidenceGateMeans(s);
    RunbookGateMeans(i.runbook, s);
    ApprovalGateMeans(i);
    GateList(s, i);
    if s.Some? && EvidenceOk(s.value) {
      EvidenceNamesObservability(s.value);
    }
  }

  lemma EvidenceNamesObservability(l: Loaded)
    requires EvidenceOk(l)
    ensures OBSERVABILITY_ID in l.includedIds
  {
    RequiredIdsNonempty();
    assert REQUIRED_IDS[6] in l.includedIds;
  }

  lemma GateList(s: Option<Loaded>, i: Inputs)
    ensures
      var g := Gates(s, i);
      (forall k :: 0 <= k < 8 && g[k].required ==> g[k].status == Pass) <==>
        && Candidate(s).status == Pass && RehearsalEvidence(s).status == Pass
        && ExternalSigner(i.signerDigest).status == Pass && SharedStore(s).status == Pass
        && CustomerPep(i.scope, i.pepDigest).status != Fail && ProviderRoute(i.mode, i.routeDigest).status != Fail
        && IncidentRunbook(i.runbook, s).status == Pass && HumanApproval(i).status == Pass
  {
    hide MissingIds, ValidDigest, ValidApprovalRef, RunbookBlockers, Trim;
    GatesHonest(s, i);
    var g := Gates(s, i);
    assert g[0].required && g[1].required && g[2].required && g[3].required && g[6].required && g[7].required;
    assert g[4].required <==> g[4].status != NotApplicable;
    assert g[5].required <==> g[5].status != NotApplicable;
  }

  // ---------------------------------------------------------------- from candidate to packet

  function IdsOf(xs: seq<Included>): (r: seq<string>)
    ensures |r| == |xs| && forall k :: 0 <= k < |xs| ==> r[k] == xs[k].ref.id
  {
    if xs == [] then [] else IdsOf(xs[..|xs| - 1]) + [xs[|xs| - 1].ref.id]
  }

  predicate Bundled(xs: seq<Included>, id: string) {
    exists j :: 0 <= j < |xs| && xs[j].ref.id == id
  }

  /** What the packet reads back of a summary the packager wrote. */
  function Load(s: Summary): Loaded {
    Loaded(
      Some(SCHEMA), Some(if s.verdict == Go then "go" else "no-go"), Some(|s.blockers|),
      s.packet.state, s.packet.promotionGatePassed, s.signed, s.signed,
      Some(s.runtime.profile), Some(s.runtime.requireSharedAuthority), Some(s.runtime.noLocalFallback),
      Some(s.requiredCount), Some(s.passingRequiredCount),
      IdsOf(s.copy.included), Some(|s.copy.missing|), Some(|s.copy.mismatches|))
  }

  /** A go candidate passes the candidate and shared-store gates, and no other candidate passes the first. */
  lemma CandidateVerdictCarries(m: Manifest, c: Copy, packet: EnvironmentPacket, key: bool)
    ensures
      var s := SummaryOf(m, c, packet, key);
      && (s.verdict == Go <==> Candidate(Some(Load(s))).status == Pass)
      && (s.verdict == Go ==> SharedStore(Some(Load(s))).status == Pass)
  {
    hide ManifestChecks, CopyChecks, Blockers, RequiredEvidence, Passing, IdsOf, ManifestSound, NothingRequiredMissing;
    BlockersMean(m, c, packet, key);
    GoIsNotNoGo();
    if SummaryOf(m, c, packet, key).verdict == Go {
      assert RuntimeBound(m.runtime) by { SoundRuntime(m); }
    }
  }

  lemma GoIsNotNoGo()
    ensures "go" != "no-go"
  {
    assert |"go"| == 2 && |"no-go"| == 5;
  }

  lemma SoundRuntime(m: Manifest)
    requires ManifestSound(m)
    ensures RuntimeBound(m.runtime)
  {
  }

  /**
   The rehearsal-evidence gate asks a go candidate for two more things: all eight named evidence items in
   the bundle, and no missing artifact at all, be it optional.
   */
  lemma EvidenceGateOfGo(m: Manifest, c: Copy, packet: EnvironmentPacket, key: bool)
    requires SummaryOf(m, c, packet, key).verdict == Go
    ensures RehearsalEvidence(Some(Load(SummaryOf(m, c, packet, key)))).status == Pass <==>
      && c.missing == []
      && forall k :: 0 <= k < |REQUIRED_IDS| ==> Bundled(c.included, REQUIRED_IDS[k])
  {
    hide ManifestChecks, CopyChecks, Blockers, RequiredEvidence, Passing, RehearsalEvidence, ManifestSound, NothingRequiredMissing,
      IdsOf, EvidenceOk, Load, Bundled;
    var s := SummaryOf(m, c, packet, key);
    BlockersMean(m, c, packet, key);
    EvidenceGateMeans(Some(Load(s)));
    assert s.passingRequiredCount == s.requiredCount by {
      SoundEvidence(m);
      EvidenceCheckMeans(m);
    }
    LoadedIds(s);
    AllBundled(c.included);
  }

  lemma LoadedIds(s: Summary)
    ensures EvidenceOk(Load(s)) <==>
      && (forall k :: 0 <= k < |REQUIRED_IDS| ==> REQUIRED_IDS[k] in IdsOf(s.copy.included))
      && s.passingRequiredCount >= s.requiredCount && s.copy.missing == [] && s.copy.mismatches == []
  {
    hide IdsOf;
  }

  lemma AllBundled(xs: seq<Included>)
    ensures (forall k :: 0 <= k < |REQUIRED_IDS| ==> REQUIRED_IDS[k] in IdsOf(xs)) <==>
      forall k :: 0 <= k < |REQUIRED_IDS| ==> Bundled(xs, REQUIRED_IDS[k])
  {
    hide IdsOf, Bundled;
    forall id
      ensures id in IdsOf(xs) <==> Bundled(xs, id)
    {
      IdsMean(xs, id);
    }
  }

  lemma SoundEvidence(m: Manifest)
    requires ManifestSound(m)
    ensures EvidencePasses(m)
  {
  }

  lemma IdsMean(xs: seq<Included>, id: string)
    ensures id in IdsOf(xs) <==> Bundled(xs, id)
  {
    var ids := IdsOf(xs);
    assert id in ids ==> exists j :: 0 <= j < |ids| && ids[j] == id;
    assert forall j :: 0 <= j < |xs| && xs[j].ref.id == id ==> ids[j] in ids;
  }

  /**
   End to end. A go packet on a summary the packager wrote means a sound manifest that asked for a go, every
   reference present and every file of it inside the allowed roots with its expected digest, and a valid
   independent approval.
   */
  lemma GoPacketOnPackagedCandidate(ws: Workspace, m: Manifest, packet: EnvironmentPacket, key: bool, i: Inputs)
    requires Sound(ws)
    requires Decide(Some(Load(SummaryOf(m, AddRefs(ws, References(m)), packet, key))), i).verdict == Go
    ensures ManifestSound(m) && m.verdict == "go" && PacketReady(packet) && key
    ensures forall k :: 0 <= k < |References(m)| ==>
      Present(ws, References(m)[k]) && Clean(ws, References(m)[k]) && DigestsMatch(ws, References(m)[k])
    ensures ApprovalOk(i) && ValidDigest(i.signerDigest)
  {
    hide Sound, AddRefs, References, SummaryOf, Decide, Candidate, SharedStore, EvidenceOk, StoreOk, RunbookOk, ApprovalOk,
      ValidDigest, ManifestSound, PacketReady, Clean, DigestsMatch, RehearsalEvidence, Load;
    var refs := References(m);
    var c := AddRefs(ws, refs);
    var s := SummaryOf(m, c, packet, key);
    GoPacketMeans(Some(Load(s)), i);
    CandidateGateMeans(Load(s));
    CandidateVerdictCarries(m, c, packet, key);
    GoMeans(ws, m, packet, key);
    EvidenceGateMeans(Some(Load(s)));
    EvidenceGateOfGo(m, c, packet, key);
    ListsMean(ws, refs);
    forall k | 0 <= k < |refs|
      ensures Present(ws, refs[k])
    {
      CleanAndNotMissing(ws, refs[k]);
      assert refs[k] !in c.missing;
    }
  }

  lemma CandidateGateMeans(l: Loaded)
    ensures Candidate(Some(l)).status == Pass <==> CandidateOk(l)
  {
  }

  lemma CleanAndNotMissing(ws: Workspace, ref: Ref)
    ensures Clean(ws, ref) && !Missing(ws, ref) ==> Present(ws, ref)
  {
    hide Denial;
  }

  // ---------------------------------------------------------------- digests and references, letter by letter

  predicate Hexadecimal(s: string) {
    forall c :: c in s ==> c in "0123456789abcdefABCDEF"
  }

  lemma HexMeans(s: string)
    ensures AllHex(s) <==> Hexadecimal(s)
  {
    forall c ensures IsHexDigit(c) <==> c in "0123456789abcdefABCDEF" { HexLetter(c); }
    hide IsHexDigit;
    if AllHex(s) {
      forall c | c in s ensures c in "0123456789abcdefABCDEF" {
        var i :| 0 <= i < |s| && s[i] == c;
      }
    }
    assert Hexadecimal(s) ==> forall i :: 0 <= i < |s| ==> s[i] in s;
  }

  lemma HexLetter(c: char)
    ensures IsHexDigit(c) <==> c in "0123456789abcdefABCDEF"
  {
    var s := "0123456789abcdefABCDEF";
    assert s[0] == '0' && s[1] == '1' && s[2] == '2' && s[3] == '3' && s[4] == '4' && s[5] == '5' && s[6] == '6' && s[7] == '7';
    assert s[8] == '8' && s[9] == '9' && s[10] == 'a' && s[11] == 'b' && s[12] == 'c' && s[13] == 'd' && s[14] == 'e' && s[15] == 'f';
    assert s[16] == 'A' && s[17] == 'B' && s[18] == 'C' && s[19] == 'D' && s[20] == 'E' && s[21] == 'F';
  }

  /** A digest: 64 hexadecimal digits, or 32 to 64 of them after `sha256:` in any case, where a long s counts as s. */
  lemma DigestMeans(s: string)
    ensures ValidDigest(s) <==>
      || (|s| == 64 && Hexadecimal(s))
      || exists prefix, hex ::
           s == prefix + hex && 32 <= |hex| <= 64 && Hexadecimal(hex)
           && prefix in ["sha256:", "shA256:", "sHa256:", "sHA256:", "Sha256:", "ShA256:", "SHa256:", "SHA256:",
                         "\U{017F}ha256:", "\U{017F}hA256:", "\U{017F}Ha256:", "\U{017F}HA256:"]
  {
    hide AllHex, Hexadecimal;
    HexMeans(s);
    if 7 <= |s| {
      HexMeans(s[7..]);
      PrefixMeans(s[..7]);
      assert s == s[..7] + s[7..];
    }
    forall prefix, hex | s == prefix + hex && |prefix| == 7
      ensures s[..7] == prefix && s[7..] == hex
    {
    }
    PrefixLengths();
  }

  lemma PrefixLengths()
    ensures forall p :: p in PREFIXES ==> |p| == 7
  {
  }

  const PREFIXES := ["sha256:", "shA256:", "sHa256:", "sHA256:", "Sha256:", "ShA256:", "SHa256:", "SHA256:",
                     "\U{017F}ha256:", "\U{017F}hA256:", "\U{017F}Ha256:", "\U{017F}HA256:"]

  lemma PrefixMeans(p: string)
    ensures DigestPrefix(p) <==> p in PREFIXES
  {
    var tail := "256:";
    assert PREFIXES[0] == ['s', 'h', 'a'] + tail && PREFIXES[1] == ['s', 'h', 'A'] + tail;
    assert PREFIXES[2] == ['s', 'H', 'a'] + tail && PREFIXES[3] == ['s', 'H', 'A'] + tail;
    assert PREFIXES[4] == ['S', 'h', 'a'] + tail && PREFIXES[5] == ['S', 'h', 'A'] + tail;
    assert PREFIXES[6] == ['S', 'H', 'a'] + tail && PREFIXES[7] == ['S', 'H', 'A'] + tail;
    assert PREFIXES[8] == ['\U{017F}', 'h', 'a'] + tail && PREFIXES[9] == ['\U{017F}', 'h', 'A'] + tail;
    assert PREFIXES[10] == ['\U{017F}', 'H', 'a'] + tail && PREFIXES[11] == ['\U{017F}', 'H', 'A'] + tail;
    if DigestPrefix(p) {
      assert p == [p[0], p[1], p[2]] + tail;
    }
    if p in PREFIXES {
      assert p[3..] == tail;
    }
  }

  predicate RefText(s: string) {
    forall i :: 0 <= i < |s| ==> 'A' <= s[i] <= 'Z' || 'a' <= s[i] <= 'z' || '0' <= s[i] <= '9' || s[i] in "_.:/@-"
  }

  /** A reference of the approval: a digest, or a tag and 3 to 200 letters, digits or marks. */
  lemma ApprovalRefMeans(s: string)
    ensures ValidApprovalRef(s) <==>
      || ValidDigest(s)
      || exists tag, rest ::
           tag in ["github-environment:", "signed-approval:"] && s == tag + rest && 3 <= |rest| <= 200 && RefText(rest)
  {
    hide ValidDigest, RefText;
    TaggedMeans(s, "github-environment:");
    TaggedMeans(s, "signed-approval:");
  }

  lemma TaggedMeans(s: string, tag: string)
    ensures TaggedRef(s, tag) <==>
      exists rest ::
        s == tag + rest && 3 <= |rest| <= 200 && RefText(rest)
  {
    if TaggedRef(s, tag) {
      var rest := s[|tag|..];
      assert s == tag + rest;
      forall i | 0 <= i < |rest|
        ensures 'A' <= rest[i] <= 'Z' || 'a' <= rest[i] <= 'z' || '0' <= rest[i] <= '9' || rest[i] in "_.:/@-"
      {
        assert rest[i] == s[|tag| + i];
        RefMark(rest[i]);
      }
      assert RefText(rest);
    }
    if rest :| s == tag + rest && 3 <= |rest| <= 200 && RefText(rest) {
      forall i | |tag| <= i < |s|
        ensures IsRefChar(s[i])
      {
        assert s[i] == rest[i - |tag|];
        RefMark(s[i]);
      }
    }
  }

  lemma RefMark(c: char)
    ensures IsRefChar(c) <==> 'A' <= c <= 'Z' || 'a' <= c <= 'z' || '0' <= c <= '9' || c in "_.:/@-"
  {
    assert "_.:/@-"[0] == '_' && "_.:/@-"[1] == '.' && "_.:/@-"[2] == ':' && "_.:/@-"[3] == '/' && "_.:/@-"[4] == '@' && "_.:/@-"[5] == '-';
  }

  // ---------------------------------------------------------------- the gates, blocker by blocker

  lemma PushIs(bs: seq<GateBlocker>, condition: bool, b: GateBlocker)
    ensures Push(bs, condition, b) == bs + Given(condition, b)
  {
  }

  /** A gate that is judged: its blockers are these, and it passes if and only if there are none. */
  predicate JudgedBy(g: Gate, id: GateId, blockers: seq<GateBlocker>) {
    g.id == id && g.required && g.blockers == blockers && g.status == if |blockers| == 0 then Pass else Fail
  }

  predicate Skipped(g: Gate, id: GateId) {
    g.id == id && !g.required && g.blockers == [] && g.status == NotApplicable
  }

  predicate Positive(n: Option<nat>) {
    n.Some? && n.value > 0
  }

  lemma CandidateMeans(s: Option<Loaded>)
    ensures s.None? ==> JudgedBy(Candidate(s), CandidateGate, [SummaryMissing])
    ensures s.Some? ==>
      var l := s.value;
      JudgedBy(Candidate(s), CandidateGate,
        Given(l.schemaVersion != Some("attestor.production-promotion-candidate.v1"), SchemaMismatch)
        + Given(l.verdict != Some("go"), VerdictNotGo)
        + Given(Positive(l.blockerCount), HasBlockers)
        + Given(l.packetState != Some("ready-for-environment-promotion"), PacketNotReady)
        + Given(l.packetGatePassed != Some(true), PacketGateNotPassed)
        + Given(!(l.signaturePresent && l.attestationPath), AttestationMissing))
  {
    hide Push, Given;
    forall bs, c, b ensures Push(bs, c, b) == bs + Given(c, b) { PushIs(bs, c, b); }
    if s.Some? {
      var first := Given(s.value.schemaVersion != Some(SCHEMA), SchemaMismatch);
      assert [] + first == first;
    }
  }

  lemma SharedStoreMeans(s: Option<Loaded>)
    ensures JudgedBy(SharedStore(s), SharedStoreGate,
      Given(!(s.Some? && s.value.profile == Some("production-shared")), ProfileNotShared)
      + Given(!(s.Some? && s.value.requireSharedAuthority == Some(true)), AuthorityNotRequired)
      + Given(!(s.Some? && s.value.noLocalFallback == Some(true)), FallbackNotBlocked)
      + Given(!(s.Some? && s.value.packetGatePassed == Some(true)), StoreNotCleared))
  {
    hide Push, Given;
    forall bs, c, b ensures Push(bs, c, b) == bs + Given(c, b) { PushIs(bs, c, b); }
    var first := Given(!(s.Some? && s.value.profile == Some("production-shared")), ProfileNotShared);
    assert [] + first == first;
  }

  lemma ProofGatesMean(i: Inputs)
    ensures JudgedBy(ExternalSigner(i.signerDigest), ExternalSignerGate, Given(!ValidDigest(i.signerDigest), SignerProofRequired))
    ensures if i.scope == CustomerEnforcement
            then JudgedBy(CustomerPep(i.scope, i.pepDigest), CustomerPepGate, Given(!ValidDigest(i.pepDigest), PepProofRequired))
            else Skipped(CustomerPep(i.scope, i.pepDigest), CustomerPepGate)
    ensures if i.mode == RouteRequired
            then JudgedBy(ProviderRoute(i.mode, i.routeDigest), ProviderRouteGate, Given(!ValidDigest(i.routeDigest), RouteProofRequired))
            else Skipped(ProviderRoute(i.mode, i.routeDigest), ProviderRouteGate)
  {
    hide ValidDigest;
  }

  lemma RunbookMeans(runbook: Option<string>, s: Option<Loaded>)
    ensures JudgedBy(IncidentRunbook(runbook, s), IncidentRunbookGate,
      Given(runbook.None?, RunbookMissing)
      + Given(runbook.Some? && !Contains(runbook.value, "## Stop Conditions"), StopConditionsMissing)
      + Given(runbook.Some? && !Contains(runbook.value, "rehearse:production-observability-alerting"), ObservabilityStepMissing)
      + Given(runbook.Some? && !Contains(runbook.value, "do not call production ready"), NoOverclaimMissing)
      + Given(!(s.Some? && "production-rehearsal-observability-alerting" in s.value.includedIds), ObservabilityEvidenceMissing))
  {
    hide Contains;
  }

  lemma ApprovalMeans(i: Inputs)
    ensures JudgedBy(HumanApproval(i), HumanApprovalGate,
      Given(Trim(i.approvedBy) == "", ActorRequired)
      + Given(!(i.approvedAt.Some? && i.approvedAt.value - i.now <= 5 * 60 * 1000), TimestampRequired)
      + Given(i.approvalSource == WorkflowActor, IndependentSourceRequired)
      + Given(!ValidApprovalRef(i.approvalRef), EvidenceRefRequired)
      + Given(i.scope == CustomerEnforcement && i.approvalSource != SignedApproval, SignedApprovalRequired))
  {
    hide Trim, ValidApprovalRef, Push, Given;
    forall bs, c, b ensures Push(bs, c, b) == bs + Given(c, b) { PushIs(bs, c, b); }
    var first := Given(Trim(i.approvedBy) == "", ActorRequired);
    assert [] + first == first;
  }

  function Lacking(id: string, included: seq<string>): seq<GateBlocker> {
    Given(id !in included, EvidenceMissing(id))
  }

  lemma EvidenceMeans(s: Option<Loaded>)
    ensures
      var included := if s.Some? then s.value.includedIds else [];
      JudgedBy(RehearsalEvidence(s), RehearsalEvidenceGate,
        Lacking("repo-verify-output", included) + Lacking("production-readiness-packet", included)
        + Lacking("production-rehearsal-substrate-readiness", included)
        + Lacking("production-rehearsal-consequence-behavior", included)
        + Lacking("production-rehearsal-async-recovery", included)
        + Lacking("production-rehearsal-backup-restore-dr", included)
        + Lacking("production-rehearsal-observability-alerting", included)
        + Lacking("release-provenance-verification", included)
        + Given(s.Some? && s.value.requiredCount.Some? && s.value.passingRequiredCount.Some?
                && s.value.passingRequiredCount.value < s.value.requiredCount.value, EvidenceNotAllPassing)
        + Given(s.Some? && Positive(s.value.missingCount), ArtifactsMissing)
        + Given(s.Some? && Positive(s.value.mismatchCount), DigestMismatch))
  {
    hide Push, Given, MissingIds, Lacking;
    forall bs, c, b ensures Push(bs, c, b) == bs + Given(c, b) { PushIs(bs, c, b); }
    var included := if s.Some? then s.value.includedIds else [];
    EightIds(included);
    var ids := MissingIds(REQUIRED_IDS, included);
    if s.None? {
      NothingGiven(EvidenceNotAllPassing);
      NothingGiven(ArtifactsMissing);
      NothingGiven(DigestMismatch);
      assert ids + [] + [] + [] == ids;
    }
  }

  lemma NothingGiven(b: GateBlocker)
    ensures Given(false, b) == []
  {
  }

  lemma EightIds(included: seq<string>)
    ensures MissingIds(REQUIRED_IDS, included) ==
      Lacking("repo-verify-output", included) + Lacking("production-readiness-packet", included)
      + Lacking("production-rehearsal-substrate-readiness", included)
      + Lacking("production-rehearsal-consequence-behavior", included)
      + Lacking("production-rehearsal-async-recovery", included)
      + Lacking("production-rehearsal-backup-restore-dr", included)
      + Lacking("production-rehearsal-observability-alerting", included)
      + Lacking("release-provenance-verification", included)
  {
    hide Lacking, MissingIds;
    RequiredIdsNonempty();
    NoIdsMissing(included);
    forall k | 0 <= k < 8
      ensures MissingIds(REQUIRED_IDS[..k + 1], included) == MissingIds(REQUIRED_IDS[..k], included) + Lacking(REQUIRED_IDS[k], included)
    {
      OneMoreId(REQUIRED_IDS[..k], REQUIRED_IDS[k], included);
      assert REQUIRED_IDS[..k + 1] == REQUIRED_IDS[..k] + [REQUIRED_IDS[k]];
    }
    assert REQUIRED_IDS[..0] == [] && REQUIRED_IDS[..8] == REQUIRED_IDS;
    assert [] + Lacking(REQUIRED_IDS[0], included) == Lacking(REQUIRED_IDS[0], included);
    assert MissingIds(REQUIRED_IDS[..2], included) == Lacking(REQUIRED_IDS[0], included) + Lacking(REQUIRED_IDS[1], included);
    assert MissingIds(REQUIRED_IDS[..4], included) ==
      Lacking(REQUIRED_IDS[0], included) + Lacking(REQUIRED_IDS[1], included) + Lacking(REQUIRED_IDS[2], included) + Lacking(REQUIRED_IDS[3], included);
    assert MissingIds(REQUIRED_IDS[..5], included) == MissingIds(REQUIRED_IDS[..4], included) + Lacking(REQUIRED_IDS[4], included);
    assert MissingIds(REQUIRED_IDS[..6], included) == MissingIds(REQUIRED_IDS[..5], included) + Lacking(REQUIRED_IDS[5], included);
    assert MissingIds(REQUIRED_IDS[..7], included) == MissingIds(REQUIRED_IDS[..6], included) + Lacking(REQUIRED_IDS[6], included);
    assert MissingIds(REQUIRED_IDS[..8], included) == MissingIds(REQUIRED_IDS[..7], included) + Lacking(REQUIRED_IDS[7], included);
  }

  lemma NoIdsMissing(included: seq<string>)
    ensures MissingIds([], included) == []
  {
  }

  lemma OneMoreId(ids: seq<string>, id: string, included: seq<string>)
    requires id != ""
    ensures MissingIds(ids + [id], included) == MissingIds(ids, included) + Lacking(id, included)
  {
    assert (ids + [id])[..|ids|] == ids;
  }

  /** The decision, gate by gate: the eight gates in order, and the blockers of the required ones that do not pass. */
  lemma DecisionMeans(s: Option<Loaded>, i: Inputs, k: nat)
    requires k < 8
    ensures
      var d := Decide(s, i);
      && |d.gates| == 8
      && d.gates[k].id == (
           if k == 0 then CandidateGate else if k == 1 then RehearsalEvidenceGate else if k == 2 then ExternalSignerGate
           else if k == 3 then SharedStoreGate else if k == 4 then CustomerPepGate else if k == 5 then ProviderRouteGate
           else if k == 6 then IncidentRunbookGate else HumanApprovalGate)
      && (forall b :: (d.gates[k].id, b) in d.blockers <==> d.gates[k].required && d.gates[k].status != Pass && b in d.gates[k].blockers)
  {
    hide Candidate, RehearsalEvidence, ExternalSigner, SharedStore, CustomerPep, ProviderRoute, IncidentRunbook, HumanApproval, Collected;
    GateIds(s, i);
    forall b ensures (Gates(s, i)[k].id, b) in Collected(Gates(s, i)) <==>
      Gates(s, i)[k].required && Gates(s, i)[k].status != Pass && b in Gates(s, i)[k].blockers
    {
      CollectedHas(Gates(s, i), k, b);
    }
  }

  lemma GateIds(s: Option<Loaded>, i: Inputs)
    ensures Candidate(s).id == CandidateGate && RehearsalEvidence(s).id == RehearsalEvidenceGate
    ensures ExternalSigner(i.signerDigest).id == ExternalSignerGate && SharedStore(s).id == SharedStoreGate
    ensures CustomerPep(i.scope, i.pepDigest).id == CustomerPepGate && ProviderRoute(i.mode, i.routeDigest).id == ProviderRouteGate
    ensures IncidentRunbook(i.runbook, s).id == IncidentRunbookGate && HumanApproval(i).id == HumanApprovalGate
  {
    hide MissingIds, ValidDigest, ValidApprovalRef, RunbookBlockers, Trim, Push;
  }

  lemma {:induction false} NamedHas(id: GateId, blockers: seq<GateBlocker>, x: (GateId, GateBlocker))
    ensures x in Named(id, blockers) <==> x.0 == id && x.1 in blockers
  {
    if blockers != [] {
      NamedHas(id, blockers[..|blockers| - 1], x);
      assert blockers == blockers[..|blockers| - 1] + [blockers[|blockers| - 1]];
    }
  }

  lemma {:induction false} CollectedHas(gates: seq<Gate>, k: nat, b: GateBlocker)
    requires k < |gates| && forall i, j :: 0 <= i < j < |gates| ==> gates[i].id != gates[j].id
    ensures (gates[k].id, b) in Collected(gates) <==> gates[k].required && gates[k].status != Pass && b in gates[k].blockers
    decreases |gates|
  {
    var n := |gates| - 1;
    var init, g := gates[..n], gates[n];
    NamedHas(g.id, g.blockers, (gates[k].id, b));
    if k < n {
      CollectedHas(init, k, b);
    } else {
      CollectedFrom(init, (g.id, b));
    }
  }

  lemma {:induction false} CollectedFrom(gates: seq<Gate>, x: (GateId, GateBlocker))
    requires forall i :: 0 <= i < |gates| ==> gates[i].id != x.0
    ensures x !in Collected(gates)
  {
    if gates != [] {
      var g := gates[|gates| - 1];
      CollectedFrom(gates[..|gates| - 1], x);
      NamedHas(g.id, g.blockers, x);
    }
  }
}
