/**
 The production-promotion candidate: the packager's checks on a rehearsal manifest, on the artifacts it
 copied, on the readiness packet and on the signing key, and the verdict it draws from them.
 */
module PromotionCandidate {
  import opened Wrappers
  import opened Text
  import opened ArtifactBundle
  import opened ArtifactCopy
  import FileTree
  import PathBoundary

  datatype Runtime = Runtime(profile: string, requireSharedAuthority: bool, noLocalFallback: bool)

  /** `target` lists name, provider, region, cluster, public hostname and owner ("" where absent). */
  datatype Manifest = Manifest(
    target: seq<string>, commit: string, workflowRuns: map<string, string>, runtime: Runtime,
    plaintextSecretsAllowed: bool, redactedFields: seq<string>,
    evidence: seq<EvidenceItem>, commands: seq<Command>, verdict: string)

  datatype EnvironmentPacket = EnvironmentPacket(state: Option<string>, promotionGatePassed: Option<bool>)

  datatype CheckId =
    | TargetEnvironment | SourceCommit | WorkflowRuns | RuntimeContract | SecretPosture
    | RequiredEvidenceStatus | ManifestGoNoGo
    | ArtifactPathBoundary | RequiredArtifactsPresent | ArtifactDigests | EnvironmentPacketReady | LocalSigningKey

  datatype Check = Check(id: CheckId, passed: bool)

  datatype CandidateBlocker = CheckFailed(id: CheckId) | ManifestRecordsNoGo

  datatype Verdict = Go | NoGo

  datatype Summary = Summary(
    runtime: Runtime, packet: EnvironmentPacket, requiredCount: nat, passingRequiredCount: nat, copy: Copy,
    checks: seq<Check>, verdict: Verdict, blockers: seq<CandidateBlocker>, signed: bool)

  /**
   A readiness packet that is there but is no file, or not JSON, and a path of more than 100 bytes, which the
   tar writer refuses: in either case there is no summary.
   */
  datatype PackageError = PacketUnreadable | TarPathTooLong

  // ---------------------------------------------------------------- the manifest

  const REQUIRED_RUNS := ["evaluationSmoke", "fullVerify", "releaseProvenance", "productionRehearsal"]

  const PLACEHOLDERS := ["", "pending", "0000000"]

  /** The named placeholders all open with `replace-with-`. */
  predicate IsPlaceholder(value: string) {
    var normalized := Lower(Trim(value));
    normalized in PLACEHOLDERS || StartsWith(normalized, "replace-with-")
  }

  predicate IsCommit(s: string) {
    7 <= |s| <= 40 && forall i :: 0 <= i < |s| ==> '0' <= s[i] <= '9' || 'a' <= s[i] <= 'f'
  }

  predicate TargetConcrete(m: Manifest) {
    forall i :: 0 <= i < |m.target| ==> !IsPlaceholder(m.target[i])
  }

  predicate RunsRecorded(m: Manifest) {
    forall i :: 0 <= i < |REQUIRED_RUNS| ==>
      REQUIRED_RUNS[i] in m.workflowRuns && !IsPlaceholder(m.workflowRuns[REQUIRED_RUNS[i]])
  }

  predicate RuntimeBound(r: Runtime) {
    r.profile == "production-shared" && r.requireSharedAuthority && r.noLocalFallback
  }

  predicate SecretsKept(m: Manifest) {
    !m.plaintextSecretsAllowed && m.redactedFields != []
  }

  /** The evidence a go needs: required, and not produced by the packaging command itself. */
  function RequiredEvidence(items: seq<EvidenceItem>, finalIds: set<string>): seq<EvidenceItem> {
    if items == [] then []
    else
      var item := items[|items| - 1];
      RequiredEvidence(items[..|items| - 1], finalIds)
      + if item.required && item.id !in finalIds then [item] else []
  }

  function Passing(items: seq<EvidenceItem>): (r: seq<EvidenceItem>)
    ensures |r| <= |items|
  {
    if items == [] then []
    else
      Passing(items[..|items| - 1]) + if items[|items| - 1].status == "pass" then [items[|items| - 1]] else []
  }

  predicate EvidencePasses(m: Manifest) {
    forall i :: 0 <= i < |m.evidence| && m.evidence[i].required && m.evidence[i].id !in FinalIds(m.commands) ==>
      m.evidence[i].status == "pass"
  }

  function References(m: Manifest): seq<Ref> {
    PutAll([], EvidenceWrites(m.evidence, FinalIds(m.commands)) + CommandWrites(m.commands))
  }

  predicate PacketReady(p: EnvironmentPacket) {
    p.state == Some("ready-for-environment-promotion") && p.promotionGatePassed == Some(true)
  }

  // ---------------------------------------------------------------- the packager

  function Failing(checks: seq<Check>): seq<CandidateBlocker> {
    if checks == [] then []
    else
      var c := checks[|checks| - 1];
      Failing(checks[..|checks| - 1]) + if c.passed then [] else [CheckFailed(c.id)]
  }

  predicate NothingRequiredMissing(missing: seq<Ref>) {
    forall i :: 0 <= i < |missing| ==> !missing[i].required
  }

  function ManifestChecks(m: Manifest): seq<Check> {
    [ Check(TargetEnvironment, TargetConcrete(m)),
      Check(SourceCommit, IsCommit(m.commit) && !IsPlaceholder(m.commit)),
      Check(WorkflowRuns, RunsRecorded(m)),
      Check(RuntimeContract, RuntimeBound(m.runtime)),
      Check(SecretPosture, SecretsKept(m)),
      Check(RequiredEvidenceStatus,
            var required := RequiredEvidence(m.evidence, FinalIds(m.commands));
            |Passing(required)| == |required|),
      Check(ManifestGoNoGo, m.verdict != "pending") ]
  }

  function CopyChecks(c: Copy, packet: EnvironmentPacket, signingKeyReady: bool): seq<Check> {
    [ Check(ArtifactPathBoundary, c.denied == []),
      Check(RequiredArtifactsPresent, NothingRequiredMissing(c.missing)),
      Check(ArtifactDigests, c.mismatches == []),
      Check(EnvironmentPacketReady, PacketReady(packet)),
      Check(LocalSigningKey, signingKeyReady) ]
  }

  function Blockers(checks: seq<Check>, manifestVerdict: string): seq<CandidateBlocker> {
    Failing(checks) + if manifestVerdict == "no-go" then [ManifestRecordsNoGo] else []
  }

  /** What the tar writer asks of the names in the bundle. */
  predicate PathsFit(xs: seq<Included>) {
    forall i :: 0 <= i < |xs| ==> |xs[i].bundlePath| <= 100
  }

  function SummaryOf(m: Manifest, c: Copy, packet: EnvironmentPacket, signingKeyReady: bool): Summary {
    var checks := ManifestChecks(m) + CopyChecks(c, packet, signingKeyReady);
    var blockers := Blockers(checks, m.verdict);
    var required := RequiredEvidence(m.evidence, FinalIds(m.commands));
    Summary(
      m.runtime, packet, |required|, |Passing(required)|, c, checks,
      if blockers == [] && m.verdict == "go" then Go else NoGo, blockers, signingKeyReady)
  }

  // ---------------------------------------------------------------- reading the readiness packet

  const PACKET_ID := "production-readiness-packet"

  const NO_PACKET := EnvironmentPacket(None, None)

  function FindItem(items: seq<EvidenceItem>, id: string): Option<EvidenceItem> {
    if items == [] then None else if items[0].id == id then Some(items[0]) else FindItem(items[1..], id)
  }

  /** The path of the first item with the packet's id, if it has one. */
  function PacketPath(m: Manifest): Option<string> {
    match FindItem(m.evidence, PACKET_ID)
    case None => None
    case Some(item) => if item.artifactPath == "" then None else Some(item.artifactPath)
  }

  /** `JSON.parse` and the two fields the packager takes; nothing where parsing throws. */
  type Decoder = seq<Byte> -> Option<EnvironmentPacket>

  function PacketAt(ws: Workspace, text: string, decode: Decoder): Result<EnvironmentPacket, PackageError> {
    match FileTree.RealPath(ws.fs, Located(ws, text))
    case None => Ok(NO_PACKET)
    case Some(actual) =>
      match FileTree.NodeAt(ws.fs, actual)
      case Some(File(bytes)) => (match decode(bytes) case None => Err(PacketUnreadable) case Some(p) => Ok(p))
      case _ => Err(PacketUnreadable)
  }

  /** `readEnvironmentPacket`: no boundary is asked about this path. */
  function ReadPacket(ws: Workspace, m: Manifest, decode: Decoder): Result<EnvironmentPacket, PackageError> {
    match PacketPath(m)
    case None => Ok(NO_PACKET)
    case Some(text) => PacketAt(ws, text, decode)
  }

  predicate KeyReady(ws: Workspace, keyPath: Option<string>) {
    keyPath.Some? && FileTree.Exists(ws.fs, Located(ws, keyPath.value))
  }

  function Packaged(ws: Workspace, m: Manifest, decode: Decoder, keyPath: Option<string>): Result<Summary, PackageError>
    requires Sound(ws)
  {
    var c := AddRefs(ws, References(m));
    match ReadPacket(ws, m, decode)
    case Err(e) => Err(e)
    case Ok(packet) =>
      if !PathsFit(c.included) then Err(TarPathTooLong) else Ok(SummaryOf(m, c, packet, KeyReady(ws, keyPath)))
  }

  /** `packageProductionPromotionCandidate`: collect, copy, read the packet, check, decide, archive. */
  method PackageCandidate(ws: Workspace, m: Manifest, decode: Decoder, keyPath: Option<string>)
    returns (r: Result<Summary, PackageError>)
    requires Sound(ws)
    ensures r == Packaged(ws, m, decode, keyPath)
  {
    hide PutAll, EvidenceWrites, CommandWrites, FinalIds, AddRefs, ManifestChecks, CopyChecks, Blockers,
      PathsFit, Passing, RequiredEvidence, Sound, ReadPacket, KeyReady;
    var refs := CollectReferences(m.evidence, m.commands);
    var c := CopyArtifacts(ws, refs);
    var packet := ReadPacket(ws, m, decode);
    if packet.Err? {
      return Err(packet.error);
    }
    var ready := KeyReady(ws, keyPath);
    var checks := ManifestChecks(m) + CopyChecks(c, packet.value, ready);
    var blockers := Blockers(checks, m.verdict);
    var required := RequiredEvidence(m.evidence, FinalIds(m.commands));
    var verdict := if blockers == [] && m.verdict == "go" then Go else NoGo;
    if !PathsFit(c.included) {
      return Err(TarPathTooLong);
    }
    r := Ok(Summary(m.runtime, packet.value, |required|, |Passing(required)|, c, checks, verdict, blockers, ready));
  }

  // ---------------------------------------------------------------- what a go means

  predicate AllPass(checks: seq<Check>) {
    forall i :: 0 <= i < |checks| ==> checks[i].passed
  }

  lemma {:induction false} FailingMeans(checks: seq<Check>)
    ensures Failing(checks) == [] <==> AllPass(checks)
  {
    if checks != [] {
      FailingMeans(checks[..|checks| - 1]);
      assert checks == checks[..|checks| - 1] + [checks[|checks| - 1]];
    }
  }

  lemma {:induction false} PassingMeans(items: seq<EvidenceItem>)
    ensures |Passing(items)| == |items| <==> forall i :: 0 <= i < |items| ==> items[i].status == "pass"
  {
    if items != [] {
      PassingMeans(items[..|items| - 1]);
      assert items == items[..|items| - 1] + [items[|items| - 1]];
    }
  }

  lemma {:induction false} RequiredEvidenceMeans(items: seq<EvidenceItem>, finalIds: set<string>)
    ensures forall x :: x in RequiredEvidence(items, finalIds) <==> x in items && x.required && x.id !in finalIds
  {
    if items != [] {
      RequiredEvidenceMeans(items[..|items| - 1], finalIds);
      assert items == items[..|items| - 1] + [items[|items| - 1]];
    }
  }

  lemma EvidenceCheckMeans(m: Manifest)
    ensures
      var required := RequiredEvidence(m.evidence, FinalIds(m.commands));
      |Passing(required)| == |required| <==> EvidencePasses(m)
  {
    hide FinalIds, RequiredEvidence, Passing;
    var required := RequiredEvidence(m.evidence, FinalIds(m.commands));
    PassingMeans(required);
    RequiredEvidenceMeans(m.evidence, FinalIds(m.commands));
    if forall i :: 0 <= i < |required| ==> required[i].status == "pass" {
      forall i | 0 <= i < |m.evidence| && m.evidence[i].required && m.evidence[i].id !in FinalIds(m.commands)
        ensures m.evidence[i].status == "pass"
      {
        assert m.evidence[i] in required;
      }
    }
    if EvidencePasses(m) {
      forall i | 0 <= i < |required|
        ensures required[i].status == "pass"
      {
        assert required[i] in m.evidence;
      }
    }
  }

  predicate ManifestSound(m: Manifest) {
    && TargetConcrete(m)
    && IsCommit(m.commit) && !IsPlaceholder(m.commit)
    && RunsRecorded(m)
    && RuntimeBound(m.runtime)
    && SecretsKept(m)
    && EvidencePasses(m)
  }

  lemma ManifestChecksMean(m: Manifest)
    ensures AllPass(ManifestChecks(m)) <==> ManifestSound(m) && m.verdict != "pending"
  {
    hide TargetConcrete, IsCommit, IsPlaceholder, RunsRecorded, RuntimeBound, SecretsKept, EvidencePasses,
      RequiredEvidence, Passing, FinalIds;
    EvidenceCheckMeans(m);
    var checks := ManifestChecks(m);
    assert AllPass(checks) <==>
      && checks[0].passed && checks[1].passed && checks[2].passed && checks[3].passed
      && checks[4].passed && checks[5].passed && checks[6].passed;
  }

  lemma CopyChecksMean(c: Copy, packet: EnvironmentPacket, key: bool)
    ensures AllPass(CopyChecks(c, packet, key)) <==>
      c.denied == [] && NothingRequiredMissing(c.missing) && c.mismatches == [] && PacketReady(packet) && key
  {
    hide NothingRequiredMissing, PacketReady;
    var checks := CopyChecks(c, packet, key);
    assert AllPass(checks) <==>
      checks[0].passed && checks[1].passed && checks[2].passed && checks[3].passed && checks[4].passed;
  }

  lemma AllPassAppend(a: seq<Check>, b: seq<Check>)
    ensures AllPass(a + b) <==> AllPass(a) && AllPass(b)
  {
    assert forall i :: 0 <= i < |a| ==> (a + b)[i] == a[i];
    assert forall i :: 0 <= i < |b| ==> (a + b)[|a| + i] == b[i];
    assert forall i :: |a| <= i < |a + b| ==> (a + b)[i] == b[i - |a|];
  }

  lemma BlockersMean(m: Manifest, c: Copy, packet: EnvironmentPacket, key: bool)
    ensures SummaryOf(m, c, packet, key).blockers == [] <==>
      && ManifestSound(m) && m.verdict != "pending" && m.verdict != "no-go"
      && c.denied == [] && NothingRequiredMissing(c.missing) && c.mismatches == [] && PacketReady(packet) && key
  {
    hide ManifestChecks, CopyChecks, Failing, AllPass, ManifestSound, NothingRequiredMissing, PacketReady,
      RequiredEvidence, Passing;
    FailingMeans(ManifestChecks(m) + CopyChecks(c, packet, key));
    AllPassAppend(ManifestChecks(m), CopyChecks(c, packet, key));
    ManifestChecksMean(m);
    CopyChecksMean(c, packet, key);
  }

  /** For the verdicts a manifest may carry, go and an empty list of blockers are the same thing. */
  lemma GoMeansNoBlockers(m: Manifest, c: Copy, packet: EnvironmentPacket, key: bool)
    ensures
      var s := SummaryOf(m, c, packet, key);
      && (s.verdict == Go ==> s.blockers == [] && m.verdict == "go")
      && (m.verdict in ["pending", "go", "no-go"] ==> (s.verdict == Go <==> s.blockers == []))
  {
    hide ManifestSound, NothingRequiredMissing, PacketReady, Blockers, ManifestChecks, CopyChecks, RequiredEvidence, Passing;
    BlockersMean(m, c, packet, key);
  }

  /** The manifest is read unchecked: any other text in its verdict turns a go into a no-go that names no blocker. */
  lemma UnknownVerdictNamesNoBlocker(m: Manifest, c: Copy, packet: EnvironmentPacket, key: bool, verdict: string)
    requires SummaryOf(m, c, packet, key).verdict == Go
    requires verdict !in ["pending", "go", "no-go"]
    ensures
      var s := SummaryOf(m.(verdict := verdict), c, packet, key);
      s.verdict == NoGo && s.blockers == []
  {
    hide ManifestSound, NothingRequiredMissing, PacketReady, Blockers, ManifestChecks, CopyChecks, RequiredEvidence, Passing;
    BlockersMean(m, c, packet, key);
    var other := m.(verdict := verdict);
    assert ManifestSound(other) == ManifestSound(m) by { SoundnessIgnoresVerdict(m, verdict); }
    BlockersMean(other, c, packet, key);
    assert verdict != "pending" && verdict != "no-go" && verdict != "go";
  }

  lemma SoundnessIgnoresVerdict(m: Manifest, verdict: string)
    ensures ManifestSound(m.(verdict := verdict)) == ManifestSound(m)
  {
    hide IsPlaceholder, IsCommit, FinalIds;
  }

  /**
   What a go candidate says of the world: a concrete manifest that asks for a go, every reference inside
   the allowed roots down to each file, every required reference there, every digest that is still
   expected matched, a ready packet and a signing key; and nothing less makes a go.
   */
  lemma GoMeans(ws: Workspace, m: Manifest, packet: EnvironmentPacket, key: bool)
    requires Sound(ws)
    ensures SummaryOf(m, AddRefs(ws, References(m)), packet, key).verdict == Go <==>
      && ManifestSound(m) && m.verdict == "go"
      && (forall i :: 0 <= i < |References(m)| ==> Clean(ws, References(m)[i]))
      && (forall i :: 0 <= i < |References(m)| && References(m)[i].required ==> !Missing(ws, References(m)[i]))
      && (forall i :: 0 <= i < |References(m)| ==> DigestsMatch(ws, References(m)[i]))
      && PacketReady(packet) && key
  {
    hide Sound, AddRefs, References, Clean, Missing, DigestsMatch, ManifestSound, PacketReady,
      Blockers, ManifestChecks, CopyChecks, RequiredEvidence, Passing;
    var refs := References(m);
    var c := AddRefs(ws, refs);
    ListsMean(ws, refs);
    BlockersMean(m, c, packet, key);
    MissingRequired(ws, refs, c.missing);
    assert m.verdict == "go" ==> m.verdict != "pending" && m.verdict != "no-go" by {
      assert |"go"| == 2 && |"pending"| == 7 && |"no-go"| == 5;
    }
  }

  lemma MissingRequired(ws: Workspace, refs: seq<Ref>, missing: seq<Ref>)
    requires forall r :: r in missing <==> r in refs && Missing(ws, r)
    ensures NothingRequiredMissing(missing) <==>
      forall i :: 0 <= i < |refs| && refs[i].required ==> !Missing(ws, refs[i])
  {
    hide Missing;
    if NothingRequiredMissing(missing) {
      forall i | 0 <= i < |refs| && refs[i].required
        ensures !Missing(ws, refs[i])
      {
        assert Missing(ws, refs[i]) <==> refs[i] in missing;
      }
    }
    if forall i :: 0 <= i < |refs| && refs[i].required ==> !Missing(ws, refs[i]) {
      forall i | 0 <= i < |missing|
        ensures !missing[i].required
      {
        assert missing[i] in missing && missing[i] in refs;
      }
    }
  }

  // ---------------------------------------------------------------- where the packet may come from

  lemma {:induction false} EvidenceWritten(items: seq<EvidenceItem>, finalIds: set<string>, item: EvidenceItem)
    requires item in items && item.id !in finalIds && item.artifactPath != ""
    ensures EvidenceRef(item) in EvidenceWrites(items, finalIds)
  {
    var init, last := items[..|items| - 1], items[|items| - 1];
    assert items == init + [last];
    if item != last {
      EvidenceWritten(init, finalIds, item);
    }
  }

  lemma {:induction false} LastWriteExists(writes: seq<Ref>, w: Ref) returns (x: Ref)
    requires w in writes
    ensures LastWritten(writes, x) && KeyOf(x) == KeyOf(w)
    decreases |writes|
  {
    hide KeyOf;
    var init, last := writes[..|writes| - 1], writes[|writes| - 1];
    assert writes == init + [last];
    LastWrittenStep(writes, last);
    x := last;
    if KeyOf(last) != KeyOf(w) {
      x := LastWriteExists(init, w);
      LastWrittenStep(writes, x);
    }
  }

  lemma {:induction false} FoundItem(items: seq<EvidenceItem>, id: string)
    requires FindItem(items, id).Some?
    ensures FindItem(items, id).value in items && FindItem(items, id).value.id == id
  {
    if items[0].id != id {
      FoundItem(items[1..], id);
    }
  }

  lemma PacketIdHasNoColon()
    ensures ':' !in PACKET_ID
  {
  }

  /** Unless the packet's id is one of the final ones, the packet is among the references, or a longer id has taken its key. */
  lemma PacketReferenced(m: Manifest) returns (x: Ref)
    requires PacketPath(m).Some? && PACKET_ID !in FinalIds(m.commands)
    ensures x in References(m)
    ensures x.path == PacketPath(m).value || Splits(PACKET_ID, PacketPath(m).value, x.id, x.path)
  {
    hide FinalIds, EvidenceWrites, CommandWrites, PutAll, Splits, LastWritten;
    var item := FindItem(m.evidence, PACKET_ID).value;
    FoundItem(m.evidence, PACKET_ID);
    EvidenceWritten(m.evidence, FinalIds(m.commands), item);
    var evidence, writes := EvidenceWrites(m.evidence, FinalIds(m.commands)), CommandWrites(m.commands);
    assert EvidenceRef(item) in evidence + writes;
    x := LastWriteExists(evidence + writes, EvidenceRef(item));
    LastWriteWins(evidence + writes);
    SameKey(PACKET_ID, item.artifactPath, x.id, x.path);
    PacketIdHasNoColon();
    NoSplitWithoutColon(x.id, x.path, PACKET_ID, item.artifactPath);
  }

  lemma NoSplitWithoutColon(id: string, path: string, id': string, path': string)
    requires ':' !in id'
    ensures !Splits(id, path, id', path')
  {
    forall s: string
      ensures ':' in id + ":" + s
    {
      assert (id + ":" + s)[|id|] == ':';
    }
  }

  /** A reference whose id goes on from the packet's with a colon may take the packet's key, and its place. */
  ghost predicate Shadowed(m: Manifest) {
    PacketPath(m).Some? && exists x :: x in References(m) && Splits(PACKET_ID, PacketPath(m).value, x.id, x.path)
  }

  ghost predicate GoCandidate(ws: Workspace, m: Manifest, decode: Decoder, keyPath: Option<string>)
    requires Sound(ws)
  {
    Packaged(ws, m, decode, keyPath).Ok? && Packaged(ws, m, decode, keyPath).value.verdict == Go
  }

  /**
   A go candidate whose packet id is not final rests on a packet that passed the boundary: it really lies under
   an allowed root.
   */
  lemma GoPacketInsideRoots(ws: Workspace, m: Manifest, decode: Decoder, keyPath: Option<string>)
    requires Sound(ws) && GoCandidate(ws, m, decode, keyPath)
    requires PACKET_ID !in FinalIds(m.commands) && !Shadowed(m)
    ensures PacketPath(m).Some? && Denial(ws, PacketPath(m).value) == None
    ensures FileTree.RealPath(ws.fs, Located(ws, PacketPath(m).value)).Some?
    ensures Under(ws, FileTree.RealPath(ws.fs, Located(ws, PacketPath(m).value)).value)
  {
    hide Sound, AddRefs, References, Denial, Under, Splits, SummaryOf, FinalIds, PathsFit, KeyReady, PacketAt, ManifestSound;
    var packet := ReadPacket(ws, m, decode).value;
    GoMeans(ws, m, packet, KeyReady(ws, keyPath));
    assert PacketPath(m).Some?;
    ReadyPacketExists(ws, PacketPath(m).value, decode);
    var x := PacketReferenced(m);
    assert x.path == PacketPath(m).value;
    CleanIsAccepted(ws, x);
    AcceptedIsContained(ws, x.path);
  }

  lemma ReadyPacketExists(ws: Workspace, text: string, decode: Decoder)
    requires PacketAt(ws, text, decode).Ok? && PacketReady(PacketAt(ws, text, decode).value)
    ensures FileTree.RealPath(ws.fs, Located(ws, text)).Some?
  {
    hide FileTree.RealPath, Located;
  }

  lemma CleanIsAccepted(ws: Workspace, x: Ref)
    ensures Clean(ws, x) ==> Denial(ws, x.path) == None
  {
    hide Denial;
  }

  /** The same manifest, with the packet item somewhere else. */
  function MovedPacket(m: Manifest, path: string): Manifest {
    m.(evidence := seq(|m.evidence|, i requires 0 <= i < |m.evidence| =>
      if m.evidence[i].id == PACKET_ID then m.evidence[i].(artifactPath := path) else m.evidence[i]))
  }

  /** The items agree except for the paths of final ones. */
  ghost predicate AgreeOutsideFinal(a: seq<EvidenceItem>, b: seq<EvidenceItem>, finalIds: set<string>) {
    |a| == |b| && forall i :: 0 <= i < |a| ==>
      a[i] == b[i] || (a[i].id in finalIds && a[i] == b[i].(artifactPath := a[i].artifactPath))
  }

  lemma {:induction false} FinalPathsUnread(a: seq<EvidenceItem>, b: seq<EvidenceItem>, finalIds: set<string>)
    requires AgreeOutsideFinal(a, b, finalIds)
    ensures EvidenceWrites(a, finalIds) == EvidenceWrites(b, finalIds)
    ensures RequiredEvidence(a, finalIds) == RequiredEvidence(b, finalIds)
    decreases |a|
  {
    if a != [] {
      var n := |a| - 1;
      assert forall i :: 0 <= i < n ==> a[..n][i] == a[i] && b[..n][i] == b[i];
      FinalPathsUnread(a[..n], b[..n], finalIds);
    }
  }

  /**
   Where the packet's id is final, its path is never looked at by the boundary: moving the packet anywhere, to an
   absolute path or through parents, changes neither the references nor the verdict.
   */
  lemma FinalPacketUnchecked(ws: Workspace, m: Manifest, path: string, packet: EnvironmentPacket, key: bool)
    requires Sound(ws) && PACKET_ID in FinalIds(m.commands)
    ensures References(MovedPacket(m, path)) == References(m)
    ensures SummaryOf(MovedPacket(m, path), AddRefs(ws, References(m)), packet, key)
      == SummaryOf(m, AddRefs(ws, References(m)), packet, key)
  {
    hide FinalIds, EvidenceWrites, CommandWrites, PutAll, RequiredEvidence, Sound, AddRefs, Passing, Blockers, CopyChecks, IsPlaceholder,
      IsCommit;
    FinalPathsUnread(MovedPacket(m, path).evidence, m.evidence, FinalIds(m.commands));
  }

  lemma {:induction false} MovedFound(items: seq<EvidenceItem>, moved: seq<EvidenceItem>, path: string)
    requires |moved| == |items| && FindItem(items, PACKET_ID).Some?
    requires forall i :: 0 <= i < |items| ==>
      moved[i] == if items[i].id == PACKET_ID then items[i].(artifactPath := path) else items[i]
    ensures FindItem(moved, PACKET_ID).Some? && FindItem(moved, PACKET_ID).value.artifactPath == path
    decreases |items|
  {
    if items[0].id != PACKET_ID {
      MovedFound(items[1..], moved[1..], path);
    }
  }

  /**
   The exact condition. Take a go candidate and move its packet to a path that the boundary denies, where the same
   packet is read: the candidate stays a go if and only if the packaging command names the packet's id.
   */
  lemma GoOutsideRootsMeans(ws: Workspace, m: Manifest, path: string, decode: Decoder, keyPath: Option<string>)
    requires Sound(ws) && GoCandidate(ws, m, decode, keyPath)
    requires path != "" && Denial(ws, path).Some? && PacketAt(ws, path, decode) == ReadPacket(ws, m, decode)
    requires !Shadowed(MovedPacket(m, path))
    ensures GoCandidate(ws, MovedPacket(m, path), decode, keyPath) <==> PACKET_ID in FinalIds(m.commands)
  {
    hide Sound, AddRefs, References, Denial, Shadowed, SummaryOf, FinalIds, PathsFit, KeyReady, PacketAt;
    var packet, key := ReadPacket(ws, m, decode).value, KeyReady(ws, keyPath);
    GoMeans(ws, m, packet, key);
    MovedFound(m.evidence, MovedPacket(m, path).evidence, path);
    if PACKET_ID in FinalIds(m.commands) {
      FinalPacketUnchecked(ws, m, path, packet, key);
    } else if GoCandidate(ws, MovedPacket(m, path), decode, keyPath) {
      GoPacketInsideRoots(ws, MovedPacket(m, path), decode, keyPath);
    }
  }

  /** A manifest that is complete but for where its packet lies, and whose packaging command names the packet's id. */
  function LooseManifest(path: string): Manifest {
    Manifest(
      ["1", "1", "1", "1", "1", "1"], "1234567",
      map["evaluationSmoke" := "1", "fullVerify" := "1", "releaseProvenance" := "1", "productionRehearsal" := "1"],
      Runtime("production-shared", true, true), false, ["key"],
      [EvidenceItem(PACKET_ID, path, true, "", None, "", "pass", None)],
      [Command(FINAL_COMMAND_ID, "", true, [], [PACKET_ID])], "go")
  }

  lemma LooseReferences(path: string)
    ensures PACKET_ID in FinalIds(LooseManifest(path).commands)
    ensures References(LooseManifest(path)) == []
  {
    var m := LooseManifest(path);
    assert m.commands[0].evidenceIds[0] == PACKET_ID && IsFinalCommand(m.commands[0]);
    assert PACKET_ID in FinalIds(m.commands);
    assert m.evidence[..0] == [] && m.commands[..0] == [];
    assert EvidenceWrites(m.evidence, FinalIds(m.commands)) == [];
    assert CommandWrites(m.commands) == [];
  }

  lemma LooseSound(path: string)
    ensures ManifestSound(LooseManifest(path))
  {
    hide IsPlaceholder, FinalIds;
    var m := LooseManifest(path);
    LooseReferences(path);
    DigitsAreConcrete("1");
    DigitsAreConcrete("1234567");
    assert m.evidence[0].id == PACKET_ID;
    assert TargetConcrete(m);
    assert RunsRecorded(m);
  }

  lemma DigitsAreConcrete(s: string)
    requires s != "" && forall i :: 0 <= i < |s| ==> '1' <= s[i] <= '9'
    ensures !IsPlaceholder(s)
  {
    hide Lower;
    assert Trim(s) == s;
    LowerDigits(s);
    assert "pending"[0] == 'p' && "0000000"[0] == '0' && "replace-with-"[0] == 'r';
  }

  lemma {:induction false} LowerDigits(s: string)
    requires forall i :: 0 <= i < |s| ==> '1' <= s[i] <= '9'
    ensures Lower(s) == s
  {
    if s != "" {
      LowerDigits(s[1..]);
      assert s == [s[0]] + s[1..];
    }
  }

  /** So a go may rest on a packet anywhere: wherever in the file system this manifest points, a ready packet there is enough. */
  lemma GoOnPacketAnywhere(ws: Workspace, path: string, decode: Decoder, keyPath: Option<string>)
    requires Sound(ws) && path != "" && KeyReady(ws, keyPath)
    requires PacketAt(ws, path, decode).Ok? && PacketReady(PacketAt(ws, path, decode).value)
    ensures GoCandidate(ws, LooseManifest(path), decode, keyPath)
  {
    hide Sound, Denial, PacketAt, KeyReady, ManifestSound, References, PacketReady, SummaryOf;
    var m := LooseManifest(path);
    LooseReferences(path);
    LooseSound(path);
    GoMeans(ws, m, PacketAt(ws, path, decode).value, true);
  }

  // ---------------------------------------------------------------- a packet whose key is taken

  /** A go on a packet that the boundary denies: the packaging command names its id or another id has taken its key, and no reference has its path. */
  lemma GoOutsideRootsNeeds(ws: Workspace, m: Manifest, decode: Decoder, keyPath: Option<string>)
    requires Sound(ws) && GoCandidate(ws, m, decode, keyPath)
    requires PacketPath(m).Some? && Denial(ws, PacketPath(m).value).Some?
    ensures PACKET_ID in FinalIds(m.commands) || Shadowed(m)
    ensures forall x :: x in References(m) ==> x.path != PacketPath(m).value
  {
    hide Sound, AddRefs, References, Denial, Shadowed, SummaryOf, FinalIds, PathsFit, KeyReady, PacketAt, ManifestSound;
    if PACKET_ID !in FinalIds(m.commands) && !Shadowed(m) {
      GoPacketInsideRoots(ws, m, decode, keyPath);
    }
    GoMeans(ws, m, ReadPacket(ws, m, decode).value, KeyReady(ws, keyPath));
    forall x | x in References(m)
      ensures x.path != PacketPath(m).value
    {
      CleanIsAccepted(ws, x);
    }
  }

  function PlainItem(id: string, path: string): EvidenceItem {
    EvidenceItem(id, path, true, "", None, "", "pass", None)
  }

  /** A complete manifest in which the second item has the key of the packet, whose path ends in its own. */
  function ShadowManifest(p: string, q: string): Manifest {
    LooseManifest("").(evidence := [PlainItem(PACKET_ID, p + ":" + q), PlainItem(PACKET_ID + ":" + p, q)], commands := [])
  }

  lemma ShadowReferences(p: string, q: string)
    requires q != ""
    ensures
      var m := ShadowManifest(p, q);
      && FinalIds(m.commands) == {}
      && PacketPath(m) == Some(p + ":" + q)
      && forall x :: x in References(m) <==> x == EvidenceRef(PlainItem(PACKET_ID + ":" + p, q))
  {
    hide PutAll, KeyOf, LastWritten;
    var m := ShadowManifest(p, q);
    var first, second := PlainItem(PACKET_ID, p + ":" + q), PlainItem(PACKET_ID + ":" + p, q);
    assert m.evidence[..1] == [first] && [first][..0] == [];
    assert FinalIds(m.commands) == {} && CommandWrites(m.commands) == [];
    assert EvidenceWrites([first], {}) == [EvidenceRef(first)];
    var writes := [EvidenceRef(first), EvidenceRef(second)];
    assert EvidenceWrites(m.evidence, {}) == writes && writes + [] == writes;
    assert KeyOf(EvidenceRef(first)) == KeyOf(EvidenceRef(second)) by { ShadowKey(p, q); }
    LastWriteWins(writes);
    assert writes[..1] == [EvidenceRef(first)];
    forall x
      ensures LastWritten(writes, x) <==> x == EvidenceRef(second)
    {
      LastWrittenStep(writes, x);
      if LastWritten(writes[..1], x) {
        LastWrittenStep(writes[..1], x);
        NoneWritten(x);
      }
    }
  }

  lemma ShadowKey(p: string, q: string)
    ensures KeyOf(EvidenceRef(PlainItem(PACKET_ID, p + ":" + q))) == KeyOf(EvidenceRef(PlainItem(PACKET_ID + ":" + p, q)))
  {
    assert PACKET_ID + ":" + (p + ":" + q) == (PACKET_ID + ":" + p) + ":" + q;
  }

  lemma NoneWritten(x: Ref)
    ensures !LastWritten([], x)
  {
  }

  lemma ShadowSound(p: string, q: string)
    ensures ManifestSound(ShadowManifest(p, q))
  {
    hide IsPlaceholder, FinalIds, IsCommit;
    LooseSound("");
    assert ManifestSound(LooseManifest(""));
  }

  /**
   The verdict on it asks for the second item, for the packet's contents and the key, and never where the packet lies:
   with an absolute path in front it is a go on a packet that the boundary denies, although no final command names it.
   */
  lemma ShadowedPacketUnchecked(ws: Workspace, p: string, q: string, decode: Decoder, keyPath: Option<string>)
    requires Sound(ws) && q != ""
    ensures
      var m, ref := ShadowManifest(p, q), EvidenceRef(PlainItem(PACKET_ID + ":" + p, q));
      && PACKET_ID !in FinalIds(m.commands) && PacketPath(m) == Some(p + ":" + q)
      && (PathBoundary.IsAbsolute(p) ==> Denial(ws, p + ":" + q).Some?)
      && (GoCandidate(ws, m, decode, keyPath) <==>
          && Clean(ws, ref) && !Missing(ws, ref) && DigestsMatch(ws, ref) && PathsFit(AddRefs(ws, References(m)).included)
          && PacketAt(ws, p + ":" + q, decode).Ok? && PacketReady(PacketAt(ws, p + ":" + q, decode).value)
          && KeyReady(ws, keyPath))
  {
    hide Sound, AddRefs, References, Clean, Missing, DigestsMatch, SummaryOf, PathsFit, KeyReady, PacketAt, PacketReady, ManifestSound,
      EvidenceRef, FinalIds, FindItem;
    var m, ref := ShadowManifest(p, q), EvidenceRef(PlainItem(PACKET_ID + ":" + p, q));
    ShadowReferences(p, q);
    ShadowSound(p, q);
    assert ref.required by { RefRequired(p, q); }
    assert ReadPacket(ws, m, decode) == PacketAt(ws, p + ":" + q, decode);
    assert PathBoundary.IsAbsolute(p) ==> PathBoundary.IsAbsolute(p + ":" + q);
    if PacketAt(ws, p + ":" + q, decode).Ok? {
      GoMeans(ws, m, PacketAt(ws, p + ":" + q, decode).value, KeyReady(ws, keyPath));
      assert ref in References(m);
      var refs := References(m);
      assert forall i :: 0 <= i < |refs| ==> refs[i] in refs && refs[i] == ref;
      var at :| 0 <= at < |refs| && refs[at] == ref;
    }
  }

  lemma RefRequired(p: string, q: string)
    ensures EvidenceRef(PlainItem(PACKET_ID + ":" + p, q)).required
  {
  }

  // ---------------------------------------------------------------- the checks of a candidate, said outright

  /** A value that was filled in: not blank, not pending, not zeros, and none of the template's own. */
  predicate FilledIn(value: string) {
    var word := Lower(Trim(value));
    && word !in ["", "pending", "0000000", "replace-with-run-id", "replace-with-target-name", "replace-with-region",
                 "replace-with-cluster", "replace-with-hostname", "replace-with-operator"]
    && !StartsWith(word, "replace-with-")
  }

  lemma FilledInMeans(value: string)
    ensures FilledIn(value) <==> !IsPlaceholder(value)
  {
    hide Lower, Trim;
    assert StartsWith("replace-with-run-id", "replace-with-") && StartsWith("replace-with-target-name", "replace-with-");
    assert StartsWith("replace-with-region", "replace-with-") && StartsWith("replace-with-cluster", "replace-with-");
    assert StartsWith("replace-with-hostname", "replace-with-") && StartsWith("replace-with-operator", "replace-with-");
  }

  predicate CommitText(s: string) {
    7 <= |s| <= 40 && forall c :: c in s ==> c in HEX
  }

  lemma CommitMeans(s: string)
    ensures IsCommit(s) <==> CommitText(s)
  {
    forall c ensures c in HEX <==> '0' <= c <= '9' || 'a' <= c <= 'f' { HexRange(c); }
    hide HEX;
    assert IsCommit(s) ==> forall c :: c in s ==> exists i :: 0 <= i < |s| && s[i] == c;
    assert CommitText(s) ==> forall i :: 0 <= i < |s| ==> s[i] in s;
  }

  predicate RunFilledIn(m: Manifest, name: string) {
    name in m.workflowRuns && FilledIn(m.workflowRuns[name])
  }

  /** Required evidence that the packaging command does not name itself. */
  predicate Needed(m: Manifest, item: EvidenceItem) {
    item.required && !NamedByPackaging(m.commands, item.id)
  }

  function HowMany(items: seq<EvidenceItem>, counts: EvidenceItem -> bool): nat {
    if items == [] then 0 else (if counts(items[0]) then 1 else 0) + HowMany(items[1..], counts)
  }

  predicate TargetFilledIn(m: Manifest) {
    forall i :: 0 <= i < |m.target| ==> FilledIn(m.target[i])
  }

  predicate RunsFilledIn(m: Manifest) {
    && RunFilledIn(m, "evaluationSmoke") && RunFilledIn(m, "fullVerify") && RunFilledIn(m, "releaseProvenance")
    && RunFilledIn(m, "productionRehearsal")
  }

  predicate NeededPass(m: Manifest) {
    forall i :: 0 <= i < |m.evidence| && Needed(m, m.evidence[i]) ==> m.evidence[i].status == "pass"
  }

  /** The seven checks on the manifest and the five on what was copied, each with its condition. */
  lemma ChecksMean(m: Manifest, c: Copy, packet: EnvironmentPacket, key: bool)
    ensures SummaryOf(m, c, packet, key).checks ==
      [ Check(TargetEnvironment, TargetFilledIn(m)),
        Check(SourceCommit, CommitText(m.commit) && FilledIn(m.commit)),
        Check(WorkflowRuns, RunsFilledIn(m)),
        Check(RuntimeContract, m.runtime == Runtime("production-shared", true, true)),
        Check(SecretPosture, !m.plaintextSecretsAllowed && |m.redactedFields| > 0),
        Check(RequiredEvidenceStatus, NeededPass(m)),
        Check(ManifestGoNoGo, m.verdict != "pending"),
        Check(ArtifactPathBoundary, |c.denied| == 0),
        Check(RequiredArtifactsPresent, forall i :: 0 <= i < |c.missing| ==> !c.missing[i].required),
        Check(ArtifactDigests, |c.mismatches| == 0),
        Check(EnvironmentPacketReady,
              packet.state == Some("ready-for-environment-promotion") && packet.promotionGatePassed == Some(true)),
        Check(LocalSigningKey, key) ]
  {
    hide TargetFilledIn, RunsFilledIn, NeededPass, TargetConcrete, RunsRecorded, FilledIn, IsPlaceholder, IsCommit, CommitText, RequiredEvidence,
      Passing, FinalIds, Blockers, EvidencePasses;
    FilledInMeans(m.commit);
    CommitMeans(m.commit);
    TargetMeans(m);
    RunsMean(m);
    NeededMeans(m);
    EvidenceCheckMeans(m);
  }

  lemma TargetMeans(m: Manifest)
    ensures TargetConcrete(m) <==> TargetFilledIn(m)
  {
    hide IsPlaceholder, FilledIn;
    forall value ensures FilledIn(value) <==> !IsPlaceholder(value) { FilledInMeans(value); }
  }

  lemma RunsMean(m: Manifest)
    ensures RunsRecorded(m) <==> RunsFilledIn(m)
  {
    hide IsPlaceholder, FilledIn;
    forall value ensures FilledIn(value) <==> !IsPlaceholder(value) { FilledInMeans(value); }
    var runs := REQUIRED_RUNS;
    assert RunsRecorded(m) <==>
      (RunFilledIn(m, runs[0]) && RunFilledIn(m, runs[1]) && RunFilledIn(m, runs[2]) && RunFilledIn(m, runs[3]));
  }

  lemma NeededMeans(m: Manifest)
    ensures EvidencePasses(m) <==> NeededPass(m)
  {
    hide FinalIds, NamedByPackaging;
    forall id ensures id in FinalIds(m.commands) <==> NamedByPackaging(m.commands, id) { FinalIdsMean(m.commands, id); }
  }

  lemma {:induction false} FailingAt(checks: seq<Check>)
    ensures forall id :: CheckFailed(id) in Failing(checks) <==> Check(id, false) in checks
    ensures ManifestRecordsNoGo !in Failing(checks)
  {
    if checks != [] {
      var init, last := checks[..|checks| - 1], checks[|checks| - 1];
      FailingAt(init);
      assert checks == init + [last];
    }
  }

  /** The blockers are the checks that failed, and a manifest that records a no-go. The counts are those of the needed evidence. */
  lemma SummaryMeans(m: Manifest, c: Copy, packet: EnvironmentPacket, key: bool)
    ensures
      var s := SummaryOf(m, c, packet, key);
      && (forall id :: CheckFailed(id) in s.blockers <==> Check(id, false) in s.checks)
      && (ManifestRecordsNoGo in s.blockers <==> m.verdict == "no-go")
      && (s.verdict == Go <==> s.blockers == [] && m.verdict == "go")
      && s.requiredCount == HowMany(m.evidence, item => Needed(m, item))
      && s.passingRequiredCount == HowMany(m.evidence, item => Needed(m, item) && item.status == "pass")
      && s.runtime == m.runtime && s.packet == packet && s.copy == c && s.signed == key
  {
    hide ManifestChecks, CopyChecks, Failing, RequiredEvidence, Passing, HowMany, FinalIds, Needed;
    FailingAt(ManifestChecks(m) + CopyChecks(c, packet, key));
    RequiredCounted(m, m.evidence);
  }

  lemma {:induction false} RequiredCounted(m: Manifest, items: seq<EvidenceItem>)
    ensures |RequiredEvidence(items, FinalIds(m.commands))| == HowMany(items, item => Needed(m, item))
    ensures |Passing(RequiredEvidence(items, FinalIds(m.commands)))| == HowMany(items, item => Needed(m, item) && item.status == "pass")
    decreases |items|
  {
    hide FinalIds, NamedByPackaging;
    if items != [] {
      var init, last := items[..|items| - 1], items[|items| - 1];
      assert items == init + [last];
      RequiredCounted(m, init);
      FinalIdsMean(m.commands, last.id);
      CountedAtEnd(init, last, item => Needed(m, item));
      CountedAtEnd(init, last, item => Needed(m, item) && item.status == "pass");
      var required := RequiredEvidence(init, FinalIds(m.commands));
      assert (required + [last])[..|required|] == required;
      assert required + [] == required;
    }
  }

  lemma {:induction false} CountedAtEnd(items: seq<EvidenceItem>, last: EvidenceItem, counts: EvidenceItem -> bool)
    ensures HowMany(items + [last], counts) == HowMany(items, counts) + if counts(last) then 1 else 0
  {
    if items == [] {
      assert items + [last] == [last] && [last][1..] == [];
    } else {
      CountedAtEnd(items[1..], last, counts);
      assert (items + [last])[1..] == items[1..] + [last];
    }
  }

  /** Where the packet comes from: the first item of its id, wherever its path leads. */
  lemma PacketPathMeans(m: Manifest, path: string)
    ensures PacketPath(m) == Some(path) <==>
      && path != ""
      && exists i :: 0 <= i < |m.evidence| && m.evidence[i].id == "production-readiness-packet" && m.evidence[i].artifactPath == path
           && forall j :: 0 <= j < i ==> m.evidence[j].id != "production-readiness-packet"
  {
    hide FindItem;
    FindItemFirst(m.evidence, "production-readiness-packet");
  }

  lemma {:induction false} FindItemFirst(items: seq<EvidenceItem>, id: string)
    ensures FindItem(items, id).None? ==> forall i :: 0 <= i < |items| ==> items[i].id != id
    ensures FindItem(items, id).Some? ==>
      exists i :: 0 <= i < |items| && items[i] == FindItem(items, id).value && items[i].id == id && forall j :: 0 <= j < i ==> items[j].id != id
  {
    if items != [] && items[0].id != id {
      FindItemFirst(items[1..], id);
      assert forall i :: 1 <= i < |items| ==> items[i] == items[1..][i - 1];
      if FindItem(items, id).Some? {
        var i :| 0 <= i < |items[1..]| && items[1..][i] == FindItem(items, id).value && items[1..][i].id == id && forall j :: 0 <= j < i ==> items[1..][j].id != id;
        assert items[i + 1] == FindItem(items, id).value && forall j :: 0 <= j < i + 1 ==> items[j].id != id;
      }
    }
  }
}
