/**
 From the readiness tree to the final decision: the packager reads the production readiness packet, and the
 go/no-go packet reads the packager's summary.
 */
module PromotionChain {
  import opened Wrappers
  import opened ArtifactBundle
  import opened ArtifactCopy
  import opened PromotionCandidate
  import Readiness = ProductionReadiness
  import Decision = GoNoGoPacket
  import Ha = HaReadiness

  /** What `readEnvironmentPacket` takes from a readiness packet. */
  function EnvironmentOf(p: Readiness.Packet): EnvironmentPacket {
    EnvironmentPacket(
      Some(if p.state == Readiness.Ready then "ready-for-environment-promotion" else "blocked-on-environment-inputs"),
      Some(p.gatePassed))
  }

  /** The packager accepts exactly the readiness packets without issues. */
  lemma PacketAccepted(i: Readiness.Inputs)
    requires Readiness.PacketOf(i).Ok?
    ensures PacketReady(EnvironmentOf(Readiness.PacketOf(i).value)) <==> Readiness.PacketOf(i).value.issues == []
  {
    ReadyPasses(i);
    AcceptedState(Readiness.PacketOf(i).value);
    hide *;
    Readiness.ReadyMeansNoIssues(i);
  }

  lemma AcceptedState(p: Readiness.Packet)
    requires p.state == Readiness.Ready ==> p.gatePassed
    ensures PacketReady(EnvironmentOf(p)) <==> p.state == Readiness.Ready
  {
    assert |"ready-for-environment-promotion"| == 31 && |"blocked-on-environment-inputs"| == 29;
  }

  lemma ReadyPasses(i: Readiness.Inputs)
    requires Readiness.PacketOf(i).Ok?
    ensures Readiness.PacketOf(i).value.state == Readiness.Ready ==> Readiness.PacketOf(i).value.gatePassed
  {
    hide Readiness.ObsPacketOf, Readiness.HaPacketOf, Readiness.ResolveRepo, Readiness.AuthorityOf,
      Readiness.Distinct, Readiness.Tag;
  }

  /** The file that the manifest names as its readiness packet is there and holds the packet rendered from these inputs. */
  ghost predicate Stored(ws: Workspace, m: Manifest, decode: Decoder, i: Readiness.Inputs) {
    && Readiness.PacketOf(i).Ok?
    && PacketPath(m).Some?
    && PacketAt(ws, PacketPath(m).value, decode) == Ok(EnvironmentOf(Readiness.PacketOf(i).value))
  }

  ghost predicate GoDecided(
    ws: Workspace, m: Manifest, decode: Decoder, keyPath: Option<string>, inputs: Decision.Inputs) {
    && Sound(ws) && Packaged(ws, m, decode, keyPath).Ok?
    && Decision.Decide(Some(Decision.Load(Packaged(ws, m, decode, keyPath).value)), inputs).verdict == Go
  }

  /** What the readiness tree says when it has nothing left to say. */
  ghost predicate WorldReady(i: Readiness.Inputs) {
    && Readiness.PacketOf(i).Ok? && Readiness.PacketOf(i).value.issues == []
    && Readiness.ResolveRepo(i.repo).ready
    && Ha.EnvOk(i.ha) && Ha.Reachable(i.ha)
    && Readiness.ObsEnvOk(i.obs) && Readiness.AlertProbe(Readiness.AlertEnv(i.obs.alert)) == Ok(true)
    && Readiness.AuthorityOk(i.profile, i.pgConfigured, i.storageReady)
    && i.benchmarks.obsAge <= i.benchmarks.obsMaxAge && i.benchmarks.haAge <= i.benchmarks.haMaxAge
  }

  /** Every artifact is there, inside its roots, and matches its digest. */
  ghost predicate ArtifactsInOrder(ws: Workspace, refs: seq<Ref>) {
    forall k :: 0 <= k < |refs| ==> Present(ws, refs[k]) && Clean(ws, refs[k]) && DigestsMatch(ws, refs[k])
  }

  /**
   The whole promotion. A go decision on what the packager made of a manifest and a workspace means: the readiness
   packet in the file that the manifest names had no issue left, so the repository was ready, the environment clean
   and reachable, alert routing probed and benchmarks fresh; and the manifest was sound, its artifacts in order.
   */
  lemma GoMeansReady(
    ws: Workspace, m: Manifest, decode: Decoder, keyPath: Option<string>, readiness: Readiness.Inputs,
    inputs: Decision.Inputs)
    requires GoDecided(ws, m, decode, keyPath, inputs) && Stored(ws, m, decode, readiness)
    ensures WorldReady(readiness)
    ensures ManifestSound(m) && KeyReady(ws, keyPath) && ArtifactsInOrder(ws, References(m))
  {
    hide *;
    DecidedMeans(ws, m, decode, keyPath, inputs);
    StoredReady(ws, m, decode, readiness);
  }

  /**
   And the packet that decided lies under an allowed root, if the packaging command does not name its id and no id
   goes on from it with a colon.
   */
  lemma GoPacketIsBundled(ws: Workspace, m: Manifest, decode: Decoder, keyPath: Option<string>, inputs: Decision.Inputs)
    requires GoDecided(ws, m, decode, keyPath, inputs)
    requires PACKET_ID !in FinalIds(m.commands) && !Shadowed(m)
    ensures PacketPath(m).Some? && Denial(ws, PacketPath(m).value) == None
  {
    hide ManifestSound, KeyReady, Sound, References, PacketReady, SummaryOf, Shadowed, FinalIds, Denial, ArtifactsInOrder;
    DecidedMeans(ws, m, decode, keyPath, inputs);
    GoPacketInsideRoots(ws, m, decode, keyPath);
  }

  lemma DecidedMeans(ws: Workspace, m: Manifest, decode: Decoder, keyPath: Option<string>, inputs: Decision.Inputs)
    requires GoDecided(ws, m, decode, keyPath, inputs)
    ensures ReadPacket(ws, m, decode).Ok? && PacketReady(ReadPacket(ws, m, decode).value)
    ensures ManifestSound(m) && KeyReady(ws, keyPath) && ArtifactsInOrder(ws, References(m))
    ensures GoCandidate(ws, m, decode, keyPath)
  {
    hide ManifestSound, KeyReady, Sound, References, PacketReady, SummaryOf, Decision.Decide, Decision.Load,
      ReadPacket, AddRefs, Present, Clean, DigestsMatch;
    var packet, key := ReadPacket(ws, m, decode).value, KeyReady(ws, keyPath);
    assert Packaged(ws, m, decode, keyPath) == Ok(SummaryOf(m, AddRefs(ws, References(m)), packet, key));
    Decision.GoPacketOnPackagedCandidate(ws, m, packet, key, inputs);
    OrderedIsClean(ws, References(m));
    GoMeans(ws, m, packet, key);
  }

  lemma OrderedIsClean(ws: Workspace, refs: seq<Ref>)
    requires Sound(ws) && ArtifactsInOrder(ws, refs)
    ensures forall k :: 0 <= k < |refs| ==> Clean(ws, refs[k]) && !Missing(ws, refs[k]) && DigestsMatch(ws, refs[k])
  {
    hide Sound, Denial, DigestsMatch;
  }

  lemma StoredReady(ws: Workspace, m: Manifest, decode: Decoder, i: Readiness.Inputs)
    requires Stored(ws, m, decode, i)
    requires ReadPacket(ws, m, decode).Ok? && PacketReady(ReadPacket(ws, m, decode).value)
    ensures WorldReady(i)
  {
    hide PacketAt, Readiness.PacketOf, WorldReady, PacketReady;
    assert ReadPacket(ws, m, decode) == PacketAt(ws, PacketPath(m).value, decode);
    PacketAccepted(i);
    NoIssuesMeansReady(i);
  }

  lemma NoIssuesMeansReady(i: Readiness.Inputs)
    requires Readiness.PacketOf(i).Ok? && Readiness.PacketOf(i).value.issues == []
    ensures WorldReady(i)
  {
    hide Readiness.PacketOf, Readiness.ResolveRepo, Ha.EnvOk, Ha.Reachable, Readiness.ObsEnvOk, Readiness.AlertProbe,
      Readiness.AuthorityOk;
    Readiness.ReadyMeansNoIssues(i);
  }
}
