/**
 The production rehearsal, steps 05 to 09: each driver reads the stored summaries of earlier steps, runs its
 own behaviour only if they and its inputs are in order, and overwrites its own summary. What follows holds
 of every history of runs, in whatever order and however often the drivers are started.
 */
module RehearsalChain {
  import opened Wrappers

  datatype Step = Substrates | Consequence | AsyncRecovery | BackupRestore | Observability

  datatype Status = Pass | Fail | Skip

  datatype Check = InputCheck(status: Status) | PriorCheck(prior: Step, status: Status) | CoreCheck(status: Status)

  datatype State = BlockedOnPrerequisites | Passed | Failed

  datatype Target = Target(provider: string, namespace: string, publicHostname: Option<string>)

  datatype Summary = Summary(generatedAt: int, state: State, passed: bool, target: Target, checks: seq<Check>)

  /** The rehearsed behaviour either throws or reports one result for each of its checks. */
  datatype Core = Throws | Reports(results: seq<bool>)

  /** What the target profile and the environment say of the target. */
  datatype Setting = Setting(
    provider: string, namespace: string, clusterNamespace: Option<string>, publicHostname: Option<string>)

  /**
   One start of a driver: the clock when it writes its summary, its setting, the outcomes of its own input checks
   before and after the prior steps, and its behaviour.
   */
  datatype Event = Event(step: Step, at: int, setting: Setting, before: seq<bool>, after: seq<bool>, core: Core)

  type Store = map<Step, Summary>

  /** Which stored summaries a driver looks at, in order. */
  function Priors(s: Step): seq<Step> {
    match s
    case Substrates => []
    case Consequence => [Substrates]
    case AsyncRecovery => [Substrates, Consequence]
    case BackupRestore => [Substrates, Consequence, AsyncRecovery]
    case Observability => [Substrates, Consequence, AsyncRecovery, BackupRestore]
  }

  // ---------------------------------------------------------------- one driver

  predicate StoredPassed(store: Store, s: Step) {
    s in store && store[s].passed
  }

  function StatusOf(ok: bool): Status {
    if ok then Pass else Fail
  }

  function InputChecks(oks: seq<bool>): seq<Check> {
    if oks == [] then [] else InputChecks(oks[..|oks| - 1]) + [InputCheck(StatusOf(oks[|oks| - 1]))]
  }

  function PriorChecks(store: Store, steps: seq<Step>): seq<Check> {
    if steps == [] then []
    else
      var last := steps[|steps| - 1];
      PriorChecks(store, steps[..|steps| - 1]) + [PriorCheck(last, StatusOf(StoredPassed(store, last)))]
  }

  function CoreChecks(oks: seq<bool>): seq<Check> {
    if oks == [] then [] else CoreChecks(oks[..|oks| - 1]) + [CoreCheck(StatusOf(oks[|oks| - 1]))]
  }

  predicate AllPass(checks: seq<Check>) {
    forall i :: 0 <= i < |checks| ==> checks[i].status == Pass
  }

  predicate NoneFails(checks: seq<Check>) {
    forall i :: 0 <= i < |checks| ==> checks[i].status != Fail
  }

  /** The substrate probe fails its DNS check where no host name is set. */
  function OwnInputs(e: Event): seq<bool> {
    if e.step == Substrates then e.before + [e.setting.publicHostname.Some?] else e.before
  }

  function Prerequisites(store: Store, e: Event): seq<Check> {
    InputChecks(OwnInputs(e)) + PriorChecks(store, Priors(e.step)) + InputChecks(e.after)
  }

  function CoreOutcome(core: Core): seq<Check> {
    if core.Throws? then [CoreCheck(Fail)] else CoreChecks(core.results)
  }

  function Else<T>(o: Option<T>, fallback: Option<T>): Option<T> {
    if o.Some? then o else fallback
  }

  /** The target a driver names: mostly, or in part, what it finds in the stored substrate summary. */
  function TargetOf(store: Store, e: Event): Target {
    var own := e.setting;
    var stored := if Substrates in store then Some(store[Substrates].target) else None;
    match e.step
    case Substrates =>
      Target(own.provider, if own.clusterNamespace.Some? then own.clusterNamespace.value else own.namespace, own.publicHostname)
    case Consequence =>
      if stored.Some? then stored.value else Target(own.provider, own.namespace, own.publicHostname)
    case AsyncRecovery =>
      if stored.Some? then stored.value.(publicHostname := Else(stored.value.publicHostname, own.publicHostname))
      else Target(own.provider, own.namespace, own.publicHostname)
    case BackupRestore =>
      Target(own.provider, own.namespace, if stored.Some? then stored.value.publicHostname else None)
    case Observability =>
      Target(own.provider, own.namespace, if stored.Some? then stored.value.publicHostname else None)
  }

  /** The summary a driver writes. Skipped checks are not issues; only failed ones are. */
  function Drive(store: Store, e: Event): Summary {
    var prerequisites := Prerequisites(store, e);
    if !AllPass(prerequisites) then
      Summary(e.at, BlockedOnPrerequisites, false, TargetOf(store, e), prerequisites + [CoreCheck(Skip)])
    else
      var checks := prerequisites + CoreOutcome(e.core);
      if NoneFails(checks) then Summary(e.at, Passed, true, TargetOf(store, e), checks)
      else Summary(e.at, Failed, false, TargetOf(store, e), checks)
  }

  /** The directory of summaries. */
  class Workspace {
    var store: Store

    constructor ()
      ensures store == map[]
    {
      store := map[];
    }

    method Run(e: Event) returns (summary: Summary)
      modifies this
      ensures summary == Drive(old(store), e)
      ensures store == old(store)[e.step := summary]
    {
      hide AllPass, NoneFails, TargetOf, OwnInputs;
      var target := TargetOf(store, e);
      var checks := InputChecks(OwnInputs(e));
      var priors := Priors(e.step);
      var found: seq<Check> := [];
      for i := 0 to |priors|
        invariant found == PriorChecks(store, priors[..i])
      {
        assert priors[..i + 1][..i] == priors[..i];
        var prior := priors[i];
        if prior !in store {
          found := found + [PriorCheck(prior, Fail)];
        } else if !store[prior].passed {
          found := found + [PriorCheck(prior, Fail)];
        } else {
          found := found + [PriorCheck(prior, Pass)];
        }
      }
      assert priors[..|priors|] == priors;
      checks := checks + found + InputChecks(e.after);
      if !AllPass(checks) {
        summary := Summary(e.at, BlockedOnPrerequisites, false, target, checks + [CoreCheck(Skip)]);
      } else {
        checks := checks + CoreOutcome(e.core);
        var passed := NoneFails(checks);
        summary := Summary(e.at, if passed then Passed else Failed, passed, target, checks);
      }
      store := store[e.step := summary];
    }
  }

  // ---------------------------------------------------------------- what a passed summary says

  predicate AllTrue(oks: seq<bool>) {
    forall i :: 0 <= i < |oks| ==> oks[i]
  }

  predicate PriorsPassed(store: Store, steps: seq<Step>) {
    forall i :: 0 <= i < |steps| ==> StoredPassed(store, steps[i])
  }

  lemma OneMore(checks: seq<Check>, c: Check)
    ensures AllPass(checks + [c]) <==> AllPass(checks) && c.status == Pass
    ensures NoneFails(checks + [c]) <==> NoneFails(checks) && c.status != Fail
  {
    AllPassAppend(checks, [c]);
    assert [c][0] == c;
  }

  lemma LastTrue(oks: seq<bool>)
    requires oks != []
    ensures AllTrue(oks) <==> AllTrue(oks[..|oks| - 1]) && oks[|oks| - 1]
  {
    assert forall i :: 0 <= i < |oks| - 1 ==> oks[i] == oks[..|oks| - 1][i];
  }

  lemma {:induction false} InputChecksMean(oks: seq<bool>)
    ensures AllPass(InputChecks(oks)) <==> AllTrue(oks)
  {
    if oks != [] {
      InputChecksMean(oks[..|oks| - 1]);
      OneMore(InputChecks(oks[..|oks| - 1]), InputCheck(StatusOf(oks[|oks| - 1])));
      LastTrue(oks);
    }
  }

  lemma {:induction false} PriorChecksMean(store: Store, steps: seq<Step>)
    ensures AllPass(PriorChecks(store, steps)) <==> PriorsPassed(store, steps)
  {
    hide StoredPassed;
    if steps != [] {
      var init, last := steps[..|steps| - 1], steps[|steps| - 1];
      PriorChecksMean(store, init);
      OneMore(PriorChecks(store, init), PriorCheck(last, StatusOf(StoredPassed(store, last))));
      assert forall i :: 0 <= i < |init| ==> steps[i] == init[i];
    }
  }

  lemma {:induction false} CoreChecksMean(oks: seq<bool>)
    ensures AllPass(CoreChecks(oks)) <==> AllTrue(oks)
    ensures NoneFails(CoreChecks(oks)) <==> AllTrue(oks)
  {
    if oks != [] {
      CoreChecksMean(oks[..|oks| - 1]);
      OneMore(CoreChecks(oks[..|oks| - 1]), CoreCheck(StatusOf(oks[|oks| - 1])));
      LastTrue(oks);
    }
  }

  lemma AllPassAppend(a: seq<Check>, b: seq<Check>)
    ensures AllPass(a + b) <==> AllPass(a) && AllPass(b)
    ensures NoneFails(a + b) <==> NoneFails(a) && NoneFails(b)
  {
    assert forall i :: 0 <= i < |a| ==> (a + b)[i] == a[i];
    assert forall i :: |a| <= i < |a + b| ==> (a + b)[i] == b[i - |a|];
    forall i | 0 <= i < |b|
      ensures (a + b)[|a| + i] == b[i]
    {
    }
    assert AllPass(a + b) ==> AllPass(b) by {
      if AllPass(a + b) {
        forall i | 0 <= i < |b| ensures b[i].status == Pass { assert (a + b)[|a| + i].status == Pass; }
      }
    }
    assert NoneFails(a + b) ==> NoneFails(b) by {
      if NoneFails(a + b) {
        forall i | 0 <= i < |b| ensures b[i].status != Fail { assert (a + b)[|a| + i].status != Fail; }
      }
    }
  }

  lemma PassIsNoFail(checks: seq<Check>)
    ensures AllPass(checks) ==> NoneFails(checks)
  {
  }

  predicate CoreHolds(core: Core) {
    core.Reports? && AllTrue(core.results)
  }

  lemma CoreOutcomeMeans(core: Core)
    ensures AllPass(CoreOutcome(core)) <==> CoreHolds(core)
    ensures NoneFails(CoreOutcome(core)) <==> CoreHolds(core)
  {
    hide CoreChecks;
    if core.Reports? {
      CoreChecksMean(core.results);
    } else {
      assert [CoreCheck(Fail)][0].status == Fail;
    }
  }

  lemma PrerequisitesMean(store: Store, e: Event)
    ensures AllPass(Prerequisites(store, e)) <==>
      AllTrue(OwnInputs(e)) && PriorsPassed(store, Priors(e.step)) && AllTrue(e.after)
  {
    hide AllPass, AllTrue, PriorsPassed, InputChecks, PriorChecks, OwnInputs;
    InputChecksMean(OwnInputs(e));
    InputChecksMean(e.after);
    PriorChecksMean(store, Priors(e.step));
    AllPassAppend(InputChecks(OwnInputs(e)), PriorChecks(store, Priors(e.step)));
    AllPassAppend(InputChecks(OwnInputs(e)) + PriorChecks(store, Priors(e.step)), InputChecks(e.after));
  }

  /**
   A summary is written as passed exactly when every check in it passed, although a skipped check is no
   issue; and exactly when inputs, stored priors and behaviour were all in order.
   */
  lemma PassedMeans(store: Store, e: Event)
    ensures
      var s := Drive(store, e);
      && (s.passed <==> AllPass(s.checks))
      && (s.passed <==> s.state == Passed)
      && (s.passed <==>
          AllTrue(OwnInputs(e)) && PriorsPassed(store, Priors(e.step)) && AllTrue(e.after) && CoreHolds(e.core))
  {
    hide OwnInputs, TargetOf, AllPass, NoneFails, AllTrue, PriorsPassed, Prerequisites, CoreOutcome, CoreHolds;
    var prerequisites := Prerequisites(store, e);
    PrerequisitesMean(store, e);
    CoreOutcomeMeans(e.core);
    AllPassAppend(prerequisites, CoreOutcome(e.core));
    AllPassAppend(prerequisites, [CoreCheck(Skip)]);
    PassIsNoFail(prerequisites);
  }

  // ---------------------------------------------------------------- one run, word for word

  const ORDER := [Substrates, Consequence, AsyncRecovery, BackupRestore, Observability]

  /** How many steps come before this one: 05 has none, 09 has four. */
  function Before(s: Step): (n: nat)
    ensures n < |ORDER| && ORDER[n] == s
  {
    match s
    case Substrates => 0
    case Consequence => 1
    case AsyncRecovery => 2
    case BackupRestore => 3
    case Observability => 4
  }

  function Verdict(ok: bool): Status {
    if ok then Pass else Fail
  }

  predicate Recorded(store: Store, s: Step) {
    s in store && store[s].passed
  }

  lemma PriorsAre(s: Step)
    ensures Priors(s) == ORDER[..Before(s)]
  {
  }

  lemma {:induction false} InputCheckAt(oks: seq<bool>, i: nat)
    ensures |InputChecks(oks)| == |oks| && (i < |oks| ==> InputChecks(oks)[i] == InputCheck(Verdict(oks[i])))
  {
    if oks != [] { InputCheckAt(oks[..|oks| - 1], i); }
  }

  lemma {:induction false} PriorCheckAt(store: Store, steps: seq<Step>, i: nat)
    ensures |PriorChecks(store, steps)| == |steps|
    ensures i < |steps| ==> PriorChecks(store, steps)[i] == PriorCheck(steps[i], Verdict(Recorded(store, steps[i])))
  {
    if steps != [] { PriorCheckAt(store, steps[..|steps| - 1], i); }
  }

  lemma {:induction false} CoreCheckAt(oks: seq<bool>, i: nat)
    ensures |CoreChecks(oks)| == |oks| && (i < |oks| ==> CoreChecks(oks)[i] == CoreCheck(Verdict(oks[i])))
  {
    if oks != [] { CoreCheckAt(oks[..|oks| - 1], i); }
  }

  ghost predicate SomeFalse(oks: seq<bool>) {
    exists i :: 0 <= i < |oks| && !oks[i]
  }

  ghost predicate Unready(store: Store, e: Event) {
    || SomeFalse(e.before) || SomeFalse(e.after)
    || (e.step == Substrates && e.setting.publicHostname.None?)
    || exists k :: 0 <= k < Before(e.step) && !Recorded(store, ORDER[k])
  }

  lemma UnreadyMeans(store: Store, e: Event)
    ensures AllPass(Prerequisites(store, e)) <==> !Unready(store, e)
  {
    hide AllPass, Prerequisites, StoredPassed, Recorded;
    PrerequisitesMean(store, e);
    PriorsAre(e.step);
    forall s ensures StoredPassed(store, s) <==> Recorded(store, s) { SameRecord(store, s); }
    var own := OwnInputs(e);
    assert AllTrue(own) <==> !SomeFalse(e.before) && (e.step == Substrates ==> e.setting.publicHostname.Some?) by {
      if e.step == Substrates {
        assert own[|e.before|] == e.setting.publicHostname.Some?;
        assert forall i :: 0 <= i < |e.before| ==> own[i] == e.before[i];
      }
    }
  }

  lemma SameRecord(store: Store, s: Step)
    ensures StoredPassed(store, s) <==> Recorded(store, s)
  {
  }

  /**
   What a run writes, said of the run: blocked, whatever its behaviour, where an input fails, where the substrate step
   has no host name or where an earlier step is not recorded as passed; else passed if the behaviour reports nothing
   false, and failed if it throws or does.
   */
  lemma RunMeans(store: Store, e: Event)
    ensures
      var s := Drive(store, e);
      && s.generatedAt == e.at && s.target == TargetOf(store, e)
      && (s.state == BlockedOnPrerequisites <==> Unready(store, e))
      && (s.state == Passed <==> !Unready(store, e) && e.core.Reports? && !SomeFalse(e.core.results))
      && (s.passed <==> s.state == Passed)
  {
    hide Unready, Prerequisites, AllPass, NoneFails, CoreOutcome, TargetOf, OwnInputs;
    UnreadyMeans(store, e);
    PassedMeans(store, e);
    PrerequisitesMean(store, e);
  }

  /** The checks before the behaviour, place by place: inputs, the earlier steps in their order, further inputs. */
  lemma PrerequisitesAre(store: Store, e: Event)
    ensures
      var checks, n, m := Prerequisites(store, e), |e.before| + (if e.step == Substrates then 1 else 0), Before(e.step);
      && |checks| == n + m + |e.after|
      && (forall i :: 0 <= i < |e.before| ==> checks[i] == InputCheck(Verdict(e.before[i])))
      && (e.step == Substrates ==> checks[|e.before|] == InputCheck(Verdict(e.setting.publicHostname.Some?)))
      && (forall i :: 0 <= i < m ==> checks[n + i] == PriorCheck(ORDER[i], Verdict(Recorded(store, ORDER[i]))))
      && (forall i :: 0 <= i < |e.after| ==> checks[n + m + i] == InputCheck(Verdict(e.after[i])))
  {
    hide InputChecks, PriorChecks, Recorded, Verdict, OwnInputs, Before, Priors;
    var own, priors := InputChecks(OwnInputs(e)), PriorChecks(store, Priors(e.step));
    OwnChecksAre(e);
    PriorChecksAre(store, e.step);
    AfterChecksAre(e);
    InThirds(own, priors, InputChecks(e.after));
  }

  lemma InThirds(a: seq<Check>, b: seq<Check>, c: seq<Check>)
    ensures |a + b + c| == |a| + |b| + |c|
    ensures forall i :: 0 <= i < |a| ==> (a + b + c)[i] == a[i]
    ensures forall i :: 0 <= i < |b| ==> (a + b + c)[|a| + i] == b[i]
    ensures forall i :: 0 <= i < |c| ==> (a + b + c)[|a| + |b| + i] == c[i]
  {
  }

  lemma OwnChecksAre(e: Event)
    ensures
      var checks := InputChecks(OwnInputs(e));
      && |checks| == |e.before| + (if e.step == Substrates then 1 else 0)
      && (forall i :: 0 <= i < |e.before| ==> checks[i] == InputCheck(Verdict(e.before[i])))
      && (e.step == Substrates ==> checks[|e.before|] == InputCheck(Verdict(e.setting.publicHostname.Some?)))
  {
    hide InputChecks, Verdict;
    var own := OwnInputs(e);
    InputCheckAt(own, 0);
    forall i | 0 <= i < |own| ensures InputChecks(own)[i] == InputCheck(Verdict(own[i])) { InputCheckAt(own, i); }
  }

  lemma AfterChecksAre(e: Event)
    ensures |InputChecks(e.after)| == |e.after|
    ensures forall i :: 0 <= i < |e.after| ==> InputChecks(e.after)[i] == InputCheck(Verdict(e.after[i]))
  {
    hide InputChecks, Verdict;
    InputCheckAt(e.after, 0);
    forall i | 0 <= i < |e.after| ensures InputChecks(e.after)[i] == InputCheck(Verdict(e.after[i])) { InputCheckAt(e.after, i); }
  }

  lemma PriorChecksAre(store: Store, s: Step)
    ensures
      var checks := PriorChecks(store, Priors(s));
      && |checks| == Before(s)
      && forall i :: 0 <= i < Before(s) ==> checks[i] == PriorCheck(ORDER[i], Verdict(Recorded(store, ORDER[i])))
  {
    hide PriorChecks, Recorded, Verdict, Priors;
    PriorsAre(s);
    var priors := Priors(s);
    PriorCheckAt(store, priors, 0);
    forall i | 0 <= i < |priors| ensures PriorChecks(store, priors)[i] == PriorCheck(priors[i], Verdict(Recorded(store, priors[i]))) {
      PriorCheckAt(store, priors, i);
    }
  }

  /** The checks a run lists: those, and then the behaviour's, of which one stands for all where it is not run or throws. */
  lemma ChecksMean(store: Store, e: Event)
    ensures
      var checks, n := Drive(store, e).checks, |Prerequisites(store, e)|;
      && n <= |checks| && checks[..n] == Prerequisites(store, e)
      && (Unready(store, e) ==> checks[n..] == [CoreCheck(Skip)])
      && (!Unready(store, e) && e.core.Throws? ==> checks[n..] == [CoreCheck(Fail)])
      && (!Unready(store, e) && e.core.Reports? ==>
            && |checks| == n + |e.core.results|
            && forall i :: 0 <= i < |e.core.results| ==> checks[n + i] == CoreCheck(Verdict(e.core.results[i])))
  {
    hide Unready, AllPass, NoneFails, TargetOf, CoreChecks, Verdict, Prerequisites;
    UnreadyMeans(store, e);
    if e.core.Reports? {
      var results := e.core.results;
      CoreCheckAt(results, 0);
      forall i | 0 <= i < |results| ensures CoreChecks(results)[i] == CoreCheck(Verdict(results[i])) { CoreCheckAt(results, i); }
    }
  }

  // ---------------------------------------------------------------- histories

  function StoreAfter(events: seq<Event>): Store {
    if events == [] then map[]
    else
      var before := StoreAfter(events[..|events| - 1]);
      var e := events[|events| - 1];
      before[e.step := Drive(before, e)]
  }

  /** The summary the i-th run wrote. */
  function Written(events: seq<Event>, i: nat): Summary
    requires i < |events|
  {
    Drive(StoreAfter(events[..i]), events[i])
  }

  /** The j-th run is the last one of its step before the i-th. */
  predicate LastBefore(events: seq<Event>, j: nat, i: nat)
    requires j < i <= |events|
  {
    forall k :: j < k < i ==> events[k].step != events[j].step
  }

  /** What is stored is what the last run of the step wrote. */
  lemma {:induction false} StoredIsLastWritten(events: seq<Event>, n: nat, s: Step) returns (j: nat)
    requires n <= |events| && s in StoreAfter(events[..n])
    ensures j < n && events[j].step == s && LastBefore(events, j, n)
    ensures StoreAfter(events[..n])[s] == Written(events, j)
    decreases n
  {
    hide Drive;
    assert events[..n][..n - 1] == events[..n - 1];
    if events[n - 1].step == s {
      j := n - 1;
    } else {
      j := StoredIsLastWritten(events, n - 1, s);
    }
  }

  /**
   The i-th run passed on solid ground: for every earlier step there is a run before it, the last of that
   step, that passed and itself stood on solid ground.
   */
  ghost predicate Grounded(events: seq<Event>, i: nat)
    requires i < |events|
    decreases i
  {
    && Written(events, i).passed
    && forall k :: 0 <= k < |Priors(events[i].step)| ==> HasGround(events, i, Priors(events[i].step)[k])
  }

  ghost predicate HasGround(events: seq<Event>, i: nat, s: Step)
    requires i < |events|
    decreases i, 0
  {
    exists j: nat :: j < i && events[j].step == s && LastBefore(events, j, i) && Grounded(events, j)
  }

  /** In every history, no step passes except on solid ground. */
  lemma {:induction false} PassedIsGrounded(events: seq<Event>, i: nat)
    requires i < |events| && Written(events, i).passed
    ensures Grounded(events, i)
    decreases i
  {
    hide Drive, AllTrue, CoreHolds, AllPass, LastBefore, StoreAfter;
    var store := StoreAfter(events[..i]);
    var priors := Priors(events[i].step);
    PassedMeans(store, events[i]);
    forall k | 0 <= k < |priors|
      ensures HasGround(events, i, priors[k])
    {
      assert StoredPassed(store, priors[k]);
      var j := StoredIsLastWritten(events, i, priors[k]);
      PassedIsGrounded(events, j);
    }
  }

  /** A passed step 09 record is preceded by passed records of steps 05 to 08, each the last of its step. */
  lemma ObservabilityNeedsAllSteps(events: seq<Event>, i: nat, s: Step)
    requires i < |events| && events[i].step == Observability && Written(events, i).passed
    requires s != Observability
    ensures HasGround(events, i, s)
  {
    hide Written, HasGround;
    PassedIsGrounded(events, i);
    var priors := Priors(Observability);
    assert s == priors[0] || s == priors[1] || s == priors[2] || s == priors[3];
  }

  // ---------------------------------------------------------------- freshness

  /** The i-th run read the summary that the k-th run wrote. */
  predicate Ground(events: seq<Event>, i: nat, k: nat)
    requires i < |events|
  {
    k < i && events[k].step in Priors(events[i].step) && LastBefore(events, k, i)
  }

  /** The i-th run stands on the k-th, directly or through the runs it stands on. */
  ghost predicate RestsOn(events: seq<Event>, i: nat, k: nat)
    requires i < |events|
    decreases i
  {
    Ground(events, i, k) || exists j: nat :: j < i && Ground(events, i, j) && RestsOn(events, j, k)
  }

  predicate SameStep(events: seq<Event>, a: nat, b: nat) {
    a < |events| && b < |events| && events[a].step == events[b].step
  }

  /** The a-th run is of a step before that of the b-th. */
  predicate Earlier(events: seq<Event>, a: nat, b: nat) {
    a < |events| && b < |events| && events[a].step in Priors(events[b].step)
  }

  /** All that the i-th run stands on is one rehearsal: no step occurs in it with two different runs. */
  ghost predicate OneRehearsal(events: seq<Event>, i: nat)
    requires i < |events|
  {
    forall a: nat, b: nat :: RestsOn(events, i, a) && RestsOn(events, i, b) && SameStep(events, a, b) ==> a == b
  }

  /** The last runs of the earlier steps came in the order of the steps. */
  ghost predicate InOrder(events: seq<Event>, i: nat)
    requires i < |events|
  {
    forall a: nat, b: nat :: Ground(events, i, a) && Ground(events, i, b) && Earlier(events, a, b) ==> a < b
  }

  lemma PriorsTransitive(s: Step, t: Step, u: Step)
    requires s in Priors(t) && t in Priors(u)
    ensures s in Priors(u)
  {
  }

  lemma GroundUnique(events: seq<Event>, i: nat, a: nat, b: nat)
    requires i < |events| && Ground(events, i, a) && Ground(events, i, b) && events[a].step == events[b].step
    ensures a == b
  {
  }

  /** In order, whatever a run's ground stood on is the run's own ground. */
  lemma GroundOfGround(events: seq<Event>, i: nat, j: nat, k: nat)
    requires i < |events| && InOrder(events, i) && Ground(events, i, j) && Ground(events, j, k)
    requires exists a: nat :: Ground(events, i, a) && events[a].step == events[k].step
    ensures Ground(events, i, k)
  {
    var a: nat :| Ground(events, i, a) && events[a].step == events[k].step;
    assert Earlier(events, a, j);
  }

  /** A passed run has a ground for every earlier step, and it passed. */
  lemma PassedHasGround(events: seq<Event>, i: nat, s: Step) returns (k: nat)
    requires i < |events| && Written(events, i).passed && s in Priors(events[i].step)
    ensures Ground(events, i, k) && events[k].step == s && Written(events, k).passed
    ensures s in StoreAfter(events[..i]) && StoreAfter(events[..i])[s] == Written(events, k)
  {
    hide Drive, AllTrue, CoreHolds, AllPass, LastBefore, StoreAfter;
    PassedMeans(StoreAfter(events[..i]), events[i]);
    assert StoredPassed(StoreAfter(events[..i]), s);
    k := StoredIsLastWritten(events, i, s);
  }

  lemma {:induction false} OrderedRestsOnGround(events: seq<Event>, i: nat, j: nat, k: nat)
    requires i < |events| && Written(events, i).passed && InOrder(events, i)
    requires Ground(events, i, j) && RestsOn(events, j, k)
    ensures Ground(events, i, k)
    decreases j
  {
    hide Written, LastBefore, InOrder;
    if Ground(events, j, k) {
      PriorsTransitive(events[k].step, events[j].step, events[i].step);
      var a := PassedHasGround(events, i, events[k].step);
      GroundOfGround(events, i, j, k);
    } else {
      var l: nat :| l < j && Ground(events, j, l) && RestsOn(events, l, k);
      PriorsTransitive(events[l].step, events[j].step, events[i].step);
      var a := PassedHasGround(events, i, events[l].step);
      GroundOfGround(events, i, j, l);
      OrderedRestsOnGround(events, i, l, k);
    }
  }

  lemma OrderedIsOneRehearsal(events: seq<Event>, i: nat)
    requires i < |events| && Written(events, i).passed && InOrder(events, i)
    ensures OneRehearsal(events, i)
    ensures forall k: nat :: RestsOn(events, i, k) ==> Ground(events, i, k)
  {
    hide Written, LastBefore, InOrder, Ground;
    forall k: nat | RestsOn(events, i, k)
      ensures Ground(events, i, k)
    {
      if !Ground(events, i, k) {
        var j: nat :| j < i && Ground(events, i, j) && RestsOn(events, j, k);
        OrderedRestsOnGround(events, i, j, k);
      }
    }
    forall a: nat, b: nat | RestsOn(events, i, a) && RestsOn(events, i, b) && SameStep(events, a, b)
      ensures a == b
    {
      GroundUnique(events, i, a, b);
    }
  }

  lemma OneRehearsalIsOrdered(events: seq<Event>, i: nat)
    requires i < |events| && Written(events, i).passed && OneRehearsal(events, i)
    ensures InOrder(events, i)
  {
    hide Written, LastBefore, OneRehearsal, Ground, Priors;
    forall a: nat, b: nat | Ground(events, i, a) && Ground(events, i, b) && Earlier(events, a, b)
      ensures a < b
    {
      OneRehearsalOrdersTwo(events, i, a, b);
    }
  }

  /** What the b-th run read of the a-th run's step is, on a single rehearsal, the a-th run. */
  lemma OneRehearsalOrdersTwo(events: seq<Event>, i: nat, a: nat, b: nat)
    requires i < |events| && Written(events, i).passed && OneRehearsal(events, i)
    requires Ground(events, i, a) && Ground(events, i, b) && Earlier(events, a, b)
    ensures a < b
  {
    hide Written, LastBefore, StoreAfter, Priors, RestsOn;
    var p := PassedHasGround(events, i, events[b].step);
    GroundUnique(events, i, p, b);
    var k := PassedHasGround(events, b, events[a].step);
    RestsOnGround(events, i, a);
    RestsThrough(events, i, b, k);
    assert SameStep(events, a, k);
  }

  lemma RestsOnGround(events: seq<Event>, i: nat, k: nat)
    requires i < |events| && Ground(events, i, k)
    ensures RestsOn(events, i, k)
  {
  }

  lemma RestsThrough(events: seq<Event>, i: nat, j: nat, k: nat)
    requires i < |events| && Ground(events, i, j) && Ground(events, j, k)
    ensures RestsOn(events, i, k)
  {
    RestsOnGround(events, j, k);
  }

  /**
   Exactly when a passed run stands on a single rehearsal, in every history: when the last runs of the earlier
   steps came in the order of the steps.
   */
  lemma OneRehearsalMeans(events: seq<Event>, i: nat)
    requires i < |events| && Written(events, i).passed
    ensures OneRehearsal(events, i) <==> InOrder(events, i)
  {
    hide *;
    if InOrder(events, i) {
      OrderedIsOneRehearsal(events, i);
    }
    if OneRehearsal(events, i) {
      OneRehearsalIsOrdered(events, i);
    }
  }

  /** The clock advances from run to run. */
  ghost predicate Timed(events: seq<Event>) {
    forall a, b :: 0 <= a < b < |events| ==> events[a].at < events[b].at
  }

  /** The stored summaries of the earlier steps are dated in the order of the steps: what an operator can look at before the run. */
  predicate DatedInOrder(store: Store, s: Step) {
    forall t, u :: t in Priors(s) && u in Priors(s) && t in Priors(u) && t in store && u in store ==>
      store[t].generatedAt < store[u].generatedAt
  }

  lemma WrittenAt(events: seq<Event>, i: nat)
    requires i < |events|
    ensures Written(events, i).generatedAt == events[i].at
  {
    hide AllPass, NoneFails, Prerequisites, CoreOutcome, TargetOf, StoreAfter;
  }

  /** A passed run stands on a single rehearsal if and only if the summaries it reads are dated in the order of the steps. */
  lemma OneRehearsalMeansDated(events: seq<Event>, i: nat)
    requires Timed(events) && i < |events| && Written(events, i).passed
    ensures OneRehearsal(events, i) <==> DatedInOrder(StoreAfter(events[..i]), events[i].step)
  {
    hide Written, LastBefore, OneRehearsal, StoreAfter, Priors, Ground, Timed;
    OneRehearsalMeans(events, i);
    var store := StoreAfter(events[..i]);
    if InOrder(events, i) {
      forall t, u | t in Priors(events[i].step) && u in Priors(events[i].step) && t in Priors(u) && t in store && u in store
        ensures store[t].generatedAt < store[u].generatedAt
      {
        GroundsDated(events, i, t, u);
      }
    }
    if DatedInOrder(store, events[i].step) {
      forall a: nat, b: nat | Ground(events, i, a) && Ground(events, i, b) && Earlier(events, a, b)
        ensures a < b
      {
        DatedGrounds(events, i, a, b);
      }
    }
  }

  lemma GroundsDated(events: seq<Event>, i: nat, t: Step, u: Step)
    requires Timed(events) && i < |events| && Written(events, i).passed && InOrder(events, i)
    requires t in Priors(events[i].step) && u in Priors(events[i].step) && t in Priors(u)
    ensures
      var store := StoreAfter(events[..i]);
      t in store && u in store && store[t].generatedAt < store[u].generatedAt
  {
    hide Written, LastBefore, StoreAfter, Priors;
    var a := PassedHasGround(events, i, t);
    var b := PassedHasGround(events, i, u);
    assert Earlier(events, a, b);
    WrittenAt(events, a);
    WrittenAt(events, b);
  }

  lemma DatedGrounds(events: seq<Event>, i: nat, a: nat, b: nat)
    requires Timed(events) && i < |events| && Written(events, i).passed
    requires DatedInOrder(StoreAfter(events[..i]), events[i].step)
    requires Ground(events, i, a) && Ground(events, i, b) && Earlier(events, a, b)
    ensures a < b
  {
    hide Written, LastBefore, StoreAfter;
    var p := PassedHasGround(events, i, events[a].step);
    var q := PassedHasGround(events, i, events[b].step);
    GroundUnique(events, i, a, p);
    GroundUnique(events, i, b, q);
    WrittenAt(events, a);
    WrittenAt(events, b);
    assert StoredPassed(StoreAfter(events[..i]), events[a].step) && StoredPassed(StoreAfter(events[..i]), events[b].step) by {
      PassedStored(events, i, events[a].step);
      PassedStored(events, i, events[b].step);
    }
    assert events[a].at < events[b].at;
    PriorsIrreflexive(events[b].step);
  }

  lemma PriorsIrreflexive(s: Step)
    ensures s !in Priors(s)
  {
  }

  lemma PassedStored(events: seq<Event>, i: nat, s: Step)
    requires i < |events| && Written(events, i).passed && s in Priors(events[i].step)
    ensures StoredPassed(StoreAfter(events[..i]), s)
  {
    hide Drive, AllTrue, CoreHolds, AllPass, StoreAfter, StoredPassed;
    PassedMeans(StoreAfter(events[..i]), events[i]);
  }

  // ---------------------------------------------------------------- the named target

  lemma WrittenTarget(events: seq<Event>, i: nat)
    requires i < |events|
    ensures Written(events, i).target == TargetOf(StoreAfter(events[..i]), events[i])
  {
    hide AllPass, NoneFails, Prerequisites, CoreOutcome, TargetOf, StoreAfter;
  }

  lemma PassedSubstratesNamed(events: seq<Event>, k: nat)
    requires k < |events| && events[k].step == Substrates && Written(events, k).passed
    ensures Written(events, k).target.publicHostname.Some?
  {
    hide Drive, CoreHolds, AllPass, StoreAfter, PriorsPassed;
    PassedMeans(StoreAfter(events[..k]), events[k]);
    WrittenTarget(events, k);
    var inputs := OwnInputs(events[k]);
    assert inputs[|inputs| - 1] == events[k].setting.publicHostname.Some?;
  }

  /** A passed run names the host of the substrate run that it stands on; steps 06 and 07 its whole target. */
  lemma PassedNamesItsGround(events: seq<Event>, j: nat, k: nat)
    requires j < |events| && Written(events, j).passed && Ground(events, j, k) && events[k].step == Substrates
    ensures Written(events, j).target.publicHostname == Written(events, k).target.publicHostname
    ensures events[j].step in [Consequence, AsyncRecovery] ==> Written(events, j).target == Written(events, k).target
    ensures events[j].step in [BackupRestore, Observability] ==>
      Written(events, j).target.provider == events[j].setting.provider
      && Written(events, j).target.namespace == events[j].setting.namespace
  {
    hide Written, LastBefore, StoreAfter;
    var p := PassedHasGround(events, j, Substrates);
    GroundUnique(events, j, k, p);
    PassedStored(events, j, Substrates);
    PassedSubstratesNamed(events, k);
    WrittenTarget(events, j);
  }

  /**
   On a single rehearsal, every summary a passed run stands on names the same host, and so does the run's own:
   that of the one substrate run.
   */
  lemma OneRehearsalOneHost(events: seq<Event>, i: nat, k: nat, j: nat)
    requires i < |events| && Written(events, i).passed && OneRehearsal(events, i)
    requires Ground(events, i, k) && events[k].step == Substrates && RestsOn(events, i, j)
    ensures j < i && Written(events, j).target.publicHostname == Written(events, k).target.publicHostname
    ensures Written(events, i).target.publicHostname == Written(events, k).target.publicHostname
  {
    hide Written, LastBefore, OneRehearsal, RestsOn;
    OneRehearsalMeans(events, i);
    OrderedIsOneRehearsal(events, i);
    PassedNamesItsGround(events, i, k);
    if events[j].step == Substrates {
      GroundUnique(events, i, j, k);
    } else {
      var p := PassedHasGround(events, i, events[j].step);
      GroundUnique(events, i, j, p);
      SubstratesFirst(events[j].step);
      GroundBelow(events, i, j, k);
      PassedNamesItsGround(events, j, k);
    }
  }

  lemma SubstratesFirst(s: Step)
    requires s != Substrates
    ensures Substrates in Priors(s)
  {
  }

  lemma GroundBelow(events: seq<Event>, i: nat, j: nat, k: nat)
    requires i < |events| && InOrder(events, i)
    requires Ground(events, i, j) && Ground(events, i, k) && events[k].step in Priors(events[j].step)
    ensures Ground(events, j, k)
  {
    assert k < j;
  }

  // ---------------------------------------------------------------- one target, as the store shows it

  /** All summaries that the i-th run read name its host. */
  ghost predicate GroundsNameItsHost(events: seq<Event>, i: nat)
    requires i < |events|
  {
    forall j: nat :: Ground(events, i, j) ==> Written(events, j).target.publicHostname == Written(events, i).target.publicHostname
  }

  /** The stored summaries of the earlier steps name the host of the stored substrate summary. */
  predicate StoredHostsAgree(store: Store, s: Step) {
    Substrates in store && forall t :: t in Priors(s) && t in store ==>
      store[t].target.publicHostname == store[Substrates].target.publicHostname
  }

  /** The same for whole targets, and for the one that the run will write. */
  predicate StoredTargetsAgree(store: Store, e: Event) {
    && Substrates in store && TargetOf(store, e) == store[Substrates].target
    && forall t :: t in Priors(e.step) && t in store ==> store[t].target == store[Substrates].target
  }

  /** What a passed run read of a step is what the store held. */
  lemma GroundIsStored(events: seq<Event>, i: nat, j: nat)
    requires i < |events| && Written(events, i).passed && Ground(events, i, j)
    ensures Written(events, j).passed
    ensures events[j].step in StoreAfter(events[..i]) && StoreAfter(events[..i])[events[j].step] == Written(events, j)
  {
    hide Written, LastBefore, StoreAfter;
    var p := PassedHasGround(events, i, events[j].step);
    GroundUnique(events, i, j, p);
  }

  /** A passed run and all it read name one host if and only if the stored summaries do, before it runs. */
  lemma OneHostMeans(events: seq<Event>, i: nat)
    requires i < |events| && Written(events, i).passed && events[i].step != Substrates
    ensures GroundsNameItsHost(events, i) <==> StoredHostsAgree(StoreAfter(events[..i]), events[i].step)
  {
    hide Written, LastBefore, StoreAfter, Priors, TargetOf;
    var store := StoreAfter(events[..i]);
    SubstratesFirst(events[i].step);
    var k := PassedHasGround(events, i, Substrates);
    PassedNamesItsGround(events, i, k);
    if GroundsNameItsHost(events, i) {
      forall t | t in Priors(events[i].step) && t in store
        ensures store[t].target.publicHostname == store[Substrates].target.publicHostname
      {
        var j := PassedHasGround(events, i, t);
      }
    }
    if StoredHostsAgree(store, events[i].step) {
      forall j: nat | Ground(events, i, j)
        ensures Written(events, j).target.publicHostname == Written(events, i).target.publicHostname
      {
        GroundIsStored(events, i, j);
      }
    }
  }

  /** And one whole target if and only if they, and the target it will write, agree with the stored substrate summary. */
  lemma OneTargetMeans(events: seq<Event>, i: nat)
    requires i < |events| && Written(events, i).passed && events[i].step != Substrates
    ensures (forall j: nat :: Ground(events, i, j) ==> Written(events, j).target == Written(events, i).target) <==>
      StoredTargetsAgree(StoreAfter(events[..i]), events[i])
  {
    hide Written, LastBefore, StoreAfter, Priors, TargetOf;
    var store := StoreAfter(events[..i]);
    SubstratesFirst(events[i].step);
    WrittenTarget(events, i);
    var k := PassedHasGround(events, i, Substrates);
    if forall j: nat :: Ground(events, i, j) ==> Written(events, j).target == Written(events, i).target {
      forall t | t in Priors(events[i].step) && t in store
        ensures store[t].target == store[Substrates].target
      {
        var j := PassedHasGround(events, i, t);
      }
    }
    if StoredTargetsAgree(store, events[i]) {
      forall j: nat | Ground(events, i, j)
        ensures Written(events, j).target == Written(events, i).target
      {
        GroundIsStored(events, i, j);
      }
    }
  }

  lemma {:induction false} RestsPassed(events: seq<Event>, i: nat, j: nat)
    requires i < |events| && Written(events, i).passed && RestsOn(events, i, j)
    ensures j < i && Written(events, j).passed
    decreases i
  {
    hide Written, LastBefore, Priors;
    if Ground(events, i, j) {
      GroundIsStored(events, i, j);
    } else {
      var m: nat :| m < i && Ground(events, i, m) && RestsOn(events, m, j);
      GroundIsStored(events, i, m);
      RestsPassed(events, m, j);
    }
  }

  lemma {:induction false} RestsFurther(events: seq<Event>, i: nat, j: nat, k: nat)
    requires i < |events| && j < i && RestsOn(events, i, j) && Ground(events, j, k)
    ensures RestsOn(events, i, k)
    decreases i
  {
    hide LastBefore, Priors, Ground;
    if Ground(events, i, j) {
      RestsOnGround(events, j, k);
    } else {
      var m: nat :| m < i && Ground(events, i, m) && RestsOn(events, m, j);
      RestsBelow(events, m, j);
      RestsFurther(events, m, j, k);
    }
  }

  lemma {:induction false} RestsBelow(events: seq<Event>, i: nat, j: nat)
    requires i < |events| && RestsOn(events, i, j)
    ensures j < i
    decreases i
  {
    hide LastBefore, Priors;
    if !Ground(events, i, j) {
      var m: nat :| m < i && Ground(events, i, m) && RestsOn(events, m, j);
      RestsBelow(events, m, j);
    }
  }

  ghost predicate AgreedWhenRun(events: seq<Event>, i: nat)
    requires i < |events|
  {
    events[i].step == Substrates || StoredHostsAgree(StoreAfter(events[..i]), events[i].step)
  }

  lemma AgreedMeans(events: seq<Event>, i: nat)
    requires i < |events| && Written(events, i).passed
    ensures AgreedWhenRun(events, i) <==> GroundsNameItsHost(events, i)
  {
    hide Written, LastBefore, StoreAfter, StoredHostsAgree;
    if events[i].step != Substrates {
      OneHostMeans(events, i);
    }
  }

  /** Everything the i-th run stands on, however far back, names its host. */
  ghost predicate OneHostThroughout(events: seq<Event>, i: nat)
    requires i < |events|
  {
    forall j: nat :: j < i && RestsOn(events, i, j) ==>
      Written(events, j).target.publicHostname == Written(events, i).target.publicHostname
  }

  lemma {:induction false} AgreedThroughout(events: seq<Event>, i: nat, j: nat)
    requires i < |events| && Written(events, i).passed && RestsOn(events, i, j) && AgreedWhenRun(events, i)
    requires forall k: nat :: k < i && RestsOn(events, i, k) ==> AgreedWhenRun(events, k)
    ensures j < i && Written(events, j).target.publicHostname == Written(events, i).target.publicHostname
    decreases i
  {
    hide Written, LastBefore, Priors, AgreedWhenRun, Ground;
    RestsBelow(events, i, j);
    AgreedMeans(events, i);
    if !Ground(events, i, j) {
      var m: nat :| m < i && Ground(events, i, m) && RestsOn(events, m, j);
      GroundIsStored(events, i, m);
      RestsOnGround(events, i, m);
      forall k: nat | k < m && RestsOn(events, m, k)
        ensures AgreedWhenRun(events, k)
      {
        assert RestsOn(events, i, k);
      }
      AgreedThroughout(events, m, j);
    }
  }

  /**
   Everything a passed run stands on names one host if and only if the stored summaries agreed each time, when it ran and
   when each run it stands on did.
   */
  lemma OneHostThroughoutMeans(events: seq<Event>, i: nat)
    requires i < |events| && Written(events, i).passed
    ensures OneHostThroughout(events, i) <==>
      AgreedWhenRun(events, i) && forall j: nat :: j < i && RestsOn(events, i, j) ==> AgreedWhenRun(events, j)
  {
    hide Written, LastBefore, Priors, AgreedWhenRun, Ground, RestsOn;
    if AgreedWhenRun(events, i) && forall j: nat :: j < i && RestsOn(events, i, j) ==> AgreedWhenRun(events, j) {
      forall j: nat | j < i && RestsOn(events, i, j)
        ensures Written(events, j).target.publicHostname == Written(events, i).target.publicHostname
      {
        AgreedThroughout(events, i, j);
      }
    }
    if OneHostThroughout(events, i) {
      HostKept(events, i, i);
      forall j: nat | j < i && RestsOn(events, i, j)
        ensures AgreedWhenRun(events, j)
      {
        RestsPassed(events, i, j);
        HostKept(events, i, j);
      }
    }
  }

  lemma HostKept(events: seq<Event>, i: nat, j: nat)
    requires i < |events| && j <= i && Written(events, j).passed && OneHostThroughout(events, i)
    requires j == i || RestsOn(events, i, j)
    ensures AgreedWhenRun(events, j)
  {
    hide Written, LastBefore, Priors, AgreedWhenRun, RestsOn;
    AgreedMeans(events, j);
    forall k: nat | Ground(events, j, k)
      ensures Written(events, k).target.publicHostname == Written(events, j).target.publicHostname
    {
      if j == i {
        RestsOnGround(events, i, k);
      } else {
        RestsFurther(events, i, j, k);
      }
    }
  }

  // ---------------------------------------------------------------- what the chain does not promise

  const GOOD := Reports([true])

  function Setup(host: string): Setting {
    Setting("gke", "attestor", None, Some(host))
  }

  function Good(s: Step, at: int, host: string): Event {
    Event(s, at, Setup(host), [], [], GOOD)
  }

  /** A run of all five steps, with step 05 failing and then passing for another host before step 09. */
  const INTERRUPTED := [
    Good(Substrates, 0, "a"), Good(Consequence, 1, "a"), Good(AsyncRecovery, 2, "a"), Good(BackupRestore, 3, "a"),
    Event(Substrates, 4, Setup("b"), [false], [], GOOD), Good(Substrates, 5, "b"), Good(Observability, 6, "b")]

  lemma GoodPasses(store: Store, s: Step, at: int, host: string)
    requires PriorsPassed(store, Priors(s))
    ensures Drive(store, Good(s, at, host)).passed
  {
    PassedMeans(store, Good(s, at, host));
  }

  lemma StoreStep(events: seq<Event>, n: nat)
    requires n < |events|
    ensures StoreAfter(events[..n + 1]) == StoreAfter(events[..n])[events[n].step := Written(events, n)]
  {
    hide Drive;
    assert events[..n + 1][..n] == events[..n];
  }

  /**
   The drivers look only at whether what is stored passed, not at its age or its target: step 09 passes although
   steps 06 to 08 were rehearsed for another host, before step 05 last failed.
   */
  lemma StaleRehearsalPasses()
    ensures Timed(INTERRUPTED)
    ensures !Written(INTERRUPTED, 4).passed && INTERRUPTED[4].step == Substrates
    ensures Written(INTERRUPTED, 6).passed && INTERRUPTED[6].step == Observability
    ensures !OneRehearsal(INTERRUPTED, 6)
    ensures Ground(INTERRUPTED, 6, 1) && Written(INTERRUPTED, 1).target.publicHostname == Some("a")
    ensures Written(INTERRUPTED, 6).target.publicHostname == Some("b")
  {
    hide Drive, PriorsPassed, OneRehearsal, StoreAfter, AllTrue;
    var e := INTERRUPTED;
    InterruptedPasses();
    assert Ground(e, 6, 5) && Ground(e, 6, 1) && Ground(e, 1, 0) by {
      assert e[5].step == Substrates && e[1].step == Consequence && e[0].step == Substrates;
      assert Priors(Observability)[0] == Substrates && Priors(Observability)[1] == Consequence && Priors(Consequence)[0] == Substrates;
    }
    OneRehearsalMeans(e, 6);
    assert !InOrder(e, 6);
    PassedNamesItsGround(e, 1, 0);
    PassedNamesItsGround(e, 6, 5);
    WrittenTarget(e, 0);
    WrittenTarget(e, 5);
  }

  lemma InterruptedPasses()
    ensures !Written(INTERRUPTED, 4).passed
    ensures Written(INTERRUPTED, 1).passed && Written(INTERRUPTED, 6).passed
  {
    hide Drive, PriorsPassed, StoreAfter;
    var e := INTERRUPTED;
    FirstFour(e);
    StoreStep(e, 4);
    StoreStep(e, 5);
    PassedMeans(StoreAfter(e[..4]), e[4]);
    assert !OwnInputs(e[4])[0];
    FourPriors(StoreAfter(e[..5]));
    GoodPasses(StoreAfter(e[..5]), Substrates, 5, "b");
    FourPriors(StoreAfter(e[..6]));
    GoodPasses(StoreAfter(e[..6]), Observability, 6, "b");
  }

  lemma FourPriors(store: Store)
    ensures PriorsPassed(store, Priors(Substrates))
    ensures StoredPassed(store, Substrates) ==> PriorsPassed(store, Priors(Consequence))
    ensures StoredPassed(store, Substrates) && StoredPassed(store, Consequence) ==> PriorsPassed(store, Priors(AsyncRecovery))
    ensures StoredPassed(store, Substrates) && StoredPassed(store, Consequence) && StoredPassed(store, AsyncRecovery) ==>
      PriorsPassed(store, Priors(BackupRestore))
    ensures
      (StoredPassed(store, Substrates) && StoredPassed(store, Consequence) && StoredPassed(store, AsyncRecovery)
       && StoredPassed(store, BackupRestore)) ==> PriorsPassed(store, Priors(Observability))
  {
  }

  lemma FirstFour(e: seq<Event>)
    requires e == INTERRUPTED
    ensures
      var store := StoreAfter(e[..4]);
      && StoredPassed(store, Substrates) && StoredPassed(store, Consequence)
      && StoredPassed(store, AsyncRecovery) && StoredPassed(store, BackupRestore)
    ensures Written(e, 1).passed
  {
    hide Drive, PriorsPassed, StoreAfter;
    FourPriors(StoreAfter(e[..0]));
    GoodPasses(StoreAfter(e[..0]), Substrates, 0, "a");
    StoreStep(e, 0);
    FourPriors(StoreAfter(e[..1]));
    GoodPasses(StoreAfter(e[..1]), Consequence, 1, "a");
    StoreStep(e, 1);
    FourPriors(StoreAfter(e[..2]));
    GoodPasses(StoreAfter(e[..2]), AsyncRecovery, 2, "a");
    StoreStep(e, 2);
    FourPriors(StoreAfter(e[..3]));
    GoodPasses(StoreAfter(e[..3]), BackupRestore, 3, "a");
    StoreStep(e, 3);
  }
}
