/**
 The Anthropic runtime policy: settings read from the environment with bounds and defaults, the
 live-smoke proof that a production-like runtime must carry, and the run that produces that proof.

 The JavaScript built-ins the code leans on (`Number`, `Date.parse`, `toISOString`, SHA-256) are the
 functions of a `Platform`; `Lawful` is what the language and the digest format promise of them.
 */
module AnthropicPolicy {
  import opened Wrappers
  import opened Text

  datatype Variable =
    | OutputTokens | TimeoutMs | MaxAttempts | RetryInitialDelay | RetryMaxDelay
    | ProofMaxAge | ProofDigest | ProofCheckedAt | ProofModel | ProofPurpose
    | NodeEnv | HaMode | RuntimeProfile | PublicHostname | PublicBaseUrl

  type Env = map<Variable, string>

  datatype Purpose = Reasoning | StructuredOutput | ToolRouting

  datatype Blocker =
    | InvalidSetting(variable: Variable)
    | InvalidRequestedTokens | RequestedTokensExceedBudget
    | ProofNotWired | InvalidProofDigest | CheckedAtMissing | CheckedAtInvalid | CheckedAtInFuture | ProofTooOld
    | ModelMissing | ModelMismatch | PurposeMissingOrInvalid | PurposeMismatch

  datatype ProofState = NotConfigured | Valid | Invalid | Stale

  datatype Evaluation = Evaluation(
    state: ProofState, proofDigest: Option<string>, checkedAt: Option<string>, model: Option<string>,
    purpose: Option<Purpose>, maxAgeMinutes: int, blockers: seq<Blocker>)

  datatype Policy = Policy(
    purpose: Purpose, timeoutMs: int, maxAttempts: int, retryInitialDelayMs: int, retryMaxDelayMs: int,
    maxOutputTokens: int, configuredMaxOutputTokens: int, productionLike: bool,
    liveSmokeProof: Evaluation, blockers: seq<Blocker>)

  datatype Platform = Platform(
    number: string -> Option<real>,
    parseDate: string -> Option<int>,
    isoText: int -> string,
    digest: string -> string)

  const MODEL := "claude-sonnet-4-6"
  const EXPECTED_OUTPUT := "ATTESTOR_ANTHROPIC_SMOKE_OK"
  const FUTURE_SKEW_MS := 5 * 60 * 1000
  const MINUTE_MS := 60 * 1000

  // ---------------------------------------------------------------- text

  predicate IsHex(c: char) {
    '0' <= c <= '9' || 'a' <= c <= 'f'
  }

  predicate IsDigest(s: string) {
    |s| == 71 && s[..7] == "sha256:" && forall i :: 7 <= i < 71 ==> IsHex(s[i])
  }

  lemma DigestIsPlain(s: string)
    requires IsDigest(s)
    ensures Plain(s)
  {
    assert s[0] == s[..7][0] == 's';
    assert IsHex(s[70]);
  }

  ghost predicate IsTime(t: int) {
    -8_640_000_000_000_000 <= t <= 8_640_000_000_000_000
  }

  /** What the language and the digest helper promise of the built-ins. */
  ghost predicate Lawful(p: Platform) {
    && (forall s :: p.parseDate(s).Some? ==> IsTime(p.parseDate(s).value))
    && (forall t :: IsTime(t) ==> Plain(p.isoText(t)) && p.parseDate(p.isoText(t)) == Some(t))
    && (forall m :: IsDigest(p.digest(m)))
  }

  // ---------------------------------------------------------------- settings

  datatype Limits = Limits(fallback: int, min: int, max: int)

  const TOKEN_LIMITS := Limits(16_000, 1, 64_000)
  const TIMEOUT_LIMITS := Limits(120_000, 1_000, 600_000)
  const ATTEMPT_LIMITS := Limits(2, 1, 4)
  const INITIAL_DELAY_LIMITS := Limits(1_000, 100, 60_000)
  const MAX_AGE_LIMITS := Limits(24 * 60, 1, 7 * 24 * 60)

  function MaxDelayLimits(initial: int): Limits {
    Limits(8_000, initial, 120_000)
  }

  /** A variable counts as configured when its trimmed value is nonempty. */
  function Configured(env: Env, v: Variable): Option<string> {
    if v in env && Trim(env[v]) != "" then Some(Trim(env[v])) else None
  }

  predicate IsInteger(x: real) {
    x == x.Floor as real
  }

  predicate InRange(p: Platform, raw: string, lim: Limits) {
    && p.number(raw).Some?
    && IsInteger(p.number(raw).value)
    && lim.min as real <= p.number(raw).value <= lim.max as real
  }

  predicate SettingOk(p: Platform, env: Env, v: Variable, lim: Limits) {
    Configured(env, v).Some? ==> InRange(p, Configured(env, v).value, lim)
  }

  function SettingValue(p: Platform, env: Env, v: Variable, lim: Limits): (value: int)
    ensures lim.min <= lim.fallback <= lim.max ==> lim.min <= value <= lim.max
  {
    if Configured(env, v).Some? && InRange(p, Configured(env, v).value, lim)
    then p.number(Configured(env, v).value).value.Floor
    else lim.fallback
  }

  /** The list of blockers that one evaluation accumulates and hands to the readers of its settings. */
  class BlockerList {
    var items: seq<Blocker>

    constructor ()
      ensures items == []
    {
      items := [];
    }

    method Push(b: Blocker)
      modifies this
      ensures items == old(items) + [b]
    {
      items := items + [b];
    }

    method PushAll(bs: seq<Blocker>)
      modifies this
      ensures items == old(items) + bs
    {
      items := items + bs;
    }
  }

  function When(condition: bool, b: Blocker): Option<Blocker> {
    if condition then Some(b) else None
  }

  function Add(bs: seq<Blocker>, issue: Option<Blocker>): (r: seq<Blocker>)
    ensures r == [] <==> bs == [] && issue.None?
    ensures forall b :: b in r <==> b in bs || issue == Some(b)
  {
    if issue.Some? then bs + [issue.value] else bs
  }

  function SettingIssue(p: Platform, env: Env, v: Variable, lim: Limits): Option<Blocker> {
    When(!SettingOk(p, env, v, lim), InvalidSetting(v))
  }

  method ReadBoundedInteger(p: Platform, env: Env, v: Variable, lim: Limits, blockers: BlockerList) returns (value: int)
    modifies blockers
    ensures value == SettingValue(p, env, v, lim)
    ensures blockers.items == Add(old(blockers.items), SettingIssue(p, env, v, lim))
  {
    var raw := Configured(env, v);
    if raw.None? {
      return lim.fallback;
    }
    var parsed := p.number(raw.value);
    if parsed.None? || !IsInteger(parsed.value) || parsed.value < lim.min as real || parsed.value > lim.max as real {
      blockers.Push(InvalidSetting(v));
      return lim.fallback;
    }
    return parsed.value.Floor;
  }

  // ---------------------------------------------------------------- the live-smoke gate

  function PurposeName(purpose: Purpose): string {
    match purpose
    case Reasoning => "reasoning"
    case StructuredOutput => "structured-output"
    case ToolRouting => "tool-routing"
  }

  function NormalizePurpose(raw: Option<string>): Option<Purpose> {
    if raw == Some("reasoning") then Some(Reasoning)
    else if raw == Some("structured-output") then Some(StructuredOutput)
    else if raw == Some("tool-routing") then Some(ToolRouting)
    else None
  }

  lemma NormalizePurposeInverts(raw: Option<string>, purpose: Purpose)
    ensures NormalizePurpose(raw) == Some(purpose) <==> raw == Some(PurposeName(purpose))
  {
    assert |"reasoning"| == 9 && |"structured-output"| == 17 && |"tool-routing"| == 12;
  }

  lemma NoPurposeConfigured()
    ensures NormalizePurpose(None) == None
  {
  }

  predicate AnyProofConfigured(env: Env) {
    || Configured(env, ProofDigest).Some? || Configured(env, ProofCheckedAt).Some?
    || Configured(env, ProofModel).Some? || Configured(env, ProofPurpose).Some?
  }

  function MaxAge(p: Platform, env: Env): int {
    SettingValue(p, env, ProofMaxAge, MAX_AGE_LIMITS)
  }

  function TimeOf(p: Platform, env: Env): (t: Option<int>)
    ensures t.Some? ==> Configured(env, ProofCheckedAt).Some?
  {
    match Configured(env, ProofCheckedAt)
    case None => None
    case Some(text) => p.parseDate(text)
  }

  function TimeIssue(p: Platform, env: Env, now: int): Option<Blocker> {
    if Configured(env, ProofCheckedAt).None? then None
    else match TimeOf(p, env)
      case None => Some(CheckedAtInvalid)
      case Some(t) =>
        if t - now > FUTURE_SKEW_MS then Some(CheckedAtInFuture)
        else When(now - t > MaxAge(p, env) * MINUTE_MS, ProofTooOld)
  }

  function ModelIssue(env: Env, model: string): Option<Blocker> {
    match Configured(env, ProofModel)
    case None => Some(ModelMissing)
    case Some(m) => When(m != model, ModelMismatch)
  }

  function PurposeIssue(env: Env, purpose: Purpose): Option<Blocker> {
    match NormalizePurpose(Configured(env, ProofPurpose))
    case None => Some(PurposeMissingOrInvalid)
    case Some(q) => When(q != purpose, PurposeMismatch)
  }

  predicate DigestConfigured(env: Env) {
    Configured(env, ProofDigest).Some? && IsDigest(Configured(env, ProofDigest).value)
  }

  function IdentityBlockers(bs: seq<Blocker>, env: Env, purpose: Purpose, model: string): seq<Blocker> {
    var digest := Add(bs, When(!DigestConfigured(env), InvalidProofDigest));
    var checkedAt := Add(digest, When(Configured(env, ProofCheckedAt).None?, CheckedAtMissing));
    Add(Add(checkedAt, ModelIssue(env, model)), PurposeIssue(env, purpose))
  }

  function SmokeBlockers(p: Platform, env: Env, purpose: Purpose, model: string, now: int): seq<Blocker> {
    var age := Add([], SettingIssue(p, env, ProofMaxAge, MAX_AGE_LIMITS));
    if !AnyProofConfigured(env) then age + [ProofNotWired] else
    Add(IdentityBlockers(age, env, purpose, model), TimeIssue(p, env, now))
  }

  function SmokeState(p: Platform, env: Env, purpose: Purpose, model: string, now: int): ProofState {
    if !AnyProofConfigured(env) then NotConfigured
    else if SmokeBlockers(p, env, purpose, model, now) == [] then Valid
    else if TimeIssue(p, env, now) == Some(ProofTooOld) then Stale
    else Invalid
  }

  function SmokeEvaluation(p: Platform, env: Env, purpose: Purpose, model: string, now: int): Evaluation {
    Evaluation(
      SmokeState(p, env, purpose, model, now), Configured(env, ProofDigest), Configured(env, ProofCheckedAt),
      Configured(env, ProofModel), NormalizePurpose(Configured(env, ProofPurpose)), MaxAge(p, env),
      SmokeBlockers(p, env, purpose, model, now))
  }

  method CheckIdentity(env: Env, purpose: Purpose, model: string, blockers: BlockerList)
    modifies blockers
    ensures blockers.items == IdentityBlockers(old(blockers.items), env, purpose, model)
  {
    hide IsDigest, Configured, NormalizePurpose;
    var digest, configuredModel := Configured(env, ProofDigest), Configured(env, ProofModel);
    var configuredPurpose := NormalizePurpose(Configured(env, ProofPurpose));
    ghost var start := blockers.items;
    if digest.None? || !IsDigest(digest.value) {
      blockers.Push(InvalidProofDigest);
    }
    assert blockers.items == Add(start, When(!DigestConfigured(env), InvalidProofDigest));
    ghost var digested := blockers.items;
    if Configured(env, ProofCheckedAt).None? {
      blockers.Push(CheckedAtMissing);
    }
    ghost var dated := blockers.items;
    assert dated == Add(digested, When(Configured(env, ProofCheckedAt).None?, CheckedAtMissing));
    if configuredModel.None? {
      blockers.Push(ModelMissing);
    } else if configuredModel.value != model {
      blockers.Push(ModelMismatch);
    }
    assert blockers.items == Add(dated, ModelIssue(env, model));
    if configuredPurpose.None? {
      blockers.Push(PurposeMissingOrInvalid);
    } else if configuredPurpose.value != purpose {
      blockers.Push(PurposeMismatch);
    }
  }

  method CheckFreshness(p: Platform, env: Env, maxAge: int, now: int, blockers: BlockerList) returns (state: ProofState)
    requires maxAge == MaxAge(p, env)
    modifies blockers
    ensures blockers.items == Add(old(blockers.items), TimeIssue(p, env, now))
    ensures state == if TimeIssue(p, env, now) == Some(ProofTooOld) then Stale else Invalid
  {
    hide Configured, MaxAge;
    state := Invalid;
    if Configured(env, ProofCheckedAt).Some? {
      var time := TimeOf(p, env);
      if time.None? {
        blockers.Push(CheckedAtInvalid);
      } else if time.value - now > FUTURE_SKEW_MS {
        blockers.Push(CheckedAtInFuture);
      } else if now - time.value > maxAge * MINUTE_MS {
        blockers.Push(ProofTooOld);
        state := Stale;
      }
    }
  }

  method EvaluateSmokeProof(p: Platform, env: Env, purpose: Purpose, model: string, now: int) returns (e: Evaluation)
    ensures e == SmokeEvaluation(p, env, purpose, model, now)
  {
    hide Configured, SettingIssue, SettingValue, NormalizePurpose, IdentityBlockers, TimeIssue;
    NoPurposeConfigured();
    var blockers := new BlockerList();
    var digest, checkedAt := Configured(env, ProofDigest), Configured(env, ProofCheckedAt);
    var configuredModel, rawPurpose := Configured(env, ProofModel), Configured(env, ProofPurpose);
    var maxAge := ReadBoundedInteger(p, env, ProofMaxAge, MAX_AGE_LIMITS, blockers);
    if digest.None? && checkedAt.None? && configuredModel.None? && rawPurpose.None? {
      blockers.Push(ProofNotWired);
      return Evaluation(NotConfigured, None, None, None, None, maxAge, blockers.items);
    }
    CheckIdentity(env, purpose, model, blockers);
    var state := CheckFreshness(p, env, maxAge, now, blockers);
    if |blockers.items| == 0 {
      state := Valid;
    }
    e := Evaluation(
      state, digest, checkedAt, configuredModel, NormalizePurpose(rawPurpose), maxAge, blockers.items);
  }

  /** The gate said outright: a digest, this model, this purpose, and a time within the window. */
  predicate GateAccepts(p: Platform, env: Env, purpose: Purpose, model: string, now: int) {
    && SettingOk(p, env, ProofMaxAge, MAX_AGE_LIMITS)
    && DigestConfigured(env)
    && Configured(env, ProofModel) == Some(model)
    && Configured(env, ProofPurpose) == Some(PurposeName(purpose))
    && TimeOf(p, env).Some?
    && InWindow(TimeOf(p, env).value, MaxAge(p, env), now)
  }

  predicate InWindow(checkedAt: int, maxAgeMinutes: int, now: int) {
    checkedAt - FUTURE_SKEW_MS <= now <= checkedAt + maxAgeMinutes * MINUTE_MS
  }

  lemma ValidMeansAccepted(p: Platform, env: Env, purpose: Purpose, model: string, now: int)
    ensures SmokeState(p, env, purpose, model, now) == Valid <==> GateAccepts(p, env, purpose, model, now)
    ensures SmokeState(p, env, purpose, model, now) == Valid <==> SmokeBlockers(p, env, purpose, model, now) == []
  {
    hide IsDigest, Trim, IsSpace, SettingOk;
    NormalizePurposeInverts(Configured(env, ProofPurpose), purpose);
  }

  // ---------------------------------------------------------------- the policy

  predicate Truthy(env: Env, v: Variable) {
    v in env && Lower(Trim(env[v])) in ["1", "true", "yes", "on"]
  }

  predicate ProductionLike(env: Env) {
    || (NodeEnv in env && Lower(Trim(env[NodeEnv])) == "production")
    || Truthy(env, HaMode)
    || (RuntimeProfile in env && Trim(env[RuntimeProfile]) == "production-shared")
    || Configured(env, PublicHostname).Some?
    || Configured(env, PublicBaseUrl).Some?
  }

  function InitialDelay(p: Platform, env: Env): int {
    SettingValue(p, env, RetryInitialDelay, INITIAL_DELAY_LIMITS)
  }

  function TokenBudget(p: Platform, env: Env): int {
    SettingValue(p, env, OutputTokens, TOKEN_LIMITS)
  }

  function TokenIssue(budget: int, requested: Option<real>): Option<Blocker> {
    if requested.None? then None
    else if !IsInteger(requested.value) || requested.value < 1.0 then Some(InvalidRequestedTokens)
    else When(requested.value > budget as real, RequestedTokensExceedBudget)
  }

  function PolicyBlockers(p: Platform, env: Env, purpose: Purpose, requested: Option<real>, now: int,
                          allowMissingProof: bool): seq<Blocker>
  {
    var tokens := Add([], SettingIssue(p, env, OutputTokens, TOKEN_LIMITS));
    var timeout := Add(tokens, SettingIssue(p, env, TimeoutMs, TIMEOUT_LIMITS));
    var attempts := Add(timeout, SettingIssue(p, env, MaxAttempts, ATTEMPT_LIMITS));
    var initial := Add(attempts, SettingIssue(p, env, RetryInitialDelay, INITIAL_DELAY_LIMITS));
    var maxDelay := Add(initial, SettingIssue(p, env, RetryMaxDelay, MaxDelayLimits(InitialDelay(p, env))));
    var requestedTokens := Add(maxDelay, TokenIssue(TokenBudget(p, env), requested));
    if ProductionLike(env) && !allowMissingProof && SmokeState(p, env, purpose, MODEL, now) != Valid
    then requestedTokens + SmokeBlockers(p, env, purpose, MODEL, now) else requestedTokens
  }

  function ResolvedPolicy(p: Platform, env: Env, purpose: Purpose, requested: Option<real>, now: int,
                          allowMissingProof: bool): Policy
  {
    var budget := TokenBudget(p, env);
    Policy(
      purpose,
      SettingValue(p, env, TimeoutMs, TIMEOUT_LIMITS),
      SettingValue(p, env, MaxAttempts, ATTEMPT_LIMITS),
      InitialDelay(p, env),
      SettingValue(p, env, RetryMaxDelay, MaxDelayLimits(InitialDelay(p, env))),
      if requested.Some? && TokenIssue(budget, requested).None? then requested.value.Floor else budget,
      budget,
      ProductionLike(env),
      SmokeEvaluation(p, env, purpose, MODEL, now),
      PolicyBlockers(p, env, purpose, requested, now, allowMissingProof))
  }

  method ResolvePolicy(p: Platform, env: Env, purpose: Purpose, requested: Option<real>, now: int,
                       allowMissingProof: bool) returns (policy: Policy)
    ensures policy == ResolvedPolicy(p, env, purpose, requested, now, allowMissingProof)
  {
    hide Trim, Lower, SmokeBlockers, SmokeState, SettingValue, SettingIssue, ProductionLike, Configured,
      ModelIssue, PurposeIssue, MaxAge, NormalizePurpose, AnyProofConfigured;
    var blockers := new BlockerList();
    var budget := ReadBoundedInteger(p, env, OutputTokens, TOKEN_LIMITS, blockers);
    var timeout := ReadBoundedInteger(p, env, TimeoutMs, TIMEOUT_LIMITS, blockers);
    var attempts := ReadBoundedInteger(p, env, MaxAttempts, ATTEMPT_LIMITS, blockers);
    var initial := ReadBoundedInteger(p, env, RetryInitialDelay, INITIAL_DELAY_LIMITS, blockers);
    var maxDelay := ReadBoundedInteger(p, env, RetryMaxDelay, MaxDelayLimits(initial), blockers);
    var tokens := budget;
    if requested.Some? {
      if !IsInteger(requested.value) || requested.value < 1.0 {
        blockers.Push(InvalidRequestedTokens);
      } else if requested.value > budget as real {
        blockers.Push(RequestedTokensExceedBudget);
      } else {
        tokens := requested.value.Floor;
      }
    }
    var proof := EvaluateSmokeProof(p, env, purpose, MODEL, now);
    var productionLike := ProductionLike(env);
    if productionLike && !allowMissingProof && proof.state != Valid {
      blockers.PushAll(proof.blockers);
    }
    policy := Policy(purpose, timeout, attempts, initial, maxDelay, tokens, budget, productionLike, proof, blockers.items);
  }

  /** What the retry loop may rely on. */
  predicate WellBounded(policy: Policy) {
    && 1_000 <= policy.timeoutMs <= 600_000
    && 1 <= policy.maxAttempts <= 4
    && 100 <= policy.retryInitialDelayMs <= 60_000
    && 100 <= policy.retryMaxDelayMs <= 120_000
    && 1 <= policy.maxOutputTokens <= policy.configuredMaxOutputTokens <= 64_000
  }

  /** Blocked or not, every resolved policy keeps its numbers within the documented limits. */
  lemma PolicyBounded(p: Platform, env: Env, purpose: Purpose, requested: Option<real>, now: int, allow: bool)
    ensures WellBounded(ResolvedPolicy(p, env, purpose, requested, now, allow))
  {
    hide Trim, SmokeBlockers, SmokeState, ProductionLike, Configured;
    var lim := MaxDelayLimits(InitialDelay(p, env));
    if Configured(env, RetryMaxDelay).Some? && InRange(p, Configured(env, RetryMaxDelay).value, lim) {
      assert SettingValue(p, env, RetryMaxDelay, lim) as real == p.number(Configured(env, RetryMaxDelay).value).value;
    }
  }

  /** The exact condition under which the first delay stays within the cap. */
  lemma InitialWithinMax(p: Platform, env: Env, purpose: Purpose, requested: Option<real>, now: int, allow: bool)
    ensures
      var policy := ResolvedPolicy(p, env, purpose, requested, now, allow);
      policy.retryInitialDelayMs <= policy.retryMaxDelayMs <==>
      || policy.retryInitialDelayMs <= 8_000
      || (Configured(env, RetryMaxDelay).Some?
          && InRange(p, Configured(env, RetryMaxDelay).value, MaxDelayLimits(InitialDelay(p, env))))
  {
    hide Trim, SmokeBlockers, SmokeState, ProductionLike, Configured, PolicyBlockers;
    var lim := MaxDelayLimits(InitialDelay(p, env));
    if Configured(env, RetryMaxDelay).Some? && InRange(p, Configured(env, RetryMaxDelay).value, lim) {
      assert SettingValue(p, env, RetryMaxDelay, lim) as real == p.number(Configured(env, RetryMaxDelay).value).value;
    }
  }

  /** A legal initial delay of a minute, with no cap configured, gives an unblocked policy capped at eight seconds. */
  lemma InitialAboveMax(p: Platform, raw: string, purpose: Purpose, now: int)
    requires Plain(raw) && p.number(raw) == Some(60_000.0)
    ensures
      var policy := ResolvedPolicy(p, map[RetryInitialDelay := raw], purpose, None, now, false);
      policy.blockers == [] && policy.retryInitialDelayMs == 60_000 && policy.retryMaxDelayMs == 8_000
  {
    hide SmokeBlockers, SmokeState;
    var env: Env := map[RetryInitialDelay := raw];
    assert Trim(raw) == raw;
    assert InRange(p, raw, INITIAL_DELAY_LIMITS);
  }

  predicate SettingsOk(p: Platform, env: Env) {
    && SettingOk(p, env, OutputTokens, TOKEN_LIMITS)
    && SettingOk(p, env, TimeoutMs, TIMEOUT_LIMITS)
    && SettingOk(p, env, MaxAttempts, ATTEMPT_LIMITS)
    && SettingOk(p, env, RetryInitialDelay, INITIAL_DELAY_LIMITS)
    && SettingOk(p, env, RetryMaxDelay, MaxDelayLimits(InitialDelay(p, env)))
  }

  predicate TokensOk(p: Platform, env: Env, requested: Option<real>) {
    requested.Some? ==>
      IsInteger(requested.value) && 1.0 <= requested.value <= TokenBudget(p, env) as real
  }

  /** A call is let through exactly when settings and request are legal and, in production, the gate accepts. */
  lemma PolicyUnblocked(p: Platform, env: Env, purpose: Purpose, requested: Option<real>, now: int, allow: bool)
    ensures ResolvedPolicy(p, env, purpose, requested, now, allow).blockers == [] <==>
      && SettingsOk(p, env)
      && TokensOk(p, env, requested)
      && (ProductionLike(env) && !allow ==> GateAccepts(p, env, purpose, MODEL, now))
  {
    hide Trim, SmokeBlockers, SmokeState, SettingOk, SettingValue, ProductionLike, GateAccepts;
    ValidMeansAccepted(p, env, purpose, MODEL, now);
  }

  // ---------------------------------------------------------------- the policy over the raw environment

  /** None of the four proof variables holds anything but white space. */
  predicate Unproved(env: Env) {
    && (ProofDigest in env ==> Trim(env[ProofDigest]) == "") && (ProofCheckedAt in env ==> Trim(env[ProofCheckedAt]) == "")
    && (ProofModel in env ==> Trim(env[ProofModel]) == "") && (ProofPurpose in env ==> Trim(env[ProofPurpose]) == "")
  }

  /**
   Without a proof and without the override, a call is let through if and only if nothing in the environment marks a
   production runtime.
   */
  lemma UnprovedMeans(p: Platform, env: Env, purpose: Purpose, requested: Option<real>, now: int)
    requires Unproved(env) && SettingsOk(p, env) && TokensOk(p, env, requested)
    ensures ResolvedPolicy(p, env, purpose, requested, now, false).blockers == [] <==>
      && !(NodeEnv in env && Lower(Trim(env[NodeEnv])) == "production")
      && !(HaMode in env && Lower(Trim(env[HaMode])) in ["1", "true", "yes", "on"])
      && !(RuntimeProfile in env && Trim(env[RuntimeProfile]) == "production-shared")
      && !(PublicHostname in env && Trim(env[PublicHostname]) != "")
      && !(PublicBaseUrl in env && Trim(env[PublicBaseUrl]) != "")
  {
    hide Trim, Lower, SettingsOk, TokensOk, ResolvedPolicy, SettingOk;
    PolicyUnblocked(p, env, purpose, requested, now, false);
    assert !DigestConfigured(env);
  }

  lemma NothingSet(p: Platform, env: Env, v: Variable, lim: Limits)
    requires v !in env
    ensures Configured(env, v) == None && SettingValue(p, env, v, lim) == lim.fallback && SettingIssue(p, env, v, lim) == None
  {
  }

  lemma NodeEnvAloneBlocks(p: Platform, text: string, purpose: Purpose, now: int)
    requires Lower(Trim(text)) == "production"
    ensures ResolvedPolicy(p, map[NodeEnv := text], purpose, None, now, false).blockers == [ProofNotWired]
  {
    AloneBlocks(p, NodeEnv, text, purpose, now);
  }

  lemma HaModeAloneBlocks(p: Platform, text: string, purpose: Purpose, now: int)
    requires Lower(Trim(text)) in ["1", "true", "yes", "on"]
    ensures ResolvedPolicy(p, map[HaMode := text], purpose, None, now, false).blockers == [ProofNotWired]
  {
    AloneBlocks(p, HaMode, text, purpose, now);
  }

  lemma RuntimeProfileAloneBlocks(p: Platform, text: string, purpose: Purpose, now: int)
    requires Trim(text) == "production-shared"
    ensures ResolvedPolicy(p, map[RuntimeProfile := text], purpose, None, now, false).blockers == [ProofNotWired]
  {
    AloneBlocks(p, RuntimeProfile, text, purpose, now);
  }

  lemma PublicHostnameAloneBlocks(p: Platform, text: string, purpose: Purpose, now: int)
    requires Trim(text) != ""
    ensures ResolvedPolicy(p, map[PublicHostname := text], purpose, None, now, false).blockers == [ProofNotWired]
  {
    AloneBlocks(p, PublicHostname, text, purpose, now);
  }

  lemma PublicBaseUrlAloneBlocks(p: Platform, text: string, purpose: Purpose, now: int)
    requires Trim(text) != ""
    ensures ResolvedPolicy(p, map[PublicBaseUrl := text], purpose, None, now, false).blockers == [ProofNotWired]
  {
    AloneBlocks(p, PublicBaseUrl, text, purpose, now);
  }

  lemma AloneBlocks(p: Platform, v: Variable, text: string, purpose: Purpose, now: int)
    requires v in [NodeEnv, HaMode, RuntimeProfile, PublicHostname, PublicBaseUrl]
    ensures ProductionLike(map[v := text]) ==>
      ResolvedPolicy(p, map[v := text], purpose, None, now, false).blockers == [ProofNotWired]
  {
    hide ProductionLike, Trim, InRange;
    var env: Env := map[v := text];
    NothingSet(p, env, OutputTokens, TOKEN_LIMITS);
    NothingSet(p, env, TimeoutMs, TIMEOUT_LIMITS);
    NothingSet(p, env, MaxAttempts, ATTEMPT_LIMITS);
    NothingSet(p, env, RetryInitialDelay, INITIAL_DELAY_LIMITS);
    NothingSet(p, env, RetryMaxDelay, MaxDelayLimits(InitialDelay(p, env)));
    NothingSet(p, env, ProofMaxAge, MAX_AGE_LIMITS);
    assert SmokeBlockers(p, env, purpose, MODEL, now) == [ProofNotWired];
  }

  /** The text says a whole number from `min` to `max`. */
  predicate Says(p: Platform, text: string, n: int, min: int, max: int) {
    p.number(Trim(text)) == Some(n as real) && min <= n <= max
  }

  predicate Blank(env: Env, v: Variable) {
    v in env ==> Trim(env[v]) == ""
  }

  /** One number of the policy: the default where nothing is set, the number where it is legal, else the default and a blocker. */
  ghost predicate ReadAs(p: Platform, env: Env, v: Variable, value: int, blockers: seq<Blocker>, fallback: int, min: int, max: int) {
    if Blank(env, v) then value == fallback && InvalidSetting(v) !in blockers
    else if exists n :: Says(p, env[v], n, min, max) then Says(p, env[v], value, min, max) && InvalidSetting(v) !in blockers
    else value == fallback && InvalidSetting(v) in blockers
  }

  lemma SettingReads(p: Platform, env: Env, v: Variable, lim: Limits)
    ensures Blank(env, v) ==> SettingValue(p, env, v, lim) == lim.fallback && SettingOk(p, env, v, lim)
    ensures !Blank(env, v) && (exists n :: Says(p, env[v], n, lim.min, lim.max)) ==>
      Says(p, env[v], SettingValue(p, env, v, lim), lim.min, lim.max) && SettingOk(p, env, v, lim)
    ensures !Blank(env, v) && !(exists n :: Says(p, env[v], n, lim.min, lim.max)) ==>
      SettingValue(p, env, v, lim) == lim.fallback && !SettingOk(p, env, v, lim)
  {
    hide Trim;
    if !Blank(env, v) {
      var raw := Trim(env[v]);
      if n :| Says(p, env[v], n, lim.min, lim.max) {
        WholeFloor(n);
      }
      if InRange(p, raw, lim) {
        assert Says(p, env[v], p.number(raw).value.Floor, lim.min, lim.max) by { RangeFloor(p.number(raw).value, lim.min, lim.max); }
      }
    }
  }

  lemma WholeFloor(n: int)
    ensures (n as real).Floor == n && IsInteger(n as real)
  {
  }

  lemma RangeFloor(x: real, min: int, max: int)
    requires IsInteger(x) && min as real <= x <= max as real
    ensures min <= x.Floor <= max && x.Floor as real == x
  {
  }

  function LimitsOf(p: Platform, env: Env, v: Variable): Limits {
    match v
    case OutputTokens => TOKEN_LIMITS
    case TimeoutMs => TIMEOUT_LIMITS
    case MaxAttempts => ATTEMPT_LIMITS
    case RetryInitialDelay => INITIAL_DELAY_LIMITS
    case _ => MaxDelayLimits(InitialDelay(p, env))
  }

  const SETTINGS := [OutputTokens, TimeoutMs, MaxAttempts, RetryInitialDelay, RetryMaxDelay]

  /** Which blockers a policy carries. */
  lemma PolicyBlockersHold(p: Platform, env: Env, purpose: Purpose, requested: Option<real>, now: int, allow: bool, b: Blocker)
    ensures b in PolicyBlockers(p, env, purpose, requested, now, allow) <==>
      || (b.InvalidSetting? && b.variable in SETTINGS && !SettingOk(p, env, b.variable, LimitsOf(p, env, b.variable)))
      || TokenIssue(TokenBudget(p, env), requested) == Some(b)
      || (ProductionLike(env) && !allow && SmokeState(p, env, purpose, MODEL, now) != Valid && b in SmokeBlockers(p, env, purpose, MODEL, now))
  {
    hide Add, SettingOk, SettingValue, ProductionLike, SmokeState, SmokeBlockers, TokenIssue;
  }

  /** What the smoke gate never complains of. */
  lemma SmokeNeverBlames(p: Platform, env: Env, purpose: Purpose, now: int, b: Blocker)
    requires b in SmokeBlockers(p, env, purpose, MODEL, now)
    ensures b.InvalidSetting? ==> b.variable == ProofMaxAge
    ensures b != InvalidRequestedTokens && b != RequestedTokensExceedBudget
  {
    hide Add, Configured, SettingOk, MaxAge, NormalizePurpose, DigestConfigured, AnyProofConfigured;
  }

  /** A setting is blocked in the policy exactly where its own check fails. */
  lemma SettingBlocked(p: Platform, env: Env, purpose: Purpose, requested: Option<real>, now: int, allow: bool, v: Variable)
    requires v in SETTINGS
    ensures InvalidSetting(v) in ResolvedPolicy(p, env, purpose, requested, now, allow).blockers <==>
      !SettingOk(p, env, v, LimitsOf(p, env, v))
  {
    hide SettingOk, SettingValue, ProductionLike, SmokeState, SmokeBlockers, PolicyBlockers, LimitsOf;
    PolicyBlockersHold(p, env, purpose, requested, now, allow, InvalidSetting(v));
    if InvalidSetting(v) in SmokeBlockers(p, env, purpose, MODEL, now) {
      SmokeNeverBlames(p, env, purpose, now, InvalidSetting(v));
    }
  }

  /** The five numbers of every policy, with their defaults and limits. */
  lemma PolicyReads(p: Platform, env: Env, purpose: Purpose, requested: Option<real>, now: int, allow: bool)
    ensures
      var policy := ResolvedPolicy(p, env, purpose, requested, now, allow);
      && ReadAs(p, env, OutputTokens, policy.configuredMaxOutputTokens, policy.blockers, 16_000, 1, 64_000)
      && ReadAs(p, env, TimeoutMs, policy.timeoutMs, policy.blockers, 120_000, 1_000, 600_000)
      && ReadAs(p, env, MaxAttempts, policy.maxAttempts, policy.blockers, 2, 1, 4)
      && ReadAs(p, env, RetryInitialDelay, policy.retryInitialDelayMs, policy.blockers, 1_000, 100, 60_000)
      && ReadAs(p, env, RetryMaxDelay, policy.retryMaxDelayMs, policy.blockers, 8_000, policy.retryInitialDelayMs, 120_000)
  {
    hide Blank, Says, SettingOk, SettingValue, ProductionLike, SmokeState, SmokeBlockers, PolicyBlockers, TokenIssue, SmokeEvaluation;
    SettingReads(p, env, OutputTokens, TOKEN_LIMITS);
    SettingReads(p, env, TimeoutMs, TIMEOUT_LIMITS);
    SettingReads(p, env, MaxAttempts, ATTEMPT_LIMITS);
    SettingReads(p, env, RetryInitialDelay, INITIAL_DELAY_LIMITS);
    SettingReads(p, env, RetryMaxDelay, MaxDelayLimits(InitialDelay(p, env)));
    SettingBlocked(p, env, purpose, requested, now, allow, OutputTokens);
    SettingBlocked(p, env, purpose, requested, now, allow, TimeoutMs);
    SettingBlocked(p, env, purpose, requested, now, allow, MaxAttempts);
    SettingBlocked(p, env, purpose, requested, now, allow, RetryInitialDelay);
    SettingBlocked(p, env, purpose, requested, now, allow, RetryMaxDelay);
  }

  predicate WholeWithin(x: real, budget: int) {
    x == x.Floor as real && 1.0 <= x <= budget as real
  }

  /** The tokens granted: those requested where they are a whole number within the configured budget, else the budget and a blocker. */
  lemma TokensGranted(p: Platform, env: Env, purpose: Purpose, requested: Option<real>, now: int, allow: bool)
    ensures
      var policy := ResolvedPolicy(p, env, purpose, requested, now, allow);
      var budget := policy.configuredMaxOutputTokens;
      && (requested.None? ==> policy.maxOutputTokens == budget)
      && (requested.Some? && WholeWithin(requested.value, budget) ==> policy.maxOutputTokens as real == requested.value)
      && (requested.Some? && !WholeWithin(requested.value, budget) ==> policy.maxOutputTokens == budget)
      && (InvalidRequestedTokens in policy.blockers <==>
          requested.Some? && (requested.value != requested.value.Floor as real || requested.value < 1.0))
      && (RequestedTokensExceedBudget in policy.blockers <==>
          requested.Some? && requested.value == requested.value.Floor as real && requested.value >= 1.0 && requested.value > budget as real)
  {
    hide SettingOk, SettingValue, ProductionLike, SmokeState, SmokeBlockers, PolicyBlockers;
    PolicyBlockersHold(p, env, purpose, requested, now, allow, InvalidRequestedTokens);
    PolicyBlockersHold(p, env, purpose, requested, now, allow, RequestedTokensExceedBudget);
    if InvalidRequestedTokens in SmokeBlockers(p, env, purpose, MODEL, now) {
      SmokeNeverBlames(p, env, purpose, now, InvalidRequestedTokens);
    }
    if RequestedTokensExceedBudget in SmokeBlockers(p, env, purpose, MODEL, now) {
      SmokeNeverBlames(p, env, purpose, now, RequestedTokensExceedBudget);
    }
  }

  // ---------------------------------------------------------------- the gate over the raw environment

  /** What the variable holds, white space at its ends aside. */
  predicate Holds(env: Env, v: Variable, text: string) {
    v in env && Trim(env[v]) == text && text != ""
  }

  lemma DigestMeans(s: string)
    ensures Sha256Text(s) <==> IsDigest(s)
  {
    hide Sha256Text;
    Sha256Means(s);
  }

  /** How many minutes a proof stays fresh: a day, unless a whole number of minutes up to a week is set. */
  ghost predicate FreshFor(p: Platform, env: Env, minutes: int) {
    if Blank(env, ProofMaxAge) then minutes == 1_440 else Says(p, env[ProofMaxAge], minutes, 1, 10_080)
  }

  /** When the proof was made. */
  ghost predicate ProvedAt(p: Platform, env: Env, t: int) {
    exists text :: Holds(env, ProofCheckedAt, text) && p.parseDate(text) == Some(t)
  }

  /** The purpose as it is written in the environment. */
  predicate PurposeText(purpose: Purpose, text: string) {
    text == match purpose case Reasoning => "reasoning" case StructuredOutput => "structured-output" case ToolRouting => "tool-routing"
  }

  /** The proof in the environment is one for this purpose and model, and now lies from five minutes before it to its age limit. */
  ghost predicate Proved(p: Platform, env: Env, purpose: Purpose, model: string, now: int) {
    && (exists d :: Holds(env, ProofDigest, d) && Sha256Text(d))
    && Holds(env, ProofModel, model)
    && (exists text :: Holds(env, ProofPurpose, text) && PurposeText(purpose, text))
    && exists t, minutes :: ProvedAt(p, env, t) && FreshFor(p, env, minutes) && t - 300_000 <= now <= t + minutes * 60_000
  }

  lemma FreshForMeans(p: Platform, env: Env, minutes: int)
    ensures FreshFor(p, env, minutes) <==> SettingOk(p, env, ProofMaxAge, MAX_AGE_LIMITS) && minutes == MaxAge(p, env)
  {
    hide Says, SettingOk, SettingValue, Trim;
    SettingReads(p, env, ProofMaxAge, MAX_AGE_LIMITS);
    if !Blank(env, ProofMaxAge) {
      SaysOne(p, env[ProofMaxAge], minutes, MaxAge(p, env), 1, 10_080);
    }
  }

  lemma SaysOne(p: Platform, text: string, m: int, n: int, min: int, max: int)
    ensures Says(p, text, m, min, max) && Says(p, text, n, min, max) ==> m == n
  {
    if Says(p, text, m, min, max) && Says(p, text, n, min, max) {
      WholeFloor(m);
      WholeFloor(n);
    }
  }

  lemma ProvedAtMeans(p: Platform, env: Env, t: int)
    ensures ProvedAt(p, env, t) <==> TimeOf(p, env) == Some(t)
  {
    hide Trim;
    if TimeOf(p, env) == Some(t) {
      assert Holds(env, ProofCheckedAt, Trim(env[ProofCheckedAt]));
    }
  }

  /** The gate over the raw environment, for every environment, purpose, model and time. */
  lemma ProvedMeans(p: Platform, env: Env, purpose: Purpose, model: string, now: int)
    requires model != ""
    ensures SmokeState(p, env, purpose, model, now) == Valid <==> Proved(p, env, purpose, model, now)
  {
    hide SmokeState, SmokeBlockers, Trim, IsDigest, Sha256Text, FreshFor, SettingOk, MaxAge, TimeOf, ProvedAt;
    ValidMeansAccepted(p, env, purpose, model, now);
    forall d ensures Sha256Text(d) <==> IsDigest(d) { DigestMeans(d); }
    forall t ensures ProvedAt(p, env, t) <==> TimeOf(p, env) == Some(t) { ProvedAtMeans(p, env, t); }
    forall minutes ensures FreshFor(p, env, minutes) <==> SettingOk(p, env, ProofMaxAge, MAX_AGE_LIMITS) && minutes == MaxAge(p, env) {
      FreshForMeans(p, env, minutes);
    }
    assert DigestConfigured(env) <==> exists d :: Holds(env, ProofDigest, d) && Sha256Text(d) by {
      if DigestConfigured(env) { assert Holds(env, ProofDigest, Trim(env[ProofDigest])); }
    }
    assert Configured(env, ProofPurpose) == Some(PurposeName(purpose)) <==> (exists text :: Holds(env, ProofPurpose, text) && PurposeText(purpose, text)) by {
      assert PurposeText(purpose, PurposeName(purpose)) && PurposeName(purpose) != "";
      assert forall text :: PurposeText(purpose, text) ==> text == PurposeName(purpose);
      if Configured(env, ProofPurpose) == Some(PurposeName(purpose)) { assert Holds(env, ProofPurpose, PurposeName(purpose)); }
    }
    if GateAccepts(p, env, purpose, model, now) {
      assert ProvedAt(p, env, TimeOf(p, env).value) && FreshFor(p, env, MaxAge(p, env));
    }
  }

  /** What the gate reports, blocker by blocker and in order, for an environment that holds any part of a proof. */
  lemma SmokeBlockersMean(p: Platform, env: Env, purpose: Purpose, model: string, now: int)
    ensures
      var age := Given(!SettingOk(p, env, ProofMaxAge, MAX_AGE_LIMITS), InvalidSetting(ProofMaxAge));
      SmokeBlockers(p, env, purpose, model, now) ==
        if Unproved(env) then age + [ProofNotWired]
        else
          age
          + Given(!DigestConfigured(env), InvalidProofDigest)
          + Given(Blank(env, ProofCheckedAt), CheckedAtMissing)
          + ModelReport(env, model)
          + PurposeReport(env, purpose)
          + TimeReport(p, env, now)
  {
    hide Add, Given, DigestConfigured, SettingOk, ModelIssue, PurposeIssue, TimeIssue, PurposeReport, TimeReport, ModelReport, Unproved, AnyProofConfigured, Blank;
    var age := Given(!SettingOk(p, env, ProofMaxAge, MAX_AGE_LIMITS), InvalidSetting(ProofMaxAge));
    AddIs([], !SettingOk(p, env, ProofMaxAge, MAX_AGE_LIMITS), InvalidSetting(ProofMaxAge));
    assert [] + age == age;
    UnprovedIs(env);
    CheckedAtReported(env);
    ModelReported(env, model);
    PurposeReported(env, purpose);
    TimeReported(p, env, now);
    AddIs(age, !DigestConfigured(env), InvalidProofDigest);
    var b1 := age + Given(!DigestConfigured(env), InvalidProofDigest);
    AddIs(b1, Configured(env, ProofCheckedAt).None?, CheckedAtMissing);
    var b2 := b1 + Given(Blank(env, ProofCheckedAt), CheckedAtMissing);
    AddReport(b2, ModelIssue(env, model));
    var b3 := b2 + ModelReport(env, model);
    AddReport(b3, PurposeIssue(env, purpose));
    var b4 := b3 + PurposeReport(env, purpose);
    AddReport(b4, TimeIssue(p, env, now));
  }

  /** All blockers of a policy in order: the settings, the requested tokens, and in production the gate's. */
  lemma PolicyBlockersMean(p: Platform, env: Env, purpose: Purpose, requested: Option<real>, now: int, allow: bool)
    ensures PolicyBlockers(p, env, purpose, requested, now, allow) ==
      Given(!SettingOk(p, env, OutputTokens, TOKEN_LIMITS), InvalidSetting(OutputTokens))
      + Given(!SettingOk(p, env, TimeoutMs, TIMEOUT_LIMITS), InvalidSetting(TimeoutMs))
      + Given(!SettingOk(p, env, MaxAttempts, ATTEMPT_LIMITS), InvalidSetting(MaxAttempts))
      + Given(!SettingOk(p, env, RetryInitialDelay, INITIAL_DELAY_LIMITS), InvalidSetting(RetryInitialDelay))
      + Given(!SettingOk(p, env, RetryMaxDelay, MaxDelayLimits(InitialDelay(p, env))), InvalidSetting(RetryMaxDelay))
      + (match TokenIssue(TokenBudget(p, env), requested) case Some(b) => [b] case None => [])
      + (if ProductionLike(env) && !allow then SmokeBlockers(p, env, purpose, MODEL, now) else [])
  {
    hide Add, Given, SettingOk, SettingValue, ProductionLike, SmokeState, SmokeBlockers, TokenIssue, When;
    forall bs, c, b ensures Add(bs, When(c, b)) == bs + Given(c, b) { AddIs(bs, c, b); }
    var first := Given(!SettingOk(p, env, OutputTokens, TOKEN_LIMITS), InvalidSetting(OutputTokens));
    assert [] + first == first;
    var settings := first
      + Given(!SettingOk(p, env, TimeoutMs, TIMEOUT_LIMITS), InvalidSetting(TimeoutMs))
      + Given(!SettingOk(p, env, MaxAttempts, ATTEMPT_LIMITS), InvalidSetting(MaxAttempts))
      + Given(!SettingOk(p, env, RetryInitialDelay, INITIAL_DELAY_LIMITS), InvalidSetting(RetryInitialDelay))
      + Given(!SettingOk(p, env, RetryMaxDelay, MaxDelayLimits(InitialDelay(p, env))), InvalidSetting(RetryMaxDelay));
    AddReport(settings, TokenIssue(TokenBudget(p, env), requested));
    ValidReportsNothing(p, env, purpose, now);
    var all := settings + match TokenIssue(TokenBudget(p, env), requested) case Some(b) => [b] case None => [];
    assert all + [] == all;
  }

  lemma ValidReportsNothing(p: Platform, env: Env, purpose: Purpose, now: int)
    ensures SmokeState(p, env, purpose, MODEL, now) == Valid ==> SmokeBlockers(p, env, purpose, MODEL, now) == []
  {
    hide SmokeBlockers, GateAccepts;
    ValidMeansAccepted(p, env, purpose, MODEL, now);
  }

  lemma UnprovedIs(env: Env)
    ensures Unproved(env) <==> !AnyProofConfigured(env)
  {
    hide Trim;
  }

  lemma CheckedAtReported(env: Env)
    ensures Configured(env, ProofCheckedAt).None? <==> Blank(env, ProofCheckedAt)
  {
    hide Trim;
  }

  function ModelReport(env: Env, model: string): seq<Blocker> {
    if Blank(env, ProofModel) then [ModelMissing] else if Trim(env[ProofModel]) == model then [] else [ModelMismatch]
  }

  lemma ModelReported(env: Env, model: string)
    ensures ModelReport(env, model) == match ModelIssue(env, model) case Some(b) => [b] case None => []
  {
    hide Trim;
  }

  lemma AddReport(bs: seq<Blocker>, issue: Option<Blocker>)
    ensures Add(bs, issue) == bs + match issue case Some(b) => [b] case None => []
  {
  }

  function PurposeReport(env: Env, purpose: Purpose): seq<Blocker> {
    if Blank(env, ProofPurpose) || Trim(env[ProofPurpose]) !in ["reasoning", "structured-output", "tool-routing"] then [PurposeMissingOrInvalid]
    else if PurposeText(purpose, Trim(env[ProofPurpose])) then []
    else [PurposeMismatch]
  }

  function TimeReport(p: Platform, env: Env, now: int): seq<Blocker> {
    if Blank(env, ProofCheckedAt) then []
    else match p.parseDate(Trim(env[ProofCheckedAt]))
      case None => [CheckedAtInvalid]
      case Some(t) =>
        if t > now + 300_000 then [CheckedAtInFuture] else if now > t + MaxAge(p, env) * 60_000 then [ProofTooOld] else []
  }

  lemma AddIs(bs: seq<Blocker>, c: bool, b: Blocker)
    ensures Add(bs, When(c, b)) == bs + Given(c, b)
  {
  }

  lemma PurposeReported(env: Env, purpose: Purpose)
    ensures PurposeReport(env, purpose) == match PurposeIssue(env, purpose) case Some(b) => [b] case None => []
  {
    hide Trim;
    NormalizePurposeInverts(Configured(env, ProofPurpose), purpose);
    NormalizePurposeInverts(Configured(env, ProofPurpose), Reasoning);
    NormalizePurposeInverts(Configured(env, ProofPurpose), StructuredOutput);
    NormalizePurposeInverts(Configured(env, ProofPurpose), ToolRouting);
  }

  lemma TimeReported(p: Platform, env: Env, now: int)
    ensures TimeReport(p, env, now) == match TimeIssue(p, env, now) case Some(b) => [b] case None => []
  {
    hide Trim, MaxAge;
  }

  /** The state of the gate: not configured, valid, stale or invalid. */
  lemma SmokeStateMeans(p: Platform, env: Env, purpose: Purpose, model: string, now: int)
    ensures SmokeState(p, env, purpose, model, now) == NotConfigured <==> Unproved(env)
    ensures SmokeState(p, env, purpose, model, now) == Stale <==> !Unproved(env) && TimeReport(p, env, now) == [ProofTooOld]
    ensures !Unproved(env) ==> (SmokeState(p, env, purpose, model, now) == Valid <==> SmokeBlockers(p, env, purpose, model, now) == [])
  {
    hide Trim, MaxAge, Add, IdentityBlockers, SettingIssue;
    TimeReported(p, env, now);
  }

  // ---------------------------------------------------------------- producing the proof

  datatype Block = TextBlock(text: string) | ToolUseBlock

  datatype Proof = Proof(checkedAt: string, configuredModel: string, purpose: string, proofDigest: string)

  datatype ProofError = BadTimestamp | PolicyBlocked(blockers: seq<Blocker>) | ClientFailed | UnexpectedOutput

  function JoinText(blocks: seq<Block>): string {
    if blocks == [] then ""
    else (match blocks[0] case TextBlock(text) => text case ToolUseBlock => "") + JoinText(blocks[1..])
  }

  /**
   `reply` is what the client returned (nothing when it threw), `material` the canonical text of the
   proof's fields, whose digest names the proof.
   */
  function RunLiveSmokeProof(p: Platform, env: Env, checkedAt: string, reply: Option<seq<Block>>, material: string)
    : Result<Proof, ProofError>
  {
    match p.parseDate(checkedAt)
    case None => Err(BadTimestamp)
    case Some(t) =>
      var policy := ResolvedPolicy(p, env, Reasoning, Some(64.0), t, true);
      if policy.blockers != [] then Err(PolicyBlocked(policy.blockers))
      else if reply.None? then Err(ClientFailed)
      else if Trim(JoinText(reply.value)) != EXPECTED_OUTPUT then Err(UnexpectedOutput)
      else Ok(Proof(p.isoText(t), MODEL, "reasoning", p.digest(material)))
  }

  /**
   A smoke run succeeds if and only if its time can be read, the settings are legal with room for 64 tokens, and the reply
   is the expected word; its proof then names that time, the model, the purpose and the digest of the material.
   */
  lemma SmokeRunMeans(p: Platform, env: Env, checkedAt: string, reply: Option<seq<Block>>, material: string)
    ensures
      var r := RunLiveSmokeProof(p, env, checkedAt, reply, material);
      && (r.Ok? <==>
          && p.parseDate(checkedAt).Some? && SettingsOk(p, env) && 64 <= TokenBudget(p, env)
          && reply.Some? && Trim(JoinText(reply.value)) == "ATTESTOR_ANTHROPIC_SMOKE_OK")
      && (r.Ok? ==>
          r.value == Proof(p.isoText(p.parseDate(checkedAt).value), "claude-sonnet-4-6", "reasoning", p.digest(material)))
  {
    hide ResolvedPolicy, SettingsOk, TokenBudget, GateAccepts, Trim, JoinText;
    if p.parseDate(checkedAt).Some? {
      PolicyUnblocked(p, env, Reasoning, Some(64.0), p.parseDate(checkedAt).value, true);
      assert TokensOk(p, env, Some(64.0)) <==> 64 <= TokenBudget(p, env);
    }
  }

  /** The text of a reply is that of its text blocks, one after the other. */
  lemma {:induction false} JoinedText(a: seq<Block>, b: Block)
    ensures JoinText(a + [b]) == JoinText(a) + match b case TextBlock(text) => text case ToolUseBlock => ""
    ensures JoinText([]) == ""
  {
    if a == [] {
      assert a + [b] == [b] && [b][1..] == [];
    } else {
      JoinedText(a[1..], b);
      assert (a + [b])[1..] == a[1..] + [b];
    }
  }

  /** The probe prints four values, and the operator places them in the deployment's environment. */
  function Deploy(env: Env, proof: Proof): Env {
    env[ProofDigest := proof.proofDigest][ProofCheckedAt := proof.checkedAt]
      [ProofModel := proof.configuredModel][ProofPurpose := proof.purpose]
  }

  lemma TrimPlain(s: string)
    requires Plain(s)
    ensures Trim(s) == s
  {
  }

  lemma DeployedValues(p: Platform, env: Env, proof: Proof)
    requires Plain(proof.checkedAt) && Plain(proof.proofDigest)
    requires proof.configuredModel == MODEL && proof.purpose == "reasoning"
    ensures Configured(Deploy(env, proof), ProofDigest) == Some(proof.proofDigest)
    ensures Configured(Deploy(env, proof), ProofCheckedAt) == Some(proof.checkedAt)
    ensures Configured(Deploy(env, proof), ProofModel) == Some(MODEL)
    ensures Configured(Deploy(env, proof), ProofPurpose) == Some("reasoning")
  {
    hide Trim;
    TrimPlain(proof.proofDigest);
    TrimPlain(proof.checkedAt);
    TrimPlain(MODEL);
    TrimPlain("reasoning");
  }

  lemma DeployKeepsOthers(env: Env, proof: Proof, v: Variable)
    requires !v.ProofDigest? && !v.ProofCheckedAt? && !v.ProofModel? && !v.ProofPurpose?
    ensures Configured(Deploy(env, proof), v) == Configured(env, v)
    ensures v in Deploy(env, proof) <==> v in env
    ensures v in env ==> Deploy(env, proof)[v] == env[v]
  {
    hide Trim;
  }

  lemma ProofShape(p: Platform, runEnv: Env, checkedAt: string, reply: Option<seq<Block>>, material: string)
    requires Lawful(p)
    requires RunLiveSmokeProof(p, runEnv, checkedAt, reply, material).Ok?
    ensures
      var proof := RunLiveSmokeProof(p, runEnv, checkedAt, reply, material).value;
      && p.parseDate(checkedAt).Some?
      && p.parseDate(proof.checkedAt) == p.parseDate(checkedAt)
      && Plain(proof.checkedAt) && IsDigest(proof.proofDigest) && Plain(proof.proofDigest)
      && proof.configuredModel == MODEL && proof.purpose == "reasoning"
  {
    hide ResolvedPolicy, Trim, IsDigest, IsTime;
    DigestIsPlain(p.digest(material));
  }

  /**
   Producer and gate agree. The values of a successful smoke run, placed in any deployment's environment,
   open the gate for reasoning alone, and exactly from five minutes before the run until its age limit.
   */
  lemma ProofOpensGate(p: Platform, runEnv: Env, checkedAt: string, reply: Option<seq<Block>>, material: string,
                       env: Env, purpose: Purpose, now: int)
    requires Lawful(p)
    requires RunLiveSmokeProof(p, runEnv, checkedAt, reply, material).Ok?
    ensures
      var proof := RunLiveSmokeProof(p, runEnv, checkedAt, reply, material).value;
      var deployed := Deploy(env, proof);
      && p.parseDate(checkedAt).Some?
      && (SmokeState(p, deployed, purpose, MODEL, now) == Valid <==>
          && purpose == Reasoning
          && SettingOk(p, env, ProofMaxAge, MAX_AGE_LIMITS)
          && InWindow(p.parseDate(checkedAt).value, MaxAge(p, env), now))
      && (SmokeState(p, deployed, purpose, MODEL, now) == Stale <==>
          now > p.parseDate(checkedAt).value + MaxAge(p, env) * MINUTE_MS)
  {
    hide RunLiveSmokeProof, Trim, IsDigest, Deploy, Plain, Lawful;
    ProofShape(p, runEnv, checkedAt, reply, material);
    var proof := RunLiveSmokeProof(p, runEnv, checkedAt, reply, material).value;
    var deployed := Deploy(env, proof);
    DeployedValues(p, env, proof);
    DeployKeepsOthers(env, proof, ProofMaxAge);
    StaleMeansTooOld(p, deployed, purpose, now);
    ValidMeansAccepted(p, deployed, purpose, MODEL, now);
    assert TimeOf(p, deployed) == p.parseDate(checkedAt);
    assert MaxAge(p, deployed) == MaxAge(p, env);
    NormalizePurposeInverts(Some("reasoning"), purpose);
    NormalizePurposeInverts(Some("reasoning"), Reasoning);
  }

  lemma StaleMeansTooOld(p: Platform, env: Env, purpose: Purpose, now: int)
    requires TimeOf(p, env).Some? && AnyProofConfigured(env)
    ensures SmokeState(p, env, purpose, MODEL, now) == Stale <==>
      now > TimeOf(p, env).value + MaxAge(p, env) * MINUTE_MS
  {
    hide Trim, IsDigest, Configured, SettingOk, ModelIssue, PurposeIssue, SettingIssue, DigestConfigured, InRange;
    assert MaxAge(p, env) >= 1;
    assert TimeIssue(p, env, now).Some? ==> SmokeBlockers(p, env, purpose, MODEL, now) != [];
  }

  lemma DeployKeepsPolicyInputs(p: Platform, env: Env, proof: Proof)
    ensures SettingsOk(p, Deploy(env, proof)) == SettingsOk(p, env)
    ensures TokenBudget(p, Deploy(env, proof)) == TokenBudget(p, env)
    ensures ProductionLike(Deploy(env, proof)) == ProductionLike(env)
  {
    hide Deploy, Trim, Lower, Configured, InRange;
    DeployKeepsOthers(env, proof, OutputTokens);
    DeployKeepsOthers(env, proof, TimeoutMs);
    DeployKeepsOthers(env, proof, MaxAttempts);
    DeployKeepsOthers(env, proof, RetryInitialDelay);
    DeployKeepsOthers(env, proof, RetryMaxDelay);
    DeployKeepsOthers(env, proof, NodeEnv);
    DeployKeepsOthers(env, proof, HaMode);
    DeployKeepsOthers(env, proof, RuntimeProfile);
    DeployKeepsOthers(env, proof, PublicHostname);
    DeployKeepsOthers(env, proof, PublicBaseUrl);
  }

  /**
   Re-deploying where the smoke run succeeded: reasoning calls within the token budget are let through
   exactly while the proof is fresh, and always outside production.
   */
  lemma SmokeRunUnblocksReasoning(p: Platform, env: Env, checkedAt: string, reply: Option<seq<Block>>,
                                  material: string, requested: Option<real>, now: int)
    requires Lawful(p)
    requires RunLiveSmokeProof(p, env, checkedAt, reply, material).Ok?
    requires TokensOk(p, env, requested)
    ensures
      var proof := RunLiveSmokeProof(p, env, checkedAt, reply, material).value;
      && p.parseDate(checkedAt).Some?
      && (ResolvedPolicy(p, Deploy(env, proof), Reasoning, requested, now, false).blockers == [] <==>
          (ProductionLike(env) ==>
            && SettingOk(p, env, ProofMaxAge, MAX_AGE_LIMITS)
            && InWindow(p.parseDate(checkedAt).value, MaxAge(p, env), now)))
  {
    SmokeRunHadGoodSettings(p, env, checkedAt, reply, material);
    hide *;
    var proof := RunLiveSmokeProof(p, env, checkedAt, reply, material).value;
    ProofOpensGate(p, env, checkedAt, reply, material, env, Reasoning, now);
    DeployKeepsPolicyInputs(p, env, proof);
    PolicyUnblocked(p, Deploy(env, proof), Reasoning, requested, now, false);
    ValidMeansAccepted(p, Deploy(env, proof), Reasoning, MODEL, now);
    TokensDependOnBudget(p, env, Deploy(env, proof), requested);
  }

  lemma TokensDependOnBudget(p: Platform, a: Env, b: Env, requested: Option<real>)
    requires TokenBudget(p, a) == TokenBudget(p, b)
    ensures TokensOk(p, a, requested) == TokensOk(p, b, requested)
  {
  }

  lemma SmokeRunHadGoodSettings(p: Platform, env: Env, checkedAt: string, reply: Option<seq<Block>>, material: string)
    requires RunLiveSmokeProof(p, env, checkedAt, reply, material).Ok?
    ensures SettingsOk(p, env)
  {
    hide ResolvedPolicy, SettingsOk, TokensOk, GateAccepts;
    PolicyUnblocked(p, env, Reasoning, Some(64.0), p.parseDate(checkedAt).value, true);
  }
}
