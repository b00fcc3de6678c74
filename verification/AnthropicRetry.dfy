/**
 The Anthropic call loop: which failures are retried, how long the loop waits between attempts, and
 what a whole run may do under any policy the environment can produce.

 Delays are computed over `real`; the client, the jitter and `Number(text) * 1000` (where finite) are
 functions of the attempt or of the text.
 */
module AnthropicRetry {
  import opened Wrappers
  import opened Text
  import opened AnthropicPolicy

  datatype Failure =
    | ApiFailure(status: Option<int>, retryAfter: Option<string>)
    | AbortFailure(retryAfter: Option<string>)
    | ParseFailure
    | OtherFailure(retryAfter: Option<string>)

  datatype Outcome<+T> = Success(body: T) | Failed(failure: Failure)

  datatype RunResult<+T> = Returned(body: T) | Rethrown(failure: Failure) | Exhausted(attempts: int, last: Failure)

  predicate Retryable(f: Failure) {
    match f
    case ApiFailure(status, _) => status.Some? && (status.value == 429 || status.value >= 500)
    case AbortFailure(_) => true
    case _ => false
  }

  function RetryAfterOf(f: Failure): Option<string> {
    if f.ParseFailure? then None else f.retryAfter
  }

  // ---------------------------------------------------------------- one delay

  function Min(a: int, b: int): int {
    if a <= b then a else b
  }

  function Pow2(n: nat): (r: nat)
    ensures r >= 1
  {
    if n == 0 then 1 else 2 * Pow2(n - 1)
  }

  function Exponential(initial: int, attempt: int): int {
    initial * Pow2(if attempt < 0 then 0 else attempt)
  }

  function Clamp(jitter: real): (r: real)
    ensures 0.0 <= r <= 1.0
  {
    if jitter < 0.0 then 0.0 else if jitter > 1.0 then 1.0 else jitter
  }

  function Times(x: real, y: real): real {
    x * y
  }

  function JitterPart(exponential: int, jitter: real): int {
    Times(exponential as real * 0.25, Clamp(jitter)).Floor
  }

  /** `retryAfterMs` is absent when the header is missing, empty or not a finite number. */
  function Delay(attempt: int, initial: int, cap: int, retryAfterMs: Option<real>, jitter: real): int {
    if retryAfterMs.Some? && retryAfterMs.value >= 0.0 then
      Min(cap, retryAfterMs.value.Floor)
    else
      var exponential := Exponential(initial, attempt);
      Min(cap, exponential + JitterPart(exponential, jitter))
  }

  lemma JitterShare(e: int, jitter: real)
    requires e >= 0
    ensures 0 <= 4 * JitterPart(e, jitter) <= e
  {
    hide Times, Clamp;
    TimesBelow(e as real * 0.25, Clamp(jitter));
    FloorOfQuarter(e, Times(e as real * 0.25, Clamp(jitter)));
  }

  lemma FloorOfQuarter(e: int, x: real)
    requires 0.0 <= x <= e as real * 0.25
    ensures 0 <= 4 * x.Floor <= e
  {
    assert 4.0 * x.Floor as real <= e as real;
  }

  lemma TimesBelow(x: real, j: real)
    requires x >= 0.0 && 0.0 <= j <= 1.0
    ensures 0.0 <= Times(x, j) <= x
  {
    assert x * (1.0 - j) >= 0.0;
  }

  /** Every delay lies in [0, cap], whatever the header or the jitter says. */
  lemma DelayInRange(attempt: int, initial: int, cap: int, retryAfterMs: Option<real>, jitter: real)
    requires initial >= 0 && cap >= 0
    ensures 0 <= Delay(attempt, initial, cap, retryAfterMs, jitter) <= cap
  {
    hide JitterPart;
    assert Exponential(initial, attempt) >= 0;
    JitterShare(Exponential(initial, attempt), jitter);
  }

  lemma {:induction false} Pow2Grows(m: nat, n: nat)
    requires m < n
    ensures 2 * Pow2(m) <= Pow2(n)
    decreases n
  {
    if m < n - 1 {
      Pow2Grows(m, n - 1);
    }
  }

  lemma ExponentialDoubles(m: nat, n: nat, initial: int)
    requires m < n && initial >= 0
    ensures 0 <= 2 * Exponential(initial, m) <= Exponential(initial, n)
    ensures initial > 0 ==> Exponential(initial, m) > 0
  {
    hide Pow2;
    Pow2Grows(m, n);
    var a, b := Pow2(m), Pow2(n);
    assert 2 * (initial * a) == initial * (2 * a) <= initial * b;
  }

  /**
   Without a usable Retry-After, an earlier attempt never waits longer than a later one, whatever jitter
   either draws; and it waits strictly less unless the cap already binds.
   */
  lemma DelayOrder(m: nat, n: nat, initial: int, cap: int, earlier: real, later: real)
    requires m < n && initial >= 0
    ensures Delay(m, initial, cap, None, earlier) <= Delay(n, initial, cap, None, later)
    ensures initial > 0 && Delay(m, initial, cap, None, earlier) < cap ==>
      Delay(m, initial, cap, None, earlier) < Delay(n, initial, cap, None, later)
  {
    hide JitterPart, Exponential;
    ExponentialDoubles(m, n, initial);
    JitterShare(Exponential(initial, m), earlier);
    JitterShare(Exponential(initial, n), later);
  }

  // ---------------------------------------------------------------- a whole run

  function WaitAfter(policy: Policy, millis: string -> Option<real>, f: Failure, attempt: nat, jitter: real): int {
    var header := RetryAfterOf(f);
    var retryAfterMs := if header.Some? && header.value != "" then millis(header.value) else None;
    Delay(attempt, policy.retryInitialDelayMs, policy.retryMaxDelayMs, retryAfterMs, jitter)
  }

  predicate Final<T>(o: Outcome<T>) {
    o.Success? || !Retryable(o.failure)
  }

  function Sum(s: seq<int>): int {
    if s == [] then 0 else s[0] + Sum(s[1..])
  }

  /**
   What one run does: it stops at the first final outcome, or when the attempts are used up, and sleeps
   exactly once between two calls.
   */
  ghost predicate IsRun<T>(policy: Policy, client: nat -> Outcome<T>, jitter: nat -> real,
                           millis: string -> Option<real>, result: RunResult<T>, calls: nat, sleeps: seq<int>)
  {
    && 1 <= calls <= policy.maxAttempts
    && (forall k: nat :: k < calls - 1 ==> !Final(client(k)))
    && (calls < policy.maxAttempts ==> Final(client(calls - 1)))
    && (match client(calls - 1)
        case Success(body) => result == Returned(body)
        case Failed(f) => result == if Retryable(f) then Exhausted(policy.maxAttempts, f) else Rethrown(f))
    && |sleeps| == calls - 1
    && (forall k: nat :: k < |sleeps| ==> sleeps[k] == WaitAfter(policy, millis, client(k).failure, k, jitter(k)))
  }

  lemma {:induction false} SumBounded(s: seq<int>, cap: int)
    requires forall k :: 0 <= k < |s| ==> 0 <= s[k] <= cap
    ensures 0 <= Sum(s) <= |s| * cap
  {
    if s != [] {
      SumBounded(s[1..], cap);
      assert |s| * cap == cap + (|s| - 1) * cap;
    }
  }

  lemma ProductsOrdered(m: int, n: int, cap: nat)
    requires m <= n
    ensures m * cap <= n * cap
  {
  }

  /** The budget of every run of every policy the environment can produce. */
  lemma RunBudget<T>(policy: Policy, client: nat -> Outcome<T>, jitter: nat -> real, millis: string -> Option<real>,
                     result: RunResult<T>, calls: nat, sleeps: seq<int>)
    requires WellBounded(policy)
    requires IsRun(policy, client, jitter, millis, result, calls, sleeps)
    ensures calls <= 4
    ensures 0 <= Sum(sleeps) <= (policy.maxAttempts - 1) * policy.retryMaxDelayMs <= 360_000
  {
    hide WaitAfter, Retryable;
    forall k: nat | k < |sleeps|
      ensures 0 <= sleeps[k] <= policy.retryMaxDelayMs
    {
      SleepInRange(policy, millis, client(k).failure, k, jitter(k));
    }
    SumBounded(sleeps, policy.retryMaxDelayMs);
    ProductsOrdered(|sleeps|, policy.maxAttempts - 1, policy.retryMaxDelayMs);
    ProductsOrdered(policy.maxAttempts - 1, 3, policy.retryMaxDelayMs);
  }

  lemma SleepInRange(policy: Policy, millis: string -> Option<real>, f: Failure, attempt: nat, jitter: real)
    requires WellBounded(policy)
    ensures 0 <= WaitAfter(policy, millis, f, attempt, jitter) <= policy.retryMaxDelayMs
  {
    var header := RetryAfterOf(f);
    var retryAfterMs := if header.Some? && header.value != "" then millis(header.value) else None;
    DelayInRange(attempt, policy.retryInitialDelayMs, policy.retryMaxDelayMs, retryAfterMs, jitter);
  }

  lemma SameLength<T>(policy: Policy, client: nat -> Outcome<T>, n0: nat, n1: nat)
    requires 1 <= n0 && 1 <= n1 <= policy.maxAttempts
    requires n0 < policy.maxAttempts ==> Final(client(n0 - 1))
    requires forall k: nat :: k < n1 - 1 ==> !Final(client(k))
    ensures n0 >= n1
  {
    var k: nat := n0 - 1;
    assert k < n1 - 1 ==> !Final(client(k));
  }

  /** The description leaves no choice: two runs against the same client are the same run. */
  lemma RunUnique<T>(policy: Policy, client: nat -> Outcome<T>, jitter: nat -> real, millis: string -> Option<real>,
                     r0: RunResult<T>, n0: nat, s0: seq<int>, r1: RunResult<T>, n1: nat, s1: seq<int>)
    requires IsRun(policy, client, jitter, millis, r0, n0, s0)
    requires IsRun(policy, client, jitter, millis, r1, n1, s1)
    ensures r0 == r1 && n0 == n1 && s0 == s1
  {
    hide WaitAfter, Retryable;
    SameLength(policy, client, n0, n1);
    SameLength(policy, client, n1, n0);
  }

  method RunWithRetry<T>(policy: Policy, client: nat -> Outcome<T>, jitter: nat -> real,
                         millis: string -> Option<real>)
    returns (result: RunResult<T>, calls: nat, sleeps: seq<int>)
    requires WellBounded(policy)
    ensures IsRun(policy, client, jitter, millis, result, calls, sleeps)
    ensures 0 <= Sum(sleeps) <= (policy.maxAttempts - 1) * policy.retryMaxDelayMs
  {
    hide WaitAfter, Retryable;
    var attempt: nat := 0;
    var last := OtherFailure(None);
    calls, sleeps := 0, [];
    while attempt < policy.maxAttempts
      invariant calls == attempt <= policy.maxAttempts
      invariant forall k: nat :: k < attempt ==> !Final(client(k))
      invariant attempt > 0 ==> client(attempt - 1) == Failed(last)
      invariant |sleeps| == if attempt < policy.maxAttempts then attempt else attempt - 1
      invariant forall k: nat :: k < |sleeps| ==> sleeps[k] == WaitAfter(policy, millis, client(k).failure, k, jitter(k))
    {
      var outcome := client(attempt);
      calls := calls + 1;
      if outcome.Success? {
        result := Returned(outcome.body);
        RunBudget(policy, client, jitter, millis, result, calls, sleeps);
        return;
      }
      last := outcome.failure;
      if last.ParseFailure? || !Retryable(last) {
        ParseFailureIsFinal();
        result := Rethrown(last);
        RunBudget(policy, client, jitter, millis, result, calls, sleeps);
        return;
      }
      if attempt < policy.maxAttempts - 1 {
        sleeps := sleeps + [WaitAfter(policy, millis, last, attempt, jitter(attempt))];
      }
      attempt := attempt + 1;
    }
    result := Exhausted(policy.maxAttempts, last);
    RunBudget(policy, client, jitter, millis, result, calls, sleeps);
  }

  lemma ParseFailureIsFinal()
    ensures !Retryable(ParseFailure)
  {
  }

  // ---------------------------------------------------------------- the run in numbers

  /** The failure is one that the loop tries again after. */
  predicate TriedAgain(f: Failure) {
    f.AbortFailure? || (f.ApiFailure? && (f.status == Some(429) || (f.status.Some? && f.status.value >= 500)))
  }

  /** A header of the failure that says how long to wait. */
  predicate SaysWait(f: Failure, millis: string -> Option<real>, ms: real) {
    !f.ParseFailure? && f.retryAfter.Some? && f.retryAfter.value != "" && millis(f.retryAfter.value) == Some(ms) && ms >= 0.0
  }

  ghost predicate Unsaid(f: Failure, millis: string -> Option<real>) {
    forall ms :: !SaysWait(f, millis, ms)
  }

  /**
   Every run, call by call: it goes on after exactly the failures that are tried again, until the attempts are used up.
   The k-th wait is what the header says, up to the cap; and without one that is usable, one, two or four times the initial
   delay and up to a quarter more, as the jitter has it, up to the cap.
   */
  lemma RunMeans<T>(policy: Policy, client: nat -> Outcome<T>, jitter: nat -> real, millis: string -> Option<real>,
                    result: RunResult<T>, calls: nat, sleeps: seq<int>, k: nat)
    requires WellBounded(policy) && IsRun(policy, client, jitter, millis, result, calls, sleeps) && k < calls
    ensures k < calls - 1 ==> client(k).Failed? && TriedAgain(client(k).failure)
    ensures k == calls - 1 && client(k).Success? ==> result == Returned(client(k).body)
    ensures k == calls - 1 && client(k).Failed? && TriedAgain(client(k).failure) ==>
      calls == policy.maxAttempts && result == Exhausted(policy.maxAttempts, client(k).failure)
    ensures k == calls - 1 && client(k).Failed? && !TriedAgain(client(k).failure) ==> result == Rethrown(client(k).failure)
    ensures |sleeps| == calls - 1 && (k < calls - 1 ==> k < 3)
    ensures
      var cap, step := policy.retryMaxDelayMs, policy.retryInitialDelayMs * (if k == 0 then 1 else if k == 1 then 2 else 4);
      k < calls - 1 ==>
        && (forall ms :: SaysWait(client(k).failure, millis, ms) ==> sleeps[k] == if ms.Floor < cap then ms.Floor else cap)
        && (Unsaid(client(k).failure, millis) ==>
            && (jitter(k) <= 0.0 ==> sleeps[k] == if step < cap then step else cap)
            && (jitter(k) >= 1.0 ==> sleeps[k] == if step + step / 4 < cap then step + step / 4 else cap)
            && (0.0 <= jitter(k) <= 1.0 ==>
                var share := (step as real / 4.0 * jitter(k)).Floor;
                0 <= share <= step / 4 && sleeps[k] == if step + share < cap then step + share else cap))
  {
    hide WaitAfter, WellBounded, Times;
    if k < calls - 1 {
      assert !Final(client(k));
      assert calls <= 4 by { AtMostFour(policy, calls); }
      WaitMeans(policy, millis, client(k).failure, k, jitter(k));
      ShareIs(policy.retryInitialDelayMs * (if k == 0 then 1 else if k == 1 then 2 else 4), jitter(k));
    }
  }

  lemma ShareIs(step: int, j: real)
    ensures Times(step as real / 4.0, j) == step as real / 4.0 * j
  {
  }

  lemma AtMostFour(policy: Policy, calls: nat)
    requires WellBounded(policy) && calls <= policy.maxAttempts
    ensures calls <= 4
  {
  }

  lemma WaitMeans(policy: Policy, millis: string -> Option<real>, f: Failure, k: nat, j: real)
    requires WellBounded(policy) && k < 3
    ensures
      var cap, step := policy.retryMaxDelayMs, policy.retryInitialDelayMs * (if k == 0 then 1 else if k == 1 then 2 else 4);
      var wait := WaitAfter(policy, millis, f, k, j);
      && (forall ms :: SaysWait(f, millis, ms) ==> wait == if ms.Floor < cap then ms.Floor else cap)
      && (Unsaid(f, millis) ==>
          && (j <= 0.0 ==> wait == if step < cap then step else cap)
          && (j >= 1.0 ==> wait == if step + step / 4 < cap then step + step / 4 else cap)
          && (0.0 <= j <= 1.0 ==>
              var share := Times(step as real / 4.0, j).Floor;
              0 <= share <= step / 4 && wait == if step + share < cap then step + share else cap))
  {
    hide JitterPart, Exponential, WaitAfter, Times;
    var cap, step := policy.retryMaxDelayMs, policy.retryInitialDelayMs * (if k == 0 then 1 else if k == 1 then 2 else 4);
    JitterParts(step, j);
    forall ms | SaysWait(f, millis, ms)
      ensures WaitAfter(policy, millis, f, k, j) == if ms.Floor < cap then ms.Floor else cap
    {
      WaitSaid(policy, millis, f, k, j, ms);
    }
    if Unsaid(f, millis) {
      WaitUnsaid(policy, millis, f, k, j);
    }
  }

  lemma WaitSaid(policy: Policy, millis: string -> Option<real>, f: Failure, k: nat, j: real, ms: real)
    requires SaysWait(f, millis, ms)
    ensures WaitAfter(policy, millis, f, k, j) == if ms.Floor < policy.retryMaxDelayMs then ms.Floor else policy.retryMaxDelayMs
  {
    hide JitterPart, Exponential;
  }

  lemma WaitUnsaid(policy: Policy, millis: string -> Option<real>, f: Failure, k: nat, j: real)
    requires WellBounded(policy) && k < 3 && Unsaid(f, millis)
    ensures
      var step := policy.retryInitialDelayMs * (if k == 0 then 1 else if k == 1 then 2 else 4);
      WaitAfter(policy, millis, f, k, j) ==
        if step + JitterPart(step, j) < policy.retryMaxDelayMs then step + JitterPart(step, j) else policy.retryMaxDelayMs
  {
    hide JitterPart;
    PowersOfTwo();
    var header := RetryAfterOf(f);
    assert header.Some? && millis(header.value).Some? ==> !SaysWait(f, millis, millis(header.value).value);
  }

  lemma PowersOfTwo()
    ensures Pow2(0) == 1 && Pow2(1) == 2 && Pow2(2) == 4
  {
  }

  lemma JitterParts(e: int, j: real)
    requires e >= 0
    ensures j <= 0.0 ==> JitterPart(e, j) == 0
    ensures j >= 1.0 ==> JitterPart(e, j) == e / 4
    ensures 0.0 <= j <= 1.0 ==> JitterPart(e, j) == Times(e as real / 4.0, j).Floor && 0 <= JitterPart(e, j) <= e / 4
  {
    assert e as real * 0.25 == e as real / 4.0;
    QuarterFloor(e);
    if j <= 0.0 {
      assert Times(e as real * 0.25, 0.0) == 0.0;
    } else if j >= 1.0 {
      assert Times(e as real * 0.25, 1.0) == e as real * 0.25;
    }
    if 0.0 <= j <= 1.0 {
      JitterShare(e, j);
    }
  }

  lemma QuarterFloor(e: int)
    ensures (e as real * 0.25).Floor == e / 4
  {
    var q, m := e / 4, e % 4;
    assert e == 4 * q + m && 0 <= m < 4;
    assert e as real * 0.25 == q as real + m as real * 0.25;
    FloorBetween(e as real * 0.25, q);
  }

  lemma FloorBetween(x: real, q: int)
    requires q as real <= x < q as real + 1.0
    ensures x.Floor == q
  {
  }

  // ---------------------------------------------------------------- the built-in client

  /** What one request over `fetch` may come to. */
  datatype HttpEvent<+T> =
    | NoApiKey | TimedOut | NetworkError | UnreadableBody
    | Response(status: int, body: T)

  /** `createAnthropicFetchMessagesClient`: statuses outside 200..299 become `ApiError`s without headers. */
  function FetchOutcome<T>(event: HttpEvent<T>): Outcome<T> {
    match event
    case NoApiKey => Failed(ApiFailure(None, None))
    case TimedOut => Failed(ApiFailure(None, None))
    case NetworkError => Failed(OtherFailure(None))
    case UnreadableBody => Failed(OtherFailure(None))
    case Response(status, body) =>
      if 200 <= status <= 299 then Success(body) else Failed(ApiFailure(Some(status), None))
  }

  /** HTTP 429 or 5xx. */
  predicate Overloaded<T>(event: HttpEvent<T>) {
    event.Response? && (event.status == 429 || event.status >= 500)
  }

  /**
   A run over the built-in client goes on exactly after HTTP 429 or 5xx, until the attempts are used up. A timeout ends it, and since the
   client drops the response headers, no Retry-After is ever honoured: the waits only grow.
   */
  lemma FetchRun<T>(policy: Policy, events: nat -> HttpEvent<T>, client: nat -> Outcome<T>, jitter: nat -> real,
                    millis: string -> Option<real>, result: RunResult<T>, calls: nat, sleeps: seq<int>)
    requires WellBounded(policy)
    requires forall k: nat :: client(k) == FetchOutcome(events(k))
    requires IsRun(policy, client, jitter, millis, result, calls, sleeps)
    ensures forall k: nat :: k < calls - 1 ==> Overloaded(events(k))
    ensures Overloaded(events(calls - 1)) <==> result.Exhausted?
    ensures Overloaded(events(calls - 1)) ==> calls == policy.maxAttempts
    ensures events(calls - 1).TimedOut? || events(calls - 1).NoApiKey? ==> result == Rethrown(ApiFailure(None, None))
    ensures events(calls - 1).NetworkError? || events(calls - 1).UnreadableBody? ==> result == Rethrown(OtherFailure(None))
    ensures events(calls - 1).Response? && 200 <= events(calls - 1).status < 300 ==> result == Returned(events(calls - 1).body)
    ensures events(calls - 1).Response? && !Overloaded(events(calls - 1)) && !(200 <= events(calls - 1).status < 300) ==>
      result == Rethrown(ApiFailure(Some(events(calls - 1).status), None))
    ensures forall i: nat, j: nat :: i < j < |sleeps| ==> sleeps[i] <= sleeps[j]
  {
    forall k: nat | k < calls - 1
      ensures Overloaded(events(k))
    {
      assert !Final(client(k));
      assert client(k) == FetchOutcome(events(k));
    }
    assert client(calls - 1) == FetchOutcome(events(calls - 1));
    forall i: nat, j: nat | i < j < |sleeps|
      ensures sleeps[i] <= sleeps[j]
    {
      assert !Final(client(i)) && !Final(client(j));
      assert client(i) == FetchOutcome(events(i)) && client(j) == FetchOutcome(events(j));
      DelayOrder(i, j, policy.retryInitialDelayMs, policy.retryMaxDelayMs, jitter(i), jitter(j));
    }
  }

  // ---------------------------------------------------------------- a reasoning call

  datatype CallError =
    | Blocked(blockers: seq<Blocker>)
    | EmptyResponse
    | ClientError(failure: Failure)
    | OutOfAttempts(attempts: int, last: Failure)

  /**
   `callAnthropicReasoning`: no request leaves unless the policy is unblocked, so in production none leaves
   without a fresh proof for this purpose and model.
   */
  method CallReasoning(p: Platform, env: Env, requested: Option<real>, now: int, allowMissingProof: bool,
                       client: nat -> Outcome<seq<Block>>, jitter: nat -> real, millis: string -> Option<real>)
    returns (r: Result<string, CallError>, calls: nat)
    ensures calls <= 4
    ensures calls > 0 <==>
      && SettingsOk(p, env) && TokensOk(p, env, requested)
      && (ProductionLike(env) && !allowMissingProof ==> GateAccepts(p, env, Reasoning, MODEL, now))
    ensures r.Ok? ==>
      && calls > 0
      && client(calls - 1).Success?
      && r.value == JoinText(client(calls - 1).body)
      && Trim(r.value) != ""
    ensures r.Err? && r.error.Blocked? <==> calls == 0
    ensures calls > 0 ==>
      r == match client(calls - 1)
           case Success(blocks) => if Trim(JoinText(blocks)) == "" then Err(EmptyResponse) else Ok(JoinText(blocks))
           case Failed(f) => Err(if TriedAgain(f) then OutOfAttempts(calls, f) else ClientError(f))
    ensures !allowMissingProof && Unproved(env) && NodeEnv in env && Lower(Trim(env[NodeEnv])) == "production" ==> calls == 0
    ensures !allowMissingProof && Unproved(env) && HaMode in env && Lower(Trim(env[HaMode])) in ["1", "true", "yes", "on"] ==> calls == 0
    ensures !allowMissingProof && Unproved(env) && RuntimeProfile in env && Trim(env[RuntimeProfile]) == "production-shared" ==> calls == 0
    ensures !allowMissingProof && Unproved(env) && PublicHostname in env && Trim(env[PublicHostname]) != "" ==> calls == 0
    ensures !allowMissingProof && Unproved(env) && PublicBaseUrl in env && Trim(env[PublicBaseUrl]) != "" ==> calls == 0
  {
    hide Trim, Lower, Unproved, GateAccepts, ProductionLike, ResolvedPolicy, SettingsOk, TokensOk, WellBounded;
    var policy := ResolvePolicy(p, env, Reasoning, requested, now, allowMissingProof);
    PolicyUnblocked(p, env, Reasoning, requested, now, allowMissingProof);
    PolicyBounded(p, env, Reasoning, requested, now, allowMissingProof);
    if Unproved(env) && SettingsOk(p, env) && TokensOk(p, env, requested) {
      UnprovedMeans(p, env, Reasoning, requested, now);
    }
    if policy.blockers != [] {
      return Err(Blocked(policy.blockers)), 0;
    }
    var result, made, sleeps := RunWithRetry(policy, client, jitter, millis);
    RunBudget(policy, client, jitter, millis, result, made, sleeps);
    calls := made;
    RunMeans(policy, client, jitter, millis, result, made, sleeps, made - 1);
    match result {
      case Returned(body) =>
        var text := JoinText(body);
        r := if Trim(text) == "" then Err(EmptyResponse) else Ok(text);
      case Rethrown(failure) =>
        r := Err(ClientError(failure));
      case Exhausted(attempts, last) =>
        r := Err(OutOfAttempts(attempts, last));
    }
  }
}
