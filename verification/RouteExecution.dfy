/** One execution of a compiled route, as a function of what the models and the judge answer. */
module RouteExecution {
  import opened Outcomes
  import opened JsonValues
  import opened Router
  import opened RouteCache

  // ---- the environment's allowlist ----

  /** No listed provider means every provider; a provider without a model list, all its models. */
  datatype Allowlist = Allowlist(providers: seq<string>, models: map<string, seq<string>>)

  predicate Allows(a: Allowlist, m: RouteModel) {
    && (a.providers == [] || m.provider in a.providers)
    && (m.provider in a.models ==> m.name in a.models[m.provider])
  }

  // ---- retry delays, in nanoseconds ----

  datatype ErrorClass = Transient(retryAfter: Option<nat>) | Permanent | Ambiguous

  datatype ModelError = ModelError(kind: ErrorClass, message: string)

  datatype RetryPolicy = RetryPolicy(maxAttempts: nat, baseDelay: nat, maxDelay: nat)

  const NANOS_PER_MILLI := 1_000_000

  const U64_MAX := 0xFFFF_FFFF_FFFF_FFFF

  function Min(a: nat, b: nat): nat {
    if a < b then a else b
  }

  function Max(a: nat, b: nat): nat {
    if a < b then b else a
  }

  function Pow2(n: nat): nat {
    if n == 0 then 1 else 2 * Pow2(n - 1)
  }

  /** Doubles with each attempt, in whole milliseconds that stay within 64 bits. */
  function Backoff(base: nat, attempt: nat): nat {
    var doublings := if attempt == 0 then 0 else Min(attempt - 1, 31);
    Min(base / NANOS_PER_MILLI * Pow2(doublings), U64_MAX) * NANOS_PER_MILLI
  }

  function Clamp01(x: real): (r: real)
    ensures 0.0 <= r <= 1.0 && (0.0 <= x <= 1.0 ==> r == x)
  {
    if x < 0.0 then 0.0 else if x > 1.0 then 1.0 else x
  }

  /** To the nearest nanosecond. */
  function Scale(d: nat, x: real): (r: nat)
    requires 0.0 <= x <= 1.0
    ensures r <= d && (x == 1.0 ==> r == d)
  {
    (d as real * x + 0.5).Floor
  }

  function DelayFor(policy: RetryPolicy, attempt: nat, kind: ErrorClass, jitter: real): Option<nat> {
    match kind
    case Transient(Some(after)) => Some(Min(after, policy.maxDelay))
    case Transient(None) => Some(Scale(Min(Backoff(policy.baseDelay, attempt), policy.maxDelay), Clamp01(jitter)))
    case _ => None
  }

  /** Only transient errors are retried, never after more than the maximum delay; a delay
      the provider asked for is kept up to that maximum, and full jitter never lengthens
      the backoff. */
  lemma DelayIsBounded(policy: RetryPolicy, attempt: nat, kind: ErrorClass, jitter: real)
    ensures var d := DelayFor(policy, attempt, kind, jitter);
            && (d.Some? <==> kind.Transient?)
            && (d.Some? ==> d.value <= policy.maxDelay)
            && (kind.Transient? && kind.retryAfter.Some? && kind.retryAfter.value <= policy.maxDelay
                ==> d == Some(kind.retryAfter.value))
            && (kind == Transient(None) ==> d.value <= DelayFor(policy, attempt, kind, 1.0).value)
  {
  }

  /** The delay before the retry after `attempt`, with no jitter to shorten it. */
  function FullDelay(policy: RetryPolicy, attempt: nat): nat {
    DelayFor(policy, attempt, Transient(None), 1.0).value
  }

  lemma BackoffDoubles(base: nat, attempt: nat)
    requires attempt >= 1
    ensures Backoff(base, 1) == Min(base / NANOS_PER_MILLI, U64_MAX) * NANOS_PER_MILLI
    ensures Backoff(base, attempt + 1)
         == if attempt < 32 then Min(2 * Backoff(base, attempt), U64_MAX * NANOS_PER_MILLI) else Backoff(base, attempt)
  {
    assert Pow2(0) == 1;
    if attempt < 32 {
      var ms, p := base / NANOS_PER_MILLI, Pow2(attempt - 1);
      assert Pow2(attempt) == 2 * p;
      hide Pow2;
      Doubled(ms, p);
      assert Backoff(base, attempt) == Min(ms * p, U64_MAX) * NANOS_PER_MILLI;
      assert Backoff(base, attempt + 1) == Min(ms * (2 * p), U64_MAX) * NANOS_PER_MILLI;
    }
  }

  lemma Doubled(a: nat, b: nat)
    ensures a * (2 * b) == 2 * (a * b)
  {
  }

  /** Delays start at the base, in whole milliseconds, double with every retry up to the
      thirty-second, and never exceed the maximum; jitter scales them, to half a nanosecond. */
  lemma DelaysDouble(policy: RetryPolicy, attempt: nat, jitter: real)
    requires attempt >= 1
    ensures FullDelay(policy, 1)
         == Min(Min(policy.baseDelay / NANOS_PER_MILLI, U64_MAX) * NANOS_PER_MILLI, policy.maxDelay)
    ensures FullDelay(policy, attempt + 1)
         == if attempt < 32 then Min(2 * FullDelay(policy, attempt), Min(U64_MAX * NANOS_PER_MILLI, policy.maxDelay))
            else FullDelay(policy, attempt)
    ensures 0.0 <= jitter <= 1.0 ==>
              var d, full := DelayFor(policy, attempt, Transient(None), jitter).value, FullDelay(policy, attempt);
              full as real * jitter - 0.5 <= d as real <= full as real * jitter + 0.5
  {
    BackoffDoubles(policy.baseDelay, attempt);
    FullDelayIs(policy, 1);
    FullDelayIs(policy, attempt);
    FullDelayIs(policy, attempt + 1);
    if 0.0 <= jitter <= 1.0 {
      JitterScales(policy, attempt, jitter);
    }
    hide Backoff, FullDelay, DelayFor;
  }

  lemma FullDelayIs(policy: RetryPolicy, attempt: nat)
    ensures FullDelay(policy, attempt) == Min(Backoff(policy.baseDelay, attempt), policy.maxDelay)
  {
    hide Backoff, Scale;
  }

  lemma JitterScales(policy: RetryPolicy, attempt: nat, jitter: real)
    requires 0.0 <= jitter <= 1.0
    ensures var d, full := DelayFor(policy, attempt, Transient(None), jitter).value, FullDelay(policy, attempt);
            full as real * jitter - 0.5 <= d as real <= full as real * jitter + 0.5
  {
    FullDelayIs(policy, attempt);
    var full := Min(Backoff(policy.baseDelay, attempt), policy.maxDelay);
    assert DelayFor(policy, attempt, Transient(None), jitter).value == Scale(full, jitter);
    hide DelayFor, Backoff, FullDelay;
    assert Scale(full, jitter) == (full as real * jitter + 0.5).Floor;
  }

  // ---- the outside world ----

  datatype Call = Call(model: RouteModel, promptName: string, inputs: Json, rubric: Option<Rubric>, grounded: bool)

  datatype Usage = Usage(cost: Option<real>)

  datatype Output = Output(response: Json, confidence: real, usage: Option<Usage>)

  datatype JudgeCall = JudgeCall(judge: RouteModel, promptName: string, inputs: Json, response: Json, similarity: real)

  /** The n-th answers of the models and of the judge, the retry jitter, and the similarity
      of two embeddings, which need not exist. */
  datatype Remote = Remote(
    models: (nat, Call) -> Result<Output, ModelError>,
    judge: (nat, JudgeCall) -> Result<bool, string>,
    jitter: (RouteModel, string, nat) -> real,
    similarity: (seq<real>, seq<real>) -> Option<real>)

  datatype Request = Request(
    promptName: string,
    inputs: Json,
    embedding: seq<real>,
    namespaceVersion: string,
    bypass: bool,
    forceCheapest: bool,
    defaultModel: Option<RouteModel>)

  datatype Response = Response(response: Json, model: Option<string>, cacheHit: bool, cost: real, usage: Option<Usage>)

  datatype Span =
    | CacheSpan(decision: string, similarity: Option<real>, hit: bool, judge: Option<string>)
    | CallSpan(decision: string, model: Option<string>, hit: bool, retries: nat, cost: real)

  datatype Env = Env(
    allow: Allowlist,
    policy: RetryPolicy,
    remote: Remote,
    namespaceVersion: string,
    entries: seq<CacheEntry>)

  // ---- one candidate, with its retries ----

  datatype Retried = Retried(result: Result<Output, ModelError>, calls: nat, sleeps: seq<nat>)

  /** `n` calls were made before; this is the candidate's `attempt`-th. */
  function Retry(call: Call, n: nat, attempt: nat, env: Env): Retried
    decreases if attempt < env.policy.maxAttempts then env.policy.maxAttempts - attempt else 0
  {
    var answer := env.remote.models(n, call);
    if answer.Ok? || attempt >= env.policy.maxAttempts then Retried(answer, 1, [])
    else
      match DelayFor(env.policy, attempt, answer.error.kind, env.remote.jitter(call.model, call.promptName, attempt))
      case None => Retried(answer, 1, [])
      case Some(delay) =>
        var r := Retry(call, n + 1, attempt + 1, env);
        Retried(r.result, r.calls + 1, [delay] + r.sleeps)
  }

  // ---- what an execution tries, in order ----

  datatype Stage = CascadeStage | FallbackStage

  /** A candidate with a minimum escalates below it; one without is accepted as it answers. */
  datatype Item =
    | TryCache(threshold: real, band: Band, judge: RouteModel)
    | TryModel(model: RouteModel, rubric: Option<Rubric>, grounded: bool, minimum: Option<real>, stage: Stage)

  function StepItems(steps: seq<CascadeStep>, force: bool, allow: Allowlist): seq<Item> {
    if steps == [] then []
    else
      var s := steps[0];
      (if Allows(allow, s.model)
       then [TryModel(s.model, Some(s.confidence), s.grounded,
                      if force then None else Some(s.confidence.minimum), CascadeStage)]
       else [])
      + StepItems(steps[1..], force, allow)
  }

  function FallbackItems(providers: seq<RouteModel>, allow: Allowlist): seq<Item> {
    if providers == [] then []
    else
      (if Allows(allow, providers[0]) then [TryModel(providers[0], None, false, None, FallbackStage)] else [])
      + FallbackItems(providers[1..], allow)
  }

  /** Degraded, a cascade is its first step only, whether allowed or not. */
  function StepsTried(steps: seq<CascadeStep>, force: bool): seq<CascadeStep> {
    if force && steps != [] then steps[..1] else steps
  }

  function DecisionItems(d: Decision, force: bool, allow: Allowlist): seq<Item> {
    match d
    case Cache(threshold, band, judge) => [TryCache(threshold, band, judge)]
    case Cascade(steps) => StepItems(StepsTried(steps, force), force, allow)
    case Fallbacks(providers) => FallbackItems(providers, allow)
  }

  function Items(decisions: seq<Decision>, force: bool, allow: Allowlist): seq<Item> {
    if decisions == [] then [] else DecisionItems(decisions[0], force, allow) + Items(decisions[1..], force, allow)
  }

  // ---- trying one item ----

  /** What one item came to: the response it gave, if accepted; the calls, judge calls,
      sleeps and spans it made; and the error it ended in, if it failed. */
  datatype Trial = Trial(
    accepted: Option<Response>,
    calls: seq<Call>,
    judged: nat,
    sleeps: seq<nat>,
    spans: seq<Span>,
    failure: Option<(Stage, string)>)

  function Nearest(entries: seq<CacheEntry>, request: Request, env: Env): Option<(CacheEntry, real)> {
    if entries == [] then None
    else
      var last := entries[|entries| - 1];
      var before := Nearest(entries[..|entries| - 1], request, env);
      var s := env.remote.similarity(request.embedding, last.embedding);
      if last.promptName == request.promptName && s.Some? && (before.None? || before.value.1 <= s.value)
      then Some((last, s.value))
      else before
  }

  predicate Comparable(e: CacheEntry, request: Request, env: Env) {
    e.promptName == request.promptName && env.remote.similarity(request.embedding, e.embedding).Some?
  }

  /** `entries[k]` is comparable, no comparable entry is closer, and none after it as close. */
  ghost predicate LastClosest(entries: seq<CacheEntry>, k: nat, request: Request, env: Env) {
    && k < |entries| && Comparable(entries[k], request, env)
    && forall i | 0 <= i < |entries| && Comparable(entries[i], request, env) ::
         var s, best := Similarity(entries[i], request, env), Similarity(entries[k], request, env);
         s <= best && (i > k ==> s < best)
  }

  function Similarity(e: CacheEntry, request: Request, env: Env): real
    requires Comparable(e, request, env)
  {
    env.remote.similarity(request.embedding, e.embedding).value
  }

  /** The entry served by similarity is the closest of this prompt's, the last of equals. */
  lemma {:induction false} NearestIsLastClosest(entries: seq<CacheEntry>, request: Request, env: Env)
    ensures var r := Nearest(entries, request, env);
            && (r.None? <==> forall e | e in entries :: !Comparable(e, request, env))
            && (r.Some? ==> exists k: nat ::
                  LastClosest(entries, k, request, env)
                  && r.value == (entries[k], Similarity(entries[k], request, env)))
  {
    if entries != [] {
      var n := |entries| - 1;
      var before := Nearest(entries[..n], request, env);
      NearestIsLastClosest(entries[..n], request, env);
      assert forall e :: e in entries <==> e in entries[..n] || e == entries[n];
      var r := Nearest(entries, request, env);
      assert r.None? <==> before.None? && !Comparable(entries[n], request, env);
      if r.Some? {
        if r == before {
          var k: nat :| LastClosest(entries[..n], k, request, env)
                     && r.value == (entries[k], Similarity(entries[k], request, env));
          if !Comparable(entries[n], request, env) || Similarity(entries[n], request, env) < r.value.1 {
            assert LastClosest(entries, k, request, env);
          } else {
            assert LastClosest(entries, n, request, env);
          }
        } else {
          assert LastClosest(entries, n, request, env);
        }
      }
    }
  }

  function NameOf(m: Option<RouteModel>): Option<string> {
    match m
    case Some(model) => Some(model.name)
    case None => None
  }

  /** A hit is labelled with the request's default model, at no cost. */
  function Hit(e: CacheEntry, decision: string, similarity: real, judge: Option<string>, request: Request): Trial {
    var model := NameOf(request.defaultModel);
    Trial(Some(Response(e.response, model, true, 0.0, None)), [], if judge.Some? then 1 else 0, [],
          [CacheSpan(decision, Some(similarity), true, judge), CallSpan("cache_hit", model, true, 0, 0.0)], None)
  }

  function Miss(decision: string, similarity: Option<real>, judge: Option<string>): Trial {
    Trial(None, [], if judge.Some? then 1 else 0, [], [CacheSpan(decision, similarity, false, judge)], None)
  }

  function CacheTrial(item: Item, request: Request, j: nat, env: Env): Trial
    requires item.TryCache?
  {
    if request.bypass then Miss("bypass", None, None)
    else if request.namespaceVersion != env.namespaceVersion then Miss("namespace_invalidated", None, None)
    else
      match Exact(env.entries, request.promptName, CacheKey(request.promptName, request.inputs))
      case Some(e) => Hit(e, "hash_hit", 1.0, None, request)
      case None =>
        match Nearest(env.entries, request, env)
        case None => Miss("miss", None, None)
        case Some((e, s)) =>
          if s >= item.threshold then Hit(e, "knn_hit", s, None, request)
          else if item.band.low <= s <= item.band.high then
            var answer := env.remote.judge(j, JudgeCall(item.judge, request.promptName, request.inputs, e.response, s));
            if answer == Ok(true) then Hit(e, "judge_hit", s, Some(item.judge.name), request)
            else Miss("judge_reject", Some(s), Some(item.judge.name))
          else Miss("miss", Some(s), None)
  }

  function CallOf(item: Item, request: Request): Call
    requires item.TryModel?
  {
    Call(item.model, request.promptName, request.inputs, item.rubric, item.grounded)
  }

  function Repeat<T>(x: T, n: nat): (r: seq<T>)
    ensures |r| == n && forall i | 0 <= i < n :: r[i] == x
  {
    if n == 0 then [] else Repeat(x, n - 1) + [x]
  }

  function ObservedCost(usage: Option<Usage>, estimate: real): real {
    match usage
    case Some(Usage(Some(cost))) => cost
    case _ => estimate
  }

  function DecisionName(item: Item, accepted: bool): string
    requires item.TryModel?
  {
    if item.stage == FallbackStage then "fallback_accept"
    else if !accepted then "cascade_escalation"
    else if item.minimum.None? then "degrade_forced"
    else "cascade_accept"
  }

  function ModelTrial(item: Item, request: Request, n: nat, env: Env): Trial
    requires item.TryModel?
  {
    var call := CallOf(item, request);
    var r := Retry(call, n, 1, env);
    var calls := Repeat(call, r.calls);
    var retries := if r.calls == 0 then 0 else r.calls - 1;
    match r.result
    case Err(e) =>
      var decision := if item.stage == CascadeStage then "cascade_error" else "fallback_error";
      Trial(None, calls, 0, r.sleeps,
            [CallSpan(decision, Some(item.model.name), false, retries, item.model.cost)],
            Some((item.stage, item.model.name + ": " + e.message)))
    case Ok(output) =>
      var accepted := item.minimum.None? || output.confidence >= item.minimum.value;
      var cost := ObservedCost(output.usage, item.model.cost);
      var response := Response(output.response, Some(item.model.name), false, cost, output.usage);
      Trial(if accepted then Some(response) else None,
            calls, 0, r.sleeps,
            [CallSpan(DecisionName(item, accepted), Some(item.model.name), false, retries, cost)],
            None)
  }

  function TryItem(item: Item, request: Request, n: nat, j: nat, env: Env): Trial {
    if item.TryCache? then CacheTrial(item, request, j, env) else ModelTrial(item, request, n, env)
  }

  // ---- a run, stopping at the first accepted item ----

  datatype World = World(
    calls: seq<Call>,
    judged: nat,
    sleeps: seq<nat>,
    spans: seq<Span>,
    lastCascade: Option<string>,
    lastFallback: Option<string>)

  function Apply(w: World, t: Trial): World {
    World(
      w.calls + t.calls,
      w.judged + t.judged,
      w.sleeps + t.sleeps,
      w.spans + t.spans,
      if t.failure.Some? && t.failure.value.0 == CascadeStage then Some(t.failure.value.1) else w.lastCascade,
      if t.failure.Some? && t.failure.value.0 == FallbackStage then Some(t.failure.value.1) else w.lastFallback)
  }

  datatype ExecError =
    | MissingPrompt(prompt: string)
    | Exhausted(prompt: string)
    | ExhaustedWithLastErrors(prompt: string, cascade: Option<string>, fallback: Option<string>)

  function GaveUp(prompt: string, w: World): ExecError {
    if w.lastCascade.None? && w.lastFallback.None? then Exhausted(prompt)
    else ExhaustedWithLastErrors(prompt, w.lastCascade, w.lastFallback)
  }

  function RunFrom(items: seq<Item>, request: Request, w: World, env: Env): (Result<Response, ExecError>, World) {
    if items == [] then (Err(GaveUp(request.promptName, w)), w)
    else
      var t := TryItem(items[0], request, |w.calls|, w.judged, env);
      if t.accepted.Some? then (Ok(t.accepted.value), Apply(w, t))
      else RunFrom(items[1..], request, Apply(w, t), env)
  }

  function Fresh(w: World): World {
    w.(lastCascade := None, lastFallback := None)
  }

  function Executed(routes: Routes, request: Request, w: World, env: Env): (Result<Response, ExecError>, World) {
    if request.promptName !in routes then (Err(MissingPrompt(request.promptName)), w)
    else RunFrom(Items(routes[request.promptName].decisions, request.forceCheapest, env.allow), request, Fresh(w), env)
  }
}
