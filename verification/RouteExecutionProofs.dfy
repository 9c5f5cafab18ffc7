/** What one execution of a route can and cannot do. */
module RouteExecutionProofs {
  import opened Outcomes
  import opened Sorting
  import opened Router
  import opened RouterProofs
  import opened RouteCache
  import opened RouteExecution

  function AnswerAt(call: Call, n: nat, env: Env): Result<Output, ModelError> {
    env.remote.models(n, call)
  }

  predicate Retriable(answer: Result<Output, ModelError>) {
    answer.Err? && answer.error.kind.Transient?
  }

  function Sum(s: seq<nat>): nat {
    if s == [] then 0 else s[0] + Sum(s[1..])
  }

  lemma {:induction false} SumBound(s: seq<nat>, most: nat)
    requires forall i | 0 <= i < |s| :: s[i] <= most
    ensures Sum(s) <= |s| * most
  {
    if s != [] {
      SumBound(s[1..], most);
    }
  }

  /** Retrying stops at the first answer that is a success or a lasting error, or at the
      last attempt allowed; until then it sleeps once after each error. */
  lemma {:induction false} RetryFrom(call: Call, n: nat, attempt: nat, env: Env)
    requires attempt >= 1
    ensures var r := Retry(call, n, attempt, env);
            && r.calls >= 1 && |r.sleeps| == r.calls - 1
            && r.result == AnswerAt(call, n + r.calls - 1, env)
            && (forall k | n <= k < n + r.calls - 1 :: Retriable(AnswerAt(call, k, env)))
            && (r.calls > 1 ==> attempt + r.calls - 2 < env.policy.maxAttempts)
            && (Retriable(r.result) ==> attempt + r.calls - 1 >= env.policy.maxAttempts)
            && (forall i | 0 <= i < |r.sleeps| :: r.sleeps[i] <= env.policy.maxDelay)
    decreases if attempt < env.policy.maxAttempts then env.policy.maxAttempts - attempt else 0
  {
    var answer := AnswerAt(call, n, env);
    if answer.Err? && attempt < env.policy.maxAttempts {
      var jitter := env.remote.jitter(call.model, call.promptName, attempt);
      DelayIsBounded(env.policy, attempt, answer.error.kind, jitter);
      hide DelayFor;
      if answer.error.kind.Transient? {
        RetryFrom(call, n + 1, attempt + 1, env);
      }
    }
  }

  /** A candidate is called at most as often as attempts are allowed, and once in any case;
      each sleep is at most the maximum delay, so they add up to at most one such delay per
      retry. */
  lemma RetryStopsAtFirst(call: Call, n: nat, env: Env)
    ensures var r := Retry(call, n, 1, env);
            && 1 <= r.calls <= Max(1, env.policy.maxAttempts)
            && r.result == AnswerAt(call, n + r.calls - 1, env)
            && (forall k | n <= k < n + r.calls - 1 :: Retriable(AnswerAt(call, k, env)))
            && (Retriable(r.result) ==> r.calls >= env.policy.maxAttempts)
            && (forall i | 0 <= i < |r.sleeps| :: r.sleeps[i] <= env.policy.maxDelay)
            && |r.sleeps| == r.calls - 1
            && Sum(r.sleeps) <= (Max(1, env.policy.maxAttempts) - 1) * env.policy.maxDelay
  {
    RetryFrom(call, n, 1, env);
    var r := Retry(call, n, 1, env);
    SumBound(r.sleeps, env.policy.maxDelay);
    hide Retry, Sum, DelayFor, AnswerAt;
    ProductMonotone(|r.sleeps|, Max(1, env.policy.maxAttempts) - 1, env.policy.maxDelay);
  }

  lemma ProductMonotone(a: nat, b: nat, d: nat)
    requires a <= b
    ensures a * d <= b * d
  {
  }

  // ---- one item ----

  /** What any item may do: call nothing but its own model, that at most `maxAttempts` times
      with bounded sleeps in between, and leave exactly one span for it, whose retries are
      the calls less one. */
  ghost predicate WellBehaved(item: Item, t: Trial, request: Request, env: Env) {
    && (item.TryCache? ==> t.calls == [] && t.sleeps == [] && t.failure.None?)
    && (item.TryModel? ==>
          && 1 <= |t.calls| <= Max(1, env.policy.maxAttempts)
          && (forall i | 0 <= i < |t.calls| :: t.calls[i] == CallOf(item, request))
          && |t.sleeps| == |t.calls| - 1
          && Sum(t.sleeps) <= (Max(1, env.policy.maxAttempts) - 1) * env.policy.maxDelay
          && |t.spans| == 1 && t.spans[0].CallSpan?
          && t.spans[0].model == Some(item.model.name) && t.spans[0].retries == |t.calls| - 1
          && (t.failure.Some? ==> t.accepted.None?))
    && (forall i | 0 <= i < |t.sleeps| :: t.sleeps[i] <= env.policy.maxDelay)
  }

  lemma ItemIsWellBehaved(item: Item, request: Request, n: nat, j: nat, env: Env)
    ensures WellBehaved(item, TryItem(item, request, n, j, env), request, env)
  {
    if item.TryModel? {
      RetryStopsAtFirst(CallOf(item, request), n, env);
    }
  }

  /** A candidate is accepted exactly when its last answer is a success that meets the
      minimum, if there is one, and fails exactly when that answer is an error. */
  lemma AcceptedIff(item: Item, request: Request, n: nat, j: nat, env: Env)
    requires item.TryModel?
    ensures var t := TryItem(item, request, n, j, env);
            |t.calls| >= 1 && |t.spans| == 1 && t.spans[0].CallSpan?
            && var last := AnswerAt(CallOf(item, request), n + |t.calls| - 1, env);
            && (t.accepted.Some? <==> last.Ok? && (item.minimum.Some? ==> last.value.confidence >= item.minimum.value))
            && (t.failure.Some? <==> last.Err?)
            && (t.accepted.Some? ==>
                  && t.accepted.value.response == last.value.response
                  && t.accepted.value.model == Some(item.model.name) && !t.accepted.value.cacheHit
                  && t.accepted.value.cost == t.spans[0].cost)
  {
    RetryStopsAtFirst(CallOf(item, request), n, env);
  }

  /** The cost put on record is the provider's own when it reports one, and otherwise the
      plan's estimate, any surcharge included. */
  lemma CostIsObservedOrEstimated(item: Item, request: Request, n: nat, j: nat, env: Env)
    requires item.TryModel?
    ensures var t := TryItem(item, request, n, j, env);
            |t.calls| >= 1 && |t.spans| == 1 && t.spans[0].CallSpan?
            && var last := AnswerAt(CallOf(item, request), n + |t.calls| - 1, env);
            && (last.Ok? && last.value.usage.Some? && last.value.usage.value.cost.Some?
                ==> t.spans[0].cost == last.value.usage.value.cost.value)
            && ((last.Err? || last.value.usage.None? || last.value.usage.value.cost.None?)
                ==> t.spans[0].cost == item.model.cost)
  {
    RetryStopsAtFirst(CallOf(item, request), n, env);
  }

  predicate Consulted(request: Request, env: Env) {
    !request.bypass && request.namespaceVersion == env.namespaceVersion
  }

  /** The judge's word on an entry, were it asked next. */
  function JudgeSays(item: Item, e: CacheEntry, request: Request, j: nat, env: Env): Result<bool, string>
    requires item.TryCache? && Comparable(e, request, env)
  {
    env.remote.judge(
      j, JudgeCall(item.judge, request.promptName, request.inputs, e.response, Similarity(e, request, env)))
  }

  /** `e` may answer the request: it was stored for the same prompt and inputs, it is close
      enough, or it lies in the judge's band and the judge accepts it. */
  ghost predicate MayServe(item: Item, e: CacheEntry, request: Request, j: nat, env: Env)
    requires item.TryCache?
  {
    && e.promptName == request.promptName
    && (|| e.inputHash == CacheKey(request.promptName, request.inputs)
        || (Comparable(e, request, env)
            && (|| Similarity(e, request, env) >= item.threshold
                || (item.band.low <= Similarity(e, request, env) <= item.band.high
                    && JudgeSays(item, e, request, j, env) == Ok(true)))))
  }

  lemma {:induction false} ExactIsStored(entries: seq<CacheEntry>, p: string, h: string)
    ensures var e := Exact(entries, p, h); e.Some? ==> e.value in entries && IsFor(e.value, p, h)
    ensures Exact(entries, p, h).None? <==> forall e | e in entries :: !IsFor(e, p, h)
  {
    if entries != [] {
      ExactIsStored(entries[1..], p, h);
      assert forall e :: e in entries <==> e == entries[0] || e in entries[1..];
    }
  }

  /** What the cache serves is the response of an entry that may serve, at no cost and
      without calling a model; an entry stored for these very inputs is served unjudged. */
  lemma CacheHitsMayServe(item: Item, request: Request, n: nat, j: nat, env: Env)
    requires item.TryCache?
    ensures var t := TryItem(item, request, n, j, env);
            && t.calls == [] && t.judged <= 1
            && (t.accepted.Some? ==>
                  && Consulted(request, env) && t.accepted.value.cacheHit && t.accepted.value.cost == 0.0
                  && exists e :: e in env.entries && e.response == t.accepted.value.response
                                 && MayServe(item, e, request, j, env))
            && (Consulted(request, env)
                && (exists e :: e in env.entries
                                && IsFor(e, request.promptName, CacheKey(request.promptName, request.inputs)))
                ==> t.accepted.Some? && t.judged == 0)
  {
    hide CacheKey;
    var key := CacheKey(request.promptName, request.inputs);
    ExactIsStored(env.entries, request.promptName, key);
    NearestIsLastClosest(env.entries, request, env);
    hide Nearest, Exact;
    var t := TryItem(item, request, n, j, env);
    if t.accepted.Some? {
      var exact := Exact(env.entries, request.promptName, key);
      if exact.Some? {
        assert MayServe(item, exact.value, request, j, env);
      } else {
        var k: nat :| LastClosest(env.entries, k, request, env)
                   && Nearest(env.entries, request, env).value
                      == (env.entries[k], Similarity(env.entries[k], request, env));
        assert MayServe(item, env.entries[k], request, j, env);
      }
    }
  }

  /** A consulted cache that misses holds nothing for these inputs and nothing as close as
      the threshold. */
  lemma CacheMissesAreFar(item: Item, request: Request, n: nat, j: nat, env: Env)
    requires item.TryCache? && Consulted(request, env) && TryItem(item, request, n, j, env).accepted.None?
    ensures forall e | e in env.entries && e.promptName == request.promptName ::
              && e.inputHash != CacheKey(request.promptName, request.inputs)
              && (Comparable(e, request, env) ==> Similarity(e, request, env) < item.threshold)
  {
    hide CacheKey;
    ExactIsStored(env.entries, request.promptName, CacheKey(request.promptName, request.inputs));
    NearestIsLastClosest(env.entries, request, env);
    hide Nearest, Exact;
    forall e | e in env.entries && e.promptName == request.promptName
      ensures e.inputHash != CacheKey(request.promptName, request.inputs)
      ensures Comparable(e, request, env) ==> Similarity(e, request, env) < item.threshold
    {
      if Comparable(e, request, env) {
        var k: nat :| LastClosest(env.entries, k, request, env)
                   && Nearest(env.entries, request, env).value
                      == (env.entries[k], Similarity(env.entries[k], request, env));
        assert Similarity(e, request, env) <= Similarity(env.entries[k], request, env);
      }
    }
  }

  // ---- the reference: try everything, then look for the first acceptable ----

  /** What every item would come to, were none of them accepted before it. */
  function Trials(items: seq<Item>, request: Request, w: World, env: Env): (ts: seq<Trial>)
    ensures |ts| == |items|
  {
    if items == [] then []
    else
      var t := TryItem(items[0], request, |w.calls|, w.judged, env);
      [t] + Trials(items[1..], request, Apply(w, t), env)
  }

  /** Index of the first accepted trial, or the length. */
  function FirstAccepted(ts: seq<Trial>): (k: nat)
    ensures k <= |ts|
    ensures k < |ts| ==> ts[k].accepted.Some?
    ensures forall i | 0 <= i < k :: ts[i].accepted.None?
  {
    if ts == [] || ts[0].accepted.Some? then 0 else 1 + FirstAccepted(ts[1..])
  }

  function ApplyAll(w: World, ts: seq<Trial>): World
    decreases ts
  {
    if ts == [] then w else ApplyAll(Apply(w, ts[0]), ts[1..])
  }

  /** Up to and including the first accepted one. */
  function Reached(ts: seq<Trial>): seq<Trial> {
    var k := FirstAccepted(ts);
    if k < |ts| then ts[..k + 1] else ts
  }

  lemma ReachedMore(t: Trial, rest: seq<Trial>)
    ensures Reached([t] + rest) == if t.accepted.Some? then [t] else [t] + Reached(rest)
    ensures FirstAccepted([t] + rest) == if t.accepted.Some? then 0 else 1 + FirstAccepted(rest)
  {
    assert ([t] + rest)[1..] == rest;
  }

  lemma ApplyMore(w: World, t: Trial, rest: seq<Trial>)
    ensures ApplyAll(w, [t] + rest) == ApplyAll(Apply(w, t), rest)
  {
    hide Apply;
    assert ([t] + rest)[1..] == rest;
  }

  function Verdict(ts: seq<Trial>, prompt: string, end: World): Result<Response, ExecError> {
    var k := FirstAccepted(ts);
    if k < |ts| then Ok(ts[k].accepted.value) else Err(GaveUp(prompt, end))
  }

  /** The executor returns what the first acceptable allowed candidate answered, having done
      what the candidates up to it do and nothing after; if none is acceptable, it has done
      what all of them do, and gives up. */
  lemma {:induction false} RunIsFirstAcceptable(items: seq<Item>, request: Request, w: World, env: Env)
    ensures var ts := Trials(items, request, w, env);
            var end := ApplyAll(w, Reached(ts));
            RunFrom(items, request, w, env) == (Verdict(ts, request.promptName, end), end)
  {
    hide TryItem, GaveUp, Apply, Reached, FirstAccepted, ApplyAll;
    if items != [] {
      hide Verdict;
      var t := TryItem(items[0], request, |w.calls|, w.judged, env);
      var rest := Trials(items[1..], request, Apply(w, t), env);
      ReachedMore(t, rest);
      var end := RunFrom(items, request, w, env).1;
      if t.accepted.Some? {
        ApplyMore(w, t, []);
        ReachedNone(Apply(w, t));
        assert [t] + [] == [t];
      } else {
        RunIsFirstAcceptable(items[1..], request, Apply(w, t), env);
        ApplyMore(w, t, Reached(rest));
      }
    } else {
      ReachedNone(w);
    }
  }

  lemma ReachedNone(w: World)
    ensures FirstAccepted([]) == 0 && Reached([]) == [] && ApplyAll(w, []) == w
  {
  }

  lemma {:induction false} TrialsAreWellBehaved(items: seq<Item>, request: Request, w: World, env: Env)
    ensures var ts := Trials(items, request, w, env);
            forall i | 0 <= i < |items| :: WellBehaved(items[i], ts[i], request, env)
  {
    hide WellBehaved, TryItem, Apply;
    if items != [] {
      var t := TryItem(items[0], request, |w.calls|, w.judged, env);
      ItemIsWellBehaved(items[0], request, |w.calls|, w.judged, env);
      TrialsAreWellBehaved(items[1..], request, Apply(w, t), env);
      var ts := Trials(items, request, w, env);
      var rest := Trials(items[1..], request, Apply(w, t), env);
      assert ts[0] == t;
      assert forall i | 0 < i < |items| :: ts[i] == rest[i - 1] && items[i] == items[1..][i - 1];
    }
  }

  // ---- what an allowlist allows ----

  /** Nothing listed allows everything. Listing a first provider allows only its models, and
      each further one adds its own. Listing models of a provider allows only those of it and
      leaves the other providers as they were. */
  lemma ListingNarrows(a: Allowlist, p: string, names: seq<string>, m: RouteModel)
    ensures Allows(Allowlist([], map[]), m)
    ensures Allows(a.(providers := [p]), m) <==> m.provider == p && Allows(a.(providers := []), m)
    ensures a.providers != [] ==>
              (Allows(a.(providers := a.providers + [p]), m)
               <==> Allows(a, m) || (m.provider == p && Allows(a.(providers := []), m)))
    ensures m.provider != p ==> (Allows(a.(models := a.models[p := names]), m) <==> Allows(a, m))
    ensures m.provider == p ==>
              (Allows(a.(models := a.models[p := names]), m)
               <==> m.name in names && Allows(a.(models := a.models - {p}), m))
  {
  }

  // ---- only allowed models, and bounded sleeps, over a whole run ----

  ghost predicate AllAllowed(items: seq<Item>, allow: Allowlist) {
    forall i | 0 <= i < |items| && items[i].TryModel? :: Allows(allow, items[i].model)
  }

  lemma {:induction false} StepItemsAllowed(steps: seq<CascadeStep>, force: bool, allow: Allowlist)
    ensures AllAllowed(StepItems(steps, force, allow), allow)
  {
    if steps != [] {
      StepItemsAllowed(steps[1..], force, allow);
    }
  }

  lemma {:induction false} FallbackItemsAllowed(providers: seq<RouteModel>, allow: Allowlist)
    ensures AllAllowed(FallbackItems(providers, allow), allow)
  {
    if providers != [] {
      FallbackItemsAllowed(providers[1..], allow);
    }
  }

  lemma {:induction false} ItemsAllowed(decisions: seq<Decision>, force: bool, allow: Allowlist)
    ensures AllAllowed(Items(decisions, force, allow), allow)
  {
    if decisions != [] {
      match decisions[0] {
        case Cascade(steps) => StepItemsAllowed(StepsTried(steps, force), force, allow);
        case Fallbacks(providers) => FallbackItemsAllowed(providers, allow);
        case Cache(_, _, _) =>
      }
      ItemsAllowed(decisions[1..], force, allow);
    }
  }

  /** From `w` to `end` only allowed models were called, and no sleep was too long. */
  ghost predicate StaysWithin(w: World, end: World, env: Env) {
    && w.calls <= end.calls && w.sleeps <= end.sleeps
    && (forall i | |w.calls| <= i < |end.calls| :: Allows(env.allow, end.calls[i].model))
    && (forall i | |w.sleeps| <= i < |end.sleeps| :: end.sleeps[i] <= env.policy.maxDelay)
  }

  lemma ItemStaysWithin(item: Item, request: Request, w: World, env: Env)
    requires item.TryModel? ==> Allows(env.allow, item.model)
    ensures StaysWithin(w, Apply(w, TryItem(item, request, |w.calls|, w.judged, env)), env)
  {
    ItemIsWellBehaved(item, request, |w.calls|, w.judged, env);
    hide TryItem, Allows;
  }

  lemma {:induction false} RunStaysWithin(items: seq<Item>, request: Request, w: World, env: Env)
    requires AllAllowed(items, env.allow)
    ensures StaysWithin(w, RunFrom(items, request, w, env).1, env)
  {
    hide TryItem, Apply, Allows;
    if items != [] {
      hide StaysWithin;
      var t := TryItem(items[0], request, |w.calls|, w.judged, env);
      ItemStaysWithin(items[0], request, w, env);
      if t.accepted.None? {
        RunStaysWithin(items[1..], request, Apply(w, t), env);
      }
    }
  }

  function ItemsFor(routes: Routes, request: Request, env: Env): seq<Item>
    requires request.promptName in routes
  {
    Items(routes[request.promptName].decisions, request.forceCheapest, env.allow)
  }

  /** No execution calls a model the environment does not allow, or sleeps longer than the
      maximum delay. */
  lemma OnlyAllowedModelsAreCalled(routes: Routes, request: Request, w: World, env: Env)
    ensures StaysWithin(w, Executed(routes, request, w, env).1, env)
  {
    if request.promptName in routes {
      ItemsAllowed(routes[request.promptName].decisions, request.forceCheapest, env.allow);
      RunStaysWithin(ItemsFor(routes, request, env), request, Fresh(w), env);
    }
  }

  // ---- what the compiler guarantees bounds what the executor does ----

  function CallsTo(calls: seq<Call>, name: string): nat {
    if calls == [] then 0 else (if calls[0].model.name == name then 1 else 0) + CallsTo(calls[1..], name)
  }

  function ItemsTo(items: seq<Item>, name: string): nat {
    if items == [] then 0
    else Named(items[0], name) + ItemsTo(items[1..], name)
  }

  function Occurrences(names: seq<string>, name: string): nat {
    if names == [] then 0 else (if names[0] == name then 1 else 0) + Occurrences(names[1..], name)
  }

  lemma {:induction false} CallsToJoin(a: seq<Call>, b: seq<Call>, name: string)
    ensures CallsTo(a + b, name) == CallsTo(a, name) + CallsTo(b, name)
  {
    if a == [] {
      assert a + b == b;
    } else {
      assert (a + b)[1..] == a[1..] + b;
      CallsToJoin(a[1..], b, name);
    }
  }

  lemma {:induction false} CallsToAtMost(calls: seq<Call>, name: string)
    ensures CallsTo(calls, name) <= |calls|
    ensures (forall i | 0 <= i < |calls| :: calls[i].model.name != name) ==> CallsTo(calls, name) == 0
  {
    if calls != [] {
      CallsToAtMost(calls[1..], name);
    }
  }

  function Named(item: Item, name: string): nat {
    if item.TryModel? && item.model.name == name then 1 else 0
  }

  lemma CallsOfItem(item: Item, request: Request, w: World, env: Env, name: string)
    ensures var t := TryItem(item, request, |w.calls|, w.judged, env);
            CallsTo(Apply(w, t).calls, name)
            <= CallsTo(w.calls, name) + Named(item, name) * Max(1, env.policy.maxAttempts)
  {
    var t := TryItem(item, request, |w.calls|, w.judged, env);
    ItemIsWellBehaved(item, request, |w.calls|, w.judged, env);
    CallsToJoin(w.calls, t.calls, name);
    CallsToAtMost(t.calls, name);
    hide TryItem;
  }

  lemma Distribute(a: nat, b: nat, m: nat)
    ensures (a + b) * m == a * m + b * m && b * m >= 0
  {
  }

  lemma {:induction false} CallsPerItem(items: seq<Item>, request: Request, w: World, env: Env, name: string)
    ensures var end := RunFrom(items, request, w, env).1;
            CallsTo(end.calls, name)
            <= CallsTo(w.calls, name) + ItemsTo(items, name) * Max(1, env.policy.maxAttempts)
  {
    var m := Max(1, env.policy.maxAttempts);
    if items != [] {
      CallsOfItem(items[0], request, w, env, name);
      var t := TryItem(items[0], request, |w.calls|, w.judged, env);
      hide TryItem, Apply, CallsTo, Max;
      assert ItemsTo(items, name) == Named(items[0], name) + ItemsTo(items[1..], name);
      Distribute(Named(items[0], name), ItemsTo(items[1..], name), m);
      hide ItemsTo;
      if t.accepted.None? {
        CallsPerItem(items[1..], request, Apply(w, t), env, name);
      }
    }
  }

  lemma {:induction false} ItemsToJoin(a: seq<Item>, b: seq<Item>, name: string)
    ensures ItemsTo(a + b, name) == ItemsTo(a, name) + ItemsTo(b, name)
  {
    if a == [] {
      assert a + b == b;
    } else {
      assert (a + b)[1..] == a[1..] + b;
      ItemsToJoin(a[1..], b, name);
    }
  }

  lemma {:induction false} StepItemsPerName(steps: seq<CascadeStep>, force: bool, allow: Allowlist, name: string)
    ensures ItemsTo(StepItems(steps, force, allow), name) <= Occurrences(StepNameList(steps), name)
  {
    if steps != [] {
      StepItemsPerName(steps[1..], force, allow, name);
      assert StepNameList(steps)[1..] == StepNameList(steps[1..]);
      var rest := StepItems(steps[1..], force, allow);
      var own := StepItems(steps, force, allow);
      if Allows(allow, steps[0].model) {
        assert own[1..] == rest;
      } else {
        assert own == rest;
      }
    }
  }

  lemma {:induction false} FallbackItemsPerName(providers: seq<RouteModel>, allow: Allowlist, name: string)
    ensures ItemsTo(FallbackItems(providers, allow), name) <= Occurrences(ModelNameList(providers), name)
  {
    if providers != [] {
      FallbackItemsPerName(providers[1..], allow, name);
      assert ModelNameList(providers)[1..] == ModelNameList(providers[1..]);
      var rest := FallbackItems(providers[1..], allow);
      var own := FallbackItems(providers, allow);
      if Allows(allow, providers[0]) {
        assert own[1..] == rest;
      } else {
        assert own == rest;
      }
    }
  }

  lemma {:induction false} OccurrencesJoin(a: seq<string>, b: seq<string>, name: string)
    ensures Occurrences(a + b, name) == Occurrences(a, name) + Occurrences(b, name)
  {
    if a == [] {
      assert a + b == b;
    } else {
      assert (a + b)[1..] == a[1..] + b;
      OccurrencesJoin(a[1..], b, name);
    }
  }

  lemma {:induction false} OccursOnce(names: seq<string>, name: string)
    requires NoRepeats(names)
    ensures Occurrences(names, name) <= 1
    ensures name !in names ==> Occurrences(names, name) == 0
  {
    if names != [] {
      OccursOnce(names[1..], name);
      assert names == [names[0]] + names[1..];
    }
  }

  lemma TriedStepsPerName(steps: seq<CascadeStep>, force: bool, allow: Allowlist, name: string)
    ensures ItemsTo(StepItems(StepsTried(steps, force), force, allow), name) <= Occurrences(StepNameList(steps), name)
  {
    var tried := StepsTried(steps, force);
    StepItemsPerName(tried, force, allow, name);
    hide StepItems;
    if tried != steps {
      var names := StepNameList(steps);
      assert StepNameList(tried) == names[..1];
      assert names[..1][1..] == [];
    }
  }

  lemma PlanItemsPerName(route: PromptRoute, force: bool, allow: Allowlist, name: string)
    requires ThreePart(route) && NoRepeats(CallNames(route))
    ensures ItemsTo(Items(route.decisions, force, allow), name) <= 1
  {
    var d := route.decisions;
    var cache := DecisionItems(d[0], force, allow);
    var cascade := DecisionItems(d[1], force, allow);
    var fallbacks := DecisionItems(d[2], force, allow);
    assert d[1..][1..] == [d[2]] && d[1..][0] == d[1];
    assert Items([d[2]], force, allow) == fallbacks + Items([], force, allow);
    assert Items(d[1..], force, allow) == cascade + (fallbacks + []);
    assert Items(d, force, allow) == cache + (cascade + fallbacks);
    ItemsToJoin(cache, cascade + fallbacks, name);
    ItemsToJoin(cascade, fallbacks, name);
    TriedStepsPerName(d[1].steps, force, allow, name);
    FallbackItemsPerName(d[2].providers, allow, name);
    assert CallNames(route) == StepNameList(d[1].steps) + ModelNameList(d[2].providers);
    OccurrencesJoin(StepNameList(d[1].steps), ModelNameList(d[2].providers), name);
    OccursOnce(CallNames(route), name);
    assert ItemsTo(cache, name) == 0;
  }

  lemma ExecutedIs(routes: Routes, request: Request, w: World, env: Env)
    requires request.promptName in routes
    ensures Executed(routes, request, w, env) == RunFrom(ItemsFor(routes, request, env), request, Fresh(w), env)
    ensures Fresh(w).calls == w.calls
    ensures ItemsFor(routes, request, env)
         == Items(routes[request.promptName].decisions, request.forceCheapest, env.allow)
  {
  }

  /** In any plan without repeated names, each is called at most as often as attempts are
      allowed, and once in any case. */
  lemma PlanBoundsExecution(routes: Routes, request: Request, w: World, env: Env, name: string)
    requires request.promptName in routes
    requires ThreePart(routes[request.promptName]) && NoRepeats(CallNames(routes[request.promptName]))
    ensures CallsTo(Executed(routes, request, w, env).1.calls, name)
         <= CallsTo(w.calls, name) + Max(1, env.policy.maxAttempts)
  {
    hide *;
    var items := ItemsFor(routes, request, env);
    ExecutedIs(routes, request, w, env);
    PlanItemsPerName(routes[request.promptName], request.forceCheapest, env.allow, name);
    CallsPerItem(items, request, Fresh(w), env, name);
    ProductMonotone(ItemsTo(items, name), 1, Max(1, env.policy.maxAttempts));
  }

  /** The compiled plan bounds execution: running any route the compiler made calls each
      model name at most as often as attempts are allowed, and once in any case. */
  lemma CompiledPlanBoundsExecution(
    prompts: seq<Prompt>, config: CostModel, lock: ModelLock, observed: Option<Observed>, workload: Workload,
    request: Request, w: World, env: Env, name: string)
    requires Artifact(prompts, config, lock, observed, workload).Ok?
    ensures var routes := Artifact(prompts, config, lock, observed, workload).value;
            CallsTo(Executed(routes, request, w, env).1.calls, name)
            <= CallsTo(w.calls, name) + Max(1, env.policy.maxAttempts)
  {
    hide Artifact, RunFrom, CallsTo, CallNames, ThreePart, PlanFor, Settled;
    var routes := Artifact(prompts, config, lock, observed, workload).value;
    CompiledRoutesAreSound(prompts, config, lock, observed, workload);
    if request.promptName in routes {
      PlanBoundsExecution(routes, request, w, env, name);
    }
  }
}
