/** The route executor's loops over decisions, candidates and attempts. */
module RouteExecutor {
  import opened Outcomes
  import opened Router
  import opened RouteCache
  import opened RouteExecution

  class Executor {
    const routing: Routes
    const cache: CacheArtifact
    const remote: Remote
    const allow: Allowlist
    const policy: RetryPolicy
    var calls: seq<Call>
    var judged: nat
    var sleeps: seq<nat>
    var spans: seq<Span>

    constructor (routing: Routes, cache: CacheArtifact, remote: Remote, allow: Allowlist, policy: RetryPolicy)
      ensures this.routing == routing && this.cache == cache && this.remote == remote
      ensures this.allow == allow && this.policy == policy
      ensures View(None, None) == World([], 0, [], [], None, None)
    {
      this.routing, this.cache, this.remote, this.allow, this.policy := routing, cache, remote, allow, policy;
      calls, judged, sleeps, spans := [], 0, [], [];
    }

    function EnvOf(): Env
      reads cache
    {
      Env(allow, policy, remote, cache.namespaceVersion, cache.entries)
    }

    /** What happened so far, with the errors this execution remembers. */
    function View(lastCascade: Option<string>, lastFallback: Option<string>): World
      reads this
    {
      World(calls, judged, sleeps, spans, lastCascade, lastFallback)
    }

    method CallModelWithRetries(call: Call) returns (result: Result<Output, ModelError>, attempts: nat)
      modifies this`calls, this`sleeps
      ensures var r := Retry(call, |old(calls)|, 1, EnvOf());
              && result == r.result && attempts == r.calls >= 1
              && calls == old(calls) + Repeat(call, r.calls)
              && sleeps == old(sleeps) + r.sleeps
    {
      hide Retry, DelayFor;
      attempts := 0;
      ghost var whole := Retry(call, |calls|, 1, EnvOf());
      ghost var slept: seq<nat> := [];
      while true
        invariant attempts == 0 || attempts < policy.maxAttempts
        invariant calls == old(calls) + Repeat(call, attempts) && sleeps == old(sleeps) + slept
        invariant var rest := Retry(call, |calls|, attempts + 1, EnvOf());
                  && whole.result == rest.result && whole.calls == attempts + rest.calls
                  && whole.sleeps == slept + rest.sleeps
        decreases policy.maxAttempts - attempts
      {
        RetryOnce(call, |calls|, attempts + 1, EnvOf());
        var answer := remote.models(|calls|, call);
        calls := calls + [call];
        attempts := attempts + 1;
        if answer.Ok? {
          assert slept + [] == slept;
          return answer, attempts;
        }
        var delay :=
          if attempts >= policy.maxAttempts then None
          else DelayFor(policy, attempts, answer.error.kind, remote.jitter(call.model, call.promptName, attempts));
        if delay.None? {
          assert slept + [] == slept;
          return answer, attempts;
        }
        sleeps := sleeps + [delay.value];
        ghost var rest := Retry(call, |calls|, attempts + 1, EnvOf()).sleeps;
        assert slept + ([delay.value] + rest) == (slept + [delay.value]) + rest;
        slept := slept + [delay.value];
      }
    }

    /** Records the decision; the caller labels the response. */
    method ExecuteCache(item: Item, request: Request) returns (r: Option<Response>)
      requires item.TryCache?
      modifies this`judged, this`spans
      ensures var t := CacheTrial(item, request, old(judged), EnvOf());
              && judged == old(judged) + t.judged
              && spans == old(spans) + t.spans[..1]
              && (r.None? <==> t.accepted.None?)
              && (r.Some? ==> r.value.(model := NameOf(request.defaultModel)) == t.accepted.value)
    {
      if request.bypass {
        spans := spans + [CacheSpan("bypass", None, false, None)];
        return None;
      }
      if request.namespaceVersion != cache.namespaceVersion {
        spans := spans + [CacheSpan("namespace_invalidated", None, false, None)];
        return None;
      }
      var exact := Exact(cache.entries, request.promptName, CacheKey(request.promptName, request.inputs));
      if exact.Some? {
        spans := spans + [CacheSpan("hash_hit", Some(1.0), true, None)];
        return Some(Response(exact.value.response, None, true, 0.0, None));
      }
      var nearest := Nearest(cache.entries, request, EnvOf());
      if nearest.None? {
        spans := spans + [CacheSpan("miss", None, false, None)];
        return None;
      }
      var (entry, similarity) := nearest.value;
      if similarity >= item.threshold {
        spans := spans + [CacheSpan("knn_hit", Some(similarity), true, None)];
        return Some(Response(entry.response, None, true, 0.0, None));
      }
      if item.band.low <= similarity <= item.band.high {
        var answer := remote.judge(
          judged, JudgeCall(item.judge, request.promptName, request.inputs, entry.response, similarity));
        judged := judged + 1;
        var accepted := answer == Ok(true);
        spans := spans + [CacheSpan(if accepted then "judge_hit" else "judge_reject", Some(similarity), accepted,
                                    Some(item.judge.name))];
        return if accepted then Some(Response(entry.response, None, true, 0.0, None)) else None;
      }
      spans := spans + [CacheSpan("miss", Some(similarity), false, None)];
      return None;
    }

    /** Calls one candidate and records its span. */
    method TryCandidate(item: Item, request: Request) returns (accepted: Option<Response>, failure: Option<string>)
      requires item.TryModel?
      modifies this`calls, this`sleeps, this`spans
      ensures var t := ModelTrial(item, request, |old(calls)|, EnvOf());
              && accepted == t.accepted
              && calls == old(calls) + t.calls && sleeps == old(sleeps) + t.sleeps && spans == old(spans) + t.spans
              && t.judged == 0
              && t.failure == (if failure.Some? then Some((item.stage, failure.value)) else None)
    {
      var result, attempts := CallModelWithRetries(CallOf(item, request));
      match result
      case Err(error) =>
        var decision := if item.stage == CascadeStage then "cascade_error" else "fallback_error";
        spans := spans + [CallSpan(decision, Some(item.model.name), false, attempts - 1, item.model.cost)];
        return None, Some(item.model.name + ": " + error.message);
      case Ok(output) =>
        var cost := ObservedCost(output.usage, item.model.cost);
        if item.minimum.None? || output.confidence >= item.minimum.value {
          spans := spans + [CallSpan(DecisionName(item, true), Some(item.model.name), false, attempts - 1, cost)];
          return Some(Response(output.response, Some(item.model.name), false, cost, output.usage)), None;
        }
        spans := spans + [CallSpan(DecisionName(item, false), Some(item.model.name), false, attempts - 1, cost)];
        return None, None;
    }

    method RunCache(item: Item, request: Request) returns (r: Option<Response>)
      requires item.TryCache?
      modifies this`judged, this`spans
      ensures var t := CacheTrial(item, request, old(judged), EnvOf());
              && r == t.accepted && judged == old(judged) + t.judged && spans == old(spans) + t.spans
              && t.calls == [] && t.sleeps == [] && t.failure.None?
    {
      r := ExecuteCache(item, request);
      if r.Some? {
        var model := NameOf(request.defaultModel);
        r := Some(r.value.(model := model, cost := 0.0));
        spans := spans + [CallSpan("cache_hit", model, true, 0, 0.0)];
      }
    }

    /** Walks a cascade: an allowed step that answers at its minimum ends it. */
    method RunCascade(all: seq<CascadeStep>, request: Request, lastCascade: Option<string>,
                      ghost rest: seq<Item>, ghost lastFallback: Option<string>)
      returns (r: Option<Response>, last: Option<string>)
      modifies this`calls, this`sleeps, this`spans
      ensures var whole := old(RunFrom(DecisionItems(Cascade(all), request.forceCheapest, allow) + rest, request,
                                       View(lastCascade, lastFallback), EnvOf()));
              if r.Some? then whole == (Ok(r.value), View(last, lastFallback))
              else whole == RunFrom(rest, request, View(last, lastFallback), EnvOf())
    {
      hide Allows, RunFrom, ModelTrial, CacheTrial;
      var force := request.forceCheapest;
      var steps := StepsTried(all, force);
      ghost var whole := RunFrom(StepItems(steps, force, allow) + rest, request,
                                 View(lastCascade, lastFallback), EnvOf());
      last := lastCascade;
      assert steps[0..] == steps;
      for k := 0 to |steps|
        invariant judged == old(judged)
        invariant whole == RunFrom(StepItems(steps[k..], force, allow) + rest, request,
                                   View(last, lastFallback), EnvOf())
      {
        var step := steps[k];
        ghost var left := StepItems(steps[k + 1..], force, allow);
        assert steps[k..][0] == step && steps[k..][1..] == steps[k + 1..];
        if !Allows(allow, step.model) {
          assert [] + left == left;
          continue;
        }
        var item := TryModel(step.model, Some(step.confidence), step.grounded,
                             if force then None else Some(step.confidence.minimum), CascadeStage);
        assert StepItems(steps[k..], force, allow) == [item] + left;
        assert ([item] + left) + rest == [item] + (left + rest);
        ghost var w := View(last, lastFallback);
        RunMore(item, left + rest, request, w, EnvOf());
        var accepted, failure := TryCandidate(item, request);
        last := if failure.Some? then failure else last;
        assert View(last, lastFallback) == Apply(w, TryItem(item, request, |w.calls|, w.judged, EnvOf()));
        if accepted.Some? {
          return accepted, last;
        }
      }
      assert steps[|steps|..] == [];
      assert [] + rest == rest;
      return None, last;
    }

    /** Walks the fallbacks: an allowed one that answers at all ends it. */
    method RunFallbacks(providers: seq<RouteModel>, request: Request, lastFallback: Option<string>,
                        ghost rest: seq<Item>, ghost lastCascade: Option<string>)
      returns (r: Option<Response>, last: Option<string>)
      modifies this`calls, this`sleeps, this`spans
      ensures var whole := old(RunFrom(DecisionItems(Fallbacks(providers), request.forceCheapest, allow) + rest,
                                       request, View(lastCascade, lastFallback), EnvOf()));
              if r.Some? then whole == (Ok(r.value), View(lastCascade, last))
              else whole == RunFrom(rest, request, View(lastCascade, last), EnvOf())
    {
      hide Allows, RunFrom, ModelTrial, CacheTrial;
      ghost var whole := RunFrom(FallbackItems(providers, allow) + rest, request,
                                 View(lastCascade, lastFallback), EnvOf());
      last := lastFallback;
      assert providers[0..] == providers;
      for k := 0 to |providers|
        invariant judged == old(judged)
        invariant whole == RunFrom(FallbackItems(providers[k..], allow) + rest, request,
                                   View(lastCascade, last), EnvOf())
      {
        var model := providers[k];
        ghost var left := FallbackItems(providers[k + 1..], allow);
        assert providers[k..][0] == model && providers[k..][1..] == providers[k + 1..];
        if !Allows(allow, model) {
          assert [] + left == left;
          continue;
        }
        var item := TryModel(model, None, false, None, FallbackStage);
        assert FallbackItems(providers[k..], allow) == [item] + left;
        assert ([item] + left) + rest == [item] + (left + rest);
        ghost var w := View(lastCascade, last);
        RunMore(item, left + rest, request, w, EnvOf());
        var accepted, failure := TryCandidate(item, request);
        last := if failure.Some? then failure else last;
        assert View(lastCascade, last) == Apply(w, TryItem(item, request, |w.calls|, w.judged, EnvOf()));
        if accepted.Some? {
          return accepted, last;
        }
      }
      assert providers[|providers|..] == [];
      assert [] + rest == rest;
      return None, last;
    }

    /** The nested loops do exactly what the first acceptable allowed candidate asks for. */
    method Execute(request: Request) returns (r: Result<Response, ExecError>)
      modifies this`calls, this`judged, this`sleeps, this`spans
      ensures var (result, end) := Executed(routing, request, old(View(None, None)), EnvOf());
              r == result && View(end.lastCascade, end.lastFallback) == end
    {
      if request.promptName !in routing {
        return Err(MissingPrompt(request.promptName));
      }
      var decisions := routing[request.promptName].decisions;
      var force := request.forceCheapest;
      var lastCascade: Option<string>, lastFallback: Option<string> := None, None;
      ghost var whole := Executed(routing, request, View(None, None), EnvOf());
      assert decisions[0..] == decisions;
      for i := 0 to |decisions|
        invariant whole == RunFrom(Items(decisions[i..], force, allow), request,
                                   View(lastCascade, lastFallback), EnvOf())
      {
        var decision := decisions[i];
        ghost var rest := Items(decisions[i + 1..], force, allow);
        assert decisions[i..][0] == decision && decisions[i..][1..] == decisions[i + 1..];
        assert Items(decisions[i..], force, allow) == DecisionItems(decision, force, allow) + rest;
        match decision {
          case Cache(threshold, band, judge) =>
            var item := TryCache(threshold, band, judge);
            ghost var w := View(lastCascade, lastFallback);
            RunMore(item, rest, request, w, EnvOf());
            var response := RunCache(item, request);
            assert View(lastCascade, lastFallback) == Apply(w, TryItem(item, request, |w.calls|, w.judged, EnvOf()));
            if response.Some? {
              return Ok(response.value);
            }
          case Cascade(steps) =>
            var response, last := RunCascade(steps, request, lastCascade, rest, lastFallback);
            lastCascade := last;
            if response.Some? {
              return Ok(response.value);
            }
          case Fallbacks(providers) =>
            var response, last := RunFallbacks(providers, request, lastFallback, rest, lastCascade);
            lastFallback := last;
            if response.Some? {
              return Ok(response.value);
            }
        }
      }
      assert decisions[|decisions|..] == [];
      return Err(GaveUp(request.promptName, View(lastCascade, lastFallback)));
    }
  }

  lemma RetryOnce(call: Call, n: nat, attempt: nat, env: Env)
    ensures var answer := env.remote.models(n, call);
            var delay :=
              if answer.Ok? || attempt >= env.policy.maxAttempts then None
              else DelayFor(env.policy, attempt, answer.error.kind,
                            env.remote.jitter(call.model, call.promptName, attempt));
            Retry(call, n, attempt, env)
            == match delay
               case None => Retried(answer, 1, [])
               case Some(d) =>
                 var r := Retry(call, n + 1, attempt + 1, env);
                 Retried(r.result, r.calls + 1, [d] + r.sleeps)
  {
    hide DelayFor;
  }

  lemma RunMore(item: Item, rest: seq<Item>, request: Request, w: World, env: Env)
    ensures var t := TryItem(item, request, |w.calls|, w.judged, env);
            RunFrom([item] + rest, request, w, env)
            == if t.accepted.Some? then (Ok(t.accepted.value), Apply(w, t))
               else RunFrom(rest, request, Apply(w, t), env)
  {
    assert ([item] + rest)[1..] == rest;
  }
}
