/** What the spans of an execution tell, and when the cache serves and the judge is asked. */
module RouteSpans {
  import opened Outcomes
  import opened RouteCache
  import opened RouteExecution
  import opened RouteExecutionProofs

  // ---- the cache ----

  predicate HasExact(request: Request, env: Env) {
    exists e :: e in env.entries && IsFor(e, request.promptName, CacheKey(request.promptName, request.inputs))
  }

  /** Entry `k` decides: nothing is stored for these very inputs, and it is the closest. */
  ghost predicate Closest(k: nat, request: Request, env: Env) {
    Consulted(request, env) && !HasExact(request, env) && LastClosest(env.entries, k, request, env)
  }

  /** The judge is asked exactly about a closest entry that is below the threshold and within
      its band, ends included. */
  ghost predicate InBand(k: nat, item: Item, request: Request, env: Env)
    requires item.TryCache?
  {
    && Closest(k, request, env)
    && var s := Similarity(env.entries[k], request, env);
       s < item.threshold && item.band.low <= s <= item.band.high
  }

  ghost predicate MustServe(item: Item, request: Request, j: nat, env: Env)
    requires item.TryCache?
  {
    || (Consulted(request, env) && HasExact(request, env))
    || (exists k: nat :: Closest(k, request, env) && Similarity(env.entries[k], request, env) >= item.threshold)
    || (exists k: nat ::
          InBand(k, item, request, env) && JudgeSays(item, env.entries[k], request, j, env) == Ok(true))
  }

  /** The cache serves exactly what is stored for these very inputs, or else the closest entry
      if it reaches the threshold, or lies in the judge's band and the judge accepts it; what
      it serves is labelled with the default model and costs nothing. The judge is asked at
      most once, exactly for such an entry. */
  lemma CacheServesIff(item: Item, request: Request, n: nat, j: nat, env: Env)
    requires item.TryCache?
    ensures var t := TryItem(item, request, n, j, env);
            && (t.accepted.Some? <==> MustServe(item, request, j, env))
            && t.judged == (if exists k: nat :: InBand(k, item, request, env) then 1 else 0)
            && (t.accepted.Some? ==>
                  t.accepted.value.model == NameOf(request.defaultModel) && t.accepted.value.cost == 0.0)
  {
    hide CacheKey;
    var key := CacheKey(request.promptName, request.inputs);
    ExactIsStored(env.entries, request.promptName, key);
    NearestIsLastClosest(env.entries, request, env);
    assert HasExact(request, env) <==> Exact(env.entries, request.promptName, key).Some?;
    ClosestIsOne(request, env);
    hide Nearest, Exact, LastClosest, HasExact, Comparable;
    if Consulted(request, env) && !HasExact(request, env) && Nearest(env.entries, request, env).Some? {
      var k: nat :| LastClosest(env.entries, k, request, env)
                 && Nearest(env.entries, request, env).value
                    == (env.entries[k], Similarity(env.entries[k], request, env));
      assert Closest(k, request, env) && forall l: nat | Closest(l, request, env) :: l == k;
      assert InBand(k, item, request, env) <==> exists l: nat :: InBand(l, item, request, env);
    } else {
      assert forall l: nat :: !Closest(l, request, env) by {
        NothingClosest(request, env);
      }
    }
  }

  lemma NothingClosest(request: Request, env: Env)
    requires !Consulted(request, env) || HasExact(request, env) || Nearest(env.entries, request, env).None?
    ensures forall l: nat :: !Closest(l, request, env)
  {
    NearestIsLastClosest(env.entries, request, env);
    hide Nearest;
    forall l: nat
      ensures !Closest(l, request, env)
    {
      if LastClosest(env.entries, l, request, env) {
        assert env.entries[l] in env.entries;
      }
    }
  }

  /** There is only one last closest entry. */
  lemma ClosestIsOne(request: Request, env: Env)
    ensures forall k: nat, l: nat |
              LastClosest(env.entries, k, request, env) && LastClosest(env.entries, l, request, env) :: k == l
    ensures forall k: nat | LastClosest(env.entries, k, request, env) ::
              Comparable(env.entries[k], request, env)
  {
  }

  // ---- spans ----

  /** A consulted cache leaves a span that says whether it served and which judge it asked, if
      any, with the similarity of what decided; serving leaves a second one, at no cost. */
  lemma CacheSpansTell(item: Item, request: Request, n: nat, j: nat, env: Env)
    requires item.TryCache?
    ensures var t := TryItem(item, request, n, j, env);
            && |t.spans| >= 1 && t.spans[0].CacheSpan?
            && (t.spans[0].hit <==> t.accepted.Some?)
            && t.spans[0].judge == (if t.judged == 1 then Some(item.judge.name) else None)
            && (forall k: nat | Closest(k, request, env) ::
                  t.spans[0].similarity == Some(Similarity(env.entries[k], request, env)))
            && (Consulted(request, env) && HasExact(request, env) ==> t.spans[0].similarity == Some(1.0))
            && t.spans[1..] == if t.accepted.Some?
                               then [CallSpan("cache_hit", NameOf(request.defaultModel), true, 0, 0.0)] else []
  {
    hide CacheKey;
    var key := CacheKey(request.promptName, request.inputs);
    ExactIsStored(env.entries, request.promptName, key);
    NearestIsLastClosest(env.entries, request, env);
    assert HasExact(request, env) <==> Exact(env.entries, request.promptName, key).Some?;
    ClosestIsOne(request, env);
    hide Nearest, Exact, LastClosest;
  }

  /** What the decision in a candidate's span says of its last answer. */
  predicate Names(decision: string, item: Item, answer: Result<Output, ModelError>, accepted: bool)
    requires item.TryModel?
  {
    if item.stage == FallbackStage then
      && (decision == "fallback_accept" <==> answer.Ok?)
      && (decision == "fallback_error" <==> answer.Err?)
    else
      && (decision == "cascade_error" <==> answer.Err?)
      && (decision == "cascade_escalation" <==> answer.Ok? && !accepted)
      && (decision == "cascade_accept" <==> accepted && item.minimum.Some?)
      && (decision == "degrade_forced" <==> accepted && item.minimum.None?)
  }

  /** A candidate's span never claims a cache hit, and its decision tells how it ended. */
  lemma ModelSpansTell(item: Item, request: Request, n: nat, j: nat, env: Env)
    requires item.TryModel?
    ensures var t := TryItem(item, request, n, j, env);
            && |t.spans| == 1 && |t.calls| >= 1 && t.spans[0].CallSpan? && !t.spans[0].hit
            && var last := AnswerAt(CallOf(item, request), n + |t.calls| - 1, env);
               Names(t.spans[0].decision, item, last, t.accepted.Some?)
  {
    AcceptedIff(item, request, n, j, env);
    ItemIsWellBehaved(item, request, n, j, env);
    RetryStopsAtFirst(CallOf(item, request), n, env);
    hide Retry;
    assert |"fallback_accept"| == 15 && |"fallback_error"| == 14;
    assert |"cascade_error"| == 13 && |"cascade_escalation"| == 18;
    assert |"cascade_accept"| == 14 && |"degrade_forced"| == 14 && "cascade_accept"[0] != "degrade_forced"[0];
  }
}
