/** What it says of the calls made that an execution is exhausted. */
module RouteExhaustion {
  import opened Outcomes
  import opened JsonValues
  import opened Router
  import opened RouteCache
  import opened RouteExecution
  import opened RouteExecutionProofs

  // ---- what plain exhaustion says of the candidates ----

  ghost predicate AllBelowMinimum(ts: seq<Trial>) {
    forall i | 0 <= i < |ts| :: ts[i].accepted.None? && ts[i].failure.None?
  }

  lemma AllBelowMore(t: Trial, rest: seq<Trial>)
    ensures AllBelowMinimum([t] + rest) <==> t.accepted.None? && t.failure.None? && AllBelowMinimum(rest)
  {
    var ts := [t] + rest;
    assert ts[0] == t && forall i | 0 <= i < |rest| :: ts[i + 1] == rest[i];
  }

  ghost predicate NoFailureYet(w: World) {
    w.lastCascade.None? && w.lastFallback.None?
  }

  lemma ApplyFailure(w: World, t: Trial)
    ensures NoFailureYet(Apply(w, t)) <==> NoFailureYet(w) && t.failure.None?
  {
  }

  lemma {:induction false} ExhaustedFrom(items: seq<Item>, request: Request, w: World, env: Env)
    ensures RunFrom(items, request, w, env).0 == Err(Exhausted(request.promptName))
       <==> NoFailureYet(w) && AllBelowMinimum(Trials(items, request, w, env))
  {
    hide TryItem, Apply;
    if items != [] {
      hide NoFailureYet, AllBelowMinimum;
      var t := TryItem(items[0], request, |w.calls|, w.judged, env);
      ApplyFailure(w, t);
      AllBelowMore(t, Trials(items[1..], request, Apply(w, t), env));
      ExhaustedFrom(items[1..], request, Apply(w, t), env);
    }
  }

  /** Plain exhaustion is reported exactly when nothing was accepted and no candidate ended
      in an error: every one of them answered, below its minimum. */
  lemma PlainExhaustedIff(routes: Routes, request: Request, w: World, env: Env)
    requires request.promptName in routes
    ensures Executed(routes, request, w, env).0 == Err(Exhausted(request.promptName))
       <==> AllBelowMinimum(Trials(ItemsFor(routes, request, env), request, Fresh(w), env))
  {
    ExhaustedFrom(ItemsFor(routes, request, env), request, Fresh(w), env);
  }

  /** That no single call errored is not needed: an error that is retried away is forgotten.
      Here the first call fails for the moment, the second answers below the minimum, and
      plain exhaustion is reported. */
  lemma RetriedErrorsAreForgotten()
    returns (routes: Routes, request: Request, w: World, env: Env)
    ensures request.promptName in routes
    ensures var (r, w') := Executed(routes, request, w, env);
            && r == Err(Exhausted(request.promptName))
            && |w'.calls| > |w.calls| && AnswerAt(w'.calls[|w.calls|], |w.calls|, env).Err?
  {
    var model := RouteModel("m", "p", Low, 1.0, Provider);
    var step := CascadeStep(model, ConfidenceRubric(Low, Low), false);
    routes := map["q" := PromptRoute(Low, [Cascade([step])], [])];
    request := Request("q", Null, [], "1", false, false, None);
    w := World([], 0, [], [], None, None);
    env := Env(
      Allowlist([], map[]),
      RetryPolicy(2, 0, 0),
      Remote((n, c) => if n == 0 then Err(ModelError(Transient(None), "busy")) else Ok(Output(Null, 0.0, None)),
             (n, c) => Ok(false), (m, p, a) => 0.0, (a, b) => None),
      "1",
      []);
    var decisions := [Cascade([step])];
    assert StepsTried([step], false) == [step];
    var item := TryModel(model, Some(step.confidence), false, Some(0.72), CascadeStage);
    assert StepItems([step], false, env.allow) == [item];
    assert Items(decisions, false, env.allow) == [item];
    var call := CallOf(item, request);
    assert Retry(call, 1, 2, env) == Retried(Ok(Output(Null, 0.0, None)), 1, []);
    var r := Retry(call, 0, 1, env);
    assert r.calls == 2 && r.result == Ok(Output(Null, 0.0, None));
    var t := TryItem(item, request, 0, 0, env);
    assert t.accepted.None? && t.failure.None? && t.calls == Repeat(call, 2);
    assert RunFrom([item], request, Fresh(w), env) == (Err(Exhausted("q")), Apply(Fresh(w), t));
  }

  // ---- when plain exhaustion tells that no call errored ----

  /** Every call made between `w` and `end` was answered without an error. */
  ghost predicate NoCallErred(w: World, end: World, env: Env) {
    forall i | |w.calls| <= i < |end.calls| :: AnswerAt(end.calls[i], i, env).Ok?
  }

  /** An execution that fails reports plain exhaustion exactly when none of its calls erred. */
  ghost predicate ExhaustionTells(routes: Routes, request: Request, w: World, env: Env) {
    var (r, end) := Executed(routes, request, w, env);
    r.Err? ==> (r == Err(Exhausted(request.promptName)) <==> NoCallErred(w, end, env))
  }

  /** The same environment with other models, another judge and other jitter. */
  function Answering(env: Env, remote: Remote): Env {
    env.(remote := remote.(similarity := env.remote.similarity))
  }

  /** The entry is served whatever the judge says. */
  predicate Serves(e: CacheEntry, threshold: real, request: Request, env: Env) {
    && e.promptName == request.promptName
    && (|| e.inputHash == CacheKey(request.promptName, request.inputs)
        || (Comparable(e, request, env) && Similarity(e, request, env) >= threshold))
  }

  /** Whatever is answered, the item is accepted or fails: a candidate without a minimum, or
      a cache that holds an entry it serves unjudged. */
  ghost predicate Decisive(item: Item, request: Request, env: Env) {
    match item
    case TryModel(_, _, _, minimum, _) => minimum.None?
    case TryCache(threshold, _, _) =>
      Consulted(request, env) && exists e :: e in env.entries && Serves(e, threshold, request, env)
  }

  /** Errors can be forgotten: a retry is allowed, there is a candidate to retry, and nothing
      is sure to end the execution otherwise. */
  ghost predicate CanForget(items: seq<Item>, request: Request, env: Env) {
    && env.policy.maxAttempts >= 2
    && (exists i :: 0 <= i < |items| && items[i].TryModel?)
    && (forall i | 0 <= i < |items| :: !Decisive(items[i], request, env))
  }

  lemma ItemErrs(item: Item, request: Request, w: World, env: Env)
    ensures var t := TryItem(item, request, |w.calls|, w.judged, env);
            var end := Apply(w, t);
            && w.calls <= end.calls
            && (t.failure.Some? ==> !NoCallErred(w, end, env))
            && (t.failure.None? && (item.TryCache? || env.policy.maxAttempts <= 1) ==> NoCallErred(w, end, env))
            && (item.TryModel? ==> |w.calls| < |end.calls|)
  {
    var n := |w.calls|;
    var t := TryItem(item, request, n, w.judged, env);
    var end := Apply(w, t);
    ItemIsWellBehaved(item, request, n, w.judged, env);
    if item.TryModel? {
      AcceptedIff(item, request, n, w.judged, env);
      hide TryItem;
      assert end.calls[|end.calls| - 1] == CallOf(item, request);
      assert env.policy.maxAttempts <= 1 ==> |t.calls| == 1;
    }
  }

  lemma NoCallErredJoins(w: World, mid: World, end: World, env: Env)
    requires w.calls <= mid.calls <= end.calls
    ensures NoCallErred(w, end, env) <==> NoCallErred(w, mid, env) && NoCallErred(mid, end, env)
  {
    assert forall i | 0 <= i < |mid.calls| :: end.calls[i] == mid.calls[i];
  }

  /** A failed execution without an erring call is plainly exhausted; and if no candidate is
      retried, a plainly exhausted one is without an erring call. */
  lemma {:induction false} ExhaustionTellsFrom(items: seq<Item>, request: Request, w: World, env: Env)
    ensures var (r, end) := RunFrom(items, request, w, env);
            && w.calls <= end.calls
            && (r.Err? && NoFailureYet(w) && NoCallErred(w, end, env) ==> r == Err(Exhausted(request.promptName)))
            && (r == Err(Exhausted(request.promptName))
                && (env.policy.maxAttempts <= 1 || forall i | 0 <= i < |items| :: items[i].TryCache?)
                ==> NoCallErred(w, end, env))
  {
    hide TryItem, Apply, NoFailureYet, NoCallErred;
    if items == [] {
      hide *;
      NothingRun(request, w, env);
    } else {
      var t := TryItem(items[0], request, |w.calls|, w.judged, env);
      var next := Apply(w, t);
      ItemErrs(items[0], request, w, env);
      ApplyFailure(w, t);
      if t.accepted.None? {
        var end := RunFrom(items, request, w, env).1;
        ExhaustionTellsFrom(items[1..], request, next, env);
        ExhaustedFrom(items[1..], request, next, env);
        NoCallErredJoins(w, next, end, env);
      }
    }
  }

  lemma NothingRun(request: Request, w: World, env: Env)
    ensures RunFrom([], request, w, env) == (Err(GaveUp(request.promptName, w)), w)
    ensures NoFailureYet(w) <==> GaveUp(request.promptName, w) == Exhausted(request.promptName)
    ensures NoCallErred(w, w, env)
  {
  }

  lemma DecisiveItem(item: Item, request: Request, n: nat, j: nat, env: Env)
    requires Decisive(item, request, env)
    ensures var t := TryItem(item, request, n, j, env); t.accepted.Some? || t.failure.Some?
  {
    if item.TryModel? {
      AcceptedIff(item, request, n, j, env);
    } else if TryItem(item, request, n, j, env).accepted.None? {
      CacheMissesAreFar(item, request, n, j, env);
    }
  }

  /** What is sure to be accepted or to fail leaves no room for plain exhaustion. */
  lemma {:induction false} DecisiveMeansNotExhausted(items: seq<Item>, k: nat, request: Request, w: World, env: Env)
    requires k < |items| && Decisive(items[k], request, env)
    ensures RunFrom(items, request, w, env).0 != Err(Exhausted(request.promptName))
  {
    hide TryItem, Apply, Decisive, NoFailureYet;
    var t := TryItem(items[0], request, |w.calls|, w.judged, env);
    var next := Apply(w, t);
    if t.accepted.None? {
      ApplyFailure(w, t);
      ExhaustedFrom(items[1..], request, next, env);
      if k == 0 {
        DecisiveItem(items[0], request, |w.calls|, w.judged, env);
      } else {
        DecisiveMeansNotExhausted(items[1..], k - 1, request, next, env);
      }
    }
  }

  // ---- an environment in which an error is forgotten ----

  /** Less than every minimum. */
  function Below(items: seq<Item>): (r: real)
    ensures forall i | 0 <= i < |items| && items[i].TryModel? && items[i].minimum.Some? :: r < items[i].minimum.value
  {
    if items == [] then 0.0
    else
      var r := Below(items[1..]);
      match items[0]
      case TryModel(_, _, _, Some(m), _) => if r < m then r else m - 1.0
      case _ => r
  }

  /** The first call errs for the moment, all others answer below; the judge accepts nothing. */
  function Forgetful(first: nat, below: real, env: Env): Env {
    Answering(env, Remote(
      (n, call) => if n == first then Err(ModelError(Transient(None), "busy")) else Ok(Output(Null, below, None)),
      (n, call) => Ok(false),
      (model, prompt, attempt) => 0.0,
      env.remote.similarity))
  }

  lemma ForgetfulItem(item: Item, first: nat, below: real, request: Request, n: nat, j: nat, env: Env)
    requires env.policy.maxAttempts >= 2 && n >= first && !Decisive(item, request, env)
    requires item.TryModel? && item.minimum.Some? ==> below < item.minimum.value
    ensures var t := TryItem(item, request, n, j, Forgetful(first, below, env)); t.accepted.None? && t.failure.None?
  {
    var env' := Forgetful(first, below, env);
    if item.TryModel? {
      AcceptedIff(item, request, n, j, env');
      RetryStopsAtFirst(CallOf(item, request), n, env');
    } else {
      CacheHitsMayServe(item, request, n, j, env');
      ItemIsWellBehaved(item, request, n, j, env');
      hide TryItem, CacheKey;
    }
  }

  lemma {:induction false} ForgetfulRun(
    items: seq<Item>, first: nat, below: real, request: Request, w: World, env: Env)
    requires env.policy.maxAttempts >= 2 && |w.calls| >= first && NoFailureYet(w)
    requires forall i | 0 <= i < |items| ::
               && !Decisive(items[i], request, env)
               && (items[i].TryModel? && items[i].minimum.Some? ==> below < items[i].minimum.value)
    ensures var (r, end) := RunFrom(items, request, w, Forgetful(first, below, env));
            && r == Err(Exhausted(request.promptName)) && |w.calls| <= |end.calls|
            && ((exists i :: 0 <= i < |items| && items[i].TryModel?) ==> |w.calls| < |end.calls|)
  {
    hide TryItem, Apply, Decisive, NoFailureYet, NoCallErred, Forgetful;
    var env' := Forgetful(first, below, env);
    if items == [] {
      hide *;
      NothingRun(request, w, env');
    } else {
      ForgetfulItem(items[0], first, below, request, |w.calls|, w.judged, env);
      ItemErrs(items[0], request, w, env');
      var t := TryItem(items[0], request, |w.calls|, w.judged, env');
      ApplyFailure(w, t);
      ForgetfulRun(items[1..], first, below, request, Apply(w, t), env);
      assert forall i | 0 < i < |items| :: items[i] == items[1..][i - 1];
    }
  }

  lemma ForgetfulExecution(routes: Routes, request: Request, w: World, env: Env)
    requires request.promptName in routes && CanForget(ItemsFor(routes, request, env), request, env)
    ensures exists remote :: !ExhaustionTells(routes, request, w, Answering(env, remote))
  {
    var items, n := ItemsFor(routes, request, env), |w.calls|;
    var env' := Forgetful(n, Below(items), env);
    ForgetfulRun(items, n, Below(items), request, Fresh(w), env);
    ExecutedIs(routes, request, w, env');
    var end := Executed(routes, request, w, env').1;
    assert AnswerAt(end.calls[n], n, env').Err?;
    assert Answering(env, env'.remote) == env';
  }

  lemma UnforgettingExecution(routes: Routes, request: Request, w: World, env: Env, remote: Remote)
    requires request.promptName in routes && !CanForget(ItemsFor(routes, request, env), request, env)
    ensures ExhaustionTells(routes, request, w, Answering(env, remote))
  {
    var env' := Answering(env, remote);
    var items := ItemsFor(routes, request, env);
    ExecutedIs(routes, request, w, env');
    ExhaustionTellsFrom(items, request, Fresh(w), env');
    if k: nat :| k < |items| && Decisive(items[k], request, env) {
      assert Decisive(items[k], request, env');
      DecisiveMeansNotExhausted(items, k, request, Fresh(w), env');
    }
  }

  /** Whether plain exhaustion tells that no call erred can be seen before the execution:
      whatever the models, the judge and the jitter turn out to be, it does, exactly unless
      errors can be forgotten. */
  lemma ExhaustionTellsIff(routes: Routes, request: Request, w: World, env: Env)
    requires request.promptName in routes
    ensures (forall remote :: ExhaustionTells(routes, request, w, Answering(env, remote)))
       <==> !CanForget(ItemsFor(routes, request, env), request, env)
  {
    hide *;
    if CanForget(ItemsFor(routes, request, env), request, env) {
      ForgetfulExecution(routes, request, w, env);
    } else {
      forall remote
        ensures ExhaustionTells(routes, request, w, Answering(env, remote))
      {
        UnforgettingExecution(routes, request, w, env, remote);
      }
    }
  }
}
