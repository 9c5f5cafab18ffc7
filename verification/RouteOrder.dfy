/** What an execution asks of whom, in which order, and why it stops, said of the plan. */
module RouteOrder {
  import opened Outcomes
  import opened Router
  import opened RouterProofs
  import opened RouteExecution
  import opened RouteExecutionProofs

  /** A model the plan would call, and the confidence its answer must reach, if any. */
  datatype Ask = Ask(call: Call, minimum: Option<real>)

  function StepAsk(s: CascadeStep, request: Request): Ask {
    Ask(Call(s.model, request.promptName, request.inputs, Some(s.confidence), s.grounded),
        if request.forceCheapest then None else Some(s.confidence.minimum))
  }

  function FallbackAsk(m: RouteModel, request: Request): Ask {
    Ask(Call(m, request.promptName, request.inputs, None, false), None)
  }

  /** A decision's candidates, allowed or not: every step of a cascade, or only the first
      when the cheapest is forced, and every fallback. */
  function AsksOf(d: Decision, request: Request): seq<Ask> {
    match d
    case Cache(_, _, _) => []
    case Cascade(steps) =>
      if request.forceCheapest && |steps| > 1 then [StepAsk(steps[0], request)]
      else seq(|steps|, i requires 0 <= i < |steps| => StepAsk(steps[i], request))
    case Fallbacks(providers) =>
      seq(|providers|, i requires 0 <= i < |providers| => FallbackAsk(providers[i], request))
  }

  function Permitted(cs: seq<Ask>, allow: Allowlist): seq<Ask> {
    if cs == [] then []
    else (if Allows(allow, cs[0].call.model) then [cs[0]] else []) + Permitted(cs[1..], allow)
  }

  /** The allowed candidates of a plan, in the order of its decisions. */
  function Planned(decisions: seq<Decision>, request: Request, allow: Allowlist): seq<Ask> {
    if decisions == [] then []
    else Permitted(AsksOf(decisions[0], request), allow) + Planned(decisions[1..], request, allow)
  }

  predicate Satisfies(c: Ask, answer: Result<Output, ModelError>) {
    answer.Ok? && (c.minimum.Some? ==> answer.value.confidence >= c.minimum.value)
  }

  /** The answer satisfied the candidate and is the response. */
  predicate Answered(c: Ask, answer: Result<Output, ModelError>, r: Response) {
    && Satisfies(c, answer)
    && r.response == answer.value.response && r.usage == answer.value.usage && r.model == Some(c.call.model.name)
  }

  ghost predicate AllTo(calls: seq<Call>, c: Ask) {
    |calls| >= 1 && forall i | 0 <= i < |calls| :: calls[i] == c.call
  }

  /** The `calls`, made after `n` others, are one or more to each candidate in order, none of
      whose last answers satisfied it. */
  ghost predicate AllTried(calls: seq<Call>, n: nat, cs: seq<Ask>, env: Env)
    decreases |cs|
  {
    if cs == [] then calls == []
    else
      exists k :: 1 <= k <= |calls| && AllTo(calls[..k], cs[0])
                  && !Satisfies(cs[0], AnswerAt(cs[0].call, n + k - 1, env))
                  && AllTried(calls[k..], n + k, cs[1..], env)
  }

  /** The candidates before the `j`-th were tried in vain, and the last calls are to the
      `j`-th, whose answer satisfied and is the response. */
  ghost predicate Served(calls: seq<Call>, n: nat, cs: seq<Ask>, j: nat, r: Response, env: Env) {
    && j < |cs|
    && exists k :: 0 <= k < |calls| && AllTried(calls[..k], n, cs[..j], env) && AllTo(calls[k..], cs[j])
                   && Answered(cs[j], AnswerAt(cs[j].call, n + |calls| - 1, env), r)
  }

  // ---- the items tried are those ----

  function AskOf(item: Item, request: Request): Ask
    requires item.TryModel?
  {
    Ask(CallOf(item, request), item.minimum)
  }

  function AsksIn(items: seq<Item>, request: Request): seq<Ask> {
    if items == [] then []
    else (if items[0].TryModel? then [AskOf(items[0], request)] else []) + AsksIn(items[1..], request)
  }

  lemma {:induction false} AsksInJoin(a: seq<Item>, b: seq<Item>, request: Request)
    ensures AsksIn(a + b, request) == AsksIn(a, request) + AsksIn(b, request)
  {
    if a == [] {
      assert a + b == b;
    } else {
      assert (a + b)[1..] == a[1..] + b;
      AsksInJoin(a[1..], b, request);
    }
  }

  lemma {:induction false} StepItemsAsk(steps: seq<CascadeStep>, request: Request, allow: Allowlist)
    ensures AsksIn(StepItems(steps, request.forceCheapest, allow), request)
         == Permitted(seq(|steps|, i requires 0 <= i < |steps| => StepAsk(steps[i], request)), allow)
  {
    if steps != [] {
      var asks := seq(|steps|, i requires 0 <= i < |steps| => StepAsk(steps[i], request));
      var rest := steps[1..];
      assert asks[1..] == seq(|rest|, i requires 0 <= i < |rest| => StepAsk(rest[i], request));
      StepItemsAsk(rest, request, allow);
      var own := StepItems(steps, request.forceCheapest, allow);
      var others := StepItems(rest, request.forceCheapest, allow);
      assert own == if Allows(allow, steps[0].model) then [own[0]] + others else others;
      assert Allows(allow, steps[0].model) ==> own[1..] == others && AskOf(own[0], request) == asks[0];
    }
  }

  lemma {:induction false} FallbackItemsAsk(providers: seq<RouteModel>, request: Request, allow: Allowlist)
    ensures AsksIn(FallbackItems(providers, allow), request)
         == Permitted(seq(|providers|, i requires 0 <= i < |providers| => FallbackAsk(providers[i], request)), allow)
  {
    if providers != [] {
      var asks := seq(|providers|, i requires 0 <= i < |providers| => FallbackAsk(providers[i], request));
      var rest := providers[1..];
      assert asks[1..] == seq(|rest|, i requires 0 <= i < |rest| => FallbackAsk(rest[i], request));
      FallbackItemsAsk(rest, request, allow);
      var own, others := FallbackItems(providers, allow), FallbackItems(rest, allow);
      assert own == if Allows(allow, providers[0]) then [own[0]] + others else others;
      assert Allows(allow, providers[0]) ==> own[1..] == others && AskOf(own[0], request) == asks[0];
    }
  }

  lemma DecisionItemsAsk(d: Decision, request: Request, allow: Allowlist)
    ensures AsksIn(DecisionItems(d, request.forceCheapest, allow), request) == Permitted(AsksOf(d, request), allow)
  {
    match d
    case Cache(_, _, _) =>
      assert DecisionItems(d, request.forceCheapest, allow)[1..] == [];
    case Cascade(steps) =>
      var tried := StepsTried(steps, request.forceCheapest);
      StepItemsAsk(tried, request, allow);
      assert AsksOf(d, request) == seq(|tried|, i requires 0 <= i < |tried| => StepAsk(tried[i], request));
    case Fallbacks(providers) => FallbackItemsAsk(providers, request, allow);
  }

  lemma {:induction false} ItemsArePlanned(decisions: seq<Decision>, request: Request, allow: Allowlist)
    ensures AsksIn(Items(decisions, request.forceCheapest, allow), request) == Planned(decisions, request, allow)
  {
    if decisions != [] {
      DecisionItemsAsk(decisions[0], request, allow);
      ItemsArePlanned(decisions[1..], request, allow);
      AsksInJoin(DecisionItems(decisions[0], request.forceCheapest, allow),
                 Items(decisions[1..], request.forceCheapest, allow), request);
    }
  }

  // ---- what a run does ----

  /** What a run that answered `r` must have done with its calls. */
  ghost predicate Accounted(
    r: Result<Response, ExecError>, calls: seq<Call>, n: nat, asks: seq<Ask>, env: Env)
  {
    match r
    case Err(_) => AllTried(calls, n, asks, env)
    case Ok(response) =>
      if response.cacheHit then exists j :: 0 <= j <= |asks| && AllTried(calls, n, asks[..j], env)
      else exists j: nat :: Served(calls, n, asks, j, response, env)
  }

  lemma TriedOneMore(own: seq<Call>, rest: seq<Call>, n: nat, c: Ask, cs: seq<Ask>, env: Env)
    requires AllTo(own, c) && !Satisfies(c, AnswerAt(c.call, n + |own| - 1, env)) && AllTried(rest, n + |own|, cs, env)
    ensures AllTried(own + rest, n, [c] + cs, env)
  {
    var calls, all := own + rest, [c] + cs;
    assert calls[..|own|] == own && calls[|own|..] == rest && all[0] == c && all[1..] == cs;
    hide Satisfies, AnswerAt, AllTo;
    var k := |own|;
    assert 1 <= k <= |calls| && AllTo(calls[..k], all[0])
        && !Satisfies(all[0], AnswerAt(all[0].call, n + k - 1, env)) && AllTried(calls[k..], n + k, all[1..], env);
  }

  /** One candidate tried in vain before the rest of a run. */
  lemma AccountedMore(
    r: Result<Response, ExecError>, own: seq<Call>, rest: seq<Call>, n: nat, c: Ask, cs: seq<Ask>, env: Env)
    requires AllTo(own, c) && !Satisfies(c, AnswerAt(c.call, n + |own| - 1, env))
    requires Accounted(r, rest, n + |own|, cs, env)
    ensures Accounted(r, own + rest, n, [c] + cs, env)
  {
    var m := n + |own|;
    hide AllTo, Satisfies, AllTried, AnswerAt;
    match r
    case Err(_) => TriedOneMore(own, rest, n, c, cs, env);
    case Ok(response) =>
      if response.cacheHit {
        var j :| 0 <= j <= |cs| && AllTried(rest, m, cs[..j], env);
        TriedOneMore(own, rest, n, c, cs[..j], env);
        assert ([c] + cs)[..j + 1] == [c] + cs[..j];
      } else {
        var j: nat :| Served(rest, m, cs, j, response, env);
        ServedMore(own, rest, n, c, cs, j, response, env);
      }
  }

  lemma ServedMore(
    own: seq<Call>, rest: seq<Call>, n: nat, c: Ask, cs: seq<Ask>, j: nat, r: Response, env: Env)
    requires AllTo(own, c) && !Satisfies(c, AnswerAt(c.call, n + |own| - 1, env))
    requires Served(rest, n + |own|, cs, j, r, env)
    ensures Served(own + rest, n, [c] + cs, j + 1, r, env)
  {
    hide AllTo, Satisfies, Answered, AllTried, AnswerAt;
    var k :| 0 <= k < |rest| && AllTried(rest[..k], n + |own|, cs[..j], env) && AllTo(rest[k..], cs[j])
          && Answered(cs[j], AnswerAt(cs[j].call, n + |own| + |rest| - 1, env), r);
    TriedOneMore(own, rest[..k], n, c, cs[..j], env);
    var calls, all := own + rest, [c] + cs;
    assert all[..j + 1] == [c] + cs[..j] && all[j + 1] == cs[j];
    assert calls[..|own| + k] == own + rest[..k] && calls[|own| + k..] == rest[k..];
    assert n + |calls| - 1 == n + |own| + |rest| - 1;
  }

  lemma TrialAsks(item: Item, request: Request, n: nat, j: nat, env: Env)
    requires item.TryModel?
    ensures var t, c := TryItem(item, request, n, j, env), AskOf(item, request);
            && AllTo(t.calls, c)
            && var answer := AnswerAt(c.call, n + |t.calls| - 1, env);
               && (t.accepted.Some? <==> Satisfies(c, answer))
               && (t.accepted.Some? ==> !t.accepted.value.cacheHit && Answered(c, answer, t.accepted.value))
  {
    ItemIsWellBehaved(item, request, n, j, env);
    AcceptedIff(item, request, n, j, env);
    RetryStopsAtFirst(CallOf(item, request), n, env);
  }

  lemma {:induction false} RunAccounts(items: seq<Item>, request: Request, w: World, env: Env)
    ensures var (r, end) := RunFrom(items, request, w, env);
            w.calls <= end.calls && Accounted(r, end.calls[|w.calls|..], |w.calls|, AsksIn(items, request), env)
  {
    var (r, end) := RunFrom(items, request, w, env);
    if items == [] {
      assert end.calls[|w.calls|..] == [];
    } else {
      var t := TryItem(items[0], request, |w.calls|, w.judged, env);
      var next := Apply(w, t);
      assert next.calls == w.calls + t.calls;
      assert (r, end)
          == if t.accepted.Some? then (Ok(t.accepted.value), next) else RunFrom(items[1..], request, next, env);
      hide *;
      if t.accepted.None? {
        RunAccounts(items[1..], request, next, env);
      }
      RunAccountsOnce(items, request, w, env, r, next, end);
    }
  }

  lemma RunAccountsOnce(
    items: seq<Item>, request: Request, w: World, env: Env, r: Result<Response, ExecError>, next: World, end: World)
    requires items != []
    requires var t := TryItem(items[0], request, |w.calls|, w.judged, env);
             && next.calls == w.calls + t.calls && next.calls <= end.calls
             && if t.accepted.Some? then r == Ok(t.accepted.value) && end.calls == next.calls
                else Accounted(r, end.calls[|next.calls|..], |next.calls|, AsksIn(items[1..], request), env)
    ensures w.calls <= end.calls && Accounted(r, end.calls[|w.calls|..], |w.calls|, AsksIn(items, request), env)
  {
    hide *;
    var t := TryItem(items[0], request, |w.calls|, w.judged, env);
    var later := end.calls[|next.calls|..];
    assert end.calls[|w.calls|..] == t.calls + later;
    if items[0].TryCache? {
      AccountedCache(items, request, w, env, r, later);
    } else {
      AccountedModel(items, request, w, env, r, later);
    }
  }

  lemma AccountedCache(
    items: seq<Item>, request: Request, w: World, env: Env, r: Result<Response, ExecError>, later: seq<Call>)
    requires items != [] && items[0].TryCache?
    requires var t := TryItem(items[0], request, |w.calls|, w.judged, env);
             if t.accepted.Some? then r == Ok(t.accepted.value) && later == []
             else Accounted(r, later, |w.calls| + |t.calls|, AsksIn(items[1..], request), env)
    ensures var t := TryItem(items[0], request, |w.calls|, w.judged, env);
            Accounted(r, t.calls + later, |w.calls|, AsksIn(items, request), env)
  {
    var t := TryItem(items[0], request, |w.calls|, w.judged, env);
    CacheAsksNothing(items[0], request, |w.calls|, w.judged, env);
    hide TryItem;
    assert t.calls + later == later && AsksIn(items, request) == AsksIn(items[1..], request);
    if t.accepted.Some? {
      var asks := AsksIn(items, request);
      assert AllTried([], |w.calls|, asks[..0], env);
    }
  }

  lemma AccountedModel(
    items: seq<Item>, request: Request, w: World, env: Env, r: Result<Response, ExecError>, later: seq<Call>)
    requires items != [] && items[0].TryModel?
    requires var t := TryItem(items[0], request, |w.calls|, w.judged, env);
             if t.accepted.Some? then r == Ok(t.accepted.value) && later == []
             else Accounted(r, later, |w.calls| + |t.calls|, AsksIn(items[1..], request), env)
    ensures var t := TryItem(items[0], request, |w.calls|, w.judged, env);
            Accounted(r, t.calls + later, |w.calls|, AsksIn(items, request), env)
  {
    var t, c := TryItem(items[0], request, |w.calls|, w.judged, env), AskOf(items[0], request);
    var rest := AsksIn(items[1..], request);
    TrialAsks(items[0], request, |w.calls|, w.judged, env);
    assert AsksIn(items, request) == [c] + rest;
    hide *;
    if t.accepted.Some? {
      assert t.calls + later == t.calls;
      ServedAtOnce(t.calls, |w.calls|, c, rest, r.value, env);
      ServedAccounts(r, t.calls, |w.calls|, [c] + rest, 0, env);
    } else {
      AccountedMore(r, t.calls, later, |w.calls|, c, rest, env);
    }
  }

  lemma ServedAccounts(
    r: Result<Response, ExecError>, calls: seq<Call>, n: nat, asks: seq<Ask>, j: nat, env: Env)
    requires r.Ok? && !r.value.cacheHit && Served(calls, n, asks, j, r.value, env)
    ensures Accounted(r, calls, n, asks, env)
  {
  }

  lemma CacheAsksNothing(item: Item, request: Request, n: nat, j: nat, env: Env)
    requires item.TryCache?
    ensures var t := TryItem(item, request, n, j, env);
            t.calls == [] && (t.accepted.Some? ==> t.accepted.value.cacheHit)
  {
    hide Nearest;
  }

  lemma ServedAtOnce(calls: seq<Call>, n: nat, c: Ask, cs: seq<Ask>, r: Response, env: Env)
    requires AllTo(calls, c) && Answered(c, AnswerAt(c.call, n + |calls| - 1, env), r)
    ensures Served(calls, n, [c] + cs, 0, r, env)
  {
    var all := [c] + cs;
    assert all[..0] == [] && all[0] == c && calls[..0] == [] && calls[0..] == calls;
    assert AllTried(calls[..0], n, all[..0], env);
  }

  /** An execution that fails has asked every allowed candidate of the plan, in the plan's
      order, each until its last answer, and none of those satisfied. One that a model serves
      has asked those before it in the same way, then it, and nobody after; what it answered
      is the response. One that the cache serves has asked a first part of them. */
  lemma ExecutionFollowsPlan(routes: Routes, request: Request, w: World, env: Env)
    requires request.promptName in routes
    ensures var (r, end) := Executed(routes, request, w, env);
            && w.calls <= end.calls
            && Accounted(r, end.calls[|w.calls|..], |w.calls|,
                         Planned(routes[request.promptName].decisions, request, env.allow), env)
  {
    hide *;
    ExecutedIs(routes, request, w, env);
    ItemsArePlanned(routes[request.promptName].decisions, request, env.allow);
    RunAccounts(ItemsFor(routes, request, env), request, Fresh(w), env);
  }

  // ---- the cache comes first ----

  lemma {:induction false} ModelsServeUncached(items: seq<Item>, request: Request, w: World, env: Env)
    requires forall i | 0 <= i < |items| :: items[i].TryModel?
    ensures var r := RunFrom(items, request, w, env).0; r.Ok? ==> !r.value.cacheHit
  {
    if items != [] {
      TrialAsks(items[0], request, |w.calls|, w.judged, env);
      var t := TryItem(items[0], request, |w.calls|, w.judged, env);
      hide TryItem, Apply, Answered, AnswerAt, AllTo;
      if t.accepted.None? {
        ModelsServeUncached(items[1..], request, Apply(w, t), env);
      }
    }
  }

  lemma {:induction false} StepItemsAreModels(steps: seq<CascadeStep>, force: bool, allow: Allowlist)
    ensures forall i | 0 <= i < |StepItems(steps, force, allow)| :: StepItems(steps, force, allow)[i].TryModel?
  {
    if steps != [] {
      StepItemsAreModels(steps[1..], force, allow);
    }
  }

  lemma {:induction false} FallbackItemsAreModels(providers: seq<RouteModel>, allow: Allowlist)
    ensures forall i | 0 <= i < |FallbackItems(providers, allow)| :: FallbackItems(providers, allow)[i].TryModel?
  {
    if providers != [] {
      FallbackItemsAreModels(providers[1..], allow);
    }
  }

  /** In a plan of cache, cascade and fallbacks, what the cache serves costs no call at all. */
  lemma CacheServesBeforeCalls(routes: Routes, request: Request, w: World, env: Env)
    requires request.promptName in routes && ThreePart(routes[request.promptName])
    ensures var (r, end) := Executed(routes, request, w, env);
            r.Ok? && r.value.cacheHit ==> end.calls == w.calls
  {
    var d, force, allow := routes[request.promptName].decisions, request.forceCheapest, env.allow;
    var items := ItemsFor(routes, request, env);
    ExecutedIs(routes, request, w, env);
    var models := DecisionItems(d[1], force, allow) + DecisionItems(d[2], force, allow);
    assert d[1..][1..] == [d[2]] && d[1..][0] == d[1];
    assert Items([d[2]], force, allow) == DecisionItems(d[2], force, allow) + Items([], force, allow);
    assert Items(d[1..], force, allow) == models;
    StepItemsAreModels(StepsTried(d[1].steps, force), force, allow);
    FallbackItemsAreModels(d[2].providers, allow);
    var cache := DecisionItems(d[0], force, allow);
    assert items == cache + models && items[1..] == models && items[0] == cache[0];
    hide Items, DecisionItems, ItemsFor;
    CacheAsksNothing(items[0], request, |w.calls|, w.judged, env);
    var t := TryItem(items[0], request, |w.calls|, w.judged, env);
    ModelsServeUncached(models, request, Apply(Fresh(w), t), env);
    hide TryItem;
    assert t.accepted.Some? ==> Apply(Fresh(w), t).calls == w.calls + [];
  }
}
