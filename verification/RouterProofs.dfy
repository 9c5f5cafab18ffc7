/** What the route compiler guarantees about its plans. */
module RouterProofs {
  import opened Outcomes
  import opened Text
  import opened Sorting
  import opened Router

  // ---- the cascade ----

  /** A step runs the model `base`, its price raised by the surcharge when grounded. */
  ghost predicate RunsModel(step: CascadeStep, base: RouteModel, p: Prompt, s: Setting) {
    && step.grounded == (base.quality in p.groundedTiers)
    && (step.grounded ==> s.config.surcharge.Some?)
    && step.model == base.(cost := base.cost + if step.grounded then s.config.surcharge.value else 0.0)
    && step.confidence == ConfidenceRubric(base.quality, p.quality)
  }

  /** `base` is one of the models, and none of its tier is cheaper, nor equally cheap
      with a smaller name. */
  ghost predicate BestOfTier(base: RouteModel, models: seq<RouteModel>) {
    base in models && forall m | m in models && m.quality == base.quality :: CostNameLe(base, m)
  }

  ghost predicate RunsBest(step: CascadeStep, p: Prompt, s: Setting) {
    exists base :: BestOfTier(base, s.models) && RunsModel(step, base, p, s)
  }

  ghost predicate Increasing(steps: seq<CascadeStep>) {
    forall i, j | 0 <= i < j < |steps| :: Rank(steps[i].model.quality) < Rank(steps[j].model.quality)
  }

  ghost predicate HasTier(t: Tier, models: seq<RouteModel>) {
    exists m :: m in models && m.quality == t
  }

  ghost predicate Covers(t: Tier, steps: seq<CascadeStep>) {
    exists i :: 0 <= i < |steps| && steps[i].model.quality == t
  }

  lemma StepForFacts(t: Tier, p: Prompt, s: Setting)
    ensures StepFor(t, p, s).Err? <==> HasTier(t, s.models) && t in p.groundedTiers && s.config.surcharge.None?
    ensures StepFor(t, p, s) == Ok(None) <==> !HasTier(t, s.models)
    ensures var r := StepFor(t, p, s);
            r.Ok? && r.value.Some? ==> r.value.value.model.quality == t && RunsBest(r.value.value, p, s)
  {
    var own := OfTier(s.models, t);
    if own != [] {
      CheapestIsLeast(own);
      assert own[0] in own;
      assert BestOfTier(Cheapest(own), s.models);
      var r := StepFor(t, p, s);
      assert r.Ok? ==> RunsModel(r.value.value, Cheapest(own), p, s);
    }
  }

  ghost predicate TiersIncrease(tiers: seq<Tier>) {
    forall i, j | 0 <= i < j < |tiers| :: Rank(tiers[i]) < Rank(tiers[j])
  }

  /** Each step runs the best model of one of the tiers, in order of quality, and every
      tier with a model has its step. */
  ghost predicate GoodCascade(steps: seq<CascadeStep>, tiers: seq<Tier>, p: Prompt, s: Setting) {
    && Increasing(steps)
    && (forall i | 0 <= i < |steps| :: RunsBest(steps[i], p, s) && steps[i].model.quality in tiers)
    && (forall t | t in tiers :: Covers(t, steps) <==> HasTier(t, s.models))
  }

  lemma AddStep(steps: seq<CascadeStep>, step: CascadeStep, tiers: seq<Tier>, t: Tier, p: Prompt, s: Setting)
    requires GoodCascade(steps, tiers, p, s) && forall x | x in tiers :: Rank(x) < Rank(t)
    requires RunsBest(step, p, s) && step.model.quality == t && HasTier(t, s.models)
    ensures GoodCascade(steps + [step], tiers + [t], p, s)
  {
    hide RunsBest, HasTier;
    var all := steps + [step];
    assert all[|steps|] == step;
    assert forall i | 0 <= i < |steps| :: all[i] == steps[i];
    forall x | x in tiers + [t]
      ensures Covers(x, all) <==> HasTier(x, s.models)
    {
      if x != t {
        assert x in tiers;
        assert Covers(x, all) <==> Covers(x, steps);
      }
    }
  }

  lemma SkipTier(steps: seq<CascadeStep>, tiers: seq<Tier>, t: Tier, p: Prompt, s: Setting)
    requires GoodCascade(steps, tiers, p, s) && forall x | x in tiers :: Rank(x) < Rank(t)
    requires !HasTier(t, s.models)
    ensures GoodCascade(steps, tiers + [t], p, s)
  {
    hide RunsBest, HasTier;
    assert !Covers(t, steps);
  }

  lemma {:induction false} StepsForIsGood(tiers: seq<Tier>, p: Prompt, s: Setting)
    requires TiersIncrease(tiers)
    ensures StepsFor(tiers, p, s).Ok? ==> GoodCascade(StepsFor(tiers, p, s).value, tiers, p, s)
  {
    if tiers != [] {
      var n := |tiers| - 1;
      var before := StepsFor(tiers[..n], p, s);
      StepsForIsGood(tiers[..n], p, s);
      StepForFacts(tiers[n], p, s);
      assert tiers == tiers[..n] + [tiers[n]];
      hide RunsBest, HasTier, StepFor, GoodCascade;
      if before.Ok? && StepFor(tiers[n], p, s).Ok? {
        match StepFor(tiers[n], p, s).value
        case None => SkipTier(before.value, tiers[..n], tiers[n], p, s);
        case Some(step) => AddStep(before.value, step, tiers[..n], tiers[n], p, s);
      }
    }
  }

  lemma {:induction false} StepsForOkIff(tiers: seq<Tier>, p: Prompt, s: Setting)
    ensures StepsFor(tiers, p, s).Ok?
       <==> forall t | t in tiers :: HasTier(t, s.models) && t in p.groundedTiers ==> s.config.surcharge.Some?
  {
    if tiers != [] {
      var n := |tiers| - 1;
      StepsForOkIff(tiers[..n], p, s);
      StepForFacts(tiers[n], p, s);
      assert forall t :: t in tiers <==> t in tiers[..n] || t == tiers[n];
      hide RunsBest, HasTier, StepFor;
    }
  }

  lemma TiersThroughFacts(q: Tier)
    ensures TiersIncrease(TiersThrough(q))
    ensures forall t :: t in TiersThrough(q) <==> Rank(t) <= Rank(q)
  {
  }

  function StepsOf(route: PromptRoute): seq<CascadeStep>
    requires |route.decisions| == 3 && route.decisions[1].Cascade?
  {
    route.decisions[1].steps
  }

  /** Every compiled plan is cache, then cascade, then fallbacks. */
  predicate ThreePart(route: PromptRoute) {
    && |route.decisions| == 3
    && route.decisions[0].Cache? && route.decisions[1].Cascade? && route.decisions[2].Fallbacks?
  }

  /** Optimal routing: each step runs the cheapest model of its tier, ties going to the
      smaller name and the price taken before any surcharge; qualities strictly increase
      and end at the prompt's own; and no tier on the way that has a model is skipped. */
  lemma CascadeIsOptimal(p: Prompt, s: Setting)
    requires PlanFor(p, s).Ok?
    ensures var route := PlanFor(p, s).value;
            && ThreePart(route)
            && var steps := StepsOf(route);
               && steps != [] && steps[|steps| - 1].model.quality == p.quality
               && Increasing(steps)
               && (forall i | 0 <= i < |steps| :: RunsBest(steps[i], p, s))
               && (forall t | Rank(t) <= Rank(p.quality) :: Covers(t, steps) <==> HasTier(t, s.models))
  {
    TiersThroughFacts(p.quality);
    StepsForIsGood(TiersThrough(p.quality), p, s);
    var steps := StepsOf(PlanFor(p, s).value);
    var i :| 0 <= i < |steps| && steps[i].model.quality == p.quality;
    var last := steps[|steps| - 1];
    assert Rank(last.model.quality) <= Rank(p.quality);
    hide RunsBest, HasTier, Covers;
  }

  // ---- when a prompt can be routed ----

  /** Every fallback declared by the cascade's pins is itself in the cascade, or priced. */
  ghost predicate FallbacksPriced(steps: seq<CascadeStep>, s: Setting) {
    forall n | n in DeclaredFallbacks(steps, s.lock) ::
      n in StepNames(steps) || exists m :: m in s.models && m.name == n
  }

  lemma {:induction false} FirstSeenFacts(names: seq<string>, seen: set<string>)
    ensures forall n :: n in FirstSeen(names, seen) <==> n in names && n !in seen
    ensures NoRepeats(FirstSeen(names, seen))
  {
    if names != [] {
      assert names == [names[0]] + names[1..];
      if names[0] in seen {
        FirstSeenFacts(names[1..], seen);
      } else {
        FirstSeenFacts(names[1..], seen + {names[0]});
        var rest := FirstSeen(names[1..], seen + {names[0]});
        assert forall i | 0 <= i < |rest| :: rest[i] in rest;
      }
    }
  }

  lemma {:induction false} PinFacts(names: seq<string>, models: seq<RouteModel>)
    ensures Pin(names, models).Ok? <==> forall n | n in names :: FindModel(models, n).Some?
    ensures Pin(names, models).Ok? ==>
              var pinned := Pin(names, models).value;
              |pinned| == |names| && forall i | 0 <= i < |names| :: pinned[i].name == names[i] && pinned[i] in models
  {
    if names != [] {
      PinFacts(names[1..], models);
      assert forall n :: n in names <==> n == names[0] || n in names[1..];
      assert Pin(names, models).Ok? <==> FindModel(models, names[0]).Some? && Pin(names[1..], models).Ok?;
    }
  }

  /** A prompt can be routed exactly when it grounds no tier above its own, some priced
      model has its own tier, a surcharge is set if a tier it grounds has a model, and the
      fallbacks its cascade declares are priced. */
  lemma RoutableIff(p: Prompt, s: Setting)
    ensures PlanFor(p, s).Ok?
       <==> && (forall t | t in p.groundedTiers :: Rank(t) <= Rank(p.quality))
            && HasTier(p.quality, s.models)
            && (forall t | t in p.groundedTiers :: HasTier(t, s.models) ==> s.config.surcharge.Some?)
            && var r := StepsFor(TiersThrough(p.quality), p, s);
               r.Ok? ==> FallbacksPriced(r.value, s)
  {
    TiersThroughFacts(p.quality);
    StepsForIsGood(TiersThrough(p.quality), p, s);
    StepsForOkIff(TiersThrough(p.quality), p, s);
    assert GroundedAbove(p) == None <==> forall t | t in p.groundedTiers :: Rank(t) <= Rank(p.quality);
    var r := StepsFor(TiersThrough(p.quality), p, s);
    if r.Ok? {
      var steps := r.value;
      assert Covers(p.quality, steps) <==> exists i :: 0 <= i < |steps| && steps[i].model.quality == p.quality;
      var names := DeclaredFallbacks(steps, s.lock);
      FirstSeenFacts(names, StepNames(steps));
      PinFacts(FirstSeen(names, StepNames(steps)), s.models);
      assert FallbacksFor(steps, s).Ok? <==> FallbacksPriced(steps, s);
    }
  }

  // ---- names in a plan ----

  lemma StepBase(step: CascadeStep, p: Prompt, s: Setting) returns (i: nat)
    requires RunsBest(step, p, s)
    ensures i < |s.models| && s.models[i].name == step.model.name && s.models[i].quality == step.model.quality
  {
    var base :| BestOfTier(base, s.models) && RunsModel(step, base, p, s);
    i :| i < |s.models| && s.models[i] == base;
  }

  /** Names of the steps are distinct, because the models' are and a tier gives one step. */
  lemma StepNamesDistinct(p: Prompt, s: Setting)
    requires PlanFor(p, s).Ok? && DistinctNames(s.models)
    ensures ThreePart(PlanFor(p, s).value)
    ensures var steps := StepsOf(PlanFor(p, s).value);
            forall i, j | 0 <= i < j < |steps| :: steps[i].model.name != steps[j].model.name
  {
    CascadeIsOptimal(p, s);
    hide PlanFor, RunsBest, Covers, HasTier;
    var steps := StepsOf(PlanFor(p, s).value);
    forall i, j | 0 <= i < j < |steps|
      ensures steps[i].model.name != steps[j].model.name
    {
      var x := StepBase(steps[i], p, s);
      var y := StepBase(steps[j], p, s);
      assert s.models[x].quality != s.models[y].quality;
    }
  }

  function StepNameList(steps: seq<CascadeStep>): (r: seq<string>)
    ensures |r| == |steps| && forall i | 0 <= i < |r| :: r[i] == steps[i].model.name
  {
    Map(steps, (step: CascadeStep) => step.model.name)
  }

  function ModelNameList(models: seq<RouteModel>): (r: seq<string>)
    ensures |r| == |models| && forall i | 0 <= i < |r| :: r[i] == models[i].name
  {
    Map(models, (m: RouteModel) => m.name)
  }

  /** The names a plan calls, cascade first. */
  function CallNames(route: PromptRoute): seq<string>
    requires ThreePart(route)
  {
    StepNameList(StepsOf(route)) + ModelNameList(route.decisions[2].providers)
  }

  lemma PlanParts(p: Prompt, s: Setting)
    requires PlanFor(p, s).Ok?
    ensures var route := PlanFor(p, s).value;
            && ThreePart(route)
            && StepsFor(TiersThrough(p.quality), p, s) == Ok(StepsOf(route))
            && FallbacksFor(StepsOf(route), s) == Ok(route.decisions[2].providers)
            && route.candidates
               == Candidates(s.models, Pseudo(s.config.judgeModel, JudgeKind, p.quality), StepNames(StepsOf(route)))
  {
  }

  /** The fallbacks are exactly what the cascade's pins declare beyond the cascade itself,
      each once, and all are priced models. */
  lemma FallbackFacts(steps: seq<CascadeStep>, s: Setting)
    requires FallbacksFor(steps, s).Ok?
    ensures var fallbacks := FallbacksFor(steps, s).value;
            && (forall m | m in fallbacks :: m in s.models)
            && DistinctNames(fallbacks)
            && (forall n :: (exists m :: m in fallbacks && m.name == n)
                          <==> n in DeclaredFallbacks(steps, s.lock) && n !in StepNames(steps))
  {
    var fallbacks := FallbacksFor(steps, s).value;
    var names := FirstSeen(DeclaredFallbacks(steps, s.lock), StepNames(steps));
    FirstSeenFacts(DeclaredFallbacks(steps, s.lock), StepNames(steps));
    PinFacts(names, s.models);
    forall n
      ensures (exists m :: m in fallbacks && m.name == n) <==> n in names
    {
      if n in names {
        var i :| 0 <= i < |names| && names[i] == n;
        assert fallbacks[i] in fallbacks;
      }
    }
  }

  /** No model name occurs twice in a plan: steps are distinct, fallbacks are free of
      duplicates, and no fallback repeats a step. */
  lemma PlanNamesDistinct(p: Prompt, s: Setting)
    requires PlanFor(p, s).Ok? && DistinctNames(s.models)
    ensures var route := PlanFor(p, s).value;
            ThreePart(route) && NoRepeats(CallNames(route))
  {
    PlanParts(p, s);
    StepNamesDistinct(p, s);
    hide PlanFor, FallbacksFor, StepsFor, Candidates, TiersThrough;
    var route := PlanFor(p, s).value;
    var steps, fallbacks := StepsOf(route), route.decisions[2].providers;
    FallbackFacts(steps, s);
    hide DeclaredFallbacks, RunsBest;
    var a := StepNameList(steps);
    var b := ModelNameList(fallbacks);
    assert forall i | 0 <= i < |a| :: a[i] in StepNames(steps);
    forall i | 0 <= i < |b|
      ensures b[i] !in StepNames(steps)
    {
      assert fallbacks[i] in fallbacks && b[i] == fallbacks[i].name;
    }
    NoRepeatsJoin(a, b, StepNames(steps));
    assert CallNames(route) == a + b;
  }

  lemma NoRepeatsJoin(a: seq<string>, b: seq<string>, left: set<string>)
    requires NoRepeats(a) && NoRepeats(b)
    requires (forall i | 0 <= i < |a| :: a[i] in left) && (forall i | 0 <= i < |b| :: b[i] !in left)
    ensures NoRepeats(a + b)
  {
  }

  // ---- the candidate list ----

  lemma CandidateOrder()
    ensures TotalPreorder(CandidateLe)
  {
    CostNameOrder();
  }

  lemma CandidatesFacts(models: seq<RouteModel>, judge: RouteModel, selected: set<string>)
    ensures var unsorted := [Candidate(Pseudo("semantic-cache", CacheKind, Low), false), Candidate(judge, false)]
                            + Flagged(models, selected);
            var candidates := Candidates(models, judge, selected);
            Sorted(candidates, CandidateLe) && multiset(candidates) == multiset(unsorted)
  {
    var unsorted := [Candidate(Pseudo("semantic-cache", CacheKind, Low), false), Candidate(judge, false)]
                    + Flagged(models, selected);
    CandidateOrder();
    SortSorts(unsorted, CandidateLe);
    SortPermutes(unsorted, CandidateLe);
  }

  function ModelsOf(candidates: seq<Candidate>): seq<RouteModel> {
    Map(candidates, (c: Candidate) => c.model)
  }

  lemma CandidatesHoldModels(models: seq<RouteModel>, judge: RouteModel, selected: set<string>)
    ensures multiset(ModelsOf(Candidates(models, judge, selected)))
         == multiset([Pseudo("semantic-cache", CacheKind, Low), judge] + models)
  {
    var cache := Pseudo("semantic-cache", CacheKind, Low);
    var unsorted := [Candidate(cache, false), Candidate(judge, false)] + Flagged(models, selected);
    CandidatesFacts(models, judge, selected);
    hide Candidates;
    MapPermutes(unsorted, Candidates(models, judge, selected), (c: Candidate) => c.model);
    assert ModelsOf(unsorted) == [cache, judge] + models;
    assert Map(unsorted, (c: Candidate) => c.model) == ModelsOf(unsorted);
    assert Map(Candidates(models, judge, selected), (c: Candidate) => c.model)
        == ModelsOf(Candidates(models, judge, selected));
  }

  lemma CandidatesFlags(models: seq<RouteModel>, judge: RouteModel, selected: set<string>)
    requires (forall m | m in models :: m.kind == Provider) && judge.kind == JudgeKind
    ensures forall c | c in Candidates(models, judge, selected) ::
              c.selected <==> c.model.kind == Provider && c.model.name in selected
  {
    var unsorted := [Candidate(Pseudo("semantic-cache", CacheKind, Low), false), Candidate(judge, false)]
                    + Flagged(models, selected);
    CandidatesFacts(models, judge, selected);
    SameMembers(unsorted, Candidates(models, judge, selected));
    hide Candidates;
    forall c | c in unsorted
      ensures c.selected <==> c.model.kind == Provider && c.model.name in selected
    {
      if c in Flagged(models, selected) {
        var i :| 0 <= i < |models| && Flagged(models, selected)[i] == c;
        assert models[i] in models;
      }
    }
  }

  /** The candidate list is sorted by cost and name, holds each priced model and the two
      pseudo models once, and flags exactly the cascade's models. */
  lemma CandidatesAreExact(p: Prompt, s: Setting)
    requires PlanFor(p, s).Ok? && (forall m | m in s.models :: m.kind == Provider)
    ensures var route := PlanFor(p, s).value;
            && ThreePart(route)
            && Sorted(route.candidates, CandidateLe)
            && multiset(ModelsOf(route.candidates))
               == multiset([Pseudo("semantic-cache", CacheKind, Low),
                            Pseudo(s.config.judgeModel, JudgeKind, p.quality)] + s.models)
            && forall c | c in route.candidates ::
                 c.selected <==> c.model.kind == Provider && c.model.name in StepNames(StepsOf(route))
  {
    PlanParts(p, s);
    hide *;
    var route := PlanFor(p, s).value;
    var judge := Pseudo(s.config.judgeModel, JudgeKind, p.quality);
    assert judge.kind == JudgeKind;
    var selected := StepNames(StepsOf(route));
    CandidatesHoldModels(s.models, judge, selected);
    CandidatesFacts(s.models, judge, selected);
    CandidatesFlags(s.models, judge, selected);
  }

  // ---- all prompts ----

  ghost predicate DistinctPrompts(prompts: seq<Prompt>) {
    forall i, j | 0 <= i < j < |prompts| :: prompts[i].name != prompts[j].name
  }

  lemma DistinctAppend(prompts: seq<Prompt>, last: Prompt)
    ensures DistinctPrompts(prompts + [last])
       <==> DistinctPrompts(prompts) && !exists p :: p in prompts && p.name == last.name
  {
    var all := prompts + [last];
    assert forall i | 0 <= i < |prompts| :: all[i] == prompts[i];
    assert all[|prompts|] == last;
    assert (exists p :: p in prompts && p.name == last.name)
      <==> exists i :: 0 <= i < |prompts| && prompts[i].name == last.name;
  }

  ghost predicate HoldsRoutes(routes: Routes, prompts: seq<Prompt>, s: Setting) {
    && (forall n :: n in routes <==> exists p :: p in prompts && p.name == n)
    && (forall p | p in prompts :: p.name in routes && Ok(routes[p.name]) == PlanFor(p, s))
  }

  lemma NamesOfHeld(routes: Routes, prompts: seq<Prompt>, last: Prompt, s: Setting)
    requires HoldsRoutes(routes, prompts, s)
    ensures last.name in routes <==> exists p :: p in prompts && p.name == last.name
  {
  }

  lemma {:induction false} PlanAllIff(prompts: seq<Prompt>, s: Setting)
    ensures PlanAll(prompts, s).Ok?
       <==> DistinctPrompts(prompts) && forall p | p in prompts :: PlanFor(p, s).Ok?
    ensures PlanAll(prompts, s).Ok? ==> HoldsRoutes(PlanAll(prompts, s).value, prompts, s)
  {
    if prompts != [] {
      hide HoldsRoutes;
      var n := |prompts| - 1;
      var last := prompts[n];
      PlanAllIff(prompts[..n], s);
      DistinctAppend(prompts[..n], last);
      assert prompts == prompts[..n] + [last];
      assert forall p :: p in prompts <==> p in prompts[..n] || p == last;
      hide PlanFor, DistinctPrompts;
      if PlanAll(prompts[..n], s).Ok? {
        NamesOfHeld(PlanAll(prompts[..n], s).value, prompts[..n], last, s);
      }
      if PlanAll(prompts, s).Ok? {
        HoldsMore(PlanAll(prompts[..n], s).value, prompts[..n], last, s);
      }
    }
  }

  lemma HoldsMore(routes: Routes, prompts: seq<Prompt>, last: Prompt, s: Setting)
    requires HoldsRoutes(routes, prompts, s) && last.name !in routes && PlanFor(last, s).Ok?
    ensures HoldsRoutes(routes[last.name := PlanFor(last, s).value], prompts + [last], s)
  {
    hide PlanFor;
    var all := prompts + [last];
    var more := routes[last.name := PlanFor(last, s).value];
    assert last in all;
    assert forall p | p in prompts :: p in all && p.name in routes;
    assert forall p | p in all :: p in prompts || p == last;
  }

  /** Settings are accepted exactly when a judge is named, a surcharge is not negative, the
      lock is sound, and 0 <= low <= high <= threshold <= 1. */
  lemma SettingsAcceptedIff(s: Setting)
    ensures SettingError(s) == None
       <==> && Trim(s.config.judgeModel) != ""
            && (s.config.surcharge.Some? ==> s.config.surcharge.value >= 0.0)
            && LockError(s.lock) == None
            && 0.0 <= s.band.low <= s.band.high <= s.threshold <= 1.0
            && 0.0 <= s.config.band.low <= s.config.band.high <= s.config.threshold <= 1.0
  {
    hide LockError, Trim;
  }

  /** Compilation succeeds exactly when the inputs are valid, prompt names are distinct and
      each prompt can be routed on its own. */
  lemma CompilesIff(
    prompts: seq<Prompt>, config: CostModel, lock: ModelLock, observed: Option<Observed>, workload: Workload)
    ensures Artifact(prompts, config, lock, observed, workload).Ok?
       <==> var s := Settled(config, lock, observed, workload);
            && SettingError(s) == None
            && DistinctPrompts(prompts)
            && (forall p | p in prompts :: PlanFor(p, s).Ok?)
  {
    PlanAllIff(prompts, Settled(config, lock, observed, workload));
  }

  lemma DistinctPromptsPermute(prompts: seq<Prompt>, shuffled: seq<Prompt>)
    requires multiset(prompts) == multiset(shuffled) && DistinctPrompts(prompts)
    ensures DistinctPrompts(shuffled)
  {
    var name := (p: Prompt) => p.name;
    MapPermutes(prompts, shuffled, name);
    NoRepeatsPermutes(Map(prompts, name), Map(shuffled, name));
    assert forall i | 0 <= i < |shuffled| :: Map(shuffled, name)[i] == shuffled[i].name;
  }

  lemma HeldAlike(a: Routes, b: Routes, prompts: seq<Prompt>, shuffled: seq<Prompt>, s: Setting)
    requires HoldsRoutes(a, prompts, s) && HoldsRoutes(b, shuffled, s)
    requires forall p :: p in prompts <==> p in shuffled
    ensures a == b
  {
    hide PlanFor;
    assert a.Keys == b.Keys;
    forall n | n in a
      ensures a[n] == b[n]
    {
      var p :| p in prompts && p.name == n;
      assert p in shuffled;
    }
  }

  /** On success the artifact does not depend on the order of the prompts. */
  lemma PromptOrderDoesNotMatter(
    prompts: seq<Prompt>, shuffled: seq<Prompt>,
    config: CostModel, lock: ModelLock, observed: Option<Observed>, workload: Workload)
    requires multiset(prompts) == multiset(shuffled)
    requires Artifact(prompts, config, lock, observed, workload).Ok?
    ensures Artifact(shuffled, config, lock, observed, workload) == Artifact(prompts, config, lock, observed, workload)
  {
    var s := Settled(config, lock, observed, workload);
    PlanAllIff(prompts, s);
    PlanAllIff(shuffled, s);
    SameMembers(prompts, shuffled);
    hide PlanFor, PricedModels, LockError, ConfigError, DistinctPrompts, Settled, HoldsRoutes;
    DistinctPromptsPermute(prompts, shuffled);
    HeldAlike(PlanAll(prompts, s).value, PlanAll(shuffled, s).value, prompts, shuffled, s);
  }

  lemma PlanCache(p: Prompt, s: Setting)
    requires PlanFor(p, s).Ok?
    ensures ThreePart(PlanFor(p, s).value)
    ensures PlanFor(p, s).value.decisions[0]
         == Cache(s.threshold, s.band, Pseudo(s.config.judgeModel, JudgeKind, p.quality))
  {
  }

  /** Every compiled cache decision has 0 <= low <= high <= threshold <= 1, so the judge is
      never asked above the threshold; observed values stand in for the declared ones. */
  lemma CachePlansAreOrdered(
    prompts: seq<Prompt>, config: CostModel, lock: ModelLock, observed: Option<Observed>, workload: Workload, n: string)
    requires Artifact(prompts, config, lock, observed, workload).Ok?
    requires n in Artifact(prompts, config, lock, observed, workload).value
    ensures var route := Artifact(prompts, config, lock, observed, workload).value[n];
            && ThreePart(route)
            && var d := route.decisions[0];
               && 0.0 <= d.band.low <= d.band.high <= d.threshold <= 1.0
               && (observed.None? || observed.value.threshold.None? ==> d.threshold == config.threshold)
               && (observed.Some? && observed.value.threshold.Some? ==> d.threshold == observed.value.threshold.value)
               && (observed.None? || observed.value.band.None? ==> d.band == config.band)
               && (observed.Some? && observed.value.band.Some? ==> d.band == observed.value.band.value)
  {
    var s := Settled(config, lock, observed, workload);
    PlanAllIff(prompts, s);
    hide PlanFor, PricedModels, LockError, ConfigError;
    var p :| p in prompts && p.name == n;
    PlanCache(p, s);
  }

  /** All the guarantees about one compiled artifact, from the inputs alone. */
  lemma CompiledRoutesAreSound(
    prompts: seq<Prompt>, config: CostModel, lock: ModelLock, observed: Option<Observed>, workload: Workload)
    requires Artifact(prompts, config, lock, observed, workload).Ok?
    ensures var routes := Artifact(prompts, config, lock, observed, workload).value;
            var s := Settled(config, lock, observed, workload);
            && (forall p | p in prompts :: p.name in routes)
            && (forall n | n in routes ::
                  ThreePart(routes[n]) && NoRepeats(CallNames(routes[n]))
                  && exists p :: p in prompts && p.name == n && PlanFor(p, s) == Ok(routes[n]))
  {
    var s := Settled(config, lock, observed, workload);
    var routes := PlanAll(prompts, s).value;
    PlanAllIff(prompts, s);
    PricedModelsFacts(lock, workload);
    forall n | n in routes
      ensures ThreePart(routes[n]) && NoRepeats(CallNames(routes[n]))
      ensures exists p :: p in prompts && p.name == n && PlanFor(p, s) == Ok(routes[n])
    {
      var p :| p in prompts && p.name == n;
      PlanNamesDistinct(p, s);
    }
  }
}
