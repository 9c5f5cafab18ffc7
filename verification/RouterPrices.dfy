/** What compiled plans owe to the pinned prices and the workload they were compiled for. */
module RouterPrices {
  import opened Outcomes
  import opened Text
  import opened Router
  import opened RouterProofs

  // ---- what a call is taken to cost ----

  function Together(a: Workload, b: Workload): Workload {
    Workload(a.promptTokens + b.promptTokens, a.completionTokens + b.completionTokens)
  }

  /** A product, named so that proofs about sums of them stay linear. */
  function Times(x: real, y: real): real {
    x * y
  }

  lemma TimesAdds(x: real, y: real, z: real)
    ensures Times(x + y, z) == Times(x, z) + Times(y, z)
  {
  }

  lemma TimesKeepsSign(x: real, y: real)
    requires x >= 0.0 && y >= 0.0
    ensures Times(x, y) >= 0.0 && (x > 0.0 && y > 0.0 ==> Times(x, y) > 0.0)
  {
  }

  lemma TimesSubtracts(x: real, a: real, b: real)
    ensures Times(x, b - a) == Times(x, b) - Times(x, a)
  {
  }

  lemma TimesKeepsOrder(x: real, a: real, b: real)
    requires x >= 0.0 && a <= b
    ensures Times(x, a) <= Times(x, b) && (x > 0.0 && a < b ==> Times(x, a) < Times(x, b))
  {
    TimesSubtracts(x, a, b);
    TimesKeepsSign(x, b - a);
    hide Times;
  }

  lemma CostIsSum(price: ModelPrice, w: Workload)
    ensures CallCost(price, w) == Times(Thousands(w.promptTokens), price.perThousandPrompt)
                                + Times(Thousands(w.completionTokens), price.perThousandCompletion)
  {
    hide Thousands;
  }

  lemma UnitTimes(x: real)
    ensures Times(0.0, x) == 0.0 && Times(1.0, x) == x
  {
  }

  lemma ThousandsAdd(a: nat, b: nat)
    ensures Thousands(a + b) == Thousands(a) + Thousands(b) && Thousands(0) == 0.0 && Thousands(1000) == 1.0
  {
  }

  /** The cost adds up over workloads, and a thousand tokens of one kind cost what is pinned
      for that kind. */
  lemma CostIsByTokens(price: ModelPrice, a: Workload, b: Workload)
    ensures CallCost(price, Together(a, b)) == CallCost(price, a) + CallCost(price, b)
    ensures CallCost(price, Workload(1000, 0)) == price.perThousandPrompt
    ensures CallCost(price, Workload(0, 1000)) == price.perThousandCompletion
  {
    hide *;
    CostAdds(price, a, b);
    CostPerThousand(price);
  }

  lemma CostAdds(price: ModelPrice, a: Workload, b: Workload)
    ensures CallCost(price, Together(a, b)) == CallCost(price, a) + CallCost(price, b)
  {
    hide CallCost, Times, Thousands;
    var p, c := price.perThousandPrompt, price.perThousandCompletion;
    CostIsSum(price, a);
    CostIsSum(price, b);
    CostIsSum(price, Together(a, b));
    ThousandsAdd(a.promptTokens, b.promptTokens);
    ThousandsAdd(a.completionTokens, b.completionTokens);
    TimesAdds(Thousands(a.promptTokens), Thousands(b.promptTokens), p);
    TimesAdds(Thousands(a.completionTokens), Thousands(b.completionTokens), c);
  }

  lemma CostPerThousand(price: ModelPrice)
    ensures CallCost(price, Workload(1000, 0)) == price.perThousandPrompt
    ensures CallCost(price, Workload(0, 1000)) == price.perThousandCompletion
  {
    hide CallCost, Times, Thousands;
    ThousandsAdd(0, 0);
    CostIsSum(price, Workload(1000, 0));
    CostIsSum(price, Workload(0, 1000));
    UnitTimes(price.perThousandPrompt);
    UnitTimes(price.perThousandCompletion);
  }

  /** Neither price is higher. */
  predicate NoDearer(a: ModelPrice, b: ModelPrice) {
    a.perThousandPrompt <= b.perThousandPrompt && a.perThousandCompletion <= b.perThousandCompletion
  }

  lemma LowerPricesCostLess(a: ModelPrice, b: ModelPrice, w: Workload)
    requires NoDearer(a, b)
    ensures CallCost(a, w) <= CallCost(b, w)
    ensures a.perThousandPrompt < b.perThousandPrompt && w.promptTokens > 0 ==> CallCost(a, w) < CallCost(b, w)
    ensures a.perThousandCompletion < b.perThousandCompletion && w.completionTokens > 0 ==>
              CallCost(a, w) < CallCost(b, w)
  {
    hide CallCost, Times, Thousands;
    CostIsSum(a, w);
    CostIsSum(b, w);
    TimesKeepsOrder(Thousands(w.promptTokens), a.perThousandPrompt, b.perThousandPrompt);
    TimesKeepsOrder(Thousands(w.completionTokens), a.perThousandCompletion, b.perThousandCompletion);
  }

  // ---- what the plan makes of it ----

  /** A pinned and priced model of that tier. */
  predicate Offers(n: string, t: Tier, lock: ModelLock) {
    n in lock.models && n in lock.prices && lock.models[n].quality == t
  }

  /** By the lock alone: no pinned model of the step's tier would cost less for this
      workload, nor as much under a smaller name; the plan's estimate is that cost and the
      surcharge if the step is grounded; and a model that is no dearer by either price is
      passed over only when it costs the same. */
  ghost predicate StepIsCheapest(step: CascadeStep, config: CostModel, lock: ModelLock, w: Workload) {
    var n := step.model.name;
    && Offers(n, step.model.quality, lock)
    && step.model.provider == lock.models[n].provider
    && (step.grounded ==> config.surcharge.Some?)
    && step.model.cost == CallCost(lock.prices[n], w) + (if step.grounded then config.surcharge.value else 0.0)
    && forall m | Offers(m, step.model.quality, lock) ::
         && (|| CallCost(lock.prices[n], w) < CallCost(lock.prices[m], w)
             || (CallCost(lock.prices[n], w) == CallCost(lock.prices[m], w) && StrLe(n, m)))
         && (NoDearer(lock.prices[m], lock.prices[n]) ==>
               CallCost(lock.prices[n], w) == CallCost(lock.prices[m], w) && StrLe(n, m))
  }

  lemma BestIsCheapest(step: CascadeStep, p: Prompt, s: Setting, w: Workload)
    requires s.models == PricedModels(s.lock, w) && RunsBest(step, p, s)
    ensures StepIsCheapest(step, s.config, s.lock, w)
  {
    PricedModelsFacts(s.lock, w);
    hide PricedModels, CallCost;
    var base :| BestOfTier(base, s.models) && RunsModel(step, base, p, s);
    var n := base.name;
    assert IsPin(base, s.lock, w);
    forall m | Offers(m, base.quality, s.lock)
      ensures CostNameLe(base, Priced(m, s.lock, w))
      ensures NoDearer(s.lock.prices[m], s.lock.prices[n]) ==>
                CallCost(s.lock.prices[n], w) == CallCost(s.lock.prices[m], w) && StrLe(n, m)
    {
      var other := Priced(m, s.lock, w);
      assert IsPin(other, s.lock, w) && other in s.models;
      if NoDearer(s.lock.prices[m], s.lock.prices[n]) {
        LowerPricesCostLess(s.lock.prices[m], s.lock.prices[n], w);
      }
    }
  }

  /** Every step of every compiled plan runs the cheapest model its tier offers, and asks for
      a higher score than the plan's last step does if it comes before it. */
  lemma CompiledStepsAreCheapest(
    prompts: seq<Prompt>, config: CostModel, lock: ModelLock, observed: Option<Observed>, workload: Workload, n: string)
    requires Artifact(prompts, config, lock, observed, workload).Ok?
    requires n in Artifact(prompts, config, lock, observed, workload).value
    ensures var route := Artifact(prompts, config, lock, observed, workload).value[n];
            ThreePart(route) && StepsOf(route) != [] && StepsAreCheapest(StepsOf(route), config, lock, workload)
  {
    CompiledRoutesAreSound(prompts, config, lock, observed, workload);
    var s := Settled(config, lock, observed, workload);
    var route := Artifact(prompts, config, lock, observed, workload).value[n];
    var p :| p in prompts && p.name == n && PlanFor(p, s) == Ok(route);
    assert s.config == config && s.lock == lock && s.models == PricedModels(lock, workload);
    hide *;
    PlannedStepsAreCheapest(p, s, workload, route);
  }

  ghost predicate StepsAreCheapest(steps: seq<CascadeStep>, config: CostModel, lock: ModelLock, w: Workload) {
    forall i | 0 <= i < |steps| ::
      && StepIsCheapest(steps[i], config, lock, w)
      && (i < |steps| - 1 ==> steps[|steps| - 1].confidence.minimum < steps[i].confidence.minimum <= 1.0)
  }

  lemma PlannedStepsAreCheapest(p: Prompt, s: Setting, w: Workload, route: PromptRoute)
    requires s.models == PricedModels(s.lock, w) && PlanFor(p, s) == Ok(route)
    ensures ThreePart(route) && StepsOf(route) != [] && StepsAreCheapest(StepsOf(route), s.config, s.lock, w)
  {
    CascadeIsOptimal(p, s);
    var steps := StepsOf(route);
    hide PlanFor, PricedModels, StepIsCheapest, MinimumScore, Covers, HasTier;
    forall i | 0 <= i < |steps|
      ensures StepIsCheapest(steps[i], s.config, s.lock, w)
      ensures steps[i].confidence.minimum == MinimumScore(steps[i].model.quality, p.quality)
    {
      BestIsCheapest(steps[i], p, s, w);
      var base :| BestOfTier(base, s.models) && RunsModel(steps[i], base, p, s);
    }
    forall i | 0 <= i < |steps| - 1
      ensures steps[|steps| - 1].confidence.minimum < steps[i].confidence.minimum <= 1.0
    {
      assert Rank(steps[i].model.quality) < Rank(steps[|steps| - 1].model.quality);
      LowerTiersMustScoreMore(steps[i].model.quality, p.quality);
    }
  }

  /** An answer of a lower tier must score more than one of the prompt's own, and prompts of
      higher tiers ask more of their own. */
  lemma LowerTiersMustScoreMore(step: Tier, target: Tier)
    requires Rank(step) < Rank(target)
    ensures 0.0 < MinimumScore(step, step) < MinimumScore(target, target) < MinimumScore(step, target) <= 1.0
  {
  }
}
