/** The route compiler's loops, filling its vectors and its map step by step. */
module RouteCompiler {
  import opened Outcomes
  import opened Router

  lemma {:induction false} StepErrorStays(tiers: seq<Tier>, k: nat, p: Prompt, s: Setting)
    requires k <= |tiers| && StepsFor(tiers[..k], p, s).Err?
    ensures StepsFor(tiers, p, s) == StepsFor(tiers[..k], p, s)
    decreases |tiers| - k
  {
    if k < |tiers| {
      assert tiers[..k + 1][..k] == tiers[..k];
      StepErrorStays(tiers, k + 1, p, s);
    } else {
      assert tiers[..k] == tiers;
    }
  }

  lemma {:induction false} PlanErrorStays(prompts: seq<Prompt>, k: nat, s: Setting)
    requires k <= |prompts| && PlanAll(prompts[..k], s).Err?
    ensures PlanAll(prompts, s) == PlanAll(prompts[..k], s)
    decreases |prompts| - k
  {
    if k < |prompts| {
      assert prompts[..k + 1][..k] == prompts[..k];
      PlanErrorStays(prompts, k + 1, s);
    } else {
      assert prompts[..k] == prompts;
    }
  }

  function Eligible(models: seq<RouteModel>, quality: Tier): seq<RouteModel> {
    if models == [] then []
    else (if Rank(models[0].quality) <= Rank(quality) then [models[0]] else []) + Eligible(models[1..], quality)
  }

  /** Restricting to the prompt's quality first does not change what a lower tier sees. */
  lemma {:induction false} EligibleOfTier(models: seq<RouteModel>, quality: Tier, t: Tier)
    requires Rank(t) <= Rank(quality)
    ensures OfTier(Eligible(models, quality), t) == OfTier(models, t)
  {
    if models != [] {
      EligibleOfTier(models[1..], quality, t);
      if Rank(models[0].quality) <= Rank(quality) {
        assert ([models[0]] + Eligible(models[1..], quality))[1..] == Eligible(models[1..], quality);
      } else {
        assert Eligible(models, quality) == Eligible(models[1..], quality);
        assert OfTier(models, t) == OfTier(models[1..], t);
      }
    }
  }

  /** The cheapest eligible model of one tier, if there is one. */
  method BuildStep(quality: Tier, eligible: seq<RouteModel>, p: Prompt, s: Setting)
    returns (r: Result<Option<CascadeStep>, RouterError>)
    requires OfTier(eligible, quality) == OfTier(s.models, quality)
    ensures r == StepFor(quality, p, s)
  {
    hide Cheapest, OfTier, ConfidenceRubric;
    var own := OfTier(eligible, quality);
    if own == [] {
      return Ok(None);
    }
    var model := Cheapest(own);
    var grounded := quality in p.groundedTiers;
    if grounded {
      match s.config.surcharge {
        case None => return Err(NoSurcharge(p.name, quality));
        case Some(extra) => model := model.(cost := model.cost + extra);
      }
    }
    return Ok(Some(CascadeStep(model, ConfidenceRubric(quality, p.quality), grounded)));
  }

  method BuildSteps(p: Prompt, s: Setting) returns (r: Result<seq<CascadeStep>, RouterError>)
    ensures r == StepsFor(TiersThrough(p.quality), p, s)
  {
    assert forall t | t in TiersThrough(p.quality) :: Rank(t) <= Rank(p.quality);
    hide StepFor, OfTier, TiersThrough, Eligible;
    var eligible := Eligible(s.models, p.quality);
    var tiers := TiersThrough(p.quality);
    var steps: seq<CascadeStep> := [];
    for i := 0 to |tiers|
      invariant StepsFor(tiers[..i], p, s) == Ok(steps)
    {
      EligibleOfTier(s.models, p.quality, tiers[i]);
      assert tiers[..i + 1][..i] == tiers[..i];
      var step := BuildStep(tiers[i], eligible, p, s);
      if step.Err? {
        StepErrorStays(tiers, i + 1, p, s);
        return Err(step.error);
      }
      if step.value.Some? {
        steps := steps + [step.value.value];
      }
    }
    assert tiers[..|tiers|] == tiers;
    return Ok(steps);
  }

  /** Keeps the names not seen before, marking them as seen. */
  method Unseen(names: seq<string>, selected: set<string>) returns (r: seq<string>)
    ensures r == FirstSeen(names, selected)
  {
    var seen := selected;
    r := [];
    for i := 0 to |names|
      invariant r + FirstSeen(names[i..], seen) == FirstSeen(names, selected)
    {
      assert names[i..][1..] == names[i + 1..];
      if names[i] !in seen {
        ghost var rest := FirstSeen(names[i + 1..], seen + {names[i]});
        assert r + ([names[i]] + rest) == (r + [names[i]]) + rest;
        r, seen := r + [names[i]], seen + {names[i]};
      }
    }
  }

  method CompilePrompt(p: Prompt, s: Setting) returns (r: Result<PromptRoute, RouterError>)
    ensures r == PlanFor(p, s)
  {
    if GroundedAbove(p).Some? {
      return Err(GroundedAboveQuality(p.name, GroundedAbove(p).value));
    }
    var built := BuildSteps(p, s);
    if built.Err? {
      return Err(built.error);
    }
    var steps := built.value;
    if forall i | 0 <= i < |steps| :: steps[i].model.quality != p.quality {
      return Err(NoModelAtTier(p.name, p.quality));
    }
    var selected := StepNames(steps);
    var names := Unseen(DeclaredFallbacks(steps, s.lock), selected);
    var fallbacks := Pin(names, s.models);
    if fallbacks.Err? {
      return Err(fallbacks.error);
    }
    var judge := Pseudo(s.config.judgeModel, JudgeKind, p.quality);
    return Ok(PromptRoute(
                p.quality,
                [Cache(s.threshold, s.band, judge), Cascade(steps), Fallbacks(fallbacks.value)],
                Candidates(s.models, judge, selected)));
  }

  method Compile(
    prompts: seq<Prompt>, config: CostModel, lock: ModelLock, observed: Option<Observed>, workload: Workload)
    returns (r: Result<Routes, RouterError>)
    ensures r == Artifact(prompts, config, lock, observed, workload)
  {
    var s := Settled(config, lock, observed, workload);
    if SettingError(s).Some? {
      return Err(SettingError(s).value);
    }
    var routes: Routes := map[];
    for i := 0 to |prompts|
      invariant PlanAll(prompts[..i], s) == Ok(routes)
    {
      var route := CompilePrompt(prompts[i], s);
      assert prompts[..i + 1][..i] == prompts[..i];
      if route.Err? {
        PlanErrorStays(prompts, i + 1, s);
        return Err(route.error);
      }
      if prompts[i].name in routes {
        PlanErrorStays(prompts, i + 1, s);
        return Err(DuplicatePrompt(prompts[i].name));
      }
      routes := routes[prompts[i].name := route.value];
    }
    assert prompts[..|prompts|] == prompts;
    return Ok(routes);
  }
}
