/** The route compiler: prompts, pinned prices and a cost model in, one plan per prompt out. */
module Router {
  import opened Outcomes
  import opened Text
  import opened Sorting
  import opened Ordering

  datatype Tier = Low | Medium | High

  function Rank(t: Tier): nat {
    match t
    case Low => 0
    case Medium => 1
    case High => 2
  }

  datatype ModelKind = Provider | CacheKind | JudgeKind

  datatype RouteModel = RouteModel(name: string, provider: string, quality: Tier, cost: real, kind: ModelKind)

  datatype LockedModel = LockedModel(provider: string, quality: Tier, fallbacks: seq<string>)

  datatype ModelPrice = ModelPrice(perThousandPrompt: real, perThousandCompletion: real)

  datatype ModelLock = ModelLock(models: map<string, LockedModel>, prices: map<string, ModelPrice>)

  datatype Band = Band(low: real, high: real)

  datatype CostModel = CostModel(threshold: real, band: Band, judgeModel: string, surcharge: Option<real>)

  datatype Observed = Observed(threshold: Option<real>, band: Option<Band>)

  datatype Workload = Workload(promptTokens: nat, completionTokens: nat)

  datatype Prompt = Prompt(name: string, quality: Tier, groundedTiers: set<Tier>)

  /** The instruction put before the model is a function of the two. */
  datatype Rubric = Rubric(minimum: real, target: Tier)

  datatype CascadeStep = CascadeStep(model: RouteModel, confidence: Rubric, grounded: bool)

  datatype Decision =
    | Cache(threshold: real, band: Band, judge: RouteModel)
    | Cascade(steps: seq<CascadeStep>)
    | Fallbacks(providers: seq<RouteModel>)

  datatype Candidate = Candidate(model: RouteModel, selected: bool)

  datatype PromptRoute = PromptRoute(quality: Tier, decisions: seq<Decision>, candidates: seq<Candidate>)

  datatype RouterError =
    | EmptyJudge
    | NegativeSurcharge
    | BadThreshold
    | BadBand
    | EmptyProvider(model: string)
    | Unpriced(model: string)
    | NegativePrice(model: string)
    | PriceWithoutModel(model: string)
    | GroundedAboveQuality(prompt: string, tier: Tier)
    | NoSurcharge(prompt: string, tier: Tier)
    | NoModelAtTier(prompt: string, tier: Tier)
    | FallbackUnpinned(model: string)
    | DuplicatePrompt(prompt: string)

  type Routes = map<string, PromptRoute>

  // ---- validation ----

  predicate Within01(x: real) {
    0.0 <= x <= 1.0
  }

  function ThresholdError(threshold: real, band: Band): Option<RouterError> {
    if !Within01(threshold) then Some(BadThreshold)
    else if !Within01(band.low) || !Within01(band.high) || band.low > band.high || band.high > threshold then
      Some(BadBand)
    else None
  }

  function ConfigError(config: CostModel): Option<RouterError> {
    if Trim(config.judgeModel) == "" then Some(EmptyJudge)
    else if config.surcharge.Some? && config.surcharge.value < 0.0 then Some(NegativeSurcharge)
    else ThresholdError(config.threshold, config.band)
  }

  function EntryError(n: string, lock: ModelLock): Option<RouterError>
    requires n in lock.models
  {
    if Trim(lock.models[n].provider) == "" then Some(EmptyProvider(n))
    else if n !in lock.prices then Some(Unpriced(n))
    else if lock.prices[n].perThousandPrompt < 0.0 || lock.prices[n].perThousandCompletion < 0.0 then
      Some(NegativePrice(n))
    else None
  }

  function ModelError(names: seq<string>, lock: ModelLock): Option<RouterError>
    requires forall n | n in names :: n in lock.models
  {
    if names == [] then None
    else if EntryError(names[0], lock).Some? then EntryError(names[0], lock)
    else ModelError(names[1..], lock)
  }

  function PriceError(names: seq<string>, lock: ModelLock): Option<RouterError> {
    if names == [] then None
    else if names[0] !in lock.models then Some(PriceWithoutModel(names[0]))
    else PriceError(names[1..], lock)
  }

  function LockError(lock: ModelLock): Option<RouterError> {
    match ModelError(KeysInOrder(lock.models.Keys), lock)
    case Some(e) => Some(e)
    case None => PriceError(KeysInOrder(lock.prices.Keys), lock)
  }

  ghost predicate SoundEntry(n: string, lock: ModelLock)
    requires n in lock.models
  {
    && Trim(lock.models[n].provider) != ""
    && n in lock.prices
    && lock.prices[n].perThousandPrompt >= 0.0 && lock.prices[n].perThousandCompletion >= 0.0
  }

  lemma {:induction false} ModelErrorIff(names: seq<string>, lock: ModelLock)
    requires forall n | n in names :: n in lock.models
    ensures ModelError(names, lock) == None <==> forall n | n in names :: SoundEntry(n, lock)
    ensures ModelError(names, lock) == None ==> forall n | n in names :: EntryError(n, lock) == None
  {
    if names != [] {
      ModelErrorIff(names[1..], lock);
      assert forall n :: n in names <==> n == names[0] || n in names[1..];
      assert ModelError(names, lock) == None
        <==> SoundEntry(names[0], lock) && ModelError(names[1..], lock) == None;
    }
  }

  lemma {:induction false} PriceErrorIff(names: seq<string>, lock: ModelLock)
    ensures PriceError(names, lock) == None <==> forall n | n in names :: n in lock.models
  {
    if names != [] {
      PriceErrorIff(names[1..], lock);
      assert names == [names[0]] + names[1..];
    }
  }

  /** A lock is accepted exactly when its models and prices name the same things, every
      provider is filled in, and no price is negative. */
  lemma LockAcceptedIff(lock: ModelLock)
    ensures LockError(lock) == None
       <==> lock.models.Keys == lock.prices.Keys && forall n | n in lock.models :: SoundEntry(n, lock)
  {
    ModelErrorIff(KeysInOrder(lock.models.Keys), lock);
    PriceErrorIff(KeysInOrder(lock.prices.Keys), lock);
    assert (forall n | n in lock.models :: n in lock.prices) && (forall n | n in lock.prices :: n in lock.models)
      <==> lock.models.Keys == lock.prices.Keys;
  }

  lemma {:induction false} ModelErrorIsFirst(names: seq<string>, lock: ModelLock)
    requires Sorted(names, StrLe) && forall n | n in names :: n in lock.models
    requires ModelError(names, lock).Some?
    ensures exists n :: n in names && ModelError(names, lock) == EntryError(n, lock)
                        && forall m | m in names && EntryError(m, lock).Some? :: StrLe(n, m)
  {
    assert names == [names[0]] + names[1..];
    if EntryError(names[0], lock).Some? {
      StrLeTotal(names[0], names[0]);
      assert forall m | m in names :: StrLe(names[0], m);
    } else {
      ModelErrorIsFirst(names[1..], lock);
    }
  }

  lemma {:induction false} PriceErrorIsFirst(names: seq<string>, lock: ModelLock)
    requires Sorted(names, StrLe) && PriceError(names, lock).Some?
    ensures exists n :: n in names && PriceError(names, lock) == Some(PriceWithoutModel(n)) && n !in lock.models
                        && forall m | m in names && m !in lock.models :: StrLe(n, m)
  {
    assert names == [names[0]] + names[1..];
    if names[0] !in lock.models {
      StrLeTotal(names[0], names[0]);
      assert forall m | m in names :: StrLe(names[0], m);
    } else {
      PriceErrorIsFirst(names[1..], lock);
    }
  }

  function Unsound(lock: ModelLock): set<string> {
    set n | n in lock.models && EntryError(n, lock).Some?
  }

  function Loose(lock: ModelLock): set<string> {
    lock.prices.Keys - lock.models.Keys
  }

  lemma UnsoundIsReported(lock: ModelLock)
    ensures var e := ModelError(KeysInOrder(lock.models.Keys), lock);
            if Unsound(lock) != {} then exists n :: IsLeast(n, Unsound(lock)) && e == EntryError(n, lock) && e.Some?
            else e == None
  {
    var names := KeysInOrder(lock.models.Keys);
    KeysAreSorted(lock.models.Keys);
    hide KeysInOrder, EntryError, StrLe;
    if ModelError(names, lock).Some? {
      ModelErrorIsFirst(names, lock);
      var n :| n in names && ModelError(names, lock) == EntryError(n, lock)
               && forall m | m in names && EntryError(m, lock).Some? :: StrLe(n, m);
      assert IsLeast(n, Unsound(lock));
    } else {
      ModelErrorIff(names, lock);
    }
  }

  lemma LooseIsReported(lock: ModelLock)
    ensures var e := PriceError(KeysInOrder(lock.prices.Keys), lock);
            if Loose(lock) != {} then exists n :: IsLeast(n, Loose(lock)) && e == Some(PriceWithoutModel(n))
            else e == None
  {
    var names := KeysInOrder(lock.prices.Keys);
    KeysAreSorted(lock.prices.Keys);
    hide KeysInOrder, StrLe;
    if PriceError(names, lock).Some? {
      PriceErrorIsFirst(names, lock);
      var n :| n in names && PriceError(names, lock) == Some(PriceWithoutModel(n)) && n !in lock.models
               && forall m | m in names && m !in lock.models :: StrLe(n, m);
      assert IsLeast(n, Loose(lock));
    } else {
      PriceErrorIff(names, lock);
    }
  }

  /** Which error a refused lock gets does not depend on how it is written down: the fault
      of the least unsound model, and if all are sound, the least price without a model. */
  lemma LockErrorIsLeast(lock: ModelLock)
    ensures if Unsound(lock) != {} then exists n :: IsLeast(n, Unsound(lock)) && LockError(lock) == EntryError(n, lock)
            else if Loose(lock) != {}
            then exists n :: IsLeast(n, Loose(lock)) && LockError(lock) == Some(PriceWithoutModel(n))
            else LockError(lock) == None
  {
    UnsoundIsReported(lock);
    LooseIsReported(lock);
    hide Unsound, Loose, ModelError, PriceError, KeysInOrder, EntryError, IsLeast;
  }

  // ---- pricing ----

  function Thousands(tokens: nat): (r: real)
    ensures r >= 0.0 && (tokens > 0 ==> r > 0.0)
  {
    tokens as real / 1000.0
  }

  function CallCost(price: ModelPrice, workload: Workload): real {
    Thousands(workload.promptTokens) * price.perThousandPrompt
    + Thousands(workload.completionTokens) * price.perThousandCompletion
  }

  predicate CostNameLe(a: RouteModel, b: RouteModel) {
    a.cost < b.cost || (a.cost == b.cost && StrLe(a.name, b.name))
  }

  lemma CostNameOrder()
    ensures TotalPreorder(CostNameLe)
  {
    forall a: RouteModel, b: RouteModel
      ensures CostNameLe(a, b) || CostNameLe(b, a)
    {
      StrLeTotal(a.name, b.name);
    }
    forall a: RouteModel, b: RouteModel, c: RouteModel | CostNameLe(a, b) && CostNameLe(b, c)
      ensures CostNameLe(a, c)
    {
      if a.cost == b.cost == c.cost {
        StrLeTransitive(a.name, b.name, c.name);
      }
    }
  }

  function Priced(n: string, lock: ModelLock, workload: Workload): RouteModel
    requires n in lock.models && n in lock.prices
  {
    RouteModel(n, lock.models[n].provider, lock.models[n].quality, CallCost(lock.prices[n], workload), Provider)
  }

  function PricedIn(names: seq<string>, lock: ModelLock, workload: Workload): seq<RouteModel>
    requires forall n | n in names :: n in lock.models
  {
    if names == [] then []
    else (if names[0] in lock.prices then [Priced(names[0], lock, workload)] else [])
         + PricedIn(names[1..], lock, workload)
  }

  function PricedModels(lock: ModelLock, workload: Workload): seq<RouteModel> {
    StableSort(PricedIn(KeysInOrder(lock.models.Keys), lock, workload), CostNameLe)
  }

  ghost predicate DistinctNames(models: seq<RouteModel>) {
    forall i, j | 0 <= i < j < |models| :: models[i].name != models[j].name
  }

  predicate IsPin(m: RouteModel, lock: ModelLock, workload: Workload) {
    m.name in lock.models && m.name in lock.prices && m == Priced(m.name, lock, workload)
  }

  lemma {:induction false} PricedInMembers(names: seq<string>, lock: ModelLock, workload: Workload)
    requires forall n | n in names :: n in lock.models
    ensures forall m :: m in PricedIn(names, lock, workload) <==> m.name in names && IsPin(m, lock, workload)
    ensures NoRepeats(names) ==> DistinctNames(PricedIn(names, lock, workload))
  {
    if names != [] {
      PricedInMembers(names[1..], lock, workload);
      assert names == [names[0]] + names[1..];
      var rest := PricedIn(names[1..], lock, workload);
      assert forall i | 0 <= i < |rest| :: rest[i] in rest;
      assert NoRepeats(names) ==> names[0] !in names[1..];
    }
  }

  lemma DistinctNamesPermute(s: seq<RouteModel>, t: seq<RouteModel>)
    requires DistinctNames(s) && multiset(s) == multiset(t)
    ensures DistinctNames(t)
  {
    var name := (m: RouteModel) => m.name;
    MapPermutes(s, t, name);
    NoRepeatsPermutes(Map(s, name), Map(t, name));
    assert forall i | 0 <= i < |t| :: Map(t, name)[i] == t[i].name;
  }

  lemma SameMembers<T>(s: seq<T>, t: seq<T>)
    requires multiset(s) == multiset(t)
    ensures forall x :: x in s <==> x in t
  {
    assert forall x :: x in s <==> x in multiset(s);
    assert forall x :: x in t <==> x in multiset(t);
  }

  /** The priced models are exactly the pins that have a price, once each, cheapest first
      and by name among equals. */
  lemma PricedModelsFacts(lock: ModelLock, workload: Workload)
    ensures var models := PricedModels(lock, workload);
            && Sorted(models, CostNameLe)
            && DistinctNames(models)
            && (forall m :: m in models <==> IsPin(m, lock, workload))
  {
    var names := KeysInOrder(lock.models.Keys);
    var unsorted := PricedIn(names, lock, workload);
    PricedInMembers(names, lock, workload);
    CostNameOrder();
    SortSorts(unsorted, CostNameLe);
    SortPermutes(unsorted, CostNameLe);
    DistinctNamesPermute(unsorted, PricedModels(lock, workload));
    SameMembers(unsorted, PricedModels(lock, workload));
  }

  // ---- one prompt ----

  function TiersThrough(maximum: Tier): seq<Tier> {
    match maximum
    case Low => [Low]
    case Medium => [Low, Medium]
    case High => [Low, Medium, High]
  }

  function MinimumScore(step: Tier, target: Tier): real {
    match (step, target)
    case (Low, Low) => 0.72
    case (Low, _) => 0.90
    case (Medium, Medium) => 0.78
    case (Medium, High) => 0.90
    case (High, High) => 0.82
    case _ => 1.0
  }

  function ConfidenceRubric(step: Tier, target: Tier): Rubric {
    Rubric(MinimumScore(step, target), target)
  }

  /** The first grounded tier, in order, that is not among the prompt's own tiers. */
  function GroundedAbove(p: Prompt): Option<Tier> {
    if Medium in p.groundedTiers && Medium !in TiersThrough(p.quality) then Some(Medium)
    else if High in p.groundedTiers && High !in TiersThrough(p.quality) then Some(High)
    else None
  }

  function OfTier(models: seq<RouteModel>, t: Tier): (r: seq<RouteModel>)
    ensures forall m :: m in r <==> m in models && m.quality == t
  {
    if models == [] then []
    else
      assert models == [models[0]] + models[1..];
      (if models[0].quality == t then [models[0]] else []) + OfTier(models[1..], t)
  }

  /** Of equals, the first. */
  function Cheapest(models: seq<RouteModel>): RouteModel
    requires models != []
  {
    if |models| == 1 then models[0]
    else
      var rest := Cheapest(models[1..]);
      if CostNameLe(models[0], rest) then models[0] else rest
  }

  lemma {:induction false} CheapestIsLeast(models: seq<RouteModel>)
    requires models != []
    ensures Cheapest(models) in models && forall m | m in models :: CostNameLe(Cheapest(models), m)
  {
    CostNameOrder();
    assert models == [models[0]] + models[1..];
    if |models| > 1 {
      CheapestIsLeast(models[1..]);
    }
  }

  /** What every prompt of one compilation shares. */
  datatype Setting = Setting(
    config: CostModel,
    lock: ModelLock,
    models: seq<RouteModel>,
    threshold: real,
    band: Band)

  function StepFor(t: Tier, p: Prompt, s: Setting): Result<Option<CascadeStep>, RouterError> {
    var own := OfTier(s.models, t);
    if own == [] then Ok(None)
    else
      var m := Cheapest(own);
      if t !in p.groundedTiers then Ok(Some(CascadeStep(m, ConfidenceRubric(t, p.quality), false)))
      else
        match s.config.surcharge
        case None => Err(NoSurcharge(p.name, t))
        case Some(extra) => Ok(Some(CascadeStep(m.(cost := m.cost + extra), ConfidenceRubric(t, p.quality), true)))
  }

  /** The steps of the tiers in order, or the first tier's error. */
  function StepsFor(tiers: seq<Tier>, p: Prompt, s: Setting): Result<seq<CascadeStep>, RouterError> {
    if tiers == [] then Ok([])
    else
      match StepsFor(tiers[..|tiers| - 1], p, s)
      case Err(e) => Err(e)
      case Ok(steps) =>
        match StepFor(tiers[|tiers| - 1], p, s)
        case Err(e) => Err(e)
        case Ok(None) => Ok(steps)
        case Ok(Some(step)) => Ok(steps + [step])
  }

  function StepNames(steps: seq<CascadeStep>): (r: set<string>)
    ensures forall n :: n in r <==> exists i :: 0 <= i < |steps| && steps[i].model.name == n
  {
    if steps == [] then {}
    else
      assert steps == [steps[0]] + steps[1..];
      {steps[0].model.name} + StepNames(steps[1..])
  }

  /** The fallbacks the steps' pins declare, step by step. */
  function DeclaredFallbacks(steps: seq<CascadeStep>, lock: ModelLock): seq<string> {
    if steps == [] then []
    else
      (if steps[0].model.name in lock.models then lock.models[steps[0].model.name].fallbacks else [])
      + DeclaredFallbacks(steps[1..], lock)
  }

  /** First occurrences only, and none of `seen`. */
  function FirstSeen(names: seq<string>, seen: set<string>): seq<string> {
    if names == [] then []
    else if names[0] in seen then FirstSeen(names[1..], seen)
    else [names[0]] + FirstSeen(names[1..], seen + {names[0]})
  }

  function FindModel(models: seq<RouteModel>, name: string): (r: Option<RouteModel>)
    ensures r.Some? ==> r.value in models && r.value.name == name
    ensures r.None? ==> forall m | m in models :: m.name != name
  {
    if models == [] then None
    else
      assert models == [models[0]] + models[1..];
      if models[0].name == name then Some(models[0]) else FindModel(models[1..], name)
  }

  function Pin(names: seq<string>, models: seq<RouteModel>): Result<seq<RouteModel>, RouterError> {
    if names == [] then Ok([])
    else
      match FindModel(models, names[0])
      case None => Err(FallbackUnpinned(names[0]))
      case Some(m) =>
        match Pin(names[1..], models)
        case Err(e) => Err(e)
        case Ok(rest) => Ok([m] + rest)
  }

  const PSEUDO_MODEL_COST: real := 0.000000001

  function Pseudo(name: string, kind: ModelKind, quality: Tier): RouteModel {
    RouteModel(name, "internal", quality, PSEUDO_MODEL_COST, kind)
  }

  predicate CandidateLe(a: Candidate, b: Candidate) {
    CostNameLe(a.model, b.model)
  }

  function Flagged(models: seq<RouteModel>, selected: set<string>): (r: seq<Candidate>)
    ensures |r| == |models|
    ensures forall i | 0 <= i < |r| :: r[i] == Candidate(models[i], models[i].name in selected)
  {
    seq(|models|, i requires 0 <= i < |models| => Candidate(models[i], models[i].name in selected))
  }

  function Candidates(models: seq<RouteModel>, judge: RouteModel, selected: set<string>): seq<Candidate> {
    StableSort([Candidate(Pseudo("semantic-cache", CacheKind, Low), false), Candidate(judge, false)]
               + Flagged(models, selected), CandidateLe)
  }

  function FallbacksFor(steps: seq<CascadeStep>, s: Setting): Result<seq<RouteModel>, RouterError> {
    Pin(FirstSeen(DeclaredFallbacks(steps, s.lock), StepNames(steps)), s.models)
  }

  function PlanFor(p: Prompt, s: Setting): Result<PromptRoute, RouterError> {
    if GroundedAbove(p).Some? then Err(GroundedAboveQuality(p.name, GroundedAbove(p).value))
    else
      match StepsFor(TiersThrough(p.quality), p, s)
      case Err(e) => Err(e)
      case Ok(steps) =>
        if forall i | 0 <= i < |steps| :: steps[i].model.quality != p.quality then Err(NoModelAtTier(p.name, p.quality))
        else
          match FallbacksFor(steps, s)
          case Err(e) => Err(e)
          case Ok(fallbacks) =>
            var judge := Pseudo(s.config.judgeModel, JudgeKind, p.quality);
            Ok(PromptRoute(
                 p.quality,
                 [Cache(s.threshold, s.band, judge), Cascade(steps), Fallbacks(fallbacks)],
                 Candidates(s.models, judge, StepNames(steps))))
  }

  // ---- all prompts ----

  function PlanAll(prompts: seq<Prompt>, s: Setting): Result<Routes, RouterError> {
    if prompts == [] then Ok(map[])
    else
      var p := prompts[|prompts| - 1];
      match PlanAll(prompts[..|prompts| - 1], s)
      case Err(e) => Err(e)
      case Ok(routes) =>
        match PlanFor(p, s)
        case Err(e) => Err(e)
        case Ok(route) => if p.name in routes then Err(DuplicatePrompt(p.name)) else Ok(routes[p.name := route])
  }

  function Settled(config: CostModel, lock: ModelLock, observed: Option<Observed>, workload: Workload): Setting {
    Setting(
      config,
      lock,
      PricedModels(lock, workload),
      if observed.Some? then observed.value.threshold.GetOr(config.threshold) else config.threshold,
      if observed.Some? then observed.value.band.GetOr(config.band) else config.band)
  }

  function SettingError(s: Setting): Option<RouterError> {
    if ConfigError(s.config).Some? then ConfigError(s.config)
    else if LockError(s.lock).Some? then LockError(s.lock)
    else ThresholdError(s.threshold, s.band)
  }

  /** The compiled artifact. */
  function Artifact(
    prompts: seq<Prompt>, config: CostModel, lock: ModelLock, observed: Option<Observed>, workload: Workload)
    : Result<Routes, RouterError>
  {
    var s := Settled(config, lock, observed, workload);
    match SettingError(s)
    case Some(e) => Err(e)
    case None => PlanAll(prompts, s)
  }
}
