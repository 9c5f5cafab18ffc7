/** The pass pipeline and its paid pass, compression pinned by a lockfile. */
module Pipeline {
  import opened Outcomes
  import opened Text
  import opened Sorting
  import opened Passes

  // ---- compression ----

  datatype CompressMode = Update | Frozen

  datatype Pinned = Pinned(model: string, output: string)

  type Lock = map<string, Pinned>

  /** The provider's answer to its n-th request; different requests for one input may
      be answered differently. */
  type Provider = (nat, string) -> Result<string, string>

  datatype Build = Build(mode: CompressMode, model: string, provider: Provider)

  /** What outlives a pass: the lock, and how often the provider has been asked. */
  datatype Env = Env(lock: Lock, calls: nat)

  /** The preimage stands for the digest. */
  function InputHash(body: string): string {
    "cybersin.compress.v1\0" + body
  }

  function Refused(message: string): Diagnostic {
    Diagnostic("compress", Error, message)
  }

  function CompressOne(s: Section, build: Build, env: Env): (Result<Section, Diagnostic>, Env) {
    var key := InputHash(s.body);
    if s.body == "" || s.dedupRef.Some? then (Ok(s), env)
    else if key in env.lock then (Ok(s.(body := env.lock[key].output)), env)
    else if build.mode == Frozen then (Err(Refused("frozen build: compression input " + key + " is not pinned")), env)
    else
      match build.provider(env.calls, s.body)
      case Err(e) => (Err(Refused("compression provider failed: " + e)), env.(calls := env.calls + 1))
      case Ok(output) =>
        if WordCount(output) >= WordCount(s.body)
        then (Err(Refused("provider did not reduce token count for section `" + s.id + "`")),
              env.(calls := env.calls + 1))
        else (Ok(s.(body := output)), Env(env.lock[key := Pinned(build.model, output)], env.calls + 1))
  }

  function CompressAll(sections: seq<Section>, build: Build, env: Env): (Result<seq<Section>, Diagnostic>, Env) {
    if sections == [] then (Ok([]), env)
    else
      var (head, env1) := CompressOne(sections[0], build, env);
      match head
      case Err(d) => (Err(d), env1)
      case Ok(s) =>
        var (tail, env2) := CompressAll(sections[1..], build, env1);
        match tail
        case Err(d) => (Err(d), env2)
        case Ok(rest) => (Ok([s] + rest), env2)
  }

  /** Every pin of `a` is in `b`, unchanged. */
  ghost predicate Keeps(a: Lock, b: Lock) {
    forall k | k in a :: k in b && b[k] == a[k]
  }

  /** A lock entry, once made, is never overwritten, whether the pass succeeds or not. */
  lemma {:induction false} PinsStay(sections: seq<Section>, build: Build, env: Env)
    ensures Keeps(env.lock, CompressAll(sections, build, env).1.lock)
  {
    if sections != [] {
      var (head, env1) := CompressOne(sections[0], build, env);
      assert Keeps(env.lock, env1.lock);
      if head.Ok? {
        PinsStay(sections[1..], build, env1);
      }
    }
  }

  /** With all pins of a successful pass at hand, a frozen pass repeats it without asking. */
  lemma {:induction false} FrozenRepeats(sections: seq<Section>, build: Build, env: Env, frozen: Build, again: Env)
    requires frozen.mode == Frozen
    requires CompressAll(sections, build, env).0.Ok?
    requires Keeps(CompressAll(sections, build, env).1.lock, again.lock)
    ensures CompressAll(sections, frozen, again) == (CompressAll(sections, build, env).0, again)
  {
    if sections != [] {
      var (head, env1) := CompressOne(sections[0], build, env);
      PinsStay(sections[1..], build, env1);
      assert Keeps(env1.lock, again.lock);
      assert CompressOne(sections[0], frozen, again) == (head, again);
      FrozenRepeats(sections[1..], build, env1, frozen, again);
    }
  }

  // ---- the pipeline ----

  datatype BudgetArtifact = BudgetArtifact(promptName: string, plans: seq<BudgetPlan>)

  datatype Ctx = Ctx(
    name: string,
    sections: seq<Section>,
    budget: Option<BudgetArtifact>,
    diagnostics: seq<Diagnostic>)

  datatype Slot = LintFast | Dedupe | Compress | Reorder | Budget | Lint

  datatype Profile = Dev | Release

  function ProfilePlan(profile: Profile): seq<Slot> {
    match profile
    case Dev => [LintFast, Dedupe, Reorder, Budget, Lint]
    case Release => [LintFast, Dedupe, Compress, Reorder, Budget, Lint]
  }

  /** What stays fixed during a build: targets and the template check of `lint-fast`. */
  datatype Setup = Setup(targets: seq<TargetBudget>, lintFast: seq<Section> -> seq<Diagnostic>)

  function DeadMessage(s: Section): Diagnostic {
    Diagnostic("lint", Warning, "section `" + s.id + "` is evicted everywhere")
  }

  function DeadSections(ctx: Ctx): seq<Diagnostic> {
    if ctx.budget.None? || ctx.budget.value.promptName != ctx.name || ctx.budget.value.plans == [] then []
    else
      Map(Filter(ctx.sections, (s: Section) =>
            forall p | p in ctx.budget.value.plans :: exists step :: step in p.order && step.sectionId == s.id),
          DeadMessage)
  }

  function RunPass(slot: Slot, ctx: Ctx, setup: Setup, build: Build, env: Env): (Ctx, Env) {
    match slot
    case LintFast => (ctx.(diagnostics := ctx.diagnostics + setup.lintFast(ctx.sections)), env)
    case Dedupe => (ctx.(sections := Deduped(ctx.sections)), env)
    case Compress =>
      var (r, env') := CompressAll(ctx.sections, build, env);
      (match r
       case Ok(sections) => (ctx.(sections := sections), env')
       case Err(d) => (ctx.(diagnostics := ctx.diagnostics + [d]), env'))
    case Reorder => (ctx.(sections := Reordered(ctx.sections)), env)
    case Budget => (ctx.(budget := Some(BudgetArtifact(ctx.name, Plans(ctx.sections, setup.targets)))), env)
    case Lint =>
      (ctx.(diagnostics := ctx.diagnostics + Map(DuplicateIds(ctx.sections), DupMessage) + DeadSections(ctx)), env)
  }

  function RunPipeline(slots: seq<Slot>, ctx: Ctx, setup: Setup, build: Build, env: Env): (Ctx, Env) {
    if slots == [] then (ctx, env)
    else
      var (ctx1, env1) := RunPass(slots[0], ctx, setup, build, env);
      if HasError(ctx1.diagnostics) then (ctx1, env1) else RunPipeline(slots[1..], ctx1, setup, build, env1)
  }

  function Fresh(name: string, sections: seq<Section>): Ctx {
    Ctx(name, sections, None, [])
  }

  lemma {:induction false} PinsStayInPipeline(slots: seq<Slot>, ctx: Ctx, setup: Setup, build: Build, env: Env)
    ensures Keeps(env.lock, RunPipeline(slots, ctx, setup, build, env).1.lock)
  {
    if slots != [] {
      var (ctx1, env1) := RunPass(slots[0], ctx, setup, build, env);
      PinsStay(ctx.sections, build, env);
      if !HasError(ctx1.diagnostics) {
        PinsStayInPipeline(slots[1..], ctx1, setup, build, env1);
      }
    }
  }

  lemma {:induction false} FrozenPipelineRepeats(
    slots: seq<Slot>, ctx: Ctx, setup: Setup, build: Build, env: Env, frozen: Build, again: Env)
    requires frozen.mode == Frozen
    requires !HasError(RunPipeline(slots, ctx, setup, build, env).0.diagnostics)
    requires Keeps(RunPipeline(slots, ctx, setup, build, env).1.lock, again.lock)
    ensures RunPipeline(slots, ctx, setup, frozen, again) == (RunPipeline(slots, ctx, setup, build, env).0, again)
  {
    if slots != [] {
      var (ctx1, env1) := RunPass(slots[0], ctx, setup, build, env);
      assert !HasError(ctx1.diagnostics);
      PinsStayInPipeline(slots[1..], ctx1, setup, build, env1);
      assert Keeps(env1.lock, again.lock);
      if slots[0] == Compress {
        FailedCompressShows(ctx, build, env);
        FrozenRepeats(ctx.sections, build, env, frozen, again);
      }
      assert RunPass(slots[0], ctx, setup, frozen, again) == (ctx1, again);
      FrozenPipelineRepeats(slots[1..], ctx1, setup, build, env1, frozen, again);
    }
  }

  /** A failed compress pass leaves an error behind. */
  lemma FailedCompressShows(ctx: Ctx, build: Build, env: Env)
    ensures var (r, env') := CompressAll(ctx.sections, build, env);
            r.Err? ==> HasError(ctx.diagnostics + [r.error])
  {
    ErrorsAreErrors(ctx.sections, build, env);
    var r := CompressAll(ctx.sections, build, env).0;
    if r.Err? {
      assert r.error in ctx.diagnostics + [r.error];
    }
  }

  lemma {:induction false} ErrorsAreErrors(sections: seq<Section>, build: Build, env: Env)
    ensures CompressAll(sections, build, env).0.Err? ==> CompressAll(sections, build, env).0.error.severity == Error
  {
    if sections != [] {
      var (head, env1) := CompressOne(sections[0], build, env);
      if head.Ok? {
        ErrorsAreErrors(sections[1..], build, env1);
      }
    }
  }

  // ---- theorems ----

  /** Frozen reproducibility: if a release build in update mode ends without an error,
      building again frozen, from the lock it left and with any provider, asks nothing,
      leaves the lock alone and yields the same sections, budget and diagnostics. */
  lemma FrozenReproducibility(name: string, sections: seq<Section>, setup: Setup, build: Build, env: Env, frozen: Build)
    requires frozen.mode == Frozen
    requires !HasError(RunPipeline(ProfilePlan(Release), Fresh(name, sections), setup, build, env).0.diagnostics)
    ensures var (ctx, left) := RunPipeline(ProfilePlan(Release), Fresh(name, sections), setup, build, env);
            && RunPipeline(ProfilePlan(Release), Fresh(name, sections), setup, frozen, Env(left.lock, 0))
               == (ctx, Env(left.lock, 0))
            && Keeps(env.lock, left.lock)
  {
    var (ctx, left) := RunPipeline(ProfilePlan(Release), Fresh(name, sections), setup, build, env);
    FrozenPipelineRepeats(ProfilePlan(Release), Fresh(name, sections), setup, build, env, frozen, Env(left.lock, 0));
    PinsStayInPipeline(ProfilePlan(Release), Fresh(name, sections), setup, build, env);
  }

  /** A failing compress pass leaves the sections untouched. */
  lemma FailedCompressKeepsSections(ctx: Ctx, setup: Setup, build: Build, env: Env)
    requires CompressAll(ctx.sections, build, env).0.Err?
    ensures var ctx' := RunPass(Compress, ctx, setup, build, env).0;
            ctx'.sections == ctx.sections && HasError(ctx'.diagnostics)
  {
    FailedCompressShows(ctx, build, env);
  }

  lemma NoErrors(before: seq<Diagnostic>, dupes: seq<string>, more: seq<Diagnostic>)
    requires !HasError(before + Map(dupes, DupMessage) + more)
    ensures dupes == []
  {
    var all := before + Map(dupes, DupMessage) + more;
    assert forall i | 0 <= i < |dupes| :: all[|before| + i] == DupMessage(dupes[i]) && all[|before| + i] in all;
    assert forall d | d in all :: d.severity != Error;
    assert |dupes| > 0 ==> all[|before| + 0] == DupMessage(dupes[0]);
  }

  /** The sections after dedupe and reorder, when nothing stopped the dev pipeline. */
  lemma DevPipelineSections(name: string, sections: seq<Section>, setup: Setup, build: Build, env: Env)
    requires !HasError(RunPipeline(ProfilePlan(Dev), Fresh(name, sections), setup, build, env).0.diagnostics)
    ensures var out := RunPipeline(ProfilePlan(Dev), Fresh(name, sections), setup, build, env).0;
            && out.sections == Reordered(Deduped(sections))
            && out.budget == Some(BudgetArtifact(name, Plans(out.sections, setup.targets)))
            && DuplicateIds(out.sections) == []
  {
    hide Deduped, Reordered, Plans, DuplicateIds, DeadSections, CompressAll;
    var plan := ProfilePlan(Dev);
    var c0 := Fresh(name, sections);
    var c1 := RunPass(LintFast, c0, setup, build, env).0;
    assert plan[1..] == [Dedupe, Reorder, Budget, Lint];
    var c2 := RunPass(Dedupe, c1, setup, build, env).0;
    assert plan[1..][1..] == [Reorder, Budget, Lint];
    var c3 := RunPass(Reorder, c2, setup, build, env).0;
    assert plan[1..][1..][1..] == [Budget, Lint];
    var c4 := RunPass(Budget, c3, setup, build, env).0;
    assert [Budget, Lint][1..] == [Lint] && [Lint][1..] == [];
    var c5 := RunPass(Lint, c4, setup, build, env).0;
    assert !HasError(c1.diagnostics);
    assert RunPipeline(plan, c0, setup, build, env)
        == RunPipeline([Dedupe, Reorder, Budget, Lint], c1, setup, build, env);
    assert RunPipeline([Dedupe, Reorder, Budget, Lint], c1, setup, build, env)
        == RunPipeline([Reorder, Budget, Lint], c2, setup, build, env);
    assert RunPipeline([Reorder, Budget, Lint], c2, setup, build, env)
        == RunPipeline([Budget, Lint], c3, setup, build, env);
    assert RunPipeline([Budget, Lint], c3, setup, build, env) == RunPipeline([Lint], c4, setup, build, env);
    assert RunPipeline([Lint], c4, setup, build, env).0 == c5;
    NoErrors(c4.diagnostics, DuplicateIds(c4.sections), DeadSections(c4));
  }

  /** The pipeline preserves meaning: if the dev pipeline ends without an error on sections
      that carry no references, then ids are unique, every reference leads in one hop to a
      section with text of its own, resolving references gives back a permutation of the
      original contents, and the order is the placeholder-free bodies first, each group in
      its original order. */
  lemma DevPipelineKeepsMeaning(name: string, sections: seq<Section>, setup: Setup, build: Build, env: Env)
    requires RefFree(sections)
    requires !HasError(RunPipeline(ProfilePlan(Dev), Fresh(name, sections), setup, build, env).0.diagnostics)
    ensures var out := RunPipeline(ProfilePlan(Dev), Fresh(name, sections), setup, build, env).0.sections;
            && UniqueIds(out) && OneHop(out)
            && multiset(Resolved(out)) == multiset(Resolved(sections))
            && out == Filter(Deduped(sections), StableFirst) + FilterNot(Deduped(sections), StableFirst)
  {
    DevPipelineSections(name, sections, setup, build, env);
    var d, out := Deduped(sections), Reordered(Deduped(sections));
    ReorderIsPartition(d);
    NoDuplicatesIffUnique(out);
    UniqueIdsPermute(out, d);
    DedupeKeepsIds(sections);
    DedupeKeepsMeaning(sections);
    PermutingKeepsMeaning(d, out);
  }

  lemma UniqueIdsPermute(s: seq<Section>, t: seq<Section>)
    requires UniqueIds(s) && multiset(s) == multiset(t)
    ensures UniqueIds(t)
  {
    var ids := (x: Section) => x.id;
    MapPermutes(s, t, ids);
    NoRepeatsPermutes(Map(s, ids), Map(t, ids));
    assert forall i | 0 <= i < |t| :: Map(t, ids)[i] == t[i].id;
  }

  // ---- the passes as objects updated in place ----

  class PassContext {
    const name: string
    var sections: seq<Section>
    var budget: Option<BudgetArtifact>
    var diagnostics: seq<Diagnostic>

    constructor (name: string, sections: seq<Section>)
      ensures View() == Fresh(name, sections)
    {
      this.name, this.sections, budget, diagnostics := name, sections, None, [];
    }

    function View(): Ctx
      reads this
    {
      Ctx(name, sections, budget, diagnostics)
    }

    /** The first loop: what each section collapses onto, through a map of first owners. */
    method CanonicalRefs() returns (refs: seq<Option<string>>)
      ensures |refs| == |sections| && forall j | 0 <= j < |sections| :: refs[j] == CollapsesTo(sections, j)
    {
      hide Trim, FirstWith;
      var canonical: map<string, nat> := map[];
      refs := [];
      for i := 0 to |sections|
        invariant |refs| == i
        invariant forall b | b in canonical :: canonical[b] == FirstWith(sections, b) < i
        invariant forall j | 0 <= j < i && Trim(sections[j].body) != "" :: sections[j].body in canonical
        invariant forall j | 0 <= j < i :: refs[j] == CollapsesTo(sections, j)
      {
        var body := sections[i].body;
        if Trim(body) == "" {
          refs := refs + [None];
        } else if body in canonical {
          refs := refs + [Some(sections[canonical[body]].id)];
        } else {
          canonical := canonical[body := i];
          refs := refs + [None];
        }
      }
    }

    /** The second loop: clears the copies in place. */
    method RunDedupe()
      modifies this`sections
      ensures sections == Deduped(old(sections))
    {
      var refs := CanonicalRefs();
      hide CollapsesTo;
      for i := 0 to |sections|
        invariant |sections| == |old(sections)| == |refs|
        invariant forall j | 0 <= j < i :: sections[j] == DedupeSection(old(sections), j)
        invariant forall j | i <= j < |sections| :: sections[j] == old(sections)[j]
      {
        if refs[i].Some? {
          sections := sections[i := sections[i].(body := "", dedupRef := refs[i])];
        }
      }
    }

    method RunReorder()
      modifies this`sections
      ensures sections == Reordered(old(sections))
    {
      sections := StableSort(sections, StabilityLe);
    }

    method RunBudget(targets: seq<TargetBudget>)
      modifies this`budget
      ensures budget == Some(BudgetArtifact(name, Plans(sections, targets)))
    {
      var order := StableSort(Keys(sections), KeyLe);
      var plans := Map(targets, (t: TargetBudget) =>
        BudgetPlan(t.target, t.window, t.reserved,
                   Map(order, (k: Keyed) =>
                     EvictionStep(k.id, if t.window < t.reserved then 0 else t.window - t.reserved))));
      forall i | 0 <= i < |targets|
        ensures plans[i] == Plans(sections, targets)[i]
      {
        assert plans[i].order == Plan(sections, targets[i]).order;
      }
      assert plans == Plans(sections, targets);
      budget := Some(BudgetArtifact(name, plans));
    }

    method RunLint()
      modifies this`diagnostics
      ensures diagnostics == old(diagnostics) + Map(DuplicateIds(sections), DupMessage) + DeadSections(old(View()))
    {
      var dupes := DuplicateIds(sections);
      var dead := DeadSections(View());
      for i := 0 to |dupes|
        invariant diagnostics == old(diagnostics) + Map(dupes, DupMessage)[..i]
      {
        diagnostics := diagnostics + [DupMessage(dupes[i])];
      }
      assert Map(dupes, DupMessage)[..|dupes|] == Map(dupes, DupMessage);
      diagnostics := diagnostics + dead;
    }
  }

  /** The shared lockfile and the provider behind it. */
  class Compressor {
    const build: Build
    var lock: Lock
    var calls: nat

    constructor (build: Build, lock: Lock)
      ensures this.build == build && View() == Env(lock, 0)
    {
      this.build, this.lock, calls := build, lock, 0;
    }

    function View(): Env
      reads this
    {
      Env(lock, calls)
    }

    /** Works on a copy of the sections, and gives it back only if every one succeeds. */
    method Run(ctx: PassContext)
      modifies this`lock, this`calls, ctx`sections, ctx`diagnostics
      ensures var (r, env) := CompressAll(old(ctx.sections), build, old(View()));
              && View() == env
              && ctx.sections == (if r.Ok? then r.value else old(ctx.sections))
              && ctx.diagnostics == old(ctx.diagnostics) + if r.Ok? then [] else [r.error]
    {
      hide WordCount, InputHash, CompressAll;
      var sections := ctx.sections;
      ghost var whole := CompressAll(sections, build, View());
      assert sections[0..] == sections;
      for i := 0 to |sections|
        invariant |sections| == |ctx.sections| && ctx.sections == old(ctx.sections)
        invariant ctx.diagnostics == old(ctx.diagnostics)
        invariant sections[i..] == ctx.sections[i..]
        invariant whole == After(sections[..i], CompressAll(ctx.sections[i..], build, View()))
      {
        ghost var env := View();
        var section := ctx.sections[i];
        assert ctx.sections[i..][0] == section && ctx.sections[i..][1..] == ctx.sections[i + 1..];
        CompressNext(sections[..i], ctx.sections[i..], build, env);
        if section.body != "" && section.dedupRef.None? {
          var key := InputHash(section.body);
          if key in lock {
            section := section.(body := lock[key].output);
          } else if build.mode == Frozen {
            ctx.diagnostics := ctx.diagnostics
              + [Refused("frozen build: compression input " + key + " is not pinned")];
            return;
          } else {
            var answer := build.provider(calls, section.body);
            calls := calls + 1;
            match answer {
              case Err(e) =>
                ctx.diagnostics := ctx.diagnostics + [Refused("compression provider failed: " + e)];
                return;
              case Ok(output) =>
                if WordCount(output) >= WordCount(section.body) {
                  ctx.diagnostics := ctx.diagnostics
                    + [Refused("provider did not reduce token count for section `" + section.id + "`")];
                  return;
                }
                lock := lock[key := Pinned(build.model, output)];
                section := section.(body := output);
            }
          }
        }
        assert CompressOne(ctx.sections[i], build, env) == (Ok(section), View());
        ghost var before := sections;
        sections := sections[i := section];
        assert sections[..i + 1] == before[..i] + [section];
        assert sections[i + 1..] == before[i..][1..];
      }
      CompressNone(build, View());
      assert sections[..|sections|] == sections && ctx.sections[|sections|..] == [];
      assert sections + [] == sections;
      ctx.sections := sections;
    }
  }

  /** The whole result, given what is done and the result of what is left. */
  ghost function After(done: seq<Section>, rest: (Result<seq<Section>, Diagnostic>, Env))
    : (r: (Result<seq<Section>, Diagnostic>, Env))
    ensures done == [] ==> r == rest
  {
    match rest.0
    case Ok(s) => assert done == [] ==> done + s == s; (Ok(done + s), rest.1)
    case Err(d) => (Err(d), rest.1)
  }

  lemma CompressNone(build: Build, env: Env)
    ensures CompressAll([], build, env) == (Ok([]), env)
  {
  }

  lemma CompressNext(done: seq<Section>, left: seq<Section>, build: Build, env: Env)
    requires left != []
    ensures var (head, env1) := CompressOne(left[0], build, env);
            After(done, CompressAll(left, build, env))
            == match head
               case Err(d) => (Err(d), env1)
               case Ok(s) => After(done + [s], CompressAll(left[1..], build, env1))
  {
    var (head, env1) := CompressOne(left[0], build, env);
    if head.Ok? {
      var (tail, env2) := CompressAll(left[1..], build, env1);
      if tail.Ok? {
        assert done + ([head.value] + tail.value) == (done + [head.value]) + tail.value;
      }
    }
  }

  /** Runs the slots in order, stopping after the first that leaves an error. */
  method Execute(slots: seq<Slot>, ctx: PassContext, setup: Setup, compressor: Compressor)
    modifies ctx, compressor
    ensures (ctx.View(), compressor.View())
         == RunPipeline(slots, old(ctx.View()), setup, compressor.build, old(compressor.View()))
  {
    ghost var whole := RunPipeline(slots, ctx.View(), setup, compressor.build, compressor.View());
    assert slots[0..] == slots;
    for i := 0 to |slots|
      invariant whole == RunPipeline(slots[i..], ctx.View(), setup, compressor.build, compressor.View())
    {
      assert slots[i..][0] == slots[i] && slots[i..][1..] == slots[i + 1..];
      RunSlot(slots[i], ctx, setup, compressor);
      if HasError(ctx.diagnostics) {
        return;
      }
    }
  }

  method RunSlot(slot: Slot, ctx: PassContext, setup: Setup, compressor: Compressor)
    modifies ctx, compressor
    ensures (ctx.View(), compressor.View())
         == RunPass(slot, old(ctx.View()), setup, compressor.build, old(compressor.View()))
  {
    match slot {
      case LintFast => ctx.diagnostics := ctx.diagnostics + setup.lintFast(ctx.sections);
      case Dedupe => ctx.RunDedupe();
      case Compress =>
        assert ctx.diagnostics + [] == ctx.diagnostics;
        compressor.Run(ctx);
      case Reorder => ctx.RunReorder();
      case Budget => ctx.RunBudget(setup.targets);
      case Lint => ctx.RunLint();
    }
  }
}
