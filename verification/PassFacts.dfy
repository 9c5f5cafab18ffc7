/** What single passes do to single sections. */
module PassFacts {
  import opened Outcomes
  import opened Text
  import opened Sorting
  import opened Passes
  import opened Pipeline

  // ---- dedupe ----

  /** Section `i` repeats the text of an earlier one. */
  ghost predicate Repeats(sections: seq<Section>, i: nat)
    requires i < |sections|
  {
    Trim(sections[i].body) != "" && exists j :: 0 <= j < i && sections[j].body == sections[i].body
  }

  /** Exactly the sections that repeat an earlier text lose it, to a reference to the first
      section that has it; the others stay as they are. */
  lemma DedupeCollapsesRepeats(sections: seq<Section>, i: nat)
    requires i < |sections|
    ensures if Repeats(sections, i)
            then exists c :: 0 <= c < i && sections[c].body == sections[i].body
                             && (forall j | 0 <= j < c :: sections[j].body != sections[i].body)
                             && Deduped(sections)[i] == sections[i].(body := "", dedupRef := Some(sections[c].id))
            else Deduped(sections)[i] == sections[i]
  {
    var c := FirstWith(sections, sections[i].body);
    hide Trim;
    assert c <= i;
    if Repeats(sections, i) {
      assert 0 <= c < i && sections[c].body == sections[i].body;
    }
  }

  /** Afterwards no text is held twice. */
  lemma DedupedTextsDiffer(sections: seq<Section>, i: nat, j: nat)
    requires i < j < |sections| && Trim(sections[j].body) != ""
    ensures var d := Deduped(sections); d[i].body != d[j].body || d[j].body == ""
  {
    DedupeCollapsesRepeats(sections, i);
    DedupeCollapsesRepeats(sections, j);
    hide Trim;
  }

  // ---- budget ----

  /** A plan evicts every section, in the eviction order, at what the window leaves beside
      the reserve, and at nothing if it leaves nothing. */
  lemma PlanEvictsAll(sections: seq<Section>, t: TargetBudget)
    ensures var plan := Plan(sections, t);
            && plan.target == t.target && plan.window == t.window && plan.reserved == t.reserved
            && |plan.order| == |sections|
            && (forall i | 0 <= i < |plan.order| ::
                  && |EvictionOrder(sections)| == |sections|
                  && plan.order[i].sectionId == EvictionOrder(sections)[i].id
                  && (t.reserved <= t.window ==> plan.order[i].evictAt + t.reserved == t.window)
                  && (t.window <= t.reserved ==> plan.order[i].evictAt == 0))
            && (forall s | s in sections :: exists step :: step in plan.order && step.sectionId == s.id)
  {
    var order, plan := EvictionOrder(sections), Plan(sections, t);
    SortPermutes(Keys(sections), KeyLe);
    assert |multiset(order)| == |multiset(Keys(sections))|;
    forall s | s in sections
      ensures exists step :: step in plan.order && step.sectionId == s.id
    {
      var i :| 0 <= i < |sections| && sections[i] == s;
      assert Keys(sections)[i] in multiset(Keys(sections));
      assert Keys(sections)[i] in order;
      var k :| 0 <= k < |order| && order[k] == Keys(sections)[i];
      assert plan.order[k].sectionId == s.id;
    }
  }

  // ---- lint ----

  /** The plans are this prompt's and every one of them evicts the section. */
  ghost predicate EvictedEverywhere(ctx: Ctx, s: Section) {
    && ctx.budget.Some? && ctx.budget.value.promptName == ctx.name && ctx.budget.value.plans != []
    && forall p | p in ctx.budget.value.plans :: exists step :: step in p.order && step.sectionId == s.id
  }

  /** Lint warns of exactly the sections evicted in every plan. */
  lemma WarnsOfEvictedEverywhere(ctx: Ctx)
    ensures forall d :: d in DeadSections(ctx)
                   <==> exists s :: s in ctx.sections && EvictedEverywhere(ctx, s) && d == DeadMessage(s)
  {
    if ctx.budget.Some? && ctx.budget.value.promptName == ctx.name && ctx.budget.value.plans != [] {
      var everywhere := (s: Section) =>
        forall p | p in ctx.budget.value.plans :: exists step :: step in p.order && step.sectionId == s.id;
      var dead := Filter(ctx.sections, everywhere);
      FilterMembers(ctx.sections, everywhere);
      forall d
        ensures d in DeadSections(ctx) <==> exists s :: s in dead && d == DeadMessage(s)
      {
        if d in DeadSections(ctx) {
          var i :| 0 <= i < |dead| && DeadSections(ctx)[i] == d;
          assert dead[i] in dead && d == DeadMessage(dead[i]);
        }
        if s :| s in dead && d == DeadMessage(s) {
          var i :| 0 <= i < |dead| && dead[i] == s;
          assert DeadSections(ctx)[i] == d;
        }
      }
    }
  }

  /** A plan evicts every section, so after the budget pass lint warns of every one of them,
      whether or not it would ever be evicted. */
  lemma LintWarnsOfEverySection(ctx: Ctx, setup: Setup, build: Build, env: Env, s: Section)
    requires setup.targets != [] && s in ctx.sections
    ensures DeadMessage(s) in DeadSections(RunPass(Budget, ctx, setup, build, env).0)
  {
    var after := RunPass(Budget, ctx, setup, build, env).0;
    var plans := Plans(ctx.sections, setup.targets);
    forall p | p in plans
      ensures exists step :: step in p.order && step.sectionId == s.id
    {
      var i :| 0 <= i < |plans| && plans[i] == p;
      PlanEvictsAll(ctx.sections, setup.targets[i]);
    }
    assert EvictedEverywhere(after, s);
    WarnsOfEvictedEverywhere(after);
  }

  // ---- compress ----

  /** Different texts are pinned under different keys. */
  lemma InputsAreToldApart(a: string, b: string)
    ensures InputHash(a) == InputHash(b) <==> a == b
  {
    var n := |InputHash("")|;
    assert InputHash(a)[n..] == a && InputHash(b)[n..] == b;
  }

  predicate Compressible(s: Section) {
    s.body != "" && s.dedupRef.None?
  }

  /** What stops the pass at a section: its text is not pinned, and either the build is
      frozen, or the provider fails, or its answer has no fewer words. */
  predicate Stops(s: Section, build: Build, env: Env) {
    Compressible(s) && InputHash(s.body) !in env.lock
    && (build.mode == Frozen
        || var answer := build.provider(env.calls, s.body);
           answer.Err? || WordCount(answer.value) >= WordCount(s.body))
  }

  /** The pass fails exactly if it comes to a section that stops it, having got through
      those before it; what is pinned so far stays pinned. */
  lemma {:induction false} CompressFailsIff(sections: seq<Section>, build: Build, env: Env)
    ensures CompressAll(sections, build, env).0.Err?
       <==> exists i :: 0 <= i < |sections| && CompressAll(sections[..i], build, env).0.Ok?
                        && Stops(sections[i], build, CompressAll(sections[..i], build, env).1)
  {
    hide WordCount, InputHash;
    if sections != [] {
      var (head, env1) := CompressOne(sections[0], build, env);
      assert head.Err? <==> Stops(sections[0], build, env);
      var rest := sections[1..];
      CompressFailsIff(rest, build, env1);
      assert sections[..0] == [] && CompressAll(sections[..0], build, env) == (Ok([]), env);
      forall i | 0 < i <= |sections|
        ensures head.Ok? ==>
                  CompressAll(sections[..i], build, env).0.Ok? == CompressAll(rest[..i - 1], build, env1).0.Ok?
        ensures head.Ok? ==> CompressAll(sections[..i], build, env).1 == CompressAll(rest[..i - 1], build, env1).1
        ensures head.Err? ==> CompressAll(sections[..i], build, env).0.Err?
      {
        assert sections[..i][0] == sections[0] && sections[..i][1..] == rest[..i - 1];
      }
      hide CompressAll, Stops, CompressOne;
      if head.Ok? {
        if i :| 0 <= i < |rest| && CompressAll(rest[..i], build, env1).0.Ok?
                && Stops(rest[i], build, CompressAll(rest[..i], build, env1).1) {
          assert sections[i + 1] == rest[i] && CompressAll(sections[..i + 1], build, env).0.Ok?;
        }
      }
    }
  }

  /** The text came from the provider for one of the sections, with fewer words than it had. */
  ghost predicate Bought(key: string, pin: Pinned, sections: seq<Section>, build: Build, from: nat, to: nat) {
    exists i, n: nat ::
      && 0 <= i < |sections| && from <= n < to
      && Compressible(sections[i]) && key == InputHash(sections[i].body)
      && build.provider(n, sections[i].body) == Ok(pin.output) && pin.model == build.model
      && WordCount(pin.output) < WordCount(sections[i].body)
  }

  /** Whether the pass succeeds or not, every new pin was bought during it, and none in a
      frozen build, which asks nothing. */
  lemma {:induction false} NewPinsAreBought(sections: seq<Section>, build: Build, env: Env)
    ensures var env' := CompressAll(sections, build, env).1;
            && env.calls <= env'.calls
            && (build.mode == Frozen ==> env' == env)
            && forall k | k in env'.lock && k !in env.lock ::
                 Bought(k, env'.lock[k], sections, build, env.calls, env'.calls)
  {
    hide WordCount, InputHash;
    if sections != [] {
      var (head, env1) := CompressOne(sections[0], build, env);
      var env' := CompressAll(sections, build, env).1;
      forall k | k in env1.lock && k !in env.lock
        ensures Bought(k, env1.lock[k], sections, build, env.calls, env1.calls)
      {
        assert Compressible(sections[0]) && env.calls < env1.calls;
      }
      if head.Ok? {
        var rest := sections[1..];
        NewPinsAreBought(rest, build, env1);
        PinsStay(rest, build, env1);
        hide CompressAll, CompressOne;
        forall k | k in env'.lock && k !in env.lock
          ensures Bought(k, env'.lock[k], sections, build, env.calls, env'.calls)
        {
          if k !in env1.lock {
            BoughtLater(k, env'.lock[k], sections, build, env.calls, env1.calls, env'.calls);
          } else {
            BoughtEarlier(k, env'.lock[k], sections, build, env.calls, env1.calls, env'.calls);
          }
        }
      }
    }
  }

  lemma BoughtLater(k: string, pin: Pinned, sections: seq<Section>, build: Build, from: nat, mid: nat, to: nat)
    requires sections != [] && from <= mid && Bought(k, pin, sections[1..], build, mid, to)
    ensures Bought(k, pin, sections, build, from, to)
  {
    hide WordCount, InputHash, Compressible;
    var rest := sections[1..];
    var i, n: nat :|
      && 0 <= i < |rest| && mid <= n < to
      && Compressible(rest[i]) && k == InputHash(rest[i].body)
      && build.provider(n, rest[i].body) == Ok(pin.output) && pin.model == build.model
      && WordCount(pin.output) < WordCount(rest[i].body);
    assert rest[i] == sections[i + 1];
  }

  lemma BoughtEarlier(k: string, pin: Pinned, sections: seq<Section>, build: Build, from: nat, mid: nat, to: nat)
    requires mid <= to && Bought(k, pin, sections, build, from, mid)
    ensures Bought(k, pin, sections, build, from, to)
  {
  }

  /** On success every compressible section has the text that is now pinned for its own, and
      the others are as they were. */
  lemma {:induction false} CompressedTextsArePinned(sections: seq<Section>, build: Build, env: Env)
    requires CompressAll(sections, build, env).0.Ok?
    ensures var (r, env') := CompressAll(sections, build, env);
            |r.value| == |sections|
            && forall i | 0 <= i < |sections| ::
                 if Compressible(sections[i])
                 then InputHash(sections[i].body) in env'.lock
                      && r.value[i] == sections[i].(body := env'.lock[InputHash(sections[i].body)].output)
                 else r.value[i] == sections[i]
  {
    hide WordCount, InputHash;
    if sections != [] {
      var (head, env1) := CompressOne(sections[0], build, env);
      CompressedTextsArePinned(sections[1..], build, env1);
      PinsStay(sections[1..], build, env1);
      var r := CompressAll(sections, build, env).0.value;
      assert r[0] == head.value;
      assert forall i | 0 < i < |sections| :: sections[i] == sections[1..][i - 1] && r[i] == r[1..][i - 1];
    }
  }
}
