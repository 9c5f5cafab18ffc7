/** The optimizer passes on one prompt's sections. */
module Passes {
  import opened Outcomes
  import opened Text
  import opened Sorting

  datatype Section = Section(id: string, priority: nat, body: string, dedupRef: Option<string>)

  datatype Severity = Error | Warning

  datatype Diagnostic = Diagnostic(pass: string, severity: Severity, message: string)

  datatype EvictionStep = EvictionStep(sectionId: string, evictAt: nat)

  datatype TargetBudget = TargetBudget(target: string, window: nat, reserved: nat)

  datatype BudgetPlan = BudgetPlan(target: string, window: nat, reserved: nat, order: seq<EvictionStep>)

  predicate HasError(diagnostics: seq<Diagnostic>) {
    exists d :: d in diagnostics && d.severity == Error
  }

  // ---- dedupe ----

  /** Index of the first section with this body, or the length. */
  function FirstWith(sections: seq<Section>, body: string): (i: nat)
    ensures i <= |sections|
    ensures i < |sections| ==> sections[i].body == body
    ensures forall j | 0 <= j < i :: sections[j].body != body
  {
    if sections == [] || sections[0].body == body then 0 else 1 + FirstWith(sections[1..], body)
  }

  /** The id a section collapses onto: that of the first section with its body, when
      that is an earlier one and the body is not blank. */
  function CollapsesTo(sections: seq<Section>, i: nat): Option<string>
    requires i < |sections|
  {
    var c := FirstWith(sections, sections[i].body);
    if Trim(sections[i].body) == "" || c >= i then None else Some(sections[c].id)
  }

  function DedupeSection(sections: seq<Section>, i: nat): Section
    requires i < |sections|
  {
    match CollapsesTo(sections, i)
    case Some(id) => sections[i].(body := "", dedupRef := Some(id))
    case None => sections[i]
  }

  function Deduped(sections: seq<Section>): (r: seq<Section>)
    ensures |r| == |sections| && forall i | 0 <= i < |r| :: r[i] == DedupeSection(sections, i)
  {
    seq(|sections|, i requires 0 <= i < |sections| => DedupeSection(sections, i))
  }

  // ---- reorder ----

  predicate IsStable(body: string) {
    !Contains(body, "{{") && !Contains(body, "{%")
  }

  predicate StableFirst(s: Section) {
    IsStable(s.body)
  }

  /** Comparison by the key `!is_stable(body)`. */
  predicate StabilityLe(a: Section, b: Section) {
    StableFirst(a) || !StableFirst(b)
  }

  function Reordered(sections: seq<Section>): seq<Section> {
    StableSort(sections, StabilityLe)
  }

  // ---- budget ----

  /** A section's sort key, its priority and position, with its id. */
  datatype Keyed = Keyed(priority: nat, index: nat, id: string)

  predicate KeyLe(a: Keyed, b: Keyed) {
    a.priority < b.priority || (a.priority == b.priority && a.index <= b.index)
  }

  function Keys(sections: seq<Section>): (r: seq<Keyed>)
    ensures |r| == |sections| && forall i | 0 <= i < |r| :: r[i] == Keyed(sections[i].priority, i, sections[i].id)
  {
    seq(|sections|, i requires 0 <= i < |sections| => Keyed(sections[i].priority, i, sections[i].id))
  }

  /** Section indexes, lowest priority first, source order among equals. */
  function EvictionOrder(sections: seq<Section>): seq<Keyed> {
    StableSort(Keys(sections), KeyLe)
  }

  function Plan(sections: seq<Section>, target: TargetBudget): BudgetPlan {
    var available := if target.window < target.reserved then 0 else target.window - target.reserved;
    BudgetPlan(target.target, target.window, target.reserved,
               Map(EvictionOrder(sections), (k: Keyed) => EvictionStep(k.id, available)))
  }

  function Plans(sections: seq<Section>, targets: seq<TargetBudget>): seq<BudgetPlan> {
    Map(targets, (t: TargetBudget) => Plan(sections, t))
  }

  // ---- lint ----

  function CountId(sections: seq<Section>, id: string): nat {
    if sections == [] then 0
    else CountId(sections[..|sections| - 1], id) + if sections[|sections| - 1].id == id then 1 else 0
  }

  /** Ids of `rest` seen more than once in `all`, each once. */
  function Repeated(all: seq<Section>, rest: seq<Section>): seq<string> {
    if rest == [] then []
    else
      var tail := Repeated(all, rest[1..]);
      if CountId(all, rest[0].id) > 1 && rest[0].id !in tail then [rest[0].id] + tail else tail
  }

  lemma {:induction false} RepeatedMembers(all: seq<Section>, rest: seq<Section>)
    ensures forall id :: id in Repeated(all, rest) <==> exists s :: s in rest && s.id == id && CountId(all, id) > 1
  {
    if rest != [] {
      RepeatedMembers(all, rest[1..]);
      assert rest == [rest[0]] + rest[1..];
    }
  }

  /** Sorted, so the report does not depend on hash order. */
  function DuplicateIds(sections: seq<Section>): seq<string> {
    StableSort(Repeated(sections, sections), StrLe)
  }

  function DupMessage(id: string): Diagnostic {
    Diagnostic("lint", Error, "contradiction: multiple sections share id `" + id + "`")
  }

  ghost predicate UniqueIds(sections: seq<Section>) {
    forall i, j | 0 <= i < j < |sections| :: sections[i].id != sections[j].id
  }

  lemma {:induction false} CountIdPositive(sections: seq<Section>, i: nat)
    requires i < |sections|
    ensures CountId(sections, sections[i].id) >= 1
  {
    if i < |sections| - 1 {
      CountIdPositive(sections[..|sections| - 1], i);
    }
  }

  lemma {:induction false} CountIdTwice(sections: seq<Section>, i: nat, j: nat)
    requires i < j < |sections| && sections[i].id == sections[j].id
    ensures CountId(sections, sections[i].id) > 1
  {
    if j < |sections| - 1 {
      CountIdTwice(sections[..|sections| - 1], i, j);
    } else {
      CountIdPositive(sections[..|sections| - 1], i);
    }
  }

  lemma {:induction false} CountIdOnce(sections: seq<Section>, id: string)
    requires UniqueIds(sections)
    ensures CountId(sections, id) <= 1
    ensures CountId(sections, id) == 1 ==> exists i :: 0 <= i < |sections| && sections[i].id == id
  {
    if sections != [] {
      var n := |sections| - 1;
      CountIdOnce(sections[..n], id);
      if CountId(sections[..n], id) == 1 {
        var i :| 0 <= i < n && sections[..n][i].id == id;
        assert sections[i].id == id && sections[i].id != sections[n].id;
      }
    }
  }

  lemma EmptyIfNone<T>(s: seq<T>)
    ensures s == [] || exists x :: x in s
  {
    if s != [] {
      assert s[0] in s;
    }
  }

  /** The check finds nothing exactly when ids are unique. */
  lemma NoDuplicatesIffUnique(sections: seq<Section>)
    ensures DuplicateIds(sections) == [] <==> UniqueIds(sections)
  {
    RepeatedMembers(sections, sections);
    SortPermutes(Repeated(sections, sections), StrLe);
    if UniqueIds(sections) {
      forall s | s in sections
        ensures CountId(sections, s.id) <= 1
      {
        CountIdOnce(sections, s.id);
      }
      assert forall id :: id !in Repeated(sections, sections);
      EmptyIfNone(Repeated(sections, sections));
    } else {
      var i, j :| 0 <= i < j < |sections| && sections[i].id == sections[j].id;
      CountIdTwice(sections, i, j);
      assert sections[i] in sections;
      assert sections[i].id in Repeated(sections, sections);
    }
  }

  // ---- meaning ----

  /** What a section contributes to the prompt, whoever holds its text. */
  datatype Content = Content(id: string, priority: nat, body: string)

  /** The text of the first section with this id. */
  function BodyOf(sections: seq<Section>, id: string): string {
    if sections == [] then "" else if sections[0].id == id then sections[0].body else BodyOf(sections[1..], id)
  }

  function Resolve(sections: seq<Section>, s: Section): Content {
    Content(s.id, s.priority, match s.dedupRef case Some(id) => BodyOf(sections, id) case None => s.body)
  }

  function Resolved(sections: seq<Section>): seq<Content> {
    Map(sections, (s: Section) => Resolve(sections, s))
  }

  predicate RefFree(sections: seq<Section>) {
    forall s | s in sections :: s.dedupRef.None?
  }

  /** Every reference names a section that is there and is itself no reference. */
  ghost predicate OneHop(sections: seq<Section>) {
    forall s | s in sections && s.dedupRef.Some? ::
      exists c :: c in sections && c.id == s.dedupRef.value && c.dedupRef.None?
  }

  lemma {:induction false} BodyOfUnique(sections: seq<Section>, i: nat)
    requires UniqueIds(sections) && i < |sections|
    ensures BodyOf(sections, sections[i].id) == sections[i].body
  {
    if i > 0 {
      assert sections[0].id != sections[i].id;
      BodyOfUnique(sections[1..], i - 1);
    }
  }

  lemma DedupeKeepsIds(sections: seq<Section>)
    ensures UniqueIds(Deduped(sections)) <==> UniqueIds(sections)
  {
    var d := Deduped(sections);
    assert forall i | 0 <= i < |d| :: d[i].id == sections[i].id;
  }

  /** Each collapsed section still resolves to its own content. */
  lemma DedupeResolves(sections: seq<Section>, i: nat)
    requires RefFree(sections) && UniqueIds(sections) && i < |sections|
    ensures var d := Deduped(sections);
            Resolve(d, d[i]) == Content(sections[i].id, sections[i].priority, sections[i].body)
  {
    var d := Deduped(sections);
    DedupeKeepsIds(sections);
    assert sections[i] in sections;
    if CollapsesTo(sections, i).Some? {
      BodyOfUnique(d, FirstWith(sections, sections[i].body));
    }
  }

  lemma DedupeKeepsMeaning(sections: seq<Section>)
    requires RefFree(sections) && UniqueIds(sections)
    ensures Resolved(Deduped(sections)) == Resolved(sections)
    ensures OneHop(Deduped(sections))
  {
    var d := Deduped(sections);
    forall i | 0 <= i < |sections|
      ensures Resolved(d)[i] == Resolved(sections)[i]
    {
      DedupeResolves(sections, i);
      assert sections[i] in sections;
    }
    forall s | s in d && s.dedupRef.Some?
      ensures exists c :: c in d && c.id == s.dedupRef.value && c.dedupRef.None?
    {
      var i :| 0 <= i < |d| && d[i] == s;
      assert sections[i] in sections;
      var c := FirstWith(sections, sections[i].body);
      assert sections[c] in sections && d[c] in d;
    }
  }

  /** Resolution does not depend on where the sections stand. */
  lemma ResolveIsPositional(s: seq<Section>, t: seq<Section>, x: Section)
    requires UniqueIds(s) && UniqueIds(t) && multiset(s) == multiset(t)
    requires x.dedupRef.Some? ==> exists c :: c in s && c.id == x.dedupRef.value
    ensures Resolve(s, x) == Resolve(t, x)
  {
    if x.dedupRef.Some? {
      var c :| c in s && c.id == x.dedupRef.value;
      assert c in multiset(t);
      var i :| 0 <= i < |s| && s[i] == c;
      var j :| 0 <= j < |t| && t[j] == c;
      BodyOfUnique(s, i);
      BodyOfUnique(t, j);
    }
  }

  /** Permuting sections with distinct ids permutes what they resolve to. */
  lemma PermutingKeepsMeaning(s: seq<Section>, t: seq<Section>)
    requires UniqueIds(s) && UniqueIds(t) && multiset(s) == multiset(t) && OneHop(s)
    ensures multiset(Resolved(t)) == multiset(Resolved(s)) && OneHop(t)
  {
    var f := (x: Section) => Resolve(s, x);
    MapPermutes(s, t, f);
    assert forall x :: x in s <==> x in t by {
      assert forall x :: x in s <==> x in multiset(s);
      assert forall x :: x in t <==> x in multiset(t);
    }
    forall i | 0 <= i < |t|
      ensures Resolved(t)[i] == Map(t, f)[i]
    {
      assert t[i] in s;
      ResolveIsPositional(s, t, t[i]);
    }
    assert Resolved(t) == Map(t, f);
    assert Resolved(s) == Map(s, f);
  }

  lemma ReorderIsPartition(sections: seq<Section>)
    ensures Reordered(sections) == Filter(sections, StableFirst) + FilterNot(sections, StableFirst)
    ensures multiset(Reordered(sections)) == multiset(sections)
  {
    SortByFlag(sections, StableFirst, StabilityLe);
    SortPermutes(sections, StabilityLe);
  }

  lemma KeysAreDistinct(sections: seq<Section>, other: seq<Keyed>)
    requires multiset(other) == multiset(Keys(sections))
    ensures forall x, y | x in other && y in other && KeyLe(x, y) && KeyLe(y, x) :: x == y
  {
    forall x | x in other
      ensures x in Keys(sections)
    {
      assert x in multiset(Keys(sections));
    }
  }

  /** The eviction order lists every section once, lowest priority first, source order
      among equals; there is only one such list. */
  lemma EvictionOrderIsSortedPermutation(sections: seq<Section>, other: seq<Keyed>)
    ensures multiset(EvictionOrder(sections)) == multiset(Keys(sections)) && Sorted(EvictionOrder(sections), KeyLe)
    ensures multiset(other) == multiset(Keys(sections)) && Sorted(other, KeyLe) ==> other == EvictionOrder(sections)
  {
    SortPermutes(Keys(sections), KeyLe);
    SortSorts(Keys(sections), KeyLe);
    if multiset(other) == multiset(Keys(sections)) && Sorted(other, KeyLe) {
      KeysAreDistinct(sections, other);
      SortedUnique(other, EvictionOrder(sections), KeyLe);
    }
  }
}
