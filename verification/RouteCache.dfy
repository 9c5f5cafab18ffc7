/** The response cache of the route executor: its keys and its entries. */
module RouteCache {
  import opened Outcomes
  import opened Text
  import opened Sorting
  import opened JsonValues
  import opened JsonText

  // ---- canonical documents ----

  predicate NameLe(a: Member, b: Member) {
    StrLe(a.name, b.name)
  }

  /** Members by name at every depth. Objects name no member twice, so sorting them is what
      collecting them into an ordered map does. */
  function Canon(v: Json): Json
    decreases v
  {
    match v
    case Object(members) => Object(StableSort(CanonMembers(members), NameLe))
    case Array(items) => Array(CanonItems(items))
    case _ => v
  }

  function CanonItems(items: seq<Json>): (r: seq<Json>)
    ensures |r| == |items| && forall i | 0 <= i < |r| :: r[i] == Canon(items[i])
    decreases items
  {
    if items == [] then [] else [Canon(items[0])] + CanonItems(items[1..])
  }

  function CanonMembers(members: seq<Member>): (r: seq<Member>)
    ensures |r| == |members|
    ensures forall i | 0 <= i < |r| :: r[i] == Member(members[i].name, Canon(members[i].value))
    decreases members
  {
    if members == [] then []
    else [Member(members[0].name, Canon(members[0].value))] + CanonMembers(members[1..])
  }

  /** Equal up to the order of members at every depth: objects are unordered (section 1 of
      RFC 8259), arrays are not. */
  ghost predicate Same(v: Json, w: Json)
    decreases v
  {
    match (v, w)
    case (Object(a), Object(b)) => EveryLeft(a, b) && EveryRight(a, b)
    case (Array(a), Array(b)) => |a| == |b| && forall i | 0 <= i < |a| :: Same(a[i], b[i])
    case _ => v == w
  }

  ghost predicate EveryLeft(a: seq<Member>, b: seq<Member>)
    decreases a
  {
    forall i | 0 <= i < |a| :: exists j :: 0 <= j < |b| && SameMember(a[i], b[j])
  }

  ghost predicate EveryRight(a: seq<Member>, b: seq<Member>)
    decreases a
  {
    forall j | 0 <= j < |b| :: exists i :: 0 <= i < |a| && SameMember(a[i], b[j])
  }

  ghost predicate SameMember(m: Member, n: Member)
    decreases m
  {
    m.name == n.name && Same(m.value, n.value)
  }

  lemma NameOrder()
    ensures TotalPreorder(NameLe)
  {
    forall a: Member, b: Member
      ensures NameLe(a, b) || NameLe(b, a)
    {
      StrLeTotal(a.name, b.name);
    }
    forall a: Member, b: Member, c: Member | NameLe(a, b) && NameLe(b, c)
      ensures NameLe(a, c)
    {
      StrLeTransitive(a.name, b.name, c.name);
    }
  }

  lemma CanonMembersUnique(members: seq<Member>)
    requires UniqueNames(members)
    ensures UniqueNames(CanonMembers(members)) && NoRepeats(CanonMembers(members))
  {
  }

  lemma SameSets<T>(s: seq<T>, t: seq<T>)
    requires NoRepeats(s) && NoRepeats(t) && forall x :: x in s <==> x in t
    ensures multiset(s) == multiset(t)
  {
    forall x
      ensures multiset(s)[x] == multiset(t)[x]
    {
      OnceInMultiset(s, x);
      OnceInMultiset(t, x);
      assert x in s <==> x in multiset(s);
      assert x in t <==> x in multiset(t);
    }
  }

  lemma UniqueNamesPermute(s: seq<Member>, t: seq<Member>)
    requires UniqueNames(s) && multiset(s) == multiset(t)
    ensures UniqueNames(t)
  {
    var name := (m: Member) => m.name;
    MapPermutes(s, t, name);
    NoRepeatsPermutes(Map(s, name), Map(t, name));
    assert forall i | 0 <= i < |t| :: Map(t, name)[i] == t[i].name;
  }

  lemma UniqueNamesMeanUnique(s: seq<Member>)
    requires UniqueNames(s)
    ensures NoRepeats(s)
    ensures forall x, y | x in s && y in s && NameLe(x, y) && NameLe(y, x) :: x == y
  {
    StrLeAntisymmetric();
  }

  lemma SameMembersSortAlike(s: seq<Member>, t: seq<Member>)
    requires UniqueNames(s) && UniqueNames(t) && forall m :: m in s <==> m in t
    ensures StableSort(s, NameLe) == StableSort(t, NameLe)
  {
    hide StableSort, UniqueNames, NameLe;
    UniqueNamesMeanUnique(s);
    UniqueNamesMeanUnique(t);
    SameSets(s, t);
    NameOrder();
    SortSorts(s, NameLe);
    SortSorts(t, NameLe);
    SortPermutes(s, NameLe);
    SortPermutes(t, NameLe);
    var a := StableSort(s, NameLe);
    UniqueNamesPermute(s, a);
    UniqueNamesMeanUnique(a);
    SortedUnique(a, StableSort(t, NameLe), NameLe);
  }

  /** Sorting forgets exactly the order. */
  lemma SortedSameIff(s: seq<Member>, t: seq<Member>)
    requires UniqueNames(s) && UniqueNames(t)
    ensures StableSort(s, NameLe) == StableSort(t, NameLe) <==> forall m :: m in s <==> m in t
  {
    SortPermutes(s, NameLe);
    SortPermutes(t, NameLe);
    hide StableSort, NameLe;
    if forall m :: m in s <==> m in t {
      SameMembersSortAlike(s, t);
    }
    if StableSort(s, NameLe) == StableSort(t, NameLe) {
      assert forall m :: m in s <==> m in multiset(s);
      assert forall m :: m in t <==> m in multiset(t);
    }
  }

  /** Canonical forms agree exactly for documents that are equal up to member order. */
  lemma {:induction false} CanonAgreesIff(v: Json, w: Json)
    requires WellFormed(v) && WellFormed(w)
    ensures Canon(v) == Canon(w) <==> Same(v, w)
    decreases v
  {
    match (v, w)
    case (Object(a), Object(b)) =>
      forall i, j | 0 <= i < |a| && 0 <= j < |b|
        ensures CanonMembers(a)[i] == CanonMembers(b)[j] <==> SameMember(a[i], b[j])
      {
        CanonAgreesIff(a[i].value, b[j].value);
      }
      MembersAgreeIff(a, b);
    case (Array(a), Array(b)) =>
      forall i | 0 <= i < |a| && i < |b|
        ensures Canon(a[i]) == Canon(b[i]) <==> Same(a[i], b[i])
      {
        CanonAgreesIff(a[i], b[i]);
      }
      if Canon(v) == Canon(w) {
        assert forall i | 0 <= i < |a| :: CanonItems(a)[i] == CanonItems(b)[i];
      }
      if Same(v, w) {
        assert CanonItems(a) == CanonItems(b);
      }
    case _ =>
  }

  ghost predicate Within<T>(s: seq<T>, t: seq<T>) {
    forall i | 0 <= i < |s| :: s[i] in t
  }

  ghost predicate CanonMeansSame(a: seq<Member>, b: seq<Member>) {
    forall i, j | 0 <= i < |a| && 0 <= j < |b| ::
      CanonMembers(a)[i] == CanonMembers(b)[j] <==> SameMember(a[i], b[j])
  }

  lemma EveryLeftIff(a: seq<Member>, b: seq<Member>)
    requires CanonMeansSame(a, b)
    ensures EveryLeft(a, b) <==> Within(CanonMembers(a), CanonMembers(b))
  {
    hide SameMember;
  }

  lemma EveryRightIff(a: seq<Member>, b: seq<Member>)
    requires CanonMeansSame(a, b)
    ensures EveryRight(a, b) <==> Within(CanonMembers(b), CanonMembers(a))
  {
    hide SameMember;
  }

  lemma MembersAgreeIff(a: seq<Member>, b: seq<Member>)
    requires UniqueNames(a) && UniqueNames(b) && CanonMeansSame(a, b)
    ensures Canon(Object(a)) == Canon(Object(b)) <==> Same(Object(a), Object(b))
  {
    CanonMembersUnique(a);
    CanonMembersUnique(b);
    SameObjects(a, b);
    CanonObject(a);
    CanonObject(b);
    hide *;
    SortedSameIff(CanonMembers(a), CanonMembers(b));
    EveryLeftIff(a, b);
    EveryRightIff(a, b);
  }

  lemma SameObjects(a: seq<Member>, b: seq<Member>)
    ensures Same(Object(a), Object(b)) <==> EveryLeft(a, b) && EveryRight(a, b)
  {
  }

  lemma CanonObject(a: seq<Member>)
    ensures Canon(Object(a)) == Object(StableSort(CanonMembers(a), NameLe))
  {
  }

  lemma {:induction false} CanonWellFormed(v: Json)
    requires WellFormed(v)
    ensures WellFormed(Canon(v))
    decreases v
  {
    match v
    case Object(members) =>
      forall i | 0 <= i < |members|
        ensures WellFormed(Canon(members[i].value))
      {
        CanonWellFormed(members[i].value);
      }
      var s := CanonMembers(members);
      var t := StableSort(s, NameLe);
      SortPermutes(s, NameLe);
      CanonMembersUnique(members);
      UniqueNamesPermute(s, t);
      forall i | 0 <= i < |t|
        ensures WellFormed(t[i].value)
      {
        assert t[i] in multiset(s);
      }
    case Array(items) =>
      forall i | 0 <= i < |items|
        ensures WellFormed(Canon(items[i]))
      {
        CanonWellFormed(items[i]);
      }
    case _ =>
  }

  // ---- keys ----

  /** The digested text stands for the digest, which is taken to be injective. */
  function CacheKey(promptName: string, inputs: Json): string {
    promptName + (['\0'] + Printed(Canon(inputs)))
  }

  /** Two requests share a cache key exactly when they are for the same prompt and their
      inputs are equal up to the order of object members at every depth. */
  lemma KeysAgreeIff(n: string, v: Json, m: string, w: Json)
    requires WellFormed(v) && WellFormed(w)
    ensures CacheKey(n, v) == CacheKey(m, w) <==> n == m && Same(v, w)
  {
    CanonWellFormed(v);
    CanonWellFormed(w);
    CanonAgreesIff(v, w);
    TextIsInjective(Canon(v), Canon(w));
    TextPrintable(Canon(v));
    TextPrintable(Canon(w));
    if CacheKey(n, v) == CacheKey(m, w) {
      LastSplits(n, m, Printed(Canon(v)), Printed(Canon(w)), '\0');
    }
  }

  // ---- entries ----

  datatype CacheEntry = CacheEntry(promptName: string, inputHash: string, embedding: seq<real>, response: Json)

  predicate IsFor(e: CacheEntry, promptName: string, inputHash: string) {
    e.promptName == promptName && e.inputHash == inputHash
  }

  /** The first entry of this prompt with this hash. */
  function Exact(entries: seq<CacheEntry>, promptName: string, inputHash: string): Option<CacheEntry> {
    if entries == [] then None
    else if IsFor(entries[0], promptName, inputHash) then Some(entries[0])
    else Exact(entries[1..], promptName, inputHash)
  }

  class CacheArtifact {
    const namespaceVersion: string
    var entries: seq<CacheEntry>

    constructor (namespaceVersion: string, entries: seq<CacheEntry>)
      ensures this.namespaceVersion == namespaceVersion && this.entries == entries
    {
      this.namespaceVersion, this.entries := namespaceVersion, entries;
    }

    /** Overwrites the first entry for the same prompt and hash, or appends. */
    method Upsert(entry: CacheEntry)
      modifies this`entries
      ensures entries == Upserted(old(entries), entry)
      ensures forall p, h :: Exact(entries, p, h)
                          == if IsFor(entry, p, h) then Some(entry) else Exact(old(entries), p, h)
    {
      UpsertedAnswers(entries, entry);
      for i := 0 to |entries|
        invariant entries == old(entries)
        invariant forall j | 0 <= j < i :: !IsFor(entries[j], entry.promptName, entry.inputHash)
      {
        if IsFor(entries[i], entry.promptName, entry.inputHash) {
          UpsertedAt(entries, i, entry);
          entries := entries[i := entry];
          return;
        }
      }
      UpsertedAt(entries, |entries|, entry);
      entries := entries + [entry];
    }

    /** Any sequence of upserts. */
    method UpsertAll(news: seq<CacheEntry>)
      modifies this`entries
      ensures entries == UpsertedAll(old(entries), news)
      ensures forall p, h :: Exact(entries, p, h) == LastStored(old(entries), news, p, h)
    {
      assert news[..0] == [];
      for i := 0 to |news|
        invariant entries == UpsertedAll(old(entries), news[..i])
      {
        Upsert(news[i]);
        assert news[..i + 1][..i] == news[..i];
      }
      assert news[..|news|] == news;
      UpsertedAllAnswers(old(entries), news);
    }
  }

  function Upserted(entries: seq<CacheEntry>, entry: CacheEntry): seq<CacheEntry> {
    if entries == [] then [entry]
    else if IsFor(entries[0], entry.promptName, entry.inputHash) then [entry] + entries[1..]
    else [entries[0]] + Upserted(entries[1..], entry)
  }

  function UpsertedAll(entries: seq<CacheEntry>, news: seq<CacheEntry>): seq<CacheEntry> {
    if news == [] then entries else Upserted(UpsertedAll(entries, news[..|news| - 1]), news[|news| - 1])
  }

  /** What a map would hold: the last entry stored under the key, or what was there first. */
  ghost function LastStored(entries: seq<CacheEntry>, news: seq<CacheEntry>, p: string, h: string): Option<CacheEntry> {
    if news == [] then Exact(entries, p, h)
    else if IsFor(news[|news| - 1], p, h) then Some(news[|news| - 1])
    else LastStored(entries, news[..|news| - 1], p, h)
  }

  /** `i` is the first entry of this prompt with this hash, or the length if there is none. */
  lemma {:induction false} UpsertedAt(entries: seq<CacheEntry>, i: nat, entry: CacheEntry)
    requires i <= |entries| && (i < |entries| ==> IsFor(entries[i], entry.promptName, entry.inputHash))
    requires forall j | 0 <= j < i :: !IsFor(entries[j], entry.promptName, entry.inputHash)
    ensures Upserted(entries, entry) == if i < |entries| then entries[i := entry] else entries + [entry]
  {
    if i > 0 {
      UpsertedAt(entries[1..], i - 1, entry);
      assert entries == [entries[0]] + entries[1..];
    }
  }

  lemma {:induction false} UpsertedAnswersOne(entries: seq<CacheEntry>, entry: CacheEntry, p: string, h: string)
    ensures Exact(Upserted(entries, entry), p, h) == if IsFor(entry, p, h) then Some(entry) else Exact(entries, p, h)
  {
    if entries == [] {
      assert [entry][1..] == [];
    } else {
      UpsertedAnswersOne(entries[1..], entry, p, h);
    }
  }

  lemma UpsertedAnswers(entries: seq<CacheEntry>, entry: CacheEntry)
    ensures forall p, h :: Exact(Upserted(entries, entry), p, h)
                        == if IsFor(entry, p, h) then Some(entry) else Exact(entries, p, h)
  {
    forall p, h
      ensures Exact(Upserted(entries, entry), p, h) == if IsFor(entry, p, h) then Some(entry) else Exact(entries, p, h)
    {
      UpsertedAnswersOne(entries, entry, p, h);
    }
  }

  lemma {:induction false} UpsertedAllAnswers(entries: seq<CacheEntry>, news: seq<CacheEntry>)
    ensures forall p, h :: Exact(UpsertedAll(entries, news), p, h) == LastStored(entries, news, p, h)
  {
    if news != [] {
      var n := |news| - 1;
      UpsertedAllAnswers(entries, news[..n]);
      UpsertedAnswers(UpsertedAll(entries, news[..n]), news[n]);
    }
  }

  /** After any upserts, looking a request up gives the last response stored for a request
      with the same prompt and the same inputs up to member order; duplicates in the initial
      list do not matter. */
  lemma LastResponseIsFound(
    entries: seq<CacheEntry>, stored: seq<(string, Json, seq<real>, Json)>, p: string, inputs: Json, k: nat)
    requires k < |stored| && WellFormed(inputs) && forall i | 0 <= i < |stored| :: WellFormed(stored[i].1)
    requires stored[k].0 == p && Same(stored[k].1, inputs)
    requires forall i | k < i < |stored| :: !(stored[i].0 == p && Same(stored[i].1, inputs))
    ensures Exact(UpsertedAll(entries, Map(stored, EntryOf)), p, CacheKey(p, inputs)) == Some(EntryOf(stored[k]))
  {
    var news := Map(stored, EntryOf);
    forall i | 0 <= i < |stored|
      ensures IsFor(news[i], p, CacheKey(p, inputs)) <==> stored[i].0 == p && Same(stored[i].1, inputs)
    {
      KeysAgreeIff(stored[i].0, stored[i].1, p, inputs);
    }
    UpsertedAllAnswers(entries, news);
    LastIsFound(entries, news, p, CacheKey(p, inputs), k);
  }

  function EntryOf(s: (string, Json, seq<real>, Json)): CacheEntry {
    CacheEntry(s.0, CacheKey(s.0, s.1), s.2, s.3)
  }

  lemma {:induction false} LastIsFound(entries: seq<CacheEntry>, news: seq<CacheEntry>, p: string, h: string, k: nat)
    requires k < |news| && IsFor(news[k], p, h)
    requires forall i | k < i < |news| :: !IsFor(news[i], p, h)
    ensures LastStored(entries, news, p, h) == Some(news[k])
    decreases |news|
  {
    if k < |news| - 1 {
      LastIsFound(entries, news[..|news| - 1], p, h, k);
    }
  }
}
