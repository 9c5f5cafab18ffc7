/** The library's stable sort, by a comparison function. */
module Sorting {

  function Insert<T>(x: T, s: seq<T>, le: (T, T) -> bool): seq<T> {
    if s == [] || le(x, s[0]) then [x] + s else [s[0]] + Insert(x, s[1..], le)
  }

  /** Stable: of two elements that compare equal, the earlier one stays first. */
  function StableSort<T>(s: seq<T>, le: (T, T) -> bool): seq<T> {
    if s == [] then [] else Insert(s[0], StableSort(s[1..], le), le)
  }

  ghost predicate TotalPreorder<T(!new)>(le: (T, T) -> bool) {
    && (forall x, y :: le(x, y) || le(y, x))
    && (forall x, y, z :: le(x, y) && le(y, z) ==> le(x, z))
  }

  ghost predicate Sorted<T>(s: seq<T>, le: (T, T) -> bool) {
    forall i, j | 0 <= i < j < |s| :: le(s[i], s[j])
  }

  lemma {:induction false} InsertPermutes<T>(x: T, s: seq<T>, le: (T, T) -> bool)
    ensures multiset(Insert(x, s, le)) == multiset{x} + multiset(s)
  {
    if s != [] && !le(x, s[0]) {
      InsertPermutes(x, s[1..], le);
      assert s == [s[0]] + s[1..];
    }
  }

  lemma {:induction false} SortPermutes<T>(s: seq<T>, le: (T, T) -> bool)
    ensures multiset(StableSort(s, le)) == multiset(s)
    ensures |StableSort(s, le)| == |s|
  {
    if s != [] {
      SortPermutes(s[1..], le);
      InsertPermutes(s[0], StableSort(s[1..], le), le);
      assert s == [s[0]] + s[1..];
    }
    assert |multiset(StableSort(s, le))| == |multiset(s)|;
  }

  lemma {:induction false} InsertSorts<T(!new)>(x: T, s: seq<T>, le: (T, T) -> bool)
    requires TotalPreorder(le) && Sorted(s, le)
    ensures Sorted(Insert(x, s, le), le)
  {
    if s != [] && !le(x, s[0]) {
      InsertSorts(x, s[1..], le);
      InsertPermutes(x, s[1..], le);
      var t := Insert(x, s[1..], le);
      forall j | 0 <= j < |t|
        ensures le(s[0], t[j])
      {
        assert t[j] in multiset(t);
      }
    }
  }

  lemma {:induction false} SortSorts<T(!new)>(s: seq<T>, le: (T, T) -> bool)
    requires TotalPreorder(le)
    ensures Sorted(StableSort(s, le), le)
  {
    if s != [] {
      SortSorts(s[1..], le);
      InsertSorts(s[0], StableSort(s[1..], le), le);
    }
  }

  function Filter<T>(s: seq<T>, p: T -> bool): seq<T> {
    if s == [] then [] else (if p(s[0]) then [s[0]] else []) + Filter(s[1..], p)
  }

  function FilterNot<T>(s: seq<T>, p: T -> bool): seq<T> {
    if s == [] then [] else (if p(s[0]) then [] else [s[0]]) + FilterNot(s[1..], p)
  }

  lemma {:induction false} FilterMembers<T>(s: seq<T>, p: T -> bool)
    ensures forall x :: x in Filter(s, p) <==> x in s && p(x)
    ensures forall x :: x in FilterNot(s, p) <==> x in s && !p(x)
  {
    if s != [] {
      FilterMembers(s[1..], p);
      assert s == [s[0]] + s[1..];
    }
  }

  /** Sorting by a yes/no key is a stable partition. */
  lemma {:induction false} SortByFlag<T(!new)>(s: seq<T>, first: T -> bool, le: (T, T) -> bool)
    requires forall x, y :: le(x, y) <==> (first(x) || !first(y))
    ensures StableSort(s, le) == Filter(s, first) + FilterNot(s, first)
  {
    if s != [] {
      SortByFlag(s[1..], first, le);
      FilterMembers(s[1..], first);
      var a, b := Filter(s[1..], first), FilterNot(s[1..], first);
      InsertByFlag(s[0], a, b, first, le);
      assert StableSort(s, le) == Insert(s[0], a + b, le);
      hide StableSort, Insert;
      if first(s[0]) {
        assert Filter(s, first) == [s[0]] + a && FilterNot(s, first) == [] + b;
        assert [s[0]] + (a + b) == ([s[0]] + a) + ([] + b);
      } else {
        assert Filter(s, first) == [] + a && FilterNot(s, first) == [s[0]] + b;
        assert a + ([s[0]] + b) == ([] + a) + ([s[0]] + b);
      }
    }
  }

  lemma {:induction false} InsertByFlag<T(!new)>(x: T, a: seq<T>, b: seq<T>, first: T -> bool, le: (T, T) -> bool)
    requires forall u, v :: le(u, v) <==> (first(u) || !first(v))
    requires (forall u | u in a :: first(u)) && (forall u | u in b :: !first(u))
    ensures Insert(x, a + b, le) == if first(x) then [x] + (a + b) else a + ([x] + b)
  {
    if !first(x) {
      if a == [] {
        assert a + b == b;
      } else {
        assert (a + b)[1..] == a[1..] + b;
        InsertByFlag(x, a[1..], b, first, le);
      }
    }
  }

  function Map<T, U>(s: seq<T>, f: T -> U): (r: seq<U>)
    ensures |r| == |s| && forall i | 0 <= i < |s| :: r[i] == f(s[i])
  {
    seq(|s|, i requires 0 <= i < |s| => f(s[i]))
  }

  function RemoveAt<T>(t: seq<T>, k: nat): seq<T>
    requires k < |t|
  {
    t[..k] + t[k + 1..]
  }

  lemma RemoveAtRemoves<T>(t: seq<T>, k: nat)
    requires k < |t|
    ensures multiset(t) == multiset{t[k]} + multiset(RemoveAt(t, k))
  {
    assert t == t[..k] + ([t[k]] + t[k + 1..]);
  }

  lemma MapRemoveAt<T, U>(t: seq<T>, k: nat, f: T -> U)
    requires k < |t|
    ensures multiset(Map(t, f)) == multiset{f(t[k])} + multiset(Map(RemoveAt(t, k), f))
  {
    assert Map(RemoveAt(t, k), f) == RemoveAt(Map(t, f), k);
    RemoveAtRemoves(Map(t, f), k);
  }

  /** Where the head of `s` sits in a permutation of it. */
  lemma HeadIn<T>(s: seq<T>, t: seq<T>) returns (k: nat)
    requires s != [] && multiset(s) == multiset(t)
    ensures k < |t| && t[k] == s[0] && multiset(s[1..]) == multiset(RemoveAt(t, k))
  {
    assert s[0] in multiset(t);
    k :| k < |t| && t[k] == s[0];
    RemoveAtRemoves(t, k);
    assert s == [s[0]] + s[1..];
    assert multiset(s[1..]) == multiset(s) - multiset{s[0]};
  }

  lemma SameLength<T>(s: seq<T>, t: seq<T>)
    requires multiset(s) == multiset(t)
    ensures |s| == |t|
  {
    assert |multiset(s)| == |multiset(t)|;
  }

  /** Mapping commutes with permuting. */
  lemma {:induction false} MapPermutes<T, U>(s: seq<T>, t: seq<T>, f: T -> U)
    requires multiset(s) == multiset(t)
    ensures multiset(Map(s, f)) == multiset(Map(t, f))
    decreases |s|
  {
    SameLength(s, t);
    if s != [] {
      var k := HeadIn(s, t);
      MapPermutes(s[1..], RemoveAt(t, k), f);
      MapRemoveAt(t, k, f);
      MapRemoveAt(s, 0, f);
      assert RemoveAt(s, 0) == s[1..];
    }
  }

  lemma SameHead<T>(s: seq<T>, t: seq<T>, le: (T, T) -> bool)
    requires Sorted(s, le) && Sorted(t, le) && multiset(s) == multiset(t) && s != []
    requires forall x, y | x in s && y in s && le(x, y) && le(y, x) :: x == y
    ensures t != [] && s[0] == t[0]
  {
    SameLength(s, t);
    var k := HeadIn(s, t);
    var j := HeadIn(t, s);
    assert k > 0 ==> le(t[0], t[k]);
    assert j > 0 ==> le(s[0], s[j]);
    assert s[j] in s && s[0] in s;
  }

  lemma TailsMatch<T>(s: seq<T>, t: seq<T>)
    requires s != [] && t != [] && s[0] == t[0] && multiset(s) == multiset(t)
    ensures multiset(s[1..]) == multiset(t[1..])
  {
    assert s == [s[0]] + s[1..] && t == [t[0]] + t[1..];
    assert multiset(s[1..]) == multiset(s) - multiset{s[0]};
    assert multiset(t[1..]) == multiset(t) - multiset{t[0]};
  }

  /** Without repeats, a sorted list is determined by its elements. */
  lemma {:induction false} SortedUnique<T>(s: seq<T>, t: seq<T>, le: (T, T) -> bool)
    requires Sorted(s, le) && Sorted(t, le) && multiset(s) == multiset(t)
    requires forall x, y | x in s && y in s && le(x, y) && le(y, x) :: x == y
    ensures s == t
    decreases |s|
  {
    SameLength(s, t);
    if s != [] {
      SameHead(s, t, le);
      TailsMatch(s, t);
      assert forall x | x in s[1..] :: x in s;
      hide Sorted;
      SortedUnique(s[1..], t[1..], le);
      assert s == [s[0]] + s[1..] && t == [t[0]] + t[1..];
    }
  }

  ghost predicate NoRepeats<T>(s: seq<T>) {
    forall i, j | 0 <= i < j < |s| :: s[i] != s[j]
  }

  lemma TwiceInMultiset<T>(s: seq<T>, i: nat, j: nat)
    requires i < j < |s| && s[i] == s[j]
    ensures multiset(s)[s[i]] >= 2
  {
    assert s == s[..j] + s[j..];
    assert s[..j][i] in multiset(s[..j]) && s[j..][0] in multiset(s[j..]);
  }

  lemma {:induction false} OnceInMultiset<T>(s: seq<T>, x: T)
    requires NoRepeats(s)
    ensures multiset(s)[x] <= 1
  {
    if s != [] {
      assert s == [s[0]] + s[1..];
      OnceInMultiset(s[1..], x);
      if x == s[0] {
        assert x !in s[1..];
      }
    }
  }

  lemma NoRepeatsPermutes<T>(s: seq<T>, t: seq<T>)
    requires NoRepeats(s) && multiset(s) == multiset(t)
    ensures NoRepeats(t)
  {
    forall i, j | 0 <= i < j < |t|
      ensures t[i] != t[j]
    {
      if t[i] == t[j] {
        TwiceInMultiset(t, i, j);
        OnceInMultiset(s, t[i]);
      }
    }
  }
}
