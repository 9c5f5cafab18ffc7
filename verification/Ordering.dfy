/** The keys of ordered maps and of tables read in order. */
module Ordering {
  import opened Text
  import opened Sorting

  predicate IsLeast(m: string, s: set<string>) {
    m in s && forall x | x in s :: StrLe(m, x)
  }

  lemma {:induction false} LeastExists(s: set<string>)
    requires s != {}
    ensures exists m :: IsLeast(m, s)
    decreases |s|
  {
    var m :| m in s;
    StrLeTotal(m, m);
    if s == {m} {
      assert IsLeast(m, s);
    } else {
      LeastExists(s - {m});
      var n :| IsLeast(n, s - {m});
      StrLeTotal(m, n);
      forall x | x in s
        ensures StrLe(m, n) ==> StrLe(m, x)
      {
        if StrLe(m, n) && x != m {
          StrLeTransitive(m, n, x);
        }
      }
      assert IsLeast(m, s) || IsLeast(n, s);
    }
  }

  /** The keys of an ordered map, in the order they are visited. */
  function KeysInOrder(s: set<string>): (r: seq<string>)
    ensures forall x :: x in r <==> x in s
    ensures NoRepeats(r)
    decreases |s|
  {
    if s == {} then []
    else
      LeastExists(s);
      StrLeAntisymmetric();
      var m :| IsLeast(m, s);
      [m] + KeysInOrder(s - {m})
  }

  lemma {:induction false} KeysAreSorted(s: set<string>)
    ensures Sorted(KeysInOrder(s), StrLe)
    decreases |s|
  {
    if s != {} {
      LeastExists(s);
      StrLeAntisymmetric();
      var m :| IsLeast(m, s);
      KeysAreSorted(s - {m});
      var rest := KeysInOrder(s - {m});
      assert forall i | 0 <= i < |rest| :: rest[i] in rest;
    }
  }
}
