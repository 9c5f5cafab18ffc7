/** Runs of the machine put end to end, and what interference leaves alone. */
module GatewayRuns {
  import opened Outcomes
  import opened GatewayMachine
  import opened GatewayOwnership
  import opened GatewayHistory

  /** Some enabled actions make `s'` of `s`. */
  ghost predicate Leads(s: System, s': System) {
    exists acts :: Runs(s, acts, s')
  }

  lemma {:induction false} RunsJoin(s: System, a: seq<Action>, m: System, b: seq<Action>, s': System)
    requires Runs(s, a, m) && Runs(m, b, s')
    ensures Runs(s, a + b, s')
    decreases |a|
  {
    if a == [] {
      assert a + b == b;
    } else {
      assert (a + b)[0] == a[0] && (a + b)[1..] == a[1..] + b;
      RunsJoin(Do(s, a[0]), a[1..], m, b, s');
    }
  }

  lemma LeadsChains()
    ensures forall s :: Leads(s, s)
    ensures forall s, m, s' :: Leads(s, m) && Leads(m, s') ==> Leads(s, s')
  {
    forall s
      ensures Leads(s, s)
    {
      assert Runs(s, [], s);
    }
    forall s, m, s' | Leads(s, m) && Leads(m, s')
      ensures Leads(s, s')
    {
      var a :| Runs(s, a, m);
      var b :| Runs(m, b, s');
      RunsJoin(s, a, m, b, s');
    }
  }

  lemma OneActionLeads(s: System, a: Action)
    requires Enabled(s, a)
    ensures Leads(s, Do(s, a))
  {
    assert [a][1..] == [];
    assert Runs(Do(s, a), [], Do(s, a));
    assert Runs(s, [a], Do(s, a));
  }

  lemma LeadsKeepsReachable(s: System, s': System)
    requires Reachable(s) && Leads(s, s')
    ensures Reachable(s')
  {
    var s0, a :| Initial(s0) && Runs(s0, a, s);
    var b :| Runs(s, b, s');
    RunsJoin(s0, a, s, b, s');
  }

  /** Nothing is ever taken out of the history. */
  lemma LeadsKeepsLog(s: System, s': System)
    requires Leads(s, s')
    ensures s.log <= s'.log
  {
    var acts :| Runs(s, acts, s');
    var _ := LogGrows(s, acts, s');
  }

  // ---- interference ----

  ghost predicate OthersOnly(acts: seq<Action>, me: Tid) {
    forall a | a in acts :: a.t != me
  }

  /** Everything happened between `s` and `s'` without `me` taking a step. */
  ghost predicate OthersRan(s: System, s': System, me: Tid) {
    exists acts :: OthersOnly(acts, me) && Runs(s, acts, s')
  }

  /** The row `me` is in charge of, if any, and its history as `s` left them. */
  ghost predicate MineUntouched(s: System, s': System, me: Tid)
    requires me in s.tasks
  {
    && me in s'.tasks && s'.tasks[me] == s.tasks[me]
    && forall id | OwnedId(s.tasks[me].pc) == Some(id) ::
         && id in s.rows && id in s'.rows && s'.rows[id] == s.rows[id]
         && Invocations(s'.log, id) == Invocations(s.log, id)
  }

  lemma OneOtherAction(s: System, a: Action, me: Tid)
    requires Owned(s) && me in s.tasks && Enabled(s, a) && a.t != me
    ensures MineUntouched(s, Do(s, a), me)
  {
    hide Next, Invocations;
    forall id | OwnedId(s.tasks[me].pc) == Some(id)
      ensures id in s.rows && id in Do(s, a).rows && Do(s, a).rows[id] == s.rows[id]
      ensures Invocations(Do(s, a).log, id) == Invocations(s.log, id)
    {
      if a.Act? {
        StepFrame(s, a.t, s.tasks[a.t].pc, a.choice, id);
        EventsAreOwn(s, a.t, s.tasks[a.t].pc, a.choice, id);
        StepCounts(s, a.t, a.choice, id);
      }
    }
  }

  lemma {:induction false} OthersLeaveMine(s: System, acts: seq<Action>, s': System, me: Tid)
    requires Owned(s) && OthersOnly(acts, me) && Runs(s, acts, s') && me in s.tasks
    ensures MineUntouched(s, s', me)
    decreases |acts|
  {
    if acts != [] {
      OneOtherAction(s, acts[0], me);
      ActionKeepsOwned(s, acts[0]);
      hide Owned, Enabled, OwnedId, Invocations;
      OthersLeaveMine(Do(s, acts[0]), acts[1..], s', me);
    }
  }

  /** Whatever the others did, `me` is where it was, and its row is as it was. */
  lemma InterferenceIsHarmless(s: System, s': System, me: Tid)
    requires Reachable(s) && me in s.tasks && OthersRan(s, s', me)
    ensures Reachable(s') && Leads(s, s') && MineUntouched(s, s', me)
  {
    var acts :| OthersOnly(acts, me) && Runs(s, acts, s');
    ReachableOwned(s);
    OthersLeaveMine(s, acts, s', me);
    assert Leads(s, s');
    LeadsKeepsReachable(s, s');
  }
}
