/** Why operator actions on one call must be kept apart. */
module GatewayOverlap {
  import opened Text
  import opened Ledger
  import opened GatewayMachine
  import opened GatewayOwnership
  import opened GatewayScenario

  /** What a run needs when operators are not kept apart: only that task ids are new. */
  predicate LooselyEnabled(s: System, a: Action) {
    if a.Act? then a.t in s.tasks else a.t !in s.tasks
  }

  ghost predicate RunsLoosely(s: System, acts: seq<Action>, s': System)
    decreases |acts|
  {
    if acts == [] then s == s'
    else
      var n := |acts| - 1;
      exists m :: RunsLoosely(s, acts[..n], m) && LooselyEnabled(m, acts[n]) && s' == Do(m, acts[n])
  }

  /** Keeping operators apart is all that `RunsLoosely` gives up. */
  lemma {:induction false} RunsAreLoose(s: System, acts: seq<Action>, m: System, more: seq<Action>, s': System)
    requires RunsLoosely(s, acts, m) && Runs(m, more, s')
    ensures RunsLoosely(s, acts + more, s')
    decreases |more|
  {
    hide Do, LooselyEnabled;
    if more == [] {
      assert acts + more == acts;
    } else {
      hide Enabled;
      LooseStep(s, acts, m, more[0]);
      RunsAreLoose(s, acts + [more[0]], Do(m, more[0]), more[1..], s');
      assert (acts + [more[0]]) + more[1..] == acts + more;
    }
  }

  lemma LooseStep(s: System, acts: seq<Action>, m: System, a: Action)
    requires RunsLoosely(s, acts, m) && LooselyEnabled(m, a)
    ensures RunsLoosely(s, acts + [a], Do(m, a))
  {
    assert (acts + [a])[..|acts|] == acts;
  }

  ghost predicate LooselyReachable(s: System) {
    exists s0, acts :: Initial(s0) && RunsLoosely(s0, acts, s)
  }

  lemma ReachableIsLoose(s: System)
    requires Reachable(s)
    ensures LooselyReachable(s)
  {
    var s0, acts :| Initial(s0) && Runs(s0, acts, s);
    assert RunsLoosely(s0, [], s0);
    RunsAreLoose(s0, [], s0, acts, s);
  }

  lemma ReachLoosely(s: System, a: Action)
    requires LooselyReachable(s) && LooselyEnabled(s, a)
    ensures LooselyReachable(Do(s, a))
  {
    var s0, acts :| Initial(s0) && RunsLoosely(s0, acts, s);
    LooseStep(s0, acts, s, a);
  }

  /** One step of `t`, allowing whatever it asks. */
  lemma ReachStep(s: System, t: Tid)
    requires LooselyReachable(s) && t in s.tasks
    ensures LooselyReachable(Step(s, t, SILENT))
  {
    ReachLoosely(s, Act(t, SILENT));
  }

  /** The call of the scenario, parked, its session suspended and its caller told. */
  function ParkedCall(): System {
    System(1, map[JOB.id := ParkedRow()], map["s" := "awaiting_approval"],
           map[0 := Task(Caller, Done(Parked(JOB.id, JOB.id)))],
           [Inserted(0, JOB.id), Replied(0, JOB.id, Parked(JOB.id, JOB.id))])
  }

  lemma ParkedCallIsReached()
    ensures LooselyReachable(ParkedCall())
  {
    var s := ParkedBeforeSuspending();
    ReachableIsLoose(s);
    hide LooselyReachable, DerivedKey, CountForSession, OutcomeFor, Insert, CallIdFor;
    ReachStep(s, 0);
    assert Step(s, 0, SILENT) == ParkedCall();
  }

  lemma RushReachesExecutor(s: System, t: Tid, job: Job)
    requires t in s.tasks && s.tasks[t].pc == Unparking(job, true) && LooselyReachable(s)
    ensures exists s' :: LooselyReachable(s') && s'.tasks == s.tasks[t := s.tasks[t].(pc := Running(job, 1))]
  {
    hide LooselyReachable, DerivedKey, CountForSession, OutcomeFor, Insert;
    var a := Step(s, t, SILENT);
    ReachStep(s, t);
    assert a.tasks[t].pc == ApprovingSession(job);
    var b := Step(a, t, SILENT);
    ReachStep(a, t);
    assert b.tasks[t].pc == Incrementing(job, 0);
    var c := Step(b, t, SILENT);
    ReachStep(b, t);
    assert c.tasks[t].pc == Invoking(job, 1);
    ReachStep(c, t);
    assert Step(c, t, SILENT).tasks == s.tasks[t := s.tasks[t].(pc := Running(job, 1))];
  }

  predicate BothFound(s: System, job: Job) {
    1 in s.tasks && 2 in s.tasks && s.tasks[1].pc == Unparking(job, true) && s.tasks[2].pc == Unparking(job, true)
  }

  /** Two approvals of the parked call that have both read its row. */
  lemma BothFindTheRow()
    ensures exists s, job :: LooselyReachable(s) && BothFound(s, job) && job.id == JOB.id
  {
    var p := ParkedCall();
    ParkedCallIsReached();
    hide LooselyReachable, DerivedKey, CountForSession, OutcomeFor, Insert, CallIdFor;
    var job := JobOf(JOB.id, p.rows[JOB.id]);
    var approve := EnterParked(JOB.id, true);
    ReachLoosely(p, Enter(1, approve));
    var a := Do(p, Enter(1, approve));
    ReachLoosely(a, Enter(2, approve));
    var b := Do(a, Enter(2, approve));
    ReachStep(b, 1);
    var c := Step(b, 1, SILENT);
    assert c.rows == p.rows && c.tasks[1].pc == Unparking(job, true) && c.tasks[2] == b.tasks[2];
    ReachStep(c, 2);
    assert BothFound(Step(c, 2, SILENT), job);
  }

  /** From the empty table, two approvals that both read the parked row before either clears
      it put two tasks in the executor for the same call: if operators are not kept apart,
      there is no mutual exclusion. */
  lemma OverlappingApprovalsBothExecute()
    ensures exists s ::
              LooselyReachable(s) && 1 in s.tasks && 2 in s.tasks
              && Executing(s.tasks[1].pc, JOB.id) && Executing(s.tasks[2].pc, JOB.id)
  {
    hide LooselyReachable, CallIdFor;
    BothFindTheRow();
    var d, job :| LooselyReachable(d) && BothFound(d, job) && job.id == JOB.id;
    RushReachesExecutor(d, 1, job);
    var e :| LooselyReachable(e) && e.tasks == d.tasks[1 := d.tasks[1].(pc := Running(job, 1))];
    RushReachesExecutor(e, 2, job);
    var f :| LooselyReachable(f) && f.tasks == e.tasks[2 := e.tasks[2].(pc := Running(job, 1))];
    assert Executing(f.tasks[1].pc, job.id) && Executing(f.tasks[2].pc, job.id);
  }
}
