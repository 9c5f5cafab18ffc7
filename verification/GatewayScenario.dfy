/** A call of session "s" up to the point where a hook's demand for approval is on its row. */
module GatewayScenario {
  import opened Outcomes
  import opened Text
  import opened RetryClasses
  import opened Ledger
  import opened GatewayMachine
  import opened GatewayRuns

  lemma ReachMore(s: System, a: Action) returns (s': System)
    requires Reachable(s) && Enabled(s, a)
    ensures Reachable(s') && s' == Do(s, a)
  {
    OneActionLeads(s, a);
    s' := Do(s, a);
    LeadsKeepsReachable(s, s');
  }

  const JOB := Job(CallIdFor("t", "k"), "s", Write)

  const REQUEST := Request("s", "t", "{}", Some("k"), Write)

  const ROW := FreshRow("t", "k", "s", Write, "{}")

  /** The one call of session "s", in the hands of task 0 at `pc`. */
  function Single(row: Row, pc: Pc): System {
    System(1, map[JOB.id := row], map["s" := "running"], map[0 := Task(Caller, pc)], [Inserted(0, JOB.id)])
  }

  lemma InsertedCall() returns (s: System)
    ensures Reachable(s) && s == Single(ROW, Selecting(JOB))
  {
    s := System(1, map[], map["s" := "running"], map[], []);
    assert Initial(s) && Runs(s, [], s);
    hide Reachable, DerivedKey, CountForSession, OutcomeFor, CallIdFor;
    s := ReachMore(s, Enter(0, EnterCall(REQUEST)));
    s := ReachMore(s, Act(0, SILENT));
    assert s == System(1, map[], map["s" := "running"], map[0 := Task(Caller, Inserting(REQUEST, "k"))], []);
    hide *;
    s := InsertsRow(s);
  }

  lemma InsertsRow(s: System) returns (s': System)
    requires Reachable(s)
    requires s == System(1, map[], map["s" := "running"], map[0 := Task(Caller, Inserting(REQUEST, "k"))], [])
    ensures Reachable(s') && s' == Single(ROW, Selecting(JOB))
  {
    hide Reachable, DerivedKey, CountForSession, OutcomeFor, CallIdFor;
    assert Insert(s.rows, "t", "k", "s", Write, "{}") == (map[JOB.id := ROW], Won);
    hide Insert, FreshRow;
    s' := ReachMore(s, Act(0, SILENT));
  }

  function ParkedRow(): Row {
    ROW.(awaiting := true, approvalId := Some(JOB.id))
  }

  /** A hook has demanded an approval, and the row says so; the session is still running. */
  lemma ParkedBeforeSuspending() returns (s: System)
    ensures Reachable(s) && s == Single(ParkedRow(), ParkingSession(JOB))
  {
    s := InsertedCall();
    hide Reachable, DerivedKey, CountForSession, OutcomeFor, CallIdFor, Insert;
    s := ReachMore(s, Act(0, SILENT));
    assert s == Single(ROW, Deciding(JOB, 0));
    s := ReachMore(s, Act(0, Choice(true, RequireApproval, Raised(""))));
    assert s == Single(ROW, Parking(JOB));
    s := ReachMore(s, Act(0, SILENT));
  }
}
