/** Sessions suspended for an approval, and the parked calls that can release them. */
module GatewaySessions {
  import opened Outcomes
  import opened Text
  import opened Ledger
  import opened SessionStatus
  import opened GatewayMachine
  import opened GatewayOwnership
  import opened GatewayScenario

  predicate Suspended(s: System, session: string) {
    session in s.sessions && s.sessions[session] == "awaiting_approval"
  }

  predicate ParkedIn(rows: Table, id: string, session: string) {
    id in rows && rows[id].awaiting && rows[id].session == session
  }

  /** On the way to set the session running again. */
  predicate Releasing(pc: Pc, session: string) {
    (pc.ApprovingSession? || pc.Denying? || pc.DenyingSession?) && pc.job.session == session
  }

  /** A call of the session is parked, or an operator who unparked one is about to release it. */
  ghost predicate Releasable(s: System, session: string) {
    || (exists id :: ParkedIn(s.rows, id, session))
    || (exists u :: u in s.tasks && Releasing(s.tasks[u].pc, session))
  }

  ghost predicate AllReleasable(s: System) {
    forall session | Suspended(s, session) :: Releasable(s, session)
  }

  /** A task that suspends a session for the call it parked does so while the session can
      still be released. */
  ghost predicate InTime(s: System, a: Action) {
    a.Act? && a.t in s.tasks && s.tasks[a.t].pc.ParkingSession? && s.tasks[a.t].pc.job.session in s.sessions
    ==> Releasable(s, s.tasks[a.t].pc.job.session)
  }

  /** Only clearing the flag unparks a row, and who does so is then releasing the session. */
  lemma ParkedRowStays(s: System, t: Tid, pc: Pc, c: Choice, id: string, session: string)
    requires PcFits(s.rows, pc) && RowOk(s.rows, id) && ParkedIn(s.rows, id, session)
    ensures var e := Next(s, t, pc, c); ParkedIn(e.rows, id, session) || Releasing(e.pc, session)
  {
    hide DerivedKey, CountForSession, SetStatus, OutcomeFor;
    if OwnedId(pc) != Some(id) {
      StepFrame(s, t, pc, c, id);
    }
  }

  /** A task stops releasing a session only by setting it running. */
  lemma ReleasingStays(s: System, t: Tid, pc: Pc, c: Choice, session: string)
    requires Releasing(pc, session)
    ensures var e := Next(s, t, pc, c);
            Releasing(e.pc, session) || (session in e.sessions ==> e.sessions[session] == "running")
  {
    hide ResolveFailed;
  }

  lemma StatusChanges(s: System, t: Tid, pc: Pc, c: Choice, session: string)
    ensures var e := Next(s, t, pc, c);
            && (session in e.sessions <==> session in s.sessions)
            && (session in s.sessions && e.sessions[session] == "awaiting_approval" ==>
                  s.sessions[session] == "awaiting_approval" || (pc.ParkingSession? && pc.job.session == session))
  {
    hide DerivedKey, CountForSession, OutcomeFor, Insert, JobOf, CallIdFor;
    hide Increment, ResolveFailed, ResolveSucceeded, SetAwaiting, ClearAwaiting, Reopen, SetDropped;
  }

  lemma Suspends(s: System, t: Tid, pc: Pc, c: Choice)
    requires pc.ParkingSession?
    ensures var e := Next(s, t, pc, c);
            && e.rows == s.rows && e.pc.Done?
            && (pc.job.session in s.sessions ==>
                  pc.job.session in e.sessions && e.sessions[pc.job.session] == "awaiting_approval")
  {
  }

  lemma ReleasableStays(s: System, t: Tid, c: Choice, session: string)
    requires Owned(s) && t in s.tasks && Releasable(s, session) && Suspended(Step(s, t, c), session)
    ensures Releasable(Step(s, t, c), session)
  {
    var s' := Step(s, t, c);
    assert s'.tasks[t].pc == Next(s, t, s.tasks[t].pc, c).pc;
    hide Next;
    if id :| ParkedIn(s.rows, id, session) {
      assert PcFits(s.rows, s.tasks[t].pc) && RowOk(s.rows, id);
      ParkedRowStays(s, t, s.tasks[t].pc, c, id, session);
      assert t in s'.tasks;
    } else {
      var u :| u in s.tasks && Releasing(s.tasks[u].pc, session);
      if u == t {
        ReleasingStays(s, t, s.tasks[t].pc, c, session);
      }
      assert u in s'.tasks;
    }
  }

  lemma ActionKeepsReleasableIff(s: System, a: Action)
    requires Owned(s) && Enabled(s, a) && AllReleasable(s)
    ensures AllReleasable(Do(s, a)) <==> InTime(s, a)
  {
    var s' := Do(s, a);
    if a.Enter? {
      forall session | Suspended(s', session)
        ensures Releasable(s', session)
      {
        assert Suspended(s, session);
        if !(exists id :: ParkedIn(s.rows, id, session)) {
          var u :| u in s.tasks && Releasing(s.tasks[u].pc, session);
          assert u in s'.tasks && s'.tasks[u] == s.tasks[u];
        }
      }
    } else {
      StepKeepsReleasableIff(s, a.t, a.choice);
    }
  }

  lemma StepKeepsReleasableIff(s: System, t: Tid, c: Choice)
    requires Owned(s) && t in s.tasks && AllReleasable(s)
    ensures AllReleasable(Step(s, t, c)) <==> InTime(s, Act(t, c))
  {
    var s', pc := Step(s, t, c), s.tasks[t].pc;
    hide Next, Owned, Releasable;
    forall session | Suspended(s', session)
                     && (pc.ParkingSession? && pc.job.session == session ==> Releasable(s, session))
      ensures Releasable(s', session)
    {
      StatusChanges(s, t, pc, c, session);
      ReleasableStays(s, t, c, session);
    }
    if pc.ParkingSession? && pc.job.session in s.sessions {
      Suspends(s, t, pc, c);
      assert Suspended(s', pc.job.session);
      if AllReleasable(s') {
        ParkingReleasesNothing(s, t, c, pc.job.session);
      }
    }
  }

  lemma ParkingReleasesNothing(s: System, t: Tid, c: Choice, session: string)
    requires t in s.tasks && s.tasks[t].pc.ParkingSession? && Releasable(Step(s, t, c), session)
    ensures Releasable(s, session)
  {
    var s' := Step(s, t, c);
    Suspends(s, t, s.tasks[t].pc, c);
    hide Next;
    if !(exists id :: ParkedIn(s.rows, id, session)) {
      var u :| u in s'.tasks && Releasing(s'.tasks[u].pc, session);
      assert u != t && s'.tasks[u] == s.tasks[u];
    }
  }

  // ---- whole runs ----

  ghost predicate AlwaysReleasable(s: System, acts: seq<Action>)
    decreases |acts|
  {
    AllReleasable(s) && (acts != [] ==> Enabled(s, acts[0]) && AlwaysReleasable(Do(s, acts[0]), acts[1..]))
  }

  ghost predicate AlwaysInTime(s: System, acts: seq<Action>)
    decreases |acts|
  {
    acts != [] ==> Enabled(s, acts[0]) && InTime(s, acts[0]) && AlwaysInTime(Do(s, acts[0]), acts[1..])
  }

  lemma {:induction false} ReleasableAlongIff(s: System, acts: seq<Action>, s': System)
    requires Owned(s) && AllReleasable(s) && Runs(s, acts, s')
    ensures AlwaysReleasable(s, acts) <==> AlwaysInTime(s, acts)
    ensures AlwaysReleasable(s, acts) ==> AllReleasable(s')
    decreases |acts|
  {
    if acts != [] {
      ActionKeepsReleasableIff(s, acts[0]);
      ActionKeepsOwned(s, acts[0]);
      hide Owned, AllReleasable, InTime, Enabled;
      if InTime(s, acts[0]) {
        ReleasableAlongIff(Do(s, acts[0]), acts[1..], s');
      }
    }
  }

  /** Throughout a run every suspended session can be released, by deciding on a call that is
      parked or by an operator already at it, exactly when no task suspends a session for a
      call that has meanwhile been unparked, with nothing else to release it. In such a run,
      once nobody is at work, every suspended session has a parked call. */
  lemma ReleasableThroughoutIff(s0: System, acts: seq<Action>, s: System)
    requires Initial(s0) && Runs(s0, acts, s) && forall session :: !Suspended(s0, session)
    ensures AlwaysReleasable(s0, acts) <==> AlwaysInTime(s0, acts)
    ensures AlwaysInTime(s0, acts) && (forall u | u in s.tasks :: s.tasks[u].pc.Done?) ==>
              forall session | Suspended(s, session) :: exists id :: ParkedIn(s.rows, id, session)
  {
    ReleasableAlongIff(s0, acts, s);
  }

  // ---- a session suspended too late ----

  /** Task 0 about to suspend the session, task 1 deciding on its call. */
  function Deciders(row: Row, pc: Pc, log: seq<Event>): System {
    System(1, map[JOB.id := row], map["s" := "running"],
           map[0 := Task(Caller, ParkingSession(JOB)), 1 := Task(Operator(JOB.id), pc)], log)
  }

  lemma OperatorStep(row: Row, pc: Pc, log: seq<Event>, row': Row, pc': Pc, event: Option<Event>)
    requires var s := Deciders(row, pc, log);
             && Reachable(s)
             && Next(s, 1, pc, SILENT) == Effect(map[JOB.id := row'], map["s" := "running"], pc', event)
    ensures Reachable(Deciders(row', pc', match event case Some(e) => log + [e] case None => log))
  {
    hide Reachable, Next;
    var s := ReachMore(Deciders(row, pc, log), Act(1, SILENT));
    assert s.tasks == Deciders(row', pc', log).tasks;
  }

  lemma OperatorFindsRow(log: seq<Event>) returns (job: Job)
    requires log == [Inserted(0, JOB.id)]
    ensures Reachable(Deciders(ParkedRow(), Unparking(job, false), log)) && job.id == JOB.id && job.session == "s"
  {
    var s := ParkedBeforeSuspending();
    hide Reachable, DerivedKey, CountForSession, OutcomeFor, CallIdFor, Insert;
    s := ReachMore(s, Enter(1, EnterParked(JOB.id, false)));
    assert s == Deciders(ParkedRow(), FindingParked(JOB.id, false), log);
    job := JobOf(JOB.id, ParkedRow());
    OperatorStep(ParkedRow(), FindingParked(JOB.id, false), log, ParkedRow(), Unparking(job, false), None);
  }

  lemma OperatorUnparks(log: seq<Event>) returns (job: Job)
    requires log == [Inserted(0, JOB.id)]
    ensures Reachable(Deciders(ParkedRow().(awaiting := false), Denying(job), log))
    ensures job.id == JOB.id && job.session == "s"
  {
    job := OperatorFindsRow(log);
    hide Reachable, DerivedKey, CountForSession, OutcomeFor, CallIdFor, Insert, FreshRow;
    OperatorStep(ParkedRow(), Unparking(job, false), log, ParkedRow().(awaiting := false), Denying(job), None);
  }

  /** Meanwhile an operator denies the call from beginning to end. */
  lemma DeniedBeforeSuspending() returns (row: Row, reply: Reply, log: seq<Event>)
    ensures Reachable(Deciders(row, Done(reply), log)) && !row.awaiting
  {
    log := [Inserted(0, JOB.id)];
    var job := OperatorUnparks(log);
    var unparked := ParkedRow().(awaiting := false);
    hide Reachable, DerivedKey, CountForSession, OutcomeFor, CallIdFor, Insert, FreshRow, ParkedRow;
    row := unparked.(status := Failed, failureReason := Some("denied"), retriable := Some(false));
    OperatorStep(unparked, Denying(job), log, row, DenyingSession(job), None);
    reply := Resolved(CallFailed("denied", false));
    OperatorStep(row, DenyingSession(job), log, row, Done(reply), Some(Replied(1, JOB.id, reply)));
    log := log + [Replied(1, JOB.id, reply)];
  }

  /** A session can stay suspended with no parked call left to decide and nobody at work:
      the call was decided between the flag on its row and the status of its session. */
  lemma SuspendedTooLate()
    ensures exists s :: Reachable(s) && Suspended(s, "s") && (forall u | u in s.tasks :: s.tasks[u].pc.Done?)
                        && forall id :: !ParkedIn(s.rows, id, "s")
  {
    var row, reply, log := DeniedBeforeSuspending();
    hide Reachable, DerivedKey, CountForSession, OutcomeFor, CallIdFor, Insert;
    var s := ReachMore(Deciders(row, Done(reply), log), Act(0, SILENT));
    assert Suspended(s, "s");
  }
}
