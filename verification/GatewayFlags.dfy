/** What a reply about a settled call tells its caller. */
module GatewayFlags {
  import opened Outcomes
  import opened RetryClasses
  import opened Ledger
  import opened SessionStatus
  import opened GatewayMachine
  import opened GatewayOwnership
  import opened GatewayHistory

  // ---- a reply is the row's state ----

  /** Of a row with its columns in order, the reply tells the state and is told by it: the
      value of a success, reason and flag of a failure, the approval of a parked call, and
      nothing yet of any other. */
  lemma OutcomeTellsRow(id: string, row: Row)
    requires Shape(row)
    ensures forall v ::
              OutcomeFor(id, row) == Some(Resolved(CallOk(v))) <==> row.status.Succeeded? && row.result == Some(v)
    ensures forall reason, flag ::
              OutcomeFor(id, row) == Some(Resolved(CallFailed(reason, flag)))
              <==> row.status.Failed? && row.failureReason == Some(reason) && row.retriable == Some(flag)
    ensures forall call, approval ::
              OutcomeFor(id, row) == Some(Parked(call, approval))
              <==> row.status.Pending? && row.awaiting && call == id && row.approvalId == Some(approval)
    ensures OutcomeFor(id, row) == None <==> row.status.Pending? && !row.awaiting
    ensures OutcomeFor(id, row) != Some(Dropped) && forall e :: OutcomeFor(id, row) != Some(Failure(e))
  {
  }

  // ---- which failures are retriable ----

  /** A failed call is retriable if it was attempted and is not critical; rejected and denied
      calls, and parked ones, were never attempted. */
  predicate RowTried(rows: Table, id: string) {
    id in rows ==>
      && (rows[id].status.Failed? ==> rows[id].retriable == Some(rows[id].attempts > 0 && rows[id].Class() != Critical))
      && (rows[id].awaiting ==> rows[id].attempts == 0)
  }

  predicate NotYetTried(pc: Pc) {
    || pc.Selecting? || pc.Deciding? || pc.Rejecting? || pc.Parking?
    || pc.Unparking? || pc.ApprovingSession? || pc.Denying?
  }

  predicate PcTried(rows: Table, pc: Pc) {
    var id := OwnedId(pc);
    id.Some? && id.value in rows ==>
      && (NotYetTried(pc) ==> rows[id.value].attempts == 0)
      && (pc.Invoking? || pc.Running? || pc.SavingOk? || pc.SavingFailure? ==> rows[id.value].attempts > 0)
  }

  ghost predicate Tried(s: System) {
    (forall id :: RowTried(s.rows, id)) && forall u | u in s.tasks :: PcTried(s.rows, s.tasks[u].pc)
  }

  lemma OwnRowTried(s: System, t: Tid, pc: Pc, c: Choice, id: string)
    requires PcFits(s.rows, pc) && PcTried(s.rows, pc) && RowTried(s.rows, id) && OwnedId(pc) == Some(id)
    ensures RowTried(Next(s, t, pc, c).rows, id)
  {
    hide DerivedKey, CountForSession, SetStatus, OutcomeFor, CallIdFor, Shape;
  }

  lemma RowStaysTried(s: System, t: Tid, pc: Pc, c: Choice, id: string)
    requires PcFits(s.rows, pc) && PcTried(s.rows, pc) && RowTried(s.rows, id)
    ensures RowTried(Next(s, t, pc, c).rows, id)
  {
    hide Next;
    if OwnedId(pc) == Some(id) {
      OwnRowTried(s, t, pc, c, id);
    } else if id in s.rows {
      StepFrame(s, t, pc, c, id);
    } else {
      NewRowsAreOpen(s, t, pc, c, id);
    }
  }

  lemma ExecutingPcTried(s: System, t: Tid, pc: Pc, c: Choice)
    requires InExecution(pc) && PcFits(s.rows, pc) && PcTried(s.rows, pc)
    ensures var e := Next(s, t, pc, c); PcTried(e.rows, e.pc)
  {
    hide DerivedKey, CountForSession, SetStatus, OutcomeFor, CallIdFor, Insert;
  }

  lemma OwnPcTried(s: System, t: Tid, pc: Pc, c: Choice)
    requires PcFits(s.rows, pc) && PcTried(s.rows, pc) && forall id :: RowTried(s.rows, id)
    ensures var e := Next(s, t, pc, c); PcTried(e.rows, e.pc)
  {
    if InExecution(pc) {
      ExecutingPcTried(s, t, pc, c);
    } else {
      assert pc.FindingParked? ==> RowTried(s.rows, pc.id);
      hide DerivedKey, CountForSession, SetStatus, OutcomeFor, CallIdFor;
    }
  }

  lemma StepKeepsTried(s: System, t: Tid, c: Choice)
    requires Owned(s) && Tried(s) && t in s.tasks
    ensures Tried(Step(s, t, c))
  {
    var s', pc := Step(s, t, c), s.tasks[t].pc;
    assert PcFits(s.rows, pc) && s'.rows == Next(s, t, pc, c).rows;
    assert s'.tasks == s.tasks[t := s.tasks[t].(pc := Next(s, t, pc, c).pc)];
    hide Step, PcFits, RowTried;
    forall id
      ensures RowTried(s'.rows, id)
    {
      RowStaysTried(s, t, pc, c, id);
    }
    OwnPcTried(s, t, pc, c);
    forall u | u in s'.tasks && u != t
      ensures PcTried(s'.rows, s'.tasks[u].pc)
    {
      OtherPcTried(s, t, c, u);
    }
  }

  lemma OtherPcTried(s: System, t: Tid, c: Choice, u: Tid)
    requires Owned(s) && t in s.tasks && u in s.tasks && u != t && PcTried(s.rows, s.tasks[u].pc)
    ensures PcTried(Next(s, t, s.tasks[t].pc, c).rows, s.tasks[u].pc)
  {
    hide Next;
    var id := OwnedId(s.tasks[u].pc);
    if id.Some? {
      assert PcFits(s.rows, s.tasks[t].pc) && PcFits(s.rows, s.tasks[u].pc);
      StepFrame(s, t, s.tasks[t].pc, c, id.value);
    }
  }

  lemma EnterKeepsTried(s: System, a: Action)
    requires Tried(s) && a.Enter?
    ensures Tried(Do(s, a))
  {
    hide RowTried;
    assert OwnedId(EntryTask(a.entry).pc) == None;
  }

  lemma {:induction false} RunKeepsTried(s: System, acts: seq<Action>, s': System)
    requires Owned(s) && Tried(s) && Runs(s, acts, s')
    ensures Tried(s')
    decreases |acts|
  {
    if acts != [] {
      ActionKeepsOwned(s, acts[0]);
      if acts[0].Act? {
        StepKeepsTried(s, acts[0].t, acts[0].choice);
      } else {
        EnterKeepsTried(s, acts[0]);
      }
      hide Owned, Tried, Do, Enabled;
      RunKeepsTried(Do(s, acts[0]), acts[1..], s');
    }
  }

  /** In every reachable state the reply about a failed call tells its reason, and that it is
      retriable exactly if it was attempted and is not critical: a call that a hook rejected
      or an operator denied is not. */
  lemma FailuresTellWhetherRetriable(s: System, id: string)
    requires Reachable(s) && id in s.rows && s.rows[id].status.Failed?
    ensures var row := s.rows[id];
            row.failureReason.Some?
            && OutcomeFor(id, row)
               == Some(Resolved(CallFailed(row.failureReason.value, row.attempts > 0 && row.Class() != Critical)))
  {
    var s0, acts :| Initial(s0) && Runs(s0, acts, s);
    RunKeepsOwned(s0, acts, s);
    RunKeepsTried(s0, acts, s);
    assert RowTried(s.rows, id) && Shape(s.rows[id]);
    OutcomeTellsRow(id, s.rows[id]);
  }

  /** A failed critical call is never reported as retriable, however it failed. */
  lemma CriticalFailuresAreNotRetriable(s: System, id: string)
    requires Reachable(s) && id in s.rows && s.rows[id].status.Failed? && s.rows[id].Class() == Critical
    ensures exists reason :: OutcomeFor(id, s.rows[id]) == Some(Resolved(CallFailed(reason, false)))
  {
    FailuresTellWhetherRetriable(s, id);
  }

  // ---- what is dropped ----

  lemma DroppedRowStays(s: System, t: Tid, pc: Pc, c: Choice, id: string)
    requires PcFits(s.rows, pc) && id in s.rows && Shape(s.rows[id]) && s.rows[id].dropped
    ensures var rows := Next(s, t, pc, c).rows; id in rows && rows[id] == s.rows[id]
  {
    if OwnedId(pc) != Some(id) {
      hide Next;
      StepFrame(s, t, pc, c, id);
    } else {
      hide DerivedKey, CountForSession, SetStatus, OutcomeFor, CallIdFor, Insert;
    }
  }

  lemma {:induction false} DroppedStays(s: System, acts: seq<Action>, s': System, id: string)
    requires Owned(s) && Runs(s, acts, s') && id in s.rows && s.rows[id].dropped
    ensures id in s'.rows && s'.rows[id] == s.rows[id]
    decreases |acts|
  {
    if acts != [] {
      ActionKeepsOwned(s, acts[0]);
      if acts[0].Act? {
        assert PcFits(s.rows, s.tasks[acts[0].t].pc);
        DroppedRowStays(s, acts[0].t, s.tasks[acts[0].t].pc, acts[0].choice, id);
      }
      hide Next, Owned;
      DroppedStays(Do(s, acts[0]), acts[1..], s', id);
    }
  }

  /** A dropped call is done with: the drop only marks it, and whatever anybody does after,
      its row never changes again. */
  lemma DropIsFinal(s: System, t: Tid, c: Choice, acts: seq<Action>, s': System, id: string)
    requires Reachable(s) && t in s.tasks && s.tasks[t].pc == Dropping(id) && Runs(Step(s, t, c), acts, s')
    ensures id in s.rows && id in s'.rows && s'.rows[id] == s.rows[id].(dropped := true)
  {
    ReachableOwned(s);
    assert PcFits(s.rows, s.tasks[t].pc);
    assert Enabled(s, Act(t, c)) && Do(s, Act(t, c)) == Step(s, t, c);
    ActionKeepsOwned(s, Act(t, c));
    assert Step(s, t, c).rows[id] == s.rows[id].(dropped := true);
    hide Next, Owned, Reachable;
    DroppedStays(Step(s, t, c), acts, s', id);
  }
}
