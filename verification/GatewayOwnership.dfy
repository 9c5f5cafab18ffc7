/** Who may touch which row: every call id has at most one owner, whatever the
    interleaving, provided operator actions on one id do not overlap. */
module GatewayOwnership {
  import opened Outcomes
  import opened Text
  import opened RetryClasses
  import opened Ledger
  import opened SessionStatus
  import opened GatewayMachine

  /** The call id a task at `pc` is exclusively in charge of. */
  function OwnedId(pc: Pc): Option<string> {
    match pc
    case Selecting(job) => Some(job.id)
    case Deciding(job, _) => Some(job.id)
    case Rejecting(job, _) => Some(job.id)
    case Parking(job) => Some(job.id)
    case Incrementing(job, _) => Some(job.id)
    case Invoking(job, _) => Some(job.id)
    case Running(job, _) => Some(job.id)
    case SavingOk(job, _) => Some(job.id)
    case SavingFailure(job, _) => Some(job.id)
    case Unparking(job, _) => Some(job.id)
    case ApprovingSession(job) => Some(job.id)
    case Denying(job) => Some(job.id)
    case DenyingSession(job) => Some(job.id)
    case Reopening(job) => Some(job.id)
    case Dropping(id) => Some(id)
    case _ => None
  }

  ghost predicate JobFits(rows: Table, job: Job) {
    job.id in rows && rows[job.id].session == job.session && rows[job.id].Class() == job.rc
  }

  /** Pending and not parked. */
  predicate Open(rows: Table, id: string) {
    id in rows && rows[id].status.Pending? && !rows[id].awaiting
  }

  predicate Dead(rows: Table, id: string) {
    id in rows && rows[id].status.Failed? && !rows[id].dropped
  }

  /** What a task at `pc` may rely on in the table. */
  ghost predicate PcFits(rows: Table, pc: Pc) {
    match pc
    case Selecting(job) => JobFits(rows, job) && Open(rows, job.id)
    case Deciding(job, _) => JobFits(rows, job) && Open(rows, job.id)
    case Rejecting(job, _) => JobFits(rows, job) && Open(rows, job.id)
    case Parking(job) => JobFits(rows, job) && Open(rows, job.id)
    case Incrementing(job, made) => JobFits(rows, job) && Open(rows, job.id) && made < job.rc.AttemptsAllowed()
    case Invoking(job, made) => JobFits(rows, job) && Open(rows, job.id) && 1 <= made <= job.rc.AttemptsAllowed()
    case Running(job, made) => JobFits(rows, job) && Open(rows, job.id) && 1 <= made <= job.rc.AttemptsAllowed()
    case SavingOk(job, _) => JobFits(rows, job) && Open(rows, job.id)
    case SavingFailure(job, _) => JobFits(rows, job) && Open(rows, job.id)
    case Unparking(job, _) => JobFits(rows, job) && rows[job.id].status.Pending? && rows[job.id].awaiting
    case ApprovingSession(job) => JobFits(rows, job) && Open(rows, job.id)
    case Denying(job) => JobFits(rows, job) && Open(rows, job.id)
    case DenyingSession(job) =>
      job.id in rows && rows[job.id].status.Failed? && rows[job.id].failureReason == Some("denied")
      && rows[job.id].retriable == Some(false)
    case Reopening(job) => JobFits(rows, job) && Dead(rows, job.id)
    case Dropping(id) => Dead(rows, id)
    case Replaying(id) => id in rows
    case _ => true
  }

  /** Which program counters each kind of task can hold. */
  ghost predicate KindFits(task: Task) {
    match task.pc
    case Validating(_) => task.kind.Caller?
    case Counting(_) => task.kind.Caller?
    case Inserting(_, _) => task.kind.Caller?
    case Selecting(_) => task.kind.Caller?
    case Replaying(_) => task.kind.Caller?
    case Deciding(_, _) => task.kind.Caller?
    case Rejecting(_, _) => task.kind.Caller?
    case Parking(_) => task.kind.Caller?
    case ParkingSession(_) => task.kind.Caller?
    case Waiting(_) => task.kind.Caller? || task.kind.Waiter?
    case Incrementing(job, _) => task.kind.Caller? || task.kind == Operator(job.id)
    case Invoking(job, _) => task.kind.Caller? || task.kind == Operator(job.id)
    case Running(job, _) => task.kind.Caller? || task.kind == Operator(job.id)
    case SavingOk(job, _) => task.kind.Caller? || task.kind == Operator(job.id)
    case SavingFailure(job, _) => task.kind.Caller? || task.kind == Operator(job.id)
    case FindingParked(id, _) => task.kind == Operator(id)
    case Unparking(job, _) => task.kind == Operator(job.id)
    case ApprovingSession(job) => task.kind == Operator(job.id)
    case Denying(job) => task.kind == Operator(job.id)
    case DenyingSession(job) => task.kind == Operator(job.id)
    case FindingDead(id, _) => task.kind == Operator(id)
    case Reopening(job) => task.kind == Operator(job.id)
    case Dropping(id) => task.kind == Operator(id)
    case Done(_) => true
  }

  ghost predicate RowsOk(rows: Table) {
    WellKeyed(rows) && forall id | id in rows :: Shape(rows[id])
  }

  ghost predicate TasksOk(s: System) {
    forall u | u in s.tasks :: KindFits(s.tasks[u]) && PcFits(s.rows, s.tasks[u].pc)
  }

  ghost predicate OneOwner(s: System) {
    forall u, v | u in s.tasks && v in s.tasks && u != v && OwnedId(s.tasks[u].pc).Some? ::
      OwnedId(s.tasks[u].pc) != OwnedId(s.tasks[v].pc)
  }

  ghost predicate OneOperator(s: System) {
    forall u, v, id | u in s.tasks && v in s.tasks && OperatorOn(s.tasks[u], id) && OperatorOn(s.tasks[v], id) :: u == v
  }

  /** A pending row that is not parked is always in somebody's hands. */
  ghost predicate NoOrphan(s: System) {
    forall id | Open(s.rows, id) :: exists u :: u in s.tasks && OwnedId(s.tasks[u].pc) == Some(id)
  }

  ghost predicate Owned(s: System) {
    RowsOk(s.rows) && TasksOk(s) && OneOwner(s) && OneOperator(s) && NoOrphan(s)
  }

  // ---- one step ----

  /** A row under its own id, with its columns in one of the allowed combinations. */
  ghost predicate RowOk(rows: Table, id: string) {
    id in rows ==> id == CallIdFor(rows[id].tool, rows[id].idemKey) && Shape(rows[id])
  }

  lemma TouchedRowOk(s: System, t: Tid, pc: Pc, c: Choice, id: string)
    requires PcFits(s.rows, pc) && RowOk(s.rows, id)
    requires id !in s.rows || OwnedId(pc) == Some(id)
    ensures RowOk(Next(s, t, pc, c).rows, id)
  {
    hide DerivedKey, CountForSession, SetStatus, OutcomeFor;
  }

  lemma RowsStayOk(s: System, t: Tid, pc: Pc, c: Choice)
    requires RowsOk(s.rows) && PcFits(s.rows, pc)
    ensures RowsOk(Next(s, t, pc, c).rows)
  {
    var rows := Next(s, t, pc, c).rows;
    forall id | id in rows
      ensures RowOk(rows, id)
    {
      if id !in s.rows || OwnedId(pc) == Some(id) {
        TouchedRowOk(s, t, pc, c, id);
      } else {
        StepFrame(s, t, pc, c, id);
      }
    }
  }

  /** Only the row a task owns, or the one it inserts, can change. */
  lemma StepFrame(s: System, t: Tid, pc: Pc, c: Choice, id: string)
    requires PcFits(s.rows, pc) && id in s.rows && OwnedId(pc) != Some(id)
    ensures var rows := Next(s, t, pc, c).rows; id in rows && rows[id] == s.rows[id]
  {
    hide DerivedKey, CountForSession, SetStatus, OutcomeFor;
  }

  /** Ids are never removed. */
  lemma RowsGrow(s: System, t: Tid, pc: Pc, c: Choice)
    ensures s.rows.Keys <= Next(s, t, pc, c).rows.Keys
  {
  }

  predicate InExecution(pc: Pc) {
    pc.Deciding? || pc.Incrementing? || pc.Invoking? || pc.Running? || pc.SavingOk? || pc.SavingFailure?
  }

  lemma NextFitsInExecution(s: System, t: Tid, pc: Pc, c: Choice)
    requires InExecution(pc) && PcFits(s.rows, pc)
    ensures var e := Next(s, t, pc, c); PcFits(e.rows, e.pc)
  {
  }

  lemma NextFits(s: System, t: Tid, pc: Pc, c: Choice)
    requires PcFits(s.rows, pc)
    requires pc.Reopening? ==> RowOk(s.rows, pc.job.id)
    ensures var e := Next(s, t, pc, c); PcFits(e.rows, e.pc)
  {
    hide DerivedKey, CountForSession, SetStatus, OutcomeFor;
    if InExecution(pc) {
      NextFitsInExecution(s, t, pc, c);
    } else if pc.Inserting? {
      SpellingRoundTrip(pc.req.rc, pc.req.rc.AsStr());
    }
  }

  lemma NextKindFits(s: System, t: Tid, pc: Pc, kind: Kind, c: Choice)
    requires KindFits(Task(kind, pc))
    ensures KindFits(Task(kind, Next(s, t, pc, c).pc))
  {
    hide DerivedKey, CountForSession, SetStatus, OutcomeFor;
  }

  /** A new owner comes from an insert that found nothing or from an operator's check. */
  lemma ClaimingPcs(s: System, t: Tid, pc: Pc, c: Choice)
    requires OwnedId(Next(s, t, pc, c).pc).Some?
    requires OwnedId(Next(s, t, pc, c).pc) != OwnedId(pc)
    ensures var id := OwnedId(Next(s, t, pc, c).pc).value;
            || (pc.Inserting? && id !in s.rows)
            || (pc.FindingParked? && pc.id == id && id in s.rows && s.rows[id].status.Pending? && s.rows[id].awaiting)
            || (pc.FindingDead? && pc.id == id && Dead(s.rows, id))
  {
    hide DerivedKey, CountForSession, SetStatus, OutcomeFor;
  }

  /** A task that becomes the owner of an id took it from nobody. */
  lemma StepClaims(s: System, t: Tid, c: Choice, v: Tid)
    requires t in s.tasks && v in s.tasks && v != t && TasksOk(s) && OneOwner(s) && OneOperator(s)
    requires OwnedId(Next(s, t, s.tasks[t].pc, c).pc).Some?
    ensures OwnedId(Next(s, t, s.tasks[t].pc, c).pc) != OwnedId(s.tasks[v].pc)
  {
    var claimed := OwnedId(Next(s, t, s.tasks[t].pc, c).pc);
    if claimed == OwnedId(s.tasks[v].pc) {
      assert OwnedId(s.tasks[t].pc) != claimed;
      ClaimingPcs(s, t, s.tasks[t].pc, c);
      assert OperatorOn(s.tasks[t], claimed.value);
      assert false;
    }
  }

  /** A row that becomes or stays open is in the hands of whoever made it so. */
  lemma StepOpens(s: System, t: Tid, pc: Pc, c: Choice, id: string)
    requires PcFits(s.rows, pc) && Open(Next(s, t, pc, c).rows, id)
    requires Open(s.rows, id) ==> OwnedId(pc) == Some(id)
    ensures OwnedId(Next(s, t, pc, c).pc) == Some(id)
  {
    hide DerivedKey, CountForSession, SetStatus, OutcomeFor;
  }

  lemma StepOrphans(s: System, t: Tid, c: Choice)
    requires t in s.tasks && TasksOk(s) && NoOrphan(s)
    ensures NoOrphan(Step(s, t, c))
  {
    var s' := Step(s, t, c);
    forall id | Open(s'.rows, id)
      ensures exists u :: u in s'.tasks && OwnedId(s'.tasks[u].pc) == Some(id)
    {
      if Open(s.rows, id) && OwnedId(s.tasks[t].pc) != Some(id) {
        var u :| u in s.tasks && OwnedId(s.tasks[u].pc) == Some(id);
        assert u in s'.tasks && s'.tasks[u] == s.tasks[u];
      } else {
        StepOpens(s, t, s.tasks[t].pc, c, id);
        assert t in s'.tasks;
      }
    }
  }

  lemma OtherStillFits(s: System, t: Tid, c: Choice, u: Tid)
    requires t in s.tasks && u in s.tasks && u != t && TasksOk(s) && OneOwner(s)
    ensures PcFits(Step(s, t, c).rows, s.tasks[u].pc)
  {
    var pc := s.tasks[u].pc;
    RowsGrow(s, t, s.tasks[t].pc, c);
    if OwnedId(pc).Some? {
      StepFrame(s, t, s.tasks[t].pc, c, OwnedId(pc).value);
    }
  }

  lemma StepKeepsTasks(s: System, t: Tid, c: Choice)
    requires t in s.tasks && RowsOk(s.rows) && TasksOk(s) && OneOwner(s)
    ensures TasksOk(Step(s, t, c))
  {
    var s' := Step(s, t, c);
    forall u | u in s'.tasks
      ensures KindFits(s'.tasks[u]) && PcFits(s'.rows, s'.tasks[u].pc)
    {
      if u != t {
        OtherStillFits(s, t, c, u);
      } else {
        NextFits(s, t, s.tasks[t].pc, c);
        NextKindFits(s, t, s.tasks[t].pc, s.tasks[t].kind, c);
      }
    }
  }

  lemma StepKeepsOneOwner(s: System, t: Tid, c: Choice)
    requires t in s.tasks && TasksOk(s) && OneOwner(s) && OneOperator(s)
    ensures OneOwner(Step(s, t, c))
  {
    var s' := Step(s, t, c);
    forall u, v | u in s'.tasks && v in s'.tasks && u != v && OwnedId(s'.tasks[u].pc).Some?
      ensures OwnedId(s'.tasks[u].pc) != OwnedId(s'.tasks[v].pc)
    {
      if u == t {
        StepClaims(s, t, c, v);
      } else if v == t && OwnedId(s'.tasks[t].pc).Some? {
        StepClaims(s, t, c, u);
      }
    }
  }

  lemma StepKeepsOwned(s: System, t: Tid, c: Choice)
    requires t in s.tasks && Owned(s)
    ensures Owned(Step(s, t, c))
  {
    RowsStayOk(s, t, s.tasks[t].pc, c);
    StepKeepsTasks(s, t, c);
    StepKeepsOneOwner(s, t, c);
    StepOrphans(s, t, c);
  }

  lemma EnterKeepsOwned(s: System, a: Action)
    requires a.Enter? && Enabled(s, a) && Owned(s)
    ensures Owned(Do(s, a))
  {
    var s' := Do(s, a);
    assert OneOwner(s') by {
      assert OwnedId(s'.tasks[a.t].pc) == None;
    }
    forall id | Open(s'.rows, id)
      ensures exists u :: u in s'.tasks && OwnedId(s'.tasks[u].pc) == Some(id)
    {
      var u :| u in s.tasks && OwnedId(s.tasks[u].pc) == Some(id);
      assert u in s'.tasks && s'.tasks[u] == s.tasks[u];
    }
  }

  // ---- theorems over every reachable state ----

  lemma ActionKeepsOwned(s: System, a: Action)
    requires Owned(s) && Enabled(s, a)
    ensures Owned(Do(s, a))
  {
    if a.Act? {
      StepKeepsOwned(s, a.t, a.choice);
    } else {
      EnterKeepsOwned(s, a);
    }
  }

  /** Every run keeps the ownership invariant. */
  lemma {:induction false} RunKeepsOwned(s: System, acts: seq<Action>, s': System)
    requires Owned(s) && Runs(s, acts, s')
    ensures Owned(s')
    decreases |acts|
  {
    if acts != [] {
      ActionKeepsOwned(s, acts[0]);
      RunKeepsOwned(Do(s, acts[0]), acts[1..], s');
    }
  }

  lemma ReachableOwned(s: System)
    requires Reachable(s)
    ensures Owned(s)
  {
    var s0, acts :| Initial(s0) && Runs(s0, acts, s);
    RunKeepsOwned(s0, acts, s);
  }

  predicate Executing(pc: Pc, id: string) {
    (pc.Invoking? || pc.Running?) && pc.job.id == id
  }

  /** Mutual exclusion: at most one task is in the executor for a (tool, key), and
      meanwhile the row is pending and not parked. */
  lemma MutualExclusion(s: System, tool: string, key: string, u: Tid, v: Tid)
    requires Reachable(s)
    requires u in s.tasks && Executing(s.tasks[u].pc, CallIdFor(tool, key))
    ensures v in s.tasks && Executing(s.tasks[v].pc, CallIdFor(tool, key)) ==> u == v
    ensures Open(s.rows, CallIdFor(tool, key))
  {
    ReachableOwned(s);
    assert PcFits(s.rows, s.tasks[u].pc);
  }

  /** Two rows never answer for the same (tool, key). */
  lemma OneRowPerKey(s: System, a: string, b: string)
    requires Reachable(s) && a in s.rows && b in s.rows
    requires s.rows[a].tool == s.rows[b].tool && s.rows[a].idemKey == s.rows[b].idemKey
    ensures a == b
  {
    ReachableOwned(s);
  }

  /** A row is waited on only while some task is bound to move it: it is never
      pending, unparked and in nobody's hands. */
  lemma PendingRowsHaveExactlyOneOwner(s: System, id: string)
    requires Reachable(s) && Open(s.rows, id)
    ensures exists u :: u in s.tasks && OwnedId(s.tasks[u].pc) == Some(id)
                        && forall v | v in s.tasks && OwnedId(s.tasks[v].pc) == Some(id) :: v == u
  {
    ReachableOwned(s);
    var u :| u in s.tasks && OwnedId(s.tasks[u].pc) == Some(id);
    assert forall v | v in s.tasks && OwnedId(s.tasks[v].pc) == Some(id) :: v == u;
  }

  /** The column combinations every row keeps over every run. */
  lemma RowsKeepShape(s: System, id: string)
    requires Reachable(s) && id in s.rows
    ensures Shape(s.rows[id])
  {
    ReachableOwned(s);
  }
}
