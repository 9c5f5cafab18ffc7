/** What every run of the gateway leaves behind: attempt accounting, the single
    winner of each key, and replies that never change. */
module GatewayHistory {
  import opened Outcomes
  import opened RetryClasses
  import opened Ledger
  import opened SessionStatus
  import opened GatewayMachine
  import opened GatewayOwnership

  // ---- attempt accounting ----

  /** Attempts `n` executions of class `rc` may use up. */
  function Allowance(rc: RetryClass, n: nat): (a: nat)
    ensures a == rc.AttemptsAllowed() * n
  {
    match rc
    case Read => 4 * n
    case Write => 2 * n
    case Critical => n
  }

  /** Attempts the current execution may have made by the time `pc` is reached. */
  function MadeSoFar(pc: Pc): nat {
    match pc
    case Incrementing(_, made) => made
    case Invoking(_, made) => made
    case Running(_, made) => made
    case SavingOk(job, _) => job.rc.AttemptsAllowed()
    case SavingFailure(job, _) => job.rc.AttemptsAllowed()
    case _ => 0
  }

  /** The owner of an open or parked row, against the invocations and retries of its id. */
  ghost predicate OwnerCounts(rows: Table, pc: Pc, invoked: nat, retried: nat)
    requires OwnedId(pc).Some?
  {
    var id := OwnedId(pc).value;
    id in rows && rows[id].status.Pending? ==>
      && rows[id].attempts == invoked + (if pc.Invoking? then 1 else 0)
      && rows[id].attempts <= Allowance(rows[id].Class(), retried) + MadeSoFar(pc)
  }

  /** A row nobody is executing, against the same two counts. */
  ghost predicate RowCounts(rows: Table, id: string, invoked: nat, retried: nat) {
    if id !in rows then invoked == 0 && retried == 0
    else !Open(rows, id) ==>
      && rows[id].attempts == invoked
      && rows[id].attempts <= Allowance(rows[id].Class(), if rows[id].status.Pending? then retried else retried + 1)
  }

  ghost predicate OwnersCounted(s: System) {
    forall u | u in s.tasks && OwnedId(s.tasks[u].pc).Some? ::
      var id := OwnedId(s.tasks[u].pc).value;
      OwnerCounts(s.rows, s.tasks[u].pc, Invocations(s.log, id), Retries(s.log, id))
  }

  ghost predicate RowsCounted(s: System) {
    forall id :: RowCounts(s.rows, id, Invocations(s.log, id), Retries(s.log, id))
  }

  lemma CountsOfAppend(log: seq<Event>, e: Event, id: string)
    ensures Invocations(log + [e], id) == Invocations(log, id) + if e.Invoked? && e.id == id then 1 else 0
    ensures Retries(log + [e], id) == Retries(log, id) + if e.Reopened? && e.id == id then 1 else 0
    ensures Insertions(log + [e], id) == Insertions(log, id) + if e.Inserted? && e.id == id then 1 else 0
  {
    assert (log + [e])[..|log|] == log;
  }

  /** How a step's event moves the counts of `id`. */
  lemma StepCounts(s: System, t: Tid, c: Choice, id: string)
    requires t in s.tasks
    ensures var s', e := Step(s, t, c), Next(s, t, s.tasks[t].pc, c).event;
            && Invocations(s'.log, id) == Invocations(s.log, id) + (if e == Some(Invoked(t, id)) then 1 else 0)
            && Retries(s'.log, id) == Retries(s.log, id) + (if e == Some(Reopened(t, id)) then 1 else 0)
            && Insertions(s'.log, id) == Insertions(s.log, id) + (if e == Some(Inserted(t, id)) then 1 else 0)
  {
    var e := Next(s, t, s.tasks[t].pc, c).event;
    if e.Some? {
      assert e.value.task == t;
      CountsOfAppend(s.log, e.value, id);
    }
  }

  /** A step's event is about the id its task owns or inserts, or is a reply. */
  lemma EventsAreOwn(s: System, t: Tid, pc: Pc, c: Choice, id: string)
    requires OwnedId(pc) != Some(id)
    ensures var e := Next(s, t, pc, c).event; e != Some(Invoked(t, id)) && e != Some(Reopened(t, id))
  {
    hide DerivedKey, CountForSession, SetStatus, OutcomeFor;
  }

  function Bump(e: Option<Event>, what: Event, n: nat): nat {
    if e == Some(what) then n + 1 else n
  }

  /** The stepping task's own row. */
  lemma OwnRowCounts(s: System, t: Tid, pc: Pc, c: Choice, id: string, invoked: nat, retried: nat)
    requires OwnedId(pc) == Some(id) && PcFits(s.rows, pc)
    requires OwnerCounts(s.rows, pc, invoked, retried) && RowCounts(s.rows, id, invoked, retried)
    ensures var e := Next(s, t, pc, c);
            RowCounts(e.rows, id, Bump(e.event, Invoked(t, id), invoked), Bump(e.event, Reopened(t, id), retried))
  {
    hide DerivedKey, CountForSession, SetStatus, OutcomeFor, CallIdFor;
  }

  lemma ExecutingOwnerCounts(s: System, t: Tid, pc: Pc, c: Choice, id: string, invoked: nat, retried: nat)
    requires InExecution(pc) && OwnedId(pc) == Some(id) && PcFits(s.rows, pc)
    requires OwnerCounts(s.rows, pc, invoked, retried)
    ensures var e := Next(s, t, pc, c);
            OwnedId(e.pc).Some? ==>
              OwnedId(e.pc) == OwnedId(pc)
              && OwnerCounts(e.rows, e.pc, Bump(e.event, Invoked(t, id), invoked),
                             Bump(e.event, Reopened(t, id), retried))
  {
    hide DerivedKey, CountForSession, SetStatus, OutcomeFor, CallIdFor;
  }

  /** The stepping task itself, if it stays the owner. */
  lemma OwnOwnerCounts(s: System, t: Tid, pc: Pc, c: Choice, id: string, invoked: nat, retried: nat)
    requires OwnedId(pc) == Some(id) && PcFits(s.rows, pc)
    requires OwnerCounts(s.rows, pc, invoked, retried) && RowCounts(s.rows, id, invoked, retried)
    ensures var e := Next(s, t, pc, c);
            OwnedId(e.pc).Some? ==>
              OwnedId(e.pc) == OwnedId(pc)
              && OwnerCounts(e.rows, e.pc, Bump(e.event, Invoked(t, id), invoked),
                             Bump(e.event, Reopened(t, id), retried))
  {
    hide DerivedKey, CountForSession, SetStatus, OutcomeFor, CallIdFor;
    if InExecution(pc) {
      hide Next, OwnerCounts, RowCounts;
      ExecutingOwnerCounts(s, t, pc, c, id, invoked, retried);
    }
  }

  /** A task that has just come to own a row. */
  lemma ClaimedOwnerCounts(s: System, t: Tid, pc: Pc, c: Choice, id: string, invoked: nat, retried: nat)
    requires OwnedId(pc).None? && OwnedId(Next(s, t, pc, c).pc) == Some(id)
    requires RowCounts(s.rows, id, invoked, retried)
    ensures var e := Next(s, t, pc, c); OwnerCounts(e.rows, e.pc, invoked, retried)
  {
    hide DerivedKey, CountForSession, SetStatus, OutcomeFor, CallIdFor;
  }

  lemma StepKeepsRowsCounted(s: System, t: Tid, c: Choice)
    requires t in s.tasks && TasksOk(s) && OwnersCounted(s) && RowsCounted(s)
    ensures RowsCounted(Step(s, t, c))
  {
    var s' := Step(s, t, c);
    var pc := s.tasks[t].pc;
    forall id
      ensures RowCounts(s'.rows, id, Invocations(s'.log, id), Retries(s'.log, id))
    {
      StepCounts(s, t, c, id);
      if OwnedId(pc) == Some(id) {
        OwnRowCounts(s, t, pc, c, id, Invocations(s.log, id), Retries(s.log, id));
      } else {
        EventsAreOwn(s, t, pc, c, id);
        if id in s.rows {
          StepFrame(s, t, pc, c, id);
        } else {
          NewRowsAreOpen(s, t, pc, c, id);
        }
      }
    }
  }

  lemma NewRowsAreOpen(s: System, t: Tid, pc: Pc, c: Choice, id: string)
    requires PcFits(s.rows, pc) && id !in s.rows
    ensures id in Next(s, t, pc, c).rows ==> Open(Next(s, t, pc, c).rows, id)
  {
    hide DerivedKey, CountForSession, SetStatus, OutcomeFor, JobOf;
  }

  /** Another owner's counts survive the step. */
  lemma StepKeepsOtherOwner(s: System, t: Tid, c: Choice, u: Tid)
    requires t in s.tasks && u in s.tasks && u != t && TasksOk(s) && OneOwner(s) && OwnersCounted(s)
    requires OwnedId(s.tasks[u].pc).Some?
    ensures var s', id := Step(s, t, c), OwnedId(s.tasks[u].pc).value;
            OwnerCounts(s'.rows, s.tasks[u].pc, Invocations(s'.log, id), Retries(s'.log, id))
  {
    var id := OwnedId(s.tasks[u].pc).value;
    StepFrame(s, t, s.tasks[t].pc, c, id);
    EventsAreOwn(s, t, s.tasks[t].pc, c, id);
    StepCounts(s, t, c, id);
  }

  lemma StepKeepsOwnersCounted(s: System, t: Tid, c: Choice)
    requires t in s.tasks && TasksOk(s) && OneOwner(s) && OwnersCounted(s) && RowsCounted(s)
    ensures OwnersCounted(Step(s, t, c))
  {
    var s' := Step(s, t, c);
    var pc, pc' := s.tasks[t].pc, s'.tasks[t].pc;
    forall u | u in s'.tasks && OwnedId(s'.tasks[u].pc).Some?
      ensures var id := OwnedId(s'.tasks[u].pc).value;
              OwnerCounts(s'.rows, s'.tasks[u].pc, Invocations(s'.log, id), Retries(s'.log, id))
    {
      if u != t {
        StepKeepsOtherOwner(s, t, c, u);
      } else {
        var id := OwnedId(pc').value;
        StepCounts(s, t, c, id);
        if OwnedId(pc).Some? {
          var own := OwnedId(pc).value;
          OwnOwnerCounts(s, t, pc, c, own, Invocations(s.log, own), Retries(s.log, own));
        } else {
          EventsAreOwn(s, t, pc, c, id);
          ClaimedOwnerCounts(s, t, pc, c, id, Invocations(s.log, id), Retries(s.log, id));
        }
      }
    }
  }

  // ---- one winner per key ----

  predicate Lost(log: seq<Event>, t: Tid) {
    exists e :: e in log && e.LostInsert? && e.task == t
  }

  predicate Fresh(pc: Pc) {
    pc.Validating? || pc.Counting? || pc.Inserting?
  }

  /** Where a caller that lost the insert can be. */
  predicate OnlyReads(pc: Pc) {
    pc.Replaying? || pc.Waiting? || pc.Done?
  }

  /** What the log may hold about a task. */
  ghost predicate PastFits(log: seq<Event>, t: Tid, task: Task) {
    && (Lost(log, t) ==> OnlyReads(task.pc) && forall id :: Inserted(t, id) !in log)
    && (task.kind.Caller? && OwnedId(task.pc).Some? ==> Inserted(t, OwnedId(task.pc).value) in log)
    && (Fresh(task.pc) ==> forall e | e in log :: e.task != t)
    && (task.kind.Caller? ==> forall id | Invoked(t, id) in log :: Inserted(t, id) in log)
  }

  ghost predicate Traced(s: System) {
    && (forall u | u in s.tasks :: PastFits(s.log, u, s.tasks[u]))
    && (forall e | e in s.log :: e.task in s.tasks)
    && (forall id :: Insertions(s.log, id) == if id in s.rows then 1 else 0)
  }

  /** Which events accompany which moves of the program counter. */
  lemma PcMoves(s: System, t: Tid, pc: Pc, kind: Kind, c: Choice)
    requires KindFits(Task(kind, pc))
    ensures var e := Next(s, t, pc, c);
            && (e.event.Some? ==> e.event.value.task == t)
            && (OnlyReads(pc) ==> OnlyReads(e.pc) && (e.event.Some? ==> e.event.value.Replied?))
            && (e.event.Some? && e.event.value.LostInsert? ==> Fresh(pc) && OnlyReads(e.pc))
            && (e.event.Some? && e.event.value.Inserted? ==> Fresh(pc) && OwnedId(e.pc) == Some(e.event.value.id))
            && (e.event.Some? && e.event.value.Invoked? ==> OwnedId(pc) == Some(e.event.value.id))
            && (Fresh(e.pc) ==> Fresh(pc) && e.event.None?)
            && (kind.Caller? && OwnedId(e.pc).Some? ==>
                  OwnedId(pc) == OwnedId(e.pc) || e.event == Some(Inserted(t, OwnedId(e.pc).value)))
  {
    hide DerivedKey, CountForSession, SetStatus, OutcomeFor, CallIdFor, JobOf;
  }

  lemma OwnPast(s: System, t: Tid, c: Choice)
    requires t in s.tasks && KindFits(s.tasks[t]) && PastFits(s.log, t, s.tasks[t])
    ensures var s' := Step(s, t, c); PastFits(s'.log, t, s'.tasks[t])
  {
    PcMoves(s, t, s.tasks[t].pc, s.tasks[t].kind, c);
  }

  lemma OtherPast(s: System, t: Tid, c: Choice, u: Tid)
    requires t in s.tasks && u in s.tasks && u != t && PastFits(s.log, u, s.tasks[u])
    ensures PastFits(Step(s, t, c).log, u, s.tasks[u])
  {
    var s' := Step(s, t, c);
    assert forall x :: x in s'.log ==> x in s.log || x.task == t;
    assert forall x :: x in s.log ==> x in s'.log;
  }

  lemma InsertedIffNew(s: System, t: Tid, pc: Pc, c: Choice, id: string)
    ensures var e := Next(s, t, pc, c);
            && (id in e.rows <==> id in s.rows || e.event == Some(Inserted(t, id)))
            && (e.event == Some(Inserted(t, id)) ==> id !in s.rows)
  {
    hide DerivedKey, CountForSession, SetStatus, OutcomeFor, JobOf;
  }

  lemma StepKeepsTraced(s: System, t: Tid, c: Choice)
    requires t in s.tasks && TasksOk(s) && Traced(s)
    ensures Traced(Step(s, t, c))
  {
    var s' := Step(s, t, c);
    forall u | u in s'.tasks
      ensures PastFits(s'.log, u, s'.tasks[u])
    {
      if u == t {
        OwnPast(s, t, c);
      } else {
        OtherPast(s, t, c, u);
      }
    }
    forall id
      ensures Insertions(s'.log, id) == if id in s'.rows then 1 else 0
    {
      StepCounts(s, t, c, id);
      InsertedIffNew(s, t, s.tasks[t].pc, c, id);
    }
    PcMoves(s, t, s.tasks[t].pc, s.tasks[t].kind, c);
    assert forall e | e in s'.log :: e in s.log || e.task == t;
  }

  // ---- replies ----

  /** Every successful reply ever given is the one its row still holds. */
  ghost predicate RepliesHold(s: System) {
    forall e | e in s.log && e.Replied? && e.reply.Resolved? && e.reply.outcome.CallOk? ::
      e.id in s.rows && s.rows[e.id].status.Succeeded? && s.rows[e.id].result == Some(e.reply.outcome.v)
  }

  predicate Settled(rows: Table, id: string) {
    id in rows && !rows[id].status.Pending?
  }

  /** A settled row keeps its outcome unless this very step reopens it. */
  lemma StepKeepsSettled(s: System, t: Tid, pc: Pc, c: Choice, id: string)
    requires PcFits(s.rows, pc) && Settled(s.rows, id)
    ensures var e := Next(s, t, pc, c);
            e.event != Some(Reopened(t, id)) ==>
              Settled(e.rows, id) && OutcomeFor(id, e.rows[id]) == OutcomeFor(id, s.rows[id])
              && e.rows[id].status == s.rows[id].status && e.rows[id].result == s.rows[id].result
    ensures s.rows[id].status.Succeeded? ==> Next(s, t, pc, c).event != Some(Reopened(t, id))
  {
    if OwnedId(pc) != Some(id) {
      StepFrame(s, t, pc, c, id);
      EventsAreOwn(s, t, pc, c, id);
    }
  }

  /** While a row is settled, a reply about it is its outcome; the only other one
      is the `Parked` of the call that parked it, on its way out. */
  lemma SettledReplies(s: System, t: Tid, pc: Pc, c: Choice, id: string)
    requires PcFits(s.rows, pc) && Settled(s.rows, id)
    requires Next(s, t, pc, c).event.Some? && Next(s, t, pc, c).event.value.Replied?
    requires Next(s, t, pc, c).event.value.id == id
    ensures var reply := Next(s, t, pc, c).event.value.reply;
            Some(reply) == if pc.ParkingSession? then Some(Parked(id, id)) else OutcomeFor(id, s.rows[id])
    ensures pc.ParkingSession? ==> pc.job.id == id
  {
    hide DerivedKey, CountForSession, SetStatus;
  }

  ghost predicate OkReplyHolds(e: Effect) {
    e.event.Some? && e.event.value.Replied? && e.event.value.reply.Resolved?
    && e.event.value.reply.outcome.CallOk? ==>
      e.event.value.id in e.rows && e.rows[e.event.value.id].status.Succeeded?
      && e.rows[e.event.value.id].result == Some(e.event.value.reply.outcome.v)
  }

  lemma FreshOkReply(s: System, t: Tid, pc: Pc, c: Choice)
    requires PcFits(s.rows, pc) && forall id | id in s.rows :: Shape(s.rows[id])
    ensures OkReplyHolds(Next(s, t, pc, c))
  {
    if OnlyReads(pc) {
      hide Next, OkReplyHolds;
    } else {
      hide DerivedKey, CountForSession, SetStatus, JobOf, OutcomeFor, Shape;
    }
  }

  lemma StepKeepsReplies(s: System, t: Tid, c: Choice)
    requires t in s.tasks && RowsOk(s.rows) && TasksOk(s) && RepliesHold(s)
    ensures RepliesHold(Step(s, t, c))
  {
    var s' := Step(s, t, c);
    forall e | e in s'.log && e.Replied? && e.reply.Resolved? && e.reply.outcome.CallOk?
      ensures e.id in s'.rows && s'.rows[e.id].status.Succeeded? && s'.rows[e.id].result == Some(e.reply.outcome.v)
    {
      if e in s.log {
        StepKeepsSettled(s, t, s.tasks[t].pc, c, e.id);
      } else {
        FreshOkReply(s, t, s.tasks[t].pc, c);
      }
    }
  }

  // ---- theorems over every run ----

  ghost predicate Sound(s: System) {
    Owned(s) && OwnersCounted(s) && RowsCounted(s) && Traced(s) && RepliesHold(s)
  }

  lemma StepKeepsSound(s: System, t: Tid, c: Choice)
    requires Sound(s) && t in s.tasks
    ensures Sound(Step(s, t, c))
  {
    StepKeepsOwned(s, t, c);
    StepKeepsRowsCounted(s, t, c);
    StepKeepsOwnersCounted(s, t, c);
    StepKeepsTraced(s, t, c);
    StepKeepsReplies(s, t, c);
  }

  lemma EnterKeepsCounted(s: System, a: Action)
    requires OwnersCounted(s) && RowsCounted(s) && a.Enter?
    ensures OwnersCounted(Do(s, a)) && RowsCounted(Do(s, a))
  {
    hide OwnerCounts, RowCounts, Invocations, Retries;
    assert OwnedId(EntryTask(a.entry).pc).None?;
  }

  lemma EnterKeepsSound(s: System, a: Action)
    requires Sound(s) && a.Enter? && Enabled(s, a)
    ensures Sound(Do(s, a))
  {
    EnterKeepsOwned(s, a);
    EnterKeepsCounted(s, a);
    hide Owned, OwnersCounted, RowsCounted, Traced;
  }

  lemma ActionKeepsSound(s: System, a: Action)
    requires Sound(s) && Enabled(s, a)
    ensures Sound(Do(s, a))
  {
    hide Sound, Step;
    match a
    case Act(t, c) => StepKeepsSound(s, t, c);
    case Enter(t, entry) => EnterKeepsSound(s, a);
  }

  lemma {:induction false} RunKeepsSound(s: System, acts: seq<Action>, s': System)
    requires Sound(s) && Runs(s, acts, s')
    ensures Sound(s')
    decreases |acts|
  {
    if acts != [] {
      ActionKeepsSound(s, acts[0]);
      RunKeepsSound(Do(s, acts[0]), acts[1..], s');
    }
  }

  lemma ReachableSound(s: System)
    requires Reachable(s)
    ensures Sound(s)
  {
    var s0, acts :| Initial(s0) && Runs(s0, acts, s);
    RunKeepsSound(s0, acts, s);
  }

  predicate AboutToInvoke(s: System, id: string) {
    exists u :: u in s.tasks && s.tasks[u].pc.Invoking? && s.tasks[u].pc.job.id == id
  }

  lemma OpenRowAccounting(s: System, id: string)
    requires TasksOk(s) && OneOwner(s) && NoOrphan(s) && OwnersCounted(s) && Open(s.rows, id)
    ensures s.rows[id].attempts == Invocations(s.log, id) + if AboutToInvoke(s, id) then 1 else 0
    ensures s.rows[id].attempts <= Allowance(s.rows[id].Class(), 1 + Retries(s.log, id))
  {
    var u :| u in s.tasks && OwnedId(s.tasks[u].pc) == Some(id);
    assert PcFits(s.rows, s.tasks[u].pc);
    forall v | v in s.tasks && s.tasks[v].pc.Invoking? && s.tasks[v].pc.job.id == id
      ensures v == u
    {
      assert OwnedId(s.tasks[v].pc) == Some(id);
    }
  }

  lemma ClosedRowAccounting(s: System, id: string)
    requires TasksOk(s) && RowsCounted(s) && id in s.rows && !Open(s.rows, id)
    ensures s.rows[id].attempts == Invocations(s.log, id) && !AboutToInvoke(s, id)
    ensures s.rows[id].attempts <= Allowance(s.rows[id].Class(), 1 + Retries(s.log, id))
  {
    assert RowCounts(s.rows, id, Invocations(s.log, id), Retries(s.log, id));
    forall u | u in s.tasks && s.tasks[u].pc.Invoking?
      ensures s.tasks[u].pc.job.id != id
    {
      assert PcFits(s.rows, s.tasks[u].pc);
    }
  }

  /** A row's attempts are its executor invocations, one ahead exactly while some task
      has counted the attempt and not yet invoked; and they are bounded by the class and
      by the number of manual retries. */
  lemma AttemptAccounting(s: System, id: string)
    requires Reachable(s) && id in s.rows
    ensures s.rows[id].attempts == Invocations(s.log, id) + if AboutToInvoke(s, id) then 1 else 0
    ensures s.rows[id].attempts <= s.rows[id].Class().AttemptsAllowed() * (1 + Retries(s.log, id))
  {
    ReachableSound(s);
    hide *;
    if Open(s.rows, id) {
      OpenRowAccounting(s, id);
    } else {
      ClosedRowAccounting(s, id);
    }
  }

  /** A critical call nobody retried by hand runs at most once, parked or not. */
  lemma CriticalRunsAtMostOnce(s: System, id: string)
    requires Reachable(s) && id in s.rows && s.rows[id].Class() == Critical
    requires Retries(s.log, id) == 0
    ensures Invocations(s.log, id) <= 1
  {
    AttemptAccounting(s, id);
  }

  /** The insert picks exactly one winner per key, and a caller that lost it never
      reaches the executor, for that key or any other. */
  lemma OneWinner(s: System, id: string, t: Tid, invoked: string)
    requires Reachable(s)
    ensures Insertions(s.log, id) == if id in s.rows then 1 else 0
    ensures Lost(s.log, t) ==> Invoked(t, invoked) !in s.log
    ensures t in s.tasks && s.tasks[t].kind.Caller? && Invoked(t, invoked) in s.log ==> Inserted(t, invoked) in s.log
  {
    ReachableSound(s);
    if Lost(s.log, t) {
      assert t in s.tasks;
      LosersAreCallers(s, t);
    }
  }

  lemma {:induction false} LosersAreCallersAlong(s: System, acts: seq<Action>, s': System, t: Tid)
    requires TasksOk(s) && Owned(s) && Runs(s, acts, s')
    requires Lost(s.log, t) ==> t in s.tasks && s.tasks[t].kind.Caller?
    ensures Lost(s'.log, t) ==> t in s'.tasks && s'.tasks[t].kind.Caller?
    decreases |acts|
  {
    if acts != [] {
      var m := Do(s, acts[0]);
      ActionKeepsOwned(s, acts[0]);
      if acts[0].Act? {
        PcMoves(s, acts[0].t, s.tasks[acts[0].t].pc, s.tasks[acts[0].t].kind, acts[0].choice);
        if Lost(m.log, t) && !Lost(s.log, t) {
          assert acts[0].t == t && Fresh(s.tasks[t].pc);
        }
      }
      LosersAreCallersAlong(m, acts[1..], s', t);
    }
  }

  lemma LosersAreCallers(s: System, t: Tid)
    requires Reachable(s) && Lost(s.log, t)
    ensures t in s.tasks && s.tasks[t].kind.Caller?
  {
    var s0, acts :| Initial(s0) && Runs(s0, acts, s);
    LosersAreCallersAlong(s0, acts, s, t);
  }

  /** Two successful replies about one call never differ, and the row still holds that value. */
  lemma OkRepliesAgree(s: System, a: Event, b: Event)
    requires Reachable(s)
    requires a in s.log && a.Replied? && a.reply.Resolved? && a.reply.outcome.CallOk?
    requires b in s.log && b.Replied? && b.reply.Resolved? && b.reply.outcome.CallOk? && b.id == a.id
    ensures a.reply == b.reply
    ensures a.id in s.rows && OutcomeFor(a.id, s.rows[a.id]) == Some(a.reply)
  {
    ReachableSound(s);
  }

  ghost predicate NoRetryOf(log: seq<Event>, id: string) {
    forall e | e in log && e.Reopened? :: e.id != id
  }

  /** A call that has already parked `id` and is on its way out. */
  predicate LeavingParked(s: System, t: Tid, id: string) {
    t in s.tasks && s.tasks[t].pc.ParkingSession? && s.tasks[t].pc.job.id == id
  }

  /** From `s` on, every reply about `id` is `outcome`, and exactly the calls that were
      already leaving in `s` still say `Parked`. */
  ghost predicate OnlyReplies(s: System, log: seq<Event>, id: string, outcome: Option<Reply>) {
    forall e | e in log && e.Replied? && e.id == id ::
      && Some(e.reply) == (if LeavingParked(s, e.task, id) then Some(Parked(id, id)) else outcome)
      && (e.task in s.tasks ==> !s.tasks[e.task].pc.Done?)
  }

  function NewEvents(s: System, a: Action): seq<Event>
    requires a.Act? ==> a.t in s.tasks
  {
    if a.Enter? then []
    else match Next(s, a.t, s.tasks[a.t].pc, a.choice).event case Some(e) => [e] case None => []
  }

  /** One action while `id` is settled. */
  lemma SettledStep(s: System, a: Action, id: string)
    requires Owned(s) && Settled(s.rows, id) && Enabled(s, a)
    ensures Do(s, a).log == s.log + NewEvents(s, a)
    ensures s.rows[id].status.Succeeded? ==> NoRetryOf(NewEvents(s, a), id)
    ensures NoRetryOf(NewEvents(s, a), id) ==>
              && Settled(Do(s, a).rows, id)
              && OutcomeFor(id, Do(s, a).rows[id]) == OutcomeFor(id, s.rows[id])
              && Do(s, a).rows[id].status == s.rows[id].status
    ensures OnlyReplies(s, NewEvents(s, a), id, OutcomeFor(id, s.rows[id]))
  {
    if a.Act? {
      var pc := s.tasks[a.t].pc;
      assert PcFits(s.rows, pc);
      PcMoves(s, a.t, pc, s.tasks[a.t].kind, a.choice);
      StepKeepsSettled(s, a.t, pc, a.choice, id);
      var e := Next(s, a.t, pc, a.choice).event;
      if e.Some? && e.value.Replied? && e.value.id == id {
        SettledReplies(s, a.t, pc, a.choice, id);
      }
    }
  }

  /** While `id` is settled, calls only leave. */
  lemma LeavingStep(s: System, a: Action, id: string)
    requires TasksOk(s) && Settled(s.rows, id) && Enabled(s, a)
    ensures forall t :: LeavingParked(Do(s, a), t, id) ==> LeavingParked(s, t, id)
    ensures forall t :: LeavingParked(s, t, id) ==> LeavingParked(Do(s, a), t, id) || Do(s, a).tasks[t].pc.Done?
    ensures forall t :: t in s.tasks && s.tasks[t].pc.Done? ==> Do(s, a).tasks[t].pc.Done?
  {
    if a.Act? {
      assert PcFits(s.rows, s.tasks[a.t].pc);
    }
  }

  /** What `s'` and the events since `s` owe to a settled `id`. */
  ghost predicate StaysSettled(s: System, s': System, events: seq<Event>, id: string) {
    && Settled(s.rows, id)
    && (s.rows[id].status.Succeeded? ==> NoRetryOf(events, id))
    && (NoRetryOf(events, id) ==>
          && Settled(s'.rows, id) && OutcomeFor(id, s'.rows[id]) == OutcomeFor(id, s.rows[id])
          && OnlyReplies(s, events, id, OutcomeFor(id, s.rows[id])))
  }

  /** Splices one action in front of a run. */
  lemma SettledJoin(s: System, a: Action, s': System, tail: seq<Event>, id: string)
    requires Owned(s) && Settled(s.rows, id) && Enabled(s, a)
    requires NoRetryOf(NewEvents(s, a), id) ==> StaysSettled(Do(s, a), s', tail, id)
    ensures StaysSettled(s, s', NewEvents(s, a) + tail, id)
  {
    var events := NewEvents(s, a) + tail;
    SettledStep(s, a, id);
    LeavingStep(s, a, id);
    assert forall e :: e in events <==> e in NewEvents(s, a) || e in tail;
    if NoRetryOf(NewEvents(s, a), id) {
      assert StaysSettled(Do(s, a), s', tail, id);
    }
  }

  lemma SettledNow(s: System, id: string)
    requires Settled(s.rows, id)
    ensures StaysSettled(s, s, [], id)
  {
  }

  /** Replay stability, from any sound state on: a settled outcome is what every later
      reply says and what the row keeps, until a manual retry; a success is never retried. */
  lemma {:induction false} SettledAlong(s: System, acts: seq<Action>, s': System, id: string)
    returns (events: seq<Event>)
    requires Owned(s) && Settled(s.rows, id) && Runs(s, acts, s')
    ensures s'.log == s.log + events
    ensures StaysSettled(s, s', events, id)
    decreases |acts|
  {
    hide Owned, Step, StaysSettled, NewEvents;
    if acts == [] {
      SettledNow(s, id);
      return [];
    }
    var a, m := acts[0], Do(s, acts[0]);
    ActionKeepsOwned(s, a);
    SettledStep(s, a, id);
    var tail;
    if NoRetryOf(NewEvents(s, a), id) {
      tail := SettledAlong(m, acts[1..], s', id);
    } else {
      tail := LogGrows(m, acts[1..], s');
    }
    SettledJoin(s, a, s', tail, id);
    events := NewEvents(s, a) + tail;
    assert s'.log == s.log + (NewEvents(s, a) + tail);
  }

  lemma {:induction false} LogGrows(s: System, acts: seq<Action>, s': System) returns (events: seq<Event>)
    requires Runs(s, acts, s')
    ensures s'.log == s.log + events
    decreases |acts|
  {
    events := [];
    if acts != [] {
      var tail := LogGrows(Do(s, acts[0]), acts[1..], s');
      events := NewEvents(s, acts[0]) + tail;
    }
  }

  /** Replay stability: once a call has succeeded with `v`, a reply about it that any
      continuation produces is `v`, except from the call that had parked it and had not
      yet answered: that one, and only that one, still says `Parked`. */
  lemma ReplayStability(s: System, acts: seq<Action>, s': System, id: string, e: Event, v: Json)
    requires Reachable(s) && Runs(s, acts, s')
    requires id in s.rows && s.rows[id].status.Succeeded? && s.rows[id].result == Some(v)
    requires |s.log| <= |s'.log| && e in s'.log[|s.log|..] && e.Replied? && e.id == id
    ensures e.reply == if LeavingParked(s, e.task, id) then Parked(id, id) else Resolved(CallOk(v))
    ensures Settled(s'.rows, id) && OutcomeFor(id, s'.rows[id]) == Some(Resolved(CallOk(v)))
  {
    ReachableOwned(s);
    var events := SettledAlong(s, acts, s', id);
    assert events == s'.log[|s.log|..];
  }

  /** A failed outcome changes only through a manual retry. */
  lemma FailureStability(s: System, acts: seq<Action>, s': System, id: string)
    requires Reachable(s) && Runs(s, acts, s')
    requires id in s.rows && s.rows[id].status.Failed?
    requires |s.log| <= |s'.log| && NoRetryOf(s'.log[|s.log|..], id)
    ensures id in s'.rows && s'.rows[id].status.Failed?
    ensures s'.rows[id].failureReason == s.rows[id].failureReason && s'.rows[id].retriable == s.rows[id].retriable
  {
    ReachableOwned(s);
    var events := SettledAlong(s, acts, s', id);
    assert events == s'.log[|s.log|..];
    RunKeepsOwned(s, acts, s');
    assert Shape(s.rows[id]) && Shape(s'.rows[id]);
  }
}
