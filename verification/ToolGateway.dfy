/** The gateway's own code, statement by statement, on a table that any number of other
    tasks change at every await. One method per awaited statement says what it does to the
    table and that it is the machine's next step; the operations are made of those, and end
    in a state the machine's actions lead to. */
module Gateway {
  import opened Outcomes
  import opened Text
  import opened RetryClasses
  import opened Ledger
  import opened SessionStatus
  import opened GatewayMachine
  import opened GatewayOwnership
  import opened GatewayHistory
  import opened GatewayRuns

  /** The row of a resolved call. */
  function WithOutcome(row: Row, outcome: CallOutcome): Row {
    match outcome
    case CallOk(v) => row.(status := Succeeded, result := Some(v), failureReason := None, retriable := None)
    case CallFailed(reason, retriable) =>
      row.(status := Failed, failureReason := Some(reason), retriable := Some(retriable))
  }

  /** A row after `made` more executor invocations. */
  function Tried(row: Row, made: nat): Row {
    row.(attempts := row.attempts + made)
  }

  /** A row taken out of the dead letters. */
  function Revived(row: Row): Row {
    row.(status := Pending, failureReason := None, retriable := None, dropped := false)
  }

  /** The key a request is filed under. */
  function KeyFor(rows: Table, req: Request): string {
    match req.idemKey
    case Some(key) => key
    case None => DerivedKey(req.session, CountForSession(rows, req.session) + 1)
  }

  /** Where the `made`-th answer of the executor leads. */
  function AfterAttempt(job: Job, made: nat, execution: Execution): Pc {
    match execution
    case Returned(v) => SavingOk(job, v)
    case Raised(reason) =>
      if made < job.rc.AttemptsAllowed() then Incrementing(job, made) else SavingFailure(job, reason)
  }

  lemma AfterAttempts(job: Job)
    ensures forall n: nat, v :: AfterAttempt(job, n, Returned(v)) == SavingOk(job, v)
    ensures forall n: nat, reason :: AfterAttempt(job, n, Raised(reason))
                                  == if n < job.rc.AttemptsAllowed() then Incrementing(job, n)
                                     else SavingFailure(job, reason)
    ensures job.rc.AttemptsAllowed() >= 1
  {
  }

  /** The program counters that put a task in charge of its job's row. */
  lemma InCharge(job: Job)
    ensures OwnedId(Selecting(job)) == OwnedId(Parking(job)) == OwnedId(Reopening(job)) == Some(job.id)
    ensures OwnedId(ApprovingSession(job)) == OwnedId(Denying(job)) == OwnedId(DenyingSession(job)) == Some(job.id)
    ensures OwnedId(Dropping(job.id)) == Some(job.id)
    ensures forall n: nat ::
              && OwnedId(Incrementing(job, n)) == Some(job.id) && OwnedId(Invoking(job, n)) == Some(job.id)
              && OwnedId(Running(job, n)) == Some(job.id) && OwnedId(Deciding(job, n)) == Some(job.id)
    ensures forall approve :: OwnedId(Unparking(job, approve)) == Some(job.id)
    ensures forall reason :: OwnedId(Rejecting(job, reason)) == Some(job.id)
    ensures forall n: nat, execution :: OwnedId(AfterAttempt(job, n, execution)) == Some(job.id)
  {
  }

  lemma TriedMore(row: Row)
    ensures Tried(row, 0) == row
    ensures forall n: nat :: Tried(Tried(row, n), 1) == Tried(row, n + 1)
  {
  }

  class ToolGateway {
    const hooks: nat
    var rows: Table
    var sessions: map<string, string>
    ghost var world: System

    constructor (hooks: nat, sessions: map<string, string>)
      ensures Valid() && rows == map[] && world.tasks == map[] && this.hooks == hooks && this.sessions == sessions
    {
      this.hooks := hooks;
      this.rows, this.sessions := map[], sessions;
      world := System(hooks, map[], sessions, map[], []);
      new;
      assert Initial(world) && Runs(world, [], world);
    }

    /** The machine's view of the table is the table, in a state the machine can reach. */
    ghost predicate Valid()
      reads this
    {
      world.hooks == hooks && world.rows == rows && world.sessions == sessions && Reachable(world)
    }

    ghost predicate At(me: Tid, pc: Pc)
      reads this
    {
      me in world.tasks && world.tasks[me].pc == pc
    }

    /** A new task arrives; an operator's only if no other is at work on the call. */
    ghost method Arrive(me: Tid, entry: Entry)
      requires Valid() && Enabled(world, Enter(me, entry))
      modifies this`world
      ensures Valid() && At(me, EntryTask(entry).pc)
      ensures world == Do(old(world), Enter(me, entry)) && Leads(old(world), world)
    {
      OneActionLeads(world, Enter(me, entry));
      LeadsKeepsReachable(world, Do(world, Enter(me, entry)));
      world := Do(world, Enter(me, entry));
    }

    /** An await: other tasks take any steps they like. */
    method Yield(ghost me: Tid)
      requires Valid() && me in world.tasks
      modifies this
      ensures Valid() && OthersRan(old(world), world, me)
    {
      assert OthersOnly([], me) && Runs(world, [], world);
    }

    /** After an await `me` is where it was. */
    method Pause(ghost me: Tid, ghost pc: Pc)
      requires Valid() && At(me, pc)
      modifies this
      ensures Valid() && Leads(old(world), world) && At(me, pc)
    {
      ghost var before := world;
      Yield(me);
      InterferenceIsHarmless(before, world, me);
    }

    /** Likewise with a call in `me`'s charge: its row and its invocations are as they were. */
    method PauseWith(ghost me: Tid, ghost pc: Pc, ghost id: string)
      requires Valid() && At(me, pc) && OwnedId(pc) == Some(id)
      modifies this
      ensures Valid() && Leads(old(world), world) && At(me, pc)
      ensures id in old(rows) && id in rows && rows[id] == old(rows[id])
      ensures Invocations(world.log, id) == Invocations(old(world.log), id)
    {
      ghost var before := world;
      Yield(me);
      InterferenceIsHarmless(before, world, me);
    }

    /** Records that the statement just executed was `me`'s next step. */
    ghost method Commit(me: Tid, c: Choice)
      requires me in world.tasks && Reachable(world) && world.hooks == hooks
      requires rows == Next(world, me, world.tasks[me].pc, c).rows
      requires sessions == Next(world, me, world.tasks[me].pc, c).sessions
      modifies this`world
      ensures Valid() && world == Step(old(world), me, c) && Leads(old(world), world)
      ensures At(me, Next(old(world), me, old(world).tasks[me].pc, c).pc)
    {
      OneActionLeads(world, Act(me, c));
      LeadsKeepsReachable(world, Step(world, me, c));
      world := Step(world, me, c);
    }

    /** A call in somebody's hands is in the table. */
    lemma HeldIsThere(me: Tid, pc: Pc, id: string)
      requires Valid() && At(me, pc) && OwnedId(pc) == Some(id)
      ensures id in rows && PcFits(rows, pc)
    {
      ReachableOwned(world);
    }

    // ---- the machine's theorems, said of this object ----

    /** Whoever got a value for a call got this one, and the table still holds it. */
    lemma AnswersAgree(t: Tid, u: Tid, id: string, v: Json, w: Json)
      requires Valid()
      requires Replied(t, id, Resolved(CallOk(v))) in world.log && Replied(u, id, Resolved(CallOk(w))) in world.log
      ensures v == w && id in rows && OutcomeFor(id, rows[id]) == Some(Resolved(CallOk(v)))
    {
      OkRepliesAgree(world, Replied(t, id, Resolved(CallOk(v))), Replied(u, id, Resolved(CallOk(w))));
    }

    /** Two tasks are never in the executor for one call. */
    lemma NeverTwiceAtOnce(tool: string, key: string, t: Tid, u: Tid)
      requires Valid() && t in world.tasks && u in world.tasks
      requires Executing(world.tasks[t].pc, CallIdFor(tool, key)) && Executing(world.tasks[u].pc, CallIdFor(tool, key))
      ensures t == u && Open(rows, CallIdFor(tool, key))
    {
      MutualExclusion(world, tool, key, t, u);
    }

    /** The attempts in the table are what the executor has been asked, and within budget. */
    lemma AttemptsAreCounted(id: string)
      requires Valid() && id in rows
      ensures rows[id].attempts == Invocations(world.log, id) + if AboutToInvoke(world, id) then 1 else 0
      ensures rows[id].attempts <= rows[id].Class().AttemptsAllowed() * (1 + Retries(world.log, id))
    {
      AttemptAccounting(world, id);
    }

    // ---- the statements, one step each ----

    ghost method Validate(me: Tid, req: Request, schemaOk: bool)
      requires Valid() && At(me, Validating(req))
      modifies this`world
      ensures Valid() && Leads(old(world), world) && world.log == old(world.log)
      ensures At(me, if !schemaOk then Done(Failure(InvalidArgs))
                     else if req.idemKey.Some? then Inserting(req, req.idemKey.value) else Counting(req))
    {
      Commit(me, Choice(schemaOk, Allow, Raised("")));
    }

    method DeriveKey(ghost me: Tid, req: Request) returns (key: string)
      requires Valid() && At(me, Counting(req))
      modifies this`world
      ensures Valid() && Leads(old(world), world) && world.log == old(world.log) && At(me, Inserting(req, key))
      ensures key == DerivedKey(req.session, CountForSession(rows, req.session) + 1)
    {
      key := DerivedKey(req.session, CountForSession(rows, req.session) + 1);
      Commit(me, SILENT);
    }

    /** The arbiter: the row is new, or it is another's, or the id is. */
    method BeginToolCall(ghost me: Tid, req: Request, key: string) returns (insertion: Insertion)
      requires Valid() && At(me, Inserting(req, key))
      modifies this
      ensures Valid() && Leads(old(world), world) && sessions == old(sessions)
      ensures (rows, insertion) == Insert(old(rows), req.tool, key, req.session, req.rc, req.args)
      ensures var id := CallIdFor(req.tool, key);
              match insertion
              case Won =>
                && At(me, Selecting(Job(id, req.session, req.rc))) && world.log == old(world.log) + [Inserted(me, id)]
                && id in rows && rows[id] == FreshRow(req.tool, key, req.session, req.rc, req.args)
              case Lost => At(me, Replaying(id)) && world.log == old(world.log) + [LostInsert(me, id)]
              case Clash => At(me, Done(Failure(StorageFailure))) && world.log == old(world.log)
    {
      hide Reachable, Leads;
      var (inserted, outcome) := Insert(rows, req.tool, key, req.session, req.rc, req.args);
      insertion := outcome;
      rows := inserted;
      Commit(me, SILENT);
    }

    ghost method ReadBack(me: Tid, job: Job)
      requires Valid() && At(me, Selecting(job))
      modifies this`world
      ensures Valid() && Leads(old(world), world) && At(me, Deciding(job, 0)) && world.log == old(world.log)
    {
      Commit(me, SILENT);
    }

    /** The loser's SELECT: the outcome the row stands for, or None to wait for one. */
    method Replay(ghost me: Tid, id: string) returns (reply: Option<Reply>)
      requires Valid() && At(me, Replaying(id))
      modifies this`world
      ensures Valid() && Leads(old(world), world)
      ensures reply == if id in rows then OutcomeFor(id, rows[id]) else Some(Failure(StorageFailure))
      ensures At(me, if reply.Some? then Done(reply.value) else Waiting(id))
      ensures id in rows && reply.Some? ==> Replied(me, id, reply.value) in world.log
    {
      hide Reachable, Leads;
      reply := if id in rows then OutcomeFor(id, rows[id]) else Some(Failure(StorageFailure));
      Commit(me, SILENT);
    }

    /** One poll, which only reads. */
    method Poll(ghost me: Tid, id: string) returns (reply: Option<Reply>)
      requires Valid() && At(me, Waiting(id))
      modifies this`world
      ensures Valid() && Leads(old(world), world)
      ensures reply == if id in rows then OutcomeFor(id, rows[id]) else Some(Failure(NotFound))
      ensures At(me, if reply.Some? then Done(reply.value) else Waiting(id))
      ensures id in rows && reply.Some? ==> Replied(me, id, reply.value) in world.log
    {
      hide Reachable, Leads;
      reply := if id in rows then OutcomeFor(id, rows[id]) else Some(Failure(NotFound));
      Commit(me, SILENT);
    }

    /** One policy hook; any decision is possible. */
    method Evaluate(ghost me: Tid, job: Job, ghost hook: nat) returns (decision: Decision)
      requires Valid() && At(me, Deciding(job, hook)) && hook < hooks
      modifies this`world
      ensures Valid() && Leads(old(world), world) && world.log == old(world.log)
      ensures At(me, match decision
                     case Allow => Deciding(job, hook + 1)
                     case RequireApproval => Parking(job)
                     case Reject(reason) => Rejecting(job, reason))
    {
      decision := *;
      Commit(me, Choice(true, decision, Raised("")));
    }

    ghost method PassHooks(me: Tid, job: Job)
      requires Valid() && At(me, Deciding(job, hooks))
      modifies this`world
      ensures Valid() && Leads(old(world), world) && At(me, Incrementing(job, 0)) && world.log == old(world.log)
    {
      Commit(me, SILENT);
    }

    method RejectCall(ghost me: Tid, job: Job, reason: string)
      requires Valid() && At(me, Rejecting(job, reason))
      modifies this
      ensures Valid() && Leads(old(world), world) && sessions == old(sessions)
      ensures rows == ResolveFailed(old(rows), job.id, reason, false)
      ensures job.id in old(rows) ==>
                job.id in rows && rows[job.id] == WithOutcome(old(rows[job.id]), CallFailed(reason, false))
      ensures var reply := Resolved(CallFailed(reason, false));
              At(me, Done(reply)) && world.log == old(world.log) + [Replied(me, job.id, reply)]
    {
      hide Reachable, Leads;
      rows := ResolveFailed(rows, job.id, reason, false);
      Commit(me, SILENT);
    }

    method SetParked(ghost me: Tid, job: Job)
      requires Valid() && At(me, Parking(job))
      modifies this
      ensures Valid() && Leads(old(world), world) && sessions == old(sessions)
      ensures rows == SetAwaiting(old(rows), job.id, job.id)
      ensures At(me, ParkingSession(job)) && world.log == old(world.log)
    {
      hide Reachable, Leads;
      rows := SetAwaiting(rows, job.id, job.id);
      Commit(me, SILENT);
    }

    method SuspendSession(ghost me: Tid, job: Job)
      requires Valid() && At(me, ParkingSession(job))
      modifies this
      ensures Valid() && Leads(old(world), world) && rows == old(rows)
      ensures sessions == SetStatus(old(sessions), job.session, "awaiting_approval")
      ensures var reply := Parked(job.id, job.id);
              At(me, Done(reply)) && world.log == old(world.log) + [Replied(me, job.id, reply)]
    {
      hide Reachable, Leads;
      sessions := SetStatus(sessions, job.session, "awaiting_approval");
      Commit(me, SILENT);
    }

    method IncrementAttempt(ghost me: Tid, job: Job, ghost made: nat)
      requires Valid() && At(me, Incrementing(job, made))
      modifies this
      ensures Valid() && Leads(old(world), world) && sessions == old(sessions)
      ensures rows == Increment(old(rows), job.id)
      ensures job.id in old(rows) ==> job.id in rows && rows[job.id] == Tried(old(rows[job.id]), 1)
      ensures At(me, Invoking(job, made + 1)) && world.log == old(world.log)
    {
      hide Reachable, Leads;
      rows := Increment(rows, job.id);
      Commit(me, SILENT);
    }

    /** From here on the executor runs. */
    ghost method StartExecutor(me: Tid, job: Job, made: nat)
      requires Valid() && At(me, Invoking(job, made))
      modifies this`world
      ensures Valid() && Leads(old(world), world)
      ensures At(me, Running(job, made)) && world.log == old(world.log) + [Invoked(me, job.id)]
    {
      Commit(me, SILENT);
    }

    /** The executor is outside the model: any answer is possible. */
    method FinishExecutor(ghost me: Tid, job: Job, ghost made: nat) returns (execution: Execution)
      requires Valid() && At(me, Running(job, made))
      modifies this`world
      ensures Valid() && Leads(old(world), world) && world.log == old(world.log)
      ensures At(me, AfterAttempt(job, made, execution))
    {
      execution := *;
      Commit(me, Choice(true, Allow, execution));
    }

    method SaveSucceeded(ghost me: Tid, job: Job, v: Json)
      requires Valid() && At(me, SavingOk(job, v))
      modifies this
      ensures Valid() && Leads(old(world), world) && sessions == old(sessions)
      ensures rows == ResolveSucceeded(old(rows), job.id, v)
      ensures job.id in old(rows) ==> job.id in rows && rows[job.id] == WithOutcome(old(rows[job.id]), CallOk(v))
      ensures var reply := Resolved(CallOk(v));
              At(me, Done(reply)) && world.log == old(world.log) + [Replied(me, job.id, reply)]
    {
      hide Reachable, Leads;
      rows := ResolveSucceeded(rows, job.id, v);
      Commit(me, SILENT);
    }

    method SaveFailed(ghost me: Tid, job: Job, reason: string, retriable: bool)
      requires Valid() && At(me, SavingFailure(job, reason)) && retriable == (job.rc != Critical)
      modifies this
      ensures Valid() && Leads(old(world), world) && sessions == old(sessions)
      ensures rows == ResolveFailed(old(rows), job.id, reason, retriable)
      ensures job.id in old(rows) ==>
                job.id in rows && rows[job.id] == WithOutcome(old(rows[job.id]), CallFailed(reason, retriable))
      ensures var reply := Resolved(CallFailed(reason, retriable));
              At(me, Done(reply)) && world.log == old(world.log) + [Replied(me, job.id, reply)]
    {
      hide Reachable, Leads;
      rows := ResolveFailed(rows, job.id, reason, retriable);
      Commit(me, SILENT);
    }

    /** The parked call's job, or why the operator stops here; only reads. */
    method ParkedRow(ghost me: Tid, id: string, approve: bool) returns (job: Result<Job, GatewayError>)
      requires Valid() && At(me, FindingParked(id, approve))
      modifies this`world
      ensures Valid() && Leads(old(world), world) && world.log == old(world.log)
      ensures job == if id !in rows then Err(NotFound)
                     else if rows[id].status.Pending? && rows[id].awaiting then Ok(JobOf(id, rows[id]))
                     else Err(NotAwaitingApproval)
      ensures job.Ok? ==> job.value.id == id && job.value.rc == rows[id].Class()
      ensures At(me, match job case Ok(j) => Unparking(j, approve) case Err(e) => Done(Failure(e)))
    {
      hide Reachable, Leads;
      job := if id !in rows then Err(NotFound)
             else if !rows[id].status.Pending? || !rows[id].awaiting then Err(NotAwaitingApproval)
             else Ok(JobOf(id, rows[id]));
      Commit(me, SILENT);
    }

    method ClearApproval(ghost me: Tid, job: Job, approve: bool)
      requires Valid() && At(me, Unparking(job, approve))
      modifies this
      ensures Valid() && Leads(old(world), world) && sessions == old(sessions)
      ensures rows == ClearAwaiting(old(rows), job.id)
      ensures job.id in old(rows) ==> job.id in rows && rows[job.id] == old(rows[job.id]).(awaiting := false)
      ensures At(me, if approve then ApprovingSession(job) else Denying(job)) && world.log == old(world.log)
    {
      hide Reachable, Leads;
      rows := ClearAwaiting(rows, job.id);
      Commit(me, SILENT);
    }

    method ResumeApproved(ghost me: Tid, job: Job)
      requires Valid() && At(me, ApprovingSession(job))
      modifies this
      ensures Valid() && Leads(old(world), world) && rows == old(rows)
      ensures sessions == SetStatus(old(sessions), job.session, "running")
      ensures At(me, Incrementing(job, 0)) && world.log == old(world.log)
    {
      hide Reachable, Leads;
      sessions := SetStatus(sessions, job.session, "running");
      Commit(me, SILENT);
    }

    method FailDenied(ghost me: Tid, job: Job)
      requires Valid() && At(me, Denying(job))
      modifies this
      ensures Valid() && Leads(old(world), world) && sessions == old(sessions)
      ensures rows == ResolveFailed(old(rows), job.id, "denied", false)
      ensures job.id in old(rows) ==>
                job.id in rows && rows[job.id] == WithOutcome(old(rows[job.id]), CallFailed("denied", false))
      ensures At(me, DenyingSession(job)) && world.log == old(world.log)
    {
      hide Reachable, Leads;
      rows := ResolveFailed(rows, job.id, "denied", false);
      Commit(me, SILENT);
    }

    method ResumeDenied(ghost me: Tid, job: Job)
      requires Valid() && At(me, DenyingSession(job))
      modifies this
      ensures Valid() && Leads(old(world), world) && rows == old(rows)
      ensures sessions == SetStatus(old(sessions), job.session, "running")
      ensures var reply := Resolved(CallFailed("denied", false));
              At(me, Done(reply)) && world.log == old(world.log) + [Replied(me, job.id, reply)]
    {
      hide Reachable, Leads;
      sessions := SetStatus(sessions, job.session, "running");
      Commit(me, SILENT);
    }

    /** The dead letter's job, or why the operator stops here; only reads. */
    method DeadLetterRow(ghost me: Tid, id: string, retry: bool) returns (job: Result<Job, GatewayError>)
      requires Valid() && At(me, FindingDead(id, retry))
      modifies this`world
      ensures Valid() && Leads(old(world), world) && world.log == old(world.log)
      ensures job == if id !in rows then Err(NotFound)
                     else if rows[id].status.Failed? && !rows[id].dropped then Ok(JobOf(id, rows[id]))
                     else Err(NotADeadLetter)
      ensures job.Ok? ==> job.value.id == id && job.value.rc == rows[id].Class()
      ensures At(me, match job
                     case Ok(j) => if retry then Reopening(j) else Dropping(id)
                     case Err(e) => Done(Failure(e)))
    {
      hide Reachable, Leads;
      job := if id !in rows then Err(NotFound)
             else if !rows[id].status.Failed? || rows[id].dropped then Err(NotADeadLetter)
             else Ok(JobOf(id, rows[id]));
      Commit(me, SILENT);
    }

    method ReopenCall(ghost me: Tid, job: Job)
      requires Valid() && At(me, Reopening(job))
      modifies this
      ensures Valid() && Leads(old(world), world) && sessions == old(sessions)
      ensures rows == Reopen(old(rows), job.id)
      ensures job.id in old(rows) ==> job.id in rows && rows[job.id] == Revived(old(rows[job.id]))
      ensures At(me, Incrementing(job, 0)) && world.log == old(world.log) + [Reopened(me, job.id)]
    {
      hide Reachable, Leads;
      rows := Reopen(rows, job.id);
      Commit(me, SILENT);
    }

    method DropCall(ghost me: Tid, id: string)
      requires Valid() && At(me, Dropping(id))
      modifies this
      ensures Valid() && Leads(old(world), world) && sessions == old(sessions)
      ensures rows == SetDropped(old(rows), id)
      ensures id in old(rows) ==> id in rows && rows[id] == old(rows[id]).(dropped := true)
      ensures At(me, Done(Dropped)) && world.log == old(world.log)
    {
      hide Reachable, Leads;
      rows := SetDropped(rows, id);
      Commit(me, SILENT);
    }

    // ---- the gateway's operations ----

    /** What a call promises about the row it won, when it ends resolved: it is the inserted
        row after `made` invocations, with the reply's outcome. */
    ghost predicate WonAndResolved(req: Request, key: string, made: nat, reply: Reply)
      reads this
    {
      var id := CallIdFor(req.tool, key);
      && reply.Resolved? && id in rows
      && rows[id] == WithOutcome(Tried(FreshRow(req.tool, key, req.session, req.rc, req.args), made), reply.outcome)
      && made <= req.rc.AttemptsAllowed()
    }

    /** A tool call. `insertion` is None if the arguments are refused, and otherwise what the
        arbiter said; None as a reply means still waiting when the polls ran out. */
    method Call(ghost me: Tid, req: Request, schemaOk: bool, polls: nat)
      returns (reply: Option<Reply>, ghost insertion: Option<Insertion>, ghost made: nat)
      requires Valid() && Enabled(world, Enter(me, EnterCall(req)))
      modifies this
      ensures Valid() && Leads(old(world), world)
      ensures reply.Some? ==> At(me, Done(reply.value))
      ensures !schemaOk ==> insertion == None && reply == Some(Failure(InvalidArgs))
                            && rows == old(rows) && sessions == old(sessions)
      ensures var key := KeyFor(old(rows), req); var id := CallIdFor(req.tool, key);
              schemaOk ==>
                match insertion
                case None => false
                case Some(Clash) => reply == Some(Failure(StorageFailure))
                case Some(Lost) =>
                  && LostInsert(me, id) in world.log
                  && (if reply.None? then At(me, Waiting(id))
                      else if id in rows
                      then OutcomeFor(id, rows[id]) == reply && Replied(me, id, reply.value) in world.log
                      else reply.value.Failure?)
                case Some(Won) =>
                  && Inserted(me, id) in world.log
                  && reply.Some? && Replied(me, id, reply.value) in world.log
                  && (WonAndResolved(req, key, made, reply.value) || reply.value == Parked(id, id))
    {
      LeadsChains();
      made := 0;
      insertion := None;
      Arrive(me, EnterCall(req));
      assert At(me, Validating(req));
      hide Reachable, Leads, Next, WonAndResolved, Insert, OutcomeFor, Enabled, DerivedKey, CountForSession, CallIdFor;
      Validate(me, req, schemaOk);
      if !schemaOk {
        return Some(Failure(InvalidArgs)), None, 0;
      }
      var key;
      match req.idemKey {
        case Some(k) => key := k;
        case None => key := DeriveKey(me, req);
      }
      assert key == KeyFor(old(rows), req);
      Pause(me, Inserting(req, key));
      var r, w, m := CallWithKey(me, req, key, polls);
      return r, Some(w), m;
    }

    lemma WinnerResolved(req: Request, key: string, made: nat, reply: Reply)
      requires var id := CallIdFor(req.tool, key);
               reply.Resolved? ==>
                 && id in rows && made <= req.rc.AttemptsAllowed()
                 && var first := FreshRow(req.tool, key, req.session, req.rc, req.args);
                    rows[id] == WithOutcome(Tried(first, made), reply.outcome)
      ensures reply.Resolved? ==> WonAndResolved(req, key, made, reply)
    {
    }

    method CallWithKey(ghost me: Tid, req: Request, key: string, polls: nat)
      returns (reply: Option<Reply>, ghost insertion: Insertion, ghost made: nat)
      requires Valid() && At(me, Inserting(req, key))
      modifies this
      ensures Valid() && Leads(old(world), world)
      ensures reply.Some? ==> At(me, Done(reply.value))
      ensures insertion == Insert(old(rows), req.tool, key, req.session, req.rc, req.args).1
      ensures var id := CallIdFor(req.tool, key);
              match insertion
              case Clash => reply == Some(Failure(StorageFailure))
              case Lost =>
                && LostInsert(me, id) in world.log
                && (if reply.None? then At(me, Waiting(id))
                    else if id in rows
                    then OutcomeFor(id, rows[id]) == reply && Replied(me, id, reply.value) in world.log
                    else reply.value.Failure?)
              case Won =>
                && Inserted(me, id) in world.log
                && reply.Some? && Replied(me, id, reply.value) in world.log
                && (WonAndResolved(req, key, made, reply.value) || reply.value == Parked(id, id))
    {
      hide *;
      LeadsChains();
      made := 0;
      var id := CallIdFor(req.tool, key);
      var outcome := BeginToolCall(me, req, key);
      insertion := outcome;
      ghost var inserted := world;
      match outcome {
        case Clash => reply := Some(Failure(StorageFailure));
        case Lost =>
          assert LostInsert(me, id) in inserted.log;
          Pause(me, Replaying(id));
          reply := OutcomeForExistingRow(me, id, polls);
          LeadsKeepsLog(inserted, world);
        case Won =>
          assert Inserted(me, id) in inserted.log && rows[id] == FreshRow(req.tool, key, req.session, req.rc, req.args);
          InCharge(Job(id, req.session, req.rc));
          PauseWith(me, Selecting(Job(id, req.session, req.rc)), id);
          var answer, decisions, m := Admit(me, Job(id, req.session, req.rc));
          made := m;
          reply := Some(answer);
          TriedMore(FreshRow(req.tool, key, req.session, req.rc, req.args));
          WinnerResolved(req, key, made, answer);
          LeadsKeepsLog(inserted, world);
      }
    }

    /** The loser's path: replay the winner's outcome or wait for it. */
    method OutcomeForExistingRow(ghost me: Tid, id: string, polls: nat) returns (reply: Option<Reply>)
      requires Valid() && At(me, Replaying(id))
      modifies this
      ensures Valid() && Leads(old(world), world)
      ensures if reply.None? then At(me, Waiting(id))
              else At(me, Done(reply.value))
                   && if id in rows then OutcomeFor(id, rows[id]) == reply && Replied(me, id, reply.value) in world.log
                      else reply.value.Failure?
    {
      hide *;
      LeadsChains();
      reply := Replay(me, id);
      if reply.None? {
        Pause(me, Waiting(id));
        reply := PollFor(me, id, polls);
      }
    }

    /** Polls the row until it settles or parks; None when `polls` ran out first. */
    method PollFor(ghost me: Tid, id: string, polls: nat) returns (reply: Option<Reply>)
      requires Valid() && At(me, Waiting(id))
      modifies this
      ensures Valid() && Leads(old(world), world)
      ensures if reply.None? then At(me, Waiting(id))
              else At(me, Done(reply.value))
                   && if id in rows then OutcomeFor(id, rows[id]) == reply && Replied(me, id, reply.value) in world.log
                      else reply == Some(Failure(NotFound))
    {
      hide *;
      LeadsChains();
      for n := 0 to polls
        invariant Valid() && Leads(old(world), world) && At(me, Waiting(id))
      {
        reply := Poll(me, id);
        if reply.Some? {
          return;
        }
        Pause(me, Waiting(id));
      }
      reply := None;
    }

    /** Waiting on a call one did not make. */
    method WaitForResolution(ghost me: Tid, id: string, polls: nat) returns (reply: Option<Reply>)
      requires Valid() && Enabled(world, Enter(me, EnterWait(id)))
      modifies this
      ensures Valid() && Leads(old(world), world)
      ensures if reply.None? then At(me, Waiting(id))
              else At(me, Done(reply.value))
                   && if id in rows then OutcomeFor(id, rows[id]) == reply && Replied(me, id, reply.value) in world.log
                      else reply == Some(Failure(NotFound))
    {
      LeadsChains();
      Arrive(me, EnterWait(id));
      assert At(me, Waiting(id));
      hide *;
      reply := PollFor(me, id, polls);
    }

    /** The winner's path: policy hooks in order, the first that does not allow decides, and
        the executor runs only if all allow. */
    method Admit(ghost me: Tid, job: Job)
      returns (reply: Reply, ghost decisions: seq<Decision>, ghost made: nat)
      requires Valid() && At(me, Selecting(job))
      modifies this
      ensures Valid() && Leads(old(world), world) && At(me, Done(reply)) && Replied(me, job.id, reply) in world.log
      ensures |decisions| <= hooks && forall i | 0 <= i < |decisions| - 1 :: decisions[i] == Allow
      ensures job.id in old(rows)
      ensures if |decisions| == 0 || decisions[|decisions| - 1] == Allow then
                && |decisions| == hooks && reply.Resolved? && 1 <= made <= job.rc.AttemptsAllowed()
                && job.id in rows
                && rows[job.id] == WithOutcome(Tried(old(rows[job.id]), made), reply.outcome)
              else match decisions[|decisions| - 1]
                case Reject(reason) =>
                  && made == 0 && reply == Resolved(CallFailed(reason, false)) && job.id in rows
                  && rows[job.id] == WithOutcome(old(rows[job.id]), CallFailed(reason, false))
                case _ => made == 0 && reply == Parked(job.id, job.id)
    {
      hide *;
      LeadsChains();
      decisions, made := [], 0;
      InCharge(job);
      HeldIsThere(me, Selecting(job), job.id);
      ReadBack(me, job);
      PauseWith(me, Deciding(job, 0), job.id);
      for hook := 0 to hooks
        invariant Valid() && Leads(old(world), world) && At(me, Deciding(job, hook))
        invariant job.id in rows && rows[job.id] == old(rows[job.id])
        invariant |decisions| == hook && forall i | 0 <= i < hook :: decisions[i] == Allow
      {
        var decision := Evaluate(me, job, hook);
        decisions := decisions + [decision];
        match decision {
          case Allow =>
            PauseWith(me, Deciding(job, hook + 1), job.id);
          case Reject(reason) =>
            PauseWith(me, Rejecting(job, reason), job.id);
            RejectCall(me, job, reason);
            return Resolved(CallFailed(reason, false)), decisions, 0;
          case RequireApproval =>
            PauseWith(me, Parking(job), job.id);
            SetParked(me, job);
            Pause(me, ParkingSession(job));
            SuspendSession(me, job);
            return Parked(job.id, job.id), decisions, 0;
        }
      }
      PassHooks(me, job);
      var r, m := ExecuteAndResolve(me, job);
      return r, decisions, m;
    }

    /** Runs the executor within the class's budget and records the terminal outcome. The row
        ends as it began but for the attempts made and the outcome replied. */
    method ExecuteAndResolve(ghost me: Tid, job: Job) returns (reply: Reply, ghost made: nat)
      requires Valid() && At(me, Incrementing(job, 0))
      modifies this
      ensures Valid() && Leads(old(world), world) && At(me, Done(reply)) && Replied(me, job.id, reply) in world.log
      ensures reply.Resolved? && 1 <= made <= job.rc.AttemptsAllowed()
      ensures job.id in old(rows) && job.id in rows
      ensures rows[job.id] == WithOutcome(Tried(old(rows[job.id]), made), reply.outcome)
      ensures Invocations(world.log, job.id) == Invocations(old(world.log), job.id) + made
      ensures reply.outcome.CallFailed? ==>
                made == job.rc.AttemptsAllowed() && reply.outcome.retriable == (job.rc != Critical)
    {
      hide *;
      LeadsChains();
      InCharge(job);
      HeldIsThere(me, Incrementing(job, 0), job.id);
      TriedMore(rows[job.id]);
      AfterAttempts(job);
      var lastReason := "";
      var allowed := job.rc.AttemptsAllowed();
      for n := 0 to allowed
        invariant Valid() && Leads(old(world), world)
        invariant At(me, if n < allowed then Incrementing(job, n) else SavingFailure(job, lastReason))
        invariant job.id in rows && rows[job.id] == Tried(old(rows[job.id]), n)
        invariant Invocations(world.log, job.id) == Invocations(old(world.log), job.id) + n
      {
        var execution := Attempt(me, job, n);
        match execution {
          case Returned(v) =>
            CountsOfAppend(world.log, Replied(me, job.id, Resolved(CallOk(v))), job.id);
            SaveSucceeded(me, job, v);
            return Resolved(CallOk(v)), n + 1;
          case Raised(reason) =>
            lastReason := reason;
        }
      }
      var retriable := job.rc != Critical;
      CountsOfAppend(world.log, Replied(me, job.id, Resolved(CallFailed(lastReason, retriable))), job.id);
      SaveFailed(me, job, lastReason, retriable);
      return Resolved(CallFailed(lastReason, retriable)), allowed;
    }

    /** One counted attempt and its invocation. */
    method Attempt(ghost me: Tid, job: Job, ghost n: nat) returns (execution: Execution)
      requires Valid() && At(me, Incrementing(job, n)) && job.id in rows
      modifies this
      ensures Valid() && Leads(old(world), world)
      ensures At(me, AfterAttempt(job, n + 1, execution))
      ensures job.id in rows && rows[job.id] == Tried(old(rows[job.id]), 1)
      ensures Invocations(world.log, job.id) == Invocations(old(world.log), job.id) + 1
    {
      hide *;
      LeadsChains();
      InCharge(job);
      IncrementAttempt(me, job, n);
      PauseWith(me, Invoking(job, n + 1), job.id);
      ghost var before := world.log;
      StartExecutor(me, job, n + 1);
      CountsOfAppend(before, Invoked(me, job.id), job.id);
      PauseWith(me, Running(job, n + 1), job.id);
      execution := FinishExecutor(me, job, n + 1);
      PauseWith(me, AfterAttempt(job, n + 1, execution), job.id);
    }

    method Approve(ghost me: Tid, id: string) returns (reply: Reply, ghost made: nat)
      requires Valid() && Enabled(world, Enter(me, EnterParked(id, true)))
      modifies this
      ensures Valid() && Leads(old(world), world) && At(me, Done(reply))
      ensures if id !in old(rows) then reply == Failure(NotFound)
              else if !(old(rows[id]).status.Pending? && old(rows[id]).awaiting)
              then reply == Failure(NotAwaitingApproval)
              else
                && reply.Resolved? && Replied(me, id, reply) in world.log && id in rows
                && 1 <= made <= old(rows[id]).Class().AttemptsAllowed()
                && rows[id] == WithOutcome(Tried(old(rows[id]).(awaiting := false), made), reply.outcome)
    {
      LeadsChains();
      made := 0;
      Arrive(me, EnterParked(id, true));
      assert At(me, FindingParked(id, true));
      hide *;
      var job := ParkedRow(me, id, true);
      if job.Err? {
        return Failure(job.error), 0;
      }
      InCharge(job.value);
      PauseWith(me, Unparking(job.value, true), id);
      ClearApproval(me, job.value, true);
      PauseWith(me, ApprovingSession(job.value), id);
      ResumeApproved(me, job.value);
      PauseWith(me, Incrementing(job.value, 0), id);
      var r, m := ExecuteAndResolve(me, job.value);
      return r, m;
    }

    method Deny(ghost me: Tid, id: string) returns (reply: Reply)
      requires Valid() && Enabled(world, Enter(me, EnterParked(id, false)))
      modifies this
      ensures Valid() && Leads(old(world), world) && At(me, Done(reply))
      ensures if id !in old(rows) then reply == Failure(NotFound)
              else if !(old(rows[id]).status.Pending? && old(rows[id]).awaiting)
              then reply == Failure(NotAwaitingApproval)
              else
                && reply == Resolved(CallFailed("denied", false)) && Replied(me, id, reply) in world.log && id in rows
                && rows[id] == WithOutcome(old(rows[id]).(awaiting := false), reply.outcome)
    {
      LeadsChains();
      Arrive(me, EnterParked(id, false));
      assert At(me, FindingParked(id, false));
      hide *;
      var job := ParkedRow(me, id, false);
      if job.Err? {
        return Failure(job.error);
      }
      InCharge(job.value);
      PauseWith(me, Unparking(job.value, false), id);
      ClearApproval(me, job.value, false);
      PauseWith(me, Denying(job.value), id);
      FailDenied(me, job.value);
      PauseWith(me, DenyingSession(job.value), id);
      ResumeDenied(me, job.value);
      reply := Resolved(CallFailed("denied", false));
    }

    method DlqRetry(ghost me: Tid, id: string) returns (reply: Reply, ghost made: nat)
      requires Valid() && Enabled(world, Enter(me, EnterDead(id, true)))
      modifies this
      ensures Valid() && Leads(old(world), world) && At(me, Done(reply))
      ensures if id !in old(rows) then reply == Failure(NotFound)
              else if !(old(rows[id]).status.Failed? && !old(rows[id]).dropped) then reply == Failure(NotADeadLetter)
              else
                && reply.Resolved? && Replied(me, id, reply) in world.log && id in rows
                && Reopened(me, id) in world.log
                && 1 <= made <= old(rows[id]).Class().AttemptsAllowed()
                && rows[id] == WithOutcome(Tried(Revived(old(rows[id])), made), reply.outcome)
    {
      LeadsChains();
      made := 0;
      Arrive(me, EnterDead(id, true));
      assert At(me, FindingDead(id, true));
      hide *;
      var job := DeadLetterRow(me, id, true);
      if job.Err? {
        return Failure(job.error), 0;
      }
      InCharge(job.value);
      PauseWith(me, Reopening(job.value), id);
      ReopenCall(me, job.value);
      ghost var revived := world;
      assert Reopened(me, id) in revived.log;
      PauseWith(me, Incrementing(job.value, 0), id);
      var r, m := ExecuteAndResolve(me, job.value);
      LeadsKeepsLog(revived, world);
      return r, m;
    }

    method DlqDrop(ghost me: Tid, id: string) returns (reply: Reply)
      requires Valid() && Enabled(world, Enter(me, EnterDead(id, false)))
      modifies this
      ensures Valid() && Leads(old(world), world) && At(me, Done(reply))
      ensures if id !in old(rows) then reply == Failure(NotFound)
              else if !(old(rows[id]).status.Failed? && !old(rows[id]).dropped) then reply == Failure(NotADeadLetter)
              else reply == Dropped && id in rows && rows[id] == old(rows[id]).(dropped := true)
    {
      LeadsChains();
      Arrive(me, EnterDead(id, false));
      assert At(me, FindingDead(id, false));
      hide *;
      var job := DeadLetterRow(me, id, false);
      if job.Err? {
        return Failure(job.error);
      }
      InCharge(job.value);
      PauseWith(me, Dropping(id), id);
      DropCall(me, id);
      reply := Dropped;
    }
  }
}
