/** The tool gateway as a step machine. Every task holds a program counter; one
    step is one awaited operation (a SQL statement, a policy hook, an executor
    call). Steps of different tasks interleave freely. */
module GatewayMachine {
  import opened Outcomes
  import opened Text
  import opened RetryClasses
  import opened Ledger
  import opened SessionStatus

  type Tid = nat

  datatype CallOutcome = CallOk(v: Json) | CallFailed(reason: string, retriable: bool)

  datatype GatewayError = InvalidArgs | NotFound | NotAwaitingApproval | NotADeadLetter | StorageFailure

  datatype Reply =
    | Resolved(outcome: CallOutcome)
    | Parked(callId: string, approvalId: string)
    | Dropped
    | Failure(error: GatewayError)

  datatype Request = Request(session: string, tool: string, args: Json, idemKey: Option<string>, rc: RetryClass)

  /** A call some task is in charge of. */
  datatype Job = Job(id: string, session: string, rc: RetryClass)

  datatype Pc =
    | Validating(req: Request)
    | Counting(req: Request)
    | Inserting(req: Request, key: string)
    | Selecting(job: Job)
    | Replaying(id: string)
    | Deciding(job: Job, hook: nat)
    | Rejecting(job: Job, reason: string)
    | Parking(job: Job)
    | ParkingSession(job: Job)
    | Waiting(id: string)
    | Incrementing(job: Job, made: nat)
    | Invoking(job: Job, made: nat)
    | Running(job: Job, made: nat)
    | SavingOk(job: Job, v: Json)
    | SavingFailure(job: Job, reason: string)
    | FindingParked(id: string, approve: bool)
    | Unparking(job: Job, approve: bool)
    | ApprovingSession(job: Job)
    | Denying(job: Job)
    | DenyingSession(job: Job)
    | FindingDead(id: string, retry: bool)
    | Reopening(job: Job)
    | Dropping(id: string)
    | Done(reply: Reply)

  datatype Kind = Caller | Waiter | Operator(id: string)

  datatype Task = Task(kind: Kind, pc: Pc)

  datatype Event =
    | Inserted(task: Tid, id: string)
    | LostInsert(task: Tid, id: string)
    | Invoked(task: Tid, id: string)
    | Reopened(task: Tid, id: string)
    | Replied(task: Tid, id: string, reply: Reply)

  datatype System = System(
    hooks: nat,
    rows: Table,
    sessions: map<string, string>,
    tasks: map<Tid, Task>,
    log: seq<Event>)

  datatype Decision = Allow | RequireApproval | Reject(reason: string)

  datatype Execution = Returned(v: Json) | Raised(reason: string)

  /** What the world answers in one step: schema, policy hook and executor. */
  datatype Choice = Choice(schemaOk: bool, decision: Decision, execution: Execution)

  const SILENT := Choice(true, Allow, Raised(""))

  datatype Effect = Effect(rows: Table, sessions: map<string, string>, pc: Pc, event: Option<Event>)

  /** The reply a terminal or parked row stands for; None means keep waiting. */
  function OutcomeFor(id: string, row: Row): Option<Reply> {
    match row.status
    case Succeeded => Some(Resolved(CallOk(row.result.GetOr("null"))))
    case Failed => Some(Resolved(CallFailed(row.failureReason.GetOr(""), row.retriable.GetOr(false))))
    case Pending => if row.awaiting then Some(Parked(id, row.approvalId.GetOr(""))) else None
  }

  function JobOf(id: string, row: Row): Job {
    Job(id, row.session, row.Class())
  }

  /** One step of task `t` at `pc`. */
  function Next(s: System, t: Tid, pc: Pc, c: Choice): Effect {
    var keep := Effect(s.rows, s.sessions, pc, None);
    match pc
    case Validating(req) =>
      if !c.schemaOk then keep.(pc := Done(Failure(InvalidArgs)))
      else (match req.idemKey
            case Some(key) => keep.(pc := Inserting(req, key))
            case None => keep.(pc := Counting(req)))
    case Counting(req) =>
      keep.(pc := Inserting(req, DerivedKey(req.session, CountForSession(s.rows, req.session) + 1)))
    case Inserting(req, key) =>
      var id := CallIdFor(req.tool, key);
      var (rows, insertion) := Insert(s.rows, req.tool, key, req.session, req.rc, req.args);
      (match insertion
       case Won => Effect(rows, s.sessions, Selecting(Job(id, req.session, req.rc)), Some(Inserted(t, id)))
       case Lost => Effect(rows, s.sessions, Replaying(id), Some(LostInsert(t, id)))
       case Clash => keep.(pc := Done(Failure(StorageFailure))))
    case Selecting(job) => keep.(pc := Deciding(job, 0))
    case Replaying(id) =>
      if id !in s.rows then keep.(pc := Done(Failure(StorageFailure)))
      else (match OutcomeFor(id, s.rows[id])
            case Some(reply) => keep.(pc := Done(reply), event := Some(Replied(t, id, reply)))
            case None => keep.(pc := Waiting(id)))
    case Deciding(job, hook) =>
      if hook >= s.hooks then keep.(pc := Incrementing(job, 0))
      else (match c.decision
            case Allow => keep.(pc := Deciding(job, hook + 1))
            case RequireApproval => keep.(pc := Parking(job))
            case Reject(reason) => keep.(pc := Rejecting(job, reason)))
    case Rejecting(job, reason) =>
      var reply := Resolved(CallFailed(reason, false));
      Effect(ResolveFailed(s.rows, job.id, reason, false), s.sessions, Done(reply), Some(Replied(t, job.id, reply)))
    case Parking(job) =>
      keep.(rows := SetAwaiting(s.rows, job.id, job.id), pc := ParkingSession(job))
    case ParkingSession(job) =>
      var reply := Parked(job.id, job.id);
      Effect(s.rows, SetStatus(s.sessions, job.session, "awaiting_approval"), Done(reply),
             Some(Replied(t, job.id, reply)))
    case Waiting(id) =>
      if id !in s.rows then keep.(pc := Done(Failure(NotFound)))
      else (match OutcomeFor(id, s.rows[id])
            case Some(reply) => keep.(pc := Done(reply), event := Some(Replied(t, id, reply)))
            case None => keep)
    case Incrementing(job, made) =>
      keep.(rows := Increment(s.rows, job.id), pc := Invoking(job, made + 1))
    case Invoking(job, made) =>
      keep.(pc := Running(job, made), event := Some(Invoked(t, job.id)))
    case Running(job, made) =>
      (match c.execution
       case Returned(v) => keep.(pc := SavingOk(job, v))
       case Raised(reason) =>
         keep.(pc := if made < job.rc.AttemptsAllowed() then Incrementing(job, made) else SavingFailure(job, reason)))
    case SavingOk(job, v) =>
      var reply := Resolved(CallOk(v));
      Effect(ResolveSucceeded(s.rows, job.id, v), s.sessions, Done(reply), Some(Replied(t, job.id, reply)))
    case SavingFailure(job, reason) =>
      var reply := Resolved(CallFailed(reason, job.rc != Critical));
      Effect(ResolveFailed(s.rows, job.id, reason, job.rc != Critical), s.sessions, Done(reply),
             Some(Replied(t, job.id, reply)))
    case FindingParked(id, approve) =>
      if id !in s.rows then keep.(pc := Done(Failure(NotFound)))
      else if !s.rows[id].status.Pending? || !s.rows[id].awaiting then keep.(pc := Done(Failure(NotAwaitingApproval)))
      else keep.(pc := Unparking(JobOf(id, s.rows[id]), approve))
    case Unparking(job, approve) =>
      keep.(rows := ClearAwaiting(s.rows, job.id), pc := if approve then ApprovingSession(job) else Denying(job))
    case ApprovingSession(job) =>
      keep.(sessions := SetStatus(s.sessions, job.session, "running"), pc := Incrementing(job, 0))
    case Denying(job) =>
      keep.(rows := ResolveFailed(s.rows, job.id, "denied", false), pc := DenyingSession(job))
    case DenyingSession(job) =>
      var reply := Resolved(CallFailed("denied", false));
      Effect(s.rows, SetStatus(s.sessions, job.session, "running"), Done(reply), Some(Replied(t, job.id, reply)))
    case FindingDead(id, retry) =>
      if id !in s.rows then keep.(pc := Done(Failure(NotFound)))
      else if !s.rows[id].status.Failed? || s.rows[id].dropped then keep.(pc := Done(Failure(NotADeadLetter)))
      else keep.(pc := if retry then Reopening(JobOf(id, s.rows[id])) else Dropping(id))
    case Reopening(job) =>
      Effect(Reopen(s.rows, job.id), s.sessions, Incrementing(job, 0), Some(Reopened(t, job.id)))
    case Dropping(id) =>
      keep.(rows := SetDropped(s.rows, id), pc := Done(Dropped))
    case Done(_) => keep
  }

  function Step(s: System, t: Tid, c: Choice): System
    requires t in s.tasks
  {
    var e := Next(s, t, s.tasks[t].pc, c);
    System(s.hooks, e.rows, e.sessions, s.tasks[t := s.tasks[t].(pc := e.pc)],
           match e.event case Some(ev) => s.log + [ev] case None => s.log)
  }

  // ---- runs ----

  datatype Entry = EnterCall(req: Request) | EnterWait(id: string) | EnterParked(id: string, approve: bool)
                 | EnterDead(id: string, retry: bool)

  function EntryTask(e: Entry): Task {
    match e
    case EnterCall(req) => Task(Caller, Validating(req))
    case EnterWait(id) => Task(Waiter, Waiting(id))
    case EnterParked(id, approve) => Task(Operator(id), FindingParked(id, approve))
    case EnterDead(id, retry) => Task(Operator(id), FindingDead(id, retry))
  }

  datatype Action = Enter(t: Tid, entry: Entry) | Act(t: Tid, choice: Choice)

  predicate OperatorOn(task: Task, id: string) {
    task.kind == Operator(id) && !task.pc.Done?
  }

  /** A task id is used once; operator actions on one call id do not overlap. */
  ghost predicate Enabled(s: System, a: Action) {
    match a
    case Act(t, _) => t in s.tasks
    case Enter(t, entry) =>
      && t !in s.tasks
      && var kind := EntryTask(entry).kind;
         (kind.Operator? ==> forall u | u in s.tasks :: !OperatorOn(s.tasks[u], kind.id))
  }

  function Do(s: System, a: Action): System
    requires a.Act? ==> a.t in s.tasks
  {
    match a
    case Act(t, c) => Step(s, t, c)
    case Enter(t, entry) => s.(tasks := s.tasks[t := EntryTask(entry)])
  }

  /** `s'` is what the actions, in that order, make of `s`. */
  ghost predicate Runs(s: System, acts: seq<Action>, s': System)
    decreases |acts|
  {
    if acts == [] then s == s'
    else Enabled(s, acts[0]) && Runs(Do(s, acts[0]), acts[1..], s')
  }

  ghost predicate Initial(s: System) {
    s.rows == map[] && s.tasks == map[] && s.log == []
  }

  ghost predicate Reachable(s: System) {
    exists s0, acts :: Initial(s0) && Runs(s0, acts, s)
  }

  // ---- history ----

  function Invocations(log: seq<Event>, id: string): nat {
    if log == [] then 0
    else Invocations(log[..|log| - 1], id) + if log[|log| - 1].Invoked? && log[|log| - 1].id == id then 1 else 0
  }

  function Retries(log: seq<Event>, id: string): nat {
    if log == [] then 0
    else Retries(log[..|log| - 1], id) + if log[|log| - 1].Reopened? && log[|log| - 1].id == id then 1 else 0
  }

  function Insertions(log: seq<Event>, id: string): nat {
    if log == [] then 0
    else Insertions(log[..|log| - 1], id) + if log[|log| - 1].Inserted? && log[|log| - 1].id == id then 1 else 0
  }
}
