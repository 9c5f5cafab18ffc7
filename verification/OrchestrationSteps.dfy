/** The orchestrator's operations statement by statement, with those of other tasks in
    between: reading the ceiling, the log or a worker's record, and saving what was computed
    from it, are separate steps. */
module OrchestrationSteps {
  import opened Outcomes
  import opened JsonValues
  import opened Orchestration

  type Tid = nat

  datatype Pc =
    | Registering(parent: string, ceiling: real)
    | ReadingCeiling(w: Worker)
    | ReadingLog(w: Worker, ceiling: real)
    | SavingNew(w: Worker)
    | Appending(w: Worker)
    | ReadingToCharge(child: string, usd: real)
    | SavingCharge(w: Worker, usd: real)
    | ReadingToExit(child: string, exit: WorkerExit)
    | SavingExit(w: Worker, exit: WorkerExit)
    | ReadingToPark(child: string, approval: string)
    | SavingPark(w: Worker, approval: string)
    | Done(ok: bool)

  /** `charges` and `ops` are history: what was charged, and the operations in the order in
      which they took effect or were refused. */
  datatype Desk = Desk(
    ceilings: map<string, real>,
    workers: map<string, Worker>,
    spawned: map<string, seq<Worker>>,
    tasks: map<Tid, Pc>,
    charges: seq<Charged>,
    ops: seq<Op>)

  const OPENING := Desk(map[], map[], map[], map[], [], [])

  predicate Affords(ceiling: real, spawns: seq<Worker>, budget: real) {
    budget >= 0.0 && Allocated(spawns) + budget <= ceiling + EPSILON
  }

  function SpawnOf(w: Worker): Op {
    OpSpawn(w.parent, w.id, w.config, w.budget, Some(w.maxRestarts))
  }

  /** What one statement writes. */
  datatype Write = Nothing | SetCeiling(parent: string, ceiling: real) | SaveWorker(w: Worker) | AppendSpawn(w: Worker)

  /** `op` is the operation that takes effect or is refused by the statement. */
  datatype Effect = Effect(write: Write, pc: Pc, op: Option<Op>)

  function Goto(pc: Pc): Effect {
    Effect(Nothing, pc, None)
  }

  function Refuse(op: Op): Effect {
    Effect(Nothing, Done(false), Some(op))
  }

  function Finish(write: Write, op: Op): Effect {
    Effect(write, Done(true), Some(op))
  }

  function Next(q: Desk, pc: Pc): Effect {
    match pc
    case Registering(parent, ceiling) => Finish(SetCeiling(parent, ceiling), OpRegister(parent, ceiling))
    case ReadingCeiling(w) => Goto(ReadingLog(w, CeilingOf(q.ceilings, w.parent)))
    case ReadingLog(w, ceiling) =>
      if Affords(ceiling, SpawnsOf(q.spawned, w.parent), w.budget) then Goto(SavingNew(w)) else Refuse(SpawnOf(w))
    case SavingNew(w) => Effect(SaveWorker(w), Appending(w), None)
    case Appending(w) => Finish(AppendSpawn(w), SpawnOf(w))
    case ReadingToCharge(child, usd) =>
      if child in q.workers && q.workers[child].spent + usd <= q.workers[child].budget + EPSILON
      then Goto(SavingCharge(q.workers[child], usd)) else Refuse(OpCharge(child, usd))
    case SavingCharge(w, usd) => Finish(SaveWorker(w.(spent := w.spent + usd)), OpCharge(w.id, usd))
    case ReadingToExit(child, exit) =>
      if child in q.workers then Goto(SavingExit(q.workers[child], exit)) else Refuse(OpExit(child, exit))
    case SavingExit(w, exit) => Finish(SaveWorker(AfterExit(w, exit)), OpExit(w.id, exit))
    case ReadingToPark(child, approval) =>
      if child in q.workers then Goto(SavingPark(q.workers[child], approval)) else Refuse(OpPark(child, approval))
    case SavingPark(w, approval) => Finish(SaveWorker(w.(status := "awaiting_approval")), OpPark(w.id, approval))
    case Done(_) => Goto(pc)
  }

  function Written(q: Desk, write: Write): Desk {
    match write
    case Nothing => q
    case SetCeiling(parent, ceiling) => q.(ceilings := q.ceilings[parent := ceiling])
    case SaveWorker(w) => q.(workers := q.workers[w.id := w])
    case AppendSpawn(w) => q.(spawned := q.spawned[w.parent := SpawnsOf(q.spawned, w.parent) + [w]])
  }

  function ChargesOf(pc: Pc): seq<Charged> {
    if pc.SavingCharge? then [Charged(pc.w.parent, pc.usd)] else []
  }

  function Step(q: Desk, t: Tid): Desk
    requires t in q.tasks
  {
    var e := Next(q, q.tasks[t]);
    Written(q, e.write).(
      tasks := q.tasks[t := e.pc],
      charges := q.charges + ChargesOf(q.tasks[t]),
      ops := match e.op case Some(op) => q.ops + [op] case None => q.ops)
  }

  // ---- runs ----

  function ParentOf(pc: Pc): Option<string> {
    match pc
    case Registering(parent, _) => Some(parent)
    case ReadingCeiling(w) => Some(w.parent)
    case ReadingLog(w, _) => Some(w.parent)
    case SavingNew(w) => Some(w.parent)
    case Appending(w) => Some(w.parent)
    case _ => None
  }

  function ChildOf(pc: Pc): Option<string> {
    match pc
    case ReadingCeiling(w) => Some(w.id)
    case ReadingLog(w, _) => Some(w.id)
    case SavingNew(w) => Some(w.id)
    case Appending(w) => Some(w.id)
    case ReadingToCharge(child, _) => Some(child)
    case SavingCharge(w, _) => Some(w.id)
    case ReadingToExit(child, _) => Some(child)
    case SavingExit(w, _) => Some(w.id)
    case ReadingToPark(child, _) => Some(child)
    case SavingPark(w, _) => Some(w.id)
    case _ => None
  }

  /** At work on the books of one parent or on the record of one worker. */
  predicate Overlap(a: Pc, b: Pc) {
    (ParentOf(a).Some? && ParentOf(a) == ParentOf(b)) || (ChildOf(a).Some? && ChildOf(a) == ChildOf(b))
  }

  predicate Newborn(w: Worker) {
    w.spent == 0.0 && w.restarts == 0 && w.status == "running"
  }

  predicate IsEntry(pc: Pc) {
    match pc
    case ReadingCeiling(w) => Newborn(w)
    case _ => pc.Registering? || pc.ReadingToCharge? || pc.ReadingToExit? || pc.ReadingToPark?
  }

  datatype Action = Enter(t: Tid, pc: Pc) | Act(t: Tid)

  /** If they are kept apart, an operation begins only when none is under way on the same
      parent's books or the same worker's record. */
  ghost predicate Enabled(q: Desk, a: Action, apart: bool) {
    match a
    case Act(t) => t in q.tasks
    case Enter(t, pc) =>
      t !in q.tasks && IsEntry(pc) && (apart ==> forall u | u in q.tasks :: !Overlap(q.tasks[u], pc))
  }

  function Do(q: Desk, a: Action): Desk
    requires a.Act? ==> a.t in q.tasks
  {
    match a
    case Enter(t, pc) => q.(tasks := q.tasks[t := pc])
    case Act(t) => Step(q, t)
  }

  ghost predicate Runs(q: Desk, acts: seq<Action>, q': Desk, apart: bool)
    decreases |acts|
  {
    if acts == [] then q == q'
    else Enabled(q, acts[0], apart) && Runs(Do(q, acts[0]), acts[1..], q', apart)
  }

  // ---- kept apart, the operations are atomic ----

  ghost predicate HalfSpawned(q: Desk, child: string) {
    exists t :: t in q.tasks && q.tasks[t].Appending? && q.tasks[t].w.id == child
  }

  predicate SameAt(a: map<string, Worker>, b: map<string, Worker>, child: string) {
    (child in a <==> child in b) && (child in a ==> a[child] == b[child])
  }

  /** What the task has read is still so. */
  predicate UpToDate(q: Desk, pc: Pc) {
    match pc
    case ReadingCeiling(w) => Newborn(w)
    case ReadingLog(w, ceiling) => Newborn(w) && ceiling == CeilingOf(q.ceilings, w.parent)
    case SavingNew(w) => Newborn(w) && Affords(CeilingOf(q.ceilings, w.parent), SpawnsOf(q.spawned, w.parent), w.budget)
    case Appending(w) =>
      && Newborn(w) && Affords(CeilingOf(q.ceilings, w.parent), SpawnsOf(q.spawned, w.parent), w.budget)
      && w.id in q.workers && q.workers[w.id] == w
    case SavingCharge(w, usd) => w.id in q.workers && q.workers[w.id] == w && w.spent + usd <= w.budget + EPSILON
    case SavingExit(w, _) => w.id in q.workers && q.workers[w.id] == w
    case SavingPark(w, _) => w.id in q.workers && q.workers[w.id] == w
    case _ => true
  }

  ghost predicate Apart(tasks: map<Tid, Pc>) {
    forall t, u | t in tasks && u in tasks && t != u :: !Overlap(tasks[t], tasks[u])
  }

  /** The tables are those of the atomic operations, but for workers saved and not yet logged. */
  ghost predicate Mirrors(q: Desk, s: State) {
    && q.ceilings == s.ceilings && q.spawned == s.spawned && q.charges == s.charges
    && forall child :: HalfSpawned(q, child) || SameAt(q.workers, s.workers, child)
  }

  ghost predicate Sound(q: Desk) {
    && Mirrors(q, Run(NOBODY, q.ops))
    && Apart(q.tasks)
    && forall t | t in q.tasks :: UpToDate(q, q.tasks[t])
  }

  predicate SameBooks(q: Desk, q': Desk, parent: string) {
    CeilingOf(q'.ceilings, parent) == CeilingOf(q.ceilings, parent)
    && SpawnsOf(q'.spawned, parent) == SpawnsOf(q.spawned, parent)
  }

  /** A statement writes only its own parent's books and its own worker's record. */
  lemma WritesOwn(q: Desk, pc: Pc)
    ensures match Next(q, pc).write
            case Nothing => true
            case SetCeiling(parent, _) => ParentOf(pc) == Some(parent)
            case SaveWorker(w) => ChildOf(pc) == Some(w.id)
            case AppendSpawn(w) => ParentOf(pc) == Some(w.parent)
  {
    hide Affords, CeilingOf, SpawnsOf;
  }

  lemma StepFrame(q: Desk, t: Tid)
    requires t in q.tasks
    ensures var q', pc := Step(q, t), q.tasks[t];
            && (forall parent | ParentOf(pc) != Some(parent) :: SameBooks(q, q', parent))
            && (forall child | ChildOf(pc) != Some(child) :: SameAt(q'.workers, q.workers, child))
            && q'.tasks == q.tasks[t := q'.tasks[t]]
  {
    WritesOwn(q, q.tasks[t]);
    hide Next, ParentOf, ChildOf;
  }

  lemma UpToDateDepends(q: Desk, q': Desk, pc: Pc)
    requires UpToDate(q, pc)
    requires ParentOf(pc).Some? ==> SameBooks(q, q', ParentOf(pc).value)
    requires ChildOf(pc).Some? ==> SameAt(q'.workers, q.workers, ChildOf(pc).value)
    ensures UpToDate(q', pc)
  {
    hide Affords;
  }

  lemma OthersStayUpToDate(q: Desk, t: Tid, u: Tid)
    requires Sound(q) && t in q.tasks && u in q.tasks && t != u
    ensures u in Step(q, t).tasks && Step(q, t).tasks[u] == q.tasks[u] && UpToDate(Step(q, t), q.tasks[u])
  {
    assert !Overlap(q.tasks[t], q.tasks[u]);
    hide Mirrors, Step, UpToDate, ParentOf, ChildOf;
    StepFrame(q, t);
    UpToDateDepends(q, Step(q, t), q.tasks[u]);
  }

  /** A task stays on the same parent and worker until it is done. */
  lemma StaysOn(q: Desk, pc: Pc)
    requires var c := ChildOf(pc); c.Some? && c.value in q.workers ==> q.workers[c.value].id == c.value
    ensures var pc' := Next(q, pc).pc; pc'.Done? || (ParentOf(pc') == ParentOf(pc) && ChildOf(pc') == ChildOf(pc))
  {
    hide Affords, CeilingOf, SpawnsOf;
  }

  lemma OwnUpToDate(q: Desk, t: Tid)
    requires t in q.tasks && UpToDate(q, q.tasks[t])
    requires var c := ChildOf(q.tasks[t]); c.Some? && c.value in q.workers ==> q.workers[c.value].id == c.value
    ensures var q' := Step(q, t); t in q'.tasks && UpToDate(q', q'.tasks[t])
  {
    hide Affords, CeilingOf, SpawnsOf, AfterExit, ChargesOf;
  }

  /** Only its own task ends a worker's being half spawned. */
  lemma HalfSpawnedStays(q: Desk, t: Tid, child: string)
    requires t in q.tasks && HalfSpawned(q, child)
    requires q.tasks[t].Appending? ==> q.tasks[t].w.id != child
    ensures HalfSpawned(Step(q, t), child)
  {
    StepFrame(q, t);
    var u :| u in q.tasks && q.tasks[u].Appending? && q.tasks[u].w.id == child;
    hide Step, Next;
    assert Step(q, t).tasks[u] == q.tasks[u];
  }

  /** A task at work on a worker's record sees the record of the atomic operations. */
  lemma SeesRecord(q: Desk, t: Tid, child: string)
    requires Sound(q) && t in q.tasks && ChildOf(q.tasks[t]) == Some(child) && !q.tasks[t].Appending?
    ensures SameAt(q.workers, Run(NOBODY, q.ops).workers, child)
    ensures var s := Run(NOBODY, q.ops);
            child in q.workers ==> child in s.sessions && s.workers[child].id == child
                                   && child in s.current && s.current[child] < |s.lives|
  {
    RunKeeps(NOBODY, q.ops);
    var s := Run(NOBODY, q.ops);
    assert child in s.workers ==> WorkerOk(s, child);
  }

  lemma SilentStepMirrors(q: Desk, t: Tid)
    requires Sound(q) && t in q.tasks && Next(q, q.tasks[t]).op.None?
    ensures Mirrors(Step(q, t), Run(NOBODY, Step(q, t).ops))
  {
    var s, q' := Run(NOBODY, q.ops), Step(q, t);
    forall child
      ensures HalfSpawned(q', child) || SameAt(q'.workers, s.workers, child)
    {
      if HalfSpawned(q, child) {
        HalfSpawnedStays(q, t, child);
      } else if q.tasks[t].SavingNew? && q.tasks[t].w.id == child {
        assert q'.tasks[t] == Appending(q.tasks[t].w);
      }
    }
  }

  /** What a statement writes of workers, done to the workers of the atomic operations. */
  function WrittenWorkers(workers: map<string, Worker>, write: Write): map<string, Worker> {
    if write.SaveWorker? then workers[write.w.id := write.w] else workers
  }

  /** An operation on one worker's record, done at once, writes what its last statement does. */
  lemma RecordAtOnce(q: Desk, pc: Pc, s: State)
    requires ChildOf(pc).Some? && ParentOf(pc).None? && Next(q, pc).op.Some?
    requires UpToDate(q, pc) && SameAt(q.workers, s.workers, ChildOf(pc).value)
    requires var c := ChildOf(pc).value;
             c in s.workers ==> s.workers[c].id == c && c in s.sessions && c in s.current && s.current[c] < |s.lives|
    ensures var s' := Apply(s, Next(q, pc).op.value);
            && s'.ceilings == s.ceilings && s'.spawned == s.spawned
            && s'.charges == s.charges + ChargesOf(pc)
            && s'.workers == WrittenWorkers(s.workers, Next(q, pc).write)
    ensures !Next(q, pc).write.SetCeiling? && !Next(q, pc).write.AppendSpawn?
  {
    assert pc.SavingExit? ==> AfterExit(pc.w, pc.exit).id == pc.w.id;
    hide Affords, AfterExit, ExitNotice, SpawnsOf, CeilingOf;
  }

  lemma RecordMirrors(q: Desk, t: Tid)
    requires Sound(q) && t in q.tasks && ChildOf(q.tasks[t]).Some? && ParentOf(q.tasks[t]).None?
    requires Next(q, q.tasks[t]).op.Some?
    ensures Mirrors(Step(q, t), Apply(Run(NOBODY, q.ops), Next(q, q.tasks[t]).op.value))
  {
    var s' := Apply(Run(NOBODY, q.ops), Next(q, q.tasks[t]).op.value);
    SeesRecord(q, t, ChildOf(q.tasks[t]).value);
    assert UpToDate(q, q.tasks[t]) && Mirrors(q, Run(NOBODY, q.ops));
    hide Next, Apply, Run, ChargesOf, UpToDate, Apart, HalfSpawned, ParentOf, ChildOf;
    RecordAtOnce(q, q.tasks[t], Run(NOBODY, q.ops));
    forall child
      ensures HalfSpawned(Step(q, t), child) || SameAt(Step(q, t).workers, s'.workers, child)
    {
      if HalfSpawned(q, child) {
        AppendingIsOfParent(q.tasks[t]);
        HalfSpawnedStays(q, t, child);
      }
    }
  }

  lemma AppendingIsOfParent(pc: Pc)
    ensures pc.Appending? ==> ParentOf(pc).Some?
  {
  }

  /** An operation on one parent's books, the same; a spawn's worker was saved before. */
  lemma BooksAtOnce(q: Desk, pc: Pc, s: State)
    requires ParentOf(pc).Some? && Next(q, pc).op.Some?
    requires UpToDate(q, pc) && q.ceilings == s.ceilings && q.spawned == s.spawned
    ensures var s' := Apply(s, Next(q, pc).op.value);
            && s'.ceilings == Written(q, Next(q, pc).write).ceilings
            && s'.spawned == Written(q, Next(q, pc).write).spawned
            && s'.charges == s.charges + ChargesOf(pc)
            && s'.workers == if pc.Appending? then s.workers[pc.w.id := pc.w] else s.workers
    ensures !Next(q, pc).write.SaveWorker?
  {
    hide Allocated, SpawnsOf, CeilingOf;
  }

  lemma BooksMirror(q: Desk, t: Tid)
    requires Sound(q) && t in q.tasks && ParentOf(q.tasks[t]).Some? && Next(q, q.tasks[t]).op.Some?
    ensures Mirrors(Step(q, t), Apply(Run(NOBODY, q.ops), Next(q, q.tasks[t]).op.value))
  {
    var s, q', pc := Run(NOBODY, q.ops), Step(q, t), q.tasks[t];
    var s' := Apply(s, Next(q, pc).op.value);
    assert UpToDate(q, pc) && Mirrors(q, s);
    assert pc.Appending? ==> pc.w.id in q.workers && q.workers[pc.w.id] == pc.w;
    hide Next, Apply, Run, ChargesOf, UpToDate, Apart, HalfSpawned;
    BooksAtOnce(q, pc, s);
    forall child
      ensures HalfSpawned(q', child) || SameAt(q'.workers, s'.workers, child)
    {
      if HalfSpawned(q, child) && !(pc.Appending? && pc.w.id == child) {
        HalfSpawnedStays(q, t, child);
      }
    }
  }

  lemma StepKeepsApart(q: Desk, t: Tid)
    requires Sound(q) && t in q.tasks
    requires var c := ChildOf(q.tasks[t]); c.Some? && c.value in q.workers ==> q.workers[c.value].id == c.value
    ensures Apart(Step(q, t).tasks)
  {
    var q' := Step(q, t);
    StepFrame(q, t);
    StaysOn(q, q.tasks[t]);
    assert q'.tasks[t] == Next(q, q.tasks[t]).pc;
    assert Apart(q.tasks);
    hide Step, Next, ParentOf, ChildOf, Mirrors, UpToDate;
    DoneOverlapsNothing();
    forall u, v | u in q'.tasks && v in q'.tasks && u != v
      ensures !Overlap(q'.tasks[u], q'.tasks[v])
    {
      assert !Overlap(q.tasks[u], q.tasks[v]);
    }
  }

  lemma DoneOverlapsNothing()
    ensures forall a: Pc, b: Pc | a.Done? || b.Done? :: !Overlap(a, b)
  {
  }

  lemma StepKeepsSound(q: Desk, t: Tid)
    requires Sound(q) && t in q.tasks
    ensures Sound(Step(q, t))
  {
    var pc, q' := q.tasks[t], Step(q, t);
    assert pc.Appending? ==> UpToDate(q, pc);
    if ChildOf(pc).Some? && !pc.Appending? {
      SeesRecord(q, t, ChildOf(pc).value);
    }
    StepKeepsApart(q, t);
    OwnUpToDate(q, t);
    StepFrame(q, t);
    forall u | u in q'.tasks
      ensures UpToDate(q', q'.tasks[u])
    {
      if u != t {
        OthersStayUpToDate(q, t, u);
      }
    }
    hide Mirrors, UpToDate, Apart;
    var op := Next(q, pc).op;
    if op.None? {
      SilentStepMirrors(q, t);
    } else {
      RunMore(NOBODY, q.ops, op.value);
      if ParentOf(pc).Some? {
        BooksMirror(q, t);
      } else {
        RecordMirrors(q, t);
      }
    }
  }

  lemma EnterKeepsSound(q: Desk, a: Action)
    requires Sound(q) && a.Enter? && Enabled(q, a, true)
    ensures Sound(Do(q, a))
  {
    var q' := Do(q, a);
    assert Apart(q.tasks);
    hide Run, Allocated, ParentOf, ChildOf;
    forall u, v | u in q'.tasks && v in q'.tasks && u != v
      ensures !Overlap(q'.tasks[u], q'.tasks[v])
    {
      assert u != a.t && v != a.t ==> !Overlap(q.tasks[u], q.tasks[v]);
    }
    forall child | HalfSpawned(q, child)
      ensures HalfSpawned(q', child)
    {
      var u :| u in q.tasks && q.tasks[u].Appending? && q.tasks[u].w.id == child;
      assert q'.tasks[u] == q.tasks[u];
    }
    forall u | u in q'.tasks
      ensures UpToDate(q', q'.tasks[u])
    {
      assert u != a.t ==> UpToDate(q, q.tasks[u]);
    }
  }

  lemma {:induction false} RunKeepsSound(q: Desk, acts: seq<Action>, q': Desk)
    requires Sound(q) && Runs(q, acts, q', true)
    ensures Sound(q')
    decreases |acts|
  {
    if acts != [] {
      if acts[0].Act? {
        StepKeepsSound(q, acts[0].t);
      } else {
        EnterKeepsSound(q, acts[0]);
      }
      hide Sound, Enabled;
      RunKeepsSound(Do(q, acts[0]), acts[1..], q');
    }
  }

  lemma ApartMeansSound(acts: seq<Action>, q: Desk)
    requires Runs(OPENING, acts, q, true)
    ensures Sound(q)
  {
    assert Run(NOBODY, []) == NOBODY;
    assert Sound(OPENING);
    RunKeepsSound(OPENING, acts, q);
  }

  /** Whatever the interleaving, as long as operations on one parent's books and on one
      worker's record are kept apart, the tables are those of the same operations done one
      at a time, in the order in which they took effect; only a worker whose spawn is
      between its record and its event is ahead of them. */
  lemma ApartIsAtomic(acts: seq<Action>, q: Desk)
    requires Runs(OPENING, acts, q, true)
    ensures var s := Run(NOBODY, q.ops);
            && q.ceilings == s.ceilings && q.spawned == s.spawned && q.charges == s.charges
            && (forall child | !HalfSpawned(q, child) :: SameAt(q.workers, s.workers, child))
            && ((forall t | t in q.tasks :: !q.tasks[t].Appending?) ==> q.workers == s.workers)
  {
    ApartMeansSound(acts, q);
    var s := Run(NOBODY, q.ops);
    if forall t | t in q.tasks :: !q.tasks[t].Appending? {
      forall child
        ensures child in q.workers <==> child in s.workers
        ensures child in q.workers ==> q.workers[child] == s.workers[child]
      {
        assert !HalfSpawned(q, child) && SameAt(q.workers, s.workers, child);
      }
    }
  }

  /** So budgets are conserved under interleaving: for a parent registered once, what the log
      allocates and what was charged stay within the ceiling, each within its EPSILONs. */
  lemma ApartConservesBudgets(acts: seq<Action>, q: Desk, parent: string)
    requires Runs(OPENING, acts, q, true) && RegisteredOnce(NOBODY, q.ops, parent)
    ensures var spawns := SpawnsOf(q.spawned, parent);
            var ceiling := AtLeastZero(CeilingOf(q.ceilings, parent));
            && Allocated(spawns) <= ceiling + EPSILON
            && TotalCharged(q.charges, parent) <= ceiling + (|spawns| + 1) as real * EPSILON
  {
    ApartMeansSound(acts, q);
    BudgetConservation(q.ops, parent);
  }

  lemma ApartKeepsWorkerLimits(acts: seq<Action>, q: Desk, child: string)
    requires Runs(OPENING, acts, q, true) && child in q.workers
    ensures var w := q.workers[child]; w.restarts <= w.maxRestarts && w.spent <= w.budget + EPSILON
  {
    ApartMeansSound(acts, q);
    if HalfSpawned(q, child) {
      var t :| t in q.tasks && q.tasks[t].Appending? && q.tasks[t].w.id == child;
      assert UpToDate(q, q.tasks[t]);
    } else {
      assert SameAt(q.workers, Run(NOBODY, q.ops).workers, child);
      WorkerLimits(q.ops, child);
    }
  }

  // ---- not kept apart, they are not ----

  lemma {:induction false} RunsMore(q: Desk, acts: seq<Action>, m: Desk, a: Action)
    requires Runs(q, acts, m, false) && Enabled(m, a, false)
    ensures Runs(q, acts + [a], Do(m, a), false)
    decreases |acts|
  {
    hide Step;
    if acts == [] {
      assert [] + [a] == [a] && [a][1..] == [];
      assert Runs(Do(m, a), [], Do(m, a), false);
    } else {
      assert (acts + [a])[0] == acts[0] && (acts + [a])[1..] == acts[1..] + [a];
      RunsMore(Do(q, acts[0]), acts[1..], m, a);
    }
  }

  ghost predicate Reached(q: Desk) {
    exists acts :: Runs(OPENING, acts, q, false)
  }

  lemma ReachMore(q: Desk, a: Action)
    requires Reached(q) && Enabled(q, a, false)
    ensures Reached(Do(q, a))
  {
    var acts :| Runs(OPENING, acts, q, false);
    RunsMore(OPENING, acts, q, a);
  }

  lemma ReachStep(q: Desk, t: Tid) returns (q': Desk)
    requires Reached(q) && t in q.tasks
    ensures Reached(q') && q' == Step(q, t)
  {
    ReachMore(q, Act(t));
    q' := Step(q, t);
  }

  lemma ReachEntry(q: Desk, t: Tid, pc: Pc) returns (q': Desk)
    requires Reached(q) && t !in q.tasks && IsEntry(pc)
    ensures Reached(q') && q' == q.(tasks := q.tasks[t := pc])
  {
    ReachMore(q, Enter(t, pc));
    q' := Do(q, Enter(t, pc));
  }

  /** Parent "p" with a ceiling of 10. */
  lemma ReachParent() returns (q: Desk)
    ensures Reached(q) && q == OPENING.(ceilings := map["p" := 10.0], tasks := map[0 := Done(true)],
                                        ops := [OpRegister("p", 10.0)])
  {
    assert Runs(OPENING, [], OPENING, false);
    q := ReachEntry(OPENING, 0, Registering("p", 10.0));
    q := ReachStep(q, 0);
  }

  /** A spawn that has found its budget affordable. */
  lemma ReachAfforded(q: Desk, t: Tid, w: Worker) returns (q': Desk)
    requires Reached(q) && t !in q.tasks && Newborn(w)
    requires Affords(CeilingOf(q.ceilings, w.parent), SpawnsOf(q.spawned, w.parent), w.budget)
    ensures Reached(q') && q' == q.(tasks := q.tasks[t := SavingNew(w)])
  {
    hide Reached, Affords, CeilingOf, SpawnsOf;
    q' := ReachEntry(q, t, ReadingCeiling(w));
    q' := ReachStep(q', t);
    assert q' == q.(tasks := q.tasks[t := ReadingLog(w, CeilingOf(q.ceilings, w.parent))]);
    q' := ReachStep(q', t);
  }

  lemma ReachSpawned(q: Desk, t: Tid) returns (q': Desk)
    requires Reached(q) && t in q.tasks && q.tasks[t].SavingNew?
    ensures var w := q.tasks[t].w;
            && Reached(q')
            && q' == q.(workers := q.workers[w.id := w], tasks := q.tasks[t := Done(true)],
                        spawned := q.spawned[w.parent := SpawnsOf(q.spawned, w.parent) + [w]],
                        ops := q.ops + [SpawnOf(w)])
  {
    hide Reached, SpawnOf;
    q' := ReachStep(q, t);
    q' := ReachStep(q', t);
  }

  lemma OneRegistration(ceiling: real, a: Op, b: Op)
    requires !a.OpRegister? && !b.OpRegister?
    ensures RegisteredOnce(NOBODY, [OpRegister("p", ceiling), a, b], "p")
  {
    var ops := [OpRegister("p", ceiling), a, b];
    assert ops[1..][1..] == [b] && [b][1..] == [];
    hide Apply;
    assert forall s :: RegisteredOnce(s, [b], "p");
    assert forall s :: RegisteredOnce(s, ops[1..], "p");
  }

  lemma ReachBothSpawned(a: Worker, b: Worker) returns (q: Desk)
    requires Newborn(a) && Newborn(b) && a.parent == b.parent == "p" && a.budget == b.budget == 6.0 && a.id != b.id
    ensures Reached(q) && q.tasks == map[0 := Done(true), 1 := Done(true), 2 := Done(true)]
    ensures q.ceilings == map["p" := 10.0] && q.spawned == map["p" := [a, b]]
    ensures q.ops == [OpRegister("p", 10.0), SpawnOf(a), SpawnOf(b)]
  {
    assert Affords(10.0, [], 6.0) by {
      assert Allocated([]) == 0.0;
    }
    hide Reached, Allocated, Affords, SpawnOf, Newborn;
    q := ReachParent();
    q := ReachAfforded(q, 1, a);
    q := ReachAfforded(q, 2, b);
    q := ReachSpawned(q, 1);
    assert [] + [a] == [a] && [a] + [b] == [a, b];
    assert q.spawned == map["p" := [a]];
    q := ReachSpawned(q, 2);
  }

  /** Two spawns that both read the log before either writes to it allocate more than the ceiling. */
  lemma OverlappingSpawnsExceedCeiling(config: Json)
    ensures exists q :: Reached(q) && (forall t | t in q.tasks :: q.tasks[t].Done?)
                        && RegisteredOnce(NOBODY, q.ops, "p")
                        && Allocated(SpawnsOf(q.spawned, "p")) > CeilingOf(q.ceilings, "p") + EPSILON
  {
    var a, b := NewWorker("p", "a", config, 6.0, None), NewWorker("p", "b", config, 6.0, None);
    assert [a][..0] == [] && [a, b][..1] == [a];
    assert Allocated([]) == 0.0 && Allocated([a]) == 6.0 && Allocated([a, b]) == 12.0;
    hide Reached, Allocated, RegisteredOnce, SpawnOf;
    var q := ReachBothSpawned(a, b);
    OneRegistration(10.0, SpawnOf(a), SpawnOf(b));
  }

  /** Two charges that both read the record before either saves it are both accepted: the
      worker is charged beyond its allocation, and the record knows of one only. */
  lemma OverlappingChargesOverspend(config: Json)
    ensures exists q :: Reached(q) && (forall t | t in q.tasks :: q.tasks[t].Done?)
                        && "a" in q.workers && q.workers["a"].spent == 6.0 && q.workers["a"].budget == 10.0
                        && q.charges == [Charged("p", 6.0), Charged("p", 6.0)]
  {
    var w := NewWorker("p", "a", config, 10.0, None);
    assert Allocated([]) == 0.0;
    assert Affords(10.0, [], 10.0);
    hide Reached, Allocated, Affords;
    var q := ReachParent();
    q := ReachAfforded(q, 1, w);
    q := ReachSpawned(q, 1);
    q := ReachBothCharged(q, w);
  }

  lemma ReachCharging(q: Desk, t: Tid, w: Worker) returns (q': Desk)
    requires Reached(q) && t !in q.tasks && w.id in q.workers && q.workers[w.id] == w
    requires w.spent + 6.0 <= w.budget + EPSILON
    ensures Reached(q') && q' == q.(tasks := q.tasks[t := SavingCharge(w, 6.0)])
  {
    hide Reached;
    q' := ReachEntry(q, t, ReadingToCharge(w.id, 6.0));
    q' := ReachStep(q', t);
  }

  lemma ReachBothCharged(q: Desk, w: Worker) returns (q': Desk)
    requires Reached(q) && 2 !in q.tasks && 3 !in q.tasks && w.id in q.workers && q.workers[w.id] == w
    requires w.spent + 6.0 <= w.budget + EPSILON
    ensures Reached(q') && q'.tasks == q.tasks[2 := Done(true)][3 := Done(true)]
    ensures q'.workers == q.workers[w.id := w.(spent := w.spent + 6.0)]
    ensures q'.charges == q.charges + [Charged(w.parent, 6.0), Charged(w.parent, 6.0)]
  {
    hide Reached;
    q' := ReachCharging(q, 2, w);
    q' := ReachCharging(q', 3, w);
    q' := ReachStep(q', 2);
    assert q'.charges == q.charges + [Charged(w.parent, 6.0)];
    q' := ReachStep(q', 3);
  }

  // ---- what the callers are answered ----

  /** Whether the atomic operation would be accepted. */
  predicate Accepts(s: State, op: Op) {
    match op
    case OpRegister(_, _) => true
    case OpSpawn(parent, _, _, budget, _) => Affordable(s, parent, budget)
    case OpCharge(child, usd) => Chargeable(s, child, usd)
    case OpExit(child, _) => child in s.workers
    case OpPark(child, _) => child in s.workers
  }

  /** Kept apart, a task is answered what the atomic operation would answer when it takes
      effect or is refused. */
  lemma ApartAnswersAlike(acts: seq<Action>, q: Desk, t: Tid)
    requires Runs(OPENING, acts, q, true) && t in q.tasks && Next(q, q.tasks[t]).op.Some?
    ensures Next(q, q.tasks[t]).pc == Done(Accepts(Run(NOBODY, q.ops), Next(q, q.tasks[t]).op.value))
  {
    ApartMeansSound(acts, q);
    var s, pc := Run(NOBODY, q.ops), q.tasks[t];
    assert UpToDate(q, pc) && Mirrors(q, s);
    if ChildOf(pc).Some? && ParentOf(pc).None? {
      SeesRecord(q, t, ChildOf(pc).value);
    }
    hide Run, Allocated, Apart, HalfSpawned, AfterExit, SpawnsOf, CeilingOf;
  }
}
