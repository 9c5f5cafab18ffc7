/** Worker budgets: allocations rebuilt from the log, charges against fixed allocations,
    bounded restarts. Amounts are reals; every comparison allows EPSILON, as the source does. */
module Orchestration {
  import opened Outcomes
  import opened JsonValues
  import opened SessionStatus

  /** f64::EPSILON, 2^-52. */
  const EPSILON: real := 1.0 / 4503599627370496.0

  const DEFAULT_MAX_RESTARTS: nat := 3

  datatype Worker = Worker(
    id: string,
    parent: string,
    config: Json,
    budget: real,
    spent: real,
    restarts: nat,
    maxRestarts: nat,
    status: string)

  datatype WorkerExit = HarnessCrash | Failed(reason: string)

  datatype OrchestrationError =
    | BudgetExceeded(total: real, requested: real, ceiling: real)
    | WorkerNotFound
    | SessionNotFound

  /** What a worker's end tells its parent. */
  datatype Detail = Restart(n: nat) | Reason(text: string) | NoDetail | Approval(id: string)

  datatype Notice = Notice(sender: string, recipient: string, status: string, detail: Detail)

  /** History: every life a worker id has had, and every charge that was accepted. */
  datatype Life = Life(child: string, parent: string, budget: real, spent: real)

  datatype Charged = Charged(parent: string, usd: real)

  /** `sessions` are statuses and `mail` the mails sent; `spawned` are the parents'
      "worker.spawned" events; `lives`, `current` and `charges` are history the code does
      not keep. */
  datatype State = State(
    ceilings: map<string, real>,
    workers: map<string, Worker>,
    sessions: map<string, string>,
    mail: seq<Notice>,
    spawned: map<string, seq<Worker>>,
    lives: seq<Life>,
    current: map<string, nat>,
    charges: seq<Charged>)

  const NOBODY := State(map[], map[], map[], [], map[], [], map[], [])

  function SpawnsOf(spawned: map<string, seq<Worker>>, parent: string): seq<Worker> {
    if parent in spawned then spawned[parent] else []
  }

  function CeilingOf(ceilings: map<string, real>, parent: string): real {
    if parent in ceilings then ceilings[parent] else 0.0
  }

  /** The allocations a spawn reconstructs from the log. */
  function Allocated(spawns: seq<Worker>): real {
    if spawns == [] then 0.0 else Allocated(spawns[..|spawns| - 1]) + spawns[|spawns| - 1].budget
  }

  // ---- operations ----

  function NewWorker(parent: string, child: string, config: Json, budget: real, maxRestarts: Option<nat>): Worker {
    Worker(child, parent, config, budget, 0.0, 0, maxRestarts.GetOr(DEFAULT_MAX_RESTARTS), "running")
  }

  predicate Affordable(s: State, parent: string, budget: real) {
    budget >= 0.0
    && Allocated(SpawnsOf(s.spawned, parent)) + budget <= CeilingOf(s.ceilings, parent) + EPSILON
  }

  function Register(s: State, parent: string, ceiling: real): State {
    s.(ceilings := s.ceilings[parent := ceiling], sessions := Created(s.sessions, parent))
  }

  function Spawn(s: State, w: Worker): State {
    if !Affordable(s, w.parent, w.budget) then s
    else s.(workers := s.workers[w.id := w],
            sessions := Created(s.sessions, w.id),
            spawned := s.spawned[w.parent := SpawnsOf(s.spawned, w.parent) + [w]],
            lives := s.lives + [Life(w.id, w.parent, w.budget, 0.0)],
            current := s.current[w.id := |s.lives|])
  }

  predicate Chargeable(s: State, child: string, usd: real) {
    child in s.workers && s.workers[child].spent + usd <= s.workers[child].budget + EPSILON
  }

  function Charge(s: State, child: string, usd: real): State {
    if !Chargeable(s, child, usd) || child !in s.current || s.current[child] >= |s.lives| then s
    else
      var w, i := s.workers[child], s.current[child];
      s.(workers := s.workers[child := w.(spent := w.spent + usd)],
         lives := s.lives[i := s.lives[i].(spent := s.lives[i].spent + usd)],
         charges := s.charges + [Charged(w.parent, usd)])
  }

  /** Only a crash within the limit is restarted. */
  predicate Restarts(w: Worker, exit: WorkerExit) {
    exit.HarnessCrash? && w.restarts < w.maxRestarts
  }

  function AfterExit(w: Worker, exit: WorkerExit): Worker {
    match exit
    case HarnessCrash =>
      if w.restarts < w.maxRestarts then w.(restarts := w.restarts + 1, status := "running")
      else w.(status := "permanently_failed")
    case Failed(_) => w.(status := "failed")
  }

  function ExitNotice(child: string, w: Worker, exit: WorkerExit): Notice {
    match exit
    case HarnessCrash =>
      if w.restarts < w.maxRestarts then Notice(child, w.parent, "restarted", Restart(w.restarts + 1))
      else Notice(child, w.parent, "permanently_failed", NoDetail)
    case Failed(reason) => Notice(child, w.parent, "failed", Reason(reason))
  }

  /** A restart resumes the child's session, and fails without one. */
  predicate CanExit(s: State, child: string, exit: WorkerExit) {
    child in s.workers && (Restarts(s.workers[child], exit) ==> child in s.sessions)
  }

  function Exit(s: State, child: string, exit: WorkerExit): State {
    if !CanExit(s, child, exit) then s
    else
      var w := s.workers[child];
      s.(workers := s.workers[child := AfterExit(w, exit)],
         sessions := SetStatus(s.sessions, child, if Restarts(w, exit) then "running" else "failed"),
         mail := s.mail + [ExitNotice(child, w, exit)])
  }

  function Park(s: State, child: string, approval: string): State {
    if child !in s.workers then s
    else
      var w := s.workers[child];
      s.(workers := s.workers[child := w.(status := "awaiting_approval")],
         sessions := SetStatus(s.sessions, child, "awaiting_approval"),
         mail := s.mail + [Notice(child, w.parent, "awaiting_approval", Approval(approval))])
  }

  datatype Op =
    | OpRegister(parent: string, ceiling: real)
    | OpSpawn(parent: string, child: string, config: Json, budget: real, maxRestarts: Option<nat>)
    | OpCharge(child: string, usd: real)
    | OpExit(child: string, exit: WorkerExit)
    | OpPark(child: string, approval: string)

  function Apply(s: State, op: Op): State {
    match op
    case OpRegister(parent, ceiling) => Register(s, parent, ceiling)
    case OpSpawn(parent, child, config, budget, maxRestarts) =>
      Spawn(s, NewWorker(parent, child, config, budget, maxRestarts))
    case OpCharge(child, usd) => Charge(s, child, usd)
    case OpExit(child, exit) => Exit(s, child, exit)
    case OpPark(child, approval) => Park(s, child, approval)
  }

  function Run(s: State, ops: seq<Op>): State
    decreases |ops|
  {
    if ops == [] then s else Run(Apply(s, ops[0]), ops[1..])
  }

  lemma {:induction false} RunMore(s: State, ops: seq<Op>, op: Op)
    ensures Run(s, ops + [op]) == Apply(Run(s, ops), op)
    decreases |ops|
  {
    if ops == [] {
      assert [op][1..] == [];
      assert Run(Apply(s, op), []) == Apply(s, op);
      assert [] + [op] == [op];
    } else {
      assert (ops + [op])[1..] == ops[1..] + [op];
      RunMore(Apply(s, ops[0]), ops[1..], op);
    }
  }

  /** `parent` is not registered twice. */
  predicate RegisteredOnce(s: State, ops: seq<Op>, parent: string)
    decreases |ops|
  {
    ops != [] ==>
      && (ops[0].OpRegister? && ops[0].parent == parent ==> parent !in s.ceilings)
      && RegisteredOnce(Apply(s, ops[0]), ops[1..], parent)
  }

  // ---- sums over the history ----

  function BudgetOf(lives: seq<Life>, parent: string): real {
    if lives == [] then 0.0
    else BudgetOf(lives[..|lives| - 1], parent)
         + if lives[|lives| - 1].parent == parent then lives[|lives| - 1].budget else 0.0
  }

  function SpentOf(lives: seq<Life>, parent: string): real {
    if lives == [] then 0.0
    else SpentOf(lives[..|lives| - 1], parent)
         + if lives[|lives| - 1].parent == parent then lives[|lives| - 1].spent else 0.0
  }

  function LivesOf(lives: seq<Life>, parent: string): nat {
    if lives == [] then 0
    else LivesOf(lives[..|lives| - 1], parent) + if lives[|lives| - 1].parent == parent then 1 else 0
  }

  /** Everything ever charged to workers while they belonged to `parent`. */
  function TotalCharged(charges: seq<Charged>, parent: string): real {
    if charges == [] then 0.0
    else TotalCharged(charges[..|charges| - 1], parent)
         + if charges[|charges| - 1].parent == parent then charges[|charges| - 1].usd else 0.0
  }

  ghost predicate LifeOk(l: Life) {
    0.0 <= l.budget && l.spent <= l.budget + EPSILON
  }

  lemma {:induction false} SpentWithinBudgets(lives: seq<Life>, parent: string)
    requires forall l | l in lives :: LifeOk(l)
    ensures SpentOf(lives, parent) <= BudgetOf(lives, parent) + LivesOf(lives, parent) as real * EPSILON
  {
    if lives != [] {
      assert LifeOk(lives[|lives| - 1]);
      SpentWithinBudgets(lives[..|lives| - 1], parent);
    }
  }

  lemma {:induction false} SpendMore(lives: seq<Life>, i: nat, usd: real, parent: string)
    requires i < |lives|
    ensures var lives' := lives[i := lives[i].(spent := lives[i].spent + usd)];
            && SpentOf(lives', parent) == SpentOf(lives, parent) + (if lives[i].parent == parent then usd else 0.0)
            && BudgetOf(lives', parent) == BudgetOf(lives, parent)
            && LivesOf(lives', parent) == LivesOf(lives, parent)
  {
    var lives' := lives[i := lives[i].(spent := lives[i].spent + usd)];
    var n := |lives| - 1;
    if i < n {
      assert lives'[..n] == lives[..n][i := lives[..n][i].(spent := lives[..n][i].spent + usd)];
      SpendMore(lives[..n], i, usd, parent);
    } else {
      assert lives'[..n] == lives[..n];
    }
  }

  // ---- invariant ----

  /** A worker record is its current life. */
  ghost predicate WorkerOk(s: State, child: string)
    requires child in s.workers
  {
    var w := s.workers[child];
    && w.id == child && w.restarts <= w.maxRestarts
    && child in s.current && s.current[child] < |s.lives|
    && s.lives[s.current[child]] == Life(child, w.parent, w.budget, w.spent)
  }

  ghost predicate BooksOk(s: State, parent: string) {
    && BudgetOf(s.lives, parent) == Allocated(SpawnsOf(s.spawned, parent))
    && LivesOf(s.lives, parent) == |SpawnsOf(s.spawned, parent)|
    && SpentOf(s.lives, parent) == TotalCharged(s.charges, parent)
  }

  function AtLeastZero(x: real): real {
    if x < 0.0 then 0.0 else x
  }

  predicate WithinCeiling(s: State, parent: string) {
    Allocated(SpawnsOf(s.spawned, parent)) <= AtLeastZero(CeilingOf(s.ceilings, parent)) + EPSILON
  }

  /** Holds in every run: workers are their current lives, no life outspends its budget,
      and the books per parent agree with the log. */
  ghost predicate Kept(s: State) {
    && s.workers.Keys <= s.sessions.Keys
    && (forall child | child in s.workers :: WorkerOk(s, child))
    && (forall l | l in s.lives :: LifeOk(l))
    && (forall parent :: BooksOk(s, parent))
  }

  lemma SpawnKeepsBooks(s: State, w: Worker, parent: string)
    requires BooksOk(s, parent) && Affordable(s, w.parent, w.budget) && w.spent == 0.0
    ensures BooksOk(Spawn(s, w), parent)
  {
    var s' := Spawn(s, w);
    assert s'.lives[..|s.lives|] == s.lives;
    var spawns := SpawnsOf(s.spawned, w.parent);
    assert (spawns + [w])[..|spawns|] == spawns;
  }

  lemma SpawnKeeps(s: State, w: Worker)
    requires Kept(s) && w.spent == 0.0 && w.restarts == 0
    ensures Kept(Spawn(s, w))
  {
    var s' := Spawn(s, w);
    if Affordable(s, w.parent, w.budget) {
      forall parent
        ensures BooksOk(s', parent)
      {
        SpawnKeepsBooks(s, w, parent);
      }
      forall child | child in s'.workers
        ensures WorkerOk(s', child)
      {
        assert child != w.id ==> WorkerOk(s, child);
      }
    }
  }

  lemma ChargeKeeps(s: State, child: string, usd: real)
    requires Kept(s)
    ensures Kept(Charge(s, child, usd))
  {
    if Chargeable(s, child, usd) {
      assert WorkerOk(s, child);
      var s', i := Charge(s, child, usd), s.current[child];
      forall parent
        ensures BooksOk(s', parent)
      {
        assert BooksOk(s, parent);
        SpendMore(s.lives, i, usd, parent);
        assert s'.charges[..|s.charges|] == s.charges;
      }
      forall other | other in s'.workers
        ensures WorkerOk(s', other)
      {
        assert WorkerOk(s, other);
      }
      forall l | l in s'.lives
        ensures LifeOk(l)
      {
        assert l in s.lives || l == s'.lives[i];
        assert LifeOk(s.lives[i]);
      }
    }
  }

  /** Exits and parking only touch a worker's restarts and status. */
  lemma StatusKeeps(s: State, child: string, w: Worker, s': State)
    requires Kept(s) && child in s.workers && w.restarts <= w.maxRestarts
    requires w == s.workers[child].(restarts := w.restarts, status := w.status)
    requires s' == s.(workers := s.workers[child := w], sessions := s'.sessions, mail := s'.mail)
    requires s'.sessions.Keys == s.sessions.Keys
    ensures Kept(s')
  {
    forall other | other in s'.workers
      ensures WorkerOk(s', other)
    {
      assert WorkerOk(s, other);
    }
    forall parent
      ensures BooksOk(s', parent)
    {
      assert BooksOk(s, parent);
    }
  }

  lemma RegisterKeeps(s: State, parent: string, ceiling: real)
    requires Kept(s)
    ensures Kept(Register(s, parent, ceiling))
  {
    var s' := Register(s, parent, ceiling);
    assert forall p :: BooksOk(s, p) ==> BooksOk(s', p);
    assert forall child | child in s'.workers :: WorkerOk(s, child) ==> WorkerOk(s', child);
  }

  lemma ApplyKeeps(s: State, op: Op)
    requires Kept(s)
    ensures Kept(Apply(s, op))
  {
    match op
    case OpRegister(parent, ceiling) => RegisterKeeps(s, parent, ceiling);
    case OpSpawn(parent, child, config, budget, maxRestarts) =>
      SpawnKeeps(s, NewWorker(parent, child, config, budget, maxRestarts));
    case OpCharge(child, usd) => ChargeKeeps(s, child, usd);
    case OpExit(child, exit) =>
      if child in s.workers {
        assert WorkerOk(s, child);
        StatusKeeps(s, child, AfterExit(s.workers[child], exit), Exit(s, child, exit));
      }
    case OpPark(child, approval) =>
      if child in s.workers {
        assert WorkerOk(s, child);
        StatusKeeps(s, child, s.workers[child].(status := "awaiting_approval"), Park(s, child, approval));
      }
  }

  lemma {:induction false} RunKeeps(s: State, ops: seq<Op>)
    requires Kept(s)
    ensures Kept(Run(s, ops))
    decreases |ops|
  {
    if ops != [] {
      ApplyKeeps(s, ops[0]);
      RunKeeps(Apply(s, ops[0]), ops[1..]);
    }
  }

  // ---- the ceiling ----

  /** The bound holds now and after each operation. */
  predicate AlwaysWithin(s: State, ops: seq<Op>, parent: string)
    decreases |ops|
  {
    WithinCeiling(s, parent) && (ops != [] ==> AlwaysWithin(Apply(s, ops[0]), ops[1..], parent))
  }

  /** `op` does not set a ceiling below what `parent` has already allocated. */
  predicate Fits(s: State, op: Op, parent: string) {
    op.OpRegister? && op.parent == parent ==>
      Allocated(SpawnsOf(s.spawned, parent)) <= AtLeastZero(op.ceiling) + EPSILON
  }

  predicate RegistrationsFit(s: State, ops: seq<Op>, parent: string)
    decreases |ops|
  {
    ops != [] ==> Fits(s, ops[0], parent) && RegistrationsFit(Apply(s, ops[0]), ops[1..], parent)
  }

  lemma ApplyKeepsWithinIff(s: State, op: Op, parent: string)
    requires WithinCeiling(s, parent)
    ensures WithinCeiling(Apply(s, op), parent) <==> Fits(s, op, parent)
  {
    if op.OpSpawn? && op.parent == parent {
      var w := NewWorker(parent, op.child, op.config, op.budget, op.maxRestarts);
      var spawns := SpawnsOf(s.spawned, parent);
      assert (spawns + [w])[..|spawns|] == spawns;
    }
  }

  /** Allocations stay within the ceiling throughout a run exactly when no registration
      undercuts what is already allocated. */
  lemma {:induction false} CeilingHoldsIff(s: State, ops: seq<Op>, parent: string)
    requires WithinCeiling(s, parent)
    ensures AlwaysWithin(s, ops, parent) <==> RegistrationsFit(s, ops, parent)
    decreases |ops|
  {
    if ops != [] {
      ApplyKeepsWithinIff(s, ops[0], parent);
      if WithinCeiling(Apply(s, ops[0]), parent) {
        CeilingHoldsIff(Apply(s, ops[0]), ops[1..], parent);
      }
    }
  }

  lemma {:induction false} WithinAtEnd(s: State, ops: seq<Op>, parent: string)
    requires AlwaysWithin(s, ops, parent)
    ensures WithinCeiling(Run(s, ops), parent)
    decreases |ops|
  {
    if ops != [] {
      WithinAtEnd(Apply(s, ops[0]), ops[1..], parent);
    }
  }

  /** A first registration undercuts nothing: before it, only EPSILON can be allocated. */
  lemma {:induction false} FirstRegistrationFits(s: State, ops: seq<Op>, parent: string)
    requires WithinCeiling(s, parent) && RegisteredOnce(s, ops, parent)
    ensures RegistrationsFit(s, ops, parent)
    decreases |ops|
  {
    if ops != [] {
      ApplyKeepsWithinIff(s, ops[0], parent);
      FirstRegistrationFits(Apply(s, ops[0]), ops[1..], parent);
    }
  }

  // ---- theorems over every run ----

  /** Budget conservation: for a parent registered once, allocations rebuilt from the log
      stay within the ceiling, and everything ever charged to the parent's workers within
      the ceiling and one EPSILON per spawn, child ids spawned again included. */
  lemma BudgetConservation(ops: seq<Op>, parent: string)
    requires RegisteredOnce(NOBODY, ops, parent)
    ensures var s := Run(NOBODY, ops);
            var n := |SpawnsOf(s.spawned, parent)|;
            var ceiling := AtLeastZero(CeilingOf(s.ceilings, parent));
            && Allocated(SpawnsOf(s.spawned, parent)) <= ceiling + EPSILON
            && TotalCharged(s.charges, parent) <= ceiling + (n + 1) as real * EPSILON
  {
    ChargesWithinAllocations(ops, parent);
    FirstRegistrationFits(NOBODY, ops, parent);
    CeilingHoldsIff(NOBODY, ops, parent);
    WithinAtEnd(NOBODY, ops, parent);
  }

  /** However often parents are registered, charges stay within what the log allocates. */
  lemma ChargesWithinAllocations(ops: seq<Op>, parent: string)
    ensures var s := Run(NOBODY, ops);
            var spawns := SpawnsOf(s.spawned, parent);
            TotalCharged(s.charges, parent) <= Allocated(spawns) + |spawns| as real * EPSILON
  {
    RunKeeps(NOBODY, ops);
    var s := Run(NOBODY, ops);
    assert BooksOk(s, parent);
    SpentWithinBudgets(s.lives, parent);
  }

  /** A worker is restarted at most as often as its limit says, and overspends its
      allocation by at most EPSILON. */
  lemma WorkerLimits(ops: seq<Op>, child: string)
    requires child in Run(NOBODY, ops).workers
    ensures var w := Run(NOBODY, ops).workers[child]; w.restarts <= w.maxRestarts && w.spent <= w.budget + EPSILON
  {
    RunKeeps(NOBODY, ops);
    var s := Run(NOBODY, ops);
    assert WorkerOk(s, child) && LifeOk(s.lives[s.current[child]]);
  }

  /** Every worker there ever was has a session, so telling of its end always works. */
  lemma ExitsNeverFail(ops: seq<Op>, child: string, exit: WorkerExit)
    requires child in Run(NOBODY, ops).workers
    ensures CanExit(Run(NOBODY, ops), child, exit)
  {
    RunKeeps(NOBODY, ops);
  }

  /** Registering a parent again with less than it has allocated breaks the bound. */
  lemma ReRegisteringBreaksCeiling(config: Json)
    ensures var s := Run(NOBODY, [OpRegister("p", 5.0), OpSpawn("p", "a", config, 5.0, None), OpRegister("p", 1.0)]);
            Allocated(SpawnsOf(s.spawned, "p")) > AtLeastZero(CeilingOf(s.ceilings, "p")) + EPSILON
  {
    var ops := [OpRegister("p", 5.0), OpSpawn("p", "a", config, 5.0, None), OpRegister("p", 1.0)];
    var s1 := Apply(NOBODY, ops[0]);
    var s2 := Apply(s1, ops[1]);
    var w := NewWorker("p", "a", config, 5.0, None);
    assert SpawnsOf(s2.spawned, "p") == [w];
    assert [w][..0] == [];
    var s3 := Apply(s2, ops[2]);
    assert ops[1..][1..] == ops[2..] && ops[2..][1..] == [];
    assert Run(s3, []) == s3;
    assert Run(s2, ops[2..]) == s3;
    assert Run(s1, ops[1..]) == s3;
  }

  // ---- the orchestrator as an object ----

  class Orchestrator {
    var ceilings: map<string, real>
    var workers: map<string, Worker>
    var sessions: map<string, string>
    var mail: seq<Notice>
    var spawned: map<string, seq<Worker>>
    ghost var lives: seq<Life>
    ghost var current: map<string, nat>
    ghost var charges: seq<Charged>

    constructor ()
      ensures View() == NOBODY
    {
      ceilings, workers, sessions, mail := map[], map[], map[], [];
      spawned, lives, current, charges := map[], [], map[], [];
    }

    ghost function View(): State
      reads this
    {
      State(ceilings, workers, sessions, mail, spawned, lives, current, charges)
    }

    method RegisterParent(parent: string, ceiling: real)
      modifies this
      ensures View() == Register(old(View()), parent, ceiling)
    {
      sessions := Created(sessions, parent);
      ceilings := ceilings[parent := ceiling];
    }

    method SpawnWorker(parent: string, child: string, config: Json, budget: real, maxRestarts: Option<nat>)
      returns (r: Result<Worker, OrchestrationError>)
      modifies this
      ensures View() == Spawn(old(View()), NewWorker(parent, child, config, budget, maxRestarts))
      ensures r.Ok? <==> Affordable(old(View()), parent, budget)
      ensures r.Ok? ==> r.value == NewWorker(parent, child, config, budget, maxRestarts)
    {
      var ceiling := CeilingOf(ceilings, parent);
      var events := SpawnsOf(spawned, parent);
      var total := 0.0;
      for i := 0 to |events|
        invariant total == Allocated(events[..i])
      {
        assert events[..i + 1][..i] == events[..i];
        total := total + events[i].budget;
      }
      assert events[..|events|] == events;
      if budget < 0.0 || total + budget > ceiling + EPSILON {
        return Err(BudgetExceeded(total, budget, ceiling));
      }
      var worker := NewWorker(parent, child, config, budget, maxRestarts);
      sessions := Created(sessions, child);
      workers := workers[child := worker];
      spawned := spawned[parent := events + [worker]];
      current := current[child := |lives|];
      lives := lives + [Life(child, parent, budget, 0.0)];
      r := Ok(worker);
    }

    method ChargeWorker(child: string, usd: real) returns (r: Result<Worker, OrchestrationError>)
      requires Kept(View())
      modifies this
      ensures View() == Charge(old(View()), child, usd)
      ensures r.Ok? <==> Chargeable(old(View()), child, usd)
      ensures r.Ok? ==> child in workers && r.value == workers[child]
                        && r.value.spent == old(View()).workers[child].spent + usd
    {
      if child !in workers {
        return Err(WorkerNotFound);
      }
      assert WorkerOk(View(), child);
      var worker := workers[child];
      if worker.spent + usd > worker.budget + EPSILON {
        return Err(BudgetExceeded(worker.spent, usd, worker.budget));
      }
      worker := worker.(spent := worker.spent + usd);
      workers := workers[child := worker];
      ghost var i := current[child];
      lives := lives[i := lives[i].(spent := lives[i].spent + usd)];
      charges := charges + [Charged(worker.parent, usd)];
      r := Ok(worker);
    }

    /** The session is resumed or failed and the parent told before the record is saved. */
    method ExitWorker(child: string, exit: WorkerExit) returns (r: Result<Worker, OrchestrationError>)
      modifies this`workers, this`sessions, this`mail
      ensures View() == Exit(old(View()), child, exit)
      ensures r.Ok? <==> CanExit(old(View()), child, exit)
      ensures r.Ok? ==> child in workers && r.value == workers[child]
      ensures r == Err(WorkerNotFound) <==> child !in old(workers)
    {
      if child !in workers {
        return Err(WorkerNotFound);
      }
      var worker := workers[child];
      match exit {
        case HarnessCrash =>
          if worker.restarts < worker.maxRestarts {
            worker := worker.(restarts := worker.restarts + 1, status := "running");
            if child !in sessions {
              return Err(SessionNotFound);
            }
            sessions := sessions[child := "running"];
            mail := mail + [Notice(child, worker.parent, "restarted", Restart(worker.restarts))];
          } else {
            worker := worker.(status := "permanently_failed");
            sessions := SetStatus(sessions, child, "failed");
            mail := mail + [Notice(child, worker.parent, "permanently_failed", NoDetail)];
          }
        case Failed(reason) =>
          worker := worker.(status := "failed");
          sessions := SetStatus(sessions, child, "failed");
          mail := mail + [Notice(child, worker.parent, "failed", Reason(reason))];
      }
      workers := workers[child := worker];
      r := Ok(worker);
    }

    method ApprovalParked(child: string, approval: string) returns (r: Result<(), OrchestrationError>)
      modifies this`workers, this`sessions, this`mail
      ensures View() == Park(old(View()), child, approval)
      ensures r.Ok? <==> child in old(workers)
    {
      if child !in workers {
        return Err(WorkerNotFound);
      }
      var worker := workers[child];
      sessions := SetStatus(sessions, child, "awaiting_approval");
      mail := mail + [Notice(child, worker.parent, "awaiting_approval", Approval(approval))];
      workers := workers[child := worker.(status := "awaiting_approval")];
      r := Ok(());
    }
  }
}
