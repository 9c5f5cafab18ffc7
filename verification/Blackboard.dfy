/** Compare-and-set on one blackboard key under full interleaving: each client reads,
    swaps in a single statement, logs, and reads back, with others in between. */
module Blackboard {
  import opened Outcomes
  import opened JsonValues
  import opened StoreModel

  type Tid = nat

  /** What a client computed its new value from. */
  datatype Basis = Blind | Seen(value: Option<Json>)

  datatype Pc =
    | Reading
    | Computing(seen: Option<StateRow>)
    | Swapping(expected: Option<int>, value: Json, basis: Basis)
    | Logging(own: nat, value: Json)
    | Rereading(own: nat)
    | Rechecking
    | Finished(outcome: CasOutcome, own: nat)

  /** One successful swap. */
  datatype Write = Write(client: Tid, version: nat, value: Json, basis: Basis)

  /** One event of the log; which write it is of is history. */
  datatype Logged = Logged(version: nat, value: Json)

  /** `writes` is history; `events` is what reached the event log. */
  datatype Board = Board(cell: Option<StateRow>, clients: map<Tid, Pc>, writes: seq<Write>, events: seq<Logged>)

  function ValueOf(row: Option<StateRow>): Option<Json> {
    match row case Some(r) => Some(r.value) case None => None
  }

  function VersionOf(row: Option<StateRow>): Option<int> {
    match row case Some(r) => Some(r.updatedSeq as int) case None => None
  }

  /** One step of client `t`; `chosen` is the value it computes when it computes one. */
  function Step(b: Board, t: Tid, chosen: Json): Board
    requires t in b.clients
  {
    match b.clients[t]
    case Reading => b.(clients := b.clients[t := Computing(b.cell)])
    case Computing(seen) =>
      b.(clients := b.clients[t := Swapping(VersionOf(seen), chosen, Seen(ValueOf(seen)))])
    case Swapping(expected, value, basis) =>
      (match CasRow(b.cell, expected, value)
       case None => b.(clients := b.clients[t := Rechecking])
       case Some(row) =>
         b.(cell := Some(row), clients := b.clients[t := Logging(row.updatedSeq, value)],
            writes := b.writes + [Write(t, row.updatedSeq, value, basis)]))
    case Logging(own, value) => b.(clients := b.clients[t := Rereading(own)], events := b.events + [Logged(own, value)])
    case Rereading(own) =>
      if b.cell.Some? then b.(clients := b.clients[t := Finished(Applied(b.cell.value), own)]) else b
    case Rechecking =>
      b.(clients := b.clients[t := Finished(
        Stale(match b.cell case Some(row) => Some(row.updatedSeq) case None => None), 0)])
    case Finished(_, _) => b
  }

  /** A client enters as a read-modify-swap, or with an expectation of its own. */
  datatype Action = Enter(t: Tid) | EnterBlind(t: Tid, expected: Option<int>, value: Json) | Act(t: Tid, chosen: Json)

  predicate Enabled(b: Board, a: Action) {
    if a.Act? then a.t in b.clients else a.t !in b.clients
  }

  function Do(b: Board, a: Action): Board
    requires Enabled(b, a)
  {
    match a
    case Enter(t) => b.(clients := b.clients[t := Reading])
    case EnterBlind(t, expected, value) => b.(clients := b.clients[t := Swapping(expected, value, Blind)])
    case Act(t, chosen) => Step(b, t, chosen)
  }

  ghost predicate Runs(b: Board, acts: seq<Action>, b': Board)
    decreases |acts|
  {
    if acts == [] then b == b' else Enabled(b, acts[0]) && Runs(Do(b, acts[0]), acts[1..], b')
  }

  const BLANK := Board(None, map[], [], [])

  // ---- invariant ----

  /** `row` is the state after some number of the writes. */
  ghost predicate Snapshot(writes: seq<Write>, row: Option<StateRow>) {
    match row
    case None => true
    case Some(r) => 1 <= r.updatedSeq <= |writes| && writes[r.updatedSeq - 1].value == r.value
  }

  ghost predicate ClientOk(writes: seq<Write>, pc: Pc) {
    match pc
    case Computing(seen) => Snapshot(writes, seen)
    case Swapping(expected, _, Seen(value)) =>
      (match expected
       case None => value == None
       case Some(v) => 1 <= v <= |writes| && value == Some(writes[v - 1].value))
    case Logging(own, value) => 1 <= own <= |writes| && writes[own - 1].value == value
    case Rereading(own) => 1 <= own <= |writes|
    case Finished(Applied(row), own) => own <= row.updatedSeq && Snapshot(writes, Some(row))
    case _ => true
  }

  /** What a write's basis owes to the write before it. */
  ghost predicate BasisOk(writes: seq<Write>, i: nat)
    requires i < |writes|
  {
    writes[i].basis.Seen? ==> writes[i].basis.value == if i == 0 then None else Some(writes[i - 1].value)
  }

  ghost predicate Linear(b: Board) {
    && (b.cell.None? <==> b.writes == [])
    && (b.cell.Some? ==> b.cell.value.updatedSeq == |b.writes| && b.cell.value.value == b.writes[|b.writes| - 1].value)
    && (forall i | 0 <= i < |b.writes| :: b.writes[i].version == i + 1 && BasisOk(b.writes, i))
    && (forall t | t in b.clients :: ClientOk(b.writes, b.clients[t]))
  }

  lemma ClientSurvives(writes: seq<Write>, w: Write, pc: Pc)
    requires ClientOk(writes, pc)
    ensures ClientOk(writes + [w], pc)
  {
  }

  lemma SwapKeepsLinear(b: Board, t: Tid, chosen: Json)
    requires Linear(b) && t in b.clients && b.clients[t].Swapping?
    ensures Linear(Step(b, t, chosen))
  {
    var pc := b.clients[t];
    assert ClientOk(b.writes, pc);
    var row := CasRow(b.cell, pc.expected, pc.value);
    if row.Some? {
      var w := Write(t, row.value.updatedSeq, pc.value, pc.basis);
      var b' := Step(b, t, chosen);
      forall u | u in b'.clients
        ensures ClientOk(b'.writes, b'.clients[u])
      {
        if u != t {
          ClientSurvives(b.writes, w, b.clients[u]);
        }
      }
      forall i | 0 <= i < |b'.writes|
        ensures b'.writes[i].version == i + 1 && BasisOk(b'.writes, i)
      {
        assert i < |b.writes| ==> BasisOk(b.writes, i);
      }
    }
  }

  lemma DoKeepsLinear(b: Board, a: Action)
    requires Linear(b) && Enabled(b, a)
    ensures Linear(Do(b, a))
  {
    if a.Act? && b.clients[a.t].Swapping? {
      SwapKeepsLinear(b, a.t, a.chosen);
    } else if a.Act? {
      assert ClientOk(b.writes, b.clients[a.t]);
    }
  }

  lemma {:induction false} RunKeepsLinear(b: Board, acts: seq<Action>, b': Board)
    requires Linear(b) && Runs(b, acts, b')
    ensures Linear(b')
    decreases |acts|
  {
    if acts != [] {
      DoKeepsLinear(b, acts[0]);
      RunKeepsLinear(Do(b, acts[0]), acts[1..], b');
    }
  }

  // ---- theorems ----

  /** Under any interleaving the successful swaps carry versions 1, 2, ..., k: one winner
      per version, and the cell is the last of them. */
  lemma VersionsAreConsecutive(acts: seq<Action>, b: Board)
    requires Runs(BLANK, acts, b)
    ensures forall i | 0 <= i < |b.writes| :: b.writes[i].version == i + 1
    ensures forall i, j | 0 <= i < |b.writes| && 0 <= j < |b.writes| ::
              b.writes[i].version == b.writes[j].version ==> i == j
    ensures if b.writes == [] then b.cell.None?
            else b.cell.Some? && b.cell.value.updatedSeq == |b.writes|
                 && b.cell.value.value == b.writes[|b.writes| - 1].value
  {
    RunKeepsLinear(BLANK, acts, b);
  }

  /** No lost update: every successful read-modify-swap was computed from exactly the
      value of the write just before it. */
  lemma NoLostUpdate(acts: seq<Action>, b: Board, i: nat)
    requires Runs(BLANK, acts, b) && i < |b.writes| && b.writes[i].basis.Seen?
    ensures b.writes[i].basis.value == if i == 0 then None else Some(b.writes[i - 1].value)
  {
    RunKeepsLinear(BLANK, acts, b);
    assert BasisOk(b.writes, i);
  }

  lemma BlankRunIsLinear(acts: seq<Action>, b: Board)
    requires Runs(BLANK, acts, b)
    ensures Linear(b)
  {
    RunKeepsLinear(BLANK, acts, b);
  }

  /** Clients that each add one end at the start plus the number of swaps applied. */
  lemma {:induction false} CounterEndsRight(acts: seq<Action>, b: Board, count: Option<Json> -> int)
    requires Runs(BLANK, acts, b)
    requires forall w | w in b.writes :: w.basis.Seen? && count(Some(w.value)) == count(w.basis.value) + 1
    ensures count(ValueOf(b.cell)) == count(None) + |b.writes|
  {
    hide Runs, ClientOk;
    BlankRunIsLinear(acts, b);
    CountsUp(b.writes, |b.writes|, count);
  }

  lemma {:induction false} CountsUp(writes: seq<Write>, n: nat, count: Option<Json> -> int)
    requires n <= |writes| && forall i | 0 <= i < |writes| :: BasisOk(writes, i)
    requires forall w | w in writes :: w.basis.Seen? && count(Some(w.value)) == count(w.basis.value) + 1
    ensures count(if n == 0 then None else Some(writes[n - 1].value)) == count(None) + n
  {
    if n > 0 {
      CountsUp(writes, n - 1, count);
      assert writes[n - 1] in writes && BasisOk(writes, n - 1);
    }
  }

  /** The record a caller gets back was current at some point not before its own write:
      it may be newer, never older. */
  lemma AppliedRecordIsNotOlder(acts: seq<Action>, b: Board, t: Tid)
    requires Runs(BLANK, acts, b) && t in b.clients && b.clients[t].Finished? && b.clients[t].outcome.Applied?
    ensures var row := b.clients[t].outcome.row;
            b.clients[t].own <= row.updatedSeq && 1 <= row.updatedSeq <= |b.writes|
            && row.value == b.writes[row.updatedSeq - 1].value
  {
    RunKeepsLinear(BLANK, acts, b);
    assert ClientOk(b.writes, b.clients[t]);
  }

  // ---- when the log is in the order of the writes ----

  /** `t` still owes the log its write `version`. */
  predicate Owes(b: Board, t: Tid, version: nat) {
    t in b.clients && b.clients[t].Logging? && b.clients[t].own == version
  }

  predicate InLog(b: Board, version: nat) {
    exists i :: 0 <= i < |b.events| && b.events[i].version == version
  }

  /** Each write is in the log or owed by one client, not both; events carry what was written. */
  ghost predicate Accounted(b: Board) {
    && (forall i | 0 <= i < |b.events| ::
          1 <= b.events[i].version <= |b.writes| && b.events[i].value == b.writes[b.events[i].version - 1].value)
    && (forall t: Tid, v: nat | Owes(b, t, v) :: 1 <= v <= |b.writes| && !InLog(b, v))
    && (forall t: Tid, u: Tid, v: nat | Owes(b, t, v) && Owes(b, u, v) :: t == u)
    && (forall v | 1 <= v <= |b.writes| :: InLog(b, v) || exists t: Tid :: Owes(b, t, v))
  }

  lemma SwapKeepsAccounted(b: Board, t: Tid, chosen: Json)
    requires Linear(b) && Accounted(b) && t in b.clients && b.clients[t].Swapping?
    ensures Accounted(Step(b, t, chosen))
  {
    var b' := Step(b, t, chosen);
    assert forall v: nat :: !Owes(b, t, v);
    assert forall u: Tid, v: nat | u != t :: Owes(b', u, v) <==> Owes(b, u, v);
    assert forall v: nat :: InLog(b', v) <==> InLog(b, v);
    if |b'.writes| > |b.writes| {
      assert forall v: nat :: Owes(b', t, v) <==> v == |b'.writes|;
      assert Owes(b', t, |b'.writes|);
    } else {
      assert forall v: nat :: !Owes(b', t, v);
    }
    forall v | 1 <= v <= |b'.writes|
      ensures InLog(b', v) || exists u: Tid :: Owes(b', u, v)
    {
      if v <= |b.writes| && !InLog(b, v) {
        var u: Tid :| Owes(b, u, v);
        assert Owes(b', u, v);
      }
    }
  }

  lemma LogKeepsAccounted(b: Board, t: Tid, chosen: Json)
    requires Linear(b) && Accounted(b) && t in b.clients && b.clients[t].Logging?
    ensures Accounted(Step(b, t, chosen))
  {
    var b' := Step(b, t, chosen);
    var own := b.clients[t].own;
    assert ClientOk(b.writes, b.clients[t]) && Owes(b, t, own);
    assert forall u: Tid, v: nat :: Owes(b', u, v) <==> u != t && Owes(b, u, v);
    assert b'.events[|b.events|].version == own;
    forall v: nat
      ensures InLog(b', v) <==> v == own || InLog(b, v)
    {
      if InLog(b, v) {
        var i :| 0 <= i < |b.events| && b.events[i].version == v;
        assert b'.events[i].version == v;
      }
    }
    forall v | 1 <= v <= |b'.writes|
      ensures InLog(b', v) || exists u: Tid :: Owes(b', u, v)
    {
      if !InLog(b, v) && v != own {
        var u: Tid :| Owes(b, u, v);
        assert u != t && Owes(b', u, v);
      }
    }
  }

  lemma DoKeepsAccounted(b: Board, a: Action)
    requires Linear(b) && Accounted(b) && Enabled(b, a)
    ensures Accounted(Do(b, a))
  {
    if a.Act? && b.clients[a.t].Swapping? {
      SwapKeepsAccounted(b, a.t, a.chosen);
    } else if a.Act? && b.clients[a.t].Logging? {
      LogKeepsAccounted(b, a.t, a.chosen);
    } else {
      var b' := Do(b, a);
      assert forall u: Tid, v: nat :: Owes(b', u, v) <==> Owes(b, u, v);
      assert forall v: nat :: InLog(b', v) <==> InLog(b, v);
      forall v | 1 <= v <= |b'.writes|
        ensures InLog(b', v) || exists u: Tid :: Owes(b', u, v)
      {
        if !InLog(b, v) {
          var u: Tid :| Owes(b, u, v);
          assert Owes(b', u, v);
        }
      }
    }
  }

  /** The log is the first writes, in order. */
  predicate LogInOrder(b: Board) {
    forall i | 0 <= i < |b.events| :: b.events[i].version == i + 1
  }

  /** The log is in order now and after each step. */
  ghost predicate AlwaysInOrder(b: Board, acts: seq<Action>)
    decreases |acts|
  {
    LogInOrder(b) && (acts != [] && Enabled(b, acts[0]) ==> AlwaysInOrder(Do(b, acts[0]), acts[1..]))
  }

  /** A client logs its write while the writer of an earlier one has yet to. */
  ghost predicate Overtakes(b: Board, a: Action) {
    && a.Act? && a.t in b.clients && b.clients[a.t].Logging?
    && exists u: Tid, v: nat :: Owes(b, u, v) && v < b.clients[a.t].own
  }

  ghost predicate NobodyOvertakes(b: Board, acts: seq<Action>)
    decreases |acts|
  {
    acts != [] && Enabled(b, acts[0]) ==> !Overtakes(b, acts[0]) && NobodyOvertakes(Do(b, acts[0]), acts[1..])
  }

  lemma OrderedLogHolds(b: Board, v: nat)
    requires LogInOrder(b)
    ensures InLog(b, v) <==> 1 <= v <= |b.events|
  {
    if 1 <= v <= |b.events| {
      assert b.events[v - 1].version == v;
    }
  }

  /** One step keeps an ordered log ordered exactly when it does not overtake. */
  lemma StepInOrderIff(b: Board, a: Action)
    requires Linear(b) && Accounted(b) && LogInOrder(b) && Enabled(b, a)
    ensures LogInOrder(Do(b, a)) <==> !Overtakes(b, a)
  {
    if a.Act? && b.clients[a.t].Logging? {
      var own, n := b.clients[a.t].own, |b.events|;
      var b' := Do(b, a);
      assert ClientOk(b.writes, b.clients[a.t]) && Owes(b, a.t, own);
      OrderedLogHolds(b, own);
      OrderedLogHolds(b, n + 1);
      assert b'.events == b.events + [Logged(own, b.clients[a.t].value)];
      assert forall i | 0 <= i < n :: b'.events[i] == b.events[i];
      assert b'.events[n].version == own > n;
      hide Linear, InLog;
      if own > n + 1 {
        var u: Tid :| Owes(b, u, n + 1);
        assert Overtakes(b, a);
      } else {
        forall u: Tid, v: nat | Owes(b, u, v)
          ensures v >= own
        {
          OrderedLogHolds(b, v);
        }
      }
    }
  }

  lemma AlwaysStartsInOrder(b: Board, acts: seq<Action>)
    ensures AlwaysInOrder(b, acts) ==> LogInOrder(b)
  {
  }

  lemma {:induction false} InOrderFrom(b: Board, acts: seq<Action>, b': Board)
    requires Linear(b) && Accounted(b) && LogInOrder(b) && Runs(b, acts, b')
    ensures AlwaysInOrder(b, acts) <==> NobodyOvertakes(b, acts)
    decreases |acts|
  {
    if acts != [] {
      hide Linear, Accounted, LogInOrder, Overtakes, Do;
      DoKeepsLinear(b, acts[0]);
      DoKeepsAccounted(b, acts[0]);
      StepInOrderIff(b, acts[0]);
      AlwaysStartsInOrder(Do(b, acts[0]), acts[1..]);
      if !Overtakes(b, acts[0]) {
        InOrderFrom(Do(b, acts[0]), acts[1..], b');
      }
    }
  }

  lemma {:induction false} AccountedAlong(b: Board, acts: seq<Action>, b': Board)
    requires Linear(b) && Accounted(b) && Runs(b, acts, b')
    ensures Accounted(b')
    decreases |acts|
  {
    if acts != [] {
      hide Linear, Accounted, Do;
      DoKeepsLinear(b, acts[0]);
      DoKeepsAccounted(b, acts[0]);
      AccountedAlong(Do(b, acts[0]), acts[1..], b');
    }
  }

  /** Under any interleaving, the log is at every point the first writes in their order
      exactly when no client logs while the writer of an earlier value has yet to. */
  lemma LogFollowsWritesIff(acts: seq<Action>, b: Board)
    requires Runs(BLANK, acts, b)
    ensures AlwaysInOrder(BLANK, acts) <==> NobodyOvertakes(BLANK, acts)
  {
    assert Linear(BLANK) && Accounted(BLANK) && LogInOrder(BLANK);
    InOrderFrom(BLANK, acts, b);
  }

  /** An ordered log that everybody has reached ends with the value of the cell. */
  lemma OrderedLogEndsWithCell(acts: seq<Action>, b: Board)
    requires Runs(BLANK, acts, b) && LogInOrder(b) && b.events != []
    requires forall t | t in b.clients :: !b.clients[t].Logging?
    ensures ValueOf(b.cell) == Some(b.events[|b.events| - 1].value)
  {
    RunKeepsLinear(BLANK, acts, b);
    assert Linear(BLANK) && Accounted(BLANK);
    AccountedAlong(BLANK, acts, b);
    assert forall t: Tid, v: nat :: !Owes(b, t, v);
    assert InLog(b, |b.writes|);
  }

  // ---- and that it need not be ----

  lemma RunsCons(b: Board, a: Action, acts: seq<Action>, b': Board)
    requires Enabled(b, a) && Runs(Do(b, a), acts, b')
    ensures Runs(b, [a] + acts, b')
  {
    assert ([a] + acts)[1..] == acts;
  }

  /** Both swaps done, neither logged. */
  function Swapped(x: Json, y: Json): Board {
    Board(Some(StateRow(JsonType(y), y, 2)), map[1 := Logging(1, x), 2 := Logging(2, y)],
          [Write(1, 1, x, Blind), Write(2, 2, y, Blind)], [])
  }

  lemma ReachSwapped(x: Json, y: Json, acts: seq<Action>, b: Board)
    requires Runs(Swapped(x, y), acts, b)
    ensures Runs(BLANK,
                 [EnterBlind(1, None, x)] + ([Act(1, x)] + ([EnterBlind(2, Some(1), y)] + ([Act(2, y)] + acts))), b)
  {
    var b1 := Do(BLANK, EnterBlind(1, None, x));
    var b2 := Do(b1, Act(1, x));
    assert b2 == Board(Some(StateRow(JsonType(x), x, 1)), map[1 := Logging(1, x)], [Write(1, 1, x, Blind)], []);
    var b3 := Do(b2, EnterBlind(2, Some(1), y));
    assert Do(b3, Act(2, y)) == Swapped(x, y);
    RunsCons(b3, Act(2, y), acts, b);
    RunsCons(b2, EnterBlind(2, Some(1), y), [Act(2, y)] + acts, b);
    RunsCons(b1, Act(1, x), [EnterBlind(2, Some(1), y)] + ([Act(2, y)] + acts), b);
    RunsCons(BLANK, EnterBlind(1, None, x), [Act(1, x)] + ([EnterBlind(2, Some(1), y)] + ([Act(2, y)] + acts)), b);
  }

  /** Two overlapping swaps can reach the event log in the opposite order, so that replaying
      the log would end with the older value. */
  lemma OverlappingSwapsLogOutOfOrder(x: Json, y: Json)
    ensures exists acts, b ::
              Runs(BLANK, acts, b) && b.events == [Logged(2, y), Logged(1, x)] && ValueOf(b.cell) == Some(y)
                              && forall t | t in b.clients :: b.clients[t].Rereading?
  {
    var b5 := Do(Swapped(x, y), Act(2, y));
    var b6 := Do(b5, Act(1, x));
    assert b6.events == [Logged(2, y), Logged(1, x)];
    assert Runs(b6, [], b6);
    RunsCons(b5, Act(1, x), [], b6);
    RunsCons(Swapped(x, y), Act(2, y), [Act(1, x)] + [], b6);
    ReachSwapped(x, y, [Act(2, y)] + ([Act(1, x)] + []), b6);
  }
}
