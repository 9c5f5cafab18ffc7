/** The keys of calls that bring none. */
module GatewayKeys {
  import opened Outcomes
  import opened RetryClasses
  import opened Ledger
  import opened SessionStatus
  import opened GatewayMachine
  import opened GatewayScenario

  ghost predicate HasForm(key: string, session: string) {
    exists n: nat :: key == DerivedKey(session, n)
  }

  /** Between counting its session's calls and inserting under the key made of the count. */
  predicate Deriving(pc: Pc, session: string) {
    (pc.Counting? || (pc.Inserting? && pc.req.idemKey.None?)) && pc.req.session == session
  }

  ghost predicate OneDeriving(s: System, session: string) {
    forall u, v | u in s.tasks && v in s.tasks ::
      Deriving(s.tasks[u].pc, session) && Deriving(s.tasks[v].pc, session) ==> u == v
  }

  /** A key that a caller supplies does not look like one of the session's derived keys. */
  ghost predicate SuppliesOther(a: Action, session: string) {
    a.Enter? && a.entry.EnterCall? && a.entry.req.idemKey.Some? ==> !HasForm(a.entry.req.idemKey.value, session)
  }

  /** Throughout the run calls of the session without a key do not overlap between counting
      and inserting, and nobody supplies a key of that form. */
  ghost predicate Orderly(s: System, acts: seq<Action>, session: string)
    decreases |acts|
  {
    OneDeriving(s, session)
    && (acts != [] ==>
          Enabled(s, acts[0]) && SuppliesOther(acts[0], session) && Orderly(Do(s, acts[0]), acts[1..], session))
  }

  // ---- a derived key is new ----

  /** Numbers in use are at most the count. */
  ghost predicate NumbersUsed(rows: Table, session: string) {
    forall id, n: nat | id in rows && rows[id].idemKey == DerivedKey(session, n) :: n <= CountForSession(rows, session)
  }

  /** `n` is the number of a key that is not in use, and at most the next. */
  ghost predicate Unused(rows: Table, session: string, n: nat) {
    && n <= CountForSession(rows, session) + 1
    && forall id, m: nat | id in rows && rows[id].idemKey == DerivedKey(session, m) :: m < n
  }

  ghost predicate KeyFits(rows: Table, pc: Pc, session: string) {
    match pc
    case Validating(req) => req.idemKey.Some? ==> !HasForm(req.idemKey.value, session)
    case Counting(req) => req.idemKey.None?
    case Inserting(req, key) =>
      if req.idemKey.Some? then !HasForm(key, session)
      else exists n: nat :: key == DerivedKey(req.session, n) && (req.session == session ==> Unused(rows, session, n))
    case _ => true
  }

  ghost predicate KeysFit(s: System, session: string) {
    NumbersUsed(s.rows, session) && forall u | u in s.tasks :: KeyFits(s.rows, s.tasks[u].pc, session)
  }

  /** Every statement but an insert leaves keys, sessions and counts alone. */
  lemma OnlyInsertsCount(s: System, t: Tid, pc: Pc, c: Choice, session: string)
    requires !pc.Inserting?
    ensures var rows := Next(s, t, pc, c).rows;
            SameKeys(s.rows, rows) && CountForSession(rows, session) == CountForSession(s.rows, session)
  {
    var rows := Next(s, t, pc, c).rows;
    forall id
      ensures id in rows <==> id in s.rows
      ensures id in rows ==> rows[id].idemKey == s.rows[id].idemKey && rows[id].session == s.rows[id].session
    {
      NextKeepsKey(s, t, pc, c, id);
    }
    hide Next;
    SameKeysCount(s.rows, rows, session);
  }

  lemma NextKeepsKey(s: System, t: Tid, pc: Pc, c: Choice, id: string)
    requires !pc.Inserting?
    ensures var rows := Next(s, t, pc, c).rows;
            && (id in rows <==> id in s.rows)
            && (id in rows ==> rows[id].idemKey == s.rows[id].idemKey && rows[id].session == s.rows[id].session)
  {
    hide DerivedKey, CountForSession, SetStatus, OutcomeFor, JobOf, Insert;
  }

  lemma FitsAlike(rows: Table, rows': Table, pc: Pc, session: string)
    requires CountForSession(rows', session) >= CountForSession(rows, session)
    requires forall id, n: nat | id in rows' && rows'[id].idemKey == DerivedKey(session, n) ::
               id in rows && rows[id].idemKey == DerivedKey(session, n)
    ensures KeyFits(rows, pc, session) ==> KeyFits(rows', pc, session)
    ensures NumbersUsed(rows, session) ==> NumbersUsed(rows', session)
  {
    hide DerivedKey, CountForSession;
  }

  lemma CountingFits(s: System, t: Tid, c: Choice, session: string)
    requires t in s.tasks && s.tasks[t].pc.Counting? && KeysFit(s, session)
    ensures KeyFits(s.rows, Step(s, t, c).tasks[t].pc, session)
  {
    var req := s.tasks[t].pc.req;
    assert KeyFits(s.rows, s.tasks[t].pc, session);
    var n := CountForSession(s.rows, req.session) + 1;
    hide DerivedKey, CountForSession;
    assert Step(s, t, c).tasks[t].pc == Inserting(req, DerivedKey(req.session, n));
    assert req.session == session ==> Unused(s.rows, session, n);
  }

  /** An insert that wins uses the number it holds, if it is the session's. */
  lemma InsertKeepsNumbers(s: System, t: Tid, c: Choice, session: string)
    requires t in s.tasks && s.tasks[t].pc.Inserting? && KeysFit(s, session)
    ensures NumbersUsed(Step(s, t, c).rows, session)
    ensures CountForSession(Step(s, t, c).rows, session) >= CountForSession(s.rows, session)
    ensures !Deriving(s.tasks[t].pc, session) ==>
              var rows := Step(s, t, c).rows;
              forall id, n: nat | id in rows && rows[id].idemKey == DerivedKey(session, n) ::
                id in s.rows && s.rows[id].idemKey == DerivedKey(session, n)
  {
    var pc := s.tasks[t].pc;
    var req, key, rows := pc.req, pc.key, Step(s, t, c).rows;
    assert rows == Insert(s.rows, req.tool, key, req.session, req.rc, req.args).0;
    InsertCounts(s.rows, req.tool, key, req.session, req.rc, req.args, session);
    assert KeyFits(s.rows, pc, session);
    hide DerivedKey, CountForSession, Step;
    forall id, n: nat | id in rows && rows[id].idemKey == DerivedKey(session, n)
      ensures n <= CountForSession(rows, session)
      ensures !Deriving(pc, session) ==> id in s.rows && s.rows[id].idemKey == DerivedKey(session, n)
    {
      if id !in s.rows {
        assert key == DerivedKey(session, n);
        if req.idemKey.None? {
          var m: nat :| key == DerivedKey(req.session, m) && (req.session == session ==> Unused(s.rows, session, m));
          DerivedKeysDiffer(session, n, req.session, m);
        }
      }
    }
  }

  lemma AfterValidating(s: System, t: Tid, req: Request, c: Choice)
    ensures var pc' := Next(s, t, Validating(req), c).pc;
            || pc'.Done?
            || (req.idemKey.Some? && pc' == Inserting(req, req.idemKey.value))
            || (req.idemKey.None? && pc' == Counting(req))
  {
  }

  lemma KeyIsBehind(s: System, t: Tid, pc: Pc, c: Choice)
    requires !pc.Validating? && !pc.Counting?
    ensures var pc' := Next(s, t, pc, c).pc; !pc'.Validating? && !pc'.Counting? && !pc'.Inserting?
  {
    hide CountForSession, SetStatus, OutcomeFor, JobOf, Insert;
  }

  lemma OwnKeyFits(s: System, t: Tid, c: Choice, session: string)
    requires t in s.tasks && KeysFit(s, session)
    ensures KeyFits(Step(s, t, c).rows, Step(s, t, c).tasks[t].pc, session)
  {
    var pc, pc' := s.tasks[t].pc, Step(s, t, c).tasks[t].pc;
    assert KeyFits(s.rows, pc, session);
    assert pc' == Next(s, t, pc, c).pc;
    if pc.Counting? {
      CountingFits(s, t, c, session);
      assert Step(s, t, c).rows == s.rows;
    } else if pc.Validating? {
      AfterValidating(s, t, pc.req, c);
      hide Next, NumbersUsed;
    } else {
      KeyIsBehind(s, t, pc, c);
    }
  }

  lemma OtherKeyFits(s: System, t: Tid, c: Choice, session: string, u: Tid)
    requires t in s.tasks && u in s.tasks && u != t && KeysFit(s, session) && OneDeriving(s, session)
    ensures KeyFits(Step(s, t, c).rows, s.tasks[u].pc, session)
  {
    var s', pc := Step(s, t, c), s.tasks[t].pc;
    assert KeyFits(s.rows, s.tasks[u].pc, session);
    if !pc.Inserting? {
      OnlyInsertsCount(s, t, pc, c, session);
      FitsAlike(s.rows, s'.rows, s.tasks[u].pc, session);
    } else {
      InsertKeepsNumbers(s, t, c, session);
      if !Deriving(pc, session) {
        FitsAlike(s.rows, s'.rows, s.tasks[u].pc, session);
      } else {
        assert !Deriving(s.tasks[u].pc, session);
      }
    }
  }

  lemma StepKeepsKeys(s: System, t: Tid, c: Choice, session: string)
    requires t in s.tasks && KeysFit(s, session) && OneDeriving(s, session)
    ensures KeysFit(Step(s, t, c), session)
  {
    var s', pc := Step(s, t, c), s.tasks[t].pc;
    if pc.Inserting? {
      InsertKeepsNumbers(s, t, c, session);
    } else {
      OnlyInsertsCount(s, t, pc, c, session);
      FitsAlike(s.rows, s'.rows, pc, session);
    }
    hide Next, KeyFits, NumbersUsed;
    forall u | u in s'.tasks
      ensures KeyFits(s'.rows, s'.tasks[u].pc, session)
    {
      if u != t {
        OtherKeyFits(s, t, c, session, u);
      } else {
        OwnKeyFits(s, t, c, session);
      }
    }
  }

  lemma {:induction false} RunKeepsKeys(s: System, acts: seq<Action>, s': System, session: string)
    requires KeysFit(s, session) && Orderly(s, acts, session) && Runs(s, acts, s')
    ensures KeysFit(s', session) && OneDeriving(s', session)
    decreases |acts|
  {
    if acts != [] {
      if acts[0].Act? {
        StepKeepsKeys(s, acts[0].t, acts[0].choice, session);
      } else {
        assert KeysFit(Do(s, acts[0]), session) by {
          hide HasForm, NumbersUsed;
        }
      }
      hide KeysFit, OneDeriving, SuppliesOther, Enabled;
      RunKeepsKeys(Do(s, acts[0]), acts[1..], s', session);
    }
  }

  /** In an orderly run a call without a key never gets another call's outcome: its insert
      wins, unless another tool's row spells the same id, and then it fails. */
  lemma UnkeyedCallsAreNew(s0: System, acts: seq<Action>, s: System, session: string, t: Tid)
    requires Initial(s0) && Runs(s0, acts, s) && Orderly(s0, acts, session)
    requires t in s.tasks && s.tasks[t].pc.Inserting? && Deriving(s.tasks[t].pc, session)
    ensures var req, key := s.tasks[t].pc.req, s.tasks[t].pc.key;
            var id := CallIdFor(req.tool, key);
            Insert(s.rows, req.tool, key, session, req.rc, req.args).1
            == if id in s.rows then Clash else Won
  {
    assert KeysFit(s0, session);
    RunKeepsKeys(s0, acts, s, session);
    assert KeyFits(s.rows, s.tasks[t].pc, session);
    var req, key := s.tasks[t].pc.req, s.tasks[t].pc.key;
    var n: nat :| key == DerivedKey(session, n) && Unused(s.rows, session, n);
    hide DerivedKey, CountForSession;
  }

  // ---- a session that never brings a key ----

  ghost predicate BringsNone(a: Action, session: string) {
    a.Enter? && a.entry.EnterCall? && a.entry.req.session == session ==> a.entry.req.idemKey.None?
  }

  /** Throughout the run no call of the session brings a key, and they do not overlap between
      counting and inserting. */
  ghost predicate KeylessRun(s: System, acts: seq<Action>, session: string)
    decreases |acts|
  {
    OneDeriving(s, session)
    && (acts != [] ==>
          Enabled(s, acts[0]) && BringsNone(acts[0], session) && KeylessRun(Do(s, acts[0]), acts[1..], session))
  }

  predicate Filed(rows: Table, id: string, session: string, n: nat) {
    id in rows && rows[id].session == session && rows[id].idemKey == DerivedKey(session, n)
  }

  ghost predicate InUse(rows: Table, session: string, n: nat) {
    exists id :: Filed(rows, id, session, n)
  }

  /** The session's calls are filed under its first keys, and those are all in use. */
  ghost predicate Consecutive(rows: Table, session: string) {
    && (forall n: nat | 1 <= n <= CountForSession(rows, session) :: InUse(rows, session, n))
    && (forall id | id in rows && rows[id].session == session ::
          exists n: nat :: 1 <= n <= CountForSession(rows, session) && Filed(rows, id, session, n))
  }

  ghost predicate NextIsFree(rows: Table, pc: Pc, session: string) {
    match pc
    case Validating(req) => req.session == session ==> req.idemKey.None?
    case Counting(req) => req.session == session ==> req.idemKey.None?
    case Inserting(req, key) =>
      req.session == session ==> req.idemKey.None? && key == DerivedKey(session, CountForSession(rows, session) + 1)
    case _ => true
  }

  ghost predicate AllConsecutive(s: System, session: string) {
    Consecutive(s.rows, session) && forall u | u in s.tasks :: NextIsFree(s.rows, s.tasks[u].pc, session)
  }

  lemma SameKeysConsecutive(rows: Table, rows': Table, session: string)
    requires SameKeys(rows, rows') && CountForSession(rows', session) == CountForSession(rows, session)
    requires Consecutive(rows, session)
    ensures Consecutive(rows', session)
  {
    hide CountForSession, DerivedKey;
    assert forall id, n: nat :: Filed(rows, id, session, n) == Filed(rows', id, session, n);
    assert forall n: nat :: InUse(rows, session, n) ==> InUse(rows', session, n);
  }

  lemma NewRowConsecutive(rows: Table, id: string, row: Row, session: string)
    requires id !in rows && Consecutive(rows, session)
    requires row.session == session ==> row.idemKey == DerivedKey(session, CountForSession(rows, session) + 1)
    ensures Consecutive(rows[id := row], session)
    ensures CountForSession(rows[id := row], session)
         == CountForSession(rows, session) + if row.session == session then 1 else 0
  {
    var rows', n := rows[id := row], CountForSession(rows, session);
    NewRowCounts(rows, id, row, session);
    hide CountForSession, DerivedKey;
    assert forall x, m: nat | x != id :: Filed(rows, x, session, m) == Filed(rows', x, session, m);
    if row.session == session {
      assert Filed(rows', id, session, n + 1);
    }
    forall m: nat | 1 <= m <= CountForSession(rows', session)
      ensures InUse(rows', session, m)
    {
      if m <= n {
        assert InUse(rows, session, m);
        var x :| Filed(rows, x, session, m);
        assert Filed(rows', x, session, m);
      }
    }
    forall x | x in rows' && rows'[x].session == session
      ensures exists m: nat :: 1 <= m <= CountForSession(rows', session) && Filed(rows', x, session, m)
    {
      if x != id {
        var m: nat :| 1 <= m <= n && Filed(rows, x, session, m);
        assert Filed(rows', x, session, m);
      }
    }
  }

  lemma InsertEffect(s: System, t: Tid, c: Choice)
    requires t in s.tasks && s.tasks[t].pc.Inserting?
    ensures var s', pc := Step(s, t, c), s.tasks[t].pc;
            var id := CallIdFor(pc.req.tool, pc.key);
            && (s'.rows == s.rows
                || (id !in s.rows && exists row: Row ::
                      row.session == pc.req.session && row.idemKey == pc.key && s'.rows == s.rows[id := row]))
            && s'.tasks == s.tasks[t := s'.tasks[t]]
            && !s'.tasks[t].pc.Validating? && !s'.tasks[t].pc.Counting? && !s'.tasks[t].pc.Inserting?
  {
    var s', pc := Step(s, t, c), s.tasks[t].pc;
    var req := pc.req;
    var row := FreshRow(req.tool, pc.key, req.session, req.rc, req.args);
    assert row.session == req.session && row.idemKey == pc.key;
    hide FreshRow, CallIdFor;
    assert s'.rows == s.rows || s'.rows == s.rows[CallIdFor(req.tool, pc.key) := row];
  }

  lemma InsertKeepsConsecutive(s: System, t: Tid, c: Choice, session: string)
    requires t in s.tasks && s.tasks[t].pc.Inserting? && AllConsecutive(s, session) && OneDeriving(s, session)
    ensures AllConsecutive(Step(s, t, c), session)
  {
    var s', pc := Step(s, t, c), s.tasks[t].pc;
    assert NextIsFree(s.rows, pc, session);
    InsertEffect(s, t, c);
    hide Step, DerivedKey, CountForSession, CallIdFor, Consecutive;
    if s'.rows != s.rows {
      var id := CallIdFor(pc.req.tool, pc.key);
      var row: Row :| row.session == pc.req.session && row.idemKey == pc.key && s'.rows == s.rows[id := row];
      NewRowConsecutive(s.rows, id, row, session);
      assert forall u | u in s.tasks && u != t && pc.req.session == session :: !Deriving(s.tasks[u].pc, session);
    }
  }

  lemma StepKeepsConsecutive(s: System, t: Tid, c: Choice, session: string)
    requires t in s.tasks && AllConsecutive(s, session) && OneDeriving(s, session)
    ensures AllConsecutive(Step(s, t, c), session)
  {
    var s', pc := Step(s, t, c), s.tasks[t].pc;
    if pc.Inserting? {
      InsertKeepsConsecutive(s, t, c, session);
    } else {
      OnlyInsertsCount(s, t, pc, c, session);
      SameKeysConsecutive(s.rows, s'.rows, session);
      assert NextIsFree(s.rows, pc, session);
      NextStaysFree(s, t, pc, c, session);
      hide Next, DerivedKey, CountForSession, Consecutive, SameKeys;
    }
  }

  lemma NextStaysFree(s: System, t: Tid, pc: Pc, c: Choice, session: string)
    requires NextIsFree(s.rows, pc, session) && !pc.Inserting?
    ensures NextIsFree(s.rows, Next(s, t, pc, c).pc, session)
  {
    if pc.Validating? {
      AfterValidating(s, t, pc.req, c);
    } else if !pc.Counting? {
      KeyIsBehind(s, t, pc, c);
    }
    hide DerivedKey, CountForSession, SetStatus, OutcomeFor, JobOf, Insert;
  }

  lemma {:induction false} RunKeepsConsecutive(s: System, acts: seq<Action>, s': System, session: string)
    requires AllConsecutive(s, session) && KeylessRun(s, acts, session) && Runs(s, acts, s')
    ensures AllConsecutive(s', session)
    decreases |acts|
  {
    if acts != [] {
      if acts[0].Act? {
        StepKeepsConsecutive(s, acts[0].t, acts[0].choice, session);
      }
      hide Step, OneDeriving, Enabled, Consecutive;
      RunKeepsConsecutive(Do(s, acts[0]), acts[1..], s', session);
    }
  }

  /** If no call of a session brings a key and they do not overlap, their keys are
      session:1, session:2, and so on, one for each call the session has made. */
  lemma KeylessCallsAreNumbered(s0: System, acts: seq<Action>, s: System, session: string)
    requires Initial(s0) && Runs(s0, acts, s) && KeylessRun(s0, acts, session)
    ensures Consecutive(s.rows, session)
    ensures forall t | t in s.tasks && s.tasks[t].pc.Inserting? && s.tasks[t].pc.req.session == session ::
              s.tasks[t].pc.key == DerivedKey(session, CountForSession(s.rows, session) + 1)
  {
    assert CallsOf(s0.rows, session) == {};
    RunKeepsConsecutive(s0, acts, s, session);
  }

  // ---- overlapping, they are not new ----

  const UNKEYED := Request("s", "t", "{}", None, Write)

  function Pair(rows: Table, a: Pc, b: Pc, log: seq<Event>): System {
    System(0, rows, map[], map[0 := Task(Caller, a), 1 := Task(Caller, b)], log)
  }

  lemma PairStep(rows: Table, a: Pc, b: Pc, t: Tid, a': Pc, b': Pc)
    requires Reachable(Pair(rows, a, b, [])) && t <= 1
    requires Next(Pair(rows, a, b, []), t, if t == 0 then a else b, SILENT)
          == Effect(rows, map[], if t == 0 then a' else b', None)
    requires if t == 0 then b' == b else a' == a
    ensures Reachable(Pair(rows, a', b', []))
  {
    hide Reachable, Next;
    var s := ReachMore(Pair(rows, a, b, []), Act(t, SILENT));
    assert s.tasks == Pair(rows, a', b', []).tasks;
  }

  lemma BothEntered()
    ensures Reachable(Pair(map[], Validating(UNKEYED), Validating(UNKEYED), []))
  {
    var s := System(0, map[], map[], map[], []);
    assert Initial(s) && Runs(s, [], s);
    hide Reachable, Next;
    s := ReachMore(s, Enter(0, EnterCall(UNKEYED)));
    s := ReachMore(s, Enter(1, EnterCall(UNKEYED)));
    assert s == Pair(map[], Validating(UNKEYED), Validating(UNKEYED), []);
  }

  lemma BothCounting()
    ensures Reachable(Pair(map[], Counting(UNKEYED), Counting(UNKEYED), []))
  {
    BothEntered();
    hide Reachable, DerivedKey, CountForSession, OutcomeFor, CallIdFor, Insert;
    PairStep(map[], Validating(UNKEYED), Validating(UNKEYED), 0, Counting(UNKEYED), Validating(UNKEYED));
    PairStep(map[], Counting(UNKEYED), Validating(UNKEYED), 1, Counting(UNKEYED), Counting(UNKEYED));
  }

  lemma BothCounted() returns (key: string)
    ensures Reachable(Pair(map[], Inserting(UNKEYED, key), Inserting(UNKEYED, key), []))
  {
    BothCounting();
    hide Reachable, DerivedKey, CountForSession, OutcomeFor, CallIdFor, Insert;
    key := DerivedKey("s", CountForSession(map[], "s") + 1);
    PairStep(map[], Counting(UNKEYED), Counting(UNKEYED), 0, Inserting(UNKEYED, key), Counting(UNKEYED));
    PairStep(map[], Inserting(UNKEYED, key), Counting(UNKEYED), 1, Inserting(UNKEYED, key), Inserting(UNKEYED, key));
  }

  /** Two calls of one session that both count before either inserts are given one key, and
      the second reads as a replay of the first. */
  lemma OverlappingUnkeyedCallsReplay()
    ensures exists s, key :: Reachable(s) && 1 in s.tasks && s.tasks[1].pc == Inserting(UNKEYED, key)
                             && Insert(s.rows, "t", key, "s", Write, "{}").1 == Lost
  {
    var key := BothCounted();
    hide Reachable, DerivedKey, CountForSession, CallIdFor;
    var a := Pair(map[], Inserting(UNKEYED, key), Inserting(UNKEYED, key), []);
    var s := ReachMore(a, Act(0, SILENT));
    assert s.tasks[1] == a.tasks[1];
    assert s.rows == map[CallIdFor("t", key) := FreshRow("t", key, "s", Write, "{}")];
  }
}
