/** What every run of the session store keeps: the log rebuilds the table, versions
    never repeat, checkpoints are prefixes, recorded values stay. */
module StoreProofs {
  import opened Outcomes
  import opened Text
  import opened Ordering
  import opened JsonValues
  import opened StoreModel

  // ---- the invariant ----

  /** Events are numbered 1, 2, 3, ... without gaps. */
  ghost predicate Numbered(log: seq<Event>) {
    forall i | 0 <= i < |log| :: log[i].seqNo == i + 1
  }

  lemma {:induction false} MaxOfNumbered(log: seq<Event>)
    requires Numbered(log)
    ensures MaxSeq(log) == |log|
  {
    if log != [] {
      MaxOfNumbered(log[..|log| - 1]);
    }
  }

  /** The table row of `slot` holds exactly what replaying its session's log gives. */
  ghost predicate SlotRefined(db: Db, slot: Slot) {
    var replayed := Replay(LogOf(db.log, slot.session));
    var at := (slot.namespace, slot.key);
    && (slot in db.state <==> at in replayed)
    && (slot in db.state ==> replayed[at] == db.state[slot].value)
  }

  ghost predicate RowOk(db: Db, slot: Slot) {
    slot in db.state ==>
      && 1 <= db.state[slot].updatedSeq <= |LogOf(db.log, slot.session)|
      && db.state[slot].valueType == JsonType(db.state[slot].value)
  }

  /** A checkpoint's rows are the replay of the events before its own, and its own event
      carries them. */
  ghost predicate CheckpointOk(db: Db, c: Checkpoint) {
    var log := LogOf(db.log, c.session);
    && 1 <= c.eventSeq <= |log|
    && log[c.eventSeq - 1] == Event(c.eventSeq, "checkpoint", CheckpointPayload(c.tag, c.rows))
    && IsReplay(c.rows, Replay(log[..c.eventSeq - 1]))
  }

  /** Holds in every run, whatever is appended to the log. */
  ghost predicate Kept(db: Db) {
    && (forall session :: Numbered(LogOf(db.log, session)))
    && (forall slot :: RowOk(db, slot))
  }

  ghost predicate Refined(db: Db) {
    forall slot :: SlotRefined(db, slot)
  }

  ghost predicate Consistent(db: Db) {
    Kept(db) && Refined(db) && forall c | c in db.checkpoints :: CheckpointOk(db, c)
  }

  // ---- appending ----

  lemma AppendNumbers(log: seq<Event>, kind: string, payload: Json)
    requires Numbered(log)
    ensures Numbered(Append(log, kind, payload)) && MaxSeq(Append(log, kind, payload)) == |log| + 1
  {
    MaxOfNumbered(log);
    MaxOfNumbered(Append(log, kind, payload));
  }

  lemma ReplayOfAppend(log: seq<Event>, kind: string, payload: Json)
    ensures Replay(Append(log, kind, payload))
         == ReplayEvent(Replay(log), Event(MaxSeq(log) + 1, kind, payload))
    ensures kind != STATE_SET ==> Replay(Append(log, kind, payload)) == Replay(log)
  {
    assert Append(log, kind, payload)[..|log|] == log;
  }

  lemma SetPayloadReplays(acc: map<(string, string), Json>, n: nat, slot: Slot, value: Json)
    ensures ReplayEvent(acc, Event(n, STATE_SET, SetPayload(slot.namespace, slot.key, value)))
         == acc[(slot.namespace, slot.key) := value]
  {
    var p := SetPayload(slot.namespace, slot.key, value);
    var ms := p.members;
    assert |"namespace"| == 9 && |"key"| == 3 && |"value_type"| == 10 && |"value"| == 5;
    assert ms[1..][0] == ms[1] && ms[1..][1..] == ms[2..] && ms[2..][0] == ms[2] && ms[2..][1..] == ms[3..]
           && ms[3..][0] == ms[3];
    assert Lookup(ms, "key") == Lookup(ms[1..], "key");
    assert Lookup(ms, "value") == Lookup(ms[1..], "value") == Lookup(ms[2..], "value") == Lookup(ms[3..], "value");
  }

  /** Logs only grow, so prefixes and checkpoints survive. */
  ghost predicate LogsGrow(db: Db, db': Db) {
    forall session :: LogOf(db.log, session) <= LogOf(db'.log, session)
  }

  lemma CheckpointsSurvive(db: Db, db': Db, c: Checkpoint)
    requires LogsGrow(db, db') && CheckpointOk(db, c)
    ensures CheckpointOk(db', c)
  {
    var log, log' := LogOf(db.log, c.session), LogOf(db'.log, c.session);
    assert log'[..c.eventSeq - 1] == log[..c.eventSeq - 1];
  }

  lemma AppendKeeps(db: Db, session: string, kind: string, payload: Json)
    requires Kept(db)
    ensures Kept(AppendEvent(db, session, kind, payload)) && LogsGrow(db, AppendEvent(db, session, kind, payload))
  {
    var db' := AppendEvent(db, session, kind, payload);
    AppendNumbers(LogOf(db.log, session), kind, payload);
    LogAfterAppend(db, session, kind, payload);
    hide Numbered, Append;
    forall s
      ensures Numbered(LogOf(db'.log, s))
    {
      assert Numbered(LogOf(db.log, s));
    }
    forall slot: Slot
      ensures RowOk(db', slot)
    {
      assert RowOk(db, slot) && LogOf(db.log, slot.session) <= LogOf(db'.log, slot.session);
    }
  }

  /** The slot and the value a replay would take from an event. */
  function Replayable(session: string, kind: string, payload: Json): Option<(Slot, Json)> {
    if kind != STATE_SET then None
    else
      match (StringField(payload, "namespace"), StringField(payload, "key"), Field(payload, "value"))
      case (Some(ns), Some(key), Some(value)) => Some((Slot(session, ns, key), value))
      case _ => None
  }

  /** An appended event tells a replay nothing, or what the table already holds. */
  predicate Agrees(db: Db, session: string, kind: string, payload: Json) {
    match Replayable(session, kind, payload)
    case None => true
    case Some((slot, value)) => slot in db.state && db.state[slot].value == value
  }

  /** A direct append keeps the log and the table in step exactly when its event agrees. */
  lemma AppendKeepsRefinedIff(db: Db, session: string, kind: string, payload: Json)
    requires Refined(db)
    ensures Refined(AppendEvent(db, session, kind, payload)) <==> Agrees(db, session, kind, payload)
  {
    var db' := AppendEvent(db, session, kind, payload);
    var event := Replayable(session, kind, payload);
    LogAfterAppend(db, session, kind, payload);
    assert db'.state == db.state && (event.Some? ==> event.value.0.session == session);
    hide Replay, Append, Replayable, AppendEvent;
    if event.Some? {
      assert SlotRefined(db, event.value.0);
      assert !Agrees(db, session, kind, payload) ==> !SlotRefined(db', event.value.0);
    }
    if Agrees(db, session, kind, payload) {
      forall slot: Slot
        ensures SlotRefined(db', slot)
      {
        assert SlotRefined(db, slot);
      }
    }
  }

  lemma AppendKeepsConsistent(db: Db, session: string, kind: string, payload: Json)
    requires Consistent(db) && Agrees(db, session, kind, payload)
    ensures Consistent(AppendEvent(db, session, kind, payload))
    ensures LogsGrow(db, AppendEvent(db, session, kind, payload))
  {
    var db' := AppendEvent(db, session, kind, payload);
    AppendKeeps(db, session, kind, payload);
    AppendKeepsRefinedIff(db, session, kind, payload);
    hide Kept, Refined, CheckpointOk;
    forall c | c in db'.checkpoints
      ensures CheckpointOk(db', c)
    {
      CheckpointsSurvive(db, db', c);
    }
  }

  lemma LogAfterAppend(db: Db, session: string, kind: string, payload: Json)
    ensures var db' := AppendEvent(db, session, kind, payload);
            && LogsGrow(db, db')
            && forall s :: LogOf(db'.log, s)
                         == if s == session then Append(LogOf(db.log, session), kind, payload) else LogOf(db.log, s)
  {
  }

  /** Writing a slot and logging it in the same operation. */
  function Write(db: Db, slot: Slot, row: StateRow): Db {
    AppendEvent(db.(state := db.state[slot := row]), slot.session, STATE_SET,
                SetPayload(slot.namespace, slot.key, row.value))
  }

  lemma WriteKeeps(db: Db, slot: Slot, row: StateRow)
    requires Kept(db) && row.valueType == JsonType(row.value)
    requires 1 <= row.updatedSeq <= |LogOf(db.log, slot.session)| + 1
    ensures Kept(Write(db, slot, row)) && LogsGrow(db, Write(db, slot, row))
  {
    var payload := SetPayload(slot.namespace, slot.key, row.value);
    var db' := Write(db, slot, row);
    AppendNumbers(LogOf(db.log, slot.session), STATE_SET, payload);
    LogAfterAppend(db, slot.session, STATE_SET, payload);
    hide Numbered, SetPayload;
    forall s
      ensures Numbered(LogOf(db'.log, s))
    {
      assert Numbered(LogOf(db.log, s));
    }
    forall other: Slot
      ensures RowOk(db', other)
    {
      assert RowOk(db, other) && LogOf(db.log, other.session) <= LogOf(db'.log, other.session);
    }
  }

  lemma WriteKeepsSlot(db: Db, slot: Slot, row: StateRow, other: Slot)
    requires SlotRefined(db, other)
    ensures SlotRefined(Write(db, slot, row), other)
  {
    var payload := SetPayload(slot.namespace, slot.key, row.value);
    var log := LogOf(db.log, slot.session);
    ReplayOfAppend(log, STATE_SET, payload);
    SetPayloadReplays(Replay(log), MaxSeq(log) + 1, slot, row.value);
    LogAfterAppend(db, slot.session, STATE_SET, payload);
    assert other != slot && other.session == slot.session ==>
        (other.namespace, other.key) != (slot.namespace, slot.key);
  }

  lemma WriteKeepsConsistent(db: Db, slot: Slot, row: StateRow)
    requires Consistent(db) && row.valueType == JsonType(row.value)
    requires 1 <= row.updatedSeq <= |LogOf(db.log, slot.session)| + 1
    ensures Consistent(Write(db, slot, row)) && LogsGrow(db, Write(db, slot, row))
  {
    var db' := Write(db, slot, row);
    WriteKeeps(db, slot, row);
    hide Kept, SlotRefined, CheckpointOk;
    forall other: Slot
      ensures SlotRefined(db', other)
    {
      assert SlotRefined(db, other);
      WriteKeepsSlot(db, slot, row, other);
    }
    forall c | c in db'.checkpoints
      ensures CheckpointOk(db', c)
    {
      assert db'.checkpoints == db.checkpoints;
      CheckpointsSurvive(db, db', c);
    }
  }

  // ---- each operation ----

  /** The row a successful set leaves. */
  lemma SetStateWrites(db: Db, slot: Slot, value: Json)
    requires Kept(db)
    ensures var (db', r) := SetState(db, slot, value);
            var row := StateRow(JsonType(value), value, |LogOf(db.log, slot.session)| + 1);
            db' == if r.Ok? then Write(db, slot, row) else db
  {
    AppendNumbers(LogOf(db.log, slot.session), STATE_SET, SetPayload(slot.namespace, slot.key, value));
    assert RowOk(db, slot);
  }

  lemma CasStateWrites(db: Db, slot: Slot, expected: Option<int>, value: Json)
    requires Kept(db)
    ensures var (db', outcome) := CasState(db, slot, expected, value);
            match outcome
            case Stale(_) => db' == db
            case Applied(row) =>
              && db' == Write(db, slot, row) && row.valueType == JsonType(row.value)
              && 1 <= row.updatedSeq <= |LogOf(db.log, slot.session)| + 1
  {
    assert RowOk(db, slot);
  }

  lemma StoreCheckpoint(db: Db, c: Checkpoint)
    requires Consistent(db) && CheckpointOk(db, c)
    ensures var db' := db.(checkpoints := db.checkpoints + [c]);
            Consistent(db') && LogsGrow(db, db') && CheckpointOk(db', c)
  {
    var db' := db.(checkpoints := db.checkpoints + [c]);
    hide Replay, CheckpointPayload, Kept, Refined;
    SameTables(db, db');
    CheckpointsSurvive(db, db', c);
    hide CheckpointOk;
    forall d | d in db'.checkpoints
      ensures CheckpointOk(db', d)
    {
      if d != c {
        CheckpointsSurvive(db, db', d);
      }
    }
  }

  lemma CheckpointKeeps(db: Db, session: string, tag: Option<string>)
    requires Consistent(db)
    ensures var (db', c) := CreateCheckpoint(db, session, tag);
            Consistent(db') && LogsGrow(db, db') && CheckpointOk(db', c)
  {
    var payload := CheckpointPayload(tag, RowsOf(db, session));
    var mid := AppendEvent(db, session, "checkpoint", payload);
    var (db', c) := CreateCheckpoint(db, session, tag);
    assert db' == mid.(checkpoints := mid.checkpoints + [c]);
    assert Agrees(db, session, "checkpoint", payload);
    CheckpointIsOk(db, session, tag);
    hide Replay, CheckpointPayload, Append, Kept, Refined, RowsOf, CheckpointOk, LogsGrow, CreateCheckpoint;
    AppendKeepsConsistent(db, session, "checkpoint", payload);
    StoreCheckpoint(mid, c);
    LogsGrowTransitively(db, mid, db');
  }

  lemma CheckpointIsOk(db: Db, session: string, tag: Option<string>)
    requires Kept(db) && Refined(db)
    ensures var c := CreateCheckpoint(db, session, tag).1;
            CheckpointOk(AppendEvent(db, session, "checkpoint", CheckpointPayload(tag, RowsOf(db, session))), c)
  {
    var rows := RowsOf(db, session);
    var log := LogOf(db.log, session);
    assert forall ns, key :: SlotRefined(db, Slot(session, ns, key));
    hide CheckpointPayload, Replay, RowsOf, Refined, SlotRefined;
    var (db', c) := CreateCheckpoint(db, session, tag);
    AppendNumbers(log, "checkpoint", CheckpointPayload(tag, rows));
    MaxOfNumbered(log);
    assert LogOf(db'.log, session)[..c.eventSeq - 1] == log;
    RowsAreReplayIff(db, session);
  }

  predicate IsReplay(rows: map<(string, string), StateRow>, replayed: map<(string, string), Json>) {
    replayed.Keys == rows.Keys && forall at | at in replayed :: rows[at].value == replayed[at]
  }

  /** A session's rows are its replay exactly when log and table are in step for it; so a
      checkpoint taken then, and only then, is true to the log. */
  lemma RowsAreReplayIff(db: Db, session: string)
    ensures IsReplay(RowsOf(db, session), Replay(LogOf(db.log, session)))
       <==> forall ns, key :: SlotRefined(db, Slot(session, ns, key))
  {
    hide Replay;
    var rows, before := RowsOf(db, session), Replay(LogOf(db.log, session));
    forall ns, key
      ensures SlotRefined(db, Slot(session, ns, key))
         <==> ((ns, key) in before <==> (ns, key) in rows)
              && ((ns, key) in before ==> rows[(ns, key)].value == before[(ns, key)])
    {
    }
    if forall ns, key :: SlotRefined(db, Slot(session, ns, key)) {
      forall at: (string, string)
        ensures at in before <==> at in rows
        ensures at in before ==> rows[at].value == before[at]
      {
        assert SlotRefined(db, Slot(session, at.0, at.1));
      }
    }
  }

  lemma SameTables(db: Db, db': Db)
    requires Kept(db) && Refined(db) && db'.log == db.log && db'.state == db.state
    ensures Kept(db') && Refined(db') && LogsGrow(db, db')
  {
    forall slot: Slot
      ensures RowOk(db', slot) && SlotRefined(db', slot)
    {
      assert RowOk(db, slot) && SlotRefined(db, slot);
    }
  }

  /** Tables the invariant does not look at. */
  lemma OtherTablesAreFree(db: Db, db': Db)
    requires Consistent(db) && db'.log == db.log && db'.state == db.state && db'.checkpoints == db.checkpoints
    ensures Consistent(db') && LogsGrow(db, db')
  {
    SameTables(db, db');
    forall c | c in db'.checkpoints
      ensures CheckpointOk(db', c)
    {
      assert CheckpointOk(db, c);
    }
  }

  /** A change outside those tables followed by an event that is not a state change. */
  lemma NoteKeeps(db: Db, mid: Db, session: string, kind: string, payload: Json)
    requires Consistent(db) && kind != STATE_SET
    requires mid.log == db.log && mid.state == db.state && mid.checkpoints == db.checkpoints
    ensures OnlyNoted(db, AppendEvent(mid, session, kind, payload))
  {
    OtherTablesAreFree(db, mid);
    AppendKeepsConsistent(mid, session, kind, payload);
    ReplayOfAppend(LogOf(mid.log, session), kind, payload);
    LogAfterAppend(mid, session, kind, payload);
  }

  /** The replayed state of every session, and the table, are untouched. */
  ghost predicate OnlyNoted(db: Db, db': Db) {
    && Consistent(db') && LogsGrow(db, db') && db'.state == db.state
    && forall s :: Replay(LogOf(db'.log, s)) == Replay(LogOf(db.log, s))
  }

  lemma NothingNoted(db: Db)
    requires Consistent(db)
    ensures OnlyNoted(db, db)
  {
  }

  lemma RecordedKindIsNoState(key: string)
    ensures RecordedKind(key) != STATE_SET
  {
    assert RecordedKind(key)[0] == 'n' && STATE_SET[0] == 's';
  }

  /** Every operation keeps what every run keeps. */
  lemma ApplyKeeps(db: Db, op: Op)
    requires Kept(db)
    ensures Kept(Apply(db, op)) && LogsGrow(db, Apply(db, op))
  {
    match op
    case OpSet(slot, value) =>
      SetStateWrites(db, slot, value);
      if SetState(db, slot, value).1.Ok? {
        WriteKeeps(db, slot, StateRow(JsonType(value), value, |LogOf(db.log, slot.session)| + 1));
      }
    case OpCas(slot, expected, value) =>
      CasStateWrites(db, slot, expected, value);
      if CasState(db, slot, expected, value).1.Applied? {
        WriteKeeps(db, slot, CasState(db, slot, expected, value).1.row);
      }
    case _ => OthersNote(db, op);
  }

  /** The other operations append at most one event and leave the table alone. */
  lemma OthersNote(db: Db, op: Op)
    requires Kept(db) && !op.OpSet? && !op.OpCas?
    ensures Kept(Apply(db, op)) && LogsGrow(db, Apply(db, op)) && Apply(db, op).state == db.state
  {
    hide Kept, Append, CheckpointPayload, ResumePayload, SignalPayload, FindKind;
    var db' := Apply(db, op);
    if db'.log == db.log {
      KeptByTables(db, db');
    } else {
      var session, e := Noted(db, op);
      var mid := AppendEvent(db, session, e.kind, e.payload);
      AppendKeeps(db, session, e.kind, e.payload);
      KeptByTables(mid, db');
    }
  }

  lemma KeptByTables(db: Db, db': Db)
    requires Kept(db) && db'.log == db.log && db'.state == db.state
    ensures Kept(db') && LogsGrow(db, db')
  {
    assert forall slot :: RowOk(db, slot) ==> RowOk(db', slot);
  }

  /** The one event an operation appends. */
  lemma Noted(db: Db, op: Op) returns (session: string, e: Event)
    requires !op.OpSet? && !op.OpCas? && Apply(db, op).log != db.log
    ensures Apply(db, op).log == AppendEvent(db, session, e.kind, e.payload).log
    ensures Apply(db, op).state == db.state
  {
    hide Append, CheckpointPayload, ResumePayload, SignalPayload, FindKind;
    match op
    case OpAppend(s, kind, payload) => session, e := s, Event(0, kind, payload);
    case OpCheckpoint(s, tag) => session, e := s, Event(0, "checkpoint", CheckpointPayload(tag, RowsOf(db, s)));
    case OpEnqueue(s, name, payload) => session, e := s, Event(0, "signal.notified", SignalPayload(name, payload));
    case OpTake(s, name) =>
      var taken := db.signals[FirstPending(db.signals, s, name)];
      session, e := s, Event(0, "signal.delivered", SignalPayload(name, taken.payload));
    case OpMigrate(s, hash) =>
      session, e := s, Event(0, "session.migrated", Object([Member("config_hash", String(hash))]));
    case OpResume(s, hash, payload) =>
      session, e := s, Event(0, "session.resumed", ResumePayload(payload, hash, LatestCheckpoint(db.checkpoints, s)));
    case OpKill(s) => session, e := s, Event(0, "session.killed", Null);
    case OpRecord(s, key, produced) =>
      session, e := s, Event(0, RecordedKind(key), Object([Member("value", produced)]));
    case OpCreate(_, _) =>
    case OpIngest(_) =>
  }

  /** A direct append agrees with the table; any other operation is fine. */
  predicate Harmless(db: Db, op: Op) {
    op.OpAppend? ==> Agrees(db, op.session, op.kind, op.payload)
  }

  lemma ApplyKeepsConsistent(db: Db, op: Op)
    requires Consistent(db) && Harmless(db, op)
    ensures Consistent(Apply(db, op)) && LogsGrow(db, Apply(db, op))
  {
    match op
    case OpSet(slot, value) =>
      SetStateWrites(db, slot, value);
      if SetState(db, slot, value).1.Ok? {
        WriteKeepsConsistent(db, slot, StateRow(JsonType(value), value, |LogOf(db.log, slot.session)| + 1));
      }
    case OpCas(slot, expected, value) =>
      CasStateWrites(db, slot, expected, value);
      if CasState(db, slot, expected, value).1.Applied? {
        WriteKeepsConsistent(db, slot, CasState(db, slot, expected, value).1.row);
      }
    case OpAppend(session, kind, payload) => AppendKeepsConsistent(db, session, kind, payload);
    case OpCheckpoint(session, tag) => CheckpointKeeps(db, session, tag);
    case OpCreate(session, configHash) => OtherTablesAreFree(db, Apply(db, op));
    case OpIngest(configHash) => OtherTablesAreFree(db, Apply(db, op));
    case _ => QuietOpKeeps(db, op);
  }

  /** Signals, migration, resume, kill, recorded values, and events that are not state changes. */
  predicate Quiet(op: Op) {
    || op.OpEnqueue? || op.OpTake? || op.OpMigrate? || op.OpResume? || op.OpKill? || op.OpRecord?
    || (op.OpAppend? && op.kind != STATE_SET)
  }

  /** None of these changes the replayed state of any session. */
  lemma QuietOpKeeps(db: Db, op: Op)
    requires Consistent(db) && Quiet(op)
    ensures OnlyNoted(db, Apply(db, op))
  {
    NothingNoted(db);
    RecordedKindIsNoState(if op.OpRecord? then op.key else "");
    hide Consistent, OnlyNoted, AppendEvent, RecordedKind;
    match op
    case OpEnqueue(session, name, payload) =>
      NoteKeeps(db, db.(signals := db.signals + [Signal(session, name, payload, false)]),
                session, "signal.notified", SignalPayload(name, payload));
    case OpTake(session, name) =>
      var i := FirstPending(db.signals, session, name);
      if i < |db.signals| {
        NoteKeeps(db, db.(signals := db.signals[i := db.signals[i].(delivered := true)]),
                  session, "signal.delivered", SignalPayload(name, db.signals[i].payload));
      }
    case OpMigrate(session, configHash) =>
      if configHash in db.bundles {
        var mid := if session in db.sessions
                   then db.(sessions := db.sessions[session := db.sessions[session].(configHash := configHash)])
                   else db;
        NoteKeeps(db, mid, session, "session.migrated", Object([Member("config_hash", String(configHash))]));
      }
    case OpResume(session, configHash, payload) =>
      NoteKeeps(db, SetSessionStatus(db, session, "running"), session, "session.resumed",
                ResumePayload(payload, configHash, LatestCheckpoint(db.checkpoints, session)));
    case OpKill(session) =>
      NoteKeeps(db, SetSessionStatus(db, session, "killed"), session, "session.killed", Null);
    case OpAppend(session, kind, payload) => NoteKeeps(db, db, session, kind, payload);
    case OpRecord(session, key, produced) =>
      NoteKeeps(db, db, session, RecordedKind(key), Object([Member("value", produced)]));
  }

  // ---- theorems over every run ----

  lemma EmptyIsConsistent()
    ensures Consistent(EMPTY)
  {
    assert forall session :: LogOf(EMPTY.log, session) == [];
    assert Replay([]) == map[];
  }

  lemma {:induction false} RunKeeps(db: Db, ops: seq<Op>)
    requires Kept(db)
    ensures Kept(Run(db, ops)) && LogsGrow(db, Run(db, ops))
    decreases |ops|
  {
    if ops != [] {
      ApplyKeeps(db, ops[0]);
      RunKeeps(Apply(db, ops[0]), ops[1..]);
      LogsGrowTransitively(db, Apply(db, ops[0]), Run(db, ops));
    }
  }

  /** Every event appended directly agrees with the table at the time. */
  predicate AppendsAgree(db: Db, ops: seq<Op>)
    decreases |ops|
  {
    ops != [] ==> Harmless(db, ops[0]) && AppendsAgree(Apply(db, ops[0]), ops[1..])
  }

  lemma {:induction false} RunKeepsConsistent(db: Db, ops: seq<Op>)
    requires Consistent(db) && AppendsAgree(db, ops)
    ensures Consistent(Run(db, ops))
    decreases |ops|
  {
    if ops != [] {
      ApplyKeepsConsistent(db, ops[0]);
      RunKeepsConsistent(Apply(db, ops[0]), ops[1..]);
    }
  }

  /** Log and table are in step now and after each operation. */
  ghost predicate AlwaysRefined(db: Db, ops: seq<Op>)
    decreases |ops|
  {
    Refined(db) && (ops != [] ==> AlwaysRefined(Apply(db, ops[0]), ops[1..]))
  }

  lemma {:induction false} AlwaysRefinedFrom(db: Db, ops: seq<Op>)
    requires Consistent(db)
    ensures AlwaysRefined(db, ops) <==> AppendsAgree(db, ops)
    decreases |ops|
  {
    if ops != [] {
      var db' := Apply(db, ops[0]);
      hide Kept, Refined, CheckpointOk, Agrees, Apply;
      if ops[0].OpAppend? {
        AppendKeepsRefinedIff(db, ops[0].session, ops[0].kind, ops[0].payload);
      }
      if Harmless(db, ops[0]) {
        ApplyKeepsConsistent(db, ops[0]);
        AlwaysRefinedFrom(db', ops[1..]);
      }
    }
  }

  /** Log and table stay in step throughout a run exactly when no event appended directly
      tells a replay something the table does not hold. */
  lemma RefinedThroughoutIff(ops: seq<Op>)
    ensures AlwaysRefined(EMPTY, ops) <==> AppendsAgree(EMPTY, ops)
  {
    EmptyIsConsistent();
    AlwaysRefinedFrom(EMPTY, ops);
  }

  /** One direct append of a state change is enough to part them. */
  lemma AppendCanPartLogAndTable(slot: Slot, value: Json)
    ensures var db := Run(EMPTY, [OpAppend(slot.session, STATE_SET, SetPayload(slot.namespace, slot.key, value))]);
            slot !in db.state && (slot.namespace, slot.key) in Replay(LogOf(db.log, slot.session))
  {
    var payload := SetPayload(slot.namespace, slot.key, value);
    var op := OpAppend(slot.session, STATE_SET, payload);
    assert [op][1..] == [];
    assert Run(Apply(EMPTY, op), []) == Apply(EMPTY, op);
    ReplayOfAppend([], STATE_SET, payload);
    SetPayloadReplays(Replay([]), MaxSeq([]) + 1, slot, value);
  }

  lemma LogsGrowTransitively(a: Db, b: Db, c: Db)
    requires LogsGrow(a, b) && LogsGrow(b, c)
    ensures LogsGrow(a, c)
  {
    forall session
      ensures LogOf(a.log, session) <= LogOf(c.log, session)
    {
      assert LogOf(a.log, session) <= LogOf(b.log, session) <= LogOf(c.log, session);
    }
  }

  /** After a run whose direct appends agree with the table, replaying a session's log
      rebuilds exactly its rows. */
  lemma LogRefinesTable(ops: seq<Op>, session: string)
    requires AppendsAgree(EMPTY, ops)
    ensures var db := Run(EMPTY, ops); var replayed := Replay(LogOf(db.log, session));
            forall ns, key ::
              && (Slot(session, ns, key) in db.state <==> (ns, key) in replayed)
              && ((ns, key) in replayed ==> replayed[(ns, key)] == db.state[Slot(session, ns, key)].value)
  {
    EmptyIsConsistent();
    RunKeepsConsistent(EMPTY, ops);
    var db := Run(EMPTY, ops);
    var replayed := Replay(LogOf(db.log, session));
    forall ns, key
      ensures Slot(session, ns, key) in db.state <==> (ns, key) in replayed
      ensures (ns, key) in replayed ==> replayed[(ns, key)] == db.state[Slot(session, ns, key)].value
    {
      assert SlotRefined(db, Slot(session, ns, key));
    }
  }

  /** Then, too, every stored checkpoint is the replay of the log before its event, and the
      event carries it. */
  lemma CheckpointsArePrefixes(ops: seq<Op>, c: Checkpoint)
    requires AppendsAgree(EMPTY, ops) && c in Run(EMPTY, ops).checkpoints
    ensures CheckpointOk(Run(EMPTY, ops), c)
  {
    EmptyIsConsistent();
    RunKeepsConsistent(EMPTY, ops);
  }

  /** And a resume hands back exactly the materialized values. */
  lemma ResumeReturnsTable(ops: seq<Op>, session: string, configHash: string, payload: Json)
    requires AppendsAgree(EMPTY, ops)
    ensures var db := Run(EMPTY, ops); var r := Resume(db, session, configHash, payload).1;
            r.Ok? ==> forall ns, key ::
              && ((ns, key) in r.value <==> Slot(session, ns, key) in db.state)
              && ((ns, key) in r.value ==> r.value[(ns, key)] == db.state[Slot(session, ns, key)].value)
  {
    LogRefinesTable(ops, session);
  }

  // ---- versions ----

  function Version(db: Db, slot: Slot): nat {
    if slot in db.state then db.state[slot].updatedSeq else 0
  }

  /** `op` writes `slot` when it runs on `db`. */
  predicate Writes(db: Db, op: Op, slot: Slot) {
    match op
    case OpSet(s, value) => s == slot && SetState(db, s, value).1.Ok?
    case OpCas(s, expected, value) => s == slot && CasState(db, s, expected, value).1.Applied?
    case _ => false
  }

  predicate WrittenDuring(db: Db, ops: seq<Op>, slot: Slot)
    decreases |ops|
  {
    ops != [] && (Writes(db, ops[0], slot) || WrittenDuring(Apply(db, ops[0]), ops[1..], slot))
  }

  lemma StepVersion(db: Db, op: Op, slot: Slot)
    requires Kept(db)
    ensures if Writes(db, op, slot) then Version(Apply(db, op), slot) > Version(db, slot)
            else GetState(Apply(db, op), slot) == GetState(db, slot)
  {
    assert RowOk(db, slot);
    if op.OpSet? {
      SetStateWrites(db, op.slot, op.value);
    } else if !op.OpCas? {
      OthersNote(db, op);
    }
  }

  lemma {:induction false} RunVersion(db: Db, ops: seq<Op>, slot: Slot)
    requires Kept(db)
    ensures if WrittenDuring(db, ops, slot) then Version(Run(db, ops), slot) > Version(db, slot)
            else GetState(Run(db, ops), slot) == GetState(db, slot)
    decreases |ops|
  {
    if ops != [] {
      StepVersion(db, ops[0], slot);
      ApplyKeeps(db, ops[0]);
      RunVersion(Apply(db, ops[0]), ops[1..], slot);
    }
  }

  /** No ABA: a compare-and-set that expects the version seen in `db` applies later
      exactly when nothing wrote the key in between, mixed writers included. */
  lemma CasAppliesIffUnwritten(prefix: seq<Op>, ops: seq<Op>, slot: Slot, value: Json)
    requires slot in Run(EMPTY, prefix).state
    ensures var db := Run(EMPTY, prefix); var seen := db.state[slot].updatedSeq;
            CasState(Run(db, ops), slot, Some(seen), value).1.Applied? <==> !WrittenDuring(db, ops, slot)
  {
    EmptyIsConsistent();
    RunKeeps(EMPTY, prefix);
    RunVersion(Run(EMPTY, prefix), ops, slot);
  }

  /** Likewise for creation: it applies exactly when the key was never written. */
  lemma CreateAppliesIffUnwritten(prefix: seq<Op>, ops: seq<Op>, slot: Slot, value: Json)
    requires slot !in Run(EMPTY, prefix).state
    ensures var db := Run(EMPTY, prefix);
            CasState(Run(db, ops), slot, None, value).1.Applied? <==> !WrittenDuring(db, ops, slot)
  {
    EmptyIsConsistent();
    RunKeeps(EMPTY, prefix);
    RunVersion(Run(EMPTY, prefix), ops, slot);
  }

  /** After any run a version is at most the log's length and the type column is right. */
  lemma VersionsAndTypes(ops: seq<Op>, slot: Slot)
    requires slot in Run(EMPTY, ops).state
    ensures var db := Run(EMPTY, ops);
            && 1 <= db.state[slot].updatedSeq <= |LogOf(db.log, slot.session)|
            && db.state[slot].valueType == JsonType(db.state[slot].value)
  {
    EmptyIsConsistent();
    RunKeeps(EMPTY, ops);
    assert RowOk(Run(EMPTY, ops), slot);
  }

  // ---- recorded nondeterminism ----

  lemma {:induction false} FindKindInPrefix(log: seq<Event>, longer: seq<Event>, kind: string)
    requires log <= longer && FindKind(log, kind).Some?
    ensures FindKind(longer, kind) == FindKind(log, kind)
    decreases |log|
  {
    if log[0].kind != kind {
      FindKindInPrefix(log[1..], longer[1..], kind);
    }
  }

  lemma {:induction false} FindKindAppended(log: seq<Event>, e: Event)
    requires FindKind(log, e.kind).None?
    ensures FindKind(log + [e], e.kind) == Some(e)
    decreases |log|
  {
    if log != [] {
      assert (log + [e])[1..] == log[1..] + [e];
      FindKindAppended(log[1..], e);
    }
  }

  /** Once a value has been handed out under a key, every later request gets it,
      whatever ran in between and whatever the producer would say now. */
  lemma RecordedOnce(prefix: seq<Op>, session: string, key: string, first: Json, ops: seq<Op>, second: Json)
    ensures var (db, v) := RecordedValue(Run(EMPTY, prefix), session, key, first);
            RecordedValue(Run(db, ops), session, key, second) == (Run(db, ops), v)
  {
    hide Kept, Run, Refined, CheckpointOk, MaxSeq;
    EmptyIsConsistent();
    RunKeeps(EMPTY, prefix);
    var start := Run(EMPTY, prefix);
    var (db, v) := RecordedValue(start, session, key, first);
    ApplyKeeps(start, OpRecord(session, key, first));
    RunKeeps(db, ops);
    var kind, log := RecordedKind(key), LogOf(start.log, session);
    if FindKind(log, kind).None? {
      var payload := Object([Member("value", first)]);
      FindKindAppended(log, Event(MaxSeq(log) + 1, kind, payload));
      assert LogOf(db.log, session) == Append(log, kind, payload);
    }
    FindKindInPrefix(LogOf(db.log, session), LogOf(Run(db, ops).log, session), kind);
  }

  // ---- what a checkpoint's event and a resume's event say ----

  lemma RecordFields(namespace: string, key: string, row: StateRow)
    ensures var j := RecordJson(namespace, key, row);
            && StringField(j, "namespace") == Some(namespace) && StringField(j, "key") == Some(key)
            && StringField(j, "value_type") == Some(row.valueType) && Field(j, "value") == Some(row.value)
  {
    var ms := RecordJson(namespace, key, row).members;
    assert |"namespace"| == 9 && |"key"| == 3 && |"value_type"| == 10 && |"value"| == 5;
    assert Lookup(ms, "key") == Lookup(ms[1..], "key");
    assert Lookup(ms, "value_type") == Lookup(ms[1..], "value_type") == Lookup(ms[1..][1..], "value_type");
    assert Lookup(ms, "value") == Lookup(ms[1..], "value") == Lookup(ms[1..][1..], "value")
        == Lookup(ms[1..][1..][1..], "value");
  }

  lemma {:induction false} RecordsUnderMembers(
    rows: map<(string, string), StateRow>, namespace: string, keys: seq<string>)
    requires forall k | k in keys :: (namespace, k) in rows
    ensures forall j :: j in RecordsUnder(rows, namespace, keys)
                   <==> exists k :: k in keys && j == RecordJson(namespace, k, rows[(namespace, k)])
  {
    hide RecordJson;
    if keys != [] {
      RecordsUnderMembers(rows, namespace, keys[1..]);
      assert keys == [keys[0]] + keys[1..];
    }
  }

  lemma {:induction false} RecordsInMembers(rows: map<(string, string), StateRow>, namespaces: seq<string>)
    ensures forall j :: j in RecordsIn(rows, namespaces)
                   <==> exists ns, k :: ns in namespaces && (ns, k) in rows && j == RecordJson(ns, k, rows[(ns, k)])
  {
    hide RecordJson, RecordsUnder, KeysInOrder;
    if namespaces != [] {
      var ns := namespaces[0];
      var keys := KeysInOrder(KeysUnder(rows, ns));
      assert forall k :: k in keys <==> (ns, k) in rows;
      RecordsUnderMembers(rows, ns, keys);
      RecordsInMembers(rows, namespaces[1..]);
      assert namespaces == [ns] + namespaces[1..];
    }
  }

  /** The records in a checkpoint's event are those of its rows and no others, and each names
      its row and carries its value: the event alone tells the state. */
  lemma CheckpointEventTellsRows(rows: map<(string, string), StateRow>, ns: string, key: string, value: Json)
    ensures (exists j :: j in ListState(rows) && StringField(j, "namespace") == Some(ns)
                         && StringField(j, "key") == Some(key) && Field(j, "value") == Some(value))
       <==> (ns, key) in rows && rows[(ns, key)].value == value
  {
    var all := set at | at in rows :: at.0;
    RecordsInMembers(rows, KeysInOrder(all));
    hide RecordJson, RecordsIn, KeysInOrder, StringField, Field;
    forall n, k | (n, k) in rows
      ensures var j := RecordJson(n, k, rows[(n, k)]);
              j in ListState(rows) && StringField(j, "namespace") == Some(n) && StringField(j, "key") == Some(k)
              && Field(j, "value") == Some(rows[(n, k)].value)
    {
      assert n in all;
      RecordFields(n, k, rows[(n, k)]);
    }
  }

  lemma {:induction false} PutMemberReads(members: seq<Member>, name: string, value: Json, other: string)
    ensures Lookup(PutMember(members, name, value), other)
         == if other == name then Some(value) else Lookup(members, other)
  {
    if members != [] && members[0].name != name {
      PutMemberReads(members[1..], name, value, other);
    }
  }

  /** A resume's event keeps the caller's fields and adds the pinned configuration and the
      session's latest checkpoint. */
  lemma ResumeEventTellsCheckpoint(payload: Json, configHash: string, checkpoint: Option<nat>, name: string)
    requires payload.Object?
    ensures Field(ResumePayload(payload, configHash, checkpoint), name)
         == if name == "checkpoint_id" then Some(if checkpoint.Some? then Number(Decimal(checkpoint.value)) else Null)
            else if name == "config_hash" then Some(String(configHash))
            else Field(payload, name)
  {
    var id := match checkpoint case Some(n) => Number(Decimal(n)) case None => Null;
    var first := PutMember(payload.members, "config_hash", String(configHash));
    assert |"config_hash"| == 11 && |"checkpoint_id"| == 13;
    PutMemberReads(payload.members, "config_hash", String(configHash), name);
    PutMemberReads(first, "checkpoint_id", id, name);
  }
}
