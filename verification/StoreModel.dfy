/** The session store as a value: an append-only event log per session, the
    materialized state table, checkpoints, signals and session rows. */
module StoreModel {
  import opened Outcomes
  import opened Text
  import opened Ordering
  import opened JsonValues

  datatype Event = Event(seqNo: nat, kind: string, payload: Json)

  datatype Slot = Slot(session: string, namespace: string, key: string)

  datatype StateRow = StateRow(valueType: string, value: Json, updatedSeq: nat)

  /** `rows` is the state it stores, read back; its id is its position in the table. */
  datatype Checkpoint = Checkpoint(
    session: string,
    eventSeq: nat,
    tag: Option<string>,
    rows: map<(string, string), StateRow>)

  datatype Signal = Signal(session: string, name: string, payload: Json, delivered: bool)

  datatype Session = Session(status: string, configHash: string)

  datatype Db = Db(
    log: map<string, seq<Event>>,
    state: map<Slot, StateRow>,
    checkpoints: seq<Checkpoint>,
    signals: seq<Signal>,
    sessions: map<string, Session>,
    bundles: set<string>)

  const EMPTY := Db(map[], map[], [], [], map[], {})

  datatype StoreError =
    | StateType(expected: string, actual: string)
    | BundleMissing(configHash: string)
    | SessionNotFound
    | HashMismatch

  datatype CasOutcome = Applied(row: StateRow) | Stale(actual: Option<nat>)

  // ---- the event log ----

  function LogOf(log: map<string, seq<Event>>, session: string): seq<Event> {
    if session in log then log[session] else []
  }

  function MaxSeq(log: seq<Event>): nat {
    if log == [] then 0
    else if log[|log| - 1].seqNo > MaxSeq(log[..|log| - 1]) then log[|log| - 1].seqNo else MaxSeq(log[..|log| - 1])
  }

  /** INSERT ... SELECT COALESCE(MAX(seq), 0) + 1. */
  function Append(log: seq<Event>, kind: string, payload: Json): seq<Event> {
    log + [Event(MaxSeq(log) + 1, kind, payload)]
  }

  const STATE_SET := "state.set"

  function SetPayload(namespace: string, key: string, value: Json): Json {
    Object([Member("namespace", String(namespace)), Member("key", String(key)),
            Member("value_type", String(JsonType(value))), Member("value", value)])
  }

  /** What one event contributes to the replayed state. */
  function ReplayEvent(acc: map<(string, string), Json>, e: Event): map<(string, string), Json> {
    if e.kind != STATE_SET then acc
    else
      var namespace, key := StringField(e.payload, "namespace"), StringField(e.payload, "key");
      var value := Field(e.payload, "value");
      if namespace.Some? && key.Some? && value.Some?
      then acc[(namespace.value, key.value) := value.value]
      else acc
  }

  function Replay(log: seq<Event>): map<(string, string), Json> {
    if log == [] then map[] else ReplayEvent(Replay(log[..|log| - 1]), log[|log| - 1])
  }

  // ---- operations ----

  function AppendEvent(db: Db, session: string, kind: string, payload: Json): Db {
    db.(log := db.log[session := Append(LogOf(db.log, session), kind, payload)])
  }

  function GetState(db: Db, slot: Slot): Option<StateRow> {
    if slot in db.state then Some(db.state[slot]) else None
  }

  /** Type check, then the event, then the upsert, which leaves `value_type` alone. */
  function SetState(db: Db, slot: Slot, value: Json): (Db, Result<(), StoreError>) {
    var existing := GetState(db, slot);
    if existing.Some? && existing.value.valueType != JsonType(value)
    then (db, Err(StateType(existing.value.valueType, JsonType(value))))
    else
      var db1 := AppendEvent(db, slot.session, STATE_SET, SetPayload(slot.namespace, slot.key, value));
      var n := MaxSeq(LogOf(db1.log, slot.session));
      var row := if slot in db1.state then db1.state[slot].(value := value, updatedSeq := n)
                 else StateRow(JsonType(value), value, n);
      (db1.(state := db1.state[slot := row]), Ok(()))
  }

  /** The single statement of a compare-and-set: the new row when it applies. */
  function CasRow(row: Option<StateRow>, expected: Option<int>, value: Json): Option<StateRow> {
    match expected
    case None => if row.None? then Some(StateRow(JsonType(value), value, 1)) else None
    case Some(v) =>
      if row.Some? && row.value.updatedSeq == v then Some(StateRow(JsonType(value), value, v + 1)) else None
  }

  function CasState(db: Db, slot: Slot, expected: Option<int>, value: Json): (Db, CasOutcome) {
    match CasRow(GetState(db, slot), expected, value)
    case None =>
      (db, Stale(match GetState(db, slot) case Some(row) => Some(row.updatedSeq) case None => None))
    case Some(row) =>
      (AppendEvent(db.(state := db.state[slot := row]), slot.session, STATE_SET,
                   SetPayload(slot.namespace, slot.key, value)), Applied(row))
  }

  function RowsOf(db: Db, session: string): map<(string, string), StateRow> {
    map slot | slot in db.state && slot.session == session :: (slot.namespace, slot.key) := db.state[slot]
  }

  function RecordJson(namespace: string, key: string, row: StateRow): Json {
    Object([Member("namespace", String(namespace)), Member("key", String(key)),
            Member("value_type", String(row.valueType)), Member("value", row.value),
            Member("updated_seq", Number(Decimal(row.updatedSeq)))])
  }

  function KeysUnder(rows: map<(string, string), StateRow>, namespace: string): set<string> {
    set at | at in rows && at.0 == namespace :: at.1
  }

  function RecordsUnder(rows: map<(string, string), StateRow>, namespace: string, keys: seq<string>): seq<Json>
    requires forall k | k in keys :: (namespace, k) in rows
  {
    if keys == [] then []
    else [RecordJson(namespace, keys[0], rows[(namespace, keys[0])])] + RecordsUnder(rows, namespace, keys[1..])
  }

  function RecordsIn(rows: map<(string, string), StateRow>, namespaces: seq<string>): seq<Json> {
    if namespaces == [] then []
    else
      RecordsUnder(rows, namespaces[0], KeysInOrder(KeysUnder(rows, namespaces[0])))
      + RecordsIn(rows, namespaces[1..])
  }

  /** A session's rows, by namespace and then by key. */
  function ListState(rows: map<(string, string), StateRow>): seq<Json> {
    RecordsIn(rows, KeysInOrder(set at | at in rows :: at.0))
  }

  function CheckpointPayload(tag: Option<string>, rows: map<(string, string), StateRow>): Json {
    Object([Member("label", match tag case Some(l) => String(l) case None => Null),
            Member("state", Array(ListState(rows)))])
  }

  function CreateCheckpoint(db: Db, session: string, tag: Option<string>): (Db, Checkpoint) {
    var rows := RowsOf(db, session);
    var db1 := AppendEvent(db, session, "checkpoint", CheckpointPayload(tag, rows));
    var checkpoint := Checkpoint(session, MaxSeq(LogOf(db1.log, session)), tag, rows);
    (db1.(checkpoints := db1.checkpoints + [checkpoint]), checkpoint)
  }

  /** Id of the session's latest checkpoint. */
  function LatestCheckpoint(checkpoints: seq<Checkpoint>, session: string): (id: Option<nat>)
    ensures id.Some? ==> 1 <= id.value <= |checkpoints| && checkpoints[id.value - 1].session == session
    ensures forall i | (if id.Some? then id.value else 0) <= i < |checkpoints| :: checkpoints[i].session != session
  {
    if checkpoints == [] then None
    else if checkpoints[|checkpoints| - 1].session == session then Some(|checkpoints|)
    else LatestCheckpoint(checkpoints[..|checkpoints| - 1], session)
  }

  function SignalPayload(name: string, payload: Json): Json {
    Object([Member("signal", String(name)), Member("payload", payload)])
  }

  function EnqueueSignal(db: Db, session: string, name: string, payload: Json): Db {
    AppendEvent(db.(signals := db.signals + [Signal(session, name, payload, false)]),
                session, "signal.notified", SignalPayload(name, payload))
  }

  /** Position of the oldest undelivered signal of the channel, or the length. */
  function FirstPending(signals: seq<Signal>, session: string, name: string): (i: nat)
    ensures i <= |signals|
    ensures i < |signals| ==> signals[i].session == session && signals[i].name == name && !signals[i].delivered
  {
    if signals == [] then 0
    else if signals[0].session == session && signals[0].name == name && !signals[0].delivered then 0
    else 1 + FirstPending(signals[1..], session, name)
  }

  function TakeSignal(db: Db, session: string, name: string): (Db, Option<Json>) {
    var i := FirstPending(db.signals, session, name);
    if i == |db.signals| then (db, None)
    else
      var payload := db.signals[i].payload;
      (AppendEvent(db.(signals := db.signals[i := db.signals[i].(delivered := true)]),
                   session, "signal.delivered", SignalPayload(name, payload)), Some(payload))
  }

  /** The first `n` takes of a channel, one after the other. */
  function TakeMany(db: Db, session: string, name: string, n: nat): Db {
    if n == 0 then db else TakeSignal(TakeMany(db, session, name, n - 1), session, name).0
  }

  function SetSessionStatus(db: Db, session: string, status: string): Db {
    if session in db.sessions then db.(sessions := db.sessions[session := db.sessions[session].(status := status)])
    else db
  }

  function CreateSession(db: Db, session: string, configHash: string): Db {
    if session in db.sessions then db else db.(sessions := db.sessions[session := Session("running", configHash)])
  }

  function MigrateSession(db: Db, session: string, configHash: string): (Db, Result<(), StoreError>) {
    if configHash !in db.bundles then (db, Err(BundleMissing(configHash)))
    else
      var db1 := if session in db.sessions
                 then db.(sessions := db.sessions[session := db.sessions[session].(configHash := configHash)])
                 else db;
      (AppendEvent(db1, session, "session.migrated", Object([Member("config_hash", String(configHash))])), Ok(()))
  }

  function PutMember(members: seq<Member>, name: string, value: Json): seq<Member> {
    if members == [] then [Member(name, value)]
    else if members[0].name == name then [Member(name, value)] + members[1..]
    else [members[0]] + PutMember(members[1..], name, value)
  }

  /** An object is told the pinned configuration and the checkpoint resumed from. */
  function ResumePayload(payload: Json, configHash: string, checkpoint: Option<nat>): Json {
    if !payload.Object? then payload
    else Object(PutMember(PutMember(payload.members, "config_hash", String(configHash)), "checkpoint_id",
                          match checkpoint case Some(id) => Number(Decimal(id)) case None => Null))
  }

  /** Replays the log, marks the session running and records the resume. */
  function Resume(db: Db, session: string, configHash: string, payload: Json)
    : (Db, Result<map<(string, string), Json>, StoreError>)
  {
    if session !in db.sessions then (db, Err(SessionNotFound))
    else if db.sessions[session].configHash != configHash then (db, Err(HashMismatch))
    else
      (AppendEvent(SetSessionStatus(db, session, "running"), session, "session.resumed",
                   ResumePayload(payload, configHash, LatestCheckpoint(db.checkpoints, session))),
       Ok(Replay(LogOf(db.log, session))))
  }

  function Kill(db: Db, session: string): Db {
    AppendEvent(SetSessionStatus(db, session, "killed"), session, "session.killed", Null)
  }

  function RecordedKind(key: string): string {
    "nondeterminism." + key
  }

  /** The first event of that kind. */
  function FindKind(log: seq<Event>, kind: string): Option<Event> {
    if log == [] then None else if log[0].kind == kind then Some(log[0]) else FindKind(log[1..], kind)
  }

  /** Records `produced` the first time, and replays what was recorded ever after. */
  function RecordedValue(db: Db, session: string, key: string, produced: Json): (Db, Json) {
    match FindKind(LogOf(db.log, session), RecordedKind(key))
    case Some(e) => (db, Field(e.payload, "value").GetOr(Null))
    case None =>
      (AppendEvent(db, session, RecordedKind(key), Object([Member("value", produced)])), produced)
  }

  // ---- runs of operations that do not overlap ----

  datatype Op =
    | OpSet(slot: Slot, value: Json)
    | OpCas(slot: Slot, expected: Option<int>, value: Json)
    | OpAppend(session: string, kind: string, payload: Json)
    | OpCheckpoint(session: string, tag: Option<string>)
    | OpEnqueue(session: string, name: string, payload: Json)
    | OpTake(session: string, name: string)
    | OpCreate(session: string, configHash: string)
    | OpIngest(configHash: string)
    | OpMigrate(session: string, configHash: string)
    | OpResume(session: string, configHash: string, payload: Json)
    | OpKill(session: string)
    | OpRecord(session: string, key: string, produced: Json)

  function Apply(db: Db, op: Op): Db {
    match op
    case OpSet(slot, value) => SetState(db, slot, value).0
    case OpCas(slot, expected, value) => CasState(db, slot, expected, value).0
    case OpAppend(session, kind, payload) => AppendEvent(db, session, kind, payload)
    case OpCheckpoint(session, tag) => CreateCheckpoint(db, session, tag).0
    case OpEnqueue(session, name, payload) => EnqueueSignal(db, session, name, payload)
    case OpTake(session, name) => TakeSignal(db, session, name).0
    case OpCreate(session, configHash) => CreateSession(db, session, configHash)
    case OpIngest(configHash) => db.(bundles := db.bundles + {configHash})
    case OpMigrate(session, configHash) => MigrateSession(db, session, configHash).0
    case OpResume(session, configHash, payload) => Resume(db, session, configHash, payload).0
    case OpKill(session) => Kill(db, session)
    case OpRecord(session, key, produced) => RecordedValue(db, session, key, produced).0
  }

  function Run(db: Db, ops: seq<Op>): Db
    decreases |ops|
  {
    if ops == [] then db else Run(Apply(db, ops[0]), ops[1..])
  }
}
