/** What is read back after writes to the state table. */
module StateWrites {
  import opened Outcomes
  import opened JsonValues
  import opened StoreModel
  import opened StoreProofs
  import opened SessionLife

  predicate SameType(a: Json, b: Json) {
    match a
    case Null => b.Null?
    case Bool(_) => b.Bool?
    case Number(_) => b.Number?
    case String(_) => b.String?
    case Array(_) => b.Array?
    case Object(_) => b.Object?
  }

  lemma TypesDiffer(a: Json, b: Json)
    ensures JsonType(a) == JsonType(b) <==> SameType(a, b)
  {
    assert |"null"| == 4 && |"bool"| == 4 && |"array"| == 5;
    assert "null"[0] != "bool"[0] && "number"[0] != "string"[0] && "string"[0] != "object"[0];
    assert "number"[0] != "object"[0];
  }

  /** The event of a write tells the slot and the value. */
  predicate Tells(e: Event, slot: Slot, value: Json) {
    && e.kind == STATE_SET
    && StringField(e.payload, "namespace") == Some(slot.namespace) && StringField(e.payload, "key") == Some(slot.key)
    && Field(e.payload, "value") == Some(value)
  }

  /** `slot` reads back `value`, one event tells of it, and nothing else has changed. */
  ghost predicate Wrote(db: Db, db': Db, slot: Slot, value: Json) {
    && slot in db'.state && db'.state[slot].value == value && db'.state[slot].valueType == JsonType(value)
    && (forall other | other != slot :: GetState(db', other) == GetState(db, other))
    && (exists e :: Tells(e, slot, value) && LogOf(db'.log, slot.session) == LogOf(db.log, slot.session) + [e])
    && (forall session | session != slot.session :: LogOf(db'.log, session) == LogOf(db.log, session))
    && db' == db.(state := db'.state, log := db'.log)
  }

  lemma SetPayloadTells(n: nat, slot: Slot, value: Json)
    ensures Tells(Event(n, STATE_SET, SetPayload(slot.namespace, slot.key, value)), slot, value)
  {
    var ms := SetPayload(slot.namespace, slot.key, value).members;
    assert |"namespace"| == 9 && |"key"| == 3 && |"value_type"| == 10 && |"value"| == 5;
    assert Lookup(ms, "key") == Lookup(ms[1..], "key");
    assert Lookup(ms, "value") == Lookup(ms[1..], "value") == Lookup(ms[1..][1..], "value")
        == Lookup(ms[1..][1..][1..], "value");
  }

  /** A write is refused exactly when the key holds a value of another type, and then
      nothing changes; otherwise it is read back. */
  lemma SetStateIff(db: Db, slot: Slot, value: Json)
    requires slot in db.state ==> db.state[slot].valueType == JsonType(db.state[slot].value)
    ensures var (db', r) := SetState(db, slot, value);
            && (r.Ok? <==> slot !in db.state || SameType(db.state[slot].value, value))
            && (r.Err? ==> db' == db)
            && (r.Ok? ==> Wrote(db, db', slot, value))
  {
    var (db', r) := SetState(db, slot, value);
    if slot in db.state {
      TypesDiffer(db.state[slot].value, value);
    }
    var n := MaxSeq(LogOf(db.log, slot.session)) + 1;
    SetPayloadTells(n, slot, value);
    hide SetPayload, JsonType, MaxSeq, Tells, SameType;
    if r.Ok? {
      var e := Event(n, STATE_SET, SetPayload(slot.namespace, slot.key, value));
      assert LogOf(db'.log, slot.session) == LogOf(db.log, slot.session) + [e];
    }
  }

  /** A compare-and-set applies exactly when the key is as expected, absent or at that
      version; it is then read back under the next version, and otherwise nothing changes
      and the answer tells the version there is. */
  lemma CasStateIff(db: Db, slot: Slot, expected: Option<int>, value: Json)
    ensures var (db', r) := CasState(db, slot, expected, value);
            var row := GetState(db, slot);
            && (r.Applied? <==>
                  if expected.None? then row.None? else row.Some? && row.value.updatedSeq == expected.value)
            && (r.Stale? ==>
                  db' == db && (if row.None? then r.actual == None else r.actual == Some(row.value.updatedSeq)))
            && (r.Applied? ==>
                  && Wrote(db, db', slot, value) && r.row == db'.state[slot]
                  && r.row.updatedSeq == if row.None? then 1 else row.value.updatedSeq + 1)
  {
    var (db', r) := CasState(db, slot, expected, value);
    var n := MaxSeq(LogOf(db.log, slot.session)) + 1;
    SetPayloadTells(n, slot, value);
    hide SetPayload, JsonType, MaxSeq, Tells;
    if r.Applied? {
      var e := Event(n, STATE_SET, SetPayload(slot.namespace, slot.key, value));
      assert LogOf(db'.log, slot.session) == LogOf(db.log, slot.session) + [e];
    }
  }

  // ---- over runs ----

  /** The value of the last write that was accepted. */
  ghost function LastWrite(ops: seq<Op>, slot: Slot): Option<Json>
    decreases |ops|
  {
    if ops == [] then None
    else
      var before := ops[..|ops| - 1];
      var last := LastWrite(before, slot);
      match ops[|ops| - 1]
      case OpSet(s, value) =>
        if s == slot && (last.None? || SameType(last.value, value)) then Some(value) else last
      case OpCas(s, expected, value) =>
        if s == slot && expected == AsExpected(Run(EMPTY, before), slot) then Some(value) else last
      case _ => last
  }

  /** What a compare-and-set must expect to apply. */
  function AsExpected(db: Db, slot: Slot): Option<int> {
    if slot in db.state then Some(db.state[slot].updatedSeq) else None
  }

  function Held(db: Db, slot: Slot): Option<Json> {
    if slot in db.state then Some(db.state[slot].value) else None
  }

  lemma StepReads(db: Db, op: Op, slot: Slot)
    requires Kept(db)
    ensures Held(Apply(db, op), slot)
         == match op
            case OpSet(s, value) =>
              if s == slot && (Held(db, slot).None? || SameType(Held(db, slot).value, value)) then Some(value)
              else Held(db, slot)
            case OpCas(s, expected, value) =>
              if s == slot && expected == AsExpected(db, slot) then Some(value) else Held(db, slot)
            case _ => Held(db, slot)
  {
    if op.OpSet? {
      assert RowOk(db, op.slot);
      SetStateIff(db, op.slot, op.value);
      hide SetState, SameType, JsonType, Tells;
      assert GetState(Apply(db, op), slot) == GetState(SetState(db, op.slot, op.value).0, slot);
    } else if op.OpCas? {
      CasStateIff(db, op.slot, op.expected, op.value);
      hide CasState, JsonType, Tells;
      assert GetState(Apply(db, op), slot) == GetState(CasState(db, op.slot, op.expected, op.value).0, slot);
    } else {
      OthersNote(db, op);
      hide Apply;
    }
  }

  /** After any run each key reads back the value of the last write that was accepted. */
  lemma {:induction false} ReadsLastWrite(ops: seq<Op>, slot: Slot)
    ensures Held(Run(EMPTY, ops), slot) == LastWrite(ops, slot)
    decreases |ops|
  {
    if ops == [] {
      assert Run(EMPTY, []) == EMPTY;
    } else {
      var n := |ops| - 1;
      var db := Run(EMPTY, ops[..n]);
      ReadsLastWrite(ops[..n], slot);
      assert ops == ops[..n] + [ops[n]];
      RunMore(EMPTY, ops[..n], ops[n]);
      EmptyIsConsistent();
      RunKeeps(EMPTY, ops[..n]);
      StepReads(db, ops[n], slot);
      hide Run, Held, Apply, SameType, AsExpected, Kept;
    }
  }
}
