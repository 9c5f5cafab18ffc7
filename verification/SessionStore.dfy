/** The store, its supervisor and its mailboxes as objects updated in place. */
module SessionStore {
  import opened Outcomes
  import opened JsonValues
  import opened StoreModel
  import opened Mailboxes

  class SqliteStorage {
    var log: map<string, seq<Event>>
    var state: map<Slot, StateRow>
    var checkpoints: seq<Checkpoint>
    var signals: seq<Signal>
    var sessions: map<string, Session>
    var bundles: set<string>

    constructor ()
      ensures View() == EMPTY
    {
      log, state, checkpoints, signals, sessions, bundles := map[], map[], [], [], map[], {};
    }

    function View(): Db
      reads this
    {
      Db(log, state, checkpoints, signals, sessions, bundles)
    }

    method AppendEvent(session: string, kind: string, payload: Json) returns (seqNo: nat)
      modifies this`log
      ensures View() == StoreModel.AppendEvent(old(View()), session, kind, payload)
      ensures seqNo == MaxSeq(LogOf(log, session)) == MaxSeq(LogOf(old(log), session)) + 1
    {
      var events := LogOf(log, session);
      seqNo := MaxSeq(events) + 1;
      assert Append(events, kind, payload)[..|events|] == events;
      log := log[session := events + [Event(seqNo, kind, payload)]];
    }

    method SetState(slot: Slot, value: Json) returns (r: Result<(), StoreError>)
      modifies this
      ensures (View(), r) == StoreModel.SetState(old(View()), slot, value)
    {
      var valueType := JsonType(value);
      if slot in state && state[slot].valueType != valueType {
        return Err(StateType(state[slot].valueType, valueType));
      }
      var n := AppendEvent(slot.session, STATE_SET, SetPayload(slot.namespace, slot.key, value));
      if slot in state {
        state := state[slot := state[slot].(value := value, updatedSeq := n)];
      } else {
        state := state[slot := StateRow(valueType, value, n)];
      }
      r := Ok(());
    }

    /** `Applied` carries the row as read back after the write. */
    method CasState(slot: Slot, expected: Option<int>, value: Json) returns (outcome: CasOutcome)
      modifies this
      ensures (View(), outcome) == StoreModel.CasState(old(View()), slot, expected, value)
    {
      var applied := false;
      match expected {
        case None =>
          if slot !in state {
            state := state[slot := StateRow(JsonType(value), value, 1)];
            applied := true;
          }
        case Some(version) =>
          if slot in state && state[slot].updatedSeq == version {
            state := state[slot := StateRow(JsonType(value), value, state[slot].updatedSeq + 1)];
            applied := true;
          }
      }
      if !applied {
        return Stale(if slot in state then Some(state[slot].updatedSeq) else None);
      }
      var _ := AppendEvent(slot.session, STATE_SET, SetPayload(slot.namespace, slot.key, value));
      outcome := Applied(state[slot]);
    }

    method CreateCheckpoint(session: string, tag: Option<string>) returns (c: Checkpoint)
      modifies this
      ensures (View(), c) == StoreModel.CreateCheckpoint(old(View()), session, tag)
    {
      var rows := RowsOf(View(), session);
      var n := AppendEvent(session, "checkpoint", CheckpointPayload(tag, rows));
      c := Checkpoint(session, n, tag, rows);
      checkpoints := checkpoints + [c];
    }

    method EnqueueSignal(session: string, name: string, payload: Json)
      modifies this
      ensures View() == StoreModel.EnqueueSignal(old(View()), session, name, payload)
    {
      signals := signals + [Signal(session, name, payload, false)];
      var _ := AppendEvent(session, "signal.notified", SignalPayload(name, payload));
    }

    method TakeSignal(session: string, name: string) returns (value: Option<Json>)
      modifies this
      ensures (View(), value) == StoreModel.TakeSignal(old(View()), session, name)
    {
      var i := FirstPending(signals, session, name);
      if i == |signals| {
        return None;
      }
      var payload := signals[i].payload;
      signals := signals[i := signals[i].(delivered := true)];
      var _ := AppendEvent(session, "signal.delivered", SignalPayload(name, payload));
      value := Some(payload);
    }

    method SetSessionStatus(session: string, status: string)
      modifies this`sessions
      ensures View() == StoreModel.SetSessionStatus(old(View()), session, status)
    {
      if session in sessions {
        sessions := sessions[session := sessions[session].(status := status)];
      }
    }

    method MigrateSession(session: string, configHash: string) returns (r: Result<(), StoreError>)
      modifies this
      ensures (View(), r) == StoreModel.MigrateSession(old(View()), session, configHash)
    {
      if configHash !in bundles {
        return Err(BundleMissing(configHash));
      }
      if session in sessions {
        sessions := sessions[session := sessions[session].(configHash := configHash)];
      }
      var _ := AppendEvent(session, "session.migrated", Object([Member("config_hash", String(configHash))]));
      r := Ok(());
    }
  }

  // ---- the supervisor ----

  type Namespaces = map<string, map<string, Json>>

  /** The nested map a resume returns, seen as one flat map. */
  ghost predicate Flattens(nested: Namespaces, flat: map<(string, string), Json>) {
    forall ns, key ::
      && (ns in nested && key in nested[ns] <==> (ns, key) in flat)
      && ((ns, key) in flat ==> nested[ns][key] == flat[(ns, key)])
  }

  class SessionSupervisor {
    const storage: SqliteStorage

    constructor (storage: SqliteStorage)
      ensures this.storage == storage
    {
      this.storage := storage;
    }

    /** Rebuilds the state by replaying the log; the table is not consulted. */
    method Resume(session: string, configHash: string, payload: Json) returns (r: Result<Namespaces, StoreError>)
      modifies storage
      ensures var (db, flat) := StoreModel.Resume(old(storage.View()), session, configHash, payload);
              && storage.View() == db
              && (r.Ok? <==> flat.Ok?)
              && (r.Ok? ==> Flattens(r.value, flat.value))
              && (r.Err? ==> flat == Err(r.error))
    {
      if session !in storage.sessions {
        return Err(SessionNotFound);
      }
      if storage.sessions[session].configHash != configHash {
        return Err(HashMismatch);
      }
      var checkpoint := LatestCheckpoint(storage.checkpoints, session);
      var events := LogOf(storage.log, session);
      var namespaces: Namespaces := map[];
      for i := 0 to |events|
        invariant storage.View() == old(storage.View())
        invariant Flattens(namespaces, Replay(events[..i]))
      {
        assert events[..i + 1][..i] == events[..i];
        var e := events[i];
        if e.kind == STATE_SET {
          var ns, key := StringField(e.payload, "namespace"), StringField(e.payload, "key");
          var value := Field(e.payload, "value");
          if ns.Some? && key.Some? && value.Some? {
            var inner := if ns.value in namespaces then namespaces[ns.value] else map[];
            namespaces := namespaces[ns.value := inner[key.value := value.value]];
          }
        }
      }
      assert events[..|events|] == events;
      storage.SetSessionStatus(session, "running");
      var _ := storage.AppendEvent(session, "session.resumed", ResumePayload(payload, configHash, checkpoint));
      r := Ok(namespaces);
    }

    method Kill(session: string)
      modifies storage
      ensures storage.View() == StoreModel.Kill(old(storage.View()), session)
    {
      storage.SetSessionStatus(session, "killed");
      var _ := storage.AppendEvent(session, "session.killed", Null);
    }

    method RecordedValue(session: string, key: string, produced: Json) returns (v: Json)
      modifies storage
      ensures (storage.View(), v) == StoreModel.RecordedValue(old(storage.View()), session, key, produced)
    {
      var found := FindKind(LogOf(storage.log, session), RecordedKind(key));
      if found.Some? {
        return Field(found.value.payload, "value").GetOr(Null);
      }
      v := produced;
      var _ := storage.AppendEvent(session, RecordedKind(key), Object([Member("value", v)]));
    }
  }

  // ---- mail ----

  class Postman {
    const storage: SqliteStorage

    constructor (storage: SqliteStorage)
      ensures this.storage == storage
    {
      this.storage := storage;
    }

    method Send(sender: string, recipient: string, payload: Json)
      modifies storage
      ensures storage.View() == StoreModel.EnqueueSignal(old(storage.View()), recipient, MailboxName(sender),
                                                         MailJson(Mail(sender, payload)))
    {
      storage.EnqueueSignal(recipient, MailboxName(sender), MailJson(Mail(sender, payload)));
    }

    /** Returns everything pending from one sender, in order, and leaves nothing of it
        pending and every other channel as it was. On a signal that is not a mail it
        fails, having consumed the signals up to and including that one. */
    method Drain(recipient: string, sender: string) returns (r: Result<seq<Mail>, ()>)
      requires AllInOrder(storage.signals)
      modifies storage
      ensures AllInOrder(storage.signals)
      ensures r == ParseAll(old(Pending(storage.signals, recipient, MailboxName(sender))))
      ensures var before := old(Pending(storage.signals, recipient, MailboxName(sender)));
              Pending(storage.signals, recipient, MailboxName(sender)) == before[Consumed(before)..]
      ensures OthersPending(old(storage.signals), storage.signals, recipient, MailboxName(sender))
      ensures storage.View() == TakeMany(old(storage.View()), recipient, MailboxName(sender),
                                         old(Consumed(Pending(storage.signals, recipient, MailboxName(sender)))))
    {
      hide InOrder, Pending, StoreModel.AppendEvent;
      var name := MailboxName(sender);
      ghost var start := storage.View();
      ghost var before := Pending(storage.signals, recipient, name);
      var out: seq<Mail> := [];
      ghost var done: nat := 0;
      while true
        invariant done <= |before| && storage.View() == TakeMany(start, recipient, name, done)
        invariant ParseAll(before) == Joined(out, ParseAll(before[done..]))
        invariant Consumed(before) == done + Consumed(before[done..])
        decreases |before| - done
      {
        TakesInOrder(start, recipient, name, done);
        NextTake(storage.View(), recipient, name);
        var value := storage.TakeSignal(recipient, name);
        if value.None? {
          assert before[done..] == [] && out + [] == out;
          break;
        }
        assert value.value == before[done] && before[done..][1..] == before[done + 1..];
        done := done + 1;
        TakesInOrder(start, recipient, name, done);
        var mail := ParseMail(value.value);
        if mail.None? {
          return Err(());
        }
        JoinOne(out, before[done - 1..]);
        out := out + [mail.value];
      }
      r := Ok(out);
    }
  }

  ghost function Joined(out: seq<Mail>, rest: Result<seq<Mail>, ()>): (r: Result<seq<Mail>, ()>)
    ensures out == [] ==> r == rest
  {
    match rest
    case Ok(mails) => assert out == [] ==> out + mails == mails; Ok(out + mails)
    case Err(e) => Err(e)
  }

  lemma JoinOne(out: seq<Mail>, values: seq<Json>)
    requires values != [] && ParseMail(values[0]).Some?
    ensures Joined(out, ParseAll(values)) == Joined(out + [ParseMail(values[0]).value], ParseAll(values[1..]))
  {
    var mail, rest := ParseMail(values[0]).value, ParseAll(values[1..]);
    if rest.Ok? {
      assert out + ([mail] + rest.value) == (out + [mail]) + rest.value;
    }
  }

  ghost predicate AllInOrder(signals: seq<Signal>) {
    forall s, n :: InOrder(signals, s, n)
  }

  ghost predicate OthersPending(before: seq<Signal>, after: seq<Signal>, session: string, name: string) {
    forall s, n | s != session || n != name :: Pending(after, s, n) == Pending(before, s, n)
  }

  /** What a take gives, and what it does to every channel at once. */
  lemma NextTake(db: Db, session: string, name: string)
    requires AllInOrder(db.signals)
    ensures var (db', value) := TakeSignal(db, session, name);
            var pending := Pending(db.signals, session, name);
            if pending == [] then value.None? && db' == db
            else
              && value == Some(pending[0]) && Pending(db'.signals, session, name) == pending[1..]
              && AllInOrder(db'.signals) && OthersPending(db.signals, db'.signals, session, name)
  {
    hide Pending, Taken, InOrder, Append, SignalPayload;
    var signals := db.signals;
    assert InOrder(signals, session, name);
    TakeFromFront(signals, session, name);
    var i := FirstPending(signals, session, name);
    if i < |signals| {
      assert TakeSignal(db, session, name).0.signals == Deliver(signals, i);
      forall s, n
        ensures InOrder(Deliver(signals, i), s, n)
        ensures s != session || n != name ==> Pending(Deliver(signals, i), s, n) == Pending(signals, s, n)
      {
        assert InOrder(signals, s, n);
        if s != session || n != name {
          DeliverElsewhere(signals, i, s, n);
        }
      }
    }
  }

  /** The first `n` takes leave the rest of the channel, and the other channels. */
  lemma {:induction false} TakesInOrder(db: Db, session: string, name: string, n: nat)
    requires AllInOrder(db.signals) && n <= |Pending(db.signals, session, name)|
    ensures var db' := TakeMany(db, session, name, n);
            && AllInOrder(db'.signals) && OthersPending(db.signals, db'.signals, session, name)
            && Pending(db'.signals, session, name) == Pending(db.signals, session, name)[n..]
  {
    hide InOrder, Pending, AllInOrder, TakeSignal;
    if n > 0 {
      TakesInOrder(db, session, name, n - 1);
      NextTake(TakeMany(db, session, name, n - 1), session, name);
    }
  }
}
