/** A session from its creation on: the configuration it is pinned to, its status, and when
    it can be resumed, said of the operations that ran. */
module SessionLife {
  import opened Outcomes
  import opened JsonValues
  import opened StoreModel

  /** The hash the session was created with or last migrated to. A second creation does
      nothing, and a migration needs the session and an ingested bundle. */
  ghost function PinnedBy(ops: seq<Op>, session: string): Option<string>
    decreases |ops|
  {
    if ops == [] then None
    else
      var before := ops[..|ops| - 1];
      var pin := PinnedBy(before, session);
      match ops[|ops| - 1]
      case OpCreate(s, hash) => if s == session && pin.None? then Some(hash) else pin
      case OpMigrate(s, hash) => if s == session && pin.Some? && OpIngest(hash) in before then Some(hash) else pin
      case _ => pin
  }

  /** Killed if the last kill came after the creation and the last successful resume. */
  ghost function StatusBy(ops: seq<Op>, session: string): string
    decreases |ops|
  {
    if ops == [] then "running"
    else
      var before := ops[..|ops| - 1];
      match ops[|ops| - 1]
      case OpKill(s) => if s == session && PinnedBy(before, session).Some? then "killed" else StatusBy(before, session)
      case OpResume(s, hash, _) =>
        if s == session && PinnedBy(before, session) == Some(hash) then "running" else StatusBy(before, session)
      case _ => StatusBy(before, session)
  }

  ghost predicate LivesAs(db: Db, ops: seq<Op>, session: string) {
    && (session in db.sessions <==> PinnedBy(ops, session).Some?)
    && (PinnedBy(ops, session).None? ==> StatusBy(ops, session) == "running")
    && (session in db.sessions ==>
          db.sessions[session] == Session(StatusBy(ops, session), PinnedBy(ops, session).value))
  }

  lemma {:induction false} RunMore(db: Db, ops: seq<Op>, op: Op)
    ensures Run(db, ops + [op]) == Apply(Run(db, ops), op)
    decreases |ops|
  {
    hide Apply;
    if ops == [] {
      assert [op][1..] == [] && [] + [op] == [op];
      assert Run(Apply(db, op), []) == Apply(db, op);
    } else {
      assert (ops + [op])[1..] == ops[1..] + [op];
      RunMore(Apply(db, ops[0]), ops[1..], op);
    }
  }

  /** What one operation does to the sessions and bundles. */
  lemma SessionsAfter(db: Db, op: Op, session: string)
    ensures var db' := Apply(db, op);
            && db'.bundles == (if op.OpIngest? then db.bundles + {op.configHash} else db.bundles)
            && (if op.OpCreate? && op.session == session && session !in db.sessions
                then session in db'.sessions && db'.sessions[session] == Session("running", op.configHash)
                else session in db'.sessions <==> session in db.sessions)
            && (session in db.sessions ==>
                  var was := db.sessions[session];
                  db'.sessions[session]
                  == match op
                     case OpMigrate(s, hash) =>
                       if s == session && hash in db.bundles then was.(configHash := hash) else was
                     case OpResume(s, hash, _) =>
                       if s == session && was.configHash == hash then was.(status := "running") else was
                     case OpKill(s) => if s == session then was.(status := "killed") else was
                     case _ => was)
  {
    hide Append, Replay, CheckpointPayload, ResumePayload, SignalPayload, FindKind, RowsOf, MaxSeq;
  }

  lemma {:induction false} RunLives(ops: seq<Op>, session: string)
    ensures var db := Run(EMPTY, ops);
            LivesAs(db, ops, session) && forall hash :: hash in db.bundles <==> OpIngest(hash) in ops
    decreases |ops|
  {
    if ops != [] {
      var n := |ops| - 1;
      RunLives(ops[..n], session);
      assert ops == ops[..n] + [ops[n]];
      RunMore(EMPTY, ops[..n], ops[n]);
      SessionsAfter(Run(EMPTY, ops[..n]), ops[n], session);
      hide Run, Apply;
      assert forall hash :: OpIngest(hash) in ops <==> OpIngest(hash) in ops[..n] || ops[n] == OpIngest(hash);
    } else {
      assert Run(EMPTY, []) == EMPTY;
    }
  }

  /** After any run a session can be resumed with exactly the hash it is pinned to, and the
      error tells whether it is unknown or pinned to another. A refusal changes nothing; a
      resume sets the session running, adds one event to its log and touches nothing else. */
  lemma ResumesIff(ops: seq<Op>, session: string, hash: string, payload: Json)
    ensures var db := Run(EMPTY, ops);
            var (db', r) := Resume(db, session, hash, payload);
            var pin := PinnedBy(ops, session);
            && (r.Ok? <==> pin == Some(hash))
            && (r == Err(SessionNotFound) <==> pin == None)
            && (r == Err(HashMismatch) <==> pin.Some? && pin != Some(hash))
            && (r.Err? ==> db' == db)
            && (r.Ok? ==>
                  && db'.sessions == db.sessions[session := Session("running", hash)]
                  && (exists e: Event :: e.kind == "session.resumed"
                                         && LogOf(db'.log, session) == LogOf(db.log, session) + [e])
                  && (forall other | other != session :: LogOf(db'.log, other) == LogOf(db.log, other))
                  && db' == db.(sessions := db'.sessions, log := db'.log))
  {
    RunLives(ops, session);
    var db := Run(EMPTY, ops);
    hide Run, Replay, ResumePayload, PinnedBy, StatusBy;
    var (db', r) := Resume(db, session, hash, payload);
    if r.Ok? {
      var log := LogOf(db'.log, session);
      assert log[|log| - 1].kind == "session.resumed" && log == LogOf(db.log, session) + [log[|log| - 1]];
    }
  }

  /** A migration succeeds exactly when the target's bundle was ingested, and a known session
      can then be resumed with it. */
  lemma MigratedResumes(ops: seq<Op>, session: string, hash: string, payload: Json)
    ensures MigrateSession(Run(EMPTY, ops), session, hash).1.Ok? <==> OpIngest(hash) in ops
    ensures OpIngest(hash) in ops && PinnedBy(ops, session).Some? ==>
              Resume(Run(EMPTY, ops + [OpMigrate(session, hash)]), session, hash, payload).1.Ok?
  {
    RunLives(ops, session);
    var more := ops + [OpMigrate(session, hash)];
    assert more[..|more| - 1] == ops;
    ResumesIff(more, session, hash, payload);
    hide Run, Resume;
  }
}
