/** Retry classes: how often the gateway retries a tool call by itself. */
module RetryClasses {
  import opened Outcomes

  datatype RetryClass = Read | Write | Critical {

    /** The spelling stored in the ledger. */
    function AsStr(): string {
      match this
      case Read => "read"
      case Write => "write"
      case Critical => "critical"
    }

    function MaxAutoRetries(): nat {
      match this
      case Read => 3
      case Write => 1
      case Critical => 0
    }

    /** Executor invocations one uninterrupted execution may make. */
    function AttemptsAllowed(): nat {
      1 + MaxAutoRetries()
    }
  }

  function Parse(s: string): Option<RetryClass> {
    if s == "read" then Some(Read)
    else if s == "write" then Some(Write)
    else if s == "critical" then Some(Critical)
    else None
  }

  /** How an operator action reads the class back from a row. */
  function ParseOrWrite(s: string): RetryClass {
    Parse(s).GetOr(Write)
  }

  lemma SpellingRoundTrip(c: RetryClass, s: string)
    ensures Parse(c.AsStr()) == Some(c)
    ensures Parse(s) == Some(c) <==> s == c.AsStr()
  {
    assert |"read"| == 4 && |"write"| == 5 && |"critical"| == 8;
  }
}

/** The `tool_calls` table and the SQL statements the gateway issues on it. */
module Ledger {
  import opened Outcomes
  import opened Text
  import opened RetryClasses

  /** Serialized JSON, as the TEXT columns hold it. */
  type Json = string

  datatype Status = Pending | Succeeded | Failed

  datatype Row = Row(
    tool: string,
    idemKey: string,
    session: string,
    retryClass: string,
    args: Json,
    status: Status,
    attempts: nat,
    result: Option<Json>,
    failureReason: Option<string>,
    retriable: Option<bool>,
    awaiting: bool,
    approvalId: Option<string>,
    dropped: bool)
  {
    function Class(): RetryClass {
      ParseOrWrite(retryClass)
    }
  }

  /** Rows by `call_id`, the primary key. */
  type Table = map<string, Row>

  function CallIdFor(tool: string, idemKey: string): string {
    tool + ":" + idemKey
  }

  datatype Insertion = Won | Lost | Clash

  /** Every row sits under the id its (tool, key) pair spells. */
  ghost predicate WellKeyed(t: Table) {
    forall id | id in t :: id == CallIdFor(t[id].tool, t[id].idemKey)
  }

  function FreshRow(tool: string, idemKey: string, session: string, rc: RetryClass, args: Json): Row {
    Row(tool, idemKey, session, rc.AsStr(), args, Pending, 0, None, None, None, false, None, false)
  }

  /** INSERT ... ON CONFLICT (tool, idem_key) DO NOTHING. Another row under the same
      `call_id` violates the primary key, which the conflict clause does not cover. */
  function Insert(t: Table, tool: string, idemKey: string, session: string, rc: RetryClass, args: Json)
    : (Table, Insertion)
  {
    var id := CallIdFor(tool, idemKey);
    if id !in t then (t[id := FreshRow(tool, idemKey, session, rc, args)], Won)
    else if t[id].tool == tool && t[id].idemKey == idemKey then (t, Lost)
    else (t, Clash)
  }

  function CallsOf(t: Table, session: string): set<string> {
    set id | id in t && t[id].session == session
  }

  function CountForSession(t: Table, session: string): nat {
    |CallsOf(t, session)|
  }

  /** The key of a call that brings none, when its session has made `n - 1` calls before. */
  function DerivedKey(session: string, n: nat): string {
    session + ":" + Decimal(n)
  }

  function Increment(t: Table, id: string): Table {
    if id in t then t[id := t[id].(attempts := t[id].attempts + 1)] else t
  }

  function ResolveSucceeded(t: Table, id: string, v: Json): Table {
    if id in t
    then t[id := t[id].(status := Succeeded, result := Some(v), failureReason := None, retriable := None)]
    else t
  }

  function ResolveFailed(t: Table, id: string, reason: string, retriable: bool): Table {
    if id in t
    then t[id := t[id].(status := Failed, failureReason := Some(reason), retriable := Some(retriable))]
    else t
  }

  function SetAwaiting(t: Table, id: string, approvalId: string): Table {
    if id in t then t[id := t[id].(awaiting := true, approvalId := Some(approvalId))] else t
  }

  function ClearAwaiting(t: Table, id: string): Table {
    if id in t then t[id := t[id].(awaiting := false)] else t
  }

  function Reopen(t: Table, id: string): Table {
    if id in t
    then t[id := t[id].(status := Pending, failureReason := None, retriable := None, dropped := false)]
    else t
  }

  function SetDropped(t: Table, id: string): Table {
    if id in t then t[id := t[id].(dropped := true)] else t
  }

  /** The column combinations a row can hold. */
  ghost predicate Shape(r: Row) {
    && (r.status.Succeeded? <==> r.result.Some?)
    && (r.status.Failed? <==> r.failureReason.Some?)
    && (r.status.Failed? <==> r.retriable.Some?)
    && (r.awaiting ==> r.status.Pending? && r.approvalId.Some?)
    && (r.dropped ==> r.status.Failed?)
  }

  // ---- what the count counts, and what keys are made of it ----

  /** The count starts at nothing, and a call that is inserted, and nothing else, adds one to
      that of its session and to no other. */
  lemma InsertCounts(t: Table, tool: string, key: string, session: string, rc: RetryClass, args: Json, other: string)
    ensures CountForSession(map[], other) == 0
    ensures var (t', insertion) := Insert(t, tool, key, session, rc, args);
            CountForSession(t', other)
            == CountForSession(t, other) + if insertion.Won? && other == session then 1 else 0
  {
    assert CallsOf(map[], other) == {};
    if CallIdFor(tool, key) !in t {
      var row := FreshRow(tool, key, session, rc, args);
      assert row.session == session;
      hide CallIdFor, FreshRow;
      NewRowCounts(t, CallIdFor(tool, key), row, other);
    }
  }

  lemma NewRowCounts(t: Table, id: string, row: Row, other: string)
    requires id !in t
    ensures CountForSession(t[id := row], other) == CountForSession(t, other) + if row.session == other then 1 else 0
  {
    assert CallsOf(t[id := row], other) == CallsOf(t, other) + if row.session == other then {id} else {};
  }

  predicate SameKeys(t: Table, t': Table) {
    t.Keys == t'.Keys && forall id | id in t :: t'[id].idemKey == t[id].idemKey && t'[id].session == t[id].session
  }

  lemma UpdateKeepsKeys(t: Table, id: string, row: Row)
    requires id in t && row.idemKey == t[id].idemKey && row.session == t[id].session
    ensures SameKeys(t, t[id := row])
  {
  }

  /** No other statement changes a key or a session, and so what is counted. */
  lemma StatementsKeepKeys(t: Table, id: string, text: string, retriable: bool)
    ensures SameKeys(t, Increment(t, id))
    ensures SameKeys(t, ResolveSucceeded(t, id, text))
    ensures SameKeys(t, ResolveFailed(t, id, text, retriable))
    ensures SameKeys(t, SetAwaiting(t, id, text))
    ensures SameKeys(t, ClearAwaiting(t, id))
    ensures SameKeys(t, Reopen(t, id))
    ensures SameKeys(t, SetDropped(t, id))
  {
    assert SameKeys(t, t);
    hide SameKeys;
    if id in t {
      UpdateKeepsKeys(t, id, Increment(t, id)[id]);
      UpdateKeepsKeys(t, id, ResolveSucceeded(t, id, text)[id]);
      UpdateKeepsKeys(t, id, ResolveFailed(t, id, text, retriable)[id]);
      UpdateKeepsKeys(t, id, SetAwaiting(t, id, text)[id]);
      UpdateKeepsKeys(t, id, ClearAwaiting(t, id)[id]);
      UpdateKeepsKeys(t, id, Reopen(t, id)[id]);
      UpdateKeepsKeys(t, id, SetDropped(t, id)[id]);
    }
  }

  lemma SameKeysCount(t: Table, t': Table, session: string)
    requires SameKeys(t, t')
    ensures CountForSession(t', session) == CountForSession(t, session)
  {
    assert CallsOf(t', session) == CallsOf(t, session);
  }

  /** A derived key tells its session and its number. */
  lemma DerivedKeysDiffer(session: string, n: nat, other: string, m: nat)
    ensures DerivedKey(session, n) == DerivedKey(other, m) <==> session == other && n == m
    ensures DerivedKey("s", 12) == "s:12"
  {
    DecimalReads(n);
    DecimalReads(m);
    assert DerivedKey(session, n) == session + ([':'] + Decimal(n));
    assert DerivedKey(other, m) == other + ([':'] + Decimal(m));
    if DerivedKey(session, n) == DerivedKey(other, m) {
      LastSplits(session, other, Decimal(n), Decimal(m), ':');
    }
    assert Decimal(12) == Decimal(1) + Decimal(2);
  }

  // ---- the call id is not an injective spelling of the pair ----

  /** `tool` followed by a colon begins `longer`: what the id needs to be read two ways. */
  predicate ColonPrefix(tool: string, longer: string) {
    tool + ":" <= longer
  }

  lemma IdOfLonger(tool: string, longer: string, key: string)
    requires ColonPrefix(tool, longer)
    ensures CallIdFor(longer, key) == CallIdFor(tool, longer[|tool| + 1..] + ":" + key)
  {
    assert longer == tool + ":" + longer[|tool| + 1..];
  }

  lemma SharedIdMeansPrefix(tool1: string, key1: string, tool2: string, key2: string)
    requires CallIdFor(tool1, key1) == CallIdFor(tool2, key2) && |tool1| <= |tool2|
    ensures tool1 == tool2 || ColonPrefix(tool1, tool2)
    ensures tool1 == tool2 ==> key1 == key2
  {
    var a, b := CallIdFor(tool1, key1), CallIdFor(tool2, key2);
    assert a[..|tool1|] == tool1 && a[|tool1|] == ':' && b[..|tool2|] == tool2;
    assert key1 == a[|tool1| + 1..] && key2 == b[|tool2| + 1..];
    if |tool1| < |tool2| {
      assert tool2[..|tool1| + 1] == b[..|tool1| + 1] == tool1 + ":";
    }
  }

  /** Calls of one tool share an id exactly when they share the key; calls of two tools can
      share one exactly when one tool's name, with a colon, begins the other's. */
  lemma ToolsCollideIff(tool1: string, tool2: string)
    ensures tool1 == tool2 ==> forall k1, k2 :: CallIdFor(tool1, k1) == CallIdFor(tool2, k2) <==> k1 == k2
    ensures tool1 != tool2 ==>
              ((exists k1, k2 :: CallIdFor(tool1, k1) == CallIdFor(tool2, k2))
               <==> ColonPrefix(tool1, tool2) || ColonPrefix(tool2, tool1))
  {
    forall k1, k2 | CallIdFor(tool1, k1) == CallIdFor(tool2, k2)
      ensures if tool1 == tool2 then k1 == k2 else ColonPrefix(tool1, tool2) || ColonPrefix(tool2, tool1)
    {
      if |tool1| <= |tool2| {
        SharedIdMeansPrefix(tool1, k1, tool2, k2);
      } else {
        SharedIdMeansPrefix(tool2, k2, tool1, k1);
      }
    }
    if ColonPrefix(tool1, tool2) {
      IdOfLonger(tool1, tool2, "");
    }
    if ColonPrefix(tool2, tool1) {
      IdOfLonger(tool2, tool1, "");
    }
  }

  /** An insert is refused exactly when another tool's row already spells the same id, which
      takes a name that begins the other's up to a colon. */
  lemma ClashesIff(t: Table, tool: string, key: string, session: string, rc: RetryClass, args: Json)
    requires WellKeyed(t)
    ensures Insert(t, tool, key, session, rc, args).1 == Clash
       <==> exists id :: id in t && t[id].tool != tool && CallIdFor(t[id].tool, t[id].idemKey) == CallIdFor(tool, key)
    ensures Insert(t, tool, key, session, rc, args).1 == Clash ==>
              exists id :: id in t && (ColonPrefix(t[id].tool, tool) || ColonPrefix(tool, t[id].tool))
  {
    var id := CallIdFor(tool, key);
    if id in t {
      ToolsCollideIff(t[id].tool, tool);
    }
  }

  /** Two different (tool, key) pairs that share an id: the second insert is refused. */
  lemma ColonInToolNameClashes(args: Json)
    ensures CallIdFor("a:b", "c") == CallIdFor("a", "b:c")
    ensures var t := Insert(map[], "a:b", "c", "s", Write, args).0;
            Insert(t, "a", "b:c", "s", Write, args) == (t, Clash)
  {
    assert CallIdFor("a:b", "c") == "a:b:c";
    assert CallIdFor("a", "b:c") == "a:b:c";
    assert |"a:b"| != |"a"|;
  }
}
