/** Mailboxes over the signals table: FIFO per (recipient, sender), each message taken once. */
module Mailboxes {
  import opened Outcomes
  import opened JsonValues
  import opened StoreModel

  predicate On(s: Signal, session: string, name: string) {
    s.session == session && s.name == name
  }

  /** Everything ever enqueued on the channel, in order. */
  function Sent(signals: seq<Signal>, session: string, name: string): seq<Json> {
    if signals == [] then []
    else (if On(signals[0], session, name) then [signals[0].payload] else []) + Sent(signals[1..], session, name)
  }

  function Taken(signals: seq<Signal>, session: string, name: string): seq<Json> {
    if signals == [] then []
    else (if On(signals[0], session, name) && signals[0].delivered then [signals[0].payload] else [])
         + Taken(signals[1..], session, name)
  }

  function Pending(signals: seq<Signal>, session: string, name: string): seq<Json> {
    if signals == [] then []
    else (if On(signals[0], session, name) && !signals[0].delivered then [signals[0].payload] else [])
         + Pending(signals[1..], session, name)
  }

  /** Nothing is delivered ahead of something older on its channel. */
  predicate InOrder(signals: seq<Signal>, session: string, name: string) {
    signals != [] ==>
      if On(signals[0], session, name) && !signals[0].delivered then Taken(signals[1..], session, name) == []
      else InOrder(signals[1..], session, name)
  }

  lemma {:induction false} InOrderSplits(signals: seq<Signal>, session: string, name: string)
    requires InOrder(signals, session, name)
    ensures Sent(signals, session, name) == Taken(signals, session, name) + Pending(signals, session, name)
  {
    if signals != [] {
      if On(signals[0], session, name) && !signals[0].delivered {
        NoneTaken(signals[1..], session, name);
      } else {
        InOrderSplits(signals[1..], session, name);
      }
    }
  }

  lemma {:induction false} NoneTaken(signals: seq<Signal>, session: string, name: string)
    requires Taken(signals, session, name) == []
    ensures Sent(signals, session, name) == Pending(signals, session, name) && InOrder(signals, session, name)
  {
    if signals != [] {
      NoneTaken(signals[1..], session, name);
    }
  }

  /** A new message goes behind everything on its channel and nowhere else. */
  lemma {:induction false} EnqueueAtEnd(signals: seq<Signal>, s: Signal, session: string, name: string)
    requires InOrder(signals, session, name) && !s.delivered
    ensures var more := if On(s, session, name) then [s.payload] else [];
            && Pending(signals + [s], session, name) == Pending(signals, session, name) + more
            && Taken(signals + [s], session, name) == Taken(signals, session, name)
            && InOrder(signals + [s], session, name)
  {
    if signals != [] {
      assert (signals + [s])[1..] == signals[1..] + [s];
      if On(signals[0], session, name) && !signals[0].delivered {
        NoneTaken(signals[1..], session, name);
      }
      EnqueueAtEnd(signals[1..], s, session, name);
    }
  }

  function Deliver(signals: seq<Signal>, i: nat): seq<Signal>
    requires i < |signals|
  {
    signals[i := signals[i].(delivered := true)]
  }

  /** What taking entry `i` must do to its channel. */
  predicate TakesOldest(signals: seq<Signal>, i: nat, session: string, name: string)
    requires i < |signals|
  {
    && Pending(signals, session, name) == [signals[i].payload] + Pending(Deliver(signals, i), session, name)
    && Taken(Deliver(signals, i), session, name) == Taken(signals, session, name) + [signals[i].payload]
    && InOrder(Deliver(signals, i), session, name)
  }

  /** A take removes the oldest pending message of its channel. */
  lemma {:induction false} TakeFromFront(signals: seq<Signal>, session: string, name: string)
    requires InOrder(signals, session, name)
    ensures var i := FirstPending(signals, session, name);
            if i == |signals| then Pending(signals, session, name) == [] else TakesOldest(signals, i, session, name)
  {
    var i := FirstPending(signals, session, name);
    if signals != [] && i > 0 {
      TakeFromFront(signals[1..], session, name);
    } else if signals != [] {
      NoneTaken(signals[1..], session, name);
      assert Deliver(signals, 0)[1..] == signals[1..];
    }
  }

  /** Delivering one channel's message leaves the other channels alone. */
  lemma {:induction false} DeliverElsewhere(signals: seq<Signal>, i: nat, session: string, name: string)
    requires i < |signals| && !On(signals[i], session, name)
    ensures Pending(Deliver(signals, i), session, name) == Pending(signals, session, name)
    ensures Taken(Deliver(signals, i), session, name) == Taken(signals, session, name)
    ensures InOrder(Deliver(signals, i), session, name) == InOrder(signals, session, name)
  {
    if i > 0 {
      assert Deliver(signals, i)[1..] == Deliver(signals[1..], i - 1);
      DeliverElsewhere(signals[1..], i - 1, session, name);
    } else {
      assert Deliver(signals, 0)[1..] == signals[1..];
    }
  }

  // ---- runs ----

  function ReceivedBy(db: Db, op: Op, session: string, name: string): seq<Json> {
    if op != OpTake(session, name) then []
    else match TakeSignal(db, session, name).1 case Some(v) => [v] case None => []
  }

  function PostedBy(op: Op, session: string, name: string): seq<Json> {
    if op.OpEnqueue? && op.session == session && op.name == name then [op.payload] else []
  }

  /** What the takes on one channel returned during a run. */
  function Received(db: Db, ops: seq<Op>, session: string, name: string): seq<Json>
    decreases |ops|
  {
    if ops == [] then []
    else ReceivedBy(db, ops[0], session, name) + Received(Apply(db, ops[0]), ops[1..], session, name)
  }

  /** What a run sent on one channel. */
  function Posted(ops: seq<Op>, session: string, name: string): seq<Json> {
    if ops == [] then [] else PostedBy(ops[0], session, name) + Posted(ops[1..], session, name)
  }

  lemma OtherOpsKeepSignals(db: Db, op: Op)
    requires !op.OpEnqueue? && !op.OpTake?
    ensures Apply(db, op).signals == db.signals
  {
  }

  ghost predicate Balanced(db: Db, op: Op, session: string, name: string) {
    var db' := Apply(db, op);
    && InOrder(db'.signals, session, name)
    && Taken(db'.signals, session, name) == Taken(db.signals, session, name) + ReceivedBy(db, op, session, name)
    && ReceivedBy(db, op, session, name) + Pending(db'.signals, session, name)
       == Pending(db.signals, session, name) + PostedBy(op, session, name)
  }

  lemma EnqueueBalances(db: Db, s: string, n: string, payload: Json, session: string, name: string)
    requires InOrder(db.signals, session, name)
    ensures Balanced(db, OpEnqueue(s, n, payload), session, name)
  {
    EnqueueAtEnd(db.signals, Signal(s, n, payload, false), session, name);
    var db' := Apply(db, OpEnqueue(s, n, payload));
    assert db'.signals == db.signals + [Signal(s, n, payload, false)];
    assert ReceivedBy(db, OpEnqueue(s, n, payload), session, name) == [];
  }

  lemma TakeBalances(db: Db, s: string, n: string, session: string, name: string)
    requires InOrder(db.signals, session, name)
    ensures Balanced(db, OpTake(s, n), session, name)
  {
    var i := FirstPending(db.signals, s, n);
    var db' := Apply(db, OpTake(s, n));
    assert db'.signals == if i < |db.signals| then Deliver(db.signals, i) else db.signals;
    assert PostedBy(OpTake(s, n), session, name) == [];
    if s == session && n == name {
      TakeFromFront(db.signals, session, name);
    } else if i < |db.signals| {
      DeliverElsewhere(db.signals, i, session, name);
    }
  }

  /** One operation: what it takes plus what is then pending is what was pending plus what it sends. */
  lemma StepBalances(db: Db, op: Op, session: string, name: string)
    requires InOrder(db.signals, session, name)
    ensures Balanced(db, op, session, name)
  {
    match op
    case OpEnqueue(s, n, payload) => EnqueueBalances(db, s, n, payload, session, name);
    case OpTake(s, n) => TakeBalances(db, s, n, session, name);
    case _ => OtherOpsKeepSignals(db, op);
  }

  lemma {:induction false} RunBalances(db: Db, ops: seq<Op>, session: string, name: string)
    requires InOrder(db.signals, session, name)
    ensures Received(db, ops, session, name) + Pending(Run(db, ops).signals, session, name)
         == Pending(db.signals, session, name) + Posted(ops, session, name)
    ensures InOrder(Run(db, ops).signals, session, name)
    decreases |ops|
  {
    if ops != [] {
      StepBalances(db, ops[0], session, name);
      RunBalances(Apply(db, ops[0]), ops[1..], session, name);
      hide Apply, Pending, ReceivedBy, PostedBy, InOrder;
      Regroup(ReceivedBy(db, ops[0], session, name), Received(Apply(db, ops[0]), ops[1..], session, name),
              Pending(Run(db, ops).signals, session, name), Pending(Apply(db, ops[0]).signals, session, name),
              Pending(db.signals, session, name), PostedBy(ops[0], session, name), Posted(ops[1..], session, name));
    }
  }

  /** What the table marks as taken is what the takes returned. */
  lemma {:induction false} RunMarks(db: Db, ops: seq<Op>, session: string, name: string)
    requires InOrder(db.signals, session, name)
    ensures Taken(Run(db, ops).signals, session, name)
         == Taken(db.signals, session, name) + Received(db, ops, session, name)
    decreases |ops|
  {
    if ops != [] {
      StepBalances(db, ops[0], session, name);
      var next := Apply(db, ops[0]);
      var before, own := Taken(db.signals, session, name), ReceivedBy(db, ops[0], session, name);
      var later := Received(next, ops[1..], session, name);
      assert Received(db, ops, session, name) == own + later && Run(db, ops) == Run(next, ops[1..]);
      assert InOrder(next.signals, session, name) && Taken(next.signals, session, name) == before + own;
      hide *;
      RunMarks(next, ops[1..], session, name);
      assert (before + own) + later == before + (own + later);
    }
  }

  lemma Regroup(got: seq<Json>, later: seq<Json>, end: seq<Json>, mid: seq<Json>, start: seq<Json>,
                sent: seq<Json>, sentLater: seq<Json>)
    requires later + end == mid + sentLater && got + mid == start + sent
    ensures (got + later) + end == start + (sent + sentLater)
  {
    assert (got + later) + end == got + (later + end) == (got + mid) + sentLater;
    assert (start + sent) + sentLater == start + (sent + sentLater);
  }

  /** Order and exactly-once: over any run, what has been taken from a channel followed by
      what is still pending is exactly what was sent on it, in order; and the table, its
      deliveries marked, is the record of both. */
  lemma FifoExactlyOnce(ops: seq<Op>, session: string, name: string)
    ensures Received(EMPTY, ops, session, name) + Pending(Run(EMPTY, ops).signals, session, name)
         == Posted(ops, session, name)
    ensures Taken(Run(EMPTY, ops).signals, session, name) == Received(EMPTY, ops, session, name)
    ensures Sent(Run(EMPTY, ops).signals, session, name) == Posted(ops, session, name)
  {
    assert Pending(EMPTY.signals, session, name) == [] && Taken(EMPTY.signals, session, name) == [];
    RunBalances(EMPTY, ops, session, name);
    RunMarks(EMPTY, ops, session, name);
    InOrderSplits(Run(EMPTY, ops).signals, session, name);
    hide Run, Received, Posted, Pending, Taken, Sent, InOrder;
    assert [] + Posted(ops, session, name) == Posted(ops, session, name);
    assert [] + Received(EMPTY, ops, session, name) == Received(EMPTY, ops, session, name);
  }

  // ---- mail ----

  function MailboxName(sender: string): string {
    "mailbox:" + sender
  }

  lemma MailboxesAreSeparate(a: string, b: string)
    ensures MailboxName(a) == MailboxName(b) <==> a == b
  {
    assert MailboxName(a)[8..] == a && MailboxName(b)[8..] == b;
  }

  datatype Mail = Mail(sender: string, payload: Json)

  function MailJson(mail: Mail): Json {
    Object([Member("sender", String(mail.sender)), Member("payload", mail.payload)])
  }

  /** Deserialization fails on a signal that is not a mail. */
  function ParseMail(v: Json): Option<Mail> {
    match (StringField(v, "sender"), Field(v, "payload"))
    case (Some(sender), Some(payload)) => Some(Mail(sender, payload))
    case _ => None
  }

  lemma MailRoundTrip(mail: Mail)
    ensures ParseMail(MailJson(mail)) == Some(mail)
  {
    var ms := MailJson(mail).members;
    assert |"sender"| == 6 && |"payload"| == 7;
    assert ms[1..][0] == ms[1];
    assert Lookup(ms, "payload") == Lookup(ms[1..], "payload");
  }

  /** The mails up to the first signal that is not one; Err if there is such a signal. */
  function ParseAll(values: seq<Json>): Result<seq<Mail>, ()> {
    if values == [] then Ok([])
    else match (ParseMail(values[0]), ParseAll(values[1..]))
         case (Some(mail), Ok(rest)) => Ok([mail] + rest)
         case _ => Err(())
  }

  /** How many signals a drain consumes: all, or up to and including the first bad one. */
  function Consumed(values: seq<Json>): (n: nat)
    ensures n <= |values|
    ensures ParseAll(values).Ok? ==> n == |values|
  {
    if values == [] then 0
    else if ParseMail(values[0]).None? then 1
    else 1 + Consumed(values[1..])
  }
}
