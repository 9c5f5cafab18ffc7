/** Concurrent appends to one session's log on Postgres: take the session's advisory lock,
    read the greatest number, insert, commit. What a transaction inserts is seen by others
    only once it commits. */
module PgAppend {
  import opened Outcomes
  import opened JsonValues
  import opened StoreModel
  import StoreProofs

  type Tid = nat

  datatype Appender =
    | Arrived(kind: string, payload: Json)
    | Locked(kind: string, payload: Json)
    | Numbered(kind: string, payload: Json, n: nat)
    | Inserted(kind: string, payload: Json, n: nat)
    | Committed(kind: string, payload: Json, n: nat)
    | Aborted

  /** `log` is what is committed, in the order of the commits. */
  datatype Log = Log(log: seq<Event>, lock: Option<Tid>, appenders: map<Tid, Appender>)

  datatype Action = Enter(t: Tid, kind: string, payload: Json) | Act(t: Tid) | Abort(t: Tid)

  predicate InTransaction(a: Appender) {
    a.Locked? || a.Numbered? || a.Inserted?
  }

  /** A task that wants the lock waits while another transaction holds it. */
  predicate Enabled(q: Log, a: Action) {
    match a
    case Enter(t, _, _) => t !in q.appenders
    case Act(t) => t in q.appenders && (q.appenders[t].Arrived? ==> q.lock.None?)
    case Abort(t) => t in q.appenders && InTransaction(q.appenders[t])
  }

  function Do(q: Log, a: Action): Log
    requires Enabled(q, a)
  {
    match a
    case Enter(t, kind, payload) => q.(appenders := q.appenders[t := Arrived(kind, payload)])
    case Abort(t) => q.(lock := None, appenders := q.appenders[t := Aborted])
    case Act(t) =>
      match q.appenders[t]
      case Arrived(kind, payload) => q.(lock := Some(t), appenders := q.appenders[t := Locked(kind, payload)])
      case Locked(kind, payload) => q.(appenders := q.appenders[t := Numbered(kind, payload, MaxSeq(q.log) + 1)])
      case Numbered(kind, payload, n) => q.(appenders := q.appenders[t := Inserted(kind, payload, n)])
      case Inserted(kind, payload, n) =>
        Log(q.log + [Event(n, kind, payload)], None, q.appenders[t := Committed(kind, payload, n)])
      case _ => q
  }

  ghost predicate Runs(q: Log, acts: seq<Action>, q': Log)
    decreases |acts|
  {
    if acts == [] then q == q' else Enabled(q, acts[0]) && Runs(Do(q, acts[0]), acts[1..], q')
  }

  const NOTHING := Log([], None, map[])

  function EventOf(a: Appender): Event
    requires a.Numbered? || a.Inserted? || a.Committed?
  {
    Event(a.n, a.kind, a.payload)
  }

  predicate Got(q: Log, t: Tid, n: nat) {
    t in q.appenders && q.appenders[t].Committed? && q.appenders[t].n == n
  }

  ghost predicate HandedOut(q: Log, n: nat) {
    exists t: Tid :: Got(q, t, n)
  }

  ghost predicate Sound(q: Log) {
    && StoreProofs.Numbered(q.log)
    && (forall t: Tid | t in q.appenders && InTransaction(q.appenders[t]) :: q.lock == Some(t))
    && (forall t: Tid | t in q.appenders && (q.appenders[t].Numbered? || q.appenders[t].Inserted?) ::
          q.appenders[t].n == |q.log| + 1)
    && (forall t: Tid, n: nat | Got(q, t, n) :: 1 <= n <= |q.log| && q.log[n - 1] == EventOf(q.appenders[t]))
    && (forall t: Tid, u: Tid, n: nat | Got(q, t, n) && Got(q, u, n) :: t == u)
    && (forall n: nat | 1 <= n <= |q.log| :: HandedOut(q, n))
  }

  lemma ActKeepsSound(q: Log, t: Tid)
    requires Sound(q) && Enabled(q, Act(t))
    ensures Sound(Do(q, Act(t)))
  {
    var q' := Do(q, Act(t));
    StoreProofs.MaxOfNumbered(q.log);
    if q.appenders[t].Inserted? {
      assert Got(q', t, |q'.log|);
    }
    assert forall u: Tid, n: nat | u != t :: Got(q', u, n) == Got(q, u, n);
    forall n: nat | 1 <= n <= |q'.log|
      ensures HandedOut(q', n)
    {
      if n <= |q.log| {
        assert HandedOut(q, n);
        var u: Tid :| Got(q, u, n);
        assert Got(q', u, n);
      }
    }
  }

  lemma DoKeepsSound(q: Log, a: Action)
    requires Sound(q) && Enabled(q, a)
    ensures Sound(Do(q, a))
  {
    if a.Act? {
      ActKeepsSound(q, a.t);
    } else {
      var q' := Do(q, a);
      assert forall u: Tid, n: nat :: Got(q', u, n) == Got(q, u, n);
      assert forall n: nat :: HandedOut(q, n) ==> HandedOut(q', n);
    }
  }

  lemma {:induction false} RunKeepsSound(q: Log, acts: seq<Action>, q': Log)
    requires Sound(q) && Runs(q, acts, q')
    ensures Sound(q')
    decreases |acts|
  {
    if acts != [] {
      DoKeepsSound(q, acts[0]);
      RunKeepsSound(Do(q, acts[0]), acts[1..], q');
    }
  }

  /** Under any interleaving and any aborts the committed numbers are 1, 2, ..., k in the
      order of the commits, each handed to exactly one append, whose event it numbers; at
      most one transaction is between taking the lock and its end. */
  lemma NumbersAreConsecutive(acts: seq<Action>, q: Log)
    requires Runs(NOTHING, acts, q)
    ensures forall i | 0 <= i < |q.log| :: q.log[i].seqNo == i + 1
    ensures forall n: nat :: HandedOut(q, n) <==> 1 <= n <= |q.log|
    ensures forall t: Tid, n: nat | Got(q, t, n) :: 1 <= n <= |q.log| && q.log[n - 1] == EventOf(q.appenders[t])
    ensures forall t: Tid, u: Tid, n: nat | Got(q, t, n) && Got(q, u, n) :: t == u
    ensures forall t: Tid, u: Tid | t in q.appenders && u in q.appenders
                                    && InTransaction(q.appenders[t]) && InTransaction(q.appenders[u]) :: t == u
  {
    RunKeepsSound(NOTHING, acts, q);
  }

  /** However long ago it read the greatest number, what a transaction commits is what an
      append without any interleaving would add then; every other step leaves the log alone. */
  lemma CommitsAppend(acts: seq<Action>, q: Log, a: Action)
    requires Runs(NOTHING, acts, q) && Enabled(q, a)
    ensures Do(q, a).log == if a.Act? && q.appenders[a.t].Inserted?
                            then Append(q.log, q.appenders[a.t].kind, q.appenders[a.t].payload) else q.log
  {
    RunKeepsSound(NOTHING, acts, q);
    StoreProofs.MaxOfNumbered(q.log);
  }
}
