/** Concurrent takes on Postgres: SELECT ... FOR UPDATE SKIP LOCKED, UPDATE, COMMIT. */
module PgMailbox {
  import opened Outcomes
  import opened JsonValues

  type Tid = nat

  /** `holder` is the transaction that locked the row. */
  datatype Message = Message(channel: string, payload: Json, delivered: bool, holder: Option<Tid>)

  /** A take either selects, holds a row in an open transaction, has committed it, or has returned. */
  datatype Taker =
    | Selecting(channel: string)
    | Holding(i: nat)
    | Committed(i: nat)
    | Returned(result: Option<nat>)
    | Aborted

  datatype Queue = Queue(messages: seq<Message>, takers: map<Tid, Taker>)

  predicate Free(m: Message, channel: string) {
    m.channel == channel && !m.delivered && m.holder.None?
  }

  /** The oldest undelivered message nobody has locked, or the length. */
  function Oldest(messages: seq<Message>, channel: string): (i: nat)
    ensures i <= |messages|
    ensures i < |messages| ==> Free(messages[i], channel)
    ensures forall j | 0 <= j < i :: !Free(messages[j], channel)
  {
    if messages == [] || Free(messages[0], channel) then 0 else 1 + Oldest(messages[1..], channel)
  }

  datatype Action =
    | Enqueue(channel: string, payload: Json)
    | Enter(t: Tid, channel: string)
    | Act(t: Tid)
    | Abort(t: Tid)

  ghost predicate Enabled(q: Queue, a: Action) {
    match a
    case Enqueue(_, _) => true
    case Enter(t, _) => t !in q.takers
    case Act(t) => t in q.takers && (q.takers[t].Holding? ==> q.takers[t].i < |q.messages|)
    case Abort(t) => t in q.takers && q.takers[t].Holding? && q.takers[t].i < |q.messages|
  }

  function Do(q: Queue, a: Action): Queue
    requires Enabled(q, a)
  {
    match a
    case Enqueue(channel, payload) => q.(messages := q.messages + [Message(channel, payload, false, None)])
    case Enter(t, channel) => q.(takers := q.takers[t := Selecting(channel)])
    case Abort(t) =>
      var i := q.takers[t].i;
      Queue(q.messages[i := q.messages[i].(holder := None)], q.takers[t := Aborted])
    case Act(t) =>
      match q.takers[t]
      case Selecting(channel) =>
        var i := Oldest(q.messages, channel);
        if i == |q.messages| then q.(takers := q.takers[t := Returned(None)])
        else Queue(q.messages[i := q.messages[i].(holder := Some(t))], q.takers[t := Holding(i)])
      case Holding(i) =>
        Queue(q.messages[i := q.messages[i].(delivered := true, holder := None)], q.takers[t := Committed(i)])
      case Committed(i) => q.(takers := q.takers[t := Returned(Some(i))])
      case _ => q
  }

  ghost predicate Runs(q: Queue, acts: seq<Action>, q': Queue)
    decreases |acts|
  {
    if acts == [] then q == q' else Enabled(q, acts[0]) && Runs(Do(q, acts[0]), acts[1..], q')
  }

  const EMPTY_QUEUE := Queue([], map[])

  /** `t` is the one that took message `i` for good. */
  predicate Took(q: Queue, t: Tid, i: nat) {
    t in q.takers && (q.takers[t] == Committed(i) || q.takers[t] == Returned(Some(i)))
  }

  predicate Holds(q: Queue, t: Tid, i: nat) {
    t in q.takers && q.takers[t] == Holding(i)
  }

  /** What the takers say about message `i`, and the message about them. */
  ghost predicate MessageOk(q: Queue, i: nat)
    requires i < |q.messages|
  {
    var m := q.messages[i];
    && (forall t: Tid :: m.holder == Some(t) <==> Holds(q, t, i))
    && (m.holder.Some? ==> !m.delivered)
    && (m.delivered <==> exists t: Tid :: Took(q, t, i))
    && (forall t: Tid, u: Tid | Took(q, t, i) && Took(q, u, i) :: t == u)
  }

  ghost predicate Exact(q: Queue) {
    && (forall i | 0 <= i < |q.messages| :: MessageOk(q, i))
    && (forall t: Tid, i: nat | Holds(q, t, i) || Took(q, t, i) :: i < |q.messages|)
  }

  lemma ActKeepsMessage(q: Queue, t: Tid, i: nat)
    requires Exact(q) && t in q.takers && Enabled(q, Act(t)) && i < |q.messages|
    ensures MessageOk(Do(q, Act(t)), i)
  {
    var q' := Do(q, Act(t));
    assert MessageOk(q, i);
    assert forall u: Tid | u != t :: Holds(q', u, i) == Holds(q, u, i) && Took(q', u, i) == Took(q, u, i);
    match q.takers[t]
    case Selecting(channel) => assert !Holds(q, t, i) && !Took(q, t, i);
    case Holding(j) =>
      assert Holds(q, t, j) && MessageOk(q, j);
      if i == j {
        assert Took(q', t, i);
        assert forall u: Tid :: !Took(q, u, i);
      }
    case Committed(j) => assert Took(q', t, i) == Took(q, t, i);
    case _ =>
  }

  lemma AbortKeepsMessage(q: Queue, t: Tid, i: nat)
    requires Exact(q) && Enabled(q, Abort(t)) && i < |q.messages|
    ensures MessageOk(Do(q, Abort(t)), i)
  {
    var q' := Do(q, Abort(t));
    assert MessageOk(q, i) && MessageOk(q, q.takers[t].i) && Holds(q, t, q.takers[t].i);
    assert forall u: Tid | u != t :: Holds(q', u, i) == Holds(q, u, i) && Took(q', u, i) == Took(q, u, i);
    assert !Took(q, t, i) && !Took(q', t, i);
  }

  lemma EnterKeepsMessage(q: Queue, a: Action, i: nat)
    requires Exact(q) && (a.Enter? || a.Enqueue?) && Enabled(q, a) && i < |Do(q, a).messages|
    ensures MessageOk(Do(q, a), i)
  {
    var q' := Do(q, a);
    assert i < |q.messages| ==> MessageOk(q, i);
    assert forall u: Tid, j: nat :: Holds(q', u, j) == Holds(q, u, j) && Took(q', u, j) == Took(q, u, j);
    assert forall u: Tid :: i == |q.messages| ==> !Holds(q, u, i) && !Took(q, u, i);
  }

  lemma DoKeepsExact(q: Queue, a: Action)
    requires Exact(q) && Enabled(q, a)
    ensures Exact(Do(q, a))
  {
    var q' := Do(q, a);
    forall i | 0 <= i < |q'.messages|
      ensures MessageOk(q', i)
    {
      match a
      case Act(t) => ActKeepsMessage(q, t, i);
      case Abort(t) => AbortKeepsMessage(q, t, i);
      case _ => EnterKeepsMessage(q, a, i);
    }
    forall t: Tid, i: nat | Holds(q', t, i) || Took(q', t, i)
      ensures i < |q'.messages|
    {
      assert Holds(q, t, i) || Took(q, t, i) ==> i < |q.messages|;
    }
  }

  lemma {:induction false} RunKeepsExact(q: Queue, acts: seq<Action>, q': Queue)
    requires Exact(q) && Runs(q, acts, q')
    ensures Exact(q')
    decreases |acts|
  {
    if acts != [] {
      DoKeepsExact(q, acts[0]);
      RunKeepsExact(Do(q, acts[0]), acts[1..], q');
    }
  }

  /** Exactly once, whatever the interleaving and whatever aborts: no two takes return the
      same message, and a message is marked delivered exactly when one take has it. */
  lemma TakenExactlyOnce(acts: seq<Action>, q: Queue, i: nat)
    requires Runs(EMPTY_QUEUE, acts, q) && i < |q.messages|
    ensures forall t: Tid, u: Tid | Took(q, t, i) && Took(q, u, i) :: t == u
    ensures q.messages[i].delivered <==> exists t: Tid :: Took(q, t, i)
    ensures q.messages[i].delivered ==> forall t: Tid :: !Holds(q, t, i)
  {
    RunKeepsExact(EMPTY_QUEUE, acts, q);
    assert MessageOk(q, i);
  }

  /** A take can only overtake a message that another take has in hand, so with one take
      at a time on a channel the messages come out in order. */
  lemma OvertakesOnlyHeldMessages(acts: seq<Action>, q: Queue, t: Tid, j: nat)
    requires Runs(EMPTY_QUEUE, acts, q) && t in q.takers && q.takers[t].Selecting?
    requires var taker := Do(q, Act(t)).takers[t]; taker.Holding? && j < taker.i <= |q.messages|
    requires q.messages[j].channel == q.takers[t].channel && !q.messages[j].delivered
    ensures exists u: Tid :: u != t && Holds(q, u, j)
  {
    RunKeepsExact(EMPTY_QUEUE, acts, q);
    assert MessageOk(q, j);
    assert !Free(q.messages[j], q.takers[t].channel);
    assert Holds(q, q.messages[j].holder.value, j);
  }
}
