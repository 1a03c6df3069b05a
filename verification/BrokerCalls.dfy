/** Sequences of calls on the memory broker, whose methods are specified by the same functions
    (MemoryBroker.dfy), and the order in which they deliver messages. */
module BrokerCalls {
  import opened Messages
  import opened Brokers

  datatype Op =
    | Enqueue(m: Message)
    | Dequeue(names: seq<string>)  // one pass over the queues with nothing in between
    | Take(q: string)              // one look at one queue: a dequeue whose looks are interleaved with other calls
    | Ack(id: Id)
    | Nack(m: Message)
    | DeadLetter(m: Message)
    | Expire(key: string)          // a duplicate key's lifetime ends

  /** The queue that a call takes a message from. */
  function Source(b: Broker, op: Op): (q: Option<string>)
    ensures q.Some? ==> b.Queue(q.value) != []
  {
    match op
    case Dequeue(names) => b.Ready(names)
    case Take(q) => if b.Queue(q) != [] then Some(q) else None
    case _ => None
  }

  function MemoryStep(b: Broker, op: Op): (Broker, Option<Message>) {
    match op
    case Enqueue(m) => (b.Push(m), None)
    case Ack(id) => (b.Untrack(id), None)
    case Nack(m) => (b.Untrack(m.id).Push(m), None)
    case DeadLetter(m) => (b.Untrack(m.id).PushDead(m), None)
    case Expire(_) => (b, None)
    case _ =>
      match Source(b, op)
      case None => (b, None)
      case Some(q) => (b.Pop(q).Track(b.Queue(q)[0]), Some(b.Queue(q)[0]))
  }

  function MemoryRun(b: Broker, ops: seq<Op>): (Broker, seq<Option<Message>>)
    decreases |ops|
  {
    if ops == [] then (b, []) else
    var (b1, a) := MemoryStep(b, ops[0]);
    var (b2, rest) := MemoryRun(b1, ops[1..]);
    (b2, [a] + rest)
  }

  function PushedBy(op: Op, q: string): seq<Message> {
    if (op.Enqueue? || op.Nack?) && op.m.queue == q then [op.m] else []
  }

  function Pushed(ops: seq<Op>, q: string): seq<Message> {
    if ops == [] then [] else PushedBy(ops[0], q) + Pushed(ops[1..], q)
  }

  function PoppedBy(b: Broker, op: Op, q: string): seq<Message> {
    if Source(b, op) == Some(q) then [b.Queue(q)[0]] else []
  }

  function Popped(b: Broker, ops: seq<Op>, q: string): seq<Message>
    decreases |ops|
  {
    if ops == [] then [] else PoppedBy(b, ops[0], q) + Popped(MemoryStep(b, ops[0]).0, ops[1..], q)
  }

  lemma StepFifo(b: Broker, op: Op, q: string)
    ensures b.Queue(q) + PushedBy(op, q) == PoppedBy(b, op, q) + MemoryStep(b, op).0.Queue(q)
  {
  }

  lemma Rejoin<T>(a: seq<T>, p: seq<T>, r: seq<T>, x: seq<T>, b: seq<T>, y: seq<T>, c: seq<T>)
    requires a + p == x + b && b + r == y + c
    ensures a + (p + r) == (x + y) + c
  {
    assert a + (p + r) == (a + p) + r;
    assert (x + b) + r == x + (b + r);
    assert x + (y + c) == (x + y) + c;
  }

  /** First in, first out, over any sequence of calls, retries included: what was queued and then
      pushed is what was taken and then is queued, in order. */
  lemma {:induction false} Fifo(b: Broker, ops: seq<Op>, q: string)
    ensures b.Queue(q) + Pushed(ops, q) == Popped(b, ops, q) + MemoryRun(b, ops).0.Queue(q)
    decreases |ops|
  {
    if ops == [] {
      assert b.Queue(q) + [] == [] + b.Queue(q);
    } else {
      var b' := MemoryStep(b, ops[0]).0;
      StepFifo(b, ops[0], q);
      Fifo(b', ops[1..], q);
      Rejoin(b.Queue(q), PushedBy(ops[0], q), Pushed(ops[1..], q), PoppedBy(b, ops[0], q), b'.Queue(q),
             Popped(b', ops[1..], q), MemoryRun(b, ops).0.Queue(q));
    }
  }
}
