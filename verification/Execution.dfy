/** `execute_task` and `handle_failure` (kojin-core/src/worker.rs:222-442) as a coroutine.

    A program counter names the operation the execution is about to await.  `Resume` is
    what happens when that operation completes: the task runs on to its next await or
    returns.  Nothing else is atomic, so any number of executions interleave between the
    calls of `Resume`. */
module Execution {
  import opened Messages
  import opened Results

  datatype Pc =
    | Guard                        // compare eta with the clock
    | EtaAck | EtaPush             // future eta: ack, then schedule again
    | Before                       // the `before` hooks
    | Dispatch                     // the handler
    | Ack(v: Value)
    | Store(v: Value)
    | Complete(v: Value)           // complete_group_member
    | Read(v: Value, cb: Message)  // get_group_results
    | Fire(v: Value, cb: Message)  // enqueue the chord callback
    | Continue(v: Value)           // enqueue the next chain step
    | OnError                      // handle_failure up to its decision
    | Nack | NackPush              // nack: leave `processing`, then enqueue
    | Bury | BuryPush              // dead_letter: leave `processing`, then push

  datatype Exec = Exec(msg: Message, pc: Pc)

  /** What the outside answers: the clock, the hooks, the handler. */
  datatype Oracle = Oracle(now: int, hooksPass: bool, handler: Option<Value>)

  /** What completing the awaited operation did to the broker. */
  datatype Effect =
    | Silent
    | Untrack           // the message left `processing`
    | Requeue           // the message was pushed on its queue
    | Inter             // the message was pushed on its dead-letter queue
    | Spawn(m: Message) // another message was pushed on its queue

  datatype Outcome = Outcome(next: Option<Exec>, effect: Effect, backend: Backend)

  function WithResults(cb: Message, vs: seq<Value>): Message {
    cb.(headers := cb.headers[GroupResultsKey := GroupResults(vs)])
  }

  function Resume(x: Exec, b: Backend, o: Oracle, newId: Id, hasBackend: bool): Outcome {
    var m := x.msg;
    match x.pc
    case Guard =>
      if m.eta.Some? && m.eta.value > o.now
      then Outcome(Some(x.(pc := EtaAck)), Silent, b)
      else Outcome(Some(Exec(m.(state := Started), Before)), Silent, b)
    case EtaAck => Outcome(Some(x.(pc := EtaPush)), Untrack, b)
    case EtaPush => Outcome(None, Requeue, b)
    case Before => Outcome(Some(x.(pc := if o.hooksPass then Dispatch else OnError)), Silent, b)
    case Dispatch =>
      if o.handler.Some?
      then Outcome(Some(Exec(m.(state := Success), Ack(o.handler.value))), Silent, b)
      else Outcome(Some(x.(pc := OnError)), Silent, b)
    case Ack(v) => Outcome(if hasBackend then Some(x.(pc := Store(v))) else None, Untrack, b)
    case Store(v) =>
      Outcome(Some(x.(pc := if m.groupId.Some? then Complete(v) else Continue(v))), Silent, b.Store(m.id, v))
    case Complete(v) =>
      if m.groupId.None? then Outcome(Some(x.(pc := Continue(v))), Silent, b) else
      var (counted, count) := b.CompleteMember(m.groupId.value, v);
      var total := if m.groupTotal.Some? then m.groupTotal.value else 0;
      if count == Some(total) && m.chordCallback.Some?
      then Outcome(Some(Exec(m.(chordCallback := None), Read(v, m.chordCallback.value))), Silent, counted)
      else Outcome(Some(x.(pc := Continue(v))), Silent, counted)
    case Read(v, cb) =>
      var vs := if m.groupId.Some? then b.GroupValues(m.groupId.value) else None;
      Outcome(Some(x.(pc := Fire(v, if vs.Some? then WithResults(cb, vs.value) else cb))), Silent, b)
    case Fire(v, cb) => Outcome(Some(x.(pc := Continue(v))), Spawn(cb), b)
    case Continue(v) =>
      var next := NextMessage(m, v, newId);
      Outcome(None, if next.Some? then Spawn(next.value) else Silent, b)
    case OnError =>
      if m.retries < m.maxRetries
      then Outcome(Some(Exec(m.(retries := m.retries + 1, state := Retry), Nack)), Silent, b)
      else Outcome(Some(Exec(m.(state := DeadLettered), Bury)), Silent, b)
    case Nack => Outcome(Some(x.(pc := NackPush)), Untrack, b)
    case NackPush => Outcome(None, Requeue, b)
    case Bury => Outcome(Some(x.(pc := BuryPush)), Untrack, b)
    case BuryPush => Outcome(None, Inter, b)
  }

  /** The execution still has its message in the broker's `processing` map. */
  predicate Tracked(pc: Pc) {
    !(pc.EtaPush? || pc.NackPush? || pc.BuryPush? ||
      pc.Store? || pc.Complete? || pc.Read? || pc.Fire? || pc.Continue?)
  }

  /** The value an execution that got past its handler carries. */
  function Carried(pc: Pc): Option<Value> {
    match pc
    case Ack(v) => Some(v)
    case Store(v) => Some(v)
    case Complete(v) => Some(v)
    case Read(v, _) => Some(v)
    case Fire(v, _) => Some(v)
    case Continue(v) => Some(v)
    case _ => None
  }
}
