/** `execute_task` and `handle_failure` as written (kojin-core/src/worker.rs:222-442): one
    execution from dequeued message to return, changing a memory broker and a memory result
    backend in place.  What the handler returned, what each hook answered, the clock and the
    id drawn for a next chain step are arguments. */
module Workers {
  import opened Messages
  import opened Results
  import opened Brokers
  import opened Execution
  import opened MemoryBrokers
  import opened MemoryBackends
  import opened Powers
  import B = Backoff
  import C = Cluster

  datatype World = World(broker: Broker, backend: Backend)

  /** Operations left, at most. */
  function Left(pc: Pc): nat {
    match pc
    case Guard => 12
    case EtaAck => 2
    case EtaPush => 1
    case Before => 11
    case Dispatch => 10
    case Ack(_) => 9
    case Store(_) => 8
    case Complete(_) => 7
    case Read(_, _) => 6
    case Fire(_, _) => 5
    case Continue(_) => 4
    case OnError => 3
    case Nack => 2
    case NackPush => 1
    case Bury => 2
    case BuryPush => 1
  }

  /** The execution run to its end with nothing in between. */
  function Drive(x: Exec, w: World, o: Oracle, newId: Id, hasBackend: bool): World
    decreases Left(x.pc)
  {
    var out := Resume(x, w.backend, o, newId, hasBackend);
    var w' := World(C.ApplyEffect(w.broker, x.msg, out.effect), out.backend);
    if out.next.None? then w' else Drive(out.next.value, w', o, newId, hasBackend)
  }

  /** The executions of `Drive` are runs of the cluster: scheduling one job alone until it
      returns leaves exactly the broker and backend that `Drive` says. */
  lemma {:induction false} DriveIsRun(c: C.Cluster, j: nat, o: Oracle) returns (events: seq<C.Event>, d: C.Cluster)
    requires j in c.jobs && o.now == c.clock
    ensures C.Leads(c, events, d) && j !in d.jobs
    ensures World(d.broker, d.backend) == Drive(c.jobs[j].x, World(c.broker, c.backend), o, c.nextId, c.hasBackend)
    decreases Left(c.jobs[j].x.pc)
  {
    var c' := C.RunJob(c, j, o);
    var out := Resume(c.jobs[j].x, c.backend, o, c.nextId, c.hasBackend);
    if out.next.None? {
      events, d := [C.Step(j, o)], c';
    } else {
      var rest;
      rest, d := DriveIsRun(c', j, o);
      events := [C.Step(j, o)] + rest;
      assert events[1..] == rest;
    }
  }

  /** The three endings that let go of the message and then put it somewhere. */
  lemma DriveEndings(m: Message, w: World, o: Oracle, newId: Id, hasBackend: bool)
    ensures Drive(Exec(m, EtaAck), w, o, newId, hasBackend) == World(w.broker.Untrack(m.id).Push(m), w.backend)
    ensures Drive(Exec(m, Nack), w, o, newId, hasBackend) == World(w.broker.Untrack(m.id).Push(m), w.backend)
    ensures Drive(Exec(m, Bury), w, o, newId, hasBackend) == World(w.broker.Untrack(m.id).PushDead(m), w.backend)
  {
    var w' := World(w.broker.Untrack(m.id), w.backend);
    assert Drive(Exec(m, EtaAck), w, o, newId, hasBackend) == Drive(Exec(m, EtaPush), w', o, newId, hasBackend);
    assert Drive(Exec(m, Nack), w, o, newId, hasBackend) == Drive(Exec(m, NackPush), w', o, newId, hasBackend);
    assert Drive(Exec(m, Bury), w, o, newId, hasBackend) == Drive(Exec(m, BuryPush), w', o, newId, hasBackend);
  }

  /** The eta lies ahead. */
  predicate Deferred(m: Message, now: int) {
    m.eta.Some? && m.eta.value > now
  }

  predicate AllPass(hooks: seq<bool>) {
    forall i :: 0 <= i < |hooks| ==> hooks[i]
  }

  /** The `before` hooks, in order, up to the first that refuses. */
  method RunHooks(hooks: seq<bool>) returns (pass: bool)
    ensures pass == AllPass(hooks)
  {
    for i := 0 to |hooks|
      invariant forall j :: 0 <= j < i ==> hooks[j]
    {
      if !hooks[i] {
        return false;
      }
    }
    return true;
  }

  /** `handle_failure` ends with one more retry on the queue, or with a dead letter. */
  lemma FailureEnds(m: Message, w: World, o: Oracle, newId: Id, hasBackend: bool)
    ensures Drive(Exec(m, OnError), w, o, newId, hasBackend)
      == if m.retries < m.maxRetries
         then World(w.broker.Untrack(m.id).Push(m.(retries := m.retries + 1, state := Retry)), w.backend)
         else World(w.broker.Untrack(m.id).PushDead(m.(state := DeadLettered)), w.backend)
  {
    if m.retries < m.maxRetries {
      DriveEndings(m.(retries := m.retries + 1, state := Retry), w, o, newId, hasBackend);
    } else {
      DriveEndings(m.(state := DeadLettered), w, o, newId, hasBackend);
    }
  }

  /** A failed attempt has let go of its message and left one more retry, or a dead letter. */
  predicate Failed(before: Broker, m: Message, after: Broker) {
    after == if m.retries < m.maxRetries
             then before.Untrack(m.id).Push(m.(retries := m.retries + 1, state := Retry))
             else before.Untrack(m.id).PushDead(m.(state := DeadLettered))
  }

  method HandleFailure(broker: MemoryBroker, message: Message, ghost w: World, ghost o: Oracle, ghost newId: Id,
                       ghost hasBackend: bool)
    returns (slept: nat)
    requires broker.Valid() && w.broker == broker.View() && message.maxRetries < U32
    modifies broker
    ensures broker.Valid() && Failed(old(broker.View()), message, broker.View())
    ensures slept == if message.retries < message.maxRetries then B.Min(Pow2(message.retries), 300) else 0
    ensures World(broker.View(), w.backend) == Drive(Exec(message, OnError), w, o, newId, hasBackend)
  {
    FailureEnds(message, w, o, newId, hasBackend);
    var m := message;
    slept := 0;
    if m.retries < m.maxRetries {
      m := m.(retries := m.retries + 1);
      m := m.(state := Retry);
      B.DelayIsExact(1, 300, message.retries);
      slept := B.DelayFor(B.DEFAULT, m.retries - 1);
      broker.Nack(m);
    } else {
      m := m.(state := DeadLettered);
      broker.DeadLetter(m);
    }
  }

  /** What is stored, when there is anywhere to store it. */
  ghost function Stored(backend: MemoryResultBackend?): Backend
    reads backend
  {
    if backend == null then Backend(map[], map[]) else backend.View()
  }

  /** An execution that is not deferred goes on to its failure, or past its handler. */
  lemma AttemptDrives(m: Message, w: World, o: Oracle, newId: Id, full: bool)
    requires !Deferred(m, o.now)
    ensures Drive(Exec(m, Guard), w, o, newId, full)
      == if o.hooksPass && o.handler.Some?
         then Drive(Exec(m.(state := Success), Ack(o.handler.value)), w, o, newId, full)
         else Drive(Exec(m.(state := Started), OnError), w, o, newId, full)
  {
    var x := m.(state := Started);
    assert Drive(Exec(m, Guard), w, o, newId, full) == Drive(Exec(x, Before), w, o, newId, full);
    if o.hooksPass {
      assert Drive(Exec(x, Before), w, o, newId, full) == Drive(Exec(x, Dispatch), w, o, newId, full);
    }
  }

  /** What one execution leaves.  Ahead of its eta a message goes back as it is; when a hook refuses
      it, or its handler fails, it is retried or buried, and no result is touched; otherwise it is
      let go of, and its result is stored under its id if there is a backend. */
  predicate Executed(w: World, m: Message, now: int, pass: bool, handler: Option<Value>, full: bool, w': World) {
    if Deferred(m, now) then w' == World(w.broker.Untrack(m.id).Push(m), w.backend)
    else if !pass || handler.None? then Failed(w.broker, m, w'.broker) && w'.backend == w.backend
    else
      && m.id !in w'.broker.processing
      && w'.backend.results == (if full then w.backend.results[m.id := handler.value] else w.backend.results)
      && (m.groupId.None? ==> w'.backend.groups == w.backend.groups)
  }

  method ExecuteTask(broker: MemoryBroker, backend: MemoryResultBackend?, hooks: seq<bool>, message: Message,
                     now: int, handler: Option<Value>, newId: Id)
    returns (slept: nat)
    requires broker.Valid() && message.maxRetries < U32
    modifies broker, backend
    ensures broker.Valid()
    ensures World(broker.View(), Stored(backend))
      == Drive(Exec(message, Guard), old(World(broker.View(), Stored(backend))),
               Oracle(now, AllPass(hooks), handler), newId, backend != null)
    ensures Executed(old(World(broker.View(), Stored(backend))), message, now, AllPass(hooks), handler, backend != null,
                     World(broker.View(), Stored(backend)))
    ensures slept == if Deferred(message, now) || (AllPass(hooks) && handler.Some?) then 0
                     else if message.retries < message.maxRetries then B.Min(Pow2(message.retries), 300) else 0
  {
    ghost var o := Oracle(now, AllPass(hooks), handler);
    ghost var w := World(broker.View(), Stored(backend));
    ghost var full := backend != null;
    slept := 0;
    if message.eta.Some? && message.eta.value > now {
      DriveEndings(message, w, o, newId, full);
      broker.Ack(message.id);
      broker.Schedule(message, message.eta.value);
      return;
    }
    AttemptDrives(message, w, o, newId, full);
    var m := message.(state := Started);
    var pass := RunHooks(hooks);
    if !pass {
      slept := HandleFailure(broker, m, w, o, newId, full);
      return;
    }
    if handler.None? {
      slept := HandleFailure(broker, m, w, o, newId, full);
      return;
    }
    m := m.(state := Success);
    Settle(broker, backend, m, handler.value, o, newId);
  }

  /** The part of an execution after its handler returned `v`. */
  method Settle(broker: MemoryBroker, backend: MemoryResultBackend?, message: Message, v: Value, ghost o: Oracle,
                newId: Id)
    requires broker.Valid()
    modifies broker, backend
    ensures broker.Valid() && message.id !in broker.View().processing
    ensures Stored(backend).results == if backend == null then map[] else old(Stored(backend)).results[message.id := v]
    ensures message.groupId.None? ==> Stored(backend).groups == old(Stored(backend)).groups
    ensures World(broker.View(), Stored(backend))
      == Drive(Exec(message, Ack(v)), old(World(broker.View(), Stored(backend))), o, newId, backend != null)
  {
    broker.Ack(message.id);
    if backend != null {
      StoreAndHandOn(broker, backend, message, v, o, newId);
    }
  }

  /** What follows the ack when there is a result backend. */
  method StoreAndHandOn(broker: MemoryBroker, backend: MemoryResultBackend, message: Message, v: Value,
                        ghost o: Oracle, newId: Id)
    requires broker.Valid()
    modifies broker, backend
    ensures broker.Valid() && broker.View().processing == old(broker.View().processing)
    ensures backend.View().results == old(backend.View()).results[message.id := v]
    ensures message.groupId.None? ==> backend.View().groups == old(backend.View()).groups
    ensures World(broker.View(), backend.View())
      == Drive(Exec(message, Store(v)), old(World(broker.View(), backend.View())), o, newId, true)
  {
    var m := message;
    ghost var goal := Drive(Exec(m, Store(v)), World(broker.View(), backend.View()), o, newId, true);
    backend.Store(m.id, v);
    if m.groupId.Some? {
      m := CompleteGroup(broker, backend, m, v, o, newId, goal);
    }
    assert goal == Drive(Exec(m, Continue(v)), World(broker.View(), backend.View()), o, newId, true);
    ContinueChain(broker, m, v, newId);
  }

  /** The group part of a successful execution; `goal` is where the whole execution is headed. */
  method CompleteGroup(broker: MemoryBroker, backend: MemoryResultBackend, message: Message, v: Value,
                       ghost o: Oracle, ghost newId: Id, ghost goal: World) returns (m: Message)
    requires broker.Valid() && message.groupId.Some?
    requires goal == Drive(Exec(message, Complete(v)), World(broker.View(), backend.View()), o, newId, true)
    modifies broker, backend
    ensures broker.Valid() && broker.View().processing == old(broker.View().processing)
    ensures backend.View().results == old(backend.View()).results
    ensures goal == Drive(Exec(m, Continue(v)), World(broker.View(), backend.View()), o, newId, true)
  {
    m := message;
    var g := m.groupId.value;
    var completed := backend.CompleteGroupMember(g, v);
    if completed.Some? {
      var total := if m.groupTotal.Some? then m.groupTotal.value else 0;
      if completed.value == total && m.chordCallback.Some? {
        var cb := m.chordCallback.value;
        m := m.(chordCallback := None);
        assert goal == Drive(Exec(m, Read(v, cb)), World(broker.View(), backend.View()), o, newId, true);
        var vs := backend.GetGroupResults(g);
        if vs.Some? {
          cb := WithResults(cb, vs.value);
        }
        assert goal == Drive(Exec(m, Fire(v, cb)), World(broker.View(), backend.View()), o, newId, true);
        broker.Enqueue(cb);
      }
    }
  }

  method ContinueChain(broker: MemoryBroker, m: Message, v: Value, newId: Id)
    requires broker.Valid()
    modifies broker
    ensures broker.Valid()
    ensures broker.View() == match NextMessage(m, v, newId)
      case Some(n) => old(broker.View()).Push(n)
      case None => old(broker.View())
  {
    if ChainNextKey in m.headers {
      match m.headers[ChainNextKey] {
        case ChainNext(remaining) =>
          if remaining != [] {
            var next := IntoMessage(remaining[0], newId);
            next := next.(headers := next.headers[ChainInputKey := ChainInput(v)]);
            if m.correlationId.Some? {
              next := next.(correlationId := m.correlationId);
            }
            if |remaining| > 1 {
              next := next.(headers := next.headers[ChainNextKey := ChainNext(remaining[1..])]);
            }
            broker.Enqueue(next);
          }
        case _ => // does not parse
      }
    }
  }
}
