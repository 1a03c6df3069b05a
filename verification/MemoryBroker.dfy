/** `MemoryBroker` (kojin-core/src/memory_broker.rs): three maps changed in place. */
module MemoryBrokers {
  import opened Messages
  import opened Brokers

  class MemoryBroker {
    var queues: map<string, seq<Message>>
    var dlq: map<string, seq<Message>>
    var processing: map<Id, Message>

    // per queue, everything ever pushed on it and everything ever popped from it
    ghost var pushed: map<string, seq<Message>>
    ghost var popped: map<string, seq<Message>>

    function View(): Broker
      reads this
    {
      Broker(queues, dlq, processing)
    }

    ghost function Log(log: map<string, seq<Message>>, q: string): seq<Message> {
      if q in log then log[q] else []
    }

    /** First in, first out: what was popped and then what is left is what was pushed, in order. */
    ghost predicate Valid()
      reads this
    {
      forall q :: Log(popped, q) + View().Queue(q) == Log(pushed, q)
    }

    constructor ()
      ensures Valid() && View() == Broker(map[], map[], map[])
    {
      queues, dlq, processing := map[], map[], map[];
      pushed, popped := map[], map[];
    }

    method Enqueue(m: Message)
      requires Valid()
      modifies this
      ensures Valid() && View() == old(View()).Push(m)
      ensures popped == old(popped) && pushed == old(pushed)[m.queue := old(Log(pushed, m.queue)) + [m]]
    {
      var q := if m.queue in queues then queues[m.queue] else [];
      queues := queues[m.queue := q + [m]];
      pushed := pushed[m.queue := Log(pushed, m.queue) + [m]];
    }

    /** Take the front of a queue and record it in `processing`. */
    method PopFront(name: string) returns (m: Message)
      requires Valid() && name in queues && queues[name] != []
      modifies this
      ensures Valid() && m == old(queues[name])[0] && View() == old(View()).Pop(name).Track(m)
      ensures pushed == old(pushed) && popped == old(popped)[name := old(Log(popped, name)) + [m]]
    {
      var q := queues[name];
      m := q[0];
      assert q == [m] + q[1..];
      queues := queues[name := q[1..]];
      processing := processing[m.id := m];
      popped := popped[name := Log(popped, name) + [m]];
    }

    /** One pass over the requested queues: the front of the first non-empty one, which then
        is in `processing`. */
    method Dequeue(names: seq<string>) returns (r: Option<Message>)
      requires Valid()
      modifies this
      ensures Valid() && pushed == old(pushed)
      ensures r.Some? <==> old(View()).Ready(names).Some?
      ensures r.None? ==> View() == old(View()) && popped == old(popped)
      ensures r.Some? ==> var q := old(View()).Ready(names).value;
        && r.value == old(View()).Queue(q)[0]
        && View() == old(View()).Pop(q).Track(r.value)
        && popped == old(popped)[q := old(Log(popped, q)) + [r.value]]
    {
      ghost var b := View();
      for i := 0 to |names|
        invariant View() == b && Valid() && pushed == old(pushed) && popped == old(popped)
        invariant b.AllEmpty(names, i)
      {
        var name := names[i];
        b.ReadyHere(names, i);
        if name in queues {
          if queues[name] != [] {
            var m := PopFront(name);
            return Some(m);
          }
        }
      }
      b.ReadyAt(names, |names|);
      return None;
    }

    method Ack(id: Id)
      modifies this
      ensures View() == old(View()).Untrack(id) && pushed == old(pushed) && popped == old(popped)
      ensures old(Valid()) ==> Valid()
    {
      processing := processing - {id};
      assert forall q :: View().Queue(q) == old(View().Queue(q));
    }

    method Nack(m: Message)
      requires Valid()
      modifies this
      ensures Valid() && View() == old(View()).Untrack(m.id).Push(m)
      ensures popped == old(popped) && pushed == old(pushed)[m.queue := old(Log(pushed, m.queue)) + [m]]
    {
      Ack(m.id);
      Enqueue(m);
    }

    method DeadLetter(m: Message)
      requires Valid()
      modifies this
      ensures Valid() && View() == old(View()).Untrack(m.id).PushDead(m)
      ensures pushed == old(pushed) && popped == old(popped)
    {
      Ack(m.id);
      var q := if m.queue in dlq then dlq[m.queue] else [];
      dlq := dlq[m.queue := q + [m]];
      assert forall n :: View().Queue(n) == old(View().Queue(n));
    }

    /** There is no scheduled set: the message is simply enqueued. */
    method Schedule(m: Message, eta: int)
      requires Valid()
      modifies this
      ensures Valid() && View() == old(View()).Push(m)
      ensures popped == old(popped) && pushed == old(pushed)[m.queue := old(Log(pushed, m.queue)) + [m]]
    {
      Enqueue(m);
    }
  }
}
