/** The state behind `MemoryBroker` and its operations as functions, one per lock held
    (kojin-core/src/memory_broker.rs:45-111). */
module Brokers {
  import opened Messages

  datatype Broker = Broker(
    queues: map<string, seq<Message>>, dead: map<string, seq<Message>>, processing: map<Id, Message>)
  {
    function Queue(q: string): seq<Message> {
      if q in queues then queues[q] else []
    }

    function Dlq(q: string): seq<Message> {
      if q in dead then dead[q] else []
    }

    function Push(m: Message): Broker {
      this.(queues := queues[m.queue := Queue(m.queue) + [m]])
    }

    function PushDead(m: Message): Broker {
      this.(dead := dead[m.queue := Dlq(m.queue) + [m]])
    }

    /** The first of `names` with something in it. */
    function Ready(names: seq<string>): (r: Option<string>)
      ensures r.Some? ==> r.value in names && Queue(r.value) != []
    {
      if names == [] then None
      else if Queue(names[0]) != [] then Some(names[0])
      else Ready(names[1..])
    }

    predicate AllEmpty(names: seq<string>, i: nat)
      requires i <= |names|
    {
      forall j :: 0 <= j < i ==> Queue(names[j]) == []
    }

    /** A queue is ready when it is not empty and every queue listed before it is. */
    lemma {:induction false} ReadyIsFirst(names: seq<string>)
      ensures Ready(names).None? <==> forall q <- names :: Queue(q) == []
      ensures Ready(names).Some? ==>
        exists i :: 0 <= i < |names| && names[i] == Ready(names).value && AllEmpty(names, i)
    {
      if names != [] && Queue(names[0]) == [] {
        ReadyIsFirst(names[1..]);
        if Ready(names).Some? {
          var i :| 0 <= i < |names[1..]| && names[1..][i] == Ready(names).value
            && forall j :: 0 <= j < i ==> Queue(names[1..][j]) == [];
          assert names[i + 1] == Ready(names).value;
          forall j | 0 <= j < i + 1 ensures Queue(names[j]) == [] {
            if j > 0 { assert names[j] == names[1..][j - 1]; }
          }
        }
      }
    }

    lemma {:induction false} ReadyAt(names: seq<string>, i: nat)
      requires i <= |names| && AllEmpty(names, i)
      ensures Ready(names) == Ready(names[i..])
    {
      if i > 0 {
        assert names[1..][i - 1..] == names[i..];
        forall j | 0 <= j < i - 1 ensures Queue(names[1..][j]) == [] { assert names[1..][j] == names[j + 1]; }
        ReadyAt(names[1..], i - 1);
      }
    }

    lemma ReadyHere(names: seq<string>, i: nat)
      requires i < |names| && AllEmpty(names, i)
      ensures Queue(names[i]) != [] ==> Ready(names) == Some(names[i])
    {
      ReadyAt(names, i);
      assert names[i..][0] == names[i];
    }

    function Pop(q: string): Broker
      requires Queue(q) != []
    {
      this.(queues := queues[q := Queue(q)[1..]])
    }

    function Track(m: Message): Broker {
      this.(processing := processing[m.id := m])
    }

    function Untrack(id: Id): Broker {
      this.(processing := processing - {id})
    }
  }
}
