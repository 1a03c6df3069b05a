/** What holds of every run of a cluster, stated in the cluster's own terms: queues,
    dead-letter queues, `processing`, executions, and what executions put on queues. */
module Guarantees {
  import opened Messages
  import opened Workflows
  import opened Results
  import opened Execution
  import opened Invariants
  import opened Refinement
  import C = Cluster
  import P = Protocol
  import Preservation
  import Chords
  import Brokers

  // ---------------------------------------------------------------- runs

  /** The lifecycle steps behind a run. */
  function LabelsOf(c: C.Cluster, events: seq<C.Event>): seq<P.Label>
    decreases |events|
  {
    if events == [] || !C.Enabled(c, events[0]) then []
    else (match LabelOf(c, events[0]) case Some(l) => [l] case None => [])
         + LabelsOf(C.Next(c, events[0]), events[1..])
  }

  lemma LabelsCons(c: C.Cluster, events: seq<C.Event>)
    requires events != [] && C.Enabled(c, events[0])
    ensures var l, rest := LabelOf(c, events[0]), LabelsOf(C.Next(c, events[0]), events[1..]);
      LabelsOf(c, events) == if l.Some? then [l.value] + rest else rest
  {
  }

  function Start(c: C.Cluster): P.State {
    P.State(map[], map[], map[], c.backend, c.hasBackend, c.nextId, c.clock, 0, 0)
  }

  lemma StartRefines(c: C.Cluster)
    requires C.Init(c)
    ensures Refines(c, Start(c)) && Inv(Start(c)) && P.Init(Start(c))
  {
  }

  /** The refinement theorem: a run of the cluster is a run of the lifecycle. */
  lemma {:induction false} RunsRefine(c: C.Cluster, s: P.State, events: seq<C.Event>, d: C.Cluster) returns (t: P.State)
    requires Refines(c, s) && Inv(s) && C.Leads(c, events, d)
    ensures P.Leads(s, LabelsOf(c, events), t) && Refines(d, t) && Inv(t)
    decreases |events|
  {
    if events == [] {
      t := s;
    } else {
      var e := events[0];
      Simulated(c, s, e);
      match LabelOf(c, e) {
        case None =>
          t := RunsRefine(C.Next(c, e), s, events[1..], d);
          assert LabelsOf(c, events) == LabelsOf(C.Next(c, e), events[1..]);
        case Some(l) =>
          Preservation.NextKeepsInv(s, l);
          t := RunsRefine(C.Next(c, e), P.Next(s, l), events[1..], d);
          assert LabelsOf(c, events) == [l] + LabelsOf(C.Next(c, e), events[1..]);
          LeadsCons(s, l, LabelsOf(C.Next(c, e), events[1..]), t);
      }
    }
  }

  lemma LeadsCons(s: P.State, l: P.Label, rest: seq<P.Label>, t: P.State)
    requires P.Enabled(s, l) && P.Leads(P.Next(s, l), rest, t)
    ensures P.Leads(s, [l] + rest, t)
  {
    assert ([l] + rest)[1..] == rest;
  }

  lemma Reached(c: C.Cluster, events: seq<C.Event>, d: C.Cluster) returns (t: P.State)
    requires C.Init(c) && C.Leads(c, events, d)
    ensures P.Leads(Start(c), LabelsOf(c, events), t) && Refines(d, t) && Inv(t)
  {
    StartRefines(c);
    t := RunsRefine(c, Start(c), events, d);
  }

  // ---------------------------------------------------------------- conservation

  datatype Place =
    | AtQueue(q: string, i: nat)
    | AtDlq(q: string, i: nat)
    | AtWorker(w: nat)     // between pop and insert in `dequeue`
    | AtJob(e: nat)

  predicate Sits(d: C.Cluster, p: Place, id: Id) {
    match p
    case AtQueue(q, i) => q in d.broker.queues && i < |d.broker.queues[q]| && d.broker.queues[q][i].id == id
    case AtDlq(q, i) => q in d.broker.dead && i < |d.broker.dead[q]| && d.broker.dead[q][i].id == id
    case AtWorker(w) => w in d.workers && d.workers[w].pc.Popped? && d.workers[w].pc.m.id == id
    case AtJob(e) => e in d.jobs && d.jobs[e].x.msg.id == id
  }

  predicate Settled(loc: P.Loc) {
    loc.Finished? || loc.Lost?
  }

  /** A message sits where its token says, and nowhere else. */
  lemma SitsWhere(d: C.Cluster, t: P.State, p: Place, id: Id)
    requires Refines(d, t) && Sits(d, p, id)
    ensures id in t.tokens && !Settled(t.tokens[id].loc)
    ensures match p
      case AtQueue(q, i) =>
        t.tokens[id].loc.Queued? && t.tokens[id].msg == d.broker.queues[q][i] && t.tokens[id].msg.queue == q
      case AtDlq(q, i) =>
        t.tokens[id].loc.Dead? && t.tokens[id].msg == d.broker.dead[q][i] && t.tokens[id].msg.queue == q
      case AtWorker(w) => t.tokens[id].loc == P.Taken(w)
      case AtJob(e) => t.tokens[id].loc == P.Running(e, d.jobs[e].x.pc) && t.tokens[id].msg == d.jobs[e].x.msg
  {
  }

  lemma SitsSomewhere(d: C.Cluster, t: P.State, id: Id) returns (p: Place)
    requires Refines(d, t) && id in t.tokens && t.tokens[id].msg.id == id && !Settled(t.tokens[id].loc)
    ensures Sits(d, p, id)
  {
    var m := t.tokens[id].msg;
    match t.tokens[id].loc {
      case Queued =>
        var i :| 0 <= i < |d.broker.Queue(m.queue)| && d.broker.Queue(m.queue)[i] == m;
        p := AtQueue(m.queue, i);
      case Dead =>
        var i :| 0 <= i < |d.broker.Dlq(m.queue)| && d.broker.Dlq(m.queue)[i] == m;
        p := AtDlq(m.queue, i);
      case Taken(w) => p := AtWorker(w);
      case Running(e, pc) => p := AtJob(e);
      case _ => assert false;
    }
  }

  /** Conservation, first half: on every run, no message is ever in two places. */
  lemma OnePlace(c: C.Cluster, events: seq<C.Event>, d: C.Cluster, p: Place, p': Place, id: Id)
    requires C.Init(c) && C.Leads(c, events, d) && Sits(d, p, id) && Sits(d, p', id)
    ensures p == p'
  {
    var t := Reached(c, events, d);
    SamePlace(d, t, p, p', id);
  }

  lemma SamePlace(d: C.Cluster, t: P.State, p: Place, p': Place, id: Id)
    requires Refines(d, t) && Sits(d, p, id) && Sits(d, p', id)
    ensures p == p'
  {
    SitsWhere(d, t, p, id);
    SitsWhere(d, t, p', id);
    assert OnceEach(d.broker.queues) && OnceEach(d.broker.dead);
  }

  /** `processing` holds exactly the messages whose execution has not let go of them. */
  lemma ProcessingIsRunning(c: C.Cluster, events: seq<C.Event>, d: C.Cluster, id: Id)
    requires C.Init(c) && C.Leads(c, events, d)
    ensures id in d.broker.processing <==> exists e :: Sits(d, AtJob(e), id) && Tracked(d.jobs[e].x.pc)
  {
    var t := Reached(c, events, d);
    OwnIds(t);
    if id in d.broker.processing {
      var e := t.tokens[id].loc.exec;
      assert Sits(d, AtJob(e), id) && Tracked(d.jobs[e].x.pc);
    }
    if exists e :: Sits(d, AtJob(e), id) && Tracked(d.jobs[e].x.pc) {
      var e :| Sits(d, AtJob(e), id) && Tracked(d.jobs[e].x.pc);
      SitsWhere(d, t, AtJob(e), id);
    }
  }

  /** The event ends a successful execution of `id`. */
  predicate Finishes(d: C.Cluster, e: C.Event, id: Id)
    requires C.Enabled(d, e)
  {
    e.Step? && d.jobs[e.job].x.msg.id == id
    && (d.jobs[e.job].x.pc.Continue? || (d.jobs[e.job].x.pc.Ack? && !d.hasBackend))
  }

  /** The event cancels a dequeue that has popped `id` and not recorded it. */
  predicate DropsPopped(d: C.Cluster, e: C.Event, id: Id)
    requires C.Enabled(d, e)
  {
    e.Leave? && d.workers[e.w].pc.Popped? && d.workers[e.w].pc.m.id == id
  }

  ghost predicate Nowhere(d: C.Cluster, id: Id) {
    forall p :: !Sits(d, p, id)
  }

  /** Conservation, second half: an event leaves a message in no place exactly when it ends a
      successful execution of it, or cancels a dequeue between its pop and its insert. */
  lemma OnlyCancelLoses(c: C.Cluster, events: seq<C.Event>, d: C.Cluster, p: Place, e: C.Event, id: Id)
    requires C.Init(c) && C.Leads(c, events, d) && Sits(d, p, id) && C.Enabled(d, e)
    ensures Nowhere(C.Next(d, e), id) <==> Finishes(d, e, id) || DropsPopped(d, e, id)
  {
    var t := Reached(c, events, d);
    SitsWhere(d, t, p, id);
    Simulated(d, t, e);
    match LabelOf(d, e) {
      case None =>
        NowhereIffSettled(C.Next(d, e), t, id);
        SilentKeeps(d, e, id);
      case Some(l) =>
        Preservation.NextKeepsInv(t, l);
        BecameSettled(t, l, id);
        LeavesBy(d, t, e, l, id);
        NowhereIffSettled(C.Next(d, e), P.Next(t, l), id);
    }
  }

  lemma SilentKeeps(d: C.Cluster, e: C.Event, id: Id)
    requires C.Enabled(d, e) && LabelOf(d, e) == None
    ensures !Finishes(d, e, id) && !DropsPopped(d, e, id)
  {
  }

  lemma NowhereIffSettled(d: C.Cluster, t: P.State, id: Id)
    requires Refines(d, t) && Inv(t) && id in t.tokens
    ensures Nowhere(d, id) <==> Settled(t.tokens[id].loc)
  {
    if Settled(t.tokens[id].loc) {
      SettledIsNowhere(d, t, id);
    } else {
      OwnIds(t);
      var p := SitsSomewhere(d, t, id);
    }
  }

  lemma SettledIsNowhere(d: C.Cluster, t: P.State, id: Id)
    requires Refines(d, t) && Inv(t) && id in t.tokens && Settled(t.tokens[id].loc)
    ensures Nowhere(d, id)
  {
    forall p ensures !Sits(d, p, id) {
      if Sits(d, p, id) { SitsWhere(d, t, p, id); }
    }
  }

  /** Tokens are never taken away. */
  lemma {:induction false} TokensStay(s: P.State, labels: seq<P.Label>, t: P.State, id: Id)
    requires Inv(s) && P.Leads(s, labels, t) && id in s.tokens
    ensures id in t.tokens
    decreases |labels|
  {
    if labels != [] {
      Preservation.NextKeepsInv(s, labels[0]);
      TokensStay(P.Next(s, labels[0]), labels[1..], t, id);
    }
  }

  /** Conservation over whole runs: a message that was somewhere and then is nowhere is never
      anywhere again, whatever runs after. */
  lemma GoneForGood(c: C.Cluster, events: seq<C.Event>, d: C.Cluster, p: Place, id: Id,
                    more: seq<C.Event>, e: C.Cluster, after: seq<C.Event>, e': C.Cluster)
    requires C.Init(c) && C.Leads(c, events, d) && Sits(d, p, id)
    requires C.Leads(d, more, e) && Nowhere(e, id) && C.Leads(e, after, e')
    ensures Nowhere(e', id)
  {
    var t := Reached(c, events, d);
    SitsWhere(d, t, p, id);
    var u := RunsRefine(d, t, more, e);
    TokensStay(t, LabelsOf(d, more), u, id);
    NowhereIffSettled(e, u, id);
    var u' := RunsRefine(e, u, after, e');
    Chords.GoneStays(u, LabelsOf(e, after), u', id);
    NowhereIffSettled(e', u', id);
  }

  /** The step `l` lets go of `id` for good. */
  predicate Releases(t: P.State, l: P.Label, id: Id) {
    l == P.Drop(id)
    || (l.Run? && l.id == id && id in t.tokens && t.tokens[id].loc.Running?
        && (t.tokens[id].loc.pc.Continue? || (t.tokens[id].loc.pc.Ack? && !t.hasBackend)))
  }

  lemma LeavesBy(d: C.Cluster, t: P.State, e: C.Event, l: P.Label, id: Id)
    requires Refines(d, t) && C.Enabled(d, e) && LabelOf(d, e) == Some(l)
    ensures Releases(t, l, id) <==> Finishes(d, e, id) || DropsPopped(d, e, id)
  {
    if e.Step? { assert JobsHold(d.jobs, d.nextJob, t.tokens); }
  }

  lemma BecameSettled(t: P.State, l: P.Label, id: Id)
    requires Inv(t) && P.Enabled(t, l) && id in t.tokens && !Settled(t.tokens[id].loc)
    ensures id in P.Next(t, l).tokens
    ensures Settled(P.Next(t, l).tokens[id].loc) <==> Releases(t, l, id)
  {
    if l.Run? {
      Chords.RunKeepsOwners(t, l.id, l.oracle);
      SettlingRun(t, l.id, l.oracle);
      NotSettledBy(t, l, id);
      SpawnsNew(t, l.id, l.oracle);
      SettledRun(t, l.id, l.oracle, P.Advance(t, l.id, l.oracle));
    } else {
      NotSettledBy(t, l, id);
    }
  }

  lemma SettledRun(t: P.State, id: Id, o: Oracle, out: Outcome)
    requires id in t.tokens && t.tokens[id].loc.Running? && (out.effect.Spawn? ==> out.effect.m.id !in t.tokens)
    ensures P.RunWith(t, id, o, out).tokens[id] == P.Settle(t.tokens[id], out)
  {
  }

  /** Only the message that runs, or is dropped, can become settled. */
  lemma NotSettledBy(t: P.State, l: P.Label, id: Id)
    requires Allocated(t) && P.Enabled(t, l) && id in t.tokens && !Settled(t.tokens[id].loc)
    requires l.Run? ==> Preservation.Ran(t, P.RunStep(t, l.id, l.oracle), l.id)
    ensures id in P.Next(t, l).tokens
    ensures Settled(P.Next(t, l).tokens[id].loc) ==> (l.Run? && l.id == id) || l == P.Drop(id)
  {
    assert id < t.nextId;
  }

  lemma SettlingRun(t: P.State, id: Id, o: Oracle)
    requires id in t.tokens && t.tokens[id].loc.Running?
    ensures var t' := P.Settle(t.tokens[id], P.Advance(t, id, o)); var pc := t.tokens[id].loc.pc;
      Settled(t'.loc) <==> pc.Continue? || (pc.Ack? && !t.hasBackend)
  {
  }

  // ---------------------------------------------------------------- a run that loses a message

  function OneWorker(queue: string, pc: C.LoopPc, available: nat, cancelled: bool): map<nat, C.Worker> {
    map[0 := C.Worker(pc, available, 1, [queue], cancelled)]
  }

  function Alone(queue: string, workers: map<nat, C.Worker>, queued: map<string, seq<Message>>, nextId: Id): C.Cluster {
    C.Cluster(Brokers.Broker(queued, map[], map[]), Backend(map[], map[]), false, workers, map[], map[], nextId, 0, 0)
  }

  /** The cluster after `k` of the events below, from one message queued. */
  function Taking(q: string, m: Message, k: nat): C.Cluster {
    if k == 0 then Alone(q, OneWorker(q, C.Top, 1, false), map[q := [m]], 2)
    else if k == 1 then Alone(q, OneWorker(q, C.Waiting, 1, false), map[q := [m]], 2)
    else if k == 2 then Alone(q, OneWorker(q, C.Holding, 0, false), map[q := [m]], 2)
    else if k == 3 then Alone(q, OneWorker(q, C.Popped(m), 0, false), map[q := []], 2)
    else if k == 4 then Alone(q, OneWorker(q, C.Popped(m), 0, true), map[q := []], 2)
    else Alone(q, OneWorker(q, C.Draining, 1, true), map[q := []], 2)
  }

  function TakingEvent(k: nat): C.Event {
    if k == 0 then C.Look(0) else if k == 1 then C.Acquire(0) else if k == 2 then C.Pop(0)
    else if k == 3 then C.Cancel(0) else C.Leave(0)
  }

  lemma TakingStep(q: string, m: Message, k: nat)
    requires k < 5
    ensures C.Enabled(Taking(q, m, k), TakingEvent(k)) && C.Next(Taking(q, m, k), TakingEvent(k)) == Taking(q, m, k + 1)
  {
    if k == 2 { assert Taking(q, m, 2).broker.Ready([q]) == Some(q); }
  }

  lemma {:induction false} TakenAndCancelled(q: string, m: Message, k: nat) returns (events: seq<C.Event>)
    requires k <= 5
    ensures C.Leads(Taking(q, m, k), events, Taking(q, m, 5))
    decreases 5 - k
  {
    if k == 5 {
      events := [];
    } else {
      TakingStep(q, m, k);
      var rest := TakenAndCancelled(q, m, k + 1);
      events := EventsCons(Taking(q, m, k), TakingEvent(k), rest, Taking(q, m, 5));
    }
  }

  /** A run on which one worker takes the only message and is cancelled before it is recorded. */
  lemma PopThenCancelLoses(sig: Signature) returns (c: C.Cluster, events: seq<C.Event>, d: C.Cluster)
    requires Plain(sig)
    ensures C.Init(c) && C.Enabled(c, C.Enqueue(sig)) && C.Leads(C.Next(c, C.Enqueue(sig)), events, d)
    ensures Sits(C.Next(c, C.Enqueue(sig)), AtQueue(sig.queue, 0), 1) && Nowhere(d, 1)
  {
    var q := sig.queue;
    var m := C.LineMessage(None, [sig], 1);
    c := Alone(q, OneWorker(q, C.Top, 1, false), map[], 0);
    assert C.Next(c, C.Enqueue(sig)).broker.queues == map[q := [m]] by { assert [] + [m] == [m]; }
    assert C.Next(c, C.Enqueue(sig)) == Taking(q, m, 0);
    events := TakenAndCancelled(q, m, 0);
    d := Taking(q, m, 5);
  }

  lemma EventsCons(c: C.Cluster, e: C.Event, rest: seq<C.Event>, d: C.Cluster) returns (events: seq<C.Event>)
    requires C.Enabled(c, e) && C.Leads(C.Next(c, e), rest, d)
    ensures C.Leads(c, events, d)
  {
    events := [e] + rest;
    assert events[1..] == rest;
  }
}
