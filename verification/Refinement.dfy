/** The cluster refines the lifecycle: every event of a cluster is a step of Protocol.dfy or
    changes nothing it knows of. */
module Refinement {
  import opened Messages
  import opened Workflows
  import opened Results
  import opened Brokers
  import opened Execution
  import opened Invariants
  import P = Protocol
  import C = Cluster
  import Preservation

  type Tokens = map<Id, P.Token>

  /** Every entry is a message that is queued, under its own queue's name. */
  ghost predicate QueueEntries(b: Broker, tokens: Tokens) {
    forall q, i :: q in b.queues && 0 <= i < |b.queues[q]| ==>
      var m := b.queues[q][i];
      m.queue == q && m.id in tokens && tokens[m.id].msg == m && tokens[m.id].loc.Queued?
  }

  ghost predicate OnceEach(lists: map<string, seq<Message>>) {
    forall q, i, j :: q in lists && 0 <= i < j < |lists[q]| ==> lists[q][i].id != lists[q][j].id
  }

  ghost predicate QueuedArePresent(b: Broker, tokens: Tokens) {
    forall id <- tokens :: tokens[id].loc.Queued? ==> tokens[id].msg in b.Queue(tokens[id].msg.queue)
  }

  /** The queues hold exactly the queued messages, each once, under its own queue's name. */
  ghost predicate QueuesHold(b: Broker, tokens: Tokens) {
    QueueEntries(b, tokens) && OnceEach(b.queues) && QueuedArePresent(b, tokens)
  }

  ghost predicate DlqsHold(b: Broker, tokens: Tokens) {
    && (forall q, i :: q in b.dead && 0 <= i < |b.dead[q]| ==>
          var m := b.dead[q][i];
          m.queue == q && m.id in tokens && tokens[m.id].msg == m && tokens[m.id].loc.Dead?)
    && OnceEach(b.dead)
    && (forall id <- tokens :: tokens[id].loc.Dead? ==> tokens[id].msg in b.Dlq(tokens[id].msg.queue))
  }

  ghost predicate JobsHold(jobs: map<nat, C.Job>, nextJob: nat, tokens: Tokens) {
    && (forall e <- jobs :: e < nextJob && var x := jobs[e].x;
          x.msg.id in tokens && tokens[x.msg.id].msg == x.msg && tokens[x.msg.id].loc == P.Running(e, x.pc))
    && (forall id <- tokens :: tokens[id].loc.Running? ==>
          var e := tokens[id].loc.exec;
          e in jobs && jobs[e].x == Exec(tokens[id].msg, tokens[id].loc.pc))
  }

  ghost predicate WorkersHold(workers: map<nat, C.Worker>, tokens: Tokens) {
    && (forall w <- workers :: workers[w].pc.Popped? ==>
          var m := workers[w].pc.m;
          m.id in tokens && tokens[m.id].msg == m && tokens[m.id].loc == P.Taken(w))
    && (forall id <- tokens :: tokens[id].loc.Taken? ==>
          var w := tokens[id].loc.worker;
          w in workers && workers[w].pc == C.Popped(tokens[id].msg))
  }

  predicate InProcessing(t: P.Token) {
    t.loc.Running? && Tracked(t.loc.pc)
  }

  ghost predicate ProcessingHolds(b: Broker, tokens: Tokens) {
    forall id :: id in b.processing <==> id in tokens && InProcessing(tokens[id])
  }

  ghost predicate SubsHold(subs: map<Id, C.Sub>, flows: map<Id, P.Flow>) {
    && (forall f <- subs :: f in flows && flows[f].TeamFlow? && |flows[f].ids| < |flows[f].sigs| &&
          subs[f] == C.Sub(f, |flows[f].sigs| % U32, flows[f].cb, flows[f].sigs[|flows[f].ids|..])
          && flows[f].corr == Some(f))
    && (forall f <- flows :: flows[f].TeamFlow? && |flows[f].ids| < |flows[f].sigs| ==> f in subs)
  }

  ghost predicate Refines(c: C.Cluster, s: P.State) {
    && c.backend == s.backend && c.hasBackend == s.hasBackend && c.nextId == s.nextId && c.clock == s.clock
    && QueuesHold(c.broker, s.tokens) && DlqsHold(c.broker, s.tokens) && ProcessingHolds(c.broker, s.tokens)
    && JobsHold(c.jobs, c.nextJob, s.tokens) && WorkersHold(c.workers, s.tokens) && SubsHold(c.subs, s.flows)
  }

  // ---------------------------------------------------------------- broker operations

  ghost predicate OwnId(tokens: Tokens) {
    forall i <- tokens :: tokens[i].msg.id == i
  }

  lemma SameQueues(b: Broker, b': Broker, tokens: Tokens)
    requires QueuesHold(b, tokens) && b'.queues == b.queues
    ensures QueuesHold(b', tokens)
  {
    forall id <- tokens | tokens[id].loc.Queued? ensures tokens[id].msg in b'.Queue(tokens[id].msg.queue) {
      assert b'.Queue(tokens[id].msg.queue) == b.Queue(tokens[id].msg.queue);
    }
  }

  lemma SameDlqs(b: Broker, b': Broker, tokens: Tokens)
    requires DlqsHold(b, tokens) && b'.dead == b.dead
    ensures DlqsHold(b', tokens)
  {
    forall id <- tokens | tokens[id].loc.Dead? ensures tokens[id].msg in b'.Dlq(tokens[id].msg.queue) {
      assert b'.Dlq(tokens[id].msg.queue) == b.Dlq(tokens[id].msg.queue);
    }
  }

  /** Nothing queued before or after. */
  predicate NotQueued(tokens: Tokens, id: Id) {
    id in tokens ==> !tokens[id].loc.Queued?
  }

  predicate NotDead(tokens: Tokens, id: Id) {
    id in tokens ==> !tokens[id].loc.Dead?
  }

  lemma QueueFrame(b: Broker, tokens: Tokens, id: Id, t: P.Token)
    requires QueuesHold(b, tokens) && NotQueued(tokens, id) && !t.loc.Queued?
    ensures QueuesHold(b, tokens[id := t])
  {
  }

  lemma DlqFrame(b: Broker, tokens: Tokens, id: Id, t: P.Token)
    requires DlqsHold(b, tokens) && NotDead(tokens, id) && !t.loc.Dead?
    ensures DlqsHold(b, tokens[id := t])
  {
  }

  lemma PushHolds(b: Broker, tokens: Tokens, m: Message, t: P.Token)
    requires QueuesHold(b, tokens) && NotQueued(tokens, m.id) && t.loc.Queued? && t.msg == m
    ensures QueuesHold(b.Push(m), tokens[m.id := t])
  {
    var b', tokens' := b.Push(m), tokens[m.id := t];
    assert b'.Queue(m.queue)[|b.Queue(m.queue)|] == m;
    forall id <- tokens' | tokens'[id].loc.Queued? ensures tokens'[id].msg in b'.Queue(tokens'[id].msg.queue) {
      if id != m.id { assert tokens[id].msg in b.Queue(tokens[id].msg.queue); }
    }
  }

  lemma BuryHolds(b: Broker, tokens: Tokens, m: Message, t: P.Token)
    requires DlqsHold(b, tokens) && NotDead(tokens, m.id) && t.loc.Dead? && t.msg == m
    ensures DlqsHold(b.PushDead(m), tokens[m.id := t])
  {
    var b', tokens' := b.PushDead(m), tokens[m.id := t];
    assert b'.Dlq(m.queue)[|b.Dlq(m.queue)|] == m;
    forall id <- tokens' | tokens'[id].loc.Dead? ensures tokens'[id].msg in b'.Dlq(tokens'[id].msg.queue) {
      if id != m.id { assert tokens[id].msg in b.Dlq(tokens[id].msg.queue); }
    }
  }

  lemma PopPresent(b: Broker, tokens: Tokens, q: string, t: P.Token)
    requires QueuedArePresent(b, tokens) && b.Queue(q) != [] && !t.loc.Queued? && OwnId(tokens)
    ensures QueuedArePresent(b.Pop(q), tokens[b.Queue(q)[0].id := t])
  {
    var m := b.Queue(q)[0];
    var b', tokens' := b.Pop(q), tokens[m.id := t];
    forall id <- tokens' | tokens'[id].loc.Queued? ensures tokens'[id].msg in b'.Queue(tokens'[id].msg.queue) {
      var m' := tokens[id].msg;
      var i :| 0 <= i < |b.Queue(m'.queue)| && b.Queue(m'.queue)[i] == m';
      if m'.queue == q { assert b'.Queue(q)[i - 1] == m'; }
    }
  }

  lemma PopEntries(b: Broker, tokens: Tokens, q: string, t: P.Token)
    requires QueueEntries(b, tokens) && OnceEach(b.queues) && b.Queue(q) != []
    ensures QueueEntries(b.Pop(q), tokens[b.Queue(q)[0].id := t]) && OnceEach(b.Pop(q).queues)
  {
    var m := b.Queue(q)[0];
    var b', tokens' := b.Pop(q), tokens[m.id := t];
    forall n, i | n in b'.queues && 0 <= i < |b'.queues[n]|
      ensures var x := b'.queues[n][i];
        x.queue == n && x.id in tokens' && tokens'[x.id].msg == x && tokens'[x.id].loc.Queued?
    {
      assert b'.queues[n][i] == b.queues[n][if n == q then i + 1 else i];
      assert b.queues[q][0] == m && tokens[m.id].msg == m;
    }
  }

  lemma PopHolds(b: Broker, tokens: Tokens, q: string, t: P.Token)
    requires QueuesHold(b, tokens) && b.Queue(q) != [] && !t.loc.Queued? && OwnId(tokens)
    ensures QueuesHold(b.Pop(q), tokens[b.Queue(q)[0].id := t])
  {
    PopEntries(b, tokens, q, t);
    PopPresent(b, tokens, q, t);
  }

  // ---------------------------------------------------------------- executions

  /** The facts about one operation that the broker's bookkeeping rests on. */
  ghost predicate Booked(x: Exec, out: Outcome) {
    && (out.next.Some? ==> out.next.value.msg.id == x.msg.id && !out.effect.Requeue? && !out.effect.Inter?)
    && (out.effect.Untrack? ==> Tracked(x.pc) && (out.next.Some? ==> !Tracked(out.next.value.pc)))
    && (!out.effect.Untrack? ==> if out.next.Some? then Tracked(out.next.value.pc) == Tracked(x.pc) else !Tracked(x.pc))
  }

  lemma ResumeBooked(x: Exec, b: Backend, o: Oracle, newId: Id, hasBackend: bool)
    ensures Booked(x, Resume(x, b, o, newId, hasBackend))
  {
  }

  function TokensAfter(tokens: Tokens, id: Id, out: Outcome): Tokens
    requires id in tokens && tokens[id].loc.Running?
  {
    var settled := tokens[id := P.Settle(tokens[id], out)];
    if out.effect.Spawn? then settled[out.effect.m.id := P.Token(out.effect.m, P.Queued, 0)] else settled
  }

  ghost predicate Stepping(tokens: Tokens, id: Id, out: Outcome) {
    && OwnId(tokens) && id in tokens && tokens[id].loc.Running? && Booked(P.ExecOf(tokens[id]), out)
    && (out.effect.Spawn? ==> out.effect.m.id !in tokens)
  }

  lemma StepKeepsQueues(b: Broker, tokens: Tokens, id: Id, out: Outcome)
    requires QueuesHold(b, tokens) && Stepping(tokens, id, out)
    ensures QueuesHold(C.ApplyEffect(b, tokens[id].msg, out.effect), TokensAfter(tokens, id, out))
  {
    var t, m := P.Settle(tokens[id], out), tokens[id].msg;
    match out.effect {
      case Requeue => PushHolds(b, tokens, m, t);
      case Spawn(other) =>
        QueueFrame(b, tokens, id, t);
        PushHolds(b, tokens[id := t], other, P.Token(other, P.Queued, 0));
      case _ =>
        QueueFrame(b, tokens, id, t);
        SameQueues(b, C.ApplyEffect(b, m, out.effect), tokens[id := t]);
    }
  }

  lemma StepKeepsDlqs(b: Broker, tokens: Tokens, id: Id, out: Outcome)
    requires DlqsHold(b, tokens) && Stepping(tokens, id, out)
    ensures DlqsHold(C.ApplyEffect(b, tokens[id].msg, out.effect), TokensAfter(tokens, id, out))
  {
    var t, m := P.Settle(tokens[id], out), tokens[id].msg;
    match out.effect {
      case Inter => BuryHolds(b, tokens, m, t);
      case Spawn(other) =>
        DlqFrame(b, tokens, id, t);
        DlqFrame(b, tokens[id := t], other.id, P.Token(other, P.Queued, 0));
        SameDlqs(b, b.Push(other), TokensAfter(tokens, id, out));
      case _ =>
        DlqFrame(b, tokens, id, t);
        SameDlqs(b, C.ApplyEffect(b, m, out.effect), tokens[id := t]);
    }
  }

  lemma StepKeepsProcessing(b: Broker, tokens: Tokens, id: Id, out: Outcome)
    requires ProcessingHolds(b, tokens) && Stepping(tokens, id, out)
    ensures ProcessingHolds(C.ApplyEffect(b, tokens[id].msg, out.effect), TokensAfter(tokens, id, out))
  {
  }

  lemma StepKeepsJobs(jobs: map<nat, C.Job>, nextJob: nat, tokens: Tokens, e: nat, out: Outcome)
    requires JobsHold(jobs, nextJob, tokens) && e in jobs && Booked(jobs[e].x, out)
    requires OwnId(tokens)
    requires out.effect.Spawn? ==> out.effect.m.id !in tokens
    ensures JobsHold(
      if out.next.Some? then jobs[e := C.Job(jobs[e].worker, out.next.value)] else jobs - {e}, nextJob,
      TokensAfter(tokens, jobs[e].x.msg.id, out))
  {
  }

  lemma StepKeepsWorkers(workers: map<nat, C.Worker>, workers': map<nat, C.Worker>, tokens: Tokens, id: Id,
                         out: Outcome)
    requires WorkersHold(workers, tokens) && id in tokens && tokens[id].loc.Running?
    requires workers'.Keys == workers.Keys && forall w <- workers :: workers'[w].pc == workers[w].pc
    requires out.effect.Spawn? ==> out.effect.m.id !in tokens
    ensures WorkersHold(workers', TokensAfter(tokens, id, out))
  {
  }

  /** No operation of an execution opens or fills a group's submission. */
  lemma StepKeepsSubs(c: C.Cluster, s: P.State, id: Id, o: Oracle, out: Outcome)
    requires SubsHold(c.subs, s.flows) && Preservation.CanRun(s, id, o)
    ensures SubsHold(c.subs, P.RunWith(s, id, o, out).flows)
  {
  }

  lemma StepSimulated(c: C.Cluster, s: P.State, e: nat, o: Oracle)
    requires Refines(c, s) && Inv(s) && C.Enabled(c, C.Step(e, o))
    ensures P.Enabled(s, P.Run(c.jobs[e].x.msg.id, o))
    ensures Refines(C.Next(c, C.Step(e, o)), P.Next(s, P.Run(c.jobs[e].x.msg.id, o)))
  {
    var x := c.jobs[e].x;
    var id := x.msg.id;
    assert P.ExecOf(s.tokens[id]) == x;
    var out := P.Advance(s, id, o);
    SpawnsNew(s, id, o);
    ResumeBooked(x, s.backend, o, s.nextId, s.hasBackend);
    OwnIds(s);
    StepRefines(c, s, e, o, out);
  }

  lemma OwnIds(s: P.State)
    requires Inv(s)
    ensures OwnId(s.tokens)
  {
    forall i <- s.tokens ensures s.tokens[i].msg.id == i { assert TokenOk(s, i); }
  }

  lemma SpawnsNew(s: P.State, id: Id, o: Oracle)
    requires Inv(s) && Preservation.CanRun(s, id, o)
    ensures P.Advance(s, id, o).effect.Spawn? ==> P.Advance(s, id, o).effect.m.id !in s.tokens
  {
    Preservation.Identify(s, id);
    Preservation.AdvanceIsTame(s, id, o);
  }

  lemma StepRefines(c: C.Cluster, s: P.State, e: nat, o: Oracle, out: Outcome)
    requires Refines(c, s) && e in c.jobs && Preservation.CanRun(s, c.jobs[e].x.msg.id, o)
    requires OwnId(s.tokens)
    requires Booked(c.jobs[e].x, out) && (out.effect.Spawn? ==> out.effect.m.id !in s.tokens)
    ensures Refines(C.RunJobWith(c, e, out), P.RunWith(s, c.jobs[e].x.msg.id, o, out))
  {
    var id := c.jobs[e].x.msg.id;
    StepKeepsQueues(c.broker, s.tokens, id, out);
    StepKeepsDlqs(c.broker, s.tokens, id, out);
    StepKeepsProcessing(c.broker, s.tokens, id, out);
    StepKeepsJobs(c.jobs, c.nextJob, s.tokens, e, out);
    StepKeepsWorkers(c.workers, C.RunJobWith(c, e, out).workers, s.tokens, id, out);
    StepKeepsSubs(c, s, id, o, out);
  }

  // ---------------------------------------------------------------- every event

  /** The step of the lifecycle that an event is, if it is one. */
  function LabelOf(c: C.Cluster, e: C.Event): Option<P.Label>
    requires C.Enabled(c, e)
  {
    match e
    case Submit(canvas) => Some(P.Submit(canvas))
    case Enqueue(sig) => Some(P.Enqueue(sig))
    case SendMember(f) => Some(P.SendMember(f))
    case Pop(w) => Some(P.Take(c.broker.Queue(c.broker.Ready(c.workers[w].queues).value)[0].id, w))
    case Spawn(w) => Some(P.Track(c.workers[w].pc.m.id, c.nextJob))
    case Leave(w) => if c.workers[w].pc.Popped? then Some(P.Drop(c.workers[w].pc.m.id)) else None
    case Step(j, o) => Some(P.Run(c.jobs[j].x.msg.id, o))
    case Tick(now) => Some(P.Tick(now))
    case _ => None
  }

  /** A message that no execution holds, before or after. */
  lemma JobsFrame(jobs: map<nat, C.Job>, nextJob: nat, tokens: Tokens, id: Id, t: P.Token)
    requires JobsHold(jobs, nextJob, tokens) && (id in tokens ==> !tokens[id].loc.Running?) && !t.loc.Running?
    ensures JobsHold(jobs, nextJob, tokens[id := t])
  {
  }

  /** A message that no worker holds, before or after. */
  lemma WorkersFrame(workers: map<nat, C.Worker>, tokens: Tokens, id: Id, t: P.Token)
    requires WorkersHold(workers, tokens) && (id in tokens ==> !tokens[id].loc.Taken?) && !t.loc.Taken?
    ensures WorkersHold(workers, tokens[id := t])
  {
  }

  lemma ProcessingFrame(b: Broker, b': Broker, tokens: Tokens, id: Id, t: P.Token)
    requires ProcessingHolds(b, tokens) && b'.processing == b.processing
    requires (id in tokens ==> !InProcessing(tokens[id])) && !InProcessing(t)
    ensures ProcessingHolds(b', tokens[id := t])
  {
  }

  lemma WorkerIdles(workers: map<nat, C.Worker>, tokens: Tokens, w: nat, v: C.Worker)
    requires WorkersHold(workers, tokens) && w in workers && !workers[w].pc.Popped? && !v.pc.Popped?
    ensures WorkersHold(workers[w := v], tokens)
  {
  }

  lemma WorkerTakes(workers: map<nat, C.Worker>, tokens: Tokens, w: nat, v: C.Worker, t: P.Token)
    requires WorkersHold(workers, tokens) && w in workers && !workers[w].pc.Popped? && OwnId(tokens)
    requires t.msg.id in tokens && tokens[t.msg.id].loc.Queued?
    requires v.pc == C.Popped(t.msg) && t.loc == P.Taken(w)
    ensures WorkersHold(workers[w := v], tokens[t.msg.id := t])
  {
  }

  lemma WorkerGives(workers: map<nat, C.Worker>, tokens: Tokens, w: nat, v: C.Worker, t: P.Token)
    requires WorkersHold(workers, tokens) && w in workers && workers[w].pc.Popped? && OwnId(tokens)
    requires !v.pc.Popped? && t.msg == workers[w].pc.m && !t.loc.Taken?
    ensures WorkersHold(workers[w := v], tokens[t.msg.id := t])
  {
  }

  lemma JobStarts(jobs: map<nat, C.Job>, nextJob: nat, w: nat, tokens: Tokens, t: P.Token)
    requires JobsHold(jobs, nextJob, tokens) && OwnId(tokens)
    requires t.msg.id in tokens && !tokens[t.msg.id].loc.Running? && t.loc == P.Running(nextJob, Guard)
    ensures JobsHold(jobs[nextJob := C.Job(w, Exec(t.msg, Guard))], nextJob + 1, tokens[t.msg.id := t])
  {
  }

  lemma PopSimulated(c: C.Cluster, s: P.State, w: nat)
    requires Refines(c, s) && OwnId(s.tokens) && C.Enabled(c, C.Pop(w))
    ensures var l := LabelOf(c, C.Pop(w)).value;
      P.Enabled(s, l) && Refines(C.Next(c, C.Pop(w)), P.Next(s, l))
  {
    var q := c.broker.Ready(c.workers[w].queues).value;
    var m := c.broker.Queue(q)[0];
    var t := s.tokens[m.id].(loc := P.Taken(w));
    var c' := C.Next(c, C.Pop(w));
    PopHolds(c.broker, s.tokens, q, t);
    DlqFrame(c.broker, s.tokens, m.id, t);
    SameDlqs(c.broker, c'.broker, s.tokens[m.id := t]);
    ProcessingFrame(c.broker, c'.broker, s.tokens, m.id, t);
    JobsFrame(c.jobs, c.nextJob, s.tokens, m.id, t);
    WorkerTakes(c.workers, s.tokens, w, c'.workers[w], t);
  }

  lemma SpawnSimulated(c: C.Cluster, s: P.State, w: nat)
    requires Refines(c, s) && OwnId(s.tokens) && C.Enabled(c, C.Spawn(w))
    ensures var l := LabelOf(c, C.Spawn(w)).value;
      P.Enabled(s, l) && Refines(C.Next(c, C.Spawn(w)), P.Next(s, l))
  {
    var m := c.workers[w].pc.m;
    var t := s.tokens[m.id].(loc := P.Running(c.nextJob, Guard));
    var c' := C.Next(c, C.Spawn(w));
    QueueFrame(c.broker, s.tokens, m.id, t);
    DlqFrame(c.broker, s.tokens, m.id, t);
    SameQueues(c.broker, c'.broker, s.tokens[m.id := t]);
    SameDlqs(c.broker, c'.broker, s.tokens[m.id := t]);
    JobStarts(c.jobs, c.nextJob, w, s.tokens, t);
    WorkerGives(c.workers, s.tokens, w, c'.workers[w], t);
  }

  lemma LeaveSimulated(c: C.Cluster, s: P.State, w: nat)
    requires Refines(c, s) && OwnId(s.tokens) && C.Enabled(c, C.Leave(w)) && c.workers[w].pc.Popped?
    ensures var l := LabelOf(c, C.Leave(w)).value;
      P.Enabled(s, l) && Refines(C.Next(c, C.Leave(w)), P.Next(s, l))
  {
    var m := c.workers[w].pc.m;
    var t := s.tokens[m.id].(loc := P.Lost);
    var c' := C.Next(c, C.Leave(w));
    QueueFrame(c.broker, s.tokens, m.id, t);
    DlqFrame(c.broker, s.tokens, m.id, t);
    ProcessingFrame(c.broker, c'.broker, s.tokens, m.id, t);
    JobsFrame(c.jobs, c.nextJob, s.tokens, m.id, t);
    WorkerGives(c.workers, s.tokens, w, c'.workers[w], t);
  }

  /** A new message arrives on its queue. */
  lemma ArrivalHolds(c: C.Cluster, s: P.State, m: Message)
    requires Refines(c, s) && m.id !in s.tokens
    ensures var tokens := s.tokens[m.id := P.Token(m, P.Queued, 0)]; var b := c.broker.Push(m);
      && QueuesHold(b, tokens) && DlqsHold(b, tokens) && ProcessingHolds(b, tokens)
      && JobsHold(c.jobs, c.nextJob, tokens) && WorkersHold(c.workers, tokens)
  {
    var t := P.Token(m, P.Queued, 0);
    PushHolds(c.broker, s.tokens, m, t);
    DlqFrame(c.broker, s.tokens, m.id, t);
    SameDlqs(c.broker, c.broker.Push(m), s.tokens[m.id := t]);
    ProcessingFrame(c.broker, c.broker.Push(m), s.tokens, m.id, t);
    JobsFrame(c.jobs, c.nextJob, s.tokens, m.id, t);
    WorkersFrame(c.workers, s.tokens, m.id, t);
  }

  ghost predicate NewIds(s: P.State) {
    forall k :: s.nextId <= k ==> k !in s.tokens && k !in s.flows
  }

  lemma LineMessageIs(corr: Option<Id>, sigs: seq<Signature>, ids: seq<Id>, id: Id)
    requires sigs != []
    ensures C.LineMessage(corr, sigs, id) == P.StepMessage(P.LineFlow(corr, sigs, ids, []), 0, id)
  {
  }

  /** A cluster that took in one message and changed nothing else but ids and submissions. */
  lemma ArrivalRefines(c: C.Cluster, s: P.State, c': C.Cluster, s': P.State, m: Message)
    requires Refines(c, s) && m.id !in s.tokens
    requires c' == c.(broker := c.broker.Push(m), subs := c'.subs, nextId := c'.nextId)
    requires s'.tokens == s.tokens[m.id := P.Token(m, P.Queued, 0)]
    requires s'.backend == s.backend && s'.hasBackend == s.hasBackend && s'.clock == s.clock
    requires c'.nextId == s'.nextId && SubsHold(c'.subs, s'.flows)
    ensures Refines(c', s')
  {
    ArrivalHolds(c, s, m);
  }

  lemma FirstSimulated(c: C.Cluster, s: P.State, corr: Option<Id>, sigs: seq<Signature>)
    requires Refines(c, s) && NewIds(s) && sigs != []
    ensures Refines(C.SendFirst(c, corr, sigs), P.SendFirst(s, corr, sigs))
  {
    LineMessageIs(corr, sigs, [s.nextId + 1], s.nextId + 1);
    var s' := P.SendFirst(s, corr, sigs);
    LineKeepsSubs(c.subs, s.flows, s.nextId, s'.flows[s.nextId]);
    ArrivalRefines(c, s, C.SendFirst(c, corr, sigs), s', C.LineMessage(corr, sigs, c.nextId + 1));
  }

  lemma LineKeepsSubs(subs: map<Id, C.Sub>, flows: map<Id, P.Flow>, f: Id, fl: P.Flow)
    requires SubsHold(subs, flows) && f !in flows && fl.LineFlow?
    ensures SubsHold(subs, flows[f := fl])
  {
  }

  lemma TeamMessageIs(sub: C.Sub, fl: P.Flow, f: Id, id: Id)
    requires fl.TeamFlow? && |fl.ids| < |fl.sigs| && fl.corr == Some(f)
    requires sub == C.Sub(f, |fl.sigs| % U32, fl.cb, fl.sigs[|fl.ids|..])
    ensures C.TeamMessage(sub, f, id) == P.MemberMessage(fl, f, |fl.ids|, id)
  {
    assert sub.left[0] == fl.sigs[|fl.ids|];
  }

  lemma MemberKeepsSubs(subs: map<Id, C.Sub>, flows: map<Id, P.Flow>, f: Id, id: Id)
    requires SubsHold(subs, flows) && f in subs
    ensures var fl := flows[f]; var sub := subs[f];
      SubsHold(if |sub.left| == 1 then subs - {f} else subs[f := sub.(left := sub.left[1..])],
               flows[f := P.TeamFlow(fl.corr, fl.sigs, fl.ids + [id], fl.cb, fl.done)])
  {
    var fl := flows[f];
    assert fl.sigs[|fl.ids|..][1..] == fl.sigs[|fl.ids| + 1..];
  }

  lemma SendSimulated(c: C.Cluster, s: P.State, f: Id)
    requires Refines(c, s) && NewIds(s) && C.Enabled(c, C.SendMember(f))
    ensures P.Enabled(s, P.SendMember(f)) && Refines(C.Send(c, f), P.Send(s, f))
  {
    var fl := s.flows[f];
    TeamMessageIs(c.subs[f], fl, f, s.nextId);
    MemberKeepsSubs(c.subs, s.flows, f, s.nextId);
    ArrivalRefines(c, s, C.Send(c, f), P.Send(s, f), C.TeamMessage(c.subs[f], f, c.nextId));
  }

  lemma SubmitSimulated(c: C.Cluster, s: P.State, p: Plan)
    requires Refines(c, s) && NewIds(s) && Sendable(p)
    ensures Refines(C.SubmitPlan(c, p), P.SubmitPlan(s, p))
  {
    match p {
      case Nothing =>
      case Line(sigs) => if sigs != [] { FirstSimulated(c, s, Some(s.nextId), sigs); }
      case Team(sigs, cb) => TeamSimulated(c, s, sigs, cb);
      case Barren(sigs) =>
    }
  }

  lemma TeamKeepsSubs(subs: map<Id, C.Sub>, flows: map<Id, P.Flow>, f: Id, fl: P.Flow)
    requires SubsHold(subs, flows) && f !in flows && fl.TeamFlow? && fl.ids == [] && fl.corr == Some(f)
    ensures SubsHold(
      if fl.sigs == [] then subs else subs[f := C.Sub(f, |fl.sigs| % U32, fl.cb, fl.sigs)], flows[f := fl])
  {
    assert fl.sigs[0..] == fl.sigs;
  }

  lemma TeamSimulated(c: C.Cluster, s: P.State, sigs: seq<Signature>, cb: Option<Signature>)
    requires Refines(c, s) && NewIds(s)
    ensures Refines(C.SubmitPlan(c, Team(sigs, cb)), P.SubmitPlan(s, Team(sigs, cb)))
  {
    var s' := P.SubmitPlan(s, Team(sigs, cb));
    TeamKeepsSubs(c.subs, s.flows, s.nextId, s'.flows[s.nextId]);
    assert s'.flows == s.flows[s.nextId := s'.flows[s.nextId]];
    SameElsewhere(c, s, C.SubmitPlan(c, Team(sigs, cb)), s');
  }

  /** Only submissions, ids and the backend changed. */
  lemma SameElsewhere(c: C.Cluster, s: P.State, c': C.Cluster, s': P.State)
    requires Refines(c, s) && SubsHold(c'.subs, s'.flows) && c'.backend == s'.backend && c'.nextId == s'.nextId
    requires c' == c.(backend := c'.backend, subs := c'.subs, nextId := c'.nextId)
    requires s'.tokens == s.tokens && s'.hasBackend == s.hasBackend && s'.clock == s.clock
    ensures Refines(c', s')
  {
  }

  /** One event of the cluster. */
  ghost predicate Simulates(c: C.Cluster, s: P.State, e: C.Event)
    requires C.Enabled(c, e)
  {
    match LabelOf(c, e)
    case None => Refines(C.Next(c, e), s)
    case Some(l) => P.Enabled(s, l) && Refines(C.Next(c, e), P.Next(s, l))
  }

  lemma IdleSimulated(c: C.Cluster, s: P.State, e: C.Event)
    requires Refines(c, s) && C.Enabled(c, e)
    requires e.Look? || e.Acquire? || e.Miss? || e.Cancel? || e.DrainClean? || e.DrainTimeout?
      || (e.Leave? && !c.workers[e.w].pc.Popped?)
    ensures Simulates(c, s, e)
  {
    if e.Cancel? {
      CancelKeeps(c, s, e.w);
    } else {
      WorkerIdles(c.workers, s.tokens, e.w, C.Next(c, e).workers[e.w]);
    }
  }

  lemma TickSimulated(c: C.Cluster, s: P.State, now: int)
    requires Refines(c, s) && C.Enabled(c, C.Tick(now))
    ensures Simulates(c, s, C.Tick(now))
  {
  }

  lemma CancelKeeps(c: C.Cluster, s: P.State, w: nat)
    requires Refines(c, s) && w in c.workers
    ensures Refines(C.SetWorker(c, w, c.workers[w].(cancelled := true)), s)
  {
    var workers' := c.workers[w := c.workers[w].(cancelled := true)];
    assert forall v <- c.workers :: workers'[v].pc == c.workers[v].pc;
  }

  lemma Simulated(c: C.Cluster, s: P.State, e: C.Event)
    requires Refines(c, s) && Inv(s) && C.Enabled(c, e)
    ensures Simulates(c, s, e)
  {
    if e.Step? {
      StepSimulated(c, s, e.job, e.oracle);
    } else {
      OwnIds(s);
      FreshIds(s);
      OtherSimulated(c, s, e);
    }
  }

  lemma FreshIds(s: P.State)
    requires Inv(s)
    ensures NewIds(s)
  {
  }

  lemma SubmissionSimulated(c: C.Cluster, s: P.State, e: C.Event)
    requires Refines(c, s) && NewIds(s) && C.Enabled(c, e) && (e.Submit? || e.Enqueue? || e.SendMember?)
    ensures Simulates(c, s, e)
  {
    match e {
      case Submit(canvas) => SubmitSimulated(c, s, PlanOf(canvas));
      case Enqueue(sig) => FirstSimulated(c, s, None, [sig]);
      case SendMember(f) => SendSimulated(c, s, f);
    }
  }

  lemma OtherSimulated(c: C.Cluster, s: P.State, e: C.Event)
    requires Refines(c, s) && OwnId(s.tokens) && NewIds(s) && C.Enabled(c, e) && !e.Step?
    ensures Simulates(c, s, e)
  {
    if e.Submit? || e.Enqueue? || e.SendMember? {
      SubmissionSimulated(c, s, e);
    } else if e.Tick? {
      TickSimulated(c, s, e.now);
    } else {
      LoopSimulated(c, s, e);
    }
  }

  lemma LoopSimulated(c: C.Cluster, s: P.State, e: C.Event)
    requires Refines(c, s) && OwnId(s.tokens) && C.Enabled(c, e)
    requires !(e.Step? || e.Submit? || e.Enqueue? || e.SendMember? || e.Tick?)
    ensures Simulates(c, s, e)
  {
    match e {
      case Pop(w) => PopSimulated(c, s, w);
      case Spawn(w) => SpawnSimulated(c, s, w);
      case Leave(w) => if c.workers[w].pc.Popped? { LeaveSimulated(c, s, w); } else { IdleSimulated(c, s, e); }
      case _ => IdleSimulated(c, s, e);
    }
  }
}
