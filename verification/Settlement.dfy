/** How runs of a cluster end: work is bounded, something can always go on while a worker serves
    the queues, and once all is quiet each workflow has completed or was cut short by a
    message that was dead-lettered or lost. */
module Settlement {
  import opened Messages
  import opened Workflows
  import opened Results
  import opened Execution
  import opened Invariants
  import opened Refinement
  import opened Guarantees
  import opened Outcomes
  import C = Cluster
  import P = Protocol
  import Preservation
  import Chords
  import Chains
  import Budget
  import Permits

  // ---------------------------------------------------------------- bounded work

  /** The event moves a message on. */
  predicate Works(c: C.Cluster, e: C.Event)
    requires C.Enabled(c, e)
  {
    e.SendMember? || e.Pop? || e.Spawn? || e.Step? || (e.Leave? && c.workers[e.w].pc.Popped?)
  }

  function WorkDone(c: C.Cluster, events: seq<C.Event>): nat
    decreases |events|
  {
    if events == [] || !C.Enabled(c, events[0]) then 0
    else (if Works(c, events[0]) then 1 else 0) + WorkDone(C.Next(c, events[0]), events[1..])
  }

  /** How often a message was sent back to its queue because its eta lay ahead. */
  function SentBack(c: C.Cluster, events: seq<C.Event>): nat
    decreases |events|
  {
    if events == [] || !C.Enabled(c, events[0]) then 0
    else (if events[0].Step? && c.jobs[events[0].job].x.pc.EtaPush? then 1 else 0)
         + SentBack(C.Next(c, events[0]), events[1..])
  }

  ghost predicate SameWork(c: C.Cluster, events: seq<C.Event>, s: P.State, labels: seq<P.Label>) {
    WorkDone(c, events) == Budget.WorkDone(labels) && SentBack(c, events) == Budget.SentBack(s, labels)
  }

  lemma SilentWork(c: C.Cluster, events: seq<C.Event>, s: P.State, labels: seq<P.Label>)
    requires events != [] && C.Enabled(c, events[0]) && LabelOf(c, events[0]) == None
    requires SameWork(C.Next(c, events[0]), events[1..], s, labels)
    ensures SameWork(c, events, s, labels)
  {
  }

  lemma LoudWork(c: C.Cluster, events: seq<C.Event>, s: P.State, l: P.Label, rest: seq<P.Label>)
    requires events != [] && C.Enabled(c, events[0]) && LabelOf(c, events[0]) == Some(l) && P.Enabled(s, l)
    requires SameWork(C.Next(c, events[0]), events[1..], P.Next(s, l), rest)
    requires events[0].Step? ==> s.tokens[l.id].loc.pc == c.jobs[events[0].job].x.pc
    ensures SameWork(c, events, s, [l] + rest)
  {
    assert ([l] + rest)[0] == l && ([l] + rest)[1..] == rest;
  }

  lemma {:induction false} WorkAgrees(c: C.Cluster, s: P.State, events: seq<C.Event>, d: C.Cluster)
    requires Refines(c, s) && Inv(s) && C.Leads(c, events, d)
    ensures SameWork(c, events, s, LabelsOf(c, events))
    decreases |events|
  {
    if events != [] {
      var e := events[0];
      Simulated(c, s, e);
      var rest := LabelsOf(C.Next(c, e), events[1..]);
      match LabelOf(c, e) {
        case None =>
          WorkAgrees(C.Next(c, e), s, events[1..], d);
          SilentWork(c, events, s, rest);
          assert LabelsOf(c, events) == rest;
        case Some(l) =>
          Preservation.NextKeepsInv(s, l);
          WorkAgrees(C.Next(c, e), P.Next(s, l), events[1..], d);
          if e.Step? { JobIsToken(c, s, e); }
          LoudWork(c, events, s, l, rest);
          assert LabelsOf(c, events) == [l] + rest;
      }
    }
  }

  /** On every run, the working events are bounded by what was submitted and by how often a
      message was sent back for its eta. */
  lemma WorkBounded(c: C.Cluster, events: seq<C.Event>, d: C.Cluster)
    requires C.Init(c) && C.Leads(c, events, d)
    ensures WorkDone(c, events) <= 17 * Allowed(events) + 5 * SentBack(c, events)
  {
    StartRefines(c);
    var t := Reached(c, events, d);
    WorkAgrees(c, Start(c), events, d);
    CountsAgree(c, Start(c), events, d, 0);
    Budget.RunsAreBounded(Start(c), LabelsOf(c, events), t);
  }

  // ---------------------------------------------------------------- progress

  /** Nothing is queued, taken, running or still to be sent. */
  ghost predicate Idle(d: C.Cluster) {
    && d.jobs == map[] && d.subs == map[]
    && (forall w <- d.workers :: !d.workers[w].pc.Popped?)
    && (forall q :: d.broker.Queue(q) == [])
  }

  /** The worker takes from queue `q` and has not been told to stop. */
  predicate Serves(v: C.Worker, q: string) {
    q in v.queues && !v.cancelled && v.concurrency >= 1
  }

  ghost predicate AllServed(d: C.Cluster) {
    forall q :: d.broker.Queue(q) != [] ==> exists w :: w in d.workers && Serves(d.workers[w], q)
  }

  /** A loop drains only after its worker was cancelled. */
  predicate DrainsCancelled(c: C.Cluster) {
    forall w <- c.workers :: c.workers[w].pc.Draining? || c.workers[w].pc.Stopped? ==> c.workers[w].cancelled
  }

  lemma {:induction false} DrainsAreCancelled(c: C.Cluster, events: seq<C.Event>, d: C.Cluster)
    requires DrainsCancelled(c) && C.Leads(c, events, d)
    ensures DrainsCancelled(d)
    decreases |events|
  {
    if events != [] {
      DrainStep(c, events[0]);
      DrainsAreCancelled(C.Next(c, events[0]), events[1..], d);
    }
  }

  lemma DrainStep(c: C.Cluster, e: C.Event)
    requires DrainsCancelled(c) && C.Enabled(c, e)
    ensures DrainsCancelled(C.Next(c, e))
  {
  }

  /** Worker `w` will look at queue `q`, in which there is something, unless it is cancelled first. */
  predicate CanTake(d: C.Cluster, w: nat, q: string) {
    && w in d.workers && q in d.workers[w].queues && d.broker.Queue(q) != []
    && (d.workers[w].pc.Holding?
        || (d.workers[w].concurrency >= 1
            && (d.workers[w].pc.Waiting? || (d.workers[w].pc.Top? && !d.workers[w].cancelled))))
  }

  lemma ServedCanTake(d: C.Cluster, w: nat, q: string)
    requires w in d.workers && Serves(d.workers[w], q) && d.broker.Queue(q) != []
    requires DrainsCancelled(d) && !d.workers[w].pc.Popped?
    ensures CanTake(d, w, q)
  {
  }

  lemma ReadyWhenListed(d: C.Cluster, names: seq<string>, q: string)
    requires q in names && d.broker.Queue(q) != []
    ensures d.broker.Ready(names).Some?
  {
    d.broker.ReadyIsFirst(names);
  }

  /** The events `more` end in one that works, after a worker at most went round its loop and
      acquired a permit. */
  ghost predicate GoesOn(d: C.Cluster, more: seq<C.Event>)
    decreases |more|
  {
    && 1 <= |more| <= 3 && C.Enabled(d, more[0])
    && if |more| == 1 then Works(d, more[0])
       else (more[0].Look? || more[0].Acquire?) && GoesOn(C.Next(d, more[0]), more[1..])
  }

  lemma GoesOnCons(d: C.Cluster, e: C.Event, more: seq<C.Event>)
    requires C.Enabled(d, e) && (e.Look? || e.Acquire?) && GoesOn(C.Next(d, e), more) && |more| <= 2
    ensures GoesOn(d, [e] + more)
  {
    assert ([e] + more)[1..] == more;
  }

  /** A worker with nothing running pops at once, or after going round and getting a permit. */
  lemma TakerGoesOn(d: C.Cluster, w: nat, q: string) returns (more: seq<C.Event>)
    requires CanTake(d, w, q) && Permits.Conserved(d, w) && Permits.JobsOf(d, w) == {}
    ensures GoesOn(d, more) && forall e <- more :: e.Look? || e.Acquire? || e.Pop?
  {
    ReadyWhenListed(d, d.workers[w].queues, q);
    if d.workers[w].pc.Holding? {
      more := [C.Pop(w)];
    } else if d.workers[w].pc.Waiting? {
      more := PermitGoesOn(d, w);
    } else {
      var rest := PermitGoesOn(C.Next(d, C.Look(w)), w);
      GoesOnCons(d, C.Look(w), rest);
      more := [C.Look(w)] + rest;
    }
  }

  lemma PermitGoesOn(d: C.Cluster, w: nat) returns (more: seq<C.Event>)
    requires w in d.workers && d.workers[w].pc.Waiting? && d.workers[w].available > 0
    requires d.broker.Ready(d.workers[w].queues).Some?
    ensures GoesOn(d, more) && more == [C.Acquire(w), C.Pop(w)]
  {
    GoesOnCons(d, C.Acquire(w), [C.Pop(w)]);
    more := [C.Acquire(w)] + [C.Pop(w)];
  }

  lemma QueueGoesOn(c: C.Cluster, events: seq<C.Event>, d: C.Cluster, w: nat, q: string) returns (more: seq<C.Event>)
    requires C.Init(c) && C.Leads(c, events, d) && CanTake(d, w, q) && d.jobs == map[]
    ensures GoesOn(d, more) && forall e <- more :: e.Look? || e.Acquire? || e.Pop?
  {
    Permits.InitConserves(c);
    Permits.LeadsKeepsPermits(c, events, d);
    assert Permits.Conserved(d, w);
    more := TakerGoesOn(d, w, q);
  }

  lemma SubsGoOn(c: C.Cluster, events: seq<C.Event>, d: C.Cluster, f: Id)
    requires C.Init(c) && C.Leads(c, events, d) && f in d.subs
    ensures C.Enabled(d, C.SendMember(f))
  {
    var t := Reached(c, events, d);
    assert SubsHold(d.subs, t.flows);
  }

  /** Something is running, being sent or taken, or can be taken. */
  ghost predicate CanGoOn(d: C.Cluster) {
    d.jobs != map[] || d.subs != map[] || (exists w <- d.workers :: d.workers[w].pc.Popped?)
    || exists w, q :: CanTake(d, w, q)
  }

  /** Hooks and handlers answer as `answers` says for the message they are given. */
  ghost predicate Answered(c: C.Cluster, events: seq<C.Event>, answers: Message -> Oracle)
    decreases |events|
  {
    events != [] ==>
      && C.Enabled(c, events[0])
      && (events[0].Step? ==>
            events[0].oracle == answers(c.jobs[events[0].job].x.msg).(now := c.clock))
      && Answered(C.Next(c, events[0]), events[1..], answers)
  }

  lemma {:induction false} TakingIsAnswered(d: C.Cluster, more: seq<C.Event>, answers: Message -> Oracle)
    requires GoesOn(d, more) && forall e <- more :: e.Look? || e.Acquire? || e.Pop?
    ensures Answered(d, more, answers) && NoneSubmitted(more) && NoneCancelled(more)
    decreases |more|
  {
    assert more[0] in more;
    forall i | 0 <= i < |more| ensures more[i].Look? || more[i].Acquire? || more[i].Pop? { assert more[i] in more; }
    if |more| == 1 {
      assert more[1..] == [];
    } else {
      TakingIsAnswered(C.Next(d, more[0]), more[1..], answers);
    }
  }

  lemma OneAnswered(d: C.Cluster, e: C.Event, answers: Message -> Oracle)
    requires C.Enabled(d, e) && Works(d, e)
    requires e.Step? ==> e.oracle == answers(d.jobs[e.job].x.msg).(now := d.clock)
    ensures GoesOn(d, [e]) && Answered(d, [e], answers)
  {
    assert [e][1..] == [];
  }

  /** Whatever the hooks and handlers answer. */
  lemma GoingOn(c: C.Cluster, events: seq<C.Event>, d: C.Cluster, answers: Message -> Oracle)
    returns (more: seq<C.Event>)
    requires C.Init(c) && C.Leads(c, events, d) && CanGoOn(d)
    ensures GoesOn(d, more) && Answered(d, more, answers) && NoneSubmitted(more) && NoneCancelled(more)
  {
    if d.jobs == map[] && d.subs == map[] && !exists w <- d.workers :: d.workers[w].pc.Popped? {
      var w, q :| CanTake(d, w, q);
      more := QueueGoesOn(c, events, d, w, q);
      TakingIsAnswered(d, more, answers);
    } else {
      var e := NextWork(c, events, d, answers);
      OneAnswered(d, e, answers);
      more := [e];
    }
  }

  lemma NextWork(c: C.Cluster, events: seq<C.Event>, d: C.Cluster, answers: Message -> Oracle) returns (e: C.Event)
    requires C.Init(c) && C.Leads(c, events, d)
    requires d.jobs != map[] || d.subs != map[] || exists w <- d.workers :: d.workers[w].pc.Popped?
    ensures C.Enabled(d, e) && Works(d, e) && !e.Leave?
    ensures e.Step? ==> e.oracle == answers(d.jobs[e.job].x.msg).(now := d.clock)
  {
    if j :| j in d.jobs {
      e := C.Step(j, answers(d.jobs[j].x.msg).(now := d.clock));
    } else if f :| f in d.subs {
      SubsGoOn(c, events, d, f);
      e := C.SendMember(f);
    } else {
      var w :| w in d.workers && d.workers[w].pc.Popped?;
      e := C.Spawn(w);
    }
  }

  lemma ServedGoesOn(c: C.Cluster, events: seq<C.Event>, d: C.Cluster)
    requires C.Init(c) && C.Leads(c, events, d) && !Idle(d) && AllServed(d)
    ensures CanGoOn(d)
  {
    if !(d.jobs != map[] || d.subs != map[] || exists w <- d.workers :: d.workers[w].pc.Popped?) {
      var q :| d.broker.Queue(q) != [];
      var w :| w in d.workers && Serves(d.workers[w], q);
      DrainsAreCancelled(c, events, d);
      ServedCanTake(d, w, q);
    }
  }

  /** Nothing is ever stuck: from every reachable cluster with something left to do, whose
      non-empty queues are each listed by a worker with some concurrency that was not cancelled,
      an event that moves a message on is possible at once or after a worker went round its loop
      and got a permit. */
  lemma NeverStuck(c: C.Cluster, events: seq<C.Event>, d: C.Cluster) returns (more: seq<C.Event>)
    requires C.Init(c) && C.Leads(c, events, d) && !Idle(d) && AllServed(d)
    ensures GoesOn(d, more)
  {
    ServedGoesOn(c, events, d);
    more := GoingOn(c, events, d, m => Oracle(0, true, None));
  }

  /** Nothing new comes in. */
  predicate NoneSubmitted(events: seq<C.Event>) {
    forall i :: 0 <= i < |events| ==> !events[i].Submit? && !events[i].Enqueue?
  }

  predicate NoneCancelled(events: seq<C.Event>) {
    forall i :: 0 <= i < |events| ==> !events[i].Cancel?
  }

  /** Some run without new submissions moves a message on. */
  ghost predicate Moves(d: C.Cluster) {
    exists more, e :: C.Leads(d, more, e) && NoneSubmitted(more) && WorkDone(d, more) > 0
  }

  lemma PopCanTake(d: C.Cluster, w: nat)
    requires C.Enabled(d, C.Pop(w))
    ensures CanGoOn(d)
  {
    assert CanTake(d, w, d.broker.Ready(d.workers[w].queues).value);
  }

  lemma StarvedStep(d: C.Cluster, e: C.Event)
    requires Permits.PermitsOk(d) && !CanGoOn(d) && C.Enabled(d, e) && !e.Submit? && !e.Enqueue?
    ensures !Works(d, e) && !CanGoOn(C.Next(d, e))
  {
    if e.Pop? { PopCanTake(d, e.w); }
    forall w, q | CanTake(C.Next(d, e), w, q) ensures CanTake(d, w, q) { StarvedLook(d, e, w, q); }
  }

  lemma StarvedLook(d: C.Cluster, e: C.Event, w: nat, q: string)
    requires Permits.PermitsOk(d) && !CanGoOn(d) && C.Enabled(d, e) && !e.Submit? && !e.Enqueue? && !Works(d, e)
    requires CanTake(C.Next(d, e), w, q)
    ensures CanTake(d, w, q)
  {
    assert w in d.workers && Permits.Conserved(d, w);
  }

  lemma {:induction false} Starved(d: C.Cluster, more: seq<C.Event>, e: C.Cluster)
    requires Permits.PermitsOk(d) && !CanGoOn(d) && C.Leads(d, more, e) && NoneSubmitted(more)
    ensures WorkDone(d, more) == 0
    decreases |more|
  {
    if more != [] {
      StarvedStep(d, more[0]);
      Permits.NextKeepsPermits(d, more[0]);
      Starved(C.Next(d, more[0]), more[1..], e);
    }
  }

  lemma {:induction false} GoesOnMoves(d: C.Cluster, more: seq<C.Event>) returns (e: C.Cluster)
    requires GoesOn(d, more)
    ensures C.Leads(d, more, e) && WorkDone(d, more) > 0
    decreases |more|
  {
    if |more| == 1 {
      assert more[1..] == [];
      e := C.Next(d, more[0]);
    } else {
      e := GoesOnMoves(C.Next(d, more[0]), more[1..]);
    }
  }

  /** Exactly when a reachable cluster is stuck: without new submissions a message can still be
      moved on if and only if something is running, being sent or taken, or a worker about to
      look at its queues lists one that is not empty. */
  lemma MovesIff(c: C.Cluster, events: seq<C.Event>, d: C.Cluster)
    requires C.Init(c) && C.Leads(c, events, d)
    ensures Moves(d) <==> CanGoOn(d)
  {
    if CanGoOn(d) {
      var more := GoingOn(c, events, d, m => Oracle(0, true, None));
      var e := GoesOnMoves(d, more);
    }
    if Moves(d) {
      var more, e :| C.Leads(d, more, e) && NoneSubmitted(more) && WorkDone(d, more) > 0;
      if !CanGoOn(d) {
        Permits.InitConserves(c);
        Permits.LeadsKeepsPermits(c, events, d);
        Starved(d, more, e);
      }
    }
  }

  // ---------------------------------------------------------------- messages lost

  /** The messages that cancelled dequeues dropped. */
  function Dropped(c: C.Cluster, events: seq<C.Event>): seq<Message>
    decreases |events|
  {
    if events == [] || !C.Enabled(c, events[0]) then []
    else (if events[0].Leave? && c.workers[events[0].w].pc.Popped? then [c.workers[events[0].w].pc.m] else [])
         + Dropped(C.Next(c, events[0]), events[1..])
  }

  function Drops(s: P.State, labels: seq<P.Label>): seq<Message>
    decreases |labels|
  {
    if labels == [] || !P.Enabled(s, labels[0]) then []
    else (if labels[0].Drop? then [s.tokens[labels[0].id].msg] else []) + Drops(P.Next(s, labels[0]), labels[1..])
  }

  lemma DroppedCons(c: C.Cluster, events: seq<C.Event>, s: P.State, l: P.Label, rest: seq<P.Label>)
    requires Refines(c, s) && events != [] && C.Enabled(c, events[0]) && LabelOf(c, events[0]) == Some(l)
    requires P.Enabled(s, l)
    requires Dropped(C.Next(c, events[0]), events[1..]) == Drops(P.Next(s, l), rest)
    ensures Dropped(c, events) == Drops(s, [l] + rest)
  {
    assert ([l] + rest)[0] == l && ([l] + rest)[1..] == rest;
    assert WorkersHold(c.workers, s.tokens);
  }

  lemma {:induction false} DroppedAgrees(c: C.Cluster, s: P.State, events: seq<C.Event>, d: C.Cluster)
    requires Refines(c, s) && Inv(s) && C.Leads(c, events, d)
    ensures Dropped(c, events) == Drops(s, LabelsOf(c, events))
    decreases |events|
  {
    if events != [] {
      var e := events[0];
      Simulated(c, s, e);
      var rest := LabelsOf(C.Next(c, e), events[1..]);
      match LabelOf(c, e) {
        case None =>
          DroppedAgrees(C.Next(c, e), s, events[1..], d);
          assert LabelsOf(c, events) == rest;
        case Some(l) =>
          Preservation.NextKeepsInv(s, l);
          DroppedAgrees(C.Next(c, e), P.Next(s, l), events[1..], d);
          DroppedCons(c, events, s, l, rest);
          assert LabelsOf(c, events) == [l] + rest;
      }
    }
  }

  predicate IsLost(s: P.State, id: Id) {
    id in s.tokens && s.tokens[id].loc.Lost?
  }

  lemma LostByDrop(s: P.State, l: P.Label, id: Id)
    requires Inv(s) && P.Enabled(s, l)
    ensures IsLost(P.Next(s, l), id) && !IsLost(s, id) ==> l == P.Drop(id)
  {
    if l.Run? {
      RunLosesNone(s, l.id, l.oracle, P.Advance(s, l.id, l.oracle), id);
    } else if l.Submit? {
      SubmitLosesNone(s, PlanOf(l.canvas), id);
    }
  }

  lemma RunLosesNone(s: P.State, i: Id, o: Oracle, out: Outcome, id: Id)
    requires Preservation.CanRun(s, i, o)
    ensures IsLost(P.RunWith(s, i, o, out), id) ==> IsLost(s, id)
  {
  }

  lemma SubmitLosesNone(s: P.State, p: Plan, id: Id)
    ensures IsLost(P.SubmitPlan(s, p), id) ==> IsLost(s, id)
  {
  }

  /** On every run, the messages newly lost are those that cancelled dequeues dropped. */
  lemma {:induction false} LostIffDropped(s: P.State, labels: seq<P.Label>, t: P.State)
    requires Inv(s) && P.Leads(s, labels, t)
    ensures forall m <- Drops(s, labels) :: IsLost(t, m.id) && t.tokens[m.id].msg == m
    ensures forall id :: IsLost(t, id) && !IsLost(s, id) ==> t.tokens[id].msg in Drops(s, labels)
    decreases |labels|
  {
    if labels != [] {
      var l := labels[0];
      var s' := P.Next(s, l);
      Preservation.NextKeepsInv(s, l);
      LostIffDropped(s', labels[1..], t);
      if l.Drop? {
        OwnIds(s);
        Chords.GoneStays(s', labels[1..], t, l.id);
      }
      forall id | IsLost(t, id) && !IsLost(s, id) ensures t.tokens[id].msg in Drops(s, labels) {
        LostByDrop(s, l, id);
      }
    }
  }

  // ---------------------------------------------------------------- workflows cut short

  function Tag(m: Message, group: bool): Option<Id> {
    if group then m.groupId else m.correlationId
  }

  /** A message of chain `f` (of group `f`) is in a dead-letter queue, or is among those lost. */
  ghost predicate Cut(d: C.Cluster, lost: seq<Message>, f: Id, group: bool) {
    || (exists q, i :: q in d.broker.dead && 0 <= i < |d.broker.dead[q]| && Tag(d.broker.dead[q][i], group) == Some(f))
    || (exists m <- lost :: Tag(m, group) == Some(f))
  }

  ghost predicate TokenCut(t: P.State, f: Id, group: bool) {
    exists id :: id in t.tokens && Chords.Gone(t.tokens[id].loc) && Tag(t.tokens[id].msg, group) == Some(f)
  }

  lemma CutIff(d: C.Cluster, s: P.State, labels: seq<P.Label>, t: P.State, f: Id, group: bool)
    requires Refines(d, t) && Inv(s) && P.Leads(s, labels, t)
    requires forall id :: IsLost(s, id) ==> Tag(s.tokens[id].msg, group) != Some(f)
    ensures Cut(d, Drops(s, labels), f, group) <==> TokenCut(t, f, group)
  {
    LostIffDropped(s, labels, t);
    if TokenCut(t, f, group) {
      var id :| id in t.tokens && Chords.Gone(t.tokens[id].loc) && Tag(t.tokens[id].msg, group) == Some(f);
      if t.tokens[id].loc.Dead? {
        DeadIsListed(d, t, id);
      } else {
        if IsLost(s, id) { Chords.GoneStays(s, labels, t, id); }
        assert t.tokens[id].msg in Drops(s, labels);
      }
    }
    if exists q, i :: q in d.broker.dead && 0 <= i < |d.broker.dead[q]| && Tag(d.broker.dead[q][i], group) == Some(f) {
      var q, i :| q in d.broker.dead && 0 <= i < |d.broker.dead[q]| && Tag(d.broker.dead[q][i], group) == Some(f);
      var id := d.broker.dead[q][i].id;
      assert id in t.tokens && t.tokens[id].loc.Dead? && t.tokens[id].msg == d.broker.dead[q][i];
    }
  }

  lemma DeadIsListed(d: C.Cluster, t: P.State, id: Id)
    requires Refines(d, t) && id in t.tokens && t.tokens[id].loc.Dead?
    ensures exists q, i :: q in d.broker.dead && 0 <= i < |d.broker.dead[q]| && d.broker.dead[q][i] == t.tokens[id].msg
  {
    var m := t.tokens[id].msg;
    assert m in d.broker.Dlq(m.queue);
    var i :| 0 <= i < |d.broker.Dlq(m.queue)| && d.broker.Dlq(m.queue)[i] == m;
    assert d.broker.dead[m.queue][i] == m;
  }

  // ---------------------------------------------------------------- when all is quiet

  /** Every message has finished, is dead-lettered or was lost; every group has been sent. */
  predicate Quiet(t: P.State) {
    && (forall id <- t.tokens :: t.tokens[id].loc.Finished? || Chords.Gone(t.tokens[id].loc))
    && (forall f <- t.flows :: t.flows[f].TeamFlow? ==> |t.flows[f].ids| >= |t.flows[f].sigs|)
  }

  lemma IdleIsQuiet(d: C.Cluster, t: P.State)
    requires Refines(d, t) && Idle(d)
    ensures Quiet(t)
  {
    forall id <- t.tokens ensures t.tokens[id].loc.Finished? || Chords.Gone(t.tokens[id].loc) {
      assert d.broker.Queue(t.tokens[id].msg.queue) == [];
    }
  }

  function LastOf(t: P.State, f: Id): Id
    requires f in t.flows && t.flows[f].ids != []
  {
    t.flows[f].ids[|t.flows[f].ids| - 1]
  }

  /** Of a chain's messages only the last can be gone. */
  lemma OnlyLastGone(t: P.State, f: Id, id: Id)
    requires Inv(t) && f in t.flows && t.flows[f].LineFlow? && t.flows[f].ids != []
    requires id in t.tokens && Chords.Gone(t.tokens[id].loc) && t.tokens[id].msg.correlationId == Some(f)
    ensures id == LastOf(t, f)
  {
    LineOfCorrelation(t, id, f);
    Chains.LineFacts(t, f);
    assert TokenOk(t, id);
    assert StepOk(t, f, t.owner[id].index);
  }

  lemma LastIsCut(t: P.State, f: Id)
    requires Inv(t) && f in t.flows && t.flows[f].LineFlow? && t.flows[f].corr == Some(f) && t.flows[f].ids != []
    requires LastOf(t, f) in t.tokens && LastOf(t, f) in t.owner && t.owner[LastOf(t, f)].Step?
    requires t.owner[LastOf(t, f)].flow == f
    ensures TokenCut(t, f, false) <==> Chords.Gone(t.tokens[LastOf(t, f)].loc)
  {
    CorrelationOfLine(t, LastOf(t, f), f);
    if TokenCut(t, f, false) {
      var id :| id in t.tokens && Chords.Gone(t.tokens[id].loc) && Tag(t.tokens[id].msg, false) == Some(f);
      OnlyLastGone(t, f, id);
    }
  }

  /** A quiet chain has run all its leaves exactly when it was not cut short. */
  lemma QuietChain(t: P.State, f: Id)
    requires Inv(t) && t.hasBackend && Quiet(t) && f in t.flows && t.flows[f].LineFlow? && t.flows[f].corr == Some(f)
    ensures |t.flows[f].outputs| == |t.flows[f].sigs| <==> !TokenCut(t, f, false)
  {
    Chains.LineFacts(t, f);
    assert StepOk(t, f, |t.flows[f].ids| - 1);
    LastIsCut(t, f);
  }

  lemma MemberCut(t: P.State, f: Id, id: Id)
    requires Inv(t) && id in t.tokens && t.tokens[id].msg.groupId == Some(f)
    requires f in t.flows && t.flows[f].TeamFlow?
    ensures id in t.flows[f].ids
  {
    Preservation.Identify(t, id);
  }

  lemma GroupOfMember(t: P.State, f: Id, i: nat)
    requires Inv(t) && f in t.flows && t.flows[f].TeamFlow? && i < |t.flows[f].ids|
    ensures var id := t.flows[f].ids[i]; id in t.tokens && t.tokens[id].msg.groupId == Some(f)
  {
    assert FlowOk(t, f) && MemberOk(t, f, i);
    Preservation.Identify(t, t.flows[f].ids[i]);
  }

  lemma CutNeverFires(t: P.State, f: Id)
    requires Inv(t) && t.hasBackend && f in t.flows && t.flows[f].TeamFlow? && t.flows[f].sigs != []
    ensures TokenCut(t, f, true) ==> !Fired(t, f)
  {
    Chords.FiredIffAllDone(t, f);
    if TokenCut(t, f, true) {
      var id :| id in t.tokens && Chords.Gone(t.tokens[id].loc) && Tag(t.tokens[id].msg, true) == Some(f);
      MemberCut(t, f, id);
      var i :| 0 <= i < |t.flows[f].ids| && t.flows[f].ids[i] == id;
      assert !StageOf(t.tokens[t.flows[f].ids[i]].loc).Over?;
    }
  }

  /** A quiet chord of one member or more has fired exactly when no member was cut. */
  lemma QuietChord(t: P.State, f: Id)
    requires Inv(t) && t.hasBackend && Quiet(t) && f in t.flows && t.flows[f].TeamFlow? && t.flows[f].sigs != []
    ensures Fired(t, f) <==> !TokenCut(t, f, true)
  {
    CutNeverFires(t, f);
    Chords.FiredIffAllDone(t, f);
    assert FlowOk(t, f) && TeamOk(t, f);
    if !TokenCut(t, f, true) {
      forall i | 0 <= i < |t.flows[f].ids|
        ensures t.flows[f].ids[i] in t.tokens && StageOf(t.tokens[t.flows[f].ids[i]].loc).Over?
      {
        GroupOfMember(t, f, i);
        assert !Chords.Gone(t.tokens[t.flows[f].ids[i]].loc);
      }
    }
  }

  // ---------------------------------------------------------------- chains and chords on the cluster

  /** What the calls returned. */
  function ValuesOf(wins: seq<Win>): (vs: seq<Value>)
    ensures |vs| == |wins|
  {
    if wins == [] then [] else [wins[0].value] + ValuesOf(wins[1..])
  }

  lemma ValuesCons(c: C.Cluster, e: C.Event, rest: seq<Win>, outs: seq<Value>, f: Id)
    requires C.Enabled(c, e)
    ensures var first := if Wins1(c, e, f) then [Win(c.jobs[e.job].x.msg, e.oracle.handler.value)] else [];
      outs + ValuesOf(first + rest)
        == (if Wins1(c, e, f) then outs + [e.oracle.handler.value] else outs) + ValuesOf(rest)
  {
    if Wins1(c, e, f) {
      var w := Win(c.jobs[e.job].x.msg, e.oracle.handler.value);
      assert ([w] + rest)[1..] == rest;
    } else {
      assert [] + rest == rest;
    }
  }

  lemma {:induction false} WinsAreOutputs(c: C.Cluster, s: P.State, events: seq<C.Event>, d: C.Cluster, t: P.State,
                                          f: Id, sigs: seq<Signature>)
    requires Refines(c, s) && Inv(s) && C.Leads(c, events, d) && P.Leads(s, LabelsOf(c, events), t)
    requires IsLine(s, f, sigs)
    ensures IsLine(t, f, sigs) && t.flows[f].outputs == s.flows[f].outputs + ValuesOf(Wins(c, events, f))
    decreases |events|
  {
    if events != [] {
      var e := events[0];
      Simulated(c, s, e);
      LabelsCons(c, events);
      ValuesCons(c, e, Wins(C.Next(c, e), events[1..], f), s.flows[f].outputs, f);
      match LabelOf(c, e) {
        case None =>
          WinsAreOutputs(C.Next(c, e), s, events[1..], d, t, f, sigs);
        case Some(l) =>
          assert ([l] + LabelsOf(C.Next(c, e), events[1..]))[1..] == LabelsOf(C.Next(c, e), events[1..]);
          Preservation.NextKeepsInv(s, l);
          LineStays(s, l, f, sigs);
          WinIsNext(c, s, e, l, f, sigs);
          WinsAreOutputs(C.Next(c, e), P.Next(s, l), events[1..], d, t, f, sigs);
      }
    }
  }

  /** When all is quiet, a submitted chain has run all its leaves exactly when no message of it
      was dead-lettered or lost. */
  lemma ChainSettles(c: C.Cluster, before: seq<C.Event>, m: C.Cluster, canvas: Canvas, m': C.Cluster,
                     sigs: seq<Signature>,
                     after: seq<C.Event>, d: C.Cluster)
    requires C.Init(c) && c.hasBackend && C.Leads(c, before, m) && C.TakesIn(m, canvas, m')
    requires ReadsChain(canvas, sigs)
    requires C.Leads(m', after, d) && Idle(d)
    ensures |Wins(m', after, m.nextId)| == |sigs| <==> !Cut(d, Dropped(m', after), m.nextId, false)
  {
    HasBackendStays(c, before, m);
    var s := AfterLine(c, before, m, canvas, m', sigs);
    LostOfLine(s, m.nextId);
    ChainFrom(m', s, after, d, m.nextId, sigs);
  }

  /** No message lost so far belongs to `f`. */
  ghost predicate NoneLost(s: P.State, f: Id, group: bool) {
    forall id :: IsLost(s, id) ==> Tag(s.tokens[id].msg, group) != Some(f)
  }

  lemma ChainFrom(m: C.Cluster, s: P.State, after: seq<C.Event>, d: C.Cluster, f: Id, sigs: seq<Signature>)
    requires Refines(m, s) && Inv(s) && s.hasBackend && C.Leads(m, after, d) && Idle(d)
    requires IsLine(s, f, sigs) && s.flows[f].outputs == [] && NoneLost(s, f, false)
    ensures |Wins(m, after, f)| == |sigs| <==> !Cut(d, Dropped(m, after), f, false)
  {
    var t := RunsRefine(m, s, after, d);
    var labels := LabelsOf(m, after);
    WinsAreOutputs(m, s, after, d, t, f, sigs);
    DroppedAgrees(m, s, after, d);
    CutIff(d, s, labels, t, f, false);
    IdleIsQuiet(d, t);
    Chords.BackendFixed(s, labels, t);
    QuietChain(t, f);
  }

  lemma LostOfLine(s: P.State, f: Id)
    requires Inv(s) && f in s.flows && s.flows[f].LineFlow? && |s.flows[f].ids| == 1
    requires s.flows[f].ids[0] in s.tokens && s.tokens[s.flows[f].ids[0]].loc.Queued?
    ensures NoneLost(s, f, false)
  {
    forall id | IsLost(s, id) ensures Tag(s.tokens[id].msg, false) != Some(f) {
      if Tag(s.tokens[id].msg, false) == Some(f) {
        LineOfCorrelation(s, id, f);
        Preservation.Identify(s, id);
      }
    }
  }

  lemma LostOfTeam(s: P.State, f: Id)
    requires Inv(s) && f in s.flows && s.flows[f].TeamFlow? && s.flows[f].ids == []
    ensures NoneLost(s, f, true)
  {
    forall id | IsLost(s, id) ensures Tag(s.tokens[id].msg, true) != Some(f) {
      Preservation.Identify(s, id);
    }
  }

  /** When all is quiet, the callback of a submitted chord of n >= 1 members has been enqueued
      exactly when no member was dead-lettered or lost. */
  lemma ChordSettles(c: C.Cluster, before: seq<C.Event>, m: C.Cluster, canvas: Canvas, m': C.Cluster,
                     sigs: seq<Signature>,
                     cb: Signature, after: seq<C.Event>, d: C.Cluster)
    requires C.Init(c) && c.hasBackend && C.Leads(c, before, m) && C.TakesIn(m, canvas, m')
    requires ReadsChord(canvas, sigs, cb) && sigs != []
    requires C.Leads(m', after, d) && Idle(d)
    ensures Pushes(m', after, m.nextId + 1) == if Cut(d, Dropped(m', after), m.nextId, true) then 0 else 1
  {
    var t := ChordRun(c, before, m, canvas, m', sigs, cb, after, d);
    IdleIsQuiet(d, t);
    QuietChord(t, m.nextId);
  }

  /** The lifecycle state at the end of a run that took in a chord. */
  lemma ChordRun(c: C.Cluster, before: seq<C.Event>, m: C.Cluster, canvas: Canvas, m': C.Cluster,
                 sigs: seq<Signature>, cb: Signature, after: seq<C.Event>, d: C.Cluster)
    returns (t: P.State)
    requires C.Init(c) && c.hasBackend && C.Leads(c, before, m) && C.TakesIn(m, canvas, m')
    requires ReadsChord(canvas, sigs, cb) && sigs != [] && C.Leads(m', after, d)
    ensures Refines(d, t) && Inv(t) && t.hasBackend && IsChord(t, m.nextId, m.nextId + 1)
    ensures Pushes(m', after, m.nextId + 1) == if Fired(t, m.nextId) then 1 else 0
    ensures Cut(d, Dropped(m', after), m.nextId, true) <==> TokenCut(t, m.nextId, true)
  {
    var s := AfterChord(c, before, m, canvas, m', sigs, cb);
    t := ChordUntil(m', s, after, d, m.nextId, m.nextId + 1);
  }

  lemma AfterChord(c: C.Cluster, before: seq<C.Event>, m: C.Cluster, canvas: Canvas, m': C.Cluster,
                   sigs: seq<Signature>, cb: Signature)
    returns (s: P.State)
    requires C.Init(c) && c.hasBackend && C.Leads(c, before, m) && C.TakesIn(m, canvas, m')
    requires ReadsChord(canvas, sigs, cb) && sigs != []
    ensures Refines(m', s) && Inv(s) && s.hasBackend && IsChord(s, m.nextId, m.nextId + 1)
    ensures s.flows[m.nextId].ids == []
  {
    HasBackendStays(c, before, m);
    s := AfterSubmit(c, before, m, canvas, m', sigs, cb);
    NewChordIsChord(s, m.nextId, sigs, cb);
  }

  /** What a chord's run comes to. */
  lemma ChordUntil(m: C.Cluster, s: P.State, after: seq<C.Event>, d: C.Cluster, f: Id, id: Id) returns (t: P.State)
    requires Refines(m, s) && Inv(s) && s.hasBackend && C.Leads(m, after, d) && IsChord(s, f, id)
    requires s.flows[f].ids == []
    ensures Refines(d, t) && Inv(t) && t.hasBackend && IsChord(t, f, id)
    ensures Pushes(m, after, id) == if Fired(t, f) then 1 else 0
    ensures Cut(d, Dropped(m, after), f, true) <==> TokenCut(t, f, true)
  {
    t := RunsRefine(m, s, after, d);
    ChordPushes(m, s, after, d, t, f, id);
    DroppedAgrees(m, s, after, d);
    LostOfTeam(s, f);
    CutIff(d, s, LabelsOf(m, after), t, f, true);
  }

  lemma ChordPushes(m: C.Cluster, s: P.State, after: seq<C.Event>, d: C.Cluster, t: P.State, f: Id, id: Id)
    requires Refines(m, s) && Inv(s) && C.Leads(m, after, d) && IsChord(s, f, id) && s.flows[f].ids == []
    requires Inv(t) && P.Leads(s, LabelsOf(m, after), t)
    ensures IsChord(t, f, id) && t.hasBackend == s.hasBackend
    ensures Pushes(m, after, id) == if Fired(t, f) then 1 else 0
  {
    CountsAgree(m, s, after, d, id);
    ChordCounted(s, LabelsOf(m, after), t, f, id);
    NotFiredYet(s, f);
  }

  lemma NotFiredYet(s: P.State, f: Id)
    requires Inv(s) && f in s.flows && s.flows[f].TeamFlow? && s.flows[f].ids == []
    ensures !Fired(s, f)
  {
    assert FlowOk(s, f);
    if s.flows[f].done != [] { assert CountedOk(s, f, 0); }
  }

  lemma NewChordIsChord(s: P.State, f: Id, sigs: seq<Signature>, cb: Signature)
    requires NewChord(s, f, sigs, cb) && sigs != []
    ensures IsChord(s, f, f + 1) && s.flows[f].ids == []
  {
  }

  ghost predicate IsChord(s: P.State, f: Id, id: Id) {
    && f in s.flows && s.flows[f].TeamFlow? && s.flows[f].sigs != [] && s.flows[f].cb.Some?
    && s.flows[f].cb.value.id == id && id in s.owner && s.owner[id] == P.Callback(f)
  }

  lemma ChordCounted(s: P.State, labels: seq<P.Label>, t: P.State, f: Id, id: Id)
    requires Inv(s) && Inv(t) && P.Leads(s, labels, t) && IsChord(s, f, id)
    ensures IsChord(t, f, id) && t.hasBackend == s.hasBackend
    ensures Chords.FireCount(s, labels, id) + (if Fired(s, f) then 1 else 0) == if Fired(t, f) then 1 else 0
  {
    TeamStaysAlong(s, labels, t, f);
    Chords.OwnersStayAlong(s, labels, t, id);
    Chords.FireCountIs(s, labels, t, id);
    Chords.BackendFixed(s, labels, t);
    Chords.CallbackPresence(s, f);
    Chords.CallbackPresence(t, f);
  }

  /** Once a member of a chord is dead-lettered or lost, its callback has not been enqueued, and
      whatever runs later never will be. */
  lemma CutChordNeverFires(c: C.Cluster, before: seq<C.Event>, m: C.Cluster, canvas: Canvas, m': C.Cluster,
                           sigs: seq<Signature>,
                           cb: Signature, after: seq<C.Event>, d: C.Cluster, later: seq<C.Event>, e: C.Cluster)
    requires C.Init(c) && c.hasBackend && C.Leads(c, before, m) && C.TakesIn(m, canvas, m')
    requires ReadsChord(canvas, sigs, cb) && sigs != []
    requires C.Leads(m', after, d) && C.Leads(d, later, e)
    requires Cut(d, Dropped(m', after), m.nextId, true)
    ensures Pushes(m', after, m.nextId + 1) == 0 && Pushes(d, later, m.nextId + 1) == 0
  {
    var t := ChordRun(c, before, m, canvas, m', sigs, cb, after, d);
    CutNeverFires(t, m.nextId);
    StaysSilent(d, t, later, e, m.nextId, m.nextId + 1);
  }

  lemma StaysSilent(d: C.Cluster, t: P.State, later: seq<C.Event>, e: C.Cluster, f: Id, id: Id)
    requires Refines(d, t) && Inv(t) && t.hasBackend && IsChord(t, f, id) && C.Leads(d, later, e)
    requires TokenCut(t, f, true)
    ensures Pushes(d, later, id) == 0
  {
    var u := RunsRefine(d, t, later, e);
    var labels := LabelsOf(d, later);
    CountsAgree(d, t, later, e, id);
    ChordCounted(t, labels, u, f, id);
    var x :| x in t.tokens && Chords.Gone(t.tokens[x].loc) && Tag(t.tokens[x].msg, true) == Some(f);
    Chords.GoneStays(t, labels, u, x);
    CutNeverFires(u, f);
  }
}
