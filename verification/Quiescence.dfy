/** How a cluster comes to rest: without etas ahead of the clock no message is ever sent back,
    and while one worker serves every queue in use some run ends with nothing left to do. */
module Quiescence {
  import opened Messages
  import opened Workflows
  import opened Results
  import opened Execution
  import opened Invariants
  import opened Refinement
  import opened Guarantees
  import opened Outcomes
  import opened Settlement
  import C = Cluster
  import P = Protocol
  import Preservation
  import Budget
  import Permits

  // ---------------------------------------------------------------- what is asked for

  /** A message for one of the queues `names`, with no eta after `limit`. */
  ghost predicate Asks(queue: string, eta: Option<int>, names: iset<string>, limit: int) {
    queue in names && (eta.Some? ==> eta.value <= limit)
  }

  ghost predicate SigsAsk(sigs: seq<Signature>, names: iset<string>, limit: int) {
    forall sig <- sigs :: Asks(sig.queue, sig.eta, names, limit)
  }

  ghost predicate PlanAsks(p: Plan, names: iset<string>, limit: int) {
    match p
    case Line(sigs) => SigsAsk(sigs, names, limit)
    case Team(sigs, cb) =>
      SigsAsk(sigs, names, limit) && (cb.Some? ==> Asks(cb.value.queue, cb.value.eta, names, limit))
    case _ => true
  }

  /** What the event submits, if anything. */
  ghost predicate EventAsks(e: C.Event, names: iset<string>, limit: int) {
    match e
    case Submit(canvas) => PlanAsks(PlanOf(canvas), names, limit)
    case Enqueue(sig) => Asks(sig.queue, sig.eta, names, limit)
    case _ => true
  }

  ghost predicate LabelAsks(l: P.Label, names: iset<string>, limit: int) {
    match l
    case Submit(canvas) => PlanAsks(PlanOf(canvas), names, limit)
    case Enqueue(sig) => Asks(sig.queue, sig.eta, names, limit)
    case _ => true
  }

  ghost predicate FlowAsks(fl: P.Flow, names: iset<string>, limit: int) {
    && SigsAsk(fl.sigs, names, limit)
    && (fl.TeamFlow? && fl.cb.Some? ==> Asks(fl.cb.value.queue, fl.cb.value.eta, names, limit))
  }

  ghost predicate FlowsAsk(flows: map<Id, P.Flow>, names: iset<string>, limit: int) {
    forall f <- flows :: FlowAsks(flows[f], names, limit)
  }

  lemma FlowsAskLess(flows: map<Id, P.Flow>, names: iset<string>, limit: int, names': iset<string>, limit': int)
    requires FlowsAsk(flows, names, limit) && names <= names' && limit <= limit'
    ensures FlowsAsk(flows, names', limit')
  {
  }

  lemma StepAsks(s: P.State, l: P.Label, names: iset<string>, limit: int)
    requires P.Enabled(s, l) && FlowsAsk(s.flows, names, limit) && LabelAsks(l, names, limit)
    ensures FlowsAsk(P.Next(s, l).flows, names, limit)
  {
    if l.Run? {
      RunAsks(s, l.id, l.oracle, P.Advance(s, l.id, l.oracle), names, limit);
    } else if l.Submit? {
      SubmitAsks(s, PlanOf(l.canvas), names, limit);
    }
  }

  lemma RunAsks(s: P.State, id: Id, o: Oracle, out: Outcome, names: iset<string>, limit: int)
    requires id in s.tokens && s.tokens[id].loc.Running? && FlowsAsk(s.flows, names, limit)
    ensures FlowsAsk(P.RunWith(s, id, o, out).flows, names, limit)
  {
  }

  lemma SubmitAsks(s: P.State, p: Plan, names: iset<string>, limit: int)
    requires FlowsAsk(s.flows, names, limit) && PlanAsks(p, names, limit)
    ensures FlowsAsk(P.SubmitPlan(s, p).flows, names, limit)
  {
  }

  /** Every message is for a queue, and has an eta, that something submitted asked for. */
  lemma TokenAsks(s: P.State, id: Id, names: iset<string>, limit: int)
    requires Inv(s) && id in s.tokens && FlowsAsk(s.flows, names, limit)
    ensures Asks(s.tokens[id].msg.queue, s.tokens[id].msg.eta, names, limit)
  {
    Preservation.Identify(s, id);
    var m := s.tokens[id].msg;
    assert Norm(m).queue == m.queue && Norm(m).eta == m.eta;
    KnownAsks(s, id, names, limit);
  }

  lemma KnownAsks(s: P.State, id: Id, names: iset<string>, limit: int)
    requires Preservation.Known(s, id) && FlowAsks(s.flows[s.owner[id].flow], names, limit)
    ensures Asks(Norm(s.tokens[id].msg).queue, Norm(s.tokens[id].msg).eta, names, limit)
  {
  }

  // ---------------------------------------------------------------- etas that are not ahead

  ghost const ANY: iset<string> := iset q: string | true

  /** No eta lies ahead of the clock when it is submitted. */
  ghost predicate NoneAhead(c: C.Cluster, events: seq<C.Event>)
    decreases |events|
  {
    events != [] && C.Enabled(c, events[0]) ==>
      EventAsks(events[0], ANY, c.clock) && NoneAhead(C.Next(c, events[0]), events[1..])
  }

  predicate Deferring(x: Exec) {
    x.pc.EtaAck? || x.pc.EtaPush?
  }

  /** Executions on their way to send their message back. */
  function Deferred(jobs: map<nat, C.Job>): set<nat> {
    set e | e in jobs && Deferring(jobs[e].x)
  }

  lemma DueIsKept(c: C.Cluster, s: P.State, e: C.Event)
    requires Refines(c, s) && Inv(s) && FlowsAsk(s.flows, ANY, c.clock) && C.Enabled(c, e) && e.Step?
    ensures var x := c.jobs[e.job].x; x.msg.eta.Some? ==> x.msg.eta.value <= c.clock
  {
    JobIsToken(c, s, e);
    TokenAsks(s, c.jobs[e.job].x.msg.id, ANY, c.clock);
  }

  predicate SendsBack(c: C.Cluster, e: C.Event)
    requires C.Enabled(c, e)
  {
    e.Step? && c.jobs[e.job].x.pc.EtaPush?
  }

  /** A due message is not deferred. */
  lemma DueIsNotDeferred(x: Exec, b: Backend, o: Oracle, newId: Id, hasBackend: bool)
    requires x.msg.eta.Some? ==> x.msg.eta.value <= o.now
    ensures var out := Resume(x, b, o, newId, hasBackend);
      && (out.next.Some? && Deferring(out.next.value) ==> x.pc.EtaAck?)
      && (x.pc.EtaPush? ==> out.next.None?)
  {
  }

  lemma StepDefersNone(c: C.Cluster, e: C.Event, out: Outcome)
    requires C.Enabled(c, e) && e.Step?
    requires out.next.Some? && Deferring(out.next.value) ==> c.jobs[e.job].x.pc.EtaAck?
    requires c.jobs[e.job].x.pc.EtaPush? ==> out.next.None?
    ensures |Deferred(C.RunJobWith(c, e.job, out).jobs)| + (if SendsBack(c, e) then 1 else 0) <= |Deferred(c.jobs)|
  {
    var was, left := Deferred(c.jobs), Deferred(C.RunJobWith(c, e.job, out).jobs);
    var back := if SendsBack(c, e) then {e.job} else {};
    assert left + back <= was && left !! back;
    Subset(left + back, was);
  }

  lemma {:induction false} Subset<T>(a: set<T>, b: set<T>)
    requires a <= b
    ensures |a| <= |b|
  {
    if a != {} {
      var x :| x in a;
      Subset(a - {x}, b - {x});
    }
  }

  lemma EventDefersNone(c: C.Cluster, s: P.State, e: C.Event)
    requires Refines(c, s) && Inv(s) && FlowsAsk(s.flows, ANY, c.clock) && C.Enabled(c, e)
    ensures |Deferred(C.Next(c, e).jobs)| + (if SendsBack(c, e) then 1 else 0) <= |Deferred(c.jobs)|
  {
    if e.Step? {
      var x := c.jobs[e.job].x;
      DueIsKept(c, s, e);
      DueIsNotDeferred(x, c.backend, e.oracle, c.nextId, c.hasBackend);
      StepDefersNone(c, e, OutcomeOf(c, e));
    } else {
      OtherDefersNone(c, e);
    }
  }

  lemma OtherDefersNone(c: C.Cluster, e: C.Event)
    requires C.Enabled(c, e) && !e.Step? && c.nextJob !in c.jobs
    ensures Deferred(C.Next(c, e).jobs) == Deferred(c.jobs)
  {
  }

  /** What was not ahead is still not, when nothing submitted is. */
  lemma ClockAsks(c: C.Cluster, s: P.State, e: C.Event, l: P.Label)
    requires Refines(c, s) && C.Enabled(c, e) && LabelOf(c, e) == Some(l) && P.Enabled(s, l)
    requires FlowsAsk(s.flows, ANY, c.clock) && EventAsks(e, ANY, c.clock)
    ensures FlowsAsk(P.Next(s, l).flows, ANY, C.Next(c, e).clock)
  {
    StepAsks(s, l, ANY, c.clock);
    ClockGrows(c, e);
    FlowsAskLess(P.Next(s, l).flows, ANY, c.clock, ANY, C.Next(c, e).clock);
  }

  lemma ClockGrows(c: C.Cluster, e: C.Event)
    requires C.Enabled(c, e)
    ensures c.clock <= C.Next(c, e).clock && (!e.Tick? ==> C.Next(c, e).clock == c.clock)
  {
  }

  /** Messages are sent back by those executions only that were about to when the run began. */
  lemma {:induction false} SentBackAtMost(c: C.Cluster, s: P.State, events: seq<C.Event>, d: C.Cluster)
    requires Refines(c, s) && Inv(s) && FlowsAsk(s.flows, ANY, c.clock) && C.Leads(c, events, d) && NoneAhead(c, events)
    ensures SentBack(c, events) + |Deferred(d.jobs)| <= |Deferred(c.jobs)|
    decreases |events|
  {
    if events != [] {
      var e := events[0];
      Simulated(c, s, e);
      EventDefersNone(c, s, e);
      match LabelOf(c, e) {
        case None =>
          ClockGrows(c, e);
          SentBackAtMost(C.Next(c, e), s, events[1..], d);
        case Some(l) =>
          Preservation.NextKeepsInv(s, l);
          ClockAsks(c, s, e, l);
          SentBackAtMost(C.Next(c, e), P.Next(s, l), events[1..], d);
      }
    }
  }

  /** On a run on which no eta lies ahead of the clock when it is submitted, no message is ever
      sent back, and all the work done is bounded by what was submitted. */
  lemma PunctualWorkBounded(c: C.Cluster, events: seq<C.Event>, d: C.Cluster)
    requires C.Init(c) && C.Leads(c, events, d) && NoneAhead(c, events)
    ensures SentBack(c, events) == 0 && WorkDone(c, events) <= 17 * Allowed(events)
  {
    StartRefines(c);
    SentBackAtMost(c, Start(c), events, d);
    WorkBounded(c, events, d);
  }

  // ---------------------------------------------------------------- one worker that serves all

  function Listed(v: C.Worker): iset<string> {
    iset q | q in v.queues
  }

  /** Worker `w` has some concurrency and was not cancelled. */
  predicate Willing(d: C.Cluster, w: nat) {
    w in d.workers && !d.workers[w].cancelled && d.workers[w].concurrency >= 1
  }

  lemma {:induction false} StaysWilling(d: C.Cluster, more: seq<C.Event>, e: C.Cluster, w: nat)
    requires Willing(d, w) && C.Leads(d, more, e) && NoneCancelled(more)
    ensures Willing(e, w) && e.workers[w].queues == d.workers[w].queues
    decreases |more|
  {
    if more != [] {
      WillingStep(d, more[0], w);
      StaysWilling(C.Next(d, more[0]), more[1..], e, w);
    }
  }

  lemma WillingStep(d: C.Cluster, e: C.Event, w: nat)
    requires Willing(d, w) && C.Enabled(d, e) && !e.Cancel?
    ensures Willing(C.Next(d, e), w) && C.Next(d, e).workers[w].queues == d.workers[w].queues
  {
  }

  /** What is queued was asked for, so that the worker serves it. */
  lemma ListedIsServed(d: C.Cluster, t: P.State, w: nat, limit: int)
    requires Refines(d, t) && Inv(t) && Willing(d, w) && FlowsAsk(t.flows, Listed(d.workers[w]), limit)
    ensures AllServed(d)
  {
    forall q | d.broker.Queue(q) != [] ensures exists v :: v in d.workers && Serves(d.workers[v], q) {
      var m := d.broker.queues[q][0];
      assert Sits(d, AtQueue(q, 0), m.id);
      SitsWhere(d, t, AtQueue(q, 0), m.id);
      TokenAsks(t, m.id, Listed(d.workers[w]), limit);
      assert Serves(d.workers[w], q);
    }
  }

  lemma {:induction false} NoneSubmittedNoneAhead(c: C.Cluster, events: seq<C.Event>)
    requires NoneSubmitted(events)
    ensures NoneAhead(c, events)
    decreases |events|
  {
    if events != [] && C.Enabled(c, events[0]) { NoneSubmittedNoneAhead(C.Next(c, events[0]), events[1..]); }
  }

  ghost predicate LabelsAsk(labels: seq<P.Label>, names: iset<string>, limit: int) {
    forall i :: 0 <= i < |labels| ==> LabelAsks(labels[i], names, limit)
  }

  ghost predicate EventsAsk(events: seq<C.Event>, names: iset<string>, limit: int) {
    forall i :: 0 <= i < |events| ==> EventAsks(events[i], names, limit)
  }

  lemma {:induction false} LabelsOfAsk(c: C.Cluster, events: seq<C.Event>, names: iset<string>, limit: int)
    requires EventsAsk(events, names, limit)
    ensures LabelsAsk(LabelsOf(c, events), names, limit)
    decreases |events|
  {
    if events != [] && C.Enabled(c, events[0]) {
      assert EventAsks(events[0], names, limit);
      LabelsOfAsk(C.Next(c, events[0]), events[1..], names, limit);
    }
  }

  lemma {:induction false} LabelsAskAlong(s: P.State, labels: seq<P.Label>, t: P.State, names: iset<string>, limit: int)
    requires FlowsAsk(s.flows, names, limit) && LabelsAsk(labels, names, limit) && P.Leads(s, labels, t)
    ensures FlowsAsk(t.flows, names, limit)
    decreases |labels|
  {
    if labels != [] {
      assert LabelAsks(labels[0], names, limit);
      StepAsks(s, labels[0], names, limit);
      LabelsAskAlong(P.Next(s, labels[0]), labels[1..], t, names, limit);
    }
  }

  // ---------------------------------------------------------------- coming to rest

  /** What is still to be done: it shrinks with every event that works. */
  ghost function Remaining(d: C.Cluster, t: P.State): nat {
    Budget.Owed(t, true) + 5 * |Deferred(d.jobs)|
  }

  lemma {:induction false} NothingGranted(events: seq<C.Event>)
    requires NoneSubmitted(events)
    ensures Allowed(events) == 0
  {
    if events != [] { NothingGranted(events[1..]); }
  }

  /** Without submissions, and with no eta ahead, the work done is taken off what remains. */
  lemma WorkShrinks(d: C.Cluster, t: P.State, more: seq<C.Event>, e: C.Cluster) returns (u: P.State)
    requires Refines(d, t) && Inv(t) && FlowsAsk(t.flows, ANY, d.clock)
    requires C.Leads(d, more, e) && NoneSubmitted(more)
    ensures P.Leads(t, LabelsOf(d, more), u) && Refines(e, u) && Inv(u)
    ensures WorkDone(d, more) + Remaining(e, u) <= Remaining(d, t)
  {
    u := RunsRefine(d, t, more, e);
    NoneSubmittedNoneAhead(d, more);
    SentBackAtMost(d, t, more, e);
    WorkAgrees(d, t, more, e);
    CountsAgree(d, t, more, e, 0);
    NothingGranted(more);
    Budget.HistoriesCount(t, LabelsOf(d, more), u);
    Budget.RunsPay(t, LabelsOf(d, more), u);
  }

  lemma {:induction false} LeadsOn(c: C.Cluster, events: seq<C.Event>, d: C.Cluster, more: seq<C.Event>, e: C.Cluster)
    requires C.Leads(c, events, d) && C.Leads(d, more, e)
    ensures C.Leads(c, events + more, e)
    decreases |events|
  {
    if events == [] {
      assert events + more == more;
    } else {
      LeadsOn(C.Next(c, events[0]), events[1..], d, more, e);
      assert (events + more)[1..] == events[1..] + more;
    }
  }

  /** `more` leads from `d` to `e` without submissions, answered by `answers`. */
  ghost predicate Plays(d: C.Cluster, more: seq<C.Event>, e: C.Cluster, answers: Message -> Oracle) {
    C.Leads(d, more, e) && NoneSubmitted(more) && Answered(d, more, answers)
  }

  lemma {:induction false} PlaysOn(c: C.Cluster, events: seq<C.Event>, d: C.Cluster, more: seq<C.Event>, e: C.Cluster,
                                   answers: Message -> Oracle)
    requires Plays(c, events, d, answers) && Plays(d, more, e, answers)
    ensures Plays(c, events + more, e, answers)
    decreases |events|
  {
    if events == [] {
      assert events + more == more;
    } else {
      assert NoneSubmitted(events[1..]);
      PlaysOn(C.Next(c, events[0]), events[1..], d, more, e, answers);
      assert (events + more)[1..] == events[1..] + more;
    }
  }

  /** Worker `w` is willing and lists all that was asked for, none of which is ahead. */
  ghost predicate Served(d: C.Cluster, t: P.State, w: nat) {
    && Refines(d, t) && Inv(t) && Willing(d, w) && FlowsAsk(t.flows, Listed(d.workers[w]), d.clock)
  }

  /** One round: something is done, and the worker is still there. */
  lemma OneRound(c: C.Cluster, events: seq<C.Event>, d: C.Cluster, t: P.State, w: nat, answers: Message -> Oracle)
    returns (more: seq<C.Event>, e: C.Cluster, u: P.State)
    requires C.Init(c) && C.Leads(c, events, d) && Served(d, t, w) && !Idle(d)
    ensures Plays(d, more, e, answers)
    ensures Served(e, u, w) && Remaining(e, u) < Remaining(d, t)
  {
    ListedIsServed(d, t, w, d.clock);
    ServedGoesOn(c, events, d);
    more := GoingOn(c, events, d, answers);
    e := GoesOnMoves(d, more);
    FlowsAskLess(t.flows, Listed(d.workers[w]), d.clock, ANY, d.clock);
    u := WorkShrinks(d, t, more, e);
    StillServed(d, t, w, more, e, u);
  }

  lemma StillServed(d: C.Cluster, t: P.State, w: nat, more: seq<C.Event>, e: C.Cluster, u: P.State)
    requires Served(d, t, w) && C.Leads(d, more, e) && NoneSubmitted(more) && NoneCancelled(more)
    requires P.Leads(t, LabelsOf(d, more), u) && Refines(e, u) && Inv(u)
    ensures Served(e, u, w)
  {
    var names := Listed(d.workers[w]);
    StaysWilling(d, more, e, w);
    LabelsOfAsk(d, more, names, d.clock);
    LabelsAskAlong(t, LabelsOf(d, more), u, names, d.clock);
    ClockGrowsAlong(d, more, e);
    FlowsAskLess(u.flows, names, d.clock, names, e.clock);
  }

  lemma {:induction false} ClockGrowsAlong(d: C.Cluster, more: seq<C.Event>, e: C.Cluster)
    requires C.Leads(d, more, e)
    ensures d.clock <= e.clock
    decreases |more|
  {
    if more != [] { ClockGrowsAlong(C.Next(d, more[0]), more[1..], e); }
  }

  lemma {:induction false} RestFrom(c: C.Cluster, events: seq<C.Event>, d: C.Cluster, t: P.State, w: nat,
                                    answers: Message -> Oracle)
    returns (more: seq<C.Event>, e: C.Cluster)
    requires C.Init(c) && C.Leads(c, events, d) && Served(d, t, w)
    ensures Plays(d, more, e, answers) && Idle(e)
    decreases Remaining(d, t)
  {
    if Idle(d) {
      more, e := [], d;
    } else {
      var first, d', t' := OneRound(c, events, d, t, w, answers);
      LeadsOn(c, events, d, first, d');
      var rest;
      rest, e := RestFrom(c, events + first, d', t', w, answers);
      PlaysOn(d, first, d', rest, e, answers);
      more := first + rest;
    }
  }

  // ---------------------------------------------------------------- the latest eta

  function Later(eta: Option<int>, t: int): int {
    if eta.Some? && eta.value > t then eta.value else t
  }

  function LatestOf(sigs: seq<Signature>): int {
    if sigs == [] then 0 else Later(sigs[0].eta, LatestOf(sigs[1..]))
  }

  lemma {:induction false} LatestBounds(sigs: seq<Signature>)
    ensures forall sig <- sigs :: sig.eta.Some? ==> sig.eta.value <= LatestOf(sigs)
  {
    if sigs != [] {
      LatestBounds(sigs[1..]);
      assert forall sig <- sigs :: sig == sigs[0] || sig in sigs[1..];
    }
  }

  /** All etas of an event's submission come to an end. */
  lemma EventHasLatest(e: C.Event, names: iset<string>) returns (limit: int)
    requires EventFor(e, names)
    ensures EventAsks(e, names, limit)
  {
    limit := 0;
    match e {
      case Submit(canvas) =>
        match PlanOf(canvas) {
          case Line(sigs) =>
            LatestBounds(sigs);
            limit := LatestOf(sigs);
          case Team(sigs, cb) =>
            LatestBounds(sigs);
            limit := if cb.Some? then Later(cb.value.eta, LatestOf(sigs)) else LatestOf(sigs);
          case _ =>
        }
      case Enqueue(sig) => limit := Later(sig.eta, 0);
      case _ =>
    }
  }

  ghost predicate SigsFor(sigs: seq<Signature>, names: iset<string>) {
    forall sig <- sigs :: sig.queue in names
  }

  /** What the event submits, callbacks included, is for queues among `names`. */
  ghost predicate EventFor(e: C.Event, names: iset<string>) {
    match e
    case Submit(canvas) =>
      (match PlanOf(canvas)
       case Line(sigs) => SigsFor(sigs, names)
       case Team(sigs, cb) => SigsFor(sigs, names) && (cb.Some? ==> cb.value.queue in names)
       case _ => true)
    case Enqueue(sig) => sig.queue in names
    case _ => true
  }

  lemma EventAsksLater(e: C.Event, names: iset<string>, limit: int, limit': int)
    requires EventAsks(e, names, limit) && limit <= limit'
    ensures EventAsks(e, names, limit')
  {
  }

  lemma {:induction false} EventsHaveLatest(events: seq<C.Event>, names: iset<string>, start: int) returns (limit: int)
    requires forall e <- events :: EventFor(e, names)
    ensures EventsAsk(events, names, limit) && start <= limit
  {
    if events == [] {
      limit := start;
    } else {
      var here := EventHasLatest(events[0], names);
      var rest := EventsHaveLatest(events[1..], names, start);
      limit := if here > rest then here else rest;
      forall i | 0 <= i < |events| ensures EventAsks(events[i], names, limit) {
        if i == 0 {
          EventAsksLater(events[0], names, here, limit);
        } else {
          assert EventAsks(events[1..][i - 1], names, rest);
          EventAsksLater(events[i], names, rest, limit);
        }
      }
    }
  }

  /** Once the clock has passed all etas, the worker serves all there is. */
  lemma TickServes(c: C.Cluster, events: seq<C.Event>, d: C.Cluster, w: nat) returns (limit: int, t: P.State)
    requires C.Init(c) && C.Leads(c, events, d) && Willing(d, w)
    requires forall e <- events :: EventFor(e, Listed(d.workers[w]))
    ensures C.Enabled(d, C.Tick(limit)) && Served(C.Next(d, C.Tick(limit)), t, w)
  {
    var names := Listed(d.workers[w]);
    var s := Reached(c, events, d);
    limit := EventsHaveLatest(events, names, d.clock);
    LabelsOfAsk(c, events, names, limit);
    LabelsAskAlong(Start(c), LabelsOf(c, events), s, names, limit);
    Simulated(d, s, C.Tick(limit));
    Preservation.NextKeepsInv(s, P.Tick(limit));
    t := P.Next(s, P.Tick(limit));
  }

  lemma TickPlays(d: C.Cluster, now: int, answers: Message -> Oracle)
    requires C.Enabled(d, C.Tick(now))
    ensures Plays(d, [C.Tick(now)], C.Next(d, C.Tick(now)), answers)
  {
    assert [C.Tick(now)][1..] == [];
  }

  /** Whatever ran before, and whatever hooks and handlers answer from now on: while one worker
      of some concurrency was not cancelled and lists the queues of everything submitted so far,
      some run without new submissions ends with nothing left to do. */
  lemma ComesToRest(c: C.Cluster, events: seq<C.Event>, d: C.Cluster, w: nat, answers: Message -> Oracle)
    returns (more: seq<C.Event>, e: C.Cluster)
    requires C.Init(c) && C.Leads(c, events, d) && Willing(d, w)
    requires forall e <- events :: EventFor(e, Listed(d.workers[w]))
    ensures C.Leads(d, more, e) && NoneSubmitted(more) && Answered(d, more, answers) && Idle(e)
  {
    var limit, t := TickServes(c, events, d, w);
    var d' := C.Next(d, C.Tick(limit));
    TickPlays(d, limit, answers);
    LeadsOn(c, events, d, [C.Tick(limit)], d');
    var rest;
    rest, e := RestFrom(c, events + [C.Tick(limit)], d', t, w, answers);
    PlaysOn(d, [C.Tick(limit)], d', rest, e, answers);
    more := [C.Tick(limit)] + rest;
  }
}
