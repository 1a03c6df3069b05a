/** Retries, dead letters, etas, handler calls and chords on every run of a cluster. */
module Outcomes {
  import opened Messages
  import opened Workflows
  import opened Results
  import opened Execution
  import opened Instances
  import opened Invariants
  import opened Refinement
  import opened Guarantees
  import C = Cluster
  import P = Protocol
  import Preservation
  import Chords
  import Budget
  import Chains

  // ---------------------------------------------------------------- counting along a run

  /** What an execution's next operation will come to. */
  function OutcomeOf(c: C.Cluster, e: C.Event): Outcome
    requires C.Enabled(c, e) && e.Step?
  {
    Resume(c.jobs[e.job].x, c.backend, e.oracle, c.nextId, c.hasBackend)
  }

  predicate Fails(out: Outcome) {
    out.next.Some? && out.next.value.pc.OnError?
  }

  /** Attempts of `id` that ended in `handle_failure`. */
  function Failures(c: C.Cluster, events: seq<C.Event>, id: Id): nat
    decreases |events|
  {
    if events == [] || !C.Enabled(c, events[0]) then 0
    else (if events[0].Step? && c.jobs[events[0].job].x.msg.id == id && Fails(OutcomeOf(c, events[0])) then 1 else 0)
         + Failures(C.Next(c, events[0]), events[1..], id)
  }

  /** How often an execution put a message `id` other than its own on a queue. */
  function Pushes(c: C.Cluster, events: seq<C.Event>, id: Id): nat
    decreases |events|
  {
    if events == [] || !C.Enabled(c, events[0]) then 0
    else (if events[0].Step? && OutcomeOf(c, events[0]).effect.Spawn? && OutcomeOf(c, events[0]).effect.m.id == id
          then 1 else 0)
         + Pushes(C.Next(c, events[0]), events[1..], id)
  }

  function Calls(c: C.Cluster, events: seq<C.Event>): nat
    decreases |events|
  {
    if events == [] || !C.Enabled(c, events[0]) then 0
    else (if events[0].Step? && c.jobs[events[0].job].x.pc.Dispatch? then 1 else 0)
         + Calls(C.Next(c, events[0]), events[1..])
  }

  /** `max_retries + 1` for every signature submitted. */
  function Allowed(events: seq<C.Event>): nat {
    if events == [] then 0 else
    (match events[0]
     case Submit(canvas) => Budget.PlanAllowance(PlanOf(canvas))
     case Enqueue(sig) => sig.maxRetries + 1
     case _ => 0) + Allowed(events[1..])
  }

  function FailCount(s: P.State, labels: seq<P.Label>, id: Id): nat
    decreases |labels|
  {
    if labels == [] || !P.Enabled(s, labels[0]) then 0
    else (if labels[0].Run? && labels[0].id == id && Fails(P.Advance(s, id, labels[0].oracle)) then 1 else 0)
         + FailCount(P.Next(s, labels[0]), labels[1..], id)
  }

  lemma SameOutcome(c: C.Cluster, s: P.State, e: C.Event)
    requires Refines(c, s) && C.Enabled(c, e) && e.Step?
    ensures var x := c.jobs[e.job].x;
      && x.msg.id in s.tokens && s.tokens[x.msg.id].loc.Running? && s.tokens[x.msg.id].loc.pc == x.pc
      && P.Advance(s, x.msg.id, e.oracle) == OutcomeOf(c, e)
  {
    var x := c.jobs[e.job].x;
    assert P.ExecOf(s.tokens[x.msg.id]) == x;
  }

  /** The counts along a run of the cluster are those along a run of the lifecycle. */
  ghost predicate Agree(c: C.Cluster, events: seq<C.Event>, s: P.State, labels: seq<P.Label>, id: Id) {
    && Failures(c, events, id) == FailCount(s, labels, id)
    && Pushes(c, events, id) == Chords.FireCount(s, labels, id)
    && Calls(c, events) == Budget.HandlerCalls(s, labels)
    && Allowed(events) == Budget.Granted(labels)
  }

  lemma SilentAgrees(c: C.Cluster, events: seq<C.Event>, s: P.State, labels: seq<P.Label>, id: Id)
    requires events != [] && C.Enabled(c, events[0]) && LabelOf(c, events[0]) == None
    requires Agree(C.Next(c, events[0]), events[1..], s, labels, id)
    ensures Agree(c, events, s, labels, id)
  {
  }

  lemma LoudAgrees(c: C.Cluster, events: seq<C.Event>, s: P.State, l: P.Label, rest: seq<P.Label>, id: Id)
    requires events != [] && C.Enabled(c, events[0]) && LabelOf(c, events[0]) == Some(l) && P.Enabled(s, l)
    requires Agree(C.Next(c, events[0]), events[1..], P.Next(s, l), rest, id)
    requires events[0].Step? ==>
      s.tokens[l.id].loc.pc == c.jobs[events[0].job].x.pc && P.Advance(s, l.id, l.oracle) == OutcomeOf(c, events[0])
    ensures Agree(c, events, s, [l] + rest, id)
  {
    var labels := [l] + rest;
    assert labels[0] == l && labels[1..] == rest;
  }

  /** A cluster's run and the lifecycle run behind it count alike. */
  lemma {:induction false} CountsAgree(c: C.Cluster, s: P.State, events: seq<C.Event>, d: C.Cluster, id: Id)
    requires Refines(c, s) && Inv(s) && C.Leads(c, events, d)
    ensures Agree(c, events, s, LabelsOf(c, events), id)
    decreases |events|
  {
    if events != [] {
      var e := events[0];
      Simulated(c, s, e);
      var rest := LabelsOf(C.Next(c, e), events[1..]);
      match LabelOf(c, e) {
        case None =>
          CountsAgree(C.Next(c, e), s, events[1..], d, id);
          SilentAgrees(c, events, s, rest, id);
          assert LabelsOf(c, events) == rest;
        case Some(l) =>
          Preservation.NextKeepsInv(s, l);
          CountsAgree(C.Next(c, e), P.Next(s, l), events[1..], d, id);
          if e.Step? { SameOutcome(c, s, e); }
          LoudAgrees(c, events, s, l, rest, id);
          assert LabelsOf(c, events) == [l] + rest;
      }
    }
  }

  // ---------------------------------------------------------------- retries and dead letters

  function FailsOf(s: P.State, id: Id): nat {
    if id in s.tokens then s.tokens[id].fails else 0
  }

  lemma RunCountsFailure(s: P.State, i: Id, o: Oracle, out: Outcome, id: Id)
    requires Preservation.CanRun(s, i, o) && (out.effect.Spawn? ==> out.effect.m.id !in s.tokens)
    ensures FailsOf(P.RunWith(s, i, o, out), id) == FailsOf(s, id) + if i == id && Fails(out) then 1 else 0
  {
  }

  lemma StepCountsFailure(s: P.State, l: P.Label, id: Id)
    requires Inv(s) && P.Enabled(s, l)
    ensures FailsOf(P.Next(s, l), id)
         == FailsOf(s, id) + if l.Run? && l.id == id && Fails(P.Advance(s, id, l.oracle)) then 1 else 0
  {
    if l.Run? {
      SpawnsNew(s, l.id, l.oracle);
      RunCountsFailure(s, l.id, l.oracle, P.Advance(s, l.id, l.oracle), id);
    } else {
      OtherCountsNothing(s, l, id);
    }
  }

  lemma OtherCountsNothing(s: P.State, l: P.Label, id: Id)
    requires Allocated(s) && P.Enabled(s, l) && !l.Run?
    ensures FailsOf(P.Next(s, l), id) == FailsOf(s, id)
  {
    if l.Submit? { SubmitFailsNothing(s, PlanOf(l.canvas), id); }
  }

  lemma SubmitFailsNothing(s: P.State, p: Plan, id: Id)
    requires Allocated(s)
    ensures FailsOf(P.SubmitPlan(s, p), id) == FailsOf(s, id)
  {
  }

  lemma {:induction false} FailCountIs(s: P.State, labels: seq<P.Label>, t: P.State, id: Id)
    requires Inv(s) && P.Leads(s, labels, t)
    ensures FailsOf(t, id) == FailsOf(s, id) + FailCount(s, labels, id)
    decreases |labels|
  {
    if labels != [] {
      StepCountsFailure(s, labels[0], id);
      Preservation.NextKeepsInv(s, labels[0]);
      FailCountIs(P.Next(s, labels[0]), labels[1..], t, id);
    }
  }

  /** The retry theorem.  On every run, a queued message is Pending if it never failed and
      Retry otherwise, has failed exactly `retries <= max_retries` times, and a dead letter
      is marked so and has failed exactly `max_retries + 1` times; each sits under its own
      queue's name. */
  lemma RetriesExact(c: C.Cluster, events: seq<C.Event>, d: C.Cluster, q: string, i: nat)
    requires C.Init(c) && C.Leads(c, events, d)
    ensures q in d.broker.queues && i < |d.broker.queues[q]| ==>
      var m := d.broker.queues[q][i];
      && m.queue == q && m.retries <= m.maxRetries
      && m.state == (if m.retries == 0 then Pending else Retry)
      && Failures(c, events, m.id) == m.retries
    ensures q in d.broker.dead && i < |d.broker.dead[q]| ==>
      var m := d.broker.dead[q][i];
      && m.queue == q && m.retries == m.maxRetries && m.state == DeadLettered
      && Failures(c, events, m.id) == m.maxRetries + 1
  {
    var t := Reached(c, events, d);
    StartRefines(c);
    if q in d.broker.queues && i < |d.broker.queues[q]| {
      FailsAt(c, events, d, t, AtQueue(q, i), d.broker.queues[q][i].id);
    }
    if q in d.broker.dead && i < |d.broker.dead[q]| {
      FailsAt(c, events, d, t, AtDlq(q, i), d.broker.dead[q][i].id);
    }
  }

  lemma FailsAt(c: C.Cluster, events: seq<C.Event>, d: C.Cluster, t: P.State, p: Place, id: Id)
    requires Refines(c, Start(c)) && Inv(Start(c)) && C.Leads(c, events, d)
    requires P.Leads(Start(c), LabelsOf(c, events), t) && Refines(d, t) && Inv(t) && Sits(d, p, id)
    ensures id in t.tokens && Failures(c, events, id) == t.tokens[id].fails && LifeOk(t.tokens[id], t.clock)
    ensures p.AtQueue? ==> t.tokens[id].loc.Queued? && t.tokens[id].msg == d.broker.queues[p.q][p.i]
    ensures p.AtDlq? ==> t.tokens[id].loc.Dead? && t.tokens[id].msg == d.broker.dead[p.q][p.i]
    ensures p.AtQueue? || p.AtDlq? ==> t.tokens[id].msg.queue == p.q
  {
    SitsWhere(d, t, p, id);
    FailuresOf(c, events, d, t, id);
    assert TokenOk(t, id);
  }

  lemma FailuresOf(c: C.Cluster, events: seq<C.Event>, d: C.Cluster, t: P.State, id: Id)
    requires Refines(c, Start(c)) && Inv(Start(c)) && C.Leads(c, events, d) && P.Leads(Start(c), LabelsOf(c, events), t)
    ensures Failures(c, events, id) == FailsOf(t, id)
  {
    FailCountIs(Start(c), LabelsOf(c, events), t, id);
    CountsAgree(c, Start(c), events, d, id);
  }

  /** No handler is called before the message's eta. */
  lemma NeverBeforeEta(c: C.Cluster, events: seq<C.Event>, d: C.Cluster, j: nat)
    requires C.Init(c) && C.Leads(c, events, d) && j in d.jobs && d.jobs[j].x.pc.Dispatch?
    ensures d.jobs[j].x.msg.eta.Some? ==> d.jobs[j].x.msg.eta.value <= d.clock
  {
    var t := Reached(c, events, d);
    SitsWhere(d, t, AtJob(j), d.jobs[j].x.msg.id);
    DueAtDispatch(t, d.jobs[j].x.msg.id);
  }

  lemma DueAtDispatch(t: P.State, id: Id)
    requires TokensOk(t) && id in t.tokens && t.tokens[id].loc.Running? && t.tokens[id].loc.pc.Dispatch?
    ensures Due(t.tokens[id].msg, t.clock)
  {
    assert TokenOk(t, id);
  }

  /** On every run, handlers are called at most once for each `max_retries + 1` submitted. */
  lemma CallsBounded(c: C.Cluster, events: seq<C.Event>, d: C.Cluster)
    requires C.Init(c) && C.Leads(c, events, d)
    ensures Calls(c, events) <= Allowed(events)
  {
    StartRefines(c);
    var t := Reached(c, events, d);
    CountsAgree(c, Start(c), events, d, 0);
    Budget.RunsAreBounded(Start(c), LabelsOf(c, events), t);
  }

  // ---------------------------------------------------------------- chords

  /** The group and the callback of a workflow stay what they were submitted as. */
  ghost predicate SameTeam(s: P.State, s': P.State, f: Id) {
    && f in s.flows && s.flows[f].TeamFlow? && f in s'.flows && s'.flows[f].TeamFlow?
    && s'.flows[f].sigs == s.flows[f].sigs && s'.flows[f].cb == s.flows[f].cb
  }

  lemma TeamStays(s: P.State, l: P.Label, f: Id)
    requires Allocated(s) && P.Enabled(s, l) && f in s.flows && s.flows[f].TeamFlow?
    ensures SameTeam(s, P.Next(s, l), f)
  {
    assert f < s.nextId;
    if l.Run? { RunKeepsTeam(s, l.id, l.oracle, P.Advance(s, l.id, l.oracle), f); }
  }

  lemma RunKeepsTeam(s: P.State, id: Id, o: Oracle, out: Outcome, f: Id)
    requires Preservation.CanRun(s, id, o) && f in s.flows && s.flows[f].TeamFlow?
    ensures SameTeam(s, P.RunWith(s, id, o, out), f)
  {
  }

  lemma {:induction false} TeamStaysAlong(s: P.State, labels: seq<P.Label>, t: P.State, f: Id)
    requires Inv(s) && P.Leads(s, labels, t) && f in s.flows && s.flows[f].TeamFlow?
    ensures SameTeam(s, t, f)
    decreases |labels|
  {
    if labels != [] {
      TeamStays(s, labels[0], f);
      Preservation.NextKeepsInv(s, labels[0]);
      TeamStaysAlong(P.Next(s, labels[0]), labels[1..], t, f);
    }
  }

  /** Some execution has counted the last member of `g` and not yet enqueued its callback. */
  predicate Firing(d: C.Cluster, g: Id) {
    exists j <- d.jobs :: d.jobs[j].x.msg.groupId == Some(g) && (d.jobs[j].x.pc.Read? || d.jobs[j].x.pc.Fire?)
  }

  predicate MemberCalls(t: P.State, f: Id)
    requires f in t.flows
  {
    exists id <- t.flows[f].ids :: id in t.tokens && StageOf(t.tokens[id].loc).Calling?
  }

  lemma JobOfCalling(d: C.Cluster, t: P.State, f: Id, id: Id)
    requires Refines(d, t) && Preservation.Known(t, id) && StageOf(t.tokens[id].loc).Calling?
    requires t.owner[id].Member? && t.owner[id].flow == f
    ensures Firing(d, f)
  {
    var e := t.tokens[id].loc.exec;
    assert d.jobs[e].x.msg.groupId == Some(f);
  }

  lemma CallingOfJob(d: C.Cluster, t: P.State, f: Id, j: nat)
    requires Refines(d, t) && j in d.jobs && d.jobs[j].x.msg.groupId == Some(f)
    requires d.jobs[j].x.pc.Read? || d.jobs[j].x.pc.Fire?
    requires Preservation.Known(t, d.jobs[j].x.msg.id) && f in t.flows
    ensures MemberCalls(t, f)
  {
    var id := d.jobs[j].x.msg.id;
    assert JobsHold(d.jobs, d.nextJob, t.tokens);
    CallingMember(t, f, id);
  }

  lemma CallingMember(t: P.State, f: Id, id: Id)
    requires Preservation.Known(t, id) && f in t.flows && t.tokens[id].msg.groupId == Some(f)
    requires t.tokens[id].loc.Running? && (t.tokens[id].loc.pc.Read? || t.tokens[id].loc.pc.Fire?)
    ensures MemberCalls(t, f)
  {
    assert id in t.flows[f].ids && StageOf(t.tokens[id].loc).Calling?;
  }

  lemma FiringIsCalling(d: C.Cluster, t: P.State, f: Id)
    requires Refines(d, t) && Inv(t) && f in t.flows && t.flows[f].TeamFlow?
    ensures Firing(d, f) <==> MemberCalls(t, f)
  {
    if Firing(d, f) {
      var j :| j in d.jobs && d.jobs[j].x.msg.groupId == Some(f) && (d.jobs[j].x.pc.Read? || d.jobs[j].x.pc.Fire?);
      Preservation.Identify(t, d.jobs[j].x.msg.id);
      CallingOfJob(d, t, f, j);
    }
    if MemberCalls(t, f) {
      var id :| id in t.flows[f].ids && id in t.tokens && StageOf(t.tokens[id].loc).Calling?;
      OwnerOfMember(t, f, id);
      Preservation.Identify(t, id);
      JobOfCalling(d, t, f, id);
    }
  }

  lemma OwnerOfMember(t: P.State, f: Id, id: Id)
    requires FlowsOk(t) && f in t.flows && t.flows[f].TeamFlow? && id in t.flows[f].ids
    ensures id in t.owner && t.owner[id].Member? && t.owner[id].flow == f
  {
    assert FlowOk(t, f);
    var i :| 0 <= i < |t.flows[f].ids| && t.flows[f].ids[i] == id;
    assert MemberOk(t, f, i);
  }

  /** The callback is out exactly when all members are counted and none is busy firing it. */
  lemma FiredIffCounted(t: P.State, f: Id)
    requires t.hasBackend && f in t.flows && t.flows[f].TeamFlow? && t.flows[f].sigs != [] && TeamOk(t, f)
    ensures Fired(t, f) <==> t.backend.groups[f].completed == |t.flows[f].sigs| && !MemberCalls(t, f)
  {
    var fl := t.flows[f];
    if |fl.done| == |fl.sigs| {
      var last := |fl.done| - 1;
      assert CountedOk(t, f, last);
      forall id | id in fl.ids && id in t.tokens && StageOf(t.tokens[id].loc).Calling? ensures id == fl.done[last] {
        var i :| 0 <= i < |fl.ids| && fl.ids[i] == id;
        assert MemberOk(t, f, i);
      }
      assert fl.done[last] in fl.ids;
    }
  }

  /** Workflow `f` is a chord of `sigs` none of which has been sent yet. */
  ghost predicate NewChord(s: P.State, f: Id, sigs: seq<Signature>, cb: Signature) {
    && f in s.flows && s.flows[f] == P.TeamFlow(Some(f), sigs, [], Some(IntoMessage(cb, f + 1)), [])
    && f + 1 in s.owner && s.owner[f + 1] == P.Callback(f) && f + 1 !in s.tokens
  }

  lemma ChordOpened(s: P.State, sigs: seq<Signature>, cb: Signature)
    requires NewIds(s)
    ensures NewChord(P.SubmitPlan(s, Team(sigs, Some(cb))), s.nextId, sigs, cb)
  {
  }

  /** A cluster that takes in a canvas has a lifecycle state behind it, before and after. */
  lemma TakenIn(c: C.Cluster, before: seq<C.Event>, m: C.Cluster, canvas: Canvas, m': C.Cluster)
    returns (r: P.State, s: P.State)
    requires C.Init(c) && C.Leads(c, before, m) && C.TakesIn(m, canvas, m')
    ensures Inv(r) && NewIds(r) && r.nextId == m.nextId && r.hasBackend == m.hasBackend
    ensures s == P.SubmitPlan(r, PlanOf(canvas)) && Refines(m', s) && Inv(s)
  {
    r := Reached(c, before, m);
    Simulated(m, r, C.Submit(canvas));
    Preservation.NextKeepsInv(r, P.Submit(canvas));
    FreshIds(r);
    s := P.Next(r, P.Submit(canvas));
  }

  lemma ChordRuns(s: P.State, labels: seq<P.Label>, t: P.State, f: Id, id: Id)
    requires Inv(s) && Inv(t) && s.hasBackend && P.Leads(s, labels, t)
    requires f in s.flows && s.flows[f].TeamFlow? && s.flows[f].sigs != [] && s.flows[f].cb.Some?
    requires s.flows[f].cb.value.id == id && id in s.owner && s.owner[id].Callback? && id !in s.tokens
    ensures f in t.flows && SameTeam(s, t, f) && f in t.backend.groups && t.backend.groups[f].total == |s.flows[f].sigs|
    ensures Chords.FireCount(s, labels, id)
      == if t.backend.groups[f].completed == |s.flows[f].sigs| && !MemberCalls(t, f) then 1 else 0
  {
    TeamStaysAlong(s, labels, t, f);
    Chords.OwnersStayAlong(s, labels, t, id);
    Chords.FireCountIs(s, labels, t, id);
    Chords.BackendFixed(s, labels, t);
    assert FlowOk(t, f);
    Chords.CallbackPresence(t, f);
    FiredIffCounted(t, f);
  }

  /** The chord theorem, on a cluster.  Whatever ran before, and however the members'
      executions on any number of workers interleave with everything else afterwards: the
      callback of a chord of n >= 1 members has been enqueued once if n members have been
      counted and none is still busy firing it, and not at all otherwise. */
  lemma ChordFiresOnce(c: C.Cluster, before: seq<C.Event>, m: C.Cluster, canvas: Canvas, m': C.Cluster,
                       sigs: seq<Signature>, cb: Signature, after: seq<C.Event>, d: C.Cluster)
    requires C.Init(c) && c.hasBackend && C.Leads(c, before, m) && C.TakesIn(m, canvas, m')
    requires ReadsChord(canvas, sigs, cb) && sigs != []
    requires C.Leads(m', after, d)
    ensures m.nextId in d.backend.groups && d.backend.groups[m.nextId].total == |sigs|
    ensures Pushes(m', after, m.nextId + 1)
      == if d.backend.groups[m.nextId].completed == |sigs| && !Firing(d, m.nextId) then 1 else 0
  {
    HasBackendStays(c, before, m);
    var s := AfterSubmit(c, before, m, canvas, m', sigs, cb);
    ChordFrom(m', s, after, d, m.nextId, m.nextId + 1);
  }

  /** The lifecycle state behind a cluster that has just taken in a chord. */
  lemma AfterSubmit(c: C.Cluster, before: seq<C.Event>, m: C.Cluster, canvas: Canvas, m': C.Cluster,
                    sigs: seq<Signature>, cb: Signature)
    returns (s: P.State)
    requires C.Init(c) && C.Leads(c, before, m) && C.TakesIn(m, canvas, m') && ReadsChord(canvas, sigs, cb)
    ensures Refines(m', s) && Inv(s) && s.hasBackend == m.hasBackend && NewChord(s, m.nextId, sigs, cb)
  {
    var r;
    r, s := TakenIn(c, before, m, canvas, m');
    PlanReads(canvas, sigs, cb);
    ChordOpened(r, sigs, cb);
    SameBackend(r, sigs, cb);
  }

  lemma SameBackend(s: P.State, sigs: seq<Signature>, cb: Signature)
    ensures P.SubmitPlan(s, Team(sigs, Some(cb))).hasBackend == s.hasBackend
  {
  }

  lemma ChordFrom(m: C.Cluster, s: P.State, after: seq<C.Event>, d: C.Cluster, f: Id, id: Id)
    requires Refines(m, s) && Inv(s) && s.hasBackend && C.Leads(m, after, d)
    requires f in s.flows && s.flows[f].TeamFlow? && s.flows[f].sigs != [] && s.flows[f].cb.Some?
    requires s.flows[f].cb.value.id == id && id in s.owner && s.owner[id].Callback? && id !in s.tokens
    ensures f in d.backend.groups && d.backend.groups[f].total == |s.flows[f].sigs|
    ensures Pushes(m, after, id)
      == if d.backend.groups[f].completed == |s.flows[f].sigs| && !Firing(d, f) then 1 else 0
  {
    var t := RunsRefine(m, s, after, d);
    CountsAgree(m, s, after, d, id);
    ChordRuns(s, LabelsOf(m, after), t, f, id);
    FiringIsCalling(d, t, f);
  }

  /** The message with id `id` that sits at `p`. */
  function Held(d: C.Cluster, p: Place, id: Id): Message
    requires Sits(d, p, id)
  {
    match p
    case AtQueue(q, i) => d.broker.queues[q][i]
    case AtDlq(q, i) => d.broker.dead[q][i]
    case AtWorker(w) => d.workers[w].pc.m
    case AtJob(e) => d.jobs[e].x.msg
  }

  lemma HeldIsToken(d: C.Cluster, t: P.State, p: Place, id: Id)
    requires Refines(d, t) && Inv(t) && Sits(d, p, id)
    ensures id in t.tokens && Held(d, p, id) == t.tokens[id].msg
  {
  }

  /** `x` is the callback `cb` as submitted, in no workflow, with the results of all `n` members
      added to its headers. */
  predicate Completes(x: Message, cb: Signature, results: seq<Value>, n: nat) {
    && Instantiates(x, cb, map[GroupResultsKey := GroupResults(results)]) && |results| == n
    && x.correlationId.None? && x.groupId.None? && x.groupTotal.None? && x.chordCallback.None?
  }

  lemma CarriedByToken(t: P.State, f: Id, cb: Signature, n: nat, id: Id)
    requires Inv(t) && f in t.flows && t.flows[f].TeamFlow? && |t.flows[f].sigs| == n && id in t.tokens
    requires t.flows[f].cb == Some(IntoMessage(cb, id))
    ensures f in t.backend.groups && Completes(t.tokens[id].msg, cb, t.backend.groups[f].results, n)
  {
    assert FlowOk(t, f) && CallbackOk(t, f);
    NormCompletes(t.tokens[id].msg, cb, id, t.backend.groups[f].results);
  }

  lemma NormCompletes(x: Message, cb: Signature, id: Id, results: seq<Value>)
    requires Norm(x) == WithResults(IntoMessage(cb, id), results) && x.chordCallback.None?
    ensures Completes(x, cb, results, |results|)
  {
    SameWhenNormal(x);
  }

  /** What an execution leaves alone. */
  lemma SameWhenNormal(x: Message)
    ensures var y := Norm(x);
      && y.taskName == x.taskName && y.queue == x.queue && y.payload == x.payload && y.maxRetries == x.maxRetries
      && y.eta == x.eta && y.priority == x.priority && y.dedupKey == x.dedupKey && y.headers == x.headers
      && y.correlationId == x.correlationId && y.groupId == x.groupId && y.groupTotal == x.groupTotal
  {
  }

  /** Wherever a chord's callback is found - queued, taken, running or dead-lettered - it carries
      the results of all n members, and is otherwise what was submitted. */
  lemma CallbackCarriesResults(c: C.Cluster, before: seq<C.Event>, m: C.Cluster, canvas: Canvas, m': C.Cluster,
                               sigs: seq<Signature>, cb: Signature, after: seq<C.Event>, d: C.Cluster, p: Place)
    requires C.Init(c) && C.Leads(c, before, m) && C.TakesIn(m, canvas, m')
    requires ReadsChord(canvas, sigs, cb)
    requires C.Leads(m', after, d) && Sits(d, p, m.nextId + 1)
    ensures m.nextId in d.backend.groups
    ensures Completes(Held(d, p, m.nextId + 1), cb, d.backend.groups[m.nextId].results, |sigs|)
  {
    var s := AfterSubmit(c, before, m, canvas, m', sigs, cb);
    CarriedFrom(m', s, after, d, p, m.nextId, cb, m.nextId + 1);
  }

  lemma CarriedFrom(m: C.Cluster, s: P.State, after: seq<C.Event>, d: C.Cluster, p: Place, f: Id, cb: Signature, id: Id)
    requires Refines(m, s) && Inv(s) && C.Leads(m, after, d) && Sits(d, p, id)
    requires f in s.flows && s.flows[f].TeamFlow? && s.flows[f].cb == Some(IntoMessage(cb, id))
    ensures f in d.backend.groups
    ensures Completes(Held(d, p, id), cb, d.backend.groups[f].results, |s.flows[f].sigs|)
  {
    var t := RunsRefine(m, s, after, d);
    TeamStaysAlong(s, LabelsOf(m, after), t, f);
    HeldIsToken(d, t, p, id);
    CarriedByToken(t, f, cb, |s.flows[f].sigs|, id);
  }

  lemma HasBackendStays(c: C.Cluster, events: seq<C.Event>, d: C.Cluster)
    requires C.Leads(c, events, d)
    ensures d.hasBackend == c.hasBackend
    decreases |events|
  {
    if events != [] { HasBackendStays(C.Next(c, events[0]), events[1..], d); }
  }

  // ---------------------------------------------------------------- chains

  /** A handler returned `value` for `msg`. */
  datatype Win = Win(msg: Message, value: Value)

  /** The successful handler calls of the workflow with correlation id `f`, in order. */
  function Wins(c: C.Cluster, events: seq<C.Event>, f: Id): seq<Win>
    decreases |events|
  {
    if events == [] || !C.Enabled(c, events[0]) then []
    else (if Wins1(c, events[0], f) then [Win(c.jobs[events[0].job].x.msg, events[0].oracle.handler.value)] else [])
         + Wins(C.Next(c, events[0]), events[1..], f)
  }

  predicate Wins1(c: C.Cluster, e: C.Event, f: Id)
    requires C.Enabled(c, e)
  {
    e.Step? && c.jobs[e.job].x.pc.Dispatch? && e.oracle.handler.Some?
    && c.jobs[e.job].x.msg.correlationId == Some(f)
  }

  /** The message runs `sig`, on the last of the results so far. */
  predicate Feeds(sig: Signature, outputs: seq<Value>, m: Message) {
    && m.taskName == sig.taskName && m.payload == sig.payload
    && (outputs != [] ==>
          ChainInputKey in m.headers && m.headers[ChainInputKey] == ChainInput(outputs[|outputs| - 1]))
  }

  /** Having produced `outputs`, the leaves succeed one after the other, each fed the last result. */
  predicate InOrder(sigs: seq<Signature>, outputs: seq<Value>, wins: seq<Win>)
    decreases |wins|
  {
    wins == [] ||
    (|outputs| < |sigs| && Feeds(sigs[|outputs|], outputs, wins[0].msg)
     && InOrder(sigs, outputs + [wins[0].value], wins[1..]))
  }

  lemma LineOfCorrelation(s: P.State, id: Id, f: Id)
    requires Inv(s) && id in s.tokens && s.tokens[id].msg.correlationId == Some(f)
    requires f in s.flows && s.flows[f].LineFlow?
    ensures id in s.owner && s.owner[id].Step? && s.owner[id].flow == f
  {
    Preservation.Identify(s, id);
    assert Norm(s.tokens[id].msg).correlationId == s.tokens[id].msg.correlationId;
    CallbackHasNoCorrelation(s, id);
  }

  lemma CallbackHasNoCorrelation(s: P.State, id: Id)
    requires Preservation.Known(s, id)
    ensures s.owner[id].Callback? ==> s.tokens[id].msg.correlationId == None
  {
    assert Norm(s.tokens[id].msg).correlationId == s.tokens[id].msg.correlationId;
  }

  lemma CorrelationOfLine(s: P.State, id: Id, f: Id)
    requires Inv(s) && id in s.tokens && id in s.owner && s.owner[id].Step? && s.owner[id].flow == f
    requires f in s.flows && s.flows[f].corr == Some(f)
    ensures s.tokens[id].msg.correlationId == Some(f)
  {
    Preservation.Identify(s, id);
    assert Norm(s.tokens[id].msg).correlationId == s.tokens[id].msg.correlationId;
  }

  ghost predicate IsLine(s: P.State, f: Id, sigs: seq<Signature>) {
    f in s.flows && s.flows[f].LineFlow? && s.flows[f].sigs == sigs && s.flows[f].corr == Some(f)
  }

  lemma LineStays(s: P.State, l: P.Label, f: Id, sigs: seq<Signature>)
    requires Allocated(s) && P.Enabled(s, l) && IsLine(s, f, sigs)
    ensures IsLine(P.Next(s, l), f, sigs)
  {
    assert f < s.nextId;
    if l.Run? { RunKeepsLine(s, l.id, l.oracle, P.Advance(s, l.id, l.oracle), f, sigs); }
  }

  lemma RunKeepsLine(s: P.State, id: Id, o: Oracle, out: Outcome, f: Id, sigs: seq<Signature>)
    requires Preservation.CanRun(s, id, o) && IsLine(s, f, sigs)
    ensures IsLine(P.RunWith(s, id, o, out), f, sigs)
  {
  }

  /** A win of the chain is its next leaf's; any other event leaves its outputs alone. */
  ghost predicate WinsNext(c: C.Cluster, s: P.State, e: C.Event, s': P.State, f: Id, sigs: seq<Signature>)
    requires C.Enabled(c, e) && IsLine(s, f, sigs)
  {
    var outs := s.flows[f].outputs;
    if Wins1(c, e, f)
    then |outs| < |sigs| && Feeds(sigs[|outs|], outs, c.jobs[e.job].x.msg)
      && Chains.Outputs(s', f) == outs + [e.oracle.handler.value]
    else Chains.Outputs(s', f) == outs
  }

  lemma WinIsNext(c: C.Cluster, s: P.State, e: C.Event, l: P.Label, f: Id, sigs: seq<Signature>)
    requires Refines(c, s) && Inv(s) && C.Enabled(c, e) && LabelOf(c, e) == Some(l) && P.Enabled(s, l)
    requires IsLine(s, f, sigs)
    ensures WinsNext(c, s, e, P.Next(s, l), f, sigs)
  {
    Chains.SuccessRecorded(s, l, f);
    if e.Step? {
      JobIsToken(c, s, e);
      WinnerIsStep(s, l, f, sigs);
    }
    RecordedWin(c, s, e, l, P.Next(s, l), f, sigs);
  }

  lemma RecordedWin(c: C.Cluster, s: P.State, e: C.Event, l: P.Label, s': P.State, f: Id, sigs: seq<Signature>)
    requires C.Enabled(c, e) && LabelOf(c, e) == Some(l) && P.Enabled(s, l) && IsLine(s, f, sigs)
    requires Chains.Recorded(s, l, s', f)
    requires e.Step? ==> s.tokens[l.id].loc.Running? && P.ExecOf(s.tokens[l.id]) == c.jobs[e.job].x
    requires e.Step? ==> RunsLine(s, l.id, f, sigs)
    ensures WinsNext(c, s, e, s', f, sigs)
  {
  }

  lemma JobIsToken(c: C.Cluster, s: P.State, e: C.Event)
    requires Refines(c, s) && C.Enabled(c, e) && e.Step?
    ensures c.jobs[e.job].x.msg.id in s.tokens
    ensures var t := s.tokens[c.jobs[e.job].x.msg.id]; t.loc.Running? && P.ExecOf(t) == c.jobs[e.job].x
  {
  }

  /** A message with the chain's correlation id is one of its steps; at its handler, it is the
      next one, fed the last result. */
  ghost predicate RunsLine(s: P.State, id: Id, f: Id, sigs: seq<Signature>)
    requires id in s.tokens && s.tokens[id].loc.Running? && f in s.flows && s.flows[f].LineFlow?
  {
    && id in s.owner
    && (s.tokens[id].msg.correlationId == Some(f) <==> s.owner[id].Step? && s.owner[id].flow == f)
    && (s.owner[id].Step? && s.owner[id].flow == f && s.tokens[id].loc.pc.Dispatch? ==>
      |s.flows[f].outputs| < |sigs| && Feeds(sigs[|s.flows[f].outputs|], s.flows[f].outputs, s.tokens[id].msg))
  }

  lemma WinnerIsStep(s: P.State, l: P.Label, f: Id, sigs: seq<Signature>)
    requires Inv(s) && l.Run? && P.Enabled(s, l) && IsLine(s, f, sigs) && s.tokens[l.id].loc.Running?
    ensures RunsLine(s, l.id, f, sigs)
  {
    assert TokenOk(s, l.id);
    if s.tokens[l.id].msg.correlationId == Some(f) { LineOfCorrelation(s, l.id, f); }
    if s.owner[l.id].Step? && s.owner[l.id].flow == f {
      CorrelationOfLine(s, l.id, f);
      if s.tokens[l.id].loc.pc.Dispatch? { Chains.StepSeesPrevious(s, l.id, f, s.owner[l.id].index); }
    }
  }

  lemma {:induction false} WinsFrom(c: C.Cluster, s: P.State, events: seq<C.Event>, d: C.Cluster, f: Id,
                                    sigs: seq<Signature>)
    requires Refines(c, s) && Inv(s) && C.Leads(c, events, d) && IsLine(s, f, sigs)
    ensures InOrder(sigs, s.flows[f].outputs, Wins(c, events, f))
    decreases |events|
  {
    if events != [] {
      var e := events[0];
      Simulated(c, s, e);
      match LabelOf(c, e) {
        case None => WinsFrom(C.Next(c, e), s, events[1..], d, f, sigs);
        case Some(l) =>
          Preservation.NextKeepsInv(s, l);
          LineStays(s, l, f, sigs);
          WinIsNext(c, s, e, l, f, sigs);
          WinsFrom(C.Next(c, e), P.Next(s, l), events[1..], d, f, sigs);
      }
      WinsCons(c, events, f, sigs, s.flows[f].outputs);
    }
  }

  lemma WinsCons(c: C.Cluster, events: seq<C.Event>, f: Id, sigs: seq<Signature>, outs: seq<Value>)
    requires events != [] && C.Enabled(c, events[0])
    requires if Wins1(c, events[0], f)
      then |outs| < |sigs| && Feeds(sigs[|outs|], outs, c.jobs[events[0].job].x.msg)
        && InOrder(sigs, outs + [events[0].oracle.handler.value], Wins(C.Next(c, events[0]), events[1..], f))
      else InOrder(sigs, outs, Wins(C.Next(c, events[0]), events[1..], f))
    ensures InOrder(sigs, outs, Wins(c, events, f))
  {
    var rest := Wins(C.Next(c, events[0]), events[1..], f);
    if Wins1(c, events[0], f) {
      assert Wins(c, events, f)[1..] == rest;
    } else {
      assert Wins(c, events, f) == rest;
    }
  }

  /** The chain theorem, on a cluster.  Whatever else runs, the successful handler calls of a
      submitted chain are those of a prefix of its leaves, in order, each once, each fed the
      result before it. */
  lemma ChainRunsInOrder(c: C.Cluster, before: seq<C.Event>, m: C.Cluster, canvas: Canvas, m': C.Cluster,
                         sigs: seq<Signature>, after: seq<C.Event>, d: C.Cluster)
    requires C.Init(c) && C.Leads(c, before, m) && C.TakesIn(m, canvas, m')
    requires ReadsChain(canvas, sigs)
    requires C.Leads(m', after, d)
    ensures InOrder(sigs, [], Wins(m', after, m.nextId))
  {
    var s := AfterLine(c, before, m, canvas, m', sigs);
    WinsFrom(m', s, after, d, m.nextId, sigs);
  }

  /** The lifecycle state behind a cluster that has just taken in a chain. */
  lemma AfterLine(c: C.Cluster, before: seq<C.Event>, m: C.Cluster, canvas: Canvas, m': C.Cluster, sigs: seq<Signature>)
    returns (s: P.State)
    requires C.Init(c) && C.Leads(c, before, m) && C.TakesIn(m, canvas, m')
    requires ReadsChain(canvas, sigs)
    ensures Refines(m', s) && Inv(s) && s.hasBackend == m.hasBackend && NewLine(s, m.nextId, sigs)
  {
    var r;
    r, s := TakenIn(c, before, m, canvas, m');
    PlanReads(canvas, sigs, sigs[0]);
    LineOpened(r, sigs);
  }

  lemma LineOpened(s: P.State, sigs: seq<Signature>)
    requires sigs != []
    ensures NewLine(P.SubmitPlan(s, Line(sigs)), s.nextId, sigs)
    ensures P.SubmitPlan(s, Line(sigs)).hasBackend == s.hasBackend
  {
  }

  /** Workflow `f` is a chain of `sigs` whose first message has just been sent. */
  ghost predicate NewLine(s: P.State, f: Id, sigs: seq<Signature>) {
    && IsLine(s, f, sigs) && s.flows[f].outputs == [] && s.flows[f].ids == [f + 1]
    && f + 1 in s.tokens && s.tokens[f + 1].loc.Queued? && s.tokens[f + 1].fails == 0
  }
}
