/** Attempts on every run of a cluster: a handler is called only past the `before` hooks, an attempt
    fails exactly when a hook refuses or the handler does, and failures sleep longer and longer
    (kojin-core/src/worker.rs:247-270, 412-428). */
module Attempts {
  import opened Messages
  import opened Workflows
  import opened Execution
  import opened Invariants
  import opened Refinement
  import opened Guarantees
  import opened Outcomes
  import opened Powers
  import opened Backoff
  import Results
  import C = Cluster
  import P = Protocol
  import Preservation
  import Permits

  // ---------------------------------------------------------------- hooks before handlers

  /** The hooks of execution `j` have all passed. */
  predicate PassesHooks(c: C.Cluster, e: C.Event, j: nat)
    requires C.Enabled(c, e)
  {
    e.Step? && e.job == j && c.jobs[j].x.pc.Before? && e.oracle.hooksPass
  }

  /** Execution `j` calls its handler. */
  predicate CallsHandler(c: C.Cluster, e: C.Event, j: nat)
    requires C.Enabled(c, e)
  {
    e.Step? && e.job == j && c.jobs[j].x.pc.Dispatch?
  }

  function HooksPassed(c: C.Cluster, events: seq<C.Event>, j: nat): nat
    decreases |events|
  {
    if events == [] || !C.Enabled(c, events[0]) then 0
    else (if PassesHooks(c, events[0], j) then 1 else 0) + HooksPassed(C.Next(c, events[0]), events[1..], j)
  }

  function HandlerCalls(c: C.Cluster, events: seq<C.Event>, j: nat): nat
    decreases |events|
  {
    if events == [] || !C.Enabled(c, events[0]) then 0
    else (if CallsHandler(c, events[0], j) then 1 else 0) + HandlerCalls(C.Next(c, events[0]), events[1..], j)
  }

  function AtHandler(c: C.Cluster, j: nat): nat {
    if j in c.jobs && c.jobs[j].x.pc.Dispatch? then 1 else 0
  }

  /** The hooks of `j` have yet to be called. */
  function HooksAhead(c: C.Cluster, j: nat): nat {
    if j >= c.nextJob || (j in c.jobs && (c.jobs[j].x.pc.Guard? || c.jobs[j].x.pc.Before?)) then 1 else 0
  }

  ghost predicate Gates(c: C.Cluster, e: C.Event, c': C.Cluster, j: nat)
    requires C.Enabled(c, e)
  {
    && AtHandler(c', j) + (if CallsHandler(c, e, j) then 1 else 0)
         == AtHandler(c, j) + (if PassesHooks(c, e, j) then 1 else 0)
    && HooksAhead(c', j) + (if PassesHooks(c, e, j) then 1 else 0) <= HooksAhead(c, j)
  }

  /** Only from the hooks, and only when they pass, does an execution get to its handler. */
  lemma HandlerComesAfterHooks(x: Exec, b: Results.Backend, o: Oracle, newId: Id, hasBackend: bool)
    ensures var out := Resume(x, b, o, newId, hasBackend);
      && (out.next.Some? && out.next.value.pc.Dispatch? <==> x.pc.Before? && o.hooksPass)
      && (out.next.Some? && out.next.value.pc.Before? ==> x.pc.Guard?)
      && !(out.next.Some? && out.next.value.pc.Guard?)
  {
  }

  lemma StepGates(c: C.Cluster, e: C.Event, out: Outcome, j: nat)
    requires C.Enabled(c, e) && e.Step? && e.job < c.nextJob
    requires out.next.Some? && out.next.value.pc.Dispatch? <==> c.jobs[e.job].x.pc.Before? && e.oracle.hooksPass
    requires out.next.Some? && out.next.value.pc.Before? ==> c.jobs[e.job].x.pc.Guard?
    requires !(out.next.Some? && out.next.value.pc.Guard?)
    ensures Gates(c, e, C.RunJobWith(c, e.job, out), j)
  {
  }

  lemma OtherGates(c: C.Cluster, e: C.Event, j: nat)
    requires C.Enabled(c, e) && !e.Step? && c.nextJob !in c.jobs
    ensures Gates(c, e, C.Next(c, e), j)
  {
    if e.Spawn? {
      assert C.Next(c, e).jobs == c.jobs[c.nextJob := C.Job(e.w, Exec(c.workers[e.w].pc.m, Guard))];
    } else {
      OthersRunNothing(c, e);
    }
  }

  lemma OthersRunNothing(c: C.Cluster, e: C.Event)
    requires C.Enabled(c, e) && !e.Step? && !e.Spawn?
    ensures C.Next(c, e).jobs == c.jobs && C.Next(c, e).nextJob == c.nextJob
  {
    if Permits.MovesLoop(e) { Permits.LoopMoved(c, e); } else { Permits.LoopsRest(c, e); }
  }

  lemma EventGates(c: C.Cluster, e: C.Event, j: nat)
    requires Permits.PermitsOk(c) && C.Enabled(c, e)
    ensures Gates(c, e, C.Next(c, e), j)
  {
    if e.Step? {
      HandlerComesAfterHooks(c.jobs[e.job].x, c.backend, e.oracle, c.nextId, c.hasBackend);
      StepGates(c, e, OutcomeOf(c, e), j);
    } else {
      OtherGates(c, e, j);
    }
  }

  lemma {:induction false} GatesAlong(c: C.Cluster, events: seq<C.Event>, d: C.Cluster, j: nat)
    requires Permits.PermitsOk(c) && C.Leads(c, events, d)
    ensures AtHandler(d, j) + HandlerCalls(c, events, j) == AtHandler(c, j) + HooksPassed(c, events, j)
    ensures HooksAhead(d, j) + HooksPassed(c, events, j) <= HooksAhead(c, j)
    decreases |events|
  {
    if events != [] {
      EventGates(c, events[0], j);
      Permits.NextKeepsPermits(c, events[0]);
      GatesAlong(C.Next(c, events[0]), events[1..], d, j);
    }
  }

  /** On every run, and so at each point of it: an execution has called its handler or is about to
      exactly as often as its `before` hooks have all passed, which is once at most. */
  lemma HandlersAreGated(c: C.Cluster, events: seq<C.Event>, d: C.Cluster, j: nat)
    requires C.Init(c) && C.Leads(c, events, d)
    ensures HandlerCalls(c, events, j) + (if j in d.jobs && d.jobs[j].x.pc.Dispatch? then 1 else 0)
         == HooksPassed(c, events, j) <= 1
  {
    Permits.InitConserves(c);
    GatesAlong(c, events, d, j);
  }

  // ---------------------------------------------------------------- what a failure is

  /** A `before` hook refuses message `id`. */
  function Refusals(c: C.Cluster, events: seq<C.Event>, id: Id): nat
    decreases |events|
  {
    if events == [] || !C.Enabled(c, events[0]) then 0
    else (if events[0].Step? && c.jobs[events[0].job].x.msg.id == id && c.jobs[events[0].job].x.pc.Before?
             && !events[0].oracle.hooksPass then 1 else 0)
         + Refusals(C.Next(c, events[0]), events[1..], id)
  }

  /** The handler of message `id` returns an error. */
  function Errors(c: C.Cluster, events: seq<C.Event>, id: Id): nat
    decreases |events|
  {
    if events == [] || !C.Enabled(c, events[0]) then 0
    else (if events[0].Step? && c.jobs[events[0].job].x.msg.id == id && c.jobs[events[0].job].x.pc.Dispatch?
             && events[0].oracle.handler.None? then 1 else 0)
         + Errors(C.Next(c, events[0]), events[1..], id)
  }

  lemma FailsWhen(x: Exec, b: Results.Backend, o: Oracle, newId: Id, hasBackend: bool)
    ensures Fails(Resume(x, b, o, newId, hasBackend))
      <==> (x.pc.Before? && !o.hooksPass) || (x.pc.Dispatch? && o.handler.None?)
  {
  }

  /** On every run, a message's failures are its refusals by hooks and its handler's errors. */
  lemma {:induction false} FailuresAre(c: C.Cluster, events: seq<C.Event>, d: C.Cluster, id: Id)
    requires C.Leads(c, events, d)
    ensures Failures(c, events, id) == Refusals(c, events, id) + Errors(c, events, id)
    decreases |events|
  {
    if events != [] {
      var e := events[0];
      if e.Step? { FailsWhen(c.jobs[e.job].x, c.backend, e.oracle, c.nextId, c.hasBackend); }
      FailuresAre(C.Next(c, e), events[1..], d, id);
    }
  }

  // ---------------------------------------------------------------- how long failures sleep

  /** Seconds that a failed attempt of `m` sleeps, as `HandleFailure` does. */
  function Pause(m: Message): nat {
    if m.retries < m.maxRetries then Min(Pow2(m.retries), 300) else 0
  }

  /** The seconds that the failed attempts of message `id` slept along a run. */
  function Sleeps(c: C.Cluster, events: seq<C.Event>, id: Id): nat
    decreases |events|
  {
    if events == [] || !C.Enabled(c, events[0]) then 0
    else SleepAt(c, events[0], id) + Sleeps(C.Next(c, events[0]), events[1..], id)
  }

  function RetriesOf(s: P.State, id: Id): nat {
    if id in s.tokens then s.tokens[id].msg.retries else 0
  }

  /** What one step sleeps for `id`. */
  function Sleep(s: P.State, l: P.Label, id: Id): nat
    requires P.Enabled(s, l)
  {
    if l.Run? && l.id == id && s.tokens[id].loc.pc.OnError? then Pause(s.tokens[id].msg) else 0
  }

  lemma ResumeSleeps(t: P.Token, b: Results.Backend, o: Oracle, newId: Id, hasBackend: bool)
    requires t.loc.Running?
    ensures Slept(P.Settle(t, Resume(P.ExecOf(t), b, o, newId, hasBackend)).msg.retries)
      == Slept(t.msg.retries) + if t.loc.pc.OnError? then Pause(t.msg) else 0
  {
  }

  lemma RunSleeps(s: P.State, i: Id, o: Oracle, out: Outcome, id: Id)
    requires Preservation.CanRun(s, i, o)
    requires out.effect.Spawn? ==> out.effect.m.id !in s.tokens && out.effect.m.retries == 0
    requires Slept(P.Settle(s.tokens[i], out).msg.retries)
      == Slept(s.tokens[i].msg.retries) + if s.tokens[i].loc.pc.OnError? then Pause(s.tokens[i].msg) else 0
    ensures Slept(RetriesOf(P.RunWith(s, i, o, out), id)) == Slept(RetriesOf(s, id)) + Sleep(s, P.Run(i, o), id)
  {
    assert Slept(0) == 0;
  }

  lemma SpawnedUntried(s: P.State, id: Id, o: Oracle)
    requires Inv(s) && Preservation.CanRun(s, id, o)
    ensures P.Advance(s, id, o).effect.Spawn? ==> P.Advance(s, id, o).effect.m.retries == 0
  {
    Preservation.Identify(s, id);
    if P.Advance(s, id, o).effect.Spawn? { Preservation.SpawnedFresh(s, id, o); }
  }

  lemma StepSleeps(s: P.State, l: P.Label, id: Id)
    requires Inv(s) && P.Enabled(s, l)
    ensures Slept(RetriesOf(P.Next(s, l), id)) == Slept(RetriesOf(s, id)) + Sleep(s, l, id)
  {
    if l.Run? {
      SpawnsNew(s, l.id, l.oracle);
      SpawnedUntried(s, l.id, l.oracle);
      ResumeSleeps(s.tokens[l.id], s.backend, l.oracle, s.nextId, s.hasBackend);
      RunSleeps(s, l.id, l.oracle, P.Advance(s, l.id, l.oracle), id);
    } else if l.Submit? {
      SubmitRetriesNone(s, PlanOf(l.canvas), id);
    } else {
      OtherRetriesNone(s, l, id);
    }
  }

  lemma SubmitRetriesNone(s: P.State, p: Plan, id: Id)
    requires Allocated(s)
    ensures RetriesOf(P.SubmitPlan(s, p), id) == RetriesOf(s, id)
  {
  }

  lemma OtherRetriesNone(s: P.State, l: P.Label, id: Id)
    requires Allocated(s) && P.Enabled(s, l) && !l.Run? && !l.Submit?
    ensures RetriesOf(P.Next(s, l), id) == RetriesOf(s, id)
  {
  }

  /** What one event sleeps for `id`. */
  function SleepAt(c: C.Cluster, e: C.Event, id: Id): nat
    requires C.Enabled(c, e)
  {
    if e.Step? && c.jobs[e.job].x.msg.id == id && c.jobs[e.job].x.pc.OnError? then Pause(c.jobs[e.job].x.msg) else 0
  }

  lemma EventSleeps(c: C.Cluster, s: P.State, e: C.Event, l: P.Label, id: Id)
    requires Refines(c, s) && Inv(s) && C.Enabled(c, e) && LabelOf(c, e) == Some(l) && P.Enabled(s, l)
    ensures Slept(RetriesOf(P.Next(s, l), id)) == Slept(RetriesOf(s, id)) + SleepAt(c, e, id)
  {
    StepSleeps(s, l, id);
    SameSleep(c, s, e, l, id);
  }

  lemma SameSleep(c: C.Cluster, s: P.State, e: C.Event, l: P.Label, id: Id)
    requires Refines(c, s) && C.Enabled(c, e) && LabelOf(c, e) == Some(l) && P.Enabled(s, l)
    ensures Sleep(s, l, id) == SleepAt(c, e, id)
  {
    if e.Step? { JobIsToken(c, s, e); }
  }

  lemma {:induction false} SleepsAlong(c: C.Cluster, s: P.State, events: seq<C.Event>, d: C.Cluster, id: Id)
    returns (t: P.State)
    requires Refines(c, s) && Inv(s) && C.Leads(c, events, d)
    ensures Refines(d, t) && Inv(t) && Slept(RetriesOf(s, id)) + Sleeps(c, events, id) == Slept(RetriesOf(t, id))
    decreases |events|
  {
    t := s;
    if events != [] {
      var e := events[0];
      Simulated(c, s, e);
      match LabelOf(c, e) {
        case None => t := SleepsAlong(C.Next(c, e), s, events[1..], d, id);
        case Some(l) =>
          Preservation.NextKeepsInv(s, l);
          EventSleeps(c, s, e, l, id);
          t := SleepsAlong(C.Next(c, e), P.Next(s, l), events[1..], d, id);
      }
    }
  }

  /** On every run, a message that has been retried r times has slept 2^r - 1 seconds in all up to
      nine retries, and five minutes more for each one after. */
  lemma SleptSoFar(c: C.Cluster, events: seq<C.Event>, d: C.Cluster, p: Place, id: Id)
    requires C.Init(c) && C.Leads(c, events, d) && Sits(d, p, id)
    ensures var r := Held(d, p, id).retries;
      Sleeps(c, events, id) == if r <= 9 then Pow2(r) - 1 else 511 + 300 * (r - 9)
  {
    StartRefines(c);
    var t := SleepsAlong(c, Start(c), events, d, id);
    HeldIsToken(d, t, p, id);
    SleptInAll(Held(d, p, id).retries);
  }
}
