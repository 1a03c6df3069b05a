/** What becomes of the messages that a worker takes (kojin-core/src/worker.rs:143-216): each
    taking is settled exactly once, and a drain that ends with all permits back leaves none open. */
module Drain {
  import opened Messages
  import opened Execution
  import opened Guarantees
  import opened Outcomes
  import C = Cluster
  import Permits
  import Refinement

  // ---------------------------------------------------------------- what is under way

  function RunOf(jobs: map<nat, C.Job>, w: nat, id: Id): set<nat> {
    set e | e in jobs && jobs[e].worker == w && jobs[e].x.msg.id == id
  }

  predicate TakenBy(c: C.Cluster, w: nat, id: Id) {
    w in c.workers && c.workers[w].pc.Popped? && c.workers[w].pc.m.id == id
  }

  /** How often worker `w` has `id` in hand: popped and not yet recorded, or in an execution. */
  function InHand(c: C.Cluster, w: nat, id: Id): nat {
    |RunOf(c.jobs, w, id)| + if TakenBy(c, w, id) then 1 else 0
  }

  // ---------------------------------------------------------------- what an event does

  predicate Takes(c: C.Cluster, e: C.Event, w: nat, id: Id)
    requires C.Enabled(c, e)
  {
    e.Pop? && e.w == w && c.broker.Queue(c.broker.Ready(c.workers[w].queues).value)[0].id == id
  }

  /** How a taking ends. */
  datatype Ending = Succeeded | SentBack | Buried | Dropped

  /** The event ends an execution of `id` by worker `w`, or a dequeue of it before it is recorded. */
  function EndOf(c: C.Cluster, e: C.Event, w: nat, id: Id): Option<Ending>
    requires C.Enabled(c, e)
  {
    if e.Step? && c.jobs[e.job].worker == w && c.jobs[e.job].x.msg.id == id && OutcomeOf(c, e).next.None? then
      Some(match OutcomeOf(c, e).effect
           case Requeue => SentBack
           case Inter => Buried
           case _ => Succeeded)
    else if DropsPopped(c, e, id) && e.w == w then Some(Dropped)
    else None
  }

  /** Sent back it is last on its queue, buried it is last on its dead-letter queue, and it has
      succeeded or been dropped as the conservation theorem has it. */
  lemma EndingIs(c: C.Cluster, e: C.Event, w: nat, id: Id)
    requires C.Enabled(c, e) && EndOf(c, e, w, id).Some?
    ensures match EndOf(c, e, w, id).value
      case Succeeded => Finishes(c, e, id)
      case SentBack => var m := c.jobs[e.job].x.msg; C.Next(c, e).broker.Queue(m.queue) == c.broker.Queue(m.queue) + [m]
      case Buried => var m := c.jobs[e.job].x.msg; C.Next(c, e).broker.Dlq(m.queue) == c.broker.Dlq(m.queue) + [m]
      case Dropped => DropsPopped(c, e, id)
  {
  }

  function Takings(c: C.Cluster, events: seq<C.Event>, w: nat, id: Id): nat
    decreases |events|
  {
    if events == [] || !C.Enabled(c, events[0]) then 0
    else (if Takes(c, events[0], w, id) then 1 else 0) + Takings(C.Next(c, events[0]), events[1..], w, id)
  }

  function Ended(c: C.Cluster, events: seq<C.Event>, w: nat, id: Id, how: Ending): nat
    decreases |events|
  {
    if events == [] || !C.Enabled(c, events[0]) then 0
    else (if EndOf(c, events[0], w, id) == Some(how) then 1 else 0)
         + Ended(C.Next(c, events[0]), events[1..], w, id, how)
  }

  function Endings(c: C.Cluster, events: seq<C.Event>, w: nat, id: Id): nat {
    Ended(c, events, w, id, Succeeded) + Ended(c, events, w, id, SentBack)
    + Ended(c, events, w, id, Buried) + Ended(c, events, w, id, Dropped)
  }

  // ---------------------------------------------------------------- every event

  lemma RunsGrow(jobs: map<nat, C.Job>, e: nat, j: C.Job, w: nat, id: Id)
    requires e !in jobs
    ensures |RunOf(jobs[e := j], w, id)| == |RunOf(jobs, w, id)| + if j.worker == w && j.x.msg.id == id then 1 else 0
  {
    assert RunOf(jobs[e := j], w, id)
        == RunOf(jobs, w, id) + if j.worker == w && j.x.msg.id == id then {e} else {};
  }

  lemma RunsShrink(jobs: map<nat, C.Job>, e: nat, w: nat, id: Id)
    requires e in jobs
    ensures |RunOf(jobs - {e}, w, id)| + (if jobs[e].worker == w && jobs[e].x.msg.id == id then 1 else 0)
         == |RunOf(jobs, w, id)|
  {
    assert RunOf(jobs, w, id)
        == RunOf(jobs - {e}, w, id) + if jobs[e].worker == w && jobs[e].x.msg.id == id then {e} else {};
  }

  lemma RunsStay(jobs: map<nat, C.Job>, e: nat, j: C.Job, w: nat, id: Id)
    requires e in jobs && j.worker == jobs[e].worker && j.x.msg.id == jobs[e].x.msg.id
    ensures RunOf(jobs[e := j], w, id) == RunOf(jobs, w, id)
  {
  }

  /** A taking adds to what is in hand, an ending takes away from it. */
  predicate Balances(c: C.Cluster, e: C.Event, c': C.Cluster, w: nat, id: Id)
    requires C.Enabled(c, e)
  {
    InHand(c, w, id) + (if Takes(c, e, w, id) then 1 else 0)
    == InHand(c', w, id) + (if EndOf(c, e, w, id).Some? then 1 else 0)
  }

  lemma StepBalances(c: C.Cluster, e: C.Event, w: nat, id: Id)
    requires e.Step? && C.Enabled(c, e)
    ensures Balances(c, e, C.Next(c, e), w, id)
  {
    var x := c.jobs[e.job].x;
    Refinement.ResumeBooked(x, c.backend, e.oracle, c.nextId, c.hasBackend);
    RunBalances(c, e, OutcomeOf(c, e), C.Next(c, e), w, id);
  }

  lemma RunBalances(c: C.Cluster, e: C.Event, out: Outcome, c': C.Cluster, w: nat, id: Id)
    requires e.Step? && C.Enabled(c, e) && out == OutcomeOf(c, e) && c' == C.RunJobWith(c, e.job, out)
    requires out.next.Some? ==> out.next.value.msg.id == c.jobs[e.job].x.msg.id
    ensures Balances(c, e, c', w, id)
  {
    if out.next.None? {
      RunsShrink(c.jobs, e.job, w, id);
    } else {
      RunsStay(c.jobs, e.job, c'.jobs[e.job], w, id);
    }
  }

  lemma SpawnBalances(c: C.Cluster, v: nat, w: nat, id: Id)
    requires c.nextJob !in c.jobs && C.Enabled(c, C.Spawn(v))
    ensures Balances(c, C.Spawn(v), C.Next(c, C.Spawn(v)), w, id)
  {
    RunsGrow(c.jobs, c.nextJob, C.Job(v, Exec(c.workers[v].pc.m, Guard)), w, id);
  }

  lemma LoopBalances(c: C.Cluster, e: C.Event, w: nat, id: Id)
    requires Permits.MovesLoop(e) && C.Enabled(c, e)
    ensures Balances(c, e, C.Next(c, e), w, id)
  {
    Permits.LoopMoved(c, e);
  }

  lemma RestBalances(c: C.Cluster, e: C.Event, w: nat, id: Id)
    requires C.Enabled(c, e) && (e.Submit? || e.Enqueue? || e.SendMember? || e.Tick?)
    ensures Balances(c, e, C.Next(c, e), w, id)
  {
    Permits.LoopsRest(c, e);
  }

  lemma EventBalances(c: C.Cluster, e: C.Event, w: nat, id: Id)
    requires c.nextJob !in c.jobs && C.Enabled(c, e)
    ensures Balances(c, e, C.Next(c, e), w, id)
  {
    if e.Step? {
      StepBalances(c, e, w, id);
    } else if e.Spawn? {
      SpawnBalances(c, e.w, w, id);
    } else if Permits.MovesLoop(e) {
      LoopBalances(c, e, w, id);
    } else {
      RestBalances(c, e, w, id);
    }
  }

  lemma EndingsCons(c: C.Cluster, events: seq<C.Event>, w: nat, id: Id)
    requires events != [] && C.Enabled(c, events[0])
    ensures Endings(c, events, w, id)
         == (if EndOf(c, events[0], w, id).Some? then 1 else 0) + Endings(C.Next(c, events[0]), events[1..], w, id)
  {
    var how := EndOf(c, events[0], w, id);
    assert how.None? || how == Some(Succeeded) || how == Some(SentBack) || how == Some(Buried) || how == Some(Dropped);
  }

  // ---------------------------------------------------------------- every run

  /** On every run, what a worker took of a message is what it settled of it and what it has in hand. */
  lemma {:induction false} TakingsBalance(c: C.Cluster, events: seq<C.Event>, d: C.Cluster, w: nat, id: Id)
    requires Permits.PermitsOk(c) && C.Leads(c, events, d)
    ensures InHand(c, w, id) + Takings(c, events, w, id) == Endings(c, events, w, id) + InHand(d, w, id)
    decreases |events|
  {
    if events != [] {
      var e := events[0];
      EventBalances(c, e, w, id);
      Permits.NextKeepsPermits(c, e);
      TakingsBalance(C.Next(c, e), events[1..], d, w, id);
      EndingsCons(c, events, w, id);
    }
  }

  /** The drain theorem.  Once a worker's drain has ended with all permits back, it has settled
      every message as often as it took it: each taking ended in success, back on the queue, in
      the dead-letter queue, or dropped by the cancelled dequeue. */
  lemma DrainSettlesAll(c: C.Cluster, events: seq<C.Event>, d: C.Cluster, w: nat, id: Id)
    requires C.Init(c) && C.Leads(c, events, d) && w in d.workers && d.workers[w].pc == C.Stopped(true)
    ensures Takings(c, events, w, id) == Endings(c, events, w, id)
  {
    Permits.InitConserves(c);
    TakingsBalance(c, events, d, w, id);
    Permits.ConcurrencyBounded(c, events, d, w);
    assert RunOf(c.jobs, w, id) == {};
    assert RunOf(d.jobs, w, id) <= Permits.JobsOf(d, w);
  }
}
