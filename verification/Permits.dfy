/** Concurrency permits and graceful shutdown of `Worker::run`. */
module Permits {
  import opened Messages
  import opened Execution
  import opened Cluster

  function RunBy(jobs: map<nat, Job>, w: nat): set<nat> {
    set e | e in jobs && jobs[e].worker == w
  }

  function JobsOf(c: Cluster, w: nat): set<nat> {
    RunBy(c.jobs, w)
  }

  lemma JobsGrow(jobs: map<nat, Job>, e: nat, j: Job, w: nat)
    requires e !in jobs
    ensures |RunBy(jobs[e := j], w)| == |RunBy(jobs, w)| + if j.worker == w then 1 else 0
  {
    assert RunBy(jobs[e := j], w) == RunBy(jobs, w) + if j.worker == w then {e} else {};
  }

  lemma JobsShrink(jobs: map<nat, Job>, e: nat, w: nat)
    requires e in jobs
    ensures |RunBy(jobs - {e}, w)| + (if jobs[e].worker == w then 1 else 0) == |RunBy(jobs, w)|
  {
    assert RunBy(jobs, w) == RunBy(jobs - {e}, w) + if jobs[e].worker == w then {e} else {};
  }

  lemma JobsSame(jobs: map<nat, Job>, e: nat, j: Job, w: nat)
    requires e in jobs && j.worker == jobs[e].worker
    ensures RunBy(jobs[e := j], w) == RunBy(jobs, w)
  {
  }

  function HeldByLoop(v: Worker): nat {
    if v.pc.Holding? || v.pc.Popped? then 1 else 0
  }

  /** Every permit is free, with the loop, or with a running execution. */
  predicate Conserved(c: Cluster, w: nat)
    requires w in c.workers
  {
    var v := c.workers[w];
    && v.available + HeldByLoop(v) + |JobsOf(c, w)| == v.concurrency
    && (v.pc == Stopped(true) ==> v.available == v.concurrency)
  }

  predicate PermitsOk(c: Cluster) {
    && (forall w <- c.workers :: Conserved(c, w))
    && (forall e <- c.jobs :: e < c.nextJob && c.jobs[e].worker in c.workers)
  }

  lemma StepKeepsPermits(c: Cluster, e: nat, out: Outcome)
    requires PermitsOk(c) && e in c.jobs
    ensures PermitsOk(RunJobWith(c, e, out))
  {
    var c' := RunJobWith(c, e, out);
    forall w <- c'.workers ensures Conserved(c', w) {
      assert Conserved(c, w);
      if out.next.None? { JobsShrink(c.jobs, e, w); } else { JobsSame(c.jobs, e, c'.jobs[e], w); }
    }
  }

  /** The permit the loop holds passes to a new execution. */
  lemma JobAdded(c: Cluster, c': Cluster, w: nat, x: Exec)
    requires PermitsOk(c) && w in c.workers && HeldByLoop(c.workers[w]) == 1
    requires c'.jobs == c.jobs[c.nextJob := Job(w, x)] && c'.nextJob == c.nextJob + 1
    requires c'.workers == c.workers[w := c.workers[w].(pc := Top)]
    ensures PermitsOk(c')
  {
    forall v <- c'.workers ensures Conserved(c', v) {
      assert Conserved(c, v);
      JobsGrow(c.jobs, c.nextJob, Job(w, x), v);
    }
  }

  /** The loop neither mints nor loses a permit. */
  ghost predicate LoopsKeep(c: Cluster, c': Cluster) {
    && c'.jobs == c.jobs && c'.nextJob == c.nextJob && c'.workers.Keys == c.workers.Keys
    && forall w <- c.workers ::
      var v, v' := c.workers[w], c'.workers[w];
      && v'.concurrency == v.concurrency && v'.available + HeldByLoop(v') == v.available + HeldByLoop(v)
      && (v'.pc == Stopped(true) ==> v'.available == v'.concurrency)
  }

  /** One worker's loop moves. */
  lemma LoopMoves(c: Cluster, c': Cluster, w: nat, v: Worker)
    requires w in c.workers && c'.jobs == c.jobs && c'.nextJob == c.nextJob && c'.workers == c.workers[w := v]
    requires v.concurrency == c.workers[w].concurrency
    requires v.available + HeldByLoop(v) == c.workers[w].available + HeldByLoop(c.workers[w])
    requires v.pc == Stopped(true) ==> v.available == v.concurrency
    requires forall u <- c.workers ::
      c.workers[u].pc == Stopped(true) ==> c.workers[u].available == c.workers[u].concurrency
    ensures LoopsKeep(c, c')
  {
  }

  lemma LoopKeepsPermits(c: Cluster, c': Cluster)
    requires PermitsOk(c) && LoopsKeep(c, c')
    ensures PermitsOk(c')
  {
    forall w <- c'.workers ensures Conserved(c', w) {
      assert Conserved(c, w) && JobsOf(c', w) == JobsOf(c, w);
    }
  }

  /** An event that moves no loop. */
  lemma LoopsRest(c: Cluster, e: Event)
    requires Enabled(c, e) && (e.Submit? || e.Enqueue? || e.SendMember? || e.Tick?)
    ensures Next(c, e).workers == c.workers && Next(c, e).jobs == c.jobs && Next(c, e).nextJob == c.nextJob
  {
  }

  predicate MovesLoop(e: Event) {
    e.Look? || e.Acquire? || e.Pop? || e.Miss? || e.Cancel? || e.Leave? || e.DrainClean? || e.DrainTimeout?
  }

  /** An event that moves one loop takes or gives back its permit, or neither. */
  lemma LoopMoved(c: Cluster, e: Event)
    requires Enabled(c, e) && MovesLoop(e)
    ensures var c', w := Next(c, e), e.w;
      && w in c.workers && c'.jobs == c.jobs && c'.nextJob == c.nextJob
      && w in c'.workers && c'.workers == c.workers[w := c'.workers[w]]
      && c'.workers[w].concurrency == c.workers[w].concurrency
      && c'.workers[w].available + HeldByLoop(c'.workers[w]) == c.workers[w].available + HeldByLoop(c.workers[w])
      && (c'.workers[w].pc == Stopped(true) ==>
            e.Cancel? || c'.workers[w].available == c'.workers[w].concurrency)
      && (e.Cancel? ==> c'.workers[w].pc == c.workers[w].pc && c'.workers[w].available == c.workers[w].available)
  {
  }

  lemma LoopEventKeeps(c: Cluster, e: Event)
    requires PermitsOk(c) && Enabled(c, e) && MovesLoop(e)
    ensures PermitsOk(Next(c, e))
  {
    LoopMoved(c, e);
    forall w <- c.workers | c.workers[w].pc == Stopped(true)
      ensures c.workers[w].available == c.workers[w].concurrency { assert Conserved(c, w); }
    LoopMoves(c, Next(c, e), e.w, Next(c, e).workers[e.w]);
    LoopKeepsPermits(c, Next(c, e));
  }

  lemma RestKeeps(c: Cluster, e: Event)
    requires PermitsOk(c) && Enabled(c, e) && (e.Submit? || e.Enqueue? || e.SendMember? || e.Tick?)
    ensures PermitsOk(Next(c, e))
  {
    LoopsRest(c, e);
    forall w <- c.workers ensures Conserved(Next(c, e), w) { assert Conserved(c, w); }
  }

  lemma NextKeepsPermits(c: Cluster, e: Event)
    requires PermitsOk(c) && Enabled(c, e)
    ensures PermitsOk(Next(c, e))
  {
    if e.Step? {
      StepKeepsPermits(c, e.job, Resume(c.jobs[e.job].x, c.backend, e.oracle, c.nextId, c.hasBackend));
    } else if e.Spawn? {
      JobAdded(c, Next(c, e), e.w, Exec(c.workers[e.w].pc.m, Guard));
    } else if MovesLoop(e) {
      LoopEventKeeps(c, e);
    } else {
      RestKeeps(c, e);
    }
  }

  lemma {:induction false} LeadsKeepsPermits(c: Cluster, events: seq<Event>, d: Cluster)
    requires PermitsOk(c) && Leads(c, events, d)
    ensures PermitsOk(d)
    decreases |events|
  {
    if events != [] {
      NextKeepsPermits(c, events[0]);
      LeadsKeepsPermits(Next(c, events[0]), events[1..], d);
    }
  }

  lemma InitConserves(c: Cluster)
    requires Init(c)
    ensures PermitsOk(c)
  {
    forall v <- c.workers ensures Conserved(c, v) { assert JobsOf(c, v) == {}; }
  }

  /** On every run a worker runs at most `concurrency` executions, and once its drain has
      ended with all permits back, none of its executions runs. */
  lemma ConcurrencyBounded(c: Cluster, events: seq<Event>, d: Cluster, w: nat)
    requires Init(c) && Leads(c, events, d) && w in d.workers
    ensures |JobsOf(d, w)| <= d.workers[w].concurrency
    ensures d.workers[w].available + HeldByLoop(d.workers[w]) + |JobsOf(d, w)| == d.workers[w].concurrency
    ensures d.workers[w].pc == Stopped(true) ==> JobsOf(d, w) == {}
  {
    InitConserves(c);
    LeadsKeepsPermits(c, events, d);
    assert Conserved(d, w);
  }
}
