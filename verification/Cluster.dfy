/** Any number of workers over one memory broker and one memory result backend: the loop of
    `Worker::run` with its permits, and every spawned execution, interleaved at their awaits
    (kojin-core/src/worker.rs:113-219). */
module Cluster {
  import opened Messages
  import opened Workflows
  import opened Results
  import opened Brokers
  import opened Execution

  /** Where a worker's loop is: at its head, where it looks whether it was cancelled; waiting for
      a permit; in `dequeue`; past it; draining.  `Popped` is the await inside `dequeue`, between taking the
      message off its queue and recording it in `processing`. */
  datatype LoopPc = Top | Waiting | Holding | Popped(m: Message) | Draining | Stopped(clean: bool)

  datatype Worker = Worker(pc: LoopPc, available: nat, concurrency: nat, queues: seq<string>, cancelled: bool)

  datatype Job = Job(worker: nat, x: Exec)

  /** A `Canvas::apply` that still has members to send. */
  datatype Sub = Sub(corr: Id, total: nat, callback: Option<Message>, left: seq<Signature>)

  datatype Cluster = Cluster(
    broker: Broker, backend: Backend, hasBackend: bool,
    workers: map<nat, Worker>, jobs: map<nat, Job>, subs: map<Id, Sub>,
    nextId: Id, nextJob: nat, clock: int)

  datatype Event =
    | Submit(canvas: Canvas)
    | Enqueue(sig: Signature)
    | SendMember(flow: Id)
    | Look(w: nat)         // the loop goes round: it was not cancelled
    | Acquire(w: nat)      // a permit
    | Pop(w: nat)
    | Miss(w: nat)          // dequeue timed out or failed: the permit goes back
    | Spawn(w: nat)         // dequeue records the message and returns; the task is spawned
    | Cancel(w: nat)        // the token is cancelled
    | Leave(w: nat)         // the loop sees it, dropping a pending dequeue
    | DrainClean(w: nat)    // all permits are back
    | DrainTimeout(w: nat)
    | Step(job: nat, oracle: Oracle)
    | Tick(now: int)

  function LineMessage(corr: Option<Id>, sigs: seq<Signature>, id: Id): Message
    requires sigs != []
  {
    var m := IntoMessage(sigs[0], id);
    m.(correlationId := corr,
       headers := if |sigs| > 1 then m.headers[ChainNextKey := ChainNext(sigs[1..])] else m.headers)
  }

  function TeamMessage(sub: Sub, group: Id, id: Id): Message
    requires sub.left != []
  {
    IntoMessage(sub.left[0], id).(
      correlationId := Some(sub.corr), groupId := Some(group), groupTotal := Some(sub.total),
      chordCallback := sub.callback)
  }

  function SendFirst(c: Cluster, corr: Option<Id>, sigs: seq<Signature>): Cluster
    requires sigs != []
  {
    c.(broker := c.broker.Push(LineMessage(corr, sigs, c.nextId + 1)), nextId := c.nextId + 2)
  }

  /** `apply_inner` up to its first message; a group then sends one member at a time. */
  function SubmitPlan(c: Cluster, p: Plan): Cluster {
    var f := c.nextId;
    match p
    case Nothing => c
    case Line(sigs) => if sigs == [] then c else SendFirst(c, Some(f), sigs)
    case Team(sigs, cb) =>
      var callback := if cb.Some? then Some(IntoMessage(cb.value, f + 1)) else None;
      c.(backend := c.backend.InitGroup(f, |sigs| % U32),
         subs := if sigs == [] then c.subs else c.subs[f := Sub(f, |sigs| % U32, callback, sigs)],
         nextId := if cb.Some? then f + 2 else f + 1)
    case Barren(sigs) => c.(backend := c.backend.InitGroup(f, |sigs| % U32), nextId := f + 1)
  }

  function Send(c: Cluster, f: Id): Cluster
    requires f in c.subs && c.subs[f].left != []
  {
    var sub := c.subs[f];
    c.(broker := c.broker.Push(TeamMessage(sub, f, c.nextId)),
       subs := if |sub.left| == 1 then c.subs - {f} else c.subs[f := sub.(left := sub.left[1..])],
       nextId := c.nextId + 1)
  }

  function ApplyEffect(b: Broker, m: Message, e: Effect): Broker {
    match e
    case Silent => b
    case Untrack => b.Untrack(m.id)
    case Requeue => b.Push(m)
    case Inter => b.PushDead(m)
    case Spawn(other) => b.Push(other)
  }

  function RunJob(c: Cluster, e: nat, o: Oracle): Cluster
    requires e in c.jobs
  {
    RunJobWith(c, e, Resume(c.jobs[e].x, c.backend, o, c.nextId, c.hasBackend))
  }

  function RunJobWith(c: Cluster, e: nat, out: Outcome): Cluster
    requires e in c.jobs
  {
    var x := c.jobs[e].x;
    var w := c.jobs[e].worker;
    c.(broker := ApplyEffect(c.broker, x.msg, out.effect),
       backend := out.backend,
       jobs := if out.next.Some? then c.jobs[e := Job(w, out.next.value)] else c.jobs - {e},
       // the permit lives as long as the spawned task
       workers := if out.next.None? && w in c.workers
                  then c.workers[w := c.workers[w].(available := c.workers[w].available + 1)] else c.workers,
       nextId := if x.pc.Continue? && out.effect.Spawn? then c.nextId + 1 else c.nextId)
  }

  predicate Enabled(c: Cluster, e: Event) {
    match e
    case Submit(canvas) => Sendable(PlanOf(canvas))
    case Enqueue(sig) => Plain(sig)
    case SendMember(f) => f in c.subs && c.subs[f].left != []
    case Look(w) => w in c.workers && c.workers[w].pc.Top? && !c.workers[w].cancelled
    case Acquire(w) => w in c.workers && c.workers[w].pc.Waiting? && c.workers[w].available > 0
    case Pop(w) => w in c.workers && c.workers[w].pc.Holding? && c.broker.Ready(c.workers[w].queues).Some?
    case Miss(w) => w in c.workers && c.workers[w].pc.Holding?
    case Spawn(w) => w in c.workers && c.workers[w].pc.Popped?
    case Cancel(w) => w in c.workers
    case Leave(w) => w in c.workers && c.workers[w].cancelled
                     && !c.workers[w].pc.Draining? && !c.workers[w].pc.Stopped?
    case DrainClean(w) =>
      w in c.workers && c.workers[w].pc.Draining? && c.workers[w].available == c.workers[w].concurrency
    case DrainTimeout(w) => w in c.workers && c.workers[w].pc.Draining?
    case Step(j, o) => j in c.jobs && o.now == c.clock
    case Tick(now) => c.clock <= now
  }

  function SetWorker(c: Cluster, w: nat, v: Worker): Cluster {
    c.(workers := c.workers[w := v])
  }

  function Next(c: Cluster, e: Event): Cluster
    requires Enabled(c, e)
  {
    match e
    case Submit(canvas) => SubmitPlan(c, PlanOf(canvas))
    case Enqueue(sig) => SendFirst(c, None, [sig])
    case SendMember(f) => Send(c, f)
    case Look(w) => SetWorker(c, w, c.workers[w].(pc := Waiting))
    case Acquire(w) =>
      var v := c.workers[w];
      SetWorker(c, w, v.(pc := Holding, available := v.available - 1))
    case Pop(w) =>
      var v := c.workers[w];
      var q := c.broker.Ready(v.queues).value;
      SetWorker(c, w, v.(pc := Popped(c.broker.Queue(q)[0]))).(broker := c.broker.Pop(q))
    case Miss(w) =>
      var v := c.workers[w];
      SetWorker(c, w, v.(pc := Top, available := v.available + 1))
    case Spawn(w) =>
      var v := c.workers[w];
      SetWorker(c, w, v.(pc := Top)).(
        broker := c.broker.Track(v.pc.m),
        jobs := c.jobs[c.nextJob := Job(w, Exec(v.pc.m, Guard))], nextJob := c.nextJob + 1)
    case Cancel(w) => SetWorker(c, w, c.workers[w].(cancelled := true))
    case Leave(w) =>
      var v := c.workers[w];
      SetWorker(c, w, v.(pc := Draining, available := v.available + if v.pc.Holding? || v.pc.Popped? then 1 else 0))
    case DrainClean(w) => SetWorker(c, w, c.workers[w].(pc := Stopped(true)))
    case DrainTimeout(w) => SetWorker(c, w, c.workers[w].(pc := Stopped(false)))
    case Step(j, o) => RunJob(c, j, o)
    case Tick(now) => c.(clock := now)
  }

  /** Cluster `c` takes in a canvas and is then `c'`. */
  predicate TakesIn(c: Cluster, canvas: Canvas, c': Cluster) {
    Enabled(c, Submit(canvas)) && c' == Next(c, Submit(canvas))
  }

  predicate Init(c: Cluster) {
    && c.broker == Broker(map[], map[], map[]) && c.backend == Backend(map[], map[])
    && c.jobs == map[] && c.subs == map[]
    && forall w <- c.workers :: c.workers[w].pc.Top? && c.workers[w].available == c.workers[w].concurrency
  }

  /** `events` leads from `c` to `d`. */
  ghost predicate Leads(c: Cluster, events: seq<Event>, d: Cluster)
    decreases |events|
  {
    if events == [] then c == d
    else Enabled(c, events[0]) && Leads(Next(c, events[0]), events[1..], d)
  }
}
