/** The middleware pipeline around each attempt (kojin-core/src/worker.rs:251-270, 390-409) with
    the metrics counters (middleware/metrics.rs:54-75) and the otel timings
    (middleware/otel.rs:72-111) as two of its hooks, any number of attempts interleaved
    between any two hook calls. */
module Hooks {
  import opened Messages

  datatype Metrics = Metrics(started: nat, succeeded: nat, failed: nat) {
    function Started(): Metrics {
      this.(started := started + 1)
    }

    function Succeeded(): Metrics {
      this.(succeeded := succeeded + 1)
    }

    function Failed(): Metrics {
      this.(failed := failed + 1)
    }
  }

  /** Start times by id, and the durations recorded. */
  datatype Otel = Otel(timings: map<Id, int>, durations: seq<int>) {
    function Opened(id: Id, now: int): Otel {
      this.(timings := timings[id := now])
    }

    function Closed(id: Id, now: int): Otel {
      if id in timings then Otel(timings - {id}, durations + [now - timings[id]]) else this
    }
  }

  class MetricsMiddleware {
    var started: nat
    var succeeded: nat
    var failed: nat

    function View(): Metrics
      reads this
    {
      Metrics(started, succeeded, failed)
    }

    constructor ()
      ensures View() == Metrics(0, 0, 0)
    {
      started, succeeded, failed := 0, 0, 0;
    }

    method Before()
      modifies this
      ensures View() == old(View()).Started()
    {
      started := started + 1;
    }

    method After()
      modifies this
      ensures View() == old(View()).Succeeded()
    {
      succeeded := succeeded + 1;
    }

    method OnError()
      modifies this
      ensures View() == old(View()).Failed()
    {
      failed := failed + 1;
    }
  }

  class OtelMiddleware {
    var timings: map<Id, int>
    var durations: seq<int>

    function View(): Otel
      reads this
    {
      Otel(timings, durations)
    }

    constructor ()
      ensures View() == Otel(map[], [])
    {
      timings, durations := map[], [];
    }

    method Before(id: Id, now: int)
      modifies this
      ensures View() == old(View()).Opened(id, now)
    {
      timings := timings[id := now];
    }

    /** The common part of `after` and `on_error`. */
    method RecordDuration(id: Id, now: int)
      modifies this
      ensures View() == old(View()).Closed(id, now)
    {
      if id in timings {
        durations := durations + [now - timings[id]];
        timings := timings - {id};
      }
    }
  }

  // ---------------------------------------------------------------- any number of attempts

  /** Where an attempt is: the number is that of the hook to call next.  `OnError` remembers how
      many `before` hooks had passed. */
  datatype Phase = Before(i: nat) | After(i: nat) | OnError(i: nat, passed: nat)

  /** `n` hooks; `metrics` and `otel` are the places of those two. */
  datatype Pipeline = Pipeline(n: nat, metrics: nat, otel: nat)

  predicate WellPlaced(p: Pipeline) {
    p.metrics < p.n && p.otel < p.n && p.metrics != p.otel
  }

  /** `early` counts attempts that a hook before the metrics one aborted, `entered` and `left`
      those that passed the otel hook on the way in, and after that on the way out. */
  datatype State = State(attempts: map<Id, Phase>, m: Metrics, otel: Otel, early: nat, entered: nat, left: nat)

  datatype Event = Begin(id: Id) | Call(id: Id, ok: bool, now: int)

  predicate Enabled(p: Pipeline, s: State, e: Event) {
    match e
    case Begin(id) => id !in s.attempts
    case Call(id, ok, _) =>
      && id in s.attempts
      && (!ok ==> s.attempts[id].Before? && s.attempts[id].i != p.metrics && s.attempts[id].i != p.otel)
  }

  function Pass(s: State, i: nat, p: Pipeline, id: Id, now: int): State {
    s.(m := if i == p.metrics then s.m.Started() else s.m,
       otel := if i == p.otel then s.otel.Opened(id, now) else s.otel,
       entered := if i == p.otel then s.entered + 1 else s.entered)
  }

  function Leave(s: State, i: nat, p: Pipeline, id: Id, now: int, ok: bool): State {
    s.(m := if i != p.metrics then s.m else if ok then s.m.Succeeded() else s.m.Failed(),
       otel := if i == p.otel then s.otel.Closed(id, now) else s.otel,
       left := if i == p.otel && id in s.otel.timings then s.left + 1 else s.left)
  }

  /** The next hook of an attempt is called and answers `ok`; past the last `before` hook the
      call is the handler's, past the last of the others the attempt ends. */
  function Called(p: Pipeline, s: State, id: Id, ok: bool, now: int): State
    requires id in s.attempts
  {
    match s.attempts[id]
    case Before(i) =>
      if !ok then
        s.(attempts := s.attempts[id := OnError(0, i)], early := if i < p.metrics then s.early + 1 else s.early)
      else if i >= p.n then s.(attempts := s.attempts[id := After(0)])
      else Pass(s, i, p, id, now).(attempts := s.attempts[id := Before(i + 1)])
    case After(i) =>
      if i >= p.n then s.(attempts := s.attempts - {id})
      else Leave(s, i, p, id, now, true).(attempts := s.attempts[id := After(i + 1)])
    case OnError(i, passed) =>
      if i >= p.n then s.(attempts := s.attempts - {id})
      else Leave(s, i, p, id, now, false).(attempts := s.attempts[id := OnError(i + 1, passed)])
  }

  function Next(p: Pipeline, s: State, e: Event): State
    requires Enabled(p, s, e)
  {
    match e
    case Begin(id) => s.(attempts := s.attempts[id := Before(0)])
    case Call(id, ok, now) => Called(p, s, id, ok, now)
  }

  ghost predicate Leads(p: Pipeline, s: State, events: seq<Event>, t: State)
    decreases |events|
  {
    if events == [] then s == t else Enabled(p, s, events[0]) && Leads(p, Next(p, s, events[0]), events[1..], t)
  }

  const IDLE := State(map[], Metrics(0, 0, 0), Otel(map[], []), 0, 0, 0)

  /** Past the metrics hook on the way in, or aborted before it, and not past it on the way out. */
  predicate Open(p: Pipeline, f: Phase) {
    match f
    case Before(i) => i > p.metrics
    case After(i) => i <= p.metrics
    case OnError(i, _) => i <= p.metrics
  }

  function OpenOnes(p: Pipeline, s: State): set<Id> {
    set id | id in s.attempts && Open(p, s.attempts[id])
  }

  /** Past the otel hook on the way in and not on the way out. */
  predicate Timed(p: Pipeline, f: Phase) {
    match f
    case Before(i) => i > p.otel
    case After(i) => i <= p.otel
    case OnError(i, passed) => i <= p.otel && passed > p.otel
  }

  predicate Counted(p: Pipeline, s: State) {
    s.m.succeeded + s.m.failed + |OpenOnes(p, s)| == s.m.started + s.early
  }

  ghost predicate TimingsHeld(p: Pipeline, s: State) {
    && (forall id :: id in s.otel.timings <==> id in s.attempts && Timed(p, s.attempts[id]))
    && (forall id <- s.attempts :: s.attempts[id].Before? ==> s.attempts[id].i <= p.n)
  }

  predicate DurationsKept(s: State) {
    |s.otel.durations| == s.left && s.left + |s.otel.timings.Keys| == s.entered
  }

  ghost predicate Balanced(p: Pipeline, s: State) {
    Counted(p, s) && TimingsHeld(p, s) && DurationsKept(s)
  }

  /** Only attempt `id` changes from one state to the other. */
  lemma OpenChange(p: Pipeline, s: State, t: State, id: Id)
    requires forall x <- s.attempts :: x != id ==> x in t.attempts && t.attempts[x] == s.attempts[x]
    requires forall x <- t.attempts :: x != id ==> x in s.attempts
    ensures |OpenOnes(p, t)| + (if id in OpenOnes(p, s) then 1 else 0)
         == |OpenOnes(p, s)| + (if id in OpenOnes(p, t) then 1 else 0)
  {
    var rest := OpenOnes(p, s) - {id};
    assert rest == OpenOnes(p, t) - {id};
    SplitOff(OpenOnes(p, s), id);
    SplitOff(OpenOnes(p, t), id);
  }

  lemma SplitOff(ids: set<Id>, id: Id)
    ensures |ids| == |ids - {id}| + if id in ids then 1 else 0
  {
    if id in ids { assert ids == (ids - {id}) + {id}; } else { assert ids == ids - {id}; }
  }

  lemma TimingsChange(o: Otel, id: Id, now: int)
    ensures |o.Opened(id, now).timings.Keys| == |o.timings.Keys| + if id in o.timings then 0 else 1
    ensures |o.Closed(id, now).timings.Keys| + (if id in o.timings then 1 else 0) == |o.timings.Keys|
  {
    assert o.Opened(id, now).timings.Keys == o.timings.Keys + {id};
    assert (o.timings - {id}).Keys == o.timings.Keys - {id};
    SplitOff(o.timings.Keys, id);
  }

  lemma NextCounted(p: Pipeline, s: State, e: Event)
    requires WellPlaced(p) && Counted(p, s) && TimingsHeld(p, s) && Enabled(p, s, e)
    ensures Counted(p, Next(p, s, e))
  {
    OpenChange(p, s, Next(p, s, e), e.id);
  }

  lemma NextHeld(p: Pipeline, s: State, e: Event)
    requires WellPlaced(p) && TimingsHeld(p, s) && Enabled(p, s, e)
    ensures TimingsHeld(p, Next(p, s, e))
  {
  }

  lemma NextKept(p: Pipeline, s: State, e: Event)
    requires DurationsKept(s) && TimingsHeld(p, s) && Enabled(p, s, e)
    ensures DurationsKept(Next(p, s, e))
  {
    if e.Call? { TimingsChange(s.otel, e.id, e.now); }
  }

  lemma NextBalanced(p: Pipeline, s: State, e: Event)
    requires WellPlaced(p) && Balanced(p, s) && Enabled(p, s, e)
    ensures Balanced(p, Next(p, s, e))
  {
    NextCounted(p, s, e);
    NextHeld(p, s, e);
    NextKept(p, s, e);
  }

  lemma {:induction false} StaysBalanced(p: Pipeline, s: State, events: seq<Event>, t: State)
    requires WellPlaced(p) && Balanced(p, s) && Leads(p, s, events, t)
    ensures Balanced(p, t)
    decreases |events|
  {
    if events != [] {
      NextBalanced(p, s, events[0]);
      StaysBalanced(p, Next(p, s, events[0]), events[1..], t);
    }
  }

  /** In every state reached from an idle pipeline: what was counted as ended, and what is open
      past the metrics hook, is what was counted as started and what aborted too early to be;
      timings are kept for exactly the attempts between their two passes of the otel hook, and
      every other attempt that passed it has left one duration. */
  lemma CountersBalance(p: Pipeline, events: seq<Event>, t: State)
    requires WellPlaced(p) && Leads(p, IDLE, events, t)
    ensures t.m.succeeded + t.m.failed + |OpenOnes(p, t)| == t.m.started + t.early
    ensures forall id :: id in t.otel.timings <==> id in t.attempts && Timed(p, t.attempts[id])
    ensures |t.otel.durations| + |t.otel.timings.Keys| == t.entered
  {
    assert OpenOnes(p, IDLE) == {};
    StaysBalanced(p, IDLE, events, t);
  }

  /** So when no attempt is under way no timing is left behind, and the failures exceed what was
      started and did not succeed by just the early aborts. */
  lemma QuietPipeline(p: Pipeline, events: seq<Event>, t: State)
    requires WellPlaced(p) && Leads(p, IDLE, events, t) && t.attempts == map[]
    ensures t.otel.timings == map[] && |t.otel.durations| == t.entered
    ensures t.m.succeeded + t.m.failed == t.m.started + t.early
  {
    CountersBalance(p, events, t);
    assert OpenOnes(p, t) == {};
    assert t.otel.timings.Keys == {};
  }

  // ---------------------------------------------------------------- one attempt, in place

  lemma {:induction false} LeadsSnoc(p: Pipeline, s: State, events: seq<Event>, t: State, e: Event)
    requires Leads(p, s, events, t) && Enabled(p, t, e)
    ensures Leads(p, s, events + [e], Next(p, t, e))
    decreases |events|
  {
    if events == [] {
      assert [] + [e] == [e];
    } else {
      LeadsSnoc(p, Next(p, s, events[0]), events[1..], t, e);
      assert (events + [e])[1..] == events[1..] + [e];
    }
  }

  /** The two middlewares hold what state `t`, reached from `s`, says. */
  ghost predicate InStep(p: Pipeline, s: State, events: seq<Event>, t: State, metrics: MetricsMiddleware,
                         otel: OtelMiddleware)
    reads metrics, otel
  {
    Leads(p, s, events, t) && t.m == metrics.View() && t.otel == otel.View()
  }

  /** All `before` hooks up to number `k` pass. */
  predicate Reaches(answers: seq<bool>, k: nat)
    requires k < |answers|
  {
    forall i :: 0 <= i <= k ==> answers[i]
  }

  function EnteredMetrics(m: Metrics, reached: bool): Metrics {
    if reached then Metrics(m.started + 1, m.succeeded, m.failed) else m
  }

  function EnteredOtel(o: Otel, id: Id, now: int, reached: bool): Otel {
    if reached then Otel(o.timings[id := now], o.durations) else o
  }

  /** Each of the two middlewares has noted the attempt if it came that far. */
  predicate Entered(m: Metrics, o: Otel, p: Pipeline, answers: seq<bool>, id: Id, now: int, m': Metrics, o': Otel)
    requires WellPlaced(p) && |answers| == p.n
  {
    && m' == EnteredMetrics(m, Reaches(answers, p.metrics))
    && o' == EnteredOtel(o, id, now, Reaches(answers, p.otel))
  }

  /** On the way out one more success or failure is counted, and a timing becomes a duration. */
  predicate Left(m: Metrics, o: Otel, id: Id, ok: bool, later: int, m': Metrics, o': Otel) {
    m' == LeftMetrics(m, ok) && LeftOtel(o, id, later, o')
  }

  function LeftMetrics(m: Metrics, ok: bool): Metrics {
    Metrics(m.started, m.succeeded + (if ok then 1 else 0), m.failed + (if ok then 0 else 1))
  }

  predicate LeftOtel(o: Otel, id: Id, later: int, o': Otel) {
    && o'.timings == o.timings - {id}
    && o'.durations == if id in o.timings then o.durations + [later - o.timings[id]] else o.durations
  }

  /** The `before` hooks in order, up to the first that refuses. */
  method RunBefore(p: Pipeline, id: Id, answers: seq<bool>, now: int, metrics: MetricsMiddleware, otel: OtelMiddleware,
                   ghost s: State)
    returns (pass: bool, ghost events: seq<Event>, ghost t: State)
    requires WellPlaced(p) && |answers| == p.n && answers[p.metrics] && answers[p.otel]
    requires id !in s.attempts && s.m == metrics.View() && s.otel == otel.View()
    modifies metrics, otel
    ensures InStep(p, s, events, t, metrics, otel) && t.attempts.Keys == s.attempts.Keys + {id}
    ensures t.attempts - {id} == s.attempts
    ensures pass <==> forall i :: 0 <= i < p.n ==> answers[i]
    ensures if pass then t.attempts[id] == Before(p.n) else t.attempts[id].OnError? && t.attempts[id].i == 0
    ensures Entered(old(metrics.View()), old(otel.View()), p, answers, id, now, metrics.View(), otel.View())
  {
    events, t := [Begin(id)], Next(p, s, Begin(id));
    for i := 0 to p.n
      invariant InStep(p, s, events, t, metrics, otel)
      invariant t.attempts == s.attempts[id := Before(i)]
      invariant forall j :: 0 <= j < i ==> answers[j]
      invariant metrics.View() == EnteredMetrics(old(metrics.View()), i > p.metrics)
      invariant otel.View() == EnteredOtel(old(otel.View()), id, now, i > p.otel)
    {
      if i == p.metrics { metrics.Before(); }
      if i == p.otel { otel.Before(id, now); }
      ghost var e := Call(id, answers[i], now);
      LeadsSnoc(p, s, events, t, e);
      events, t := events + [e], Next(p, t, e);
      if !answers[i] {
        return false, events, t;
      }
    }
    return true, events, t;
  }

  /** All `after` hooks, or all `on_error` hooks. */
  method RunRest(p: Pipeline, id: Id, ok: bool, now: int, metrics: MetricsMiddleware, otel: OtelMiddleware,
                 ghost s: State, ghost before: seq<Event>, ghost mid: State)
    returns (ghost events: seq<Event>, ghost t: State)
    requires WellPlaced(p) && InStep(p, s, before, mid, metrics, otel) && id in mid.attempts
    requires if ok then mid.attempts[id] == After(0) else mid.attempts[id].OnError? && mid.attempts[id].i == 0
    modifies metrics, otel
    ensures InStep(p, s, events, t, metrics, otel) && t.attempts == mid.attempts - {id}
    ensures Left(old(metrics.View()), old(otel.View()), id, ok, now, metrics.View(), otel.View())
  {
    events, t := before, mid;
    for i := 0 to p.n
      invariant InStep(p, s, events, t, metrics, otel) && id in t.attempts
      invariant t.attempts == mid.attempts[id := if ok then After(i) else OnError(i, mid.attempts[id].passed)]
      invariant i <= p.metrics ==> metrics.View() == old(metrics.View())
      invariant i <= p.otel ==> otel.View() == old(otel.View())
      invariant i > p.metrics ==> LeftMetrics(old(metrics.View()), ok) == metrics.View()
      invariant i > p.otel ==> LeftOtel(old(otel.View()), id, now, otel.View())
    {
      if i == p.metrics {
        if ok {
          metrics.After();
        } else {
          metrics.OnError();
        }
      }
      if i == p.otel { otel.RecordDuration(id, now); }
      ghost var e := Call(id, true, now);
      LeadsSnoc(p, s, events, t, e);
      events, t := events + [e], Next(p, t, e);
    }
    ghost var e := Call(id, true, now);
    LeadsSnoc(p, s, events, t, e);
    events, t := events + [e], Next(p, t, e);
  }

  /** The hooks of one attempt, called in place from its first `before` to its end: a run of
      the pipeline, whatever the hooks and the handler answer, after which the attempt is over. */
  method Attempt(p: Pipeline, id: Id, answers: seq<bool>, handler: bool, now: int, later: int,
                 metrics: MetricsMiddleware, otel: OtelMiddleware, ghost s: State)
    returns (ghost events: seq<Event>, ghost t: State)
    requires WellPlaced(p) && |answers| == p.n && answers[p.metrics] && answers[p.otel]
    requires id !in s.attempts && s.m == metrics.View() && s.otel == otel.View()
    modifies metrics, otel
    ensures InStep(p, s, events, t, metrics, otel) && t.attempts == s.attempts
    ensures var ok := (forall i :: 0 <= i < p.n ==> answers[i]) && handler;
      metrics.View() == LeftMetrics(EnteredMetrics(old(metrics.View()), Reaches(answers, p.metrics)), ok)
    ensures LeftOtel(EnteredOtel(old(otel.View()), id, now, Reaches(answers, p.otel)), id, later, otel.View())
  {
    var pass;
    pass, events, t := RunBefore(p, id, answers, now, metrics, otel, s);
    if pass {
      ghost var e := Call(id, handler, later);
      LeadsSnoc(p, s, events, t, e);
      events, t := events + [e], Next(p, t, e);
    }
    events, t := RunRest(p, id, pass && handler, later, metrics, otel, s, events, t);
  }
}
