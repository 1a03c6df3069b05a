/** `Canvas::apply` as written (kojin-core/src/canvas.rs:41-165): the loops that flatten a
    canvas and the loop that enqueues a group's members one by one. */
module Submission {
  import opened Messages
  import opened Sequences
  import opened Workflows
  import opened Results
  import opened Brokers
  import opened MemoryBrokers
  import opened MemoryBackends
  import opened Instances
  import C = Cluster

  method FlattenChainOf(steps: seq<Canvas>) returns (result: seq<Signature>)
    ensures result == FlattenChain(steps)
    decreases steps
  {
    result := [];
    for i := 0 to |steps|
      invariant result == FlattenChain(steps[..i])
    {
      assert steps[..i + 1] == steps[..i] + [steps[i]];
      FlattenConcat(steps[..i], [steps[i]]);
      OneStep(steps[i]);
      match steps[i] {
        case Single(sig) => result := result + [sig];
        case Chain(inner) =>
          var sigs := FlattenChainOf(inner);
          result := result + sigs;
        case _ => // nested group or chord: skipped
      }
    }
    assert steps[..|steps|] == steps;
  }

  method FlattenGroupOf(members: seq<Canvas>) returns (result: seq<Signature>)
    ensures result == FlattenGroup(members)
  {
    result := [];
    for i := 0 to |members|
      invariant result == FlattenGroup(members[..i])
    {
      assert members[..i + 1] == members[..i] + [members[i]];
      FlattenGroupConcat(members[..i], [members[i]]);
      if members[i].Single? {
        result := result + [members[i].sig];
      }
    }
    assert members[..|members|] == members;
  }

  /** The submission once `i` of its members have been sent. */
  function From(sub: C.Sub, i: nat): C.Sub
    requires i <= |sub.left|
  {
    sub.(left := sub.left[i..])
  }

  /** The message of the `i`-th member still to be sent. */
  function MessageAt(sub: C.Sub, i: nat, group: Id, id: Id): Message
    requires i < |sub.left|
  {
    C.TeamMessage(From(sub, i), group, id)
  }

  function PushAll(b: Broker, msgs: seq<Message>): Broker {
    if msgs == [] then b else PushAll(b, msgs[..|msgs| - 1]).Push(msgs[|msgs| - 1])
  }

  function IdsOf(msgs: seq<Message>): seq<Id> {
    if msgs == [] then [] else IdsOf(msgs[..|msgs| - 1]) + [msgs[|msgs| - 1].id]
  }

  lemma OneMore(b: Broker, msgs: seq<Message>, m: Message)
    ensures PushAll(b, msgs + [m]) == PushAll(b, msgs).Push(m) && IdsOf(msgs + [m]) == IdsOf(msgs) + [m.id]
  {
    assert (msgs + [m])[..|msgs|] == msgs;
  }

  lemma {:induction false} IdAt(msgs: seq<Message>, i: nat)
    requires i < |msgs|
    ensures |IdsOf(msgs)| == |msgs| && IdsOf(msgs)[i] == msgs[i].id
  {
    var n := |msgs| - 1;
    if n > 0 { IdAt(msgs[..n], if i < n then i else 0); } else { assert IdsOf(msgs[..0]) == []; }
  }

  /** The messages of the first `n` members. */
  function SentOf(sub: C.Sub, n: nat, group: Id, id: Id): (msgs: seq<Message>)
    requires n <= |sub.left|
    ensures |msgs| == n
  {
    if n == 0 then [] else SentOf(sub, n - 1, group, id) + [MessageAt(sub, n - 1, group, id + n - 1)]
  }

  /** The broker after the first `n` of them have been sent. */
  function SendSome(sub: C.Sub, n: nat, group: Id, b: Broker, id: Id): Broker
    requires n <= |sub.left|
  {
    PushAll(b, SentOf(sub, n, group, id))
  }

  lemma SendSomeNext(sub: C.Sub, k: nat, group: Id, b: Broker, id: Id)
    requires k < |sub.left|
    ensures var m := MessageAt(sub, k, group, id + k);
      && SendSome(sub, k + 1, group, b, id) == SendSome(sub, k, group, b, id).Push(m)
      && IdsOf(SentOf(sub, k + 1, group, id)) == IdsOf(SentOf(sub, k, group, id)) + [m.id]
  {
    OneMore(b, SentOf(sub, k, group, id), MessageAt(sub, k, group, id + k));
  }

  lemma {:induction false} SentAt(sub: C.Sub, n: nat, group: Id, id: Id, i: nat)
    requires i < n <= |sub.left|
    ensures SentOf(sub, n, group, id)[i] == MessageAt(sub, i, group, id + i)
  {
    if i < n - 1 { SentAt(sub, n - 1, group, id, i); }
  }

  /** Sending the members of a group. */
  method SendMembers(broker: MemoryBroker, sub: C.Sub, group: Id, nextId: Id) returns (taskIds: seq<Id>, newNext: Id)
    requires broker.Valid()
    modifies broker
    ensures broker.Valid()
    ensures broker.View() == PushAll(old(broker.View()), SentOf(sub, |sub.left|, group, nextId))
    ensures taskIds == IdsOf(SentOf(sub, |sub.left|, group, nextId)) && newNext == nextId + |sub.left|
  {
    taskIds := [];
    for i := 0 to |sub.left|
      invariant broker.Valid() && broker.View() == SendSome(sub, i, group, old(broker.View()), nextId)
      invariant taskIds == IdsOf(SentOf(sub, i, group, nextId))
    {
      SendSomeNext(sub, i, group, old(broker.View()), nextId);
      var msg := MessageAt(sub, i, group, nextId + i);
      taskIds := taskIds + [msg.id];
      broker.Enqueue(msg);
    }
    newNext := nextId + |sub.left|;
  }

  /** A group to be sent whose id, and correlation id, is `base`. */
  function SubOf(sigs: seq<Signature>, cb: Option<Signature>, base: Id): C.Sub {
    var callback := if cb.Some? then Some(IntoMessage(cb.value, base + 1)) else None;
    C.Sub(base, |sigs| % U32, callback, sigs)
  }

  /** The id of its first member: a callback takes one before. */
  function FirstOf(cb: Option<Signature>, base: Id): Id {
    if cb.Some? then base + 2 else base + 1
  }

  /** The messages that a plan enqueues, in order; `base` is the correlation id, and a group's id. */
  function Enqueued(p: Plan, base: Id): seq<Message> {
    match p
    case Line(sigs) => if sigs == [] then [] else [C.LineMessage(Some(base), sigs, base + 1)]
    case Team(sigs, cb) => SentOf(SubOf(sigs, cb, base), |sigs|, base, FirstOf(cb, base))
    case _ => []
  }

  /** The backend after a group has been opened, if the plan has one. */
  function Opened(p: Plan, backend: Backend, base: Id): Backend {
    match p
    case Team(sigs, _) => backend.InitGroup(base, |sigs| % U32)
    case Barren(sigs) => backend.InitGroup(base, |sigs| % U32)
    case _ => backend
  }

  // ---------------------------------------------------------------- what each canvas enqueues

  /** One message: the first task, with all the others in its header. */
  lemma ChainEnqueues(canvas: Canvas, sigs: seq<Signature>, base: Id, backend: Backend)
    requires ReadsChain(canvas, sigs)
    ensures var msgs := Enqueued(PlanOf(canvas), base);
      && |msgs| == 1 && Untried(msgs[0]) && Instantiates(msgs[0], sigs[0], ChainAdded(sigs, 0, []))
      && msgs[0].correlationId == Some(base) && msgs[0].groupId.None? && msgs[0].chordCallback.None?
    ensures Opened(PlanOf(canvas), backend, base) == backend
  {
    PlanReads(canvas, sigs, sigs[0]);
    MadeOf(sigs[0], base + 1);
  }

  /** One message for each member, in order, none of whose headers are added to; `cb` is the callback. */
  ghost predicate Members(msgs: seq<Message>, sigs: seq<Signature>, base: Id, cb: Option<Message>) {
    && |msgs| == |sigs|
    && (forall i :: 0 <= i < |msgs| ==>
          && Untried(msgs[i]) && Instantiates(msgs[i], sigs[i], map[]) && msgs[i].correlationId == Some(base)
          && msgs[i].groupId == Some(base) && msgs[i].groupTotal == Some(|sigs| % U32)
          && msgs[i].chordCallback == cb)
    && (forall i, j :: 0 <= i < j < |msgs| ==> msgs[i].id < msgs[j].id)
  }

  ghost predicate OpensGroup(backend: Backend, backend': Backend, base: Id, n: nat) {
    && backend'.results == backend.results && base in backend'.groups
    && backend'.groups[base] == GroupState(n % U32, 0, [])
    && backend'.groups - {base} == backend.groups - {base}
  }

  lemma TeamEnqueues(sigs: seq<Signature>, cb: Option<Signature>, base: Id, backend: Backend)
    ensures Members(Enqueued(Team(sigs, cb), base), sigs, base, SubOf(sigs, cb, base).callback)
    ensures forall m <- Enqueued(Team(sigs, cb), base) :: m.id >= FirstOf(cb, base)
    ensures OpensGroup(backend, Opened(Team(sigs, cb), backend, base), base, |sigs|)
  {
    var sub, first := SubOf(sigs, cb, base), FirstOf(cb, base);
    forall i | 0 <= i < |sigs|
      ensures SentOf(sub, |sigs|, base, first)[i] == MessageAt(sub, i, base, first + i)
      ensures sub.left[i..][0] == sigs[i] && Instantiates(IntoMessage(sigs[i], first + i), sigs[i], map[])
    {
      SentAt(sub, |sigs|, base, first, i);
      MadeOf(sigs[i], first + i);
    }
  }

  lemma GroupEnqueues(canvas: Canvas, sigs: seq<Signature>, base: Id, backend: Backend)
    requires ReadsGroup(canvas, sigs)
    ensures Members(Enqueued(PlanOf(canvas), base), sigs, base, None)
    ensures OpensGroup(backend, Opened(PlanOf(canvas), backend, base), base, |sigs|)
  {
    PlanIsGroup(canvas, sigs);
    TeamEnqueues(sigs, None, base, backend);
  }

  lemma PlanIsGroup(canvas: Canvas, sigs: seq<Signature>)
    requires ReadsGroup(canvas, sigs)
    ensures PlanOf(canvas) == Team(sigs, None)
  {
    PicksIff(canvas.members, sigs);
  }

  /** Every member carries the callback, one message made of the first task of the callback, under
      an id that no member has. */
  lemma ChordEnqueues(canvas: Canvas, sigs: seq<Signature>, cb: Signature, base: Id, backend: Backend)
    returns (x: Message)
    requires ReadsChord(canvas, sigs, cb)
    ensures Members(Enqueued(PlanOf(canvas), base), sigs, base, Some(x))
    ensures Untried(x) && Instantiates(x, cb, map[])
    ensures x.correlationId.None? && x.groupId.None? && x.groupTotal.None? && x.chordCallback.None?
    ensures forall m <- Enqueued(PlanOf(canvas), base) :: m.id != x.id
    ensures OpensGroup(backend, Opened(PlanOf(canvas), backend, base), base, |sigs|)
  {
    PlanReads(canvas, sigs, cb);
    TeamEnqueues(sigs, Some(cb), base, backend);
    x := IntoMessage(cb, base + 1);
    MadeOf(cb, base + 1);
  }

  /** A chord whose callback has no task opens its group and enqueues nothing; a chain without
      tasks does nothing. */
  lemma NothingEnqueued(canvas: Canvas, sigs: seq<Signature>, base: Id, backend: Backend)
    requires ReadsBarren(canvas, sigs) || ReadsEmpty(canvas)
    ensures Enqueued(PlanOf(canvas), base) == []
    ensures ReadsEmpty(canvas) ==> Opened(PlanOf(canvas), backend, base) == backend
    ensures ReadsBarren(canvas, sigs) ==> OpensGroup(backend, Opened(PlanOf(canvas), backend, base), base, |sigs|)
  {
    if ReadsEmpty(canvas) {
      SpellsIff(canvas.steps, []);
    } else {
      PicksIff(canvas.group, sigs);
      SpellsIff([canvas.callback], []);
    }
  }

  // ---------------------------------------------------------------- `apply`

  lemma OnePushed(b: Broker, m: Message)
    ensures PushAll(b, [m]) == b.Push(m) && IdsOf([m]) == [m.id]
  {
    assert [m][..0] == [];
    assert PushAll(b, []) == b && IdsOf([]) == [];
  }

  method Apply(canvas: Canvas, broker: MemoryBroker, backend: MemoryResultBackend, base: Id) returns (taskIds: seq<Id>)
    requires broker.Valid()
    modifies broker, backend
    ensures broker.Valid()
    ensures broker.View() == PushAll(old(broker.View()), Enqueued(PlanOf(canvas), base))
    ensures taskIds == IdsOf(Enqueued(PlanOf(canvas), base))
    ensures backend.View() == Opened(PlanOf(canvas), old(backend.View()), base)
  {
    match canvas {
      case Single(sig) =>
        var msg := IntoMessage(sig, base + 1);
        msg := msg.(correlationId := Some(base));
        taskIds := [msg.id];
        assert msg == C.LineMessage(Some(base), [sig], base + 1);
        OnePushed(broker.View(), msg);
        broker.Enqueue(msg);
      case Chain(steps) =>
        taskIds := [];
        if steps == [] {
          return;
        }
        var sigs := FlattenChainOf(steps);
        if sigs == [] {
          return;
        }
        var first := IntoMessage(sigs[0], base + 1);
        first := first.(correlationId := Some(base));
        if |sigs| > 1 {
          first := first.(headers := first.headers[ChainNextKey := ChainNext(sigs[1..])]);
        }
        taskIds := [first.id];
        OnePushed(broker.View(), first);
        broker.Enqueue(first);
      case Group(members) =>
        var sigs := FlattenGroupOf(members);
        var total := |sigs| % U32;
        backend.InitGroup(base, total);
        var newNext;
        taskIds, newNext := SendMembers(broker, C.Sub(base, total, None, sigs), base, base + 1);
      case Chord(group, callback) =>
        taskIds := [];
        var sigs := FlattenGroupOf(group);
        var total := |sigs| % U32;
        backend.InitGroup(base, total);
        var callbackSigs := FlattenChainOf([callback]);
        if callbackSigs == [] {
          return;
        }
        var callbackMsg := IntoMessage(callbackSigs[0], base + 1);
        var newNext;
        taskIds, newNext := SendMembers(broker, C.Sub(base, total, Some(callbackMsg), sigs), base, base + 2);
    }
  }

  // ---------------------------------------------------------------- the same, as a cluster's run

  lemma {:induction false} LeadsSnoc(c: C.Cluster, events: seq<C.Event>, d: C.Cluster, e: C.Event)
    requires C.Leads(c, events, d) && C.Enabled(d, e)
    ensures C.Leads(c, events + [e], C.Next(d, e))
    decreases |events|
  {
    if events == [] {
      assert [] + [e] == [e];
    } else {
      LeadsSnoc(C.Next(c, events[0]), events[1..], d, e);
      assert (events + [e])[1..] == events[1..] + [e];
    }
  }

  /** The cluster once the first `n` members of group `f` have been sent, not yet all of them. */
  function SomeSent(c: C.Cluster, f: Id, n: nat): C.Cluster
    requires f in c.subs && n < |c.subs[f].left|
  {
    c.(broker := SendSome(c.subs[f], n, f, c.broker, c.nextId),
       subs := c.subs[f := From(c.subs[f], n)], nextId := c.nextId + n)
  }

  lemma SendsNext(c: C.Cluster, f: Id, n: nat)
    requires f in c.subs && n + 1 < |c.subs[f].left|
    ensures C.Enabled(SomeSent(c, f, n), C.SendMember(f))
    ensures C.Send(SomeSent(c, f, n), f) == SomeSent(c, f, n + 1)
  {
    Tail(c.subs[f].left, n);
    SendSomeNext(c.subs[f], n, f, c.broker, c.nextId);
  }

  lemma NoneSent(c: C.Cluster, f: Id)
    requires f in c.subs && c.subs[f].left != []
    ensures SomeSent(c, f, 0) == c
  {
    assert c.subs[f].left[0..] == c.subs[f].left;
  }

  lemma {:induction false} SomeIsRun(c: C.Cluster, f: Id, n: nat) returns (events: seq<C.Event>)
    requires f in c.subs && n < |c.subs[f].left|
    ensures C.Leads(c, events, SomeSent(c, f, n))
  {
    if n == 0 {
      NoneSent(c, f);
      events := [];
    } else {
      var before := SomeIsRun(c, f, n - 1);
      SendsNext(c, f, n - 1);
      LeadsSnoc(c, before, SomeSent(c, f, n - 1), C.SendMember(f));
      events := before + [C.SendMember(f)];
    }
  }

  lemma SendAllIsRun(c: C.Cluster, f: Id) returns (events: seq<C.Event>, d: C.Cluster)
    requires f in c.subs && c.subs[f].left != []
    ensures C.Leads(c, events, d) && f !in d.subs && d.backend == c.backend
    ensures d.broker == SendSome(c.subs[f], |c.subs[f].left|, f, c.broker, c.nextId)
  {
    var n := |c.subs[f].left| - 1;
    var b := SomeSent(c, f, n);
    var before := SomeIsRun(c, f, n);
    LeadsSnoc(c, before, b, C.SendMember(f));
    events, d := before + [C.SendMember(f)], C.Send(b, f);
  }

  /** The cluster has the broker and the backend that `Apply` leaves when it starts from `c`'s. */
  ghost predicate Applied(c: C.Cluster, p: Plan, d: C.Cluster) {
    d.broker == PushAll(c.broker, Enqueued(p, c.nextId)) && d.backend == Opened(p, c.backend, c.nextId)
  }

  /** Submitting a canvas to a cluster, and letting its members be sent with nothing in
      between, leaves the broker and the backend that `Apply` leaves. */
  lemma ApplyIsRun(c: C.Cluster, canvas: Canvas) returns (events: seq<C.Event>, d: C.Cluster)
    requires Sendable(PlanOf(canvas)) && c.nextId !in c.subs
    ensures C.Leads(c, events, d) && Applied(c, PlanOf(canvas), d)
  {
    match PlanOf(canvas) {
      case Team(sigs, cb) => events, d := TeamIsRun(c, canvas, sigs, cb);
      case _ =>
        events, d := [C.Submit(canvas)], C.Next(c, C.Submit(canvas));
        LineApplied(c, PlanOf(canvas));
    }
  }

  lemma LineApplied(c: C.Cluster, p: Plan)
    requires !p.Team?
    ensures Applied(c, p, C.SubmitPlan(c, p))
  {
    if p.Line? && p.sigs != [] { OnePushed(c.broker, C.LineMessage(Some(c.nextId), p.sigs, c.nextId + 1)); }
  }

  lemma TeamIsRun(c: C.Cluster, canvas: Canvas, sigs: seq<Signature>, cb: Option<Signature>)
    returns (events: seq<C.Event>, d: C.Cluster)
    requires PlanOf(canvas) == Team(sigs, cb) && C.Enabled(c, C.Submit(canvas))
    ensures C.Leads(c, events, d) && Applied(c, Team(sigs, cb), d)
  {
    var c' := C.SubmitPlan(c, Team(sigs, cb));
    if sigs == [] {
      events, d := [C.Submit(canvas)], c';
    } else {
      TeamOpened(c, sigs, cb);
      var rest;
      rest, d := SendAllIsRun(c', c.nextId);
      events := [C.Submit(canvas)] + rest;
      assert events[1..] == rest && C.Next(c, C.Submit(canvas)) == c';
    }
  }

  lemma TeamOpened(c: C.Cluster, sigs: seq<Signature>, cb: Option<Signature>)
    requires sigs != []
    ensures var c', f := C.SubmitPlan(c, Team(sigs, cb)), c.nextId;
      && f in c'.subs && c'.subs[f] == SubOf(sigs, cb, f) && c'.nextId == FirstOf(cb, f)
      && c'.broker == c.broker && c'.backend == c.backend.InitGroup(f, |sigs| % U32)
  {
  }
}
