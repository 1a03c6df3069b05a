/** Chords: in every interleaving the callback is enqueued exactly once, when and only when
    all members have succeeded, and it is handed their results. */
module Chords {
  import opened Messages
  import opened Workflows
  import opened Results
  import opened Execution
  import opened Protocol
  import opened Invariants
  import opened Preservation

  /** The step puts message `id` on a queue from inside an execution. */
  predicate Fires(s: State, l: Label, id: Id)
    requires Enabled(s, l)
  {
    l.Run? && var e := Advance(s, l.id, l.oracle).effect; e.Spawn? && e.m.id == id
  }

  function FireCount(s: State, labels: seq<Label>, id: Id): nat
    decreases |labels|
  {
    if labels == [] || !Enabled(s, labels[0]) then 0
    else (if Fires(s, labels[0], id) then 1 else 0) + FireCount(Next(s, labels[0]), labels[1..], id)
  }

  function Present(s: State, id: Id): nat {
    if id in s.tokens then 1 else 0
  }

  lemma RunKeepsOwners(s: State, id: Id, o: Oracle)
    requires Inv(s) && CanRun(s, id, o)
    ensures Ran(s, RunStep(s, id, o), id) && SpawnOk(s, id, Advance(s, id, o))
  {
    Identify(s, id);
    AdvanceIsTame(s, id, o);
    RunChanges(s, id, o, Advance(s, id, o));
  }

  lemma OwnersStay(s: State, l: Label)
    requires Inv(s) && Enabled(s, l)
    ensures forall i <- s.owner :: i in Next(s, l).owner && Next(s, l).owner[i] == s.owner[i]
  {
    if l.Run? { RunKeepsOwners(s, l.id, l.oracle); } else { OtherKeepsOwners(s, l); }
  }

  lemma OtherKeepsOwners(s: State, l: Label)
    requires Allocated(s) && Enabled(s, l) && !l.Run?
    ensures forall i <- s.owner :: i in Next(s, l).owner && Next(s, l).owner[i] == s.owner[i]
  {
    if l.Submit? { SubmitKeepsOwners(s, PlanOf(l.canvas)); }
  }

  lemma SubmitKeepsOwners(s: State, p: Plan)
    requires Allocated(s)
    ensures forall i <- s.owner :: i in SubmitPlan(s, p).owner && SubmitPlan(s, p).owner[i] == s.owner[i]
  {
  }

  lemma {:induction false} OwnersStayAlong(s: State, labels: seq<Label>, t: State, id: Id)
    requires Inv(s) && Leads(s, labels, t) && id in s.owner
    ensures id in t.owner && t.owner[id] == s.owner[id]
    decreases |labels|
  {
    if labels != [] {
      OwnersStay(s, labels[0]);
      NextKeepsInv(s, labels[0]);
      OwnersStayAlong(Next(s, labels[0]), labels[1..], t, id);
    }
  }

  lemma RunEnters(s: State, id: Id, o: Oracle, out: Outcome, cb: Id)
    requires Allocated(s) && CanRun(s, id, o) && id in s.owner && SpawnOk(s, id, out)
    requires cb in RunWith(s, id, o, out).owner ==> RunWith(s, id, o, out).owner[cb].Callback?
    ensures Present(RunWith(s, id, o, out), cb)
      == Present(s, cb) + if out.effect.Spawn? && out.effect.m.id == cb then 1 else 0
  {
  }

  /** A callback exists only because it was fired, and firing it needs it not to exist. */
  lemma CallbackEnters(s: State, l: Label, id: Id)
    requires Inv(s) && Enabled(s, l)
    requires id in Next(s, l).owner ==> Next(s, l).owner[id].Callback?
    ensures Present(Next(s, l), id) == Present(s, id) + if Fires(s, l, id) then 1 else 0
  {
    if l.Run? {
      RunKeepsOwners(s, l.id, l.oracle);
      RunEnters(s, l.id, l.oracle, Advance(s, l.id, l.oracle), id);
    } else if l.Submit? {
      SubmitEnters(s, PlanOf(l.canvas), id);
    }
  }

  lemma SubmitEnters(s: State, p: Plan, id: Id)
    requires id in SubmitPlan(s, p).owner ==> SubmitPlan(s, p).owner[id].Callback?
    ensures Present(SubmitPlan(s, p), id) == Present(s, id)
  {
  }

  lemma {:induction false} FireCountIs(s: State, labels: seq<Label>, t: State, id: Id)
    requires Inv(s) && Leads(s, labels, t) && id in t.owner && t.owner[id].Callback?
    ensures FireCount(s, labels, id) + Present(s, id) == Present(t, id)
    decreases |labels|
  {
    if labels != [] {
      var next := Next(s, labels[0]);
      NextKeepsInv(s, labels[0]);
      if id in next.owner { OwnersStayAlong(next, labels[1..], t, id); }
      CallbackEnters(s, labels[0], id);
      FireCountIs(next, labels[1..], t, id);
    }
  }

  // ---------------------------------------------------------------- what a fired chord looks like

  /** All members have been sent and each has succeeded and been counted. */
  predicate AllDone(s: State, f: Id)
    requires f in s.flows && s.flows[f].TeamFlow?
  {
    var fl := s.flows[f];
    && |fl.ids| == |fl.sigs|
    && forall i :: 0 <= i < |fl.ids| ==> fl.ids[i] in s.tokens && StageOf(s.tokens[fl.ids[i]].loc).Over?
  }

  function ValueAt(s: State, id: Id): Value {
    if id in s.tokens then
      match StageOf(s.tokens[id].loc)
      case Pre => Null
      case Won(v) => v
      case Calling(v) => v
      case Over(v) => v
    else Null
  }

  /** The members' results, in the order of the members. */
  function MemberValues(s: State, ids: seq<Id>): (r: seq<Value>)
    ensures |r| == |ids|
  {
    if ids == [] then [] else MemberValues(s, ids[..|ids| - 1]) + [ValueAt(s, ids[|ids| - 1])]
  }

  lemma {:induction false} MemberValueAt(s: State, ids: seq<Id>, k: nat)
    requires k < |ids|
    ensures MemberValues(s, ids)[k] == ValueAt(s, ids[k])
  {
    if k < |ids| - 1 {
      assert ids[..|ids| - 1][k] == ids[k];
      MemberValueAt(s, ids[..|ids| - 1], k);
    }
  }

  lemma {:induction false} ValuesSplit(s: State, a: seq<Id>, b: seq<Id>)
    ensures MemberValues(s, a + b) == MemberValues(s, a) + MemberValues(s, b)
  {
    if b == [] {
      assert a + b == a;
    } else {
      assert (a + b)[..|a + b| - 1] == a + b[..|b| - 1];
      ValuesSplit(s, a, b[..|b| - 1]);
    }
  }

  /** Listing the members in another order only permutes their results. */
  lemma {:induction false} ValuesPermute(s: State, done: seq<Id>, ids: seq<Id>)
    requires |done| == |ids|
    requires forall j, k :: 0 <= j < k < |done| ==> done[j] != done[k]
    requires forall k :: 0 <= k < |done| ==> done[k] in ids
    ensures multiset(MemberValues(s, done)) == multiset(MemberValues(s, ids))
  {
    if done != [] {
      var front, last := done[..|done| - 1], done[|done| - 1];
      var i :| 0 <= i < |ids| && ids[i] == last;
      var rest := ids[..i] + ids[i + 1..];
      forall k | 0 <= k < |front| ensures front[k] in rest {
        assert front[k] == done[k];
        var j :| 0 <= j < |ids| && ids[j] == done[k];
        assert rest[if j < i then j else j - 1] == done[k];
      }
      ValuesPermute(s, front, rest);
      ValuesWithout(s, ids, i);
    }
  }

  lemma ValuesWithout(s: State, ids: seq<Id>, i: nat)
    requires i < |ids|
    ensures multiset(MemberValues(s, ids))
      == multiset(MemberValues(s, ids[..i] + ids[i + 1..])) + multiset{ValueAt(s, ids[i])}
  {
    assert ids == ids[..i] + ([ids[i]] + ids[i + 1..]);
    ValuesSplit(s, ids[..i], [ids[i]] + ids[i + 1..]);
    ValuesSplit(s, [ids[i]], ids[i + 1..]);
    ValuesSplit(s, ids[..i], ids[i + 1..]);
    assert MemberValues(s, [ids[i]]) == [ValueAt(s, ids[i])];
  }

  /** The group results are the members' results, permuted. */
  lemma ResultsPermute(s: State, f: Id)
    requires Inv(s) && f in s.flows && s.flows[f].TeamFlow? && |s.flows[f].done| == |s.flows[f].sigs|
    ensures f in s.backend.groups && |s.flows[f].ids| == |s.flows[f].sigs|
    ensures multiset(s.backend.groups[f].results) == multiset(MemberValues(s, s.flows[f].ids))
    ensures forall i :: 0 <= i < |s.flows[f].ids| ==> s.flows[f].ids[i] in s.flows[f].done
  {
    var fl := s.flows[f];
    assert TeamOk(s, f) by { assert FlowOk(s, f); }
    var vs := s.backend.groups[f].results;
    forall k | 0 <= k < |fl.done| ensures fl.done[k] in fl.ids && vs[k] == MemberValues(s, fl.done)[k] {
      assert CountedOk(s, f, k);
      MemberValueAt(s, fl.done, k);
    }
    Pigeonhole(fl.done, fl.ids);
    assert vs == MemberValues(s, fl.done);
    ValuesPermute(s, fl.done, fl.ids);
  }

  /** The callback has been fired exactly when every member is done. */
  lemma FiredIffAllDone(s: State, f: Id)
    requires Inv(s) && f in s.flows && s.flows[f].TeamFlow? && s.flows[f].sigs != [] && s.hasBackend
    ensures Fired(s, f) <==> AllDone(s, f)
  {
    var fl := s.flows[f];
    assert TeamOk(s, f) by { assert FlowOk(s, f); }
    if Fired(s, f) {
      ResultsPermute(s, f);
      forall i | 0 <= i < |fl.ids| ensures fl.ids[i] in s.tokens && StageOf(s.tokens[fl.ids[i]].loc).Over? {
        assert MemberOk(s, f, i);
      }
    }
    if AllDone(s, f) {
      forall i | 0 <= i < |fl.ids| ensures fl.ids[i] in fl.done { assert MemberOk(s, f, i); }
      forall j, k | 0 <= j < k < |fl.ids| ensures fl.ids[j] != fl.ids[k] {
        assert MemberOk(s, f, j) && MemberOk(s, f, k);
      }
      Pigeonhole(fl.ids, fl.done);
      forall k | 0 <= k < |fl.done| ensures fl.done[k] in fl.ids { assert CountedOk(s, f, k); }
      Pigeonhole(fl.done, fl.ids);
      assert CountedOk(s, f, |fl.done| - 1);
    }
  }

  /** The callback in a queue is the one submitted, with the members' results in its header. */
  ghost predicate CarriesResults(t: State, f: Id)
    requires f in t.flows && t.flows[f].TeamFlow? && t.flows[f].cb.Some?
  {
    var cb := t.flows[f].cb.value;
    cb.id in t.tokens && exists vs: seq<Value> ::
      && multiset(vs) == multiset(MemberValues(t, t.flows[f].ids))
      && Norm(t.tokens[cb.id].msg) == cb.(headers := cb.headers[GroupResultsKey := GroupResults(vs)])
  }

  lemma FiredCarries(t: State, f: Id)
    requires Inv(t) && f in t.flows && t.flows[f].TeamFlow? && t.flows[f].cb.Some? && Fired(t, f)
    ensures CarriesResults(t, f)
  {
    assert TeamOk(t, f) by { assert FlowOk(t, f); }
    assert CallbackOk(t, f);
    ResultsPermute(t, f);
    var vs := t.backend.groups[f].results;
    assert Norm(t.tokens[t.flows[f].cb.value.id].msg) == WithResults(t.flows[f].cb.value, vs);
  }

  lemma DoneSucceeded(t: State, f: Id)
    requires TokensOk(t) && f in t.flows && t.flows[f].TeamFlow? && AllDone(t, f)
    ensures forall id <- t.flows[f].ids :: t.tokens[id].msg.state == Success
  {
    forall id <- t.flows[f].ids ensures t.tokens[id].msg.state == Success { assert TokenOk(t, id); }
  }

  /** The chord theorem.  On every run, the number of times the callback has been enqueued
      is one if all n >= 1 members have succeeded and been counted, and zero otherwise; once
      enqueued, the callback carries the members' results, permuted, and is otherwise the
      message that was submitted. */
  lemma ChordFiresOnce(s: State, labels: seq<Label>, t: State, f: Id)
    requires Init(s) && s.hasBackend && Leads(s, labels, t)
    requires f in t.flows && t.flows[f].TeamFlow? && t.flows[f].cb.Some? && t.flows[f].sigs != []
    ensures FireCount(s, labels, t.flows[f].cb.value.id) == (if AllDone(t, f) then 1 else 0)
    ensures AllDone(t, f) ==> CarriesResults(t, f) && forall id <- t.flows[f].ids :: t.tokens[id].msg.state == Success
  {
    InitInv(s);
    LeadsKeepsInv(s, labels, t);
    BackendFixed(s, labels, t);
    CallbackPresence(t, f);
    FireCountIs(s, labels, t, t.flows[f].cb.value.id);
    FiredIffAllDone(t, f);
    if AllDone(t, f) { FiredCarries(t, f); DoneSucceeded(t, f); }
  }

  lemma CallbackPresence(t: State, f: Id)
    requires Inv(t) && f in t.flows && t.flows[f].TeamFlow? && t.flows[f].cb.Some?
    ensures var cb := t.flows[f].cb.value;
      cb.id in t.owner && t.owner[cb.id] == Callback(f) && (cb.id in t.tokens <==> Fired(t, f))
  {
    assert TeamOk(t, f) by { assert FlowOk(t, f); }
    assert CallbackOk(t, f);
  }

  lemma BackendFixed(s: State, labels: seq<Label>, t: State)
    requires Leads(s, labels, t)
    ensures t.hasBackend == s.hasBackend
    decreases |labels|
  {
    if labels != [] { BackendFixed(Next(s, labels[0]), labels[1..], t); }
  }

  /** An empty chord never fires, nor does one without a result backend. */
  lemma EmptyChordNeverFires(s: State, labels: seq<Label>, t: State, f: Id)
    requires Init(s) && Leads(s, labels, t)
    requires f in t.flows && t.flows[f].TeamFlow? && t.flows[f].cb.Some?
    requires t.flows[f].sigs == [] || !s.hasBackend
    ensures FireCount(s, labels, t.flows[f].cb.value.id) == 0
  {
    InitInv(s);
    LeadsKeepsInv(s, labels, t);
    BackendFixed(s, labels, t);
    assert TeamOk(t, f) by { assert FlowOk(t, f); }
    assert CallbackOk(t, f);
    FireCountIs(s, labels, t, t.flows[f].cb.value.id);
  }

  // ---------------------------------------------------------------- a member that fails for good

  predicate Gone(loc: Loc) {
    loc.Dead? || loc.Lost?
  }

  /** Nothing more happens to the message. */
  predicate AtRest(loc: Loc) {
    loc.Finished? || Gone(loc)
  }

  lemma GoneStep(s: State, l: Label, id: Id)
    requires Allocated(s) && Enabled(s, l) && id in s.tokens && AtRest(s.tokens[id].loc)
    requires l.Run? ==> Ran(s, RunStep(s, l.id, l.oracle), l.id)
    ensures id in Next(s, l).tokens && Next(s, l).tokens[id] == s.tokens[id]
  {
    assert id < s.nextId;
  }

  lemma {:induction false} GoneStays(s: State, labels: seq<Label>, t: State, id: Id)
    requires Inv(s) && Leads(s, labels, t) && id in s.tokens && AtRest(s.tokens[id].loc)
    ensures id in t.tokens && t.tokens[id] == s.tokens[id]
    decreases |labels|
  {
    if labels != [] {
      var l := labels[0];
      if l.Run? { RunKeepsOwners(s, l.id, l.oracle); }
      GoneStep(s, l, id);
      NextKeepsInv(s, l);
      GoneStays(Next(s, l), labels[1..], t, id);
    }
  }

  /** Once a member is dead-lettered (or lost), the callback has not been and will never be enqueued. */
  lemma DeadMemberSilences(s: State, before: seq<Label>, m: State, after: seq<Label>, t: State, f: Id, i: nat)
    requires Init(s) && s.hasBackend && Leads(s, before, m) && Leads(m, after, t)
    requires f in m.flows && m.flows[f].TeamFlow? && i < |m.flows[f].ids|
    requires m.flows[f].ids[i] in m.tokens && Gone(m.tokens[m.flows[f].ids[i]].loc)
    requires f in t.flows && t.flows[f].TeamFlow? && t.flows[f].cb.Some?
    ensures FireCount(s, before, t.flows[f].cb.value.id) == 0
    ensures FireCount(m, after, t.flows[f].cb.value.id) == 0
  {
    InitInv(s);
    LeadsKeepsInv(s, before, m);
    LeadsKeepsInv(m, after, t);
    BackendFixed(s, before, m);
    BackendFixed(m, after, t);
    var id := m.flows[f].ids[i];
    assert FlowOk(m, f) && MemberOk(m, f, i);
    OwnersStayAlong(m, after, t, id);
    GoneStays(m, after, t, id);
    assert TokenOk(t, id) && FlowOk(t, f) && TeamOk(t, f);
    FiredIffAllDone(t, f);
    assert CallbackOk(t, f) && !AllDone(t, f);
    var cb := t.flows[f].cb.value.id;
    FireCountIs(m, after, t, cb);
    assert Present(m, cb) == 0;
    if cb in m.owner { OwnersStayAlong(m, after, t, cb); FireCountIs(s, before, m, cb); }
    else { NeverOwned(s, before, m, cb); }
  }

  /** What has not been allocated by the end of a run was not fired during it. */
  lemma {:induction false} NeverOwned(s: State, labels: seq<Label>, t: State, id: Id)
    requires Inv(s) && Leads(s, labels, t) && id !in t.owner
    ensures FireCount(s, labels, id) == 0
    decreases |labels|
  {
    if labels != [] {
      var next := Next(s, labels[0]);
      NextKeepsInv(s, labels[0]);
      if id in next.owner { OwnersStayAlong(next, labels[1..], t, id); }
      CallbackEnters(s, labels[0], id);
      NeverOwned(next, labels[1..], t, id);
    }
  }
}
