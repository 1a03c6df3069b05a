/** What a chord's callback is given is what the handlers of its members returned. */
module Returns {
  import opened Messages
  import opened Workflows
  import opened Results
  import opened Execution
  import opened Invariants
  import opened Refinement
  import opened Guarantees
  import opened Outcomes
  import C = Cluster
  import P = Protocol
  import Preservation
  import Chords

  // ---------------------------------------------------------------- one message

  function ValueOf(loc: P.Loc): Option<Value> {
    match StageOf(loc)
    case Pre => None
    case Won(v) => Some(v)
    case Calling(v) => Some(v)
    case Over(v) => Some(v)
  }

  /** The result that message `id` has produced, if it has. */
  function ResultOf(s: P.State, id: Id): Option<Value> {
    if id in s.tokens then ValueOf(s.tokens[id].loc) else None
  }

  /** The step is a successful handler call for `id`. */
  predicate Succeeds(s: P.State, l: P.Label, id: Id)
    requires P.Enabled(s, l)
  {
    l.Run? && l.id == id && s.tokens[id].loc.pc.Dispatch? && l.oracle.handler.Some?
  }

  /** The successful handler calls for `id` along a run. */
  function Successes(s: P.State, labels: seq<P.Label>, id: Id): seq<Win>
    decreases |labels|
  {
    if labels == [] || !P.Enabled(s, labels[0]) then []
    else (if Succeeds(s, labels[0], id) then [Win(s.tokens[id].msg, labels[0].oracle.handler.value)] else [])
         + Successes(P.Next(s, labels[0]), labels[1..], id)
  }

  /** Only a successful handler call gives `id` a result, and only if it has none. */
  ghost predicate Follows(s: P.State, l: P.Label, s': P.State, id: Id)
    requires P.Enabled(s, l)
  {
    && (id in s.tokens ==> id in s'.tokens && Norm(s'.tokens[id].msg) == Norm(s.tokens[id].msg))
    && (Succeeds(s, l, id) ==> ResultOf(s, id) == None)
    && ResultOf(s', id) == if Succeeds(s, l, id) then Some(l.oracle.handler.value) else ResultOf(s, id)
  }

  /** One operation of a message's own execution. */
  predicate Advances(t: P.Token, t': P.Token, o: Oracle)
    requires t.loc.Running?
  {
    var won := t.loc.pc.Dispatch? && o.handler.Some?;
    && Norm(t'.msg) == Norm(t.msg) && (won ==> ValueOf(t.loc) == None)
    && ValueOf(t'.loc) == if won then o.handler else ValueOf(t.loc)
  }

  lemma ResumeFollows(t: P.Token, b: Backend, o: Oracle, newId: Id, hasBackend: bool)
    requires t.loc.Running?
    ensures Advances(t, P.Settle(t, Resume(P.ExecOf(t), b, o, newId, hasBackend)), o)
  {
  }

  lemma RunFollows(s: P.State, i: Id, o: Oracle, out: Outcome, id: Id)
    requires Preservation.CanRun(s, i, o) && (out.effect.Spawn? ==> out.effect.m.id !in s.tokens)
    requires Advances(s.tokens[i], P.Settle(s.tokens[i], out), o)
    ensures Follows(s, P.Run(i, o), P.RunWith(s, i, o, out), id)
  {
  }

  lemma SubmitFollows(s: P.State, p: Plan, id: Id)
    requires Allocated(s)
    ensures id in s.tokens ==> id in P.SubmitPlan(s, p).tokens && P.SubmitPlan(s, p).tokens[id] == s.tokens[id]
    ensures ResultOf(P.SubmitPlan(s, p), id) == ResultOf(s, id)
  {
  }

  lemma StepFollows(s: P.State, l: P.Label, id: Id)
    requires Inv(s) && P.Enabled(s, l)
    ensures Follows(s, l, P.Next(s, l), id)
  {
    if l.Run? {
      SpawnsNew(s, l.id, l.oracle);
      ResumeFollows(s.tokens[l.id], s.backend, l.oracle, s.nextId, s.hasBackend);
      RunFollows(s, l.id, l.oracle, P.Advance(s, l.id, l.oracle), id);
    } else if l.Submit? {
      SubmitFollows(s, PlanOf(l.canvas), id);
    } else {
      OtherFollows(s, l, id);
    }
  }

  lemma OtherFollows(s: P.State, l: P.Label, id: Id)
    requires Allocated(s) && P.Enabled(s, l) && !l.Run? && !l.Submit?
    ensures Follows(s, l, P.Next(s, l), id)
  {
  }

  /** `wins` is the one successful call behind a result, or empty when there is none. */
  ghost predicate Explains(wins: seq<Win>, t: P.State, id: Id) {
    if ResultOf(t, id).None? then wins == []
    else |wins| == 1 && wins[0].value == ResultOf(t, id).value && Norm(wins[0].msg) == Norm(t.tokens[id].msg)
  }

  /** A handler succeeds at most once for a message, and the message's result is what it returned. */
  lemma {:induction false} SucceedsOnce(s: P.State, labels: seq<P.Label>, t: P.State, id: Id)
    requires Inv(s) && P.Leads(s, labels, t)
    ensures id in s.tokens ==> id in t.tokens && Norm(t.tokens[id].msg) == Norm(s.tokens[id].msg)
    ensures if ResultOf(s, id).None? then Explains(Successes(s, labels, id), t, id)
            else Successes(s, labels, id) == [] && ResultOf(t, id) == ResultOf(s, id)
    decreases |labels|
  {
    if labels != [] {
      StepFollows(s, labels[0], id);
      Preservation.NextKeepsInv(s, labels[0]);
      SucceedsOnce(P.Next(s, labels[0]), labels[1..], t, id);
    }
  }

  // ---------------------------------------------------------------- on the cluster

  predicate ReturnsFor(c: C.Cluster, e: C.Event, id: Id)
    requires C.Enabled(c, e)
  {
    e.Step? && c.jobs[e.job].x.msg.id == id && c.jobs[e.job].x.pc.Dispatch? && e.oracle.handler.Some?
  }

  /** The successful handler calls for message `id` along a run, with what they returned. */
  function Returned(c: C.Cluster, events: seq<C.Event>, id: Id): seq<Win>
    decreases |events|
  {
    if events == [] || !C.Enabled(c, events[0]) then []
    else (if ReturnsFor(c, events[0], id)
          then [Win(c.jobs[events[0].job].x.msg, events[0].oracle.handler.value)] else [])
         + Returned(C.Next(c, events[0]), events[1..], id)
  }

  lemma ReturnedCons(c: C.Cluster, events: seq<C.Event>, s: P.State, l: P.Label, rest: seq<P.Label>, id: Id)
    requires events != [] && C.Enabled(c, events[0]) && LabelOf(c, events[0]) == Some(l) && P.Enabled(s, l)
    requires events[0].Step? ==> P.ExecOf(s.tokens[l.id]) == c.jobs[events[0].job].x
    requires Returned(C.Next(c, events[0]), events[1..], id) == Successes(P.Next(s, l), rest, id)
    ensures Returned(c, events, id) == Successes(s, [l] + rest, id)
  {
    assert ([l] + rest)[0] == l && ([l] + rest)[1..] == rest;
  }

  lemma {:induction false} ReturnedAgrees(c: C.Cluster, s: P.State, events: seq<C.Event>, d: C.Cluster, id: Id)
    requires Refines(c, s) && Inv(s) && C.Leads(c, events, d)
    ensures Returned(c, events, id) == Successes(s, LabelsOf(c, events), id)
    decreases |events|
  {
    if events != [] {
      var e := events[0];
      Simulated(c, s, e);
      LabelsCons(c, events);
      match LabelOf(c, e) {
        case None =>
          ReturnedAgrees(C.Next(c, e), s, events[1..], d, id);
        case Some(l) =>
          Preservation.NextKeepsInv(s, l);
          ReturnedAgrees(C.Next(c, e), P.Next(s, l), events[1..], d, id);
          if e.Step? { JobIsToken(c, s, e); }
          ReturnedCons(c, events, s, l, LabelsOf(C.Next(c, e), events[1..]), id);
      }
    }
  }

  // ---------------------------------------------------------------- a chord's members

  /** Member `k` of the group ran signature `sig` to success once, and returned `v`. */
  predicate MemberReturned(wins: seq<Win>, f: Id, sig: Signature, v: Value) {
    && |wins| == 1 && wins[0].value == v && wins[0].msg.groupId == Some(f)
    && wins[0].msg.taskName == sig.taskName && wins[0].msg.payload == sig.payload
  }

  lemma CountedMember(t: P.State, f: Id, k: nat)
    requires Inv(t) && f in t.flows && t.flows[f].TeamFlow? && |t.flows[f].done| == |t.flows[f].sigs|
    requires k < |t.flows[f].ids| == |t.flows[f].sigs| && t.flows[f].ids[k] in t.flows[f].done
    ensures var id, fl := t.flows[f].ids[k], t.flows[f];
      && ResultOf(t, id) == Some(Chords.ValueAt(t, id))
      && t.tokens[id].msg.groupId == Some(f) && t.tokens[id].msg.taskName == fl.sigs[k].taskName
      && t.tokens[id].msg.payload == fl.sigs[k].payload
  {
    assert FlowOk(t, f) && MemberOk(t, f, k);
    var m := t.tokens[t.flows[f].ids[k]].msg;
    assert Norm(m).groupId == m.groupId && Norm(m).taskName == m.taskName && Norm(m).payload == m.payload;
  }

  lemma MemberExplained(s: P.State, labels: seq<P.Label>, t: P.State, f: Id, k: nat)
    requires Inv(s) && Inv(t) && P.Leads(s, labels, t) && f in t.flows && t.flows[f].TeamFlow?
    requires |t.flows[f].done| == |t.flows[f].sigs| && k < |t.flows[f].ids| == |t.flows[f].sigs|
    requires t.flows[f].ids[k] in t.flows[f].done && t.flows[f].ids[k] !in s.tokens
    ensures var id := t.flows[f].ids[k];
      MemberReturned(Successes(s, labels, id), f, t.flows[f].sigs[k], Chords.ValueAt(t, id))
  {
    var id := t.flows[f].ids[k];
    CountedMember(t, f, k);
    SucceedsOnce(s, labels, t, id);
    var x := Successes(s, labels, id)[0].msg;
    assert Norm(x).groupId == x.groupId && Norm(x).taskName == x.taskName && Norm(x).payload == x.payload;
    assert Norm(t.tokens[id].msg).taskName == t.tokens[id].msg.taskName
      && Norm(t.tokens[id].msg).payload == t.tokens[id].msg.payload
      && Norm(t.tokens[id].msg).groupId == t.tokens[id].msg.groupId;
  }

  /** Distinct messages, one for each member, each of which succeeded once; `vs` is what they returned. */
  ghost predicate Members(c: C.Cluster, events: seq<C.Event>, f: Id, sigs: seq<Signature>, ids: seq<Id>,
                          vs: seq<Value>) {
    && |ids| == |vs| == |sigs| && (forall j, k :: 0 <= j < k < |ids| ==> ids[j] != ids[k])
    && forall k :: 0 <= k < |ids| ==> MemberReturned(Returned(c, events, ids[k]), f, sigs[k], vs[k])
  }

  /** A token of a run that began with none of the group's members sent was sent since. */
  lemma SentSince(s: P.State, labels: seq<P.Label>, t: P.State, f: Id, k: nat)
    requires Inv(s) && Inv(t) && P.Leads(s, labels, t)
    requires f in s.flows && s.flows[f].TeamFlow? && s.flows[f].ids == []
    requires f in t.flows && t.flows[f].TeamFlow? && k < |t.flows[f].ids|
    ensures t.flows[f].ids[k] !in s.tokens
  {
    var id := t.flows[f].ids[k];
    assert FlowOk(t, f) && MemberOk(t, f, k);
    if id in s.tokens {
      Preservation.Identify(s, id);
      Chords.OwnersStayAlong(s, labels, t, id);
    }
  }

  lemma ResultsFrom(m: C.Cluster, s: P.State, after: seq<C.Event>, d: C.Cluster,
                    f: Id) returns (ids: seq<Id>, vs: seq<Value>)
    requires Refines(m, s) && Inv(s) && C.Leads(m, after, d)
    requires f in s.flows && s.flows[f].TeamFlow? && s.flows[f].ids == []
    requires f in d.backend.groups && d.backend.groups[f].completed == |s.flows[f].sigs|
    ensures Members(m, after, f, s.flows[f].sigs, ids, vs) && multiset(d.backend.groups[f].results) == multiset(vs)
  {
    var t := RunsRefine(m, s, after, d);
    TeamStaysAlong(s, LabelsOf(m, after), t, f);
    assert FlowOk(t, f);
    Chords.ResultsPermute(t, f);
    ids := t.flows[f].ids;
    vs := Chords.MemberValues(t, ids);
    forall k | 0 <= k < |ids| ensures MemberReturned(Returned(m, after, ids[k]), f, s.flows[f].sigs[k], vs[k]) {
      Chords.MemberValueAt(t, ids, k);
      SentSince(s, LabelsOf(m, after), t, f, k);
      MemberExplained(s, LabelsOf(m, after), t, f, k);
      ReturnedAgrees(m, s, after, d, ids[k]);
    }
    forall j, k | 0 <= j < k < |ids| ensures ids[j] != ids[k] {
      assert MemberOk(t, f, j) && MemberOk(t, f, k);
    }
  }

  /** Once a chord's n members are counted, the stored results are a permutation of what the
      successful handler calls of n distinct messages returned, one for each member, of its
      own task and payload, each the only one of its message. */
  lemma ResultsAreReturned(c: C.Cluster, before: seq<C.Event>, m: C.Cluster, canvas: Canvas, m': C.Cluster,
                           sigs: seq<Signature>,
                           cb: Signature, after: seq<C.Event>, d: C.Cluster) returns (ids: seq<Id>, vs: seq<Value>)
    requires C.Init(c) && C.Leads(c, before, m) && C.TakesIn(m, canvas, m')
    requires ReadsChord(canvas, sigs, cb)
    requires C.Leads(m', after, d)
    requires m.nextId in d.backend.groups && d.backend.groups[m.nextId].completed == |sigs|
    ensures Members(m', after, m.nextId, sigs, ids, vs)
    ensures multiset(d.backend.groups[m.nextId].results) == multiset(vs)
  {
    var s := AfterSubmit(c, before, m, canvas, m', sigs, cb);
    ids, vs := ResultsFrom(m', s, after, d, m.nextId);
  }
}
