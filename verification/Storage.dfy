/** Results under their tasks' ids (kojin-core/src/worker.rs:277-280): on every run exactly the
    tasks whose handler succeeded, and that are past storing, have a result, the one returned. */
module Storage {
  import opened Messages
  import opened Workflows
  import opened Results
  import opened Execution
  import opened Invariants
  import opened Refinement
  import opened Guarantees
  import opened Outcomes
  import opened Returns
  import C = Cluster
  import P = Protocol
  import Preservation
  import Chords

  // ---------------------------------------------------------------- seen from the messages

  /** The value of a message that is past storing its result. */
  function Kept(loc: P.Loc): Option<Value> {
    match loc
    case Finished(v) => Some(v)
    case Running(_, pc) => if pc.Ack? || pc.Store? then None else Carried(pc)
    case _ => None
  }

  /** There is a result for `id` exactly when it is past storing it. */
  ghost predicate StoredIs(s: P.State, id: Id) {
    && (id in s.backend.results <==> s.hasBackend && id in s.tokens && Kept(s.tokens[id].loc).Some?)
    && (id in s.backend.results ==> Some(s.backend.results[id]) == Kept(s.tokens[id].loc))
  }

  /** One operation stores a result or leaves all results alone. */
  predicate Books(t: P.Token, b: Backend, out: Outcome)
    requires t.loc.Running?
  {
    var stored := t.loc.pc.Store?;
    && out.backend.results == (if stored then b.results[t.msg.id := t.loc.pc.v] else b.results)
    && Kept(P.Settle(t, out).loc) == (if stored then Some(t.loc.pc.v) else Kept(t.loc))
  }

  lemma ResumeBooks(t: P.Token, b: Backend, o: Oracle, newId: Id)
    requires t.loc.Running?
    ensures Books(t, b, Resume(P.ExecOf(t), b, o, newId, true))
  {
  }

  lemma NoBackendStoresNothing(t: P.Token, b: Backend, o: Oracle, newId: Id)
    requires t.loc.Running? && !PastAck(t.loc.pc)
    ensures Resume(P.ExecOf(t), b, o, newId, false).backend == b
  {
  }

  lemma RunStores(s: P.State, i: Id, o: Oracle, out: Outcome, id: Id)
    requires StoredIs(s, id) && Preservation.CanRun(s, i, o) && s.tokens[i].msg.id == i
    requires out.effect.Spawn? ==> out.effect.m.id !in s.tokens
    requires if s.hasBackend then Books(s.tokens[i], s.backend, out) else out.backend == s.backend
    ensures StoredIs(P.RunWith(s, i, o, out), id)
    ensures id in s.backend.results ==>
      id in out.backend.results && out.backend.results[id] == s.backend.results[id]
  {
  }

  ghost predicate StoredNext(s: P.State, s': P.State, id: Id) {
    && StoredIs(s', id)
    && (id in s.backend.results ==>
          id in s'.backend.results && s'.backend.results[id] == s.backend.results[id])
  }

  lemma StepStores(s: P.State, l: P.Label, id: Id)
    requires Inv(s) && P.Enabled(s, l) && StoredIs(s, id)
    ensures StoredNext(s, P.Next(s, l), id)
  {
    if l.Run? {
      OwnIds(s);
      SpawnsNew(s, l.id, l.oracle);
      assert TokenOk(s, l.id);
      if s.hasBackend {
        ResumeBooks(s.tokens[l.id], s.backend, l.oracle, s.nextId);
      } else {
        NoBackendStoresNothing(s.tokens[l.id], s.backend, l.oracle, s.nextId);
      }
      RunStores(s, l.id, l.oracle, P.Advance(s, l.id, l.oracle), id);
    } else if l.Submit? {
      SubmitStores(s, PlanOf(l.canvas), id);
    } else {
      OtherStores(s, l, id);
    }
  }

  lemma SubmitStores(s: P.State, p: Plan, id: Id)
    requires Allocated(s) && StoredIs(s, id)
    ensures StoredNext(s, P.SubmitPlan(s, p), id)
  {
  }

  lemma OtherStores(s: P.State, l: P.Label, id: Id)
    requires Allocated(s) && P.Enabled(s, l) && !l.Run? && !l.Submit? && StoredIs(s, id)
    ensures StoredNext(s, P.Next(s, l), id)
  {
  }

  lemma {:induction false} RunsStore(s: P.State, labels: seq<P.Label>, t: P.State, id: Id)
    requires Inv(s) && P.Leads(s, labels, t) && StoredIs(s, id)
    ensures StoredNext(s, t, id)
    decreases |labels|
  {
    if labels != [] {
      StepStores(s, labels[0], id);
      Preservation.NextKeepsInv(s, labels[0]);
      RunsStore(P.Next(s, labels[0]), labels[1..], t, id);
    }
  }

  // ---------------------------------------------------------------- on the cluster

  /** An execution of `id` has its handler's value and has not stored it yet. */
  predicate StillStoring(d: C.Cluster, id: Id) {
    exists j <- d.jobs :: d.jobs[j].x.msg.id == id && (d.jobs[j].x.pc.Ack? || d.jobs[j].x.pc.Store?)
  }

  predicate HoldsValue(t: P.State, id: Id) {
    id in t.tokens && t.tokens[id].loc.Running? && (t.tokens[id].loc.pc.Ack? || t.tokens[id].loc.pc.Store?)
  }

  lemma StoringIs(d: C.Cluster, t: P.State, id: Id)
    requires JobsHold(d.jobs, d.nextJob, t.tokens) && OwnId(t.tokens)
    ensures StillStoring(d, id) <==> HoldsValue(t, id)
  {
    if HoldsValue(t, id) { assert t.tokens[id].loc.exec in d.jobs; }
  }

  lemma KeptIs(t: P.State, id: Id)
    ensures id in t.tokens && Kept(t.tokens[id].loc).Some? <==> ResultOf(t, id).Some? && !HoldsValue(t, id)
    ensures id in t.tokens && Kept(t.tokens[id].loc).Some? ==> Kept(t.tokens[id].loc) == ResultOf(t, id)
  {
  }

  /** On every run, task `id` has a result if and only if there is a result backend, a handler
      returned for it, and no execution of it has yet to store what it returned; the result is
      what that one call returned. */
  lemma ResultsStored(c: C.Cluster, events: seq<C.Event>, d: C.Cluster, id: Id)
    requires C.Init(c) && C.Leads(c, events, d)
    ensures id in d.backend.results <==> c.hasBackend && Returned(c, events, id) != [] && !StillStoring(d, id)
    ensures id in d.backend.results ==>
      |Returned(c, events, id)| == 1 && d.backend.results[id] == Returned(c, events, id)[0].value
  {
    StartRefines(c);
    var t := Reached(c, events, d);
    RunsStore(Start(c), LabelsOf(c, events), t, id);
    HasBackendStays(c, events, d);
    SucceedsOnce(Start(c), LabelsOf(c, events), t, id);
    ReturnedAgrees(c, Start(c), events, d, id);
    OwnIds(t);
    StoringIs(d, t, id);
    KeptIs(t, id);
  }

  /** A result once stored is never overwritten or taken away. */
  lemma ResultsStay(c: C.Cluster, events: seq<C.Event>, d: C.Cluster, more: seq<C.Event>, e: C.Cluster, id: Id)
    requires C.Init(c) && C.Leads(c, events, d) && C.Leads(d, more, e) && id in d.backend.results
    ensures id in e.backend.results && e.backend.results[id] == d.backend.results[id]
  {
    StartRefines(c);
    var t := Reached(c, events, d);
    RunsStore(Start(c), LabelsOf(c, events), t, id);
    var u := RunsRefine(d, t, more, e);
    RunsStore(t, LabelsOf(d, more), u, id);
  }

  /** No event but the store step of an execution touches any result. */
  lemma OnlyStoresTouch(d: C.Cluster, e: C.Event)
    requires C.Enabled(d, e) && C.Next(d, e).backend.results != d.backend.results
    ensures e.Step? && d.jobs[e.job].x.pc.Store?
  {
    if e.Submit? { SubmitTouchesNone(d, PlanOf(e.canvas)); }
  }

  lemma SubmitTouchesNone(d: C.Cluster, p: Plan)
    ensures C.SubmitPlan(d, p).backend.results == d.backend.results
  {
  }
}
