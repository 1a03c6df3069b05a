/** Messages against the signatures submitted, on every run of a cluster: whatever becomes of it, a
    message asks for what its signature asked for, is retried as often, and runs no earlier. */
module Fidelity {
  import opened Messages
  import opened Workflows
  import opened Results
  import opened Execution
  import opened Instances
  import opened Invariants
  import opened Refinement
  import opened Guarantees
  import opened Outcomes
  import opened Settlement
  import C = Cluster
  import P = Protocol
  import Preservation
  import Chords
  import Chains
  import Returns

  /** The execution at `p` is about to call its handler. */
  predicate AboutToRun(d: C.Cluster, p: Place) {
    p.AtJob? && p.e in d.jobs && d.jobs[p.e].x.pc.Dispatch?
  }

  /** The message at `p` was made of `sig`, with `added` in its headers, and has failed `fails` times:
      as often as it was retried when it is queued, and once more than `sig` allows retries when
      it is a dead letter.  Its handler is not called before the eta of `sig`. */
  ghost predicate Faithful(d: C.Cluster, p: Place, id: Id, sig: Signature, added: map<Key, Header>, fails: nat)
    requires Sits(d, p, id)
  {
    var x := Held(d, p, id);
    && Instantiates(x, sig, added)
    && (p.AtQueue? ==> fails == x.retries <= sig.maxRetries)
    && (p.AtDlq? ==> fails == sig.maxRetries + 1)
    && (AboutToRun(d, p) && sig.eta.Some? ==> sig.eta.value <= d.clock)
  }

  // ---------------------------------------------------------------- seen from the messages

  lemma NormInstantiates(m: Message, sig: Signature, added: map<Key, Header>)
    requires Instantiates(Norm(m), sig, added)
    ensures Instantiates(m, sig, added)
  {
    SameWhenNormal(m);
  }

  lemma StepIs(fl: P.Flow, i: nat, id: Id)
    requires fl.LineFlow? && i < |fl.sigs| && i <= |fl.outputs|
    ensures Instantiates(P.StepMessage(fl, i, id), fl.sigs[i], ChainAdded(fl.sigs, i, fl.outputs))
  {
    MadeOf(fl.sigs[i], id);
  }

  lemma StepToken(t: P.State, f: Id, i: nat)
    requires f in t.flows && t.flows[f].LineFlow? && i < |t.flows[f].ids| && StepOk(t, f, i)
    ensures var fl, x := t.flows[f], t.tokens[t.flows[f].ids[i]].msg;
      && Instantiates(x, fl.sigs[i], ChainAdded(fl.sigs, i, fl.outputs))
      && x.correlationId == fl.corr && x.groupId.None? && x.groupTotal.None? && x.chordCallback.None?
  {
    var fl, id := t.flows[f], t.flows[f].ids[i];
    StepIs(fl, i, id);
    NormInstantiates(t.tokens[id].msg, fl.sigs[i], ChainAdded(fl.sigs, i, fl.outputs));
    SameWhenNormal(t.tokens[id].msg);
  }

  lemma MemberToken(t: P.State, f: Id, i: nat)
    requires f in t.flows && t.flows[f].TeamFlow? && i < |t.flows[f].ids| && MemberOk(t, f, i)
    ensures var fl, x := t.flows[f], t.tokens[t.flows[f].ids[i]].msg;
      && Instantiates(x, fl.sigs[i], map[])
      && x.correlationId == fl.corr && x.groupId == Some(f) && x.groupTotal == Some(|fl.sigs| % U32)
  {
    var fl, id := t.flows[f], t.flows[f].ids[i];
    MadeOf(fl.sigs[i], id);
    SameWhenNormal(t.tokens[id].msg);
    SameWhenNormal(P.MemberMessage(fl, f, i, id));
  }

  /** What a workflow was submitted as stays. */
  predicate SameFlow(fl: P.Flow, fl': P.Flow) {
    fl'.LineFlow? == fl.LineFlow? && fl'.sigs == fl.sigs && fl'.corr == fl.corr
  }

  lemma FlowStays(s: P.State, l: P.Label, f: Id)
    requires Allocated(s) && P.Enabled(s, l) && f in s.flows
    ensures f in P.Next(s, l).flows && SameFlow(s.flows[f], P.Next(s, l).flows[f])
  {
    assert f < s.nextId;
    if l.Run? { RunKeepsFlow(s, l.id, l.oracle, P.Advance(s, l.id, l.oracle), f); }
  }

  lemma RunKeepsFlow(s: P.State, id: Id, o: Oracle, out: Outcome, f: Id)
    requires Preservation.CanRun(s, id, o) && f in s.flows
    ensures f in P.RunWith(s, id, o, out).flows && SameFlow(s.flows[f], P.RunWith(s, id, o, out).flows[f])
  {
  }

  lemma {:induction false} FlowStaysAlong(s: P.State, labels: seq<P.Label>, t: P.State, f: Id)
    requires Inv(s) && P.Leads(s, labels, t) && f in s.flows
    ensures f in t.flows && SameFlow(s.flows[f], t.flows[f])
    decreases |labels|
  {
    if labels != [] {
      FlowStays(s, labels[0], f);
      Preservation.NextKeepsInv(s, labels[0]);
      FlowStaysAlong(P.Next(s, labels[0]), labels[1..], t, f);
    }
  }

  // ---------------------------------------------------------------- on the cluster

  /** `t` is behind the cluster `d` that `after` leads to. */
  ghost predicate Behind(m: C.Cluster, s: P.State, after: seq<C.Event>, d: C.Cluster, t: P.State) {
    && Refines(m, s) && Inv(s) && C.Leads(m, after, d)
    && P.Leads(s, LabelsOf(m, after), t) && Refines(d, t) && Inv(t)
  }

  lemma FaithfulAt(m: C.Cluster, s: P.State, after: seq<C.Event>, d: C.Cluster, t: P.State, p: Place, id: Id,
                   sig: Signature, added: map<Key, Header>)
    requires Behind(m, s, after, d, t) && Sits(d, p, id) && FailsOf(s, id) == 0
    requires Instantiates(Held(d, p, id), sig, added)
    ensures Faithful(d, p, id, sig, added, Failures(m, after, id))
  {
    FailCountIs(s, LabelsOf(m, after), t, id);
    CountsAgree(m, s, after, d, id);
    HeldAt(d, t, p, id);
    FaithfulBy(d, p, id, t.tokens[id], sig, added);
  }

  /** The message at `p` is that of token `tk`. */
  predicate HoldsToken(d: C.Cluster, p: Place, id: Id, tk: P.Token)
    requires Sits(d, p, id)
  {
    && tk.msg == Held(d, p, id) && LifeOk(tk, d.clock)
    && (p.AtQueue? ==> tk.loc.Queued?) && (p.AtDlq? ==> tk.loc.Dead?)
    && (p.AtJob? ==> tk.loc == P.Running(p.e, d.jobs[p.e].x.pc))
  }

  lemma HeldAt(d: C.Cluster, t: P.State, p: Place, id: Id)
    requires Refines(d, t) && Inv(t) && Sits(d, p, id)
    ensures id in t.tokens && HoldsToken(d, p, id, t.tokens[id])
  {
    SitsWhere(d, t, p, id);
    HeldIsToken(d, t, p, id);
    assert TokenOk(t, id);
  }

  lemma FaithfulBy(d: C.Cluster, p: Place, id: Id, tk: P.Token, sig: Signature, added: map<Key, Header>)
    requires Sits(d, p, id) && HoldsToken(d, p, id, tk) && Instantiates(tk.msg, sig, added)
    ensures Faithful(d, p, id, sig, added, tk.fails)
  {
  }

  /** A message of a chain: it is one of its leaves, its headers say what came before it and what is
      left, and it runs when all leaves before it have succeeded. */
  lemma ChainMessages(c: C.Cluster, before: seq<C.Event>, m: C.Cluster, canvas: Canvas, m': C.Cluster,
                      sigs: seq<Signature>, after: seq<C.Event>, d: C.Cluster, p: Place, id: Id) returns (i: nat)
    requires C.Init(c) && C.Leads(c, before, m) && C.TakesIn(m, canvas, m') && ReadsChain(canvas, sigs)
    requires C.Leads(m', after, d) && Sits(d, p, id) && Held(d, p, id).correlationId == Some(m.nextId)
    ensures var outputs := ValuesOf(Wins(m', after, m.nextId));
      && i < |sigs| && i <= |outputs|
      && Faithful(d, p, id, sigs[i], ChainAdded(sigs, i, outputs), Failures(m', after, id))
      && (AboutToRun(d, p) ==> i == |outputs|)
    ensures var x := Held(d, p, id); x.groupId.None? && x.groupTotal.None? && x.chordCallback.None?
  {
    var s := AfterLine(c, before, m, canvas, m', sigs);
    i := ChainMessage(m', s, after, d, m.nextId, sigs, p, id);
  }

  lemma ChainMessage(m: C.Cluster, s: P.State, after: seq<C.Event>, d: C.Cluster, f: Id, sigs: seq<Signature>,
                     p: Place, id: Id) returns (i: nat)
    requires Refines(m, s) && Inv(s) && C.Leads(m, after, d) && NewLine(s, f, sigs)
    requires Sits(d, p, id) && Held(d, p, id).correlationId == Some(f)
    ensures var outputs := ValuesOf(Wins(m, after, f));
      && i < |sigs| && i <= |outputs|
      && Faithful(d, p, id, sigs[i], ChainAdded(sigs, i, outputs), Failures(m, after, id))
      && (AboutToRun(d, p) ==> i == |outputs|)
    ensures var x := Held(d, p, id); x.groupId.None? && x.groupTotal.None? && x.chordCallback.None?
  {
    var t := RunsRefine(m, s, after, d);
    WinsAreOutputs(m, s, after, d, t, f, sigs);
    i := LeafAt(d, t, f, sigs, p, id);
    FirstUntried(s, LabelsOf(m, after), t, f, id);
    FaithfulAt(m, s, after, d, t, p, id, sigs[i], ChainAdded(sigs, i, t.flows[f].outputs));
  }

  /** The message at `p` is leaf `i` of the chain `f`. */
  lemma LeafAt(d: C.Cluster, t: P.State, f: Id, sigs: seq<Signature>, p: Place, id: Id) returns (i: nat)
    requires Refines(d, t) && Inv(t) && IsLine(t, f, sigs) && Sits(d, p, id) && Held(d, p, id).correlationId == Some(f)
    ensures i < |sigs| && i <= |t.flows[f].outputs|
    ensures Instantiates(Held(d, p, id), sigs[i], ChainAdded(sigs, i, t.flows[f].outputs))
    ensures var x := Held(d, p, id); x.groupId.None? && x.groupTotal.None? && x.chordCallback.None?
    ensures AboutToRun(d, p) ==> i == |t.flows[f].outputs|
    ensures id in t.owner && t.owner[id] == P.Step(f, i)
  {
    HeldIsToken(d, t, p, id);
    LineOfCorrelation(t, id, f);
    i := LeafOf(t, f, id);
    if AboutToRun(d, p) { RunsNext(d, t, p, id, f, i); }
  }

  lemma LeafOf(t: P.State, f: Id, id: Id) returns (i: nat)
    requires Inv(t) && f in t.flows && t.flows[f].LineFlow?
    requires id in t.tokens && id in t.owner && t.owner[id].Step? && t.owner[id].flow == f
    ensures t.owner[id] == P.Step(f, i)
    ensures var fl, x := t.flows[f], t.tokens[id].msg;
      && i < |fl.sigs| && i <= |fl.outputs| && Instantiates(x, fl.sigs[i], ChainAdded(fl.sigs, i, fl.outputs))
      && x.correlationId == fl.corr && x.groupId.None? && x.groupTotal.None? && x.chordCallback.None?
  {
    i := t.owner[id].index;
    assert TokenOk(t, id);
    Chains.LineFacts(t, f);
    StepToken(t, f, i);
  }

  lemma RunsNext(d: C.Cluster, t: P.State, p: Place, id: Id, f: Id, i: nat)
    requires Refines(d, t) && Inv(t) && Sits(d, p, id) && AboutToRun(d, p) && id in t.owner
    requires t.owner[id] == P.Step(f, i) && f in t.flows && t.flows[f].LineFlow?
    ensures |t.flows[f].outputs| == i
  {
    SitsWhere(d, t, p, id);
    Chains.StepSeesPrevious(t, id, f, i);
  }

  /** What a new chain's messages failed before it was submitted: nothing. */
  lemma FirstUntried(s: P.State, labels: seq<P.Label>, t: P.State, f: Id, id: Id)
    requires Inv(s) && P.Leads(s, labels, t) && f in s.flows && s.flows[f].LineFlow? && s.flows[f].ids == [f + 1]
    requires f + 1 in s.tokens && s.tokens[f + 1].fails == 0
    requires id in t.owner && t.owner[id].Step? && t.owner[id].flow == f
    ensures FailsOf(s, id) == 0
  {
    if id in s.tokens {
      Preservation.Identify(s, id);
      Chords.OwnersStayAlong(s, labels, t, id);
    }
  }

  /** A single task enqueued outside any canvas. */
  lemma EnqueuedMessage(c: C.Cluster, before: seq<C.Event>, m: C.Cluster, sig: Signature, after: seq<C.Event>,
                        d: C.Cluster, p: Place)
    requires C.Init(c) && C.Leads(c, before, m) && C.Enabled(m, C.Enqueue(sig))
    requires C.Leads(C.Next(m, C.Enqueue(sig)), after, d) && Sits(d, p, m.nextId + 1)
    ensures Faithful(d, p, m.nextId + 1, sig, map[], Failures(C.Next(m, C.Enqueue(sig)), after, m.nextId + 1))
    ensures var x := Held(d, p, m.nextId + 1);
      x.correlationId.None? && x.groupId.None? && x.groupTotal.None? && x.chordCallback.None?
  {
    var f, id, m' := m.nextId, m.nextId + 1, C.Next(m, C.Enqueue(sig));
    var r := Reached(c, before, m);
    Simulated(m, r, C.Enqueue(sig));
    Preservation.NextKeepsInv(r, P.Enqueue(sig));
    var s := P.Next(r, P.Enqueue(sig));
    LoneOpened(r, sig);
    LoneMessage(m', s, after, d, f, sig, p);
  }

  /** Workflow `f` is one task that was enqueued outside any canvas. */
  ghost predicate NewTask(s: P.State, f: Id, sig: Signature) {
    && f in s.flows && s.flows[f] == P.LineFlow(None, [sig], [f + 1], [])
    && f + 1 in s.tokens && s.tokens[f + 1].fails == 0 && f + 1 in s.owner && s.owner[f + 1] == P.Step(f, 0)
  }

  lemma LoneOpened(r: P.State, sig: Signature)
    requires P.Enabled(r, P.Enqueue(sig))
    ensures NewTask(P.Next(r, P.Enqueue(sig)), r.nextId, sig)
  {
  }

  lemma LoneMessage(m: C.Cluster, s: P.State, after: seq<C.Event>, d: C.Cluster, f: Id, sig: Signature, p: Place)
    requires Refines(m, s) && Inv(s) && C.Leads(m, after, d) && NewTask(s, f, sig) && Sits(d, p, f + 1)
    ensures Faithful(d, p, f + 1, sig, map[], Failures(m, after, f + 1))
    ensures var x := Held(d, p, f + 1);
      x.correlationId.None? && x.groupId.None? && x.groupTotal.None? && x.chordCallback.None?
  {
    var t := RunsRefine(m, s, after, d);
    var labels := LabelsOf(m, after);
    FlowStaysAlong(s, labels, t, f);
    Chords.OwnersStayAlong(s, labels, t, f + 1);
    HeldIsToken(d, t, p, f + 1);
    var i := LeafOf(t, f, f + 1);
    FaithfulAt(m, s, after, d, t, p, f + 1, sig, map[]);
  }

  // ---------------------------------------------------------------- groups and chords

  /** The canvas is a group of `sigs`, or a chord of them. */
  ghost predicate ReadsTeam(canvas: Canvas, sigs: seq<Signature>) {
    ReadsGroup(canvas, sigs) || exists cb :: ReadsChord(canvas, sigs, cb)
  }

  ghost predicate NewTeam(s: P.State, f: Id, sigs: seq<Signature>) {
    && f in s.flows && s.flows[f].TeamFlow? && s.flows[f].sigs == sigs && s.flows[f].ids == []
    && s.flows[f].corr == Some(f) && |sigs| < U32
  }

  lemma AfterTeam(c: C.Cluster, before: seq<C.Event>, m: C.Cluster, canvas: Canvas, m': C.Cluster,
                  sigs: seq<Signature>) returns (s: P.State)
    requires C.Init(c) && C.Leads(c, before, m) && C.TakesIn(m, canvas, m') && ReadsTeam(canvas, sigs)
    ensures Refines(m', s) && Inv(s) && NewTeam(s, m.nextId, sigs)
  {
    var r;
    r, s := TakenIn(c, before, m, canvas, m');
    var cb := TeamPlan(canvas, sigs);
    TeamOpened(r, sigs, cb);
  }

  lemma TeamPlan(canvas: Canvas, sigs: seq<Signature>) returns (cb: Option<Signature>)
    requires ReadsTeam(canvas, sigs)
    ensures PlanOf(canvas) == Team(sigs, cb)
  {
    if ReadsGroup(canvas, sigs) {
      PicksIff(canvas.members, sigs);
      cb := None;
    } else {
      var x :| ReadsChord(canvas, sigs, x);
      PlanReads(canvas, sigs, x);
      cb := Some(x);
    }
  }

  lemma TeamOpened(s: P.State, sigs: seq<Signature>, cb: Option<Signature>)
    requires Sendable(Team(sigs, cb))
    ensures NewTeam(P.SubmitPlan(s, Team(sigs, cb)), s.nextId, sigs)
  {
  }

  /** Messages of a group are its members: each is made of its own signature, with nothing added to
      its headers, and two of them are not of the same. */
  lemma MemberMessages(c: C.Cluster, before: seq<C.Event>, m: C.Cluster, canvas: Canvas, m': C.Cluster,
                       sigs: seq<Signature>, after: seq<C.Event>, d: C.Cluster, p: Place, id: Id, q: Place, id': Id)
    returns (i: nat, j: nat)
    requires C.Init(c) && C.Leads(c, before, m) && C.TakesIn(m, canvas, m') && ReadsTeam(canvas, sigs)
    requires C.Leads(m', after, d) && Sits(d, p, id) && Held(d, p, id).groupId == Some(m.nextId)
    requires Sits(d, q, id') && Held(d, q, id').groupId == Some(m.nextId)
    ensures i < |sigs| && Faithful(d, p, id, sigs[i], map[], Failures(m', after, id))
    ensures j < |sigs| && Faithful(d, q, id', sigs[j], map[], Failures(m', after, id'))
    ensures i == j <==> id == id'
    ensures Held(d, p, id).correlationId == Some(m.nextId) && Held(d, p, id).groupTotal == Some(|sigs|)
  {
    var s := AfterTeam(c, before, m, canvas, m', sigs);
    var t := RunsRefine(m', s, after, d);
    i := MemberMessage(m', s, after, d, t, m.nextId, sigs, p, id);
    j := MemberMessage(m', s, after, d, t, m.nextId, sigs, q, id');
  }

  lemma MemberMessage(m: C.Cluster, s: P.State, after: seq<C.Event>, d: C.Cluster, t: P.State, f: Id,
                      sigs: seq<Signature>, p: Place, id: Id) returns (i: nat)
    requires Behind(m, s, after, d, t) && NewTeam(s, f, sigs)
    requires Sits(d, p, id) && Held(d, p, id).groupId == Some(f)
    ensures i < |sigs| && Faithful(d, p, id, sigs[i], map[], Failures(m, after, id))
    ensures Held(d, p, id).correlationId == Some(f) && Held(d, p, id).groupTotal == Some(|sigs|)
    ensures IsMember(t, f, i, id)
  {
    TeamAlong(s, LabelsOf(m, after), t, f, sigs);
    i := MemberAt(d, t, f, sigs, p, id);
    MemberUntried(s, LabelsOf(m, after), t, f, i, id);
    FaithfulAt(m, s, after, d, t, p, id, sigs[i], map[]);
  }

  ghost predicate IsTeam(t: P.State, f: Id, sigs: seq<Signature>) {
    f in t.flows && t.flows[f].TeamFlow? && t.flows[f].sigs == sigs && t.flows[f].corr == Some(f) && |sigs| < U32
  }

  lemma TeamAlong(s: P.State, labels: seq<P.Label>, t: P.State, f: Id, sigs: seq<Signature>)
    requires Inv(s) && P.Leads(s, labels, t) && NewTeam(s, f, sigs)
    ensures IsTeam(t, f, sigs)
  {
    FlowStaysAlong(s, labels, t, f);
  }

  lemma MemberUntried(s: P.State, labels: seq<P.Label>, t: P.State, f: Id, i: nat, id: Id)
    requires Inv(s) && Inv(t) && P.Leads(s, labels, t) && f in s.flows && s.flows[f].TeamFlow? && s.flows[f].ids == []
    requires IsMember(t, f, i, id) && t.flows[f].TeamFlow?
    ensures FailsOf(s, id) == 0
  {
    Returns.SentSince(s, labels, t, f, i);
  }

  predicate IsMember(t: P.State, f: Id, i: nat, id: Id) {
    f in t.flows && i < |t.flows[f].ids| && t.flows[f].ids[i] == id && id in t.owner && t.owner[id] == P.Member(f, i)
  }

  /** The message at `p` is member `i` of group `f`. */
  lemma MemberAt(d: C.Cluster, t: P.State, f: Id, sigs: seq<Signature>, p: Place, id: Id) returns (i: nat)
    requires Refines(d, t) && Inv(t) && IsTeam(t, f, sigs) && Sits(d, p, id) && Held(d, p, id).groupId == Some(f)
    ensures i < |sigs| && IsMember(t, f, i, id)
    ensures var x := Held(d, p, id);
      Instantiates(x, sigs[i], map[]) && x.correlationId == Some(f) && x.groupTotal == Some(|sigs|)
  {
    HeldIsToken(d, t, p, id);
    i := IndexOf(t, f, id);
    MemberToken(t, f, i);
    ModNothing(|sigs|);
  }

  lemma ModNothing(n: nat)
    requires n < U32
    ensures n % U32 == n
  {
  }

  lemma IndexOf(t: P.State, f: Id, id: Id) returns (i: nat)
    requires Inv(t) && f in t.flows && t.flows[f].TeamFlow?
    requires id in t.tokens && t.tokens[id].msg.groupId == Some(f)
    ensures IsMember(t, f, i, id) && MemberOk(t, f, i)
  {
    Preservation.Identify(t, id);
    i := KnownIndex(t, f, id);
  }

  lemma KnownIndex(t: P.State, f: Id, id: Id) returns (i: nat)
    requires Preservation.Known(t, id) && t.tokens[id].msg.groupId == Some(f)
    requires f in t.flows && t.flows[f].TeamFlow?
    ensures IsMember(t, f, i, id) && MemberOk(t, f, i)
  {
    i := t.owner[id].index;
  }

  /** A chord's callback, wherever it is. */
  lemma CallbackMessage(c: C.Cluster, before: seq<C.Event>, m: C.Cluster, canvas: Canvas, m': C.Cluster,
                        sigs: seq<Signature>, cb: Signature, after: seq<C.Event>, d: C.Cluster, p: Place)
    requires C.Init(c) && C.Leads(c, before, m) && C.TakesIn(m, canvas, m') && ReadsChord(canvas, sigs, cb)
    requires C.Leads(m', after, d) && Sits(d, p, m.nextId + 1)
    ensures m.nextId in d.backend.groups
    ensures Faithful(d, p, m.nextId + 1, cb, map[GroupResultsKey := GroupResults(d.backend.groups[m.nextId].results)],
                     Failures(m', after, m.nextId + 1))
  {
    CallbackCarriesResults(c, before, m, canvas, m', sigs, cb, after, d, p);
    var s := AfterSubmit(c, before, m, canvas, m', sigs, cb);
    var t := RunsRefine(m', s, after, d);
    FaithfulAt(m', s, after, d, t, p, m.nextId + 1, cb,
               map[GroupResultsKey := GroupResults(d.backend.groups[m.nextId].results)]);
  }
}
