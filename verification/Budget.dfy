/** Termination: handler calls, and steps altogether, are bounded by what was submitted. */
module Budget {
  import opened Messages
  import opened Workflows
  import opened Results
  import opened Execution
  import opened Protocol
  import opened Invariants
  import opened Preservation
  import opened Sums
  import Chords

  // ---------------------------------------------------------------- what is still owed

  /** Attempts that a message may still make. */
  function Attempts(t: Token): nat {
    var spare := if t.msg.retries <= t.msg.maxRetries then t.msg.maxRetries - t.msg.retries else 0;
    match t.loc
    case Queued => spare + 1
    case Taken(_) => spare + 1
    case Running(_, pc) =>
      if Carried(pc).Some? || pc.Bury? || pc.BuryPush? then 0
      else if pc.OnError? then spare
      else spare + 1
    case _ => 0
  }

  /** Steps that a message may still take, were it never sent back for its eta. */
  function Steps(t: Token): nat {
    var a := Attempts(t);
    match t.loc
    case Queued => 16 * a
    case Taken(_) => 16 * a - 1
    case Running(_, pc) =>
      (match pc
       case Guard => 16 * a - 2
       case EtaAck => 16 * a - 3
       case EtaPush => 16 * a - 4
       case Before => 16 * a - 3
       case Dispatch => 16 * a - 4
       case OnError => 16 * a + 3
       case Nack => 16 * a + 2
       case NackPush => 16 * a + 1
       case Ack(_) => 7
       case Store(_) => 6
       case Complete(_) => 5
       case Read(_, _) => 4
       case Fire(_, _) => 3
       case Continue(_) => 2
       case Bury => 2
       case BuryPush => 1)
    case _ => 0
  }

  /** Both measures at once: attempts, or (`fine`) steps. */
  function Weight(t: Token, fine: bool): nat {
    if fine then Steps(t) else Attempts(t)
  }

  function Price(calls: nat, fine: bool): nat {
    if fine then 16 * calls else calls
  }

  /** What a workflow has not turned into messages yet.  Sending a member is itself a step. */
  function Unsent(fl: Flow, tokens: map<Id, Token>, fine: bool): nat {
    var rest := if |fl.ids| <= |fl.sigs| then fl.sigs[|fl.ids|..] else [];
    match fl
    case LineFlow(_, _, _, _) => Price(Allowance(rest), fine)
    case TeamFlow(_, _, _, cb, _) =>
      Price(Allowance(rest), fine) + (if fine then |rest| else 0)
      + (if cb.Some? && cb.value.id !in tokens then Price(cb.value.maxRetries + 1, fine) else 0)
  }

  function TokenWeights(tokens: map<Id, Token>, fine: bool): map<nat, nat> {
    map id | id in tokens :: Weight(tokens[id], fine)
  }

  function FlowWeights(flows: map<Id, Flow>, tokens: map<Id, Token>, fine: bool): map<nat, nat> {
    map f | f in flows :: Unsent(flows[f], tokens, fine)
  }

  ghost function Owed(s: State, fine: bool): nat {
    Total(TokenWeights(s.tokens, fine)) + Total(FlowWeights(s.flows, s.tokens, fine))
  }

  // ---------------------------------------------------------------- one operation

  /** An attempt is paid for, and every operation makes progress but the one that sends a
      message back for its eta. */
  lemma ResumeCosts(t: Token, b: Backend, o: Oracle, newId: Id, hasBackend: bool)
    requires t.loc.Running? && LifeOk(t, o.now)
    ensures var t' := Settle(t, Resume(ExecOf(t), b, o, newId, hasBackend));
      && Attempts(t') + (if t.loc.pc.Dispatch? then 1 else 0) <= Attempts(t)
      && (if t.loc.pc.EtaPush? then Steps(t') == Steps(t) + 4 else Steps(t') < Steps(t))
  {
  }

  /** Changing one message. */
  lemma TokensChange(tokens: map<Id, Token>, id: Id, t: Token, fine: bool)
    ensures Total(TokenWeights(tokens[id := t], fine)) + (if id in tokens then Weight(tokens[id], fine) else 0)
         == Total(TokenWeights(tokens, fine)) + Weight(t, fine)
  {
    TotalUpdate(TokenWeights(tokens, fine), id, Weight(t, fine));
    assert TokenWeights(tokens[id := t], fine) == TokenWeights(tokens, fine)[id := Weight(t, fine)];
  }

  /** Changing one workflow, when no other is told of a new callback. */
  lemma FlowsChange(flows: map<Id, Flow>, tokens: map<Id, Token>, tokens': map<Id, Token>, f: Id, fl: Flow, fine: bool)
    requires forall g <- flows :: g != f ==> Unsent(flows[g], tokens', fine) == Unsent(flows[g], tokens, fine)
    ensures Total(FlowWeights(flows[f := fl], tokens', fine))
           + (if f in flows then Unsent(flows[f], tokens, fine) else 0)
         == Total(FlowWeights(flows, tokens, fine)) + Unsent(fl, tokens', fine)
  {
    var v := Unsent(fl, tokens', fine);
    TotalUpdate(FlowWeights(flows, tokens, fine), f, v);
    assert FlowWeights(flows[f := fl], tokens', fine) == FlowWeights(flows, tokens, fine)[f := v];
  }

  // ---------------------------------------------------------------- one step of the system

  ghost predicate CallbacksOwned(s: State) {
    forall g <- s.flows :: s.flows[g].TeamFlow? && s.flows[g].cb.Some? ==>
      s.flows[g].cb.value.id in s.owner && s.owner[s.flows[g].cb.value.id] == Callback(g)
  }

  lemma InvOwnsCallbacks(s: State)
    requires FlowsOk(s)
    ensures CallbacksOwned(s)
  {
    forall g <- s.flows | s.flows[g].TeamFlow? && s.flows[g].cb.Some?
      ensures s.flows[g].cb.value.id in s.owner && s.owner[s.flows[g].cb.value.id] == Callback(g)
    {
      assert FlowOk(s, g) && TeamOk(s, g) && CallbackOk(s, g);
    }
  }

  lemma AllowanceSplit(sigs: seq<Signature>, k: nat)
    requires k < |sigs|
    ensures Allowance(sigs[k..]) == sigs[k].maxRetries + 1 + Allowance(sigs[k + 1..])
  {
    assert sigs[k..][1..] == sigs[k + 1..];
  }

  /** `id` moves to `t`; the workflow `f` becomes `fl`. */
  lemma OwedMoves(s: State, s': State, id: Id, f: Id, fine: bool)
    requires id in s.tokens && id in s'.tokens && s'.tokens == s.tokens[id := s'.tokens[id]]
    requires f in s.flows && f in s'.flows && s'.flows == s.flows[f := s'.flows[f]]
    requires Unsent(s'.flows[f], s'.tokens, fine) == Unsent(s.flows[f], s.tokens, fine)
    ensures Owed(s', fine) + Weight(s.tokens[id], fine) == Owed(s, fine) + Weight(s'.tokens[id], fine)
  {
    TokensChange(s.tokens, id, s'.tokens[id], fine);
    FlowsChange(s.flows, s.tokens, s'.tokens, f, s'.flows[f], fine);
  }

  /** As before, and the workflow pays for a new message `n`. */
  lemma OwedSpawns(s: State, s': State, id: Id, n: Id, f: Id, fine: bool)
    requires CallbacksOwned(s) && id in s.tokens && id in s'.tokens && n in s'.tokens && n !in s.tokens
    requires s'.tokens == s.tokens[id := s'.tokens[id]][n := s'.tokens[n]]
    requires f in s.flows && f in s'.flows && s'.flows == s.flows[f := s'.flows[f]]
    requires n !in s.owner || s.owner[n] == Callback(f)
    requires Unsent(s'.flows[f], s'.tokens, fine) + Weight(s'.tokens[n], fine) == Unsent(s.flows[f], s.tokens, fine)
    ensures Owed(s', fine) + Weight(s.tokens[id], fine) == Owed(s, fine) + Weight(s'.tokens[id], fine)
  {
    var middle := s.tokens[id := s'.tokens[id]];
    TokensChange(s.tokens, id, s'.tokens[id], fine);
    TokensChange(middle, n, s'.tokens[n], fine);
    FlowsChange(s.flows, s.tokens, s'.tokens, f, s'.flows[f], fine);
  }

  /** The retries of the message that `id` puts on a queue, if it puts one. */
  function Spends(s: State, id: Id): nat
    requires id in s.owner && s.owner[id].flow in s.flows
  {
    var fl := s.flows[s.owner[id].flow];
    match fl
    case LineFlow(_, sigs, ids, _) => if |ids| < |sigs| then sigs[|ids|].maxRetries else 0
    case TeamFlow(_, _, _, cb, _) => if cb.Some? then cb.value.maxRetries else 0
  }

  ghost predicate RunsFor(s: State, id: Id, out: Outcome) {
    && Allocated(s) && CallbacksOwned(s) && id in s.tokens && s.tokens[id].loc.Running? && SpawnOk(s, id, out)
    && (s.owner[id].Step? ==> s.flows[s.owner[id].flow].LineFlow?)
    && (out.effect.Spawn? ==>
          && out.effect.m.retries == 0 && out.effect.m.maxRetries == Spends(s, id)
          && out.effect.m.id !in s.tokens && out.effect.m.id != id)
    && (s.owner[id].Step? && out.effect.Spawn? ==> |s.flows[s.owner[id].flow].ids| < |s.flows[s.owner[id].flow].sigs|)
  }

  /** What is owed changes by what it changes for `id` itself. */
  ghost predicate OnlyOwn(s: State, id: Id, o: Oracle, out: Outcome, fine: bool)
    requires id in s.tokens && s.tokens[id].loc.Running?
  {
    Owed(RunWith(s, id, o, out), fine) + Weight(s.tokens[id], fine)
      == Owed(s, fine) + Weight(Settle(s.tokens[id], out), fine)
  }

  lemma QuietOwed(s: State, id: Id, o: Oracle, out: Outcome, fine: bool)
    requires RunsFor(s, id, out) && !out.effect.Spawn?
    ensures OnlyOwn(s, id, o, out, fine)
  {
    OwedMoves(s, RunWith(s, id, o, out), id, s.owner[id].flow, fine);
  }

  lemma HandOverOwed(s: State, id: Id, o: Oracle, out: Outcome, fine: bool)
    requires RunsFor(s, id, out) && out.effect.Spawn? && s.owner[id].Step?
    ensures OnlyOwn(s, id, o, out, fine)
  {
    var f := s.owner[id].flow;
    AllowanceSplit(s.flows[f].sigs, |s.flows[f].ids|);
    OwedSpawns(s, RunWith(s, id, o, out), id, out.effect.m.id, f, fine);
  }

  lemma FireOwed(s: State, id: Id, o: Oracle, out: Outcome, fine: bool)
    requires RunsFor(s, id, out) && out.effect.Spawn? && s.owner[id].Member?
    ensures OnlyOwn(s, id, o, out, fine)
  {
    OwedSpawns(s, RunWith(s, id, o, out), id, out.effect.m.id, s.owner[id].flow, fine);
  }

  /** The message that an execution puts on a queue costs what its workflow had set aside. */
  lemma SpawnCosts(s: State, id: Id, o: Oracle)
    requires Known(s, id) && CanRun(s, id, o) && FlowOk(s, s.owner[id].flow)
    requires Advance(s, id, o).effect.Spawn?
    ensures var m := Advance(s, id, o).effect.m;
      && m.retries == 0 && m.maxRetries == Spends(s, id)
      && (s.owner[id].Step? ==> |s.flows[s.owner[id].flow].ids| < |s.flows[s.owner[id].flow].sigs|)
  {
    var out := Advance(s, id, o);
    SpawnedFresh(s, id, o);
    ResumeFrame(ExecOf(s.tokens[id]), s.backend, o, s.nextId, s.hasBackend);
    Spawned(s, id, out);
    match s.owner[id] {
      case Step(f, i) =>
        ResumeMoves(s.tokens[id], s.backend, o, s.nextId, s.hasBackend);
        NextStepMessage(s, f, i);
      case Member(f, i) =>
        assert out.effect.m.maxRetries == s.flows[f].cb.value.maxRetries;
      case Callback(f) =>
    }
  }

  lemma RunOwed(s: State, id: Id, o: Oracle, fine: bool)
    requires Inv(s) && CanRun(s, id, o)
    ensures OnlyOwn(s, id, o, Advance(s, id, o), fine)
  {
    var out := Advance(s, id, o);
    InvOwnsCallbacks(s);
    Chords.RunKeepsOwners(s, id, o);
    Identify(s, id);
    AdvanceIsTame(s, id, o);
    if out.effect.Spawn? {
      SpawnCosts(s, id, o);
      if s.owner[id].Step? { HandOverOwed(s, id, o, out, fine); } else { FireOwed(s, id, o, out, fine); }
    } else {
      QuietOwed(s, id, o, out, fine);
    }
  }

  // ---------------------------------------------------------------- every step

  predicate Working(l: Label) {
    l.SendMember? || l.Take? || l.Track? || l.Drop? || l.Run?
  }

  /** The step sends a message back to its queue because its eta lies ahead. */
  predicate SendsBack(s: State, l: Label)
    requires Enabled(s, l)
  {
    l.Run? && s.tokens[l.id].loc.pc.EtaPush?
  }

  ghost predicate Pays(s: State, l: Label, s': State)
    requires Enabled(s, l)
  {
    && s.issued <= s'.issued
    && s'.calls + Owed(s', false) <= s.calls + Owed(s, false) + (s'.issued - s.issued)
    && Owed(s', true) + (if Working(l) then 1 else 0)
         <= Owed(s, true) + 17 * (s'.issued - s.issued) + (if SendsBack(s, l) then 5 else 0)
  }

  lemma RunPays(s: State, id: Id, o: Oracle)
    requires Inv(s) && CanRun(s, id, o)
    ensures Pays(s, Run(id, o), RunStep(s, id, o))
  {
    assert LifeOk(s.tokens[id], o.now) by { assert TokenOk(s, id); }
    ResumeCosts(s.tokens[id], s.backend, o, s.nextId, s.hasBackend);
    RunOwed(s, id, o, false);
    RunOwed(s, id, o, true);
  }

  lemma OwedMoved(s: State, id: Id, loc: Loc, fine: bool)
    requires id in s.tokens
    ensures Owed(Moved(s, id, loc), fine) + Weight(s.tokens[id], fine)
         == Owed(s, fine) + Weight(s.tokens[id].(loc := loc), fine)
  {
    var s' := Moved(s, id, loc);
    TokensChange(s.tokens, id, s.tokens[id].(loc := loc), fine);
    assert FlowWeights(s'.flows, s'.tokens, fine) == FlowWeights(s.flows, s.tokens, fine);
  }

  /** Moving a message from queue to worker to execution. */
  lemma MovePays(s: State, id: Id, loc: Loc)
    requires id in s.tokens
    requires (s.tokens[id].loc.Queued? && loc.Taken?)
          || (s.tokens[id].loc.Taken? && (loc.Lost? || (loc.Running? && loc.pc.Guard?)))
    ensures Owed(Moved(s, id, loc), false) <= Owed(s, false)
    ensures Owed(Moved(s, id, loc), true) < Owed(s, true)
  {
    OwedMoved(s, id, loc, false);
    OwedMoved(s, id, loc, true);
  }

  /** A new message `n`, paid for by workflow `f`, which may itself be new. */
  lemma OwedArrives(s: State, s': State, n: Id, f: Id, fine: bool)
    requires Allocated(s) && CallbacksOwned(s) && n !in s.tokens && n in s'.tokens && s.nextId <= n
    requires s'.tokens == s.tokens[n := s'.tokens[n]] && f in s'.flows && s'.flows == s.flows[f := s'.flows[f]]
    ensures Owed(s', fine) + (if f in s.flows then Unsent(s.flows[f], s.tokens, fine) else 0)
         == Owed(s, fine) + Weight(s'.tokens[n], fine) + Unsent(s'.flows[f], s'.tokens, fine)
  {
    TokensChange(s.tokens, n, s'.tokens[n], fine);
    FlowsChange(s.flows, s.tokens, s'.tokens, f, s'.flows[f], fine);
  }

  lemma FreshWeight(t: Token, fine: bool)
    requires t.loc.Queued? && t.msg.retries == 0
    ensures Weight(t, fine) == Price(t.msg.maxRetries + 1, fine)
  {
  }

  lemma SendFirstOwed(s: State, corr: Option<Id>, sigs: seq<Signature>, fine: bool)
    requires Allocated(s) && CallbacksOwned(s) && sigs != []
    ensures Owed(SendFirst(s, corr, sigs), fine) == Owed(s, fine) + Price(Allowance(sigs), fine)
  {
    var s' := SendFirst(s, corr, sigs);
    OwedArrives(s, s', s.nextId + 1, s.nextId, fine);
    FreshWeight(s'.tokens[s.nextId + 1], fine);
    assert Unsent(s'.flows[s.nextId], s'.tokens, fine) == Price(Allowance(sigs[1..]), fine);
  }

  lemma SendFirstPays(s: State, corr: Option<Id>, sigs: seq<Signature>, l: Label)
    requires Allocated(s) && CallbacksOwned(s) && sigs != []
    requires Enabled(s, l) && !Working(l) && Next(s, l) == SendFirst(s, corr, sigs)
    ensures Pays(s, l, Next(s, l))
  {
    SendFirstOwed(s, corr, sigs, false);
    SendFirstOwed(s, corr, sigs, true);
  }

  lemma SendOwed(s: State, f: Id, fine: bool)
    requires Allocated(s) && CallbacksOwned(s) && Enabled(s, SendMember(f))
    ensures Owed(Send(s, f), fine) + (if fine then 1 else 0) == Owed(s, fine)
  {
    var s' := Send(s, f);
    var fl := s.flows[f];
    OwedArrives(s, s', s.nextId, f, fine);
    FreshWeight(s'.tokens[s.nextId], fine);
    assert fl.cb.Some? ==> fl.cb.value.id != s.nextId;
    MemberLeaves(fl, s'.flows[f], s.tokens, s'.tokens, fine);
  }

  /** A group with one member fewer to send. */
  lemma MemberLeaves(fl: Flow, fl': Flow, tokens: map<Id, Token>, tokens': map<Id, Token>, fine: bool)
    requires fl.TeamFlow? && |fl.ids| < |fl.sigs| && fl'.TeamFlow?
    requires fl'.sigs == fl.sigs && |fl'.ids| == |fl.ids| + 1 && fl'.cb == fl.cb
    requires fl.cb.Some? ==> (fl.cb.value.id in tokens <==> fl.cb.value.id in tokens')
    ensures Unsent(fl', tokens', fine) + Price(fl.sigs[|fl.ids|].maxRetries + 1, fine) + (if fine then 1 else 0)
         == Unsent(fl, tokens, fine)
  {
    AllowanceSplit(fl.sigs, |fl.ids|);
  }

  lemma SendPays(s: State, f: Id)
    requires Inv(s) && Enabled(s, SendMember(f))
    ensures Pays(s, SendMember(f), Send(s, f))
  {
    InvOwnsCallbacks(s);
    SendOwed(s, f, false);
    SendOwed(s, f, true);
  }

  lemma {:induction false} AllowanceCovers(sigs: seq<Signature>)
    ensures |sigs| <= Allowance(sigs)
  {
    if sigs != [] { AllowanceCovers(sigs[1..]); }
  }

  lemma OpenTeamPays(s: State, c: Canvas, sigs: seq<Signature>, cb: Option<Signature>)
    requires Allocated(s) && Enabled(s, Submit(c)) && PlanOf(c) == Team(sigs, cb)
    ensures Pays(s, Submit(c), SubmitPlan(s, Team(sigs, cb)))
  {
    var s' := SubmitPlan(s, Team(sigs, cb));
    var m := if cb.Some? then Some(IntoMessage(cb.value, s.nextId + 1)) else None;
    var fl := TeamFlow(Some(s.nextId), sigs, [], m, []);
    TeamPays(s, s', Submit(c), fl);
  }

  /** A group is opened, all of it still to be sent. */
  lemma TeamPays(s: State, s': State, l: Label, fl: Flow)
    requires s.nextId !in s.flows && s'.tokens == s.tokens && s'.flows == s.flows[s.nextId := fl]
    requires fl.TeamFlow? && fl.ids == [] && (fl.cb.Some? ==> fl.cb.value.id !in s.tokens)
    requires s'.calls == s.calls && Enabled(s, l) && !Working(l)
    requires s'.issued == s.issued + Allowance(fl.sigs) + if fl.cb.Some? then fl.cb.value.maxRetries + 1 else 0
    ensures Pays(s, l, s')
  {
    AllowanceCovers(fl.sigs);
    NothingSent(fl, s.tokens, false);
    NothingSent(fl, s.tokens, true);
    FlowsChange(s.flows, s.tokens, s.tokens, s.nextId, fl, false);
    FlowsChange(s.flows, s.tokens, s.tokens, s.nextId, fl, true);
  }

  lemma NothingSent(fl: Flow, tokens: map<Id, Token>, fine: bool)
    requires fl.TeamFlow? && fl.ids == [] && (fl.cb.Some? ==> fl.cb.value.id !in tokens)
    ensures Unsent(fl, tokens, fine) == Price(Allowance(fl.sigs), fine) + (if fine then |fl.sigs| else 0)
      + (if fl.cb.Some? then Price(fl.cb.value.maxRetries + 1, fine) else 0)
  {
    assert fl.sigs[0..] == fl.sigs;
  }

  lemma SubmitPays(s: State, c: Canvas)
    requires Allocated(s) && CallbacksOwned(s) && Enabled(s, Submit(c))
    ensures Pays(s, Submit(c), Next(s, Submit(c)))
  {
    match PlanOf(c) {
      case Nothing =>
      case Line(sigs) => if sigs != [] { SendFirstPays(s, Some(s.nextId), sigs, Submit(c)); }
      case Team(sigs, cb) => OpenTeamPays(s, c, sigs, cb);
      case Barren(sigs) =>
    }
  }

  lemma NextPays(s: State, l: Label)
    requires Inv(s) && Enabled(s, l)
    ensures Pays(s, l, Next(s, l))
  {
    if l.Run? {
      RunPays(s, l.id, l.oracle);
    } else if l.SendMember? {
      SendPays(s, l.flow);
    } else {
      InvOwnsCallbacks(s);
      OtherPays(s, l);
    }
  }

  lemma OtherPays(s: State, l: Label)
    requires Allocated(s) && CallbacksOwned(s) && Enabled(s, l) && !l.Run? && !l.SendMember?
    ensures Pays(s, l, Next(s, l))
  {
    match l {
      case Submit(c) => SubmitPays(s, c);
      case Enqueue(sig) => SendFirstPays(s, None, [sig], l);
      case Take(id, w) => MovePays(s, id, Taken(w));
      case Track(id, e) => MovePays(s, id, Running(e, Guard));
      case Drop(id) => MovePays(s, id, Lost);
      case Tick(now) =>
    }
  }

  // ---------------------------------------------------------------- whole runs

  function WorkDone(labels: seq<Label>): nat {
    if labels == [] then 0 else (if Working(labels[0]) then 1 else 0) + WorkDone(labels[1..])
  }

  /** How often a run sent a message back for its eta. */
  function SentBack(s: State, labels: seq<Label>): nat
    decreases |labels|
  {
    if labels == [] || !Enabled(s, labels[0]) then 0
    else (if SendsBack(s, labels[0]) then 1 else 0) + SentBack(Next(s, labels[0]), labels[1..])
  }

  lemma {:induction false} RunsPay(s: State, labels: seq<Label>, t: State)
    requires Inv(s) && Leads(s, labels, t)
    ensures s.issued <= t.issued
    ensures t.calls + Owed(t, false) <= s.calls + Owed(s, false) + (t.issued - s.issued)
    ensures Owed(t, true) + WorkDone(labels) <= Owed(s, true) + 17 * (t.issued - s.issued) + 5 * SentBack(s, labels)
    decreases |labels|
  {
    if labels != [] {
      NextPays(s, labels[0]);
      NextKeepsInv(s, labels[0]);
      RunsPay(Next(s, labels[0]), labels[1..], t);
    }
  }

  /** `max_retries + 1` for every signature that a plan sends. */
  function PlanAllowance(p: Plan): nat {
    match p
    case Line(sigs) => Allowance(sigs)
    case Team(sigs, cb) => Allowance(sigs) + (if cb.Some? then cb.value.maxRetries + 1 else 0)
    case _ => 0
  }

  function Grant(l: Label): nat {
    match l
    case Submit(c) => PlanAllowance(PlanOf(c))
    case Enqueue(sig) => sig.maxRetries + 1
    case _ => 0
  }

  function Granted(labels: seq<Label>): nat {
    if labels == [] then 0 else Grant(labels[0]) + Granted(labels[1..])
  }

  function HandlerCalls(s: State, labels: seq<Label>): nat
    decreases |labels|
  {
    if labels == [] || !Enabled(s, labels[0]) then 0
    else (if labels[0].Run? && s.tokens[labels[0].id].loc.pc.Dispatch? then 1 else 0)
         + HandlerCalls(Next(s, labels[0]), labels[1..])
  }

  lemma {:induction false} HistoriesCount(s: State, labels: seq<Label>, t: State)
    requires Leads(s, labels, t)
    ensures t.calls == s.calls + HandlerCalls(s, labels)
    ensures t.issued == s.issued + Granted(labels)
    decreases |labels|
  {
    if labels != [] {
      HistoryStep(s, labels[0]);
      HistoriesCount(Next(s, labels[0]), labels[1..], t);
    }
  }

  lemma HistoryStep(s: State, l: Label)
    requires Enabled(s, l)
    ensures Next(s, l).issued == s.issued + Grant(l)
  {
    if l.Enqueue? {
      AllowanceSplit([l.sig], 0);
      assert [l.sig][0..] == [l.sig];
    }
  }

  /** The termination theorem.  On every run, handlers are called at most once for each
      `max_retries + 1` submitted, whatever fails and however the steps interleave; and the
      run takes a bounded number of steps for what was submitted and for each time a message
      was sent back because its eta lay ahead. */
  lemma RunsAreBounded(s: State, labels: seq<Label>, t: State)
    requires Init(s) && Leads(s, labels, t)
    ensures HandlerCalls(s, labels) <= Granted(labels)
    ensures WorkDone(labels) <= 17 * Granted(labels) + 5 * SentBack(s, labels)
  {
    InitInv(s);
    assert TokenWeights(s.tokens, false) == map[] && FlowWeights(s.flows, s.tokens, false) == map[];
    assert TokenWeights(s.tokens, true) == map[] && FlowWeights(s.flows, s.tokens, true) == map[];
    RunsPay(s, labels, t);
    HistoriesCount(s, labels, t);
  }
}
