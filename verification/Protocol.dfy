/** The task lifecycle seen from the messages: where each one is, and which workflow it
    serves.  Broker queues, `processing`, workers and permits are in Cluster.dfy, which is
    proved to refine this machine.

    `owner`, `flows`, `fails`, `calls` and `issued` are history: no step reads them to
    decide what to do. */
module Protocol {
  import opened Messages
  import opened Workflows
  import opened Results
  import opened Execution

  datatype Loc =
    | Queued
    | Taken(worker: nat)          // popped by `worker`, not yet in `processing`
    | Lost                        // popped by a dequeue that was then cancelled
    | Running(exec: nat, pc: Pc)
    | Dead                        // in a dead-letter queue
    | Finished(v: Value)

  /** `fails` counts the attempts that ended in `handle_failure`. */
  datatype Token = Token(msg: Message, loc: Loc, fails: nat)

  /** Which signature a message instantiates. */
  datatype Origin = Step(flow: Id, index: nat) | Member(flow: Id, index: nat) | Callback(flow: Id)

  /** One submitted workflow.  `ids` are the messages sent so far, for `sigs[..|ids|]`.
      A chain records its results in order; a group records which members were counted. */
  datatype Flow =
    | LineFlow(corr: Option<Id>, sigs: seq<Signature>, ids: seq<Id>, outputs: seq<Value>)
    | TeamFlow(corr: Option<Id>, sigs: seq<Signature>, ids: seq<Id>, cb: Option<Message>, done: seq<Id>)

  datatype State = State(
    tokens: map<Id, Token>, owner: map<Id, Origin>, flows: map<Id, Flow>,
    backend: Backend, hasBackend: bool, nextId: Id, clock: int, calls: nat, issued: nat)

  datatype Label =
    | Submit(canvas: Canvas)
    | Enqueue(sig: Signature)     // a message enqueued outside any workflow
    | SendMember(flow: Id)
    | Take(id: Id, worker: nat)
    | Track(id: Id, exec: nat)
    | Drop(id: Id)
    | Run(id: Id, oracle: Oracle)
    | Tick(now: int)

  // ---------------------------------------------------------------- messages of a workflow

  function StepMessage(fl: Flow, i: nat, id: Id): Message
    requires fl.LineFlow? && i < |fl.sigs| && i <= |fl.outputs|
  {
    var m := IntoMessage(fl.sigs[i], id);
    var h := if i == 0 then m.headers else m.headers[ChainInputKey := ChainInput(fl.outputs[i - 1])];
    m.(correlationId := fl.corr,
       headers := if i + 1 < |fl.sigs| then h[ChainNextKey := ChainNext(fl.sigs[i + 1..])] else h)
  }

  function MemberMessage(fl: Flow, f: Id, i: nat, id: Id): Message
    requires fl.TeamFlow? && i < |fl.sigs|
  {
    IntoMessage(fl.sigs[i], id).(
      correlationId := fl.corr, groupId := Some(f), groupTotal := Some(|fl.sigs| % U32), chordCallback := fl.cb)
  }

  // ---------------------------------------------------------------- submission

  /** The calls that a list of signatures may cost. */
  function Allowance(sigs: seq<Signature>): nat {
    if sigs == [] then 0 else sigs[0].maxRetries + 1 + Allowance(sigs[1..])
  }

  function SendFirst(s: State, corr: Option<Id>, sigs: seq<Signature>): State
    requires sigs != []
  {
    var f := s.nextId;
    var fl := LineFlow(corr, sigs, [f + 1], []);
    s.(tokens := s.tokens[f + 1 := Token(StepMessage(fl, 0, f + 1), Queued, 0)],
       owner := s.owner[f + 1 := Step(f, 0)], flows := s.flows[f := fl],
       nextId := f + 2, issued := s.issued + Allowance(sigs))
  }

  function SubmitPlan(s: State, p: Plan): State {
    var f := s.nextId;
    match p
    case Nothing => s
    case Line(sigs) => if sigs == [] then s else SendFirst(s, Some(f), sigs)
    case Team(sigs, cb) =>
      var ready := s.(backend := s.backend.InitGroup(f, |sigs| % U32));
      if cb.None?
      then ready.(flows := s.flows[f := TeamFlow(Some(f), sigs, [], None, [])],
                   nextId := f + 1, issued := s.issued + Allowance(sigs))
      else var m := IntoMessage(cb.value, f + 1);
           ready.(flows := s.flows[f := TeamFlow(Some(f), sigs, [], Some(m), [])],
                   owner := s.owner[f + 1 := Callback(f)],
                   nextId := f + 2, issued := s.issued + Allowance(sigs) + m.maxRetries + 1)
    case Barren(sigs) => s.(backend := s.backend.InitGroup(f, |sigs| % U32), nextId := f + 1)
  }

  function Send(s: State, f: Id): State
    requires f in s.flows && s.flows[f].TeamFlow? && |s.flows[f].ids| < |s.flows[f].sigs|
  {
    var fl := s.flows[f];
    var id := s.nextId;
    s.(tokens := s.tokens[id := Token(MemberMessage(fl, f, |fl.ids|, id), Queued, 0)],
       owner := s.owner[id := Member(f, |fl.ids|)],
       flows := s.flows[f := TeamFlow(fl.corr, fl.sigs, fl.ids + [id], fl.cb, fl.done)], nextId := id + 1)
  }

  // ---------------------------------------------------------------- execution

  /** Where a message is after its execution completed one operation. */
  function Settle(t: Token, out: Outcome): Token
    requires t.loc.Running?
  {
    match out.next
    case Some(x) =>
      Token(x.msg, Running(t.loc.exec, x.pc), if x.pc.OnError? then t.fails + 1 else t.fails)
    case None =>
      if out.effect.Requeue? then t.(loc := Queued)
      else if out.effect.Inter? then t.(loc := Dead)
      else t.(loc := Finished(if Carried(t.loc.pc).Some? then Carried(t.loc.pc).value else Null))
  }

  function ExecOf(t: Token): Exec
    requires t.loc.Running?
  {
    Exec(t.msg, t.loc.pc)
  }

  function Advance(s: State, id: Id, o: Oracle): Outcome
    requires id in s.tokens && s.tokens[id].loc.Running?
  {
    Resume(ExecOf(s.tokens[id]), s.backend, o, s.nextId, s.hasBackend)
  }

  /** The history of the workflow that `id` serves. */
  function Record(fl: Flow, id: Id, pc: Pc, o: Oracle, out: Outcome, newId: Id): Flow {
    match fl
    case LineFlow(corr, sigs, ids, outputs) =>
      if pc.Dispatch? && o.handler.Some? then LineFlow(corr, sigs, ids, outputs + [o.handler.value])
      else if pc.Continue? && out.effect.Spawn? then LineFlow(corr, sigs, ids + [newId], outputs)
      else fl
    case TeamFlow(corr, sigs, ids, cb, done) =>
      if pc.Complete? then TeamFlow(corr, sigs, ids, cb, done + [id]) else fl
  }

  function RunStep(s: State, id: Id, o: Oracle): State
    requires id in s.tokens && s.tokens[id].loc.Running?
  {
    RunWith(s, id, o, Advance(s, id, o))
  }

  function RunWith(s: State, id: Id, o: Oracle, out: Outcome): State
    requires id in s.tokens && s.tokens[id].loc.Running?
  {
    var t := s.tokens[id];
    var settled := s.tokens[id := Settle(t, out)];
    var grows := t.loc.pc.Continue? && out.effect.Spawn?;
    var flows :=
      if id in s.owner && !s.owner[id].Callback? && s.owner[id].flow in s.flows
      then s.flows[s.owner[id].flow := Record(s.flows[s.owner[id].flow], id, t.loc.pc, o, out, s.nextId)]
      else s.flows;
    s.(tokens := if out.effect.Spawn? then settled[out.effect.m.id := Token(out.effect.m, Queued, 0)] else settled,
       owner := if grows && id in s.owner && s.owner[id].Step?
                then s.owner[s.nextId := Step(s.owner[id].flow, s.owner[id].index + 1)] else s.owner,
       flows := flows,
       backend := out.backend,
       nextId := if grows then s.nextId + 1 else s.nextId,
       calls := if t.loc.pc.Dispatch? then s.calls + 1 else s.calls)
  }

  // ---------------------------------------------------------------- the machine

  predicate Enabled(s: State, l: Label) {
    match l
    case Submit(c) => Sendable(PlanOf(c))
    case Enqueue(sig) => Plain(sig)
    case SendMember(f) => f in s.flows && s.flows[f].TeamFlow? && |s.flows[f].ids| < |s.flows[f].sigs|
    case Take(id, _) => id in s.tokens && s.tokens[id].loc.Queued?
    case Track(id, _) => id in s.tokens && s.tokens[id].loc.Taken?
    case Drop(id) => id in s.tokens && s.tokens[id].loc.Taken?
    case Run(id, o) => id in s.tokens && s.tokens[id].loc.Running? && o.now == s.clock
    case Tick(now) => s.clock <= now
  }

  function Next(s: State, l: Label): State
    requires Enabled(s, l)
  {
    match l
    case Submit(c) => SubmitPlan(s, PlanOf(c))
    case Enqueue(sig) => SendFirst(s, None, [sig])
    case SendMember(f) => Send(s, f)
    case Take(id, w) => s.(tokens := s.tokens[id := s.tokens[id].(loc := Taken(w))])
    case Track(id, e) => s.(tokens := s.tokens[id := s.tokens[id].(loc := Running(e, Guard))])
    case Drop(id) => s.(tokens := s.tokens[id := s.tokens[id].(loc := Lost)])
    case Run(id, o) => RunStep(s, id, o)
    case Tick(now) => s.(clock := now)
  }

  predicate Init(s: State) {
    s.tokens == map[] && s.owner == map[] && s.flows == map[] && s.backend == Backend(map[], map[])
    && s.calls == 0 && s.issued == 0
  }

  /** `labels` leads from `s` to `t`. */
  ghost predicate Leads(s: State, labels: seq<Label>, t: State)
    decreases |labels|
  {
    if labels == [] then s == t
    else Enabled(s, labels[0]) && Leads(Next(s, labels[0]), labels[1..], t)
  }
}
