/** What every reachable state of the lifecycle satisfies. */
module Invariants {
  import opened Messages
  import opened Workflows
  import opened Results
  import opened Execution
  import opened Protocol

  /** A message without what an execution may change in it. */
  function Norm(m: Message): Message {
    m.(state := Pending, retries := 0, chordCallback := None)
  }

  /** How far a message is in its workflow: its handler has not succeeded yet, it has,
      it is the one firing the chord callback, or the group is done with it. */
  datatype Stage = Pre | Won(v: Value) | Calling(v: Value) | Over(v: Value)

  function StageOf(loc: Loc): Stage {
    match loc
    case Finished(v) => Over(v)
    case Running(_, pc) =>
      (match pc
       case Ack(v) => Won(v)
       case Store(v) => Won(v)
       case Complete(v) => Won(v)
       case Read(v, _) => Calling(v)
       case Fire(v, _) => Calling(v)
       case Continue(v) => Over(v)
       case _ => Pre)
    case _ => Pre
  }

  /** The retry state machine, and the eta guard. */
  predicate LifeOk(t: Token, clock: int) {
    var m := t.msg;
    m.retries <= m.maxRetries &&
    match t.loc
    case Dead => Buried(t)
    case Finished(_) => m.state == Success && t.fails == m.retries
    case Running(_, pc) =>
      (match pc
       case Guard => Waiting(t)
       case EtaAck => Waiting(t)
       case EtaPush => Waiting(t)
       case Nack => Waiting(t)
       case NackPush => Waiting(t)
       case Before => m.state == Started && t.fails == m.retries && Due(m, clock)
       case Dispatch => m.state == Started && t.fails == m.retries && Due(m, clock)
       case OnError => m.state == Started && t.fails == m.retries + 1
       case Bury => Buried(t)
       case BuryPush => Buried(t)
       case _ => m.state == Success && t.fails == m.retries)
    case _ => Waiting(t)
  }

  predicate Waiting(t: Token) {
    t.msg.state == (if t.msg.retries == 0 then Pending else Retry) && t.fails == t.msg.retries
  }

  predicate Buried(t: Token) {
    t.msg.state == DeadLettered && t.msg.retries == t.msg.maxRetries && t.fails == t.msg.maxRetries + 1
  }

  predicate Due(m: Message, clock: int) {
    m.eta.Some? ==> m.eta.value <= clock
  }

  predicate PastAck(pc: Pc) {
    pc.Store? || pc.Complete? || pc.Read? || pc.Fire? || pc.Continue?
  }

  ghost predicate TokenOk(s: State, id: Id)
    requires id in s.tokens
  {
    && s.tokens[id].msg.id == id
    && LifeOk(s.tokens[id], s.clock)
    && (s.tokens[id].loc.Running? && PastAck(s.tokens[id].loc.pc) ==> s.hasBackend)
    && id in s.owner
    && s.owner[id].flow in s.flows
    && var fl := s.flows[s.owner[id].flow];
       match s.owner[id]
       case Step(_, i) => fl.LineFlow? && i < |fl.ids| && fl.ids[i] == id
       case Member(_, i) => fl.TeamFlow? && i < |fl.ids| && fl.ids[i] == id
       case Callback(_) => fl.TeamFlow? && fl.cb.Some? && fl.cb.value.id == id
  }

  // ---------------------------------------------------------------- chains

  ghost predicate StepOk(s: State, f: Id, i: nat)
    requires f in s.flows && s.flows[f].LineFlow? && i < |s.flows[f].ids|
  {
    var fl := s.flows[f];
    var id := fl.ids[i];
    && id in s.tokens && id in s.owner && s.owner[id] == Step(f, i)
    && var t := s.tokens[id];
    && i < |fl.sigs| && i <= |fl.outputs|
    && t.msg.chordCallback == None && Norm(t.msg) == StepMessage(fl, i, id)
    && (i + 1 < |fl.ids| ==> i < |fl.outputs| && t.loc == Finished(fl.outputs[i]))
    && (if i < |fl.outputs| then StageOf(t.loc) == Won(fl.outputs[i]) || StageOf(t.loc) == Over(fl.outputs[i])
        else StageOf(t.loc).Pre?)
    && (t.loc.Finished? && s.hasBackend ==> i + 1 < |fl.ids| || i + 1 == |fl.sigs|)
  }

  ghost predicate LineOk(s: State, f: Id)
    requires f in s.flows && s.flows[f].LineFlow?
  {
    var fl := s.flows[f];
    && (fl.corr == None || fl.corr == Some(f))
    && 1 <= |fl.ids| <= |fl.sigs| && |fl.outputs| <= |fl.ids|
    && (forall sig <- fl.sigs :: Plain(sig))
    && (forall i :: 0 <= i < |fl.ids| ==> StepOk(s, f, i))
  }

  // ---------------------------------------------------------------- groups and chords

  ghost predicate MemberOk(s: State, f: Id, i: nat)
    requires f in s.flows && s.flows[f].TeamFlow? && i < |s.flows[f].ids|
  {
    var fl := s.flows[f];
    var id := fl.ids[i];
    && id in s.tokens && id in s.owner && s.owner[id] == Member(f, i)
    && var t := s.tokens[id];
    && i < |fl.sigs|
    && Norm(t.msg) == Norm(MemberMessage(fl, f, i, id))
    && (StageOf(t.loc).Pre? || StageOf(t.loc).Won? ==> t.msg.chordCallback == fl.cb)
    && (id in fl.done <==> s.hasBackend && (StageOf(t.loc).Calling? || StageOf(t.loc).Over?))
    && (StageOf(t.loc).Calling? ==> fl.cb.Some? && |fl.done| == |fl.sigs| && fl.done[|fl.done| - 1] == id)
    && (t.loc.Running? && t.loc.pc.Read? ==> fl.cb == Some(t.loc.pc.cb))
    && (t.loc.Running? && t.loc.pc.Fire? ==>
          f in s.backend.groups && fl.cb.Some? && t.loc.pc.cb == WithResults(fl.cb.value, s.backend.groups[f].results))
  }

  /** The k-th member counted: it has succeeded, with the k-th result. */
  ghost predicate CountedOk(s: State, f: Id, k: nat)
    requires f in s.flows && s.flows[f].TeamFlow? && k < |s.flows[f].done|
  {
    var fl := s.flows[f];
    var id := fl.done[k];
    && id in fl.ids && id in s.tokens && f in s.backend.groups && k < |s.backend.groups[f].results|
    && var v := s.backend.groups[f].results[k];
    && (StageOf(s.tokens[id].loc) == Calling(v) || StageOf(s.tokens[id].loc) == Over(v))
  }

  /** The last member of the group has been counted and is past the point where it fires. */
  predicate Fired(s: State, f: Id)
    requires f in s.flows && s.flows[f].TeamFlow?
  {
    var fl := s.flows[f];
    && s.hasBackend && fl.sigs != [] && |fl.done| == |fl.sigs|
    && var last := fl.done[|fl.done| - 1]; last in s.tokens && StageOf(s.tokens[last].loc).Over?
  }

  ghost predicate CallbackOk(s: State, f: Id)
    requires f in s.flows && s.flows[f].TeamFlow? && s.flows[f].cb.Some?
  {
    var cb := s.flows[f].cb.value;
    && Unchained(cb.headers) && cb.groupId.None? && cb.correlationId.None? && cb.chordCallback.None? && Norm(cb) == cb
    && cb.id in s.owner && s.owner[cb.id] == Callback(f)
    && (cb.id in s.tokens <==> Fired(s, f))
    && (cb.id in s.tokens ==>
          f in s.backend.groups && s.tokens[cb.id].msg.chordCallback == None && !StageOf(s.tokens[cb.id].loc).Calling?
          && Norm(s.tokens[cb.id].msg) == WithResults(cb, s.backend.groups[f].results))
  }

  ghost predicate TeamOk(s: State, f: Id)
    requires f in s.flows && s.flows[f].TeamFlow?
  {
    var fl := s.flows[f];
    && fl.corr == Some(f)
    && |fl.ids| <= |fl.sigs| < U32
    && (forall sig <- fl.sigs :: Plain(sig))
    && f in s.backend.groups
    && s.backend.groups[f].total == |fl.sigs|
    && s.backend.groups[f].completed == |fl.done| == |s.backend.groups[f].results|
    && (forall j, k :: 0 <= j < k < |fl.done| ==> fl.done[j] != fl.done[k])
    && (forall i :: 0 <= i < |fl.ids| ==> MemberOk(s, f, i))
    && (forall k :: 0 <= k < |fl.done| ==> CountedOk(s, f, k))
    && (fl.cb.Some? ==> CallbackOk(s, f))
  }

  ghost predicate FlowOk(s: State, f: Id)
    requires f in s.flows
  {
    if s.flows[f].LineFlow? then LineOk(s, f) else TeamOk(s, f)
  }

  ghost predicate TokensOk(s: State) {
    forall id <- s.tokens :: TokenOk(s, id)
  }

  ghost predicate FlowsOk(s: State) {
    forall f <- s.flows :: FlowOk(s, f)
  }

  ghost predicate Allocated(s: State) {
    && (forall f <- s.flows :: f < s.nextId)
    && (forall id <- s.owner :: id < s.nextId && s.owner[id].flow in s.flows)
    && (forall id <- s.tokens :: id in s.owner)
  }

  ghost predicate Inv(s: State) {
    TokensOk(s) && FlowsOk(s) && Allocated(s)
  }

  // ---------------------------------------------------------------- frames

  /** As far as a workflow can tell, a message at `loc'` is where it was at `loc`. */
  predicate SamePlace(o: Origin, loc: Loc, loc': Loc) {
    || loc' == loc
    || (o.Callback? && !StageOf(loc').Calling?)
    || (StageOf(loc') == StageOf(loc) && (StageOf(loc).Pre? || StageOf(loc).Won?))
  }

  ghost predicate SameFor(s: State, s': State, f: Id) {
    && f in s.flows && f in s'.flows && s'.flows[f] == s.flows[f] && s'.hasBackend == s.hasBackend
    && (f in s.backend.groups ==> f in s'.backend.groups && s'.backend.groups[f] == s.backend.groups[f])
    && (forall id :: id in s.owner && s.owner[id].flow == f ==>
          && id in s'.owner && s'.owner[id] == s.owner[id]
          && (id in s.tokens <==> id in s'.tokens)
          && (id in s.tokens ==>
                && Norm(s'.tokens[id].msg) == Norm(s.tokens[id].msg)
                && s'.tokens[id].msg.chordCallback == s.tokens[id].msg.chordCallback
                && SamePlace(s.owner[id], s.tokens[id].loc, s'.tokens[id].loc)))
  }

  lemma FlowFrame(s: State, s': State, f: Id)
    requires SameFor(s, s', f) && FlowOk(s, f)
    requires forall id <- s.tokens :: id in s.owner
    ensures FlowOk(s', f)
  {
    var fl := s.flows[f];
    if fl.LineFlow? {
      forall i | 0 <= i < |fl.ids| ensures StepOk(s', f, i) { assert StepOk(s, f, i); }
    } else {
      TeamFrame(s, s', f);
    }
  }

  lemma TeamFrame(s: State, s': State, f: Id)
    requires SameFor(s, s', f) && s.flows[f].TeamFlow? && TeamOk(s, f)
    ensures TeamOk(s', f)
  {
    var fl := s.flows[f];
    forall i | 0 <= i < |fl.ids| ensures MemberOk(s', f, i) { assert MemberOk(s, f, i); }
    forall k | 0 <= k < |fl.done| ensures CountedOk(s', f, k) {
      assert CountedOk(s, f, k);
      var i :| 0 <= i < |fl.ids| && fl.ids[i] == fl.done[k];
      assert MemberOk(s, f, i);
    }
    if fl.cb.Some? {
      assert CallbackOk(s, f);
      if |fl.done| > 0 {
        assert CountedOk(s, f, |fl.done| - 1) && CountedOk(s', f, |fl.done| - 1);
        var i :| 0 <= i < |fl.ids| && fl.ids[i] == fl.done[|fl.done| - 1];
        assert MemberOk(s, f, i);
      }
    }
  }
}
