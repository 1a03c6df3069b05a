/** Every step keeps the invariant. */
module Preservation {
  import opened Messages
  import opened Workflows
  import opened Results
  import opened Execution
  import opened Protocol
  import opened Invariants

  /** Distinct members of `ids` are at most `|ids|` many, and that many only if they are all of them. */
  lemma {:induction false} Pigeonhole(done: seq<Id>, ids: seq<Id>)
    requires forall j, k :: 0 <= j < k < |done| ==> done[j] != done[k]
    requires forall k :: 0 <= k < |done| ==> done[k] in ids
    ensures |done| <= |ids|
    ensures |done| == |ids| ==> forall i :: 0 <= i < |ids| ==> ids[i] in done
  {
    if done != [] {
      var last := done[|done| - 1];
      var i :| 0 <= i < |ids| && ids[i] == last;
      var rest := ids[..i] + ids[i + 1..];
      var front := done[..|done| - 1];
      forall k | 0 <= k < |front| ensures front[k] in rest {
        assert front[k] == done[k];
        var j :| 0 <= j < |ids| && ids[j] == done[k];
        assert rest[if j < i then j else j - 1] == done[k];
      }
      Pigeonhole(front, rest);
      if |done| == |ids| {
        forall j | 0 <= j < |ids| ensures ids[j] in done {
          if j != i { assert rest[if j < i then j else j - 1] in front; }
        }
      }
    }
  }

  predicate CanRun(s: State, id: Id, o: Oracle) {
    id in s.tokens && s.tokens[id].loc.Running? && o.now == s.clock
  }

  /** An operation leaves the message alone except for state, retries and the callback it takes,
      and touches the counts of no group but its own. */
  ghost predicate Framed(x: Exec, b: Backend, newId: Id, out: Outcome) {
    && (out.next.Some? ==> Norm(out.next.value.msg) == Norm(x.msg))
    && (out.next.Some? && !x.pc.Complete? ==> out.next.value.msg.chordCallback == x.msg.chordCallback)
    && (forall g <- b.groups ::
          x.msg.groupId == Some(g) || (g in out.backend.groups && out.backend.groups[g] == b.groups[g]))
    && (out.effect.Spawn? ==>
          || (x.pc.Fire? && out.effect.m == x.pc.cb)
          || (x.pc.Continue? && ChainNextKey in x.msg.headers && out.effect.m.id == newId))
  }

  lemma ResumeFrame(x: Exec, b: Backend, o: Oracle, newId: Id, hasBackend: bool)
    ensures Framed(x, b, newId, Resume(x, b, o, newId, hasBackend))
  {
  }

  /** What a message's workflow says about the message. */
  ghost predicate Known(s: State, id: Id) {
    && id in s.tokens && id in s.owner && s.owner[id].flow in s.flows
    && TokenOk(s, id)
    && s.tokens[id].msg.groupId == (if s.owner[id].Member? then Some(s.owner[id].flow) else None)
    && (!s.owner[id].Step? ==> ChainNextKey !in s.tokens[id].msg.headers)
    && match s.owner[id]
       case Step(f, i) => StepOk(s, f, i)
       case Member(f, i) => MemberOk(s, f, i) && (s.flows[f].cb.Some? ==> CallbackOk(s, f))
       case Callback(f) => CallbackOk(s, f)
  }

  lemma Identify(s: State, id: Id)
    requires Inv(s) && id in s.tokens
    ensures Known(s, id) && FlowOk(s, s.owner[id].flow)
  {
    assert TokenOk(s, id);
    assert FlowOk(s, s.owner[id].flow);
    var m := Norm(s.tokens[id].msg);
    assert m.headers == s.tokens[id].msg.headers && m.groupId == s.tokens[id].msg.groupId;
    match s.owner[id] {
      case Step(f, i) => assert StepOk(s, f, i);
      case Member(f, i) =>
        assert MemberOk(s, f, i);
        assert Plain(s.flows[f].sigs[i]);
      case Callback(f) => assert CallbackOk(s, f);
    }
  }

  /** Only the last member of a chord, and a chain step, put another message in a queue. */
  ghost predicate SpawnOk(s: State, id: Id, out: Outcome)
    requires id in s.tokens && s.tokens[id].loc.Running? && id in s.owner
  {
    out.effect.Spawn? ==>
      var m := out.effect.m;
      || (s.owner[id].Step? && s.tokens[id].loc.pc.Continue? && m.id == s.nextId)
      || (s.owner[id].Member? && s.tokens[id].loc.pc.Fire? && m.id !in s.tokens
          && m.id in s.owner && s.owner[m.id] == Callback(s.owner[id].flow)
          && s.owner[id].flow in s.flows && s.flows[s.owner[id].flow].TeamFlow?
          && s.flows[s.owner[id].flow].cb.Some? && s.flows[s.owner[id].flow].cb.value.id == m.id)
  }

  lemma Spawned(s: State, id: Id, out: Outcome)
    requires Known(s, id) && s.tokens[id].loc.Running?
    requires Framed(ExecOf(s.tokens[id]), s.backend, s.nextId, out)
    ensures SpawnOk(s, id, out)
  {
  }

  /** What running `id` may change at all. */
  ghost predicate Ran(s: State, s': State, id: Id)
    requires id in s.tokens && id in s.owner
  {
    var mine := s.owner[id];
    && s'.hasBackend == s.hasBackend && s'.clock == s.clock && s.nextId <= s'.nextId
    && id in s'.tokens && Norm(s'.tokens[id].msg) == Norm(s.tokens[id].msg)
    && (mine.Callback? ==>
          s'.tokens[id].msg.chordCallback == s.tokens[id].msg.chordCallback && !StageOf(s'.tokens[id].loc).Calling?)
    && (forall i <- s.tokens :: i in s'.tokens && (i != id ==> s'.tokens[i] == s.tokens[i]))
    && (forall i <- s'.tokens :: i in s.tokens ||
          (mine.Step? && i == s.nextId) || (mine.Member? && i in s.owner && s.owner[i] == Callback(mine.flow)))
    && (forall i <- s.owner :: i in s'.owner && s'.owner[i] == s.owner[i])
    && (forall i <- s'.owner :: i in s.owner || (i == s.nextId < s'.nextId && s'.owner[i].flow == mine.flow))
    && s'.flows.Keys == s.flows.Keys
    && (forall g <- s.flows :: g != mine.flow || mine.Callback? ==> s'.flows[g] == s.flows[g])
    && (forall g <- s.backend.groups :: !mine.Member? || g != mine.flow ==>
          g in s'.backend.groups && s'.backend.groups[g] == s.backend.groups[g])
  }

  /** A message outside any group completes no member and takes no callback. */
  lemma UngroupedRuns(x: Exec, b: Backend, o: Oracle, newId: Id, hasBackend: bool)
    requires x.msg.groupId.None? && !x.pc.Read? && !x.pc.Fire?
    ensures var out := Resume(x, b, o, newId, hasBackend);
      out.next.Some? ==>
        && out.next.value.msg.chordCallback == x.msg.chordCallback
        && !out.next.value.pc.Read? && !out.next.value.pc.Fire?
  {
  }

  /** The facts about one operation that do not depend on which one it was. */
  ghost predicate Tame(s: State, id: Id, out: Outcome)
    requires id in s.tokens && s.tokens[id].loc.Running? && id in s.owner
  {
    var t := s.tokens[id];
    && (out.next.Some? ==> Norm(out.next.value.msg) == Norm(t.msg))
    && (forall g <- s.backend.groups :: !s.owner[id].Member? || g != s.owner[id].flow ==>
          g in out.backend.groups && out.backend.groups[g] == s.backend.groups[g])
    && SpawnOk(s, id, out)
    && (s.owner[id].Callback? ==>
          && !StageOf(Settle(t, out).loc).Calling?
          && Settle(t, out).msg.chordCallback == t.msg.chordCallback)
  }

  lemma AdvanceIsTame(s: State, id: Id, o: Oracle)
    requires Known(s, id) && CanRun(s, id, o)
    ensures Tame(s, id, Advance(s, id, o))
  {
    var x := ExecOf(s.tokens[id]);
    ResumeFrame(x, s.backend, o, s.nextId, s.hasBackend);
    Spawned(s, id, Advance(s, id, o));
    if s.owner[id].Callback? { UngroupedRuns(x, s.backend, o, s.nextId, s.hasBackend); }
  }

  lemma RunChanges(s: State, id: Id, o: Oracle, out: Outcome)
    requires Allocated(s) && CanRun(s, id, o) && Tame(s, id, out)
    ensures Ran(s, RunWith(s, id, o, out), id)
  {
  }

  lemma RunKeepsOthers(s: State, s': State, id: Id, f: Id)
    requires Allocated(s) && id in s.tokens && Ran(s, s', id) && f in s.flows && FlowOk(s, f)
    requires s.owner[id].flow != f || s.owner[id].Callback?
    ensures FlowOk(s', f)
  {
    forall i | i in s.owner && s.owner[i].flow == f && i != id
      ensures i in s'.owner && s'.owner[i] == s.owner[i] && (i in s.tokens <==> i in s'.tokens)
      ensures i in s.tokens ==> s'.tokens[i] == s.tokens[i]
    {
    }
    assert SameFor(s, s', f);
    FlowFrame(s, s', f);
  }

  // ---------------------------------------------------------------- the message that ran

  lemma ResumeLife(t: Token, b: Backend, o: Oracle, newId: Id, hasBackend: bool)
    requires t.loc.Running? && LifeOk(t, o.now)
    ensures LifeOk(Settle(t, Resume(ExecOf(t), b, o, newId, hasBackend)), o.now)
  {
  }

  /** One operation of an execution that serves no group. */
  ghost predicate Moves(t: Token, o: Oracle, out: Outcome, newId: Id, hasBackend: bool)
    requires t.loc.Running?
  {
    var t' := Settle(t, out);
    && t'.msg.chordCallback == t.msg.chordCallback
    && (match t.loc.pc
        case Dispatch => StageOf(t'.loc) == if o.handler.Some? then Won(o.handler.value) else Pre
        case Continue(v) =>
          && t'.loc == Finished(v)
          && (match NextMessage(t.msg, v, newId)
              case Some(m) => out.effect == Spawn(m)
              case None => out.effect == Silent)
        case _ =>
          && (StageOf(t'.loc) == StageOf(t.loc) || (StageOf(t.loc).Won? && StageOf(t'.loc) == Over(StageOf(t.loc).v)))
          && (t'.loc.Finished? ==> !hasBackend)
          && !out.effect.Spawn?)
  }

  lemma ResumeMoves(t: Token, b: Backend, o: Oracle, newId: Id, hasBackend: bool)
    requires t.loc.Running? && t.msg.groupId.None? && !t.loc.pc.Read? && !t.loc.pc.Fire?
    ensures Moves(t, o, Resume(ExecOf(t), b, o, newId, hasBackend), newId, hasBackend)
  {
  }

  ghost predicate LastStep(s: State, id: Id, o: Oracle, out: Outcome)
  {
    && Allocated(s) && CanRun(s, id, o) && s.owner[id].Step? && s.owner[id].flow in s.flows
    && s.flows[s.owner[id].flow].LineFlow? && LineOk(s, s.owner[id].flow)
    && s.owner[id].index < |s.flows[s.owner[id].flow].ids| && s.flows[s.owner[id].flow].ids[s.owner[id].index] == id
    && Tame(s, id, out) && Moves(s.tokens[id], o, out, s.nextId, s.hasBackend)
  }

  /** A step of a chain that does not hand over. */
  ghost predicate StaysInLine(s: State, s': State, f: Id, id: Id) {
    && Allocated(s) && id in s.tokens && s.owner[id].Step? && s.owner[id].flow == f && Ran(s, s', id)
    && f in s.flows && s.flows[f].LineFlow?
    && var fl, t, t' := s.flows[f], s.tokens[id], s'.tokens[id];
    && s.owner[id].index + 1 == |fl.ids|
    && t'.msg.chordCallback == t.msg.chordCallback
    && (t'.loc.Finished? && s.hasBackend ==> |fl.ids| == |fl.sigs|)
    && (|| (s'.flows[f] == fl
            && (StageOf(t'.loc) == StageOf(t.loc)
                || (StageOf(t.loc).Won? && StageOf(t'.loc) == Over(StageOf(t.loc).v))))
        || (StageOf(t.loc).Pre? && StageOf(t'.loc).Won?
            && s'.flows[f] == LineFlow(fl.corr, fl.sigs, fl.ids, fl.outputs + [StageOf(t'.loc).v])))
  }

  lemma StepStays(s: State, s': State, f: Id, id: Id, j: nat)
    requires StaysInLine(s, s', f, id) && LineOk(s, f)
    requires j < |s.flows[f].ids| && StepOk(s, f, j) && s.flows[f].ids[s.owner[id].index] == id
    ensures StepOk(s', f, j)
  {
  }

  lemma StepRan(s: State, id: Id, o: Oracle, out: Outcome)
    requires LastStep(s, id, o, out) && !out.effect.Spawn?
    ensures FlowOk(RunWith(s, id, o, out), s.owner[id].flow)
  {
    var s' := RunWith(s, id, o, out);
    var f, i := s.owner[id].flow, s.owner[id].index;
    assert StepOk(s, f, i);
    if s.tokens[id].loc.pc.Continue? { NextStepMessage(s, f, i); }
    RunChanges(s, id, o, out);
    assert StaysInLine(s, s', f, id);
    forall j | 0 <= j < |s'.flows[f].ids| ensures StepOk(s', f, j) { StepStays(s, s', f, id, j); }
  }

  /** A step that hands the chain to the next one. */
  lemma StepHandsOver(s: State, id: Id, o: Oracle, out: Outcome)
    requires LastStep(s, id, o, out) && out.effect.Spawn?
    ensures FlowOk(RunWith(s, id, o, out), s.owner[id].flow)
  {
    var f, i := s.owner[id].flow, s.owner[id].index;
    assert StepOk(s, f, i);
    NextStepMessage(s, f, i);
    HandOverShape(s, id, o, out);
    LineGrows(s, RunWith(s, id, o, out), f, id);
  }

  /** The next step is queued behind a chain whose last step `id` has finished. */
  ghost predicate HandedOver(s: State, s': State, f: Id, id: Id) {
    && f in s.flows && s.flows[f].LineFlow? && f in s'.flows && id in s.tokens && id in s'.tokens
    && var fl := s.flows[f];
    && 0 < |fl.ids| == |fl.outputs| < |fl.sigs| && fl.ids[|fl.ids| - 1] == id && s.nextId !in s.tokens
    && s'.flows[f] == LineFlow(fl.corr, fl.sigs, fl.ids + [s.nextId], fl.outputs)
    && s'.tokens == s.tokens[id := s'.tokens[id]][s.nextId := Token(StepMessage(fl, |fl.ids|, s.nextId), Queued, 0)]
    && Norm(s'.tokens[id].msg) == Norm(s.tokens[id].msg)
    && s'.tokens[id].msg.chordCallback == s.tokens[id].msg.chordCallback
    && s'.tokens[id].loc == Finished(fl.outputs[|fl.outputs| - 1])
    && s'.owner == s.owner[s.nextId := Step(f, |fl.ids|)] && s.nextId !in s.owner
  }

  predicate HandsOnNext(s: State, id: Id, fl: Flow, i: nat)
    requires id in s.tokens && fl.LineFlow? && i < |fl.outputs|
  {
    var next := if i + 1 < |fl.sigs| then Some(StepMessage(fl, i + 1, s.nextId)) else None;
    NextMessage(s.tokens[id].msg, fl.outputs[i], s.nextId) == next
  }

  lemma HandOverShape(s: State, id: Id, o: Oracle, out: Outcome)
    requires LastStep(s, id, o, out) && out.effect.Spawn? && StepOk(s, s.owner[id].flow, s.owner[id].index)
    requires s.owner[id].index < |s.flows[s.owner[id].flow].outputs|
    requires HandsOnNext(s, id, s.flows[s.owner[id].flow], s.owner[id].index)
    ensures HandedOver(s, RunWith(s, id, o, out), s.owner[id].flow, id)
  {
  }

  lemma LineGrows(s: State, s': State, f: Id, id: Id)
    requires HandedOver(s, s', f, id) && LineOk(s, f)
    ensures LineOk(s', f)
  {
    var n := |s.flows[f].ids|;
    assert StepOk(s, f, n - 1);
    forall j | 0 <= j < n ensures StepOk(s', f, j) {
      assert StepOk(s, f, j);
      EarlierStep(s, s', f, j);
    }
    assert StepOk(s', f, n);
  }

  /** What a hand-over leaves alone: the chain's earlier steps; its own ends with its result. */
  lemma EarlierStep(s: State, s': State, f: Id, j: nat)
    requires f in s.flows && s.flows[f].LineFlow? && j < |s.flows[f].ids| && StepOk(s, f, j)
    requires f in s'.flows
    requires var fl := s.flows[f]; s'.flows[f] == LineFlow(fl.corr, fl.sigs, fl.ids + [s.nextId], fl.outputs)
    requires var i := s.flows[f].ids[j]; i in s'.tokens && i in s'.owner && s'.owner[i] == s.owner[i]
    requires |s.flows[f].outputs| == |s.flows[f].ids|
    requires var i := s.flows[f].ids[j]; if j + 1 == |s.flows[f].ids|
      then Norm(s'.tokens[i].msg) == Norm(s.tokens[i].msg)
        && s'.tokens[i].msg.chordCallback == s.tokens[i].msg.chordCallback
        && s'.tokens[i].loc == Finished(s.flows[f].outputs[j])
      else s'.tokens[i] == s.tokens[i]
    ensures StepOk(s', f, j)
  {
  }

  /** The message that `NextMessage` builds is the chain's next step. */
  lemma NextStepMessage(s: State, f: Id, i: nat)
    requires f in s.flows && s.flows[f].LineFlow? && i < |s.flows[f].ids| && StepOk(s, f, i)
    requires forall sig <- s.flows[f].sigs :: Plain(sig)
    requires i < |s.flows[f].outputs|
    ensures NextMessage(s.tokens[s.flows[f].ids[i]].msg, s.flows[f].outputs[i], s.nextId)
      == if i + 1 < |s.flows[f].sigs| then Some(StepMessage(s.flows[f], i + 1, s.nextId)) else None
  {
    var fl := s.flows[f];
    var m := s.tokens[fl.ids[i]].msg;
    assert m.headers == StepMessage(fl, i, fl.ids[i]).headers && m.correlationId == fl.corr by {
      assert Norm(m).headers == m.headers && Norm(m).correlationId == m.correlationId;
    }
    assert Plain(fl.sigs[i]);
    if i + 1 < |fl.sigs| {
      var rest := fl.sigs[i + 1..];
      assert m.headers[ChainNextKey] == ChainNext(rest);
      assert rest[0] == fl.sigs[i + 1] && rest[1..] == fl.sigs[i + 2..];
    }
  }

  lemma RunKeepsStep(s: State, id: Id, o: Oracle)
    requires Inv(s) && CanRun(s, id, o) && id in s.owner && s.owner[id].Step?
    ensures FlowOk(RunStep(s, id, o), s.owner[id].flow)
  {
    Identify(s, id);
    AdvanceIsTame(s, id, o);
    ResumeMoves(s.tokens[id], s.backend, o, s.nextId, s.hasBackend);
    var out := Advance(s, id, o);
    if out.effect.Spawn? { StepHandsOver(s, id, o, out); } else { StepRan(s, id, o, out); }
  }

  // ---------------------------------------------------------------- members of a group

  /** One operation of a member of group `f`. */
  ghost predicate MemberMoves(t: Token, b: Backend, f: Id, o: Oracle, out: Outcome, hasBackend: bool)
    requires t.loc.Running? && f in b.groups
  {
    var t' := Settle(t, out);
    var fired := (b.groups[f].completed + 1) % U32 == (if t.msg.groupTotal.Some? then t.msg.groupTotal.value else 0)
                 && t.msg.chordCallback.Some?;
    && f in out.backend.groups
    && out.backend.groups[f] ==
         (if t.loc.pc.Complete?
          then GroupState(b.groups[f].total, (b.groups[f].completed + 1) % U32, b.groups[f].results + [t.loc.pc.v])
          else b.groups[f])
    && (!t.loc.pc.Complete? ==> t'.msg.chordCallback == t.msg.chordCallback)
    && (match t.loc.pc
        case Dispatch => StageOf(t'.loc) == if o.handler.Some? then Won(o.handler.value) else Pre
        case Ack(v) => if hasBackend then StageOf(t'.loc) == Won(v) else StageOf(t'.loc) == Over(v)
        case Store(v) => StageOf(t'.loc) == Won(v)
        case Complete(v) =>
          if fired then t'.loc == Running(t.loc.exec, Read(v, t.msg.chordCallback.value))
          else t'.loc == Running(t.loc.exec, Continue(v))
        case Read(v, cb) => t'.loc == Running(t.loc.exec, Fire(v, WithResults(cb, b.groups[f].results)))
        case Fire(v, cb) => t'.loc == Running(t.loc.exec, Continue(v)) && out.effect == Spawn(cb)
        case Continue(v) => t'.loc == Finished(v)
        case _ => StageOf(t'.loc).Pre?)
    && (!t.loc.pc.Fire? && !t.loc.pc.Continue? ==> !out.effect.Spawn?)
  }

  lemma ResumeMemberMoves(t: Token, b: Backend, f: Id, o: Oracle, newId: Id, hasBackend: bool)
    requires t.loc.Running? && t.msg.groupId == Some(f) && f in b.groups
    ensures MemberMoves(t, b, f, o, Resume(ExecOf(t), b, o, newId, hasBackend), hasBackend)
  {
  }

  /** From `t` to `t'` a member is neither counted nor done firing. */
  predicate StaysMember(t: Token, t': Token, results: seq<Value>, hasBackend: bool) {
    && t'.msg.chordCallback == t.msg.chordCallback
    && !(t'.loc.Running? && t'.loc.pc.Read?)
    && (t'.loc.Running? && t'.loc.pc.Fire? ==>
          t.loc.Running? && t.loc.pc.Read? && t'.loc.pc.cb == WithResults(t.loc.pc.cb, results))
    && match StageOf(t.loc)
       case Pre => StageOf(t'.loc).Pre? || StageOf(t'.loc).Won?
       case Won(v) => StageOf(t'.loc) == Won(v) || (!hasBackend && StageOf(t'.loc) == Over(v))
       case Calling(v) => StageOf(t'.loc) == Calling(v)
       case Over(v) => StageOf(t'.loc) == Over(v)
  }

  ghost predicate QuietMember(s: State, s': State, f: Id, id: Id)
  {
    && Allocated(s) && id in s.tokens && s.owner[id].Member? && s.owner[id].flow == f && Ran(s, s', id)
    && f in s.flows && s.flows[f].TeamFlow? && s'.flows[f] == s.flows[f]
    && f in s.backend.groups && f in s'.backend.groups && s'.backend.groups[f] == s.backend.groups[f]
    && StaysMember(s.tokens[id], s'.tokens[id], s.backend.groups[f].results, s.hasBackend)
    && (forall i <- s'.tokens :: i in s.tokens)
  }

  lemma MemberRanAt(s: State, s': State, f: Id, id: Id, i: nat)
    requires QuietMember(s, s', f, id) && i < |s.flows[f].ids| && MemberOk(s, f, i)
    ensures MemberOk(s', f, i)
  {
  }

  lemma MemberRan(s: State, s': State, f: Id, id: Id)
    requires QuietMember(s, s', f, id) && TeamOk(s, f)
    ensures TeamOk(s', f)
  {
    var fl := s.flows[f];
    forall i | 0 <= i < |fl.ids| ensures MemberOk(s', f, i) { MemberRanAt(s, s', f, id, i); }
    forall k | 0 <= k < |fl.done| ensures CountedOk(s', f, k) { assert CountedOk(s, f, k); }
    if |fl.done| > 0 { assert CountedOk(s, f, |fl.done| - 1); }
    if fl.cb.Some? { assert CallbackOk(s, f); assert CallbackOk(s', f); }
  }

  /** While a member is not counted yet, the group is not full. */
  lemma RoomLeft(s: State, f: Id, id: Id)
    requires f in s.flows && s.flows[f].TeamFlow? && TeamOk(s, f)
    requires id in s.flows[f].ids && id !in s.flows[f].done
    ensures |s.flows[f].done| < |s.flows[f].ids|
  {
    var fl := s.flows[f];
    forall k | 0 <= k < |fl.done| ensures fl.done[k] in fl.ids { assert CountedOk(s, f, k); }
    Pigeonhole(fl.done, fl.ids);
  }

  /** A member is counted; the last one turns to the callback. */
  ghost predicate Counting(s: State, s': State, f: Id, id: Id, v: Value)
  {
    && Allocated(s) && id in s.tokens && s.owner[id].Member? && s.owner[id].flow == f && Ran(s, s', id)
    && f in s.flows && s.flows[f].TeamFlow? && id !in s.flows[f].done && s.hasBackend
    && var fl := s.flows[f];
    && |fl.done| < |fl.sigs| && id in fl.ids
    && StageOf(s.tokens[id].loc) == Won(v)
    && s'.flows[f] == TeamFlow(fl.corr, fl.sigs, fl.ids, fl.cb, fl.done + [id])
    && f in s.backend.groups && f in s'.backend.groups
    && |s.backend.groups[f].results| == |fl.done|
    && s'.backend.groups[f].results == s.backend.groups[f].results + [v]
    && (forall i <- s'.tokens :: i in s.tokens)
    && s'.tokens[id].loc.Running?
    && s'.tokens[id].loc.pc ==
         if fl.cb.Some? && |fl.done| + 1 == |fl.sigs| then Read(v, fl.cb.value) else Continue(v)
  }

  lemma MemberCountedAt(s: State, s': State, f: Id, id: Id, v: Value, i: nat)
    requires Counting(s, s', f, id, v) && i < |s.flows[f].ids| && MemberOk(s, f, i)
    ensures MemberOk(s', f, i)
  {
    if s.flows[f].ids[i] == id { CountedMember(s, s', f, id, v, i); } else { UncountedMember(s, s', f, id, v, i); }
  }

  lemma CountedMember(s: State, s': State, f: Id, id: Id, v: Value, i: nat)
    requires Counting(s, s', f, id, v) && i < |s.flows[f].ids| && MemberOk(s, f, i) && s.flows[f].ids[i] == id
    ensures MemberOk(s', f, i)
  {
  }

  lemma UncountedMember(s: State, s': State, f: Id, id: Id, v: Value, i: nat)
    requires Counting(s, s', f, id, v) && i < |s.flows[f].ids| && MemberOk(s, f, i) && s.flows[f].ids[i] != id
    ensures MemberOk(s', f, i)
  {
  }

  lemma CountedStays(s: State, s': State, f: Id, id: Id, v: Value, k: nat)
    requires Counting(s, s', f, id, v) && k <= |s.flows[f].done|
    requires k < |s.flows[f].done| ==> CountedOk(s, f, k)
    ensures CountedOk(s', f, k)
  {
  }

  lemma MemberCounted(s: State, s': State, f: Id, id: Id, v: Value)
    requires Counting(s, s', f, id, v) && TeamOk(s, f)
    requires s'.backend.groups[f].total == s.backend.groups[f].total
    requires s'.backend.groups[f].completed == (s.backend.groups[f].completed + 1) % U32
    ensures TeamOk(s', f)
  {
    var fl, fl' := s.flows[f], s'.flows[f];
    forall i | 0 <= i < |fl.ids| ensures MemberOk(s', f, i) { MemberCountedAt(s, s', f, id, v, i); }
    forall k | 0 <= k < |fl'.done| ensures CountedOk(s', f, k) {
      if k < |fl.done| { assert CountedOk(s, f, k); }
      CountedStays(s, s', f, id, v, k);
    }
    if fl.cb.Some? { assert CallbackOk(s, f); assert CallbackOk(s', f); }
  }

  /** The last member `id` puts the callback on its queue. */
  ghost predicate Firing(s: State, s': State, f: Id, id: Id, v: Value) {
    && Allocated(s) && id in s.tokens && id in s.owner && s.owner[id].Member? && s.owner[id].flow == f && Ran(s, s', id)
    && f in s.flows && s.flows[f].TeamFlow? && f in s'.flows && s'.flows[f] == s.flows[f] && s.hasBackend
    && f in s.backend.groups && f in s'.backend.groups && s'.backend.groups[f] == s.backend.groups[f]
    && var fl := s.flows[f];
    && fl.cb.Some? && fl.sigs != [] && |fl.done| == |fl.sigs| && fl.done[|fl.done| - 1] == id
    && StageOf(s.tokens[id].loc) == Calling(v)
    && s'.tokens[id].loc.Running? && s'.tokens[id].loc.pc == Continue(v)
    && fl.cb.value.id !in s.tokens
    && s'.tokens == s.tokens[id := s'.tokens[id]][
         fl.cb.value.id := Token(WithResults(fl.cb.value, s.backend.groups[f].results), Queued, 0)]
  }

  lemma FiringMember(s: State, s': State, f: Id, id: Id, v: Value, i: nat)
    requires Firing(s, s', f, id, v) && i < |s.flows[f].ids| && MemberOk(s, f, i)
    ensures MemberOk(s', f, i)
  {
  }

  lemma FiringCounted(s: State, s': State, f: Id, id: Id, v: Value, k: nat)
    requires Firing(s, s', f, id, v) && k < |s.flows[f].done| && CountedOk(s, f, k)
    ensures CountedOk(s', f, k)
  {
  }

  lemma FiringCallback(s: State, s': State, f: Id, id: Id, v: Value)
    requires Firing(s, s', f, id, v) && CallbackOk(s, f)
    ensures CallbackOk(s', f)
  {
  }

  /** The last member fires the callback. */
  lemma MemberFires(s: State, s': State, f: Id, id: Id, v: Value)
    requires Firing(s, s', f, id, v) && TeamOk(s, f)
    ensures TeamOk(s', f)
  {
    var fl := s.flows[f];
    FiringCallback(s, s', f, id, v);
    forall i | 0 <= i < |fl.ids| ensures MemberOk(s', f, i) { FiringMember(s, s', f, id, v, i); }
    forall k | 0 <= k < |fl.done| ensures CountedOk(s', f, k) { FiringCounted(s, s', f, id, v, k); }
  }

  /** Whatever a member does besides being counted and firing. */
  lemma OtherwiseStays(t: Token, b: Backend, f: Id, o: Oracle, out: Outcome, hasBackend: bool)
    requires t.loc.Running? && f in b.groups && MemberMoves(t, b, f, o, out, hasBackend)
    requires !t.loc.pc.Complete? && !t.loc.pc.Fire?
    ensures StaysMember(t, Settle(t, out), b.groups[f].results, hasBackend)
  {
  }

  ghost predicate MemberAdvance(s: State, f: Id, id: Id, o: Oracle, out: Outcome) {
    && Allocated(s) && Known(s, id) && CanRun(s, id, o) && s.owner[id].Member? && s.owner[id].flow == f
    && f in s.flows && s.flows[f].TeamFlow? && TeamOk(s, f)
    && MemberMoves(s.tokens[id], s.backend, f, o, out, s.hasBackend) && SpawnOk(s, id, out)
    && Ran(s, RunWith(s, id, o, out), id)
  }

  lemma AdvanceCounts(s: State, f: Id, id: Id, o: Oracle, out: Outcome)
    requires MemberAdvance(s, f, id, o, out) && s.tokens[id].loc.pc.Complete?
    ensures TeamOk(RunWith(s, id, o, out), f)
  {
    MemberDueToCount(s, f, id);
    AdvanceIsCounting(s, f, id, o, out);
    MemberCounted(s, RunWith(s, id, o, out), f, id, s.tokens[id].loc.pc.v);
  }

  /** What a group and its member `id` look like just before the member is counted. */
  ghost predicate DueToCount(s: State, f: Id, id: Id) {
    && id in s.tokens && s.tokens[id].loc.Running? && s.tokens[id].loc.pc.Complete?
    && f in s.flows && s.flows[f].TeamFlow? && f in s.backend.groups && s.hasBackend
    && var fl, t, g := s.flows[f], s.tokens[id], s.backend.groups[f];
    && id in fl.ids && id !in fl.done && |fl.done| < |fl.sigs| < U32
    && g.completed == |fl.done| == |g.results|
    && t.msg.groupTotal == Some(|fl.sigs|) && t.msg.chordCallback == fl.cb
  }

  lemma MemberDueToCount(s: State, f: Id, id: Id)
    requires Known(s, id) && s.owner[id].Member? && s.owner[id].flow == f && f in s.flows && s.flows[f].TeamFlow?
    requires TeamOk(s, f) && s.tokens[id].loc.Running? && s.tokens[id].loc.pc.Complete?
    ensures DueToCount(s, f, id)
  {
    var t := s.tokens[id];
    RoomLeft(s, f, id);
    assert Norm(t.msg).groupTotal == t.msg.groupTotal;
  }

  lemma AdvanceIsCounting(s: State, f: Id, id: Id, o: Oracle, out: Outcome)
    requires Allocated(s) && CanRun(s, id, o) && id in s.owner && s.owner[id].Member? && s.owner[id].flow == f
    requires DueToCount(s, f, id) && MemberMoves(s.tokens[id], s.backend, f, o, out, s.hasBackend)
    requires Ran(s, RunWith(s, id, o, out), id) && !out.effect.Spawn?
    ensures var s' := RunWith(s, id, o, out);
      && Counting(s, s', f, id, s.tokens[id].loc.pc.v)
      && s'.backend.groups[f].total == s.backend.groups[f].total
      && s'.backend.groups[f].completed == (s.backend.groups[f].completed + 1) % U32
  {
    var s' := RunWith(s, id, o, out);
    assert s'.tokens == s.tokens[id := Settle(s.tokens[id], out)];
  }

  lemma AdvanceFires(s: State, f: Id, id: Id, o: Oracle, out: Outcome)
    requires MemberAdvance(s, f, id, o, out) && s.tokens[id].loc.pc.Fire?
    ensures TeamOk(RunWith(s, id, o, out), f)
  {
    MemberDueToFire(s, f, id);
    AdvanceIsFiring(s, f, id, o, out);
    MemberFires(s, RunWith(s, id, o, out), f, id, s.tokens[id].loc.pc.v);
  }

  /** What a group and its last member look like just before the callback is enqueued. */
  ghost predicate DueToFire(s: State, f: Id, id: Id) {
    && id in s.tokens && s.tokens[id].loc.Running? && s.tokens[id].loc.pc.Fire?
    && f in s.flows && s.flows[f].TeamFlow? && f in s.backend.groups && s.hasBackend
    && var fl := s.flows[f];
    && fl.cb.Some? && fl.sigs != [] && |fl.done| == |fl.sigs| && fl.done[|fl.done| - 1] == id
    && fl.cb.value.id !in s.tokens
    && s.tokens[id].loc.pc.cb == WithResults(fl.cb.value, s.backend.groups[f].results)
  }

  lemma MemberDueToFire(s: State, f: Id, id: Id)
    requires Known(s, id) && s.owner[id].Member? && s.owner[id].flow == f && f in s.flows && s.flows[f].TeamFlow?
    requires TeamOk(s, f) && s.tokens[id].loc.Running? && s.tokens[id].loc.pc.Fire?
    ensures DueToFire(s, f, id)
  {
    assert CallbackOk(s, f);
  }

  lemma AdvanceIsFiring(s: State, f: Id, id: Id, o: Oracle, out: Outcome)
    requires Allocated(s) && CanRun(s, id, o) && id in s.owner && s.owner[id].Member? && s.owner[id].flow == f
    requires DueToFire(s, f, id) && MemberMoves(s.tokens[id], s.backend, f, o, out, s.hasBackend)
    requires Ran(s, RunWith(s, id, o, out), id)
    ensures Firing(s, RunWith(s, id, o, out), f, id, s.tokens[id].loc.pc.v)
  {
  }

  lemma AdvanceStays(s: State, f: Id, id: Id, o: Oracle, out: Outcome)
    requires MemberAdvance(s, f, id, o, out) && !s.tokens[id].loc.pc.Complete? && !s.tokens[id].loc.pc.Fire?
    ensures TeamOk(RunWith(s, id, o, out), f)
  {
    OtherwiseStays(s.tokens[id], s.backend, f, o, out, s.hasBackend);
    MemberRan(s, RunWith(s, id, o, out), f, id);
  }

  lemma RunKeepsMember(s: State, id: Id, o: Oracle)
    requires Inv(s) && CanRun(s, id, o) && id in s.owner && s.owner[id].Member?
    ensures FlowOk(RunStep(s, id, o), s.owner[id].flow)
  {
    var f := s.owner[id].flow;
    var out := Advance(s, id, o);
    Identify(s, id);
    AdvanceIsTame(s, id, o);
    RunChanges(s, id, o, out);
    ResumeMemberMoves(s.tokens[id], s.backend, f, o, s.nextId, s.hasBackend);
    var pc := s.tokens[id].loc.pc;
    if pc.Complete? { AdvanceCounts(s, f, id, o, out); }
    else if pc.Fire? { AdvanceFires(s, f, id, o, out); }
    else { AdvanceStays(s, f, id, o, out); }
  }

  // ---------------------------------------------------------------- every message

  ghost predicate FlowsGrow(s: State, s': State) {
    forall f <- s.flows :: f in s'.flows &&
      match s.flows[f]
      case LineFlow(_, _, ids, _) => s'.flows[f].LineFlow? && ids <= s'.flows[f].ids
      case TeamFlow(_, _, ids, cb, _) => s'.flows[f].TeamFlow? && ids <= s'.flows[f].ids && s'.flows[f].cb == cb
  }

  lemma TokenFrame(s: State, s': State, id: Id)
    requires id in s.tokens && TokenOk(s, id) && id in s'.tokens && s'.tokens[id] == s.tokens[id]
    requires id in s'.owner && s'.owner[id] == s.owner[id] && FlowsGrow(s, s')
    requires s'.hasBackend == s.hasBackend && s.clock <= s'.clock
    ensures TokenOk(s', id)
  {
  }

  lemma ResumePastAck(t: Token, b: Backend, o: Oracle, newId: Id, hasBackend: bool)
    requires t.loc.Running? && (PastAck(t.loc.pc) ==> hasBackend)
    ensures var t' := Settle(t, Resume(ExecOf(t), b, o, newId, hasBackend));
      t'.loc.Running? && PastAck(t'.loc.pc) ==> hasBackend
  {
  }

  /** A message put in a queue by an execution is as if just created. */
  lemma SpawnedFresh(s: State, id: Id, o: Oracle)
    requires Known(s, id) && CanRun(s, id, o) && Advance(s, id, o).effect.Spawn?
    ensures var m := Advance(s, id, o).effect.m; m.state == Pending && m.retries == 0
  {
    ResumeFrame(ExecOf(s.tokens[id]), s.backend, o, s.nextId, s.hasBackend);
    Spawned(s, id, Advance(s, id, o));
    if s.owner[id].Member? {
      var cb := s.flows[s.owner[id].flow].cb.value;
      assert Norm(cb).state == cb.state && Norm(cb).retries == cb.retries;
    }
  }

  lemma RunGrows(s: State, id: Id, o: Oracle, out: Outcome)
    requires CanRun(s, id, o)
    ensures FlowsGrow(s, RunWith(s, id, o, out))
  {
  }

  lemma RunKeepsSelf(s: State, id: Id, o: Oracle)
    requires Known(s, id) && CanRun(s, id, o)
    requires Ran(s, RunStep(s, id, o), id) && FlowsGrow(s, RunStep(s, id, o))
    ensures TokenOk(RunStep(s, id, o), id)
  {
    ResumeLife(s.tokens[id], s.backend, o, s.nextId, s.hasBackend);
    ResumePastAck(s.tokens[id], s.backend, o, s.nextId, s.hasBackend);
    assert RunStep(s, id, o).tokens[id] == Settle(s.tokens[id], Advance(s, id, o)) by { AdvanceIsTame(s, id, o); }
    SelfOk(s, RunStep(s, id, o), id);
  }

  lemma SelfOk(s: State, s': State, id: Id)
    requires Known(s, id) && id in s'.tokens && Norm(s'.tokens[id].msg) == Norm(s.tokens[id].msg)
    requires LifeOk(s'.tokens[id], s'.clock)
    requires (s'.tokens[id].loc.Running? && PastAck(s'.tokens[id].loc.pc) ==> s'.hasBackend)
    requires id in s'.owner && s'.owner[id] == s.owner[id] && FlowsGrow(s, s')
    ensures TokenOk(s', id)
  {
    assert Norm(s'.tokens[id].msg).id == Norm(s.tokens[id].msg).id;
  }

  lemma RunKeepsToken(s: State, id: Id, o: Oracle, i: Id)
    requires Allocated(s) && Known(s, id) && CanRun(s, id, o)
    requires i in RunStep(s, id, o).tokens
    requires i in s.tokens ==> TokenOk(s, i)
    ensures TokenOk(RunStep(s, id, o), i)
  {
    var out := Advance(s, id, o);
    AdvanceIsTame(s, id, o);
    RunChanges(s, id, o, out);
    RunGrows(s, id, o, out);
    if i == id {
      RunKeepsSelf(s, id, o);
    } else if i in s.tokens {
      TokenFrame(s, RunStep(s, id, o), i);
    } else {
      SpawnedFresh(s, id, o);
      SpawnServes(s, id, o, out);
    }
  }

  lemma SpawnServes(s: State, id: Id, o: Oracle, out: Outcome)
    requires Allocated(s) && Known(s, id) && CanRun(s, id, o) && out.effect.Spawn? && SpawnOk(s, id, out)
    requires out.effect.m.id !in s.tokens && out.effect.m.state == Pending && out.effect.m.retries == 0
    requires s.owner[id].Step? ==> s.tokens[id].loc.pc.Continue?
    ensures TokenOk(RunWith(s, id, o, out), out.effect.m.id)
  {
    var s' := RunWith(s, id, o, out);
    var f := s.owner[id].flow;
    if s.owner[id].Step? {
      assert s.owner[id].index + 1 == |s.flows[f].ids|;
      assert s'.flows[f].ids[|s.flows[f].ids|] == s.nextId;
    }
  }

  lemma RunKeepsInv(s: State, id: Id, o: Oracle)
    requires Inv(s) && CanRun(s, id, o)
    ensures Inv(RunStep(s, id, o))
  {
    var out, s' := Advance(s, id, o), RunStep(s, id, o);
    Identify(s, id);
    AdvanceIsTame(s, id, o);
    RunChanges(s, id, o, out);
    forall i <- s'.tokens ensures TokenOk(s', i) {
      assert i in s.tokens ==> TokenOk(s, i);
      RunKeepsToken(s, id, o, i);
    }
    forall f <- s'.flows ensures FlowOk(s', f) {
      assert FlowOk(s, f);
      if f != s.owner[id].flow || s.owner[id].Callback? { RunKeepsOthers(s, s', id, f); }
      else if s.owner[id].Step? { RunKeepsStep(s, id, o); }
      else { RunKeepsMember(s, id, o); }
    }
  }

  // ---------------------------------------------------------------- the other steps

  predicate Elsewhere(loc: Loc) {
    loc.Queued? || loc.Taken? || loc.Lost? || (loc.Running? && loc.pc.Guard?)
  }

  /** Moving a message that has not started between queue, worker and execution. */
  function Moved(s: State, id: Id, loc: Loc): State
    requires id in s.tokens
  {
    s.(tokens := s.tokens[id := s.tokens[id].(loc := loc)])
  }

  lemma MoveKeepsFlow(s: State, id: Id, loc: Loc, f: Id)
    requires Allocated(s) && id in s.tokens && Elsewhere(s.tokens[id].loc) && Elsewhere(loc)
    requires f in s.flows && FlowOk(s, f)
    ensures FlowOk(Moved(s, id, loc), f)
  {
    assert SameFor(s, Moved(s, id, loc), f);
    FlowFrame(s, Moved(s, id, loc), f);
  }

  lemma MoveKeepsInv(s: State, id: Id, loc: Loc)
    requires Inv(s) && id in s.tokens && (s.tokens[id].loc.Queued? || s.tokens[id].loc.Taken?) && Elsewhere(loc)
    ensures Inv(Moved(s, id, loc))
  {
    MoveKeepsTokens(s, id, loc);
    forall f <- s.flows ensures FlowOk(Moved(s, id, loc), f) {
      assert FlowOk(s, f);
      MoveKeepsFlow(s, id, loc, f);
    }
  }

  lemma MoveKeepsTokens(s: State, id: Id, loc: Loc)
    requires TokensOk(s) && id in s.tokens && (s.tokens[id].loc.Queued? || s.tokens[id].loc.Taken?) && Elsewhere(loc)
    ensures TokensOk(Moved(s, id, loc))
  {
    forall i <- s.tokens ensures TokenOk(Moved(s, id, loc), i) { assert TokenOk(s, i); }
  }

  lemma TickKeepsInv(s: State, now: int)
    requires Inv(s) && s.clock <= now
    ensures Inv(s.(clock := now))
  {
    var s' := s.(clock := now);
    forall i <- s'.tokens ensures TokenOk(s', i) { assert TokenOk(s, i); }
    forall f <- s'.flows ensures FlowOk(s', f) {
      assert FlowOk(s, f) && SameFor(s, s', f);
      FlowFrame(s, s', f);
    }
  }

  /** `s'` is `s` with a new workflow `s.nextId`; everything of the old ones is untouched. */
  ghost predicate Extends(s: State, s': State) {
    && s'.hasBackend == s.hasBackend && s'.clock == s.clock && s.nextId < s'.nextId
    && s'.flows.Keys == s.flows.Keys + {s.nextId}
    && (forall f <- s.flows :: s'.flows[f] == s.flows[f])
    && (forall i <- s.owner :: i in s'.owner && s'.owner[i] == s.owner[i])
    && (forall i <- s'.owner :: i in s.owner || (i < s'.nextId && s'.owner[i].flow == s.nextId))
    && (forall i <- s.tokens :: i in s'.tokens && s'.tokens[i] == s.tokens[i])
    && (forall i <- s'.tokens :: i in s.tokens || s.nextId < i)
    && (forall g <- s.backend.groups :: g != s.nextId ==>
          g in s'.backend.groups && s'.backend.groups[g] == s.backend.groups[g])
  }

  lemma ExtendKeepsInv(s: State, s': State)
    requires Inv(s) && Extends(s, s') && FlowOk(s', s.nextId)
    requires forall i <- s'.tokens :: i in s.tokens || (i in s'.owner && TokenOk(s', i))
    ensures Inv(s')
  {
    assert FlowsGrow(s, s');
    forall i <- s'.tokens ensures TokenOk(s', i) {
      if i in s.tokens {
        assert TokenOk(s, i);
        TokenFrame(s, s', i);
      }
    }
    forall f <- s'.flows ensures FlowOk(s', f) {
      if f in s.flows {
        assert FlowOk(s, f) && SameFor(s, s', f);
        FlowFrame(s, s', f);
      }
    }
  }

  lemma SendFirstKeepsInv(s: State, corr: Option<Id>, sigs: seq<Signature>)
    requires Inv(s) && sigs != [] && (forall sig <- sigs :: Plain(sig)) && (corr == None || corr == Some(s.nextId))
    ensures Inv(SendFirst(s, corr, sigs))
  {
    var s' := SendFirst(s, corr, sigs);
    assert StepOk(s', s.nextId, 0);
    ExtendKeepsInv(s, s');
  }

  lemma OpenTeamKeepsInv(s: State, sigs: seq<Signature>, cb: Option<Signature>)
    requires Inv(s) && Sendable(Team(sigs, cb))
    ensures Inv(SubmitPlan(s, Team(sigs, cb)))
  {
    NewTeamOk(s, sigs, cb);
    ExtendKeepsInv(s, SubmitPlan(s, Team(sigs, cb)));
  }

  lemma NewTeamOk(s: State, sigs: seq<Signature>, cb: Option<Signature>)
    requires Inv(s) && Sendable(Team(sigs, cb))
    ensures s.nextId in SubmitPlan(s, Team(sigs, cb)).flows && FlowOk(SubmitPlan(s, Team(sigs, cb)), s.nextId)
  {
    var s' := SubmitPlan(s, Team(sigs, cb));
    if cb.Some? { assert CallbackOk(s', s.nextId); }
  }

  /** A group nobody will be told about. */
  lemma BarrenKeepsInv(s: State, total: nat)
    requires Inv(s)
    ensures Inv(s.(backend := s.backend.InitGroup(s.nextId, total), nextId := s.nextId + 1))
  {
    var s' := s.(backend := s.backend.InitGroup(s.nextId, total), nextId := s.nextId + 1);
    forall i <- s'.tokens ensures TokenOk(s', i) { assert TokenOk(s, i); }
    forall f <- s'.flows ensures FlowOk(s', f) {
      assert FlowOk(s, f) && SameFor(s, s', f);
      FlowFrame(s, s', f);
    }
  }

  lemma SendKeepsOthers(s: State, f: Id, g: Id)
    requires Allocated(s) && Enabled(s, SendMember(f)) && g in s.flows && g != f && FlowOk(s, g)
    ensures FlowOk(Send(s, f), g)
  {
    assert SameFor(s, Send(s, f), g);
    FlowFrame(s, Send(s, f), g);
  }

  lemma SendKeepsToken(s: State, f: Id, i: Id)
    requires Allocated(s) && Enabled(s, SendMember(f)) && i in Send(s, f).tokens && (i in s.tokens ==> TokenOk(s, i))
    ensures TokenOk(Send(s, f), i)
  {
    assert FlowsGrow(s, Send(s, f));
    if i in s.tokens { TokenFrame(s, Send(s, f), i); }
  }

  lemma SendKeepsInv(s: State, f: Id)
    requires Inv(s) && Enabled(s, SendMember(f))
    ensures Inv(Send(s, f))
  {
    var s' := Send(s, f);
    forall i <- s'.tokens ensures TokenOk(s', i) {
      if i in s.tokens { assert TokenOk(s, i); }
      SendKeepsToken(s, f, i);
    }
    forall g <- s'.flows ensures FlowOk(s', g) {
      assert FlowOk(s, g);
      if g != f { SendKeepsOthers(s, f, g); } else { SentTeam(s, f); }
    }
  }

  lemma SentTeam(s: State, f: Id)
    requires Allocated(s) && Enabled(s, SendMember(f)) && TeamOk(s, f)
    ensures TeamOk(Send(s, f), f)
  {
    var s' := Send(s, f);
    var fl, fl' := s.flows[f], s'.flows[f];
    forall i | 0 <= i < |fl'.ids| ensures MemberOk(s', f, i) {
      if i < |fl.ids| { assert MemberOk(s, f, i); } else {
        assert fl'.ids[i] == s.nextId;
        forall k | 0 <= k < |fl.done| ensures fl.done[k] != s.nextId { assert CountedOk(s, f, k); }
      }
    }
    forall k | 0 <= k < |fl'.done| ensures CountedOk(s', f, k) { assert CountedOk(s, f, k); }
    if |fl.done| > 0 { assert CountedOk(s, f, |fl.done| - 1); }
    if fl.cb.Some? { assert CallbackOk(s, f); assert CallbackOk(s', f); }
  }

  lemma SubmitKeepsInv(s: State, p: Plan)
    requires Inv(s) && Sendable(p)
    ensures Inv(SubmitPlan(s, p))
  {
    match p {
      case Nothing =>
      case Line(sigs) => if sigs != [] { SendFirstKeepsInv(s, Some(s.nextId), sigs); }
      case Team(sigs, cb) => OpenTeamKeepsInv(s, sigs, cb);
      case Barren(sigs) => BarrenKeepsInv(s, |sigs| % U32);
    }
  }

  lemma NextKeepsInv(s: State, l: Label)
    requires Inv(s) && Enabled(s, l)
    ensures Inv(Next(s, l))
  {
    match l {
      case Submit(c) => SubmitKeepsInv(s, PlanOf(c));
      case Enqueue(sig) => SendFirstKeepsInv(s, None, [sig]);
      case SendMember(f) => SendKeepsInv(s, f);
      case Take(id, w) => MoveKeepsInv(s, id, Taken(w));
      case Track(id, e) => MoveKeepsInv(s, id, Running(e, Guard));
      case Drop(id) => MoveKeepsInv(s, id, Lost);
      case Run(id, o) => RunKeepsInv(s, id, o);
      case Tick(now) => TickKeepsInv(s, now);
    }
  }

  /** Every reachable state satisfies the invariant. */
  lemma {:induction false} LeadsKeepsInv(s: State, labels: seq<Label>, t: State)
    requires Inv(s) && Leads(s, labels, t)
    ensures Inv(t)
    decreases |labels|
  {
    if labels != [] {
      NextKeepsInv(s, labels[0]);
      LeadsKeepsInv(Next(s, labels[0]), labels[1..], t);
    }
  }

  lemma InitInv(s: State)
    requires Init(s)
    ensures Inv(s)
  {
  }
}
