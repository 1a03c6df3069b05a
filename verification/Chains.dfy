/** Chains: in every interleaving a chain runs as if its leaves were executed one after the
    other by a single sequential program. */
module Chains {
  import opened Messages
  import opened Workflows
  import opened Results
  import opened Execution
  import opened Protocol
  import opened Invariants
  import opened Preservation
  import Chords

  // ---------------------------------------------------------------- sequential execution

  datatype Status = Working | Stopped | AllRun

  /** A sequential program part-way through its leaves. */
  datatype Program = Program(leaves: seq<Signature>, outputs: seq<Value>, status: Status)

  /** It does nothing, its next leaf yields a result, or that leaf fails for good. */
  ghost predicate ProgramStep(a: Program, b: Program) {
    || b == a
    || (a.status.Working? && |a.outputs| < |a.leaves| && |b.outputs| == |a.outputs| + 1 && a.outputs <= b.outputs
        && b == Program(a.leaves, b.outputs, if |b.outputs| == |a.leaves| then AllRun else Working))
    || (a.status.Working? && b == a.(status := Stopped))
  }

  predicate Live(loc: Loc) {
    !loc.Finished? && !loc.Dead? && !loc.Lost?
  }

  /** The program that a chain has executed so far. */
  function ProgramOf(s: State, f: Id): Program
    requires f in s.flows && s.flows[f].LineFlow? && s.flows[f].ids != []
  {
    var fl := s.flows[f];
    var last := fl.ids[|fl.ids| - 1];
    Program(fl.sigs, fl.outputs,
            if |fl.outputs| == |fl.sigs| then AllRun
            else if last in s.tokens && Live(s.tokens[last].loc) then Working
            else Stopped)
  }

  /** The chain's last message is dead-lettered or lost; without a result backend, nothing hands
      the chain on either. */
  predicate CutShort(s: State, f: Id)
    requires f in s.flows && s.flows[f].LineFlow? && s.flows[f].ids != []
  {
    var fl := s.flows[f];
    var last := fl.ids[|fl.ids| - 1];
    last in s.tokens && (Chords.Gone(s.tokens[last].loc)
      || (!s.hasBackend && s.tokens[last].loc.Finished? && |fl.outputs| < |fl.sigs|))
  }

  /** A program has stopped exactly when its chain was cut short. */
  lemma StoppedIffCutShort(s: State, f: Id)
    requires Inv(s) && f in s.flows && s.flows[f].LineFlow?
    ensures s.flows[f].ids != [] && (ProgramOf(s, f).status.Stopped? <==> CutShort(s, f))
  {
    LineFacts(s, f);
    assert StepOk(s, f, |s.flows[f].ids| - 1);
  }

  // ---------------------------------------------------------------- one step

  lemma LineFacts(s: State, f: Id)
    requires Inv(s) && f in s.flows && s.flows[f].LineFlow?
    ensures LineOk(s, f)
  {
    assert FlowOk(s, f);
  }

  /** A chain that no execution of its own touched. */
  lemma UntouchedProgram(s: State, s': State, f: Id)
    requires f in s.flows && s.flows[f].LineFlow? && LineOk(s, f)
    requires f in s'.flows && s'.flows[f] == s.flows[f]
    requires forall id <- s.flows[f].ids ::
      id in s.tokens && id in s'.tokens && Live(s'.tokens[id].loc) == Live(s.tokens[id].loc)
    ensures ProgramOf(s', f) == ProgramOf(s, f)
  {
    var fl := s.flows[f];
    assert StepOk(s, f, |fl.ids| - 1);
  }

  lemma RunElsewhere(s: State, s': State, id: Id, f: Id)
    requires Allocated(s) && id in s.tokens && Ran(s, s', id) && s.owner[id].flow != f
    requires f in s.flows && s.flows[f].LineFlow? && LineOk(s, f)
    ensures f in s'.flows && s'.flows[f] == s.flows[f] && ProgramOf(s', f) == ProgramOf(s, f)
  {
    forall i <- s.flows[f].ids ensures i in s.tokens && i in s'.tokens && s'.tokens[i] == s.tokens[i] {
      var k :| 0 <= k < |s.flows[f].ids| && s.flows[f].ids[k] == i;
      assert StepOk(s, f, k);
    }
    UntouchedProgram(s, s', f);
  }

  lemma RunOwnStep(s: State, id: Id, o: Oracle)
    requires Inv(s) && CanRun(s, id, o) && id in s.owner && s.owner[id].Step?
    ensures var f := s.owner[id].flow; var s' := RunStep(s, id, o);
      && f in s.flows && s.flows[f].LineFlow? && s.flows[f].ids != []
      && f in s'.flows && s'.flows[f].LineFlow? && s'.flows[f].ids != []
      && ProgramStep(ProgramOf(s, f), ProgramOf(s', f))
  {
    Identify(s, id);
    RunKeepsStep(s, id, o);
    ResumeMoves(s.tokens[id], s.backend, o, s.nextId, s.hasBackend);
    OwnStepRefines(s, id, o, Advance(s, id, o));
  }

  lemma RunRefines(s: State, id: Id, o: Oracle, f: Id)
    requires Inv(s) && CanRun(s, id, o) && f in s.flows && s.flows[f].LineFlow? && LineOk(s, f)
    ensures f in RunStep(s, id, o).flows && RunStep(s, id, o).flows[f].LineFlow?
    ensures RunStep(s, id, o).flows[f].ids != []
    ensures ProgramStep(ProgramOf(s, f), ProgramOf(RunStep(s, id, o), f))
  {
    Chords.RunKeepsOwners(s, id, o);
    if s.owner[id].flow != f {
      RunElsewhere(s, RunStep(s, id, o), id, f);
    } else {
      assert TokenOk(s, id);
      RunOwnStep(s, id, o);
    }
  }

  /** Step `id` of a chain performed an operation that came to `out`. */
  ghost predicate OwnStep(s: State, id: Id, o: Oracle, out: Outcome) {
    && CanRun(s, id, o) && id in s.owner && s.owner[id].Step? && s.owner[id].flow in s.flows
    && var f, s' := s.owner[id].flow, RunWith(s, id, o, out);
    && s.flows[f].LineFlow? && LineOk(s, f) && f in s'.flows && s'.flows[f].LineFlow? && LineOk(s', f)
    && s.owner[id].index < |s.flows[f].ids| && s.flows[f].ids[s.owner[id].index] == id
  }

  lemma OwnStepRefines(s: State, id: Id, o: Oracle, out: Outcome)
    requires OwnStep(s, id, o, out) && Moves(s.tokens[id], o, out, s.nextId, s.hasBackend)
    ensures ProgramStep(ProgramOf(s, s.owner[id].flow), ProgramOf(RunWith(s, id, o, out), s.owner[id].flow))
  {
    var f, i := s.owner[id].flow, s.owner[id].index;
    assert StepOk(s, f, i) && i + 1 == |s.flows[f].ids|;
    if s.tokens[id].loc.pc.Continue? && out.effect.Spawn? {
      HandsOn(s, id, o, out);
    } else {
      StaysLast(s, id, o, out);
    }
  }

  lemma HandsOn(s: State, id: Id, o: Oracle, out: Outcome)
    requires OwnStep(s, id, o, out) && s.tokens[id].loc.pc.Continue? && out.effect.Spawn?
    requires s.owner[id].index + 1 == |s.flows[s.owner[id].flow].ids|
    requires Moves(s.tokens[id], o, out, s.nextId, s.hasBackend)
    ensures ProgramStep(ProgramOf(s, s.owner[id].flow), ProgramOf(RunWith(s, id, o, out), s.owner[id].flow))
  {
    var f, i := s.owner[id].flow, s.owner[id].index;
    assert StepOk(s, f, i) && StepOk(RunWith(s, id, o, out), f, i + 1);
  }

  lemma StaysLast(s: State, id: Id, o: Oracle, out: Outcome)
    requires OwnStep(s, id, o, out) && !(s.tokens[id].loc.pc.Continue? && out.effect.Spawn?)
    requires s.owner[id].index + 1 == |s.flows[s.owner[id].flow].ids|
    requires Moves(s.tokens[id], o, out, s.nextId, s.hasBackend)
    ensures ProgramStep(ProgramOf(s, s.owner[id].flow), ProgramOf(RunWith(s, id, o, out), s.owner[id].flow))
  {
    var f, i := s.owner[id].flow, s.owner[id].index;
    assert StepOk(s, f, i) && StepOk(RunWith(s, id, o, out), f, i);
  }

  /** The chain theorem: each step of the system is a step of the sequential program, or none,
      and the program stops for good exactly when the chain is cut short. */
  lemma ChainRefinesProgram(s: State, l: Label, f: Id)
    requires Inv(s) && Enabled(s, l) && f in s.flows && s.flows[f].LineFlow?
    ensures s.flows[f].ids != [] && f in Next(s, l).flows && Next(s, l).flows[f].LineFlow?
    ensures Next(s, l).flows[f].ids != []
    ensures ProgramStep(ProgramOf(s, f), ProgramOf(Next(s, l), f))
    ensures ProgramOf(Next(s, l), f).status.Stopped? <==> CutShort(Next(s, l), f)
  {
    LineFacts(s, f);
    NextRefines(s, l, f);
    NextKeepsInv(s, l);
    StoppedIffCutShort(Next(s, l), f);
  }

  lemma NextRefines(s: State, l: Label, f: Id)
    requires Inv(s) && Enabled(s, l) && f in s.flows && s.flows[f].LineFlow? && LineOk(s, f)
    ensures f in Next(s, l).flows && Next(s, l).flows[f].LineFlow? && Next(s, l).flows[f].ids != []
    ensures ProgramStep(ProgramOf(s, f), ProgramOf(Next(s, l), f))
  {
    if l.Run? {
      RunRefines(s, l.id, l.oracle, f);
    } else {
      forall i <- s.flows[f].ids ensures i in s.tokens && i < s.nextId {
        var k :| 0 <= k < |s.flows[f].ids| && s.flows[f].ids[k] == i;
        assert StepOk(s, f, k);
      }
      if l.Drop? { DropRefines(s, l.id, f); } else { OtherRefines(s, l, f); }
    }
  }

  lemma DropRefines(s: State, id: Id, f: Id)
    requires Enabled(s, Drop(id)) && f in s.flows && s.flows[f].LineFlow? && LineOk(s, f)
    ensures ProgramStep(ProgramOf(s, f), ProgramOf(Next(s, Drop(id)), f))
  {
    var fl := s.flows[f];
    assert StepOk(s, f, |fl.ids| - 1);
  }

  lemma OtherRefines(s: State, l: Label, f: Id)
    requires Enabled(s, l) && !l.Run? && !l.Drop? && f in s.flows && s.flows[f].LineFlow? && LineOk(s, f)
    requires f < s.nextId && forall i <- s.flows[f].ids :: i in s.tokens && i < s.nextId
    ensures f in Next(s, l).flows && Next(s, l).flows[f] == s.flows[f]
    ensures ProgramOf(Next(s, l), f) == ProgramOf(s, f)
  {
    UntouchedProgram(s, Next(s, l), f);
  }

  // ---------------------------------------------------------------- what a step sees

  /** A leaf's handler is called only when all leaves before it have succeeded, with the last
      one's result in its header and under the chain's correlation id. */
  lemma StepSeesPrevious(s: State, id: Id, f: Id, i: nat)
    requires Inv(s) && id in s.tokens && id in s.owner && s.owner[id] == Step(f, i)
    requires s.tokens[id].loc.Running? && s.tokens[id].loc.pc.Dispatch?
    ensures f in s.flows && s.flows[f].LineFlow? && i < |s.flows[f].sigs|
    ensures var fl, m := s.flows[f], s.tokens[id].msg;
      && |fl.outputs| == i
      && m.taskName == fl.sigs[i].taskName && m.payload == fl.sigs[i].payload
      && m.correlationId == fl.corr
      && (i > 0 ==> ChainInputKey in m.headers && m.headers[ChainInputKey] == ChainInput(fl.outputs[i - 1]))
      && (forall k :: 0 <= k < i ==> fl.ids[k] in s.tokens && s.tokens[fl.ids[k]].loc == Finished(fl.outputs[k]))
  {
    Identify(s, id);
    LineFacts(s, f);
    var fl, m := s.flows[f], s.tokens[id].msg;
    assert Norm(m).headers == m.headers && Norm(m).taskName == m.taskName && Norm(m).payload == m.payload
        && Norm(m).correlationId == m.correlationId;
    forall k | 0 <= k < i ensures fl.ids[k] in s.tokens && s.tokens[fl.ids[k]].loc == Finished(fl.outputs[k]) {
      assert StepOk(s, f, k);
    }
  }

  /** At most one message of a chain is live. */
  lemma OneTokenLive(s: State, f: Id, j: nat, k: nat)
    requires Inv(s) && f in s.flows && s.flows[f].LineFlow? && j < k < |s.flows[f].ids|
    ensures s.flows[f].ids[j] in s.tokens && !Live(s.tokens[s.flows[f].ids[j]].loc)
  {
    LineFacts(s, f);
    assert StepOk(s, f, j);
  }

  // ---------------------------------------------------------------- whole runs

  /** The results that handlers of chain `f` returned during a run, with the leaf they are of. */
  function Successes(s: State, labels: seq<Label>, f: Id): seq<(nat, Value)>
    decreases |labels|
  {
    if labels == [] || !Enabled(s, labels[0]) then []
    else
      (match labels[0]
       case Run(id, o) =>
         if s.tokens[id].loc.pc.Dispatch? && o.handler.Some?
            && id in s.owner && s.owner[id].Step? && s.owner[id].flow == f
         then [(s.owner[id].index, o.handler.value)] else []
       case _ => [])
      + Successes(Next(s, labels[0]), labels[1..], f)
  }

  function Outputs(s: State, f: Id): seq<Value> {
    if f in s.flows && s.flows[f].LineFlow? then s.flows[f].outputs else []
  }

  /** `from.. |outputs|`, each with its output. */
  function Numbered(outputs: seq<Value>, from: nat): seq<(nat, Value)>
    requires from <= |outputs|
    decreases |outputs| - from
  {
    if from == |outputs| then [] else [(from, outputs[from])] + Numbered(outputs, from + 1)
  }

  predicate Succeeds(s: State, l: Label, f: Id)
    requires Enabled(s, l)
  {
    l.Run? && s.tokens[l.id].loc.pc.Dispatch? && l.oracle.handler.Some?
    && l.id in s.owner && s.owner[l.id].Step? && s.owner[l.id].flow == f
  }

  lemma RunRecords(s: State, id: Id, o: Oracle, out: Outcome, f: Id)
    requires CanRun(s, id, o) && id in s.owner && s.owner[id].flow in s.flows
    requires s.owner[id].Step? ==> s.flows[s.owner[id].flow].LineFlow?
    requires s.owner[id].Member? ==> s.flows[s.owner[id].flow].TeamFlow?
    requires s.owner[id].Step? && s.tokens[id].loc.pc.Dispatch? ==> s.owner[id].index == |Outputs(s, s.owner[id].flow)|
    ensures Recorded(s, Run(id, o), RunWith(s, id, o, out), f)
  {
  }

  /** A handler's success is the next output of its chain; nothing else adds one. */
  predicate Recorded(s: State, l: Label, s': State, f: Id)
    requires Enabled(s, l)
  {
    if Succeeds(s, l, f)
    then s.owner[l.id].index == |Outputs(s, f)| && Outputs(s', f) == Outputs(s, f) + [l.oracle.handler.value]
    else Outputs(s', f) == Outputs(s, f)
  }

  lemma SuccessRecorded(s: State, l: Label, f: Id)
    requires Inv(s) && Enabled(s, l)
    ensures Recorded(s, l, Next(s, l), f)
  {
    if l.Run? {
      Identify(s, l.id);
      RunRecords(s, l.id, l.oracle, Advance(s, l.id, l.oracle), f);
    } else {
      IdleRecordsNothing(s, l, f);
    }
  }

  lemma IdleRecordsNothing(s: State, l: Label, f: Id)
    requires Allocated(s) && Enabled(s, l) && !l.Run?
    ensures Outputs(Next(s, l), f) == Outputs(s, f)
  {
    if l.Submit? { SubmitRecordsNothing(s, PlanOf(l.canvas), f); }
  }

  lemma SubmitRecordsNothing(s: State, p: Plan, f: Id)
    requires Allocated(s)
    ensures Outputs(SubmitPlan(s, p), f) == Outputs(s, f)
  {
  }

  /** On every run, the handlers of a chain succeed in the order of its leaves, each once,
      with no leaf skipped. */
  lemma {:induction false} SuccessesInOrder(s: State, labels: seq<Label>, t: State, f: Id)
    requires Inv(s) && Leads(s, labels, t)
    ensures Outputs(s, f) <= Outputs(t, f)
    ensures Successes(s, labels, f) == Numbered(Outputs(t, f), |Outputs(s, f)|)
    decreases |labels|
  {
    if labels != [] {
      var s' := Next(s, labels[0]);
      SuccessRecorded(s, labels[0], f);
      NextKeepsInv(s, labels[0]);
      SuccessesInOrder(s', labels[1..], t, f);
      OneMore(s, labels, t, s', f);
    }
  }

  lemma OneMore(s: State, labels: seq<Label>, t: State, s': State, f: Id)
    requires labels != [] && Enabled(s, labels[0]) && s' == Next(s, labels[0])
    requires Recorded(s, labels[0], s', f) && Outputs(s', f) <= Outputs(t, f)
    requires Successes(s', labels[1..], f) == Numbered(Outputs(t, f), |Outputs(s', f)|)
    ensures Outputs(s, f) <= Outputs(t, f)
    ensures Successes(s, labels, f) == Numbered(Outputs(t, f), |Outputs(s, f)|)
  {
  }

  /** A chain whose step was dead-lettered or lost stays exactly where it is for good. */
  lemma {:induction false} StoppedForGood(s: State, labels: seq<Label>, t: State, f: Id)
    requires Inv(s) && Leads(s, labels, t) && f in s.flows && s.flows[f].LineFlow? && s.flows[f].ids != []
    requires ProgramOf(s, f).status.Stopped?
    ensures f in t.flows && t.flows[f].LineFlow? && t.flows[f].ids != [] && ProgramOf(t, f) == ProgramOf(s, f)
    decreases |labels|
  {
    if labels != [] {
      ChainRefinesProgram(s, labels[0], f);
      NextKeepsInv(s, labels[0]);
      StoppedForGood(Next(s, labels[0]), labels[1..], t, f);
    }
  }
}
