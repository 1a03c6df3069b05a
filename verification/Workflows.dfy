/** Canvases and what submitting one amounts to (kojin-core/src/canvas.rs). */
module Workflows {
  import opened Messages
  import opened Sequences

  datatype Canvas =
    | Single(sig: Signature)
    | Chain(steps: seq<Canvas>)
    | Group(members: seq<Canvas>)
    | Chord(group: seq<Canvas>, callback: Canvas)

  /** What `apply_inner` sets out to send. */
  datatype Plan =
    | Nothing
    | Line(sigs: seq<Signature>)                                // one message, the rest in its header
    | Team(members: seq<Signature>, callback: Option<Signature>) // one message a member
    | Barren(members: seq<Signature>)                            // a group is opened, nothing is sent

  function FlattenChain(steps: seq<Canvas>): seq<Signature> {
    if steps == [] then [] else Leaves(steps[0]) + FlattenChain(steps[1..])
  }

  /** What one step of a chain contributes; a nested group or chord is skipped. */
  function Leaves(step: Canvas): seq<Signature> {
    match step
    case Single(sig) => [sig]
    case Chain(inner) => FlattenChain(inner)
    case _ => []
  }

  function FlattenGroup(members: seq<Canvas>): seq<Signature> {
    if members == [] then [] else
    (if members[0].Single? then [members[0].sig] else []) + FlattenGroup(members[1..])
  }

  lemma {:induction false} FlattenConcat(a: seq<Canvas>, b: seq<Canvas>)
    ensures FlattenChain(a + b) == FlattenChain(a) + FlattenChain(b)
  {
    if a == [] {
      assert a + b == b;
    } else {
      FlattenConcat(a[1..], b);
      HeadOfSum(a, b);
      Regroup(Leaves(a[0]), FlattenChain(a[1..]), FlattenChain(b));
    }
  }

  lemma {:induction false} FlattenGroupConcat(a: seq<Canvas>, b: seq<Canvas>)
    ensures FlattenGroup(a + b) == FlattenGroup(a) + FlattenGroup(b)
  {
    if a == [] {
      assert a + b == b;
    } else {
      FlattenGroupConcat(a[1..], b);
      HeadOfSum(a, b);
      var first := if a[0].Single? then [a[0].sig] else [];
      Regroup(first, FlattenGroup(a[1..]), FlattenGroup(b));
    }
  }

  /** Parentheses in a chain do not matter: an inner chain may be spliced into its parent. */
  lemma ChainsRegroup(a: seq<Canvas>, inner: seq<Canvas>, b: seq<Canvas>)
    ensures PlanOf(Chain(a + [Chain(inner)] + b)) == PlanOf(Chain(a + inner + b))
  {
    FlattenConcat(a + [Chain(inner)], b);
    FlattenConcat(a, [Chain(inner)]);
    FlattenConcat(a + inner, b);
    FlattenConcat(a, inner);
    OneStep(Chain(inner));
  }

  lemma OneStep(step: Canvas)
    ensures FlattenChain([step]) == Leaves(step)
  {
    assert [step][1..] == [];
  }

  function PlanOf(c: Canvas): Plan {
    match c
    case Single(sig) => Line([sig])
    case Chain(steps) => var sigs := FlattenChain(steps); if sigs == [] then Nothing else Line(sigs)
    case Group(members) => Team(FlattenGroup(members), None)
    case Chord(group, callback) =>
      var sigs := FlattenGroup(group);
      var after := FlattenChain([callback]);
      if after == [] then Barren(sigs) else Team(sigs, Some(after[0]))
  }

  // ---------------------------------------------------------------- how a canvas reads

  function Size(steps: seq<Canvas>): nat {
    if steps == [] then 0
    else (match steps[0] case Chain(inner) => 1 + Size(inner) case _ => 1) + Size(steps[1..])
  }

  lemma {:induction false} SizeOfSum(a: seq<Canvas>, b: seq<Canvas>)
    ensures Size(a + b) == Size(a) + Size(b)
  {
    if a == [] {
      assert a + b == b;
    } else {
      HeadOfSum(a, b);
      SizeOfSum(a[1..], b);
    }
  }

  /** Read from left to right, opening each inner chain where it stands and passing over groups
      and chords, `steps` are the tasks `sigs`. */
  ghost predicate Spells(steps: seq<Canvas>, sigs: seq<Signature>)
    decreases Size(steps)
  {
    if steps == [] then sigs == []
    else match steps[0]
      case Single(sig) => sigs != [] && sigs[0] == sig && Spells(steps[1..], sigs[1..])
      case Chain(inner) => SizeOfSum(inner, steps[1..]); Spells(inner + steps[1..], sigs)
      case _ => Spells(steps[1..], sigs)
  }

  lemma {:induction false} SpellsIff(steps: seq<Canvas>, sigs: seq<Signature>)
    ensures Spells(steps, sigs) <==> sigs == FlattenChain(steps)
    decreases Size(steps)
  {
    if steps != [] {
      match steps[0] {
        case Single(sig) =>
          if sigs != [] {
            SpellsIff(steps[1..], sigs[1..]);
            assert sigs == [sigs[0]] + sigs[1..];
          }
        case Chain(inner) =>
          SizeOfSum(inner, steps[1..]);
          SpellsIff(inner + steps[1..], sigs);
          FlattenConcat(inner, steps[1..]);
        case _ => SpellsIff(steps[1..], sigs);
      }
    }
  }

  /** `sigs` are the single tasks among `members`, in order, each once. */
  ghost predicate Picks(members: seq<Canvas>, sigs: seq<Signature>) {
    exists places: seq<nat> :: PicksAt(members, sigs, places)
  }

  ghost predicate PicksAt(members: seq<Canvas>, sigs: seq<Signature>, places: seq<nat>) {
    && |places| == |sigs|
    && (forall j, k :: 0 <= j < k < |places| ==> places[j] < places[k])
    && (forall k :: 0 <= k < |places| ==> places[k] < |members| && members[places[k]] == Single(sigs[k]))
    && (forall i :: 0 <= i < |members| && members[i].Single? ==> i in places)
  }

  lemma OneMorePick(members: seq<Canvas>, sigs: seq<Signature>, places: seq<nat>, x: Canvas)
    requires PicksAt(members, sigs, places)
    ensures x.Single? ==> PicksAt(members + [x], sigs + [x.sig], places + [|members|])
    ensures !x.Single? ==> PicksAt(members + [x], sigs, places)
  {
    var all, more := members + [x], places + [|members|];
    assert more[|places|] == |members|;
    forall i | 0 <= i < |all| && all[i].Single? ensures i in (if x.Single? then more else places) {
      if i < |members| { assert members[i].Single? && i in places; }
    }
  }

  lemma {:induction false} PicksFlatten(members: seq<Canvas>) returns (places: seq<nat>)
    ensures PicksAt(members, FlattenGroup(members), places)
  {
    if members == [] {
      places := [];
    } else {
      var n := |members| - 1;
      var front := PicksFlatten(members[..n]);
      assert members == members[..n] + [members[n]];
      FlattenGroupConcat(members[..n], [members[n]]);
      assert [members[n]][1..] == [];
      OneMorePick(members[..n], FlattenGroup(members[..n]), front, members[n]);
      places := if members[n].Single? then front + [n] else front;
    }
  }

  lemma LastPick(members: seq<Canvas>, sigs: seq<Signature>, places: seq<nat>, i: nat)
    requires PicksAt(members, sigs, places) && i < |members| && members[i].Single?
    ensures sigs != [] && i <= places[|places| - 1]
  {
    assert i in places;
  }

  /** Members can be picked in one way only. */
  lemma {:induction false} SamePicks(members: seq<Canvas>, a: seq<Signature>, at: seq<nat>, b: seq<Signature>,
                                     bt: seq<nat>)
    requires PicksAt(members, a, at) && PicksAt(members, b, bt)
    ensures a == b
    decreases |a|
  {
    SameLast(members, a, at, b, bt);
    if a != [] {
      var n, k := |a| - 1, |b| - 1;
      DropLast(members, a, at);
      DropLast(members, b, bt);
      SamePicks(members[..at[n]], a[..n], at[..n], b[..k], bt[..k]);
      assert a == a[..n] + [a[n]] && b == b[..k] + [b[k]];
    }
  }

  lemma SameLast(members: seq<Canvas>, a: seq<Signature>, at: seq<nat>, b: seq<Signature>, bt: seq<nat>)
    requires PicksAt(members, a, at) && PicksAt(members, b, bt)
    ensures (a == []) == (b == [])
    ensures a != [] ==> at[|a| - 1] == bt[|b| - 1] && a[|a| - 1] == b[|b| - 1]
  {
    if a != [] { LastPick(members, b, bt, at[|a| - 1]); }
    if b != [] { LastPick(members, a, at, bt[|b| - 1]); }
  }

  lemma DropLast(members: seq<Canvas>, sigs: seq<Signature>, places: seq<nat>)
    requires PicksAt(members, sigs, places) && sigs != []
    ensures var n := |sigs| - 1; PicksAt(members[..places[n]], sigs[..n], places[..n])
  {
    var n := |sigs| - 1;
    forall i | 0 <= i < places[n] && members[i].Single? ensures i in places[..n] {
      var k :| 0 <= k < |places| && places[k] == i;
      assert places[..n][k] == i;
    }
  }

  lemma PicksIff(members: seq<Canvas>, sigs: seq<Signature>)
    ensures Picks(members, sigs) <==> sigs == FlattenGroup(members)
  {
    var places := PicksFlatten(members);
    if Picks(members, sigs) {
      var other :| PicksAt(members, sigs, other);
      SamePicks(members, sigs, other, FlattenGroup(members), places);
    }
  }

  /** The canvas is a chain of the tasks `sigs`, one or more. */
  ghost predicate ReadsChain(canvas: Canvas, sigs: seq<Signature>) {
    || (canvas.Single? && sigs == [canvas.sig])
    || (canvas.Chain? && sigs != [] && Spells(canvas.steps, sigs))
  }

  ghost predicate ReadsGroup(canvas: Canvas, sigs: seq<Signature>) {
    canvas.Group? && Picks(canvas.members, sigs)
  }

  /** The canvas is a chord of the members `sigs`, and `cb` is the first task of its callback. */
  ghost predicate ReadsChord(canvas: Canvas, sigs: seq<Signature>, cb: Signature) {
    canvas.Chord? && Picks(canvas.group, sigs) && exists rest :: Spells([canvas.callback], [cb] + rest)
  }

  /** The canvas is a chord whose callback has no task. */
  ghost predicate ReadsBarren(canvas: Canvas, sigs: seq<Signature>) {
    canvas.Chord? && Picks(canvas.group, sigs) && Spells([canvas.callback], [])
  }

  ghost predicate ReadsEmpty(canvas: Canvas) {
    canvas.Chain? && Spells(canvas.steps, [])
  }

  /** What is submitted is what the canvas reads as. */
  lemma PlanReads(canvas: Canvas, sigs: seq<Signature>, cb: Signature)
    ensures PlanOf(canvas) == Line(sigs) <==> ReadsChain(canvas, sigs)
    ensures PlanOf(canvas) == Team(sigs, None) <==> ReadsGroup(canvas, sigs)
    ensures PlanOf(canvas) == Team(sigs, Some(cb)) <==> ReadsChord(canvas, sigs, cb)
    ensures PlanOf(canvas) == Barren(sigs) <==> ReadsBarren(canvas, sigs)
    ensures PlanOf(canvas) == Nothing <==> ReadsEmpty(canvas)
  {
    match canvas {
      case Single(_) =>
      case Chain(steps) =>
        SpellsIff(steps, sigs);
        SpellsIff(steps, []);
      case Group(members) => PicksIff(members, sigs);
      case Chord(group, callback) =>
        PicksIff(group, sigs);
        CallbackReads(callback, cb);
    }
  }

  lemma CallbackReads(callback: Canvas, cb: Signature)
    ensures Spells([callback], []) <==> FlattenChain([callback]) == []
    ensures (exists rest :: Spells([callback], [cb] + rest))
      <==> FlattenChain([callback]) != [] && FlattenChain([callback])[0] == cb
  {
    var all := FlattenChain([callback]);
    SpellsIff([callback], []);
    forall rest ensures Spells([callback], [cb] + rest) <==> [cb] + rest == all { SpellsIff([callback], [cb] + rest); }
    if all != [] { assert all == [all[0]] + all[1..]; }
  }

  /** A chain of single tasks is submitted as those tasks, all of them. */
  lemma {:induction false} SinglesAreSpelled(steps: seq<Canvas>, sigs: seq<Signature>)
    requires |steps| == |sigs| && forall i :: 0 <= i < |sigs| ==> steps[i] == Single(sigs[i])
    ensures Spells(steps, sigs) && (sigs != [] ==> PlanOf(Chain(steps)) == Line(sigs))
  {
    if sigs != [] { SinglesAreSpelled(steps[1..], sigs[1..]); }
    SpellsIff(steps, sigs);
  }

  /** A group or chord inside a chain contributes nothing. */
  lemma WorkflowsAreSkipped(a: seq<Canvas>, x: Canvas, b: seq<Canvas>)
    requires x.Group? || x.Chord?
    ensures PlanOf(Chain(a + [x] + b)) == PlanOf(Chain(a + b))
  {
    FlattenConcat(a + [x], b);
    FlattenConcat(a, [x]);
    FlattenConcat(a, b);
    OneStep(x);
  }

  /** A group's size fits the `u32` it is counted in, and no signature carries a chain of its own. */
  predicate Sendable(p: Plan) {
    match p
    case Nothing => true
    case Line(sigs) => forall s <- sigs :: Plain(s)
    case Team(sigs, cb) => |sigs| < U32 && (forall s <- sigs :: Plain(s)) && (cb.Some? ==> Plain(cb.value))
    case Barren(_) => true
  }
}
