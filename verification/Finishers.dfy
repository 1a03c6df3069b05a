/** How many finishers of a group PostgreSQL tells the total, each of which fires the chord
    callback (kojin-postgres/src/result_backend.rs:183-217): the upsert and the count are two
    statements, between which other calls run. */
module Finishers {
  import opened Messages
  import opened Postgres

  function Told(calls: seq<Call>, n: nat): nat {
    if calls == [] then 0
    else (if calls[|calls| - 1].pc == Returned(n) then 1 else 0) + Told(calls[..|calls| - 1], n)
  }

  /** Counts taken when every member had completed. */
  function LateCounts(s: State, members: set<Id>, g: Id, steps: seq<Step>): nat
    decreases |steps|
  {
    if steps == [] || !Enabled(s, members, steps[0]) then 0
    else (if steps[0].DoCount? && Full(s, members, g) then 1 else 0)
         + LateCounts(Next(s, members, g, steps[0]), members, g, steps[1..])
  }

  lemma {:induction false} ToldUpdate(calls: seq<Call>, k: nat, c: Call, n: nat)
    requires k < |calls|
    ensures Told(calls[k := c], n) + (if calls[k].pc == Returned(n) then 1 else 0)
         == Told(calls, n) + (if c.pc == Returned(n) then 1 else 0)
  {
    var last := |calls| - 1;
    if k < last {
      assert calls[k := c][..last] == calls[..last][k := c];
      ToldUpdate(calls[..last], k, c, n);
    } else {
      assert calls[k := c][..last] == calls[..last];
    }
  }

  lemma ToldStep(s: State, members: set<Id>, g: Id, l: Step)
    requires Inv(s, members, g) && |members| < U32 && Enabled(s, members, l)
    ensures Told(Next(s, members, g, l).calls, |members|)
      == Told(s.calls, |members|) + if l.DoCount? && Full(s, members, g) then 1 else 0
  {
    var s' := Next(s, members, g, l);
    TasksCount(members);
    SubsetSize(Counted(s.rows, g), Tasks(members));
    match l {
      case Begin(id, v) => assert s'.calls[..|s'.calls| - 1] == s.calls;
      case DoUpsert(k) => ToldUpdate(s.calls, k, s'.calls[k], |members|);
      case DoCount(k) => ToldUpdate(s.calls, k, s'.calls[k], |members|);
    }
  }

  lemma {:induction false} ToldIsLate(s: State, members: set<Id>, g: Id, steps: seq<Step>, t: State)
    requires Inv(s, members, g) && |members| < U32 && Leads(s, members, g, steps, t)
    ensures Told(t.calls, |members|) == Told(s.calls, |members|) + LateCounts(s, members, g, steps)
    decreases |steps|
  {
    if steps != [] {
      ToldStep(s, members, g, steps[0]);
      StepKeepsInv(s, members, g, steps[0]);
      ToldIsLate(Next(s, members, g, steps[0]), members, g, steps[1..], t);
    }
  }

  /** The number of finishers told the total - each of which fires the chord callback - is
      the number of counts taken after the last member's upsert. */
  lemma FinishersTold(rows: Table, members: set<Id>, g: Id, steps: seq<Step>, t: State)
    requires Counted(rows, g) == {} && members != {} && |members| < U32 && Leads(State(rows, []), members, g, steps, t)
    ensures Told(t.calls, |members|) == LateCounts(State(rows, []), members, g, steps)
  {
    assert Tasks(members) != {} by { var id :| id in members; assert Task(id) in Tasks(members); }
    ToldIsLate(State(rows, []), members, g, steps, t);
  }

  // ---------------------------------------------------------------- building runs

  lemma {:induction false} LeadsSnoc(s: State, members: set<Id>, g: Id, steps: seq<Step>, t: State, l: Step)
    requires Leads(s, members, g, steps, t) && Enabled(t, members, l)
    ensures Leads(s, members, g, steps + [l], Next(t, members, g, l))
    decreases |steps|
  {
    if steps == [] {
      assert ([l])[1..] == [];
    } else {
      LeadsSnoc(Next(s, members, g, steps[0]), members, g, steps[1..], t, l);
      assert (steps + [l])[1..] == steps[1..] + [l];
    }
  }

  /** One call for each id, the first `k` at `here` and the others at `there`. */
  function Calls(ids: seq<Id>, v: Value, k: nat, here: CallPc, there: CallPc): (calls: seq<Call>)
    ensures |calls| == |ids|
    ensures forall i :: 0 <= i < |ids| ==> calls[i] == Call(ids[i], v, if i < k then here else there)
  {
    seq(|ids|, i requires 0 <= i < |ids| => Call(ids[i], v, if i < k then here else there))
  }

  function SetOf(ids: seq<Id>): set<Id> {
    set id | id in ids
  }

  /** Some run leads from `s` to `t`. */
  ghost predicate Reaches(s: State, members: set<Id>, g: Id, t: State) {
    exists steps :: Leads(s, members, g, steps, t)
  }

  lemma ReachesNext(s: State, members: set<Id>, g: Id, t: State, l: Step)
    requires Reaches(s, members, g, t) && Enabled(t, members, l)
    ensures Reaches(s, members, g, Next(t, members, g, l))
  {
    var steps :| Leads(s, members, g, steps, t);
    LeadsSnoc(s, members, g, steps, t, l);
  }

  /** All members have begun, none has upserted. */
  lemma {:induction false} AllBegin(s: State, members: set<Id>, g: Id, ids: seq<Id>, v: Value)
    requires s.calls == [] && forall id <- ids :: id in members
    ensures Reaches(s, members, g, s.(calls := Calls(ids, v, 0, Counting, Upserting)))
    decreases |ids|
  {
    if ids == [] {
      assert Leads(s, members, g, [], s);
      assert s.calls == Calls(ids, v, 0, Counting, Upserting);
    } else {
      var last := |ids| - 1;
      AllBegin(s, members, g, ids[..last], v);
      var t := s.(calls := Calls(ids[..last], v, 0, Counting, Upserting));
      ReachesNext(s, members, g, t, Begin(ids[last], v));
      assert t.calls + [Call(ids[last], v, Upserting)] == Calls(ids, v, 0, Counting, Upserting);
    }
  }

  /** The first `k` have upserted, none has counted. */
  lemma {:induction false} SomeUpsert(s: State, members: set<Id>, g: Id, ids: seq<Id>, v: Value, k: nat)
    returns (t: State)
    requires s.calls == [] && Counted(s.rows, g) == {} && (forall id <- ids :: id in members) && k <= |ids|
    ensures Reaches(s, members, g, t) && t.calls == Calls(ids, v, k, Counting, Upserting)
    ensures Counted(t.rows, g) == Tasks(SetOf(ids[..k]))
  {
    if k == 0 {
      AllBegin(s, members, g, ids, v);
      t := s.(calls := Calls(ids, v, 0, Counting, Upserting));
    } else {
      var r := SomeUpsert(s, members, g, ids, v, k - 1);
      ReachesNext(s, members, g, r, DoUpsert(k - 1));
      t := Next(r, members, g, DoUpsert(k - 1));
      assert t.calls == Calls(ids, v, k, Counting, Upserting);
      UpsertCounts(r.rows, g, ids[k - 1], v);
      assert ids[..k] == ids[..k - 1] + [ids[k - 1]];
      assert Tasks(SetOf(ids[..k])) == Tasks(SetOf(ids[..k - 1])) + {Task(ids[k - 1])};
    }
  }

  /** All have upserted, and the first `k` have counted: all of them. */
  lemma {:induction false} SomeCount(s: State, members: set<Id>, g: Id, ids: seq<Id>, v: Value, k: nat)
    returns (t: State)
    requires s.calls == [] && Counted(s.rows, g) == {} && |members| < U32
    requires SetOf(ids) == members && k <= |ids|
    ensures Reaches(s, members, g, t) && t.calls == Calls(ids, v, k, Returned(|members|), Counting)
    ensures Full(t, members, g)
  {
    if k == 0 {
      t := SomeUpsert(s, members, g, ids, v, |ids|);
      assert ids[..|ids|] == ids;
      assert t.calls == Calls(ids, v, 0, Returned(|members|), Counting);
    } else {
      var r := SomeCount(s, members, g, ids, v, k - 1);
      TasksCount(members);
      ReachesNext(s, members, g, r, DoCount(k - 1));
      t := Next(r, members, g, DoCount(k - 1));
      assert t.calls == Calls(ids, v, k, Returned(|members|), Counting);
    }
  }

  /** The members in some order. */
  lemma {:induction false} Enumerate(members: set<Id>) returns (ids: seq<Id>)
    ensures SetOf(ids) == members && |ids| == |members|
    ensures forall i, j :: 0 <= i < j < |ids| ==> ids[i] != ids[j]
    decreases |members|
  {
    if members == {} {
      ids := [];
    } else {
      var id :| id in members;
      var rest := Enumerate(members - {id});
      ids := [id] + rest;
      assert forall x :: x in ids <==> x == id || x in rest;
      assert forall x :: x in rest <==> x in members - {id};
      assert forall j :: 0 < j < |ids| ==> ids[j] in rest;
    }
  }

  lemma {:induction false} AllToldIs(calls: seq<Call>, n: nat)
    requires forall k :: 0 <= k < |calls| ==> calls[k].pc == Returned(n)
    ensures Told(calls, n) == |calls|
  {
    if calls != [] { AllToldIs(calls[..|calls| - 1], n); }
  }

  // ---------------------------------------------------------------- each member once

  /** No member's call was begun twice. */
  predicate EachOnce(calls: seq<Call>) {
    forall i, j :: 0 <= i < j < |calls| ==> calls[i].id != calls[j].id
  }

  /** There is a run on which each member completes once and every one of them is told the total. */
  lemma EveryoneCanBeTold(rows: Table, members: set<Id>, g: Id, v: Value) returns (t: State)
    requires Counted(rows, g) == {} && |members| < U32
    ensures Reaches(State(rows, []), members, g, t) && EachOnce(t.calls) && Full(t, members, g)
    ensures |t.calls| == Told(t.calls, |members|) == |members|
  {
    var ids := Enumerate(members);
    t := SomeCount(State(rows, []), members, g, ids, v, |ids|);
    AllToldIs(t.calls, |members|);
  }

  lemma {:induction false} ToldAtMostAll(calls: seq<Call>, n: nat)
    ensures Told(calls, n) <= |calls|
  {
    if calls != [] { ToldAtMostAll(calls[..|calls| - 1], n); }
  }

  ghost predicate OfMembers(calls: seq<Call>, members: set<Id>) {
    forall k :: 0 <= k < |calls| ==> calls[k].id in members
  }

  lemma {:induction false} CallsOfMembers(s: State, members: set<Id>, g: Id, steps: seq<Step>, t: State)
    requires OfMembers(s.calls, members) && Leads(s, members, g, steps, t)
    ensures OfMembers(t.calls, members)
    decreases |steps|
  {
    if steps != [] { CallsOfMembers(Next(s, members, g, steps[0]), members, g, steps[1..], t); }
  }

  /** No run on which each member completes once tells the total to more than one. */
  ghost predicate NeverToldTwice(rows: Table, members: set<Id>, g: Id) {
    forall t :: Reaches(State(rows, []), members, g, t) && EachOnce(t.calls) ==> Told(t.calls, |members|) <= 1
  }

  /** Without any redelivery: never more than one finisher is told the total if and only if the
      group has at most one member. */
  lemma NeverToldTwiceIff(rows: Table, members: set<Id>, g: Id)
    requires Counted(rows, g) == {} && |members| < U32
    ensures NeverToldTwice(rows, members, g) <==> |members| <= 1
  {
    if |members| > 1 {
      var t := EveryoneCanBeTold(rows, members, g, Null);
    } else {
      forall t | Reaches(State(rows, []), members, g, t) && EachOnce(t.calls)
        ensures Told(t.calls, |members|) <= 1
      {
        var steps :| Leads(State(rows, []), members, g, steps, t);
        CallsOfMembers(State(rows, []), members, g, steps, t);
        ToldAtMostAll(t.calls, |members|);
        if |t.calls| > 1 { AtMostOne(members, t.calls[0].id, t.calls[1].id); }
      }
    }
  }

  lemma AtMostOne(ids: set<Id>, a: Id, b: Id)
    requires |ids| <= 1 && a in ids && b in ids
    ensures a == b
  {
    if a != b { SubsetSize({a, b}, ids); }
  }

  // ---------------------------------------------------------------- redelivered members

  /** A member that completes again, once all have, is told the total again. */
  lemma TellsAgain(s: State, members: set<Id>, g: Id, t: State, id: Id, v: Value) returns (u: State)
    requires Reaches(s, members, g, t) && Full(t, members, g) && id in members && |members| < U32
    ensures Reaches(s, members, g, u) && Full(u, members, g)
    ensures Told(u.calls, |members|) == Told(t.calls, |members|) + 1
  {
    var n := |t.calls|;
    ReachesNext(s, members, g, t, Begin(id, v));
    var t1 := Next(t, members, g, Begin(id, v));
    ReachesNext(s, members, g, t1, DoUpsert(n));
    var t2 := Next(t1, members, g, DoUpsert(n));
    UpsertCounts(t.rows, g, id, v);
    assert Task(id) in Tasks(members);
    TasksCount(members);
    ReachesNext(s, members, g, t2, DoCount(n));
    u := Next(t2, members, g, DoCount(n));
    assert u.calls[..n] == t.calls;
  }

  /** With redeliveries, a group of one member or more can have the total told any number of
      times from its size up. */
  lemma {:induction false} RedeliveredToldAgain(rows: Table, members: set<Id>, g: Id, id: Id, v: Value, more: nat)
    returns (t: State)
    requires Counted(rows, g) == {} && |members| < U32 && id in members
    ensures Reaches(State(rows, []), members, g, t) && Full(t, members, g)
    ensures Told(t.calls, |members|) == |members| + more
  {
    if more == 0 {
      t := EveryoneCanBeTold(rows, members, g, v);
    } else {
      var r := RedeliveredToldAgain(rows, members, g, id, v, more - 1);
      t := TellsAgain(State(rows, []), members, g, r, id, v);
    }
  }

  // ---------------------------------------------------------------- calls that are not interrupted

  /** Each call's count directly follows its upsert. */
  predicate Uninterrupted(steps: seq<Step>) {
    forall i :: 0 <= i < |steps| && steps[i].DoUpsert? ==> i + 1 < |steps| && steps[i + 1] == DoCount(steps[i].k)
  }

  lemma {:induction false} CallsGrow(s: State, members: set<Id>, g: Id, steps: seq<Step>, t: State)
    requires Leads(s, members, g, steps, t)
    ensures |s.calls| <= |t.calls| && forall k :: 0 <= k < |s.calls| ==> t.calls[k].id == s.calls[k].id
    decreases |steps|
  {
    if steps != [] { CallsGrow(Next(s, members, g, steps[0]), members, g, steps[1..], t); }
  }

  /** Between two whole calls: no call is inside, what is counted are the calls returned, and
      the total was told once if all have completed. */
  ghost predicate Whole(s: State, members: set<Id>, g: Id) {
    && (forall k :: 0 <= k < |s.calls| ==> !s.calls[k].pc.Counting? && s.calls[k].id in members)
    && (forall id :: Task(id) in Counted(s.rows, g) <==> Done(s.calls, id))
    && Counted(s.rows, g) <= Tasks(members)
    && Told(s.calls, |members|) == if Full(s, members, g) then 1 else 0
  }

  /** A call for `id` has returned. */
  predicate Done(calls: seq<Call>, id: Id) {
    exists k :: 0 <= k < |calls| && calls[k].id == id && calls[k].pc.Returned?
  }

  lemma BeginKeepsWhole(s: State, members: set<Id>, g: Id, id: Id, v: Value)
    requires Whole(s, members, g) && id in members
    ensures Whole(Next(s, members, g, Begin(id, v)), members, g)
  {
    var s' := Next(s, members, g, Begin(id, v));
    assert s'.calls[..|s.calls|] == s.calls;
    forall x ensures Done(s'.calls, x) <==> Done(s.calls, x) {
      if Done(s.calls, x) {
        var k :| 0 <= k < |s.calls| && s.calls[k].id == x && s.calls[k].pc.Returned?;
        assert s'.calls[k] == s.calls[k];
      }
    }
  }

  /** One whole call. */
  function Both(s: State, members: set<Id>, g: Id, k: nat): State
    requires Enabled(s, members, DoUpsert(k))
  {
    Next(Next(s, members, g, DoUpsert(k)), members, g, DoCount(k))
  }

  lemma BothIs(s: State, members: set<Id>, g: Id, k: nat)
    requires Enabled(s, members, DoUpsert(k))
    ensures var c, u := s.calls[k], Both(s, members, g, k);
      && Counted(u.rows, g) == Counted(s.rows, g) + {Task(c.id)}
      && u.calls == s.calls[k := c.(pc := Returned(|Counted(u.rows, g)| % U32))]
  {
    UpsertCounts(s.rows, g, s.calls[k].id, s.calls[k].v);
  }

  lemma WholeCallDone(s: State, members: set<Id>, g: Id, k: nat, x: Id)
    requires Whole(s, members, g) && Enabled(s, members, DoUpsert(k))
    ensures Done(Both(s, members, g, k).calls, x) <==> Done(s.calls, x) || x == s.calls[k].id
  {
    var u := Both(s, members, g, k);
    BothIs(s, members, g, k);
    assert u.calls[k].pc.Returned? && u.calls[k].id == s.calls[k].id;
    if Done(s.calls, x) {
      var j :| 0 <= j < |s.calls| && s.calls[j].id == x && s.calls[j].pc.Returned?;
      assert j != k && u.calls[j] == s.calls[j];
    }
    if Done(u.calls, x) && x != s.calls[k].id {
      var j :| 0 <= j < |u.calls| && u.calls[j].id == x && u.calls[j].pc.Returned?;
      assert j != k && u.calls[j] == s.calls[j];
    }
  }

  lemma LastIsTold(calls: seq<Call>, k: nat, counted: set<RowKey>, members: set<Id>)
    requires k < |calls| && calls[k].pc.Upserting? && Told(calls, |members|) == 0
    requires counted <= Tasks(members) && |members| < U32
    ensures Told(calls[k := calls[k].(pc := Returned(|counted| % U32))], |members|)
         == if counted == Tasks(members) then 1 else 0
  {
    ToldUpdate(calls, k, calls[k].(pc := Returned(|counted| % U32)), |members|);
    TasksCount(members);
    SubsetSize(counted, Tasks(members));
  }

  lemma NotYetFull(s: State, members: set<Id>, g: Id, k: nat)
    requires Whole(s, members, g) && Enabled(s, members, DoUpsert(k)) && EachOnce(s.calls)
    ensures Told(s.calls, |members|) == 0 && Task(s.calls[k].id) in Tasks(members)
  {
    var id := s.calls[k].id;
    assert Task(id) in Tasks(members);
    assert !Done(s.calls, id);
  }

  /** A member that had not completed is told the total exactly when it is the last. */
  lemma WholeCallTold(s: State, members: set<Id>, g: Id, k: nat)
    requires Whole(s, members, g) && |members| < U32 && Enabled(s, members, DoUpsert(k))
    requires EachOnce(s.calls)
    ensures Told(Both(s, members, g, k).calls, |members|) == if Full(Both(s, members, g, k), members, g) then 1 else 0
  {
    BothIs(s, members, g, k);
    NotYetFull(s, members, g, k);
    LastIsTold(s.calls, k, Counted(Both(s, members, g, k).rows, g), members);
  }

  lemma WholeCallKeeps(s: State, members: set<Id>, g: Id, k: nat)
    requires Whole(s, members, g) && |members| < U32 && Enabled(s, members, DoUpsert(k)) && EachOnce(s.calls)
    ensures Whole(Both(s, members, g, k), members, g)
  {
    var u := Both(s, members, g, k);
    BothIs(s, members, g, k);
    WholeCallTold(s, members, g, k);
    forall x ensures Task(x) in Counted(u.rows, g) <==> Done(u.calls, x) { WholeCallDone(s, members, g, k, x); }
    assert Task(s.calls[k].id) in Tasks(members);
  }

  lemma {:induction false} RunKeepsWhole(s: State, members: set<Id>, g: Id, steps: seq<Step>, t: State)
    requires Whole(s, members, g) && |members| < U32 && Leads(s, members, g, steps, t)
    requires Uninterrupted(steps) && EachOnce(t.calls)
    ensures Whole(t, members, g)
    decreases |steps|
  {
    if steps != [] {
      CallsGrow(s, members, g, steps, t);
      match steps[0] {
        case Begin(id, v) =>
          BeginKeepsWhole(s, members, g, id, v);
          RunKeepsWhole(Next(s, members, g, steps[0]), members, g, steps[1..], t);
        case DoUpsert(k) =>
          assert steps[1] == DoCount(k) && steps[1..][0] == steps[1] && steps[1..][1..] == steps[2..];
          WholeCallKeeps(s, members, g, k);
          RunKeepsWhole(Both(s, members, g, k), members, g, steps[2..], t);
        case DoCount(k) =>
      }
    }
  }

  /** When each call's count directly follows its upsert and each member completes once, the
      total has been told exactly once if all members' calls have returned, and not at all
      otherwise. */
  lemma UninterruptedToldOnce(rows: Table, members: set<Id>, g: Id, steps: seq<Step>, t: State)
    requires Counted(rows, g) == {} && members != {} && |members| < U32
    requires Leads(State(rows, []), members, g, steps, t) && Uninterrupted(steps) && EachOnce(t.calls)
    ensures Told(t.calls, |members|) == if forall id <- members :: Done(t.calls, id) then 1 else 0
  {
    assert !Full(State(rows, []), members, g) by {
      var id :| id in members;
      assert Task(id) in Tasks(members);
    }
    RunKeepsWhole(State(rows, []), members, g, steps, t);
    if forall id <- members :: Done(t.calls, id) {
      assert Tasks(members) <= Counted(t.rows, g);
    } else {
      var id :| id in members && !Done(t.calls, id);
      assert Task(id) in Tasks(members) && Task(id) !in Counted(t.rows, g);
    }
  }
}
