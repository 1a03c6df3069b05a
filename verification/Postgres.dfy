/** Group counting in PostgreSQL (kojin-postgres/src/result_backend.rs:162-233): placeholder
    rows, an upsert and a count as two separate statements, and results ordered by task id.
    One SQL statement is one atomic step.  Task ids are ordered as their text is. */
module Postgres {
  import opened Messages

  datatype RowKey = Placeholder(i: nat) | Task(id: Id)

  datatype Row = Row(result: Option<Value>, completed: bool)

  /** `kojin_groups`, keyed by group and task. */
  type Table = map<(Id, RowKey), Row>

  function Upsert(rows: Table, g: Id, id: Id, v: Value): Table {
    rows[(g, Task(id)) := Row(Some(v), true)]
  }

  predicate Counts(rows: Table, key: (Id, RowKey), g: Id) {
    key in rows && key.0 == g && rows[key].completed && rows[key].result.Some?
  }

  predicate IsPlaceholder(key: (Id, RowKey), g: Id, total: nat) {
    key.0 == g && key.1.Placeholder? && key.1.i < total
  }

  /** The rows that `COUNT(*)` counts. */
  function Counted(rows: Table, g: Id): set<RowKey> {
    set key | key in rows && Counts(rows, key, g) :: key.1
  }

  class PostgresGroups {
    var rows: Table

    constructor ()
      ensures rows == map[]
    {
      rows := map[];
    }

    /** Placeholders are inserted unless they exist; none of them is ever counted. */
    method InitGroup(g: Id, total: nat)
      modifies this
      ensures forall key <- old(rows) :: key in rows && rows[key] == old(rows[key])
      ensures forall key <- rows :: key in old(rows) || (IsPlaceholder(key, g, total) && rows[key] == Row(None, false))
      ensures forall i :: 0 <= i < total ==> (g, Placeholder(i)) in rows
      ensures forall h :: Counted(rows, h) == Counted(old(rows), h)
    {
      for i := 0 to total
        invariant forall key <- old(rows) :: key in rows && rows[key] == old(rows[key])
        invariant forall key <- rows :: key in old(rows) || (IsPlaceholder(key, g, i) && rows[key] == Row(None, false))
        invariant forall j :: 0 <= j < i ==> (g, Placeholder(j)) in rows
      {
        if (g, Placeholder(i)) !in rows {
          rows := rows[(g, Placeholder(i)) := Row(None, false)];
        }
      }
      forall h ensures Counted(rows, h) == Counted(old(rows), h) {
        forall k | k in Counted(rows, h) ensures k in Counted(old(rows), h) { assert Counts(rows, (h, k), h); }
        forall k | k in Counted(old(rows), h) ensures k in Counted(rows, h) { assert Counts(old(rows), (h, k), h); }
      }
    }

    /** First statement of `complete_group_member`. */
    method UpsertMember(g: Id, id: Id, v: Value)
      modifies this
      ensures rows == Upsert(old(rows), g, id, v)
    {
      rows := rows[(g, Task(id)) := Row(Some(v), true)];
    }

    /** Second statement. */
    method CountCompleted(g: Id) returns (count: nat)
      ensures count == |Counted(rows, g)| % U32
    {
      count := |Counted(rows, g)| % U32;
    }

    /** `complete_group_member` with no other statement between its two: a member that completes
        again leaves the count where it is. */
    method CompleteGroupMember(g: Id, id: Id, v: Value) returns (count: nat)
      modifies this
      ensures rows == Upsert(old(rows), g, id, v)
      ensures Counted(rows, g) == Counted(old(rows), g) + {Task(id)}
      ensures count == |Counted(old(rows), g) + {Task(id)}| % U32
    {
      UpsertCounts(rows, g, id, v);
      UpsertMember(g, id, v);
      count := CountCompleted(g);
    }
  }

  /** Completing a member again does not count it again. */
  lemma UpsertCounts(rows: Table, g: Id, id: Id, v: Value)
    ensures Counted(Upsert(rows, g, id, v), g) == Counted(rows, g) + {Task(id)}
    ensures forall h :: h != g ==> Counted(Upsert(rows, g, id, v), h) == Counted(rows, h)
  {
    var rows' := Upsert(rows, g, id, v);
    assert Counts(rows', (g, Task(id)), g);
    forall k | k in Counted(rows, g) ensures k in Counted(rows', g) {
      assert Counts(rows, (g, k), g) && Counts(rows', (g, k), g);
    }
    forall h | h != g ensures Counted(rows', h) == Counted(rows, h) {
      forall k | k in Counted(rows, h) ensures k in Counted(rows', h) { assert Counts(rows', (h, k), h); }
      forall k | k in Counted(rows', h) ensures k in Counted(rows, h) { assert Counts(rows, (h, k), h); }
    }
  }

  // ---------------------------------------------------------------- concurrent completions

  datatype CallPc = Upserting | Counting | Returned(n: nat)

  /** One call of `complete_group_member` for the group under consideration. */
  datatype Call = Call(id: Id, v: Value, pc: CallPc)

  datatype State = State(rows: Table, calls: seq<Call>)

  datatype Step =
    | Begin(id: Id, v: Value)   // a member finished; again, if its message was redelivered
    | DoUpsert(k: nat)
    | DoCount(k: nat)

  predicate Enabled(s: State, members: set<Id>, l: Step) {
    match l
    case Begin(id, _) => id in members
    case DoUpsert(k) => k < |s.calls| && s.calls[k].pc.Upserting?
    case DoCount(k) => k < |s.calls| && s.calls[k].pc.Counting?
  }

  function Next(s: State, members: set<Id>, g: Id, l: Step): State
    requires Enabled(s, members, l)
  {
    match l
    case Begin(id, v) => s.(calls := s.calls + [Call(id, v, Upserting)])
    case DoUpsert(k) =>
      var c := s.calls[k];
      State(Upsert(s.rows, g, c.id, c.v), s.calls[k := c.(pc := Counting)])
    case DoCount(k) => s.(calls := s.calls[k := s.calls[k].(pc := Returned(|Counted(s.rows, g)| % U32))])
  }

  ghost predicate Leads(s: State, members: set<Id>, g: Id, steps: seq<Step>, t: State)
    decreases |steps|
  {
    if steps == [] then s == t
    else Enabled(s, members, steps[0]) && Leads(Next(s, members, g, steps[0]), members, g, steps[1..], t)
  }

  function Tasks(ids: set<Id>): set<RowKey> {
    set id | id in ids :: Task(id)
  }

  lemma {:induction false} TasksCount(ids: set<Id>)
    ensures |Tasks(ids)| == |ids|
  {
    if ids != {} {
      var id :| id in ids;
      TasksCount(ids - {id});
      assert Tasks(ids) == Tasks(ids - {id}) + {Task(id)};
    }
  }

  lemma {:induction false} SubsetSize<T>(a: set<T>, b: set<T>)
    requires a <= b
    ensures |a| <= |b| && (|a| == |b| ==> a == b)
  {
    if a != {} {
      var x :| x in a;
      SubsetSize(a - {x}, b - {x});
      assert a == (a - {x}) + {x} && b == (b - {x}) + {x};
    }
  }

  predicate Full(s: State, members: set<Id>, g: Id) {
    Counted(s.rows, g) == Tasks(members)
  }

  /** A finisher will still see the full count, or has. */
  predicate Sees(c: Call, n: nat) {
    c.pc.Counting? || c.pc == Returned(n)
  }

  ghost predicate Inv(s: State, members: set<Id>, g: Id) {
    && Counted(s.rows, g) <= Tasks(members)
    && (forall k :: 0 <= k < |s.calls| ==> s.calls[k].id in members)
    && (forall k :: 0 <= k < |s.calls| && !s.calls[k].pc.Upserting? ==> Task(s.calls[k].id) in Counted(s.rows, g))
    && (forall k :: 0 <= k < |s.calls| && s.calls[k].pc == Returned(|members|) ==> Full(s, members, g))
    && (Full(s, members, g) && members != {} ==> exists k :: 0 <= k < |s.calls| && Sees(s.calls[k], |members|))
  }

  lemma UpsertKeepsInv(s: State, members: set<Id>, g: Id, k: nat)
    requires Inv(s, members, g) && Enabled(s, members, DoUpsert(k))
    ensures Inv(Next(s, members, g, DoUpsert(k)), members, g)
  {
    var c, s' := s.calls[k], Next(s, members, g, DoUpsert(k));
    UpsertCounts(s.rows, g, c.id, c.v);
    assert Task(c.id) in Tasks(members);
    assert Sees(s'.calls[k], |members|);
    forall j | 0 <= j < |s'.calls|
      ensures s'.calls[j].id in members
      ensures !s'.calls[j].pc.Upserting? ==> Task(s'.calls[j].id) in Counted(s'.rows, g)
      ensures s'.calls[j].pc == Returned(|members|) ==> Full(s', members, g)
    {
      assert j != k ==> s'.calls[j] == s.calls[j];
    }
  }

  lemma CountKeepsInv(s: State, members: set<Id>, g: Id, k: nat)
    requires Inv(s, members, g) && |members| < U32 && Enabled(s, members, DoCount(k))
    ensures Inv(Next(s, members, g, DoCount(k)), members, g)
  {
    var s' := Next(s, members, g, DoCount(k));
    TasksCount(members);
    SubsetSize(Counted(s.rows, g), Tasks(members));
    if Full(s, members, g) { assert Sees(s'.calls[k], |members|); }
  }

  lemma StepKeepsInv(s: State, members: set<Id>, g: Id, l: Step)
    requires Inv(s, members, g) && |members| < U32 && Enabled(s, members, l)
    ensures Inv(Next(s, members, g, l), members, g)
  {
    match l {
      case Begin(id, v) =>
        if Full(s, members, g) && members != {} {
          var k :| 0 <= k < |s.calls| && Sees(s.calls[k], |members|);
          assert Sees(Next(s, members, g, l).calls[k], |members|);
        }
      case DoUpsert(k) => UpsertKeepsInv(s, members, g, k);
      case DoCount(k) => CountKeepsInv(s, members, g, k);
    }
  }

  lemma {:induction false} LeadsKeepsInv(s: State, members: set<Id>, g: Id, steps: seq<Step>, t: State)
    requires Inv(s, members, g) && |members| < U32 && Leads(s, members, g, steps, t)
    ensures Inv(t, members, g)
    decreases |steps|
  {
    if steps != [] {
      StepKeepsInv(s, members, g, steps[0]);
      LeadsKeepsInv(Next(s, members, g, steps[0]), members, g, steps[1..], t);
    }
  }

  /** Whatever the interleaving and the redeliveries: a finisher is told the total only when
      all distinct members have completed; and if they all have, then once no call is under
      way, some finisher was told so. */
  lemma CountsDistinctMembers(rows: Table, members: set<Id>, g: Id, steps: seq<Step>, t: State)
    requires Counted(rows, g) == {} && members != {} && |members| < U32 && Leads(State(rows, []), members, g, steps, t)
    ensures forall k :: 0 <= k < |t.calls| && t.calls[k].pc == Returned(|members|) ==> Full(t, members, g)
    ensures Full(t, members, g) && (forall k :: 0 <= k < |t.calls| ==> t.calls[k].pc.Returned?) ==>
      exists k :: 0 <= k < |t.calls| && t.calls[k].pc == Returned(|members|)
  {
    TasksCount(members);
    assert Tasks(members) != {} by { var id :| id in members; assert Task(id) in Tasks(members); }
    LeadsKeepsInv(State(rows, []), members, g, steps, t);
    if Full(t, members, g) && forall k :: 0 <= k < |t.calls| ==> t.calls[k].pc.Returned? {
      var k :| 0 <= k < |t.calls| && Sees(t.calls[k], |members|);
      assert t.calls[k].pc == Returned(|members|);
    }
  }

  // ---------------------------------------------------------------- ordered results

  lemma {:induction false} HasLeast(s: set<Id>) returns (m: Id)
    requires s != {}
    ensures m in s && forall x <- s :: m <= x
    decreases |s|
  {
    m :| m in s;
    if s != {m} {
      var rest := s - {m};
      assert s == rest + {m};
      var least := HasLeast(rest);
      forall x <- s ensures (if least < m then least else m) <= x { assert x == m || x in rest; }
      m := if least < m then least else m;
    }
  }

  /** The ids in increasing order: `ORDER BY task_id`. */
  ghost predicate InOrder(r: seq<Id>, s: set<Id>) {
    (forall i, j :: 0 <= i < j < |r| ==> r[i] < r[j]) && (forall x :: x in r <==> x in s)
  }

  ghost predicate IsLeast(m: Id, s: set<Id>) {
    m in s && forall x <- s :: m <= x
  }

  ghost function Least(s: set<Id>): (m: Id)
    requires s != {}
    ensures IsLeast(m, s)
  {
    assert exists m :: IsLeast(m, s) by { var m := HasLeast(s); assert IsLeast(m, s); }
    var m :| IsLeast(m, s);
    m
  }

  ghost function Ordered(s: set<Id>): (r: seq<Id>)
    decreases |s|
  {
    if s == {} then [] else [Least(s)] + Ordered(s - {Least(s)})
  }

  lemma Prepend(m: Id, r: seq<Id>, s: set<Id>)
    requires IsLeast(m, s) && InOrder(r, s - {m})
    ensures InOrder([m] + r, s)
  {
    var t := [m] + r;
    forall x ensures x in t <==> x in s { assert x in t <==> x == m || x in r; }
    forall i, j | 0 <= i < j < |t| ensures t[i] < t[j] {
      assert t[j] == r[j - 1] && r[j - 1] in s - {m};
      if i > 0 { assert t[i] == r[i - 1]; }
    }
  }

  lemma {:induction false} OrderedIsInOrder(s: set<Id>)
    ensures InOrder(Ordered(s), s)
    decreases |s|
  {
    if s != {} {
      var m := Least(s);
      OrderedIsInOrder(s - {m});
      Prepend(m, Ordered(s - {m}), s);
    }
  }

  function CountedIds(rows: Table, g: Id): set<Id> {
    set key | key in rows && Counts(rows, key, g) && key.1.Task? :: key.1.id
  }

  function ResultAt(rows: Table, g: Id, id: Id): Value {
    if (g, Task(id)) in rows && rows[(g, Task(id))].result.Some? then rows[(g, Task(id))].result.value else Null
  }

  function ResultsAt(rows: Table, g: Id, ids: seq<Id>): (vs: seq<Value>)
    ensures |vs| == |ids| && forall i :: 0 <= i < |ids| ==> vs[i] == ResultAt(rows, g, ids[i])
  {
    if ids == [] then [] else [ResultAt(rows, g, ids[0])] + ResultsAt(rows, g, ids[1..])
  }

  /** `get_group_results`: the completed members' results, by task id. */
  ghost function GroupResults(rows: Table, g: Id): seq<Value> {
    ResultsAt(rows, g, Ordered(CountedIds(rows, g)))
  }

  /** Exactly the counted members' results, in increasing order of their ids. */
  lemma ResultsAreSorted(rows: Table, g: Id)
    ensures exists ids: seq<Id> ::
      && InOrder(ids, CountedIds(rows, g)) && |GroupResults(rows, g)| == |ids|
      && forall i :: 0 <= i < |ids| ==>
          Counts(rows, (g, Task(ids[i])), g) && rows[(g, Task(ids[i]))].result == Some(GroupResults(rows, g)[i])
  {
    var ids := Ordered(CountedIds(rows, g));
    OrderedIsInOrder(CountedIds(rows, g));
    forall i | 0 <= i < |ids|
      ensures Counts(rows, (g, Task(ids[i])), g) && rows[(g, Task(ids[i]))].result == Some(GroupResults(rows, g)[i])
    {
      assert ids[i] in CountedIds(rows, g);
    }
  }

  function UpsertAll(rows: Table, g: Id, done: seq<(Id, Value)>): Table
    decreases |done|
  {
    if done == [] then rows else UpsertAll(Upsert(rows, g, done[0].0, done[0].1), g, done[1..])
  }

  predicate DistinctIds(done: seq<(Id, Value)>) {
    forall i, j :: 0 <= i < j < |done| ==> done[i].0 != done[j].0
  }

  /** What a table holds after members completed, each once. */
  lemma {:induction false} UpsertAllIs(rows: Table, g: Id, done: seq<(Id, Value)>, key: (Id, RowKey))
    requires DistinctIds(done)
    ensures var t := UpsertAll(rows, g, done);
      && (forall v :: key.0 == g && key.1.Task? && (key.1.id, v) in done ==> key in t && t[key] == Row(Some(v), true))
      && (!(key.0 == g && key.1.Task? && exists v :: (key.1.id, v) in done) ==>
           (key in t <==> key in rows) && (key in t ==> t[key] == rows[key]))
    decreases |done|
  {
    if done != [] {
      var rows' := Upsert(rows, g, done[0].0, done[0].1);
      assert done == [done[0]] + done[1..];
      UpsertAllIs(rows', g, done[1..], key);
      if key == (g, Task(done[0].0)) { assert (done[0].0, done[0].1) in done; }
    }
  }

  /** The results do not depend on the order in which the members completed. */
  lemma ResultsIgnoreOrder(rows: Table, g: Id, one: seq<(Id, Value)>, other: seq<(Id, Value)>)
    requires DistinctIds(one) && DistinctIds(other) && multiset(one) == multiset(other)
    ensures GroupResults(UpsertAll(rows, g, one), g) == GroupResults(UpsertAll(rows, g, other), g)
  {
    var a, b := UpsertAll(rows, g, one), UpsertAll(rows, g, other);
    forall p ensures p in one <==> p in other { assert p in multiset(one) <==> p in multiset(other); }
    forall key ensures (key in a <==> key in b) && (key in a ==> a[key] == b[key]) {
      UpsertAllIs(rows, g, one, key);
      UpsertAllIs(rows, g, other, key);
      if key.0 == g && key.1.Task? && exists v :: (key.1.id, v) in one {
        var v :| (key.1.id, v) in one;
      }
    }
    assert a == b;
  }
}
