/** The state behind `MemoryResultBackend` and its three group operations as functions
    (kojin-core/src/memory_result_backend.rs). */
module Results {
  import opened Messages

  datatype GroupState = GroupState(total: nat, completed: nat, results: seq<Value>)

  datatype Backend = Backend(results: map<Id, Value>, groups: map<Id, GroupState>) {

    function Store(id: Id, v: Value): Backend {
      this.(results := results[id := v])
    }

    function InitGroup(g: Id, total: nat): Backend {
      this.(groups := groups[g := GroupState(total, 0, [])])
    }

    /** The new backend and the count reported, or no count when the group is unknown. */
    function CompleteMember(g: Id, v: Value): (Backend, Option<nat>) {
      if g !in groups then (this, None) else
      var st := groups[g];
      var count := (st.completed + 1) % U32;
      (this.(groups := groups[g := st.(completed := count, results := st.results + [v])]), Some(count))
    }

    function GroupValues(g: Id): Option<seq<Value>> {
      if g in groups then Some(groups[g].results) else None
    }
  }
}
