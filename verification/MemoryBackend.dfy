/** `MemoryResultBackend` (kojin-core/src/memory_result_backend.rs): two maps changed in place. */
module MemoryBackends {
  import opened Messages
  import opened Results

  class MemoryResultBackend {
    var results: map<Id, Value>
    var groups: map<Id, GroupState>

    function View(): Backend
      reads this
    {
      Backend(results, groups)
    }

    constructor ()
      ensures View() == Backend(map[], map[])
    {
      results, groups := map[], map[];
    }

    method Store(id: Id, v: Value)
      modifies this
      ensures View() == old(View()).Store(id, v)
    {
      results := results[id := v];
    }

    method InitGroup(g: Id, total: nat)
      modifies this
      ensures View() == old(View()).InitGroup(g, total)
    {
      groups := groups[g := GroupState(total, 0, [])];
    }

    /** None when the group was never opened. */
    method CompleteGroupMember(g: Id, v: Value) returns (count: Option<nat>)
      modifies this
      ensures (View(), count) == old(View()).CompleteMember(g, v)
    {
      if g !in groups {
        return None;
      }
      var st := groups[g];
      st := st.(completed := (st.completed + 1) % U32);
      st := st.(results := st.results + [v]);
      groups := groups[g := st];
      return Some(st.completed);
    }

    method GetGroupResults(g: Id) returns (vs: Option<seq<Value>>)
      ensures vs == View().GroupValues(g)
    {
      if g !in groups {
        return None;
      }
      return Some(groups[g].results);
    }
  }
}
