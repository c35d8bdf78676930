/**
 * `MapStorage` (src/storage/map.rs): the sparse storage. A hash map from
 * entity index to component; an index never added is absent, not `Empty`.
 */
module MapStore {
  import opened Wrappers
  import opened Components

  class MapStorage {
    var entries: map<nat, Component>

    /** `new`: every lookup is absent. */
    constructor ()
      ensures entries == map[]
      ensures forall i: nat :: Get(i) == None
    {
      entries := map[];
    }

    /** `add`: upsert; `index` now holds `component` whatever it held, and no other index changes. */
    method Add(index: nat, component: Component)
      modifies this
      ensures entries == old(entries)[index := component]
      ensures Get(index) == Some(component)
      ensures forall j: nat :: j != index ==> Get(j) == old(Get(j))
    {
      entries := entries[index := component];
    }

    /** `get`: the stored component, or `None` for an index never added. */
    function Get(index: nat): (r: Option<Component>)
      reads this
      ensures r.Some? <==> index in entries
      ensures r.Some? ==> r.value == entries[index]
    {
      if index in entries then Some(entries[index]) else None
    }

    /**
     * `get_mut` followed by an assignment of `value` through the reference it
     * yields: it yields one exactly where `get` does, and only key `index` changes.
     */
    method GetMutAssign(index: nat, value: Component) returns (found: bool)
      modifies this
      ensures found <==> old(Get(index)).Some?
      ensures found ==> entries == old(entries)[index := value]
      ensures !found ==> entries == old(entries)
    {
      found := index in entries;
      if found {
        entries := entries[index := value];
      }
    }

    /**
     * `into_iter`: the (index, component) pairs a hash-map iteration visits.
     * Every stored index comes exactly once with its current component; the
     * order is unspecified, and the choice below is arbitrary.
     */
    method IntoIter() returns (pairs: seq<(nat, Component)>)
      ensures |pairs| == |entries|
      ensures forall k :: 0 <= k < |pairs| ==> pairs[k].0 in entries && entries[pairs[k].0] == pairs[k].1
      ensures forall i :: i in entries ==> (i, entries[i]) in pairs
      ensures forall j, k :: 0 <= j < k < |pairs| ==> pairs[j].0 != pairs[k].0
    {
      pairs := [];
      var pending := entries.Keys;
      while pending != {}
        invariant pending <= entries.Keys
        invariant |pairs| + |pending| == |entries|
        invariant forall k :: 0 <= k < |pairs| ==>
          pairs[k].0 in entries && pairs[k].0 !in pending && entries[pairs[k].0] == pairs[k].1
        invariant forall i :: i in entries && i !in pending ==> (i, entries[i]) in pairs
        invariant forall j, k :: 0 <= j < k < |pairs| ==> pairs[j].0 != pairs[k].0
        decreases pending
      {
        var i :| i in pending;
        pairs := pairs + [(i, entries[i])];
        pending := pending - {i};
      }
    }
  }
}
