/**
 * The first `SequenceStorage` (src/storage.rs): a growable vector of
 * components, appended to, looked up by index, and iterated without indices.
 */
module LegacyStorage {
  import opened Wrappers
  import opened Components
  import opened SliceIter

  class SequenceStorage {
    var items: seq<Component>

    /** `new`: no components. */
    constructor ()
      ensures items == []
    {
      items := [];
    }

    /** `add`: pushes `component`, which lands at the old length; earlier slots keep their components. */
    method Add(component: Component)
      modifies this
      ensures items == old(items) + [component]
      ensures Get(|old(items)|) == Some(component)
      ensures forall i :: 0 <= i < |old(items)| ==> Get(i) == old(Get(i))
    {
      items := items + [component];
    }

    /** `get`: the component in slot `index`, or `None` past the end. */
    function Get(index: nat): (r: Option<Component>)
      reads this
      ensures r.Some? <==> index < |items|
      ensures r.Some? ==> r.value == items[index]
    {
      if index < |items| then Some(items[index]) else None
    }

    /**
     * `get_mut` followed by an assignment of `value` through the reference it
     * yields: `found` tells whether it yielded one, and only slot `index` changes.
     */
    method GetMutAssign(index: nat, value: Component) returns (found: bool)
      modifies this
      ensures found <==> old(Get(index)).Some?
      ensures found ==> items == old(items)[index := value]
      ensures !found ==> items == old(items)
    {
      found := index < |items|;
      if found {
        items := items[index := value];
      }
    }

    /** `into_iter`: a mutable iterator over the slots, from the first. */
    method IntoIter() returns (it: SliceIterMut)
      ensures fresh(it) && it.Valid()
      ensures it.items == items && it.pos == 0
    {
      it := new SliceIterMut(items);
    }
  }

  /**
   * Drains `into_iter()` the way a `for` loop does: the iterator yields the
   * components in index order, exactly one per slot, and then stops.
   */
  method IterateAll(storage: SequenceStorage) returns (yielded: seq<Component>)
    ensures yielded == storage.items
  {
    var it := storage.IntoIter();
    yielded := [];
    var next := it.Next();
    while next.Some?
      invariant it.Valid() && it.items == storage.items
      invariant next.Some? ==> 0 < it.pos && next.value == it.items[it.pos - 1]
      invariant next.Some? ==> yielded == it.items[..it.pos - 1]
      invariant next.None? ==> yielded == it.items[..it.pos] && it.pos == |it.items|
      decreases |it.items| - it.pos, next.Some?
    {
      yielded := yielded + [next.value];
      next := it.Next();
    }
  }
}
