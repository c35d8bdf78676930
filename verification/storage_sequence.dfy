/**
 * `SequenceStorage` (src/storage/sequence.rs): the dense storage. A growable
 * vector of components, appended to, looked up by index, and iterated as
 * (index, component) pairs by `SequenceStorageIter`.
 */
module SequenceStore {
  import opened Wrappers
  import opened Components
  import opened SliceIter

  class SequenceStorage {
    var items: seq<Component>

    /** `new`: no components. */
    constructor ()
      ensures items == []
    {
      items := [];
    }

    /** `add`: pushes `component`, which lands at the old length; earlier slots keep their components. */
    method Add(component: Component)
      modifies this
      ensures items == old(items) + [component]
      ensures Get(|old(items)|) == Some(component)
      ensures forall i :: 0 <= i < |old(items)| ==> Get(i) == old(Get(i))
    {
      items := items + [component];
    }

    /** `get`: the component in slot `index`, or `None` past the end. */
    function Get(index: nat): (r: Option<Component>)
      reads this
      ensures r.Some? <==> index < |items|
      ensures r.Some? ==> r.value == items[index]
    {
      if index < |items| then Some(items[index]) else None
    }

    /**
     * `get_mut` followed by an assignment of `value` through the reference it
     * yields: it yields one exactly where `get` does, and only slot `index` changes.
     */
    method GetMutAssign(index: nat, value: Component) returns (found: bool)
      modifies this
      ensures found <==> old(Get(index)).Some?
      ensures found ==> items == old(items)[index := value]
      ensures !found ==> items == old(items)
    {
      found := index < |items|;
      if found {
        items := items[index := value];
      }
    }

    /** `into_iter`: `SequenceStorageIter(0, self.0.iter_mut())`. */
    method IntoIter() returns (it: SequenceStorageIter)
      ensures fresh(it) && fresh(it.inner) && it.Valid()
      ensures it.inner.items == items && it.index == 0
    {
      it := new SequenceStorageIter(items);
    }
  }

  /** `SequenceStorageIter`: a slice iterator paired with the index of the next element. */
  class SequenceStorageIter {
    var index: nat
    const inner: SliceIterMut

    /** The counter equals the number of elements the inner iterator has yielded. */
    ghost predicate Valid()
      reads this, inner
    {
      inner.Valid() && index == inner.pos
    }

    constructor (items: seq<Component>)
      ensures fresh(inner) && Valid()
      ensures inner.items == items && index == 0
    {
      index := 0;
      inner := new SliceIterMut(items);
    }

    /** `next`: pairs the inner iterator's element with the counter, which then goes up by one. */
    method Next() returns (r: Option<(nat, Component)>)
      requires Valid()
      modifies this, inner
      ensures Valid()
      ensures old(index) < |inner.items| ==>
        r == Some((old(index), inner.items[old(index)])) && index == old(index) + 1
      ensures old(index) == |inner.items| ==> r == None && index == old(index)
    {
      var component := inner.Next();
      if component.Some? {
        var i := index;
        index := index + 1;
        r := Some((i, component.value));
      } else {
        r := None;
      }
    }
  }

  /**
   * Drains `into_iter()` the way a `for` loop does: the iterator yields
   * `(i, items[i])` for every slot, in ascending order of `i`, and then stops.
   */
  method IterateAll(storage: SequenceStorage) returns (yielded: seq<(nat, Component)>)
    ensures |yielded| == |storage.items|
    ensures forall i :: 0 <= i < |yielded| ==> yielded[i] == (i, storage.items[i])
  {
    var it := storage.IntoIter();
    yielded := [];
    var next := it.Next();
    while next.Some?
      invariant it.Valid() && it.inner.items == storage.items
      invariant next.Some? ==> 0 < it.index && next.value == (it.index - 1, it.inner.items[it.index - 1])
      invariant |yielded| == if next.Some? then it.index - 1 else it.index
      invariant next.None? ==> it.index == |it.inner.items|
      invariant forall i :: 0 <= i < |yielded| ==> yielded[i] == (i, storage.items[i])
      decreases |it.inner.items| - it.index, next.Some?
    {
      yielded := yielded + [next.value];
      next := it.Next();
    }
  }

  /** Unit test `iterator_yields_index_and_component`: two Empty slots give (0, Empty), (1, Empty), then nothing. */
  method IteratorYieldsIndexAndComponent() returns (first: Option<(nat, Component)>, second: Option<(nat, Component)>, third: Option<(nat, Component)>)
    ensures first == Some((0, Empty)) && second == Some((1, Empty)) && third == None
  {
    var storage := new SequenceStorage();
    storage.Add(Empty);
    storage.Add(Empty);
    var it := storage.IntoIter();
    first := it.Next();
    second := it.Next();
    third := it.Next();
  }
}
