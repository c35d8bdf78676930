/**
 * `std::slice::IterMut<Component>` as the sequence storages use it: a cursor
 * over the vector's elements, borrowed for the iterator's lifetime (so the
 * elements cannot change under it while it lives).
 */
module SliceIter {
  import opened Wrappers
  import opened Components

  class SliceIterMut {
    const items: seq<Component>
    var pos: nat

    ghost predicate Valid()
      reads this
    {
      pos <= |items|
    }

    /** `iter_mut()`: positioned before the first element. */
    constructor (items: seq<Component>)
      ensures this.items == items && pos == 0 && Valid()
    {
      this.items := items;
      pos := 0;
    }

    /** `next`: the element under the cursor, then one step on; `None` once past the end. */
    method Next() returns (r: Option<Component>)
      requires Valid()
      modifies this
      ensures Valid()
      ensures old(pos) < |items| ==> r == Some(items[old(pos)]) && pos == old(pos) + 1
      ensures old(pos) == |items| ==> r == None && pos == old(pos)
    {
      if pos < |items| {
        r := Some(items[pos]);
        pos := pos + 1;
      } else {
        r := None;
      }
    }
  }
}
