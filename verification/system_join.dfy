/**
 * `Join` (src/system/mod.rs): zips a dependent and an independent vector of
 * components and keeps the pairs in which neither side is `Empty`. The source
 * returns references into the two vectors; here the pairs are values, and
 * `JoinedIndices` names the slots they come from.
 */
module Join {
  import opened Components

  type Pair = (Component, Component)

  function Min(a: nat, b: nat): nat {
    if a < b then a else b
  }

  /** `iter_mut().zip(iter())`: pairs slot by slot, as long as the shorter vector. */
  function Zip(a: seq<Component>, b: seq<Component>): (z: seq<Pair>)
    ensures |z| == Min(|a|, |b|)
    ensures forall i :: 0 <= i < |z| ==> z[i] == (a[i], b[i])
  {
    seq(Min(|a|, |b|), i requires 0 <= i < Min(|a|, |b|) => (a[i], b[i]))
  }

  predicate BothPresent(p: Pair) {
    p.0 != Empty && p.1 != Empty
  }

  /** `filter(|(a, b)| a != Empty && b != Empty)`, keeping order. */
  function KeepBothPresent(z: seq<Pair>): (r: seq<Pair>)
    ensures |r| <= |z|
    ensures forall k :: 0 <= k < |r| ==> BothPresent(r[k]) && r[k] in z
  {
    if z == [] then []
    else (if BothPresent(z[0]) then [z[0]] else []) + KeepBothPresent(z[1..])
  }

  /** `(&mut a, &b).join()`. */
  function Join(a: seq<Component>, b: seq<Component>): (r: seq<Pair>)
    ensures |r| <= Min(|a|, |b|)
    ensures forall k :: 0 <= k < |r| ==> r[k].0 != Empty && r[k].1 != Empty && r[k] in Zip(a, b)
  {
    KeepBothPresent(Zip(a, b))
  }

  /** The slots, in ascending order from `from`, at which both vectors hold a non-Empty component. */
  function IndicesFrom(a: seq<Component>, b: seq<Component>, from: nat): seq<nat>
    decreases Min(|a|, |b|) - from
  {
    if from >= Min(|a|, |b|) then []
    else (if a[from] != Empty && b[from] != Empty then [from] else []) + IndicesFrom(a, b, from + 1)
  }

  function JoinedIndices(a: seq<Component>, b: seq<Component>): seq<nat> {
    IndicesFrom(a, b, 0)
  }

  /** The pairs of components at the given slots. */
  function Pick(a: seq<Component>, b: seq<Component>, indices: seq<nat>): (r: seq<Pair>)
    requires forall k :: 0 <= k < |indices| ==> indices[k] < |a| && indices[k] < |b|
    ensures |r| == |indices|
  {
    seq(|indices|, k requires 0 <= k < |indices| => (a[indices[k]], b[indices[k]]))
  }

  lemma {:induction false} IndicesFromBounds(a: seq<Component>, b: seq<Component>, from: nat)
    ensures forall k :: 0 <= k < |IndicesFrom(a, b, from)| ==> from <= IndicesFrom(a, b, from)[k] < Min(|a|, |b|)
    decreases Min(|a|, |b|) - from
  {
    if from < Min(|a|, |b|) {
      IndicesFromBounds(a, b, from + 1);
    }
  }

  /**
   * The slots from `from` on: strictly ascending, and exactly those below the
   * shorter length where both components are non-Empty.
   */
  lemma {:induction false} IndicesFromSpec(a: seq<Component>, b: seq<Component>, from: nat)
    ensures forall k :: 0 <= k < |IndicesFrom(a, b, from)| ==> from <= IndicesFrom(a, b, from)[k]
    ensures forall j, k :: 0 <= j < k < |IndicesFrom(a, b, from)| ==> IndicesFrom(a, b, from)[j] < IndicesFrom(a, b, from)[k]
    ensures forall i: nat :: i in IndicesFrom(a, b, from) <==>
      from <= i < |a| && i < |b| && a[i] != Empty && b[i] != Empty
    decreases Min(|a|, |b|) - from
  {
    if from < Min(|a|, |b|) {
      IndicesFromSpec(a, b, from + 1);
    }
  }

  /** Filtering the zip from slot `from` on picks exactly the pairs at `IndicesFrom(a, b, from)`. */
  lemma {:induction false} KeepMatchesIndices(a: seq<Component>, b: seq<Component>, from: nat)
    requires from <= Min(|a|, |b|)
    ensures forall k :: 0 <= k < |IndicesFrom(a, b, from)| ==> IndicesFrom(a, b, from)[k] < Min(|a|, |b|)
    ensures KeepBothPresent(Zip(a, b)[from..]) == Pick(a, b, IndicesFrom(a, b, from))
    decreases Min(|a|, |b|) - from
  {
    IndicesFromBounds(a, b, from);
    var z := Zip(a, b);
    if from < Min(|a|, |b|) {
      KeepMatchesIndices(a, b, from + 1);
      var rest := IndicesFrom(a, b, from + 1);
      assert z[from..][1..] == z[from + 1..];
      assert z[from..][0] == (a[from], b[from]);
      if a[from] != Empty && b[from] != Empty {
        PickCons(a, b, from, rest);
      } else {
        assert IndicesFrom(a, b, from) == rest;
      }
    } else {
      assert z[from..] == [];
    }
  }

  lemma PickCons(a: seq<Component>, b: seq<Component>, i: nat, indices: seq<nat>)
    requires i < |a| && i < |b|
    requires forall k :: 0 <= k < |indices| ==> indices[k] < |a| && indices[k] < |b|
    ensures Pick(a, b, [i] + indices) == [(a[i], b[i])] + Pick(a, b, indices)
  {
    var l, r := Pick(a, b, [i] + indices), [(a[i], b[i])] + Pick(a, b, indices);
    assert |l| == |r|;
    forall k | 0 <= k < |l| ensures l[k] == r[k] {
      if k > 0 {
        assert ([i] + indices)[k] == indices[k - 1];
      }
    }
  }

  /**
   * What `join` returns: the pairs `(a[i], b[i])` for the slots `i` in
   * `JoinedIndices(a, b)`, which ascend strictly and are exactly the slots
   * below both lengths where neither component is Empty. So the result is a
   * subsequence of the zipped pairs, in slot order.
   */
  lemma JoinSpec(a: seq<Component>, b: seq<Component>)
    ensures forall k :: 0 <= k < |JoinedIndices(a, b)| ==> JoinedIndices(a, b)[k] < Min(|a|, |b|)
    ensures Join(a, b) == Pick(a, b, JoinedIndices(a, b))
    ensures forall j, k :: 0 <= j < k < |JoinedIndices(a, b)| ==> JoinedIndices(a, b)[j] < JoinedIndices(a, b)[k]
    ensures forall i: nat :: i in JoinedIndices(a, b) <==> i < |a| && i < |b| && a[i] != Empty && b[i] != Empty
  {
    KeepMatchesIndices(a, b, 0);
    IndicesFromSpec(a, b, 0);
    assert Zip(a, b)[0..] == Zip(a, b);
  }

  /** Every joined pair has both sides non-Empty, and there are at most as many as the shorter vector's length. */
  lemma JoinBounds(a: seq<Component>, b: seq<Component>)
    ensures forall k :: 0 <= k < |Join(a, b)| ==> Join(a, b)[k].0 != Empty && Join(a, b)[k].1 != Empty
    ensures |Join(a, b)| <= Min(|a|, |b|)
  {
    JoinSpec(a, b);
    var idx := JoinedIndices(a, b);
    AscendingBelowBound(idx, Min(|a|, |b|));
  }

  /** A strictly ascending sequence of numbers below `n` has at most `n` elements. */
  lemma {:induction false} AscendingBelowBound(s: seq<nat>, n: nat)
    requires forall k :: 0 <= k < |s| ==> s[k] < n
    requires forall j, k :: 0 <= j < k < |s| ==> s[j] < s[k]
    ensures |s| <= n
  {
    if s != [] {
      var last := s[|s| - 1];
      var prefix := s[..|s| - 1];
      assert forall k :: 0 <= k < |prefix| ==> prefix[k] < last;
      AscendingBelowBound(prefix, last);
    }
  }

  /** The slots from `from` on at which both vectors hold a non-Empty component. */
  function SlotsFrom(a: seq<Component>, b: seq<Component>, from: nat): set<nat> {
    set i: nat | from <= i < |a| && i < |b| && a[i] != Empty && b[i] != Empty
  }

  lemma SlotsFromStep(a: seq<Component>, b: seq<Component>, from: nat)
    requires from < Min(|a|, |b|)
    ensures from !in SlotsFrom(a, b, from + 1)
    ensures SlotsFrom(a, b, from) ==
      (if a[from] != Empty && b[from] != Empty then {from} else {}) + SlotsFrom(a, b, from + 1)
  {
  }

  lemma {:induction false} IndicesFromCount(a: seq<Component>, b: seq<Component>, from: nat)
    ensures |IndicesFrom(a, b, from)| == |SlotsFrom(a, b, from)|
    decreases Min(|a|, |b|) - from
  {
    if from >= Min(|a|, |b|) {
      assert SlotsFrom(a, b, from) == {};
    } else {
      IndicesFromCount(a, b, from + 1);
      SlotsFromStep(a, b, from);
      var rest := SlotsFrom(a, b, from + 1);
      if a[from] != Empty && b[from] != Empty {
        assert |IndicesFrom(a, b, from)| == 1 + |IndicesFrom(a, b, from + 1)|;
        assert |{from} + rest| == 1 + |rest|;
      } else {
        assert IndicesFrom(a, b, from) == IndicesFrom(a, b, from + 1);
      }
    }
  }

  /**
   * The number of joined pairs (the number of `update` calls a pass makes) is
   * the number of slots where both components are present and non-Empty.
   */
  lemma JoinCount(a: seq<Component>, b: seq<Component>)
    ensures |Join(a, b)| == |set i: nat | i < |a| && i < |b| && a[i] != Empty && b[i] != Empty|
  {
    JoinSpec(a, b);
    IndicesFromCount(a, b, 0);
    assert SlotsFrom(a, b, 0) == set i: nat | i < |a| && i < |b| && a[i] != Empty && b[i] != Empty;
  }

  /** Unit test `join_empty_collections`. */
  lemma JoinEmptyCollections()
    ensures Join([], []) == []
  {
    assert Zip([], []) == [];
  }

  /**
   * A dependent vector [Empty, P1, P2] against an independent [V0, V1]:
   * only slot 1 is joined; slot 0 has an Empty side and slot 2 has no partner.
   */
  lemma JoinSkipsEmptyAndUnpaired(p1: Component, p2: Component, v0: Component, v1: Component)
    requires p1.Position? && p2.Position? && v0.Velocity? && v1.Velocity?
    ensures Join([Empty, p1, p2], [v0, v1]) == [(p1, v1)]
  {
    var z := Zip([Empty, p1, p2], [v0, v1]);
    assert z == [(Empty, v0), (p1, v1)];
    assert z[1..] == [(p1, v1)] && z[1..][1..] == [];
    assert KeepBothPresent(z[1..]) == [(p1, v1)];
  }
}
