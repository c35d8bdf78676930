/**
 * `World` and `EntityBuilder` (src/world.rs). The world keeps one vector of
 * optional components per dense kind; a builder collects the components of
 * one new entity and the slot they will share, then writes them all at once.
 */
module Worlds {
  import opened Wrappers
  import opened Components

  /** A storage slot: `None` where an entity has no component of that kind. */
  type Slot = Option<Component>

  /** The kinds the world stores: those are the only ones that move the builder's slot. */
  datatype Kind = PositionKind | VelocityKind

  /** The kind whose storage `c` goes into, if any. */
  function KindOf(c: Component): (k: Option<Kind>)
    ensures k == Some(PositionKind) <==> c.Position?
    ensures k == Some(VelocityKind) <==> c.Velocity?
  {
    match c
    case Position(_, _) => Some(PositionKind)
    case Velocity(_, _) => Some(VelocityKind)
    case _ => None
  }

  function Nones(n: nat): (r: seq<Slot>)
    ensures |r| == n
    ensures forall k :: 0 <= k < n ==> r[k] == None
  {
    seq(n, _ => None)
  }

  function Max(a: nat, b: nat): nat {
    if a < b then b else a
  }

  /**
   * What the free function `insert` leaves in the vector: `Some(component)` at
   * `index`; the slots below it kept, padded with `None` up to `index` when the
   * vector was shorter; and the slots from `index` on shifted one place right.
   */
  function Inserted(index: nat, store: seq<Slot>, component: Component): (r: seq<Slot>)
    ensures |r| == Max(index, |store|) + 1
    ensures r[index] == Some(component)
    ensures forall k :: 0 <= k < index && k < |store| ==> r[k] == store[k]
    ensures forall k :: |store| <= k < index ==> r[k] == None
    ensures forall k :: index < k < |r| ==> r[k] == store[k - 1]
  {
    var padded := if index <= |store| then store else store + Nones(index - |store|);
    padded[..index] + [Some(component)] + padded[index..]
  }

  /** `insert`: push `None` from the current length up to `index`, then `Vec::insert` at `index`. */
  method Insert(index: nat, store: seq<Slot>, component: Component) returns (r: seq<Slot>)
    ensures r == Inserted(index, store, component)
  {
    r := store;
    var k := |r|;
    while k < index
      invariant |store| <= k <= Max(index, |store|)
      invariant |r| == k
      invariant r[..|store|] == store
      invariant forall j :: |store| <= j < |r| ==> r[j] == None
    {
      r := r + [None];
      k := k + 1;
    }
    r := r[..index] + [Some(component)] + r[index..];
    assert |r| == Max(index, |store|) + 1;
    forall j | 0 <= j < |r|
      ensures r[j] == Inserted(index, store, component)[j]
    {
    }
  }

  /**
   * What `build` leaves in the storage of `kind`: every component of that kind,
   * in the order they were added, inserted at `index`; the others skipped.
   */
  function Commit(store: seq<Slot>, index: nat, components: seq<Component>, kind: Kind): seq<Slot>
    decreases |components|
  {
    if components == [] then store
    else
      var before := Commit(store, index, components[..|components| - 1], kind);
      var c := components[|components| - 1];
      if KindOf(c) == Some(kind) then Inserted(index, before, c) else before
  }

  predicate NoneOfKind(components: seq<Component>, kind: Kind) {
    forall k :: 0 <= k < |components| ==> KindOf(components[k]) != Some(kind)
  }

  class World {
    var positions: seq<Slot>
    var velocities: seq<Slot>

    /** `World::new`: both storages empty. */
    constructor ()
      ensures positions == [] && velocities == []
    {
      positions := [];
      velocities := [];
    }

    function Storage(kind: Kind): seq<Slot>
      reads this
    {
      match kind
      case PositionKind => positions
      case VelocityKind => velocities
    }

    /** `create_entity`: a builder bound to this world, at slot 0 with nothing pending. */
    method CreateEntity() returns (builder: EntityBuilder)
      ensures fresh(builder) && builder.Valid()
      ensures builder.world == this && builder.components == [] && builder.index == 0
    {
      builder := new EntityBuilder(this);
    }
  }

  class EntityBuilder {
    const world: World
    var components: seq<Component>
    var index: nat

    /**
     * The builder's slot is at or past the end of every storage that one of its
     * pending components goes into.
     */
    ghost predicate Valid()
      reads this, world
    {
      forall k :: 0 <= k < |components| && KindOf(components[k]).Some? ==>
        |world.Storage(KindOf(components[k]).value)| <= index
    }

    /** `EntityBuilder::new`. */
    constructor (world: World)
      ensures this.world == world && components == [] && index == 0 && Valid()
    {
      this.world := world;
      components := [];
      index := 0;
    }

    /**
     * `with_component`: records `component`; a Position or Velocity raises the
     * slot to that storage's length if it was below it, anything else leaves it.
     */
    method WithComponent(component: Component)
      requires Valid()
      modifies this
      ensures Valid()
      ensures components == old(components) + [component]
      ensures index >= old(index)
      ensures KindOf(component).Some? ==>
        index == Max(old(index), |world.Storage(KindOf(component).value)|)
      ensures KindOf(component).None? ==> index == old(index)
    {
      match component {
        case Position(_, _) => index := Max(index, |world.positions|);
        case Velocity(_, _) => index := Max(index, |world.velocities|);
        case _ =>
      }
      components := components + [component];
    }

    /**
     * `build`: inserts every pending Position and Velocity, in order, at the
     * builder's slot; since that slot is at or past the end of each storage it
     * touches, every slot that was already there keeps its component.
     */
    method Build()
      requires Valid()
      modifies world
      ensures |old(world.positions)| <= |world.positions|
      ensures world.positions[..|old(world.positions)|] == old(world.positions)
      ensures |old(world.velocities)| <= |world.velocities|
      ensures world.velocities[..|old(world.velocities)|] == old(world.velocities)
      ensures world.positions == Commit(old(world.positions), index, components, PositionKind)
      ensures world.velocities == Commit(old(world.velocities), index, components, VelocityKind)
    {
      var k := 0;
      while k < |components|
        invariant k <= |components|
        invariant world.positions == Commit(old(world.positions), index, components[..k], PositionKind)
        invariant world.velocities == Commit(old(world.velocities), index, components[..k], VelocityKind)
      {
        var component := components[k];
        assert components[..k + 1][..k] == components[..k];
        match component {
          case Position(_, _) => world.positions := Insert(index, world.positions, component);
          case Velocity(_, _) => world.velocities := Insert(index, world.velocities, component);
          case _ =>
        }
        k := k + 1;
      }
      assert components[..k] == components;
      CommitKeepsSlots(old(world.positions), index, components, PositionKind);
      CommitKeepsSlots(old(world.velocities), index, components, VelocityKind);
    }
  }

  /**
   * Inserting only at or past the end of the storage never disturbs a slot
   * that was there before.
   */
  lemma {:induction false} CommitKeepsSlots(store: seq<Slot>, index: nat, components: seq<Component>, kind: Kind)
    requires forall k :: 0 <= k < |components| && KindOf(components[k]) == Some(kind) ==> |store| <= index
    ensures |store| <= |Commit(store, index, components, kind)|
    ensures Commit(store, index, components, kind)[..|store|] == store
    decreases |components|
  {
    if components != [] {
      var prefix := components[..|components| - 1];
      assert forall k :: 0 <= k < |prefix| ==> prefix[k] == components[k];
      CommitKeepsSlots(store, index, prefix, kind);
    }
  }

  /** Components of other kinds leave a storage as it was. */
  lemma {:induction false} CommitIgnoresOtherKinds(store: seq<Slot>, index: nat, components: seq<Component>, kind: Kind)
    requires NoneOfKind(components, kind)
    ensures Commit(store, index, components, kind) == store
  {
    if components != [] {
      CommitIgnoresOtherKinds(store, index, components[..|components| - 1], kind);
    }
  }

  /**
   * One component of a kind, at a slot at or past the end of its storage: the
   * storage keeps its slots, gains `None` up to the slot and the component in
   * it, and ends with length `index + 1`.
   */
  lemma CommitSingle(store: seq<Slot>, index: nat, before: seq<Component>, c: Component, after: seq<Component>, kind: Kind)
    requires |store| <= index
    requires KindOf(c) == Some(kind)
    requires NoneOfKind(before, kind) && NoneOfKind(after, kind)
    ensures Commit(store, index, before + [c] + after, kind) == store + Nones(index - |store|) + [Some(c)]
    ensures |Commit(store, index, before + [c] + after, kind)| == index + 1
  {
    CommitIgnoresOtherKinds(store, index, before, kind);
    assert (before + [c])[..|before|] == before;
    var mid := Inserted(index, store, c);
    assert Commit(store, index, before + [c], kind) == mid;
    assert mid == store + Nones(index - |store|) + [Some(c)];
    CommitAppendOtherKinds(store, index, before + [c], after, kind);
  }

  lemma {:induction false} CommitAppendOtherKinds(store: seq<Slot>, index: nat, prefix: seq<Component>, suffix: seq<Component>, kind: Kind)
    requires NoneOfKind(suffix, kind)
    ensures Commit(store, index, prefix + suffix, kind) == Commit(store, index, prefix, kind)
    decreases |suffix|
  {
    if suffix != [] {
      var shorter := suffix[..|suffix| - 1];
      var all := prefix + suffix;
      assert all[..|all| - 1] == prefix + shorter;
      assert all[|all| - 1] == suffix[|suffix| - 1];
      assert KindOf(suffix[|suffix| - 1]) != Some(kind);
      assert Commit(store, index, all, kind) == Commit(store, index, prefix + shorter, kind);
      CommitAppendOtherKinds(store, index, prefix, shorter, kind);
    } else {
      assert prefix + suffix == prefix;
    }
  }
}

/** The unit tests of src/world.rs plus two two-chain scenarios, restated as client methods whose results are proved. */
module WorldScenarios {
  import opened Wrappers
  import opened Components
  import opened Worlds

  /** `create_entity_with_single_component`. */
  method CreateEntityWithSingleComponent() returns (positions: seq<Slot>)
    ensures positions == [Some(Position(1.0, 0.0))]
  {
    var world := new World();
    var builder := world.CreateEntity();
    builder.WithComponent(Position(1.0, 0.0));
    builder.Build();
    assert builder.components == [Position(1.0, 0.0)];
    positions := world.positions;
  }

  /** `create_entity_with_multiple_components_with_aligned_storage`: both land in slot 0. */
  method AlignedStorage() returns (velocities: seq<Slot>, positions: seq<Slot>)
    ensures velocities == [Some(Velocity(2.0, 0.0))]
    ensures positions == [Some(Position(5.0, 0.0))]
  {
    var world := new World();
    var builder := world.CreateEntity();
    builder.WithComponent(Velocity(2.0, 0.0));
    builder.WithComponent(Position(5.0, 0.0));
    builder.Build();
    assert builder.index == 0;
    assert builder.components == [Velocity(2.0, 0.0)] + [Position(5.0, 0.0)] + [];
    CommitSingle([], 0, [], Velocity(2.0, 0.0), [Position(5.0, 0.0)], VelocityKind);
    CommitSingle([], 0, [Velocity(2.0, 0.0)], Position(5.0, 0.0), [], PositionKind);
    velocities, positions := world.velocities, world.positions;
  }

  /**
   * `create_entity_with_multiple_components_with_unaligned_storage`: with one
   * position already stored, the new entity takes slot 1 in both storages and
   * the velocity storage is padded with `None`.
   */
  method UnalignedStorage() returns (velocities: seq<Slot>, positions: seq<Slot>)
    ensures velocities == [None, Some(Velocity(2.0, 0.0))]
    ensures positions == [Some(Position(10.0, 10.0)), Some(Position(5.0, 0.0))]
  {
    var world := new World();
    world.positions := world.positions + [Some(Position(10.0, 10.0))];
    var builder := world.CreateEntity();
    builder.WithComponent(Velocity(2.0, 0.0));
    builder.WithComponent(Position(5.0, 0.0));
    builder.Build();
    assert builder.index == 1;
    assert builder.components == [Velocity(2.0, 0.0)] + [Position(5.0, 0.0)] + [];
    CommitSingle([], 1, [], Velocity(2.0, 0.0), [Position(5.0, 0.0)], VelocityKind);
    CommitSingle([Some(Position(10.0, 10.0))], 1, [Velocity(2.0, 0.0)], Position(5.0, 0.0), [], PositionKind);
    velocities, positions := world.velocities, world.positions;
  }

  /**
   * Two chains: entity A with only a Velocity, then entity B with a Position
   * and a Velocity. B lands in slot 1 of both storages, so the position
   * storage has no component in slot 0.
   */
  method TwoChains() returns (velocities: seq<Slot>, positions: seq<Slot>)
    ensures velocities == [Some(Velocity(1.0, 1.0)), Some(Velocity(2.0, 2.0))]
    ensures positions == [None, Some(Position(3.0, 3.0))]
  {
    var world := new World();
    var first := world.CreateEntity();
    first.WithComponent(Velocity(1.0, 1.0));
    first.Build();
    assert first.components == [] + [Velocity(1.0, 1.0)] + [];
    CommitSingle([], 0, [], Velocity(1.0, 1.0), [], VelocityKind);
    CommitIgnoresOtherKinds([], 0, first.components, PositionKind);
    assert world.velocities == [Some(Velocity(1.0, 1.0))] && world.positions == [];
    var second := world.CreateEntity();
    second.WithComponent(Position(3.0, 3.0));
    second.WithComponent(Velocity(2.0, 2.0));
    assert second.index == 1;
    second.Build();
    assert second.components == [Position(3.0, 3.0)] + [Velocity(2.0, 2.0)] + [];
    CommitSingle([], 1, [], Position(3.0, 3.0), [Velocity(2.0, 2.0)], PositionKind);
    CommitSingle([Some(Velocity(1.0, 1.0))], 1, [Position(3.0, 3.0)], Velocity(2.0, 2.0), [], VelocityKind);
    velocities, positions := world.velocities, world.positions;
  }

  /**
   * The slot is aligned only within one chain: entity A with only a Velocity,
   * then entity B with only a Position, both take slot 0, so B's position sits
   * beside A's velocity.
   */
  method SeparateChainsShareSlot() returns (velocities: seq<Slot>, positions: seq<Slot>)
    ensures velocities == [Some(Velocity(1.0, 1.0))]
    ensures positions == [Some(Position(3.0, 3.0))]
  {
    var world := new World();
    var first := world.CreateEntity();
    first.WithComponent(Velocity(1.0, 1.0));
    first.Build();
    assert first.components == [Velocity(1.0, 1.0)];
    var second := world.CreateEntity();
    second.WithComponent(Position(3.0, 3.0));
    second.Build();
    assert second.components == [Position(3.0, 3.0)];
    velocities, positions := world.velocities, world.positions;
  }
}
