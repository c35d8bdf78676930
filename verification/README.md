# hikari ECS core, modelled in Dafny

hikari is a small entity-component store. An entity is an integer index.
A component is a value: Position, Velocity, KeysPressed, Commands, or the
sentinel Empty. Components of one kind live in a storage. A system updates
a dependent component from an independent component at the same index.
This project models the store's core and proves what it promises:

- `util.dfy`: the `BitVector` flag set, a `u64` modelled as `bv64`, with
  `new`, `is_set`, `set`, `unset` and `From<u64>`.
- `input.dfy`: the `Keys` and `Command` enumerations and the bit each one
  occupies.
- `component.dfy`: the one `Component` type that the snapshots together use.
  `time.dfy` holds the `Duration` the systems receive.
- `slice_iter.dfy`: the `std::slice::IterMut` cursor that both sequence
  storages iterate with.
- `storage.dfy`: the first `SequenceStorage`, from `src/storage.rs`.
- `storage_sequence.dfy`: the dense `SequenceStorage` and its indexed
  iterator `SequenceStorageIter`.
- `storage_map.dfy`: the sparse `MapStorage`.
- `world.dfy`: `World`, `EntityBuilder` and the free function `insert`,
  plus the file's unit tests and two two-chain scenarios as verified client
  methods (`WorldScenarios`).
- `system_join.dfy`: `Join`, which zips two component vectors and keeps the
  pairs where neither side is Empty.
- `system_command.dfy`, `system_keys.dfy`, `system_movement.dfy`: the
  per-pair `update` of each system.

Objects that the source updates in place are classes: the storages, the
sequence iterators, `World` and `EntityBuilder`. The map storage's
iterator is the exception: it is returned as one sequence. Their methods state the whole new
state. Each system's `update` changes a `&mut Component` in place. It is
modelled as a method that takes the dependent component and returns the
updated one. The method is proved equal to a `Step` function, and lemmas
about `Step` state what the system promises.

The model follows the code in these places, where a reader might expect otherwise:

- `SequenceStorage::add` only pushes. It takes no index and back-fills
  nothing. Back-filling exists only in `world.rs`'s `insert`. There it
  pads with `None` (an absent `Option`), not with `Empty`.
- `insert` at an index below the vector's length calls `Vec::insert`. That
  shifts later slots right; it does not overwrite. So two Positions in one
  chain both land at the slot, and the later one goes first.
- A bit position of 64 or more is not reported as an error. `1 << bit`
  overflows on `u64`, so every bit operation requires `bit < 64`.
- The `World` in `world.rs` holds only `positions` and `velocities`. It has
  no keys or commands storage, no `player_id` and no `make_player`.

## Model

| member | source | states |
|---|---|---|
| `Util.New` | src/util.rs:6-8 | a fresh bit vector has no bit set |
| `Util.NewIsFromZero` | src/util.rs:34-36 | `new()` equals `BitVector::from(0)` |
| `Util.From` | src/util.rs:23-27 | the vector's backing integer is exactly the value given |
| `Util.FromRoundTrip` | src/util.rs:23-27 | `from(v)` holds `v`; converting a vector's own integer gives the vector back; `from(v) == w` exactly when `w` holds `v` |
| `Util.BitVector.IsSet` | src/util.rs:10-12 | a set bit means the backing integer is not zero, and the all-ones vector has every bit set |
| `Util.IsSetReadsBit` | src/util.rs:10-12 | for every integer `v` and bit `b` below 64, `from(v).is_set(b)` (with `from` at src/util.rs:23-27) holds exactly when `v` shifted right by `b` has 1 as its lowest bit |
| `Util.BitVector.Set` | src/util.rs:14-16 | after `set(b)`, bit `b` is set |
| `Util.BitVector.Unset` | src/util.rs:18-20 | after `unset(b)`, bit `b` is clear |
| `Util.SetFrame` | src/util.rs:14-16 | `set(b)` turns bit `b` on and leaves each of the other 63 bits as it was |
| `Util.UnsetFrame` | src/util.rs:18-20 | `unset(b)` turns bit `b` off and leaves each of the other 63 bits as it was |
| `Util.SetUnsetIdempotent` | src/util.rs:14-20 | setting a bit twice equals setting it once; the same holds for unsetting |
| `Util.SetThenUnsetRestores` | src/util.rs:14-20 | `unset(b)` after `set(b)` on a clear bit restores the vector; `set(b)` after `unset(b)` on a set bit restores it |
| `Util.CheckSetBits` | src/util.rs:39-45 | 0b1101 has bits 0, 2 and 3 set and bit 1 clear |
| `Util.SetBitsExample` | src/util.rs:48-58 | 0 has bits 0, 1 and 2 clear; setting bit 1 gives 0b10: bit 1 set, bits 0 and 2 clear |
| `Util.UnsetBitsExample` | src/util.rs:61-71 | 0b110 has bit 0 clear and bits 1 and 2 set; unsetting bit 1 gives 0b100: bit 2 still set, bits 0 and 1 clear |
| `Input.Key.Ordinal` | src/input.rs:1-14 | each key's discriminant (Escape 0, W 1, S 2, A 3, D 4) is a valid bit position |
| `Input.Command.Ordinal` | src/command.rs:3-12 | Quit's discriminant 0 is a valid bit position |
| `Input.KeyOrdinalsDistinct` | src/input.rs:2-8 | distinct keys occupy distinct bits |
| `SliceIter.SliceIterMut.constructor` | src/storage.rs:45-47 | `iter_mut()` starts before the first element |
| `SliceIter.SliceIterMut.Next` | src/storage.rs:41-48 | `next` yields the element under the cursor and steps on, or yields `None` at the end |
| `LegacyStorage.SequenceStorage.constructor` | src/storage.rs:18-20 | `new()` holds no components |
| `LegacyStorage.SequenceStorage.Add` | src/storage.rs:22-24 | `add(c)` appends `c` at the old length; `get` of every earlier slot is unchanged |
| `LegacyStorage.SequenceStorage.Get` | src/storage.rs:27-31 | `get(i)` is `Some(items[i])` exactly when `i` is below the length, else `None` |
| `LegacyStorage.SequenceStorage.GetMutAssign` | src/storage.rs:33-39 | `get_mut(i)` yields a reference exactly where `get(i)` is `Some`; writing through it changes only slot `i` |
| `LegacyStorage.SequenceStorage.IntoIter` | src/storage.rs:41-48 | `into_iter` is a fresh cursor over the slots, at the first slot |
| `LegacyStorage.IterateAll` | src/storage.rs:41-48 | driving `into_iter` to the end yields exactly the components, in index order, one per slot, with no indices |
| `SequenceStore.SequenceStorage.constructor` | src/storage/sequence.rs:9-11 | `new()` has length 0 |
| `SequenceStore.SequenceStorage.Add` | src/storage/sequence.rs:13-15 | `add(c)` grows the length by one, makes `get(old_len)` equal `Some(c)`, and leaves earlier slots unchanged |
| `SequenceStore.SequenceStorage.Get` | src/storage/sequence.rs:18-22 | `get(i)` is `Some(items[i])` exactly when `i` is below the length, else `None` |
| `SequenceStore.SequenceStorage.GetMutAssign` | src/storage/sequence.rs:24-28 | `get_mut(i)` has the same domain as `get(i)`; writing through it changes only slot `i` |
| `SequenceStore.SequenceStorage.IntoIter` | src/storage/sequence.rs:30-37 | `into_iter` is an iterator whose counter starts at 0 over all the slots |
| `SequenceStore.SequenceStorageIter.constructor` | src/storage/sequence.rs:35 | the iterator pairs counter 0 with a fresh slice cursor |
| `SequenceStore.SequenceStorageIter.Next` | src/storage/sequence.rs:41-52 | `next` yields `(counter, items[counter])` and adds one to the counter; past the end it yields `None` and the counter stays. The counter always equals the number of items yielded |
| `SequenceStore.IterateAll` | src/storage/sequence.rs:30-52 | driving the iterator to the end yields `(i, items[i])` for `i = 0 .. len-1`, in ascending order |
| `SequenceStore.IteratorYieldsIndexAndComponent` | src/storage/sequence.rs:58-68 | two Empty slots yield `(0, Empty)`, then `(1, Empty)`, then `None` |
| `MapStore.MapStorage.constructor` | src/storage/map.rs:10-12 | `new()` is empty: `get(i)` is `None` for every `i` |
| `MapStore.MapStorage.Add` | src/storage/map.rs:14-16 | after `add(i, c)`, `get(i)` is `Some(c)` whatever was there before (upsert); `get(j)` is unchanged for every `j != i` |
| `MapStore.MapStorage.Get` | src/storage/map.rs:19-23 | `get(i)` is `Some` exactly for an index that was added, and then holds its component; an absent index is `None`, never `Empty` |
| `MapStore.MapStorage.GetMutAssign` | src/storage/map.rs:25-29 | `get_mut(i)` yields a reference exactly where `get(i)` is `Some`; writing through it changes only key `i` |
| `MapStore.MapStorage.IntoIter` | src/storage/map.rs:31-38 | iteration visits each stored index exactly once with its current component, in an unspecified order |
| `Worlds.World.constructor` | src/world.rs:9-14 | `World::new()` has empty `positions` and `velocities` |
| `Worlds.World.CreateEntity` | src/world.rs:16-18 | `create_entity` returns a builder bound to this world, at index 0 with nothing pending |
| `Worlds.EntityBuilder.constructor` | src/world.rs:28-34 | a fresh builder has index 0 and no pending components |
| `Worlds.KindOf` | src/world.rs:37-41 | only Position and Velocity components have a storage in the world |
| `Worlds.EntityBuilder.WithComponent` | src/world.rs:36-45 | `with_component` appends the component and never lowers the index. A Position (resp. Velocity) raises it to at least the length of `positions` (resp. `velocities`). Empty leaves it unchanged. The builder's invariant is kept: its index is at or past the end of every storage its components go into |
| `Worlds.Inserted` | src/world.rs:58-69 | after `insert(i, s, c)`: `Some(c)` is at `i`; the slots below `i` are kept; `None` fills the gap from the old length up to `i`; the slots from `i` on move one place right. The length is `max(i, len) + 1` |
| `Worlds.Insert` | src/world.rs:58-69 | the padding loop followed by `Vec::insert` produces exactly `Inserted(i, s, c)` |
| `Worlds.EntityBuilder.Build` | src/world.rs:47-55 | `build` inserts each pending Position and Velocity, in order, at the builder's index, and drops every other component. Every slot already in a storage keeps its component |
| `Worlds.CommitKeepsSlots` | src/world.rs:47-55 | inserting only at or past a storage's end never disturbs a slot that was already there |
| `Worlds.CommitIgnoresOtherKinds` | src/world.rs:47-55 | components without a storage of the given kind (Empty among them) leave that storage unchanged |
| `Worlds.CommitSingle` | src/world.rs:47-69 | take a chain with one component of a kind, at an index at or past that storage's end. The storage becomes its old slots, then `None` up to the index, then the component. Its length is `index + 1` |
| `WorldScenarios.CreateEntityWithSingleComponent` | src/world.rs:75-80 | one Position builds `positions == [Some(Position(1, 0))]` |
| `WorldScenarios.AlignedStorage` | src/world.rs:82-92 | a Velocity and a Position built into empty storages both land at index 0 |
| `WorldScenarios.UnalignedStorage` | src/world.rs:94-107 | with one position stored, building Velocity+Position gives `velocities == [None, Some(v)]` and `positions == [p0, Some(p)]` |
| `WorldScenarios.TwoChains` | src/world.rs:36-55 | entity A with only a Velocity, then B with a Position and a Velocity: both storages reach length 2, and `positions[0]` is `None` |
| `WorldScenarios.SeparateChainsShareSlot` | src/world.rs:36-55 | alignment holds only within one chain: A's velocity and a later B's position both take slot 0 |
| `Join.Zip` | src/system/mod.rs:15 | the zip pairs `(a[i], b[i])` slot by slot, as long as the shorter vector |
| `Join.Join` | src/system/mod.rs:14-18 | every joined pair is one of the zipped pairs with both sides non-Empty, and there are at most as many as the shorter vector has slots |
| `Join.JoinSpec` | src/system/mod.rs:14-18 | `join` is the pairs `(a[i], b[i])` at strictly ascending slots `i`. The slots are exactly those below both lengths where neither side is Empty. So the result is a subsequence of the zipped pairs, in slot order, and it holds the components unchanged |
| `Join.JoinBounds` | src/system/mod.rs:15-16 | every joined pair has both sides non-Empty; the result is no longer than the shorter vector |
| `Join.JoinCount` | src/system/mod.rs:14-18 | the number of joined pairs equals the number of slots where both sides are present and non-Empty |
| `Join.JoinEmptyCollections` | src/system/mod.rs:26-28 | joining two empty vectors gives an empty result |
| `Join.JoinSkipsEmptyAndUnpaired` | src/system/mod.rs:15-17 | `[Empty, P1, P2]` joined with `[V0, V1]` gives only `(P1, V1)` |
| `CommandSystem.Update` | src/system/command.rs:11-16 | `update` changes the dependent component as `Step` says and ignores the delta |
| `CommandSystem.StepCommands` | src/system/command.rs:12-15 | for `(Commands(c), KeysPressed(k))`, the result is still Commands. Its Quit bit is set exactly when it was set before or Escape is set in `k`. Every other command bit is unchanged |
| `CommandSystem.EscapeClearLeavesCommands` | src/system/command.rs:13 | with Escape clear, `c` is unchanged |
| `CommandSystem.MismatchIsNoOp` | src/system/command.rs:12 | any other pair of variants leaves the dependent component unchanged |
| `CommandSystem.StepIdempotent` | src/system/command.rs:11-16 | running the update twice against the same keys equals running it once |
| `CommandSystem.EscapeSetsQuit` | src/system/command.rs:12-15 | Commands(0) with Escape pressed becomes Commands with Quit; with no key pressed it stays Commands(0) |
| `KeysSystem.Pressed` | src/system/keys.rs:12 | a key contributes 1 or 0, and 1 exactly when its bit is set in the key state |
| `KeysSystem.Update` | src/system/keys.rs:10-19 | the four conditional steps, in the order W, S, A, D, give `Velocity(x + [D] - [A], y + [W] - [S])` on a (Velocity, KeysPressed) pair. The delta is ignored |
| `KeysSystem.OnlyMovementKeysMatter` | src/system/keys.rs:11-17 | two key states that agree on W, S, A and D give the same result |
| `KeysSystem.EscapeIgnored` | src/system/keys.rs:12-17 | pressing Escape does not change the velocity |
| `KeysSystem.MismatchIsNoOp` | src/system/keys.rs:11 | any other pair of variants leaves the dependent component unchanged |
| `KeysSystem.NoKeysPressed` | src/system/keys.rs:27-33 | with no keys pressed, Velocity(1, 0) is unchanged |
| `KeysSystem.NoKeysNoChange` | src/system/keys.rs:27-33 | with no keys pressed, every velocity is unchanged |
| `KeysSystem.KeyWPressed` | src/system/keys.rs:36-42 | with only W pressed, Velocity(1, 0) becomes Velocity(1, 1) |
| `KeysSystem.KeysWAndDPressed` | src/system/keys.rs:45-52 | with W and D pressed, Velocity(1, 0) becomes Velocity(2, 1) |
| `Time.AsSecs` | src/system/movement.rs:11-12 | `as_secs` is the whole seconds: never more than the exact duration, and for a well-formed duration less than one second short of it |
| `MovementSystem.Update` | src/system/movement.rs:9-14 | `update` moves a Position by its Velocity times `delta.as_secs()`; any other pair is left unchanged |
| `MovementSystem.PositionIsUpdated` | src/system/movement.rs:22-31 | Position(2, 2) with Velocity(1, 1) over 3 s becomes Position(5, 5) |
| `MovementSystem.SubSecondFramesDoNotMove` | src/system/movement.rs:11-12 | as written, two half-second frames leave a position where it was, while one whole second moves it |
| `MovementSystem.ExactStepAdditive` | src/system/movement.rs:11-12 | the corrected step, scaled by the exact elapsed time, is additive: two frames in turn equal one frame of their total time |
| `MovementSystem.WholeSecondsAgree` | src/system/movement.rs:11-12 | on whole-second deltas, the step as written and the corrected step agree |

## Left out

- src/app/run.rs (the fixed-tick loop): clocks, sleeping and `f32`
  frame-interval arithmetic. The systems receive the delta as a parameter.
- src/app/mod.rs (the driver that runs the systems and checks the player's
  Quit bit): it uses `world.commands`, `world.keys` and `player_id()`.
  src/world.rs does not have these.
- The generic `System` trait and its `run` driver: they are not part of
  this model. The join filter in src/system/mod.rs is modelled instead.
- src/main.rs: it declares the `winit` crate, builds one entity through
  the builder and hands the world to `App::new(world).run()`.
- Util.BitVector.Set and Util.BitVector.Unset: the source updates
  `self.0` in place through `&mut self`. Here they return the updated
  value, because a `BitVector` is a `Copy` value held inside a
  `Component`. No aliasing of it can be observed.
- Bit positions of 64 or more: a debug build panics and a release build
  masks the shift amount. Neither is modelled; the operations require
  `bit < 64`.
- `f64` coordinates are `real`: rounding, infinities and NaN are not
  modelled.
- `usize` indices are `nat`: overflow is not modelled.
- References and lifetimes. `join` returns pairs of component values, not
  references. The iterators yield values. `GetMutAssign` stands for
  `get_mut` followed by a write through the reference it returns.
- `reserve` in `insert`: it changes only capacity, which cannot be
  observed.
- `HashMap` iteration order: modelled as an arbitrary choice of the next
  key.
- MapStore.MapStorage.IntoIter: the source returns a `hash_map::IterMut`
  that the caller steps through in place. The model returns the whole
  visit as one sequence of (key, component) pairs, so it has no stepping
  object, no partly consumed state and no writes through the yielded
  references.
- KeysPressed and Commands passed to `with_component`: src/main.rs does
  this, but the match in src/world.rs has arms only for Empty, Position and
  Velocity. The model treats them like Empty: they leave the index alone
  and are never inserted, because the shown `World` has no storage for them.
- src/system/mod.rs redefines `Component` with only `Empty`. src/command.rs
  imports a `BitVectorStorage` that src/util.rs does not define.
  src/system/keys.rs passes a `Keys` where `is_set` takes a `u64`. The model
  uses the one `Component` type and each flag's discriminant as its bit.

## Findings

| source | as written | input that shows it | evidently intended | confidence | as-written member | corrected member |
|---|---|---|---|---|---|---|
| src/system/movement.rs:11-12 | the displacement is `vel * delta.as_secs()`, so the fractional part of the delta is dropped | two frames of 0.5 s each (at 60 ticks per second every delta is about 16 ms): the position never moves | scale by the exact elapsed time, fraction included | medium, not executed | `MovementSystem.SubSecondFramesDoNotMove` | `MovementSystem.ExactStepAdditive` |

`MovementSystem.Update` models the code as written. `MovementSystem.ExactStep`
is the corrected step. On whole-second deltas the two agree
(`MovementSystem.WholeSecondsAgree`).
