# Dice rolls and probability mass functions

A model, in Dafny, of the two in-memory containers of a small Rust library for
dice-roll distributions:

- **`Roll`** (`src/dice.rs`): an append-only builder for a set of dice. It keeps
  two parallel vectors, the number of dice in each group (`num_dice`) and the
  number of sides of that group's dice (`num_sides`), and a running `i32`
  modifier. `RollIterator` walks the dice one by one with two cursors
  (`group_ptr`, `die_ptr`) and yields each die's number of sides;
  `total_num_sides` sums what the iterator yields.
- **`ProbabilityMassFunction`** (`src/distributions.rs`): parallel `values` and
  `probabilities` vectors, an append operation, a length that checks the two
  vectors agree, and an iterator that walks one cursor `ptr` and yields
  `(value, probability)` pairs.

Both are classes whose methods update their fields in place, as the Rust
structs do; each iterator is a class holding a reference to its container and
its cursor fields. A Rust panic (an out-of-bounds index, a failed `assert_eq!`)
becomes a precondition of the method that would panic. Integer overflow panics
only in builds with overflow checks on (the debug profile) and wraps around in
release builds; the model excludes it in both through preconditions and does
not model the release wrap-around.
`u32`, `i32` and `u64` are subset types of the unbounded integers
(`ints.dfy`); `Option` is in `wrappers.dfy`.

What `next` does is also given as a function of the old cursor (`Dice.Advance`,
`Distributions.Step`); each `Next` method ensures that its result and new
cursor are exactly that function's, and the iteration properties are lemmas
about the function:

- on a roll with at least one group and no empty group after the first
  (`Dice.Enumerable`), the dice yielded from a fresh iterator until `None` are
  exactly `num_sides[g]` repeated `num_dice[g]` times for g = 0, 1, ... in
  order (`Dice.Flatten`); the cursors stay in bounds throughout, and the call
  that returns `None` leaves `group_ptr` past the last group, so one more call
  would index out of bounds;
- `total_num_sides` returns the sum over groups of `num_dice[g] * num_sides[g]`;
- a PMF iterator yields the entries in index order, exactly `len()` of them, and
  `None` on every later call, without moving its cursor.

A group with no dice that comes after the first group is not skipped by the
code: the iterator moves onto it and yields its side count without looking at
its count, and after that `die_ptr` has passed the group's count, so every later
call yields the same side count again (until `die_ptr` overflows: a panic in
debug builds; in release builds it wraps and can end the group, which the
model does not follow).
`Dice.ZeroCountGroupRepeats` states this for every roll and
`Dice.ZeroCountGroupIsNotSkipped` shows it on the roll [(1, 6), (0, 4)]. An
empty FIRST group is skipped correctly, because the first call looks at its
count before yielding. This is why the iteration lemmas require `Enumerable`
and not "every count positive".

## Model

| member | source | states |
|---|---|---|
| `Dice.Roll.constructor` | src/dice.rs:12-18 | a new roll has no groups (both vectors empty) and modifier 0 |
| `Dice.Roll.AddD` | src/dice.rs:21-25 | appends `n` to the counts and `s` to the side counts, so the vectors stay parallel; earlier groups and the modifier are unchanged |
| `Dice.Roll.AddModifier` | src/dice.rs:28-31 | the modifier becomes old modifier + `m` (no `i32` overflow allowed); the groups are unchanged; the argument is recorded in the modifier history |
| `Dice.Roll.GetModifier` | src/dice.rs:49-51 | the modifier equals 0 plus the sum of every argument ever passed to `AddModifier` |
| `Dice.Roll.Iter` | src/dice.rs:36-38 | returns a fresh iterator over this roll with both cursors at 0 |
| `Dice.RollIterator.constructor` | src/dice.rs:61-67 | the iterator refers to the given roll and starts with `group_ptr` and `die_ptr` at 0 |
| `Dice.Roll.TotalNumSides` | src/dice.rs:41-47 | summing what the iterator yields gives the sum over groups of count times sides, on an enumerable roll whose total fits in `u32` |
| `Dice.RollIterator.Next` | src/dice.rs:73-89 | callable only when the vectors are parallel, `group_ptr` is in bounds and `die_ptr` will not overflow; the result and new cursors are those of one step; `None` exactly when `group_ptr` ends past the last group; on an enumerable roll from a live cursor it yields the next flattened die and keeps the cursor live, or returns `None` once all dice are out |
| `Dice.Advance` | src/dice.rs:76-88 | one step of `next`: the new `group_ptr` never passes one beyond the last group, and the result is `None` exactly when it gets there |
| `Dice.AdvanceYieldsFlatten` | src/dice.rs:76-88 | on an enumerable roll, from a live cursor at flattened position k: if k is below the number of dice, the step yields the k-th flattened die and moves to position k+1 with `group_ptr < len` and `die_ptr <= num_dice[group_ptr]`; otherwise it yields `None` with `group_ptr == len` |
| `Dice.Drain` | src/dice.rs:73-89 | the side counts yielded from a live cursor until `None`, on an enumerable roll, are exactly the rest of the flattening from the cursor's position |
| `Dice.DrainFromStart` | src/dice.rs:33-38 | a fresh iterator over an enumerable roll yields exactly `num_sides[g]` repeated `num_dice[g]` times, g in order, then `None` |
| `Dice.FlattenAt` | src/dice.rs:33-35 | die `d` of group `g` comes after all dice of earlier groups in the iteration order and has `num_sides[g]` sides |
| `Dice.FlattenLength` | src/dice.rs:33-35 | the iteration order has one entry per die: its length is the sum of the counts |
| `Dice.SumFlatten` | src/dice.rs:40-47 | the sum of the side counts over all individual dice equals the sum over groups of `num_dice[g] * num_sides[g]` |
| `Dice.ZeroCountGroupRepeats` | src/dice.rs:76-85 | a group with count 0 after the first is entered and yields its side count, and from then on every call yields it again with `die_ptr` growing |
| `Dice.ZeroCountGroupIsNotSkipped` | src/dice.rs:76-85 | on the roll [(1, 6), (0, 4)] the first three calls of `next` yield 6, 4 and 4 |
| `Distributions.ProbabilityMassFunction.WithCapacity` | src/distributions.rs:12-17 | a new PMF has no values and no probabilities, whatever the capacity |
| `Distributions.ProbabilityMassFunction.Push` | src/distributions.rs:19-22 | appends the value and the probability, one entry each; earlier entries are unchanged; equal lengths stay equal |
| `Distributions.ProbabilityMassFunction.Len` | src/distributions.rs:28-31 | callable only when the two vectors have equal length; returns that common length |
| `Distributions.ProbabilityMassFunction.Iter` | src/distributions.rs:24-26 | returns a fresh iterator over this PMF with `ptr` at 0 |
| `Distributions.ProbabilityMassFunctionIterator.constructor` | src/distributions.rs:40-45 | the iterator refers to the given PMF and starts with `ptr` at 0 |
| `Distributions.ProbabilityMassFunctionIterator.Next` | src/distributions.rs:54-62 | its result and new `ptr` are those of one step; a `ptr` within `len()` stays within `len()` |
| `Distributions.Step` | src/distributions.rs:55-61 | one step never moves `ptr` past `len()`, and returning `None` leaves `ptr` unchanged |
| `Distributions.OutputsInOrder` | src/distributions.rs:54-62 | `n` calls from `ptr` return the pairs `(values[i], probabilities[i])` for i = ptr, ptr+1, ... in index order, and `None` for every call after the last entry |
| `Distributions.YieldsExactlyLen` | src/distributions.rs:55-57 | a fresh traversal yields exactly `len()` pairs, all entries in index order, and then `None` |

## Findings

| source | as written | input that shows it | evidently intended | confidence | as-written member | corrected member |
|---|---|---|---|---|---|---|
| src/dice.rs:76-85 | after moving to the next group, `next` yields that group's side count without checking its count, and `die_ptr` then stays above the count, so the group is yielded on every later call | the roll [(1, 6), (0, 4)] yields 6, 4, 4, ... and never `None` | by the doc comment at src/dice.rs:33-35, one entry per individual die, so an empty group yields nothing | not executed | `Dice.ZeroCountGroupRepeats`, `Dice.ZeroCountGroupIsNotSkipped` | `Dice.Flatten` with `Dice.FlattenLength` and `Dice.FlattenAt` (one entry per die), and `Dice.DrainFromStart` (the code agrees with it on every roll without an empty group after the first) |

## Left out

- `roll_distribution` (src/distributions.rs:1-3): it returns an empty vector; its tests expect a uniform distribution that this code does not produce, so no distribution is modelled.
- Floating point: probabilities are an arbitrary type `P`; the code never computes on them.
- Vector capacities (`with_capacity`, `ROLL_DEFAULT_CAPACITY`): allocation hints with no observable effect; `WithCapacity` takes and ignores the argument.
- Builder chaining: `add_d` and `add_modifier` return `&mut Self` in Rust; here they return nothing, as the returned reference is only the receiver again.
- Lifetimes and the `Iterator` trait: each iterator is a class with an explicit `Next` method; Rust's `for` loop in `total_num_sides` is a `while` loop calling `Next` until `None`.
- Integer overflow: the `i32` addition in `add_modifier`, the `u32` additions in `total_num_sides` and the `u32` increment of `die_ptr` panic on overflow in debug builds and wrap around in release builds; the model rules out both through preconditions and does not model release wrap-around. The `usize` increments of `group_ptr` and `ptr` cannot overflow, as both stay at most one past a vector's length.
- Dice.Roll.TotalNumSides: requires an enumerable roll. On an empty roll the Rust code panics on its first `next`. On a roll with an empty group after the first it keeps yielding that group's side count until an addition overflows: in debug builds that panics, so no result exists; in release builds the additions wrap (on [(1, 6), (0, 0)] `die_ptr` wraps back to the count 0, the iterator moves on and the result is 6), and the model does not state those wrapped results.
- The iterators hold a Rust shared borrow, which keeps the container unchanged while they live; here the container is a separate object that `Next` does not modify, and the iteration lemmas are stated over the container's contents.
