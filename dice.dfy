/** A set of dice being rolled: groups of (number of dice, number of sides) added
    one at a time, a constant modifier, and an iterator that walks the dice one
    by one, giving the number of sides of each. */
module Dice {
  import opened Wrappers
  import opened Ints

  // ---------------------------------------------------------------------------
  // Specification functions over the two parallel vectors
  // ---------------------------------------------------------------------------

  /** Sum of a sequence, peeled from the back. Kept apart from `SumInts`
      because its `nat` result is what cursor positions, lengths and the
      `u32` bound on `total_num_sides` are measured in. */
  function Sum(s: seq<nat>): nat
  {
    if s == [] then 0 else Sum(s[..|s| - 1]) + s[|s| - 1]
  }

  /** Sum of a sequence of signed integers, peeled from the back: the
      `add_modifier` arguments may be negative. */
  function SumInts(s: seq<int>): int
  {
    if s == [] then 0 else SumInts(s[..|s| - 1]) + s[|s| - 1]
  }

  /** `n` copies of `x`: the dice of one group. */
  function Repeat(x: U32, n: nat): seq<U32>
  {
    seq(n, _ => x)
  }

  /** One entry per individual die, in the order the groups were added:
      `numSides[g]` repeated `numDice[g]` times, for g = 0, 1, ... */
  function Flatten(numDice: seq<U32>, numSides: seq<U32>): seq<U32>
    requires |numDice| == |numSides|
  {
    if numDice == [] then []
    else
      var n := |numDice| - 1;
      Flatten(numDice[..n], numSides[..n]) + Repeat(numSides[n], numDice[n])
  }

  /** The sum over groups of `numDice[g] * numSides[g]`. */
  function SideTotal(numDice: seq<U32>, numSides: seq<U32>): nat
    requires |numDice| == |numSides|
  {
    if numDice == [] then 0
    else
      var n := |numDice| - 1;
      SideTotal(numDice[..n], numSides[..n]) + (numDice[n] as nat) * (numSides[n] as nat)
  }

  /** The rolls on which the iterator walks the dice correctly: at least one
      group (otherwise the first `next` indexes an empty vector), and every
      group after the first holds at least one die (the iterator moves onto a
      new group and yields from it without looking at its count; only the
      first group, which it looks at before yielding, may be empty). */
  predicate Enumerable(numDice: seq<U32>)
  {
    |numDice| > 0 && forall g :: 1 <= g < |numDice| ==> numDice[g] > 0
  }

  // ---------------------------------------------------------------------------
  // The iterator's cursor and one step of `next`
  // ---------------------------------------------------------------------------

  /** The two cursors `group_ptr` and `die_ptr`: the current group and how many
      of its dice have been yielded. */
  datatype Cursor = Cursor(group: nat, die: nat)

  /** A cursor that `next` can be called on without panicking and that has not
      run past its group. */
  predicate Live(numDice: seq<U32>, c: Cursor)
  {
    c.group < |numDice| && c.die <= numDice[c.group]
  }

  /** How many dice lie before the cursor in the flattened order. */
  function Pos(numDice: seq<U32>, c: Cursor): nat
    requires c.group <= |numDice|
  {
    Sum(numDice[..c.group]) + c.die
  }

  /** One call of `next`, as the code does it: move to the next group when the
      current one is used up, then yield the side count of the group the cursor
      is on, or nothing once the groups have run out. */
  function Advance(numDice: seq<U32>, numSides: seq<U32>, c: Cursor): (r: (Option<U32>, Cursor))
    requires |numDice| == |numSides| && c.group < |numDice|
    ensures r.1.group <= |numDice|
    ensures r.0.None? <==> r.1.group == |numDice|
  {
    var d := if c.die == numDice[c.group] then Cursor(c.group + 1, 0) else c;
    if d.group < |numDice| then (Some(numSides[d.group]), Cursor(d.group, d.die + 1))
    else (None, d)
  }

  /** Everything a fresh traversal yields from cursor `c` until `next` returns
      `None`: exactly the rest of the flattened dice. */
  function Drain(numDice: seq<U32>, numSides: seq<U32>, c: Cursor): (r: seq<U32>)
    requires |numDice| == |numSides| && Enumerable(numDice) && Live(numDice, c)
    ensures Pos(numDice, c) <= |Flatten(numDice, numSides)|
    ensures r == Flatten(numDice, numSides)[Pos(numDice, c)..]
    decreases |Flatten(numDice, numSides)| - Pos(numDice, c)
  {
    AdvanceYieldsFlatten(numDice, numSides, c);
    var (x, c') := Advance(numDice, numSides, c);
    match x
    case None => []
    case Some(s) => [s] + Drain(numDice, numSides, c')
  }

  // ---------------------------------------------------------------------------
  // Lemmas
  // ---------------------------------------------------------------------------

  lemma SumStep(s: seq<nat>, k: nat)
    requires k < |s|
    ensures Sum(s[..k + 1]) == Sum(s[..k]) + s[k]
  {
    assert s[..k + 1][..k] == s[..k];
  }

  lemma {:induction false} SumPrefixBounded(s: seq<nat>, k: nat)
    requires k <= |s|
    ensures Sum(s[..k]) <= Sum(s)
  {
    if k < |s| {
      var n := |s| - 1;
      assert s[..n][..k] == s[..k];
      SumPrefixBounded(s[..n], k);
    } else {
      assert s[..k] == s;
    }
  }

  lemma {:induction false} SumConcat(a: seq<nat>, b: seq<nat>)
    ensures Sum(a + b) == Sum(a) + Sum(b)
  {
    if b == [] {
      assert a + b == a;
    } else {
      var n := |b| - 1;
      assert (a + b)[..|a + b| - 1] == a + b[..n];
      SumConcat(a, b[..n]);
    }
  }

  lemma {:induction false} SumRepeat(x: U32, n: nat)
    ensures Sum(Repeat(x, n)) == n * x
  {
    if n > 0 {
      assert Repeat(x, n)[..n - 1] == Repeat(x, n - 1);
      SumRepeat(x, n - 1);
    }
  }

  /** The flattening holds one entry per die. */
  lemma {:induction false} FlattenLength(numDice: seq<U32>, numSides: seq<U32>)
    requires |numDice| == |numSides|
    ensures |Flatten(numDice, numSides)| == Sum(numDice)
  {
    if numDice != [] {
      var n := |numDice| - 1;
      FlattenLength(numDice[..n], numSides[..n]);
    }
  }

  /** Die `d` of group `g` sits right after all dice of the earlier groups, and
      has `numSides[g]` sides. */
  lemma {:induction false} FlattenAt(numDice: seq<U32>, numSides: seq<U32>, g: nat, d: nat)
    requires |numDice| == |numSides| && g < |numDice| && d < numDice[g]
    ensures Sum(numDice[..g]) + d < |Flatten(numDice, numSides)|
    ensures Flatten(numDice, numSides)[Sum(numDice[..g]) + d] == numSides[g]
  {
    var n := |numDice| - 1;
    FlattenLength(numDice[..n], numSides[..n]);
    if g == n {
      assert numDice[..n] == numDice[..g];
    } else {
      assert numDice[..n][..g] == numDice[..g];
      FlattenAt(numDice[..n], numSides[..n], g, d);
    }
  }

  /** Summing the flattened dice gives the sum over groups of count times sides. */
  lemma {:induction false} SumFlatten(numDice: seq<U32>, numSides: seq<U32>)
    requires |numDice| == |numSides|
    ensures Sum(Flatten(numDice, numSides)) == SideTotal(numDice, numSides)
  {
    if numDice != [] {
      var n := |numDice| - 1;
      SumFlatten(numDice[..n], numSides[..n]);
      SumConcat(Flatten(numDice[..n], numSides[..n]), Repeat(numSides[n], numDice[n]));
      SumRepeat(numSides[n], numDice[n]);
    }
  }

  /** On an enumerable roll, one `next` from a live cursor yields the next die of
      the flattening and keeps the cursor live, or, once every die has been
      yielded, returns `None` with `group_ptr` one past the last group. */
  lemma AdvanceYieldsFlatten(numDice: seq<U32>, numSides: seq<U32>, c: Cursor)
    requires |numDice| == |numSides| && Enumerable(numDice) && Live(numDice, c)
    ensures Pos(numDice, c) <= |Flatten(numDice, numSides)|
    ensures var (x, c') := Advance(numDice, numSides, c);
            var k := Pos(numDice, c);
            if k < |Flatten(numDice, numSides)| then
              x == Some(Flatten(numDice, numSides)[k]) && Live(numDice, c') && Pos(numDice, c') == k + 1
            else
              x == None && c'.group == |numDice|
  {
    var g := c.group;
    FlattenLength(numDice, numSides);
    SumStep(numDice, g);
    SumPrefixBounded(numDice, g + 1);
    if c.die < numDice[g] {
      FlattenAt(numDice, numSides, g, c.die);
    } else if g + 1 < |numDice| {
      FlattenAt(numDice, numSides, g + 1, 0);
    } else {
      assert numDice[..g + 1] == numDice;
    }
  }

  /** A fresh traversal of an enumerable roll yields exactly the flattening. */
  lemma DrainFromStart(numDice: seq<U32>, numSides: seq<U32>)
    requires |numDice| == |numSides| && Enumerable(numDice)
    ensures Drain(numDice, numSides, Cursor(0, 0)) == Flatten(numDice, numSides)
  {
  }

  /** A group with no dice after the first is not skipped: arriving on it
      yields its side count, and every later call yields it again. */
  lemma ZeroCountGroupRepeats(numDice: seq<U32>, numSides: seq<U32>, g: nat, k: nat)
    requires |numDice| == |numSides| && 1 <= g < |numDice| && numDice[g] == 0
    ensures Advance(numDice, numSides, Cursor(g - 1, numDice[g - 1])) == (Some(numSides[g]), Cursor(g, 1))
    ensures Advance(numDice, numSides, Cursor(g, k + 1)) == (Some(numSides[g]), Cursor(g, k + 2))
  {
  }

  // ---------------------------------------------------------------------------
  // The Roll builder
  // ---------------------------------------------------------------------------

  class Roll {
    var numDice: seq<U32>
    var numSides: seq<U32>
    var modifier: I32
    /** Every argument passed to `AddModifier` so far, oldest first. */
    ghost var modifierArgs: seq<I32>

    /** The two vectors are parallel: what `next` asserts. */
    predicate Parallel()
      reads this
    {
      |numDice| == |numSides|
    }

    ghost predicate Valid()
      reads this
    {
      Parallel() && modifier == SumInts(modifierArgs)
    }

    /** A roll with no groups and modifier 0. */
    constructor ()
      ensures Valid()
      ensures numDice == [] && numSides == [] && modifier == 0 && modifierArgs == []
    {
      numDice := [];
      numSides := [];
      modifier := 0;
      modifierArgs := [];
    }

    /** Adds a group of `n` dice with `s` sides each. */
    method AddD(n: U32, s: U32)
      requires Valid()
      modifies this
      ensures Valid()
      ensures numDice == old(numDice) + [n] && numSides == old(numSides) + [s]
      ensures modifier == old(modifier) && modifierArgs == old(modifierArgs)
    {
      numDice := numDice + [n];
      numSides := numSides + [s];
    }

    /** Adds `m` to the modifier; the `i32` addition must not overflow. */
    method AddModifier(m: I32)
      requires Valid()
      requires I32_MIN <= modifier + m <= I32_MAX
      modifies this
      ensures Valid()
      ensures modifier == old(modifier) + m && modifierArgs == old(modifierArgs) + [m]
      ensures numDice == old(numDice) && numSides == old(numSides)
    {
      assert (modifierArgs + [m])[..|modifierArgs|] == modifierArgs;
      modifier := modifier + m;
      modifierArgs := modifierArgs + [m];
    }

    /** The modifier: the sum of every argument ever passed to `AddModifier`. */
    function GetModifier(): (m: I32)
      reads this
      requires Valid()
      ensures m == SumInts(modifierArgs)
    {
      modifier
    }

    /** A fresh traversal of the dice, starting at the first group. */
    method Iter() returns (it: RollIterator)
      ensures fresh(it) && it.roll == this && it.groupPtr == 0 && it.diePtr == 0
    {
      it := new RollIterator(this);
    }

    /** Sums the side counts the iterator yields. */
    method TotalNumSides() returns (total: U32)
      requires Parallel() && Enumerable(numDice)
      requires SideTotal(numDice, numSides) <= U32_MAX
      ensures total == SideTotal(numDice, numSides)
    {
      ghost var flat := Flatten(numDice, numSides);
      SumFlatten(numDice, numSides);
      var it := Iter();
      assert Pos(numDice, it.At()) == 0 by {
        assert numDice[..0] == [];
      }
      total := 0;
      while true
        invariant Live(numDice, it.At())
        invariant Pos(numDice, it.At()) <= |flat|
        invariant total == Sum(flat[..Pos(numDice, it.At())])
        decreases |flat| - Pos(numDice, it.At())
      {
        ghost var k := Pos(numDice, it.At());
        var x := it.Next();
        match x
        case None =>
          assert flat[..k] == flat;
          break;
        case Some(s) =>
          SumStep(flat, k);
          SumPrefixBounded(flat, k + 1);
          total := total + s;
      }
    }
  }

  // ---------------------------------------------------------------------------
  // The iterator
  // ---------------------------------------------------------------------------

  class RollIterator {
    const roll: Roll
    var groupPtr: nat
    var diePtr: U32

    constructor (roll: Roll)
      ensures this.roll == roll && groupPtr == 0 && diePtr == 0
    {
      this.roll := roll;
      groupPtr := 0;
      diePtr := 0;
    }

    /** The two cursors as one value. */
    function At(): Cursor
      reads this
    {
      Cursor(groupPtr, diePtr)
    }

    /** Yields the number of sides of the next die. Panics (so is not callable)
        when the vectors differ in length, when `group_ptr` is past the last
        group, or when incrementing `die_ptr` would overflow `u32`. */
    method Next() returns (r: Option<U32>)
      requires roll.Parallel()
      requires groupPtr < |roll.numDice|
      requires diePtr != roll.numDice[groupPtr] ==> diePtr < U32_MAX
      modifies this
      ensures (r, At()) == Advance(roll.numDice, roll.numSides, old(At()))
      ensures r.None? <==> groupPtr == |roll.numDice|
      ensures Enumerable(roll.numDice) && Live(roll.numDice, old(At())) ==>
                var flat := Flatten(roll.numDice, roll.numSides);
                var k := Pos(roll.numDice, old(At()));
                if k < |flat| then
                  r == Some(flat[k]) && Live(roll.numDice, At()) && Pos(roll.numDice, At()) == k + 1
                else
                  r == None
    {
      if Enumerable(roll.numDice) && Live(roll.numDice, At()) {
        AdvanceYieldsFlatten(roll.numDice, roll.numSides, At());
      }
      if diePtr == roll.numDice[groupPtr] {
        diePtr := 0;
        groupPtr := groupPtr + 1;
      }
      if groupPtr < |roll.numDice| {
        diePtr := diePtr + 1;
        r := Some(roll.numSides[groupPtr]);
      } else {
        r := None;
      }
    }
  }

  /** Groups [(1, 6), (0, 4)]: after the single six-sided die the iterator does
      not stop but yields the empty group's side count, and keeps yielding it. */
  method ZeroCountGroupIsNotSkipped() returns (first: Option<U32>, second: Option<U32>, third: Option<U32>)
    ensures first == Some(6) && second == Some(4) && third == Some(4)
  {
    var roll := new Roll();
    roll.AddD(1, 6);
    roll.AddD(0, 4);
    var it := roll.Iter();
    first := it.Next();
    second := it.Next();
    third := it.Next();
  }
}
