/** A probability mass function stored as two parallel vectors, `values` and
    `probabilities`, with an iterator yielding (value, probability) pairs.
    Probabilities are only stored and handed back, never computed on, so their
    type is a parameter `P`. */
module Distributions {
  import opened Wrappers
  import opened Ints

  /** One call of the iterator's `next` from position `ptr`: the pair at `ptr`
      and the position after it, or `None` and the same position once `ptr`
      has reached the end. */
  function Step<P>(values: seq<U64>, probabilities: seq<P>, ptr: nat): (r: (Option<(U64, P)>, nat))
    requires |values| == |probabilities|
    ensures ptr <= |values| ==> r.1 <= |values|
    ensures r.0.None? ==> r.1 == ptr
  {
    if ptr < |values| then (Some((values[ptr], probabilities[ptr])), ptr + 1) else (None, ptr)
  }

  /** What `n` consecutive calls of `next` return, starting from `ptr`. */
  function Outputs<P>(values: seq<U64>, probabilities: seq<P>, ptr: nat, n: nat): seq<Option<(U64, P)>>
    requires |values| == |probabilities|
    decreases n
  {
    if n == 0 then []
    else
      var (x, ptr') := Step(values, probabilities, ptr);
      [x] + Outputs(values, probabilities, ptr', n - 1)
  }

  /** Calls of `next` from `ptr` yield the pairs at `ptr`, `ptr + 1`, ... in
      index order and then `None` on every further call. */
  lemma {:induction false} OutputsInOrder<P>(values: seq<U64>, probabilities: seq<P>, ptr: nat, n: nat)
    requires |values| == |probabilities|
    ensures |Outputs(values, probabilities, ptr, n)| == n
    ensures forall i :: 0 <= i < n ==>
              Outputs(values, probabilities, ptr, n)[i] ==
                if ptr + i < |values| then Some((values[ptr + i], probabilities[ptr + i])) else None
    decreases n
  {
    if n > 0 {
      var (x, ptr') := Step(values, probabilities, ptr);
      OutputsInOrder(values, probabilities, ptr', n - 1);
      forall i | 0 <= i < n
        ensures Outputs(values, probabilities, ptr, n)[i] ==
                  if ptr + i < |values| then Some((values[ptr + i], probabilities[ptr + i])) else None
      {
        if i > 0 {
          assert Outputs(values, probabilities, ptr, n)[i] == Outputs(values, probabilities, ptr', n - 1)[i - 1];
          assert ptr < |values| ==> ptr' + (i - 1) == ptr + i;
        }
      }
    }
  }

  /** A fresh traversal yields exactly `len()` pairs: the first `len()` calls
      return a pair each, the call after them returns `None`. */
  lemma YieldsExactlyLen<P>(values: seq<U64>, probabilities: seq<P>)
    requires |values| == |probabilities|
    ensures |Outputs(values, probabilities, 0, |values| + 1)| == |values| + 1
    ensures var out := Outputs(values, probabilities, 0, |values| + 1);
            (forall i :: 0 <= i < |values| ==> out[i] == Some((values[i], probabilities[i])))
            && out[|values|] == None
  {
    OutputsInOrder(values, probabilities, 0, |values| + 1);
  }

  class ProbabilityMassFunction<P> {
    var values: seq<U64>
    var probabilities: seq<P>

    /** An empty distribution; the capacity is only an allocation hint. */
    constructor WithCapacity(capacity: nat)
      ensures values == [] && probabilities == []
    {
      values := [];
      probabilities := [];
    }

    /** Appends one (value, probability) entry; earlier entries are unchanged. */
    method Push(value: U64, probability: P)
      modifies this
      ensures values == old(values) + [value] && probabilities == old(probabilities) + [probability]
    {
      values := values + [value];
      probabilities := probabilities + [probability];
    }

    /** The number of entries; panics (so is not callable) when the two vectors
        differ in length. */
    function Len(): (n: nat)
      reads this
      requires |values| == |probabilities|
      ensures n == |values| && n == |probabilities|
    {
      |values|
    }

    /** A fresh traversal of the entries, starting at the first. */
    method Iter() returns (it: ProbabilityMassFunctionIterator<P>)
      ensures fresh(it) && it.pmf == this && it.ptr == 0
    {
      it := new ProbabilityMassFunctionIterator(this);
    }
  }

  class ProbabilityMassFunctionIterator<P> {
    const pmf: ProbabilityMassFunction<P>
    var ptr: nat

    constructor (pmf: ProbabilityMassFunction<P>)
      ensures this.pmf == pmf && ptr == 0
    {
      this.pmf := pmf;
      ptr := 0;
    }

    /** Yields the entry at `ptr` and moves past it, or `None` without moving
        once every entry has been yielded. Calls `len()`, so panics when the
        two vectors differ in length. */
    method Next() returns (r: Option<(U64, P)>)
      requires |pmf.values| == |pmf.probabilities|
      modifies this
      ensures (r, ptr) == Step(pmf.values, pmf.probabilities, old(ptr))
      ensures old(ptr) <= pmf.Len() ==> ptr <= pmf.Len()
    {
      if ptr < pmf.Len() {
        var p := ptr;
        ptr := ptr + 1;
        r := Some((pmf.values[p], pmf.probabilities[p]));
      } else {
        r := None;
      }
    }
  }
}
