/** The multi-index to linear offset computation of `FloatTensor`'s `Index`
    and `IndexMut` implementations. Indices and dimensions are unbounded
    integers; the storage is a sequence of elements. */
module TensorIndex {
  import opened Common

  /** `idx[0] * dims[0] + ... + idx[n - 1] * dims[n - 1]`: the running value of
      the accumulator after the first `n` loop rounds. */
  function WeightedSum(idx: seq<int>, dims: seq<int>, n: nat): int
    requires n <= |idx| && n <= |dims|
  {
    if n == 0 then 0 else WeightedSum(idx, dims, n - 1) + idx[n - 1] * dims[n - 1]
  }

  /** Some index component is not below its dimension. */
  predicate SomeOutOfBounds(idx: seq<int>, dims: seq<int>)
    requires |idx| == |dims|
  {
    exists i :: 0 <= i < |idx| && idx[i] >= dims[i]
  }

  /** The offset the source computes, or the reason it panics: "bad dimlen"
      for a length mismatch or a component at or beyond its dimension, and an
      out-of-bounds slice access for the empty index on a zero-dimensional
      tensor. Each component is weighted by its own dimension (not by the
      product of the later dimensions) and the last one is added as is. */
  function Offset(idx: seq<int>, dims: seq<int>): (r: Result<int>)
    ensures r.Ok? ==> |idx| == |dims| > 0 && forall i :: 0 <= i < |idx| ==> idx[i] < dims[i]
    ensures r == Err(IndexPanic) <==> idx == [] && dims == []
  {
    if |idx| != |dims| then Err(BadDimLen)
    else if |idx| == 0 then Err(IndexPanic)
    else if SomeOutOfBounds(idx, dims) then Err(BadDimLen)
    else Ok(WeightedSum(idx, dims, |idx| - 1) + idx[|idx| - 1])
  }

  /** A tensor: its dimensions and its storage. */
  class FloatTensor {
    var dims: seq<int>
    var storage: seq<real>

    constructor (dims: seq<int>, storage: seq<real>)
      ensures this.dims == dims && this.storage == storage
    {
      this.dims := dims;
      this.storage := storage;
    }

    /** `index`: the offset of the element `idx` designates in the storage. */
    method Index(idx: seq<int>) returns (r: Result<int>)
      ensures r == Offset(idx, dims)
    {
      var index := 0;
      var lastidx := if |idx| - 1 > 0 then |idx| - 1 else 0;
      if |idx| != |dims| {
        return Err(BadDimLen);
      }
      for i := 0 to lastidx
        invariant index == WeightedSum(idx, dims, i)
        invariant forall k :: 0 <= k < i ==> idx[k] < dims[k]
      {
        if idx[i] >= dims[i] {
          return Err(BadDimLen);
        }
        index := index + idx[i] * dims[i];
      }
      if lastidx >= |idx| {
        return Err(IndexPanic);
      }
      if idx[lastidx] >= dims[lastidx] {
        return Err(BadDimLen);
      }
      index := index + idx[lastidx];
      return Ok(index);
    }

    /** `index_mut` followed by a store of `v` through the returned reference:
        the same checks and the same offset as `index`. */
    method IndexMut(idx: seq<int>, v: real) returns (r: Result<int>)
      modifies this
      ensures r == Offset(idx, dims)
      ensures dims == old(dims)
      ensures storage == if r.Ok? && 0 <= r.value < |old(storage)| then old(storage)[r.value := v] else old(storage)
    {
      var index := 0;
      var lastidx := if |idx| - 1 > 0 then |idx| - 1 else 0;
      if |idx| != |dims| {
        return Err(BadDimLen);
      }
      for i := 0 to lastidx
        invariant index == WeightedSum(idx, dims, i)
        invariant forall k :: 0 <= k < i ==> idx[k] < dims[k]
      {
        if idx[i] >= dims[i] {
          return Err(BadDimLen);
        }
        index := index + idx[i] * dims[i];
      }
      if lastidx >= |idx| {
        return Err(IndexPanic);
      }
      if idx[lastidx] >= dims[lastidx] {
        return Err(BadDimLen);
      }
      index := index + idx[lastidx];
      if 0 <= index < |storage| {
        storage := storage[index := v];
      }
      return Ok(index);
    }
  }

  /** The computation fails exactly on a length mismatch, on the empty index,
      or on a component at or beyond its dimension. */
  lemma {:induction false} OffsetFailsIff(idx: seq<int>, dims: seq<int>)
    ensures Offset(idx, dims) == Err(BadDimLen) <==>
      |idx| != |dims| || (idx != [] && exists i :: 0 <= i < |idx| && idx[i] >= dims[i])
    ensures Offset(idx, dims).Ok? <==>
      |idx| == |dims| && idx != [] && forall i :: 0 <= i < |idx| ==> idx[i] < dims[i]
  {
  }

  /** With no negative component, the weighted sum is not negative. */
  lemma {:induction false} WeightedSumNonNegative(idx: seq<int>, dims: seq<int>, n: nat)
    requires n <= |idx| && n <= |dims|
    requires forall i :: 0 <= i < n ==> 0 <= idx[i] < dims[i]
    ensures WeightedSum(idx, dims, n) >= 0
  {
    if n > 0 {
      WeightedSumNonNegative(idx, dims, n - 1);
    }
  }

  /** An offset of non-negative in-bounds components is not negative. */
  lemma {:induction false} OffsetNonNegative(idx: seq<int>, dims: seq<int>)
    requires Offset(idx, dims).Ok?
    requires forall i :: 0 <= i < |idx| ==> idx[i] >= 0
    ensures Offset(idx, dims).value >= 0
  {
    WeightedSumNonNegative(idx, dims, |idx| - 1);
  }

  /** The weighting is not row-major: on a 2 x 3 tensor the distinct in-bounds
      indices [1, 0] and [0, 2] share offset 2. */
  lemma {:induction false} OffsetNotInjective()
    ensures Offset([1, 0], [2, 3]) == Offset([0, 2], [2, 3]) == Ok(2)
  {
    assert !SomeOutOfBounds([1, 0], [2, 3]) by {
      forall i | 0 <= i < 2 ensures [1, 0][i] < [2, 3][i] {
      }
    }
    assert !SomeOutOfBounds([0, 2], [2, 3]) by {
      forall i | 0 <= i < 2 ensures [0, 2][i] < [2, 3][i] {
      }
    }
  }

  /** Nor is it bounded by the element count: on a 3 x 2 tensor (six elements)
      the in-bounds index [2, 1] yields offset 7. */
  lemma {:induction false} OffsetBeyondStorage()
    ensures Offset([2, 1], [3, 2]) == Ok(7)
  {
    assert !SomeOutOfBounds([2, 1], [3, 2]) by {
      forall i | 0 <= i < 2 ensures [2, 1][i] < [3, 2][i] {
      }
    }
  }
}
