/** Row-major tensors of any rank: flat buffers indexed by multi-indices. */
module Shapes {
  import opened Arithmetic

  function Numel(shape: seq<nat>): nat {
    if shape == [] then 1 else shape[0] * Numel(shape[1..])
  }

  predicate InShape(shape: seq<nat>, idx: seq<nat>) {
    |idx| == |shape| && forall i | 0 <= i < |shape| :: idx[i] < shape[i]
  }

  /** Position of a multi-index in the flat buffer. */
  function Offset(shape: seq<nat>, idx: seq<nat>): nat
    requires |idx| == |shape|
  {
    if shape == [] then 0 else idx[0] * Numel(shape[1..]) + Offset(shape[1..], idx[1..])
  }

  /** The multi-index at a position. */
  function Unravel(shape: seq<nat>, k: nat): (idx: seq<nat>)
    requires k < Numel(shape)
    ensures |idx| == |shape|
  {
    if shape == [] then []
    else
      var row := Numel(shape[1..]);
      Split(k, shape[0], row);
      [k / row] + Unravel(shape[1..], k % row)
  }

  lemma {:induction false} OffsetInBounds(shape: seq<nat>, idx: seq<nat>)
    requires InShape(shape, idx)
    ensures Offset(shape, idx) < Numel(shape)
  {
    if shape != [] {
      OffsetInBounds(shape[1..], idx[1..]);
      NextRow(idx[0], shape[0], Numel(shape[1..]), Offset(shape[1..], idx[1..]));
    }
  }

  lemma {:induction false} OffsetUnravel(shape: seq<nat>, k: nat)
    requires k < Numel(shape)
    ensures InShape(shape, Unravel(shape, k)) && Offset(shape, Unravel(shape, k)) == k
  {
    if shape != [] {
      var row := Numel(shape[1..]);
      Split(k, shape[0], row);
      OffsetUnravel(shape[1..], k % row);
      var idx := Unravel(shape, k);
      assert idx[1..] == Unravel(shape[1..], k % row);
    }
  }

  lemma {:induction false} UnravelOffset(shape: seq<nat>, idx: seq<nat>)
    requires InShape(shape, idx)
    ensures Offset(shape, idx) < Numel(shape) && Unravel(shape, Offset(shape, idx)) == idx
  {
    OffsetInBounds(shape, idx);
    if shape != [] {
      UnravelOffset(shape[1..], idx[1..]);
      DivModUnique(idx[0], Offset(shape[1..], idx[1..]), Numel(shape[1..]));
      assert idx == [idx[0]] + idx[1..];
    }
  }

  datatype Tensor<V> = Tensor(shape: seq<nat>, data: seq<V>)

  /** The buffer has one element per multi-index. */
  predicate Sound<V>(t: Tensor<V>) { |t.data| == Numel(t.shape) }

  function At<V>(t: Tensor<V>, idx: seq<nat>): V
    requires Sound(t) && InShape(t.shape, idx)
  {
    OffsetInBounds(t.shape, idx);
    t.data[Offset(t.shape, idx)]
  }

  /** The contiguous tensor with the given elements. */
  function Build<V>(shape: seq<nat>, f: seq<nat> --> V): (t: Tensor<V>)
    requires forall idx | InShape(shape, idx) :: f.requires(idx)
    ensures Sound(t) && t.shape == shape
  {
    Tensor(shape, seq(Numel(shape), k requires 0 <= k < Numel(shape) =>
      (OffsetUnravel(shape, k); f(Unravel(shape, k)))))
  }

  /** Tensors with equal elements are equal. */
  lemma SameElements<V>(t: Tensor<V>, u: Tensor<V>)
    requires Sound(t) && Sound(u) && t.shape == u.shape
    requires forall idx | InShape(t.shape, idx) :: At(t, idx) == At(u, idx)
    ensures t == u
  {
    forall k | 0 <= k < |t.data| ensures t.data[k] == u.data[k] {
      OffsetUnravel(t.shape, k);
      assert At(t, Unravel(t.shape, k)) == At(u, Unravel(t.shape, k));
    }
  }

  /** A leading index selects a contiguous run of rows. */
  lemma LeadingOffset(n: nat, rest: seq<nat>, d: nat, idx: seq<nat>)
    requires |idx| == |rest|
    ensures Offset([n] + rest, [d] + idx) == d * Numel(rest) + Offset(rest, idx)
    ensures Numel([n] + rest) == n * Numel(rest)
  {
    assert ([n] + rest)[1..] == rest && ([d] + idx)[1..] == idx;
  }
}
