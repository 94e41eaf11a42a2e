/** All-reduce, all-gather and reduce-scatter along any dimension, over ideal collectives on flat buffers. */
module Collectives {
  import opened Arithmetic
  import opened Shapes

  // ---------------------------------------------------------------- tensor rearrangement

  /** `idx` with position 0 moved to `dim`. */
  function FrontTo(dim: nat, idx: seq<nat>): (r: seq<nat>)
    requires dim < |idx|
    ensures |r| == |idx|
  {
    idx[1..dim + 1] + [idx[0]] + idx[dim + 1..]
  }

  /** `idx` with position `dim` moved to 0. */
  function ToFront(dim: nat, idx: seq<nat>): (r: seq<nat>)
    requires dim < |idx|
    ensures |r| == |idx|
  {
    [idx[dim]] + idx[..dim] + idx[dim + 1..]
  }

  lemma FrontToFront(dim: nat, idx: seq<nat>)
    requires dim < |idx|
    ensures FrontTo(dim, ToFront(dim, idx)) == idx && ToFront(dim, FrontTo(dim, idx)) == idx
  {
  }

  lemma MoveKeepsShape(dim: nat, shape: seq<nat>, idx: seq<nat>)
    requires dim < |shape| == |idx|
    ensures InShape(shape, idx) <==> InShape(ToFront(dim, shape), ToFront(dim, idx))
  {
    if InShape(ToFront(dim, shape), ToFront(dim, idx)) {
      forall i | 0 <= i < |shape| ensures idx[i] < shape[i] {
        var j := if i == dim then 0 else if i < dim then i + 1 else i;
        assert ToFront(dim, idx)[j] == idx[i] && ToFront(dim, shape)[j] == shape[i];
      }
    }
  }

  /** `t.movedim(dim, 0).contiguous()`. */
  function MoveToFront<V>(t: Tensor<V>, dim: nat): (m: Tensor<V>)
    requires Sound(t) && dim < |t.shape|
    ensures Sound(m) && m.shape == ToFront(dim, t.shape)
  {
    forall idx | InShape(ToFront(dim, t.shape), idx) ensures InShape(t.shape, FrontTo(dim, idx)) {
      FrontToFront(dim, idx);
      MoveKeepsShape(dim, t.shape, FrontTo(dim, idx));
    }
    Build(ToFront(dim, t.shape), idx requires InShape(ToFront(dim, t.shape), idx) && InShape(t.shape, FrontTo(dim, idx)) => At(t, FrontTo(dim, idx)))
  }

  /** `t.movedim(0, dim).contiguous()`. */
  function MoveFromFront<V>(t: Tensor<V>, dim: nat): (m: Tensor<V>)
    requires Sound(t) && dim < |t.shape|
    ensures Sound(m) && m.shape == FrontTo(dim, t.shape)
  {
    forall idx | InShape(FrontTo(dim, t.shape), idx) ensures InShape(t.shape, ToFront(dim, idx)) {
      FrontToFront(dim, t.shape);
      MoveKeepsShape(dim, FrontTo(dim, t.shape), idx);
    }
    Build(FrontTo(dim, t.shape), idx requires InShape(FrontTo(dim, t.shape), idx) && InShape(t.shape, ToFront(dim, idx)) => At(t, ToFront(dim, idx)))
  }

  lemma MoveToFrontAt<V>(t: Tensor<V>, dim: nat, idx: seq<nat>)
    requires Sound(t) && dim < |t.shape| && InShape(t.shape, idx)
    ensures InShape(MoveToFront(t, dim).shape, ToFront(dim, idx))
    ensures At(MoveToFront(t, dim), ToFront(dim, idx)) == At(t, idx)
  {
    MoveKeepsShape(dim, t.shape, idx);
    FrontToFront(dim, idx);
    UnravelOffset(ToFront(dim, t.shape), ToFront(dim, idx));
  }

  lemma MoveFromFrontAt<V>(t: Tensor<V>, dim: nat, idx: seq<nat>)
    requires Sound(t) && dim < |t.shape| && InShape(FrontTo(dim, t.shape), idx)
    ensures InShape(t.shape, ToFront(dim, idx))
    ensures At(MoveFromFront(t, dim), idx) == At(t, ToFront(dim, idx))
  {
    FrontToFront(dim, t.shape);
    MoveKeepsShape(dim, FrontTo(dim, t.shape), idx);
    UnravelOffset(FrontTo(dim, t.shape), idx);
  }

  /** Moving to the front and back is the identity. */
  lemma MoveRoundTrip<V>(t: Tensor<V>, dim: nat)
    requires Sound(t) && dim < |t.shape|
    ensures MoveFromFront(MoveToFront(t, dim), dim) == t
  {
    FrontToFront(dim, t.shape);
    var u := MoveFromFront(MoveToFront(t, dim), dim);
    forall idx | InShape(t.shape, idx) ensures At(u, idx) == At(t, idx) {
      MoveFromFrontAt(MoveToFront(t, dim), dim, idx);
      MoveToFrontAt(t, dim, idx);
    }
    SameElements(u, t);
  }

  // ---------------------------------------------------------------- ideal collectives on flat buffers

  /** The sum over ranks, in rank order. */
  function SumOf<V>(add: (V, V) -> V, vs: seq<V>): V
    requires vs != []
  {
    var n := |vs| - 1;
    if n == 0 then vs[0] else add(SumOf(add, vs[..n]), vs[n])
  }

  /** One rank's value stands alone, and each further rank's value is added on the right. */
  lemma SumOfNext<V>(add: (V, V) -> V, vs: seq<V>, v: V)
    ensures SumOf(add, vs + [v]) == if vs == [] then v else add(SumOf(add, vs), v)
  {
    assert (vs + [v])[..|vs|] == vs;
  }

  /** The sum of two ranks is one addition, rank 0's value first. */
  lemma SumOfTwo<V>(add: (V, V) -> V, x: V, y: V)
    ensures SumOf(add, [x, y]) == add(x, y)
  {
    SumOfNext(add, [], x);
    SumOfNext(add, [x], y);
  }

  predicate SameLength<V>(bufs: seq<seq<V>>, n: nat) {
    bufs != [] && forall q | 0 <= q < |bufs| :: |bufs[q]| == n
  }

  function Column<V>(bufs: seq<seq<V>>, n: nat, k: nat): (c: seq<V>)
    requires SameLength(bufs, n) && k < n
    ensures |c| == |bufs|
  {
    seq(|bufs|, q requires 0 <= q < |bufs| => bufs[q][k])
  }

  function FlatAllReduce<V>(add: (V, V) -> V, bufs: seq<seq<V>>, n: nat): (r: seq<V>)
    requires SameLength(bufs, n)
    ensures |r| == n
  {
    seq(n, k requires 0 <= k < n => SumOf(add, Column(bufs, n, k)))
  }

  /** Rank `r` receives the r-th of as many equal chunks as there are ranks. */
  function FlatReduceScatter<V>(add: (V, V) -> V, bufs: seq<seq<V>>, r: nat, chunk: nat): (s: seq<V>)
    requires SameLength(bufs, |bufs| * chunk) && r < |bufs|
    ensures |s| == chunk
  {
    seq(chunk, k requires 0 <= k < chunk => (NextRow(r, |bufs|, chunk, k); SumOf(add, Column(bufs, |bufs| * chunk, r * chunk + k))))
  }

  function FlatAllGather<V>(bufs: seq<seq<V>>): seq<V> {
    if bufs == [] then [] else bufs[0] + FlatAllGather(bufs[1..])
  }

  lemma {:induction false} GatheredLength<V>(bufs: seq<seq<V>>, n: nat)
    requires SameLength(bufs, n)
    ensures |FlatAllGather(bufs)| == |bufs| * n
  {
    if |bufs| == 1 {
      assert FlatAllGather(bufs) == bufs[0] + FlatAllGather([]);
    } else {
      GatheredLength(bufs[1..], n);
      assert |bufs| * n == n + |bufs[1..]| * n;
    }
  }

  /** The r-th chunk of the gathered buffer is what rank r sent. */
  lemma {:induction false} GatheredChunk<V>(bufs: seq<seq<V>>, n: nat, q: nat)
    requires SameLength(bufs, n) && q < |bufs|
    ensures q * n + n <= |FlatAllGather(bufs)| == |bufs| * n
    ensures FlatAllGather(bufs)[q * n..q * n + n] == bufs[q]
  {
    GatheredLength(bufs, n);
    MulMono(q + 1, |bufs|, n);
    var rest := FlatAllGather(bufs[1..]);
    assert FlatAllGather(bufs) == bufs[0] + rest;
    if q == 0 {
      assert 0 * n == 0;
    } else {
      GatheredChunk(bufs[1..], n, q - 1);
      OneMoreRow(q, n);
      DropFirst(bufs[0], rest, (q - 1) * n, (q - 1) * n + n);
    }
  }

  lemma OneMoreRow(q: int, n: nat)
    ensures q * n == n + (q - 1) * n
  {
  }

  lemma DropFirst<V>(a: seq<V>, b: seq<V>, lo: nat, hi: nat)
    requires lo <= hi <= |b|
    ensures (a + b)[|a| + lo..|a| + hi] == b[lo..hi]
  {
  }

  // ---------------------------------------------------------------- the communicators' operations

  datatype Result<V> = Ok(value: Tensor<V>) | IndexError | NotDivisible

  /** The ranks pass tensors of one shape. */
  predicate Uniform<V>(ts: seq<Tensor<V>>, shape: seq<nat>) {
    ts != [] && forall q | 0 <= q < |ts| :: Sound(ts[q]) && ts[q].shape == shape
  }

  function Buffers<V>(ts: seq<Tensor<V>>): (b: seq<seq<V>>)
    ensures |b| == |ts| && forall q | 0 <= q < |ts| :: b[q] == ts[q].data
  {
    seq(|ts|, q requires 0 <= q < |ts| => ts[q].data)
  }

  function AllReduce<V>(add: (V, V) -> V, ts: seq<Tensor<V>>, shape: seq<nat>, r: nat): (t: Tensor<V>)
    requires Uniform(ts, shape) && r < |ts|
    ensures Sound(t) && t.shape == shape
  {
    if |ts| == 1 then ts[r] else Tensor(shape, FlatAllReduce(add, Buffers(ts), Numel(shape)))
  }

  /** A dimension as PyTorch resolves it on a tensor of rank `nd`, or -1. */
  function Axis(dim: int, nd: nat): (a: int)
    ensures -1 <= a < nd
  {
    if 0 <= dim < nd then dim else if dim < 0 <= dim + nd then dim + nd else -1
  }

  /** `reduce_scatter` adds the rank once itself before `movedim` resolves the dimension again. */
  function ScatterAxis(dim: int, nd: nat): int {
    Axis(if dim < 0 then dim + nd else dim, nd)
  }

  function Moved<V>(ts: seq<Tensor<V>>, shape: seq<nat>, axis: nat): (m: seq<Tensor<V>>)
    requires Uniform(ts, shape) && axis < |shape|
    ensures |m| == |ts| && Uniform(m, ToFront(axis, shape))
  {
    seq(|ts|, q requires 0 <= q < |ts| => MoveToFront(ts[q], axis))
  }

  function ChunkShape(shape: seq<nat>, axis: nat, world: nat): (out: seq<nat>)
    requires axis < |shape| && world > 0
    ensures |out| == |shape|
  {
    [shape[axis] / world] + ToFront(axis, shape)[1..]
  }

  /** Rank r's chunk of the reduced buffer, still with the scattered dimension in front. */
  function Scattered<V>(add: (V, V) -> V, ts: seq<Tensor<V>>, shape: seq<nat>, r: nat, axis: nat): (t: Tensor<V>)
    requires Uniform(ts, shape) && r < |ts| && axis < |shape| && shape[axis] % |ts| == 0
    ensures Sound(t) && t.shape == ChunkShape(shape, axis, |ts|)
  {
    var out := ChunkShape(shape, axis, |ts|);
    ChunkSize(shape, axis, |ts|);
    Tensor(out, FlatReduceScatter(add, Buffers(Moved(ts, shape, axis)), r, Numel(out)))
  }

  function ReduceScatter<V>(add: (V, V) -> V, ts: seq<Tensor<V>>, shape: seq<nat>, r: nat, dim: int): Result<V>
    requires Uniform(ts, shape) && r < |ts|
  {
    var axis := ScatterAxis(dim, |shape|);
    if |ts| == 1 then Ok(ts[r])
    else if axis < 0 then IndexError
    else if shape[axis] % |ts| != 0 then NotDivisible
    else Ok(MoveFromFront(Scattered(add, ts, shape, r, axis), axis))
  }

  /** The moved buffer splits into one output-sized chunk per rank. */
  lemma ChunkSize(shape: seq<nat>, axis: nat, world: nat)
    requires axis < |shape| && world > 0 && shape[axis] % world == 0
    ensures Numel(ToFront(axis, shape)) == world * Numel(ChunkShape(shape, axis, world))
  {
    var rest := ToFront(axis, shape)[1..];
    var c := shape[axis] / world;
    var zeros := seq(|rest|, _ => 0);
    LeadingOffset(shape[axis], rest, 0, zeros);
    LeadingOffset(c, rest, 0, zeros);
    assert ToFront(axis, shape) == [shape[axis]] + rest;
    assert shape[axis] == world * c;
    MulAssoc(world, c, Numel(rest));
  }

  /** The multi-index of element `idx` of slice `r` in the whole tensor. */
  function Whole(axis: nat, c: nat, r: nat, idx: seq<nat>): (w: seq<nat>)
    requires axis < |idx|
    ensures |w| == |idx|
  {
    idx[axis := r * c + idx[axis]]
  }

  function Sliced(axis: nat, c: nat, shape: seq<nat>): (s: seq<nat>)
    requires axis < |shape|
    ensures |s| == |shape|
  {
    shape[axis := c]
  }

  lemma ChunkOffset(r: nat, c: nat, d: nat, row: nat, rest: nat, chunk: nat, inside: nat, index: nat)
    requires chunk == c * row && inside == d * row + rest && index == r * c + d
    ensures r * chunk + inside == index * row + rest
  {
    MulAssoc(r, c, row);
    MulDistributes(r * c, d, row);
  }

  /** Slice r of the whole, moved to the front: its shape, and where its elements are. */
  lemma SliceShape(shape: seq<nat>, axis: nat, world: nat, r: nat, idx: seq<nat>)
    requires axis < |shape| && r < world && shape[axis] % world == 0
    requires InShape(Sliced(axis, shape[axis] / world, shape), idx)
    ensures var c := shape[axis] / world;
            var out := ChunkShape(shape, axis, world);
            && FrontTo(axis, out) == Sliced(axis, c, shape) && InShape(out, ToFront(axis, idx))
            && InShape(shape, Whole(axis, c, r, idx))
  {
    var c := shape[axis] / world;
    assert ToFront(axis, Sliced(axis, c, shape)) == ChunkShape(shape, axis, world);
    FrontToFront(axis, Sliced(axis, c, shape));
    MoveKeepsShape(axis, Sliced(axis, c, shape), idx);
    assert shape[axis] == world * c;
    NextRow(r, world, c, idx[axis]);
  }

  /** Chunk r of the moved buffer holds exactly the elements of slice r. */
  lemma SliceOffset(shape: seq<nat>, axis: nat, world: nat, r: nat, idx: seq<nat>)
    requires axis < |shape| && r < world && shape[axis] % world == 0
    requires InShape(Sliced(axis, shape[axis] / world, shape), idx)
    ensures var c := shape[axis] / world;
            var out := ChunkShape(shape, axis, world);
            && FrontTo(axis, out) == Sliced(axis, c, shape)
            && InShape(out, ToFront(axis, idx)) && InShape(shape, Whole(axis, c, r, idx))
            && r * Numel(out) + Offset(out, ToFront(axis, idx)) == Offset(ToFront(axis, shape), ToFront(axis, Whole(axis, c, r, idx)))
  {
    SliceShape(shape, axis, world, r, idx);
    MovedOffset(ChunkShape(shape, axis, world), ToFront(axis, shape), r, ToFront(axis, idx), ToFront(axis, Whole(axis, shape[axis] / world, r, idx)));
  }

  /** Rows of a chunk keep their order inside the whole. */
  lemma MovedOffset(chunk: seq<nat>, whole: seq<nat>, r: nat, i: seq<nat>, j: seq<nat>)
    requires |chunk| == |whole| == |i| == |j| > 0
    requires chunk[1..] == whole[1..] && i[1..] == j[1..] && j[0] == r * chunk[0] + i[0]
    ensures r * Numel(chunk) + Offset(chunk, i) == Offset(whole, j)
  {
    var row, rest := Numel(chunk[1..]), Offset(chunk[1..], i[1..]);
    ChunkOffset(r, chunk[0], i[0], row, rest, Numel(chunk), Offset(chunk, i), j[0]);
  }

  /** The same element on every rank. */
  function Everywhere<V>(ts: seq<Tensor<V>>, shape: seq<nat>, idx: seq<nat>): (vs: seq<V>)
    requires Uniform(ts, shape) && InShape(shape, idx)
    ensures |vs| == |ts|
  {
    seq(|ts|, q requires 0 <= q < |ts| => At(ts[q], idx))
  }

  lemma MovedColumn<V>(ts: seq<Tensor<V>>, shape: seq<nat>, axis: nat, idx: seq<nat>)
    requires Uniform(ts, shape) && axis < |shape| && InShape(shape, idx)
    ensures Offset(ToFront(axis, shape), ToFront(axis, idx)) < Numel(ToFront(axis, shape))
    ensures Column(Buffers(Moved(ts, shape, axis)), Numel(ToFront(axis, shape)), Offset(ToFront(axis, shape), ToFront(axis, idx)))
            == Everywhere(ts, shape, idx)
  {
    MoveKeepsShape(axis, shape, idx);
    OffsetInBounds(ToFront(axis, shape), ToFront(axis, idx));
    var k := Offset(ToFront(axis, shape), ToFront(axis, idx));
    forall q | 0 <= q < |ts| ensures Moved(ts, shape, axis)[q].data[k] == At(ts[q], idx) {
      MoveToFrontAt(ts[q], axis, idx);
    }
  }

  lemma ScatteredAt<V>(add: (V, V) -> V, ts: seq<Tensor<V>>, shape: seq<nat>, r: nat, axis: nat, idx: seq<nat>)
    requires Uniform(ts, shape) && r < |ts| && axis < |shape| && shape[axis] % |ts| == 0
    requires InShape(Sliced(axis, shape[axis] / |ts|, shape), idx)
    ensures var whole := Whole(axis, shape[axis] / |ts|, r, idx);
            && InShape(ChunkShape(shape, axis, |ts|), ToFront(axis, idx)) && InShape(shape, whole)
            && At(Scattered(add, ts, shape, r, axis), ToFront(axis, idx)) == SumOf(add, Everywhere(ts, shape, whole))
  {
    var out := ChunkShape(shape, axis, |ts|);
    var whole := Whole(axis, shape[axis] / |ts|, r, idx);
    SliceOffset(shape, axis, |ts|, r, idx);
    OffsetInBounds(out, ToFront(axis, idx));
    var k := Offset(ToFront(axis, shape), ToFront(axis, whole));
    ScatteredColumn(add, ts, shape, r, axis, Offset(out, ToFront(axis, idx)), k);
    MovedColumn(ts, shape, axis, whole);
  }

  lemma ScatteredColumn<V>(add: (V, V) -> V, ts: seq<Tensor<V>>, shape: seq<nat>, r: nat, axis: nat, k: nat, moved: nat)
    requires Uniform(ts, shape) && r < |ts| && axis < |shape| && shape[axis] % |ts| == 0
    requires k < Numel(ChunkShape(shape, axis, |ts|)) && moved == r * Numel(ChunkShape(shape, axis, |ts|)) + k
    ensures moved < Numel(ToFront(axis, shape))
    ensures Scattered(add, ts, shape, r, axis).data[k] == SumOf(add, Column(Buffers(Moved(ts, shape, axis)), Numel(ToFront(axis, shape)), moved))
  {
    ChunkSize(shape, axis, |ts|);
    NextRow(r, |ts|, Numel(ChunkShape(shape, axis, |ts|)), k);
  }

  /** Every element of rank r's output is the sum over all ranks of the element of the r-th slice. */
  lemma ReduceScatterSlices<V>(add: (V, V) -> V, ts: seq<Tensor<V>>, shape: seq<nat>, r: nat, dim: int, idx: seq<nat>)
    requires Uniform(ts, shape) && r < |ts| && |ts| > 1
    requires var axis := ScatterAxis(dim, |shape|);
             && axis >= 0 && shape[axis] % |ts| == 0
             && InShape(Sliced(axis, shape[axis] / |ts|, shape), idx)
    ensures var axis := ScatterAxis(dim, |shape|);
            var c := shape[axis] / |ts|;
            var result := ReduceScatter(add, ts, shape, r, dim);
            && result.Ok? && Sound(result.value) && result.value.shape == Sliced(axis, c, shape)
            && InShape(shape, Whole(axis, c, r, idx))
            && At(result.value, idx) == SumOf(add, Everywhere(ts, shape, Whole(axis, c, r, idx)))
  {
    var axis := ScatterAxis(dim, |shape|);
    SliceOffset(shape, axis, |ts|, r, idx);
    ScatteredAt(add, ts, shape, r, axis, idx);
    MoveFromFrontAt(Scattered(add, ts, shape, r, axis), axis, idx);
  }

  /** Which part an element of a concatenation comes from, and where it sits in that part. */
  function CatElement<V>(parts: seq<Tensor<V>>, shape: seq<nat>, axis: nat, idx: seq<nat>): V
    requires Uniform(parts, shape) && axis < |shape|
    requires InShape(Sliced(axis, |parts| * shape[axis], shape), idx)
  {
    Split(idx[axis], |parts|, shape[axis]);
    At(parts[idx[axis] / shape[axis]], Sliced(axis, idx[axis] % shape[axis], idx))
  }

  /** `torch.cat` of equally shaped tensors. */
  function Cat<V>(parts: seq<Tensor<V>>, shape: seq<nat>, axis: nat): (t: Tensor<V>)
    requires Uniform(parts, shape) && axis < |shape|
    ensures Sound(t) && t.shape == Sliced(axis, |parts| * shape[axis], shape)
  {
    var whole := Sliced(axis, |parts| * shape[axis], shape);
    Build(whole, idx requires InShape(whole, idx) => CatElement(parts, shape, axis, idx))
  }

  /** Gloo delivers one tensor per rank. */
  function HostAllGather<V>(ts: seq<Tensor<V>>, shape: seq<nat>, r: nat, dim: int): Result<V>
    requires Uniform(ts, shape) && r < |ts|
  {
    if |ts| == 1 then Ok(ts[r])
    else if Axis(dim, |shape|) < 0 then IndexError
    else Ok(Cat(ts, shape, Axis(dim, |shape|)))
  }

  /** RCCL fills one buffer of shape `(world, *shape)`, which `unbind(0)` cuts into views. */
  function RcclAllGather<V>(ts: seq<Tensor<V>>, shape: seq<nat>, r: nat, dim: int): Result<V>
    requires Uniform(ts, shape) && r < |ts|
  {
    if |ts| == 1 then Ok(ts[r])
    else if Axis(dim, |shape|) < 0 then IndexError
    else
      var views := Unbind(FlatAllGather(Buffers(ts)), ts, shape);
      Ok(Cat(views, shape, Axis(dim, |shape|)))
  }

  /** The views that `unbind(0)` cuts out of the gathered buffer: one per rank, each of the ranks' shape. */
  function Unbind<V>(flat: seq<V>, ts: seq<Tensor<V>>, shape: seq<nat>): (views: seq<Tensor<V>>)
    requires Uniform(ts, shape) && flat == FlatAllGather(Buffers(ts))
    ensures |views| == |ts| && Uniform(views, shape)
  {
    var n := Numel(shape);
    forall q | 0 <= q < |ts| ensures q * n + n <= |flat| { GatheredChunk(Buffers(ts), n, q); }
    seq(|ts|, q requires 0 <= q < |ts| && q * n + n <= |flat| => Tensor(shape, flat[q * n..q * n + n]))
  }

  lemma UnbindIsTheTensors<V>(ts: seq<Tensor<V>>, shape: seq<nat>)
    requires Uniform(ts, shape)
    ensures Unbind(FlatAllGather(Buffers(ts)), ts, shape) == ts
  {
    forall q | 0 <= q < |ts| ensures Unbind(FlatAllGather(Buffers(ts)), ts, shape)[q] == ts[q] {
      GatheredChunk(Buffers(ts), Numel(shape), q);
    }
  }

  /** The two transports gather the same tensor. */
  lemma GathersAgree<V>(ts: seq<Tensor<V>>, shape: seq<nat>, r: nat, dim: int)
    requires Uniform(ts, shape) && r < |ts|
    ensures RcclAllGather(ts, shape, r, dim) == HostAllGather(ts, shape, r, dim)
  {
    UnbindIsTheTensors(ts, shape);
  }

  lemma AllReduceAt<V>(add: (V, V) -> V, ts: seq<Tensor<V>>, shape: seq<nat>, r: nat, idx: seq<nat>)
    requires Uniform(ts, shape) && r < |ts| && |ts| > 1 && InShape(shape, idx)
    ensures At(AllReduce(add, ts, shape, r), idx) == SumOf(add, Everywhere(ts, shape, idx))
  {
    OffsetInBounds(shape, idx);
    assert Column(Buffers(ts), Numel(shape), Offset(shape, idx)) == Everywhere(ts, shape, idx);
  }

  /** On two ranks an all-reduce adds the two tensors element by element, and both ranks hold the result. */
  lemma TwoRankAllReduce<V>(add: (V, V) -> V, t: Tensor<V>, u: Tensor<V>, r: nat, idx: seq<nat>)
    requires Sound(t) && Sound(u) && t.shape == u.shape && r < 2 && InShape(t.shape, idx)
    ensures var sum := AllReduce(add, [t, u], t.shape, r);
            sum.shape == t.shape && At(sum, idx) == add(At(t, idx), At(u, idx))
  {
    AllReduceAt(add, [t, u], t.shape, r, idx);
    assert Everywhere([t, u], t.shape, idx) == [At(t, idx), At(u, idx)];
    SumOfTwo(add, At(t, idx), At(u, idx));
  }

  /** A single rank gets its own tensor back from every collective, whatever the dimension. */
  lemma OneRankKeepsItsTensor<V>(add: (V, V) -> V, t: Tensor<V>, dim: int)
    requires Sound(t)
    ensures AllReduce(add, [t], t.shape, 0) == t
    ensures ReduceScatter(add, [t], t.shape, 0, dim) == Ok(t)
    ensures HostAllGather([t], t.shape, 0, dim) == Ok(t) && RcclAllGather([t], t.shape, 0, dim) == Ok(t)
  {
  }

  lemma CatAt<V>(parts: seq<Tensor<V>>, shape: seq<nat>, axis: nat, idx: seq<nat>)
    requires Uniform(parts, shape) && axis < |shape| && InShape(Sliced(axis, |parts| * shape[axis], shape), idx)
    ensures At(Cat(parts, shape, axis), idx) == CatElement(parts, shape, axis, idx)
  {
    UnravelOffset(Sliced(axis, |parts| * shape[axis], shape), idx);
  }

  /** Gathering places rank q's tensor q-th along the dimension, for every rank and element. */
  lemma GatherPlaces<V>(ts: seq<Tensor<V>>, shape: seq<nat>, r: nat, dim: int, q: nat, idx: seq<nat>)
    requires Uniform(ts, shape) && r < |ts| && |ts| > 1 && -|shape| <= dim < |shape|
    requires q < |ts| && InShape(shape, idx)
    ensures var axis := if dim < 0 then dim + |shape| else dim;
            var at := idx[axis := q * shape[axis] + idx[axis]];
            var gathered := HostAllGather(ts, shape, r, dim);
            && gathered.Ok? && Sound(gathered.value) && gathered.value.shape == shape[axis := |ts| * shape[axis]]
            && InShape(gathered.value.shape, at) && At(gathered.value, at) == At(ts[q], idx)
  {
    var axis := Axis(dim, |shape|);
    var row := shape[axis];
    var at := idx[axis := q * row + idx[axis]];
    NextRow(q, |ts|, row, idx[axis]);
    DivModUnique(q, idx[axis], row);
    CatAt(ts, shape, axis, at);
    assert at[axis := idx[axis]] == idx;
  }

  /** Scattering and gathering along the same dimension is an all-reduce, for every number of ranks,
      tensor rank, shape and dimension (negative ones included) that divides evenly. */
  lemma GatherOfScatterIsAllReduce<V>(add: (V, V) -> V, ts: seq<Tensor<V>>, shape: seq<nat>, outs: seq<Tensor<V>>, r: nat, dim: int)
    requires Uniform(ts, shape) && r < |ts| == |outs| && |ts| > 1
    requires Axis(dim, |shape|) >= 0 && shape[Axis(dim, |shape|)] % |ts| == 0
    requires forall q | 0 <= q < |ts| :: ReduceScatter(add, ts, shape, q, dim) == Ok(outs[q])
    ensures var c := shape[Axis(dim, |shape|)] / |ts|;
            && Uniform(outs, Sliced(Axis(dim, |shape|), c, shape))
            && HostAllGather(outs, Sliced(Axis(dim, |shape|), c, shape), r, dim) == Ok(AllReduce(add, ts, shape, r))
  {
    var axis := Axis(dim, |shape|);
    var c := shape[axis] / |ts|;
    var part := Sliced(axis, c, shape);
    ScatteredShapes(add, ts, shape, outs, dim);
    assert shape[axis] == |ts| * c && Sliced(axis, |ts| * c, part) == shape;
    forall q | 0 <= q < |outs| ensures IsSlice(add, ts, shape, axis, c, q, outs[q]) {
      OutputIsSlice(add, ts, shape, outs[q], q, dim, axis, c);
    }
    forall idx | InShape(shape, idx) ensures At(Cat(outs, part, axis), idx) == At(AllReduce(add, ts, shape, r), idx) {
      GatheredElement(add, ts, shape, outs, axis, c, idx);
      AllReduceAt(add, ts, shape, r, idx);
    }
    SameElements(Cat(outs, part, axis), AllReduce(add, ts, shape, r));
  }

  /** `out` holds exactly slice q of the sum over the ranks. */
  ghost predicate IsSlice<V>(add: (V, V) -> V, ts: seq<Tensor<V>>, shape: seq<nat>, axis: nat, c: nat, q: nat, out: Tensor<V>)
    requires Uniform(ts, shape) && axis < |shape|
  {
    && Sound(out) && out.shape == Sliced(axis, c, shape)
    && forall idx | InShape(Sliced(axis, c, shape), idx) ::
         InShape(shape, Whole(axis, c, q, idx)) && At(out, idx) == SumOf(add, Everywhere(ts, shape, Whole(axis, c, q, idx)))
  }

  lemma OutputIsSlice<V>(add: (V, V) -> V, ts: seq<Tensor<V>>, shape: seq<nat>, out: Tensor<V>, q: nat, dim: int, axis: nat, c: nat)
    requires Uniform(ts, shape) && |ts| > 1 && q < |ts|
    requires axis < |shape| && axis == ScatterAxis(dim, |shape|) && shape[axis] % |ts| == 0 && c == shape[axis] / |ts|
    requires Sound(out) && out.shape == Sliced(axis, c, shape) && ReduceScatter(add, ts, shape, q, dim) == Ok(out)
    ensures IsSlice(add, ts, shape, axis, c, q, out)
  {
    forall idx | InShape(Sliced(axis, c, shape), idx)
      ensures InShape(shape, Whole(axis, c, q, idx)) && At(out, idx) == SumOf(add, Everywhere(ts, shape, Whole(axis, c, q, idx)))
    {
      ReduceScatterSlices(add, ts, shape, q, dim, idx);
    }
  }

  /** Where an element of the concatenated slices comes from. */
  lemma CatPart<V>(outs: seq<Tensor<V>>, shape: seq<nat>, axis: nat, c: nat, idx: seq<nat>) returns (q: nat, local: seq<nat>)
    requires axis < |shape| && shape[axis] == |outs| * c && InShape(shape, idx)
    requires Uniform(outs, Sliced(axis, c, shape))
    ensures Sliced(axis, |outs| * c, Sliced(axis, c, shape)) == shape
    ensures q < |outs| && InShape(Sliced(axis, c, shape), local) && Whole(axis, c, q, local) == idx
    ensures At(Cat(outs, Sliced(axis, c, shape), axis), idx) == At(outs[q], local)
  {
    PartOfWhole(shape, axis, |outs|, c, idx);
    var part := Sliced(axis, c, shape);
    assert part[axis] == c && Sliced(axis, |outs| * c, part) == shape;
    CatAt(outs, part, axis, idx);
    q, local := idx[axis] / c, Sliced(axis, idx[axis] % c, idx);
  }

  /** An element of the concatenated slices is the sum of that element over the ranks. */
  lemma GatheredElement<V>(add: (V, V) -> V, ts: seq<Tensor<V>>, shape: seq<nat>, outs: seq<Tensor<V>>, axis: nat, c: nat, idx: seq<nat>)
    requires Uniform(ts, shape) && |ts| == |outs| && axis < |shape| && shape[axis] == |outs| * c
    requires Uniform(outs, Sliced(axis, c, shape)) && InShape(shape, idx)
    requires forall q | 0 <= q < |outs| :: IsSlice(add, ts, shape, axis, c, q, outs[q])
    ensures Sliced(axis, |outs| * c, Sliced(axis, c, shape)) == shape
    ensures At(Cat(outs, Sliced(axis, c, shape), axis), idx) == SumOf(add, Everywhere(ts, shape, idx))
  {
    var q, local := CatPart(outs, shape, axis, c, idx);
    assert IsSlice(add, ts, shape, axis, c, q, outs[q]);
  }

  /** Every index of the whole lies in exactly one slice. */
  lemma PartOfWhole(shape: seq<nat>, axis: nat, world: nat, c: nat, idx: seq<nat>)
    requires axis < |shape| && shape[axis] == world * c && InShape(shape, idx)
    ensures c > 0 && idx[axis] / c < world
    ensures Sliced(axis, world * c, Sliced(axis, c, shape)) == shape
    ensures InShape(Sliced(axis, c, shape), Sliced(axis, idx[axis] % c, idx))
    ensures Whole(axis, c, idx[axis] / c, Sliced(axis, idx[axis] % c, idx)) == idx
  {
    Split(idx[axis], world, c);
  }

  lemma OutputShape<V>(add: (V, V) -> V, ts: seq<Tensor<V>>, shape: seq<nat>, out: Tensor<V>, q: nat, dim: int, axis: nat)
    requires Uniform(ts, shape) && |ts| > 1 && q < |ts| && ScatterAxis(dim, |shape|) == axis < |shape|
    requires shape[axis] % |ts| == 0 && ReduceScatter(add, ts, shape, q, dim) == Ok(out)
    ensures Sound(out) && out.shape == Sliced(axis, shape[axis] / |ts|, shape)
  {
    var part := Sliced(axis, shape[axis] / |ts|, shape);
    assert ToFront(axis, part) == ChunkShape(shape, axis, |ts|);
    FrontToFront(axis, part);
  }

  lemma ScatteredShapes<V>(add: (V, V) -> V, ts: seq<Tensor<V>>, shape: seq<nat>, outs: seq<Tensor<V>>, dim: int)
    requires Uniform(ts, shape) && |ts| == |outs| && |ts| > 1
    requires Axis(dim, |shape|) >= 0 && shape[Axis(dim, |shape|)] % |ts| == 0
    requires forall q | 0 <= q < |ts| :: ReduceScatter(add, ts, shape, q, dim) == Ok(outs[q])
    ensures ScatterAxis(dim, |shape|) == Axis(dim, |shape|)
    ensures Uniform(outs, Sliced(Axis(dim, |shape|), shape[Axis(dim, |shape|)] / |ts|, shape))
  {
    var axis := Axis(dim, |shape|);
    var c := shape[axis] / |ts|;
    forall q | 0 <= q < |ts| ensures Sound(outs[q]) && outs[q].shape == Sliced(axis, c, shape) {
      OutputShape(add, ts, shape, outs[q], q, dim, axis);
    }
  }

  lemma AxisIsRemainder(dim: int, nd: nat)
    requires nd > 0 && -2 * nd <= dim < nd
    ensures ScatterAxis(dim, nd) == dim % nd
  {
    var q := if dim + nd < 0 then -2 else if dim < 0 then -1 else 0;
    DivModUnique(q, dim - q * nd, nd);
  }

  /** When `reduce_scatter` refuses: dimensions down to twice the tensor rank below zero are accepted,
      because the rank is added before PyTorch wraps the dimension itself. */
  lemma ReduceScatterErrors<V>(add: (V, V) -> V, ts: seq<Tensor<V>>, shape: seq<nat>, r: nat, dim: int)
    requires Uniform(ts, shape) && r < |ts| && |ts| > 1
    ensures ReduceScatter(add, ts, shape, r, dim) == IndexError <==> !(-2 * |shape| <= dim < |shape|)
    ensures HostAllGather(ts, shape, r, dim) == IndexError <==> !(-|shape| <= dim < |shape|)
    ensures ReduceScatter(add, ts, shape, r, dim) == NotDivisible <==>
              -2 * |shape| <= dim < |shape| && shape[dim % |shape|] % |ts| != 0
  {
    if -2 * |shape| <= dim < |shape| {
      AxisIsRemainder(dim, |shape|);
    }
  }
}
