/** The element kernels and the grids that launch them (native/mapped_peer_reduce.hip). */
module Kernels {
  import Arithmetic

  const THREADS := 256
  const UINT_RANGE := 0x1_0000_0000
  const SIZE_RANGE := 0x1_0000_0000_0000_0000

  /** A thread of a one-dimensional grid. */
  datatype Thread = Thread(block: nat, lane: nat)

  /** The largest count whose block count survives the cast to a 32-bit unsigned int. */
  const COVERED_COUNT := (UINT_RANGE - 1) * THREADS

  /** The block count of a launch: 64-bit unsigned arithmetic, then a cast to 32 bits. No launch for zero. */
  function Blocks(count: nat): nat {
    if count == 0 then 0 else (count + (THREADS - 1)) % SIZE_RANGE / THREADS % UINT_RANGE
  }

  predicate InGrid(t: Thread, blocks: nat) {
    t.block < blocks && t.lane < THREADS
  }

  function Index(t: Thread): nat {
    t.block * THREADS + t.lane
  }

  /** The thread a grid gives to an index. */
  function Owner(i: nat): Thread {
    Thread(i / THREADS, i % THREADS)
  }

  lemma OwnerOwns(t: Thread, i: nat)
    requires t.lane < THREADS
    ensures Index(t) == i <==> t == Owner(i)
  {
    Arithmetic.DivModUnique(t.block, t.lane, THREADS);
  }

  /** A covered launch has just enough blocks: with one fewer, the last element would have no thread. */
  lemma BlocksAreMinimal(count: nat)
    requires 0 < count <= COVERED_COUNT
    ensures (Blocks(count) - 1) * 256 < count <= Blocks(count) * 256
  {
    assert count + (THREADS - 1) < SIZE_RANGE;
  }

  /** The grid reaches exactly the indices below `count` exactly when the block count fits. */
  lemma CoveredExactlyWhenBlocksFit(count: nat)
    requires count < SIZE_RANGE
    ensures (forall i: nat :: i < count ==> InGrid(Owner(i), Blocks(count))) <==> count <= 0xFFFF_FFFF * 256
  {
    if count > COVERED_COUNT {
      var i := Blocks(count) * THREADS;
      assert i < count && !InGrid(Owner(i), Blocks(count));
    } else if count > 0 {
      assert Blocks(count) == (count + (THREADS - 1)) / THREADS;
      forall i: nat | i < count
        ensures InGrid(Owner(i), Blocks(count))
      {
      }
    }
  }

  /** An order in which the hardware may run a grid: each thread once. */
  ghost predicate Schedule(order: seq<Thread>, blocks: nat) {
    && (forall j :: 0 <= j < |order| ==> InGrid(order[j], blocks))
    && (forall i, j :: 0 <= i < j < |order| ==> order[i] != order[j])
    && (forall t: Thread :: InGrid(t, blocks) ==> t in order)
  }

  /** The threads of a schedule that write index `i` of a launch over `count` elements. */
  ghost function Writers(order: seq<Thread>, count: nat, i: nat): set<nat> {
    set j: nat | j < |order| && Index(order[j]) < count && Index(order[j]) == i
  }

  /** Each index below the count is written by one thread, and no other index by any. */
  lemma WrittenOnce(order: seq<Thread>, count: nat, i: nat)
    requires count <= COVERED_COUNT && Schedule(order, Blocks(count))
    ensures |Writers(order, count, i)| == if i < count then 1 else 0
  {
    if i < count {
      CoveredExactlyWhenBlocksFit(count);
      assert InGrid(Owner(i), Blocks(count));
      var at :| 0 <= at < |order| && order[at] == Owner(i);
      OwnerOwns(order[at], i);
      forall j: nat | j in Writers(order, count, i)
        ensures j == at
      {
        OwnerOwns(order[j], i);
      }
      assert Writers(order, count, i) == {at};
    } else {
      assert Writers(order, count, i) == {};
    }
  }

  /** The thread that owns an index has run among the first `n`. */
  ghost predicate Ran(order: seq<Thread>, n: nat, i: nat)
    requires n <= |order|
  {
    Owner(i) in order[..n]
  }

  /** What one more thread adds to the owners that have run. */
  lemma RanNext(order: seq<Thread>, blocks: nat, n: nat, i: nat)
    requires n < |order| && Schedule(order, blocks)
    ensures Ran(order, n + 1, i) <==> Ran(order, n, i) || Index(order[n]) == i
    ensures Index(order[n]) == i ==> !Ran(order, n, i)
  {
    assert order[..n + 1] == order[..n] + [order[n]];
    OwnerOwns(order[n], i);
  }

  /** The add kernels. `output` may be one of the inputs: a thread reads only the index it writes. The two
      inputs hold at least `count` elements, as the caller's pointers must. */
  method Add<T>(plus: (T, T) -> T, local: array<T>, peer: array<T>, output: array<T>, count: nat, order: seq<Thread>)
    requires count <= local.Length && count <= peer.Length && count <= output.Length
    requires Schedule(order, Blocks(count))
    modifies output
    ensures forall i :: 0 <= i < output.Length ==>
      output[i] == if i < count && InGrid(Owner(i), Blocks(count)) then plus(old(local[i]), old(peer[i])) else old(output[i])
  {
    var n := 0;
    while n < |order|
      invariant 0 <= n <= |order|
      invariant forall i :: 0 <= i < output.Length ==>
        output[i] == if i < count && Ran(order, n, i) then plus(old(local[i]), old(peer[i])) else old(output[i])
      invariant forall i :: 0 <= i < count && !Ran(order, n, i) ==> local[i] == old(local[i]) && peer[i] == old(peer[i])
    {
      forall i: nat | i < output.Length
        ensures Ran(order, n + 1, i) <==> Ran(order, n, i) || Index(order[n]) == i
        ensures Index(order[n]) == i ==> !Ran(order, n, i)
      {
        RanNext(order, Blocks(count), n, i);
      }
      var index := Index(order[n]);
      if index < count {
        output[index] := plus(local[index], peer[index]);
      }
      n := n + 1;
    }
    AllRan(order, Blocks(count));
  }

  /** Over a whole schedule exactly the owners inside the grid run. */
  lemma AllRan(order: seq<Thread>, blocks: nat)
    requires Schedule(order, blocks)
    ensures forall i: nat :: Ran(order, |order|, i) <==> InGrid(Owner(i), blocks)
  {
    assert order[..|order|] == order;
  }

  /** The byte copy kernel, for buffers that are the same or disjoint. */
  method Copy<T>(source: array<T>, destination: array<T>, count: nat, order: seq<Thread>)
    requires count <= source.Length && count <= destination.Length
    requires Schedule(order, Blocks(count))
    modifies destination
    ensures forall i :: 0 <= i < destination.Length ==>
      destination[i] == if i < count && InGrid(Owner(i), Blocks(count)) then old(source[i]) else old(destination[i])
  {
    var n := 0;
    while n < |order|
      invariant 0 <= n <= |order|
      invariant forall i :: 0 <= i < destination.Length ==>
        destination[i] == if i < count && Ran(order, n, i) then old(source[i]) else old(destination[i])
      invariant forall i :: 0 <= i < count && !Ran(order, n, i) ==> source[i] == old(source[i])
    {
      forall i: nat | i < destination.Length
        ensures Ran(order, n + 1, i) <==> Ran(order, n, i) || Index(order[n]) == i
        ensures Index(order[n]) == i ==> !Ran(order, n, i)
      {
        RanNext(order, Blocks(count), n, i);
      }
      var index := Index(order[n]);
      if index < count {
        destination[index] := source[index];
      }
      n := n + 1;
    }
    AllRan(order, Blocks(count));
  }

  /** How many indices a launch reaches: all of them, or as many as its truncated grid has threads. */
  function Reached(count: nat): (n: nat)
    ensures n <= count
  {
    if Blocks(count) * THREADS < count then Blocks(count) * THREADS else count
  }

  lemma InGridExactly(i: nat, count: nat)
    ensures i < count && InGrid(Owner(i), Blocks(count)) <==> i < Reached(count)
  {
  }

  lemma ReachedExactly(count: nat)
    requires count < SIZE_RANGE
    ensures Reached(count) == count <==> count <= 0xFFFF_FFFF * 256
  {
    CoveredExactlyWhenBlocksFit(count);
    if count > 0 {
      InGridExactly(count - 1, count);
    }
    if count > COVERED_COUNT {
      assert Blocks(count) * THREADS < count;
    }
  }

  /** A launch for any count, whatever order the threads run in: the elementwise sum on the indices it reaches,
      which are all of them exactly up to the covered count, and nothing else changed. */
  method LaunchAdd<T>(plus: (T, T) -> T, local: array<T>, peer: array<T>, output: array<T>, count: nat, order: seq<Thread>)
    requires count <= local.Length && count <= peer.Length && count <= output.Length
    requires count < SIZE_RANGE && Schedule(order, Blocks(count))
    modifies output
    ensures output[Reached(count)..] == old(output[Reached(count)..])
    ensures forall i :: 0 <= i < Reached(count) ==> output[i] == plus(old(local[i]), old(peer[i]))
    ensures Reached(count) == count <==> count <= 0xFFFF_FFFF * 256
  {
    forall i: nat ensures i < count && InGrid(Owner(i), Blocks(count)) <==> i < Reached(count) {
      InGridExactly(i, count);
    }
    ReachedExactly(count);
    Add(plus, local, peer, output, count, order);
  }
}
