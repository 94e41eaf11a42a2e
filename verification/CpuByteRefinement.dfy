/** The CPU path on the real mapping: both slots in one flat byte array. Every byte-level run is a run of the
    abstract path, so its results are the sums of the tensors of their own calls. */
module CpuByteRefinement {
  import opened StreamMachine
  import opened CpuAddPath
  import opened ByteMapping
  import opened LittleEndian

  type Plus = (Bytes, Bytes) -> Bytes

  /** The mapping and both host threads. `sizes` lists the payload size of each call, equal on both ranks. */
  datatype ByteWorld = ByteWorld(mem: Bytes, workers: seq<Worker<Bytes>>)

  /** The host threads over slots that do not matter. */
  function Threads(b: ByteWorld): World<Bytes> {
    World([[], []], b.workers)
  }

  ghost predicate ByteCpuInitial(max: nat, b: ByteWorld) {
    |b.mem| == MappingBytes(max) && CpuInitial(Threads(b))
  }

  predicate ByteCpuEnabled(max: nat, sizes: seq<nat>, b: ByteWorld, a: WorkerAction<Bytes>) {
    && |b.mem| == MappingBytes(max) && CpuEnabled(|sizes|, Threads(b), a)
    && (a.Begin? ==> |a.payload| == sizes[|b.workers[a.rank].inputs|] <= max)
    && (a.Sum? ==> 0 < |b.workers[a.rank].inputs| <= |sizes| && sizes[|b.workers[a.rank].inputs| - 1] <= max)
  }

  /** What a rank computes: rank 0's slot plus rank 1's, as far as the call's size. */
  function SlotSum(max: nat, add: Plus, mem: Bytes, size: nat): Bytes
    requires |mem| == MappingBytes(max) && size <= max
  {
    add(mem[SlotOffset(max, 0)..SlotOffset(max, 0) + size], mem[SlotOffset(max, 1)..SlotOffset(max, 1) + size])
  }

  /** A begin copies into the own slot; a sum reads both; the barrier does not touch the mapping. */
  function ByteCpuStep(max: nat, sizes: seq<nat>, add: Plus, b: ByteWorld, a: WorkerAction<Bytes>): (t: ByteWorld)
    requires ByteCpuEnabled(max, sizes, b, a)
    ensures |t.mem| == |b.mem|
  {
    var workers := CpuStep(|sizes|, add, Threads(b), a).workers;
    match a
    case Begin(r, data) => ByteWorld(Splice(b.mem, SlotOffset(max, r), data), workers)
    case Sum(r) =>
      var me := b.workers[r];
      var sum := SlotSum(max, add, b.mem, sizes[|me.inputs| - 1]);
      ByteWorld(b.mem, workers[r := workers[r].(results := me.results + [sum])])
    case _ => ByteWorld(b.mem, workers)
  }

  ghost predicate IsByteCpuRun(max: nat, sizes: seq<nat>, add: Plus, trace: seq<ByteWorld>, acts: seq<WorkerAction<Bytes>>) {
    && |trace| == |acts| + 1 && ByteCpuInitial(max, trace[0])
    && forall i | 0 <= i < |acts| :: ByteCpuSteps(max, sizes, add, trace[i], acts[i], trace[i + 1])
  }

  ghost predicate ByteCpuSteps(max: nat, sizes: seq<nat>, add: Plus, b: ByteWorld, a: WorkerAction<Bytes>, t: ByteWorld) {
    ByteCpuEnabled(max, sizes, b, a) && t == ByteCpuStep(max, sizes, add, b, a)
  }

  ghost predicate Sized(sizes: seq<nat>, inputs: seq<Bytes>) {
    |inputs| <= |sizes| && forall i | 0 <= i < |inputs| :: |inputs[i]| == sizes[i]
  }

  /** The mapping shows exactly the slots of the abstract world, and the threads are the same. */
  ghost predicate Shows(max: nat, sizes: seq<nat>, b: ByteWorld, w: World<Bytes>) {
    && |b.mem| == MappingBytes(max) && |w.slots| == 2 && |w.workers| == 2 && b.workers == w.workers
    && SlotHolds(max, b.mem, 0, w.slots[0]) && SlotHolds(max, b.mem, 1, w.slots[1])
    && Sized(sizes, w.workers[0].inputs) && Sized(sizes, w.workers[1].inputs)
  }

  lemma BeginShows(max: nat, sizes: seq<nat>, add: Plus, b: ByteWorld, w: World<Bytes>, r: Rank, data: Bytes)
    requires Shows(max, sizes, b, w) && ByteCpuEnabled(max, sizes, b, Begin(r, data))
    ensures CpuEnabled(|sizes|, w, Begin(r, data))
    ensures Shows(max, sizes, ByteCpuStep(max, sizes, add, b, Begin(r, data)), CpuStep(|sizes|, add, w, Begin(r, data)))
  {
    assert r == 0 || r == 1;
    CopyFillsSlot(max, b.mem, r, data, w.slots[Peer(r)]);
  }

  /** While a rank adds, both slots hold payloads of its call's size. */
  lemma SumShows(max: nat, sizes: seq<nat>, add: Plus, b: ByteWorld, w: World<Bytes>, r: Rank)
    requires Shows(max, sizes, b, w) && CpuInv(|sizes|, add, w, r) && ByteCpuEnabled(max, sizes, b, Sum(r))
    ensures CpuEnabled(|sizes|, w, Sum(r))
    ensures Shows(max, sizes, ByteCpuStep(max, sizes, add, b, Sum(r)), CpuStep(|sizes|, add, w, Sum(r)))
  {
    AddingTogether(|sizes|, add, w, r);
    SlotsAreSized(sizes, w, r);
    var size := sizes[|w.workers[r].inputs| - 1];
    assert SlotSum(max, add, b.mem, size) == add(w.slots[0], w.slots[1]);
  }

  lemma SlotsAreSized(sizes: seq<nat>, w: World<Bytes>, r: Rank)
    requires |w.slots| == 2 && |w.workers| == 2
    requires |w.workers[0].inputs| == |w.workers[1].inputs| > 0
    requires Holds(w.slots[r], w.workers[r].inputs) && Holds(w.slots[Peer(r)], w.workers[Peer(r)].inputs)
    requires Sized(sizes, w.workers[0].inputs) && Sized(sizes, w.workers[1].inputs)
    ensures |w.slots[0]| == |w.slots[1]| == sizes[|w.workers[r].inputs| - 1]
  {
    assert r == 0 || r == 1;
  }

  lemma StepShows(max: nat, sizes: seq<nat>, add: Plus, b: ByteWorld, w: World<Bytes>, a: WorkerAction<Bytes>)
    requires Shows(max, sizes, b, w) && CpuInv(|sizes|, add, w, a.rank) && ByteCpuEnabled(max, sizes, b, a)
    ensures CpuEnabled(|sizes|, w, a)
    ensures Shows(max, sizes, ByteCpuStep(max, sizes, add, b, a), CpuStep(|sizes|, add, w, a))
  {
    match a
    case Begin(r, data) => BeginShows(max, sizes, add, b, w, r, data);
    case Sum(r) => SumShows(max, sizes, add, b, w, r);
    case Enter(r) => assert r == 0 || r == 1;
    case Return(r) => assert r == 0 || r == 1;
  }

  lemma {:induction false} RunShows(max: nat, sizes: seq<nat>, add: Plus, trace: seq<ByteWorld>, acts: seq<WorkerAction<Bytes>>, i: nat)
    returns (w: World<Bytes>)
    requires IsByteCpuRun(max, sizes, add, trace, acts) && i <= |acts|
    ensures Shows(max, sizes, trace[i], w) && CpuInv(|sizes|, add, w, 0)
  {
    if i == 0 {
      w := Threads(trace[0]);
    } else {
      var u := RunShows(max, sizes, add, trace, acts, i - 1);
      assert ByteCpuSteps(max, sizes, add, trace[i - 1], acts[i - 1], trace[i]);
      CpuInvFlips(|sizes|, add, u, 0);
      StepShows(max, sizes, add, trace[i - 1], u, acts[i - 1]);
      CpuStepInv(|sizes|, add, u, acts[i - 1]);
      w := CpuStep(|sizes|, add, u, acts[i - 1]);
      CpuInvFlips(|sizes|, add, w, acts[i - 1].rank);
    }
  }

  /** Over every byte-level run, every result is the sum of the two tensors of its own call. */
  lemma ByteCpuResultsAreSums(max: nat, sizes: seq<nat>, add: Plus, trace: seq<ByteWorld>, acts: seq<WorkerAction<Bytes>>)
    requires IsByteCpuRun(max, sizes, add, trace, acts)
    ensures var workers := trace[|acts|].workers;
            && |workers| == 2
            && ResultsAreSums(add, workers[0].results, workers[0].inputs, workers[1].inputs)
            && ResultsAreSums(add, workers[1].results, workers[0].inputs, workers[1].inputs)
  {
    var w := RunShows(max, sizes, add, trace, acts, |acts|);
  }
}
