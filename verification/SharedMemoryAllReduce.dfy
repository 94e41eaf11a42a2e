/** The host side of the mapped all-reduce: what a call checks, counts and enqueues. */
module SharedMemoryAllReduce {
  import opened StreamMachine
  import opened ByteMapping
  import opened LittleEndian
  import CpuAddPath
  import opened CpuByteRefinement

  /** A HIP stream: operations are appended by the host and executed in order by the GPU. */
  class HipStream {
    var queue: seq<ByteOp>

    constructor ()
      ensures queue == []
    {
      queue := [];
    }

    method Enqueue(op: ByteOp)
      modifies this
      ensures queue == old(queue) + [op]
    {
      queue := queue + [op];
    }
  }

  /** The native entry point, with every pointer passed separately as in its signature. */
  method EnqueueAllReduce(stream: HipStream, local: Bytes, localHost: nat, peerHost: nat,
                          ownReady: nat, peerReady: nat, ownConsumed: nat, peerConsumed: nat, epoch: nat)
    requires epoch > 0
    modifies stream
    ensures stream.queue == old(stream.queue)
            + (if epoch == 1 then [] else [WaitWord(ownConsumed, epoch - 1)])
            + [CopyBytes(localHost, epoch, local), WriteWord(ownReady, epoch), WaitWord(peerReady, epoch),
               AddBytes(epoch, local, peerHost), WriteWord(peerConsumed, epoch)]
  {
    if epoch > 1 {
      stream.Enqueue(WaitWord(ownConsumed, epoch - 1));
    }
    stream.Enqueue(CopyBytes(localHost, epoch, local));
    stream.Enqueue(WriteWord(ownReady, epoch));
    stream.Enqueue(WaitWord(peerReady, epoch));
    stream.Enqueue(AddBytes(epoch, local, peerHost));
    stream.Enqueue(WriteWord(peerConsumed, epoch));
  }

  datatype Outcome =
    | Enqueued(epoch: nat)
    | PayloadTooLarge
    | EpochExhausted
    | CpuPath

  class SharedMemoryAllReduce {
    const rank: Rank
    const max: nat
    const useStream: bool
    const mapping: array<Byte>
    const localOutput: array<Byte>
    var epoch: nat

    constructor (rank: Rank, max: nat, useStream: bool, mapping: array<Byte>, localOutput: array<Byte>)
      requires mapping.Length == MappingBytes(max) && localOutput.Length == max && mapping != localOutput
      ensures this.rank == rank && this.max == max && this.useStream == useStream
      ensures this.mapping == mapping && this.localOutput == localOutput && epoch == 0 && Valid()
    {
      this.rank, this.max, this.useStream := rank, max, useStream;
      this.mapping, this.localOutput, epoch := mapping, localOutput, 0;
    }

    predicate Valid() {
      mapping.Length == MappingBytes(max) && localOutput.Length == max && mapping != localOutput
    }

    /** The stream-ordered path: guard the epoch, advance it and enqueue one program. */
    method StreamAllReduce(source: Bytes, stream: HipStream) returns (r: Outcome)
      modifies this`epoch, stream
      ensures old(epoch) >= 0xFFFF_FF00 ==> r == EpochExhausted && epoch == old(epoch) && stream.queue == old(stream.queue)
      ensures old(epoch) < 0xFFFF_FF00 ==>
                && r == Enqueued(old(epoch) + 1) && epoch == old(epoch) + 1
                && stream.queue == old(stream.queue) + ByteProgram(max, rank, epoch, source)
    {
      if epoch >= EPOCH_LIMIT {
        return EpochExhausted;
      }
      epoch := epoch + 1;
      var peer := Peer(rank);
      EnqueueAllReduce(stream, source, SlotOffset(max, rank), SlotOffset(max, peer),
                       ControlOffset(max, Ready, rank), ControlOffset(max, Ready, peer),
                       ControlOffset(max, Consumed, rank), ControlOffset(max, Consumed, peer), epoch);
      r := Enqueued(epoch);
    }

    /** One call. On a floating-point tensor of a stream-capable pair it succeeds exactly when the
        byte-level machine can issue it, and leaves exactly the queue and the epoch of that step. */
    method AllReduce(source: Bytes, isFloat: bool, stream: HipStream, ghost add: Sum, ghost b: ByteState, ghost q: nat)
      returns (r: Outcome)
      requires Mapped(max, b) && q < |b.ranks[rank].queues|
      requires stream.queue == b.ranks[rank].queues[q] && epoch == |b.ranks[rank].calls|
      modifies this`epoch, stream
      ensures r.PayloadTooLarge? <==> |source| > max
      ensures r.CpuPath? <==> |source| <= max && !(useStream && isFloat)
      ensures r.Enqueued? <==> useStream && isFloat && ByteEnabled(max, b, Issue(rank, q, source))
      ensures r.Enqueued? ==>
                var me := ByteStep(max, add, b, Issue(rank, q, source)).ranks[rank];
                stream.queue == me.queues[q] && epoch == |me.calls| == r.epoch
      ensures !r.Enqueued? ==> epoch == old(epoch) && stream.queue == old(stream.queue)
    {
      if |source| > max {
        return PayloadTooLarge;
      }
      if useStream && isFloat {
        r := StreamAllReduce(source, stream);
      } else {
        r := CpuPath;
      }
    }

    /** CPU path, before its first barrier: copy the tensor into this rank's slot of the mapping. That is the
        byte-level `Begin` step. */
    method CopyIn(source: Bytes, ghost sizes: seq<nat>, ghost add: Plus, ghost b: ByteWorld)
      requires Valid() && b.mem == mapping[..] && ByteCpuEnabled(max, sizes, b, CpuAddPath.Begin(rank, source))
      modifies mapping
      ensures mapping[..] == ByteCpuStep(max, sizes, add, b, CpuAddPath.Begin(rank, source)).mem
    {
      var at := SlotOffset(max, rank);
      CopyInto(mapping, at, source);
    }

    /** CPU path, between its barriers: add both slots, rank 0's first, into the staging buffer, and copy the
        result out of it. That is the byte-level `Sum` step. */
    method AddSlots(size: nat, ghost sizes: seq<nat>, add: Plus, ghost b: ByteWorld) returns (output: Bytes)
      requires Valid() && b.mem == mapping[..] && ByteCpuEnabled(max, sizes, b, CpuAddPath.Sum(rank))
      requires size == sizes[|b.workers[rank].inputs| - 1] && |SlotSum(max, add, b.mem, size)| == size
      modifies localOutput
      ensures ByteCpuStep(max, sizes, add, b, CpuAddPath.Sum(rank)).workers[rank].results == b.workers[rank].results + [output]
      ensures localOutput[..] == output + old(localOutput[size..])
    {
      var one := SlotOffset(max, 1);
      var sum := add(mapping[..size], mapping[one..one + size]);
      assert mapping[..size] == b.mem[..size] && mapping[one..one + size] == b.mem[one..one + size];
      assert sum == SlotSum(max, add, b.mem, size);
      CopyInto(localOutput, 0, sum);
      assert localOutput[..][..size] == sum;
      output := localOutput[..size];
    }
  }

  /** `memcpy` into a buffer at an offset. */
  method CopyInto(buffer: array<Byte>, at: nat, source: Bytes)
    requires at + |source| <= buffer.Length
    modifies buffer
    ensures buffer[..] == Splice(old(buffer[..]), at, source)
  {
    ghost var was := buffer[..];
    var i := 0;
    while i < |source|
      invariant 0 <= i <= |source|
      invariant buffer[..] == Splice(was, at, source[..i])
    {
      SpliceNext(was, at, source, i);
      buffer[at + i] := source[i];
      i := i + 1;
    }
    assert source[..i] == source;
  }

  lemma SpliceNext(mem: Bytes, at: nat, data: Bytes, i: nat)
    requires at + |data| <= |mem| && i < |data|
    ensures Splice(mem, at, data[..i + 1]) == Splice(mem, at, data[..i])[at + i := data[i]]
  {
  }
}
