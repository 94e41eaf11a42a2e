/** The shared mapping as the ranks really see it: one flat byte array holding two payload slots
    and four 32-bit control words, addressed by offset. */
module ByteMapping {
  import opened StreamMachine
  import opened LittleEndian

  const CONTROL_BYTES := 4096
  const CACHE_LINE_BYTES := 64
  const WORD_BYTES: nat := 4
  const EPOCH_LIMIT := 0xFFFF_FF00
  const WORD_LIMIT := 0x1_0000_0000

  datatype Kind = Ready | Consumed

  /** Offset of a control word from the start of the mapping. */
  function ControlOffset(max: nat, kind: Kind, rank: Rank): nat {
    2 * max + ((if kind.Ready? then 0 else 2) + rank) * CACHE_LINE_BYTES
  }

  function SlotOffset(max: nat, rank: Rank): nat { rank * max }

  function MappingBytes(max: nat): nat { 2 * max + CONTROL_BYTES }

  /** A 32-bit store. */
  function Encode(v: nat): (w: Bytes)
    ensures |w| == 4
  {
    ToBytes(v, WORD_BYTES)
  }

  function Decode(w: Bytes): nat
    requires |w| == 4
  {
    FromBytes(w)
  }

  /** A stored word reads back modulo 2^32, so nothing is lost below that. */
  lemma DecodeEncode(v: nat)
    ensures Decode(Encode(v)) == v % WORD_LIMIT
  {
    StoreLoad(v, WORD_BYTES);
    assert Power256(2) == 0x1_0000;
    assert Power256(4) == WORD_LIMIT;
  }

  function Splice(mem: Bytes, at: nat, data: Bytes): (r: Bytes)
    requires at + |data| <= |mem|
    ensures |r| == |mem|
  {
    mem[..at] + data + mem[at + |data|..]
  }

  /** Writing one region leaves every disjoint region as it was. */
  lemma SpliceReads(mem: Bytes, at: nat, data: Bytes, lo: nat, hi: nat)
    requires at + |data| <= |mem| && lo <= hi <= |mem|
    ensures Splice(mem, at, data)[at..at + |data|] == data
    ensures hi <= at || at + |data| <= lo ==> Splice(mem, at, data)[lo..hi] == mem[lo..hi]
  {
  }

  function Word(mem: Bytes, at: nat): nat
    requires at + 4 <= |mem|
  {
    Decode(mem[at..at + 4])
  }

  /** A stored word reads back modulo 2^32, and disjoint words are not disturbed. */
  lemma WordWritten(mem: Bytes, at: nat, v: nat, other: nat)
    requires at + 4 <= |mem| && other + 4 <= |mem|
    ensures Word(Splice(mem, at, Encode(v)), at) == v % WORD_LIMIT
    ensures other + 4 <= at || at + 4 <= other ==> Word(Splice(mem, at, Encode(v)), other) == Word(mem, other)
  {
    DecodeEncode(v);
    SpliceReads(mem, at, Encode(v), other, other + 4);
  }

  /** Slot `r` holds this payload. */
  ghost predicate SlotHolds(max: nat, mem: Bytes, r: Rank, data: Bytes)
    requires |mem| == MappingBytes(max)
  {
    |data| <= max && mem[SlotOffset(max, r)..SlotOffset(max, r) + |data|] == data
  }

  /** Filling a slot stores the payload there and leaves the other slot alone. */
  lemma CopyFillsSlot(max: nat, mem: Bytes, slot: Rank, data: Bytes, other: Bytes)
    requires |mem| == MappingBytes(max) && |data| <= max && SlotHolds(max, mem, Peer(slot), other)
    ensures SlotHolds(max, Splice(mem, SlotOffset(max, slot), data), slot, data)
    ensures SlotHolds(max, Splice(mem, SlotOffset(max, slot), data), Peer(slot), other)
  {
    SpliceReads(mem, SlotOffset(max, slot), data, SlotOffset(max, Peer(slot)), SlotOffset(max, Peer(slot)) + |other|);
  }

  /** The regions of the mapping, as the host computes them: the slots of rank 0 and 1, then one cache line for
      each of ready 0, ready 1, consumed 0 and consumed 1. All are in bounds and no two of them overlap. */
  lemma RegionsAreDisjoint(max: nat, kind: Kind, rank: Rank, kind': Kind, rank': Rank)
    ensures SlotOffset(max, 0) == 0 && SlotOffset(max, 1) == max && MappingBytes(max) == 2 * max + 4096
    ensures ControlOffset(max, Ready, 0) == 2 * max && ControlOffset(max, Ready, 1) == 2 * max + 64
    ensures ControlOffset(max, Consumed, 0) == 2 * max + 128 && ControlOffset(max, Consumed, 1) == 2 * max + 192
    ensures SlotOffset(max, 0) + max <= SlotOffset(max, 1) && SlotOffset(max, 1) + max <= ControlOffset(max, kind, rank)
    ensures ControlOffset(max, kind, rank) + WORD_BYTES <= MappingBytes(max)
    ensures (kind, rank) != (kind', rank') ==>
              || ControlOffset(max, kind, rank) + CACHE_LINE_BYTES <= ControlOffset(max, kind', rank')
              || ControlOffset(max, kind', rank') + CACHE_LINE_BYTES <= ControlOffset(max, kind, rank)
  {
  }

  datatype ByteOp =
    | WaitWord(at: nat, value: nat)
    | CopyBytes(at: nat, call: nat, data: Bytes)
    | WriteWord(at: nat, value: nat)
    | AddBytes(call: nat, data: Bytes, at: nat)

  /** The operations one stream all-reduce enqueues, by address. */
  function ByteProgram(max: nat, rank: Rank, epoch: nat, data: Bytes): seq<ByteOp>
    requires epoch > 0
  {
    var peer := Peer(rank);
    (if epoch > 1 then [WaitWord(ControlOffset(max, Consumed, rank), epoch - 1)] else []) +
    [CopyBytes(SlotOffset(max, rank), epoch, data),
     WriteWord(ControlOffset(max, Ready, rank), epoch),
     WaitWord(ControlOffset(max, Ready, peer), epoch),
     AddBytes(epoch, data, SlotOffset(max, peer)),
     WriteWord(ControlOffset(max, Consumed, peer), epoch)]
  }

  datatype ByteRank = ByteRank(calls: seq<Call<Bytes>>, queues: seq<seq<ByteOp>>, outputs: map<nat, Bytes>)

  datatype ByteState = ByteState(mem: Bytes, ranks: seq<ByteRank>)

  type Sum = (Bytes, Bytes) -> Bytes

  predicate Mapped(max: nat, b: ByteState) {
    |b.mem| == MappingBytes(max) && |b.ranks| == 2
  }

  /** A fresh mapping is zero; nothing is issued. */
  ghost predicate ByteInitial(max: nat, b: ByteState) {
    && Mapped(max, b)
    && (forall i | 0 <= i < |b.mem| :: b.mem[i] == 0)
    && forall r: Rank | r < 2 :: b.ranks[r].calls == [] && b.ranks[r].outputs == map[]
                                 && forall q | 0 <= q < |b.ranks[r].queues| :: b.ranks[r].queues[q] == []
  }

  predicate ByteOpEnabled(b: ByteState, op: ByteOp) {
    match op
    case WaitWord(at, v) => at + 4 <= |b.mem| && Word(b.mem, at) >= v
    case WriteWord(at, _) => at + 4 <= |b.mem|
    case CopyBytes(at, _, data) => at + |data| <= |b.mem|
    case AddBytes(_, data, at) => at + |data| <= |b.mem|
  }

  /** Issuing passes the payload-size check and the guard against epoch wrap-around. */
  predicate ByteEnabled(max: nat, b: ByteState, a: Action<Bytes>) {
    && Mapped(max, b)
    && a.stream < |b.ranks[a.rank].queues|
    && match a
       case Issue(r, _, data) => |data| <= max && |b.ranks[r].calls| < EPOCH_LIMIT
       case Run(r, q) => b.ranks[r].queues[q] != [] && ByteOpEnabled(b, b.ranks[r].queues[q][0])
  }

  function ByteExecute(add: Sum, b: ByteState, r: Rank, op: ByteOp): (t: ByteState)
    requires |b.ranks| == 2 && ByteOpEnabled(b, op)
    ensures |t.mem| == |b.mem| && |t.ranks| == 2
  {
    match op
    case WaitWord(_, _) => b
    case CopyBytes(at, _, data) => b.(mem := Splice(b.mem, at, data))
    case WriteWord(at, v) => b.(mem := Splice(b.mem, at, Encode(v)))
    case AddBytes(call, data, at) =>
      var sum := add(data, b.mem[at..at + |data|]);
      b.(ranks := b.ranks[r := b.ranks[r].(outputs := b.ranks[r].outputs[call := sum])])
  }

  function ByteStep(max: nat, add: Sum, b: ByteState, a: Action<Bytes>): (t: ByteState)
    requires ByteEnabled(max, b, a)
    ensures Mapped(max, t)
  {
    var me := b.ranks[a.rank];
    var queue := me.queues[a.stream];
    match a
    case Issue(r, q, data) =>
      b.(ranks := b.ranks[r := me.(calls := me.calls + [Call(q, data)],
                                   queues := me.queues[q := queue + ByteProgram(max, r, |me.calls| + 1, data)])])
    case Run(r, q) =>
      ByteExecute(add, b.(ranks := b.ranks[r := me.(queues := me.queues[q := queue[1..]])]), r, queue[0])
  }

  ghost predicate ByteLegal(max: nat, add: Sum, b: ByteState, acts: seq<Action<Bytes>>)
    decreases |acts|
  {
    acts == [] || (ByteEnabled(max, b, acts[0]) && ByteLegal(max, add, ByteStep(max, add, b, acts[0]), acts[1..]))
  }

  ghost function ByteAfter(max: nat, add: Sum, b: ByteState, acts: seq<Action<Bytes>>): ByteState
    requires ByteLegal(max, add, b, acts)
    decreases |acts|
  {
    if acts == [] then b else ByteAfter(max, add, ByteStep(max, add, b, acts[0]), acts[1..])
  }

  ghost predicate ByteReachable(max: nat, add: Sum, t: ByteState) {
    exists b, acts :: ByteInitial(max, b) && ByteLegal(max, add, b, acts) && ByteAfter(max, add, b, acts) == t
  }
}
