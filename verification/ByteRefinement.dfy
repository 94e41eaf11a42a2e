/** The byte-level machine refines the abstract mapped-host protocol. */
module ByteRefinement {
  import opened StreamMachine
  import opened ByteMapping
  import opened LittleEndian
  import MappedHostProtocol

  /** Abstract flag `f` lives at this offset: ready words first, then consumed words. */
  function FlagOffset(max: nat, f: nat): nat { 2 * max + f * CACHE_LINE_BYTES }

  function Lower(max: nat, op: Op<Bytes>): ByteOp {
    match op
    case Wait(f, v) => WaitWord(FlagOffset(max, f), v)
    case Copy(slot, call, data) => CopyBytes(SlotOffset(max, slot), call, data)
    case Signal(f, v) => WriteWord(FlagOffset(max, f), v)
    case Add(call, data, slot) => AddBytes(call, data, SlotOffset(max, slot))
  }

  function LowerAll(max: nat, ops: seq<Op<Bytes>>): (r: seq<ByteOp>)
    ensures |r| == |ops|
  {
    seq(|ops|, i requires 0 <= i < |ops| => Lower(max, ops[i]))
  }

  /** The addresses the Python layer computes are those of the protocol's slots and flags. */
  lemma ProgramIsLowered(max: nat, r: Rank, e: nat, data: Bytes)
    requires e > 0
    ensures ByteProgram(max, r, e, data) == LowerAll(max, Issued(MappedHost, r, e, data))
  {
  }

  /** Both ranks pass tensors of the same size to the same call. */
  ghost predicate EqualSizes(c0: seq<Call<Bytes>>, c1: seq<Call<Bytes>>) {
    forall i | 0 <= i < |c0| && i < |c1| :: |c0[i].payload| == |c1[i].payload|
  }

  predicate Fits(max: nat, calls: seq<Call<Bytes>>) {
    |calls| <= EPOCH_LIMIT && forall i | 0 <= i < |calls| :: |calls[i].payload| <= max
  }

  ghost predicate SameWords(max: nat, mem: Bytes, flags: seq<nat>) {
    && |mem| == MappingBytes(max) && |flags| == 4
    && forall f | 0 <= f < 4 :: Word(mem, FlagOffset(max, f)) == flags[f]
  }

  ghost predicate SameSlots(max: nat, mem: Bytes, slots: seq<Bytes>) {
    && |mem| == MappingBytes(max) && |slots| == 2
    && SlotHolds(max, mem, 0, slots[0]) && SlotHolds(max, mem, 1, slots[1])
  }

  /** Everything but the values of the outputs. */
  ghost predicate SameQueues(max: nat, b: ByteRank, s: RankState<Bytes>) {
    && b.calls == s.calls && b.outputs.Keys == s.outputs.Keys && Fits(max, b.calls)
    && |b.queues| == |s.queues|
    && forall q | 0 <= q < |b.queues| :: b.queues[q] == LowerAll(max, s.queues[q])
  }

  /** The byte state follows the control flow of the abstract state, whatever the payloads are. */
  ghost predicate Tracks(max: nat, b: ByteState, s: State<Bytes>) {
    && Mapped(max, b) && Shaped(MappedHost, s)
    && SameWords(max, b.mem, s.flags)
    && SameQueues(max, b.ranks[0], s.ranks[0]) && SameQueues(max, b.ranks[1], s.ranks[1])
  }

  /** Payloads and outputs agree too. */
  ghost predicate SameValues(max: nat, b: ByteState, s: State<Bytes>) {
    && Mapped(max, b) && Shaped(MappedHost, s) && SameSlots(max, b.mem, s.slots)
    && b.ranks[0].outputs == s.ranks[0].outputs && b.ranks[1].outputs == s.ranks[1].outputs
  }

  ghost predicate Refines(max: nat, b: ByteState, s: State<Bytes>) {
    Tracks(max, b, s) && SameValues(max, b, s)
  }

  lemma ZeroWord(mem: Bytes, at: nat)
    requires at + 4 <= |mem| && forall i | 0 <= i < |mem| :: mem[i] == 0
    ensures Word(mem, at) == 0
  {
    Zeros(mem[at..at + 4]);
  }

  lemma InitialRefines(max: nat, b: ByteState) returns (s: State<Bytes>)
    requires ByteInitial(max, b)
    ensures Initial(MappedHost, s) && Refines(max, b, s)
  {
    var idle0 := RankState([], seq(|b.ranks[0].queues|, _ => []), map[]);
    var idle1 := RankState([], seq(|b.ranks[1].queues|, _ => []), map[]);
    s := State([0, 0, 0, 0], [[], []], [idle0, idle1]);
    forall f | 0 <= f < 4 ensures Word(b.mem, FlagOffset(max, f)) == 0 {
      ZeroWord(b.mem, FlagOffset(max, f));
    }
    assert forall r: Rank | r < 2 :: b.ranks[r].calls == [];
  }

  /** A copy changes its own slot and nothing else the protocol looks at. */
  lemma CopyRefines(max: nat, mem: Bytes, flags: seq<nat>, slots: seq<Bytes>, slot: Rank, data: Bytes)
    requires SameWords(max, mem, flags) && |data| <= max
    ensures SameWords(max, Splice(mem, SlotOffset(max, slot), data), flags)
    ensures SameSlots(max, mem, slots) ==> SameSlots(max, Splice(mem, SlotOffset(max, slot), data), slots[slot := data])
  {
    forall f | 0 <= f < 4
      ensures Word(Splice(mem, SlotOffset(max, slot), data), FlagOffset(max, f)) == flags[f]
    {
      CopyKeepsWord(max, mem, slot, data, f);
    }
    if SameSlots(max, mem, slots) {
      CopyFillsSlot(max, mem, slot, data, slots[Peer(slot)]);
      assert slot == 0 || slot == 1;
    }
  }

  lemma CopyKeepsWord(max: nat, mem: Bytes, slot: Rank, data: Bytes, f: nat)
    requires |mem| == MappingBytes(max) && |data| <= max && f < 4
    ensures Word(Splice(mem, SlotOffset(max, slot), data), FlagOffset(max, f)) == Word(mem, FlagOffset(max, f))
  {
    SpliceReads(mem, SlotOffset(max, slot), data, FlagOffset(max, f), FlagOffset(max, f) + 4);
  }

  /** A stream write changes one control word and nothing else; no bit is lost below 2^32. */
  lemma SignalRefines(max: nat, mem: Bytes, flags: seq<nat>, slots: seq<Bytes>, f: nat, v: nat)
    requires SameWords(max, mem, flags) && f < 4 && v < WORD_LIMIT
    ensures SameWords(max, Splice(mem, FlagOffset(max, f), Encode(v)), flags[f := v])
    ensures SameSlots(max, mem, slots) ==> SameSlots(max, Splice(mem, FlagOffset(max, f), Encode(v)), slots)
  {
    var at := FlagOffset(max, f);
    forall g | 0 <= g < 4
      ensures Word(Splice(mem, at, Encode(v)), FlagOffset(max, g)) == flags[f := v][g]
    {
      WordWritten(mem, at, v, FlagOffset(max, g));
    }
    if SameSlots(max, mem, slots) {
      SignalKeepsSlot(max, mem, f, v, 0, slots[0]);
      SignalKeepsSlot(max, mem, f, v, 1, slots[1]);
    }
  }

  lemma SignalKeepsSlot(max: nat, mem: Bytes, f: nat, v: nat, r: Rank, data: Bytes)
    requires |mem| == MappingBytes(max) && f < 4 && SlotHolds(max, mem, r, data)
    ensures SlotHolds(max, Splice(mem, FlagOffset(max, f), Encode(v)), r, data)
  {
    SpliceReads(mem, FlagOffset(max, f), Encode(v), SlotOffset(max, r), SlotOffset(max, r) + |data|);
  }

  lemma IssueTracks(max: nat, add: Sum, b: ByteState, s: State<Bytes>, a: Action<Bytes>)
    requires Tracks(max, b, s) && a.Issue? && ByteEnabled(max, b, a)
    ensures Enabled(MappedHost, s, a)
    ensures Tracks(max, ByteStep(max, add, b, a), Step(MappedHost, add, s, a))
    ensures SameValues(max, b, s) ==> SameValues(max, ByteStep(max, add, b, a), Step(MappedHost, add, s, a))
  {
    var r, q, data := a.rank, a.stream, a.payload;
    var e := |s.ranks[r].calls| + 1;
    var t, u := ByteStep(max, add, b, a), Step(MappedHost, add, s, a);
    RankTracks(max, b, s, r);
    ProgramIsLowered(max, r, e, data);
    IssueEffect(MappedHost, add, s, r, q, data);
    LowerConcat(max, s.ranks[r].queues[q], Issued(MappedHost, r, e, data));
    assert SameQueues(max, t.ranks[r], u.ranks[r]);
  }

  lemma RankTracks(max: nat, b: ByteState, s: State<Bytes>, r: Rank)
    requires Tracks(max, b, s)
    ensures SameQueues(max, b.ranks[r], s.ranks[r]) && SameQueues(max, b.ranks[Peer(r)], s.ranks[Peer(r)])
  {
    assert r == 0 || r == 1;
  }

  lemma LowerConcat(max: nat, a: seq<Op<Bytes>>, b: seq<Op<Bytes>>)
    ensures LowerAll(max, a + b) == LowerAll(max, a) + LowerAll(max, b)
  {
  }

  lemma ByteRunEffect(max: nat, add: Sum, b: ByteState, r: Rank, q: nat)
    requires ByteEnabled(max, b, Run(r, q))
    ensures var me := b.ranks[r];
            var t := ByteStep(max, add, b, Run(r, q));
            var u := ByteExecute(add, b, r, me.queues[q][0]);
            && t.mem == u.mem && t.ranks[Peer(r)] == b.ranks[Peer(r)]
            && t.ranks[r] == ByteRank(me.calls, me.queues[q := me.queues[q][1..]], u.ranks[r].outputs)
  {
  }

  /** What the effect of an operation on the control words needs. */
  predicate Executable(max: nat, op: Op<Bytes>) {
    match op
    case Wait(f, _) => f < 4
    case Signal(f, v) => f < 4 && v < WORD_LIMIT
    case Copy(_, _, data) => |data| <= max
    case Add(_, data, _) => |data| <= max
  }

  /** The head of a runnable byte stream is the lowered head of the abstract one, which can run too. */
  lemma HeadTracks(max: nat, add: Sum, b: ByteState, s: State<Bytes>, r: Rank, q: nat)
    requires Tracks(max, b, s) && Reachable(MappedHost, add, s) && ByteEnabled(max, b, Run(r, q))
    ensures Enabled(MappedHost, s, Run(r, q)) && b.ranks[r].calls == s.ranks[r].calls && Fits(max, s.ranks[r].calls)
    ensures b.ranks[r].queues[q][0] == Lower(max, s.ranks[r].queues[q][0])
  {
    RankTracks(max, b, s, r);
    var op := s.ranks[r].queues[q][0];
    MappedHostProtocol.HeadFlag(add, s, r, q);
    match op
    case Wait(f, v) => assert Word(b.mem, FlagOffset(max, f)) == s.flags[f];
    case _ =>
  }

  lemma HeadIsExecutable(max: nat, add: Sum, s: State<Bytes>, r: Rank, q: nat)
    requires Reachable(MappedHost, add, s) && Enabled(MappedHost, s, Run(r, q)) && Fits(max, s.ranks[r].calls)
    ensures Executable(max, s.ranks[r].queues[q][0])
  {
    MappedHostProtocol.HeadOperation(add, s, r, q);
  }

  /** With equal sizes an add about to run finds a slot of its own size. */
  lemma HeadAddFits(add: Sum, s: State<Bytes>, r: Rank, q: nat)
    requires Reachable(MappedHost, add, s) && Enabled(MappedHost, s, Run(r, q)) && s.ranks[r].queues[q][0].Add?
    requires EqualSizes(s.ranks[0].calls, s.ranks[1].calls)
    ensures var op := s.ranks[r].queues[q][0]; |s.slots[op.slot]| == |op.payload|
  {
    MappedHostProtocol.HeadOperation(add, s, r, q);
    assert r == 0 || r == 1;
  }

  /** One byte-level operation has exactly the effect of its abstract counterpart on the words. */
  lemma ExecuteTracks(max: nat, add: Sum, b: ByteState, s: State<Bytes>, r: Rank, op: Op<Bytes>)
    requires Mapped(max, b) && Shaped(MappedHost, s) && SameWords(max, b.mem, s.flags)
    requires ByteOpEnabled(b, Lower(max, op)) && OpEnabled(s, op) && Executable(max, op)
    ensures var t, u := ByteExecute(add, b, r, Lower(max, op)), Execute(add, s, r, op);
            && SameWords(max, t.mem, u.flags)
            && (b.ranks[r].outputs.Keys == s.ranks[r].outputs.Keys ==> t.ranks[r].outputs.Keys == u.ranks[r].outputs.Keys)
  {
    match op
    case Wait(_, _) =>
    case Copy(slot, _, data) => CopyRefines(max, b.mem, s.flags, s.slots, slot, data);
    case Signal(f, v) => SignalRefines(max, b.mem, s.flags, s.slots, f, v);
    case Add(_, _, _) =>
  }

  /** And on the payloads, when an add meets a slot of its own size. */
  lemma ExecuteKeepsValues(max: nat, add: Sum, b: ByteState, s: State<Bytes>, r: Rank, op: Op<Bytes>)
    requires SameWords(max, b.mem, s.flags) && SameValues(max, b, s)
    requires ByteOpEnabled(b, Lower(max, op)) && OpEnabled(s, op) && Executable(max, op)
    requires op.Add? ==> |s.slots[op.slot]| == |op.payload|
    ensures var t, u := ByteExecute(add, b, r, Lower(max, op)), Execute(add, s, r, op);
            && SameSlots(max, t.mem, u.slots) && t.ranks[r].outputs == u.ranks[r].outputs
  {
    assert r == 0 || r == 1;
    match op
    case Wait(_, _) =>
    case Copy(slot, _, data) => CopyRefines(max, b.mem, s.flags, s.slots, slot, data);
    case Signal(f, v) => SignalRefines(max, b.mem, s.flags, s.slots, f, v);
    case Add(_, _, slot) => assert slot == 0 || slot == 1;
  }

  /** Popping the head keeps a rank's queues matched; only an add changes its outputs. */
  lemma PoppedRank(max: nat, b: ByteRank, s: RankState<Bytes>, q: nat, outputs: map<nat, Bytes>, sums: map<nat, Bytes>)
    requires SameQueues(max, b, s) && q < |b.queues| && b.queues[q] != [] && outputs.Keys == sums.Keys
    ensures SameQueues(max, ByteRank(b.calls, b.queues[q := b.queues[q][1..]], outputs),
                       RankState(s.calls, s.queues[q := s.queues[q][1..]], sums))
  {
    assert LowerAll(max, s.queues[q])[1..] == LowerAll(max, s.queues[q][1..]);
  }

  lemma RunTracks(max: nat, add: Sum, b: ByteState, s: State<Bytes>, r: Rank, q: nat)
    requires Tracks(max, b, s) && Reachable(MappedHost, add, s) && ByteEnabled(max, b, Run(r, q))
    ensures Enabled(MappedHost, s, Run(r, q))
    ensures Tracks(max, ByteStep(max, add, b, Run(r, q)), Step(MappedHost, add, s, Run(r, q)))
  {
    HeadTracks(max, add, b, s, r, q);
    HeadIsExecutable(max, add, s, r, q);
    RunStepTracks(max, add, b, s, r, q);
  }

  lemma RunStepTracks(max: nat, add: Sum, b: ByteState, s: State<Bytes>, r: Rank, q: nat)
    requires Tracks(max, b, s) && ByteEnabled(max, b, Run(r, q)) && Enabled(MappedHost, s, Run(r, q))
    requires b.ranks[r].queues[q][0] == Lower(max, s.ranks[r].queues[q][0]) && Executable(max, s.ranks[r].queues[q][0])
    ensures Tracks(max, ByteStep(max, add, b, Run(r, q)), Step(MappedHost, add, s, Run(r, q)))
  {
    RankTracks(max, b, s, r);
    var op := s.ranks[r].queues[q][0];
    ExecuteTracks(max, add, b, s, r, op);
    RunEffect(MappedHost, add, s, r, q);
    ByteRunEffect(max, add, b, r, q);
    PoppedRank(max, b.ranks[r], s.ranks[r], q,
               ByteExecute(add, b, r, Lower(max, op)).ranks[r].outputs, Execute(add, s, r, op).ranks[r].outputs);
  }

  lemma RunKeepsValues(max: nat, add: Sum, b: ByteState, s: State<Bytes>, r: Rank, q: nat)
    requires Refines(max, b, s) && Reachable(MappedHost, add, s) && ByteEnabled(max, b, Run(r, q)) && Enabled(MappedHost, s, Run(r, q))
    requires EqualSizes(b.ranks[0].calls, b.ranks[1].calls)
    ensures SameValues(max, ByteStep(max, add, b, Run(r, q)), Step(MappedHost, add, s, Run(r, q)))
  {
    HeadTracks(max, add, b, s, r, q);
    HeadIsExecutable(max, add, s, r, q);
    var op := s.ranks[r].queues[q][0];
    if op.Add? {
      HeadAddFits(add, s, r, q);
    }
    ExecuteKeepsValues(max, add, b, s, r, op);
    RunEffect(MappedHost, add, s, r, q);
    ByteRunEffect(max, add, b, r, q);
    assert r == 0 || r == 1;
  }

  lemma {:induction false} CallsKept(max: nat, add: Sum, b: ByteState, acts: seq<Action<Bytes>>)
    requires Mapped(max, b) && ByteLegal(max, add, b, acts)
    ensures Mapped(max, ByteAfter(max, add, b, acts))
    ensures b.ranks[0].calls <= ByteAfter(max, add, b, acts).ranks[0].calls
    ensures b.ranks[1].calls <= ByteAfter(max, add, b, acts).ranks[1].calls
    decreases |acts|
  {
    if acts != [] {
      CallsKept(max, add, ByteStep(max, add, b, acts[0]), acts[1..]);
    }
  }

  /** Every byte-level schedule is an abstract schedule; with equal sizes it computes the same values. */
  lemma {:induction false} ScheduleTracks(max: nat, add: Sum, b: ByteState, s: State<Bytes>, acts: seq<Action<Bytes>>, equal: bool)
    returns (t: State<Bytes>)
    requires Tracks(max, b, s) && Reachable(MappedHost, add, s) && ByteLegal(max, add, b, acts)
    requires equal ==> SameValues(max, b, s) && var z := ByteAfter(max, add, b, acts);
                       |z.ranks| == 2 && EqualSizes(z.ranks[0].calls, z.ranks[1].calls)
    ensures Tracks(max, ByteAfter(max, add, b, acts), t) && Reachable(MappedHost, add, t)
    ensures equal ==> SameValues(max, ByteAfter(max, add, b, acts), t)
    decreases |acts|
  {
    if acts == [] {
      t := s;
    } else {
      StepTracks(max, add, b, s, acts, equal);
      ReachableStep(MappedHost, add, s, acts[0]);
      t := ScheduleTracks(max, add, ByteStep(max, add, b, acts[0]), Step(MappedHost, add, s, acts[0]), acts[1..], equal);
    }
  }

  lemma StepTracks(max: nat, add: Sum, b: ByteState, s: State<Bytes>, acts: seq<Action<Bytes>>, equal: bool)
    requires Tracks(max, b, s) && Reachable(MappedHost, add, s) && acts != [] && ByteLegal(max, add, b, acts)
    requires equal ==> SameValues(max, b, s) && var z := ByteAfter(max, add, b, acts);
                       |z.ranks| == 2 && EqualSizes(z.ranks[0].calls, z.ranks[1].calls)
    ensures Enabled(MappedHost, s, acts[0])
    ensures Tracks(max, ByteStep(max, add, b, acts[0]), Step(MappedHost, add, s, acts[0]))
    ensures equal ==> SameValues(max, ByteStep(max, add, b, acts[0]), Step(MappedHost, add, s, acts[0]))
  {
    if acts[0].Issue? {
      IssueTracks(max, add, b, s, acts[0]);
    } else {
      RunTracks(max, add, b, s, acts[0].rank, acts[0].stream);
      if equal {
        CallsKept(max, add, b, acts);
        RunKeepsValues(max, add, b, s, acts[0].rank, acts[0].stream);
      }
    }
  }

  /** Every byte-level run over a mapping of any size tracks a run of the abstract protocol with unbounded
      epochs: same words, queues and completed calls, whatever sizes the ranks pass. */
  lemma BytesTrackProtocol(max: nat, add: Sum, b: ByteState) returns (s: State<Bytes>)
    requires ByteReachable(max, add, b)
    ensures Tracks(max, b, s) && Reachable(MappedHost, add, s)
  {
    var b0, acts :| ByteInitial(max, b0) && ByteLegal(max, add, b0, acts) && ByteAfter(max, add, b0, acts) == b;
    var s0 := InitialRefines(max, b0);
    assert Legal(MappedHost, add, s0, []) && After(MappedHost, add, s0, []) == s0;
    s := ScheduleTracks(max, add, b0, s0, acts, false);
  }

  /** Refinement: when both ranks pass tensors of the same size to the same call, payloads and outputs are
      those of that abstract run too. */
  lemma BytesRefineProtocol(max: nat, add: Sum, b: ByteState) returns (s: State<Bytes>)
    requires ByteReachable(max, add, b)
    requires |b.ranks| == 2 && EqualSizes(b.ranks[0].calls, b.ranks[1].calls)
    ensures Refines(max, b, s) && Reachable(MappedHost, add, s)
  {
    var b0, acts :| ByteInitial(max, b0) && ByteLegal(max, add, b0, acts) && ByteAfter(max, add, b0, acts) == b;
    var s0 := InitialRefines(max, b0);
    assert Legal(MappedHost, add, s0, []) && After(MappedHost, add, s0, []) == s0;
    s := ScheduleTracks(max, add, b0, s0, acts, true);
  }

  /** Every output the ranks compute out of the shared bytes is the sum of the two tensors of that call. */
  lemma ByteOutputsAreSums(max: nat, add: Sum, b: ByteState)
    requires ByteReachable(max, add, b)
    requires |b.ranks| == 2 && EqualSizes(b.ranks[0].calls, b.ranks[1].calls)
    ensures forall r: Rank, e | r < 2 && e in b.ranks[r].outputs ::
              && 1 <= e <= |b.ranks[r].calls| && e <= |b.ranks[Peer(r)].calls|
              && b.ranks[r].outputs[e] == add(b.ranks[r].calls[e - 1].payload, b.ranks[Peer(r)].calls[e - 1].payload)
  {
    var s := BytesRefineProtocol(max, add, b);
    MappedHostProtocol.EveryOutputIsTheSum(add, s);
  }

  /** Every epoch word a rank stores is below 2^32, and the control words always equal abstract epochs. */
  lemma NoEpochIsTruncated(max: nat, add: Sum, b: ByteState, r: Rank, q: nat)
    requires ByteReachable(max, add, b) && ByteEnabled(max, b, Run(r, q))
    requires b.ranks[r].queues[q][0].WriteWord?
    ensures var op := b.ranks[r].queues[q][0];
            && op.value <= |b.ranks[r].calls| <= 0xFFFF_FF00
            && Word(ByteStep(max, add, b, Run(r, q)).mem, op.at) == op.value
  {
    ReachableStoredEpoch(max, add, b, r, q);
    WrittenWord(max, add, b, r, q);
    var op := b.ranks[r].queues[q][0];
    assert op.value < WORD_LIMIT;
  }

  lemma ReachableStoredEpoch(max: nat, add: Sum, b: ByteState, r: Rank, q: nat)
    requires ByteReachable(max, add, b) && ByteEnabled(max, b, Run(r, q)) && b.ranks[r].queues[q][0].WriteWord?
    ensures b.ranks[r].queues[q][0].value <= |b.ranks[r].calls| <= 0xFFFF_FF00
  {
    var s := BytesTrackProtocol(max, add, b);
    StoredEpoch(max, add, b, s, r, q);
  }

  lemma StoredEpoch(max: nat, add: Sum, b: ByteState, s: State<Bytes>, r: Rank, q: nat)
    requires Tracks(max, b, s) && Reachable(MappedHost, add, s)
    requires ByteEnabled(max, b, Run(r, q)) && b.ranks[r].queues[q][0].WriteWord?
    ensures b.ranks[r].queues[q][0].value <= |b.ranks[r].calls| <= 0xFFFF_FF00
  {
    HeadTracks(max, add, b, s, r, q);
    MappedHostProtocol.HeadOperation(add, s, r, q);
    assert s.ranks[r].queues[q][0].Signal?;
  }

  lemma WrittenWord(max: nat, add: Sum, b: ByteState, r: Rank, q: nat)
    requires ByteEnabled(max, b, Run(r, q)) && b.ranks[r].queues[q][0].WriteWord?
    ensures var op := b.ranks[r].queues[q][0];
            Word(ByteStep(max, add, b, Run(r, q)).mem, op.at) == op.value % WORD_LIMIT
  {
    var op := b.ranks[r].queues[q][0];
    ByteRunEffect(max, add, b, r, q);
    WordWritten(b.mem, op.at, op.value, 0);
  }

  /** No byte-level stream can run. */
  ghost predicate ByteStuck(max: nat, b: ByteState) {
    Mapped(max, b) && forall r: Rank, q | r < 2 && 0 <= q < |b.ranks[r].queues| :: !ByteEnabled(max, b, Run(r, q))
  }

  /** An abstract step is always possible in the bytes too, so progress carries over. */
  lemma EnabledBelow(max: nat, add: Sum, b: ByteState, s: State<Bytes>, r: Rank, q: nat)
    requires Tracks(max, b, s) && Reachable(MappedHost, add, s) && Enabled(MappedHost, s, Run(r, q))
    ensures ByteEnabled(max, b, Run(r, q))
  {
    RankTracks(max, b, s, r);
    HeadIsExecutable(max, add, s, r, q);
    LowerEnabled(max, b, s, s.ranks[r].queues[q][0]);
  }

  lemma LowerEnabled(max: nat, b: ByteState, s: State<Bytes>, op: Op<Bytes>)
    requires Mapped(max, b) && SameWords(max, b.mem, s.flags) && OpEnabled(s, op) && Executable(max, op)
    ensures ByteOpEnabled(b, Lower(max, op))
  {
    match op
    case Wait(f, _) => assert Word(b.mem, FlagOffset(max, f)) == s.flags[f];
    case Copy(slot, _, _) => assert slot == 0 || slot == 1;
    case Signal(_, _) =>
    case Add(_, _, slot) => assert slot == 0 || slot == 1;
  }

  /** Progress in bytes: when no stream can run, every call both ranks issued has both outputs. */
  lemma ByteStopsOnlyWhenComplete(max: nat, add: Sum, b: ByteState)
    requires ByteReachable(max, add, b) && ByteStuck(max, b)
    ensures forall e | 1 <= e <= |b.ranks[0].calls| && e <= |b.ranks[1].calls| ::
              e in b.ranks[0].outputs && e in b.ranks[1].outputs
  {
    var s := BytesTrackProtocol(max, add, b);
    StuckBelow(max, add, b, s);
    MappedHostProtocol.StopsOnlyWhenComplete(add, s);
    assert b.ranks[0].outputs.Keys == s.ranks[0].outputs.Keys && b.ranks[1].outputs.Keys == s.ranks[1].outputs.Keys;
  }

  lemma StuckBelow(max: nat, add: Sum, b: ByteState, s: State<Bytes>)
    requires Tracks(max, b, s) && Reachable(MappedHost, add, s) && ByteStuck(max, b)
    ensures Stuck(MappedHost, s)
  {
    forall r: Rank, q | r < 2 && 0 <= q < |s.ranks[r].queues|
      ensures !Enabled(MappedHost, s, Run(r, q))
    {
      if Enabled(MappedHost, s, Run(r, q)) {
        RankTracks(max, b, s, r);
        EnabledBelow(max, add, b, s, r, q);
      }
    }
  }
}
