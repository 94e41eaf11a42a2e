/** Safety and completion of the mapped-host all-reduce, for any assignment of calls to streams. */
module MappedHostProtocol {
  import opened StreamMachine
  import opened StreamQueues

  // Positions in the program; `count[ADMITTED]` is the number of epochs whose consumed-wait passed.
  const ADMITTED := 0
  const COPIED := 1
  const READY := 2
  const MET := 3
  const ADDED := 4
  const RELEASED := 5

  /** What ties one rank to its peer: a slot is rewritten only after the peer released it,
      and a rank meets only an epoch its peer has published. */
  predicate Tied(mine: seq<nat>, peers: seq<nat>) {
    && Chain(mine) && Chain(peers)
    && 1 <= mine[ADMITTED] <= peers[RELEASED] + 1
    && mine[MET] <= peers[READY]
  }

  predicate Handshake(mine: seq<nat>, peers: seq<nat>) {
    Tied(mine, peers) && Tied(peers, mine)
  }

  /** An enabled operation always belongs to the first epoch that has not executed it,
      so operations of one kind run in epoch order even across streams. */
  lemma InOrder(mine: seq<nat>, peers: seq<nat>, e: nat, k: nat)
    requires Handshake(mine, peers) && e > 0
    requires k < 6 && mine[k] < e && (k > 0 ==> mine[k - 1] >= e)
    requires k == ADMITTED ==> peers[RELEASED] >= e - 1
    requires k == MET ==> peers[READY] >= e
    ensures mine[k] == e - 1
    ensures Handshake(mine[k := e], peers)
  {
  }

  /** What the counters say about a rank's two flag words, its slot and its outputs. */
  ghost predicate Memory<V(!new)>(me: RankState<V>, slot: V, ready: nat, consumed: nat, mine: seq<nat>, peers: seq<nat>)
    requires Chain(mine) && Chain(peers)
  {
    && mine[COPIED] <= |me.calls|
    && (mine[ADMITTED] <= |me.calls| || mine[ADMITTED] == 1)
    && ready == mine[READY]
    && consumed == peers[RELEASED]
    && (mine[COPIED] > 0 ==> slot == me.calls[mine[COPIED] - 1].payload)
    && (forall e :: e in me.outputs <==> 1 <= e <= mine[ADDED])
  }

  /** Memory and outputs of both ranks, seen from rank `r`. */
  ghost predicate MemoryInv<V(!new)>(add: (V, V) -> V, s: State<V>, r: Rank, mine: seq<nat>, peers: seq<nat>) {
    && Shaped(MappedHost, s) && Handshake(mine, peers)
    && Memory(s.ranks[r], s.slots[r], s.flags[ReadyWord(r)], s.flags[ConsumedWord(r)], mine, peers)
    && Memory(s.ranks[Peer(r)], s.slots[Peer(r)], s.flags[ReadyWord(Peer(r))], s.flags[ConsumedWord(Peer(r))], peers, mine)
    && Sums(add, s.ranks[r], s.ranks[Peer(r)]) && Sums(add, s.ranks[Peer(r)], s.ranks[r])
  }

  /** The protocol invariant, seen from rank `r`. */
  ghost predicate Inv<V(!new)>(add: (V, V) -> V, s: State<V>, r: Rank, mine: seq<nat>, peers: seq<nat>) {
    && MemoryInv(add, s, r, mine, peers)
    && QueuesMatch(MappedHost, r, s.ranks[r], mine)
    && QueuesMatch(MappedHost, Peer(r), s.ranks[Peer(r)], peers)
  }

  lemma InitialInv<V(!new)>(add: (V, V) -> V, s: State<V>)
    requires Initial(MappedHost, s)
    ensures Inv(add, s, 0, [1, 0, 0, 0, 0, 0], [1, 0, 0, 0, 0, 0])
  {
    assert forall r: Rank | r < 2 :: s.ranks[r].calls == [];
  }

  lemma FirstProgram<V>(r: Rank, me: RankState<V>, mine: seq<nat>, v: V)
    requires Chain(mine) && 1 <= mine[ADMITTED]
    requires mine[COPIED] <= |me.calls| && (mine[ADMITTED] <= |me.calls| || mine[ADMITTED] == 1)
    ensures Program(MappedHost, r, |me.calls| + 1, v)[Done(mine, |me.calls| + 1)..] == Issued(MappedHost, r, |me.calls| + 1, v)
  {
  }

  lemma IssueInv<V(!new)>(add: (V, V) -> V, s: State<V>, a: Action<V>, mine: seq<nat>, peers: seq<nat>)
    requires Inv(add, s, a.rank, mine, peers) && Enabled(MappedHost, s, a) && a.Issue?
    ensures Inv(add, Step(MappedHost, add, s, a), a.rank, mine, peers)
  {
    IssueEffect(MappedHost, add, s, a.rank, a.stream, a.payload);
    IssueQueues(add, s, a.rank, a.stream, a.payload, mine, peers);
    IssueMemory(add, s, Step(MappedHost, add, s, a), a.rank, mine, peers);
  }

  lemma IssueQueues<V(!new)>(add: (V, V) -> V, s: State<V>, r: Rank, q: nat, v: V, mine: seq<nat>, peers: seq<nat>)
    requires Inv(add, s, r, mine, peers) && Enabled(MappedHost, s, Issue(r, q, v))
    ensures var t := Step(MappedHost, add, s, Issue(r, q, v));
            QueuesMatch(MappedHost, r, t.ranks[r], mine) && QueuesMatch(MappedHost, Peer(r), t.ranks[Peer(r)], peers)
  {
    IssueEffect(MappedHost, add, s, r, q, v);
    FirstProgram(r, s.ranks[r], mine, v);
    IssueMatches(MappedHost, r, s.ranks[r], Step(MappedHost, add, s, Issue(r, q, v)).ranks[r], mine, q, v);
  }

  /** More calls of rank `r` change nothing the memory invariant talks about. */
  lemma IssueMemory<V(!new)>(add: (V, V) -> V, s: State<V>, t: State<V>, r: Rank, mine: seq<nat>, peers: seq<nat>)
    requires MemoryInv(add, s, r, mine, peers) && Shaped(MappedHost, t)
    requires t.flags == s.flags && t.slots == s.slots && t.ranks[Peer(r)] == s.ranks[Peer(r)]
    requires s.ranks[r].calls <= t.ranks[r].calls && t.ranks[r].outputs == s.ranks[r].outputs
    ensures MemoryInv(add, t, r, mine, peers)
  {
  }

  /** Executing operation `k` of call `e` keeps memory and outputs in step with the counters. */
  lemma RunMemory<V(!new)>(add: (V, V) -> V, s: State<V>, r: Rank, mine: seq<nat>, peers: seq<nat>, e: nat, k: nat)
    requires MemoryInv(add, s, r, mine, peers) && k < 6 && 1 <= e <= |s.ranks[r].calls|
    requires mine[k] == e - 1 && Handshake(mine[k := e], peers)
    requires OpEnabled(s, Program(MappedHost, r, e, s.ranks[r].calls[e - 1].payload)[k])
    ensures MemoryInv(add, Execute(add, s, r, Program(MappedHost, r, e, s.ranks[r].calls[e - 1].payload)[k]), r, mine[k := e], peers)
  {
    if k == ADDED {
      assert peers[COPIED] == e;
    }
  }

  lemma RunInv<V(!new)>(add: (V, V) -> V, s: State<V>, r: Rank, q: nat, mine: seq<nat>, peers: seq<nat>) returns (mine': seq<nat>)
    requires Inv(add, s, r, mine, peers) && Enabled(MappedHost, s, Run(r, q))
    ensures Inv(add, Step(MappedHost, add, s, Run(r, q)), r, mine', peers)
  {
    var e := NextCall(add, s, r, q, mine, peers);
    mine' := mine[Done(mine, e) := e];
    RunQueues(add, s, r, q, mine, peers, e);
    RunStepMemory(add, s, r, q, mine, peers, e, Done(mine, e));
  }

  lemma RunQueues<V(!new)>(add: (V, V) -> V, s: State<V>, r: Rank, q: nat, mine: seq<nat>, peers: seq<nat>, e: nat)
    requires Inv(add, s, r, mine, peers) && Enabled(MappedHost, s, Run(r, q))
    requires Oldest(s.ranks[r].calls, q, mine, e) && mine[Done(mine, e)] == e - 1
    ensures var t := Step(MappedHost, add, s, Run(r, q));
            QueuesMatch(MappedHost, r, t.ranks[r], mine[Done(mine, e) := e]) && QueuesMatch(MappedHost, Peer(r), t.ranks[Peer(r)], peers)
  {
    RunEffect(MappedHost, add, s, r, q);
    RunMatches(MappedHost, r, s.ranks[r], Step(MappedHost, add, s, Run(r, q)).ranks[r], mine, q, e);
  }

  lemma RunStepMemory<V(!new)>(add: (V, V) -> V, s: State<V>, r: Rank, q: nat, mine: seq<nat>, peers: seq<nat>, e: nat, k: nat)
    requires MemoryInv(add, s, r, mine, peers) && k < 6 && 1 <= e <= |s.ranks[r].calls| && Enabled(MappedHost, s, Run(r, q))
    requires s.ranks[r].queues[q][0] == Program(MappedHost, r, e, s.ranks[r].calls[e - 1].payload)[k]
    requires mine[k] == e - 1 && Handshake(mine[k := e], peers)
    ensures MemoryInv(add, Step(MappedHost, add, s, Run(r, q)), r, mine[k := e], peers)
  {
    RunEffect(MappedHost, add, s, r, q);
    RunMemory(add, s, r, mine, peers, e, k);
  }

  /** The operation at the head of a stream, and the call it belongs to. */
  lemma NextCall<V(!new)>(add: (V, V) -> V, s: State<V>, r: Rank, q: nat, mine: seq<nat>, peers: seq<nat>) returns (e: nat)
    requires Inv(add, s, r, mine, peers) && Enabled(MappedHost, s, Run(r, q))
    ensures Oldest(s.ranks[r].calls, q, mine, e) && Done(mine, e) < 6
    ensures s.ranks[r].queues[q][0] == Program(MappedHost, r, e, s.ranks[r].calls[e - 1].payload)[Done(mine, e)]
    ensures mine[Done(mine, e)] == e - 1
    ensures Handshake(mine[Done(mine, e) := e], peers)
  {
    e := HeadOf(MappedHost, r, s.ranks[r], mine, q);
    InOrder(mine, peers, e, Done(mine, e));
  }

  /** Every schedule preserves the invariant. */
  lemma {:induction false} ScheduleInv<V(!new)>(add: (V, V) -> V, s: State<V>, acts: seq<Action<V>>, c0: seq<nat>, c1: seq<nat>)
    returns (d0: seq<nat>, d1: seq<nat>)
    requires Inv(add, s, 0, c0, c1) && Legal(MappedHost, add, s, acts)
    ensures Inv(add, After(MappedHost, add, s, acts), 0, d0, d1)
    decreases |acts|
  {
    if acts == [] {
      d0, d1 := c0, c1;
    } else {
      d0, d1 := StepInv(add, s, acts[0], c0, c1);
      d0, d1 := ScheduleInv(add, Step(MappedHost, add, s, acts[0]), acts[1..], d0, d1);
    }
  }

  lemma StepInv<V(!new)>(add: (V, V) -> V, s: State<V>, a: Action<V>, c0: seq<nat>, c1: seq<nat>)
    returns (d0: seq<nat>, d1: seq<nat>)
    requires Inv(add, s, 0, c0, c1) && Enabled(MappedHost, s, a)
    ensures Inv(add, Step(MappedHost, add, s, a), 0, d0, d1)
  {
    d0, d1 := c0, c1;
    if a.rank == 1 {
      assert Inv(add, s, 1, c1, c0);
      if a.Issue? { IssueInv(add, s, a, c1, c0); } else { d1 := RunInv(add, s, 1, a.stream, c1, c0); }
      assert Inv(add, Step(MappedHost, add, s, a), 1, d1, c0);
    } else {
      if a.Issue? { IssueInv(add, s, a, c0, c1); } else { d0 := RunInv(add, s, 0, a.stream, c0, c1); }
    }
  }

  /** Every reachable state satisfies the invariant, seen from either rank. */
  lemma ReachableInv<V(!new)>(add: (V, V) -> V, t: State<V>, r: Rank) returns (mine: seq<nat>, peers: seq<nat>)
    requires Reachable(MappedHost, add, t)
    ensures Inv(add, t, r, mine, peers)
  {
    var s, acts :| Initial(MappedHost, s) && Legal(MappedHost, add, s, acts) && After(MappedHost, add, s, acts) == t;
    InitialInv(add, s);
    mine, peers := ScheduleInv(add, s, acts, [1, 0, 0, 0, 0, 0], [1, 0, 0, 0, 0, 0]);
    if r == 1 {
      mine, peers := peers, mine;
    }
  }

  /** What a reachable state says about the head of a stream that can run: it is operation `Done(mine, e)`
      of call `e`, and the counters say which epochs it meets. */
  lemma NextOperation<V(!new)>(add: (V, V) -> V, t: State<V>, r: Rank, q: nat) returns (mine: seq<nat>, peers: seq<nat>, e: nat)
    requires Reachable(MappedHost, add, t) && Enabled(MappedHost, t, Run(r, q))
    ensures MemoryInv(add, t, r, mine, peers) && 1 <= e <= |t.ranks[r].calls| && Done(mine, e) < 6
    ensures t.ranks[r].queues[q][0] == Program(MappedHost, r, e, t.ranks[r].calls[e - 1].payload)[Done(mine, e)]
    ensures mine[Done(mine, e)] == e - 1
    ensures Handshake(mine[Done(mine, e) := e], peers)
  {
    mine, peers := ReachableInv(add, t, r);
    e := NextCall(add, t, r, q, mine, peers);
  }

  /** Safety: whatever the schedule, the streams chosen and the number of epochs, every output
      a rank produces is the sum of both ranks' payloads for that same epoch. */
  lemma EveryOutputIsTheSum<V(!new)>(add: (V, V) -> V, t: State<V>)
    requires Reachable(MappedHost, add, t)
    ensures OutputsAreSums(add, t)
  {
    var mine, peers := ReachableInv(add, t, 0);
  }

  /** Whenever a copy of epoch `e` is about to run, the peer has already read every earlier
      payload of this slot, and all epochs of this rank but the last one are added and released. */
  lemma SlotIsNeverOverwrittenEarly<V(!new)>(add: (V, V) -> V, t: State<V>, r: Rank, q: nat)
    requires Reachable(MappedHost, add, t)
    requires Enabled(MappedHost, t, Run(r, q)) && t.ranks[r].queues[q][0].Copy?
    ensures var op := t.ranks[r].queues[q][0];
            && op.slot == r
            && (forall e | 1 <= e < op.call :: e in t.ranks[Peer(r)].outputs)
            && (forall e | 1 <= e < op.call - 1 :: e in t.ranks[r].outputs)
            && t.flags[ConsumedWord(Peer(r))] + 2 >= op.call
  {
    var mine, peers, e := NextOperation(add, t, r, q);
    assert Done(mine, e) == COPIED;
  }

  lemma HeadFlag<V(!new)>(add: (V, V) -> V, t: State<V>, r: Rank, q: nat)
    requires Reachable(MappedHost, add, t) && Shaped(MappedHost, t)
    requires q < |t.ranks[r].queues| && t.ranks[r].queues[q] != []
    ensures match t.ranks[r].queues[q][0]
            case Wait(f, _) => f < 4
            case Signal(f, _) => f < 4
            case _ => true
  {
    var mine, peers := ReachableInv(add, t, r);
    var e := HeadOf(MappedHost, r, t.ranks[r], mine, q);
  }

  /** Every operation about to run uses its own call's payload and epoch, and an add finds exactly
      the peer's payload of the same epoch in the peer's slot. */
  lemma HeadOperation<V(!new)>(add: (V, V) -> V, t: State<V>, r: Rank, q: nat)
    requires Reachable(MappedHost, add, t) && Enabled(MappedHost, t, Run(r, q))
    ensures match t.ranks[r].queues[q][0]
            case Wait(f, _) => f < 4
            case Signal(f, v) => f < 4 && v <= |t.ranks[r].calls|
            case Copy(slot, e, v) => slot == r && 1 <= e <= |t.ranks[r].calls| && v == t.ranks[r].calls[e - 1].payload
            case Add(e, v, slot) =>
              && slot == Peer(r)
              && 1 <= e <= |t.ranks[r].calls| && v == t.ranks[r].calls[e - 1].payload
              && e <= |t.ranks[slot].calls| && t.slots[slot] == t.ranks[slot].calls[e - 1].payload
  {
    var mine, peers, e := HeadFacts(add, t, r, q);
    if t.ranks[r].queues[q][0].Add? {
      AddMeetsEpoch(mine, peers, e);
      SlotOfEpoch(add, t, r, mine, peers, e);
    }
  }

  /** The head of a runnable stream, read off its position in its call. */
  lemma HeadFacts<V(!new)>(add: (V, V) -> V, t: State<V>, r: Rank, q: nat) returns (mine: seq<nat>, peers: seq<nat>, e: nat)
    requires Reachable(MappedHost, add, t) && Enabled(MappedHost, t, Run(r, q))
    ensures MemoryInv(add, t, r, mine, peers) && 1 <= e <= |t.ranks[r].calls|
    ensures match t.ranks[r].queues[q][0]
            case Wait(f, _) => f < 4
            case Signal(f, w) => f < 4 && w == e
            case Copy(slot, call, x) => slot == r && call == e && x == t.ranks[r].calls[e - 1].payload
            case Add(call, x, slot) =>
              && slot == Peer(r) && call == e && x == t.ranks[r].calls[e - 1].payload
              && mine[MET] >= e && mine[ADDED] == e - 1
  {
    mine, peers, e := NextOperation(add, t, r, q);
    OperationAt(r, e, t.ranks[r].calls[e - 1].payload, Done(mine, e));
  }

  lemma SlotOfEpoch<V(!new)>(add: (V, V) -> V, t: State<V>, r: Rank, mine: seq<nat>, peers: seq<nat>, e: nat)
    requires MemoryInv(add, t, r, mine, peers) && peers[COPIED] == e > 0
    ensures e <= |t.ranks[Peer(r)].calls| && t.slots[Peer(r)] == t.ranks[Peer(r)].calls[e - 1].payload
  {
  }

  /** When an add of epoch `e` may run, the peer has published `e` and cannot have gone further. */
  lemma AddMeetsEpoch(mine: seq<nat>, peers: seq<nat>, e: nat)
    requires Handshake(mine, peers) && mine[MET] >= e && mine[ADDED] == e - 1
    ensures peers[COPIED] == e
  {
  }

  /** The k-th operation of a call, up to its wait values. */
  lemma OperationAt<V>(r: Rank, e: nat, v: V, k: nat)
    requires e > 0 && k < 6
    ensures match Program(MappedHost, r, e, v)[k]
            case Wait(f, _) => f < 4
            case Signal(f, w) => f < 4 && w == e
            case Copy(slot, call, x) => slot == r && call == e && x == v
            case Add(call, x, slot) => k == ADDED && slot == Peer(r) && call == e && x == v
  {
  }

  /** Flag words never decrease, so a wait that passed stays passed. */
  lemma FlagsOnlyIncrease<V(!new)>(add: (V, V) -> V, t: State<V>, a: Action<V>)
    requires Reachable(MappedHost, add, t) && Enabled(MappedHost, t, a)
    ensures forall f | 0 <= f < 4 :: t.flags[f] <= Step(MappedHost, add, t, a).flags[f] <= t.flags[f] + 1
  {
    if a.Run? {
      var mine, peers, e := NextOperation(add, t, a.rank, a.stream);
      RunEffect(MappedHost, add, t, a.rank, a.stream);
    }
  }

  /** The first call that is not finished can run unless it waits for its peer. */
  lemma FrontCall<V(!new)>(add: (V, V) -> V, s: State<V>, r: Rank, mine: seq<nat>, peers: seq<nat>)
    requires Inv(add, s, r, mine, peers) && mine[RELEASED] < |s.ranks[r].calls|
    requires Done(mine, mine[RELEASED] + 1) == MET ==> peers[READY] > mine[RELEASED]
    requires Done(mine, mine[RELEASED] + 1) == ADMITTED ==> peers[RELEASED] >= mine[RELEASED]
    ensures !Stuck(MappedHost, s)
  {
    var m := mine[RELEASED];
    var q := s.ranks[r].calls[m].stream;
    assert Oldest(s.ranks[r].calls, q, mine, m + 1);
    OldestIsHead(MappedHost, r, s.ranks[r], mine, q, m + 1);
    assert Enabled(MappedHost, s, Run(r, q));
  }

  /** A stuck state has finished every call that both ranks issued. */
  lemma StuckFinished<V(!new)>(add: (V, V) -> V, t: State<V>, r: Rank, mine: seq<nat>, peers: seq<nat>)
    requires Inv(add, t, r, mine, peers) && Stuck(MappedHost, t) && mine[RELEASED] <= peers[RELEASED]
    ensures mine[RELEASED] >= |t.ranks[0].calls| || mine[RELEASED] >= |t.ranks[1].calls|
  {
    if mine[RELEASED] < |t.ranks[r].calls| && mine[RELEASED] < |t.ranks[Peer(r)].calls| {
      if peers[READY] <= mine[RELEASED] {
        assert Inv(add, t, Peer(r), peers, mine);
        FrontCall(add, t, Peer(r), peers, mine);
      } else {
        FrontCall(add, t, r, mine, peers);
      }
    }
  }

  /** What a stuck state has, from the invariant alone. */
  lemma StuckComplete<V(!new)>(add: (V, V) -> V, t: State<V>, c0: seq<nat>, c1: seq<nat>)
    requires Inv(add, t, 0, c0, c1) && Stuck(MappedHost, t)
    ensures forall e | 1 <= e <= |t.ranks[0].calls| && e <= |t.ranks[1].calls| ::
              e in t.ranks[0].outputs && e in t.ranks[1].outputs
    ensures |t.ranks[0].calls| == |t.ranks[1].calls| ==> Complete(add, t)
  {
    if c0[RELEASED] <= c1[RELEASED] {
      StuckFinished(add, t, 0, c0, c1);
    } else {
      assert Inv(add, t, 1, c1, c0);
      StuckFinished(add, t, 1, c1, c0);
    }
    if |t.ranks[0].calls| == |t.ranks[1].calls| {
      AllFinished(MappedHost, 0, t.ranks[0], c0);
      AllFinished(MappedHost, 1, t.ranks[1], c1);
    }
  }

  /** Progress: a schedule can stop only when both ranks have every sum of the calls both issued;
      with equal call counts nothing is left in any queue. */
  lemma StopsOnlyWhenComplete<V(!new)>(add: (V, V) -> V, t: State<V>)
    requires Reachable(MappedHost, add, t) && Stuck(MappedHost, t)
    ensures forall e | 1 <= e <= |t.ranks[0].calls| && e <= |t.ranks[1].calls| ::
              e in t.ranks[0].outputs && e in t.ranks[1].outputs
    ensures |t.ranks[0].calls| == |t.ranks[1].calls| ==> Complete(add, t)
  {
    var c0, c1 := ReachableInv(add, t, 0);
    StuckComplete(add, t, c0, c1);
  }
}
