/** The D3D12 all-reduce: safe and live exactly when each rank keeps to one stream. */
module D3D12Protocol {
  import opened StreamMachine
  import opened StreamQueues

  // Positions in the program; SETTLED counts the waits for the peer to consume this rank's heap.
  const COPIED := 0
  const READY := 1
  const MET := 2
  const ADDED := 3
  const RELEASED := 4
  const SETTLED := 5

  /** With one stream a rank starts an epoch only after settling the previous one. */
  predicate Tied(mine: seq<nat>, peers: seq<nat>) {
    && Chain(mine) && Chain(peers)
    && mine[COPIED] <= mine[SETTLED] + 1
    && mine[MET] <= peers[READY]
    && mine[SETTLED] <= peers[RELEASED]
  }

  predicate Handshake(mine: seq<nat>, peers: seq<nat>) {
    Tied(mine, peers) && Tied(peers, mine)
  }

  /** The fence of a rank counts its own ready signals and its peer's consumed signals. */
  function Fence(mine: seq<nat>, peers: seq<nat>): nat
    requires Chain(mine) && Chain(peers)
  {
    mine[READY] + peers[RELEASED]
  }

  /** On one stream the head belongs to the only epoch in progress. */
  lemma InOrder(mine: seq<nat>, peers: seq<nat>, e: nat, k: nat)
    requires Handshake(mine, peers) && e > 0
    requires k < 6 && mine[k] < e && (k > 0 ==> mine[k - 1] >= e) && mine[SETTLED] == e - 1
    requires k == MET ==> Fence(peers, mine) >= 2 * e - 1
    requires k == SETTLED ==> Fence(mine, peers) >= 2 * e
    ensures mine[k] == e - 1
    ensures Handshake(mine[k := e], peers)
    ensures k == READY ==> Fence(mine, peers) == 2 * e - 2
    ensures k == RELEASED ==> Fence(peers, mine) == 2 * e - 1
    ensures k == ADDED ==> peers[COPIED] == e
  {
  }

  ghost predicate Memory<V(!new)>(me: RankState<V>, slot: V, fence: nat, mine: seq<nat>, peers: seq<nat>)
    requires Chain(mine) && Chain(peers)
  {
    && mine[COPIED] <= |me.calls|
    && fence == Fence(mine, peers)
    && (mine[COPIED] > 0 ==> slot == me.calls[mine[COPIED] - 1].payload)
    && (forall e :: e in me.outputs <==> 1 <= e <= mine[ADDED])
  }

  ghost predicate MemoryInv<V(!new)>(add: (V, V) -> V, s: State<V>, r: Rank, mine: seq<nat>, peers: seq<nat>) {
    && Shaped(D3D12, s) && Handshake(mine, peers)
    && Memory(s.ranks[r], s.slots[r], s.flags[r], mine, peers)
    && Memory(s.ranks[Peer(r)], s.slots[Peer(r)], s.flags[Peer(r)], peers, mine)
    && Sums(add, s.ranks[r], s.ranks[Peer(r)]) && Sums(add, s.ranks[Peer(r)], s.ranks[r])
  }

  ghost predicate Inv<V(!new)>(add: (V, V) -> V, s: State<V>, r: Rank, mine: seq<nat>, peers: seq<nat>) {
    && MemoryInv(add, s, r, mine, peers)
    && QueuesMatch(D3D12, r, s.ranks[r], mine)
    && QueuesMatch(D3D12, Peer(r), s.ranks[Peer(r)], peers)
  }

  /** All calls of a rank go to the same stream. */
  ghost predicate OneStream<V>(calls: seq<Call<V>>) {
    forall i, j | 0 <= i < j < |calls| :: calls[i].stream == calls[j].stream
  }

  ghost predicate OneStreamEach<V>(s: State<V>) {
    |s.ranks| == 2 && OneStream(s.ranks[0].calls) && OneStream(s.ranks[1].calls)
  }

  lemma OneStreamOf<V>(s: State<V>, r: Rank)
    requires OneStreamEach(s)
    ensures OneStream(s.ranks[r].calls)
  {
    assert r == 0 || r == 1;
  }

  lemma InitialInv<V(!new)>(add: (V, V) -> V, s: State<V>)
    requires Initial(D3D12, s)
    ensures Inv(add, s, 0, [0, 0, 0, 0, 0, 0], [0, 0, 0, 0, 0, 0])
  {
    assert forall r: Rank | r < 2 :: s.ranks[r].calls == [];
  }

  lemma IssueInv<V(!new)>(add: (V, V) -> V, s: State<V>, a: Action<V>, mine: seq<nat>, peers: seq<nat>)
    requires Inv(add, s, a.rank, mine, peers) && Enabled(D3D12, s, a) && a.Issue?
    ensures Inv(add, Step(D3D12, add, s, a), a.rank, mine, peers)
  {
    IssueEffect(D3D12, add, s, a.rank, a.stream, a.payload);
    IssueQueues(add, s, a.rank, a.stream, a.payload, mine, peers);
    IssueMemory(add, s, Step(D3D12, add, s, a), a.rank, mine, peers);
  }

  lemma IssueQueues<V(!new)>(add: (V, V) -> V, s: State<V>, r: Rank, q: nat, v: V, mine: seq<nat>, peers: seq<nat>)
    requires Inv(add, s, r, mine, peers) && Enabled(D3D12, s, Issue(r, q, v))
    ensures var t := Step(D3D12, add, s, Issue(r, q, v));
            QueuesMatch(D3D12, r, t.ranks[r], mine) && QueuesMatch(D3D12, Peer(r), t.ranks[Peer(r)], peers)
  {
    assert Done(mine, |s.ranks[r].calls| + 1) == 0;
    IssueEffect(D3D12, add, s, r, q, v);
    IssueMatches(D3D12, r, s.ranks[r], Step(D3D12, add, s, Issue(r, q, v)).ranks[r], mine, q, v);
  }

  /** More calls of rank `r` change nothing the memory invariant talks about. */
  lemma IssueMemory<V(!new)>(add: (V, V) -> V, s: State<V>, t: State<V>, r: Rank, mine: seq<nat>, peers: seq<nat>)
    requires MemoryInv(add, s, r, mine, peers) && Shaped(D3D12, t)
    requires t.flags == s.flags && t.slots == s.slots && t.ranks[Peer(r)] == s.ranks[Peer(r)]
    requires s.ranks[r].calls <= t.ranks[r].calls && t.ranks[r].outputs == s.ranks[r].outputs
    ensures MemoryInv(add, t, r, mine, peers)
  {
  }

  lemma RunMemory<V(!new)>(add: (V, V) -> V, s: State<V>, r: Rank, mine: seq<nat>, peers: seq<nat>, e: nat, k: nat)
    requires MemoryInv(add, s, r, mine, peers) && k < 6 && 1 <= e <= |s.ranks[r].calls|
    requires mine[k] == e - 1 && Handshake(mine[k := e], peers)
    requires k == READY ==> Fence(mine, peers) == 2 * e - 2
    requires k == RELEASED ==> Fence(peers, mine) == 2 * e - 1
    requires k == ADDED ==> peers[COPIED] == e
    requires OpEnabled(s, Program(D3D12, r, e, s.ranks[r].calls[e - 1].payload)[k])
    ensures MemoryInv(add, Execute(add, s, r, Program(D3D12, r, e, s.ranks[r].calls[e - 1].payload)[k]), r, mine[k := e], peers)
  {
  }

  lemma NextCall<V(!new)>(add: (V, V) -> V, s: State<V>, r: Rank, q: nat, mine: seq<nat>, peers: seq<nat>) returns (e: nat)
    requires Inv(add, s, r, mine, peers) && Enabled(D3D12, s, Run(r, q)) && OneStream(s.ranks[r].calls)
    ensures Oldest(s.ranks[r].calls, q, mine, e) && Done(mine, e) < 6
    ensures s.ranks[r].queues[q][0] == Program(D3D12, r, e, s.ranks[r].calls[e - 1].payload)[Done(mine, e)]
    ensures mine[Done(mine, e)] == e - 1
    ensures Handshake(mine[Done(mine, e) := e], peers)
    ensures Done(mine, e) == READY ==> Fence(mine, peers) == 2 * e - 2
    ensures Done(mine, e) == RELEASED ==> Fence(peers, mine) == 2 * e - 1
    ensures Done(mine, e) == ADDED ==> peers[COPIED] == e
  {
    e := HeadOf(D3D12, r, s.ranks[r], mine, q);
    if e > 1 {
      assert s.ranks[r].calls[e - 2].stream == s.ranks[r].calls[e - 1].stream;
    }
    InOrder(mine, peers, e, Done(mine, e));
  }

  lemma RunInv<V(!new)>(add: (V, V) -> V, s: State<V>, r: Rank, q: nat, mine: seq<nat>, peers: seq<nat>) returns (mine': seq<nat>)
    requires Inv(add, s, r, mine, peers) && Enabled(D3D12, s, Run(r, q)) && OneStream(s.ranks[r].calls)
    ensures Inv(add, Step(D3D12, add, s, Run(r, q)), r, mine', peers)
  {
    var e := NextCall(add, s, r, q, mine, peers);
    mine' := mine[Done(mine, e) := e];
    RunQueues(add, s, r, q, mine, peers, e);
    RunStepMemory(add, s, r, q, mine, peers, e, Done(mine, e));
  }

  lemma RunQueues<V(!new)>(add: (V, V) -> V, s: State<V>, r: Rank, q: nat, mine: seq<nat>, peers: seq<nat>, e: nat)
    requires Inv(add, s, r, mine, peers) && Enabled(D3D12, s, Run(r, q))
    requires Oldest(s.ranks[r].calls, q, mine, e) && mine[Done(mine, e)] == e - 1
    ensures var t := Step(D3D12, add, s, Run(r, q));
            QueuesMatch(D3D12, r, t.ranks[r], mine[Done(mine, e) := e]) && QueuesMatch(D3D12, Peer(r), t.ranks[Peer(r)], peers)
  {
    RunEffect(D3D12, add, s, r, q);
    RunMatches(D3D12, r, s.ranks[r], Step(D3D12, add, s, Run(r, q)).ranks[r], mine, q, e);
  }

  lemma RunStepMemory<V(!new)>(add: (V, V) -> V, s: State<V>, r: Rank, q: nat, mine: seq<nat>, peers: seq<nat>, e: nat, k: nat)
    requires MemoryInv(add, s, r, mine, peers) && k < 6 && 1 <= e <= |s.ranks[r].calls| && Enabled(D3D12, s, Run(r, q))
    requires s.ranks[r].queues[q][0] == Program(D3D12, r, e, s.ranks[r].calls[e - 1].payload)[k]
    requires mine[k] == e - 1 && Handshake(mine[k := e], peers)
    requires k == READY ==> Fence(mine, peers) == 2 * e - 2
    requires k == RELEASED ==> Fence(peers, mine) == 2 * e - 1
    requires k == ADDED ==> peers[COPIED] == e
    ensures MemoryInv(add, Step(D3D12, add, s, Run(r, q)), r, mine[k := e], peers)
  {
    RunEffect(D3D12, add, s, r, q);
    RunMemory(add, s, r, mine, peers, e, k);
  }

  lemma StepInv<V(!new)>(add: (V, V) -> V, s: State<V>, a: Action<V>, c0: seq<nat>, c1: seq<nat>)
    returns (d0: seq<nat>, d1: seq<nat>)
    requires Inv(add, s, 0, c0, c1) && Enabled(D3D12, s, a) && OneStreamEach(s)
    ensures Inv(add, Step(D3D12, add, s, a), 0, d0, d1)
  {
    d0, d1 := c0, c1;
    if a.rank == 1 {
      assert Inv(add, s, 1, c1, c0);
      if a.Issue? { IssueInv(add, s, a, c1, c0); } else { d1 := RunInv(add, s, 1, a.stream, c1, c0); }
      assert Inv(add, Step(D3D12, add, s, a), 1, d1, c0);
    } else {
      if a.Issue? { IssueInv(add, s, a, c0, c1); } else { d0 := RunInv(add, s, 0, a.stream, c0, c1); }
    }
  }

  /** Calls are only ever appended, so a schedule that ends with one stream per rank always had it. */
  lemma {:induction false} StreamsKept<V>(add: (V, V) -> V, s: State<V>, acts: seq<Action<V>>)
    requires Shaped(D3D12, s) && Legal(D3D12, add, s, acts) && OneStreamEach(After(D3D12, add, s, acts))
    ensures OneStreamEach(s)
    decreases |acts|
  {
    if acts != [] {
      var t := Step(D3D12, add, s, acts[0]);
      StreamsKept(add, t, acts[1..]);
      assert s.ranks[0].calls <= t.ranks[0].calls && s.ranks[1].calls <= t.ranks[1].calls;
    }
  }

  lemma {:induction false} ScheduleInv<V(!new)>(add: (V, V) -> V, s: State<V>, acts: seq<Action<V>>, c0: seq<nat>, c1: seq<nat>)
    returns (d0: seq<nat>, d1: seq<nat>)
    requires Inv(add, s, 0, c0, c1) && Legal(D3D12, add, s, acts) && OneStreamEach(After(D3D12, add, s, acts))
    ensures Inv(add, After(D3D12, add, s, acts), 0, d0, d1)
    decreases |acts|
  {
    if acts == [] {
      d0, d1 := c0, c1;
    } else {
      StreamsKept(add, s, acts);
      d0, d1 := StepInv(add, s, acts[0], c0, c1);
      d0, d1 := ScheduleInv(add, Step(D3D12, add, s, acts[0]), acts[1..], d0, d1);
    }
  }

  lemma ReachableInv<V(!new)>(add: (V, V) -> V, t: State<V>, r: Rank) returns (mine: seq<nat>, peers: seq<nat>)
    requires Reachable(D3D12, add, t) && OneStreamEach(t)
    ensures Inv(add, t, r, mine, peers)
  {
    var s, acts :| Initial(D3D12, s) && Legal(D3D12, add, s, acts) && After(D3D12, add, s, acts) == t;
    InitialInv(add, s);
    mine, peers := ScheduleInv(add, s, acts, [0, 0, 0, 0, 0, 0], [0, 0, 0, 0, 0, 0]);
    if r == 1 {
      mine, peers := peers, mine;
    }
  }

  /** What a reachable state says about the head of a stream that can run: it is operation `Done(mine, e)`
      of call `e`, and the counters say which epochs it meets. */
  lemma NextOperation<V(!new)>(add: (V, V) -> V, t: State<V>, r: Rank, q: nat) returns (mine: seq<nat>, peers: seq<nat>, e: nat)
    requires Reachable(D3D12, add, t) && OneStreamEach(t) && Enabled(D3D12, t, Run(r, q))
    ensures MemoryInv(add, t, r, mine, peers) && 1 <= e <= |t.ranks[r].calls| && Done(mine, e) < 6
    ensures t.ranks[r].queues[q][0] == Program(D3D12, r, e, t.ranks[r].calls[e - 1].payload)[Done(mine, e)]
    ensures mine[Done(mine, e)] == e - 1
    ensures Handshake(mine[Done(mine, e) := e], peers)
    ensures Done(mine, e) == READY ==> Fence(mine, peers) == 2 * e - 2
    ensures Done(mine, e) == RELEASED ==> Fence(peers, mine) == 2 * e - 1
  {
    mine, peers := ReachableInv(add, t, r);
    OneStreamOf(t, r);
    e := NextCall(add, t, r, q, mine, peers);
  }

  /** Safety with one stream per rank. */
  lemma EveryOutputIsTheSum<V(!new)>(add: (V, V) -> V, t: State<V>)
    requires Reachable(D3D12, add, t) && OneStreamEach(t)
    ensures OutputsAreSums(add, t)
  {
    var mine, peers := ReachableInv(add, t, 0);
  }

  /** The ranks are never more than one epoch apart: a rank has a sum only if its peer has all earlier ones. */
  lemma EpochsDifferByAtMostOne<V(!new)>(add: (V, V) -> V, t: State<V>, r: Rank, e: nat, d: nat)
    requires Reachable(D3D12, add, t) && OneStreamEach(t)
    requires e in t.ranks[r].outputs && 1 <= d < e
    ensures d in t.ranks[Peer(r)].outputs && d in t.ranks[r].outputs
  {
    var mine, peers := ReachableInv(add, t, r);
  }

  /** Each fence counts 0, 1, 2, ... although two ranks store into it. */
  lemma FencesCountByOne<V(!new)>(add: (V, V) -> V, t: State<V>, r: Rank, q: nat)
    requires Reachable(D3D12, add, t) && OneStreamEach(t) && Enabled(D3D12, t, Run(r, q))
    ensures var op := t.ranks[r].queues[q][0];
            Step(D3D12, add, t, Run(r, q)).flags ==
            if op.Signal? then t.flags[op.flag := t.flags[op.flag] + 1] else t.flags
  {
    var mine, peers, e := NextOperation(add, t, r, q);
    RunEffect(D3D12, add, t, r, q);
    SignalsAdvance(add, t, r, mine, peers, e, Done(mine, e));
  }

  lemma SignalsAdvance<V(!new)>(add: (V, V) -> V, t: State<V>, r: Rank, mine: seq<nat>, peers: seq<nat>, e: nat, k: nat)
    requires MemoryInv(add, t, r, mine, peers) && k < 6 && 1 <= e <= |t.ranks[r].calls|
    requires k == READY ==> Fence(mine, peers) == 2 * e - 2
    requires k == RELEASED ==> Fence(peers, mine) == 2 * e - 1
    ensures var op := Program(D3D12, r, e, t.ranks[r].calls[e - 1].payload)[k];
            op.Signal? ==> op.flag < 2 && op.value == t.flags[op.flag] + 1
  {
  }

  /** A rank rewrites its heap for epoch e + 1 only after the peer added epoch e from it. */
  lemma HeapIsNeverOverwrittenEarly<V(!new)>(add: (V, V) -> V, t: State<V>, r: Rank, q: nat)
    requires Reachable(D3D12, add, t) && OneStreamEach(t)
    requires Enabled(D3D12, t, Run(r, q)) && t.ranks[r].queues[q][0].Copy?
    ensures var op := t.ranks[r].queues[q][0];
            && op.slot == r
            && (forall e | 1 <= e < op.call :: e in t.ranks[Peer(r)].outputs && e in t.ranks[r].outputs)
            && (forall e | e in t.ranks[Peer(r)].outputs :: e < op.call)
  {
    var mine, peers, e := NextOperation(add, t, r, q);
    assert Done(mine, e) == COPIED;
  }

  /** Of two ranks, the one that has executed less can always run. */
  lemma LaggardRuns<V(!new)>(add: (V, V) -> V, t: State<V>, r: Rank, mine: seq<nat>, peers: seq<nat>)
    requires Inv(add, t, r, mine, peers) && OneStream(t.ranks[r].calls)
    requires mine[SETTLED] < |t.ranks[r].calls|
    requires forall k | 0 <= k < 6 && mine[k] > mine[SETTLED] :: peers[k] > mine[SETTLED]
    requires peers[SETTLED] >= mine[SETTLED]
    ensures !Stuck(D3D12, t)
  {
    var e := mine[SETTLED] + 1;
    var q := t.ranks[r].calls[e - 1].stream;
    assert Oldest(t.ranks[r].calls, q, mine, e);
    OldestIsHead(D3D12, r, t.ranks[r], mine, q, e);
    assert Enabled(D3D12, t, Run(r, q));
  }

  /** A stuck state has settled every call that both ranks issued. */
  lemma StuckFinished<V(!new)>(add: (V, V) -> V, t: State<V>, c0: seq<nat>, c1: seq<nat>)
    requires Inv(add, t, 0, c0, c1) && Stuck(D3D12, t) && OneStreamEach(t)
    ensures c0[SETTLED] >= |t.ranks[0].calls| || c0[SETTLED] >= |t.ranks[1].calls|
    ensures c1[SETTLED] >= |t.ranks[0].calls| || c1[SETTLED] >= |t.ranks[1].calls|
  {
    var m := if c0[SETTLED] <= c1[SETTLED] then c0[SETTLED] else c1[SETTLED];
    if m < |t.ranks[0].calls| && m < |t.ranks[1].calls| {
      if c0[SETTLED] == m && forall k | 0 <= k < 6 && c0[k] > m :: c1[k] > m {
        LaggardRuns(add, t, 0, c0, c1);
      } else {
        assert Inv(add, t, 1, c1, c0);
        LaggardRuns(add, t, 1, c1, c0);
      }
    }
  }

  /** Progress with one stream per rank: a schedule stops only with every common sum in place. */
  lemma StopsOnlyWhenComplete<V(!new)>(add: (V, V) -> V, t: State<V>)
    requires Reachable(D3D12, add, t) && OneStreamEach(t) && Stuck(D3D12, t)
    ensures forall e | 1 <= e <= |t.ranks[0].calls| && e <= |t.ranks[1].calls| ::
              e in t.ranks[0].outputs && e in t.ranks[1].outputs
    ensures |t.ranks[0].calls| == |t.ranks[1].calls| ==> Complete(add, t)
  {
    var c0, c1 := ReachableInv(add, t, 0);
    StuckFinished(add, t, c0, c1);
    if |t.ranks[0].calls| == |t.ranks[1].calls| {
      AllFinished(D3D12, 0, t.ranks[0], c0);
      AllFinished(D3D12, 1, t.ranks[1], c1);
    }
  }
}
