/** Exactly which call lists are safe on a mapped-host communicator: those in which no CPU-path call follows a
    stream-path call. For every other list some schedule gives a rank the wrong sum. */
module MixedPathRace {
  import opened StreamMachine
  import opened PairBarrier
  import opened CpuAddPath
  import opened MixedPath

  /** Every state that any schedule of this call list reaches holds only sums, whatever the payloads. */
  ghost predicate SafeKinds<V(!new)>(drains: bool, kinds: seq<Kind>, add: (V, V) -> V) {
    forall m | MixedReachable(drains, kinds, add, m) :: MixedSums(add, m)
  }

  /** The exact condition on the list of calls, whether or not the CPU path's copy waits for the rank's own
      streams, as soon as the sum depends on its second operand. */
  lemma SafeExactlyWithoutCpuAfterStream<V(!new)>(drains: bool, kinds: seq<Kind>, add: (V, V) -> V, x: V, y: V, z: V)
    requires add(x, y) != add(x, z)
    ensures SafeKinds(drains, kinds, add) <==> NoCpuAfterStream(kinds)
  {
    if NoCpuAfterStream(kinds) {
      forall m | MixedReachable(drains, kinds, add, m) ensures MixedSums(add, m) {
        MixedResultsAreSums(drains, kinds, add, m);
      }
    } else {
      var m := WrongSum(drains, kinds, add, x, y, z);
    }
  }

  /** The first CPU call after a stream call: `a` CPU calls, then stream calls up to it. */
  lemma FirstCpuAfterStream(kinds: seq<Kind>) returns (a: nat, j: nat)
    requires !NoCpuAfterStream(kinds)
    ensures a < j < |kinds| && kinds[j] == CpuCall
    ensures forall i | 0 <= i < j :: kinds[i] == CpuCall <==> i < a
  {
    a := 0;
    while a < |kinds| && kinds[a] == CpuCall
      invariant 0 <= a <= |kinds|
      invariant forall i | 0 <= i < a :: kinds[i] == CpuCall
    {
      a := a + 1;
    }
    assert a < |kinds|;
    j := a + 1;
    while j < |kinds| && kinds[j] == StreamCall
      invariant a < j <= |kinds|
      invariant forall i | 0 <= i < j :: kinds[i] == CpuCall <==> i < a
    {
      j := j + 1;
    }
    assert j < |kinds|;
  }

  /** The schedule: all calls before `j` complete, except that rank 1 has not yet added the last stream call
      when rank 0's CPU call refills the slot. */
  lemma WrongSum<V(!new)>(drains: bool, kinds: seq<Kind>, add: (V, V) -> V, x: V, y: V, z: V) returns (m: Mixed<V>)
    requires !NoCpuAfterStream(kinds) && add(x, y) != add(x, z)
    ensures MixedReachable(drains, kinds, add, m) && !MixedSums(add, m)
  {
    var a, j := FirstCpuAfterStream(kinds);
    m := Start(drains, kinds, add, x);
    m := CpuCalls(drains, kinds, add, m, a, x);
    m := Epochs(drains, kinds, add, m, a, j - a - 1, x, y);
    m := LastEpoch(drains, kinds, add, m, a, j - a, x, y, z);
    assert m.gpu.ranks[1].outputs[j - a] != add(x, y);
  }

  // ---------------------------------------------------------------- host steps

  lemma HostStep<V(!new)>(drains: bool, kinds: seq<Kind>, add: (V, V) -> V, m: Mixed<V>, act: WorkerAction<V>) returns (t: Mixed<V>)
    requires MixedReachable(drains, kinds, add, m) && MixedEnabled(drains, kinds, m, Host(act))
    ensures MixedReachable(drains, kinds, add, t) && t == MixedStep(kinds, add, m, Host(act))
  {
    t := MixedReachableStep(drains, kinds, add, m, Host(act));
  }

  /** Both workers at the same stage with no signal pending and none lost. */
  ghost predicate Level<V>(w: seq<Worker<V>>, stage: Stage, sets: nat) {
    && |w| == 2
    && w[0].stage == w[1].stage == stage
    && w[0].side == w[1].side == Side(false, false, sets, sets, 0)
  }

  ghost predicate SameCalls<V>(w: seq<Worker<V>>, u: seq<Worker<V>>) {
    |w| == |u| == 2 && w[0].inputs == u[0].inputs && w[1].inputs == u[1].inputs
  }

  lemma EnterOne<V(!new)>(drains: bool, kinds: seq<Kind>, add: (V, V) -> V, m: Mixed<V>, r: Rank) returns (t: Mixed<V>)
    requires MixedReachable(drains, kinds, add, m) && MixedShaped(m) && Entering(m.workers[r].stage)
    ensures MixedReachable(drains, kinds, add, t) && t.gpu == m.gpu
    ensures t.workers == m.workers[r := m.workers[r].(stage := EnterStage(m.workers[r].stage), side := Arrive(m.workers[r].side))]
  {
    t := HostStep(drains, kinds, add, m, Enter(r));
  }

  lemma ReturnOne<V(!new)>(drains: bool, kinds: seq<Kind>, add: (V, V) -> V, m: Mixed<V>, r: Rank) returns (t: Mixed<V>)
    requires MixedReachable(drains, kinds, add, m) && MixedShaped(m)
    requires Waits(m.workers[r].stage) && CanLeave(m.workers[r].side, m.workers[Peer(r)].side)
    ensures MixedReachable(drains, kinds, add, t) && t.gpu == m.gpu && MixedShaped(t)
    ensures t.workers[r].stage == LeaveStage(m.workers[r].stage) && t.workers[r].inputs == m.workers[r].inputs
    ensures t.workers[Peer(r)].stage == m.workers[Peer(r)].stage && t.workers[Peer(r)].inputs == m.workers[Peer(r)].inputs
    ensures (t.workers[r].side, t.workers[Peer(r)].side) == Leave(m.workers[r].side, m.workers[Peer(r)].side)
  {
    t := HostStep(drains, kinds, add, m, Return(r));
  }

  /** Both ranks pass one barrier together. */
  lemma Meet<V(!new)>(drains: bool, kinds: seq<Kind>, add: (V, V) -> V, m: Mixed<V>, stage: Stage, sets: nat) returns (t: Mixed<V>)
    requires MixedReachable(drains, kinds, add, m) && MixedShaped(m) && Level(m.workers, stage, sets) && Entering(stage)
    ensures MixedReachable(drains, kinds, add, t) && t.gpu == m.gpu
    ensures Level(t.workers, LeaveStage(EnterStage(stage)), sets + 1) && SameCalls(t.workers, m.workers)
  {
    t := EnterOne(drains, kinds, add, m, 0);
    t := EnterOne(drains, kinds, add, t, 1);
    t := ReturnOne(drains, kinds, add, t, 0);
    t := ReturnOne(drains, kinds, add, t, 1);
  }

  /** Nothing has been done on the GPU side; one stream per rank. */
  ghost predicate Idle<V>(g: State<V>) {
    && Initial(MappedHost, g) && |g.ranks[0].queues| == |g.ranks[1].queues| == 1
  }

  /** `a` CPU calls are complete. */
  ghost predicate CpuQuiet<V>(m: Mixed<V>, a: nat) {
    && MixedShaped(m) && Level(m.workers, Between, 1 + 2 * a)
    && |m.workers[0].inputs| == |m.workers[1].inputs| == a
  }

  lemma Start<V(!new)>(drains: bool, kinds: seq<Kind>, add: (V, V) -> V, x: V) returns (m: Mixed<V>)
    ensures MixedReachable(drains, kinds, add, m) && CpuQuiet(m, 0) && Idle(m.gpu)
  {
    var none: seq<Op<V>> := [];
    var idle := RankState([], [none], map[]);
    var fresh0 := Worker(Constructing, FRESH, [], [], 0);
    m := Mixed(State([0, 0, 0, 0], [x, x], [idle, idle]), [fresh0, fresh0]);
    assert MixedInitial(m);
    var acts: seq<MixedAction<V>> := [];
    assert IsRun(drains, kinds, add, [m], acts) && [m][|acts|] == m;
    m := Meet(drains, kinds, add, m, Constructing, 0);
  }

  lemma {:induction false} CpuCalls<V(!new)>(drains: bool, kinds: seq<Kind>, add: (V, V) -> V, m: Mixed<V>, a: nat, x: V) returns (t: Mixed<V>)
    requires MixedReachable(drains, kinds, add, m) && CpuQuiet(m, 0) && Idle(m.gpu)
    requires a <= |kinds| && forall i | 0 <= i < a :: kinds[i] == CpuCall
    ensures MixedReachable(drains, kinds, add, t) && CpuQuiet(t, a) && Idle(t.gpu)
  {
    if a == 0 {
      t := m;
    } else {
      t := CpuCalls(drains, kinds, add, m, a - 1, x);
      t := OneCpuCall(drains, kinds, add, t, a - 1, x);
    }
  }

  lemma OneCpuCall<V(!new)>(drains: bool, kinds: seq<Kind>, add: (V, V) -> V, m: Mixed<V>, a: nat, x: V) returns (t: Mixed<V>)
    requires MixedReachable(drains, kinds, add, m) && CpuQuiet(m, a) && Idle(m.gpu)
    requires a < |kinds| && kinds[a] == CpuCall
    ensures MixedReachable(drains, kinds, add, t) && CpuQuiet(t, a + 1) && Idle(t.gpu)
  {
    t := BeginBoth(drains, kinds, add, m, a, x);
    t := Meet(drains, kinds, add, t, Copied, 1 + 2 * a);
    t := SumBoth(drains, kinds, add, t, 2 + 2 * a);
    t := Meet(drains, kinds, add, t, Added, 2 + 2 * a);
  }

  lemma BeginBoth<V(!new)>(drains: bool, kinds: seq<Kind>, add: (V, V) -> V, m: Mixed<V>, a: nat, x: V) returns (t: Mixed<V>)
    requires MixedReachable(drains, kinds, add, m) && CpuQuiet(m, a) && Idle(m.gpu)
    requires a < |kinds| && kinds[a] == CpuCall
    ensures MixedReachable(drains, kinds, add, t) && MixedShaped(t) && Idle(t.gpu)
    ensures Level(t.workers, Copied, 1 + 2 * a) && |t.workers[0].inputs| == |t.workers[1].inputs| == a + 1
  {
    t := BeginOne(drains, kinds, add, m, 0, a, x);
    t := BeginOne(drains, kinds, add, t, 1, a, x);
  }

  lemma BeginOne<V(!new)>(drains: bool, kinds: seq<Kind>, add: (V, V) -> V, m: Mixed<V>, r: Rank, a: nat, x: V) returns (t: Mixed<V>)
    requires MixedReachable(drains, kinds, add, m) && MixedShaped(m) && Idle(m.gpu)
    requires m.workers[r].stage == Between && |m.workers[r].inputs| == a < |kinds| && kinds[a] == CpuCall
    ensures MixedReachable(drains, kinds, add, t) && MixedShaped(t) && Idle(t.gpu)
    ensures t.workers == m.workers[r := m.workers[r].(stage := Copied, inputs := m.workers[r].inputs + [x])]
  {
    IdleRank(m.gpu, r);
    t := HostStep(drains, kinds, add, m, Begin(r, x));
  }

  lemma IdleRank<V>(g: State<V>, r: Rank)
    requires Idle(g)
    ensures g.ranks[r].calls == [] && Drained(g, r)
  {
  }

  lemma SumBoth<V(!new)>(drains: bool, kinds: seq<Kind>, add: (V, V) -> V, m: Mixed<V>, sets: nat) returns (t: Mixed<V>)
    requires MixedReachable(drains, kinds, add, m) && MixedShaped(m) && Level(m.workers, Adding, sets)
    ensures MixedReachable(drains, kinds, add, t) && t.gpu == m.gpu
    ensures Level(t.workers, Added, sets) && SameCalls(t.workers, m.workers)
  {
    t := HostStep(drains, kinds, add, m, Sum(0));
    t := HostStep(drains, kinds, add, t, Sum(1));
  }

  // ---------------------------------------------------------------- stream steps

  lemma GpuStep<V(!new)>(drains: bool, kinds: seq<Kind>, add: (V, V) -> V, m: Mixed<V>, step: Action<V>) returns (t: Mixed<V>)
    requires MixedReachable(drains, kinds, add, m) && MixedEnabled(drains, kinds, m, Gpu(step))
    ensures MixedReachable(drains, kinds, add, t) && t == m.(gpu := Step(MappedHost, add, m.gpu, step))
  {
    t := MixedReachableStep(drains, kinds, add, m, Gpu(step));
  }

  /** Rank `r` has issued `e` calls on its one stream; operation `k` of the last is next, earlier calls are done. */
  ghost predicate At<V>(g: State<V>, r: Rank, e: nat, v: V, k: nat) {
    && Shaped(MappedHost, g) && k <= 6 && e > 0
    && |g.ranks[r].queues| == 1 && |g.ranks[r].calls| == e && g.ranks[r].calls[e - 1].payload == v
    && g.ranks[r].queues[0] == Program(MappedHost, r, e, v)[k..]
  }

  /** The words after both ranks completed `n` epochs, and the queues empty. */
  ghost predicate GpuQuiet<V>(g: State<V>, n: nat) {
    && Shaped(MappedHost, g) && g.flags == [n, n, n, n]
    && Finished(g, 0, n) && Finished(g, 1, n)
  }

  ghost predicate Finished<V>(g: State<V>, r: Rank, n: nat)
    requires |g.ranks| == 2
  {
    |g.ranks[r].queues| == 1 && g.ranks[r].queues[0] == [] && |g.ranks[r].calls| == n
  }

  /** Runs operation `k` of call `e` of rank `r`. */
  lemma Fire<V(!new)>(drains: bool, kinds: seq<Kind>, add: (V, V) -> V, m: Mixed<V>, r: Rank, e: nat, v: V, k: nat) returns (t: Mixed<V>)
    requires MixedReachable(drains, kinds, add, m) && MixedShaped(m) && k < 6 && At(m.gpu, r, e, v, k)
    requires OpEnabled(m.gpu, Program(MappedHost, r, e, v)[k])
    ensures MixedReachable(drains, kinds, add, t) && t.workers == m.workers && At(t.gpu, r, e, v, k + 1)
    ensures t.gpu.ranks[r].calls == m.gpu.ranks[r].calls && t.gpu.ranks[Peer(r)] == m.gpu.ranks[Peer(r)]
    ensures var u := Execute(add, m.gpu, r, Program(MappedHost, r, e, v)[k]);
            t.gpu.flags == u.flags && t.gpu.slots == u.slots && t.gpu.ranks[r].outputs == u.ranks[r].outputs
  {
    var ops := Program(MappedHost, r, e, v);
    assert ops[k..][0] == ops[k] && ops[k..][1..] == ops[k + 1..];
    t := GpuStep(drains, kinds, add, m, Run(r, 0));
    RunEffect(MappedHost, add, m.gpu, r, 0);
  }

  lemma IssueOne<V(!new)>(drains: bool, kinds: seq<Kind>, add: (V, V) -> V, m: Mixed<V>, r: Rank, a: nat, n: nat, v: V) returns (t: Mixed<V>)
    requires MixedReachable(drains, kinds, add, m) && MixedShaped(m) && Finished(m.gpu, r, n)
    requires m.workers[r].stage == Between && |m.workers[r].inputs| == a
    requires a + n < |kinds| && kinds[a + n] == StreamCall
    ensures MixedReachable(drains, kinds, add, t) && t.workers == m.workers
    ensures At(t.gpu, r, n + 1, v, if n == 0 then 1 else 0)
    ensures t.gpu.flags == m.gpu.flags && t.gpu.slots == m.gpu.slots && t.gpu.ranks[Peer(r)] == m.gpu.ranks[Peer(r)]
  {
    t := GpuStep(drains, kinds, add, m, Issue(r, 0, v));
    IssueEffect(MappedHost, add, m.gpu, r, 0, v);
    var none: seq<Op<V>> := [];
    assert none + Issued(MappedHost, r, n + 1, v) == Issued(MappedHost, r, n + 1, v);
    assert Program(MappedHost, r, n + 1, v)[0..] == Program(MappedHost, r, n + 1, v);
  }

  /** Rank `r` fills its slot for call `e` and publishes it. */
  lemma Publish<V(!new)>(drains: bool, kinds: seq<Kind>, add: (V, V) -> V, m: Mixed<V>, r: Rank, e: nat, v: V, k: nat) returns (t: Mixed<V>)
    requires MixedReachable(drains, kinds, add, m) && MixedShaped(m) && k <= 1 && At(m.gpu, r, e, v, k)
    requires m.gpu.flags[ConsumedWord(r)] >= e - 1
    ensures MixedReachable(drains, kinds, add, t) && t.workers == m.workers && At(t.gpu, r, e, v, 3)
    ensures t.gpu.flags == m.gpu.flags[ReadyWord(r) := e] && t.gpu.slots == m.gpu.slots[r := v]
    ensures t.gpu.ranks[Peer(r)] == m.gpu.ranks[Peer(r)]
  {
    t := m;
    if k == 0 {
      t := Fire(drains, kinds, add, t, r, e, v, 0);
    }
    t := Fire(drains, kinds, add, t, r, e, v, 1);
    t := Fire(drains, kinds, add, t, r, e, v, 2);
  }

  /** Rank `r` adds call `e` and releases the peer's slot. */
  lemma Consume<V(!new)>(drains: bool, kinds: seq<Kind>, add: (V, V) -> V, m: Mixed<V>, r: Rank, e: nat, v: V) returns (t: Mixed<V>)
    requires MixedReachable(drains, kinds, add, m) && MixedShaped(m) && At(m.gpu, r, e, v, 3)
    requires m.gpu.flags[ReadyWord(Peer(r))] >= e
    ensures MixedReachable(drains, kinds, add, t) && t.workers == m.workers && At(t.gpu, r, e, v, 6)
    ensures t.gpu.flags == m.gpu.flags[ConsumedWord(Peer(r)) := e] && t.gpu.slots == m.gpu.slots
    ensures t.gpu.ranks[Peer(r)] == m.gpu.ranks[Peer(r)] && t.gpu.ranks[r].calls == m.gpu.ranks[r].calls
    ensures e in t.gpu.ranks[r].outputs && t.gpu.ranks[r].outputs[e] == add(v, m.gpu.slots[Peer(r)])
  {
    t := Fire(drains, kinds, add, m, r, e, v, 3);
    t := Fire(drains, kinds, add, t, r, e, v, 4);
    t := Fire(drains, kinds, add, t, r, e, v, 5);
  }

  /** Both ranks issue and publish call `n + 1`, with payloads `y` and `x`. */
  lemma PublishBoth<V(!new)>(drains: bool, kinds: seq<Kind>, add: (V, V) -> V, m: Mixed<V>, a: nat, n: nat, x: V, y: V) returns (t: Mixed<V>)
    requires MixedReachable(drains, kinds, add, m) && CpuQuiet(m, a) && GpuQuiet(m.gpu, n)
    requires a + n < |kinds| && kinds[a + n] == StreamCall
    ensures MixedReachable(drains, kinds, add, t) && t.workers == m.workers
    ensures At(t.gpu, 0, n + 1, y, 3) && At(t.gpu, 1, n + 1, x, 3)
    ensures t.gpu.flags == [n + 1, n + 1, n, n] && t.gpu.slots == [y, x]
  {
    t := PublishOne(drains, kinds, add, m, 0, a, n, y);
    t := PublishOne(drains, kinds, add, t, 1, a, n, x);
  }

  lemma PublishOne<V(!new)>(drains: bool, kinds: seq<Kind>, add: (V, V) -> V, m: Mixed<V>, r: Rank, a: nat, n: nat, v: V) returns (t: Mixed<V>)
    requires MixedReachable(drains, kinds, add, m) && MixedShaped(m) && Finished(m.gpu, r, n)
    requires m.workers[r].stage == Between && |m.workers[r].inputs| == a
    requires a + n < |kinds| && kinds[a + n] == StreamCall && m.gpu.flags[ConsumedWord(r)] >= n
    ensures MixedReachable(drains, kinds, add, t) && t.workers == m.workers && At(t.gpu, r, n + 1, v, 3)
    ensures t.gpu.flags == m.gpu.flags[ReadyWord(r) := n + 1] && t.gpu.slots == m.gpu.slots[r := v]
    ensures t.gpu.ranks[Peer(r)] == m.gpu.ranks[Peer(r)]
  {
    t := IssueOne(drains, kinds, add, m, r, a, n, v);
    t := Publish(drains, kinds, add, t, r, n + 1, v, if n == 0 then 1 else 0);
  }

  lemma OneEpoch<V(!new)>(drains: bool, kinds: seq<Kind>, add: (V, V) -> V, m: Mixed<V>, a: nat, n: nat, x: V, y: V) returns (t: Mixed<V>)
    requires MixedReachable(drains, kinds, add, m) && CpuQuiet(m, a) && GpuQuiet(m.gpu, n)
    requires a + n < |kinds| && kinds[a + n] == StreamCall
    ensures MixedReachable(drains, kinds, add, t) && t.workers == m.workers && GpuQuiet(t.gpu, n + 1)
  {
    t := PublishBoth(drains, kinds, add, m, a, n, x, y);
    t := Consume(drains, kinds, add, t, 0, n + 1, y);
    t := Consume(drains, kinds, add, t, 1, n + 1, x);
  }

  lemma {:induction false} Epochs<V(!new)>(drains: bool, kinds: seq<Kind>, add: (V, V) -> V, m: Mixed<V>, a: nat, n: nat, x: V, y: V) returns (t: Mixed<V>)
    requires MixedReachable(drains, kinds, add, m) && CpuQuiet(m, a) && Idle(m.gpu)
    requires a + n < |kinds| && forall i | a <= i < a + n :: kinds[i] == StreamCall
    ensures MixedReachable(drains, kinds, add, t) && t.workers == m.workers && CpuQuiet(t, a) && GpuQuiet(t.gpu, n)
  {
    if n == 0 {
      t := m;
      IdleRank(m.gpu, 0);
      IdleRank(m.gpu, 1);
      assert m.gpu.flags == [0, 0, 0, 0];
    } else {
      t := Epochs(drains, kinds, add, m, a, n - 1, x, y);
      t := OneEpoch(drains, kinds, add, t, a, n - 1, x, y);
    }
  }

  /** In call `e`, the last stream call, rank 0 finishes and starts a CPU call before rank 1 has added. */
  lemma LastEpoch<V(!new)>(drains: bool, kinds: seq<Kind>, add: (V, V) -> V, m: Mixed<V>, a: nat, e: nat, x: V, y: V, z: V) returns (t: Mixed<V>)
    requires e > 0 && MixedReachable(drains, kinds, add, m) && CpuQuiet(m, a) && GpuQuiet(m.gpu, e - 1)
    requires a + e < |kinds| && kinds[a + e - 1] == StreamCall && kinds[a + e] == CpuCall
    ensures MixedReachable(drains, kinds, add, t) && MixedShaped(t)
    ensures |t.gpu.ranks[0].calls| == |t.gpu.ranks[1].calls| == e
    ensures t.gpu.ranks[0].calls[e - 1].payload == y && t.gpu.ranks[1].calls[e - 1].payload == x
    ensures e in t.gpu.ranks[1].outputs && t.gpu.ranks[1].outputs[e] == add(x, z)
  {
    t := PublishBoth(drains, kinds, add, m, a, e - 1, x, y);
    t := Consume(drains, kinds, add, t, 0, e, y);
    t := RefillSlot(drains, kinds, add, t, a, e, y, z);
    t := Consume(drains, kinds, add, t, 1, e, x);
  }

  /** Rank 0's CPU call overwrites its slot as soon as its own stream is empty. */
  lemma RefillSlot<V(!new)>(drains: bool, kinds: seq<Kind>, add: (V, V) -> V, m: Mixed<V>, a: nat, e: nat, y: V, z: V) returns (t: Mixed<V>)
    requires MixedReachable(drains, kinds, add, m) && CpuQuiet(m, a) && At(m.gpu, 0, e, y, 6)
    requires a + e < |kinds| && kinds[a + e] == CpuCall
    ensures MixedReachable(drains, kinds, add, t) && MixedShaped(t)
    ensures t.gpu == m.gpu.(slots := m.gpu.slots[0 := z])
  {
    assert Program(MappedHost, 0, e, y)[6..] == [];
    t := HostStep(drains, kinds, add, m, Begin(0, z));
  }
}
