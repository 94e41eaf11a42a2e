/** One mapped-host communicator used by both of its paths: stream-ordered calls and CPU-add calls share the
    two payload slots, and only the stream path waits for the peer's consumed word. */
module MixedPath {
  import opened StreamMachine
  import opened StreamQueues
  import opened CpuAddPath
  import MappedHostProtocol

  datatype Kind = CpuCall | StreamCall

  /** Streams, flags and slots of the GPU side, and the two host threads. */
  datatype Mixed<V> = Mixed(gpu: State<V>, workers: seq<Worker<V>>)

  datatype MixedAction<V> =
    | Host(host: WorkerAction<V>)
    | Gpu(step: Action<V>)

  predicate MixedShaped<V>(m: Mixed<V>) {
    Shaped(MappedHost, m.gpu) && |m.workers| == 2
  }

  /** What the CPU path sees: the same slots. */
  function WorldOf<V>(m: Mixed<V>): World<V> {
    World(m.gpu.slots, m.workers)
  }

  function Made<V>(m: Mixed<V>, r: Rank): nat
    requires MixedShaped(m)
  {
    |m.workers[r].inputs| + |m.gpu.ranks[r].calls|
  }

  /** The next call of rank `r` takes this path. Both ranks follow the same list. */
  predicate NextIs<V>(kinds: seq<Kind>, m: Mixed<V>, r: Rank, kind: Kind)
    requires MixedShaped(m)
  {
    Made(m, r) < |kinds| && kinds[Made(m, r)] == kind
  }

  /** Nothing that rank `r` enqueued is still to run. */
  predicate Drained<V>(g: State<V>, r: Rank)
    requires |g.ranks| == 2
  {
    forall q | 0 <= q < |g.ranks[r].queues| :: g.ranks[r].queues[q] == []
  }

  ghost predicate MixedInitial<V>(m: Mixed<V>) {
    Initial(MappedHost, m.gpu) && CpuInitial(WorldOf(m))
  }

  /** A host starts its next call only outside a CPU call. `drains` says whether the copy of a CPU call waits
      until the rank's own streams are empty, as a copy ordered behind the stream in use would. */
  predicate MixedEnabled<V>(drains: bool, kinds: seq<Kind>, m: Mixed<V>, a: MixedAction<V>) {
    MixedShaped(m) &&
    match a
    case Gpu(step) =>
      && Enabled(MappedHost, m.gpu, step)
      && (step.Issue? ==> m.workers[step.rank].stage == Between && NextIs(kinds, m, step.rank, StreamCall))
    case Host(act) =>
      && CpuEnabled(|kinds|, WorldOf(m), act)
      && (act.Begin? ==> NextIs(kinds, m, act.rank, CpuCall) && (drains ==> Drained(m.gpu, act.rank)))
  }

  function MixedStep<V>(kinds: seq<Kind>, add: (V, V) -> V, m: Mixed<V>, a: MixedAction<V>): Mixed<V>
    requires MixedShaped(m)
    requires match a case Gpu(step) => Enabled(MappedHost, m.gpu, step) case Host(act) => CpuEnabled(|kinds|, WorldOf(m), act)
  {
    match a
    case Gpu(step) => m.(gpu := Step(MappedHost, add, m.gpu, step))
    case Host(act) =>
      var w := CpuStep(|kinds|, add, WorldOf(m), act);
      Mixed(m.gpu.(slots := w.slots), w.workers)
  }

  /** Consecutive states of a run. */
  ghost predicate Steps<V>(drains: bool, kinds: seq<Kind>, add: (V, V) -> V, m: Mixed<V>, a: MixedAction<V>, t: Mixed<V>) {
    MixedEnabled(drains, kinds, m, a) && t == MixedStep(kinds, add, m, a)
  }

  ghost predicate IsRun<V>(drains: bool, kinds: seq<Kind>, add: (V, V) -> V, trace: seq<Mixed<V>>, acts: seq<MixedAction<V>>) {
    && |trace| == |acts| + 1 && MixedInitial(trace[0])
    && forall i | 0 <= i < |acts| :: Steps(drains, kinds, add, trace[i], acts[i], trace[i + 1])
  }

  ghost predicate MixedReachable<V(!new)>(drains: bool, kinds: seq<Kind>, add: (V, V) -> V, m: Mixed<V>) {
    exists trace, acts :: IsRun(drains, kinds, add, trace, acts) && trace[|acts|] == m
  }

  lemma MixedReachableStep<V(!new)>(drains: bool, kinds: seq<Kind>, add: (V, V) -> V, m: Mixed<V>, a: MixedAction<V>) returns (t: Mixed<V>)
    requires MixedReachable(drains, kinds, add, m) && MixedEnabled(drains, kinds, m, a)
    ensures t == MixedStep(kinds, add, m, a) && MixedReachable(drains, kinds, add, t)
  {
    t := MixedStep(kinds, add, m, a);
    var trace, acts :| IsRun(drains, kinds, add, trace, acts) && trace[|acts|] == m;
    var trace', acts' := trace + [t], acts + [a];
    forall i | 0 <= i < |acts'| ensures Steps(drains, kinds, add, trace'[i], acts'[i], trace'[i + 1]) {
      if i < |acts| {
        assert Steps(drains, kinds, add, trace[i], acts[i], trace[i + 1]);
      }
    }
    assert IsRun(drains, kinds, add, trace', acts') && trace'[|acts'|] == t;
  }

  /** Every result either path has produced is the sum of its own call's payloads. */
  ghost predicate MixedSums<V(!new)>(add: (V, V) -> V, m: Mixed<V>) {
    && MixedShaped(m) && OutputsAreSums(add, m.gpu)
    && ResultsAreSums(add, m.workers[0].results, m.workers[0].inputs, m.workers[1].inputs)
    && ResultsAreSums(add, m.workers[1].results, m.workers[0].inputs, m.workers[1].inputs)
  }

  ghost predicate NoCpuAfterStream(kinds: seq<Kind>) {
    forall i, j | 0 <= i < j < |kinds| && kinds[i] == StreamCall :: kinds[j] == StreamCall
  }

  /** The first `a` calls take the CPU path and all others the stream path. */
  ghost predicate Leading(kinds: seq<Kind>, a: nat) {
    a <= |kinds| && forall i | 0 <= i < |kinds| :: kinds[i] == CpuCall <==> i < a
  }

  lemma LeadingCpuCalls(kinds: seq<Kind>) returns (a: nat)
    requires NoCpuAfterStream(kinds)
    ensures Leading(kinds, a)
  {
    a := 0;
    while a < |kinds| && kinds[a] == CpuCall
      invariant 0 <= a <= |kinds|
      invariant forall i | 0 <= i < a :: kinds[i] == CpuCall
    {
      a := a + 1;
    }
  }

  // ---------------------------------------------------------------- safety without CPU calls after stream calls

  /** Before its first stream call a rank's slot holds its latest CPU payload; after it, no CPU call follows. */
  ghost predicate Ordered<V(!new)>(a: nat, calls: seq<Call<V>>, worker: Worker<V>, slot: V) {
    && |worker.inputs| <= a
    && (calls == [] ==> Holds(slot, worker.inputs))
    && (calls != [] ==> worker.stage == Between && |worker.inputs| == a)
  }

  /** The host side of the invariant, seen from rank `r`. */
  ghost predicate HostInv<V(!new)>(n: nat, a: nat, add: (V, V) -> V, m: Mixed<V>, r: Rank) {
    && MixedShaped(m) && CpuCore(n, add, WorldOf(m), r)
    && Made(m, r) <= n && Made(m, Peer(r)) <= n
    && Ordered(a, m.gpu.ranks[r].calls, m.workers[r], m.gpu.slots[r])
    && Ordered(a, m.gpu.ranks[Peer(r)].calls, m.workers[Peer(r)], m.gpu.slots[Peer(r)])
  }

  ghost predicate MixedInv<V(!new)>(n: nat, a: nat, add: (V, V) -> V, m: Mixed<V>, r: Rank, mine: seq<nat>, peers: seq<nat>) {
    HostInv(n, a, add, m, r) && MappedHostProtocol.Inv(add, m.gpu, r, mine, peers)
  }

  lemma GpuIssueInv<V(!new)>(kinds: seq<Kind>, a: nat, add: (V, V) -> V, m: Mixed<V>, r: Rank, q: nat, v: V, mine: seq<nat>, peers: seq<nat>)
    requires MixedInv(|kinds|, a, add, m, r, mine, peers) && Leading(kinds, a) && MixedEnabled(false, kinds, m, Gpu(Issue(r, q, v)))
    ensures MixedInv(|kinds|, a, add, MixedStep(kinds, add, m, Gpu(Issue(r, q, v))), r, mine, peers)
  {
    MappedHostProtocol.IssueInv(add, m.gpu, Issue(r, q, v), mine, peers);
    IssueKeepsHost(kinds, a, add, m, r, q, v);
  }

  lemma IssueKeepsHost<V(!new)>(kinds: seq<Kind>, a: nat, add: (V, V) -> V, m: Mixed<V>, r: Rank, q: nat, v: V)
    requires HostInv(|kinds|, a, add, m, r) && Leading(kinds, a) && MixedEnabled(false, kinds, m, Gpu(Issue(r, q, v)))
    ensures HostInv(|kinds|, a, add, MixedStep(kinds, add, m, Gpu(Issue(r, q, v))), r)
  {
    IssueEffect(MappedHost, add, m.gpu, r, q, v);
    assert kinds[Made(m, r)] == StreamCall;
  }

  lemma GpuRunInv<V(!new)>(kinds: seq<Kind>, a: nat, add: (V, V) -> V, m: Mixed<V>, r: Rank, q: nat, mine: seq<nat>, peers: seq<nat>)
    returns (mine': seq<nat>)
    requires MixedInv(|kinds|, a, add, m, r, mine, peers) && MixedEnabled(false, kinds, m, Gpu(Run(r, q)))
    ensures MixedInv(|kinds|, a, add, MixedStep(kinds, add, m, Gpu(Run(r, q))), r, mine', peers)
  {
    mine' := MappedHostProtocol.RunInv(add, m.gpu, r, q, mine, peers);
    RunKeepsSlots(add, m.gpu, r, q, mine, peers);
    RunKeepsHost(|kinds|, a, add, m, r, q);
  }

  /** A stream writes at most its own rank's slot, and only for a call of its rank. */
  lemma RunKeepsSlots<V(!new)>(add: (V, V) -> V, s: State<V>, r: Rank, q: nat, mine: seq<nat>, peers: seq<nat>)
    requires MappedHostProtocol.Inv(add, s, r, mine, peers) && Enabled(MappedHost, s, Run(r, q))
    ensures s.ranks[r].calls != []
    ensures s.ranks[r].queues[q][0].Copy? ==> s.ranks[r].queues[q][0].slot == r
  {
    var e := MappedHostProtocol.NextCall(add, s, r, q, mine, peers);
    MappedHostProtocol.OperationAt(r, e, s.ranks[r].calls[e - 1].payload, Done(mine, e));
  }

  lemma RunKeepsHost<V(!new)>(n: nat, a: nat, add: (V, V) -> V, m: Mixed<V>, r: Rank, q: nat)
    requires HostInv(n, a, add, m, r) && Enabled(MappedHost, m.gpu, Run(r, q))
    requires m.gpu.ranks[r].calls != []
    requires m.gpu.ranks[r].queues[q][0].Copy? ==> m.gpu.ranks[r].queues[q][0].slot == r
    ensures HostInv(n, a, add, m.(gpu := Step(MappedHost, add, m.gpu, Run(r, q))), r)
  {
    RunEffect(MappedHost, add, m.gpu, r, q);
  }

  /** The CPU path may write the slot of a rank that has made no stream call. */
  lemma SlotIsFree<V(!new)>(add: (V, V) -> V, s: State<V>, r: Rank, v: V, mine: seq<nat>, peers: seq<nat>)
    requires MappedHostProtocol.Inv(add, s, r, mine, peers) && s.ranks[r].calls == []
    ensures MappedHostProtocol.Inv(add, s.(slots := s.slots[r := v]), r, mine, peers)
  {
  }

  /** The host action `a` of rank `r`, with what it leaves in the slots. */
  lemma HostInvStep<V(!new)>(kinds: seq<Kind>, a: nat, add: (V, V) -> V, m: Mixed<V>, act: WorkerAction<V>, mine: seq<nat>, peers: seq<nat>)
    requires MixedInv(|kinds|, a, add, m, act.rank, mine, peers) && Leading(kinds, a) && MixedEnabled(false, kinds, m, Host(act))
    ensures MixedInv(|kinds|, a, add, MixedStep(kinds, add, m, Host(act)), act.rank, mine, peers)
  {
    HostKeepsHost(kinds, a, add, m, act);
    if act.Begin? {
      SlotIsFree(add, m.gpu, act.rank, act.payload, mine, peers);
    } else {
      assert MixedStep(kinds, add, m, Host(act)).gpu == m.gpu;
    }
  }

  lemma HostKeepsHost<V(!new)>(kinds: seq<Kind>, a: nat, add: (V, V) -> V, m: Mixed<V>, act: WorkerAction<V>)
    requires HostInv(|kinds|, a, add, m, act.rank) && Leading(kinds, a) && MixedEnabled(false, kinds, m, Host(act))
    ensures HostInv(|kinds|, a, add, MixedStep(kinds, add, m, Host(act)), act.rank)
    ensures act.Begin? ==> m.gpu.ranks[act.rank].calls == []
  {
    match act
    case Begin(r, v) => BeginKeepsHost(kinds, a, add, m, r, v);
    case Enter(r) => EnterKeepsHost(kinds, a, add, m, r);
    case Return(r) => ReturnKeepsHost(kinds, a, add, m, r);
    case Sum(r) => SumKeepsHost(kinds, a, add, m, r);
  }

  lemma BeginKeepsHost<V(!new)>(kinds: seq<Kind>, a: nat, add: (V, V) -> V, m: Mixed<V>, r: Rank, v: V)
    requires HostInv(|kinds|, a, add, m, r) && Leading(kinds, a) && MixedEnabled(false, kinds, m, Host(Begin(r, v)))
    ensures HostInv(|kinds|, a, add, MixedStep(kinds, add, m, Host(Begin(r, v))), r) && m.gpu.ranks[r].calls == []
  {
    assert kinds[Made(m, r)] == CpuCall;
    BeginCore(|kinds|, add, WorldOf(m), r, v);
  }

  lemma EnterKeepsHost<V(!new)>(kinds: seq<Kind>, a: nat, add: (V, V) -> V, m: Mixed<V>, r: Rank)
    requires HostInv(|kinds|, a, add, m, r) && MixedEnabled(false, kinds, m, Host(Enter(r)))
    ensures HostInv(|kinds|, a, add, MixedStep(kinds, add, m, Host(Enter(r))), r)
  {
    EnterCore(|kinds|, add, WorldOf(m), r);
  }

  lemma ReturnKeepsHost<V(!new)>(kinds: seq<Kind>, a: nat, add: (V, V) -> V, m: Mixed<V>, r: Rank)
    requires HostInv(|kinds|, a, add, m, r) && MixedEnabled(false, kinds, m, Host(Return(r)))
    ensures HostInv(|kinds|, a, add, MixedStep(kinds, add, m, Host(Return(r))), r)
  {
    ReturnCore(|kinds|, add, WorldOf(m), r);
  }

  /** Both slots still hold CPU payloads while a rank adds: its peer is inside the same call. */
  lemma SumKeepsHost<V(!new)>(kinds: seq<Kind>, a: nat, add: (V, V) -> V, m: Mixed<V>, r: Rank)
    requires HostInv(|kinds|, a, add, m, r) && MixedEnabled(false, kinds, m, Host(Sum(r)))
    ensures HostInv(|kinds|, a, add, MixedStep(kinds, add, m, Host(Sum(r))), r)
  {
    AddingTogether(|kinds|, add, WorldOf(m), r);
    SlotsHold(|kinds|, a, add, m, r);
    SumCore(|kinds|, add, WorldOf(m), r);
  }

  lemma SlotsHold<V(!new)>(n: nat, a: nat, add: (V, V) -> V, m: Mixed<V>, r: Rank)
    requires HostInv(n, a, add, m, r) && m.workers[r].stage != Between && m.workers[Peer(r)].stage != Between
    ensures Holds(m.gpu.slots[0], m.workers[0].inputs) && Holds(m.gpu.slots[1], m.workers[1].inputs)
  {
    assert r == 0 || r == 1;
  }

  lemma MixedStepInv<V(!new)>(drains: bool, kinds: seq<Kind>, a: nat, add: (V, V) -> V, m: Mixed<V>, act: MixedAction<V>, r: Rank, mine: seq<nat>, peers: seq<nat>)
    returns (mine': seq<nat>)
    requires MixedInv(|kinds|, a, add, m, r, mine, peers) && Leading(kinds, a) && MixedEnabled(drains, kinds, m, act)
    requires r == match act case Gpu(step) => step.rank case Host(h) => h.rank
    ensures MixedInv(|kinds|, a, add, MixedStep(kinds, add, m, act), r, mine', peers)
  {
    mine' := mine;
    match act
    case Host(h) => HostInvStep(kinds, a, add, m, h, mine, peers);
    case Gpu(step) =>
      if step.Issue? {
        GpuIssueInv(kinds, a, add, m, r, step.stream, step.payload, mine, peers);
      } else {
        mine' := GpuRunInv(kinds, a, add, m, r, step.stream, mine, peers);
      }
  }

  lemma MixedInvFlips<V(!new)>(n: nat, a: nat, add: (V, V) -> V, m: Mixed<V>, r: Rank, mine: seq<nat>, peers: seq<nat>)
    requires MixedInv(n, a, add, m, r, mine, peers)
    ensures MixedInv(n, a, add, m, Peer(r), peers, mine)
  {
  }

  lemma {:induction false} RunInvariant<V(!new)>(drains: bool, kinds: seq<Kind>, a: nat, add: (V, V) -> V,
                                                 trace: seq<Mixed<V>>, acts: seq<MixedAction<V>>, i: nat)
    returns (c0: seq<nat>, c1: seq<nat>)
    requires IsRun(drains, kinds, add, trace, acts) && Leading(kinds, a) && i <= |acts|
    ensures MixedInv(|kinds|, a, add, trace[i], 0, c0, c1)
  {
    if i == 0 {
      c0, c1 := [1, 0, 0, 0, 0, 0], [1, 0, 0, 0, 0, 0];
      MappedHostProtocol.InitialInv(add, trace[0].gpu);
      InitialHost(|kinds|, a, add, trace[0]);
    } else {
      c0, c1 := RunInvariant(drains, kinds, a, add, trace, acts, i - 1);
      assert Steps(drains, kinds, add, trace[i - 1], acts[i - 1], trace[i]);
      c0, c1 := StepFromZero(drains, kinds, a, add, trace[i - 1], acts[i - 1], c0, c1);
    }
  }

  lemma InitialHost<V(!new)>(n: nat, a: nat, add: (V, V) -> V, m: Mixed<V>)
    requires MixedInitial(m)
    ensures HostInv(n, a, add, m, 0)
  {
    assert forall r: Rank | r < 2 :: m.gpu.ranks[r].calls == [];
  }

  lemma StepFromZero<V(!new)>(drains: bool, kinds: seq<Kind>, a: nat, add: (V, V) -> V, m: Mixed<V>, act: MixedAction<V>, c0: seq<nat>, c1: seq<nat>)
    returns (d0: seq<nat>, d1: seq<nat>)
    requires MixedInv(|kinds|, a, add, m, 0, c0, c1) && Leading(kinds, a) && MixedEnabled(drains, kinds, m, act)
    ensures MixedInv(|kinds|, a, add, MixedStep(kinds, add, m, act), 0, d0, d1)
  {
    d0, d1 := c0, c1;
    var r: Rank := match act case Gpu(step) => step.rank case Host(h) => h.rank;
    if r == 0 {
      d0 := MixedStepInv(drains, kinds, a, add, m, act, 0, c0, c1);
    } else {
      MixedInvFlips(|kinds|, a, add, m, 0, c0, c1);
      d1 := MixedStepInv(drains, kinds, a, add, m, act, 1, c1, c0);
      MixedInvFlips(|kinds|, a, add, MixedStep(kinds, add, m, act), 1, d1, c0);
    }
  }

  /** Safety: when no CPU call follows a stream call, both paths compute only sums, on any streams and
      schedules and whether or not the CPU path's copy waits for the rank's own streams. */
  lemma MixedResultsAreSums<V(!new)>(drains: bool, kinds: seq<Kind>, add: (V, V) -> V, m: Mixed<V>)
    requires MixedReachable(drains, kinds, add, m) && NoCpuAfterStream(kinds)
    ensures MixedSums(add, m)
  {
    var a := LeadingCpuCalls(kinds);
    var trace, acts :| IsRun(drains, kinds, add, trace, acts) && trace[|acts|] == m;
    var c0, c1 := RunInvariant(drains, kinds, a, add, trace, acts, |acts|);
  }

  // ---------------------------------------------------------------- progress

  /** No thread and no stream can take a step. */
  ghost predicate MixedStuck<V(!new)>(drains: bool, kinds: seq<Kind>, m: Mixed<V>) {
    MixedShaped(m) && forall a :: !MixedEnabled(drains, kinds, m, a)
  }

  /** Every stream operation and every call that could still be made is done, on both paths. */
  ghost predicate AllDone<V(!new)>(kinds: seq<Kind>, a: nat, add: (V, V) -> V, m: Mixed<V>) {
    && MixedShaped(m) && Complete(add, m.gpu)
    && |m.gpu.ranks[0].calls| == |m.gpu.ranks[1].calls| == |kinds| - a
    && |m.workers[0].results| == |m.workers[1].results| == a
    && m.workers[0].returned == m.workers[1].returned == a
  }

  /** Progress: when nothing can move, every CPU sum is in place, and unless the barrier lost a signal every
      call of both paths has completed. A lost signal leaves one rank in the last wait of the CPU calls. */
  lemma MixedPathStops<V(!new)>(drains: bool, kinds: seq<Kind>, a: nat, add: (V, V) -> V, m: Mixed<V>, v: V)
    requires MixedReachable(drains, kinds, add, m) && Leading(kinds, a) && MixedStuck(drains, kinds, m)
    requires m.gpu.ranks[0].queues != [] && m.gpu.ranks[1].queues != []
    ensures |m.workers[0].results| == |m.workers[1].results| == a
    ensures m.workers[0].side.absorbed + m.workers[1].side.absorbed == 0 ==> AllDone(kinds, a, add, m)
    ensures a == 0 ==> AllDone(kinds, a, add, m)
  {
    var trace, acts :| IsRun(drains, kinds, add, trace, acts) && trace[|acts|] == m;
    var c0, c1 := RunInvariant(drains, kinds, a, add, trace, acts, |acts|);
    HostsStopped(drains, kinds, a, add, m, v, c0, c1);
    if m.workers[0].side.absorbed + m.workers[1].side.absorbed == 0 || a == 0 {
      CallsAllMade(drains, kinds, a, m, v);
      GpuStopped(drains, kinds, m);
      MappedHostProtocol.StuckComplete(add, m.gpu, c0, c1);
    }
  }

  lemma NotEnabled<V(!new)>(drains: bool, kinds: seq<Kind>, m: Mixed<V>, a: MixedAction<V>)
    requires MixedStuck(drains, kinds, m)
    ensures !MixedEnabled(drains, kinds, m, a)
  {
  }

  lemma HostsStopped<V(!new)>(drains: bool, kinds: seq<Kind>, a: nat, add: (V, V) -> V, m: Mixed<V>, v: V, c0: seq<nat>, c1: seq<nat>)
    requires MixedInv(|kinds|, a, add, m, 0, c0, c1) && Leading(kinds, a) && MixedStuck(drains, kinds, m)
    ensures var zero, one := m.workers[0], m.workers[1];
            && |zero.results| == |one.results| == |zero.inputs| == |one.inputs| == a
            && (zero.side.absorbed + one.side.absorbed == 0 ==> zero.returned == one.returned == a && zero.stage == one.stage == Between)
            && (zero.side.absorbed + one.side.absorbed != 0 ==> a > 0)
  {
    var ranks: seq<Rank> := [0, 1];
    forall r: Rank | r < 2 && m.workers[r].stage == Between
      ensures |m.workers[r].inputs| == a
    {
      NoMoreCpuCalls(drains, kinds, a, add, m, r, v, c0, c1);
    }
    NotEnabled(drains, kinds, m, Host(Enter(0)));
    NotEnabled(drains, kinds, m, Host(Enter(1)));
    NotEnabled(drains, kinds, m, Host(Sum(0)));
    NotEnabled(drains, kinds, m, Host(Sum(1)));
    NotEnabled(drains, kinds, m, Host(Return(0)));
    NotEnabled(drains, kinds, m, Host(Return(1)));
    StoppedBetweenCalls(|kinds|, add, WorldOf(m), a);
  }

  lemma NoMoreCpuCalls<V(!new)>(drains: bool, kinds: seq<Kind>, a: nat, add: (V, V) -> V, m: Mixed<V>, r: Rank, v: V, c0: seq<nat>, c1: seq<nat>)
    requires MixedInv(|kinds|, a, add, m, 0, c0, c1) && Leading(kinds, a) && MixedStuck(drains, kinds, m)
    requires m.workers[r].stage == Between
    ensures |m.workers[r].inputs| == a
  {
    NotEnabled(drains, kinds, m, Host(Begin(r, v)));
    if |m.workers[r].inputs| < a {
      OrderedRank(|kinds|, a, add, m, r);
      NothingQueued(add, m.gpu, r, c0, c1);
      assert false;
    }
  }

  lemma OrderedRank<V(!new)>(n: nat, a: nat, add: (V, V) -> V, m: Mixed<V>, r: Rank)
    requires HostInv(n, a, add, m, 0)
    ensures Ordered(a, m.gpu.ranks[r].calls, m.workers[r], m.gpu.slots[r])
  {
    assert r == 0 || r == 1;
  }

  lemma NothingQueued<V(!new)>(add: (V, V) -> V, s: State<V>, r: Rank, c0: seq<nat>, c1: seq<nat>)
    requires MappedHostProtocol.Inv(add, s, 0, c0, c1) && s.ranks[r].calls == []
    ensures Drained(s, r)
  {
    AllFinished(MappedHost, r, s.ranks[r], if r == 0 then c0 else c1);
  }

  lemma CallsAllMade<V(!new)>(drains: bool, kinds: seq<Kind>, a: nat, m: Mixed<V>, v: V)
    requires MixedStuck(drains, kinds, m) && Leading(kinds, a)
    requires m.gpu.ranks[0].queues != [] && m.gpu.ranks[1].queues != []
    requires m.workers[0].stage == m.workers[1].stage == Between
    requires |m.workers[0].inputs| == |m.workers[1].inputs| == a
    requires |m.gpu.ranks[0].calls| + a <= |kinds| && |m.gpu.ranks[1].calls| + a <= |kinds|
    ensures |m.gpu.ranks[0].calls| == |m.gpu.ranks[1].calls| == |kinds| - a
  {
    NotEnabled(drains, kinds, m, Gpu(Issue(0, 0, v)));
    NotEnabled(drains, kinds, m, Gpu(Issue(1, 0, v)));
  }

  lemma GpuStopped<V(!new)>(drains: bool, kinds: seq<Kind>, m: Mixed<V>)
    requires MixedStuck(drains, kinds, m)
    ensures Stuck(MappedHost, m.gpu)
  {
    forall r: Rank, q | r < 2 && 0 <= q < |m.gpu.ranks[r].queues|
      ensures !Enabled(MappedHost, m.gpu, Run(r, q))
    {
      NotEnabled(drains, kinds, m, Gpu(Run(r, q)));
    }
  }
}
