/** The mapped-host all-reduce without stream operations: copy to the own slot, barrier, add both
    slots on the CPU, barrier. It runs on the lossy pair barrier. */
module CpuAddPath {
  import opened StreamMachine
  import opened PairBarrier

  /** Where a rank is. Construction itself passes the barrier once. Entering a wait moves to the
      following `In...` stage; `Adding` lasts until the CPU add has read both slots. */
  datatype Stage = Constructing | InFirstWait | Between | Copied | InReadyWait | Adding | Added | InDoneWait

  /** `inputs` are the payloads of the calls begun so far, `results` those of the calls added so far. */
  datatype Worker<V> = Worker(stage: Stage, side: Side, inputs: seq<V>, results: seq<V>, returned: nat)

  datatype World<V> = World(slots: seq<V>, workers: seq<Worker<V>>)

  datatype WorkerAction<V> =
    | Begin(rank: Rank, payload: V)   // memcpy into the own slot
    | Enter(rank: Rank)               // SetEvent
    | Return(rank: Rank)              // WaitForSingleObject succeeds
    | Sum(rank: Rank)                 // torch.add over both slots

  ghost predicate CpuInitial<V>(w: World<V>) {
    |w.slots| == 2 && |w.workers| == 2
    && w.workers[0] == Worker(Constructing, FRESH, [], [], 0)
    && w.workers[1] == Worker(Constructing, FRESH, [], [], 0)
  }

  predicate Waits(stage: Stage) { stage.InFirstWait? || stage.InReadyWait? || stage.InDoneWait? }

  predicate Entering(stage: Stage) { stage.Constructing? || stage.Copied? || stage.Added? }

  /** `calls` is how many calls each rank makes. */
  predicate CpuEnabled<V>(calls: nat, w: World<V>, a: WorkerAction<V>) {
    && |w.slots| == 2 && |w.workers| == 2
    && var me := w.workers[a.rank];
    match a
    case Begin(_, _) => me.stage == Between && |me.inputs| < calls
    case Enter(_) => Entering(me.stage)
    case Return(r) => Waits(me.stage) && CanLeave(me.side, w.workers[Peer(r)].side)
    case Sum(_) => me.stage == Adding
  }

  function EnterStage(stage: Stage): Stage
    requires Entering(stage)
  {
    match stage case Constructing => InFirstWait case Copied => InReadyWait case Added => InDoneWait
  }

  function LeaveStage(stage: Stage): Stage
    requires Waits(stage)
  {
    match stage case InFirstWait => Between case InReadyWait => Adding case InDoneWait => Between
  }

  function CpuStep<V>(calls: nat, add: (V, V) -> V, w: World<V>, a: WorkerAction<V>): World<V>
    requires CpuEnabled(calls, w, a)
  {
    var r := a.rank;
    var me := w.workers[r];
    match a
    case Begin(_, v) =>
      World(w.slots[r := v], w.workers[r := me.(stage := Copied, inputs := me.inputs + [v])])
    case Enter(_) =>
      w.(workers := w.workers[r := me.(stage := EnterStage(me.stage), side := Arrive(me.side))])
    case Return(_) =>
      var (mine, peers) := Leave(me.side, w.workers[Peer(r)].side);
      var done := if me.stage == InDoneWait then me.returned + 1 else me.returned;
      w.(workers := w.workers[r := me.(stage := LeaveStage(me.stage), side := mine, returned := done)]
                             [Peer(r) := w.workers[Peer(r)].(side := peers)])
    case Sum(_) =>
      w.(workers := w.workers[r := me.(stage := Added, results := me.results + [add(w.slots[0], w.slots[1])])])
  }

  ghost predicate CpuLegal<V>(calls: nat, add: (V, V) -> V, w: World<V>, acts: seq<WorkerAction<V>>)
    decreases |acts|
  {
    acts == [] || (CpuEnabled(calls, w, acts[0]) && CpuLegal(calls, add, CpuStep(calls, add, w, acts[0]), acts[1..]))
  }

  ghost function CpuAfter<V>(calls: nat, add: (V, V) -> V, w: World<V>, acts: seq<WorkerAction<V>>): World<V>
    requires CpuLegal(calls, add, w, acts)
    decreases |acts|
  {
    if acts == [] then w else CpuAfter(calls, add, CpuStep(calls, add, w, acts[0]), acts[1..])
  }

  ghost predicate CpuReachable<V(!new)>(calls: nat, add: (V, V) -> V, w: World<V>) {
    exists w0, acts :: CpuInitial(w0) && CpuLegal(calls, add, w0, acts) && CpuAfter(calls, add, w0, acts) == w
  }

  /** How many waits a rank has entered, by its stage and the calls it has begun. */
  function Entered<V>(me: Worker<V>): int {
    match me.stage
    case Constructing => 0
    case InFirstWait => 1
    case Between => 1 + 2 * |me.inputs|
    case Copied => 2 * |me.inputs| - 1
    case InReadyWait | Adding | Added => 2 * |me.inputs|
    case InDoneWait => 1 + 2 * |me.inputs|
  }

  /** Calls added, and calls returned, given the stage of the last one. */
  function AddedCalls<V>(me: Worker<V>): int {
    match me.stage
    case Copied | InReadyWait | Adding => |me.inputs| - 1
    case _ => |me.inputs|
  }

  function ReturnedCalls<V>(me: Worker<V>): int {
    match me.stage
    case Constructing | InFirstWait | Between => |me.inputs|
    case _ => |me.inputs| - 1
  }

  ghost predicate WorkerInv<V>(calls: nat, me: Worker<V>) {
    && me.side.sets == Entered(me)
    && me.side.waiting == Waits(me.stage)
    && |me.inputs| <= calls
    && (me.stage.Constructing? || me.stage.InFirstWait? ==> |me.inputs| == 0)
    && |me.results| == AddedCalls(me)
    && me.returned == ReturnedCalls(me)
  }

  /** The results are the sums of the two payloads of their own call, rank 0's operand first. */
  ghost predicate ResultsAreSums<V(!new)>(add: (V, V) -> V, results: seq<V>, zero: seq<V>, one: seq<V>) {
    && |results| <= |zero| && |results| <= |one|
    && forall k | 0 <= k < |results| :: results[k] == add(zero[k], one[k])
  }

  ghost predicate Holds<V(!new)>(slot: V, inputs: seq<V>) {
    inputs != [] ==> slot == inputs[|inputs| - 1]
  }

  /** The part of the invariant that does not look into the slots, seen from rank `r`. */
  ghost predicate CpuCore<V(!new)>(calls: nat, add: (V, V) -> V, w: World<V>, r: Rank) {
    && |w.slots| == 2 && |w.workers| == 2
    && Accounted(w.workers[r].side, w.workers[Peer(r)].side)
    && WorkerInv(calls, w.workers[r]) && WorkerInv(calls, w.workers[Peer(r)])
    && ResultsAreSums(add, w.workers[r].results, w.workers[0].inputs, w.workers[1].inputs)
    && ResultsAreSums(add, w.workers[Peer(r)].results, w.workers[0].inputs, w.workers[1].inputs)
  }

  ghost predicate CpuInv<V(!new)>(calls: nat, add: (V, V) -> V, w: World<V>, r: Rank) {
    && CpuCore(calls, add, w, r)
    && Holds(w.slots[r], w.workers[r].inputs) && Holds(w.slots[Peer(r)], w.workers[Peer(r)].inputs)
  }

  /** While a rank adds, its peer is inside the same call. */
  lemma AddingTogether<V(!new)>(calls: nat, add: (V, V) -> V, w: World<V>, r: Rank)
    requires CpuCore(calls, add, w, r) && w.workers[r].stage == Adding
    ensures |w.workers[0].inputs| == |w.workers[1].inputs| > 0
    ensures w.workers[Peer(r)].stage != Between
  {
    assert r == 0 || r == 1;
  }

  lemma BeginCore<V(!new)>(calls: nat, add: (V, V) -> V, w: World<V>, r: Rank, v: V)
    requires CpuCore(calls, add, w, r) && CpuEnabled(calls, w, Begin(r, v))
    ensures CpuCore(calls, add, CpuStep(calls, add, w, Begin(r, v)), r)
  {
    assert CpuStep(calls, add, w, Begin(r, v)).workers[r].inputs == w.workers[r].inputs + [v];
  }

  lemma EnterCore<V(!new)>(calls: nat, add: (V, V) -> V, w: World<V>, r: Rank)
    requires CpuCore(calls, add, w, r) && CpuEnabled(calls, w, Enter(r))
    ensures CpuCore(calls, add, CpuStep(calls, add, w, Enter(r)), r)
  {
    var me, peer := w.workers[r], w.workers[Peer(r)];
    assert Accounted(Arrive(me.side), peer.side);
    assert WorkerInv(calls, me.(stage := EnterStage(me.stage), side := Arrive(me.side)));
  }

  /** A rank that returned from a wait, and its peer. */
  lemma ReturnWorkers<V(!new)>(calls: nat, me: Worker<V>, peer: Worker<V>, me': Worker<V>, peer': Worker<V>)
    requires Accounted(me.side, peer.side) && WorkerInv(calls, me) && WorkerInv(calls, peer)
    requires Waits(me.stage) && CanLeave(me.side, peer.side)
    requires me' == me.(stage := LeaveStage(me.stage), side := Leave(me.side, peer.side).0,
                        returned := if me.stage == InDoneWait then me.returned + 1 else me.returned)
    requires peer' == peer.(side := Leave(me.side, peer.side).1)
    ensures Accounted(me'.side, peer'.side) && WorkerInv(calls, me') && WorkerInv(calls, peer')
  {
  }

  lemma ReturnCore<V(!new)>(calls: nat, add: (V, V) -> V, w: World<V>, r: Rank)
    requires CpuCore(calls, add, w, r) && CpuEnabled(calls, w, Return(r))
    ensures CpuCore(calls, add, CpuStep(calls, add, w, Return(r)), r)
  {
    var t := CpuStep(calls, add, w, Return(r));
    ReturnWorkers(calls, w.workers[r], w.workers[Peer(r)], t.workers[r], t.workers[Peer(r)]);
  }

  lemma SumCore<V(!new)>(calls: nat, add: (V, V) -> V, w: World<V>, r: Rank)
    requires CpuCore(calls, add, w, r) && CpuEnabled(calls, w, Sum(r))
    requires Holds(w.slots[0], w.workers[0].inputs) && Holds(w.slots[1], w.workers[1].inputs)
    ensures CpuCore(calls, add, CpuStep(calls, add, w, Sum(r)), r)
  {
    AddingTogether(calls, add, w, r);
  }

  lemma CpuStepInv<V(!new)>(calls: nat, add: (V, V) -> V, w: World<V>, a: WorkerAction<V>)
    requires CpuInv(calls, add, w, a.rank) && CpuEnabled(calls, w, a)
    ensures CpuInv(calls, add, CpuStep(calls, add, w, a), a.rank)
  {
    match a
    case Begin(r, v) => BeginCore(calls, add, w, r, v);
    case Enter(r) => EnterCore(calls, add, w, r);
    case Return(r) => ReturnCore(calls, add, w, r);
    case Sum(r) =>
      assert r == 0 || r == 1;
      SumCore(calls, add, w, r);
  }

  lemma CpuInvFlips<V(!new)>(calls: nat, add: (V, V) -> V, w: World<V>, r: Rank)
    requires CpuInv(calls, add, w, r)
    ensures CpuInv(calls, add, w, 0) && CpuInv(calls, add, w, 1)
  {
    assert r == 0 || r == 1;
  }

  lemma {:induction false} CpuScheduleInv<V(!new)>(calls: nat, add: (V, V) -> V, w: World<V>, acts: seq<WorkerAction<V>>)
    requires CpuInv(calls, add, w, 0) && CpuLegal(calls, add, w, acts)
    ensures CpuInv(calls, add, CpuAfter(calls, add, w, acts), 0)
    decreases |acts|
  {
    if acts == [] {
    } else {
      CpuInvFlips(calls, add, w, 0);
      CpuStepInv(calls, add, w, acts[0]);
      CpuInvFlips(calls, add, CpuStep(calls, add, w, acts[0]), acts[0].rank);
      CpuScheduleInv(calls, add, CpuStep(calls, add, w, acts[0]), acts[1..]);
    }
  }

  lemma CpuReachableInv<V(!new)>(calls: nat, add: (V, V) -> V, w: World<V>)
    requires CpuReachable(calls, add, w)
    ensures CpuInv(calls, add, w, 0) && CpuInv(calls, add, w, 1)
  {
    var w0, acts :| CpuInitial(w0) && CpuLegal(calls, add, w0, acts) && CpuAfter(calls, add, w0, acts) == w;
    CpuScheduleInv(calls, add, w0, acts);
    CpuInvFlips(calls, add, w, 0);
  }

  /** Although the barrier may lose a signal, every result of every call is the sum of that call's
      payloads, and the two ranks' results agree whatever the addition is. */
  lemma CpuResultsAreSums<V(!new)>(calls: nat, add: (V, V) -> V, w: World<V>)
    requires CpuReachable(calls, add, w)
    ensures |w.workers| == 2
    ensures var zero, one := w.workers[0], w.workers[1];
            && ResultsAreSums(add, zero.results, zero.inputs, one.inputs)
            && ResultsAreSums(add, one.results, zero.inputs, one.inputs)
            && zero.returned <= |zero.results| && one.returned <= |one.results|
            && forall k | 0 <= k < |zero.results| && k < |one.results| :: zero.results[k] == one.results[k]
  {
    CpuReachableInv(calls, add, w);
  }

  /** A slot is written only while its peer is not adding, and never before the peer added the previous payload. */
  lemma CpuSlotIsNeverOverwrittenEarly<V(!new)>(calls: nat, add: (V, V) -> V, w: World<V>, r: Rank, v: V)
    requires CpuReachable(calls, add, w) && CpuEnabled(calls, w, Begin(r, v))
    ensures w.workers[Peer(r)].stage != Adding
    ensures |w.workers[Peer(r)].results| >= |w.workers[r].inputs|
  {
    CpuReachableInv(calls, add, w);
  }

  /** No rank can take a step. */
  ghost predicate CpuStuck<V(!new)>(calls: nat, w: World<V>) {
    forall a :: !CpuEnabled(calls, w, a)
  }

  /** No rank can take a step other than starting its n-th next call: both have finished every wait they
      can, from the invariant alone. */
  lemma StoppedBetweenCalls<V(!new)>(calls: nat, add: (V, V) -> V, w: World<V>, n: nat)
    requires CpuCore(calls, add, w, 0)
    requires |w.workers[0].inputs| <= n && |w.workers[1].inputs| <= n
    requires forall r: Rank | r < 2 :: w.workers[r].stage == Between ==> |w.workers[r].inputs| == n
    requires !CpuEnabled(calls, w, Enter(0)) && !CpuEnabled(calls, w, Enter(1))
    requires !CpuEnabled(calls, w, Sum(0)) && !CpuEnabled(calls, w, Sum(1))
    requires !CpuEnabled(calls, w, Return(0)) && !CpuEnabled(calls, w, Return(1))
    ensures var zero, one := w.workers[0], w.workers[1];
            && |zero.results| == |one.results| == |zero.inputs| == |one.inputs| == n
            && (zero.side.absorbed + one.side.absorbed == 0 ==> zero.returned == one.returned == n && zero.stage == one.stage == Between)
            && (zero.side.absorbed == 1 ==> n > 0 && zero.stage == Between && one.stage == InDoneWait)
            && (one.side.absorbed == 1 ==> n > 0 && one.stage == Between && zero.stage == InDoneWait)
  {
    var ranks: seq<Rank> := [0, 1];
    assert w.workers[ranks[0]].stage == Between ==> |w.workers[0].inputs| == n;
    assert w.workers[ranks[1]].stage == Between ==> |w.workers[1].inputs| == n;
  }

  /** How the path can stop: every sum of every call is always there; either all calls returned and no
      signal was absorbed, or one was absorbed and exactly one rank hangs in the very last wait. */
  lemma CpuPathStops<V(!new)>(calls: nat, add: (V, V) -> V, w: World<V>, v: V)
    requires CpuReachable(calls, add, w) && CpuStuck(calls, w)
    ensures |w.workers| == 2
    ensures var zero, one := w.workers[0], w.workers[1];
            && |zero.results| == |one.results| == calls
            && (zero.side.absorbed + one.side.absorbed == 0 ==> zero.returned == one.returned == calls && zero.stage == one.stage == Between)
            && (zero.side.absorbed == 1 ==> calls > 0 && zero.stage == Between && one.stage == InDoneWait)
            && (one.side.absorbed == 1 ==> calls > 0 && one.stage == Between && zero.stage == InDoneWait)
  {
    CpuReachableInv(calls, add, w);
    assert !CpuEnabled(calls, w, Begin(0, v)) && !CpuEnabled(calls, w, Begin(1, v));
    StoppedBetweenCalls(calls, add, w, calls);
  }

  /** Actions a rank has taken: two to construct, six per call. */
  function Pace<V>(me: Worker<V>): int {
    var n := 6 * |me.inputs|;
    match me.stage
    case Constructing => 0
    case InFirstWait => 1
    case Between => n + 2
    case Copied => n - 3
    case InReadyWait => n - 2
    case Adding => n - 1
    case Added => n
    case InDoneWait => n + 1
  }

  lemma PaceBound<V>(calls: nat, me: Worker<V>)
    requires WorkerInv(calls, me)
    ensures Pace(me) <= 6 * calls + 2
  {
  }

  lemma PaceStep<V>(calls: nat, add: (V, V) -> V, w: World<V>, a: WorkerAction<V>)
    requires CpuEnabled(calls, w, a) && WorkerInv(calls, w.workers[a.rank])
    ensures Pace(CpuStep(calls, add, w, a).workers[a.rank]) == Pace(w.workers[a.rank]) + 1
    ensures Pace(CpuStep(calls, add, w, a).workers[Peer(a.rank)]) == Pace(w.workers[Peer(a.rank)])
  {
  }

  /** Every action is progress and progress is bounded, so every run reaches a stuck state. */
  lemma CpuRunsAreFinite<V(!new)>(calls: nat, add: (V, V) -> V, w: World<V>, a: WorkerAction<V>)
    requires CpuReachable(calls, add, w) && CpuEnabled(calls, w, a)
    ensures var t := CpuStep(calls, add, w, a);
            && Pace(t.workers[0]) + Pace(t.workers[1]) == Pace(w.workers[0]) + Pace(w.workers[1]) + 1
            && Pace(t.workers[0]) + Pace(t.workers[1]) <= 2 * (6 * calls + 2)
  {
    CpuReachableInv(calls, add, w);
    PaceStep(calls, add, w, a);
    var t := CpuStep(calls, add, w, a);
    CpuStepInv(calls, add, w, a);
    CpuInvFlips(calls, add, t, a.rank);
    PaceBound(calls, t.workers[0]);
    PaceBound(calls, t.workers[1]);
  }
}
