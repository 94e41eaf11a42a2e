/** Why the D3D12 all-reduce needs one stream per rank: the wait for the peer to consume the heap
    is enqueued behind the call that filled it, so a later call on another stream does not wait. */
module D3D12Streams {
  import opened StreamMachine
  import opened StreamQueues
  import opened D3D12Protocol

  /** Both ranks issued exactly the calls of the plan, on the streams the plan names. */
  ghost predicate Follows<V(!new)>(t: State<V>, plan: seq<seq<nat>>) {
    && |plan| == 2 && |t.ranks| == 2
    && forall r: Rank | r < 2 ::
         && |t.ranks[r].calls| == |plan[r]|
         && forall i | 0 <= i < |plan[r]| :: t.ranks[r].calls[i].stream == plan[r][i]
  }

  ghost predicate Constant(streams: seq<nat>) {
    forall i, j | 0 <= i < j < |streams| :: streams[i] == streams[j]
  }

  /** Every reachable state that follows the plan holds only sums of matching payloads. */
  ghost predicate SafePlan<V(!new)>(add: (V, V) -> V, plan: seq<seq<nat>>) {
    forall t | Reachable(D3D12, add, t) && Follows(t, plan) :: OutputsAreSums(add, t)
  }

  /** The exact condition, for every plan. As soon as the sum depends on its second operand, a plan is
      safe under every schedule and all payloads exactly when neither rank changes stream, or some rank
      makes no call at all. */
  lemma SafeExactlyOnOneStream<V(!new)>(add: (V, V) -> V, plan: seq<seq<nat>>, x: V, y: V, z: V)
    requires |plan| == 2 && add(x, y) != add(x, z)
    ensures SafePlan(add, plan) <==> plan[0] == [] || plan[1] == [] || (Constant(plan[0]) && Constant(plan[1]))
  {
    if plan[0] == [] || plan[1] == [] || (Constant(plan[0]) && Constant(plan[1])) {
      forall t | Reachable(D3D12, add, t) && Follows(t, plan)
        ensures OutputsAreSums(add, t)
      {
        PlanIsSafe(add, plan, t);
      }
    } else {
      var r: Rank := if Constant(plan[0]) then 1 else 0;
      var t := WrongOutput(add, plan, r, x, y, z);
    }
  }

  lemma PlanIsSafe<V(!new)>(add: (V, V) -> V, plan: seq<seq<nat>>, t: State<V>)
    requires Reachable(D3D12, add, t) && Follows(t, plan)
    requires plan[0] == [] || plan[1] == [] || (Constant(plan[0]) && Constant(plan[1]))
    ensures OutputsAreSums(add, t)
  {
    assert forall r: Rank | r < 2 :: |t.ranks[r].calls| == |plan[r]|;
    if plan[0] == [] {
      AloneHasNoOutput(add, t, 1);
    } else if plan[1] == [] {
      AloneHasNoOutput(add, t, 0);
    } else {
      EveryOutputIsTheSum(add, t);
    }
  }

  // ---------------------------------------------------------------- a rank whose peer never calls

  /** Before anything that adds or signals the peer's fence there is a wait for that fence. */
  predicate Waiting<V>(queue: seq<Op<V>>, peer: Rank) {
    queue == [] || (queue[0].Wait? && queue[0].flag == peer && queue[0].value > 0)
    || (!queue[0].Add? && !(queue[0].Signal? && queue[0].flag == peer) && Waiting(queue[1..], peer))
  }

  lemma {:induction false} WaitingAppend<V>(a: seq<Op<V>>, b: seq<Op<V>>, peer: Rank)
    requires Waiting(a, peer) && Waiting(b, peer)
    ensures Waiting(a + b, peer)
  {
    if a == [] {
      assert a + b == b;
    } else if !(a[0].Wait? && a[0].flag == peer && a[0].value > 0) {
      WaitingAppend(a[1..], b, peer);
      assert (a + b)[1..] == a[1..] + b;
    }
  }

  lemma ProgramWaits<V>(r: Rank, e: nat, v: V)
    requires e > 0
    ensures Waiting(Program(D3D12, r, e, v), Peer(r))
  {
    var ops := Program(D3D12, r, e, v);
    assert ops[1..][1..] == ops[2..] && ops[1..][0] == ops[1] && ops[2..][0] == ops[2];
    assert Waiting(ops[2..], Peer(r));
    assert Waiting(ops[1..], Peer(r));
  }

  /** Rank `r` calls alone: its peer has no operation and no rank has an output. */
  ghost predicate Alone<V(!new)>(s: State<V>, r: Rank) {
    && Shaped(D3D12, s) && s.flags[Peer(r)] == 0
    && s.ranks[r].outputs == map[] && s.ranks[Peer(r)].outputs == map[]
    && (forall q | 0 <= q < |s.ranks[r].queues| :: Waiting(s.ranks[r].queues[q], Peer(r)))
    && (forall q | 0 <= q < |s.ranks[Peer(r)].queues| :: s.ranks[Peer(r)].queues[q] == [])
  }

  lemma AloneStep<V(!new)>(add: (V, V) -> V, s: State<V>, r: Rank, a: Action<V>)
    requires Alone(s, r) && Enabled(D3D12, s, a) && !(a.Issue? && a.rank != r)
    ensures Alone(Step(D3D12, add, s, a), r)
  {
    if a.Issue? {
      IssueEffect(D3D12, add, s, r, a.stream, a.payload);
      var e := |s.ranks[r].calls| + 1;
      ProgramWaits(r, e, a.payload);
      WaitingAppend(s.ranks[r].queues[a.stream], Program(D3D12, r, e, a.payload), Peer(r));
    } else {
      assert a.rank == r;
      RunEffect(D3D12, add, s, r, a.stream);
    }
  }

  lemma CallsOnlyGrow<V(!new)>(add: (V, V) -> V, s: State<V>, r: Rank, acts: seq<Action<V>>)
    requires Shaped(D3D12, s) && Legal(D3D12, add, s, acts)
    ensures var t := After(D3D12, add, s, acts); |t.ranks| == 2 && |s.ranks[r].calls| <= |t.ranks[r].calls|
    decreases |acts|
  {
    if acts == [] {
    } else {
      CallsOnlyGrow(add, Step(D3D12, add, s, acts[0]), r, acts[1..]);
    }
  }

  lemma {:induction false} AloneRun<V(!new)>(add: (V, V) -> V, s: State<V>, r: Rank, acts: seq<Action<V>>)
    requires Alone(s, r) && Legal(D3D12, add, s, acts)
    requires var t := After(D3D12, add, s, acts); |t.ranks| == 2 && t.ranks[Peer(r)].calls == []
    ensures Alone(After(D3D12, add, s, acts), r)
    decreases |acts|
  {
    if acts == [] {
    } else {
      var u := Step(D3D12, add, s, acts[0]);
      CallsOnlyGrow(add, u, Peer(r), acts[1..]);
      AloneStep(add, s, r, acts[0]);
      AloneRun(add, u, r, acts[1..]);
    }
  }

  /** Nothing is ever added while one rank makes no call. */
  lemma AloneHasNoOutput<V(!new)>(add: (V, V) -> V, t: State<V>, r: Rank)
    requires Reachable(D3D12, add, t) && |t.ranks| == 2 && t.ranks[Peer(r)].calls == []
    ensures t.ranks[0].outputs == map[] && t.ranks[1].outputs == map[]
  {
    var s, acts :| Initial(D3D12, s) && Legal(D3D12, add, s, acts) && After(D3D12, add, s, acts) == t;
    assert Alone(s, r);
    AloneRun(add, s, r, acts);
  }

  // ---------------------------------------------------------------- a rank that changes stream

  /** The queues of rank `r` follow its counters and the fences have the given values. */
  ghost predicate Snapshot<V(!new)>(add: (V, V) -> V, s: State<V>, r: Rank, mine: seq<nat>, fence: nat, peerFence: nat) {
    && Shaped(D3D12, s) && Reachable(D3D12, add, s)
    && QueuesMatch(D3D12, r, s.ranks[r], mine)
    && s.flags[r] == fence && s.flags[Peer(r)] == peerFence
  }

  /** Counters in the middle of the first call: its first `k` operations are done. */
  function Part(k: nat): (c: seq<nat>)
    ensures Chain(c)
  {
    [if k > 0 then 1 else 0, if k > 1 then 1 else 0, if k > 2 then 1 else 0,
     if k > 3 then 1 else 0, if k > 4 then 1 else 0, if k > 5 then 1 else 0]
  }

  lemma PartStep(k: nat)
    requires k < 6
    ensures Done(Part(k), 1) == k && Part(k)[k] == 0 && Part(k)[k := 1] == Part(k + 1)
  {
  }

  /** What operation `k` of the first call needs and does. */
  lemma NextEffect<V(!new)>(add: (V, V) -> V, s: State<V>, r: Rank, k: nat)
    requires k < 5 && Shaped(D3D12, s) && s.ranks[r].calls != []
    requires k == MET ==> s.flags[Peer(r)] >= 1
    ensures var op := Program(D3D12, r, 1, s.ranks[r].calls[0].payload)[k];
            OpEnabled(s, op) &&
            var u := Execute(add, s, r, op);
            && u.flags[r] == (if k == READY then 1 else s.flags[r])
            && u.flags[Peer(r)] == (if k == RELEASED then 2 else s.flags[Peer(r)])
            && u.slots == (if k == COPIED then s.slots[r := s.ranks[r].calls[0].payload] else s.slots)
            && u.ranks[r].outputs == if k == ADDED then s.ranks[r].outputs[1 := add(s.ranks[r].calls[0].payload, s.slots[Peer(r)])]
                                     else s.ranks[r].outputs
  {
  }

  /** Runs operation `k` of the first call of rank `r`. */
  lemma Fire<V(!new)>(add: (V, V) -> V, s: State<V>, r: Rank, k: nat, f: nat, g: nat) returns (t: State<V>)
    requires k < 5 && Snapshot(add, s, r, Part(k), f, g) && s.ranks[r].calls != []
    requires k == MET ==> g >= 1
    ensures Snapshot(add, t, r, Part(k + 1), if k == READY then 1 else f, if k == RELEASED then 2 else g)
    ensures t.slots == if k == COPIED then s.slots[r := s.ranks[r].calls[0].payload] else s.slots
    ensures t.ranks[r].calls == s.ranks[r].calls && t.ranks[Peer(r)] == s.ranks[Peer(r)]
    ensures t.ranks[r].outputs == if k == ADDED then s.ranks[r].outputs[1 := add(s.ranks[r].calls[0].payload, s.slots[Peer(r)])]
                                  else s.ranks[r].outputs
  {
    var q := s.ranks[r].calls[0].stream;
    PartStep(k);
    FirstIsHead(s, r, k);
    NextEffect(add, s, r, k);
    t := Step(D3D12, add, s, Run(r, q));
    RunEffect(D3D12, add, s, r, q);
    ReachableStep(D3D12, add, s, Run(r, q));
    FirstQueues(s, t, r, k);
  }

  lemma FirstIsHead<V(!new)>(s: State<V>, r: Rank, k: nat)
    requires k < 5 && Shaped(D3D12, s) && QueuesMatch(D3D12, r, s.ranks[r], Part(k)) && s.ranks[r].calls != []
    ensures var q := s.ranks[r].calls[0].stream;
            && q < |s.ranks[r].queues| && s.ranks[r].queues[q] != []
            && s.ranks[r].queues[q][0] == Program(D3D12, r, 1, s.ranks[r].calls[0].payload)[k]
  {
    PartStep(k);
    OldestIsHead(D3D12, r, s.ranks[r], Part(k), s.ranks[r].calls[0].stream, 1);
  }

  lemma FirstQueues<V(!new)>(s: State<V>, t: State<V>, r: Rank, k: nat)
    requires k < 5 && Shaped(D3D12, s) && Shaped(D3D12, t) && QueuesMatch(D3D12, r, s.ranks[r], Part(k)) && s.ranks[r].calls != []
    requires var q := s.ranks[r].calls[0].stream;
             && q < |s.ranks[r].queues| && s.ranks[r].queues[q] != []
             && t.ranks[r].queues == s.ranks[r].queues[q := s.ranks[r].queues[q][1..]]
    requires t.ranks[r].calls == s.ranks[r].calls
    ensures QueuesMatch(D3D12, r, t.ranks[r], Part(k + 1))
  {
    PartStep(k);
    RunMatches(D3D12, r, s.ranks[r], t.ranks[r], Part(k), s.ranks[r].calls[0].stream, 1);
  }

  /** Rank `r` fills its slot for its first call and says so. */
  lemma Publish<V(!new)>(add: (V, V) -> V, s: State<V>, r: Rank, f: nat, g: nat) returns (t: State<V>)
    requires Snapshot(add, s, r, Part(0), f, g) && s.ranks[r].calls != []
    ensures Snapshot(add, t, r, Part(2), 1, g)
    ensures t.slots == s.slots[r := s.ranks[r].calls[0].payload]
    ensures t.ranks[r].calls == s.ranks[r].calls && t.ranks[Peer(r)] == s.ranks[Peer(r)]
  {
    t := Fire(add, s, r, 0, f, g);
    t := Fire(add, t, r, 1, f, g);
  }

  /** Rank `r` adds its first call. */
  lemma Consume<V(!new)>(add: (V, V) -> V, s: State<V>, r: Rank, f: nat, g: nat) returns (t: State<V>)
    requires Snapshot(add, s, r, Part(2), f, g) && s.ranks[r].calls != [] && g >= 1
    ensures Shaped(D3D12, t) && Reachable(D3D12, add, t)
    ensures t.ranks[r].calls == s.ranks[r].calls && t.ranks[Peer(r)] == s.ranks[Peer(r)]
    ensures 1 in t.ranks[r].outputs && t.ranks[r].outputs[1] == add(s.ranks[r].calls[0].payload, s.slots[Peer(r)])
  {
    t := Fire(add, s, r, 2, f, g);
    t := Fire(add, t, r, 3, f, g);
  }

  /** A plan that is not constant leaves the stream of its first call at some call. */
  lemma FirstSwitch(streams: seq<nat>) returns (k: nat)
    requires !Constant(streams)
    ensures 1 <= k < |streams| && streams[k] != streams[0]
    ensures forall i | 0 <= i < k :: streams[i] == streams[0]
  {
    k := 1;
    while k < |streams| && streams[k] == streams[0]
      invariant 1 <= k
      invariant forall i | 0 <= i < k && i < |streams| :: streams[i] == streams[0]
    {
      k := k + 1;
    }
    assert k < |streams|;
  }

  /** Call `k + 1`, the first on its stream, copies while the first call is only published. */
  lemma Refill<V(!new)>(add: (V, V) -> V, s: State<V>, r: Rank, k: nat, f: nat, g: nat) returns (t: State<V>)
    requires Snapshot(add, s, r, Part(2), f, g) && 1 <= k < |s.ranks[r].calls|
    requires s.ranks[r].calls[k].stream != s.ranks[r].calls[0].stream
    requires forall i | 0 <= i < k :: s.ranks[r].calls[i].stream == s.ranks[r].calls[0].stream
    ensures Shaped(D3D12, t) && Reachable(D3D12, add, t) && t.flags == s.flags
    ensures t.slots == s.slots[r := s.ranks[r].calls[k].payload]
    ensures t.ranks[r].calls == s.ranks[r].calls && t.ranks[Peer(r)] == s.ranks[Peer(r)]
  {
    var q := s.ranks[r].calls[k].stream;
    assert Done(Part(2), k + 1) == 0;
    OldestIsHead(D3D12, r, s.ranks[r], Part(2), q, k + 1);
    t := Step(D3D12, add, s, Run(r, q));
    RunEffect(D3D12, add, s, r, q);
    ReachableStep(D3D12, add, s, Run(r, q));
  }

  /** Rank `r` publishes its first call, refills its slot for a later one, and only then does the peer add. */
  lemma Race<V(!new)>(add: (V, V) -> V, s: State<V>, r: Rank, k: nat) returns (t: State<V>)
    requires Snapshot(add, s, r, Part(0), 0, 0) && Snapshot(add, s, Peer(r), Part(0), 0, 0)
    requires 1 <= k < |s.ranks[r].calls| && s.ranks[Peer(r)].calls != []
    requires s.ranks[r].calls[k].stream != s.ranks[r].calls[0].stream
    requires forall i | 0 <= i < k :: s.ranks[r].calls[i].stream == s.ranks[r].calls[0].stream
    ensures Reachable(D3D12, add, t) && |t.ranks| == 2
    ensures t.ranks[r].calls == s.ranks[r].calls && t.ranks[Peer(r)].calls == s.ranks[Peer(r)].calls
    ensures 1 in t.ranks[Peer(r)].outputs
    ensures t.ranks[Peer(r)].outputs[1] == add(s.ranks[Peer(r)].calls[0].payload, s.ranks[r].calls[k].payload)
  {
    t := Publish(add, s, r, 0, 0);
    t := Refill(add, t, r, k, 1, 0);
    t := Publish(add, t, Peer(r), 0, 1);
    t := Consume(add, t, Peer(r), 1, 1);
  }

  // ---------------------------------------------------------------- issuing a plan

  /** The plan's calls with a payload chosen for each call. */
  function Calls<V>(streams: seq<nat>, payload: nat -> V): seq<Call<V>> {
    seq(|streams|, i requires 0 <= i < |streams| => Call(streams[i], payload(i)))
  }

  /** Issues the first `n` calls of a rank before anything runs. */
  lemma {:induction false} IssueAll<V(!new)>(add: (V, V) -> V, s: State<V>, r: Rank, calls: seq<Call<V>>, n: nat) returns (t: State<V>)
    requires Inv(add, s, r, Part(0), Part(0)) && Reachable(D3D12, add, s) && s.ranks[r].calls == []
    requires n <= |calls| && forall i | 0 <= i < |calls| :: calls[i].stream < |s.ranks[r].queues|
    ensures Inv(add, t, r, Part(0), Part(0)) && Reachable(D3D12, add, t)
    ensures t.ranks[r].calls == calls[..n] && t.ranks[Peer(r)] == s.ranks[Peer(r)]
    ensures |t.ranks[r].queues| == |s.ranks[r].queues|
  {
    if n == 0 {
      t := s;
    } else {
      t := IssueAll(add, s, r, calls, n - 1);
      t := IssueOne(add, t, r, calls[n - 1].stream, calls[n - 1].payload);
      TakeNext(calls, n - 1);
    }
  }

  lemma TakeNext<T>(s: seq<T>, n: nat)
    requires n < |s|
    ensures s[..n] + [s[n]] == s[..n + 1]
  {
  }

  lemma IssueOne<V(!new)>(add: (V, V) -> V, s: State<V>, r: Rank, q: nat, v: V) returns (t: State<V>)
    requires Inv(add, s, r, Part(0), Part(0)) && Reachable(D3D12, add, s) && q < |s.ranks[r].queues|
    ensures Inv(add, t, r, Part(0), Part(0)) && Reachable(D3D12, add, t)
    ensures t.ranks[r].calls == s.ranks[r].calls + [Call(q, v)] && t.ranks[Peer(r)] == s.ranks[Peer(r)]
    ensures |t.ranks[r].queues| == |s.ranks[r].queues|
  {
    IssueInv(add, s, Issue(r, q, v), Part(0), Part(0));
    ReachableStep(D3D12, add, s, Issue(r, q, v));
    IssueEffect(D3D12, add, s, r, q, v);
    t := Step(D3D12, add, s, Issue(r, q, v));
  }

  function Largest(streams: seq<nat>): (m: nat)
    ensures forall i | 0 <= i < |streams| :: streams[i] <= m
  {
    if streams == [] then 0
    else var m := Largest(streams[1..]); if streams[0] > m then streams[0] else m
  }

  /** A state with enough streams in which every call of the plan is issued and none has started. */
  lemma AllIssued<V(!new)>(add: (V, V) -> V, r: Rank, own: seq<Call<V>>, peers: seq<Call<V>>, streams: nat, v: V) returns (t: State<V>)
    requires forall i | 0 <= i < |own| :: own[i].stream < streams
    requires forall i | 0 <= i < |peers| :: peers[i].stream < streams
    ensures Snapshot(add, t, r, Part(0), 0, 0) && Snapshot(add, t, Peer(r), Part(0), 0, 0)
    ensures t.ranks[r].calls == own && t.ranks[Peer(r)].calls == peers
  {
    t := EmptyState(add, r, streams, v);
    t := IssueAll(add, t, r, own, |own|);
    InvFlips(add, t, r);
    t := IssueAll(add, t, Peer(r), peers, |peers|);
    InvSnapshot(add, t, Peer(r));
  }

  lemma EmptyState<V(!new)>(add: (V, V) -> V, r: Rank, streams: nat, v: V) returns (t: State<V>)
    ensures Inv(add, t, r, Part(0), Part(0)) && Reachable(D3D12, add, t)
    ensures t.ranks[0] == t.ranks[1] && t.ranks[0].calls == [] && |t.ranks[0].queues| == streams
  {
    var none: seq<Op<V>> := [];
    var idle := RankState([], seq(streams, _ => none), map[]);
    t := State([0, 0], [v, v], [idle, idle]);
    assert Legal(D3D12, add, t, []) && After(D3D12, add, t, []) == t && Initial(D3D12, t);
    InitialInv(add, t);
    assert Part(0) == [0, 0, 0, 0, 0, 0];
    assert Inv(add, t, 1, Part(0), Part(0));
  }

  lemma InvFlips<V(!new)>(add: (V, V) -> V, t: State<V>, r: Rank)
    requires Inv(add, t, r, Part(0), Part(0))
    ensures Inv(add, t, Peer(r), Part(0), Part(0))
  {
  }

  lemma InvSnapshot<V(!new)>(add: (V, V) -> V, t: State<V>, r: Rank)
    requires Inv(add, t, r, Part(0), Part(0)) && Reachable(D3D12, add, t)
    ensures Snapshot(add, t, r, Part(0), 0, 0) && Snapshot(add, t, Peer(r), Part(0), 0, 0)
  {
  }

  /** If rank `r` changes stream and its peer calls at all, some schedule gives the peer the wrong sum:
      the heap is refilled before the peer adds, because nothing on the new stream waits. */
  lemma WrongOutput<V(!new)>(add: (V, V) -> V, plan: seq<seq<nat>>, r: Rank, x: V, y: V, z: V) returns (t: State<V>)
    requires |plan| == 2 && add(x, y) != add(x, z)
    requires !Constant(plan[r]) && plan[Peer(r)] != []
    ensures Reachable(D3D12, add, t) && Follows(t, plan) && !OutputsAreSums(add, t)
  {
    var k := FirstSwitch(plan[r]);
    var mine, peers := i => if i == k then z else y, i => x;
    t := AllIssued(add, r, Calls(plan[r], mine), Calls(plan[Peer(r)], peers), Largest(plan[0]) + Largest(plan[1]) + 1, x);
    t := Race(add, t, r, k);
    CallsFollow(plan, t, r, mine, peers);
    NotASum(add, t, r, y);
  }

  lemma CallsFollow<V(!new)>(plan: seq<seq<nat>>, t: State<V>, r: Rank, mine: nat -> V, peers: nat -> V)
    requires |plan| == 2 && |t.ranks| == 2
    requires t.ranks[r].calls == Calls(plan[r], mine) && t.ranks[Peer(r)].calls == Calls(plan[Peer(r)], peers)
    ensures Follows(t, plan)
  {
    assert r == 0 || r == 1;
  }

  lemma NotASum<V(!new)>(add: (V, V) -> V, t: State<V>, r: Rank, y: V)
    requires |t.ranks| == 2 && t.ranks[r].calls != [] && t.ranks[Peer(r)].calls != [] && t.ranks[r].calls[0].payload == y
    requires 1 in t.ranks[Peer(r)].outputs && t.ranks[Peer(r)].outputs[1] != add(t.ranks[Peer(r)].calls[0].payload, y)
    ensures !OutputsAreSums(add, t)
  {
    assert !Sums(add, t.ranks[Peer(r)], t.ranks[r]);
    assert r == 0 || r == 1;
  }
}
