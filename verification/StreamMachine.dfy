/** Two ranks that enqueue collectives on FIFO streams of asynchronous GPU operations.

    A rank issues a call by appending a fixed program of operations to one of its streams.
    The scheduler then runs the head of any stream whose head is enabled. Memory is
    sequentially consistent: two payload slots, one per rank, and an array of flag words.
    Both all-reduce protocols of the repository are programs for this machine. */
module StreamMachine {

  type Rank = r: nat | r < 2

  function Peer(r: Rank): Rank { 1 - r }

  /** `Wait` blocks until the flag is at least `value`; `Signal` stores into the flag.
      `Copy` fills a slot; `Add` writes output buffer `call` from its payload and a slot. */
  datatype Op<V> =
    | Wait(flag: nat, value: nat)
    | Copy(slot: Rank, call: nat, payload: V)
    | Signal(flag: nat, value: nat)
    | Add(call: nat, payload: V, slot: Rank)

  datatype Protocol = MappedHost | D3D12

  /** MappedHost keeps two ready words and two consumed words; D3D12 one fence per rank. */
  function FlagCount(p: Protocol): nat { if p.MappedHost? then 4 else 2 }

  function ReadyWord(r: Rank): nat { r }
  function ConsumedWord(r: Rank): nat { 2 + r }

  /** The six operations of call `e` on rank `r`. */
  function Program<V>(p: Protocol, r: Rank, e: nat, v: V): (ops: seq<Op<V>>)
    requires e > 0
    ensures |ops| == 6
  {
    match p
    case MappedHost => [
      Wait(ConsumedWord(r), e - 1),
      Copy(r, e, v),
      Signal(ReadyWord(r), e),
      Wait(ReadyWord(Peer(r)), e),
      Add(e, v, Peer(r)),
      Signal(ConsumedWord(Peer(r)), e)
    ]
    case D3D12 => [
      Copy(r, e, v),
      Signal(r, 2 * e - 1),
      Wait(Peer(r), 2 * e - 1),
      Add(e, v, Peer(r)),
      Signal(Peer(r), 2 * e),
      Wait(r, 2 * e)
    ]
  }

  /** What a call appends to its stream: the first mapped-host epoch has no slot to wait for. */
  function Issued<V>(p: Protocol, r: Rank, e: nat, v: V): seq<Op<V>>
    requires e > 0
  {
    if p.MappedHost? && e == 1 then Program(p, r, e, v)[1..] else Program(p, r, e, v)
  }

  datatype Call<V> = Call(stream: nat, payload: V)

  datatype RankState<V> = RankState(
    calls: seq<Call<V>>,
    queues: seq<seq<Op<V>>>,
    outputs: map<nat, V>)

  datatype State<V> = State(
    flags: seq<nat>,
    slots: seq<V>,
    ranks: seq<RankState<V>>)

  datatype Action<V> =
    | Issue(rank: Rank, stream: nat, payload: V)
    | Run(rank: Rank, stream: nat)

  predicate Shaped<V>(p: Protocol, s: State<V>) {
    |s.flags| == FlagCount(p) && |s.slots| == 2 && |s.ranks| == 2
  }

  /** Nothing issued, every flag zero, arbitrary slot contents, any number of streams. */
  ghost predicate Initial<V>(p: Protocol, s: State<V>) {
    && Shaped(p, s)
    && (forall f | 0 <= f < |s.flags| :: s.flags[f] == 0)
    && (forall r: Rank | r < 2 :: s.ranks[r].calls == [] && s.ranks[r].outputs == map[]
                                  && forall q | 0 <= q < |s.ranks[r].queues| :: s.ranks[r].queues[q] == [])
  }

  predicate OpEnabled<V>(s: State<V>, op: Op<V>) {
    match op
    case Wait(f, v) => f < |s.flags| && s.flags[f] >= v
    case Signal(f, _) => f < |s.flags|
    case Copy(_, _, _) => true
    case Add(_, _, _) => true
  }

  predicate Enabled<V>(p: Protocol, s: State<V>, a: Action<V>) {
    && Shaped(p, s)
    && a.stream < |s.ranks[a.rank].queues|
    && (a.Run? ==> var q := s.ranks[a.rank].queues[a.stream];
                   q != [] && OpEnabled(s, q[0]))
  }

  /** Memory and outputs after rank `r` executes `op`. */
  function Execute<V>(add: (V, V) -> V, s: State<V>, r: Rank, op: Op<V>): (t: State<V>)
    requires |s.slots| == 2 && |s.ranks| == 2 && OpEnabled(s, op)
  {
    match op
    case Wait(_, _) => s
    case Copy(slot, _, v) => s.(slots := s.slots[slot := v])
    case Signal(f, v) => s.(flags := s.flags[f := v])
    case Add(call, v, slot) =>
      s.(ranks := s.ranks[r := s.ranks[r].(outputs := s.ranks[r].outputs[call := add(v, s.slots[slot])])])
  }

  function Step<V>(p: Protocol, add: (V, V) -> V, s: State<V>, a: Action<V>): (t: State<V>)
    requires Enabled(p, s, a)
    ensures Shaped(p, t)
  {
    var me := s.ranks[a.rank];
    var queue := me.queues[a.stream];
    match a
    case Issue(r, q, v) =>
      var e := |me.calls| + 1;
      s.(ranks := s.ranks[r := me.(calls := me.calls + [Call(q, v)],
                                   queues := me.queues[q := queue + Issued(p, r, e, v)])])
    case Run(r, q) =>
      Execute(add, s.(ranks := s.ranks[r := me.(queues := me.queues[q := queue[1..]])]), r, queue[0])
  }

  lemma IssueEffect<V>(p: Protocol, add: (V, V) -> V, s: State<V>, r: Rank, q: nat, v: V)
    requires Enabled(p, s, Issue(r, q, v))
    ensures var me := s.ranks[r];
            var t := Step(p, add, s, Issue(r, q, v));
            && t.flags == s.flags && t.slots == s.slots && t.ranks[Peer(r)] == s.ranks[Peer(r)]
            && t.ranks[r] == me.(calls := me.calls + [Call(q, v)],
                                 queues := me.queues[q := me.queues[q] + Issued(p, r, |me.calls| + 1, v)])
  {
  }

  /** A run pops the head of its stream and otherwise has exactly the effect of that operation. */
  lemma RunEffect<V>(p: Protocol, add: (V, V) -> V, s: State<V>, r: Rank, q: nat)
    requires Enabled(p, s, Run(r, q))
    ensures var me := s.ranks[r];
            var t := Step(p, add, s, Run(r, q));
            var u := Execute(add, s, r, me.queues[q][0]);
            && t.flags == u.flags && t.slots == u.slots
            && t.ranks[Peer(r)] == s.ranks[Peer(r)] == u.ranks[Peer(r)]
            && t.ranks[r] == RankState(me.calls, me.queues[q := me.queues[q][1..]], u.ranks[r].outputs)
            && u.ranks[r] == me.(outputs := u.ranks[r].outputs)
  {
  }

  ghost predicate Legal<V>(p: Protocol, add: (V, V) -> V, s: State<V>, acts: seq<Action<V>>)
    decreases |acts|
  {
    acts == [] || (Enabled(p, s, acts[0]) && Legal(p, add, Step(p, add, s, acts[0]), acts[1..]))
  }

  /** The state after a schedule; a schedule interleaves issuing and running arbitrarily. */
  ghost function After<V>(p: Protocol, add: (V, V) -> V, s: State<V>, acts: seq<Action<V>>): State<V>
    requires Legal(p, add, s, acts)
    decreases |acts|
  {
    if acts == [] then s else After(p, add, Step(p, add, s, acts[0]), acts[1..])
  }

  lemma {:induction false} LegalConcat<V>(p: Protocol, add: (V, V) -> V, s: State<V>, a: seq<Action<V>>, b: seq<Action<V>>)
    requires Legal(p, add, s, a) && Legal(p, add, After(p, add, s, a), b)
    ensures Legal(p, add, s, a + b)
    ensures After(p, add, s, a + b) == After(p, add, After(p, add, s, a), b)
    decreases |a|
  {
    if a == [] {
      assert a + b == b;
    } else {
      assert (a + b)[1..] == a[1..] + b;
      LegalConcat(p, add, Step(p, add, s, a[0]), a[1..], b);
    }
  }

  /** `t` is the state after some schedule from some initial state. */
  ghost predicate Reachable<V(!new)>(p: Protocol, add: (V, V) -> V, t: State<V>) {
    exists s, acts :: Initial(p, s) && Legal(p, add, s, acts) && After(p, add, s, acts) == t
  }

  lemma ReachableStep<V(!new)>(p: Protocol, add: (V, V) -> V, s: State<V>, a: Action<V>)
    requires Reachable(p, add, s) && Enabled(p, s, a)
    ensures Reachable(p, add, Step(p, add, s, a))
  {
    var s0, acts :| Initial(p, s0) && Legal(p, add, s0, acts) && After(p, add, s0, acts) == s;
    assert Legal(p, add, Step(p, add, s, a), []);
    LegalConcat(p, add, s0, acts, [a]);
  }

  /** Every output of `me` is the sum of both ranks' payloads for the same call. */
  ghost predicate Sums<V(!new)>(add: (V, V) -> V, me: RankState<V>, peer: RankState<V>) {
    forall e | e in me.outputs ::
      && 1 <= e <= |me.calls| && e <= |peer.calls|
      && me.outputs[e] == add(me.calls[e - 1].payload, peer.calls[e - 1].payload)
  }

  ghost predicate OutputsAreSums<V(!new)>(add: (V, V) -> V, s: State<V>) {
    |s.ranks| == 2 && Sums(add, s.ranks[0], s.ranks[1]) && Sums(add, s.ranks[1], s.ranks[0])
  }

  /** No stream can make a step. */
  ghost predicate Stuck<V>(p: Protocol, s: State<V>) {
    Shaped(p, s) && forall r: Rank, q | r < 2 && 0 <= q < |s.ranks[r].queues| :: !Enabled(p, s, Run(r, q))
  }

  /** Both ranks have finished everything they issued, and hold every sum. */
  ghost predicate Complete<V(!new)>(add: (V, V) -> V, s: State<V>) {
    && OutputsAreSums(add, s)
    && forall r: Rank | r < 2 ::
         && (forall q | 0 <= q < |s.ranks[r].queues| :: s.ranks[r].queues[q] == [])
         && (forall e | 1 <= e <= |s.ranks[r].calls| :: e in s.ranks[r].outputs)
  }

  function TotalLength<T>(qs: seq<seq<T>>): nat {
    if qs == [] then 0 else |qs[0]| + TotalLength(qs[1..])
  }

  lemma {:induction false} TotalLengthUpdate<T>(qs: seq<seq<T>>, q: nat, x: seq<T>)
    requires q < |qs|
    ensures TotalLength(qs[q := x]) == TotalLength(qs) - |qs[q]| + |x|
  {
    if q > 0 {
      assert qs[q := x][1..] == qs[1..][q - 1 := x];
      TotalLengthUpdate(qs[1..], q - 1, x);
    } else {
      assert qs[q := x][1..] == qs[1..];
    }
  }

  /** Operations issued and not yet executed. */
  function Outstanding<V>(s: State<V>): nat
    requires |s.ranks| == 2
  {
    TotalLength(s.ranks[0].queues) + TotalLength(s.ranks[1].queues)
  }

  /** Running removes exactly one operation, so no run executes forever between two issues. */
  lemma RunDecreases<V>(p: Protocol, add: (V, V) -> V, s: State<V>, a: Action<V>)
    requires Enabled(p, s, a) && a.Run?
    ensures Outstanding(Step(p, add, s, a)) == Outstanding(s) - 1
  {
    var qs := s.ranks[a.rank].queues;
    TotalLengthUpdate(qs, a.stream, qs[a.stream][1..]);
  }
}
