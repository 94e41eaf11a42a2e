/** The two-process barrier built from one auto-reset event per rank.

    `wait` sets the rank's own event and then consumes its peer's. Setting an event that is
    still set is absorbed: the signal of that generation is lost. */
module PairBarrier {
  import opened StreamMachine

  /** A named auto-reset event. */
  class Event {
    var signaled: bool

    constructor ()
      ensures !signaled
    {
      signaled := false;
    }

    method Set()
      modifies this
      ensures signaled
    {
      signaled := true;
    }

    /** A zero-length wait: succeeds exactly when the event is set, and resets it. */
    method TryConsume() returns (ok: bool)
      modifies this
      ensures ok == old(signaled) && !signaled
    {
      ok := signaled;
      signaled := false;
    }
  }

  /** One rank's view of a pair barrier, with `sets`, `passes` and `absorbed` as its history. */
  datatype Side = Side(event: bool, waiting: bool, sets: nat, passes: nat, absorbed: nat)

  const FRESH := Side(false, false, 0, 0, 0)

  /** A rank enters `wait`: its own event is set, or stays set. */
  function Arrive(me: Side): Side {
    Side(true, true, me.sets + 1, me.passes, if me.event then me.absorbed + 1 else me.absorbed)
  }

  predicate CanArrive(me: Side) { !me.waiting }

  /** A rank leaves `wait` by consuming the event of its peer. */
  function Leave(me: Side, peer: Side): (Side, Side)
  {
    (me.(waiting := false, passes := me.passes + 1), peer.(event := false))
  }

  predicate CanLeave(me: Side, peer: Side) { me.waiting && peer.event }

  /** The barrier object of one rank: handles to its own and its peer's event. */
  class Win32PairBarrier {
    const own: Event
    const peer: Event
    var waiting: bool
    ghost var sets: nat
    ghost var passes: nat
    ghost var absorbed: nat

    constructor (own: Event, peer: Event)
      requires own != peer && !own.signaled
      ensures this.own == own && this.peer == peer && Model() == FRESH
    {
      this.own, this.peer := own, peer;
      waiting, sets, passes, absorbed := false, 0, 0, 0;
    }

    ghost function Model(): Side
      reads this, own
    {
      Side(own.signaled, waiting, sets, passes, absorbed)
    }

    /** First half of `wait`: SetEvent on the own event. */
    method SetOwn()
      requires own != peer && !waiting
      modifies this, own
      ensures Model() == Arrive(old(Model()))
    {
      if own.signaled { absorbed := absorbed + 1; }
      own.Set();
      waiting, sets := true, sets + 1;
    }

    /** Second half of `wait`: WaitForSingleObject on the peer's event; `ok` tells whether it returns. */
    method WaitPeer(ghost other: Side) returns (ok: bool)
      requires own != peer && waiting && other.event == peer.signaled
      modifies this, peer
      ensures ok == CanLeave(old(Model()), other)
      ensures ok ==> Model() == Leave(old(Model()), other).0 && peer.signaled == Leave(old(Model()), other).1.event
      ensures !ok ==> Model() == old(Model()) && !peer.signaled
    {
      ok := peer.TryConsume();
      if ok { waiting, passes := false, passes + 1; }
    }
  }

  /** What every reachable pair of sides satisfies. Each signal is consumed, pending or absorbed. */
  predicate Accounted(a: Side, b: Side) {
    && a.sets == b.passes + (if a.event then 1 else 0) + a.absorbed
    && b.sets == a.passes + (if b.event then 1 else 0) + b.absorbed
    && a.sets == a.passes + (if a.waiting then 1 else 0)
    && b.sets == b.passes + (if b.waiting then 1 else 0)
    && a.absorbed + b.absorbed <= 1
    && (a.absorbed > 0 ==> a.sets >= 2) && (b.absorbed > 0 ==> b.sets >= 2)
  }

  datatype Pair = Pair(zero: Side, one: Side)

  datatype BarrierAction = Set(rank: Rank) | Pass(rank: Rank)

  predicate BarrierEnabled(s: Pair, a: BarrierAction) {
    match a
    case Set(r) => CanArrive(if r == 0 then s.zero else s.one)
    case Pass(r) => if r == 0 then CanLeave(s.zero, s.one) else CanLeave(s.one, s.zero)
  }

  function BarrierStep(s: Pair, a: BarrierAction): Pair
    requires BarrierEnabled(s, a)
  {
    match a
    case Set(r) => if r == 0 then Pair(Arrive(s.zero), s.one) else Pair(s.zero, Arrive(s.one))
    case Pass(r) =>
      if r == 0 then var (x, y) := Leave(s.zero, s.one); Pair(x, y)
      else var (x, y) := Leave(s.one, s.zero); Pair(y, x)
  }

  predicate BarrierLegal(s: Pair, acts: seq<BarrierAction>)
    decreases |acts|
  {
    acts == [] || (BarrierEnabled(s, acts[0]) && BarrierLegal(BarrierStep(s, acts[0]), acts[1..]))
  }

  function BarrierAfter(s: Pair, acts: seq<BarrierAction>): Pair
    requires BarrierLegal(s, acts)
    decreases |acts|
  {
    if acts == [] then s else BarrierAfter(BarrierStep(s, acts[0]), acts[1..])
  }

  const START := Pair(FRESH, FRESH)

  /** Accounting over all timeout-free runs. */
  lemma {:induction false} RunsAreAccounted(s: Pair, acts: seq<BarrierAction>)
    requires Accounted(s.zero, s.one) && BarrierLegal(s, acts)
    ensures Accounted(BarrierAfter(s, acts).zero, BarrierAfter(s, acts).one)
    decreases |acts|
  {
    if acts != [] {
      RunsAreAccounted(BarrierStep(s, acts[0]), acts[1..]);
    }
  }

  /** What the barrier does promise: a rank returns from its k-th wait only after its peer began its
      k-th, the ranks' waits never drift apart by more than one, and at most one signal is ever lost. */
  lemma BarrierPromise(acts: seq<BarrierAction>)
    requires BarrierLegal(START, acts)
    ensures var s := BarrierAfter(START, acts);
            && s.zero.passes <= s.one.sets && s.one.passes <= s.zero.sets
            && s.zero.sets <= s.one.sets + 1 && s.one.sets <= s.zero.sets + 1
            && s.zero.absorbed + s.one.absorbed <= 1
  {
    RunsAreAccounted(START, acts);
  }

  /** Neither rank can return from the wait it is in. */
  predicate NoneCanLeave(s: Pair) { !CanLeave(s.zero, s.one) && !CanLeave(s.one, s.zero) }

  /** When both ranks entered `wait` equally often and nothing moves, both have returned exactly when
      no signal was absorbed; otherwise exactly the peer of the rank that lost a signal is blocked. */
  lemma BothReturnExactlyWhenNothingAbsorbed(acts: seq<BarrierAction>)
    requires BarrierLegal(START, acts)
    requires var s := BarrierAfter(START, acts); s.zero.sets == s.one.sets && NoneCanLeave(s)
    ensures var s := BarrierAfter(START, acts);
            && (!s.zero.waiting && !s.one.waiting <==> s.zero.absorbed + s.one.absorbed == 0)
            && (s.zero.waiting <==> s.one.absorbed == 1)
            && (s.one.waiting <==> s.zero.absorbed == 1)
  {
    RunsAreAccounted(START, acts);
  }

  /** A signal is absorbed exactly by a `Set` that finds the own event still set. */
  lemma AbsorbedExactlyByEarlySet(acts: seq<BarrierAction>, a: BarrierAction)
    requires BarrierLegal(START, acts) && BarrierEnabled(BarrierAfter(START, acts), a)
    ensures var s := BarrierAfter(START, acts);
            var t := BarrierStep(s, a);
            t.zero.absorbed + t.one.absorbed == 1 <==>
              s.zero.absorbed + s.one.absorbed == 1
              || (a.Set? && (if a.rank == 0 then s.zero else s.one).event)
  {
    RunsAreAccounted(START, acts);
  }

  /** No rank sets its event in this schedule while that event is still set. */
  predicate NoEarlySet(s: Pair, acts: seq<BarrierAction>)
    requires BarrierLegal(s, acts)
    decreases |acts|
  {
    acts == [] ||
    (!(acts[0].Set? && (if acts[0].rank == 0 then s.zero else s.one).event) && NoEarlySet(BarrierStep(s, acts[0]), acts[1..]))
  }

  lemma {:induction false} AbsorbedOverRun(s: Pair, acts: seq<BarrierAction>)
    requires BarrierLegal(s, acts)
    ensures var t := BarrierAfter(s, acts);
            && t.zero.absorbed + t.one.absorbed >= s.zero.absorbed + s.one.absorbed
            && (t.zero.absorbed + t.one.absorbed == s.zero.absorbed + s.one.absorbed <==> NoEarlySet(s, acts))
    decreases |acts|
  {
    if acts == [] {
    } else {
      AbsorbedOverRun(BarrierStep(s, acts[0]), acts[1..]);
    }
  }

  /** The exact condition over a whole run: after equally many waits, and with nothing able to move, both
      ranks have returned if and only if no rank ever entered its next wait before its peer had consumed
      its previous signal. */
  lemma BothReturnExactlyWithoutEarlySet(acts: seq<BarrierAction>)
    requires BarrierLegal(START, acts)
    requires var s := BarrierAfter(START, acts); s.zero.sets == s.one.sets && NoneCanLeave(s)
    ensures var s := BarrierAfter(START, acts);
            !s.zero.waiting && !s.one.waiting <==> NoEarlySet(START, acts)
  {
    AbsorbedOverRun(START, acts);
    BothReturnExactlyWhenNothingAbsorbed(acts);
  }

  /** The barrier is not reusable without a reset: rank 0 enters its second wait before rank 1 has
      consumed the first signal, and after two waits each rank 1 is blocked for good. */
  lemma SecondGenerationCanBlock() returns (acts: seq<BarrierAction>)
    ensures BarrierLegal(START, acts)
    ensures var s := BarrierAfter(START, acts);
            && s.zero.sets == s.one.sets == 2 && s.zero.passes == 2 && s.one.passes == 1
            && s.one.waiting && NoneCanLeave(s)
  {
    acts := [Set(0), Set(1), Pass(0), Set(0), Pass(1), Set(1), Pass(0)];
    var s1 := BarrierStep(START, acts[0]);
    var s2 := BarrierStep(s1, acts[1]);
    var s3 := BarrierStep(s2, acts[2]);
    var s4 := BarrierStep(s3, acts[3]);
    var s5 := BarrierStep(s4, acts[4]);
    var s6 := BarrierStep(s5, acts[5]);
    var s7 := BarrierStep(s6, acts[6]);
    assert acts[6..][1..] == [] && BarrierLegal(s7, []);
    assert acts[5..][1..] == acts[6..] && BarrierLegal(s6, acts[6..]);
    assert acts[4..][1..] == acts[5..] && BarrierLegal(s5, acts[5..]);
    assert acts[3..][1..] == acts[4..] && BarrierLegal(s4, acts[4..]);
    assert acts[2..][1..] == acts[3..] && BarrierLegal(s3, acts[3..]);
    assert acts[1..][1..] == acts[2..] && BarrierLegal(s2, acts[2..]);
  }
}
