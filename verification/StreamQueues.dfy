/** How FIFO queues of operations relate to per-operation progress counters.

    `count[k]` is the number of calls whose k-th operation has been executed. When every
    counter covers a prefix of the calls, the counters determine every queue. */
module StreamQueues {
  import opened StreamMachine
  import opened Sequences

  /** Six counters, each covering no more calls than the one before. */
  predicate Chain(count: seq<nat>) {
    |count| == 6 && count[0] >= count[1] >= count[2] >= count[3] >= count[4] >= count[5]
  }

  /** The length of the longest prefix of counters that have reached `e`. */
  function Reached(count: seq<nat>, e: nat): (k: nat)
    ensures k <= |count| && (forall i | 0 <= i < k :: count[i] >= e) && (k < |count| ==> count[k] < e)
  {
    if count == [] || count[0] < e then 0 else 1 + Reached(count[1..], e)
  }

  /** Operations of call `e` already executed. */
  function Done(count: seq<nat>, e: nat): (k: nat)
    requires Chain(count)
    ensures k <= 6
    ensures forall i | 0 <= i < 6 :: i < k <==> count[i] >= e
  {
    Reached(count, e)
  }

  /** The operations of every call, executed or not. */
  function Work<V>(p: Protocol, r: Rank, calls: seq<Call<V>>): (work: seq<seq<Op<V>>>)
    ensures |work| == |calls| && forall i | 0 <= i < |work| :: |work[i]| == 6
  {
    seq(|calls|, i requires 0 <= i < |calls| => Program(p, r, i + 1, calls[i].payload))
  }

  predicate Matching<V>(work: seq<seq<Op<V>>>, calls: seq<Call<V>>) {
    |work| == |calls| && forall i | 0 <= i < |work| :: |work[i]| == 6
  }

  /** What each call still has to execute on stream `q`. */
  function Parts<V>(work: seq<seq<Op<V>>>, calls: seq<Call<V>>, q: nat, count: seq<nat>): (parts: seq<seq<Op<V>>>)
    requires Chain(count) && Matching(work, calls)
    ensures |parts| == |calls|
    ensures forall i {:trigger parts[i]} | 0 <= i < |calls| :: parts[i] == if calls[i].stream == q then work[i][Done(count, i + 1)..] else []
  {
    seq(|calls|, i requires 0 <= i < |calls| => if calls[i].stream == q then work[i][Done(count, i + 1)..] else [])
  }

  /** The contents of stream `q`: what its calls still have to execute, in issue order. */
  function Pending<V>(work: seq<seq<Op<V>>>, calls: seq<Call<V>>, q: nat, count: seq<nat>): seq<Op<V>>
    requires Chain(count) && Matching(work, calls)
  {
    Flatten(Parts(work, calls, q, count))
  }

  /** Every stream holds exactly what its calls still have to execute. */
  ghost predicate Queued<V>(work: seq<seq<Op<V>>>, calls: seq<Call<V>>, queues: seq<seq<Op<V>>>, count: seq<nat>) {
    && Chain(count) && Matching(work, calls)
    && (forall i | 0 <= i < |calls| :: calls[i].stream < |queues|)
    && (forall q | 0 <= q < |queues| :: queues[q] == Pending(work, calls, q, count))
  }

  ghost predicate QueuesMatch<V(!new)>(p: Protocol, r: Rank, me: RankState<V>, count: seq<nat>) {
    Queued(Work(p, r, me.calls), me.calls, me.queues, count)
  }

  /** Call `e` is the oldest unfinished call of stream `q`. */
  ghost predicate Oldest<V>(calls: seq<Call<V>>, q: nat, count: seq<nat>, e: nat) {
    && Chain(count)
    && 1 <= e <= |calls|
    && calls[e - 1].stream == q
    && count[5] < e
    && forall i | 0 <= i < e - 1 && calls[i].stream == q :: count[5] > i
  }

  /** A call has nothing left exactly when the last counter covers it. */
  lemma Finished<V>(work: seq<seq<Op<V>>>, calls: seq<Call<V>>, q: nat, count: seq<nat>, i: nat)
    requires Chain(count) && Matching(work, calls) && i < |calls| && calls[i].stream == q
    ensures Parts(work, calls, q, count)[i] == [] <==> count[5] > i
  {
    var k := Done(count, i + 1);
    assert |work[i][k..]| == 6 - k;
    assert k == 6 <==> count[5] >= i + 1;
  }

  /** A stream is empty exactly when none of its calls has work left. */
  lemma PendingEmpty<V>(work: seq<seq<Op<V>>>, calls: seq<Call<V>>, q: nat, count: seq<nat>)
    requires Chain(count) && Matching(work, calls)
    ensures Pending(work, calls, q, count) == [] <==> forall i | 0 <= i < |calls| && calls[i].stream == q :: count[5] > i
  {
    var parts := Parts(work, calls, q, count);
    FlattenEmpty(parts);
    forall i | 0 <= i < |calls| && calls[i].stream == q ensures parts[i] == [] <==> count[5] > i {
      Finished(work, calls, q, count, i);
    }
  }

  /** The head of a nonempty stream is the next operation of its oldest unfinished call. */
  lemma PendingHead<V>(work: seq<seq<Op<V>>>, calls: seq<Call<V>>, q: nat, count: seq<nat>) returns (e: nat)
    requires Chain(count) && Matching(work, calls) && Pending(work, calls, q, count) != []
    ensures Oldest(calls, q, count, e) && Done(count, e) < 6
    ensures Pending(work, calls, q, count)[0] == work[e - 1][Done(count, e)]
  {
    var parts := Parts(work, calls, q, count);
    var k := FirstPart(parts);
    e := k + 1;
    forall i | 0 <= i <= k && calls[i].stream == q ensures count[5] > i <==> parts[i] == [] {
      Finished(work, calls, q, count, i);
    }
  }

  /** Advancing the next counter of call `e` from e - 1 to e moves that call one operation on and no other. */
  lemma Advance(count: seq<nat>, e: nat)
    requires Chain(count) && Done(count, e) < 6 && count[Done(count, e)] == e - 1
    ensures Chain(count[Done(count, e) := e])
    ensures Done(count[Done(count, e) := e], e) == Done(count, e) + 1
    ensures forall e' | e' != e :: Done(count[Done(count, e) := e], e') == Done(count, e')
  {
    var count' := count[Done(count, e) := e];
    assert Chain(count');
    forall e': nat | e' != e
      ensures Done(count', e') == Done(count, e')
    {
      SameDone(count, count', e');
    }
  }

  lemma SameDone(count: seq<nat>, count': seq<nat>, e: nat)
    requires Chain(count) && Chain(count')
    requires forall i | 0 <= i < 6 :: count[i] >= e <==> count'[i] >= e
    ensures Done(count, e) == Done(count', e)
  {
  }

  /** Executing the head of stream `q` removes that one operation from it. */
  lemma PendingRun<V>(work: seq<seq<Op<V>>>, calls: seq<Call<V>>, q: nat, count: seq<nat>, count': seq<nat>, e: nat)
    requires Matching(work, calls) && Oldest(calls, q, count, e) && Chain(count')
    requires Done(count', e) == Done(count, e) + 1
    requires forall e' | e' != e :: Done(count', e') == Done(count, e')
    ensures Pending(work, calls, q, count) == [work[e - 1][Done(count, e)]] + Pending(work, calls, q, count')
  {
    var parts, parts' := Parts(work, calls, q, count), Parts(work, calls, q, count');
    DropSplit(work[e - 1], Done(count, e));
    forall i | 0 <= i < e - 1 ensures parts[i] == [] {
      if calls[i].stream == q {
        Finished(work, calls, q, count, i);
      }
    }
    FlattenHead(parts, parts', e - 1, work[e - 1][Done(count, e)]);
  }

  /** No other stream changes. */
  lemma PendingOther<V>(work: seq<seq<Op<V>>>, calls: seq<Call<V>>, q: nat, count: seq<nat>, count': seq<nat>, e: nat)
    requires Matching(work, calls) && Chain(count) && Chain(count')
    requires forall e' | e' != e :: Done(count', e') == Done(count, e')
    requires 1 <= e <= |calls| && calls[e - 1].stream != q
    ensures Pending(work, calls, q, count) == Pending(work, calls, q, count')
  {
    assert Parts(work, calls, q, count) == Parts(work, calls, q, count');
  }

  lemma QueuedHead<V>(work: seq<seq<Op<V>>>, calls: seq<Call<V>>, queues: seq<seq<Op<V>>>, count: seq<nat>, q: nat) returns (e: nat)
    requires Queued(work, calls, queues, count) && q < |queues| && queues[q] != []
    ensures Oldest(calls, q, count, e) && Done(count, e) < 6
    ensures queues[q][0] == work[e - 1][Done(count, e)]
  {
    e := PendingHead(work, calls, q, count);
  }

  /** Running the oldest call of a stream advances exactly its next counter. */
  lemma QueuedRun<V>(work: seq<seq<Op<V>>>, calls: seq<Call<V>>, queues: seq<seq<Op<V>>>, count: seq<nat>, q: nat, e: nat)
    requires Queued(work, calls, queues, count) && q < |queues|
    requires Oldest(calls, q, count, e) && count[Done(count, e)] == e - 1
    ensures queues[q] != [] && queues[q][0] == work[e - 1][Done(count, e)]
    ensures Queued(work, calls, queues[q := queues[q][1..]], count[Done(count, e) := e])
  {
    var count' := count[Done(count, e) := e];
    Advance(count, e);
    PendingRun(work, calls, q, count, count', e);
    var rest := queues[q][1..];
    assert rest == Pending(work, calls, q, count');
    forall q' | 0 <= q' < |queues|
      ensures queues[q := rest][q'] == Pending(work, calls, q', count')
    {
      if q' != q {
        PendingOther(work, calls, q', count, count', e);
      }
    }
  }

  lemma QueuedIssue<V>(work: seq<seq<Op<V>>>, calls: seq<Call<V>>, queues: seq<seq<Op<V>>>, count: seq<nat>, ops: seq<Op<V>>, c: Call<V>, tail: seq<Op<V>>)
    requires Queued(work, calls, queues, count) && c.stream < |queues| && |ops| == 6
    requires ops[Done(count, |calls| + 1)..] == tail
    ensures Queued(work + [ops], calls + [c], queues[c.stream := queues[c.stream] + tail], count)
  {
    forall q | 0 <= q < |queues|
      ensures Pending(work + [ops], calls + [c], q, count) == queues[q] + if c.stream == q then tail else []
    {
      PendingAppend(work, calls, q, count, ops, c);
    }
  }

  /** Which operation is at the head of a nonempty stream. */
  lemma HeadOf<V(!new)>(p: Protocol, r: Rank, me: RankState<V>, count: seq<nat>, q: nat) returns (e: nat)
    requires QueuesMatch(p, r, me, count)
    requires q < |me.queues| && me.queues[q] != []
    ensures Oldest(me.calls, q, count, e)
    ensures me.queues[q][0] == Program(p, r, e, me.calls[e - 1].payload)[Done(count, e)]
  {
    e := QueuedHead(Work(p, r, me.calls), me.calls, me.queues, count, q);
  }

  /** The oldest unfinished call of a stream is at its head. */
  lemma OldestIsHead<V(!new)>(p: Protocol, r: Rank, me: RankState<V>, count: seq<nat>, q: nat, e: nat)
    requires QueuesMatch(p, r, me, count) && q < |me.queues|
    requires Oldest(me.calls, q, count, e)
    ensures me.queues[q] != []
    ensures me.queues[q][0] == Program(p, r, e, me.calls[e - 1].payload)[Done(count, e)]
  {
    PendingEmpty(Work(p, r, me.calls), me.calls, q, count);
    assert me.queues[q] != [];
    var e' := HeadOf(p, r, me, count, q);
    assert me.calls[e - 1].stream == q && me.calls[e' - 1].stream == q;
  }

  /** When every call is finished every stream is empty. */
  lemma AllFinished<V(!new)>(p: Protocol, r: Rank, me: RankState<V>, count: seq<nat>)
    requires QueuesMatch(p, r, me, count) && count[5] >= |me.calls|
    ensures forall q | 0 <= q < |me.queues| :: me.queues[q] == []
  {
    forall q | 0 <= q < |me.queues| ensures me.queues[q] == [] {
      PendingEmpty(Work(p, r, me.calls), me.calls, q, count);
    }
  }

  /** Running the oldest call of a stream advances exactly its next counter. */
  lemma RunMatches<V(!new)>(p: Protocol, r: Rank, me: RankState<V>, me': RankState<V>, count: seq<nat>, q: nat, e: nat)
    requires QueuesMatch(p, r, me, count) && q < |me.queues| && me.queues[q] != []
    requires Oldest(me.calls, q, count, e) && count[Done(count, e)] == e - 1
    requires me'.calls == me.calls && me'.queues == me.queues[q := me.queues[q][1..]]
    ensures QueuesMatch(p, r, me', count[Done(count, e) := e])
  {
    QueuedRun(Work(p, r, me.calls), me.calls, me.queues, count, q, e);
  }

  lemma WorkAppend<V>(p: Protocol, r: Rank, calls: seq<Call<V>>, c: Call<V>)
    ensures Work(p, r, calls + [c]) == Work(p, r, calls) + [Program(p, r, |calls| + 1, c.payload)]
  {
  }

  /** Issuing a call appends its whole program to the chosen stream. */
  lemma IssueMatches<V(!new)>(p: Protocol, r: Rank, me: RankState<V>, me': RankState<V>, count: seq<nat>, q: nat, v: V)
    requires QueuesMatch(p, r, me, count) && q < |me.queues|
    requires Program(p, r, |me.calls| + 1, v)[Done(count, |me.calls| + 1)..] == Issued(p, r, |me.calls| + 1, v)
    requires me'.calls == me.calls + [Call(q, v)]
    requires me'.queues == me.queues[q := me.queues[q] + Issued(p, r, |me.calls| + 1, v)]
    ensures QueuesMatch(p, r, me', count)
  {
    var e := |me.calls| + 1;
    WorkAppend(p, r, me.calls, Call(q, v));
    QueuedIssue(Work(p, r, me.calls), me.calls, me.queues, count, Program(p, r, e, v), Call(q, v), Issued(p, r, e, v));
  }

  lemma PendingAppend<V>(work: seq<seq<Op<V>>>, calls: seq<Call<V>>, q: nat, count: seq<nat>, ops: seq<Op<V>>, c: Call<V>)
    requires Chain(count) && Matching(work, calls) && |ops| == 6
    ensures Pending(work + [ops], calls + [c], q, count) ==
            Pending(work, calls, q, count) + if c.stream == q then ops[Done(count, |calls| + 1)..] else []
  {
    var last := if c.stream == q then ops[Done(count, |calls| + 1)..] else [];
    assert Parts(work + [ops], calls + [c], q, count) == Parts(work, calls, q, count) + [last];
    FlattenAppend(Parts(work, calls, q, count), last);
  }
}
