/** DFlash2's incremental draft-logit table: erase the previous candidates, write the new ones. */
module LogitCache {
  import opened Scores

  type Row = seq<Score>

  function Blank(vocab: nat): (r: Row)
    ensures |r| == vocab && forall v | 0 <= v < vocab :: r[v] == NegInf
  {
    seq(vocab, _ => NegInf)
  }

  /** A masked vector store: `row[ids[i]] = values[i]` for every lane, in lane order. */
  function Store(row: Row, ids: seq<nat>, values: seq<Score>): (r: Row)
    requires |ids| == |values| && forall i | 0 <= i < |ids| :: ids[i] < |row|
    ensures |r| == |row|
  {
    if ids == [] then row
    else
      var n := |ids| - 1;
      Store(row, ids[..n], values[..n])[ids[n] := values[n]]
  }

  lemma {:induction false} StoreReads(row: Row, ids: seq<nat>, values: seq<Score>, v: nat)
    requires |ids| == |values| && v < |row| && forall i | 0 <= i < |ids| :: ids[i] < |row|
    ensures v !in ids ==> Store(row, ids, values)[v] == row[v]
    ensures Distinct(ids) ==> forall i | 0 <= i < |ids| && ids[i] == v :: Store(row, ids, values)[v] == values[i]
    ensures (forall i | 0 <= i < |ids| :: values[i] == NegInf) && v in ids ==> Store(row, ids, values)[v] == NegInf
    decreases |ids|
  {
    if ids != [] {
      var n := |ids| - 1;
      StoreReads(row, ids[..n], values[..n], v);
      assert ids == ids[..n] + [ids[n]];
      if Distinct(ids) {
        assert Distinct(ids[..n]);
        forall i | 0 <= i < |ids| && ids[i] == v
          ensures Store(row, ids, values)[v] == values[i]
        {
          if i < n {
            assert ids[..n][i] == v && ids[n] != v;
          }
        }
      }
    }
  }

  /** What a fresh table holds for one set of candidates. */
  function Fresh(vocab: nat, ids: seq<nat>, scores: seq<Score>): (r: Row)
    requires |ids| == |scores| && forall i | 0 <= i < |ids| :: ids[i] < vocab
    ensures |r| == vocab
  {
    Store(Blank(vocab), ids, scores)
  }

  /** Only cached candidates can hold a score. */
  predicate Covered(row: Row, cached: seq<nat>) {
    && (forall i | 0 <= i < |cached| :: cached[i] < |row|)
    && forall v | 0 <= v < |row| :: v in cached || row[v] == NegInf
  }

  /** The values that erase `n` candidates. */
  function Erasure(n: nat): (values: seq<Score>)
    ensures |values| == n && forall i | 0 <= i < n :: values[i] == NegInf
  {
    seq(n, _ => NegInf)
  }

  lemma ErasedIsBlank(row: Row, cached: seq<nat>)
    requires Covered(row, cached)
    ensures Store(row, cached, Erasure(|cached|)) == Blank(|row|)
  {
    forall v | 0 <= v < |row| ensures Store(row, cached, Erasure(|cached|))[v] == NegInf {
      StoreReads(row, cached, Erasure(|cached|), v);
    }
  }

  lemma FreshIsCovered(vocab: nat, ids: seq<nat>, scores: seq<Score>)
    requires |ids| == |scores| && forall i | 0 <= i < |ids| :: ids[i] < vocab
    ensures Covered(Fresh(vocab, ids, scores), ids)
  {
    forall v | 0 <= v < vocab ensures v in ids || Fresh(vocab, ids, scores)[v] == NegInf {
      StoreReads(Blank(vocab), ids, scores, v);
    }
  }

  /** A fresh row reads back each candidate's own score and minus infinity everywhere else. */
  lemma FreshHolds(vocab: nat, ids: seq<nat>, scores: seq<Score>, v: nat)
    requires |ids| == |scores| && Distinct(ids) && v < vocab && forall i | 0 <= i < |ids| :: ids[i] < vocab
    ensures forall i | 0 <= i < |ids| && ids[i] == v :: Fresh(vocab, ids, scores)[v] == scores[i]
    ensures v !in ids ==> Fresh(vocab, ids, scores)[v] == NegInf
  {
    StoreReads(Blank(vocab), ids, scores, v);
  }

  /** What one program stores into a row. */
  function Replaced(row: Row, cached: seq<nat>, ids: seq<nat>, scores: seq<Score>): (r: Row)
    requires |ids| == |scores| && forall i | 0 <= i < |ids| :: ids[i] < |row|
    requires forall i | 0 <= i < |cached| :: cached[i] < |row|
    ensures |r| == |row|
  {
    var erased := Store(row, cached, Erasure(|cached|));
    Store(erased, ids, scores)
  }

  /** Erasing the cached candidates and storing the new ones gives the fresh row. */
  lemma EraseAndStoreIsFresh(row: Row, cached: seq<nat>, ids: seq<nat>, scores: seq<Score>)
    requires Covered(row, cached)
    requires |ids| == |scores| && forall i | 0 <= i < |ids| :: ids[i] < |row|
    ensures Replaced(row, cached, ids, scores) == Fresh(|row|, ids, scores)
  {
    ErasedIsBlank(row, cached);
  }

  /** One sample of a launch: its candidates, their scores and its request slot (negative: inactive). */
  datatype Sample = Sample(request: int, ids: seq<nat>, scores: seq<Score>)

  datatype Target = Target(request: nat, step: nat)

  class Cache {
    const vocab: nat
    const topK: nat
    const steps: nat
    const requests: nat
    var logits: map<Target, Row>
    var cached: map<Target, seq<nat>>
    /** The latest candidates stored for each target. */
    ghost var latest: map<Target, Sample>

    predicate Slot(t: Target) { t.request < requests && t.step < steps }

    constructor (vocab: nat, topK: nat, steps: nat, requests: nat)
      requires vocab > 0
      ensures this.vocab == vocab && this.topK == topK && this.steps == steps && this.requests == requests
      ensures Valid() && latest == map[]
    {
      this.vocab, this.topK, this.steps, this.requests := vocab, topK, steps, requests;
      logits := map r: nat, s: nat | 0 <= r < requests && 0 <= s < steps :: Target(r, s) := Blank(vocab);
      cached := map r: nat, s: nat | 0 <= r < requests && 0 <= s < steps :: Target(r, s) := seq(topK, _ => 0);
      latest := map[];
    }

    ghost predicate Wellformed(s: Sample) {
      |s.ids| == |s.scores| == topK && Distinct(s.ids) && forall i | 0 <= i < topK :: s.ids[i] < vocab
    }

    /** Every row equals the table a fresh build from its latest candidates would give. */
    ghost predicate Valid()
      reads this
    {
      && vocab > 0
      && (forall t :: t in logits <==> Slot(t)) && (forall t :: t in cached <==> Slot(t))
      && (forall t | t in latest :: Slot(t) && Wellformed(latest[t]))
      && (forall t | Slot(t) :: |logits[t]| == vocab && |cached[t]| == topK && Covered(logits[t], cached[t]))
      && (forall t | Slot(t) :: logits[t] == if t in latest then Fresh(vocab, latest[t].ids, latest[t].scores) else Blank(vocab))
    }

    /** One program instance of the kernel. */
    method Program(flat: nat, s: Sample)
      requires Valid() && steps > 0
      requires s.request >= 0 ==> s.request < requests && Wellformed(s)
      modifies this
      ensures Valid()
      ensures s.request < 0 ==> latest == old(latest) && logits == old(logits)
      ensures s.request >= 0 ==> latest == old(latest)[Target(s.request, flat % steps) := s]
    {
      if s.request >= 0 {
        var t := Target(s.request, flat % steps);
        var old_ids := cached[t];
        EraseAndStoreIsFresh(logits[t], old_ids, s.ids, s.scores);
        FreshIsCovered(vocab, s.ids, s.scores);
        logits := logits[t := Replaced(logits[t], old_ids, s.ids, s.scores)];
        cached := cached[t := s.ids];
        latest := latest[t := s];
      }
    }

    /** A launch runs one program per sample, in any order the device picks. When active samples have
        distinct targets, every target's row is the fresh row of its sample whatever the order. */
    method Launch(samples: seq<Sample>, order: seq<nat>)
      requires Valid() && steps > 0
      requires forall i | 0 <= i < |samples| && samples[i].request >= 0 :: samples[i].request < requests && Wellformed(samples[i])
      requires DistinctTargets(samples, steps)
      requires (forall k | 0 <= k < |order| :: order[k] < |samples|) && (forall i | 0 <= i < |samples| :: i in order)
      modifies this
      ensures Valid()
      ensures latest == Latest(old(latest), samples, steps, |samples|)
    {
      var k := 0;
      while k < |order|
        invariant 0 <= k <= |order| && Valid()
        invariant latest == Ran(old(latest), samples, steps, order[..k])
      {
        var flat := order[k];
        assert order[..k + 1][..k] == order[..k];
        Program(flat, samples[flat]);
        k := k + 1;
      }
      assert order[..k] == order;
      OrderDoesNotMatter(old(latest), samples, steps, order);
    }
  }

  /** Active samples address distinct (request, step) rows. */
  ghost predicate DistinctTargets(samples: seq<Sample>, steps: nat)
    requires steps > 0
  {
    forall i, j | 0 <= i < j < |samples| && samples[i].request >= 0 && samples[j].request >= 0 ::
      samples[i].request != samples[j].request || i % steps != j % steps
  }

  function TargetOf(samples: seq<Sample>, steps: nat, i: nat): Target
    requires steps > 0 && i < |samples| && samples[i].request >= 0
  {
    Target(samples[i].request, i % steps)
  }

  /** The latest candidates per target after the programs in `order` ran in that order. */
  ghost function Ran(latest: map<Target, Sample>, samples: seq<Sample>, steps: nat, order: seq<nat>): map<Target, Sample>
    requires steps > 0 && forall k | 0 <= k < |order| :: order[k] < |samples|
  {
    if order == [] then latest
    else
      var n := |order| - 1;
      var before := Ran(latest, samples, steps, order[..n]);
      if samples[order[n]].request < 0 then before
      else before[TargetOf(samples, steps, order[n]) := samples[order[n]]]
  }

  /** Reference: the first `n` samples override the previous candidates of their targets. */
  ghost function Latest(latest: map<Target, Sample>, samples: seq<Sample>, steps: nat, n: nat): map<Target, Sample>
    requires steps > 0 && n <= |samples|
  {
    if n == 0 then latest
    else
      var before := Latest(latest, samples, steps, n - 1);
      if samples[n - 1].request < 0 then before else before[TargetOf(samples, steps, n - 1) := samples[n - 1]]
  }

  /** No active sample in `done` addresses `t`. */
  ghost predicate Untouched(samples: seq<Sample>, steps: nat, done: set<nat>, t: Target)
    requires steps > 0 && forall i | i in done :: i < |samples|
  {
    forall i | i in done && samples[i].request >= 0 :: TargetOf(samples, steps, i) != t
  }

  /** `m` is `latest` overridden by exactly the active samples in `done`. */
  ghost predicate Overridden(m: map<Target, Sample>, latest: map<Target, Sample>, samples: seq<Sample>, steps: nat, done: set<nat>)
    requires steps > 0 && forall i | i in done :: i < |samples|
  {
    && (forall i | i in done && samples[i].request >= 0 ::
          TargetOf(samples, steps, i) in m && m[TargetOf(samples, steps, i)] == samples[i])
    && (forall t | Untouched(samples, steps, done, t) ::
          (t in m <==> t in latest) && (t in m ==> m[t] == latest[t]))
  }

  lemma OverriddenUnique(m: map<Target, Sample>, m': map<Target, Sample>, latest: map<Target, Sample>, samples: seq<Sample>, steps: nat, done: set<nat>)
    requires steps > 0 && forall i | i in done :: i < |samples|
    requires Overridden(m, latest, samples, steps, done) && Overridden(m', latest, samples, steps, done)
    ensures m == m'
  {
    forall t: Target
      ensures (t in m <==> t in m') && (t in m ==> m[t] == m'[t])
    {
      if i :| i in done && samples[i].request >= 0 && TargetOf(samples, steps, i) == t {
        assert t in m && t in m';
      } else {
        assert Untouched(samples, steps, done, t);
      }
    }
  }

  lemma OverrideOne(m: map<Target, Sample>, latest: map<Target, Sample>, samples: seq<Sample>, steps: nat, done: set<nat>, i: nat)
    requires steps > 0 && i < |samples| && DistinctTargets(samples, steps) && forall j | j in done :: j < |samples|
    requires Overridden(m, latest, samples, steps, done)
    ensures Overridden(if samples[i].request < 0 then m else m[TargetOf(samples, steps, i) := samples[i]], latest, samples, steps, done + {i})
  {
    var m' := if samples[i].request < 0 then m else m[TargetOf(samples, steps, i) := samples[i]];
    forall j | j in done + {i} && samples[j].request >= 0
      ensures TargetOf(samples, steps, j) in m' && m'[TargetOf(samples, steps, j)] == samples[j]
    {
      if samples[i].request >= 0 && j != i {
        DifferentTargets(samples, steps, i, j);
      }
    }
    forall t: Target | Untouched(samples, steps, done + {i}, t)
      ensures (t in m' <==> t in latest) && (t in m' ==> m'[t] == latest[t])
    {
      assert Untouched(samples, steps, done, t) by {
        forall j | j in done && samples[j].request >= 0 ensures TargetOf(samples, steps, j) != t {
          assert j in done + {i};
        }
      }
      assert i in done + {i};
    }
  }

  lemma DifferentTargets(samples: seq<Sample>, steps: nat, i: nat, j: nat)
    requires steps > 0 && DistinctTargets(samples, steps) && i < |samples| && j < |samples| && i != j
    requires samples[i].request >= 0 && samples[j].request >= 0
    ensures TargetOf(samples, steps, i) != TargetOf(samples, steps, j)
  {
  }

  lemma {:induction false} RanOverrides(latest: map<Target, Sample>, samples: seq<Sample>, steps: nat, order: seq<nat>) returns (done: set<nat>)
    requires steps > 0 && DistinctTargets(samples, steps) && forall k | 0 <= k < |order| :: order[k] < |samples|
    ensures forall i :: i in done <==> i in order
    ensures Overridden(Ran(latest, samples, steps, order), latest, samples, steps, done)
  {
    if order == [] {
      done := {};
    } else {
      var n := |order| - 1;
      var before := RanOverrides(latest, samples, steps, order[..n]);
      OverrideOne(Ran(latest, samples, steps, order[..n]), latest, samples, steps, before, order[n]);
      done := before + {order[n]};
      assert order == order[..n] + [order[n]];
    }
  }

  lemma {:induction false} LatestOverrides(latest: map<Target, Sample>, samples: seq<Sample>, steps: nat, n: nat) returns (done: set<nat>)
    requires steps > 0 && DistinctTargets(samples, steps) && n <= |samples|
    ensures forall i :: i in done <==> 0 <= i < n
    ensures Overridden(Latest(latest, samples, steps, n), latest, samples, steps, done)
  {
    if n == 0 {
      done := {};
    } else {
      var before := LatestOverrides(latest, samples, steps, n - 1);
      OverrideOne(Latest(latest, samples, steps, n - 1), latest, samples, steps, before, n - 1);
      done := before + {n - 1};
    }
  }

  /** However the device orders the programs of a launch, and even if it ran one twice, the result is
      that of running them in index order. */
  lemma OrderDoesNotMatter(latest: map<Target, Sample>, samples: seq<Sample>, steps: nat, order: seq<nat>)
    requires steps > 0 && DistinctTargets(samples, steps)
    requires (forall k | 0 <= k < |order| :: order[k] < |samples|) && (forall i | 0 <= i < |samples| :: i in order)
    ensures Ran(latest, samples, steps, order) == Latest(latest, samples, steps, |samples|)
  {
    var a := RanOverrides(latest, samples, steps, order);
    var b := LatestOverrides(latest, samples, steps, |samples|);
    assert forall i | i in order :: 0 <= i < |samples|;
    assert a == b;
    OverriddenUnique(Ran(latest, samples, steps, order), Latest(latest, samples, steps, |samples|), latest, samples, steps, a);
  }
}
