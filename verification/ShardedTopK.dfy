/** Vocabulary-parallel top-k: local selection per shard, gather, selection again. */
module ShardedTopK {
  import opened Arithmetic
  import opened Scores

  datatype Selection = Selection(values: seq<Score>, ids: seq<nat>)

  /** What a top-k routine promises: k distinct positions with their own scores, sorted, and no
      position left out has a larger score. Ties are broken arbitrarily. */
  ghost predicate IsTopK(scores: seq<Score>, k: nat, s: Selection) {
    && |s.values| == |s.ids| == k && Distinct(s.ids)
    && (forall j | 0 <= j < k :: s.ids[j] < |scores| && s.values[j] == scores[s.ids[j]])
    && (forall i, j | 0 <= i < j < k :: AtMost(s.values[j], s.values[i]))
    && (forall i, j | 0 <= i < |scores| && i !in s.ids && 0 <= j < k :: AtMost(scores[i], s.values[j]))
  }

  /** One rank's part of the vocabulary: `logits` covers `real` vocabulary entries and then padding. */
  datatype Shard = Shard(start: nat, logits: seq<Score>, entries: nat)

  function Masked(s: Shard): (m: seq<Score>)
    requires s.entries <= |s.logits|
    ensures |m| == |s.logits|
    ensures forall i | 0 <= i < |m| :: m[i] == if i < s.entries then s.logits[i] else NegInf
  {
    seq(|s.logits|, i requires 0 <= i < |s.logits| => if i < s.entries then s.logits[i] else NegInf)
  }

  /** The in-place padding mask of the source. */
  method MaskPadding(logits: array<Score>, entries: nat)
    requires entries <= logits.Length
    modifies logits
    ensures logits[..] == Masked(Shard(0, old(logits[..]), entries))
  {
    var pad := logits.Length - entries;
    if pad > 0 {
      var i := logits.Length - pad;
      while i < logits.Length
        invariant entries <= i <= logits.Length
        invariant forall k | 0 <= k < logits.Length ::
                    logits[k] == if entries <= k < i then NegInf else old(logits[k])
      {
        logits[i] := NegInf;
        i := i + 1;
      }
    }
  }

  /** Every shard is at least k wide, and the shards' real entries have disjoint global ids. */
  ghost predicate Layout(shards: seq<Shard>, k: nat) {
    && shards != []
    && (forall i | 0 <= i < |shards| :: shards[i].entries <= |shards[i].logits| && k <= |shards[i].logits|)
    && (forall i, j | 0 <= i < j < |shards| :: shards[i].start + shards[i].entries <= shards[j].start)
  }

  /** Global id `g` is real and has this logit. */
  ghost predicate HasLogit(shards: seq<Shard>, g: nat, x: Score) {
    exists i: nat :: Owns(shards, i, g) && x == shards[i].logits[g - shards[i].start]
  }

  ghost predicate Owns(shards: seq<Shard>, i: nat, g: nat) {
    && i < |shards| && shards[i].start <= g < shards[i].start + shards[i].entries
    && shards[i].entries <= |shards[i].logits|
  }

  /** Position of local result `j` of shard `i` in the gathered tensors. */
  function Slot(k: nat, i: nat, j: nat): nat { i * k + j }

  /** `all_gather` along the last dimension: shard after shard. */
  ghost predicate Gathered(shards: seq<Shard>, locals: seq<Selection>, k: nat, values: seq<Score>, ids: seq<nat>) {
    && |locals| == |shards| && |values| == |ids| == |shards| * k
    && (forall i | 0 <= i < |shards| :: |locals[i].values| == |locals[i].ids| == k)
    && forall i, j | 0 <= i < |shards| && 0 <= j < k ::
         && Slot(k, i, j) < |values|
         && values[Slot(k, i, j)] == locals[i].values[j]
         && ids[Slot(k, i, j)] == shards[i].start + locals[i].ids[j]
  }

  /** The whole computation before scaling: each shard's selection, then one over the gathered values. */
  ghost predicate Computed(shards: seq<Shard>, k: nat, locals: seq<Selection>, values: seq<Score>, ids: seq<nat>, top: Selection) {
    && Layout(shards, k) && |locals| == |shards|
    && (forall i | 0 <= i < |shards| :: IsTopK(Masked(shards[i]), k, locals[i]))
    && Gathered(shards, locals, k, values, ids)
    && IsTopK(values, k, top)
  }

  /** At least k real vocabulary entries have finite logits: `finite` lists that many of them. */
  ghost predicate EnoughFinite(shards: seq<Shard>, k: nat, finite: seq<nat>) {
    && |finite| == k && Distinct(finite)
    && forall j | 0 <= j < k :: HasFiniteLogit(shards, finite[j])
  }

  ghost predicate HasFiniteLogit(shards: seq<Shard>, g: nat) {
    exists i: nat :: Owns(shards, i, g) && shards[i].logits[g - shards[i].start].Finite?
  }

  // ---------------------------------------------------------------- counting

  /** A list of distinct elements of a set is no longer than the set. */
  lemma {:induction false} Pigeonhole(s: seq<nat>, t: set<nat>)
    requires Distinct(s) && forall j | 0 <= j < |s| :: s[j] in t
    ensures |s| <= |t|
  {
    if s != [] {
      var n := |s| - 1;
      forall j | 0 <= j < n ensures s[..n][j] in t - {s[n]} {}
      Pigeonhole(s[..n], t - {s[n]});
    }
  }

  function Elements(s: seq<nat>): set<nat> { set x | x in s }

  lemma {:induction false} SetOfDistinct(s: seq<nat>)
    requires Distinct(s)
    ensures |Elements(s)| == |s|
  {
    if s == [] {
      assert Elements(s) == {};
    } else {
      var n := |s| - 1;
      SetOfDistinct(s[..n]);
      assert s == s[..n] + [s[n]] && s[n] !in s[..n];
      assert Elements(s) == Elements(s[..n]) + {s[n]};
    }
  }

  /** k distinct members of a k-element list leave no room for another member. */
  lemma NoRoom(members: seq<nat>, list: seq<nat>, extra: nat)
    requires Distinct(members) && Distinct(list) && |members| == |list|
    requires forall j | 0 <= j < |members| :: members[j] in list && members[j] != extra
    ensures extra !in list
  {
    SetOfDistinct(list);
    if extra in list {
      Pigeonhole(members, Elements(list) - {extra});
    }
  }

  // ---------------------------------------------------------------- selections exist

  /** The best position that is not in the list, if the first `n` positions hold one. */
  lemma {:induction false} BestOutside(scores: seq<Score>, ids: seq<nat>, n: nat, some: nat) returns (best: nat)
    requires some < n <= |scores| && some !in ids
    ensures best < n && best !in ids && forall i | 0 <= i < n && i !in ids :: AtMost(scores[i], scores[best])
  {
    if other: nat :| other < n - 1 && other !in ids {
      best := BestOutside(scores, ids, n - 1, other);
      if n - 1 !in ids && !AtMost(scores[n - 1], scores[best]) {
        best := n - 1;
      }
    } else {
      best := n - 1;
    }
  }

  /** Every list of scores, with ties or not, has a selection of every size that it is long enough for. */
  lemma {:induction false} SelectionExists(scores: seq<Score>, k: nat) returns (s: Selection)
    requires k <= |scores|
    ensures IsTopK(scores, k, s)
  {
    if k == 0 {
      s := Selection([], []);
    } else {
      var before := SelectionExists(scores, k - 1);
      var all := seq(k, i => i);
      if forall i | 0 <= i < k :: all[i] in before.ids {
        SetOfDistinct(before.ids);
        Pigeonhole(all, Elements(before.ids));
      }
      var i :| 0 <= i < k && all[i] !in before.ids;
      var best := BestOutside(scores, before.ids, |scores|, i);
      s := Selection(before.values + [scores[best]], before.ids + [best]);
    }
  }

  // ---------------------------------------------------------------- gathered positions

  lemma SlotOf(k: nat, count: nat, p: nat) returns (i: nat, j: nat)
    requires p < count * k
    ensures i < count && j < k && p == Slot(k, i, j)
  {
    Split(p, count, k);
    i, j := p / k, p % k;
  }

  /** The k positions of shard i. */
  function Block(k: nat, i: nat): (s: seq<nat>)
    ensures |s| == k && forall j | 0 <= j < k :: s[j] == Slot(k, i, j)
    ensures Distinct(s)
  {
    seq(k, j requires 0 <= j < k => Slot(k, i, j))
  }

  /** If all of shard i's positions are selected, nothing else is. */
  lemma OnlyThisShard(k: nat, i: nat, top: Selection, p: nat)
    requires Distinct(top.ids) && |top.ids| == k && p in top.ids
    requires forall j | 0 <= j < k :: Slot(k, i, j) in top.ids
    ensures exists j :: 0 <= j < k && p == Slot(k, i, j)
  {
    if forall j | 0 <= j < k :: p != Slot(k, i, j) {
      NoRoom(Block(k, i), top.ids, p);
    }
  }

  // ---------------------------------------------------------------- correctness

  /** A selected entry is below every position of a shard that reported an entry as not selected locally. */
  lemma LocalBound(shards: seq<Shard>, k: nat, locals: seq<Selection>, values: seq<Score>, ids: seq<nat>, top: Selection, i: nat, l: nat, t: nat)
    requires Computed(shards, k, locals, values, ids, top)
    requires i < |shards| && l < shards[i].entries && t < k
    requires forall p | p in top.ids :: ids[p] != shards[i].start + l
    ensures AtMost(shards[i].logits[l], top.values[t])
  {
    var x := Masked(shards[i])[l];
    if j :| 0 <= j < k && locals[i].ids[j] == l {
      assert values[Slot(k, i, j)] == x && ids[Slot(k, i, j)] == shards[i].start + l;
      assert Slot(k, i, j) !in top.ids;
    } else {
      assert l !in locals[i].ids;
      if j :| 0 <= j < k && Slot(k, i, j) !in top.ids {
        assert AtMost(x, locals[i].values[j]) && AtMost(values[Slot(k, i, j)], top.values[t]);
      } else {
        OnlyThisShard(k, i, top, top.ids[t]);
        var j :| 0 <= j < k && top.ids[t] == Slot(k, i, j);
        assert AtMost(x, locals[i].values[j]);
      }
    }
  }

  /** If some selected value were -inf, every finite real entry would be selected by its own shard. */
  lemma FiniteIsLocal(shards: seq<Shard>, k: nat, locals: seq<Selection>, values: seq<Score>, ids: seq<nat>, top: Selection, i: nat, l: nat, t: nat)
    requires Computed(shards, k, locals, values, ids, top) && t < k && top.values[t] == NegInf
    requires i < |shards| && l < shards[i].entries && shards[i].logits[l].Finite?
    ensures l in locals[i].ids
  {
    if l !in locals[i].ids {
      forall j | 0 <= j < k ensures Slot(k, i, j) in top.ids && Slot(k, i, j) != top.ids[t] {
        assert AtMost(Masked(shards[i])[l], locals[i].values[j]) && values[Slot(k, i, j)] == locals[i].values[j];
      }
      NoRoom(Block(k, i), top.ids, top.ids[t]);
      assert false;
    }
  }

  /** Where a locally selected entry is in the gathered tensors. */
  lemma LocalSlot(shards: seq<Shard>, k: nat, locals: seq<Selection>, values: seq<Score>, ids: seq<nat>, top: Selection, i: nat, l: nat)
    returns (p: nat)
    requires Computed(shards, k, locals, values, ids, top) && i < |shards| && l < shards[i].entries && l in locals[i].ids
    ensures p < |values| == |ids| && values[p] == shards[i].logits[l] && ids[p] == shards[i].start + l
  {
    var j :| 0 <= j < k && locals[i].ids[j] == l;
    p := Slot(k, i, j);
    assert locals[i].values[j] == Masked(shards[i])[l];
  }

  /** If some selected value were -inf, every finite real entry would be selected too. */
  lemma FiniteIsSelected(shards: seq<Shard>, k: nat, locals: seq<Selection>, values: seq<Score>, ids: seq<nat>, top: Selection, g: nat, t: nat)
    returns (p: nat)
    requires Computed(shards, k, locals, values, ids, top) && t < k && top.values[t] == NegInf
    requires HasFiniteLogit(shards, g)
    ensures p in top.ids && p < |ids| && ids[p] == g && p != top.ids[t]
  {
    var i: nat :| Owns(shards, i, g) && shards[i].logits[g - shards[i].start].Finite?;
    FiniteIsLocal(shards, k, locals, values, ids, top, i, g - shards[i].start, t);
    p := LocalSlot(shards, k, locals, values, ids, top, i, g - shards[i].start);
    FiniteBeatsMasked(values, k, top, p, t);
  }

  lemma FiniteBeatsMasked(values: seq<Score>, k: nat, top: Selection, p: nat, t: nat)
    requires IsTopK(values, k, top) && p < |values| && values[p].Finite? && t < k && top.values[t] == NegInf
    ensures p in top.ids && p != top.ids[t]
  {
    assert p !in top.ids ==> AtMost(values[p], top.values[t]);
  }

  lemma {:induction false} SelectedPositions(shards: seq<Shard>, k: nat, locals: seq<Selection>, values: seq<Score>, ids: seq<nat>, top: Selection,
                                             finite: seq<nat>, t: nat, n: nat) returns (members: seq<nat>)
    requires Computed(shards, k, locals, values, ids, top) && EnoughFinite(shards, k, finite)
    requires t < k && top.values[t] == NegInf && n <= k
    ensures |members| == n && forall j | 0 <= j < n ::
              members[j] in top.ids && members[j] != top.ids[t] && members[j] < |ids| && ids[members[j]] == finite[j]
    decreases n
  {
    if n == 0 {
      members := [];
    } else {
      members := SelectedPositions(shards, k, locals, values, ids, top, finite, t, n - 1);
      var p := FiniteIsSelected(shards, k, locals, values, ids, top, finite[n - 1], t);
      members := members + [p];
    }
  }

  /** With enough finite entries nothing masked or -inf is returned. */
  lemma AllFinite(shards: seq<Shard>, k: nat, locals: seq<Selection>, values: seq<Score>, ids: seq<nat>, top: Selection, finite: seq<nat>, t: nat)
    requires Computed(shards, k, locals, values, ids, top) && EnoughFinite(shards, k, finite) && t < k
    ensures top.values[t].Finite?
  {
    if top.values[t] == NegInf {
      var members := SelectedPositions(shards, k, locals, values, ids, top, finite, t, k);
      assert Distinct(members);
      NoRoom(members, top.ids, top.ids[t]);
      assert false;
    }
  }

  /** A finite selected position is a real entry of its shard. */
  lemma SelectedIsReal(shards: seq<Shard>, k: nat, locals: seq<Selection>, values: seq<Score>, ids: seq<nat>, top: Selection, t: nat)
    returns (i: nat, j: nat)
    requires Computed(shards, k, locals, values, ids, top) && t < k && top.values[t].Finite?
    ensures i < |shards| && j < k && top.ids[t] == Slot(k, i, j) && locals[i].ids[j] < shards[i].entries
    ensures ids[top.ids[t]] == shards[i].start + locals[i].ids[j] && Owns(shards, i, ids[top.ids[t]])
    ensures top.values[t] == shards[i].logits[locals[i].ids[j]]
  {
    i, j := SlotOf(k, |shards|, top.ids[t]);
    assert values[Slot(k, i, j)] == locals[i].values[j];
    assert Masked(shards[i])[locals[i].ids[j]].Finite?;
  }

  /** The answer wanted: k distinct real ids, each with its own logit, sorted, and nothing better left out. */
  ghost predicate GlobalTopK(shards: seq<Shard>, k: nat, ids: seq<nat>, values: seq<Score>) {
    && |ids| == |values| == k && Distinct(ids)
    && (forall t | 0 <= t < k :: values[t].Finite? && HasLogit(shards, ids[t], values[t]))
    && (forall t, u | 0 <= t < u < k :: AtMost(values[u], values[t]))
    && (forall g: nat, x, t | HasLogit(shards, g, x) && g !in ids && 0 <= t < k :: AtMost(x, values[t]))
  }

  /** `ids.gather(-1, selected)`. */
  function Gather(ids: seq<nat>, selected: seq<nat>): (r: seq<nat>)
    requires forall j | 0 <= j < |selected| :: selected[j] < |ids|
    ensures |r| == |selected|
  {
    seq(|selected|, j requires 0 <= j < |selected| => ids[selected[j]])
  }

  lemma SameSelected(shards: seq<Shard>, k: nat, locals: seq<Selection>, values: seq<Score>, ids: seq<nat>, top: Selection, t: nat, u: nat)
    requires Computed(shards, k, locals, values, ids, top) && t < k && u < k
    requires top.values[t].Finite? && top.values[u].Finite? && ids[top.ids[t]] == ids[top.ids[u]]
    ensures t == u
  {
    var i, j := SelectedIsReal(shards, k, locals, values, ids, top, t);
    var i', j' := SelectedIsReal(shards, k, locals, values, ids, top, u);
    assert i == i';
    assert locals[i].ids[j] == locals[i].ids[j'];
  }

  lemma NothingBetterLeftOut(shards: seq<Shard>, k: nat, locals: seq<Selection>, values: seq<Score>, ids: seq<nat>, top: Selection, g: nat, x: Score, t: nat)
    requires Computed(shards, k, locals, values, ids, top)
    requires HasLogit(shards, g, x) && g !in Gather(ids, top.ids) && t < k
    ensures AtMost(x, top.values[t])
  {
    var i: nat :| Owns(shards, i, g) && x == shards[i].logits[g - shards[i].start];
    forall p | p in top.ids ensures ids[p] != g {
      var j :| 0 <= j < k && top.ids[j] == p;
      assert Gather(ids, top.ids)[j] == ids[p];
    }
    LocalBound(shards, k, locals, values, ids, top, i, g - shards[i].start, t);
  }

  /** Two rounds of top-k over shards equal one top-k over the whole vocabulary. */
  lemma ShardedEqualsGlobal(shards: seq<Shard>, k: nat, locals: seq<Selection>, values: seq<Score>, ids: seq<nat>, top: Selection, finite: seq<nat>)
    requires Computed(shards, k, locals, values, ids, top) && EnoughFinite(shards, k, finite)
    ensures GlobalTopK(shards, k, Gather(ids, top.ids), top.values)
  {
    var result := Gather(ids, top.ids);
    forall t | 0 <= t < k ensures top.values[t].Finite? && HasLogit(shards, result[t], top.values[t]) {
      AllFinite(shards, k, locals, values, ids, top, finite, t);
      var i, j := SelectedIsReal(shards, k, locals, values, ids, top, t);
    }
    forall t, u | 0 <= t < u < k ensures result[t] != result[u] {
      if result[t] == result[u] {
        SameSelected(shards, k, locals, values, ids, top, t, u);
      }
    }
    forall g: nat, x, t | HasLogit(shards, g, x) && g !in result && 0 <= t < k ensures AtMost(x, top.values[t]) {
      NothingBetterLeftOut(shards, k, locals, values, ids, top, g, x, t);
    }
  }

  /** Exactly when: a result made only of real ids with finite logits needs that many finite real logits. */
  lemma EnoughFiniteIsNeeded(shards: seq<Shard>, k: nat, ids: seq<nat>, values: seq<Score>)
    requires GlobalTopK(shards, k, ids, values)
    ensures EnoughFinite(shards, k, ids)
  {
    forall j | 0 <= j < k ensures HasFiniteLogit(shards, ids[j]) {
      assert HasLogit(shards, ids[j], values[j]);
    }
  }

  /** A single shard skips the gather: its own selection, offset by its start. */
  lemma OneShardComputed(shard: Shard, k: nat, local: Selection, ids: seq<nat>, all: Selection)
    requires shard.entries <= |shard.logits| && Layout([shard], k) && IsTopK(Masked(shard), k, local)
    requires |ids| == k && forall j | 0 <= j < k :: ids[j] == shard.start + local.ids[j]
    requires all.values == local.values && |all.ids| == k && forall j | 0 <= j < k :: all.ids[j] == j
    ensures Computed([shard], k, [local], local.values, ids, all)
  {
    assert forall j | 0 <= j < k :: Slot(k, 0, j) == j;
    assert forall i | 0 <= i < k :: all.ids[i] in all.ids;
  }

  /** With one shard the local selection is already global. */
  lemma OneShardIsGlobal(shard: Shard, k: nat, local: Selection, ids: seq<nat>, finite: seq<nat>)
    requires shard.entries <= |shard.logits| && Layout([shard], k) && IsTopK(Masked(shard), k, local) && EnoughFinite([shard], k, finite)
    requires |ids| == k && forall j | 0 <= j < k :: ids[j] == shard.start + local.ids[j]
    ensures GlobalTopK([shard], k, ids, local.values)
  {
    var all := Selection(local.values, seq(k, j => j));
    OneShardComputed(shard, k, local, ids, all);
    ShardedEqualsGlobal([shard], k, [local], local.values, ids, all, finite);
    assert Gather(ids, all.ids) == ids;
  }

  // ---------------------------------------------------------------- scale and soft cap

  datatype Cap = NoCap | SoftCap(cap: real)

  function Capped(cap: Cap, tanh: real -> real, v: real): real
    requires cap.SoftCap? ==> cap.cap != 0.0
  {
    if cap.NoCap? then v else tanh(v / cap.cap) * cap.cap
  }

  /** Scale, then cap, as applied to the k selected values only. */
  function Finish(scale: real, cap: Cap, tanh: real -> real, v: real): real
    requires cap.SoftCap? ==> cap.cap != 0.0
  {
    Capped(cap, tanh, v * scale)
  }

  ghost predicate Increasing(f: real -> real) {
    forall x, y | x <= y :: f(x) <= f(y)
  }

  lemma ScaleMono(a: real, b: real, c: real)
    requires a <= b && c >= 0.0
    ensures a * c <= b * c
  {
  }

  lemma DivideMono(a: real, b: real, c: real)
    requires a <= b && c != 0.0
    ensures if c > 0.0 then a / c <= b / c else b / c <= a / c
  {
  }

  /** Finishing keeps the order, so selecting first and finishing k values is the same as finishing all. */
  lemma FinishKeepsOrder(scale: real, cap: Cap, tanh: real -> real, a: real, b: real)
    requires scale > 0.0 && Increasing(tanh) && a <= b
    requires cap.SoftCap? ==> cap.cap != 0.0
    ensures Finish(scale, cap, tanh, a) <= Finish(scale, cap, tanh, b)
  {
    ScaleMono(a, b, scale);
    CappedKeepsOrder(cap, tanh, a * scale, b * scale);
  }

  lemma CappedKeepsOrder(cap: Cap, tanh: real -> real, x: real, y: real)
    requires Increasing(tanh) && x <= y
    requires cap.SoftCap? ==> cap.cap != 0.0
    ensures Capped(cap, tanh, x) <= Capped(cap, tanh, y)
  {
    if cap.SoftCap? {
      var c := cap.cap;
      DivideMono(x, y, c);
      var u, v := tanh(x / c), tanh(y / c);
      if c > 0.0 {
        ScaleMono(u, v, c);
      } else {
        ScaleMono(v, u, -c);
      }
    }
  }

  /** What is returned for a selected logit v: v times the scale, and with a cap the cap times the tanh of that
      value over the cap. */
  lemma FinishedValue(scale: real, cap: Cap, tanh: real -> real, v: real)
    requires cap.SoftCap? ==> cap.cap != 0.0
    ensures Finish(scale, cap, tanh, v) ==
            match cap
            case NoCap => v * scale
            case SoftCap(c) => c * tanh((v * scale) / c)
  {
  }

  /** The returned values: the selected ones, each finished. */
  function Finished(scale: real, cap: Cap, tanh: real -> real, values: seq<Score>): (f: seq<real>)
    requires cap.SoftCap? ==> cap.cap != 0.0
    requires forall t | 0 <= t < |values| :: values[t].Finite?
    ensures |f| == |values|
  {
    seq(|values|, t requires 0 <= t < |values| => Finish(scale, cap, tanh, values[t].value))
  }

  /** Scaling and capping only the k selected values: each returned value is the finished logit of its own id,
      they stay sorted, and no id left out would have had a larger finished logit. */
  lemma FinishedTopK(shards: seq<Shard>, k: nat, ids: seq<nat>, values: seq<Score>, scale: real, cap: Cap, tanh: real -> real)
    requires GlobalTopK(shards, k, ids, values) && scale > 0.0 && Increasing(tanh)
    requires cap.SoftCap? ==> cap.cap != 0.0
    ensures forall t | 0 <= t < k :: values[t].Finite?
    ensures var f := Finished(scale, cap, tanh, values);
            && |f| == k
            && (forall t | 0 <= t < k :: exists x ::
                  HasLogit(shards, ids[t], Finite(x))
                  && f[t] == match cap case NoCap => x * scale case SoftCap(c) => c * tanh((x * scale) / c))
            && (forall t, u | 0 <= t < u < k :: f[u] <= f[t])
            && forall g: nat, x: real, t | HasLogit(shards, g, Finite(x)) && g !in ids && 0 <= t < k ::
                 Finish(scale, cap, tanh, x) <= f[t]
  {
    var f := Finished(scale, cap, tanh, values);
    forall t | 0 <= t < k
      ensures exists x ::
                HasLogit(shards, ids[t], Finite(x))
                && f[t] == match cap case NoCap => x * scale case SoftCap(c) => c * tanh((x * scale) / c)
    {
      var x := values[t].value;
      assert HasLogit(shards, ids[t], Finite(x));
      FinishedValue(scale, cap, tanh, x);
    }
    forall t, u | 0 <= t < u < k ensures f[u] <= f[t] {
      assert AtMost(values[u], values[t]);
      FinishKeepsOrder(scale, cap, tanh, values[u].value, values[t].value);
    }
    forall g: nat, x: real, t | HasLogit(shards, g, Finite(x)) && g !in ids && 0 <= t < k
      ensures Finish(scale, cap, tanh, x) <= f[t]
    {
      assert AtMost(Finite(x), values[t]);
      FinishKeepsOrder(scale, cap, tanh, x, values[t].value);
    }
  }
}
