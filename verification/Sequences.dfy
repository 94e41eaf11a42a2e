/** Facts about sequences that several models share. */
module Sequences {

  function Flatten<T>(s: seq<seq<T>>): seq<T> {
    if s == [] then [] else Flatten(s[..|s| - 1]) + s[|s| - 1]
  }

  lemma FlattenAppend<T>(s: seq<seq<T>>, x: seq<T>)
    ensures Flatten(s + [x]) == Flatten(s) + x
  {
    assert (s + [x])[..|s|] == s;
  }

  lemma {:induction false} FlattenEmpty<T>(s: seq<seq<T>>)
    ensures Flatten(s) == [] <==> forall i | 0 <= i < |s| :: s[i] == []
  {
    if s == [] {
    } else {
      var n := |s| - 1;
      FlattenEmpty(s[..n]);
      if forall i | 0 <= i < n :: s[..n][i] == [] {
        assert Flatten(s) == Flatten(s[..n]) + s[n];
      } else {
        var i :| 0 <= i < n && s[..n][i] != [];
        assert s[i] != [];
      }
    }
  }

  /** The first part that is not empty starts the whole. */
  lemma {:induction false} FirstPart<T>(s: seq<seq<T>>) returns (k: nat)
    requires Flatten(s) != []
    ensures k < |s| && s[k] != [] && Flatten(s)[0] == s[k][0]
    ensures forall i | 0 <= i < k :: s[i] == []
  {
    var n := |s| - 1;
    if Flatten(s[..n]) != [] {
      k := FirstPart(s[..n]);
    } else {
      FlattenEmpty(s[..n]);
      k := n;
    }
  }

  /** Prepending to the first part that is not empty prepends to the whole. */
  lemma {:induction false} FlattenHead<T>(s: seq<seq<T>>, t: seq<seq<T>>, k: nat, x: T)
    requires k < |s| == |t| && s[k] == [x] + t[k]
    requires forall i | 0 <= i < k :: s[i] == []
    requires forall i | 0 <= i < |s| && i != k :: s[i] == t[i]
    ensures Flatten(s) == [x] + Flatten(t)
  {
    var n := |s| - 1;
    if k == n {
      FlattenEmpty(s[..n]);
      assert s[..n] == t[..n];
    } else {
      FlattenHead(s[..n], t[..n], k, x);
      Regroup([x], Flatten(t[..n]), t[n]);
    }
  }

  lemma SplitAtLast<T>(s: seq<T>)
    requires s != []
    ensures s == s[..|s| - 1] + [s[|s| - 1]]
  {
  }

  lemma Regroup<T>(a: seq<T>, b: seq<T>, c: seq<T>)
    ensures a + b + c == a + (b + c)
  {
  }

  lemma AppendNothing<T>(s: seq<T>)
    ensures s + [] == s
  {
  }

  lemma DropSplit<T>(s: seq<T>, k: nat)
    requires k < |s|
    ensures s[k..] == [s[k]] + s[k + 1..]
  {
  }
}
