/** The frontier that Prime computes for an origin from a matrix of summaries: the (f+1)-smallest entry of the
    origin's column, found by sorting. */
module PrimeFrontier {
  import opened Quorums
  import opened Sequences

  type Matrix = seq<seq<nat>>

  predicate IsSorted(s: seq<nat>) {
    forall i, j :: 0 <= i < j < |s| ==> s[i] <= s[j]
  }

  /** How many entries reach v. */
  function Reaching(s: seq<nat>, v: nat): (n: nat)
    ensures n <= |s|
  {
    if s == [] then 0 else Reaching(s[..|s| - 1], v) + if s[|s| - 1] >= v then 1 else 0
  }

  // ----- sorting

  /** sort.Sort on an IndexSlice, which for a short slice inserts by swapping neighbours. */
  method SortIndices(a: array<nat>)
    modifies a
    ensures IsSorted(a[..]) && multiset(a[..]) == multiset(old(a[..]))
  {
    var i := 0;
    while i < a.Length
      invariant 0 <= i <= a.Length && IsSorted(a[..i])
      invariant multiset(a[..]) == multiset(old(a[..]))
    {
      Insert(a, i);
      i := i + 1;
    }
    assert a[..a.Length] == a[..];
  }

  /** Move a[n] down to its place in the sorted part before it. */
  method Insert(a: array<nat>, n: nat)
    requires n < a.Length && IsSorted(a[..n])
    modifies a
    ensures IsSorted(a[..n + 1]) && multiset(a[..]) == multiset(old(a[..]))
  {
    var j := n;
    while j > 0 && a[j] < a[j - 1]
      invariant 0 <= j <= n
      invariant forall x, y :: 0 <= x < y <= n && y != j ==> a[x] <= a[y]
      invariant multiset(a[..]) == multiset(old(a[..]))
    {
      a[j], a[j - 1] := a[j - 1], a[j];
      j := j - 1;
    }
  }

  // ----- what the sorted column says

  lemma {:induction false} ReachingSplit(s: seq<nat>, t: seq<nat>, v: nat)
    ensures Reaching(s + t, v) == Reaching(s, v) + Reaching(t, v)
    decreases |t|
  {
    if t == [] {
      assert s + t == s;
    } else {
      var n := |t| - 1;
      ReachingSplit(s, t[..n], v);
      assert (s + t)[..|s + t| - 1] == s + t[..n];
    }
  }

  /** Counting does not depend on the order. */
  lemma {:induction false} ReachingReordered(s: seq<nat>, t: seq<nat>, v: nat)
    requires multiset(s) == multiset(t)
    ensures Reaching(s, v) == Reaching(t, v)
    decreases |s|
  {
    if s == [] {
      assert |t| == |multiset(t)| == 0;
    } else {
      var n := |s| - 1;
      assert s[n] in multiset(t);
      var j :| 0 <= j < |t| && t[j] == s[n];
      Removed(s, t, j);
      ReachingReordered(s[..n], t[..j] + t[j + 1..], v);
      ReachingSplit(t[..j], t[j + 1..], v);
      ReachingSplit(t[..j] + [t[j]], t[j + 1..], v);
      ReachingSplit(t[..j], [t[j]], v);
    }
  }

  lemma {:induction false} NoneReaches(s: seq<nat>, v: nat)
    requires forall i :: 0 <= i < |s| ==> s[i] < v
    ensures Reaching(s, v) == 0
    decreases |s|
  {
    if s != [] {
      NoneReaches(s[..|s| - 1], v);
    }
  }

  lemma {:induction false} AllReach(s: seq<nat>, v: nat)
    requires forall i :: 0 <= i < |s| ==> s[i] >= v
    ensures Reaching(s, v) == |s|
    decreases |s|
  {
    if s != [] {
      AllReach(s[..|s| - 1], v);
    }
  }

  /** In a sorted sequence, entry f reaches v exactly if all but f entries do. */
  lemma SortedThreshold(s: seq<nat>, f: nat, v: nat)
    requires IsSorted(s) && f < |s|
    ensures s[f] >= v <==> Reaching(s, v) >= |s| - f
  {
    assert s == s[..f] + s[f..] && s == s[..f + 1] + s[f + 1..];
    ReachingSplit(s[..f], s[f..], v);
    ReachingSplit(s[..f + 1], s[f + 1..], v);
    if s[f] >= v {
      AllReach(s[f..], v);
    } else {
      NoneReaches(s[..f + 1], v);
    }
  }

  /** The highest value that at least k entries reach. */
  function Threshold(s: seq<nat>, k: nat, top: nat): nat {
    if top == 0 || Reaching(s, top) >= k then top else Threshold(s, k, top - 1)
  }

  function Top(s: seq<nat>): (m: nat)
    ensures forall i :: 0 <= i < |s| ==> s[i] <= m
  {
    if s == [] then 0 else var m := Top(s[..|s| - 1]); if s[|s| - 1] > m then s[|s| - 1] else m
  }

  lemma {:induction false} ReachingFalls(s: seq<nat>, v: nat, w: nat)
    requires v <= w
    ensures Reaching(s, v) >= Reaching(s, w)
    decreases |s|
  {
    if s != [] {
      ReachingFalls(s[..|s| - 1], v, w);
    }
  }

  lemma {:induction false} ThresholdIs(s: seq<nat>, k: nat, top: nat, x: nat)
    requires x <= top && forall v: nat :: v <= x <==> v == 0 || Reaching(s, v) >= k
    ensures Threshold(s, k, top) == x
    decreases top
  {
    if x < top {
      assert !(top <= x);
      ThresholdIs(s, k, top - 1, x);
    }
  }

  // ----- the frontier

  predicate Shaped(m: Matrix) {
    forall j :: 0 <= j < |m| ==> |m[j]| >= |m|
  }

  function Column(m: Matrix, i: nat): (c: seq<nat>)
    requires Shaped(m) && i < |m|
    ensures |c| == |m|
  {
    seq(|m|, j requires 0 <= j < |m| => m[j][i])
  }

  /** The frontier of origin i: the highest index that at least n-f of the n rows reach. */
  function Frontier(m: Matrix, f: nat, i: nat): nat
    requires Shaped(m) && i < |m| && f < |m|
  {
    Threshold(Column(m, i), |m| - f, Top(Column(m, i)))
  }

  /** Entry f of a sorted copy of s is the highest value that |s|-f entries reach. */
  lemma SelectionIsThreshold(s: seq<nat>, t: seq<nat>, f: nat)
    requires IsSorted(t) && multiset(s) == multiset(t) && f < |s|
    ensures |t| == |s| && t[f] == Threshold(s, |s| - f, Top(s))
  {
    assert |t| == |multiset(t)| == |multiset(s)| == |s|;
    forall v: nat ensures v <= t[f] <==> v == 0 || Reaching(s, v) >= |s| - f {
      SortedThreshold(t, f, v);
      ReachingReordered(s, t, v);
    }
    assert t[f] in multiset(s);
    ThresholdIs(s, |s| - f, Top(s), t[f]);
  }

  /** The loop body of exec: copy the column, sort it, take entry f. */
  method SelectFrontier(m: Matrix, f: nat, i: nat) returns (r: nat)
    requires Shaped(m) && i < |m| && f < |m|
    ensures r == Frontier(m, f, i)
  {
    var counts := new nat[|m|];
    for j := 0 to |m|
      invariant forall k :: 0 <= k < j ==> counts[k] == m[k][i]
    {
      counts[j] := m[j][i];
    }
    ghost var column := counts[..];
    assert column == Column(m, i);
    SortIndices(counts);
    SelectionIsThreshold(column, counts[..], f);
    return counts[f];
  }

  lemma {:induction false} ThresholdReached(s: seq<nat>, k: nat, top: nat, v: nat)
    requires k <= |s| && forall i :: 0 <= i < |s| ==> s[i] <= top
    requires k > 0
    ensures v <= Threshold(s, k, top) <==> Reaching(s, v) >= k
    decreases top
  {
    if top == 0 || Reaching(s, top) >= k {
      if v <= top {
        ReachingFalls(s, v, top);
        if top == 0 {
          AllReach(s, v);
        }
      } else {
        NoneReaches(s, v);
      }
    } else if v > top {
      NoneReaches(s, v);
      ThresholdBelow(s, k, top);
    } else {
      BelowTop(s, k, top, v);
    }
  }

  lemma {:induction false} BelowTop(s: seq<nat>, k: nat, top: nat, v: nat)
    requires v <= top && 0 < k <= |s|
    ensures v <= Threshold(s, k, top) <==> Reaching(s, v) >= k
    decreases top
  {
    if top == 0 {
      AllReach(s, 0);
    } else if Reaching(s, top) >= k {
      ReachingFalls(s, v, top);
    } else if v < top {
      BelowTop(s, k, top - 1, v);
    } else {
      ThresholdBelow(s, k, top - 1);
    }
  }

  lemma {:induction false} ThresholdBelow(s: seq<nat>, k: nat, top: nat)
    ensures Threshold(s, k, top) <= top
    decreases top
  {
    if top > 0 && Reaching(s, top) < k {
      ThresholdBelow(s, k, top - 1);
    }
  }

  /** An index is within the frontier exactly if at least n-f rows reach it. */
  lemma FrontierIff(m: Matrix, f: nat, i: nat, v: nat)
    requires Shaped(m) && i < |m| && f < |m|
    ensures v <= Frontier(m, f, i) <==> Reaching(Column(m, i), v) >= |m| - f
  {
    ThresholdReached(Column(m, i), |m| - f, Top(Column(m, i)), v);
  }

  predicate Below(a: Matrix, b: Matrix) {
    && |a| == |b| && Shaped(a) && Shaped(b)
    && forall i, j :: 0 <= j < |a| && 0 <= i < |a| ==> a[j][i] <= b[j][i]
  }

  lemma {:induction false} ReachingGrows(s: seq<nat>, t: seq<nat>, v: nat)
    requires |s| == |t| && forall i :: 0 <= i < |s| ==> s[i] <= t[i]
    ensures Reaching(s, v) <= Reaching(t, v)
    decreases |s|
  {
    if s != [] {
      ReachingGrows(s[..|s| - 1], t[..|t| - 1], v);
    }
  }

  /** Where summaries only grow, the frontier only grows. */
  lemma FrontierMonotone(a: Matrix, b: Matrix, f: nat, i: nat)
    requires Below(a, b) && i < |a| && f < |a|
    ensures Frontier(a, f, i) <= Frontier(b, f, i)
  {
    var v := Frontier(a, f, i);
    FrontierIff(a, f, i, v);
    ReachingGrows(Column(a, i), Column(b, i), v);
    FrontierIff(b, f, i, v);
  }

  lemma {:induction false} ReachingSet(s: seq<nat>, v: nat)
    ensures Reaching(s, v) == |set j | 0 <= j < |s| && s[j] >= v|
    decreases |s|
  {
    var all := set j | 0 <= j < |s| && s[j] >= v;
    if s != [] {
      var n := |s| - 1;
      ReachingSet(s[..n], v);
      var rest := set j | 0 <= j < |s[..n]| && s[..n][j] >= v;
      if s[n] >= v {
        assert all == rest + {n};
      } else {
        assert all == rest;
      }
    }
  }

  /** With at most f rows of faulty origin among n > 2f, a correct replica's summary has reached the frontier,
      and a correct replica's summary has not gone beyond it. */
  lemma CorrectWitnesses(m: Matrix, f: nat, i: nat, faulty: set<nat>) returns (above: nat, below: nat)
    requires Shaped(m) && i < |m| && 2 * f < |m| && |faulty| <= f
    ensures above < |m| && above !in faulty && m[above][i] >= Frontier(m, f, i)
    ensures below < |m| && below !in faulty && m[below][i] <= Frontier(m, f, i)
  {
    var c, v := Column(m, i), Frontier(m, f, i);
    FrontierIff(m, f, i, v);
    ReachingSet(c, v);
    above := CorrectMember(f, faulty, set j | 0 <= j < |c| && c[j] >= v);
    FrontierIff(m, f, i, v + 1);
    ReachingSet(c, v + 1);
    var higher := set j | 0 <= j < |c| && c[j] >= v + 1;
    var rest := PeersBelow(|m|) - higher;
    assert |rest| == |m| - |higher| by {
      assert higher <= PeersBelow(|m|);
    }
    below := CorrectMember(f, faulty, rest);
  }
}
