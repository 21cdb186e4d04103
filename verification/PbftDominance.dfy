/** What PBFT's selection guarantees, and where it depends on the order of iteration. */
module PbftDominance {
  import opened Quorums
  import opened PbftSelection

  // ----- what is selected

  predicate Reports(vc: ViewChange, x: Inst) {
    exists i :: 0 <= i < |vc.pset| && vc.pset[i] == x
  }

  /** x can be selected for an index: some message reports it and both conditions hold. */
  ghost predicate Eligible(ms: Messages, f: nat, index: nat, x: Inst) {
    x.index == index && Accepted(ms, x, f) && exists i :: 0 <= i < |ms| && Reports(ms[i], x)
  }

  lemma {:induction false} FirstInFinds(ms: Messages, f: nat, pset: seq<Inst>, index: nat)
    ensures var r := FirstIn(ms, f, pset, index);
      && (r.Some? ==> r.value.index == index && Accepted(ms, r.value, f) && r.value in pset)
      && (r.None? ==> forall x :: x in pset && x.index == index ==> !Accepted(ms, x, f))
    decreases |pset|
  {
    if pset != [] {
      FirstInFinds(ms, f, pset[1..], index);
      assert forall x :: x in pset ==> x == pset[0] || x in pset[1..];
    }
  }

  lemma {:induction false} FirstOfFinds(ms: Messages, f: nat, rest: Messages, index: nat)
    ensures var r := FirstOf(ms, f, rest, index);
      && (r.Some? ==> r.value.index == index && Accepted(ms, r.value, f) && exists i :: 0 <= i < |rest| && r.value in rest[i].pset)
      && (r.None? ==> forall i, x :: 0 <= i < |rest| && x in rest[i].pset && x.index == index ==> !Accepted(ms, x, f))
    decreases |rest|
  {
    if rest != [] {
      FirstInFinds(ms, f, rest[0].pset, index);
      FirstOfFinds(ms, f, rest[1..], index);
      var r := FirstOf(ms, f, rest[1..], index);
      if r.Some? {
        var i :| 0 <= i < |rest[1..]| && r.value in rest[1..][i].pset;
        assert rest[i + 1] == rest[1..][i];
      }
      assert forall i :: 1 <= i < |rest| ==> rest[i] == rest[1..][i - 1];
    }
  }

  /** An entry is selected for an index exactly if one is eligible, and then it is an eligible one. */
  lemma SelectsEligible(ms: Messages, f: nat, index: nat)
    ensures var r := Select(ms, f, index);
      && (r.Some? ==> Eligible(ms, f, index, r.value))
      && (r.None? ==> forall x :: !Eligible(ms, f, index, x))
  {
    FirstOfFinds(ms, f, ms, index);
    var r := Select(ms, f, index);
    if r.Some? {
      var i :| 0 <= i < |ms| && r.value in ms[i].pset;
      assert Reports(ms[i], r.value);
    }
  }

  // ----- dominance

  /** The positions of the messages that yield to x. */
  function Yielding(ms: Messages, x: Inst): set<nat> {
    set i | 0 <= i < |ms| && Dominated(ms[i], x)
  }

  lemma {:induction false} CountsYielding(ms: Messages, x: Inst)
    ensures DominatedBy(ms, x) == |Yielding(ms, x)|
  {
    if ms != [] {
      var n := |ms| - 1;
      CountsYielding(ms[..n], x);
      YieldingLast(ms, x);
    }
  }

  lemma YieldingLast(ms: Messages, x: Inst)
    requires ms != []
    ensures var n := |ms| - 1;
      Yielding(ms, x) == Yielding(ms[..n], x) + (if Dominated(ms[n], x) then {n} else {}) && n !in Yielding(ms[..n], x)
  {
  }

  /** The message reports, for some index, hash d prepared in view v. */
  predicate ReportsPrepared(vc: ViewChange, v: nat, d: int) {
    exists i :: 0 <= i < |vc.pset| && vc.pset[i].view == v && vc.pset[i].hash == d
  }

  /** The positions of the messages that report hash d prepared in view v, for whatever indices. */
  function Reporters(ms: Messages, v: nat, d: int): set<nat> {
    set i | 0 <= i < |ms| && ReportsPrepared(ms[i], v, d)
  }

  /** Dominance: if f+1 of at most 3f+1 messages report (v, d) for the index, or for any other index, whatever is
      selected for the index is from a later view, or from view v with hash d. */
  lemma Dominance(ms: Messages, f: nat, index: nat, v: nat, d: int)
    requires |ms| <= 3 * f + 1 && |Reporters(ms, v, d)| >= f + 1
    ensures var r := Select(ms, f, index);
      r.Some? ==> r.value.index == index && (r.value.view > v || (r.value.view == v && r.value.hash == d))
  {
    var r := Select(ms, f, index);
    if r.Some? {
      SelectsEligible(ms, f, index);
      var x := r.value;
      CountsYielding(ms, x);
      Overlap(PeersBelow(|ms|), Yielding(ms, x), Reporters(ms, v, d));
      var i :| i in Yielding(ms, x) * Reporters(ms, v, d);
      var j :| 0 <= j < |ms[i].pset| && ms[i].pset[j].view == v && ms[i].pset[j].hash == d;
      assert Yields(ms[i].pset[j], x);
    }
  }

  // ----- condition A1 looks at every index

  predicate NoneAbove(ms: Messages, v: nat) {
    forall i :: 0 <= i < |ms| ==> forall j :: 0 <= j < |ms[i].pset| ==> ms[i].pset[j].view <= v
  }

  /** Two commands that f+1 messages each report from the highest view block each other, also where they are
      prepared for different indices: nothing is selected for any index, and there is no new view. */
  lemma TwoCommandsBlock(ms: Messages, f: nat, v: nat, d: int, e: int, index: nat)
    requires |ms| <= 3 * f + 1 && d != e && |Reporters(ms, v, d)| >= f + 1 && |Reporters(ms, v, e)| >= f + 1
    requires NoneAbove(ms, v)
    ensures Select(ms, f, index).None?
  {
    Dominance(ms, f, index, v, d);
    Dominance(ms, f, index, v, e);
    SelectsEligible(ms, f, index);
  }

  lemma NoNewView(items: seq<Item>, f: nat, v: nat, d: int, e: int)
    requires |items| <= 3 * f + 1 && d != e && NoneAbove(MessagesOf(items), v)
    requires |Reporters(MessagesOf(items), v, d)| >= f + 1 && |Reporters(MessagesOf(items), v, e)| >= f + 1
    ensures NewView(items, f).None?
  {
    TwoCommandsBlock(MessagesOf(items), f, v, d, e, 1);
  }

  predicate OthersYield(vc: ViewChange, x: Inst) {
    forall i :: 0 <= i < |vc.pset| && vc.pset[i].index != x.index ==> Yields(vc.pset[i], x)
  }

  /** The messages that start below x's index and whose entries for other indices yield to x. */
  function Consenting(ms: Messages, x: Inst): set<nat> {
    set i | 0 <= i < |ms| && ms[i].low < x.index && OthersYield(ms[i], x)
  }

  /** Nothing but x is reported for x's index. */
  predicate OnlyAt(ms: Messages, x: Inst) {
    forall i :: 0 <= i < |ms| ==> forall j :: 0 <= j < |ms[i].pset| && ms[i].pset[j].index == x.index ==> ms[i].pset[j] == x
  }

  /** Where every entry for an index is x, and x has the support of condition A2, the index is filled if and only
      if 2f+1 messages start below it and have no entry for another index that speaks against x. */
  lemma PreparedIndexIff(ms: Messages, f: nat, x: Inst)
    requires OnlyAt(ms, x)
    requires A2(ms, x, f) && exists i :: 0 <= i < |ms| && Reports(ms[i], x)
    ensures Select(ms, f, x.index).Some? <==> |Consenting(ms, x)| >= 2 * f + 1
    ensures Select(ms, f, x.index).Some? ==> Select(ms, f, x.index) == Some(x)
  {
    SelectsEligible(ms, f, x.index);
    CountsYielding(ms, x);
    assert Yielding(ms, x) == Consenting(ms, x);
    hide A2, Select;
    assert Eligible(ms, f, x.index, x) <==> A1(ms, x, f);
    if Select(ms, f, x.index).Some? {
      OnlyEntry(ms, f, x, Select(ms, f, x.index).value);
    }
  }

  lemma OnlyEntry(ms: Messages, f: nat, x: Inst, y: Inst)
    requires OnlyAt(ms, x)
    requires Eligible(ms, f, x.index, y)
    ensures y == x
  {
  }

  /** So an index prepared by everybody may not be selected: with index 1 prepared in view 1 and index 2 in view 2
      by all of four replicas, nothing is found for index 1. */
  lemma OlderIndexIsLost()
    ensures var x, y := Inst(1, 1, 10, 0), Inst(2, 2, 20, 0);
      var vc := ViewChange(0, 2, [x, y], [x, y]);
      var ms := [vc, vc, vc, vc];
      && x in vc.pset && A2(ms, x, 1) && Select(ms, 1, 1).None? && Select(ms, 1, 2) == Some(y)
  {
    var x, y := Inst(1, 1, 10, 0), Inst(2, 2, 20, 0);
    var vc := ViewChange(0, 2, [x, y], [x, y]);
    var ms := [vc, vc, vc, vc];
    BothReported(vc, x, y);
    hide A1, A2, Select;
    OnlyTwo(ms, vc, x, y);
    SelectsEligible(ms, 1, 1);
    SelectsEligible(ms, 1, 2);
    assert Eligible(ms, 1, 2, y);
  }

  lemma BothReported(vc: ViewChange, x: Inst, y: Inst)
    requires x == Inst(1, 1, 10, 0) && y == Inst(2, 2, 20, 0) && vc == ViewChange(0, 2, [x, y], [x, y])
    ensures var ms := [vc, vc, vc, vc]; !A1(ms, x, 1) && A1(ms, y, 1) && A2(ms, x, 1) && A2(ms, y, 1)
  {
    assert vc.pset[1] == y && !Yields(y, x) && !Dominated(vc, x) && Dominated(vc, y);
    Counts4(vc, vc, vc, vc, x);
    Counts4(vc, vc, vc, vc, y);
    SupportTwo(x, y, x);
    SupportTwo(x, y, y);
    hide DominatedBy, Support, SupportIn;
  }

  lemma OnlyTwo(ms: Messages, vc: ViewChange, x: Inst, y: Inst)
    requires vc.pset == [x, y] && ms == [vc, vc, vc, vc]
    ensures Reports(ms[0], y) && forall i, z :: 0 <= i < |ms| && Reports(ms[i], z) ==> z == x || z == y
  {
    assert vc.pset[1] == y;
  }

  lemma SupportAppend(q: seq<Inst>, y: Inst, x: Inst)
    ensures SupportIn(q + [y], x) == SupportIn(q, x) + if Supports(y, x) then 1 else 0
  {
  }

  lemma SupportTwo(x: Inst, y: Inst, z: Inst)
    ensures SupportIn([x, y], z) == (if Supports(x, z) then 1 else 0) + (if Supports(y, z) then 1 else 0)
  {
    SupportAppend([], x, z);
    SupportAppend([x], y, z);
    assert [] + [x] == [x] && [x] + [y] == [x, y];
  }

  lemma CountsAppend(ms: Messages, vc: ViewChange, x: Inst)
    ensures DominatedBy(ms + [vc], x) == DominatedBy(ms, x) + if Dominated(vc, x) then 1 else 0
    ensures Support(ms + [vc], x) == Support(ms, x) + SupportIn(vc.qset, x)
  {
  }

  lemma Counts4(a: ViewChange, b: ViewChange, c: ViewChange, d: ViewChange, x: Inst)
    ensures var ms := [a, b, c, d];
      && DominatedBy(ms, x) == (if Dominated(a, x) then 1 else 0) + (if Dominated(b, x) then 1 else 0)
                               + (if Dominated(c, x) then 1 else 0) + (if Dominated(d, x) then 1 else 0)
      && Support(ms, x) == SupportIn(a.qset, x) + SupportIn(b.qset, x) + SupportIn(c.qset, x) + SupportIn(d.qset, x)
  {
    CountsAppend([], a, x);
    CountsAppend([a], b, x);
    CountsAppend([a, b], c, x);
    CountsAppend([a, b, c], d, x);
    assert [] + [a] == [a] && [a] + [b] == [a, b] && [a, b] + [c] == [a, b, c] && [a, b, c] + [d] == [a, b, c, d];
  }

  // ----- condition A2 counts entries

  function SupportingSenders(ms: Messages, x: Inst): set<nat> {
    set i | 0 <= i < |ms| && SupportIn(ms[i].qset, x) >= 1
  }

  /** f+1 senders are enough, and needed if no QSet supports x twice. */
  lemma {:induction false} SupportCounts(ms: Messages, x: Inst)
    ensures Support(ms, x) >= |SupportingSenders(ms, x)|
    ensures (forall i :: 0 <= i < |ms| ==> SupportIn(ms[i].qset, x) <= 1) ==> Support(ms, x) == |SupportingSenders(ms, x)|
  {
    if ms != [] {
      var n := |ms| - 1;
      SupportCounts(ms[..n], x);
      assert forall i :: 0 <= i < n ==> ms[..n][i] == ms[i];
      if SupportIn(ms[n].qset, x) >= 1 {
        assert SupportingSenders(ms, x) == SupportingSenders(ms[..n], x) + {n};
      } else {
        assert SupportingSenders(ms, x) == SupportingSenders(ms[..n], x);
      }
    }
  }

  lemma {:induction false} DoubleCounts(ms: Messages, x: Inst)
    ensures (exists i :: 0 <= i < |ms| && SupportIn(ms[i].qset, x) > 1) ==> Support(ms, x) > |SupportingSenders(ms, x)|
  {
    if ms != [] {
      var n := |ms| - 1;
      DoubleCounts(ms[..n], x);
      SupportCounts(ms[..n], x);
      assert forall i :: 0 <= i < n ==> ms[..n][i] == ms[i];
      assert SupportingSenders(ms, x) == SupportingSenders(ms[..n], x) + (if SupportIn(ms[n].qset, x) >= 1 then {n} else {});
    }
  }

  /** A2 means f+1 senders, for every f, if and only if no QSet supports x twice. */
  lemma A2MeansSendersIff(ms: Messages, x: Inst)
    ensures (forall f: nat :: A2(ms, x, f) <==> |SupportingSenders(ms, x)| >= f + 1) <==>
      (forall i :: 0 <= i < |ms| ==> SupportIn(ms[i].qset, x) <= 1)
  {
    SupportCounts(ms, x);
    DoubleCounts(ms, x);
    if exists i :: 0 <= i < |ms| && SupportIn(ms[i].qset, x) > 1 {
      assert A2(ms, x, Support(ms, x) - 1);
    }
  }

  /** One sender can be enough: Supports ignores the index, so a QSet that holds one command under two indices,
      as a correct replica's may, is counted twice. */
  lemma OneSenderSuffices()
    ensures var x := Inst(1, 1, 10, 0);
      var ms := [ViewChange(0, 2, [x], [x, x.(index := 2)])];
      A2(ms, x, 1) && |SupportingSenders(ms, x)| == 1
  {
    var x := Inst(1, 1, 10, 0);
    var ms := [ViewChange(0, 2, [x], [x, x.(index := 2)])];
    SupportTwo(x, x.(index := 2), x);
    CountsAppend([], ms[0], x);
    assert [] + [ms[0]] == ms;
    assert SupportingSenders(ms, x) == {0};
  }

  /** What the second condition counts is there: an entry has support if and only if some message holds its hash in
      its QSet, in its view or a later one. */
  lemma {:induction false} SupportIff(ms: Messages, x: Inst)
    ensures Support(ms, x) > 0 <==>
      exists i, j :: 0 <= i < |ms| && 0 <= j < |ms[i].qset| && ms[i].qset[j].hash == x.hash && ms[i].qset[j].view >= x.view
    decreases |ms|
  {
    if ms != [] {
      var n := |ms| - 1;
      SupportIff(ms[..n], x);
      SupportInIff(ms[n].qset, x);
      if exists i, j :: 0 <= i < |ms| && 0 <= j < |ms[i].qset| && ms[i].qset[j].hash == x.hash && ms[i].qset[j].view >= x.view {
        var i, j :| 0 <= i < |ms| && 0 <= j < |ms[i].qset| && ms[i].qset[j].hash == x.hash && ms[i].qset[j].view >= x.view;
        assert i < n ==> ms[..n][i].qset[j] == ms[i].qset[j];
      }
    }
  }

  lemma {:induction false} SupportInIff(qset: seq<Inst>, x: Inst)
    ensures SupportIn(qset, x) > 0 <==> exists j :: 0 <= j < |qset| && qset[j].hash == x.hash && qset[j].view >= x.view
    decreases |qset|
  {
    if qset != [] {
      SupportInIff(qset[..|qset| - 1], x);
    }
  }
}
