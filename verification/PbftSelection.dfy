/** How protocols/pbft/pbft.go picks the instances of a new view out of the view-change messages.  A sequence of
    messages stands for one order in which the source iterates over its map, one message per sender. */
module PbftSelection {
  import opened Quorums

  datatype Inst = Inst(view: nat, index: nat, hash: int, payload: int)

  datatype ViewChange = ViewChange(low: nat, high: nat, pset: seq<Inst>, qset: seq<Inst>)

  type Messages = seq<ViewChange>

  /** InstanceState.Equals. */
  predicate Same(a: Inst, b: Inst) {
    a.index == b.index && a.hash == b.hash && a.view == b.view
  }

  // ----- verifyA1

  /** y does not speak against x: it is from an earlier view, or from the same one with the same hash. */
  predicate Yields(y: Inst, x: Inst) {
    y.view < x.view || (y.view == x.view && y.hash == x.hash)
  }

  /** Nothing in the message speaks against x, whatever index it is for. */
  predicate Dominated(vc: ViewChange, x: Inst) {
    vc.low < x.index && forall i :: 0 <= i < |vc.pset| ==> Yields(vc.pset[i], x)
  }

  function DominatedBy(ms: Messages, x: Inst): nat {
    if ms == [] then 0 else DominatedBy(ms[..|ms| - 1], x) + if Dominated(ms[|ms| - 1], x) then 1 else 0
  }

  predicate A1(ms: Messages, x: Inst, f: nat) {
    DominatedBy(ms, x) >= 2 * f + 1
  }

  // ----- verifyA2

  predicate Supports(y: Inst, x: Inst) {
    y.view >= x.view && y.hash == x.hash
  }

  function SupportIn(qset: seq<Inst>, x: Inst): nat {
    if qset == [] then 0 else SupportIn(qset[..|qset| - 1], x) + if Supports(qset[|qset| - 1], x) then 1 else 0
  }

  /** Entries are counted, not senders. */
  function Support(ms: Messages, x: Inst): nat {
    if ms == [] then 0 else Support(ms[..|ms| - 1], x) + SupportIn(ms[|ms| - 1].qset, x)
  }

  predicate A2(ms: Messages, x: Inst, f: nat) {
    Support(ms, x) >= f + 1
  }

  // ----- getInstanceAtIndex

  predicate Accepted(ms: Messages, x: Inst, f: nat) {
    A1(ms, x, f) && A2(ms, x, f)
  }

  /** The first acceptable entry for an index in one message's PSet. */
  function FirstIn(ms: Messages, f: nat, pset: seq<Inst>, index: nat): Option<Inst> {
    if pset == [] then None
    else if pset[0].index == index && Accepted(ms, pset[0], f) then Some(pset[0])
    else FirstIn(ms, f, pset[1..], index)
  }

  function FirstOf(ms: Messages, f: nat, rest: Messages, index: nat): Option<Inst> {
    if rest == [] then None
    else
      var x := FirstIn(ms, f, rest[0].pset, index);
      if x.Some? then x else FirstOf(ms, f, rest[1..], index)
  }

  function Select(ms: Messages, f: nat, index: nat): Option<Inst> {
    FirstOf(ms, f, ms, index)
  }

  // ----- the methods

  method VerifyA1(x: Inst, ms: Messages, f: nat) returns (ok: bool)
    ensures ok <==> A1(ms, x, f)
  {
    var count := 0;
    for i := 0 to |ms|
      invariant count == DominatedBy(ms[..i], x)
    {
      assert ms[..i + 1][..i] == ms[..i];
      if ms[i].low < x.index {
        var all, j := true, 0;
        while j < |ms[i].pset| && all
          invariant 0 <= j <= |ms[i].pset|
          invariant all <==> forall k :: 0 <= k < j ==> Yields(ms[i].pset[k], x)
        {
          all := Yields(ms[i].pset[j], x);
          j := j + 1;
        }
        if all {
          count := count + 1;
        }
      }
    }
    assert ms[..|ms|] == ms;
    return count >= 2 * f + 1;
  }

  method VerifyA2(x: Inst, ms: Messages, f: nat) returns (ok: bool)
    ensures ok <==> A2(ms, x, f)
  {
    var count := 0;
    for i := 0 to |ms|
      invariant count == Support(ms[..i], x)
    {
      assert ms[..i + 1][..i] == ms[..i];
      var q := ms[i].qset;
      for j := 0 to |q|
        invariant count == Support(ms[..i], x) + SupportIn(q[..j], x)
      {
        assert q[..j + 1][..j] == q[..j];
        if Supports(q[j], x) {
          count := count + 1;
        }
      }
      assert q[..|q|] == q;
    }
    assert ms[..|ms|] == ms;
    return count >= f + 1;
  }

  method GetInstanceAtIndex(ms: Messages, f: nat, index: nat) returns (r: Option<Inst>)
    ensures r == Select(ms, f, index)
  {
    for i := 0 to |ms|
      invariant Select(ms, f, index) == FirstOf(ms, f, ms[i..], index)
    {
      assert ms[i..][0] == ms[i] && ms[i..][1..] == ms[i + 1..];
      var p := ms[i].pset;
      for j := 0 to |p|
        invariant FirstIn(ms, f, p, index) == FirstIn(ms, f, p[j..], index)
      {
        assert p[j..][0] == p[j] && p[j..][1..] == p[j + 1..];
        if p[j].index == index {
          var a1 := VerifyA1(p[j], ms, f);
          var a2 := VerifyA2(p[j], ms, f);
          if a1 && a2 {
            return Some(p[j]);
          }
        }
      }
    }
    return None;
  }

  // ----- the new view

  datatype Item = Item(valid: bool, vc: ViewChange)

  function MessagesOf(items: seq<Item>): Messages {
    seq(|items|, i requires 0 <= i < |items| => items[i].vc)
  }

  function HighestIndex(ms: Messages): (m: nat)
    ensures forall i :: 0 <= i < |ms| ==> ms[i].high <= m
    ensures m == 0 || exists i :: 0 <= i < |ms| && ms[i].high == m
  {
    if ms == [] then 0
    else
      var m := HighestIndex(ms[..|ms| - 1]);
      if m < ms[|ms| - 1].high then ms[|ms| - 1].high else m
  }

  predicate Complete(ms: Messages, f: nat, n: nat) {
    forall i :: 1 <= i <= n ==> Select(ms, f, i).Some?
  }

  function Chosen(ms: Messages, f: nat, n: nat): map<nat, Inst> {
    map i | 1 <= i <= n && Select(ms, f, i).Some? :: Select(ms, f, i).value
  }

  /** constructNewView: all messages have been acknowledged, there is something to carry over, and no hole. */
  function NewView(items: seq<Item>, f: nat): Option<map<nat, Inst>> {
    var ms := MessagesOf(items);
    var n := HighestIndex(ms);
    if (forall i :: 0 <= i < |items| ==> items[i].valid) && n > 0 && Complete(ms, f, n) then Some(Chosen(ms, f, n)) else None
  }

  method ConstructNewView(items: seq<Item>, f: nat) returns (r: Option<map<nat, Inst>>)
    ensures r == NewView(items, f)
  {
    var ms: Messages, maxIdx := [], 0;
    for i := 0 to |items|
      invariant forall k :: 0 <= k < i ==> items[k].valid
      invariant ms == MessagesOf(items[..i]) && maxIdx == HighestIndex(ms)
    {
      if !items[i].valid {
        return None;
      }
      ghost var before := ms;
      ms := ms + [items[i].vc];
      assert ms[..|ms| - 1] == before;
      if maxIdx < items[i].vc.high {
        maxIdx := items[i].vc.high;
      }
    }
    assert items[..|items|] == items;
    r := Fill(ms, f, maxIdx);
    if maxIdx == 0 {
      r := None;
    }
  }

  /** One instance for every index up to maxIdx, or nothing. */
  method Fill(ms: Messages, f: nat, maxIdx: nat) returns (r: Option<map<nat, Inst>>)
    ensures r == if Complete(ms, f, maxIdx) then Some(Chosen(ms, f, maxIdx)) else None
  {
    var instances, idx := map[], 1;
    while idx <= maxIdx
      invariant 1 <= idx <= maxIdx + 1
      invariant Complete(ms, f, idx - 1) && instances == Chosen(ms, f, idx - 1)
    {
      var inst := GetInstanceAtIndex(ms, f, idx);
      if inst.None? {
        return None;
      }
      instances := instances[idx := inst.value];
      idx := idx + 1;
    }
    return Some(instances);
  }

  datatype Verdict = Fine | NotPossible | Failed

  /** A lookup of an index that the new view does not mention gives the zero entry. */
  function Claimed(instances: map<nat, Inst>, i: nat): Inst {
    if i in instances then instances[i] else Inst(0, 0, 0, 0)
  }

  /** verifyNewView, from index i on: its own selection, compared with the new view's. */
  function Check(ms: Messages, f: nat, instances: map<nat, Inst>, i: nat, n: nat): Verdict
    decreases n - i
  {
    if i >= n then Fine
    else if Select(ms, f, i + 1).None? then NotPossible
    else if !Same(Select(ms, f, i + 1).value, Claimed(instances, i + 1)) then Failed
    else Check(ms, f, instances, i + 1, n)
  }

  /** The messages that verifyNewView looks at. */
  function ValidOnly(items: seq<Item>): Messages {
    if items == [] then []
    else ValidOnly(items[..|items| - 1]) + if items[|items| - 1].valid then [items[|items| - 1].vc] else []
  }

  method VerifyNewView(items: seq<Item>, f: nat, instances: map<nat, Inst>) returns (v: Verdict)
    ensures v == Check(ValidOnly(items), f, instances, 0, HighestIndex(ValidOnly(items)))
  {
    var ms: Messages, maxIdx := [], 0;
    for i := 0 to |items|
      invariant ms == ValidOnly(items[..i]) && maxIdx == HighestIndex(ms)
    {
      assert items[..i + 1][..i] == items[..i];
      if items[i].valid {
        ghost var before := ms;
        ms := ms + [items[i].vc];
        assert ms[..|ms| - 1] == before;
        if maxIdx < items[i].vc.high {
          maxIdx := items[i].vc.high;
        }
      }
    }
    assert items[..|items|] == items;
    for i := 0 to maxIdx
      invariant Check(ms, f, instances, 0, maxIdx) == Check(ms, f, instances, i, maxIdx)
    {
      var inst := GetInstanceAtIndex(ms, f, i + 1);
      if inst.None? {
        return NotPossible;
      } else if !Same(inst.value, Claimed(instances, i + 1)) {
        return Failed;
      }
    }
    return Fine;
  }
}
