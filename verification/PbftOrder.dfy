/** The source selects the first acceptable entry in the order in which it meets the messages, and that order
    is not the same at two replicas.  When does a new view that one of them constructs pass the check of another? */
module PbftOrder {
  import opened Quorums
  import opened Sequences
  import opened PbftSelection
  import opened PbftDominance

  /** The same messages in another order. */
  ghost predicate Reordered(s: Messages, t: Messages) {
    multiset(s) == multiset(t)
  }

  lemma LastApart<T>(a: seq<T>, b: seq<T>)
    requires b != []
    ensures var n := |b| - 1; a + b[..n] + [b[n]] == a + b && b[..n] + [b[n]] == b
  {
  }

  lemma {:induction false} CountsConcat(a: Messages, b: Messages, x: Inst)
    ensures DominatedBy(a + b, x) == DominatedBy(a, x) + DominatedBy(b, x) && Support(a + b, x) == Support(a, x) + Support(b, x)
    decreases |b|
  {
    if b == [] {
      assert a + b == a;
    } else {
      hide DominatedBy, Support, SupportIn, Dominated;
      var n := |b| - 1;
      CountsConcat(a, b[..n], x);
      CountsAppend(a + b[..n], b[n], x);
      CountsAppend(b[..n], b[n], x);
      LastApart(a, b);
    }
  }

  /** Both conditions count, so they do not depend on the order. */
  lemma {:induction false} CountsReordered(s: Messages, t: Messages, x: Inst)
    requires Reordered(s, t)
    ensures DominatedBy(s, x) == DominatedBy(t, x) && Support(s, x) == Support(t, x)
    decreases |s|
  {
    if s == [] {
      assert |t| == |multiset(t)| == 0;
    } else {
      var n := |s| - 1;
      assert s[n] in multiset(t);
      var j :| 0 <= j < |t| && t[j] == s[n];
      var u := t[..j] + t[j + 1..];
      Removed(s, t, j);
      CountsReordered(s[..n], u, x);
      CountsConcat(t[..j], t[j + 1..], x);
      CountsConcat(t[..j] + [t[j]], t[j + 1..], x);
      CountsAppend(t[..j], t[j], x);
      CountsAppend(s[..n], s[n], x);
    }
  }

  lemma {:induction false} FirstInReordered(s: Messages, t: Messages, f: nat, pset: seq<Inst>, index: nat)
    requires Reordered(s, t)
    ensures FirstIn(s, f, pset, index) == FirstIn(t, f, pset, index)
    decreases |pset|
  {
    if pset != [] {
      CountsReordered(s, t, pset[0]);
      FirstInReordered(s, t, f, pset[1..], index);
    }
  }

  /** What is selected is the first acceptable entry of one of the messages. */
  lemma {:induction false} SelectedFrom(ms: Messages, f: nat, rest: Messages, index: nat)
    ensures var r := FirstOf(ms, f, rest, index);
      && (r.Some? ==> exists i :: 0 <= i < |rest| && FirstIn(ms, f, rest[i].pset, index) == r)
      && (r.None? ==> forall i :: 0 <= i < |rest| ==> FirstIn(ms, f, rest[i].pset, index).None?)
    decreases |rest|
  {
    if rest != [] {
      SelectedFrom(ms, f, rest[1..], index);
      assert forall i :: 1 <= i < |rest| ==> rest[i] == rest[1..][i - 1];
      var r := FirstOf(ms, f, rest[1..], index);
      if FirstIn(ms, f, rest[0].pset, index).None? && r.Some? {
        var i :| 0 <= i < |rest[1..]| && FirstIn(ms, f, rest[1..][i].pset, index) == r;
        assert rest[i + 1] == rest[1..][i];
      }
    }
  }

  predicate SameChoice(a: Option<Inst>, b: Option<Inst>) {
    (a.Some? <==> b.Some?) && (a.Some? ==> Same(a.value, b.value))
  }

  /** No two messages have different first acceptable entries for the index. */
  predicate FirstsAgree(ms: Messages, f: nat, index: nat) {
    forall i, j :: 0 <= i < |ms| && 0 <= j < |ms| ==>
      var x, y := FirstIn(ms, f, ms[i].pset, index), FirstIn(ms, f, ms[j].pset, index);
      x.Some? && y.Some? ==> Same(x.value, y.value)
  }

  lemma ReorderedIn(s: Messages, t: Messages, j: nat) returns (i: nat)
    requires Reordered(s, t) && j < |t|
    ensures i < |s| && s[i] == t[j]
  {
    assert t[j] in multiset(s);
    i :| 0 <= i < |s| && s[i] == t[j];
  }

  lemma AgreeingFirsts(s: Messages, t: Messages, f: nat, index: nat)
    requires Reordered(s, t) && FirstsAgree(s, f, index)
    ensures SameChoice(Select(s, f, index), Select(t, f, index))
  {
    SelectedFrom(s, f, s, index);
    SelectedFrom(t, f, t, index);
    var a, b := Select(s, f, index), Select(t, f, index);
    if a.Some? {
      var i :| 0 <= i < |s| && FirstIn(s, f, s[i].pset, index) == a;
      var j := ReorderedIn(t, s, i);
      FirstInReordered(s, t, f, s[i].pset, index);
      assert b.Some?;
    }
    if b.Some? {
      var j :| 0 <= j < |t| && FirstIn(t, f, t[j].pset, index) == b;
      var i := ReorderedIn(s, t, j);
      FirstInReordered(s, t, f, t[j].pset, index);
      assert FirstIn(s, f, s[i].pset, index) == b;
    }
  }

  /** The messages with the i-th one first. */
  function Fronted(s: Messages, i: nat): Messages
    requires i < |s|
  {
    [s[i]] + s[..i] + s[i + 1..]
  }

  lemma FrontedSelects(s: Messages, f: nat, index: nat, i: nat)
    requires i < |s| && FirstIn(s, f, s[i].pset, index).Some?
    ensures Reordered(s, Fronted(s, i)) && Select(Fronted(s, i), f, index) == FirstIn(s, f, s[i].pset, index)
  {
    assert s == s[..i] + [s[i]] + s[i + 1..];
    FirstInReordered(s, Fronted(s, i), f, s[i].pset, index);
  }

  /** The choice for an index is the same in every order exactly if the first acceptable entries agree. */
  lemma OrderFreeIff(s: Messages, f: nat, index: nat)
    ensures (forall t :: Reordered(s, t) ==> SameChoice(Select(s, f, index), Select(t, f, index))) <==> FirstsAgree(s, f, index)
  {
    if FirstsAgree(s, f, index) {
      forall t | Reordered(s, t) ensures SameChoice(Select(s, f, index), Select(t, f, index)) {
        AgreeingFirsts(s, t, f, index);
      }
    } else {
      var i, j :| 0 <= i < |s| && 0 <= j < |s| &&
        var x, y := FirstIn(s, f, s[i].pset, index), FirstIn(s, f, s[j].pset, index);
        x.Some? && y.Some? && !Same(x.value, y.value);
      FrontedSelects(s, f, index, i);
      FrontedSelects(s, f, index, j);
      assert Reordered(s, Fronted(s, i)) && Reordered(s, Fronted(s, j));
    }
  }

  // ----- constructing and verifying

  lemma HighestReordered(s: Messages, t: Messages)
    requires Reordered(s, t)
    ensures HighestIndex(s) == HighestIndex(t)
  {
    HighestBelow(s, t);
    HighestBelow(t, s);
  }

  lemma HighestBelow(s: Messages, t: Messages)
    requires Reordered(s, t)
    ensures HighestIndex(s) <= HighestIndex(t)
  {
    if HighestIndex(s) > 0 {
      var i :| 0 <= i < |s| && s[i].high == HighestIndex(s);
      var j := ReorderedIn(t, s, i);
    }
  }

  /** The check passes exactly if the new view holds, for every index, what this replica selects: the same index,
      hash and view. */
  lemma {:induction false} CheckIff(ms: Messages, f: nat, instances: map<nat, Inst>, i: nat, n: nat)
    ensures Check(ms, f, instances, i, n) == Fine <==>
      forall k :: i < k <= n ==>
        Select(ms, f, k).Some?
        && var x, y := Select(ms, f, k).value, Claimed(instances, k); x.index == y.index && x.hash == y.hash && x.view == y.view
    decreases n - i
  {
    if i < n {
      CheckIff(ms, f, instances, i + 1, n);
    }
  }

  ghost predicate Passes(t: Messages, f: nat, instances: map<nat, Inst>) {
    Check(t, f, instances, 0, HighestIndex(t)) == Fine
  }

  /** A constructed new view passes the check of every replica that holds the same messages, in whatever order
      it meets them, exactly if for every index the first acceptable entries agree. */
  lemma VerifiesInEveryOrder(items: seq<Item>, f: nat)
    requires NewView(items, f).Some?
    ensures var ms := MessagesOf(items);
      (forall t :: Reordered(ms, t) ==> Passes(t, f, NewView(items, f).value)) <==>
      (forall k :: 1 <= k <= HighestIndex(ms) ==> FirstsAgree(ms, f, k))
  {
    var ms, instances := MessagesOf(items), NewView(items, f).value;
    var n := HighestIndex(ms);
    forall t | Reordered(ms, t)
      ensures Passes(t, f, instances) <==> forall k :: 1 <= k <= n ==> SameChoice(Select(ms, f, k), Select(t, f, k))
    {
      PassesIff(items, f, t);
    }
    hide Passes, FirstsAgree, SameChoice, NewView;
    if forall t :: Reordered(ms, t) ==> Passes(t, f, instances) {
      forall k | 1 <= k <= n ensures FirstsAgree(ms, f, k) {
        OrderFreeIff(ms, f, k);
      }
    }
    if forall k :: 1 <= k <= n ==> FirstsAgree(ms, f, k) {
      forall t | Reordered(ms, t) ensures Passes(t, f, instances) {
        forall k | 1 <= k <= n ensures SameChoice(Select(ms, f, k), Select(t, f, k)) {
          AgreeingFirsts(ms, t, f, k);
        }
      }
    }
  }

  lemma PassesIff(items: seq<Item>, f: nat, t: Messages)
    requires NewView(items, f).Some? && Reordered(MessagesOf(items), t)
    ensures Passes(t, f, NewView(items, f).value) <==>
      forall k :: 1 <= k <= HighestIndex(MessagesOf(items)) ==> SameChoice(Select(MessagesOf(items), f, k), Select(t, f, k))
  {
    var ms, instances := MessagesOf(items), NewView(items, f).value;
    HighestReordered(ms, t);
    CheckIff(t, f, instances, 0, HighestIndex(t));
    hide Select, HighestIndex, Check;
    assert forall k :: 1 <= k <= HighestIndex(ms) ==> Select(ms, f, k).Some? && Claimed(instances, k) == Select(ms, f, k).value;
  }

  /** In its own order a constructed new view always passes. */
  lemma OwnOrderPasses(items: seq<Item>, f: nat)
    requires NewView(items, f).Some?
    ensures Passes(MessagesOf(items), f, NewView(items, f).value)
  {
    PassesIff(items, f, MessagesOf(items));
  }

  // ----- four messages, one index, f == 1

  const X := Inst(1, 1, 10, 0)
  const Y := Inst(2, 1, 20, 0)

  /** Two senders have prepared X, one nothing; the last one, which is faulty, claims Y and supports it twice. */
  function Four(): Messages {
    [ViewChange(0, 1, [X], [X]), ViewChange(0, 1, [X], [X]), ViewChange(0, 1, [], []), ViewChange(0, 1, [Y], [Y, Y])]
  }

  function FourItems(): seq<Item> {
    seq(4, i requires 0 <= i < 4 => Item(true, Four()[i]))
  }

  lemma BothAccepted()
    ensures Accepted(Four(), X, 1) && Accepted(Four(), Y, 1)
  {
    var s := Four();
    Counts4(s[0], s[1], s[2], s[3], X);
    Counts4(s[0], s[1], s[2], s[3], Y);
    SupportAppend([], X, X);
    SupportAppend([], X, Y);
    SupportTwo(Y, Y, X);
    SupportTwo(Y, Y, Y);
    hide DominatedBy, Support, SupportIn;
    assert s == [s[0], s[1], s[2], s[3]] && [] + [X] == [X];
  }

  /** With one faulty sender of four, what one order selects another refuses: the new view constructed from the
      messages fails the check of a replica that meets the last message first. */
  lemma OrderMatters()
    ensures NewView(FourItems(), 1) == Some(map[1 := X])
    ensures Reordered(MessagesOf(FourItems()), Fronted(Four(), 3))
    ensures Check(Fronted(Four(), 3), 1, map[1 := X], 0, HighestIndex(Fronted(Four(), 3))) == Failed
  {
    hide Accepted, HighestIndex, Select, Four, Fronted, FourItems, NewView, Check, MessagesOf, Reordered;
    SelectsEither();
    Highs();
    FourAgain();
    HighestReordered(Four(), Fronted(Four(), 3));
    OneChosen(FourItems(), 1, X);
    OneRefused(Fronted(Four(), 3), 1, X, Y);
  }

  lemma OneChosen(items: seq<Item>, f: nat, x: Inst)
    requires HighestIndex(MessagesOf(items)) == 1 && Select(MessagesOf(items), f, 1) == Some(x)
    requires forall i :: 0 <= i < |items| ==> items[i].valid
    ensures NewView(items, f) == Some(map[1 := x])
  {
    hide HighestIndex, Select;
    assert Chosen(MessagesOf(items), f, 1) == map[1 := x];
  }

  lemma OneRefused(ms: Messages, f: nat, x: Inst, y: Inst)
    requires HighestIndex(ms) == 1 && Select(ms, f, 1) == Some(y) && !Same(y, x)
    ensures Check(ms, f, map[1 := x], 0, HighestIndex(ms)) == Failed
  {
    hide HighestIndex, Select;
  }

  lemma FourAgain()
    ensures |Four()| == 4 && MessagesOf(FourItems()) == Four() && forall i :: 0 <= i < |FourItems()| ==> FourItems()[i].valid
  {
  }

  lemma SelectsEither()
    ensures Select(Four(), 1, 1) == Some(X)
    ensures Reordered(Four(), Fronted(Four(), 3)) && Select(Fronted(Four(), 3), 1, 1) == Some(Y)
  {
    BothAccepted();
    hide Accepted;
    assert FirstIn(Four(), 1, Four()[0].pset, 1) == Some(X);
    assert FirstIn(Four(), 1, Four()[3].pset, 1) == Some(Y);
    FrontedSelects(Four(), 1, 1, 3);
  }

  lemma Highs()
    ensures HighestIndex(Four()) == 1
  {
    assert Four()[0].high == 1;
  }
}
