/** createViewTransition of protocols/hybster/viewchange.go: prepares are sorted by order, moved to the new view in
    place, and re-signed once per order. */
module Hybster {
  import opened Quorums

  /** What a prepare says besides its view. */
  datatype Entry = Entry(order: nat, payload: int)

  /** The bytes that are signed. */
  datatype Content = Content(view: nat, entry: Entry)

  class Message {
    var view: nat
    const entry: Entry

    constructor (view: nat, entry: Entry)
      ensures this.view == view && this.entry == entry
    {
      this.view, this.entry := view, entry;
    }
  }

  datatype Pkg = Pkg(pr: Message, content: Content, from: PeerID)

  predicate Sorted(s: seq<Entry>) {
    forall i, j :: 0 <= i < j < |s| ==> s[i].order <= s[j].order
  }

  predicate Increasing(s: seq<Entry>) {
    forall i, j :: 0 <= i < j < |s| ==> s[i].order < s[j].order
  }

  function Entries(pkgs: seq<Pkg>): seq<Entry> {
    seq(|pkgs|, i requires 0 <= i < |pkgs| => pkgs[i].pr.entry)
  }

  /** Keep an entry unless the order of the last one kept is the same. */
  function Dedup(s: seq<Entry>): seq<Entry> {
    if s == [] then []
    else
      var d, e := Dedup(s[..|s| - 1]), s[|s| - 1];
      if d != [] && d[|d| - 1].order == e.order then d else d + [e]
  }

  // ----- the method

  /** sort.Search on the output: the first position whose order is at least the one sought. */
  method Search(out: seq<Entry>, order: nat) returns (idx: nat)
    requires Increasing(out)
    ensures idx <= |out|
    ensures forall i :: 0 <= i < idx ==> out[i].order < order
    ensures forall i :: idx <= i < |out| ==> out[i].order >= order
  {
    var i, j := 0, |out|;
    while i < j
      invariant 0 <= i <= j <= |out|
      invariant forall k :: 0 <= k < i ==> out[k].order < order
      invariant forall k :: j <= k < |out| ==> out[k].order >= order
    {
      var h := (i + j) / 2;
      if out[h].order < order {
        i := h + 1;
      } else {
        j := h;
      }
    }
    return i;
  }

  predicate InOrder(s: seq<Pkg>) {
    forall i, j :: 0 <= i < j < |s| ==> s[i].pr.entry.order <= s[j].pr.entry.order
  }

  /** sort.Slice by order: among equal orders any arrangement may come out; this one keeps the one it finds. */
  method SortByOrder(a: array<Pkg>)
    modifies a
    ensures InOrder(a[..]) && multiset(a[..]) == multiset(old(a[..]))
  {
    var i := 0;
    while i < a.Length
      invariant 0 <= i <= a.Length
      invariant forall x, y :: 0 <= x < y < i ==> a[x].pr.entry.order <= a[y].pr.entry.order
      invariant multiset(a[..]) == multiset(old(a[..]))
    {
      SinkInto(a, i);
      i := i + 1;
    }
  }

  method SinkInto(a: array<Pkg>, n: nat)
    requires n < a.Length && forall x, y :: 0 <= x < y < n ==> a[x].pr.entry.order <= a[y].pr.entry.order
    modifies a
    ensures forall x, y :: 0 <= x < y <= n ==> a[x].pr.entry.order <= a[y].pr.entry.order
    ensures multiset(a[..]) == multiset(old(a[..]))
  {
    var j := n;
    while j > 0 && a[j].pr.entry.order < a[j - 1].pr.entry.order
      invariant 0 <= j <= n
      invariant forall x, y :: 0 <= x < y <= n && y != j ==> a[x].pr.entry.order <= a[y].pr.entry.order
      invariant multiset(a[..]) == multiset(old(a[..]))
    {
      SwapDown(a, j);
      j := j - 1;
    }
  }

  method SwapDown(a: array<Pkg>, j: nat)
    requires 0 < j < a.Length
    modifies a
    ensures a[j] == old(a[j - 1]) && a[j - 1] == old(a[j]) && forall k :: 0 <= k < a.Length && k != j && k != j - 1 ==> a[k] == old(a[k])
    ensures multiset(a[..]) == multiset(old(a[..]))
  {
    a[j], a[j - 1] := a[j - 1], a[j];
  }

  /** What the output packages are made of. */
  ghost predicate Resigned(out: seq<Pkg>, pkgs: seq<Pkg>, self: PeerID, toView: nat) {
    forall i :: 0 <= i < |out| ==>
      out[i].content == Content(toView, out[i].pr.entry) && out[i].from == self && exists k :: 0 <= k < |pkgs| && pkgs[k].pr == out[i].pr
  }

  /** Every message of the input is moved to toView; the output holds, in strictly rising order, one re-signed
      message for each order of the input. */
  method CreateViewTransition(self: PeerID, toView: nat, pkgs: array<Pkg>) returns (out: seq<Pkg>)
    modifies pkgs, set m | m in pkgs[..] :: m.pr
    ensures multiset(pkgs[..]) == multiset(old(pkgs[..])) && Sorted(Entries(pkgs[..]))
    ensures Entries(out) == Dedup(Entries(pkgs[..]))
    ensures forall i :: 0 <= i < pkgs.Length ==> pkgs[i].pr.view == toView
    ensures Resigned(out, pkgs[..], self, toView)
  {
    SortByOrder(pkgs);
    var sorted := pkgs[..];
    SameMembers(sorted, old(pkgs[..]));
    assert Sorted(Entries(sorted));
    out := Transfer(self, toView, sorted);
  }

  /** The loop over the sorted packages. */
  method Transfer(self: PeerID, toView: nat, pkgs: seq<Pkg>) returns (out: seq<Pkg>)
    requires Sorted(Entries(pkgs))
    modifies set m | m in pkgs :: m.pr
    ensures Entries(out) == Dedup(Entries(pkgs))
    ensures forall i :: 0 <= i < |pkgs| ==> pkgs[i].pr.view == toView
    ensures Resigned(out, pkgs, self, toView)
  {
    out := [];
    ghost var es := Entries(pkgs);
    for n := 0 to |pkgs|
      invariant Entries(out) == Dedup(es[..n])
      invariant forall k :: 0 <= k < n ==> pkgs[k].pr.view == toView
      invariant Resigned(out, pkgs, self, toView)
    {
      KeepsNext(es, n);
      hide Dedup, Resigned, Increasing, Sorted;
      out := AddOnce(out, pkgs, n, self, toView);
      MoveTo(pkgs, n, toView);
    }
    assert es[..|pkgs|] == es;
  }

  /** pr.View = toView, also for whoever else refers to the message. */
  method MoveTo(pkgs: seq<Pkg>, n: nat, toView: nat)
    requires n < |pkgs| && forall k :: 0 <= k < n ==> pkgs[k].pr.view == toView
    modifies pkgs[n].pr
    ensures forall k :: 0 <= k <= n ==> pkgs[k].pr.view == toView
  {
    pkgs[n].pr.view := toView;
  }

  /** Sign package n again unless its order is in the output. */
  method AddOnce(out: seq<Pkg>, pkgs: seq<Pkg>, n: nat, self: PeerID, toView: nat) returns (more: seq<Pkg>)
    requires n < |pkgs| && Resigned(out, pkgs, self, toView)
    requires Increasing(Entries(out)) && forall i :: 0 <= i < |Entries(out)| ==> Entries(out)[i].order <= Entries(pkgs)[n].order
    ensures var d, e := Entries(out), Entries(pkgs)[n];
      Entries(more) == (if d != [] && d[|d| - 1].order == e.order then d else d + [e]) && Resigned(more, pkgs, self, toView)
  {
    var pr, kept := pkgs[n].pr, Entries(out);
    var idx := Search(kept, pr.entry.order);
    more := out;
    if !(idx < |kept| && kept[idx].order == pr.entry.order) {
      more := out + [Pkg(pr, Content(toView, pr.entry), self)];
      MoreResigned(out, pkgs, self, toView, n);
    }
  }

  lemma MoreResigned(out: seq<Pkg>, pkgs: seq<Pkg>, self: PeerID, toView: nat, n: nat)
    requires Resigned(out, pkgs, self, toView) && n < |pkgs|
    ensures var more := out + [Pkg(pkgs[n].pr, Content(toView, pkgs[n].pr.entry), self)];
      Resigned(more, pkgs, self, toView) && Entries(more) == Entries(out) + [pkgs[n].pr.entry]
  {
  }

  /** In the partial output an order can only be met again at its end. */
  lemma KeepsNext(s: seq<Entry>, n: nat)
    requires Sorted(s) && n < |s|
    ensures var d, e := Dedup(s[..n]), s[n];
      && Increasing(d) && (forall i :: 0 <= i < |d| ==> d[i].order <= e.order)
      && Dedup(s[..n + 1]) == if d != [] && d[|d| - 1].order == e.order then d else d + [e]
  {
    assert s[..n + 1][..n] == s[..n];
    DedupIncreases(s[..n]);
    var d := Dedup(s[..n]);
    forall i | 0 <= i < |d| ensures d[i].order <= s[n].order {
      assert d[i] in s[..n];
    }
  }

  lemma SameMembers(s: seq<Pkg>, t: seq<Pkg>)
    requires multiset(s) == multiset(t)
    ensures forall m :: m in s <==> m in t
  {
    forall m ensures m in s <==> m in t {
      assert m in multiset(s) <==> m in multiset(t);
    }
  }

  // ----- what is kept

  /** The kept entries rise strictly; so the partial output stays sorted, which the binary search relies on. */
  lemma {:induction false} DedupIncreases(s: seq<Entry>)
    requires Sorted(s)
    ensures Increasing(Dedup(s)) && (s != [] ==> Dedup(s) != [] && Dedup(s)[|Dedup(s)| - 1].order == s[|s| - 1].order)
    ensures forall e :: e in Dedup(s) ==> e in s
  {
    if s != [] {
      var n := |s| - 1;
      DedupIncreases(s[..n]);
      var d := Dedup(s[..n]);
      if n > 0 {
        assert d[|d| - 1].order == s[..n][n - 1].order <= s[n].order;
      }
    }
  }

  function Orders(s: seq<Entry>): set<nat> {
    set e | e in s :: e.order
  }

  /** Exactly the orders of the input are kept. */
  lemma {:induction false} DedupOrders(s: seq<Entry>)
    ensures Orders(Dedup(s)) == Orders(s)
  {
    if s != [] {
      var n := |s| - 1;
      DedupOrders(s[..n]);
      assert s == s[..n] + [s[n]];
      assert Orders(s) == Orders(s[..n]) + {s[n].order};
      var d := Dedup(s[..n]);
      if d != [] && d[|d| - 1].order == s[n].order {
        assert d[|d| - 1] in d;
      } else {
        assert Orders(d + [s[n]]) == Orders(d) + {s[n].order};
      }
    }
  }

  /** Of the entries of one order the first is kept. */
  lemma {:induction false} DedupKeepsFirst(s: seq<Entry>, k: nat)
    requires Sorted(s) && k < |s| && (k == 0 || s[k - 1].order < s[k].order)
    ensures s[k] in Dedup(s)
  {
    var n := |s| - 1;
    DedupIncreases(s[..n]);
    var d := Dedup(s[..n]);
    if k < n {
      DedupKeepsFirst(s[..n], k);
    } else if n > 0 {
      assert d[|d| - 1].order == s[..n][n - 1].order;
    }
  }

  /** Two sorted arrangements of the same entries keep the same orders, in the same sequence. */
  lemma SameOrderSequence(s: seq<Entry>, t: seq<Entry>)
    requires Sorted(s) && Sorted(t) && multiset(s) == multiset(t)
    ensures |Dedup(s)| == |Dedup(t)| && forall i :: 0 <= i < |Dedup(s)| ==> Dedup(s)[i].order == Dedup(t)[i].order
  {
    DedupIncreases(s);
    DedupIncreases(t);
    DedupOrders(s);
    DedupOrders(t);
    assert Orders(s) == Orders(t) by {
      forall e ensures e in s <==> e in t {
        assert e in multiset(s) <==> e in multiset(t);
      }
    }
    IncreasingUnique(Dedup(s), Dedup(t));
  }

  lemma {:induction false} IncreasingUnique(s: seq<Entry>, t: seq<Entry>)
    requires Increasing(s) && Increasing(t) && Orders(s) == Orders(t)
    ensures |s| == |t| && forall i :: 0 <= i < |s| ==> s[i].order == t[i].order
    decreases |s|
  {
    assert t != [] ==> t[0].order in Orders(t);
    assert s != [] ==> s[0].order in Orders(s);
    if s != [] {
      var a, b := s[|s| - 1], t[|t| - 1];
      assert a.order in Orders(t) && b.order in Orders(s);
      assert a.order == b.order;
      LastGone(s);
      LastGone(t);
      IncreasingUnique(s[..|s| - 1], t[..|t| - 1]);
    }
  }

  lemma LastGone(s: seq<Entry>)
    requires Increasing(s) && s != []
    ensures Orders(s[..|s| - 1]) == Orders(s) - {s[|s| - 1].order}
  {
  }

  /** No order occurs with two payloads. */
  predicate Unambiguous(s: seq<Entry>) {
    forall i, j :: 0 <= i < |s| && 0 <= j < |s| && s[i].order == s[j].order ==> s[i] == s[j]
  }

  /** sort.Slice is not stable: what is kept is the same for every sorted arrangement exactly if no order occurs
      with two payloads. */
  lemma ArrangementFreeIff(s: seq<Entry>)
    requires Sorted(s)
    ensures (forall t :: Sorted(t) && multiset(t) == multiset(s) ==> Dedup(t) == Dedup(s)) <==> Unambiguous(s)
  {
    if Unambiguous(s) {
      forall t | Sorted(t) && multiset(t) == multiset(s) ensures Dedup(t) == Dedup(s) {
        UnambiguousSame(s, t);
      }
    } else {
      var t := OtherArrangement(s);
    }
  }

  lemma UnambiguousSame(s: seq<Entry>, t: seq<Entry>)
    requires Sorted(s) && Sorted(t) && multiset(t) == multiset(s) && Unambiguous(s)
    ensures Dedup(t) == Dedup(s)
  {
    SameOrderSequence(s, t);
    DedupIncreases(s);
    DedupIncreases(t);
    hide Dedup, Unambiguous, Increasing, Sorted;
    var d, e := Dedup(s), Dedup(t);
    forall i | 0 <= i < |d| ensures d[i] == e[i] {
      assert d[i] in d && e[i] in e;
      SameEntry(s, t, d[i], e[i]);
    }
  }

  lemma SameEntry(s: seq<Entry>, t: seq<Entry>, x: Entry, y: Entry)
    requires multiset(t) == multiset(s) && Unambiguous(s) && x in s && y in t && x.order == y.order
    ensures x == y
  {
    assert y in multiset(s);
  }

  /** Swapping the first entry of an ambiguous order with another one of that order. */
  lemma OtherArrangement(s: seq<Entry>) returns (t: seq<Entry>)
    requires Sorted(s) && !Unambiguous(s)
    ensures Sorted(t) && multiset(t) == multiset(s) && Dedup(t) != Dedup(s)
  {
    var i, j :| 0 <= i < |s| && 0 <= j < |s| && s[i].order == s[j].order && s[i] != s[j];
    var a := i;
    while a > 0 && s[a - 1].order == s[i].order
      invariant 0 <= a <= i && s[a].order == s[i].order
    {
      a := a - 1;
    }
    var k := if s[i] != s[a] then i else j;
    t := s[a := s[k]][k := s[a]];
    Swapped(s, a, k);
    DedupKeepsFirst(s, a);
    DedupKeepsFirst(t, a);
    KeepsOne(s, s[a], s[k]);
  }

  lemma Swapped(s: seq<Entry>, a: nat, k: nat)
    requires Sorted(s) && a < |s| && k < |s| && a != k && s[a].order == s[k].order && (a == 0 || s[a - 1].order < s[a].order)
    ensures var t := s[a := s[k]][k := s[a]];
      Sorted(t) && multiset(t) == multiset(s) && t[a] == s[k] && (a == 0 || t[a - 1].order < t[a].order)
  {
    var t := s[a := s[k]][k := s[a]];
    assert multiset(t) == multiset(s) by { hide Sorted; }
    assert forall i :: 0 <= i < |s| ==> t[i].order == s[i].order;
  }

  /** Two entries of one order are not both kept. */
  lemma KeepsOne(s: seq<Entry>, x: Entry, y: Entry)
    requires Sorted(s) && x != y && x.order == y.order && x in Dedup(s)
    ensures y !in Dedup(s)
  {
    DedupIncreases(s);
  }
}
