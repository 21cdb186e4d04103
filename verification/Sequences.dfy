/** One fact about reordered sequences, for proofs by induction on the last element. */
module Sequences {
  /** Taking the last element of s out of a reordering t of s leaves reorderings. */
  lemma Removed<T>(s: seq<T>, t: seq<T>, j: nat)
    requires s != [] && j < |t| && t[j] == s[|s| - 1] && multiset(s) == multiset(t)
    ensures multiset(s[..|s| - 1]) == multiset(t[..j] + t[j + 1..])
    ensures t == t[..j] + [t[j]] + t[j + 1..] && s == s[..|s| - 1] + [s[|s| - 1]]
  {
    var n := |s| - 1;
    assert s == s[..n] + [s[n]] && t == t[..j] + [t[j]] + t[j + 1..];
    Counted(s, s[..n], s[n], []);
    Counted(t, t[..j], t[j], t[j + 1..]);
    assert s[..n] + [] == s[..n];
    Cancelled(multiset(s[..n]), multiset(t[..j] + t[j + 1..]), s[n]);
  }

  lemma Counted<T>(s: seq<T>, a: seq<T>, x: T, b: seq<T>)
    requires s == a + [x] + b
    ensures multiset(s) == multiset(a + b) + multiset{x}
  {
  }

  lemma Cancelled<T>(a: multiset<T>, b: multiset<T>, x: T)
    requires a + multiset{x} == b + multiset{x}
    ensures a == b
  {
    assert a == (a + multiset{x}) - multiset{x};
    assert b == (b + multiset{x}) - multiset{x};
  }
}
