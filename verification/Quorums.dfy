/** Peers, quorums and the one counting fact every protocol of the repository rests on. */
module Quorums {
  type PeerID = nat

  datatype Option<+T> = None | Some(value: T)

  /** The first n peer ids. */
  function PeersBelow(n: nat): (s: set<PeerID>)
    ensures |s| == n
    ensures forall p: PeerID :: p in s <==> p < n
  {
    if n == 0 then {} else PeersBelow(n - 1) + {n - 1}
  }

  /** The peers 0 .. 3f of a cluster configured for f failures. */
  function Peers(f: nat): (s: set<PeerID>)
    ensures |s| == 3 * f + 1
    ensures forall p: PeerID :: p in s <==> p < 3 * f + 1
  {
    PeersBelow(3 * f + 1)
  }

  lemma SubsetSize<T>(a: set<T>, b: set<T>)
    requires a <= b
    ensures |a| <= |b|
  {
    assert b == a + (b - a);
    assert |b| == |a| + |b - a|;
  }

  /** Inclusion-exclusion inside a universe of n elements. */
  lemma Overlap<T>(universe: set<T>, a: set<T>, b: set<T>)
    requires a <= universe && b <= universe
    ensures |a * b| >= |a| + |b| - |universe|
  {
    assert |a + b| + |a * b| == |a| + |b|;
    SubsetSize(a + b, universe);
  }

  /** Two quorums of 2f+1 among 3f+1 peers, at most f of them faulty, share a correct peer. */
  lemma QuorumIntersection(f: nat, faulty: set<PeerID>, a: set<PeerID>, b: set<PeerID>) returns (p: PeerID)
    requires |faulty| <= f
    requires a <= Peers(f) && b <= Peers(f)
    requires |a| >= 2 * f + 1 && |b| >= 2 * f + 1
    ensures p in a && p in b && p !in faulty
  {
    Overlap(Peers(f), a, b);
    if a * b <= faulty {
      SubsetSize(a * b, faulty);
      assert false;
    }
    p :| p in a * b && p !in faulty;
  }

  /** A quorum of more than f peers contains a correct one. */
  lemma CorrectMember(f: nat, faulty: set<PeerID>, a: set<PeerID>) returns (p: PeerID)
    requires |faulty| <= f < |a|
    ensures p in a && p !in faulty
  {
    if a <= faulty {
      SubsetSize(a, faulty);
      assert false;
    }
    p :| p in a && p !in faulty;
  }
}
