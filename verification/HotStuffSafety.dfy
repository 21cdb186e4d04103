/** Why two blocks decided by correct replicas never fork, from the history of votes alone. */
module HotStuffSafety {
  import opened Quorums
  import opened HotStuffBlocks

  /** One vote: the block, and the lock its voter held just before. */
  datatype VoteRec = VoteRec(blk: Block, lock: Block)

  /** Every vote a correct replica has cast, oldest first. */
  datatype Ledger = Ledger(f: nat, faulty: set<PeerID>, votes: map<PeerID, seq<VoteRec>>)

  ghost predicate HasVoted(l: Ledger, p: PeerID, d: Digest) {
    p in l.votes && exists i :: 0 <= i < |l.votes[p]| && Of(l.votes[p][i].blk) == d
  }

  /** q is a quorum whose correct members have all voted for d. */
  ghost predicate QuorumFor(l: Ledger, q: set<PeerID>, d: Digest) {
    && q <= Peers(l.f) && |q| >= 2 * l.f + 1
    && forall p :: p in q && p !in l.faulty ==> HasVoted(l, p, d)
  }

  ghost predicate Certified(l: Ledger, b: Block) {
    b == GENESIS || exists q :: QuorumFor(l, q, Of(b))
  }

  /** What the vote rule established when this vote was cast. */
  ghost predicate VoteOK(l: Ledger, v: VoteRec) {
    && WellFormed(v.blk)
    && Certified(l, QcBlock(v.blk))
    && Certified(l, v.lock)
    && v.lock.height < v.blk.height
    && (QcBlock(v.blk).height > v.lock.height || Extends(v.blk, v.lock))
  }

  /** Heights rise from vote to vote, and a later vote's lock is at least as high as the block two
      certificates below any earlier vote. */
  ghost predicate Ordered(vs: seq<VoteRec>) {
    && (forall i :: 0 <= i < |vs| ==> HasQcBlock(vs[i].blk))
    && forall i, j :: 0 <= i < j < |vs| ==>
         vs[i].blk.height < vs[j].blk.height && GrandHeight(vs[i].blk) <= vs[j].lock.height
  }

  ghost predicate LedgerOK(l: Ledger) {
    && |l.faulty| <= l.f
    && (forall p, i :: p in l.votes && 0 <= i < |l.votes[p]| ==> VoteOK(l, l.votes[p][i]))
    && forall p :: p in l.votes ==> Ordered(l.votes[p])
  }

  /** top, mid and base are direct parents and certificates of one another, and top is certified. */
  ghost predicate CertifiedChain(l: Ledger, top: Block, mid: Block, base: Block) {
    && Certified(l, top)
    && HasQcBlock(top) && QcBlock(top) == mid && top.parent == Of(mid)
    && HasQcBlock(mid) && QcBlock(mid) == base && mid.parent == Of(base)
  }

  ghost predicate Decidable(l: Ledger, base: Block) {
    exists top, mid :: CertifiedChain(l, top, mid, base)
  }

  /** Two certified blocks: a correct replica voted for both. */
  lemma CommonVoter(l: Ledger, a: Block, b: Block) returns (p: PeerID, i: nat, j: nat)
    requires LedgerOK(l) && Certified(l, a) && Certified(l, b) && a != GENESIS && b != GENESIS
    ensures p in l.votes && i < |l.votes[p]| && j < |l.votes[p]|
    ensures l.votes[p][i].blk == a && l.votes[p][j].blk == b
  {
    var q1 :| QuorumFor(l, q1, Of(a));
    var q2 :| QuorumFor(l, q2, Of(b));
    p := QuorumIntersection(l.f, l.faulty, q1, q2);
    assert HasVoted(l, p, Of(a)) && HasVoted(l, p, Of(b));
    i :| 0 <= i < |l.votes[p]| && Of(l.votes[p][i].blk) == Of(a);
    j :| 0 <= j < |l.votes[p]| && Of(l.votes[p][j].blk) == Of(b);
  }

  lemma CertifiedWellFormed(l: Ledger, b: Block)
    requires LedgerOK(l) && Certified(l, b) && b != GENESIS
    ensures WellFormed(b) && Certified(l, QcBlock(b)) && b.height > 0
  {
    var p, i, j := CommonVoter(l, b, b);
    assert VoteOK(l, l.votes[p][i]);
    QcBlockBelow(b);
  }

  lemma CertifiedChained(l: Ledger, b: Block)
    requires LedgerOK(l) && Certified(l, b)
    ensures Chained(b) && (b.height == 0 <==> b == GENESIS)
  {
    if b != GENESIS {
      CertifiedWellFormed(l, b);
    }
  }

  /** At most one block is certified at each height. */
  lemma CertifiedUnique(l: Ledger, a: Block, b: Block)
    requires LedgerOK(l) && Certified(l, a) && Certified(l, b) && a.height == b.height
    ensures a == b
  {
    CertifiedChained(l, a);
    CertifiedChained(l, b);
    if a != GENESIS && b != GENESIS {
      var p, i, j := CommonVoter(l, a, b);
      assert Ordered(l.votes[p]);
    }
  }

  lemma ChainShape(l: Ledger, top: Block, mid: Block, base: Block)
    requires LedgerOK(l) && CertifiedChain(l, top, mid, base)
    ensures Certified(l, mid) && Certified(l, base) && top != GENESIS && mid != GENESIS
    ensures mid.height == base.height + 1 && top.height == base.height + 2
    ensures Chained(top) && Chained(mid) && Chained(base)
    ensures Extends(mid, base) && Extends(top, base) && GrandHeight(top) == base.height
  {
    CertifiedWellFormed(l, top);
    CertifiedWellFormed(l, mid);
    CertifiedChained(l, base);
    assert Extends(mid, base);
  }

  /** Once a three-chain down to base is certified, every certified block at or above base's height is
      base or extends it.  Induction on the height of w: a voter common to top and w was locked at or
      above base when it voted for w, so w stands on a lower certified block at or above base. */
  lemma {:induction false} LockLemma(l: Ledger, top: Block, mid: Block, base: Block, w: Block)
    requires LedgerOK(l) && CertifiedChain(l, top, mid, base)
    requires Certified(l, w) && w.height >= base.height
    ensures Extends(w, base)
    decreases w.height
  {
    ChainShape(l, top, mid, base);
    CertifiedChained(l, w);
    if w.height == base.height {
      CertifiedUnique(l, w, base);
    } else if w.height == mid.height {
      CertifiedUnique(l, w, mid);
    } else if w.height == top.height {
      CertifiedUnique(l, w, top);
    } else {
      LockLemmaAbove(l, top, mid, base, w);
    }
  }

  lemma {:induction false} LockLemmaAbove(l: Ledger, top: Block, mid: Block, base: Block, w: Block)
    requires LedgerOK(l) && CertifiedChain(l, top, mid, base)
    requires Certified(l, w) && w != GENESIS && w.height > top.height && top != GENESIS
    requires GrandHeight(top) == base.height
    ensures Extends(w, base)
    decreases w.height, 0
  {
    var p, i, j := CommonVoter(l, top, w);
    var v := l.votes[p][j];
    assert Ordered(l.votes[p]) && VoteOK(l, v);
    assert i < j;
    assert base.height <= v.lock.height;
    var next := if QcBlock(w).height > v.lock.height then QcBlock(w) else v.lock;
    QcBlockBelow(w);
    LockLemma(l, top, mid, base, next);
    ExtendsTransitive(w, next, base);
  }

  /** Any two decidable blocks are on one branch. */
  lemma DecidableOnOneBranch(l: Ledger, a: Block, b: Block)
    requires LedgerOK(l) && Decidable(l, a) && Decidable(l, b)
    ensures Extends(a, b) || Extends(b, a)
    ensures a.height <= b.height ==> Extends(b, a)
  {
    var at, am :| CertifiedChain(l, at, am, a);
    var bt, bm :| CertifiedChain(l, bt, bm, b);
    ChainShape(l, at, am, a);
    ChainShape(l, bt, bm, b);
    if a.height <= b.height {
      LockLemma(l, at, am, a, b);
    } else {
      LockLemma(l, bt, bm, b, a);
    }
  }

  // ----- the ledger only grows

  ghost predicate Grows(l: Ledger, k: Ledger) {
    && l.f == k.f && l.faulty == k.faulty
    && forall p :: p in l.votes ==> p in k.votes && l.votes[p] <= k.votes[p]
  }

  lemma HasVotedGrows(l: Ledger, k: Ledger, p: PeerID, d: Digest)
    requires Grows(l, k) && HasVoted(l, p, d)
    ensures HasVoted(k, p, d)
  {
  }

  lemma CertifiedGrows(l: Ledger, k: Ledger, b: Block)
    requires Grows(l, k) && Certified(l, b)
    ensures Certified(k, b)
  {
    if b != GENESIS {
      var q :| QuorumFor(l, q, Of(b));
      forall p | p in q && p !in l.faulty ensures HasVoted(k, p, Of(b)) {
        HasVotedGrows(l, k, p, Of(b));
      }
      assert QuorumFor(k, q, Of(b));
    }
  }

  lemma VoteOKGrows(l: Ledger, k: Ledger, v: VoteRec)
    requires Grows(l, k) && VoteOK(l, v)
    ensures VoteOK(k, v)
  {
    CertifiedGrows(l, k, QcBlock(v.blk));
    CertifiedGrows(l, k, v.lock);
  }

  lemma DecidableGrows(l: Ledger, k: Ledger, b: Block)
    requires Grows(l, k) && Decidable(l, b)
    ensures Decidable(k, b)
  {
    var top, mid :| CertifiedChain(l, top, mid, b);
    CertifiedGrows(l, k, top);
    assert CertifiedChain(k, top, mid, b);
  }

  ghost function AddVote(l: Ledger, p: PeerID, v: VoteRec): Ledger
    requires p in l.votes
  {
    l.(votes := l.votes[p := l.votes[p] + [v]])
  }

  lemma AddVoteOK(l: Ledger, p: PeerID, v: VoteRec)
    requires LedgerOK(l) && p in l.votes && VoteOK(l, v)
    requires forall i :: 0 <= i < |l.votes[p]| ==>
      l.votes[p][i].blk.height < v.blk.height && GrandHeight(l.votes[p][i].blk) <= v.lock.height
    ensures Grows(l, AddVote(l, p, v)) && LedgerOK(AddVote(l, p, v))
  {
    var k := AddVote(l, p, v);
    assert Grows(l, k);
    hide VoteOK, GrandHeight;
    forall r, i | r in k.votes && 0 <= i < |k.votes[r]| ensures VoteOK(k, k.votes[r][i]) {
      VoteOKGrows(l, k, if r == p && i == |l.votes[p]| then v else l.votes[r][i]);
    }
    forall r | r in k.votes ensures Ordered(k.votes[r]) {
      assert Ordered(l.votes[r]);
    }
  }
}
