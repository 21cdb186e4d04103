/** Whole runs of chained HotStuff: correct replicas, an adversary for the faulty ones, and a network that
    delivers any sent message to anyone, any number of times. */
module HotStuffRuns {
  import opened Quorums
  import opened HotStuffBlocks
  import opened HotStuffNode
  import opened HotStuffSafety

  // ----- unforgeable signatures

  ghost predicate GenuineSig(l: Ledger, s: Signature) {
    s.Signed? ==> s.signer in Peers(l.f) && (s.signer in l.faulty || HasVoted(l, s.signer, s.digest))
  }

  ghost predicate GenuineCert(l: Ledger, qc: QuorumCert) {
    forall p :: p in qc.sigs ==> GenuineSig(l, qc.sigs[p])
  }

  /** The signatures that m carries exist. */
  ghost predicate Unforged(l: Ledger, m: Message) {
    match m
    case Propose(blk) => blk.qc.Some? ==> GenuineCert(l, blk.qc.value)
    case VoteMsg(v) => GenuineSig(l, v.sig)
    case NewView(_, _, qc) => qc.Some? ==> GenuineCert(l, qc.value)
  }

  predicate ProperProposal(strict: bool, m: Message) {
    m.Propose? ==> WellFormed(m.blk) && (strict ==> StrictlyWellFormed(m.blk))
  }

  lemma GenuineCertGrows(l: Ledger, k: Ledger, qc: QuorumCert)
    requires Grows(l, k) && GenuineCert(l, qc)
    ensures GenuineCert(k, qc)
  {
  }

  lemma GenuineSigGrows(l: Ledger, k: Ledger, s: Signature)
    requires Grows(l, k) && GenuineSig(l, s)
    ensures GenuineSig(k, s)
  {
  }

  lemma UnforgedGrows(l: Ledger, k: Ledger, m: Message)
    requires Grows(l, k) && Unforged(l, m)
    ensures Unforged(k, m)
  {
  }

  /** What a verified certificate proves: a quorum of distinct peers stands behind its block. */
  lemma VerifiedMeansCertified(l: Ledger, qc: QuorumCert)
    requires |l.faulty| <= l.f && GenuineCert(l, qc) && VerifyQuorumCert(qc, l.f)
    ensures qc.digest.Of? && Certified(l, qc.digest.blk)
  {
    if qc.digest != Of(GENESIS) {
      var q := ValidSigners(qc);
      assert forall p :: p in q ==> GenuineSig(l, qc.sigs[p]);
      var p := CorrectMember(l.f, l.faulty, q);
      assert HasVoted(l, p, qc.digest);
      assert QuorumFor(l, q, qc.digest);
    }
  }

  // ----- what holds of every correct replica

  /** A stored block other than genesis.  Its certified block is stored too, unless it is no higher than
      the lock; when all proposals are strictly well-formed its parent is stored. */
  ghost predicate StoredOK(l: Ledger, strict: bool, blocks: map<Digest, Block>, lockHeight: nat, b: Block) {
    && WellFormed(b)
    && (strict ==> StrictlyWellFormed(b) && b.parent in blocks)
    && Certified(l, QcBlock(b))
    && (Of(QcBlock(b)) in blocks || QcBlock(b).height <= lockHeight)
  }

  ghost predicate StoreOK(l: Ledger, strict: bool, blocks: map<Digest, Block>, lockHeight: nat) {
    && Of(GENESIS) in blocks
    && forall d :: d in blocks ==> d == Of(blocks[d]) && (blocks[d] == GENESIS || StoredOK(l, strict, blocks, lockHeight, blocks[d]))
  }

  ghost predicate LockOK(l: Ledger, s: Node) {
    Of(s.bLock) in s.blocks && Certified(l, s.bLock) && s.bLock.height <= s.lastVote
  }

  ghost predicate LeafOK(l: Ledger, s: Node) {
    && s.highQC.digest == Of(s.bLeaf) && Of(s.bLeaf) in s.blocks
    && Certified(l, s.bLeaf) && GenuineCert(l, s.highQC)
  }

  ghost predicate VerifiedVotesOK(l: Ledger, s: Node) {
    forall d, i :: d in s.verifiedVotes && 0 <= i < |s.verifiedVotes[d]| ==>
      s.verifiedVotes[d][i].digest == d && VerifyVote(s.verifiedVotes[d][i]) && GenuineSig(l, s.verifiedVotes[d][i].sig)
  }

  ghost predicate OutboxOK(l: Ledger, strict: bool, s: Node) {
    forall i :: 0 <= i < |s.msgs| ==> Unforged(l, s.msgs[i]) && ProperProposal(strict, s.msgs[i])
  }

  ghost predicate NodeCore(l: Ledger, strict: bool, p: PeerID, s: Node) {
    && s.id == p && s.f == l.f && p in l.votes && p in Peers(l.f)
    && StoreOK(l, strict, s.blocks, s.bLock.height)
    && LockOK(l, s) && LeafOK(l, s) && VerifiedVotesOK(l, s) && OutboxOK(l, strict, s)
  }

  /** lastVote is the height of the last vote, and the lock covers every vote. */
  ghost predicate VotesTracked(l: Ledger, p: PeerID, s: Node)
    requires p in l.votes
  {
    var vs := l.votes[p];
    && (forall i :: 0 <= i < |vs| ==>
         HasQcBlock(vs[i].blk) && vs[i].blk.height <= s.lastVote && GrandHeight(vs[i].blk) <= s.bLock.height)
    && (vs == [] || vs[|vs| - 1].blk.height == s.lastVote)
  }

  ghost predicate NodeOK(l: Ledger, strict: bool, p: PeerID, s: Node) {
    NodeCore(l, strict, p, s) && VotesTracked(l, p, s)
  }

  lemma NodeCoreGrows(l: Ledger, k: Ledger, strict: bool, p: PeerID, s: Node)
    requires Grows(l, k) && NodeCore(l, strict, p, s)
    ensures NodeCore(k, strict, p, s)
  {
    forall d | d in s.blocks && s.blocks[d] != GENESIS ensures StoredOK(k, strict, s.blocks, s.bLock.height, s.blocks[d]) {
      CertifiedGrows(l, k, QcBlock(s.blocks[d]));
    }
    CertifiedGrows(l, k, s.bLock);
    CertifiedGrows(l, k, s.bLeaf);
    GenuineCertGrows(l, k, s.highQC);
    forall d, i | d in s.verifiedVotes && 0 <= i < |s.verifiedVotes[d]| ensures GenuineSig(k, s.verifiedVotes[d][i].sig) {
      GenuineSigGrows(l, k, s.verifiedVotes[d][i].sig);
    }
    forall i | 0 <= i < |s.msgs| ensures Unforged(k, s.msgs[i]) {
      UnforgedGrows(l, k, s.msgs[i]);
    }
  }

  // ----- the vote rule

  lemma {:induction false} WalkDownExtends(blocks: map<Digest, Block>, b: Block, floor: nat)
    requires WalkDown(blocks, b, floor).Some?
    ensures Extends(b, WalkDown(blocks, b, floor).value)
  {
    if b.height > floor {
      WalkDownExtends(blocks, b.parent.blk, floor);
    }
  }

  /** A successful walk has passed through the store over every proper ancestor above its floor. */
  lemma {:induction false} WalkDownCovers(blocks: map<Digest, Block>, b: Block, floor: nat, a: Block)
    requires Chained(b) && WalkDown(blocks, b, floor).Some?
    requires Extends(b, a) && a != b && a.height > floor
    ensures Of(a) in blocks
  {
    AncestorHeights(b, a);
    if b.parent.blk != a {
      WalkDownCovers(blocks, b.parent.blk, floor, a);
    }
  }

  /** A block the replica accepts carries a vote that meets VoteOK, and its certified block is stored or
      not above the lock. */
  lemma AcceptsMeansVoteOK(l: Ledger, strict: bool, p: PeerID, s: Node, blk: Block)
    requires LedgerOK(l) && NodeCore(l, strict, p, s)
    requires Unforged(l, Propose(blk)) && ProperProposal(strict, Propose(blk)) && Accepts(s, blk)
    ensures VoteOK(l, VoteRec(blk, s.bLock))
    ensures StoredOK(l, strict, s.blocks, s.bLock.height, blk)
  {
    VerifiedMeansCertified(l, blk.qc.value);
    var q := QcBlock(blk);
    QcBlockBelow(blk);
    if Of(q) in s.blocks && s.blocks[Of(q)].height > s.bLock.height {
    } else {
      WalkDownExtends(s.blocks, blk, s.bLock.height);
      if q.height > s.bLock.height {
        WalkDownCovers(s.blocks, blk, s.bLock.height, q);
      }
    }
  }

  // ----- the handlers keep NodeCore

  lemma StoreBlock(l: Ledger, strict: bool, p: PeerID, s: Node, blk: Block)
    requires NodeCore(l, strict, p, s) && StoredOK(l, strict, s.blocks, s.bLock.height, blk)
    ensures NodeCore(l, strict, p, s.(blocks := s.blocks[Of(blk) := blk]))
  {
    var t := s.blocks[Of(blk) := blk];
    forall d | d in t && t[d] != GENESIS ensures StoredOK(l, strict, t, s.bLock.height, t[d]) {
      if d != Of(blk) {
        assert StoredOK(l, strict, s.blocks, s.bLock.height, s.blocks[d]);
      }
    }
  }

  lemma UpdateHighQCKeeps(l: Ledger, strict: bool, p: PeerID, s: Node, qc: QuorumCert)
    requires NodeCore(l, strict, p, s) && GenuineCert(l, qc)
    requires qc.digest.Of? ==> Certified(l, qc.digest.blk)
    ensures NodeCore(l, strict, p, UpdateHighQC(s, qc))
    ensures UpdateHighQC(s, qc).halted == s.halted
  {
  }

  lemma LockKeeps(l: Ledger, strict: bool, p: PeerID, s: Node, b2: Block)
    requires NodeCore(l, strict, p, s)
    requires Of(b2) in s.blocks && Certified(l, b2) && b2.height <= s.lastVote
    ensures NodeCore(l, strict, p, Lock(s, b2))
  {
  }

  lemma DecideKeeps(l: Ledger, strict: bool, p: PeerID, s: Node, b3: Block)
    requires NodeCore(l, strict, p, s)
    ensures NodeCore(l, strict, p, Decide(s, b3))
  {
  }

  lemma LockAndDecideFrame(s: Node, b1: Block)
    ensures var t := LockAndDecide(s, b1);
      && t.halted == s.halted && t.lastVote == s.lastVote && t.blocks == s.blocks && t.msgs == s.msgs
      && t.bLock.height >= s.bLock.height
      && (HasQcBlock(b1) && Of(QcBlock(b1)) in s.blocks ==> t.bLock.height >= s.blocks[Of(QcBlock(b1))].height)
  {
    hide ThreeChain, CommitCmds;
  }

  lemma LockAndDecideKeeps(l: Ledger, strict: bool, p: PeerID, s: Node, b1: Block)
    requires LedgerOK(l) && NodeCore(l, strict, p, s)
    requires Of(b1) in s.blocks && Certified(l, b1) && b1.height <= s.lastVote
    ensures NodeCore(l, strict, p, LockAndDecide(s, b1))
    ensures HasQcBlock(b1) ==> LockAndDecide(s, b1).bLock.height >= QcBlock(b1).height
  {
    LockAndDecideFrame(s, b1);
    if b1 != GENESIS {
      CertifiedWellFormed(l, b1);
      QcBlockBelow(b1);
      assert StoredOK(l, strict, s.blocks, s.bLock.height, b1);
      var b2 := QcBlock(b1);
      if Of(b2) in s.blocks {
        assert s.blocks[Of(b2)] == b2;
        LockKeeps(l, strict, p, s, b2);
        if ThreeChain(s.blocks, b1, b2).Some? {
          DecideKeeps(l, strict, p, Lock(s, b2), ThreeChain(s.blocks, b1, b2).value);
        }
      }
    }
  }

  /** update keeps the invariant and leaves the lock no lower than before and than the block two
      certificates below blk. */
  lemma UpdateKeeps(l: Ledger, strict: bool, p: PeerID, s: Node, blk: Block)
    requires LedgerOK(l) && NodeCore(l, strict, p, s) && blk.height <= s.lastVote && !s.halted
    requires StoredOK(l, strict, s.blocks, s.bLock.height, blk) && GenuineCert(l, blk.qc.value)
    ensures NodeCore(l, strict, p, Update(s, blk))
    ensures var t := Update(s, blk);
      t.halted == s.halted && t.lastVote == s.lastVote && t.blocks == s.blocks && t.msgs == s.msgs
      && t.bLock.height >= s.bLock.height && t.bLock.height >= GrandHeight(blk)
  {
    var b1 := QcBlock(blk);
    QcBlockBelow(blk);
    if Of(b1) in s.blocks {
      UpdateHighQCKeeps(l, strict, p, s, blk.qc.value);
      LockAndDecideKeeps(l, strict, p, UpdateHighQC(s, blk.qc.value), b1);
      LockAndDecideFrame(UpdateHighQC(s, blk.qc.value), b1);
    } else if HasQcBlock(b1) {
      CertifiedWellFormed(l, b1);
      QcBlockBelow(b1);
    }
  }

  lemma DecidesMeansDecidable(l: Ledger, strict: bool, p: PeerID, s: Node, blk: Block)
    requires LedgerOK(l) && NodeCore(l, strict, p, s) && StoredOK(l, strict, s.blocks, s.bLock.height, blk)
    requires Decides(s, blk).Some?
    ensures Decidable(l, Decides(s, blk).value)
  {
    StoreBlock(l, strict, p, s, blk);
    var b1 := QcBlock(blk);
    assert CertifiedChain(l, b1, QcBlock(b1), Decides(s, blk).value);
  }

  lemma BeatKeeps(l: Ledger, strict: bool, p: PeerID, s: Node)
    requires LedgerOK(l) && NodeCore(l, strict, p, s)
    ensures NodeCore(l, strict, p, Beat(s)) && Beat(s).halted == s.halted
  {
    if Beat(s) != s {
      ProposeKeeps(l, strict, p, s.(lastBeat := s.bLeaf.height));
    }
  }

  /** Whatever propose builds is strictly well-formed and unforged. */
  lemma ProposeKeeps(l: Ledger, strict: bool, p: PeerID, s: Node)
    requires LedgerOK(l) && NodeCore(l, strict, p, s)
    ensures StrictlyWellFormed(NextBlock(s)) && WellFormed(NextBlock(s))
    ensures NodeCore(l, strict, p, ProposeNext(s))
  {
    var blk := NextBlock(s);
    CertifiedChained(l, s.bLeaf);
    assert StrictlyWellFormed(blk);
    StrictIsWeak(blk);
    StoreBlock(l, strict, p, s, blk);
    assert Unforged(l, Propose(blk)) && ProperProposal(strict, Propose(blk));
  }

  lemma {:induction false} CreateQuorumCertGenuine(l: Ledger, digest: Digest, sigs: map<PeerID, Signature>, votes: seq<Vote>)
    requires forall p :: p in sigs ==> sigs[p] == Signed(p, digest) && GenuineSig(l, sigs[p])
    requires forall i :: 0 <= i < |votes| ==> VerifyVote(votes[i]) && GenuineSig(l, votes[i].sig)
    requires CreateQuorumCert(digest, sigs, votes).Cert?
    ensures var qc := CreateQuorumCert(digest, sigs, votes).qc;
      qc.digest == digest && GenuineCert(l, qc) && |ValidSigners(qc)| == |sigs| + |votes|
    decreases |votes|
  {
    if votes == [] {
      var qc := QuorumCert(digest, sigs);
      assert ValidSigners(qc) == sigs.Keys;
    } else {
      var v := votes[0];
      CreateQuorumCertGenuine(l, digest, sigs[v.signer := v.sig], votes[1..]);
    }
  }

  lemma OnVoteContinueKeeps(l: Ledger, strict: bool, p: PeerID, s: Node, v: Vote)
    requires LedgerOK(l) && NodeCore(l, strict, p, s) && VerifyVote(v) && GenuineSig(l, v.sig)
    ensures NodeCore(l, strict, p, OnVoteContinue(s, v))
  {
    var votes := VotesFor(s, v.digest) + [v];
    AddVerifiedVote(l, strict, p, s, v);
    if |votes| >= 2 * s.f + 1 && CreateQuorumCert(v.digest, map[], votes).Cert? {
      var qc := CreateQuorumCert(v.digest, map[], votes).qc;
      VotesCertify(l, v.digest, votes);
      WithVerifiedVotes(l, strict, p, s, s.verifiedVotes - {v.digest});
      FinishQuorumCert(l, strict, p, s.(verifiedVotes := s.verifiedVotes - {v.digest}), qc);
    }
  }

  /** The certificate a leader builds from 2f+1 verified votes is genuine and certifies its block. */
  lemma VotesCertify(l: Ledger, digest: Digest, votes: seq<Vote>)
    requires |l.faulty| <= l.f && |votes| >= 2 * l.f + 1
    requires forall i :: 0 <= i < |votes| ==> VerifyVote(votes[i]) && GenuineSig(l, votes[i].sig)
    requires CreateQuorumCert(digest, map[], votes).Cert?
    ensures var qc := CreateQuorumCert(digest, map[], votes).qc;
      GenuineCert(l, qc) && VerifyQuorumCert(qc, l.f) && qc.digest == digest && digest.Of? && Certified(l, digest.blk)
  {
    CreateQuorumCertGenuine(l, digest, map[], votes);
    VerifiedMeansCertified(l, CreateQuorumCert(digest, map[], votes).qc);
  }

  lemma AddVerifiedVote(l: Ledger, strict: bool, p: PeerID, s: Node, v: Vote)
    requires NodeCore(l, strict, p, s) && VerifyVote(v) && GenuineSig(l, v.sig)
    ensures var votes := VotesFor(s, v.digest) + [v];
      && (forall i :: 0 <= i < |votes| ==> VerifyVote(votes[i]) && GenuineSig(l, votes[i].sig))
      && NodeCore(l, strict, p, s.(verifiedVotes := s.verifiedVotes[v.digest := votes]))
      && NodeCore(l, strict, p, s.(verifiedVotes := s.verifiedVotes[v.digest := votes], halted := true))
  {
    var earlier, votes := VotesFor(s, v.digest), VotesFor(s, v.digest) + [v];
    assert forall i :: 0 <= i < |earlier| ==> earlier[i] == s.verifiedVotes[v.digest][i];
    WithVerifiedVotes(l, strict, p, s, s.verifiedVotes[v.digest := votes]);
  }

  lemma WithVerifiedVotes(l: Ledger, strict: bool, p: PeerID, s: Node, vv: map<Digest, seq<Vote>>)
    requires NodeCore(l, strict, p, s) && VerifiedVotesOK(l, s.(verifiedVotes := vv))
    ensures NodeCore(l, strict, p, s.(verifiedVotes := vv))
    ensures NodeCore(l, strict, p, s.(verifiedVotes := vv, halted := true))
  {
  }

  lemma FinishQuorumCert(l: Ledger, strict: bool, p: PeerID, s: Node, qc: QuorumCert)
    requires LedgerOK(l) && NodeCore(l, strict, p, s) && GenuineCert(l, qc)
    requires qc.digest.Of? ==> Certified(l, qc.digest.blk)
    ensures var t := UpdateHighQC(s, qc);
      NodeCore(l, strict, p, t) && NodeCore(l, strict, p, Beat(t))
  {
    UpdateHighQCKeeps(l, strict, p, s, qc);
    BeatKeeps(l, strict, p, UpdateHighQC(s, qc));
  }

  lemma OnVoteKeeps(l: Ledger, strict: bool, p: PeerID, s: Node, v: Vote)
    requires LedgerOK(l) && NodeCore(l, strict, p, s) && GenuineSig(l, v.sig)
    ensures NodeCore(l, strict, p, OnVote(s, v))
  {
    var t := PruneVotes(s);
    assert NodeCore(l, strict, p, t);
    if VerifyVote(v) {
      OnVoteContinueKeeps(l, strict, p, t, v);
    }
  }

  lemma OnNewViewKeeps(l: Ledger, strict: bool, p: PeerID, s: Node, from: PeerID, height: nat, qc: Option<QuorumCert>)
    requires LedgerOK(l) && NodeCore(l, strict, p, s) && Unforged(l, NewView(from, height, qc))
    ensures NodeCore(l, strict, p, OnNewView(s, from, height, qc))
  {
    if qc.Some? && !s.halted {
      var t := PruneViews(s);
      var u := if VerifyQuorumCert(qc.value, s.f) then UpdateHighQC(t, qc.value) else t;
      if VerifyQuorumCert(qc.value, s.f) {
        VerifiedMeansCertified(l, qc.value);
        UpdateHighQCKeeps(l, strict, p, t, qc.value);
      }
      CountNewViewKeeps(l, strict, p, u, from, height);
    }
  }

  lemma CountNewViewKeeps(l: Ledger, strict: bool, p: PeerID, s: Node, from: PeerID, height: nat)
    requires LedgerOK(l) && NodeCore(l, strict, p, s)
    ensures NodeCore(l, strict, p, CountNewView(s, from, height))
  {
    var senders := (if height in s.newView then s.newView[height] else {}) + {from};
    var t := s.(newView := s.newView[height := senders]);
    assert NodeCore(l, strict, p, t);
    BeatKeeps(l, strict, p, t);
  }

  /** Receiving a proposal keeps the invariant; an accepted one enters the voter's history. */
  lemma OnProposeKeeps(l: Ledger, strict: bool, p: PeerID, s: Node, blk: Block)
    requires LedgerOK(l) && NodeOK(l, strict, p, s)
    requires Unforged(l, Propose(blk)) && ProperProposal(strict, Propose(blk))
    ensures !Accepts(s, blk) ==> NodeOK(l, strict, p, OnPropose(s, blk))
    ensures Accepts(s, blk) ==>
      var k := AddVote(l, p, VoteRec(blk, s.bLock));
      LedgerOK(k) && Grows(l, k) && NodeOK(k, strict, p, OnPropose(s, blk))
  {
    if Accepts(s, blk) {
      AcceptKeeps(l, strict, p, s, blk);
    }
  }

  lemma AcceptKeeps(l: Ledger, strict: bool, p: PeerID, s: Node, blk: Block)
    requires LedgerOK(l) && NodeOK(l, strict, p, s) && Accepts(s, blk)
    requires Unforged(l, Propose(blk)) && ProperProposal(strict, Propose(blk))
    ensures var k := AddVote(l, p, VoteRec(blk, s.bLock));
      LedgerOK(k) && Grows(l, k) && NodeOK(k, strict, p, CastVote(s, blk))
  {
    var v := VoteRec(blk, s.bLock);
    var k := AddVote(l, p, v);
    var t := s.(blocks := s.blocks[Of(blk) := blk]);
    AcceptStores(l, strict, p, s, blk);
    VotesBefore(l, strict, p, s, blk);
    StoredTwice(s, blk);
    hide LedgerOK, Accepts, NodeCore, NodeOK, StoredOK, GenuineCert, CastVote, Grows;
    CastVoteKeeps(k, strict, p, t, blk);
  }

  lemma StoredTwice(s: Node, blk: Block)
    ensures var t := s.(blocks := s.blocks[Of(blk) := blk]);
      CastVote(t, blk) == CastVote(s, blk) && t.blocks[Of(blk) := blk] == t.blocks
  {
    hide Update;
    assert s.blocks[Of(blk) := blk][Of(blk) := blk] == s.blocks[Of(blk) := blk];
  }

  /** Storing the block and recording the vote. */
  lemma AcceptStores(l: Ledger, strict: bool, p: PeerID, s: Node, blk: Block)
    requires LedgerOK(l) && NodeOK(l, strict, p, s) && Accepts(s, blk)
    requires Unforged(l, Propose(blk)) && ProperProposal(strict, Propose(blk))
    ensures var k, t := AddVote(l, p, VoteRec(blk, s.bLock)), s.(blocks := s.blocks[Of(blk) := blk]);
      && LedgerOK(k) && Grows(l, k) && NodeCore(k, strict, p, t)
      && StoredOK(k, strict, t.blocks, t.bLock.height, blk) && GenuineCert(k, blk.qc.value)
  {
    var v := VoteRec(blk, s.bLock);
    var k := AddVote(l, p, v);
    hide LedgerOK, VoteOK;
    AcceptsMeansVoteOK(l, strict, p, s, blk);
    AddVoteOK(l, p, v);
    hide Accepts;
    NodeCoreGrows(l, k, strict, p, s);
    CertifiedGrows(l, k, QcBlock(blk));
    GenuineCertGrows(l, k, blk.qc.value);
    StoreBlock(k, strict, p, s, blk);
  }

  /** What has been voted for before lies below the vote and its lock. */
  lemma VotesBefore(l: Ledger, strict: bool, p: PeerID, s: Node, blk: Block)
    requires NodeOK(l, strict, p, s) && Accepts(s, blk)
    ensures var k := AddVote(l, p, VoteRec(blk, s.bLock));
      && !s.halted && s.lastVote <= blk.height && k.votes[p] != [] && k.votes[p][|k.votes[p]| - 1].blk == blk
      && forall i :: 0 <= i < |k.votes[p]| - 1 ==>
           k.votes[p][i].blk.height <= s.lastVote && HasQcBlock(k.votes[p][i].blk) && GrandHeight(k.votes[p][i].blk) <= s.bLock.height
  {
  }

  /** The rest of casting a vote, once blk is stored and the vote is in the history. */
  lemma CastVoteKeeps(l: Ledger, strict: bool, p: PeerID, s: Node, blk: Block)
    requires LedgerOK(l) && NodeCore(l, strict, p, s) && !s.halted && s.lastVote <= blk.height
    requires StoredOK(l, strict, s.blocks, s.bLock.height, blk) && GenuineCert(l, blk.qc.value) && s.blocks[Of(blk) := blk] == s.blocks
    requires l.votes[p] != [] && l.votes[p][|l.votes[p]| - 1].blk == blk
    requires forall i :: 0 <= i < |l.votes[p]| - 1 ==>
      l.votes[p][i].blk.height <= s.lastVote && HasQcBlock(l.votes[p][i].blk) && GrandHeight(l.votes[p][i].blk) <= s.bLock.height
    ensures NodeOK(l, strict, p, CastVote(s, blk))
  {
    var vs := l.votes[p];
    var sig := Signed(p, Of(blk));
    assert Of(vs[|vs| - 1].blk) == Of(blk);
    assert HasVoted(l, p, Of(blk));
    var t := s.(blocks := s.blocks[Of(blk) := blk], lastVote := blk.height, msgs := s.msgs + [VoteMsg(Vote(Of(blk), s.id, sig))]);
    assert p in Peers(l.f);
    assert GenuineSig(l, sig);
    assert NodeCore(l, strict, p, t);
    UpdateKeeps(l, strict, p, t, blk);
  }
}
