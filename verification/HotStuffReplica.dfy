/** A chained HotStuff replica in the form of protocols/chainhotstuff: fields that the handlers update.
    Every handler is proved to take State() where the functions of HotStuffNode say. */
module HotStuffReplica {
  import opened Quorums
  import opened HotStuffBlocks
  import opened HotStuffNode

  /** createQuorumCert: a certificate exactly when all votes are for digest and no signer votes twice. */
  method BuildQuorumCert(digest: Digest, votes: seq<Vote>) returns (r: CertResult)
    ensures r == CreateQuorumCert(digest, map[], votes)
  {
    var sigs: map<PeerID, Signature> := map[];
    for i := 0 to |votes|
      invariant CreateQuorumCert(digest, map[], votes) == CreateQuorumCert(digest, sigs, votes[i..])
    {
      assert votes[i..][0] == votes[i] && votes[i..][1..] == votes[i + 1..];
      if votes[i].digest != digest {
        return Refused(HashMismatch);
      }
      if votes[i].signer in sigs {
        return Refused(PartialDuplicate);
      }
      sigs := sigs[votes[i].signer := votes[i].sig];
    }
    return Cert(QuorumCert(digest, sigs));
  }

  /** verifyQuorumCert: count the entries that verify. */
  method CheckQuorumCert(qc: QuorumCert, quorumSize: nat) returns (ok: bool)
    ensures ok <==> qc.digest == Of(GENESIS) || |ValidSigners(qc)| >= quorumSize
  {
    if qc.digest == Of(GENESIS) {
      return true;
    }
    if |qc.sigs| < quorumSize {
      ValidSignersBound(qc);
      return false;
    }
    var todo := qc.sigs.Keys;
    var count := 0;
    ghost var seen: set<PeerID> := {};
    while todo != {}
      invariant todo <= qc.sigs.Keys && seen <= ValidSigners(qc)
      invariant seen == ValidSigners(qc) - todo && count == |seen|
      decreases todo
    {
      var p :| p in todo;
      if qc.sigs[p] == Signed(p, qc.digest) {
        count := count + 1;
        seen := seen + {p};
      }
      todo := todo - {p};
    }
    assert seen == ValidSigners(qc);
    return count >= quorumSize;
  }

  lemma ValidSignersBound(qc: QuorumCert)
    ensures |ValidSigners(qc)| <= |qc.sigs|
  {
    SubsetSize(ValidSigners(qc), qc.sigs.Keys);
  }

  class Replica {
    const id: PeerID
    const f: nat
    var blocks: map<Digest, Block>
    var lastVote: nat
    var bLock: Block
    var bExec: Block
    var bLeaf: Block
    var highQC: QuorumCert
    var verifiedVotes: map<Digest, seq<Vote>>
    var newView: map<nat, set<PeerID>>
    var lastBeat: nat
    var cmdQueue: seq<Command>
    var msgs: seq<Message>
    var executed: seq<Command>
    var halted: bool

    ghost function State(): Node
      reads this
    {
      Node(id, f, blocks, lastVote, bLock, bExec, bLeaf, highQC, verifiedVotes, newView, lastBeat, cmdQueue, msgs, executed, halted)
    }

    /** The store is keyed by digest. */
    ghost predicate Valid()
      reads this
    {
      forall d :: d in blocks ==> d == Of(blocks[d])
    }

    constructor (id: PeerID, f: nat)
      ensures Valid() && State() == Initial(f, id)
    {
      this.id, this.f := id, f;
      blocks := map[Of(GENESIS) := GENESIS];
      lastVote, bLock, bExec, bLeaf := 0, GENESIS, GENESIS, GENESIS;
      highQC := QuorumCert(Of(GENESIS), map[]);
      verifiedVotes, newView, lastBeat := map[], map[], 0;
      cmdQueue, msgs, executed, halted := [], [], [], false;
      new;
      if id == Leader(f, 1) {
        ProposeBlock();
      }
    }

    method ProposeBlock()
      requires Valid()
      modifies this
      ensures Valid() && State() == ProposeNext(old(State()))
    {
      var cmd := None;
      if cmdQueue != [] {
        cmd := Some(cmdQueue[0]);
        cmdQueue := cmdQueue[1..];
      }
      var blk := Block(Of(bLeaf), cmd, bLeaf.height + 1, Some(highQC), id);
      blocks := blocks[Of(blk) := blk];
      msgs := msgs + [Propose(blk)];
    }

    method DoBeat()
      requires Valid()
      modifies this
      ensures Valid() && State() == Beat(old(State()))
    {
      var view := bLeaf.height;
      if view <= lastBeat {
        return;
      }
      if id != Leader(f, view + 1) {
        return;
      }
      lastBeat := view;
      ProposeBlock();
    }

    /** The two tests of onProposeContinue; the second one walks from blk towards the lock. */
    method IsSafe(blk: Block) returns (safe: bool)
      requires Valid() && blk.qc.Some?
      ensures safe == Safe(State(), blk)
    {
      var qd := blk.qc.value.digest;
      if qd in blocks && blocks[qd].height > bLock.height {
        return true;
      }
      var b, ok := blk, true;
      while ok && b.height > bLock.height
        invariant ok ==> WalkDown(blocks, blk, bLock.height) == WalkDown(blocks, b, bLock.height)
        invariant !ok ==> WalkDown(blocks, blk, bLock.height) == None
        decreases ok, b
      {
        if b.parent in blocks {
          assert b.parent == Of(blocks[b.parent]);
          b := blocks[b.parent];
        } else {
          ok := false;
        }
      }
      return ok && b == bLock;
    }

    method HandlePropose(blk: Block)
      requires Valid()
      modifies this
      ensures Valid() && State() == OnPropose(old(State()), blk)
    {
      if halted {
        return;
      }
      if blk.proposer != Leader(f, blk.height) {
        halted := true;
        return;
      }
      if blk.height <= lastVote {
        return;
      }
      if blk.qc.None? {
        halted := true;
        return;
      }
      var verified := CheckQuorumCert(blk.qc.value, 2 * f + 1);
      if !verified {
        halted := true;
        return;
      }
      var safe := IsSafe(blk);
      if !safe {
        return;
      }
      blocks := blocks[Of(blk) := blk];
      lastVote := blk.height;
      msgs := msgs + [VoteMsg(Vote(Of(blk), id, Signed(id, Of(blk))))];
      DoUpdate(blk);
    }

    method DoUpdateHighQC(qc: QuorumCert)
      requires Valid()
      modifies this
      ensures Valid() && State() == UpdateHighQC(old(State()), qc)
    {
      if qc.digest !in blocks {
        return;
      }
      if highQC.digest !in blocks {
        halted := true;
        return;
      }
      var newBlock, oldBlock := blocks[qc.digest], blocks[highQC.digest];
      if newBlock.height > oldBlock.height {
        highQC := qc;
        bLeaf := newBlock;
      }
    }

    method DoUpdate(blk: Block)
      requires Valid() && !halted
      modifies this
      ensures Valid() && State() == Update(old(State()), blk)
    {
      if blk.qc.None? || blk.qc.value.digest !in blocks {
        return;
      }
      var block1 := blocks[blk.qc.value.digest];
      DoUpdateHighQC(blk.qc.value);
      if halted {
        return;
      }
      if block1.qc.None? || block1.qc.value.digest !in blocks {
        return;
      }
      var block2 := blocks[block1.qc.value.digest];
      if block2.height > bLock.height {
        bLock := block2;
      }
      if block2.qc.None? || block2.qc.value.digest !in blocks {
        return;
      }
      var block3 := blocks[block2.qc.value.digest];
      if block1.parent == Of(block2) && block2.parent == Of(block3) {
        DoCommit(block3);
        bExec := block3;
      }
    }

    method DoCommit(blk: Block)
      requires Valid()
      modifies this`executed
      ensures executed == old(executed) + CommitCmds(blocks, bExec.height, blk)
      decreases blk
    {
      if bExec.height < blk.height {
        if blk.parent in blocks {
          assert blk.parent == Of(blocks[blk.parent]);
          DoCommit(blocks[blk.parent]);
        }
        if blk.qc.None? || blk.cmd.None? {
          return;
        }
        executed := executed + [blk.cmd.value];
      }
    }

    /** The deferred deletions of onVote. */
    method PruneVerifiedVotes()
      requires Valid()
      modifies this`verifiedVotes
      ensures State() == PruneVotes(old(State()))
    {
      var todo := verifiedVotes.Keys;
      while todo != {}
        invariant todo <= old(verifiedVotes).Keys
        invariant verifiedVotes == map d | d in old(verifiedVotes) && (d in todo || (d in blocks && blocks[d].height > bLeaf.height)) :: old(verifiedVotes)[d]
        decreases todo
      {
        var d :| d in todo;
        if d !in blocks || blocks[d].height <= bLeaf.height {
          verifiedVotes := verifiedVotes - {d};
        }
        todo := todo - {d};
      }
    }

    method HandleVote(v: Vote)
      requires Valid()
      modifies this
      ensures Valid() && State() == OnVote(old(State()), v)
    {
      if halted {
        return;
      }
      var skip := v.digest !in blocks || blocks[v.digest].height <= bLeaf.height;
      PruneVerifiedVotes();
      if skip {
        return;
      }
      if !VerifyVote(v) {
        halted := true;
        return;
      }
      HandleVerifiedVote(v);
    }

    method HandleVerifiedVote(v: Vote)
      requires Valid()
      modifies this
      ensures Valid() && State() == OnVoteContinue(old(State()), v)
    {
      ghost var s := State();
      var votes := [v];
      if v.digest in verifiedVotes {
        votes := verifiedVotes[v.digest] + [v];
      }
      assert votes == VotesFor(s, v.digest) + [v];
      verifiedVotes := verifiedVotes[v.digest := votes];
      assert State() == s.(verifiedVotes := s.verifiedVotes[v.digest := votes]);
      if |votes| < 2 * f + 1 {
        return;
      }
      var r := BuildQuorumCert(v.digest, votes);
      if r.Refused? {
        halted := true;
        return;
      }
      verifiedVotes := verifiedVotes - {v.digest};
      assert verifiedVotes == s.verifiedVotes - {v.digest};
      assert State() == s.(verifiedVotes := s.verifiedVotes - {v.digest});
      DoUpdateHighQC(r.qc);
      if halted {
        return;
      }
      DoBeat();
    }

    method HandleNewView(from: PeerID, height: nat, qc: Option<QuorumCert>)
      requires Valid()
      modifies this
      ensures Valid() && State() == OnNewView(old(State()), from, height, qc)
    {
      if halted {
        return;
      }
      if qc.None? {
        halted := true;
        return;
      }
      newView := map h | h in newView && h >= bLeaf.height :: newView[h];
      var verified := CheckQuorumCert(qc.value, 2 * f + 1);
      if verified {
        DoUpdateHighQC(qc.value);
        if halted {
          return;
        }
      }
      var senders := {from};
      if height in newView {
        senders := newView[height] + {from};
      }
      newView := newView[height := senders];
      if |senders| < 2 * f + 1 {
        return;
      }
      DoBeat();
    }

    method HandleRequest(cmd: Command)
      requires Valid()
      modifies this
      ensures Valid() && State() == OnRequest(old(State()), cmd)
    {
      if halted {
        return;
      }
      cmdQueue := cmdQueue + [cmd];
      DoBeat();
    }
  }
}
