/** What moves chained HotStuff on: every vote is counted until its block has a quorum, and a leader proposes when it
    has reason to, once per height. */
module HotStuffProgress {
  import opened Quorums
  import opened HotStuffBlocks
  import opened HotStuffNode
  import opened HotStuffSafety
  import opened HotStuffRuns
  import opened HotStuffLeaf

  // ----- leaders

  lemma MulRises(n: nat, a: nat, b: nat)
    requires a < b
    ensures n * a + n <= n * b
  {
    assert n * a + n == n * (a + 1);
  }

  lemma Remainder(x: nat, n: nat, q: nat, r: nat)
    requires x == n * q + r && r < n
    ensures x % n == r
  {
    var d := x / n;
    assert x == n * d + x % n;
    if d < q {
      MulRises(n, d, q);
    } else if q < d {
      MulRises(n, q, d);
    }
  }

  lemma Succeeds(a: nat, n: nat)
    requires n > 0
    ensures (a + 1) % n == if a % n == n - 1 then 0 else a % n + 1
  {
    var q, r := a / n, a % n;
    assert a == n * q + r;
    if r == n - 1 {
      assert n * q + n == n * (q + 1);
      Remainder(a + 1, n, q + 1, 0);
    } else {
      Remainder(a + 1, n, q, r + 1);
    }
  }

  /** Genesis is replica 0's, and each height is led by the successor of the leader before. */
  lemma LeadersRotate(f: nat, height: nat)
    ensures Leader(f, 0) == 0
    ensures Leader(f, height + 1) == if Leader(f, height) == 3 * f then 0 else Leader(f, height) + 1
  {
    Succeeds(height, 3 * f + 1);
  }

  // ----- votes

  /** Votes for this block are still of use. */
  predicate Waiting(s: Node, d: Digest) {
    d in s.blocks && s.blocks[d].height > s.bLeaf.height
  }

  ghost predicate StoreKeyed(s: Node) {
    LeafStored(s) && forall d :: d in s.blocks ==> d == Of(s.blocks[d])
  }

  /** A vote that does not complete a quorum is added to those for its block, and nothing else is forgotten. */
  lemma VoteCounts(s: Node, v: Vote)
    requires !s.halted && Waiting(s, v.digest) && VerifyVote(v) && |VotesFor(s, v.digest)| < 2 * s.f
    ensures var t := OnVote(s, v);
      && t == s.(verifiedVotes := t.verifiedVotes) && VotesFor(t, v.digest) == VotesFor(s, v.digest) + [v]
      && forall d :: Waiting(s, d) && d != v.digest ==> VotesFor(t, d) == VotesFor(s, d)
  {
  }

  /** A vote for a block that is unknown or not above bLeaf changes nothing, and a forged one ends the replica. */
  lemma VoteIgnored(s: Node, v: Vote)
    requires !s.halted
    ensures var t := OnVote(s, v);
      && (!Waiting(s, v.digest) ==> t == s.(verifiedVotes := t.verifiedVotes) && forall d :: Waiting(s, d) ==> VotesFor(t, d) == VotesFor(s, d))
      && (Waiting(s, v.digest) && !VerifyVote(v) ==> t == s.(verifiedVotes := t.verifiedVotes, halted := true))
  {
  }

  /** Valid votes of different peers for one block. */
  predicate OneEach(votes: seq<Vote>, d: Digest) {
    && (forall i :: 0 <= i < |votes| ==> votes[i].digest == d && VerifyVote(votes[i]))
    && forall i, j :: 0 <= i < j < |votes| ==> votes[i].signer != votes[j].signer
  }

  function AllVotes(s: Node, votes: seq<Vote>): Node
    decreases |votes|
  {
    if votes == [] then s else OnVote(AllVotes(s, votes[..|votes| - 1]), votes[|votes| - 1])
  }

  lemma {:induction false} VotesGather(s: Node, d: Digest, votes: seq<Vote>)
    requires !s.halted && Waiting(s, d) && VotesFor(s, d) == [] && OneEach(votes, d) && |votes| <= 2 * s.f
    ensures var t := AllVotes(s, votes); t == s.(verifiedVotes := t.verifiedVotes) && VotesFor(t, d) == votes
    decreases |votes|
  {
    hide OnVote;
    if votes != [] {
      var n := |votes| - 1;
      VotesGather(s, d, votes[..n]);
      VoteCounts(AllVotes(s, votes[..n]), votes[n]);
      assert votes == votes[..n] + [votes[n]];
    }
  }

  /** bLeaf is now the block d, certified by these votes; and its leader has proposed on it, or had before. */
  ghost predicate Raised(s: Node, t: Node, d: Digest, votes: seq<Vote>)
    requires d in s.blocks
  {
    && !t.halted && t.bLeaf == s.blocks[d] && t.highQC.digest == d
    && t.highQC.sigs.Keys == (set i | 0 <= i < |votes| :: votes[i].signer)
    && if s.blocks[d].height > s.lastBeat && s.id == Leader(s.f, s.blocks[d].height + 1) then ProposedOn(s, t, s.blocks[d])
       else t.msgs == s.msgs
  }

  /** The votes of 2f+1 peers for a stored block above bLeaf make it bLeaf, with a certificate of exactly these
      votes; and the leader of the next height has then proposed on it, or had before. */
  lemma VotesRaiseLeaf(s: Node, d: Digest, votes: seq<Vote>)
    requires StoreKeyed(s) && !s.halted && Waiting(s, d) && VotesFor(s, d) == [] && OneEach(votes, d) && |votes| == 2 * s.f + 1
    ensures Raised(s, AllVotes(s, votes), d, votes)
  {
    hide AllVotes, StoreKeyed, Raised, VotesFor, OnVote;
    var n := 2 * s.f;
    VotesGather(s, d, votes[..n]);
    assert votes == votes[..n] + [votes[n]];
    AllVotesLast(s, votes);
    Completes(s, AllVotes(s, votes[..n]), votes[n], votes);
  }

  lemma AllVotesLast(s: Node, votes: seq<Vote>)
    requires votes != []
    ensures AllVotes(s, votes) == OnVote(AllVotes(s, votes[..|votes| - 1]), votes[|votes| - 1])
  {
  }

  lemma Completes(s: Node, u: Node, v: Vote, votes: seq<Vote>)
    requires StoreKeyed(s) && !s.halted && u == s.(verifiedVotes := u.verifiedVotes) && Waiting(s, v.digest) && VerifyVote(v)
    requires VotesFor(u, v.digest) + [v] == votes && OneEach(votes, v.digest) && |votes| == 2 * s.f + 1
    ensures Raised(s, OnVote(u, v), v.digest, votes)
  {
    hide CreateQuorumCert, OnVote, Beat, UpdateHighQC, StoreKeyed, VotesFor, ProposedOn, Raised, Leader;
    var d, r := v.digest, CreateQuorumCert(v.digest, map[], votes);
    Certifies(d, votes);
    Quorate(u, v, votes);
    var w := PruneVotes(u).(verifiedVotes := PruneVotes(u).verifiedVotes - {d});
    RaisedBy(s, w, r.qc, votes);
  }

  lemma Certifies(d: Digest, votes: seq<Vote>)
    requires OneEach(votes, d)
    ensures var r := CreateQuorumCert(d, map[], votes);
      r.Cert? && r.qc.digest == d && r.qc.sigs.Keys == (set i | 0 <= i < |votes| :: votes[i].signer)
  {
    CertContents(d, map[], votes);
    CertSigners(d, map[], votes);
    hide CreateQuorumCert;
    assert {} + (set i | 0 <= i < |votes| :: votes[i].signer) == (set i | 0 <= i < |votes| :: votes[i].signer);
  }

  lemma RaisedBy(s: Node, w: Node, qc: QuorumCert, votes: seq<Vote>)
    requires StoreKeyed(s) && !s.halted && w == s.(verifiedVotes := w.verifiedVotes) && Waiting(s, qc.digest)
    requires qc.sigs.Keys == (set i | 0 <= i < |votes| :: votes[i].signer)
    ensures var u := UpdateHighQC(w, qc); !u.halted && Raised(s, Beat(u), qc.digest, votes)
  {
    hide Beat, Leader, ProposedOn;
    UpdateSees(w, qc);
    var u := UpdateHighQC(w, qc);
    hide UpdateHighQC;
    BeatQuiet(u);
    if u.bLeaf.height > u.lastBeat && u.id == Leader(u.f, u.bLeaf.height + 1) {
      BeatProposes(u);
      ProposedSame(s, u, Beat(u), u.bLeaf);
    }
  }

  lemma ProposedSame(s: Node, u: Node, t: Node, b: Block)
    requires ProposedOn(u, t, b) && u.msgs == s.msgs && u.id == s.id && u.cmdQueue == s.cmdQueue
    ensures ProposedOn(s, t, b)
  {
  }

  lemma BeatQuiet(s: Node)
    ensures Beat(s).bLeaf == s.bLeaf && Beat(s).highQC == s.highQC && Beat(s).halted == s.halted
    ensures s.bLeaf.height <= s.lastBeat || s.id != Leader(s.f, s.bLeaf.height + 1) ==> Beat(s) == s
  {
  }

  lemma Quorate(s: Node, v: Vote, votes: seq<Vote>)
    requires !s.halted && Waiting(s, v.digest) && VerifyVote(v) && VotesFor(s, v.digest) + [v] == votes && |votes| == 2 * s.f + 1
    requires CreateQuorumCert(v.digest, map[], votes).Cert?
    ensures var t := PruneVotes(s);
      var u := UpdateHighQC(t.(verifiedVotes := t.verifiedVotes - {v.digest}), CreateQuorumCert(v.digest, map[], votes).qc);
      OnVote(s, v) == if u.halted then u else Beat(u)
  {
    hide CreateQuorumCert, UpdateHighQC, Beat;
    assert VotesFor(PruneVotes(s), v.digest) == VotesFor(s, v.digest);
  }

  lemma {:induction false} CertSigners(digest: Digest, sigs: map<PeerID, Signature>, votes: seq<Vote>)
    ensures var r := CreateQuorumCert(digest, sigs, votes);
      r.Cert? ==> r.qc.sigs.Keys == sigs.Keys + (set i | 0 <= i < |votes| :: votes[i].signer)
    decreases |votes|
  {
    if votes != [] {
      var rest := votes[1..];
      CertSigners(digest, sigs[votes[0].signer := votes[0].sig], rest);
      assert forall i :: 0 < i < |votes| ==> votes[i] == rest[i - 1];
      assert forall i :: 0 <= i < |rest| ==> rest[i] == votes[i + 1];
    }
  }

  // ----- proposals received

  /** b extends the lock, and all that lies between is stored. */
  ghost predicate Reaches(blocks: map<Digest, Block>, b: Block, lock: Block) {
    Extends(b, lock) && forall a :: Extends(b, a) && a != b && a.height >= lock.height ==> Of(a) in blocks
  }

  lemma {:induction false} WalkIff(blocks: map<Digest, Block>, b: Block, lock: Block)
    requires Chained(b)
    ensures WalkDown(blocks, b, lock.height) == Some(lock) <==> Reaches(blocks, b, lock)
  {
    if b.height <= lock.height {
      forall a | Extends(b, a) && a.height >= lock.height ensures a == b {
        AncestorHeights(b, a);
      }
      assert Extends(b, b);
    } else if b.parent.Of? {
      var up := b.parent.blk;
      forall a | Extends(up, a) ensures a != b {
        AncestorHeights(up, a);
      }
      assert Extends(b, up) && Extends(up, up);
      WalkIff(blocks, up, lock);
      if Reaches(blocks, b, lock) {
        forall a | Extends(up, a) && a != up && a.height >= lock.height ensures Of(a) in blocks {
          assert Extends(b, a);
        }
      }
    }
  }

  /** A proposal by the leader of its height, above the last vote and with a valid certificate, is voted for if and
      only if the certificate is for a stored block above the lock or the block extends the lock through stored
      blocks; from anybody else, or with another certificate, it ends the replica. */
  lemma VotesIff(s: Node, blk: Block)
    requires !s.halted && Chained(blk)
    ensures var t := OnPropose(s, blk);
      if blk.proposer != Leader(s.f, blk.height) then t == s.(halted := true)
      else if blk.height <= s.lastVote then t == s
      else if blk.qc.None? || !VerifyQuorumCert(blk.qc.value, s.f) then t == s.(halted := true)
      else if (blk.qc.value.digest in s.blocks && s.blocks[blk.qc.value.digest].height > s.bLock.height) || Reaches(s.blocks, blk, s.bLock)
      then t.msgs == s.msgs + [VoteMsg(Vote(Of(blk), s.id, Signed(s.id, Of(blk))))] && t.lastVote == blk.height
           && Of(blk) in t.blocks && t.blocks == s.blocks[Of(blk) := blk]
      else t == s
  {
    hide Reaches, WalkDown, Leader, VerifyQuorumCert, CastVote;
    WalkIff(s.blocks, blk, s.bLock);
    CastVoteIs(s, blk);
  }

  lemma CastVoteIs(s: Node, blk: Block)
    ensures var t := CastVote(s, blk);
      && t.msgs == s.msgs + [VoteMsg(Vote(Of(blk), s.id, Signed(s.id, Of(blk))))]
      && t.lastVote == blk.height && t.blocks == s.blocks[Of(blk) := blk]
  {
    hide LockAndDecide;
    var u := s.(blocks := s.blocks[Of(blk) := blk], lastVote := blk.height,
                msgs := s.msgs + [VoteMsg(Vote(Of(blk), s.id, Signed(s.id, Of(blk))))]);
    if QcRef(u.blocks, blk.qc).Some? {
      LockAndDecideFrame(UpdateHighQC(u, blk.qc.value), QcRef(u.blocks, blk.qc).value);
    }
  }

  // ----- new views and requests

  /** The peers that have reported this height, as long as bLeaf has not passed it. */
  function Reporters(s: Node, height: nat): set<PeerID> {
    if height in s.newView && height >= s.bLeaf.height then s.newView[height] else {}
  }

  /** The reports of 2f+1 peers for one height make the leader of the height after bLeaf propose; fewer do not,
      and no report is forgotten before bLeaf passes it. */
  lemma NewViewProposes(s: Node, from: PeerID, height: nat, qc: QuorumCert)
    requires StoreKeyed(s) && !s.halted
    ensures var t, told := OnNewView(s, from, height, Some(qc)), Reporters(s, height) + {from};
      && (if |told| >= 2 * s.f + 1 && t.bLeaf.height > s.lastBeat && s.id == Leader(s.f, t.bLeaf.height + 1)
          then ProposedOn(s, t, t.bLeaf) else t.msgs == s.msgs)
      && height in t.newView && t.newView[height] == told
      && forall h :: h != height && h >= s.bLeaf.height ==> Reporters(t, h) <= Reporters(s, h) && (h >= t.bLeaf.height ==> Reporters(t, h) == Reporters(s, h))
  {
    hide VerifyQuorumCert, UpdateHighQC, Beat, Leader, ProposedOn;
    var u := PruneViews(s);
    UpdateSees(u, qc);
    var w := if VerifyQuorumCert(qc, s.f) then UpdateHighQC(u, qc) else u;
    assert OnNewView(s, from, height, Some(qc)) == CountNewView(w, from, height);
    assert w == s.(newView := u.newView, highQC := w.highQC, bLeaf := w.bLeaf) && LeafStored(w) && w.bLeaf.height >= s.bLeaf.height;
    CountProposes(s, w, from, height);
  }

  lemma CountProposes(s: Node, w: Node, from: PeerID, height: nat)
    requires LeafStored(w) && w == s.(newView := PruneViews(s).newView, highQC := w.highQC, bLeaf := w.bLeaf) && w.bLeaf.height >= s.bLeaf.height
    ensures var t, told := CountNewView(w, from, height), Reporters(s, height) + {from};
      && (if |told| >= 2 * s.f + 1 && t.bLeaf.height > s.lastBeat && s.id == Leader(s.f, t.bLeaf.height + 1)
          then ProposedOn(s, t, t.bLeaf) else t.msgs == s.msgs)
      && height in t.newView && t.newView[height] == told
      && forall h :: h != height && h >= s.bLeaf.height ==> Reporters(t, h) <= Reporters(s, h) && (h >= t.bLeaf.height ==> Reporters(t, h) == Reporters(s, h))
  {
    hide Beat, Leader, ProposedOn;
    var told := Reporters(s, height) + {from};
    var x := w.(newView := w.newView[height := told]);
    BeatQuiet(x);
    BeatViews(x);
    if |told| >= 2 * s.f + 1 && x.bLeaf.height > s.lastBeat && s.id == Leader(s.f, x.bLeaf.height + 1) {
      BeatProposes(x);
      ProposedSame(s, x, Beat(x), x.bLeaf);
    }
  }

  lemma BeatViews(s: Node)
    ensures Beat(s).newView == s.newView && Beat(s).verifiedVotes == s.verifiedVotes
  {
  }

  /** A new-view message without a certificate ends the replica. */
  lemma NewViewNeedsCertificate(s: Node, from: PeerID, height: nat)
    ensures OnNewView(s, from, height, None).halted && OnNewView(s, from, height, None) == s.(halted := true)
  {
  }

  /** A request is queued behind the others, and proposed as soon as a proposal is due. */
  lemma RequestQueues(s: Node, cmd: Command)
    requires LeafStored(s) && !s.halted
    ensures var t := OnRequest(s, cmd);
      if s.bLeaf.height > s.lastBeat && s.id == Leader(s.f, s.bLeaf.height + 1)
      then ProposedOn(s.(cmdQueue := s.cmdQueue + [cmd]), t, s.bLeaf) else t == s.(cmdQueue := s.cmdQueue + [cmd])
  {
    hide Beat;
    BeatQuiet(s.(cmdQueue := s.cmdQueue + [cmd]));
    if s.bLeaf.height > s.lastBeat && s.id == Leader(s.f, s.bLeaf.height + 1) {
      BeatProposes(s.(cmdQueue := s.cmdQueue + [cmd]));
    }
  }

  /** Only the leader of height 1 has something to say at first: its proposal on genesis. */
  lemma FirstProposal(f: nat, id: PeerID)
    ensures var s := Initial(f, id);
      if id == Leader(f, 1)
      then |s.msgs| == 1 && s.msgs[0].Propose? && s.msgs[0].blk.parent == Of(GENESIS) && s.msgs[0].blk.height == 1
           && s.msgs[0].blk.proposer == id && s.msgs[0].blk.qc == Some(s.highQC) && Of(s.msgs[0].blk) in s.blocks
      else s.msgs == []
  {
  }

  // ----- one proposal per height

  /** The blocks proposed among the messages. */
  function Proposals(msgs: seq<Message>): seq<Block> {
    if msgs == [] then []
    else Proposals(msgs[..|msgs| - 1]) + if msgs[|msgs| - 1].Propose? then [msgs[|msgs| - 1].blk] else []
  }

  /** The replica has proposed at most one block, above the height of its last beat. */
  ghost predicate ProposesHigher(s: Node, t: Node) {
    || (Proposals(t.msgs) == Proposals(s.msgs) && t.lastBeat == s.lastBeat)
    || (s.lastBeat < t.lastBeat && exists blk :: Proposals(t.msgs) == Proposals(s.msgs) + [blk] && blk.height == t.lastBeat + 1)
  }

  lemma SaysNothing(s: Node, t: Node)
    requires t.lastBeat == s.lastBeat && (t.msgs == s.msgs || exists v :: t.msgs == s.msgs + [VoteMsg(v)])
    ensures ProposesHigher(s, t)
  {
    if t.msgs != s.msgs {
      assert t.msgs[..|t.msgs| - 1] == s.msgs;
    }
  }

  lemma BeatHigher(s: Node, t: Node)
    requires t.lastBeat == s.lastBeat && t.msgs == s.msgs
    ensures ProposesHigher(s, t) && ProposesHigher(s, Beat(t))
  {
    SaysNothing(s, t);
    var u := Beat(t);
    if u != t {
      var blk := NextBlock(t.(lastBeat := t.bLeaf.height));
      assert u.msgs == s.msgs + [Propose(blk)];
      assert u.msgs[..|u.msgs| - 1] == s.msgs;
      assert Proposals(u.msgs) == Proposals(s.msgs) + [blk];
    }
  }

  lemma CastVoteHigher(s: Node, blk: Block)
    ensures ProposesHigher(s, CastVote(s, blk))
  {
    hide CommitCmds, ThreeChain;
    SaysNothing(s, CastVote(s, blk));
  }

  lemma OnVoteHigher(s: Node, v: Vote)
    ensures ProposesHigher(s, OnVote(s, v))
  {
    hide Beat, CreateQuorumCert, ProposesHigher;
    forall t: Node | t.lastBeat == s.lastBeat && t.msgs == s.msgs ensures ProposesHigher(s, t) && ProposesHigher(s, Beat(t)) {
      BeatHigher(s, t);
    }
  }

  lemma OnNewViewHigher(s: Node, from: PeerID, height: nat, qc: Option<QuorumCert>)
    ensures ProposesHigher(s, OnNewView(s, from, height, qc))
  {
    hide Beat, VerifyQuorumCert, ProposesHigher;
    forall t: Node | t.lastBeat == s.lastBeat && t.msgs == s.msgs ensures ProposesHigher(s, t) && ProposesHigher(s, Beat(t)) {
      BeatHigher(s, t);
    }
  }

  datatype Input = Received(m: Message) | Requested(cmd: Command)

  function Take(s: Node, i: Input): Node {
    match i
    case Received(m) => Receive(s, m)
    case Requested(cmd) => OnRequest(s, cmd)
  }

  function TakeAll(s: Node, ins: seq<Input>): Node {
    if ins == [] then s else Take(TakeAll(s, ins[..|ins| - 1]), ins[|ins| - 1])
  }

  lemma TakesHigher(s: Node, i: Input)
    ensures ProposesHigher(s, Take(s, i))
  {
    hide ProposesHigher, OnVote, OnNewView, CastVote, Accepts, Safe, VerifyQuorumCert, Beat;
    SaysNothing(s, s);
    SaysNothing(s, s.(halted := true));
    match i
    case Requested(cmd) => BeatHigher(s, s.(cmdQueue := s.cmdQueue + [cmd]));
    case Received(m) =>
      match m
      case Propose(blk) => CastVoteHigher(s, blk);
      case VoteMsg(v) => OnVoteHigher(s, v);
      case NewView(from, height, qc) => OnNewViewHigher(s, from, height, qc);
  }

  ghost predicate Rising(s: Node) {
    var bs := Proposals(s.msgs);
    && (forall i, j :: 0 <= i < j < |bs| ==> bs[i].height < bs[j].height)
    && (forall i :: 0 <= i < |bs| ==> bs[i].height <= s.lastBeat + 1)
  }

  lemma RisesOn(s: Node, t: Node)
    requires Rising(s) && ProposesHigher(s, t)
    ensures Rising(t)
  {
    hide Proposals;
  }

  /** Whatever a replica receives and is asked for, the blocks that it proposes rise strictly: one per height at
      most. */
  lemma {:induction false} ProposalsRise(f: nat, id: PeerID, ins: seq<Input>)
    ensures Rising(TakeAll(Initial(f, id), ins))
    decreases |ins|
  {
    hide Initial, Take, Proposals, ProposesHigher;
    if ins == [] {
      FirstProposals(f, id);
    } else {
      ProposalsRise(f, id, ins[..|ins| - 1]);
      var s := TakeAll(Initial(f, id), ins[..|ins| - 1]);
      TakesHigher(s, ins[|ins| - 1]);
      RisesOn(s, Take(s, ins[|ins| - 1]));
    }
  }

  lemma FirstProposals(f: nat, id: PeerID)
    ensures var t := Initial(f, id); |Proposals(t.msgs)| <= 1 && forall i :: 0 <= i < |Proposals(t.msgs)| ==> Proposals(t.msgs)[i].height == 1
  {
    var t := Initial(f, id);
    if t.msgs != [] {
      assert t.msgs[..0] == [];
    }
  }
}
