/** highQC and bLeaf of chained HotStuff: the highest certified block that a replica has come to know, from a
    proposal, from votes or from a new-view message; and what the next leader proposes on it. */
module HotStuffLeaf {
  import opened Quorums
  import opened HotStuffBlocks
  import opened HotStuffNode
  import opened HotStuffSafety
  import opened HotStuffRuns
  import opened HotStuffSystem

  function Max(a: nat, b: nat): nat {
    if a < b then b else a
  }

  /** highQC is for bLeaf, and bLeaf is stored. */
  predicate LeafStored(s: Node) {
    s.highQC.digest == Of(s.bLeaf) && Of(s.bLeaf) in s.blocks && s.blocks[Of(s.bLeaf)] == s.bLeaf
  }

  /** No stored block is certified above bLeaf, nor is the lock. */
  ghost predicate Leads(s: Node) {
    && s.bLock.height <= s.bLeaf.height
    && forall d :: d in s.blocks && s.blocks[d] != GENESIS ==> HasQcBlock(s.blocks[d]) && QcBlock(s.blocks[d]).height <= s.bLeaf.height
  }

  /** A certificate for a stored block of this height has been looked at. */
  ghost predicate Saw(s: Node, t: Node, qc: QuorumCert, height: nat) {
    && t.bLeaf.height == Max(s.bLeaf.height, height) && t.highQC.digest == Of(t.bLeaf)
    && (height > s.bLeaf.height ==> t.highQC == qc && Of(t.bLeaf) == qc.digest)
    && (height <= s.bLeaf.height ==> t.highQC == s.highQC && t.bLeaf == s.bLeaf)
  }

  lemma CoreStored(l: Ledger, strict: bool, p: PeerID, s: Node)
    requires NodeCore(l, strict, p, s)
    ensures LeafStored(s)
    ensures forall d :: d in s.blocks ==> d == Of(s.blocks[d]) && (s.blocks[d] == GENESIS || WellFormed(s.blocks[d]))
    ensures Certified(l, s.bLeaf)
  {
    forall d | d in s.blocks ensures d == Of(s.blocks[d]) && (s.blocks[d] == GENESIS || WellFormed(s.blocks[d])) {
      assert s.blocks[d] == GENESIS || StoredOK(l, strict, s.blocks, s.bLock.height, s.blocks[d]);
    }
  }

  // ----- updateHighQC

  lemma UpdateSees(s: Node, qc: QuorumCert)
    requires LeafStored(s) && !s.halted && forall d :: d in s.blocks ==> d == Of(s.blocks[d])
    ensures var t := UpdateHighQC(s, qc);
      && t == s.(highQC := t.highQC, bLeaf := t.bLeaf) && LeafStored(t)
      && (qc.digest in s.blocks ==> Saw(s, t, qc, s.blocks[qc.digest].height))
      && (qc.digest !in s.blocks ==> t == s)
  {
  }

  // ----- proposals

  /** The lock that update takes is certified by a stored block that bLeaf has reached. */
  lemma LockBelow(s: Node, b1: Block)
    requires s.bLock.height <= s.bLeaf.height && b1.height <= s.bLeaf.height
    requires b1 == GENESIS || WellFormed(b1)
    requires forall d :: d in s.blocks ==> d == Of(s.blocks[d])
    ensures var t := LockAndDecide(s, b1);
      t.bLock.height <= t.bLeaf.height && t.bLeaf == s.bLeaf && t.highQC == s.highQC && t.blocks == s.blocks
  {
    hide ThreeChain, CommitCmds;
    if b1 != GENESIS {
      QcBlockBelow(b1);
    }
  }

  /** A vote leaves bLeaf at the higher of what it was and the block that the proposal certifies. */
  lemma VoteSees(l: Ledger, strict: bool, p: PeerID, s: Node, blk: Block)
    requires LedgerOK(l) && NodeCore(l, strict, p, s) && Leads(s)
    requires Unforged(l, Propose(blk)) && ProperProposal(strict, Propose(blk)) && Accepts(s, blk)
    ensures var t := CastVote(s, blk);
      && Leads(t)
      && (Of(QcBlock(blk)) in s.blocks ==> Saw(s, t, blk.qc.value, QcBlock(blk).height))
      && (Of(QcBlock(blk)) !in s.blocks ==> t.bLeaf == s.bLeaf && t.highQC == s.highQC)
      && QcBlock(blk).height <= t.bLeaf.height
  {
    hide NodeCore, Accepts, LedgerOK, WellFormed, Certified, LockAndDecide, UpdateHighQC;
    AcceptsUnhalted(s, blk);
    AcceptsMeansVoteOK(l, strict, p, s, blk);
    CoreStored(l, strict, p, s);
    StoredWell(l, strict, s, blk);
    StoredSees(s, blk);
  }

  lemma AcceptsUnhalted(s: Node, blk: Block)
    requires Accepts(s, blk)
    ensures !s.halted && blk.qc.Some?
  {
    hide VerifyQuorumCert, Safe;
  }

  lemma StoredWell(l: Ledger, strict: bool, s: Node, blk: Block)
    requires StoredOK(l, strict, s.blocks, s.bLock.height, blk)
    ensures WellFormed(blk) && HasQcBlock(blk) && (Of(QcBlock(blk)) in s.blocks || QcBlock(blk).height <= s.bLock.height)
  {
  }

  /** The same of a replica whose store is in order. */
  lemma StoredSees(s: Node, blk: Block)
    requires LeafStored(s) && Leads(s) && !s.halted && WellFormed(blk) && HasQcBlock(blk)
    requires forall d :: d in s.blocks ==> d == Of(s.blocks[d]) && (s.blocks[d] == GENESIS || WellFormed(s.blocks[d]))
    requires Of(QcBlock(blk)) in s.blocks || QcBlock(blk).height <= s.bLock.height
    ensures var t := CastVote(s, blk);
      && Leads(t)
      && (Of(QcBlock(blk)) in s.blocks ==> Saw(s, t, blk.qc.value, QcBlock(blk).height))
      && (Of(QcBlock(blk)) !in s.blocks ==> t.bLeaf == s.bLeaf && t.highQC == s.highQC)
      && QcBlock(blk).height <= t.bLeaf.height
  {
    hide WellFormed, LockAndDecide, UpdateHighQC;
    QcBlockBelow(blk);
    var q := QcBlock(blk);
    var u := s.(blocks := s.blocks[Of(blk) := blk], lastVote := blk.height,
                msgs := s.msgs + [VoteMsg(Vote(Of(blk), s.id, Signed(s.id, Of(blk))))]);
    assert Of(q) in u.blocks <==> Of(q) in s.blocks;
    UpdateSees(u, blk.qc.value);
    if Of(q) in s.blocks {
      assert s.blocks[Of(q)] == q;
      LockBelow(UpdateHighQC(u, blk.qc.value), q);
    }
  }

  // ----- votes and new views

  lemma BeatLeads(s: Node)
    requires LeafStored(s) && Leads(s)
    ensures var t := Beat(s); Leads(t) && LeafStored(t) && t.bLeaf == s.bLeaf && t.highQC == s.highQC
  {
  }

  lemma SawLeads(s: Node, qc: QuorumCert)
    requires LeafStored(s) && Leads(s) && !s.halted && forall d :: d in s.blocks ==> d == Of(s.blocks[d])
    ensures Leads(UpdateHighQC(s, qc)) && LeafStored(UpdateHighQC(s, qc))
  {
    UpdateSees(s, qc);
    hide UpdateHighQC;
  }

  /** The votes that make a certificate: bLeaf is at least the block voted for. */
  lemma QuorumSees(l: Ledger, strict: bool, p: PeerID, s: Node, v: Vote)
    requires NodeCore(l, strict, p, s) && Leads(s) && !s.halted && v.digest in s.blocks
    ensures var t, votes := OnVoteContinue(s, v), VotesFor(s, v.digest) + [v];
      && Leads(t) && LeafStored(t)
      && (|votes| >= 2 * s.f + 1 && CreateQuorumCert(v.digest, map[], votes).Cert? ==>
            Saw(s, t, CreateQuorumCert(v.digest, map[], votes).qc, s.blocks[v.digest].height))
      && (t.bLeaf == s.bLeaf || t.bLeaf.height > s.bLeaf.height)
  {
    hide NodeCore, CreateQuorumCert, UpdateHighQC, Beat;
    CoreStored(l, strict, p, s);
    var votes := VotesFor(s, v.digest) + [v];
    CertDigest(v.digest, votes);
    if |votes| >= 2 * s.f + 1 && CreateQuorumCert(v.digest, map[], votes).Cert? {
      var qc := CreateQuorumCert(v.digest, map[], votes).qc;
      var u := s.(verifiedVotes := s.verifiedVotes - {v.digest});
      UpdateSees(u, qc);
      SawLeads(u, qc);
      BeatLeads(UpdateHighQC(u, qc));
    }
  }

  lemma CertDigest(digest: Digest, votes: seq<Vote>)
    ensures CreateQuorumCert(digest, map[], votes).Cert? ==> CreateQuorumCert(digest, map[], votes).qc.digest == digest
  {
    CertContents(digest, map[], votes);
  }

  /** The last message of t proposes the next command on b, one higher and with a certificate for b. */
  predicate ProposedOn(s: Node, t: Node, b: Block) {
    |t.msgs| > |s.msgs| && t.msgs[|t.msgs| - 1].Propose?
    && var blk := t.msgs[|t.msgs| - 1].blk;
      && blk.parent == Of(b) && blk.height == b.height + 1 && blk.proposer == s.id && HasQcBlock(blk) && QcBlock(blk) == b
      && (if s.cmdQueue == [] then blk.cmd == None && t.cmdQueue == []
          else blk.cmd == Some(s.cmdQueue[0]) && s.cmdQueue == [s.cmdQueue[0]] + t.cmdQueue)
  }

  /** And the leader of the next height proposes on it: a block one higher, with the new certificate. */
  lemma QuorumProposes(l: Ledger, strict: bool, p: PeerID, s: Node, v: Vote)
    requires NodeCore(l, strict, p, s) && !s.halted && v.digest in s.blocks
    requires var votes := VotesFor(s, v.digest) + [v];
      |votes| >= 2 * s.f + 1 && CreateQuorumCert(v.digest, map[], votes).Cert?
    requires var b := s.blocks[v.digest]; b.height > s.bLeaf.height && b.height > s.lastBeat && s.id == Leader(s.f, b.height + 1)
    ensures ProposedOn(s, OnVoteContinue(s, v), s.blocks[v.digest])
  {
    hide NodeCore, CreateQuorumCert, UpdateHighQC, Beat;
    CoreStored(l, strict, p, s);
    var votes := VotesFor(s, v.digest) + [v];
    CertDigest(v.digest, votes);
    var u, qc := s.(verifiedVotes := s.verifiedVotes - {v.digest}), CreateQuorumCert(v.digest, map[], votes).qc;
    UpdateSees(u, qc);
    BeatProposes(UpdateHighQC(u, qc));
  }

  lemma BeatProposes(s: Node)
    requires LeafStored(s) && s.bLeaf.height > s.lastBeat && s.id == Leader(s.f, s.bLeaf.height + 1)
    ensures ProposedOn(s, Beat(s), s.bLeaf)
  {
  }

  /** A new-view message with a valid certificate of a stored block. */
  lemma NewViewSees(l: Ledger, strict: bool, p: PeerID, s: Node, from: PeerID, height: nat, qc: QuorumCert)
    requires NodeCore(l, strict, p, s) && Leads(s) && !s.halted
    ensures var t := OnNewView(s, from, height, Some(qc));
      && Leads(t) && LeafStored(t)
      && (VerifyQuorumCert(qc, s.f) && qc.digest in s.blocks ==> Saw(s, t, qc, s.blocks[qc.digest].height))
      && (!VerifyQuorumCert(qc, s.f) || qc.digest !in s.blocks ==> t.bLeaf == s.bLeaf && t.highQC == s.highQC)
      && (t.bLeaf == s.bLeaf || t.bLeaf.height > s.bLeaf.height)
  {
    hide NodeCore, VerifyQuorumCert, UpdateHighQC, Beat, Leads;
    CoreStored(l, strict, p, s);
    var u := PruneViews(s);
    LeadsPruned(s);
    UpdateSees(u, qc);
    SawLeads(u, qc);
    var w := if VerifyQuorumCert(qc, s.f) then UpdateHighQC(u, qc) else u;
    CountLeads(w, from, height);
    hide CountNewView;
  }

  lemma LeadsPruned(s: Node)
    requires Leads(s)
    ensures Leads(PruneViews(s))
  {
  }

  lemma CountLeads(s: Node, from: PeerID, height: nat)
    requires LeafStored(s) && Leads(s)
    ensures var t := CountNewView(s, from, height); Leads(t) && LeafStored(t) && t.bLeaf == s.bLeaf && t.highQC == s.highQC
  {
    hide Beat;
    var senders := (if height in s.newView then s.newView[height] else {}) + {from};
    BeatLeads(s.(newView := s.newView[height := senders]));
  }

  // ----- runs

  ghost predicate AllLead(sys: System) {
    forall p :: p in sys.nodes ==> Leads(sys.nodes[p])
  }

  /** One message: bLeaf does not fall, and goes on to lead. */
  lemma ReceiveLeads(l: Ledger, strict: bool, p: PeerID, s: Node, m: Message)
    requires LedgerOK(l) && GoodNode(l, strict, p, s) && Leads(s) && GoodMessage(l, strict, m)
    ensures Leads(Receive(s, m)) && Receive(s, m).bLeaf.height >= s.bLeaf.height
  {
    assert NodeCore(l, strict, p, s);
    hide GoodNode, NodeCore, Leads, LedgerOK, CastVote, OnVoteContinue, VerifyQuorumCert;
    LeadsSame(s);
    match m
    case Propose(blk) =>
      if Accepts(s, blk) {
        AcceptedCastsVote(s, blk);
        VoteSees(l, strict, p, s, blk);
      } else {
        RefusedKeeps(s, blk);
      }
    case VoteMsg(v) =>
      if !s.halted {
        PrunedCore(l, strict, p, s);
        if v.digest in s.blocks && VerifyVote(v) {
          QuorumSees(l, strict, p, PruneVotes(s), v);
        }
      }
    case NewView(from, height, qc) =>
      if !s.halted && qc.Some? {
        NewViewSees(l, strict, p, s, from, height, qc.value);
      }
  }

  lemma LeadsSame(s: Node)
    requires Leads(s)
    ensures Leads(s.(halted := true)) && Leads(PruneVotes(s)) && Leads(PruneVotes(s).(halted := true))
  {
  }

  lemma RefusedKeeps(s: Node, blk: Block)
    requires !Accepts(s, blk)
    ensures OnPropose(s, blk) == s || OnPropose(s, blk) == s.(halted := true)
  {
    hide VerifyQuorumCert, Safe, CastVote;
  }

  lemma PrunedCore(l: Ledger, strict: bool, p: PeerID, s: Node)
    requires NodeCore(l, strict, p, s)
    ensures NodeCore(l, strict, p, PruneVotes(s))
  {
  }

  lemma RequestLeads(l: Ledger, strict: bool, p: PeerID, s: Node, cmd: Command)
    requires NodeCore(l, strict, p, s) && Leads(s)
    ensures Leads(OnRequest(s, cmd)) && OnRequest(s, cmd).bLeaf == s.bLeaf
  {
    CoreStored(l, strict, p, s);
    hide NodeCore;
    BeatLeads(s.(cmdQueue := s.cmdQueue + [cmd]));
    hide Beat;
  }

  /** The height of bLeaf over one step of any run, and what highQC is for. */
  lemma LeafOnlyRises(sys: System, strict: bool, e: Event, p: PeerID)
    requires SystemOK(sys, strict) && AllLead(sys) && Enabled(sys, strict, e) && p in sys.nodes
    ensures p in After(sys, e).nodes && After(sys, e).nodes[p].bLeaf.height >= sys.nodes[p].bLeaf.height
    ensures Leads(After(sys, e).nodes[p])
    ensures var t := After(sys, e).nodes[p]; t.highQC.digest == Of(t.bLeaf) && Certified(After(sys, e).ledger, t.bLeaf)
  {
    hide LedgerOK, Receive, OnRequest, Accepts, GoodMessage, Leads, Certified;
    StepKeeps(sys, strict, e);
    NodeStep(sys, strict, e, p);
    CoreStored(After(sys, e).ledger, strict, p, After(sys, e).nodes[p]) by { NodeIsGood(After(sys, e), strict, p); }
    NodeIsGood(sys, strict, p);
    match e
    case Adversary(_) =>
    case Request(_, cmd) =>
      RequestLeads(sys.ledger, strict, p, sys.nodes[p], cmd);
      Cleared(OnRequest(sys.nodes[p], cmd));
    case Deliver(_, m) =>
      MessageIsGood(sys, strict, m);
      ReceiveLeads(sys.ledger, strict, p, sys.nodes[p], m);
      Cleared(Receive(sys.nodes[p], m));
  }

  lemma Cleared(s: Node)
    requires Leads(s)
    ensures Leads(s.(msgs := []))
  {
  }

  lemma NodeIsGood(sys: System, strict: bool, p: PeerID)
    requires SystemOK(sys, strict) && p in sys.nodes
    ensures GoodNode(sys.ledger, strict, p, sys.nodes[p]) && NodeCore(sys.ledger, strict, p, sys.nodes[p]) && LedgerOK(sys.ledger)
  {
  }

  lemma MessageIsGood(sys: System, strict: bool, m: Message)
    requires SystemOK(sys, strict) && m in sys.net
    ensures GoodMessage(sys.ledger, strict, m)
  {
    hide GoodNode, GoodMessage;
  }

  lemma StepLeads(sys: System, strict: bool, e: Event)
    requires SystemOK(sys, strict) && AllLead(sys) && Enabled(sys, strict, e)
    ensures SameKeys(sys) && (e.Deliver? ==> e.to in sys.nodes) && (e.Request? ==> e.at in sys.nodes)
    ensures AllLead(After(sys, e))
  {
    Members(sys, strict, e);
    hide SystemOK, Enabled, After, Leads;
    StepKeys(sys, e);
    forall p | p in After(sys, e).nodes ensures Leads(After(sys, e).nodes[p]) {
      LeafOnlyRises(sys, strict, e, p);
    }
  }

  lemma Members(sys: System, strict: bool, e: Event)
    requires SystemOK(sys, strict) && Enabled(sys, strict, e)
    ensures SameKeys(sys) && (e.Deliver? ==> e.to in sys.nodes) && (e.Request? ==> e.at in sys.nodes)
  {
    hide LedgerOK, GoodNodesExcept, GoodNet, GoodDecisions;
  }

  lemma StepKeys(sys: System, e: Event)
    requires SameKeys(sys) && (e.Deliver? ==> e.to in sys.nodes) && (e.Request? ==> e.at in sys.nodes)
    ensures After(sys, e).nodes.Keys == sys.nodes.Keys
  {
    hide Receive, OnRequest, Accepts;
  }

  lemma {:induction false} RunLeads(sys: System, strict: bool, es: seq<Event>)
    requires SystemOK(sys, strict) && ValidRun(sys, strict, es) && AllLead(sys)
    ensures AllLead(Final(sys, strict, es))
    decreases |es|
  {
    hide SystemOK, Enabled, After, AllLead;
    if es != [] {
      StepKeeps(sys, strict, es[0]);
      StepLeads(sys, strict, es[0]);
      RunLeads(After(sys, es[0]), strict, es[1..]);
    }
  }

  lemma InitialLeads(f: nat, p: PeerID)
    ensures Leads(Initial(f, p).(msgs := []))
  {
  }

  /** In every run no correct replica has stored a block that certifies anything above its bLeaf, and no lock is
      above it: bLeaf is the highest certified block that the replica has voted on. */
  lemma LeafIsHighest(f: nat, faulty: set<PeerID>, strict: bool, es: seq<Event>, end: System, p: PeerID, d: Digest)
    requires RunEnds(f, faulty, strict, es, end) && p in end.nodes
    ensures var s := end.nodes[p];
      && s.bLock.height <= s.bLeaf.height && s.highQC.digest == Of(s.bLeaf) && Certified(end.ledger, s.bLeaf)
      && (d in s.blocks && s.blocks[d] != GENESIS ==> HasQcBlock(s.blocks[d]) && QcBlock(s.blocks[d]).height <= s.bLeaf.height)
  {
    InitialOK(f, faulty, strict);
    hide SystemOK, Initial, Certified, Leads;
    var start := InitialSystem(f, faulty);
    forall q | q in start.nodes ensures Leads(start.nodes[q]) {
      InitialLeads(f, q);
    }
    RunLeads(start, strict, es);
    NodeIsGood(end, strict, p);
    CoreStored(end.ledger, strict, p, end.nodes[p]);
    LeadsIs(end.nodes[p], d);
  }

  lemma LeadsIs(s: Node, d: Digest)
    requires Leads(s)
    ensures s.bLock.height <= s.bLeaf.height
    ensures d in s.blocks && s.blocks[d] != GENESIS ==> HasQcBlock(s.blocks[d]) && QcBlock(s.blocks[d]).height <= s.bLeaf.height
  {
  }
}
