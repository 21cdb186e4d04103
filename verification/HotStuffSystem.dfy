/** The main theorems on chained HotStuff, over every run. */
module HotStuffSystem {
  import opened Quorums
  import opened HotStuffBlocks
  import opened HotStuffNode
  import opened HotStuffSafety
  import opened HotStuffRuns

  // ----- execution

  /** The commands on the path from genesis to b, parents first. */
  function PathCmds(b: Block): seq<Command> {
    (if b.parent.Of? then PathCmds(b.parent.blk) else [])
    + (if b.qc.Some? && b.cmd.Some? then [b.cmd.value] else [])
  }

  ghost predicate ClosedUnderParent(blocks: map<Digest, Block>) {
    forall d :: d in blocks ==> d == Of(blocks[d]) && (blocks[d] == GENESIS || blocks[d].parent in blocks)
  }

  /** From an executed ancestor e, commit runs exactly the commands above e on the path to b. */
  lemma {:induction false} CommitCompletesPath(blocks: map<Digest, Block>, e: Block, b: Block)
    requires ClosedUnderParent(blocks) && Of(b) in blocks && Chained(b) && Extends(b, e)
    ensures PathCmds(b) == PathCmds(e) + CommitCmds(blocks, e.height, b)
  {
    AncestorHeights(b, e);
    if b != e {
      CommitCompletesPath(blocks, e, b.parent.blk);
      assert Of(b.parent.blk) in blocks;
    }
  }

  /** The executed commands are the commands on the path to bExec, which trails the last vote by three. */
  ghost predicate ExecOK(l: Ledger, s: Node) {
    && s.executed == PathCmds(s.bExec)
    && (s.bExec == GENESIS || (Decidable(l, s.bExec) && s.bExec.height + 3 <= s.lastVote))
  }

  lemma LockAndDecideOutcome(s: Node, b1: Block)
    ensures var t, d := LockAndDecide(s, b1), DecidesBelow(s.blocks, b1);
      && t.blocks == s.blocks && t.lastVote == s.lastVote
      && t.bExec == (if d.Some? then d.value else s.bExec)
      && t.executed == s.executed + (if d.Some? then CommitCmds(s.blocks, s.bExec.height, d.value) else [])
  {
  }

  /** update executes up to the decided block, and nothing when none is decided. */
  lemma UpdateOutcome(s: Node, blk: Block)
    requires !s.halted && s.highQC.digest in s.blocks
    ensures var t, d := Update(s, blk), DecidesIn(s.blocks, blk);
      && t.blocks == s.blocks && t.lastVote == s.lastVote
      && t.bExec == (if d.Some? then d.value else s.bExec)
      && t.executed == s.executed + (if d.Some? then CommitCmds(s.blocks, s.bExec.height, d.value) else [])
  {
    if QcRef(s.blocks, blk.qc).Some? {
      LockAndDecideOutcome(UpdateHighQC(s, blk.qc.value), QcRef(s.blocks, blk.qc).value);
    }
  }

  /** What an accepted proposal does to the executed prefix. */
  lemma CastVoteOutcome(s: Node, blk: Block)
    requires !s.halted && s.highQC.digest in s.blocks
    ensures var t, d := CastVote(s, blk), Decides(s, blk);
      && t.blocks == s.blocks[Of(blk) := blk] && t.lastVote == blk.height
      && t.bExec == (if d.Some? then d.value else s.bExec)
      && t.executed == s.executed + (if d.Some? then CommitCmds(t.blocks, s.bExec.height, d.value) else [])
  {
    UpdateOutcome(s.(blocks := s.blocks[Of(blk) := blk], lastVote := blk.height,
                     msgs := s.msgs + [VoteMsg(Vote(Of(blk), s.id, Signed(s.id, Of(blk))))]), blk);
  }

  lemma StrictStoreClosed(l: Ledger, p: PeerID, s: Node)
    requires NodeCore(l, true, p, s)
    ensures ClosedUnderParent(s.blocks)
  {
  }

  /** Under strict proposals a decision is three below the vote. */
  lemma StrictDecision(l: Ledger, p: PeerID, s: Node, blk: Block)
    requires NodeCore(l, true, p, s) && StoredOK(l, true, s.blocks, s.bLock.height, blk) && Decides(s, blk).Some?
    ensures Of(Decides(s, blk).value) in s.blocks && Chained(Decides(s, blk).value)
    ensures Decides(s, blk).value.height + 3 == blk.height
  {
    var b1 := blk.parent.blk;
    assert s.blocks[Of(b1)] == b1 && StoredOK(l, true, s.blocks, s.bLock.height, b1);
    var b2 := b1.parent.blk;
    assert s.blocks[Of(b2)] == b2 && StoredOK(l, true, s.blocks, s.bLock.height, b2);
  }

  /** The heart of execution: an accepted strict proposal keeps the executed prefix complete, and a
      decision strictly raises bExec once it is above genesis. */
  lemma AcceptExecutes(l: Ledger, p: PeerID, s: Node, blk: Block)
    requires LedgerOK(l) && NodeCore(l, true, p, s) && ExecOK(l, s)
    requires Accepts(s, blk) && Unforged(l, Propose(blk)) && ProperProposal(true, Propose(blk))
    ensures ExecOK(l, CastVote(s, blk))
    ensures CastVote(s, blk).bExec == s.bExec || CastVote(s, blk).bExec.height > s.bExec.height
  {
    CastVoteOutcome(s, blk);
    AcceptsMeansVoteOK(l, true, p, s, blk);
    if Decides(s, blk).Some? {
      var b3 := Decides(s, blk).value;
      StrictDecision(l, p, s, blk);
      DecidesMeansDecidable(l, true, p, s, blk);
      if s.bExec == GENESIS {
        ExtendsGenesis(b3);
      } else {
        DecidableOnOneBranch(l, s.bExec, b3);
      }
      StrictStoreClosed(l, p, s);
      CommitCompletesPath(s.blocks[Of(blk) := blk], s.bExec, b3);
    }
  }

  // ----- the other handlers touch neither the executed prefix nor the lock

  ghost predicate Quiet(s: Node, t: Node) {
    t.bExec == s.bExec && t.executed == s.executed && t.bLock == s.bLock && t.lastVote == s.lastVote
  }

  lemma FinishQuiet(s: Node, qc: QuorumCert)
    ensures Quiet(s, UpdateHighQC(s, qc)) && Quiet(s, Beat(s))
  {
  }

  lemma CountNewViewQuiet(s: Node, from: PeerID, height: nat)
    ensures Quiet(s, CountNewView(s, from, height))
  {
  }

  lemma OnVoteContinueQuiet(s: Node, v: Vote)
    ensures Quiet(s, OnVoteContinue(s, v))
  {
  }

  lemma OnRequestQuiet(s: Node, cmd: Command)
    ensures Quiet(s, OnRequest(s, cmd))
  {
  }

  lemma ReceiveQuiet(s: Node, m: Message)
    requires m.Propose? ==> !Accepts(s, m.blk)
    ensures Quiet(s, Receive(s, m))
  {
    match m
    case Propose(_) =>
    case VoteMsg(v) => OnVoteContinueQuiet(PruneVotes(s), v);
    case NewView(from, height, qc) =>
      if qc.Some? {
        var t := PruneViews(s);
        FinishQuiet(t, qc.value);
        CountNewViewQuiet(if VerifyQuorumCert(qc.value, s.f) then UpdateHighQC(t, qc.value) else t, from, height);
      }
  }

  // ----- runs

  datatype Event =
    | Deliver(to: PeerID, m: Message)
    | Request(at: PeerID, cmd: Command)
    | Adversary(m: Message)

  /** Correct replicas, their votes and decisions so far, and every message ever sent. */
  datatype System = System(nodes: map<PeerID, Node>, ledger: Ledger, decided: map<PeerID, seq<Block>>, net: set<Message>)

  function InitialSystem(f: nat, faulty: set<PeerID>): System {
    var correct := Peers(f) - faulty;
    System(map p | p in correct :: Initial(f, p).(msgs := []),
           Ledger(f, faulty, map p | p in correct :: []),
           map p | p in correct :: [],
           set p, i | p in correct && 0 <= i < |Initial(f, p).msgs| :: Initial(f, p).msgs[i])
  }

  /** A replica can handle a request or a sent message; the adversary can send what it can sign. */
  ghost predicate Enabled(sys: System, strict: bool, e: Event) {
    match e
    case Deliver(p, m) => p in sys.nodes && m in sys.net
    case Request(p, _) => p in sys.nodes
    case Adversary(m) => Unforged(sys.ledger, m) && ProperProposal(strict, m)
  }

  /** The replica's new state is installed and what it sent goes to the network. */
  function Install(sys: System, p: PeerID, t: Node): System {
    sys.(nodes := sys.nodes[p := t.(msgs := [])], net := sys.net + set i | 0 <= i < |t.msgs| :: t.msgs[i])
  }

  ghost function RecordVote(sys: System, p: PeerID, blk: Block): System
    requires p in sys.nodes && p in sys.ledger.votes && p in sys.decided
  {
    var s, d := sys.nodes[p], Decides(sys.nodes[p], blk);
    sys.(ledger := AddVote(sys.ledger, p, VoteRec(blk, s.bLock)),
         decided := if d.Some? then sys.decided[p := sys.decided[p] + [d.value]] else sys.decided)
  }

  ghost predicate SameKeys(sys: System) {
    sys.nodes.Keys == sys.ledger.votes.Keys == sys.decided.Keys
  }

  ghost function After(sys: System, e: Event): System
    requires SameKeys(sys)
    requires (e.Deliver? ==> e.to in sys.nodes) && (e.Request? ==> e.at in sys.nodes)
  {
    match e
    case Adversary(m) => sys.(net := sys.net + {m})
    case Request(p, cmd) => Install(sys, p, OnRequest(sys.nodes[p], cmd))
    case Deliver(p, m) =>
      var t := Receive(sys.nodes[p], m);
      if m.Propose? && Accepts(sys.nodes[p], m.blk) then Install(RecordVote(sys, p, m.blk), p, t)
      else Install(sys, p, t)
  }

  ghost predicate GoodNode(l: Ledger, strict: bool, p: PeerID, s: Node) {
    NodeOK(l, strict, p, s) && (strict ==> ExecOK(l, s))
  }

  ghost predicate GoodMessage(l: Ledger, strict: bool, m: Message) {
    Unforged(l, m) && ProperProposal(strict, m)
  }

  ghost predicate GoodNet(sys: System, strict: bool) {
    forall m :: m in sys.net ==> GoodMessage(sys.ledger, strict, m)
  }

  ghost predicate GoodDecisions(sys: System) {
    forall p, i :: p in sys.decided && 0 <= i < |sys.decided[p]| ==> Decidable(sys.ledger, sys.decided[p][i])
  }

  ghost predicate GoodNodesExcept(sys: System, strict: bool, except: set<PeerID>) {
    forall p :: p in sys.nodes && p !in except ==> GoodNode(sys.ledger, strict, p, sys.nodes[p])
  }

  ghost predicate SystemOK(sys: System, strict: bool) {
    LedgerOK(sys.ledger) && SameKeys(sys) && GoodNodesExcept(sys, strict, {}) && GoodNet(sys, strict) && GoodDecisions(sys)
  }

  lemma InitialOK(f: nat, faulty: set<PeerID>, strict: bool)
    requires |faulty| <= f
    ensures SystemOK(InitialSystem(f, faulty), strict)
  {
    hide GoodNode, GoodMessage, LedgerOK, Initial;
    var sys := InitialSystem(f, faulty);
    EmptyLedgerOK(sys.ledger);
    forall p | p in Peers(f) - faulty
      ensures GoodNode(sys.ledger, strict, p, Initial(f, p).(msgs := []))
      ensures forall i :: 0 <= i < |Initial(f, p).msgs| ==> GoodMessage(sys.ledger, strict, Initial(f, p).msgs[i])
    {
      InitialNodeOK(sys.ledger, strict, p);
      OutboxCleared(sys.ledger, strict, p, Initial(f, p));
    }
    assert GoodNodesExcept(sys, strict, {});
    assert GoodNet(sys, strict) by {
      forall m | m in sys.net ensures GoodMessage(sys.ledger, strict, m) {
        var p, i :| p in Peers(f) - faulty && 0 <= i < |Initial(f, p).msgs| && m == Initial(f, p).msgs[i];
      }
    }
    assert GoodDecisions(sys);
  }

  lemma EmptyLedgerOK(l: Ledger)
    requires |l.faulty| <= l.f && forall p :: p in l.votes ==> l.votes[p] == []
    ensures LedgerOK(l)
  {
  }

  lemma InitialNodeOK(l: Ledger, strict: bool, p: PeerID)
    requires LedgerOK(l) && p in l.votes && l.votes[p] == [] && p in Peers(l.f)
    ensures GoodNode(l, strict, p, Initial(l.f, p))
  {
    var s := Node(p, l.f, map[Of(GENESIS) := GENESIS], 0, GENESIS, GENESIS, GENESIS, QuorumCert(Of(GENESIS), map[]),
                  map[], map[], 0, [], [], [], false);
    assert NodeCore(l, strict, p, s);
    ProposeKeeps(l, strict, p, s);
  }

  // ----- one step

  lemma OutboxCleared(l: Ledger, strict: bool, p: PeerID, t: Node)
    requires GoodNode(l, strict, p, t)
    ensures GoodNode(l, strict, p, t.(msgs := []))
    ensures forall i :: 0 <= i < |t.msgs| ==> GoodMessage(l, strict, t.msgs[i])
  {
  }

  /** Installing a good node state keeps the system invariant. */
  lemma InstallKeeps(sys: System, strict: bool, p: PeerID, t: Node)
    requires LedgerOK(sys.ledger) && SameKeys(sys) && p in sys.nodes
    requires GoodNode(sys.ledger, strict, p, t)
    requires GoodNodesExcept(sys, strict, {p}) && GoodNet(sys, strict) && GoodDecisions(sys)
    ensures SystemOK(Install(sys, p, t), strict)
  {
    hide GoodNode, GoodMessage, LedgerOK, Decidable;
    OutboxCleared(sys.ledger, strict, p, t);
    var after := Install(sys, p, t);
    forall m | m in after.net ensures GoodMessage(sys.ledger, strict, m) {
      if m !in sys.net {
        var i :| 0 <= i < |t.msgs| && m == t.msgs[i];
      }
    }
  }

  lemma GoodNodeGrows(l: Ledger, k: Ledger, strict: bool, p: PeerID, s: Node)
    requires Grows(l, k) && GoodNode(l, strict, p, s) && k.votes[p] == l.votes[p]
    ensures GoodNode(k, strict, p, s)
  {
    NodeCoreGrows(l, k, strict, p, s);
    ExecGrows(l, k, s);
  }

  /** The rest of the system under a grown ledger. */
  lemma RestGrows(sys: System, a: System, strict: bool, p: PeerID)
    requires GoodNodesExcept(sys, strict, {}) && GoodNet(sys, strict) && GoodDecisions(sys)
    requires Grows(sys.ledger, a.ledger) && a.nodes == sys.nodes && a.net == sys.net
    requires forall r :: r in sys.nodes && r != p ==> r in sys.ledger.votes && a.ledger.votes[r] == sys.ledger.votes[r]
    ensures GoodNodesExcept(a, strict, {p}) && GoodNet(a, strict)
    ensures GoodDecisions(a.(decided := sys.decided))
  {
    hide GoodNode, Unforged, Decidable;
    forall r | r in a.nodes && r != p ensures GoodNode(a.ledger, strict, r, a.nodes[r]) {
      GoodNodeGrows(sys.ledger, a.ledger, strict, r, a.nodes[r]);
    }
    forall m | m in a.net ensures GoodMessage(a.ledger, strict, m) {
      UnforgedGrows(sys.ledger, a.ledger, m);
    }
    forall r, i | r in sys.decided && 0 <= i < |sys.decided[r]| ensures Decidable(a.ledger, sys.decided[r][i]) {
      DecidableGrows(sys.ledger, a.ledger, sys.decided[r][i]);
    }
  }

  lemma ExecGrows(l: Ledger, k: Ledger, s: Node)
    requires Grows(l, k)
    ensures ExecOK(l, s) ==> ExecOK(k, s)
  {
    if ExecOK(l, s) && s.bExec != GENESIS {
      DecidableGrows(l, k, s.bExec);
    }
  }

  lemma NonProposeKeeps(l: Ledger, strict: bool, p: PeerID, s: Node, m: Message)
    requires LedgerOK(l) && GoodNode(l, strict, p, s)
    requires GoodMessage(l, strict, m) && (m.Propose? ==> !Accepts(s, m.blk))
    ensures GoodNode(l, strict, p, Receive(s, m))
  {
    ReceiveQuiet(s, m);
    match m
    case Propose(blk) => OnProposeKeeps(l, strict, p, s, blk);
    case VoteMsg(v) => OnVoteKeeps(l, strict, p, s, v);
    case NewView(from, height, qc) => OnNewViewKeeps(l, strict, p, s, from, height, qc);
  }

  lemma RequestKeeps(l: Ledger, strict: bool, p: PeerID, s: Node, cmd: Command)
    requires LedgerOK(l) && GoodNode(l, strict, p, s)
    ensures GoodNode(l, strict, p, OnRequest(s, cmd))
  {
    OnRequestQuiet(s, cmd);
    var t := s.(cmdQueue := s.cmdQueue + [cmd]);
    assert NodeCore(l, strict, p, t);
    BeatKeeps(l, strict, p, t);
  }

  /** An accepted proposal: the new vote and node state under the new ledger, and the decision if any. */
  lemma AcceptStep(l: Ledger, strict: bool, p: PeerID, s: Node, blk: Block)
    requires LedgerOK(l) && GoodNode(l, strict, p, s) && Accepts(s, blk) && GoodMessage(l, strict, Propose(blk))
    ensures var k := AddVote(l, p, VoteRec(blk, s.bLock));
      LedgerOK(k) && Grows(l, k) && GoodNode(k, strict, p, CastVote(s, blk))
    ensures Decides(s, blk).Some? ==> Decidable(l, Decides(s, blk).value)
  {
    AcceptKeeps(l, strict, p, s, blk);
    if strict {
      AcceptExecutes(l, p, s, blk);
      ExecGrows(l, AddVote(l, p, VoteRec(blk, s.bLock)), CastVote(s, blk));
    }
    AcceptsMeansVoteOK(l, strict, p, s, blk);
    if Decides(s, blk).Some? {
      DecidesMeansDecidable(l, strict, p, s, blk);
    }
  }

  lemma DeliverAccepted(sys: System, strict: bool, p: PeerID, blk: Block)
    requires SystemOK(sys, strict) && p in sys.nodes && Accepts(sys.nodes[p], blk) && GoodMessage(sys.ledger, strict, Propose(blk))
    ensures SystemOK(Install(RecordVote(sys, p, blk), p, CastVote(sys.nodes[p], blk)), strict)
  {
    hide GoodNode, GoodMessage, LedgerOK, Decidable, Accepts, Decides, CastVote, AddVote;
    var s, a := sys.nodes[p], RecordVote(sys, p, blk);
    AcceptStep(sys.ledger, strict, p, s, blk);
    assert a.ledger.votes.Keys == sys.ledger.votes.Keys && forall r :: r in sys.nodes && r != p ==> a.ledger.votes[r] == sys.ledger.votes[r] by {
      OnlyOneHistoryGrows(sys.ledger, p, VoteRec(blk, s.bLock));
    }
    RestGrows(sys, a, strict, p);
    if Decides(s, blk).Some? {
      DecidableGrows(sys.ledger, a.ledger, Decides(s, blk).value);
    }
    InstallKeeps(a, strict, p, CastVote(s, blk));
  }

  lemma OnlyOneHistoryGrows(l: Ledger, p: PeerID, v: VoteRec)
    requires p in l.votes
    ensures var k := AddVote(l, p, v);
      k.votes.Keys == l.votes.Keys && forall r :: r in l.votes && r != p ==> k.votes[r] == l.votes[r]
  {
  }

  /** Every step keeps the invariant. */
  lemma StepKeeps(sys: System, strict: bool, e: Event)
    requires SystemOK(sys, strict) && Enabled(sys, strict, e)
    ensures SystemOK(After(sys, e), strict)
  {
    hide GoodNode, LedgerOK, Decidable, Accepts, CastVote, OnRequest;
    match e
    case Adversary(m) =>
    case Request(p, cmd) =>
      RequestKeeps(sys.ledger, strict, p, sys.nodes[p], cmd);
      InstallKeeps(sys, strict, p, OnRequest(sys.nodes[p], cmd));
    case Deliver(p, m) =>
      var s := sys.nodes[p];
      assert GoodMessage(sys.ledger, strict, m);
      if m.Propose? && Accepts(s, m.blk) {
        AcceptedCastsVote(s, m.blk);
        DeliverAccepted(sys, strict, p, m.blk);
      } else {
        NonProposeKeeps(sys.ledger, strict, p, s, m);
        InstallKeeps(sys, strict, p, Receive(s, m));
      }
  }

  lemma AcceptedCastsVote(s: Node, blk: Block)
    requires Accepts(s, blk)
    ensures Receive(s, Propose(blk)) == CastVote(s, blk)
  {
  }

  // ----- whole runs

  ghost predicate ValidRun(sys: System, strict: bool, es: seq<Event>)
    requires SystemOK(sys, strict)
    decreases |es|
  {
    es != [] ==> Enabled(sys, strict, es[0]) && (StepKeeps(sys, strict, es[0]); ValidRun(After(sys, es[0]), strict, es[1..]))
  }

  ghost function Final(sys: System, strict: bool, es: seq<Event>): (end: System)
    requires SystemOK(sys, strict) && ValidRun(sys, strict, es)
    ensures SystemOK(end, strict)
    decreases |es|
  {
    if es == [] then sys else (StepKeeps(sys, strict, es[0]); Final(After(sys, es[0]), strict, es[1..]))
  }

  /** Where a run from the initial state of a cluster ends. */
  ghost predicate RunEnds(f: nat, faulty: set<PeerID>, strict: bool, es: seq<Event>, end: System) {
    && |faulty| <= f
    && (InitialOK(f, faulty, strict);
        ValidRun(InitialSystem(f, faulty), strict, es) && Final(InitialSystem(f, faulty), strict, es) == end)
  }

  /** b is committed at p: p has decided b or a block that extends b. */
  ghost predicate Committed(sys: System, p: PeerID, b: Block) {
    exists i :: p in sys.decided && 0 <= i < |sys.decided[p]| && Extends(sys.decided[p][i], b)
  }

  /** Safety: blocks committed by correct replicas, in any run with weakly well-formed proposals and at
      most f faulty peers, lie on one branch. */
  lemma Safety(f: nat, faulty: set<PeerID>, strict: bool, es: seq<Event>, end: System, p: PeerID, a: Block, q: PeerID, b: Block)
    requires RunEnds(f, faulty, strict, es, end) && Committed(end, p, a) && Committed(end, q, b)
    ensures Extends(a, b) || Extends(b, a)
  {
    InitialOK(f, faulty, strict);
    var i :| 0 <= i < |end.decided[p]| && Extends(end.decided[p][i], a);
    var j :| 0 <= j < |end.decided[q]| && Extends(end.decided[q][j], b);
    CommittedOnOneBranch(end.ledger, end.decided[p][i], a, end.decided[q][j], b);
  }

  lemma CommittedOnOneBranch(l: Ledger, d: Block, a: Block, e: Block, b: Block)
    requires LedgerOK(l) && Decidable(l, d) && Decidable(l, e) && Extends(d, a) && Extends(e, b)
    ensures Extends(a, b) || Extends(b, a)
  {
    DecidableOnOneBranch(l, d, e);
    DecidableOnOneBranch(l, e, d);
    DecidableChained(l, d);
    DecidableChained(l, e);
    var top := if Extends(d, e) then d else e;
    if Extends(d, e) {
      ExtendsTransitive(d, e, b);
    } else {
      ExtendsTransitive(e, d, a);
    }
    if a.height <= b.height {
      AncestorsLinear(top, b, a);
    } else {
      AncestorsLinear(top, a, b);
    }
  }

  lemma DecidableChained(l: Ledger, b: Block)
    requires LedgerOK(l) && Decidable(l, b)
    ensures Chained(b)
  {
    var top, mid :| CertifiedChain(l, top, mid, b);
    ChainShape(l, top, mid, b);
  }

  /** Execution: under strictly well-formed proposals a correct replica has executed exactly the commands
      on the path to bExec, and of two correct replicas one has executed a prefix of the other. */
  lemma Execution(f: nat, faulty: set<PeerID>, es: seq<Event>, end: System, p: PeerID, q: PeerID)
    requires RunEnds(f, faulty, true, es, end) && p in end.nodes && q in end.nodes
    ensures end.nodes[p].executed == PathCmds(end.nodes[p].bExec)
    ensures end.nodes[p].executed <= end.nodes[q].executed || end.nodes[q].executed <= end.nodes[p].executed
  {
    InitialOK(f, faulty, true);
    var a, b := end.nodes[p].bExec, end.nodes[q].bExec;
    ExecChained(end.ledger, p, end.nodes[p]);
    ExecChained(end.ledger, q, end.nodes[q]);
    if a == GENESIS || b == GENESIS {
      ExtendsGenesis(a);
      ExtendsGenesis(b);
    } else {
      DecidableOnOneBranch(end.ledger, a, b);
    }
    if Extends(a, b) {
      PathPrefix(a, b);
    } else {
      PathPrefix(b, a);
    }
  }

  lemma ExecChained(l: Ledger, p: PeerID, s: Node)
    requires LedgerOK(l) && GoodNode(l, true, p, s)
    ensures ExecOK(l, s) && Chained(s.bExec)
  {
    if s.bExec != GENESIS {
      DecidableChained(l, s.bExec);
    }
  }

  lemma {:induction false} PathPrefix(b: Block, a: Block)
    requires Extends(b, a)
    ensures PathCmds(a) <= PathCmds(b)
  {
    if b != a {
      PathPrefix(b.parent.blk, a);
    }
  }

  /** What one step makes of one replica. */
  lemma NodeStep(sys: System, strict: bool, e: Event, p: PeerID)
    requires SameKeys(sys) && Enabled(sys, strict, e) && p in sys.nodes
    ensures p in After(sys, e).nodes
    ensures After(sys, e).nodes[p] ==
      match e
      case Adversary(_) => sys.nodes[p]
      case Request(r, cmd) => if r == p then OnRequest(sys.nodes[p], cmd).(msgs := []) else sys.nodes[p]
      case Deliver(r, m) => if r == p then Receive(sys.nodes[p], m).(msgs := []) else sys.nodes[p]
  {
  }

  lemma LockAndDecideLock(s: Node, b1: Block)
    ensures LockAndDecide(s, b1).bLock.height >= s.bLock.height
  {
  }

  lemma CastVoteLock(s: Node, blk: Block)
    ensures CastVote(s, blk).bLock.height >= s.bLock.height
  {
    hide LockAndDecide;
    var t := s.(blocks := s.blocks[Of(blk) := blk], lastVote := blk.height,
                msgs := s.msgs + [VoteMsg(Vote(Of(blk), s.id, Signed(s.id, Of(blk))))]);
    if QcRef(t.blocks, blk.qc).Some? {
      LockAndDecideLock(UpdateHighQC(t, blk.qc.value), QcRef(t.blocks, blk.qc).value);
    }
  }

  lemma ReceiveLock(s: Node, m: Message)
    ensures Receive(s, m).bLock.height >= s.bLock.height
  {
    if m.Propose? && Accepts(s, m.blk) {
      AcceptedCastsVote(s, m.blk);
      CastVoteLock(s, m.blk);
    } else {
      ReceiveQuiet(s, m);
    }
  }

  /** The lock over one step of any run: no correct replica's lock is lowered, and locks are certified. */
  lemma LocksOnlyRise(sys: System, strict: bool, e: Event, p: PeerID)
    requires SystemOK(sys, strict) && Enabled(sys, strict, e) && p in sys.nodes
    ensures p in After(sys, e).nodes && After(sys, e).nodes[p].bLock.height >= sys.nodes[p].bLock.height
    ensures Certified(After(sys, e).ledger, After(sys, e).nodes[p].bLock)
  {
    hide LedgerOK, Receive, OnRequest, Certified, Accepts;
    StepKeeps(sys, strict, e);
    NodeStep(sys, strict, e, p);
    LockIsCertified(After(sys, e).ledger, strict, p, After(sys, e).nodes[p]);
    match e
    case Adversary(_) =>
    case Request(_, cmd) => OnRequestQuiet(sys.nodes[p], cmd);
    case Deliver(_, m) => ReceiveLock(sys.nodes[p], m);
  }

  lemma LockIsCertified(l: Ledger, strict: bool, p: PeerID, s: Node)
    requires GoodNode(l, strict, p, s)
    ensures Certified(l, s.bLock)
  {
  }

  ghost predicate ExecutesMore(s: Node, t: Node) {
    || (t.bExec == s.bExec && t.executed == s.executed)
    || (t.bExec.height > s.bExec.height && s.executed <= t.executed)
  }

  lemma ReceiveExecutesMore(l: Ledger, p: PeerID, s: Node, m: Message)
    requires LedgerOK(l) && GoodNode(l, true, p, s) && GoodMessage(l, true, m)
    ensures ExecutesMore(s, Receive(s, m))
  {
    hide Update, UpdateHighQC, DecidesIn, Safe;
    if m.Propose? && Accepts(s, m.blk) {
      AcceptedCastsVote(s, m.blk);
      AcceptExecutes(l, p, s, m.blk);
      CastVoteOutcome(s, m.blk);
    } else {
      ReceiveQuiet(s, m);
    }
  }

  /** Execution over one step of a strict run: a replica's bExec stays or strictly rises, and its executed
      commands are only extended. */
  lemma ExecutedOnlyRises(sys: System, e: Event, p: PeerID)
    requires SystemOK(sys, true) && Enabled(sys, true, e) && p in sys.nodes
    ensures p in After(sys, e).nodes && ExecutesMore(sys.nodes[p], After(sys, e).nodes[p])
  {
    hide LedgerOK, Receive, OnRequest, Accepts, GoodNode;
    NodeStep(sys, true, e, p);
    match e
    case Adversary(_) =>
    case Request(_, cmd) => OnRequestQuiet(sys.nodes[p], cmd);
    case Deliver(_, m) =>
      assert GoodMessage(sys.ledger, true, m);
      ReceiveExecutesMore(sys.ledger, p, sys.nodes[p], m);
  }
}
