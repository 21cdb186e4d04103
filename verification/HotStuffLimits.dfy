/** What weakly well-formed proposals do not give: update lets bExec fall back, and what lies above it is
    executed again.  One faulty peer of four is enough, and a single block that is not strictly well-formed. */
module HotStuffLimits {
  import opened Quorums
  import opened HotStuffBlocks
  import opened HotStuffNode
  import opened HotStuffSafety
  import opened HotStuffRuns
  import opened HotStuffSystem

  /** A certificate for b by the correct peers 0 and 3 and the faulty peer 2. */
  function CertOf(b: Block): QuorumCert {
    QuorumCert(Of(b), if b == GENESIS then map[] else
      map[0 := Signed(0, Of(b)), 2 := Signed(2, Of(b)), 3 := Signed(3, Of(b))])
  }

  /** The block above parent whose certificate is for certified. */
  function Child(parent: Block, certified: Block, stamp: nat): Block {
    Block(Of(parent), Some(Command(stamp, [])), parent.height + 1, Some(CertOf(certified)), Leader(1, parent.height + 1))
  }

  lemma CertVerifies(b: Block)
    ensures VerifyQuorumCert(CertOf(b), 1)
  {
    if b != GENESIS {
      assert ValidSigners(CertOf(b)) == {0, 2, 3};
    }
  }

  /** The lock after voting for blk with the given store. */
  function LockAfter(blocks: map<Digest, Block>, lock: Block, blk: Block): Block {
    match QcRef(blocks, blk.qc)
    case None => lock
    case Some(b1) =>
      match QcRef(blocks, b1.qc)
      case None => lock
      case Some(b2) => if b2.height > lock.height then b2 else lock
  }

  lemma LockOutcome(s: Node, blk: Block)
    requires !s.halted && s.highQC.digest in s.blocks
    ensures CastVote(s, blk).bLock == LockAfter(s.blocks[Of(blk) := blk], s.bLock, blk)
    ensures !CastVote(s, blk).halted && CastVote(s, blk).f == s.f
    ensures CastVote(s, blk).highQC.digest in CastVote(s, blk).blocks
  {
    var t := s.(blocks := s.blocks[Of(blk) := blk], lastVote := blk.height,
                msgs := s.msgs + [VoteMsg(Vote(Of(blk), s.id, Signed(s.id, Of(blk))))]);
    var b1 := QcRef(t.blocks, blk.qc);
    if b1.Some? {
      HighOutcome(t, blk.qc.value);
      BelowOutcome(UpdateHighQC(t, blk.qc.value), b1.value);
    }
    hide LockAndDecide, UpdateHighQC;
  }

  lemma HighOutcome(s: Node, qc: QuorumCert)
    requires !s.halted && s.highQC.digest in s.blocks
    ensures var t := UpdateHighQC(s, qc);
      !t.halted && t.f == s.f && t.blocks == s.blocks && t.bLock == s.bLock && t.highQC.digest in t.blocks
  {
  }

  lemma BelowOutcome(s: Node, b1: Block)
    ensures var t, b2 := LockAndDecide(s, b1), QcRef(s.blocks, b1.qc);
      && t.halted == s.halted && t.f == s.f && t.blocks == s.blocks && t.highQC == s.highQC
      && t.bLock == if b2.Some? && b2.value.height > s.bLock.height then b2.value else s.bLock
  {
    hide ThreeChain, CommitCmds;
  }

  /** The part of a replica that voting depends on. */
  ghost predicate At(s: Node, blocks: map<Digest, Block>, last: Block, lock: Block, exec: Block, executed: seq<Command>) {
    && s.f == 1 && !s.halted && s.highQC.digest in s.blocks
    && s.blocks == blocks && s.lastVote == last.height && s.bLock == lock && s.bExec == exec && s.executed == executed
  }

  lemma Accepted(s: Node, last: Block, certified: Block, stamp: nat)
    requires s.f == 1 && !s.halted && s.highQC.digest in s.blocks && last.height == s.lastVote
    requires Safe(s, Child(last, certified, stamp))
    ensures var b := Child(last, certified, stamp);
      var blocks, d := s.blocks[Of(b) := b], Decides(s, b);
      At(OnPropose(s, b), blocks, b, LockAfter(blocks, s.bLock, b), if d.Some? then d.value else s.bExec,
         s.executed + if d.Some? then CommitCmds(blocks, s.bExec.height, d.value) else [])
  {
    CertVerifies(certified);
    hide VerifyQuorumCert, CertOf, Decides, CastVote, LockAfter, CommitCmds;
    var b := Child(last, certified, stamp);
    assert b.qc == Some(CertOf(certified));
    AcceptedCastsVote(s, b);
    CastVoteOutcome(s, b);
    LockOutcome(s, b);
  }

  /** A chain of nine blocks.  The certificate of the sixth falls back to the third; all others are strict. */
  ghost predicate Scenario(b: seq<Block>) {
    && |b| == 10 && b[0] == GENESIS
    && (forall i :: 1 <= i < 10 ==> Linked(b, i))
  }

  ghost predicate Linked(b: seq<Block>, i: nat)
    requires 1 <= i < |b|
  {
    b[i] == Child(b[i - 1], b[Back(i)], i)
  }

  /** The block that the certificate of block i is for. */
  function Back(i: nat): nat
    requires i >= 1
    ensures Back(i) < i
  {
    if i == 6 then 3 else i - 1
  }

  /** The block behind two certificates. */
  function Grand(i: nat): nat
    requires i >= 1
    ensures Grand(i) < i
  {
    if Back(i) >= 1 then Back(Back(i)) else 0
  }

  /** The block that a vote for block i decides, if there is one. */
  function Decided(i: nat): Option<nat>
    requires i >= 1
    ensures Decided(i).Some? ==> Decided(i).value < i
  {
    var q := Back(i);
    if q >= 2 && Back(q) == q - 1 && Back(q - 1) == q - 2 then Some(q - 2) else None
  }

  /** Indices of the locked and of the last decided block after voting for block i. */
  function NextLock(i: nat, lock: nat): nat
    requires 1 <= i && lock < i
    ensures NextLock(i, lock) < i
  {
    if Grand(i) > lock then Grand(i) else lock
  }

  function NextExec(i: nat, exec: nat): nat
    requires 1 <= i && exec < i
    ensures NextExec(i, exec) < i
  {
    if Decided(i).Some? then Decided(i).value else exec
  }

  /** What the scenario's blocks look like, one by one. */
  lemma {:induction false} Shape(b: seq<Block>, i: nat)
    requires Scenario(b) && i < 10
    ensures b[i].height == i && Chained(b[i])
    ensures i > 0 ==> b[i].parent == Of(b[i - 1]) && HasQcBlock(b[i]) && QcBlock(b[i]) == b[Back(i)]
                      && b[i].cmd == Some(Command(i, []))
  {
    if i > 0 {
      assert Linked(b, i);
      Shape(b, i - 1);
      Shape(b, Back(i));
    }
  }

  lemma {:induction false} Below(b: seq<Block>, i: nat, j: nat)
    requires Scenario(b) && j <= i < 10
    ensures Extends(b[i], b[j])
  {
    Shape(b, i);
    if j < i {
      Below(b, i - 1, j);
    }
  }

  lemma ScenarioWellFormed(b: seq<Block>, i: nat)
    requires Scenario(b) && 1 <= i < 10
    ensures WellFormed(b[i])
  {
    Shape(b, i);
    Below(b, i - 1, Back(i));
  }

  /** Only the sixth block is not strictly well-formed. */
  lemma StrictIff(b: seq<Block>, i: nat)
    requires Scenario(b) && 1 <= i < 10
    ensures StrictlyWellFormed(b[i]) <==> i != 6
  {
    Shape(b, i);
    Shape(b, i - 1);
    Shape(b, Back(i));
  }

  function Store(b: seq<Block>, n: nat): (m: map<Digest, Block>)
    requires n < |b|
    ensures forall i :: 0 <= i <= n ==> Of(b[i]) in m && m[Of(b[i])] == b[i]
  {
    map i | 0 <= i <= n :: Of(b[i]) := b[i]
  }

  function Stamps(lo: nat, hi: nat): seq<Command>
    decreases hi - lo
  {
    if hi <= lo then [] else Stamps(lo, hi - 1) + [Command(hi, [])]
  }

  lemma {:induction false} CommitStamps(b: seq<Block>, n: nat, done: nat, k: nat)
    requires Scenario(b) && k <= n < 10
    ensures CommitCmds(Store(b, n), done, b[k]) == Stamps(done, k)
  {
    Shape(b, k);
    hide Scenario, Store;
    if done < k {
      CommitStamps(b, n, done, k - 1);
    }
  }

  lemma {:induction false} WalkToLock(b: seq<Block>, n: nat, k: nat, floor: nat)
    requires Scenario(b) && floor <= k < 10 && k <= n + 1 && n < 10
    ensures WalkDown(Store(b, n), b[k], floor) == Some(b[floor])
  {
    Shape(b, k);
    hide Scenario, Store;
    if floor < k {
      WalkToLock(b, n, k - 1, floor);
    }
  }

  /** What the replica decides on voting for block i, and its lock then. */
  lemma ScenarioDecides(b: seq<Block>, i: nat)
    requires Scenario(b) && 1 <= i < 10
    ensures DecidesIn(Store(b, i), b[i]) == if Decided(i).Some? then Some(b[Decided(i).value]) else None
  {
    var q := Back(i);
    Shape(b, i);
    Shape(b, q);
    if q >= 1 {
      Shape(b, q - 1);
      Shape(b, Back(q));
      if Back(q) >= 1 {
        Shape(b, Back(q) - 1);
        Shape(b, Back(Back(q)));
      }
    }
    hide Scenario, Store;
  }

  lemma ScenarioLock(b: seq<Block>, i: nat, lock: nat)
    requires Scenario(b) && 1 <= i < 10 && lock < i
    ensures LockAfter(Store(b, i), b[lock], b[i]) == b[NextLock(i, lock)]
  {
    var q := Back(i);
    Shape(b, i);
    Shape(b, q);
    Shape(b, lock);
    if q >= 1 {
      Shape(b, Back(q));
    }
    hide Scenario, Store;
  }

  lemma StoreGrows(b: seq<Block>, i: nat)
    requires 1 <= i < |b|
    ensures Store(b, i - 1)[Of(b[i]) := b[i]] == Store(b, i)
  {
  }

  lemma MoveSafe(b: seq<Block>, s: Node, i: nat, lock: nat)
    requires Scenario(b) && 1 <= i < 10 && lock < i
    requires s.blocks == Store(b, i - 1) && s.bLock == b[lock]
    requires Back(i) > lock || lock <= i - 1 == 5 || i == 1
    ensures b[i].qc.Some? && Safe(s, b[i])
  {
    Shape(b, i);
    Shape(b, lock);
    Shape(b, Back(i));
    WalkToLock(b, i - 1, i, lock);
    hide Scenario, Store, WalkDown;
  }

  /** One vote of the scenario. */
  lemma Move(b: seq<Block>, s: Node, i: nat, lock: nat, exec: nat, cmds: seq<Command>)
    requires Scenario(b) && 1 <= i < 10 && lock < i && exec < i
    requires At(s, Store(b, i - 1), b[i - 1], b[lock], b[exec], cmds)
    requires Back(i) > lock || lock <= i - 1 == 5 || i == 1
    ensures At(OnPropose(s, b[i]), Store(b, i), b[i],
               b[NextLock(i, lock)],
               b[NextExec(i, exec)], cmds + Stamps(exec, NextExec(i, exec)))
  {
    MoveSafe(b, s, i, lock);
    MoveDecides(b, s, i, exec);
    assert Linked(b, i);
    hide Scenario, Store, Child, OnPropose, CommitCmds, Decides, DecidesIn, LockAfter, Safe, NextExec, NextLock, Decided, Grand, Back;
    StoreGrows(b, i);
    ScenarioLock(b, i, lock);
    Accepted(s, b[i - 1], b[Back(i)], i);
  }

  lemma MoveDecides(b: seq<Block>, s: Node, i: nat, exec: nat)
    requires Scenario(b) && 1 <= i < 10 && exec < i && s.blocks == Store(b, i - 1)
    ensures var d := Decides(s, b[i]);
      && (if d.Some? then d.value else b[exec]) == b[NextExec(i, exec)]
      && (if d.Some? then CommitCmds(Store(b, i), b[exec].height, d.value) else []) == Stamps(exec, NextExec(i, exec))
  {
    Shape(b, exec);
    hide Scenario, Store, CommitCmds, DecidesIn;
    StoreGrows(b, i);
    ScenarioDecides(b, i);
    if Decided(i).Some? {
      CommitStamps(b, i, exec, Decided(i).value);
    }
  }

  function LockAt(n: nat): nat {
    if n <= 2 then 0 else if 5 <= n <= 7 then 3 else n - 2
  }

  function ExecAt(n: nat): nat {
    if n <= 3 then 0 else if n == 4 then 1 else if n == 5 then 2 else if n <= 8 then 1 else 6
  }

  function CmdsAt(n: nat): seq<Command> {
    if n <= 3 then [] else if n == 4 then [Command(1, [])]
    else [Command(1, []), Command(2, [])] + if n >= 9 then Stamps(1, 6) else []
  }

  lemma TableStep(n: nat)
    requires 1 <= n < 10
    ensures LockAt(n - 1) < n && ExecAt(n - 1) < n
    ensures Back(n) > LockAt(n - 1) || LockAt(n - 1) <= n - 1 == 5 || n == 1
    ensures LockAt(n) == NextLock(n, LockAt(n - 1)) && ExecAt(n) == NextExec(n, ExecAt(n - 1))
    ensures CmdsAt(n) == CmdsAt(n - 1) + Stamps(ExecAt(n - 1), ExecAt(n))
  {
  }

  // ----- the run

  /** sys is reached by a run with peer 2 faulty. */
  ghost predicate Reached(sys: System) {
    exists es :: RunEnds(1, {2}, false, es, sys)
  }

  lemma CanStep(sys: System, e: Event)
    requires SystemOK(sys, false) && Enabled(sys, false, e)
    ensures SameKeys(sys) && (e.Deliver? ==> e.to in sys.nodes) && (e.Request? ==> e.at in sys.nodes)
  {
    hide LedgerOK, GoodNodesExcept, GoodNet, GoodDecisions;
  }

  lemma {:induction false} RunAppend(sys: System, es: seq<Event>, e: Event)
    requires SystemOK(sys, false) && ValidRun(sys, false, es) && Enabled(Final(sys, false, es), false, e)
    ensures SameKeys(Final(sys, false, es))
    ensures (e.Deliver? ==> e.to in Final(sys, false, es).nodes) && (e.Request? ==> e.at in Final(sys, false, es).nodes)
    ensures ValidRun(sys, false, es + [e]) && Final(sys, false, es + [e]) == After(Final(sys, false, es), e)
    decreases |es|
  {
    hide SystemOK, After, SameKeys, Enabled;
    CanStep(Final(sys, false, es), e);
    if es == [] {
      assert es + [e] == [e] && [e][1..] == [];
      StepKeeps(sys, false, e);
    } else {
      assert (es + [e])[0] == es[0] && (es + [e])[1..] == es[1..] + [e];
      CanStep(sys, es[0]);
      StepKeeps(sys, false, es[0]);
      RunAppend(After(sys, es[0]), es[1..], e);
    }
  }

  lemma Then(sys: System, e: Event)
    requires Reached(sys) && Enabled(sys, false, e)
    ensures SameKeys(sys) && (e.Deliver? ==> e.to in sys.nodes) && (e.Request? ==> e.at in sys.nodes)
    ensures Reached(After(sys, e))
  {
    hide SystemOK, After, SameKeys, Enabled, ValidRun, Final, InitialSystem;
    InitialOK(1, {2}, false);
    var es :| RunEnds(1, {2}, false, es, sys);
    RunAppend(InitialSystem(1, {2}), es, e);
    assert RunEnds(1, {2}, false, es + [e], After(sys, e));
  }

  /** Replica p has voted for the first n blocks. */
  ghost predicate Behind(sys: System, b: seq<Block>, p: PeerID, n: nat)
    requires |b| == 10 && n < 10
  {
    && p in sys.nodes && At(sys.nodes[p], Store(b, n), b[n], b[LockAt(n)], b[ExecAt(n)], CmdsAt(n))
    && forall j :: 1 <= j <= n ==> HasVoted(sys.ledger, p, Of(b[j]))
  }

  ghost predicate Stage(sys: System, b: seq<Block>) {
    Scenario(b) && Reached(sys) && SameKeys(sys) && sys.ledger.f == 1 && sys.ledger.faulty == {2}
  }

  lemma StartReached()
    ensures Reached(InitialSystem(1, {2}))
  {
    hide SystemOK, InitialSystem;
    InitialOK(1, {2}, false);
    assert RunEnds(1, {2}, false, [], InitialSystem(1, {2}));
  }

  lemma StartNodes()
    ensures var sys := InitialSystem(1, {2});
      && SameKeys(sys) && sys.ledger.f == 1 && sys.ledger.faulty == {2} && 0 in sys.nodes && 3 in sys.nodes
      && sys.nodes[0] == Initial(1, 0).(msgs := []) && sys.nodes[3] == Initial(1, 3).(msgs := [])
  {
    hide Initial;
    assert 0 in Peers(1) - {2} && 3 in Peers(1) - {2};
  }

  lemma Begins(b: seq<Block>) returns (sys: System)
    requires Scenario(b)
    ensures Stage(sys, b) && Behind(sys, b, 0, 0) && Behind(sys, b, 3, 0)
  {
    hide Reached, At, Initial, Peers, InitialSystem, HasVoted, Store, LockAt, ExecAt, CmdsAt, SameKeys;
    sys := InitialSystem(1, {2});
    StartReached();
    StartNodes();
    BeginsAt(b, 0);
    BeginsAt(b, 3);
    assert |b| == 10;
    hide Scenario;
  }

  lemma BeginsAt(b: seq<Block>, p: PeerID)
    requires Scenario(b) && (p == 0 || p == 3)
    ensures At(Initial(1, p).(msgs := []), Store(b, 0), b[0], b[LockAt(0)], b[ExecAt(0)], CmdsAt(0))
  {
  }

  lemma BehindSame(sys: System, after: System, b: seq<Block>, p: PeerID, n: nat)
    requires |b| == 10 && n < 10 && Behind(sys, b, p, n) && after.nodes == sys.nodes && after.ledger == sys.ledger
    ensures Behind(after, b, p, n)
  {
    hide At, HasVoted;
  }

  lemma Sendable(sys: System, b: seq<Block>, n: nat)
    requires Scenario(b) && 1 <= n < 10 && sys.ledger.f == 1 && sys.ledger.faulty == {2}
    requires forall j :: 1 <= j < n ==> HasVoted(sys.ledger, 0, Of(b[j])) && HasVoted(sys.ledger, 3, Of(b[j]))
    ensures Enabled(sys, false, Adversary(Propose(b[n])))
  {
    hide WellFormed, HasVoted, GenuineCert, CertOf;
    assert Linked(b, n);
    ScenarioWellFormed(b, n);
    hide Scenario;
    if Back(n) >= 1 {
      CertGenuine(sys.ledger, b[Back(n)]);
    } else {
      assert GenuineCert(sys.ledger, CertOf(GENESIS)) by { CertGenuine(sys.ledger, GENESIS); }
    }
  }

  lemma VotedBefore(sys: System, b: seq<Block>, p: PeerID, n: nat)
    requires |b| == 10 && n < 10 && Behind(sys, b, p, n)
    ensures p in sys.nodes && forall j :: 1 <= j <= n ==> HasVoted(sys.ledger, p, Of(b[j]))
  {
    hide At, HasVoted;
  }

  /** The adversary sends the next block, in its leader's name, with the signatures of its voters. */
  lemma Proposes(sys: System, b: seq<Block>, n: nat) returns (after: System)
    requires Stage(sys, b) && 1 <= n < 10 && |b| == 10 && Behind(sys, b, 0, n - 1) && Behind(sys, b, 3, n - 1)
    ensures Stage(after, b) && Behind(after, b, 0, n - 1) && Behind(after, b, 3, n - 1) && Propose(b[n]) in after.net
  {
    hide Scenario, Reached, Enabled, Behind, HasVoted;
    VotedBefore(sys, b, 0, n - 1);
    VotedBefore(sys, b, 3, n - 1);
    Sendable(sys, b, n);
    Then(sys, Adversary(Propose(b[n])));
    after := After(sys, Adversary(Propose(b[n])));
    BehindSame(sys, after, b, 0, n - 1);
    BehindSame(sys, after, b, 3, n - 1);
  }

  lemma CertGenuine(l: Ledger, b: Block)
    requires l.f == 1 && l.faulty == {2} && (b != GENESIS ==> HasVoted(l, 0, Of(b)) && HasVoted(l, 3, Of(b)))
    ensures GenuineCert(l, CertOf(b))
  {
    hide HasVoted;
    assert 0 in Peers(1) && 2 in Peers(1) && 3 in Peers(1);
  }

  lemma MoveAccepts(b: seq<Block>, s: Node, n: nat)
    requires Scenario(b) && 1 <= n < 10 && At(s, Store(b, n - 1), b[n - 1], b[LockAt(n - 1)], b[ExecAt(n - 1)], CmdsAt(n - 1))
    ensures Accepts(s, b[n])
  {
    TableStep(n);
    Shape(b, n);
    Shape(b, n - 1);
    MoveSafe(b, s, n, LockAt(n - 1));
    CertVerifies(b[Back(n)]);
    assert Linked(b, n);
    hide Scenario, Store, Safe, CertOf, VerifyQuorumCert;
  }

  /** Replica p votes for the next block; replica q is as before. */
  lemma Votes(sys: System, b: seq<Block>, n: nat, p: PeerID, q: PeerID, k: nat) returns (after: System)
    requires Stage(sys, b) && 1 <= n < 10 && k < 10 && p != q && |b| == 10
    requires Behind(sys, b, p, n - 1) && Behind(sys, b, q, k) && Propose(b[n]) in sys.net
    ensures Stage(after, b) && Behind(after, b, p, n) && Behind(after, b, q, k) && Propose(b[n]) in after.net
  {
    hide Scenario, Reached, At, Store, OnPropose, Accepts, LockAt, ExecAt, CmdsAt, HasVoted, Decides, After, SameKeys;
    var s, e := sys.nodes[p], Deliver(p, Propose(b[n]));
    VoteOutcome(b, s, n);
    Then(sys, e);
    after := After(sys, e);
    VoteInstalled(sys, p, b[n]);
    VoteAdded(sys.ledger, p, VoteRec(b[n], s.bLock));
    AtCleared(OnPropose(s, b[n]), b, n);
    hide AddVote;
  }

  lemma AtCleared(t: Node, b: seq<Block>, n: nat)
    requires |b| == 10 && n < 10 && At(t, Store(b, n), b[n], b[LockAt(n)], b[ExecAt(n)], CmdsAt(n))
    ensures At(t.(msgs := []), Store(b, n), b[n], b[LockAt(n)], b[ExecAt(n)], CmdsAt(n))
  {
  }

  lemma VoteOutcome(b: seq<Block>, s: Node, n: nat)
    requires Scenario(b) && 1 <= n < 10 && At(s, Store(b, n - 1), b[n - 1], b[LockAt(n - 1)], b[ExecAt(n - 1)], CmdsAt(n - 1))
    ensures Accepts(s, b[n]) && At(OnPropose(s, b[n]), Store(b, n), b[n], b[LockAt(n)], b[ExecAt(n)], CmdsAt(n))
  {
    hide At, Scenario, Store, OnPropose, Accepts;
    TableStep(n);
    hide LockAt, ExecAt, CmdsAt, Back, NextLock, NextExec;
    MoveAccepts(b, s, n);
    Move(b, s, n, LockAt(n - 1), ExecAt(n - 1), CmdsAt(n - 1));
  }

  /** What the system makes of a vote. */
  lemma VoteInstalled(sys: System, p: PeerID, blk: Block)
    requires SameKeys(sys) && p in sys.nodes && Accepts(sys.nodes[p], blk)
    ensures p in sys.ledger.votes
    ensures var after := After(sys, Deliver(p, Propose(blk)));
      && SameKeys(after) && after.nodes == sys.nodes[p := OnPropose(sys.nodes[p], blk).(msgs := [])] && sys.net <= after.net
      && after.ledger == AddVote(sys.ledger, p, VoteRec(blk, sys.nodes[p].bLock))
  {
    hide OnPropose, Accepts, Decides;
  }

  lemma VoteAdded(l: Ledger, p: PeerID, v: VoteRec)
    requires p in l.votes
    ensures var k := AddVote(l, p, v);
      HasVoted(k, p, Of(v.blk)) && forall r, d :: HasVoted(l, r, d) ==> HasVoted(k, r, d)
  {
    var k := AddVote(l, p, v);
    assert k.votes[p][|l.votes[p]|] == v;
    forall r, d | HasVoted(l, r, d) ensures HasVoted(k, r, d) {
      var i :| 0 <= i < |l.votes[r]| && Of(l.votes[r][i].blk) == d;
      assert k.votes[r][i] == l.votes[r][i];
    }
  }

  /** The replicas 0 and 3 have voted for the first n blocks. */
  lemma {:induction false} Rounds(b: seq<Block>, n: nat) returns (sys: System)
    requires Scenario(b) && n < 10
    ensures |b| == 10 && Stage(sys, b) && Behind(sys, b, 0, n) && Behind(sys, b, 3, n)
  {
    assert |b| == 10;
    hide Stage, Behind, Scenario;
    if n == 0 {
      sys := Begins(b);
    } else {
      sys := Rounds(b, n - 1);
      sys := Proposes(sys, b, n);
      sys := Votes(sys, b, n, 0, 3, n - 1);
      sys := Votes(sys, b, n, 3, 0, n);
    }
  }

  function Blocks(n: nat): (b: seq<Block>)
    ensures |b| == n + 1 && b[0] == GENESIS && forall i :: 1 <= i <= n ==> b[i] == Child(b[i - 1], b[Back(i)], i)
  {
    if n == 0 then [GENESIS]
    else
      var b := Blocks(n - 1);
      b + [Child(b[n - 1], b[Back(n)], n)]
  }

  /** With weakly well-formed proposals and one faulty peer of four, a replica can move bExec backwards, and after
      three more blocks that are strictly well-formed it executes a command a second time. */
  lemma WeakProposalsExecuteTwice() returns (before: System, fallen: System, end: System)
    ensures Reached(before) && Reached(fallen) && Reached(end) && 0 in before.nodes && 0 in fallen.nodes && 0 in end.nodes
    ensures before.nodes[0].bExec.height == 2 && fallen.nodes[0].bExec.height == 1
    ensures end.nodes[0].executed == [Command(1, []), Command(2, [])] + Stamps(1, 6)
    ensures Stamps(1, 6)[0] == Command(2, [])
  {
    var b := Blocks(9);
    assert Scenario(b);
    Shape(b, 2);
    Shape(b, 1);
    hide Scenario, Store, Reached, Blocks, Stamps;
    before := Rounds(b, 5);
    fallen := Rounds(b, 6);
    end := Rounds(b, 9);
    StampsFrom(1, 6);
  }

  lemma {:induction false} StampsFrom(lo: nat, hi: nat)
    requires lo < hi
    ensures Stamps(lo, hi) != [] && Stamps(lo, hi)[0] == Command(lo + 1, [])
    decreases hi
  {
    if lo + 1 < hi {
      StampsFrom(lo, hi - 1);
    }
  }

  /** When a decision keeps the executed commands equal to those on the path to bExec: exactly when bExec
      does not fall back over a command. */
  lemma DecisionKeepsPathIff(s: Node, b3: Block)
    requires ClosedUnderParent(s.blocks) && Of(b3) in s.blocks && Of(s.bExec) in s.blocks
    requires Chained(b3) && Chained(s.bExec) && (Extends(b3, s.bExec) || Extends(s.bExec, b3))
    requires s.executed == PathCmds(s.bExec)
    ensures var t := Decide(s, b3);
      t.executed == PathCmds(t.bExec) <==> b3.height >= s.bExec.height || CommitCmds(s.blocks, b3.height, s.bExec) == []
  {
    if Extends(b3, s.bExec) {
      AncestorHeights(b3, s.bExec);
      CommitCompletesPath(s.blocks, s.bExec, b3);
    } else {
      AncestorHeights(s.bExec, b3);
      CommitCompletesPath(s.blocks, b3, s.bExec);
    }
  }
}
