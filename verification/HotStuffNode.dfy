/** What each handler of protocols/chainhotstuff makes of a replica, as functions on values.
    The class HotStuffReplica.Replica is proved to compute exactly these; the safety argument is about them.

    Signature checks run on a dispatcher, so propose's call of onPropose and a leader's vote for itself
    take effect later.  Here both are messages that the replica has sent and may receive. */
module HotStuffNode {
  import opened Quorums
  import opened HotStuffBlocks

  datatype Vote = Vote(digest: Digest, signer: PeerID, sig: Signature)

  datatype Message =
    | Propose(blk: Block)
    | VoteMsg(vote: Vote)
    | NewView(from: PeerID, height: nat, qc: Option<QuorumCert>)

  datatype Node = Node(
    id: PeerID,
    f: nat,
    blocks: map<Digest, Block>,
    lastVote: nat,
    bLock: Block,
    bExec: Block,
    bLeaf: Block,
    highQC: QuorumCert,
    verifiedVotes: map<Digest, seq<Vote>>,
    newView: map<nat, set<PeerID>>,
    lastBeat: nat,
    cmdQueue: seq<Command>,
    msgs: seq<Message>,
    executed: seq<Command>,
    halted: bool)

  // ----- signer.go

  datatype CertError = HashMismatch | PartialDuplicate

  datatype CertResult = Cert(qc: QuorumCert) | Refused(error: CertError)

  /** The certificate built by adding the votes one by one to sigs. */
  function CreateQuorumCert(digest: Digest, sigs: map<PeerID, Signature>, votes: seq<Vote>): CertResult
    decreases |votes|
  {
    if votes == [] then Cert(QuorumCert(digest, sigs))
    else if votes[0].digest != digest then Refused(HashMismatch)
    else if votes[0].signer in sigs then Refused(PartialDuplicate)
    else CreateQuorumCert(digest, sigs[votes[0].signer := votes[0].sig], votes[1..])
  }

  /** What a built certificate contains: every vote, one per signer. */
  lemma {:induction false} CertContents(digest: Digest, sigs: map<PeerID, Signature>, votes: seq<Vote>)
    ensures var r := CreateQuorumCert(digest, sigs, votes);
      r.Cert? <==>
        && (forall i :: 0 <= i < |votes| ==> votes[i].digest == digest && votes[i].signer !in sigs)
        && (forall i, j :: 0 <= i < j < |votes| ==> votes[i].signer != votes[j].signer)
    ensures var r := CreateQuorumCert(digest, sigs, votes);
      r.Cert? ==>
        && r.qc.digest == digest && |r.qc.sigs| == |sigs| + |votes|
        && (forall p :: p in sigs ==> p in r.qc.sigs && r.qc.sigs[p] == sigs[p])
        && (forall i :: 0 <= i < |votes| ==> votes[i].signer in r.qc.sigs && r.qc.sigs[votes[i].signer] == votes[i].sig)
    decreases |votes|
  {
    if votes != [] && votes[0].digest == digest && votes[0].signer !in sigs {
      var rest := votes[1..];
      CertContents(digest, sigs[votes[0].signer := votes[0].sig], rest);
      assert forall i :: 1 <= i < |votes| ==> votes[i] == rest[i - 1];
      assert forall i :: 0 <= i < |rest| ==> rest[i] == votes[i + 1];
    }
  }

  /** The signers whose entry in the certificate is really theirs, over the certified digest. */
  function ValidSigners(qc: QuorumCert): set<PeerID> {
    set p | p in qc.sigs && qc.sigs[p] == Signed(p, qc.digest)
  }

  predicate VerifyQuorumCert(qc: QuorumCert, f: nat) {
    qc.digest == Of(GENESIS) || |ValidSigners(qc)| >= 2 * f + 1
  }

  predicate VerifyVote(v: Vote) {
    v.sig == Signed(v.signer, v.digest)
  }

  // ----- pacemaker.go

  function Leader(f: nat, height: nat): PeerID {
    height % (3 * f + 1)
  }

  function Beat(s: Node): Node {
    if s.bLeaf.height <= s.lastBeat || s.id != Leader(s.f, s.bLeaf.height + 1) then s
    else ProposeNext(s.(lastBeat := s.bLeaf.height))
  }

  // ----- block.go

  /** The block that propose builds. */
  function NextBlock(s: Node): Block {
    Block(Of(s.bLeaf), if s.cmdQueue == [] then None else Some(s.cmdQueue[0]), s.bLeaf.height + 1, Some(s.highQC), s.id)
  }

  function ProposeNext(s: Node): Node {
    var blk := NextBlock(s);
    s.(cmdQueue := if s.cmdQueue == [] then [] else s.cmdQueue[1..],
       blocks := s.blocks[Of(blk) := blk],
       msgs := s.msgs + [Propose(blk)])
  }

  /** Follow parents through the store until a block no higher than floor; None when a parent is missing. */
  function WalkDown(blocks: map<Digest, Block>, b: Block, floor: nat): Option<Block> {
    if b.height <= floor then Some(b)
    else if b.parent.Of? && b.parent in blocks then WalkDown(blocks, b.parent.blk, floor)
    else None
  }

  /** The vote rule: the certificate is higher than the lock, or the block extends the lock. */
  predicate Safe(s: Node, blk: Block)
    requires blk.qc.Some?
  {
    var qd := blk.qc.value.digest;
    || (qd in s.blocks && s.blocks[qd].height > s.bLock.height)
    || WalkDown(s.blocks, blk, s.bLock.height) == Some(s.bLock)
  }

  /** The replica votes for blk when it receives it now. */
  predicate Accepts(s: Node, blk: Block) {
    && !s.halted
    && blk.proposer == Leader(s.f, blk.height)
    && blk.height > s.lastVote
    && blk.qc.Some?
    && VerifyQuorumCert(blk.qc.value, s.f)
    && Safe(s, blk)
  }

  function OnPropose(s: Node, blk: Block): Node {
    if s.halted then s
    else if blk.proposer != Leader(s.f, blk.height) then s.(halted := true)
    else if blk.height <= s.lastVote then s
    else if blk.qc.None? || !VerifyQuorumCert(blk.qc.value, s.f) then s.(halted := true)
    else if !Safe(s, blk) then s
    else CastVote(s, blk)
  }

  function CastVote(s: Node, blk: Block): Node {
    Update(s.(blocks := s.blocks[Of(blk) := blk],
              lastVote := blk.height,
              msgs := s.msgs + [VoteMsg(Vote(Of(blk), s.id, Signed(s.id, Of(blk))))]), blk)
  }

  function QcRef(blocks: map<Digest, Block>, qc: Option<QuorumCert>): Option<Block> {
    if qc.Some? && qc.value.digest in blocks then Some(blocks[qc.value.digest]) else None
  }

  function UpdateHighQC(s: Node, qc: QuorumCert): Node {
    if qc.digest !in s.blocks then s
    else if s.highQC.digest !in s.blocks then s.(halted := true)
    else if s.blocks[qc.digest].height > s.blocks[s.highQC.digest].height then
      s.(highQC := qc, bLeaf := s.blocks[qc.digest])
    else s
  }

  /** The commands that commit executes for blk, given the height already executed. */
  function CommitCmds(blocks: map<Digest, Block>, done: nat, blk: Block): seq<Command> {
    if done >= blk.height then []
    else
      (if blk.parent.Of? && blk.parent in blocks then CommitCmds(blocks, done, blk.parent.blk) else [])
      + (if blk.qc.Some? && blk.cmd.Some? then [blk.cmd.value] else [])
  }

  function Lock(s: Node, b2: Block): Node {
    if b2.height > s.bLock.height then s.(bLock := b2) else s
  }

  /** block3 of update, when block1, block2 and block3 exist and form a chain of direct parents. */
  function ThreeChain(blocks: map<Digest, Block>, b1: Block, b2: Block): Option<Block> {
    match QcRef(blocks, b2.qc)
    case None => None
    case Some(b3) => if b1.parent == Of(b2) && b2.parent == Of(b3) then Some(b3) else None
  }

  function Update(s: Node, blk: Block): Node {
    match QcRef(s.blocks, blk.qc)
    case None => s
    case Some(b1) =>
      var s1 := UpdateHighQC(s, blk.qc.value);
      if s1.halted then s1 else LockAndDecide(s1, b1)
  }

  function LockAndDecide(s: Node, b1: Block): Node {
    match QcRef(s.blocks, b1.qc)
    case None => s
    case Some(b2) =>
      match ThreeChain(s.blocks, b1, b2)
      case None => Lock(s, b2)
      case Some(b3) => Decide(Lock(s, b2), b3)
  }

  function Decide(s: Node, b3: Block): Node {
    s.(executed := s.executed + CommitCmds(s.blocks, s.bExec.height, b3), bExec := b3)
  }

  /** The block that the replica decides when it votes for blk, if any. */
  function Decides(s: Node, blk: Block): Option<Block> {
    DecidesIn(s.blocks[Of(blk) := blk], blk)
  }

  /** The same, read from a store that already holds blk. */
  function DecidesIn(blocks: map<Digest, Block>, blk: Block): Option<Block> {
    match QcRef(blocks, blk.qc)
    case None => None
    case Some(b1) => DecidesBelow(blocks, b1)
  }

  function DecidesBelow(blocks: map<Digest, Block>, b1: Block): Option<Block> {
    match QcRef(blocks, b1.qc)
    case None => None
    case Some(b2) => ThreeChain(blocks, b1, b2)
  }

  /** onVote's deferred clean-up: votes for unknown or old blocks are dropped. */
  function PruneVotes(s: Node): Node {
    s.(verifiedVotes := map d | d in s.verifiedVotes && d in s.blocks && s.blocks[d].height > s.bLeaf.height :: s.verifiedVotes[d])
  }

  function OnVote(s: Node, v: Vote): Node {
    if s.halted then s
    else
      var t := PruneVotes(s);
      if v.digest !in s.blocks || s.blocks[v.digest].height <= s.bLeaf.height then t
      else if !VerifyVote(v) then t.(halted := true)
      else OnVoteContinue(t, v)
  }

  function VotesFor(s: Node, d: Digest): seq<Vote> {
    if d in s.verifiedVotes then s.verifiedVotes[d] else []
  }

  function OnVoteContinue(s: Node, v: Vote): Node {
    var votes := VotesFor(s, v.digest) + [v];
    if |votes| < 2 * s.f + 1 then s.(verifiedVotes := s.verifiedVotes[v.digest := votes])
    else match CreateQuorumCert(v.digest, map[], votes)
    case Refused(_) => s.(verifiedVotes := s.verifiedVotes[v.digest := votes], halted := true)
    case Cert(qc) =>
      var t := UpdateHighQC(s.(verifiedVotes := s.verifiedVotes - {v.digest}), qc);
      if t.halted then t else Beat(t)
  }

  // ----- newview.go, request.go

  function PruneViews(s: Node): Node {
    s.(newView := map h | h in s.newView && h >= s.bLeaf.height :: s.newView[h])
  }

  function OnNewView(s: Node, from: PeerID, height: nat, qc: Option<QuorumCert>): Node {
    if s.halted then s
    else if qc.None? then s.(halted := true)
    else
      var t := PruneViews(s);
      var u := if VerifyQuorumCert(qc.value, s.f) then UpdateHighQC(t, qc.value) else t;
      if u.halted then u else CountNewView(u, from, height)
  }

  function CountNewView(s: Node, from: PeerID, height: nat): Node {
    var senders := (if height in s.newView then s.newView[height] else {}) + {from};
    var t := s.(newView := s.newView[height := senders]);
    if |senders| < 2 * s.f + 1 then t else Beat(t)
  }

  function OnRequest(s: Node, cmd: Command): Node {
    if s.halted then s else Beat(s.(cmdQueue := s.cmdQueue + [cmd]))
  }

  function Receive(s: Node, m: Message): Node {
    match m
    case Propose(blk) => OnPropose(s, blk)
    case VoteMsg(v) => OnVote(s, v)
    case NewView(from, height, qc) => OnNewView(s, from, height, qc)
  }

  function Initial(f: nat, id: PeerID): Node {
    var s := Node(id, f, map[Of(GENESIS) := GENESIS], 0, GENESIS, GENESIS, GENESIS, QuorumCert(Of(GENESIS), map[]),
                  map[], map[], 0, [], [], [], false);
    if id == Leader(f, 1) then ProposeNext(s) else s
  }
}
