/** Blocks, certificates and the block tree of protocols/chainhotstuff.

    A digest of a block carries the block itself, so hashing is injective and no chain of parents can
    be cyclic.  Junk stands for a 64-byte value that is the digest of no block; Junk(0) is the all-zero
    array which an absent parent reads as. */
module HotStuffBlocks {
  import opened Quorums

  datatype Command = Command(timestamp: nat, ops: seq<int>)

  datatype Digest = Of(blk: Block) | Junk(id: nat)

  /** Signed(p, d): the signature that p produced over d.  Garbage verifies for nobody. */
  datatype Signature = Signed(signer: PeerID, digest: Digest) | Garbage(id: nat)

  datatype QuorumCert = QuorumCert(digest: Digest, sigs: map<PeerID, Signature>)

  datatype Block = Block(parent: Digest, cmd: Option<Command>, height: nat, qc: Option<QuorumCert>, proposer: PeerID)

  const GENESIS := Block(Junk(0), None, 0, None, 0)

  /** a is b or one of b's ancestors. */
  predicate Extends(b: Block, a: Block) {
    b == a || (b.parent.Of? && Extends(b.parent.blk, a))
  }

  /** Heights along the parents of b count the distance from genesis. */
  predicate Chained(b: Block) {
    b == GENESIS || (b.parent.Of? && b.height == b.parent.blk.height + 1 && Chained(b.parent.blk))
  }

  predicate HasQcBlock(b: Block) {
    b.qc.Some? && b.qc.value.digest.Of?
  }

  /** The block certified by b's certificate. */
  function QcBlock(b: Block): Block
    requires HasQcBlock(b)
  {
    b.qc.value.digest.blk
  }

  /** The weak form: b's certificate is for a proper ancestor of b. */
  predicate WellFormed(b: Block) {
    Chained(b) && b.parent.Of? && HasQcBlock(b) && Extends(b.parent.blk, QcBlock(b))
  }

  /** The strict form: b's certificate is for b's parent. */
  predicate StrictlyWellFormed(b: Block) {
    Chained(b) && b.parent.Of? && HasQcBlock(b) && QcBlock(b) == b.parent.blk
  }

  /** Height of the block reached by following two certificates; 0 when there is no second one. */
  function GrandHeight(b: Block): nat
    requires HasQcBlock(b)
  {
    if HasQcBlock(QcBlock(b)) then QcBlock(QcBlock(b)).height else 0
  }

  lemma {:induction false} ExtendsTransitive(c: Block, b: Block, a: Block)
    requires Extends(c, b) && Extends(b, a)
    ensures Extends(c, a)
  {
    if c != b {
      ExtendsTransitive(c.parent.blk, b, a);
    }
  }

  /** Ancestors of a chained block are chained and lower, and there is one per height. */
  lemma {:induction false} AncestorHeights(b: Block, a: Block)
    requires Chained(b) && Extends(b, a)
    ensures Chained(a) && a.height <= b.height
    ensures a.height == b.height ==> a == b
  {
    if b != a {
      AncestorHeights(b.parent.blk, a);
    }
  }

  lemma {:induction false} ExtendsGenesis(b: Block)
    requires Chained(b)
    ensures Extends(b, GENESIS)
  {
    if b != GENESIS {
      ExtendsGenesis(b.parent.blk);
    }
  }

  /** The ancestors of one block form a line. */
  lemma {:induction false} AncestorsLinear(b: Block, hi: Block, lo: Block)
    requires Chained(b) && Extends(b, hi) && Extends(b, lo) && lo.height <= hi.height
    ensures Extends(hi, lo)
  {
    if b == hi {
    } else if b == lo {
      AncestorHeights(b, hi);
    } else {
      AncestorsLinear(b.parent.blk, hi, lo);
    }
  }

  lemma StrictIsWeak(b: Block)
    requires StrictlyWellFormed(b)
    ensures WellFormed(b)
  {
  }

  lemma QcBlockBelow(b: Block)
    requires WellFormed(b)
    ensures Chained(QcBlock(b)) && QcBlock(b).height < b.height && Extends(b, QcBlock(b)) && b.height > 0
  {
    AncestorHeights(b.parent.blk, QcBlock(b));
  }
}
