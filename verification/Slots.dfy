/** One PBFT slot of protocols/dqpbft, shared by its two layers: the replication layer keeps one slot per
    InstanceID with a Command, the ordering layer one per index with a batch of InstanceIDs.

    A digest carries what it digests, so it is injective; Junk is the digest of nothing.  Inside one slot
    two messages are Equals exactly when their view and digest agree, which is what a Ballot holds. */
module Slots {
  import opened Quorums

  datatype Digest<P> = Of(payload: P) | Junk(id: nat)

  datatype Ballot<P> = Ballot(view: nat, digest: Option<Digest<P>>)

  datatype Status = Idle | PrePrepared | Prepared | Committed | Executed

  function Rank(s: Status): nat {
    match s
    case Idle => 0
    case PrePrepared => 1
    case Prepared => 2
    case Committed => 3
    case Executed => 4
  }

  // ----- quorum.go

  datatype Cert<P> = Cert(maxView: nat, msgs: map<nat, map<PeerID, Ballot<P>>>)

  function EmptyCert<P>(): Cert<P> {
    Cert(0, map[])
  }

  /** The ballot that c holds from sender `from` in view v. */
  function Entry<P>(c: Cert<P>, v: nat, from: PeerID): Option<Ballot<P>> {
    if v in c.msgs && from in c.msgs[v] then Some(c.msgs[v][from]) else None
  }

  /** log: None is the panic on a lower view or on a second message of one sender in one view. */
  function Log<P>(c: Cert<P>, from: PeerID, b: Ballot<P>): (r: Option<Cert<P>>)
    ensures r.Some? <==> c.maxView <= b.view && Entry(c, b.view, from).None?
    ensures r.Some? ==> Entry(r.value, b.view, from) == Some(b)
    ensures r.Some? ==> forall v: nat, p: PeerID :: (v, p) != (b.view, from) ==> Entry(r.value, v, p) == Entry(c, v, p)
  {
    var inView := if b.view in c.msgs then c.msgs[b.view] else map[];
    if c.maxView > b.view || from in inView then None
    else Some(Cert(b.view, c.msgs[b.view := inView[from := b]]))
  }

  /** The senders whose message in b's view is equal to b. */
  function Matching<P(==)>(c: Cert<P>, b: Ballot<P>): set<PeerID> {
    if b.view in c.msgs then set p | p in c.msgs[b.view] && c.msgs[b.view][p] == b else {}
  }

  predicate Majority<P(==)>(c: Cert<P>, b: Ballot<P>, f: nat) {
    |Matching(c, b)| > 2 * f
  }

  lemma MatchingEntry<P(!new)>(c: Cert<P>, b: Ballot<P>, p: PeerID)
    ensures p in Matching(c, b) <==> Entry(c, b.view, p) == Some(b)
  {
  }

  ghost predicate CertGrows<P(!new)>(c: Cert<P>, d: Cert<P>) {
    forall v: nat, p: PeerID :: Entry(c, v, p).Some? ==> Entry(d, v, p) == Entry(c, v, p)
  }

  lemma MajorityGrows<P(!new)>(c: Cert<P>, d: Cert<P>, b: Ballot<P>, f: nat)
    requires CertGrows(c, d) && Majority(c, b, f)
    ensures Majority(d, b, f)
  {
    forall p | p in Matching(c, b) ensures p in Matching(d, b) {
      MatchingEntry(c, b, p);
      MatchingEntry(d, b, p);
    }
    SubsetSize(Matching(c, b), Matching(d, b));
  }

  // ----- the handlers of cinstance.go and oinstance.go, on one slot

  datatype Slot<P> = Slot(
    view: nat,
    status: Status,
    payload: Option<P>,
    digest: Option<Digest<P>>,
    pCert: Cert<P>,
    cCert: Cert<P>)

  /** Halt is a panic.  Otherwise the new slot, the prepare and commit ballots that the handler broadcasts,
      and whether it has just committed. */
  datatype Outcome<P> = Halt | Next(slot: Slot<P>, prepare: Option<Ballot<P>>, commit: Option<Ballot<P>>, committed: bool)

  function MakeSlot<P>(view: nat, payload: Option<P>, digest: Option<Digest<P>>): Slot<P> {
    Slot(view, Idle, payload, digest, EmptyCert(), EmptyCert())
  }

  function UpdatePayload<P>(s: Slot<P>, same: (P, P) -> bool, payload: Option<P>): Option<Slot<P>> {
    if s.payload.None? then Some(s.(payload := payload))
    else if payload.Some? && same(s.payload.value, payload.value) then Some(s)
    else None
  }

  function UpdateDigest<P(==)>(s: Slot<P>, digest: Option<Digest<P>>): Option<Slot<P>> {
    if s.digest.None? then Some(s.(digest := digest))
    else if s.digest == digest then Some(s)
    else None
  }

  /** Promotion to Prepared and possibly Committed, once the prepare certificate has b. */
  function TryPrepare<P(==)>(s: Slot<P>, self: PeerID, f: nat, b: Ballot<P>, sent: Option<Ballot<P>>): Outcome<P> {
    if !Majority(s.pCert, b, f) || s.status != PrePrepared then Next(s, sent, None, false)
    else
      var cm := Ballot(b.view, s.digest);
      match Log(s.cCert, self, cm)
      case None => Halt
      case Some(c) =>
        var done := Majority(c, cm, f);
        Next(s.(status := if done then Committed else Prepared, cCert := c), sent, Some(cm), done)
  }

  function PrePrepareSlot<P(==)>(was: Option<Slot<P>>, same: (P, P) -> bool, self: PeerID, f: nat, from: PeerID,
                             view: nat, payload: Option<P>, digest: Digest<P>): Outcome<P> {
    var known :=
      if was.None? then Some(MakeSlot(view, payload, Some(digest)))
      else match UpdatePayload(was.value, same, payload)
           case None => None
           case Some(t) => UpdateDigest(t, Some(digest));
    match known
    case None => Halt
    case Some(s) =>
      match CastPrepare(s, self, from, Ballot(view, Some(digest)))
      case None => Halt
      case Some(t) =>
        var pm := Ballot(s.view, s.digest);
        TryPrepare(t, self, f, pm, Some(pm))
  }

  /** Log the pre-prepare of `from` and the replica's own prepare. */
  function CastPrepare<P>(s: Slot<P>, self: PeerID, from: PeerID, b: Ballot<P>): Option<Slot<P>> {
    match Log(s.pCert, from, b)
    case None => None
    case Some(c) =>
      match Log(c, self, Ballot(s.view, s.digest))
      case None => None
      case Some(d) => Some(s.(status := PrePrepared, pCert := d))
  }

  function KnownSlot<P(==)>(was: Option<Slot<P>>, view: nat, payload: Option<P>, digest: Option<Digest<P>>): Option<Slot<P>> {
    if was.None? then Some(MakeSlot(view, payload, digest)) else UpdateDigest(was.value, digest)
  }

  function PrepareSlot<P(==)>(was: Option<Slot<P>>, self: PeerID, f: nat, from: PeerID,
                          view: nat, payload: Option<P>, digest: Option<Digest<P>>): Outcome<P> {
    match KnownSlot(was, view, payload, digest)
    case None => Halt
    case Some(s) =>
      match Log(s.pCert, from, Ballot(view, digest))
      case None => Halt
      case Some(c) => TryPrepare(s.(pCert := c), self, f, Ballot(view, digest), None)
  }

  function CommitSlot<P(==)>(was: Option<Slot<P>>, f: nat, from: PeerID,
                         view: nat, payload: Option<P>, digest: Option<Digest<P>>): Outcome<P> {
    match KnownSlot(was, view, payload, digest)
    case None => Halt
    case Some(s) =>
      match Log(s.cCert, from, Ballot(view, digest))
      case None => Halt
      case Some(c) =>
        var done := Majority(c, Ballot(view, digest), f) && s.status == Prepared;
        Next(s.(cCert := c, status := if done then Committed else s.status), None, None, done)
  }

  // ----- what every handler keeps of a slot

  /** The ballot a replica has cast itself: the entry under its own id, in the slot's view. */
  function OwnBallot<P>(s: Slot<P>, self: PeerID): Option<Ballot<P>> {
    Entry(s.pCert, s.view, self)
  }

  /** The invariant of one slot at replica self. */
  ghost predicate SlotOK<P(!new)>(s: Slot<P>, self: PeerID, f: nat) {
    && (forall v: nat, p: PeerID :: Entry(s.pCert, v, p).Some? ==> p in Peers(f) && Entry(s.pCert, v, p).value.view == v)
    && (forall v: nat :: Entry(s.pCert, v, self).Some? ==> v == s.view)
    && (Rank(s.status) >= 1 ==> OwnBallot(s, self).Some?)
    && (Rank(s.status) >= 2 ==> Quorate(s, f))
  }

  /** 2f+1 matching prepares for the slot's digest.  A digest that is missing from all of them is possible
      only locally: a correct peer never sends one. */
  ghost predicate Quorate<P(!new)>(s: Slot<P>, f: nat) {
    exists b: Ballot<P> :: Majority(s.pCert, b, f) && (b.digest.Some? ==> b.digest == s.digest)
  }

  lemma QuorateGrows<P(!new)>(s: Slot<P>, t: Slot<P>, f: nat)
    requires Quorate(s, f) && CertGrows(s.pCert, t.pCert) && (s.digest.Some? ==> t.digest == s.digest)
    ensures Quorate(t, f)
  {
    var b: Ballot<P> :| Majority(s.pCert, b, f) && (b.digest.Some? ==> b.digest == s.digest);
    MajorityGrows(s.pCert, t.pCert, b, f);
  }

  /** How a handler may change a slot: the view and a set digest stay, certificates only gain entries, the
      status does not fall. */
  ghost predicate Evolves<P(!new)>(s: Slot<P>, t: Slot<P>) {
    && t.view == s.view
    && (s.digest.Some? ==> t.digest == s.digest)
    && CertGrows(s.pCert, t.pCert) && CertGrows(s.cCert, t.cCert)
    && Rank(s.status) <= Rank(t.status)
  }

  /** The new entries of t's prepare certificate are b from sender `from`, or t's own ballot. */
  ghost predicate GainsOnly<P(!new)>(was: Option<Slot<P>>, t: Slot<P>, self: PeerID, from: PeerID, b: Ballot<P>) {
    forall v: nat, p: PeerID :: Entry(t.pCert, v, p).Some? ==>
      || (was.Some? && Entry(was.value.pCert, v, p) == Entry(t.pCert, v, p))
      || (p == from && Entry(t.pCert, v, p) == Some(b))
      || (p == self && v == t.view && (was.None? || OwnBallot(was.value, self).None?))
  }

  lemma TryPrepareOK<P(!new)>(s: Slot<P>, self: PeerID, f: nat, b: Ballot<P>, sent: Option<Ballot<P>>)
    requires SlotOK(s, self, f) && b.digest == s.digest
    requires TryPrepare(s, self, f, b, sent).Next?
    ensures var t := TryPrepare(s, self, f, b, sent).slot;
      SlotOK(t, self, f) && Evolves(s, t) && t.pCert == s.pCert && t.payload == s.payload && t.digest == s.digest
  {
  }

  lemma CastPrepareOK<P(!new)>(s: Slot<P>, self: PeerID, f: nat, from: PeerID, b: Ballot<P>)
    requires SlotOK(s, self, f) && self in Peers(f) && from in Peers(f) && from != self
    requires CastPrepare(s, self, from, b).Some?
    ensures OwnBallot(s, self).None? && s.status == Idle
    ensures var t := CastPrepare(s, self, from, b).value;
      && SlotOK(t, self, f) && Evolves(s, t) && OwnBallot(t, self) == Some(Ballot(s.view, s.digest))
      && t.view == s.view && t.digest == s.digest && t.payload == s.payload && t.status == PrePrepared
      && forall v: nat, p: PeerID :: Entry(t.pCert, v, p) ==
           if (v, p) == (s.view, self) then Some(Ballot(s.view, s.digest)) else if (v, p) == (b.view, from) then Some(b) else Entry(s.pCert, v, p)
  {
  }

  /** A pre-prepare.  A slot that already has its own ballot halts the replica: this is why the status,
      assigned without a test, never moves backwards. */
  lemma PrePrepareSlotOK<P(!new)>(was: Option<Slot<P>>, same: (P, P) -> bool, self: PeerID, f: nat, from: PeerID,
                            view: nat, payload: Option<P>, digest: Digest<P>)
    requires was.Some? ==> SlotOK(was.value, self, f)
    requires from in Peers(f) && self in Peers(f) && from != self
    requires PrePrepareSlot(was, same, self, f, from, view, payload, digest).Next?
    ensures var r := PrePrepareSlot(was, same, self, f, from, view, payload, digest);
      && SlotOK(r.slot, self, f)
      && (was.Some? ==> Evolves(was.value, r.slot) && OwnBallot(was.value, self).None?)
      && GainsOnly(was, r.slot, self, from, Ballot(view, Some(digest)))
      && r.slot.digest == Some(digest) && r.prepare == OwnBallot(r.slot, self) == Some(Ballot(r.slot.view, Some(digest)))
      && Entry(r.slot.pCert, view, from) == Some(Ballot(view, Some(digest)))
      && r.slot.payload == (if was.Some? && was.value.payload.Some? then was.value.payload else payload)
      && (was.Some? && was.value.payload.Some? ==> payload.Some? && same(was.value.payload.value, payload.value))
  {
    var s := if was.None? then MakeSlot(view, payload, Some(digest))
             else UpdateDigest(UpdatePayload(was.value, same, payload).value, Some(digest)).value;
    var t := CastPrepare(s, self, from, Ballot(view, Some(digest))).value;
    assert SlotOK(s, self, f);
    CastPrepareOK(s, self, f, from, Ballot(view, Some(digest)));
    hide CastPrepare, Majority;
    TryPrepareOK(t, self, f, Ballot(s.view, s.digest), Some(Ballot(s.view, s.digest)));
  }

  lemma KnownSlotOK<P(!new)>(was: Option<Slot<P>>, self: PeerID, f: nat, view: nat, payload: Option<P>, digest: Option<Digest<P>>)
    requires was.Some? ==> SlotOK(was.value, self, f)
    requires KnownSlot(was, view, payload, digest).Some?
    ensures var s := KnownSlot(was, view, payload, digest).value;
      SlotOK(s, self, f) && s.digest == digest && (was.Some? ==> Evolves(was.value, s) && s.pCert == was.value.pCert)
  {
    if was.Some? && Rank(was.value.status) >= 2 {
      QuorateGrows(was.value, KnownSlot(was, view, payload, digest).value, f);
    }
  }

  lemma PrepareSlotOK<P(!new)>(was: Option<Slot<P>>, self: PeerID, f: nat, from: PeerID,
                         view: nat, payload: Option<P>, digest: Option<Digest<P>>)
    requires was.Some? ==> SlotOK(was.value, self, f)
    requires from in Peers(f) && self in Peers(f) && from != self
    requires PrepareSlot(was, self, f, from, view, payload, digest).Next?
    ensures var r := PrepareSlot(was, self, f, from, view, payload, digest);
      && SlotOK(r.slot, self, f) && r.prepare.None?
      && (was.Some? ==> Evolves(was.value, r.slot))
      && GainsOnly(was, r.slot, self, from, Ballot(view, digest))
      && OwnBallot(r.slot, self) == (if was.None? then None else OwnBallot(was.value, self))
      && (was.Some? ==> r.slot.payload == was.value.payload)
  {
    var s := KnownSlot(was, view, payload, digest).value;
    KnownSlotOK(was, self, f, view, payload, digest);
    var t := s.(pCert := Log(s.pCert, from, Ballot(view, digest)).value);
    LoggedOK(s, t.pCert, self, f, from, Ballot(view, digest));
    hide Log, Majority;
    TryPrepareOK(t, self, f, Ballot(view, digest), None);
  }

  lemma LoggedOK<P(!new)>(s: Slot<P>, c: Cert<P>, self: PeerID, f: nat, from: PeerID, b: Ballot<P>)
    requires SlotOK(s, self, f) && from in Peers(f) && from != self && Log(s.pCert, from, b) == Some(c)
    ensures SlotOK(s.(pCert := c), self, f) && CertGrows(s.pCert, c)
  {
    if Rank(s.status) >= 2 {
      QuorateGrows(s, s.(pCert := c), f);
    }
  }

  lemma CommitSlotOK<P(!new)>(was: Option<Slot<P>>, self: PeerID, f: nat, from: PeerID,
                        view: nat, payload: Option<P>, digest: Option<Digest<P>>)
    requires was.Some? ==> SlotOK(was.value, self, f)
    requires CommitSlot(was, f, from, view, payload, digest).Next?
    ensures var r := CommitSlot(was, f, from, view, payload, digest);
      && SlotOK(r.slot, self, f) && r.prepare.None?
      && (was.Some? ==> Evolves(was.value, r.slot) && r.slot.pCert == was.value.pCert && r.slot.payload == was.value.payload)
      && (was.None? ==> r.slot.pCert == EmptyCert())
  {
    var s := KnownSlot(was, view, payload, digest).value;
    KnownSlotOK(was, self, f, view, payload, digest);
    hide KnownSlot, Majority, Quorate;
    var c := Log(s.cCert, from, Ballot(view, digest)).value;
    hide Log;
    assert CertGrows(s.cCert, c);
    var t := CommitSlot(was, f, from, view, payload, digest).slot;
    assert Quorate(s, f) == Quorate(t, f) by {
      PreparesOnly(s, t, f);
    }
  }

  lemma PreparesOnly<P(!new)>(s: Slot<P>, t: Slot<P>, f: nat)
    requires s.pCert == t.pCert && s.digest == t.digest
    ensures Quorate(s, f) == Quorate(t, f)
  {
  }
}
