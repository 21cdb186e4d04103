/** When a slot is prepared or committed: on more than 2f equal entries of a certificate, counted afresh. */
module SlotCommits {
  import opened Quorums
  import opened Slots
  import opened SlotAgreement

  /** The senders whose entry in b's view is b. */
  function Backers<P(==)>(c: Cert<P>, b: Ballot<P>): set<PeerID> {
    set p | b.view in c.msgs && p in c.msgs[b.view] && Entry(c, b.view, p) == Some(b)
  }

  lemma MajorityMeans<P(!new)>(c: Cert<P>, b: Ballot<P>, f: nat)
    ensures Majority(c, b, f) <==> |Backers(c, b)| > 2 * f
  {
    assert Matching(c, b) == Backers(c, b);
  }

  /** More than 2f commits for the slot's digest.  A loose slot may also have them without a digest. */
  ghost predicate Confirmed<P(!new)>(x: Slot<P>, f: nat, loose: bool) {
    exists b: Ballot<P> :: |Backers(x.cCert, b)| > 2 * f && (b.digest == x.digest || (loose && b.digest.None?))
  }

  /** A slot that is committed, or executed, is so on a quorum of commits. */
  ghost predicate Upright<P(!new)>(x: Slot<P>, f: nat, loose: bool) {
    Rank(x.status) >= Rank(Committed) ==> Confirmed(x, f, loose)
  }

  lemma BackersGrow<P(!new)>(c: Cert<P>, d: Cert<P>, b: Ballot<P>)
    requires CertGrows(c, d)
    ensures |Backers(c, b)| <= |Backers(d, b)|
  {
    forall p | p in Backers(c, b) ensures p in Backers(d, b) {
      assert Entry(d, b.view, p) == Entry(c, b.view, p);
    }
    SubsetSize(Backers(c, b), Backers(d, b));
  }

  lemma ConfirmedStays<P(!new)>(x: Slot<P>, y: Slot<P>, f: nat, loose: bool)
    requires Confirmed(x, f, loose) && CertGrows(x.cCert, y.cCert) && (x.digest.Some? ==> y.digest == x.digest) && (loose || x.digest.Some?)
    ensures Confirmed(y, f, loose)
  {
    var b: Ballot<P> :| |Backers(x.cCert, b)| > 2 * f && (b.digest == x.digest || (loose && b.digest.None?));
    BackersGrow(x.cCert, y.cCert, b);
  }

  // ----- promotion

  /** A pre-prepared slot is prepared exactly on a quorum of prepares, and committed with it exactly on a quorum of
      commits; other slots stay what they are. */
  lemma TryPrepareIff<P(!new)>(s: Slot<P>, self: PeerID, f: nat, b: Ballot<P>, sent: Option<Ballot<P>>)
    requires TryPrepare(s, self, f, b, sent).Next?
    ensures var t := TryPrepare(s, self, f, b, sent).slot;
      && t.pCert == s.pCert && t.digest == s.digest && CertGrows(s.cCert, t.cCert)
      && (s.status != PrePrepared ==> t == s)
      && (s.status == PrePrepared ==> (Rank(t.status) >= Rank(Prepared) <==> |Backers(s.pCert, b)| > 2 * f))
      && (s.status == PrePrepared && Rank(t.status) >= Rank(Prepared) ==>
            && Entry(t.cCert, b.view, self) == Some(Ballot(b.view, s.digest))
            && (Rank(t.status) >= Rank(Committed) <==> |Backers(t.cCert, Ballot(b.view, s.digest))| > 2 * f))
  {
    MajorityMeans(s.pCert, b, f);
    var c := Log(s.cCert, self, Ballot(b.view, s.digest));
    if c.Some? {
      MajorityMeans(c.value, Ballot(b.view, s.digest), f);
    }
    hide Majority, Backers;
  }

  // ----- the three handlers

  /** What a handler makes of the slot: a slot that it commits has its quorum, and one that had it keeps it. */
  ghost predicate Commits<P(!new)>(was: Option<Slot<P>>, x: Slot<P>, f: nat) {
    && (Rank(x.status) >= Rank(Committed) && (was.Some? ==> Rank(was.value.status) < Rank(Committed)) ==> Confirmed(x, f, false))
    && (was.Some? ==> CertGrows(was.value.cCert, x.cCert) && (was.value.digest.Some? ==> x.digest == was.value.digest))
  }

  lemma UprightStays<P(!new)>(was: Option<Slot<P>>, x: Slot<P>, f: nat, loose: bool)
    requires Commits(was, x, f)
    requires was.Some? ==> Upright(was.value, f, loose) && (Rank(was.value.status) >= Rank(Committed) ==> loose || was.value.digest.Some?)
    ensures Upright(x, f, loose)
  {
    if Rank(x.status) >= Rank(Committed) {
      if was.Some? && Rank(was.value.status) >= Rank(Committed) {
        ConfirmedStays(was.value, x, f, loose);
      } else {
        assert Confirmed(x, f, false);
        var b: Ballot<P> :| |Backers(x.cCert, b)| > 2 * f && b.digest == x.digest;
        assert Confirmed(x, f, loose);
      }
    }
  }

  /** A pre-prepare leaves the slot prepared exactly if, with it and the replica's own vote, more than 2f prepares
      are equal to that vote. */
  lemma PrePrepareIff<P(!new)>(was: Option<Slot<P>>, same: (P, P) -> bool, self: PeerID, f: nat, from: PeerID,
                               view: nat, payload: Option<P>, digest: Digest<P>)
    requires PrePrepareSlot(was, same, self, f, from, view, payload, digest).Next?
    ensures var x := PrePrepareSlot(was, same, self, f, from, view, payload, digest).slot;
      && Commits(was, x, f) && Rank(x.status) >= Rank(PrePrepared)
      && (Rank(x.status) >= Rank(Prepared) <==> |Backers(x.pCert, Ballot(x.view, Some(digest)))| > 2 * f)
  {
    var s := if was.None? then MakeSlot(view, payload, Some(digest))
             else UpdateDigest(UpdatePayload(was.value, same, payload).value, Some(digest)).value;
    var t := CastPrepare(s, self, from, Ballot(view, Some(digest))).value;
    var pm := Ballot(s.view, s.digest);
    TryPrepareIff(t, self, f, pm, Some(pm));
    hide TryPrepare, Log, Backers;
    assert PrePrepareSlot(was, same, self, f, from, view, payload, digest) == TryPrepare(t, self, f, pm, Some(pm));
    assert t.status == PrePrepared && t.digest == s.digest == Some(digest) && t.view == s.view && t.cCert == s.cCert;
    hide CastPrepare, PrePrepareSlot;
  }

  /** A prepare leaves a pre-prepared slot prepared exactly if, with it, more than 2f prepares are equal to it. */
  lemma PrepareIff<P(!new)>(was: Option<Slot<P>>, self: PeerID, f: nat, from: PeerID,
                            view: nat, payload: Option<P>, digest: Option<Digest<P>>)
    requires PrepareSlot(was, self, f, from, view, payload, digest).Next?
    ensures var x := PrepareSlot(was, self, f, from, view, payload, digest).slot;
      && Commits(was, x, f) && Entry(x.pCert, view, from) == Some(Ballot(view, digest))
      && (was.Some? && was.value.status == PrePrepared ==>
            (Rank(x.status) >= Rank(Prepared) <==> |Backers(x.pCert, Ballot(view, digest))| > 2 * f))
      && (was.Some? && was.value.status != PrePrepared ==> x.status == was.value.status) && (was.None? ==> x.status == Idle)
  {
    var s := KnownSlot(was, view, payload, digest).value;
    var b := Ballot(view, digest);
    var t := s.(pCert := Log(s.pCert, from, b).value);
    TryPrepareIff(t, self, f, b, None);
    hide TryPrepare, Backers;
  }

  /** A commit commits a prepared slot exactly if, with it, more than 2f commits are equal to it. */
  lemma CommitIff<P(!new)>(was: Option<Slot<P>>, f: nat, from: PeerID, view: nat, payload: Option<P>, digest: Option<Digest<P>>)
    requires CommitSlot(was, f, from, view, payload, digest).Next?
    ensures var x := CommitSlot(was, f, from, view, payload, digest).slot;
      && Commits(was, x, f) && Entry(x.cCert, view, from) == Some(Ballot(view, digest))
      && (was.Some? && was.value.status == Prepared ==>
            (Rank(x.status) >= Rank(Committed) <==> |Backers(x.cCert, Ballot(view, digest))| > 2 * f))
      && (was.Some? && was.value.status != Prepared ==> x.status == was.value.status) && (was.None? ==> x.status == Idle)
  {
    var s := KnownSlot(was, view, payload, digest).value;
    var c := Log(s.cCert, from, Ballot(view, digest)).value;
    MajorityMeans(c, Ballot(view, digest), f);
    hide Majority, Backers;
    assert CertGrows(s.cCert, c);
  }
}
