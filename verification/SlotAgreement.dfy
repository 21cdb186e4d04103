/** Agreement on PBFT slots across correct replicas: logs maps every correct replica to its slots. */
module SlotAgreement {
  import opened Quorums
  import opened Slots

  type Logs<!K, P> = map<PeerID, map<K, Slot<P>>>

  /** t has cast ballot b for slot k. */
  ghost predicate Backed<K, P>(logs: Logs<K, P>, k: K, t: PeerID, b: Ballot<P>) {
    t in logs && k in logs[t] && OwnBallot(logs[t][k], t) == Some(b)
  }

  /** Every entry of a correct sender in s's prepare certificate is that sender's own ballot. */
  ghost predicate EntriesBacked<K, P>(logs: Logs<K, P>, k: K, s: Slot<P>) {
    forall v: nat, t: PeerID :: t in logs && Entry(s.pCert, v, t).Some? ==> Backed(logs, k, t, Entry(s.pCert, v, t).value)
  }

  ghost predicate LayerOK<K, P(!new)>(logs: Logs<K, P>, f: nat, faulty: set<PeerID>) {
    && |faulty| <= f && logs.Keys == Peers(f) - faulty
    && (forall p, k :: p in logs && k in logs[p] ==>
         && SlotOK(logs[p][k], p, f)
         && EntriesBacked(logs, k, logs[p][k])
         && (OwnBallot(logs[p][k], p).Some? ==> OwnBallot(logs[p][k], p).value.digest.Some?))
  }

  /** A prepared slot is supported by a quorum whose correct members have all cast one same ballot. */
  lemma PreparedQuorum<K, P(!new)>(logs: Logs<K, P>, f: nat, faulty: set<PeerID>, k: K, p: PeerID) returns (q: set<PeerID>, b: Ballot<P>)
    requires LayerOK(logs, f, faulty) && p in logs && k in logs[p] && Rank(logs[p][k].status) >= 2
    ensures q <= Peers(f) && |q| > 2 * f && b.digest.Some? && b.digest == logs[p][k].digest
    ensures forall t :: t in q && t !in faulty ==> Backed(logs, k, t, b)
  {
    var s := logs[p][k];
    assert SlotOK(s, p, f) && EntriesBacked(logs, k, s);
    b :| Majority(s.pCert, b, f) && (b.digest.Some? ==> b.digest == s.digest);
    q := Matching(s.pCert, b);
    forall t | t in q ensures t in Peers(f) && (t !in faulty ==> Backed(logs, k, t, b)) {
      MatchingEntry(s.pCert, b, t);
    }
    var t := CorrectMember(f, faulty, q);
    assert SlotOK(logs[t][k], t, f);
  }

  /** Two correct replicas that have prepared the same slot hold the same digest. */
  lemma Agreement<K, P(!new)>(logs: Logs<K, P>, f: nat, faulty: set<PeerID>, k: K, p: PeerID, r: PeerID)
    requires LayerOK(logs, f, faulty) && p in logs && r in logs && k in logs[p] && k in logs[r]
    requires Rank(logs[p][k].status) >= 2 && Rank(logs[r][k].status) >= 2
    ensures logs[p][k].digest == logs[r][k].digest && logs[p][k].digest.Some?
  {
    var q1, b1 := PreparedQuorum(logs, f, faulty, k, p);
    var q2, b2 := PreparedQuorum(logs, f, faulty, k, r);
    var t := QuorumIntersection(f, faulty, q1, q2);
    assert Backed(logs, k, t, b1) && Backed(logs, k, t, b2);
  }

  // ----- following a slot's leader

  /** A replica other than the slot's leader has voted as a pre-prepare of the leader says. */
  ghost predicate Follows<P>(s: Slot<P>, self: PeerID, leader: PeerID) {
    self != leader && OwnBallot(s, self).Some? ==>
      && s.digest == OwnBallot(s, self).value.digest
      && exists v: nat :: Entry(s.pCert, v, leader).Some? && Entry(s.pCert, v, leader).value.digest == s.digest
  }

  /** The payload goes with the ballot that the replica has cast. */
  ghost predicate PayloadLinked<P>(s: Slot<P>, self: PeerID, link: (Option<P>, Digest<P>) -> bool) {
    OwnBallot(s, self).Some? && OwnBallot(s, self).value.digest.Some? ==> link(s.payload, OwnBallot(s, self).value.digest.value)
  }

  ghost predicate Led<K, P(!new)>(logs: Logs<K, P>, leaderOf: K -> PeerID, link: (Option<P>, Digest<P>) -> bool) {
    forall p, k :: p in logs && k in logs[p] ==> Follows(logs[p][k], p, leaderOf(k)) && PayloadLinked(logs[p][k], p, link)
  }

  /** In a layer whose replicas follow the slot leaders, a prepared slot's digest is that of its payload. */
  lemma PreparedPayload<K, P(!new)>(logs: Logs<K, P>, f: nat, faulty: set<PeerID>, leaderOf: K -> PeerID,
                                    link: (Option<P>, Digest<P>) -> bool, k: K, p: PeerID)
    requires LayerOK(logs, f, faulty) && Led(logs, leaderOf, link)
    requires p in logs && k in logs[p] && Rank(logs[p][k].status) >= 2
    ensures logs[p][k].digest.Some? && link(logs[p][k].payload, logs[p][k].digest.value)
  {
    var q, b := PreparedQuorum(logs, f, faulty, k, p);
    var s := logs[p][k];
    assert SlotOK(s, p, f) && Follows(s, p, leaderOf(k)) && PayloadLinked(s, p, link);
    if p == leaderOf(k) {
      var t := CorrectMember(f, faulty, q);
      assert Backed(logs, k, t, b);
      if t != p {
        assert Follows(logs[t][k], t, p) && EntriesBacked(logs, k, logs[t][k]);
        var v: nat :| Entry(logs[t][k].pCert, v, p).Some? && Entry(logs[t][k].pCert, v, p).value.digest == b.digest;
        assert Backed(logs, k, p, Entry(logs[t][k].pCert, v, p).value);
      }
    }
  }

  // ----- steps

  function Lookup<K, V>(m: map<K, V>, k: K): Option<V> {
    if k in m then Some(m[k]) else None
  }

  function Put<K, P>(logs: Logs<K, P>, p: PeerID, k: K, s: Slot<P>): Logs<K, P>
    requires p in logs
  {
    logs[p := logs[p][k := s]]
  }

  /** Replacing one slot by one with the same own ballot, or that had none, keeps every ballot backed. */
  lemma PutKeepsBacked<K, P>(logs: Logs<K, P>, p: PeerID, k: K, s: Slot<P>, j: K, t: PeerID, b: Ballot<P>)
    requires p in logs && Backed(logs, j, t, b)
    requires k in logs[p] && OwnBallot(logs[p][k], p).Some? ==> OwnBallot(s, p) == OwnBallot(logs[p][k], p)
    ensures Backed(Put(logs, p, k, s), j, t, b)
  {
  }

  /** A step of replica p on slot k that ends in x, for a message of `from` that carries ballot b. */
  ghost predicate SlotStep<K, P(!new)>(logs: Logs<K, P>, f: nat, p: PeerID, k: K, x: Slot<P>, from: PeerID, b: Ballot<P>) {
    && p in logs && from != p && SlotOK(x, p, f)
    && GainsOnly(Lookup(logs[p], k), x, p, from, b)
    && BallotKept(Lookup(logs[p], k), x, p)
    && (from in logs ==> Backed(logs, k, from, b))
  }

  /** A cast ballot stays, and names a digest. */
  ghost predicate BallotKept<P>(was: Option<Slot<P>>, x: Slot<P>, p: PeerID) {
    && (was.Some? && OwnBallot(was.value, p).Some? ==> OwnBallot(x, p) == OwnBallot(was.value, p))
    && (OwnBallot(x, p).Some? ==> OwnBallot(x, p).value.digest.Some?)
  }

  /** What the layer invariant says of one slot. */
  lemma LayerSlot<K, P(!new)>(logs: Logs<K, P>, f: nat, faulty: set<PeerID>, p: PeerID, k: K)
    requires LayerOK(logs, f, faulty) && p in logs && k in logs[p]
    ensures SlotOK(logs[p][k], p, f)
    ensures OwnBallot(logs[p][k], p).Some? ==> OwnBallot(logs[p][k], p).value.digest.Some?
  {
  }

  lemma PrePrepareStep<K, P(!new)>(logs: Logs<K, P>, f: nat, faulty: set<PeerID>, p: PeerID, k: K, same: (P, P) -> bool, from: PeerID,
                                   view: nat, payload: Option<P>, digest: Digest<P>)
    requires LayerOK(logs, f, faulty) && p in logs && from != p && from in Peers(f)
    requires from in logs ==> Backed(logs, k, from, Ballot(view, Some(digest)))
    requires PrePrepareSlot(Lookup(logs[p], k), same, p, f, from, view, payload, digest).Next?
    ensures var r := PrePrepareSlot(Lookup(logs[p], k), same, p, f, from, view, payload, digest);
      SlotStep(logs, f, p, k, r.slot, from, Ballot(view, Some(digest)))
  {
    var was := Lookup(logs[p], k);
    if was.Some? {
      LayerSlot(logs, f, faulty, p, k);
    }
    PrePrepareSlotOK(was, same, p, f, from, view, payload, digest);
    hide PrePrepareSlot, SlotOK, LayerOK, Evolves, GainsOnly;
  }

  lemma PrepareStep<K, P(!new)>(logs: Logs<K, P>, f: nat, faulty: set<PeerID>, p: PeerID, k: K, from: PeerID,
                                view: nat, payload: Option<P>, digest: Option<Digest<P>>)
    requires LayerOK(logs, f, faulty) && p in logs && from != p && from in Peers(f)
    requires from in logs ==> Backed(logs, k, from, Ballot(view, digest))
    requires PrepareSlot(Lookup(logs[p], k), p, f, from, view, payload, digest).Next?
    ensures SlotStep(logs, f, p, k, PrepareSlot(Lookup(logs[p], k), p, f, from, view, payload, digest).slot, from, Ballot(view, digest))
  {
    var was := Lookup(logs[p], k);
    if was.Some? {
      LayerSlot(logs, f, faulty, p, k);
    }
    PrepareSlotOK(was, p, f, from, view, payload, digest);
    hide PrepareSlot, SlotOK, LayerOK, Evolves, GainsOnly;
  }

  lemma CommitStep<K, P(!new)>(logs: Logs<K, P>, f: nat, faulty: set<PeerID>, p: PeerID, k: K, from: PeerID,
                               view: nat, payload: Option<P>, digest: Option<Digest<P>>, nobody: PeerID, b: Ballot<P>)
    requires LayerOK(logs, f, faulty) && p in logs && nobody !in logs
    requires CommitSlot(Lookup(logs[p], k), f, from, view, payload, digest).Next?
    ensures SlotStep(logs, f, p, k, CommitSlot(Lookup(logs[p], k), f, from, view, payload, digest).slot, nobody, b)
  {
    var was := Lookup(logs[p], k);
    var x := CommitSlot(was, f, from, view, payload, digest).slot;
    if was.Some? {
      LayerSlot(logs, f, faulty, p, k);
    }
    CommitSlotOK(was, p, f, from, view, payload, digest);
    SamePrepares(was, x, p, nobody, b);
    hide CommitSlot, SlotOK, LayerOK, Evolves, GainsOnly;
  }

  lemma SamePrepares<P(!new)>(was: Option<Slot<P>>, x: Slot<P>, p: PeerID, from: PeerID, b: Ballot<P>)
    requires if was.Some? then x.pCert == was.value.pCert && x.view == was.value.view else x.pCert == EmptyCert()
    ensures GainsOnly(was, x, p, from, b)
    ensures OwnBallot(x, p) == if was.Some? then OwnBallot(was.value, p) else None
  {
  }

  /** A slot step keeps the layer invariant. */
  lemma PutKeepsLayer<K, P(!new)>(logs: Logs<K, P>, f: nat, faulty: set<PeerID>, p: PeerID, k: K, s: Slot<P>, from: PeerID, b: Ballot<P>)
    requires LayerOK(logs, f, faulty) && SlotStep(logs, f, p, k, s, from, b)
    ensures LayerOK(Put(logs, p, k, s), f, faulty)
  {
    var after := Put(logs, p, k, s);
    assert after.Keys == logs.Keys;
    forall r, j | r in after && j in after[r] ensures EntriesBacked(after, j, after[r][j]) {
      forall v: nat, t: PeerID | t in after && Entry(after[r][j].pCert, v, t).Some?
        ensures Backed(after, j, t, Entry(after[r][j].pCert, v, t).value)
      {
        var e := Entry(after[r][j].pCert, v, t).value;
        if (r, j) != (p, k) {
          assert EntriesBacked(logs, j, logs[r][j]);
          PutKeepsBacked(logs, p, k, s, j, t, e);
        } else if t == p && v == s.view {
        } else if k in logs[p] && Entry(logs[p][k].pCert, v, t) == Some(e) {
          assert EntriesBacked(logs, k, logs[p][k]);
          PutKeepsBacked(logs, p, k, s, k, t, e);
        } else {
          PutKeepsBacked(logs, p, k, s, k, t, b);
        }
      }
    }
    forall r, j | r in after && j in after[r]
      ensures SlotOK(after[r][j], r, f) && (OwnBallot(after[r][j], r).Some? ==> OwnBallot(after[r][j], r).value.digest.Some?)
    {
    }
  }

  /** The same for what it means to follow the leaders. */
  lemma PutKeepsLed<K, P(!new)>(logs: Logs<K, P>, leaderOf: K -> PeerID, link: (Option<P>, Digest<P>) -> bool, p: PeerID, k: K, s: Slot<P>)
    requires Led(logs, leaderOf, link) && p in logs
    requires Follows(s, p, leaderOf(k)) && PayloadLinked(s, p, link)
    ensures Led(Put(logs, p, k, s), leaderOf, link)
  {
  }

  /** A slot in which the replica has cast nothing follows anyone. */
  lemma NoBallot<P>(s: Slot<P>, self: PeerID, leader: PeerID, link: (Option<P>, Digest<P>) -> bool)
    requires OwnBallot(s, self).None?
    ensures Follows(s, self, leader) && PayloadLinked(s, self, link)
  {
  }

  /** A later step keeps following the leader. */
  lemma EvolveFollows<P(!new)>(s: Slot<P>, t: Slot<P>, self: PeerID, leader: PeerID, link: (Option<P>, Digest<P>) -> bool)
    requires Follows(s, self, leader) && PayloadLinked(s, self, link)
    requires Evolves(s, t) && OwnBallot(t, self) == OwnBallot(s, self) && t.payload == s.payload
    requires OwnBallot(s, self).Some? ==> OwnBallot(s, self).value.digest.Some?
    ensures Follows(t, self, leader) && PayloadLinked(t, self, link)
  {
  }

  /** What the layer says of a slot of a replica that follows its leader. */
  ghost predicate SlotFacts<P(!new)>(was: Option<Slot<P>>, self: PeerID, f: nat, leader: PeerID, link: (Option<P>, Digest<P>) -> bool) {
    was.Some? ==>
      && SlotOK(was.value, self, f) && Follows(was.value, self, leader) && PayloadLinked(was.value, self, link)
      && (OwnBallot(was.value, self).Some? ==> OwnBallot(was.value, self).value.digest.Some?)
  }

  lemma LedSlot<K, P(!new)>(logs: Logs<K, P>, f: nat, faulty: set<PeerID>, leaderOf: K -> PeerID, link: (Option<P>, Digest<P>) -> bool, p: PeerID, k: K)
    requires LayerOK(logs, f, faulty) && Led(logs, leaderOf, link) && p in logs
    ensures SlotFacts(Lookup(logs[p], k), p, f, leaderOf(k), link)
  {
  }

  /** A pre-prepare of the slot's leader, for a payload that goes with its digest. */
  lemma PrePrepareFollows<P(!new)>(was: Option<Slot<P>>, same: (P, P) -> bool, link: (Option<P>, Digest<P>) -> bool,
                                   self: PeerID, f: nat, from: PeerID, view: nat, payload: Option<P>, digest: Digest<P>)
    requires SlotFacts(was, self, f, from, link) && from in Peers(f) && self in Peers(f) && from != self
    requires link(payload, digest)
    requires forall a: P :: payload.Some? && same(a, payload.value) ==> link(Some(a), digest)
    requires PrePrepareSlot(was, same, self, f, from, view, payload, digest).Next?
    ensures var x := PrePrepareSlot(was, same, self, f, from, view, payload, digest).slot;
      Follows(x, self, from) && PayloadLinked(x, self, link)
  {
    PrePrepareSlotOK(was, same, self, f, from, view, payload, digest);
    hide PrePrepareSlot, SlotOK, Evolves, GainsOnly;
  }

  lemma PrepareFollows<P(!new)>(was: Option<Slot<P>>, link: (Option<P>, Digest<P>) -> bool, self: PeerID, f: nat, leader: PeerID,
                                from: PeerID, view: nat, payload: Option<P>, digest: Option<Digest<P>>)
    requires SlotFacts(was, self, f, leader, link) && from in Peers(f) && self in Peers(f) && from != self
    requires PrepareSlot(was, self, f, from, view, payload, digest).Next?
    ensures var x := PrepareSlot(was, self, f, from, view, payload, digest).slot;
      Follows(x, self, leader) && PayloadLinked(x, self, link)
  {
    var x := PrepareSlot(was, self, f, from, view, payload, digest).slot;
    PrepareSlotOK(was, self, f, from, view, payload, digest);
    hide PrepareSlot, SlotOK, Evolves, GainsOnly, Follows, PayloadLinked;
    if was.Some? {
      EvolveFollows(was.value, x, self, leader, link);
    } else {
      NoBallot(x, self, leader, link);
    }
  }

  lemma CommitFollows<P(!new)>(was: Option<Slot<P>>, link: (Option<P>, Digest<P>) -> bool, self: PeerID, f: nat, leader: PeerID,
                               from: PeerID, view: nat, payload: Option<P>, digest: Option<Digest<P>>)
    requires SlotFacts(was, self, f, leader, link)
    requires CommitSlot(was, f, from, view, payload, digest).Next?
    ensures var x := CommitSlot(was, f, from, view, payload, digest).slot;
      Follows(x, self, leader) && PayloadLinked(x, self, link)
  {
  }

  // ----- delivery

  /** What exec does to a slot it delivers: Committed becomes Executed, and the payload may be dropped. */
  ghost predicate Retired<P>(s: Slot<P>, t: Slot<P>) {
    || t == s
    || (s.status == Committed && (t == s.(status := Executed) || t == s.(status := Executed, payload := None)))
  }

  ghost predicate AllRetired<K, P>(m: map<K, Slot<P>>, n: map<K, Slot<P>>) {
    m.Keys == n.Keys && forall k :: k in m ==> Retired(m[k], n[k])
  }

  lemma RetireKeepsLayer<K, P(!new)>(logs: Logs<K, P>, f: nat, faulty: set<PeerID>, p: PeerID, n: map<K, Slot<P>>)
    requires LayerOK(logs, f, faulty) && p in logs && AllRetired(logs[p], n)
    ensures LayerOK(logs[p := n], f, faulty)
    ensures forall k, t, b :: Backed(logs, k, t, b) ==> Backed(logs[p := n], k, t, b)
  {
    var after := logs[p := n];
    assert after.Keys == logs.Keys;
    forall k, t, b | Backed(logs, k, t, b) ensures Backed(after, k, t, b) {
    }
    forall r, k | r in after && k in after[r]
      ensures SlotOK(after[r][k], r, f) && EntriesBacked(after, k, after[r][k])
      ensures OwnBallot(after[r][k], r).Some? ==> OwnBallot(after[r][k], r).value.digest.Some?
    {
      var s := logs[r][k];
      assert SlotOK(s, r, f) && EntriesBacked(logs, k, s);
      assert after[r][k].pCert == s.pCert && after[r][k].digest == s.digest && after[r][k].view == s.view;
      PreparesOnly(s, after[r][k], f);
    }
  }

  lemma RetireKeepsLed<K, P(!new)>(logs: Logs<K, P>, leaderOf: K -> PeerID, link: (Option<P>, Digest<P>) -> bool, p: PeerID, n: map<K, Slot<P>>)
    requires Led(logs, leaderOf, link) && p in logs && AllRetired(logs[p], n)
    requires forall k :: k in n ==> n[k].payload == logs[p][k].payload || (n[k].payload.None? && forall d :: link(None, d))
    ensures Led(logs[p := n], leaderOf, link)
  {
  }
}
