/** Runs of DQPBFT, and the invariant of the ordering layer: it holds in every run, also with a faulty
    ordering leader. */
module DqOrdering {
  import opened Quorums
  import opened Slots
  import opened SlotAgreement
  import opened DqNode
  import opened DqExec

  datatype Envelope = Envelope(from: PeerID, body: Body)

  /** Correct replicas and every message ever sent.  oview is the fixed view of the ordering layer. */
  datatype System = System(f: nat, faulty: set<PeerID>, oview: nat, nodes: map<PeerID, Node>, net: set<Envelope>)

  function Leader(sys: System): PeerID {
    sys.oview % (3 * sys.f + 1)
  }

  function OLogs(sys: System): Logs<nat, Batch> {
    map p | p in sys.nodes :: sys.nodes[p].olog
  }

  /** The vote that an ordering pre-prepare or prepare casts for its sender. */
  function OBallot(m: Msg<nat, Batch>): Ballot<Batch> {
    Ballot(m.view, if m.kind == PrePrepareMsg then Some(Of(Ids(m.payload))) else m.digest)
  }

  predicate OVote(b: Body) {
    b.Ordering? && b.o.kind != CommitMsg
  }

  ghost predicate OSentBacked(logs: Logs<nat, Batch>, from: PeerID, b: Body) {
    from in logs && OVote(b) ==> Backed(logs, b.o.key, from, OBallot(b.o))
  }

  function BatchLink(): (Option<Batch>, Digest<Batch>) -> bool {
    (payload: Option<Batch>, d: Digest<Batch>) => d == Of(Ids(payload))
  }

  function ConstLeader(l: PeerID): nat -> PeerID {
    (i: nat) => l
  }

  ghost predicate OCore(logs: Logs<nat, Batch>, sys: System) {
    LayerOK(logs, sys.f, sys.faulty) && Led(logs, ConstLeader(Leader(sys)), BatchLink())
  }

  ghost predicate ONet(logs: Logs<nat, Batch>, sys: System, p: PeerID, msgs: seq<Body>) {
    && (forall e :: e in sys.net ==> OSentBacked(logs, e.from, e.body))
    && (forall i :: 0 <= i < |msgs| ==> OSentBacked(logs, p, msgs[i]))
  }

  /** The leader's own ballots are for indices it has used. */
  ghost predicate OLeads(sys: System, p: PeerID, s: Node) {
    p == Leader(sys) ==> forall i :: i in s.olog && OwnBallot(s.olog[i], p).Some? ==> i < s.oindex
  }

  ghost predicate Configured(sys: System, p: PeerID, s: Node) {
    p in sys.nodes && s.id == p && s.f == sys.f && s.oview == sys.oview && p in Peers(sys.f)
  }

  /** The ordering layer when correct replica p is in state s and the others are as in sys. */
  ghost predicate OInv(sys: System, p: PeerID, s: Node) {
    var logs := OLogs(sys)[p := s.olog];
    Configured(sys, p, s) && OCore(logs, sys) && ONet(logs, sys, p, s.msgs) && OLeads(sys, p, s) && OrderOK(s)
  }

  /** Changes that the ordering layer does not see. */
  ghost predicate OSame(s: Node, t: Node) {
    && t.id == s.id && t.f == s.f && t.oview == s.oview && t.olog == s.olog && t.oindex == s.oindex
    && t.nextODeliver == s.nextODeliver && t.delivered == s.delivered && (s.halted ==> t.halted)
    && |t.msgs| >= |s.msgs| && t.msgs[..|s.msgs|] == s.msgs
    && forall i :: |s.msgs| <= i < |t.msgs| ==> t.msgs[i].Replication?
  }

  lemma OSameKeeps(sys: System, p: PeerID, s: Node, t: Node)
    requires OInv(sys, p, s) && OSame(s, t)
    ensures OInv(sys, p, t)
  {
    var k :| Delivered(s, k);
    assert Delivered(t, k);
    forall i | 0 <= i < |t.msgs| ensures OSentBacked(OLogs(sys)[p := t.olog], p, t.msgs[i]) {
      if i < |s.msgs| {
        assert t.msgs[i] == t.msgs[..|s.msgs|][i] == s.msgs[i];
      }
    }
  }

  lemma RetireKeepsCore(logs: Logs<nat, Batch>, sys: System, p: PeerID, n: map<nat, Slot<Batch>>, msgs: seq<Body>)
    requires OCore(logs, sys) && ONet(logs, sys, p, msgs) && p in logs && AllRetired(logs[p], n)
    requires forall i :: i in n ==> n[i].payload == logs[p][i].payload
    ensures OCore(logs[p := n], sys) && ONet(logs[p := n], sys, p, msgs)
  {
    RetireKeepsLayer(logs, sys.f, sys.faulty, p, n);
    RetireKeepsLed(logs, ConstLeader(Leader(sys)), BatchLink(), p, n);
  }

  lemma RetireKeepsLeads(sys: System, p: PeerID, s: Node, t: Node)
    requires OLeads(sys, p, s) && AllRetired(s.olog, t.olog) && t.oindex == s.oindex
    ensures OLeads(sys, p, t)
  {
  }

  lemma ExecKeepsO(sys: System, p: PeerID, s: Node)
    requires OInv(sys, p, s)
    ensures OInv(sys, p, Exec(s))
  {
    hide Exec, OrderOK, OCore, ONet, OLeads;
    var t := Exec(s);
    var logs := OLogs(sys)[p := s.olog];
    ExecSpec(s);
    ExecFrame(s);
    RetireKeepsCore(logs, sys, p, t.olog, s.msgs);
    RetireKeepsLeads(sys, p, s, t);
    hide AllRetired;
    assert logs[p := t.olog] == OLogs(sys)[p := t.olog];
  }

  /** What a slot step of the ordering layer has to satisfy. */
  ghost predicate OStepOK(sys: System, p: PeerID, s: Node, key: nat, x: Slot<Batch>, from: PeerID, b: Ballot<Batch>, out: seq<Body>) {
    && SlotStep(OLogs(sys)[p := s.olog], sys.f, p, key, x, from, b)
    && Follows(x, p, Leader(sys)) && PayloadLinked(x, p, BatchLink())
    && Advances(Lookup(s.olog, key), x)
    && (p == Leader(sys) && OwnBallot(x, p).Some? ==> key < s.oindex)
    && OSends(key, x, p, out)
  }

  /** Once pre-prepared, a slot keeps its batch and does not move backwards. */
  ghost predicate Advances<P>(was: Option<Slot<P>>, x: Slot<P>) {
    was.Some? && Rank(was.value.status) >= 1 ==> x.payload == was.value.payload && Rank(x.status) >= Rank(was.value.status)
  }

  /** Every vote sent is the slot's own ballot. */
  ghost predicate OSends(key: nat, x: Slot<Batch>, p: PeerID, out: seq<Body>) {
    forall i :: 0 <= i < |out| && OVote(out[i]) ==> out[i].o.key == key && OwnBallot(x, p) == Some(OBallot(out[i].o))
  }

  lemma PutKeepsCore(logs: Logs<nat, Batch>, sys: System, p: PeerID, s: Node, key: nat, x: Slot<Batch>, from: PeerID, b: Ballot<Batch>, out: seq<Body>)
    requires OCore(logs, sys) && p in sys.nodes && logs == OLogs(sys)[p := s.olog] && OStepOK(sys, p, s, key, x, from, b, out)
    ensures OCore(Put(logs, p, key, x), sys)
  {
    PutKeepsLayer(logs, sys.f, sys.faulty, p, key, x, from, b);
    PutKeepsLed(logs, ConstLeader(Leader(sys)), BatchLink(), p, key, x);
  }

  lemma PutKeepsLeads(sys: System, p: PeerID, s: Node, t: Node, key: nat, x: Slot<Batch>)
    requires OLeads(sys, p, s) && t.olog == s.olog[key := x] && t.oindex == s.oindex
    requires p == Leader(sys) && OwnBallot(x, p).Some? ==> key < s.oindex
    ensures OLeads(sys, p, t)
  {
  }

  lemma OPutKeeps(sys: System, p: PeerID, s: Node, key: nat, x: Slot<Batch>, from: PeerID, b: Ballot<Batch>, out: seq<Body>)
    requires OInv(sys, p, s) && !s.halted && OStepOK(sys, p, s, key, x, from, b, out)
    ensures OInv(sys, p, s.(olog := s.olog[key := x], msgs := s.msgs + out))
  {
    hide OCore, ONet, OrderOK, OLeads;
    var logs := OLogs(sys)[p := s.olog];
    var t := s.(olog := s.olog[key := x], msgs := s.msgs + out);
    PutKeepsLeads(sys, p, s, t, key, x);
    PutKeepsCore(logs, sys, p, s, key, x, from, b, out);
    PutKeepsOrder(s, t, key, x);
    PutKeepsNet(sys, p, s, key, x, out);
    assert Put(logs, p, key, x) == OLogs(sys)[p := t.olog];
  }

  lemma PutKeepsOrder(s: Node, t: Node, key: nat, x: Slot<Batch>)
    requires OrderOK(s) && !s.halted && t.olog == s.olog[key := x] && t.nextODeliver == s.nextODeliver && t.delivered == s.delivered
    requires key in s.olog && Rank(s.olog[key].status) >= 1 ==> x.payload == s.olog[key].payload && Rank(x.status) >= Rank(s.olog[key].status)
    ensures OrderOK(t)
  {
    var k :| Delivered(s, k);
    OrderedFrame(s.olog, t.olog, s.nextODeliver);
    assert BatchAt(s.olog, s.nextODeliver)[..0] == BatchAt(t.olog, t.nextODeliver)[..0];
    assert Delivered(t, 0);
  }

  lemma PutKeepsNet(sys: System, p: PeerID, s: Node, key: nat, x: Slot<Batch>, out: seq<Body>)
    requires OInv(sys, p, s)
    requires key in s.olog && OwnBallot(s.olog[key], p).Some? ==> OwnBallot(x, p) == OwnBallot(s.olog[key], p)
    requires forall i :: 0 <= i < |out| ==> (OVote(out[i]) ==> out[i].o.key == key && OwnBallot(x, p) == Some(OBallot(out[i].o)))
    ensures ONet(OLogs(sys)[p := s.olog[key := x]], sys, p, s.msgs + out)
  {
    var logs := OLogs(sys)[p := s.olog];
    hide OCore, OrderOK, OwnBallot;
    assert Put(logs, p, key, x) == OLogs(sys)[p := s.olog[key := x]];
    forall e | e in sys.net ensures OSentBacked(Put(logs, p, key, x), e.from, e.body) {
      if e.from in logs && OVote(e.body) {
        PutKeepsBacked(logs, p, key, x, e.body.o.key, e.from, OBallot(e.body.o));
      }
    }
    forall i | 0 <= i < |s.msgs + out| ensures OSentBacked(Put(logs, p, key, x), p, (s.msgs + out)[i]) {
      if i < |s.msgs| {
        if OVote(s.msgs[i]) {
          PutKeepsBacked(logs, p, key, x, s.msgs[i].o.key, p, OBallot(s.msgs[i].o));
        }
      } else {
        assert (s.msgs + out)[i] == out[i - |s.msgs|];
      }
    }
  }

  // ----- the handlers

  lemma OSentVote(sys: System, p: PeerID, s: Node, from: PeerID, m: Msg<nat, Batch>)
    requires OInv(sys, p, s) && Envelope(from, Ordering(m)) in sys.net && m.kind != CommitMsg && from != p
    ensures var logs := OLogs(sys)[p := s.olog]; from in logs ==> Backed(logs, m.key, from, OBallot(m))
  {
  }

  lemma SentIsOwn(key: nat, r: Outcome<Batch>, p: PeerID)
    requires r.Next? && (r.prepare.Some? ==> r.prepare == OwnBallot(r.slot, p))
    ensures OSends(key, r.slot, p, AsOrdering(Sent(key, r)))
  {
  }

  lemma OLayer(sys: System, p: PeerID, s: Node, key: nat)
    requires OInv(sys, p, s)
    ensures var logs := OLogs(sys)[p := s.olog];
      && LayerOK(logs, sys.f, sys.faulty) && p in logs && logs[p] == s.olog
      && SlotFacts(Lookup(s.olog, key), p, sys.f, Leader(sys), BatchLink())
      && s.f == sys.f && p in Peers(sys.f)
    ensures sys.nodes.Keys == Peers(sys.f) - sys.faulty
    ensures p == Leader(sys) && key in s.olog && OwnBallot(s.olog[key], p).Some? ==> key < s.oindex
  {
    var logs := OLogs(sys)[p := s.olog];
    LedSlot(logs, sys.f, sys.faulty, ConstLeader(Leader(sys)), BatchLink(), p, key);
    OnlyPeers(sys, p, s);
  }

  lemma OPrePrepareStep(sys: System, p: PeerID, s: Node, from: PeerID, m: Msg<nat, Batch>)
    requires OInv(sys, p, s) && Envelope(from, Ordering(m)) in sys.net && m.kind == PrePrepareMsg
    requires from != p && from in Peers(sys.f) && from == Leader(sys)
    requires PrePrepareSlot(Lookup(s.olog, m.key), SameBatch, p, s.f, from, m.view, Wire(Ids(m.payload)), Of(Ids(m.payload))).Next?
    ensures var r := PrePrepareSlot(Lookup(s.olog, m.key), SameBatch, p, s.f, from, m.view, Wire(Ids(m.payload)), Of(Ids(m.payload)));
      OStepOK(sys, p, s, m.key, r.slot, from, OBallot(m), AsOrdering(Sent(m.key, r)))
  {
    var was, logs, ids := Lookup(s.olog, m.key), OLogs(sys)[p := s.olog], Ids(m.payload);
    OLayer(sys, p, s, m.key);
    OSentVote(sys, p, s, from, m);
    OLinks(ids);
    assert OBallot(m) == Ballot(m.view, Some(Of(ids)));
    hide PrePrepareSlot, SlotOK, OInv, LayerOK, BatchLink, SameBatch, Wire, OBallot, SlotStep, Evolves, GainsOnly, Follows, PayloadLinked;
    var r := PrePrepareSlot(was, SameBatch, p, s.f, from, m.view, Wire(ids), Of(ids));
    PrePrepareStep(logs, sys.f, sys.faulty, p, m.key, SameBatch, from, m.view, Wire(ids), Of(ids));
    PrePrepareFollows(was, SameBatch, BatchLink(), p, s.f, from, m.view, Wire(ids), Of(ids));
    PrePrepareSlotOK(was, SameBatch, p, s.f, from, m.view, Wire(ids), Of(ids));
    hide OwnBallot, SlotFacts;
    SentIsOwn(m.key, r, p);
    if was.Some? {
      assert SlotOK(was.value, p, sys.f);
      IdleUnlessCast(was.value, p, sys.f);
    }
    assert p != Leader(sys);
  }

  lemma OLinks(ids: Batch)
    ensures BatchLink()(Wire(ids), Of(ids))
    ensures forall a: Batch :: Wire(ids).Some? && SameBatch(a, Wire(ids).value) ==> BatchLink()(Some(a), Of(ids))
  {
    LinkIs(Wire(ids), Of(ids));
    forall a: Batch ensures Wire(ids).Some? && SameBatch(a, Wire(ids).value) ==> BatchLink()(Some(a), Of(ids)) {
      LinkIs(Some(a), Of(ids));
    }
  }

  lemma LinkIs(payload: Option<Batch>, d: Digest<Batch>)
    ensures BatchLink()(payload, d) <==> d == Of(Ids(payload))
  {
  }

  lemma IdleUnlessCast<P(!new)>(s: Slot<P>, p: PeerID, f: nat)
    requires SlotOK(s, p, f) && OwnBallot(s, p).None?
    ensures Rank(s.status) == 0
  {
  }

  lemma EvolvesAdvances<P(!new)>(s: Slot<P>, t: Slot<P>)
    requires Evolves(s, t) && t.payload == s.payload
    ensures Advances(Some(s), t)
  {
  }

  lemma OPrepareStep(sys: System, p: PeerID, s: Node, from: PeerID, m: Msg<nat, Batch>)
    requires OInv(sys, p, s) && Envelope(from, Ordering(m)) in sys.net && m.kind == PrepareMsg
    requires from != p && from in Peers(sys.f)
    requires PrepareSlot(Lookup(s.olog, m.key), p, s.f, from, m.view, Wire(Ids(m.payload)), m.digest).Next?
    ensures var r := PrepareSlot(Lookup(s.olog, m.key), p, s.f, from, m.view, Wire(Ids(m.payload)), m.digest);
      OStepOK(sys, p, s, m.key, r.slot, from, OBallot(m), AsOrdering(Sent(m.key, r)))
  {
    var was, logs, ids := Lookup(s.olog, m.key), OLogs(sys)[p := s.olog], Ids(m.payload);
    OLayer(sys, p, s, m.key);
    OSentVote(sys, p, s, from, m);
    hide PrepareSlot, SlotOK, OInv, LayerOK;
    PrepareStep(logs, sys.f, sys.faulty, p, m.key, from, m.view, Wire(ids), m.digest);
    PrepareFollows(was, BatchLink(), p, s.f, Leader(sys), from, m.view, Wire(ids), m.digest);
    PrepareSlotOK(was, p, s.f, from, m.view, Wire(ids), m.digest);
    var r := PrepareSlot(was, p, s.f, from, m.view, Wire(ids), m.digest);
    hide SlotStep, Evolves, GainsOnly, Follows, PayloadLinked, OwnBallot;
    SentIsOwn(m.key, r, p);
    if was.Some? {
      EvolvesAdvances(was.value, r.slot);
    }
  }

  lemma OCommitStep(sys: System, p: PeerID, s: Node, from: PeerID, m: Msg<nat, Batch>)
    requires OInv(sys, p, s)
    requires CommitSlot(Lookup(s.olog, m.key), s.f, from, m.view, Wire(Ids(m.payload)), m.digest).Next?
    ensures var r := CommitSlot(Lookup(s.olog, m.key), s.f, from, m.view, Wire(Ids(m.payload)), m.digest);
      OStepOK(sys, p, s, m.key, r.slot, 3 * sys.f + 1, OBallot(m), AsOrdering(Sent(m.key, r)))
  {
    var was, logs, ids := Lookup(s.olog, m.key), OLogs(sys)[p := s.olog], Ids(m.payload);
    OLayer(sys, p, s, m.key);
    hide CommitSlot, SlotOK, OInv, LayerOK;
    CommitStep(logs, sys.f, sys.faulty, p, m.key, from, m.view, Wire(ids), m.digest, 3 * sys.f + 1, OBallot(m));
    CommitFollows(was, BatchLink(), p, s.f, Leader(sys), from, m.view, Wire(ids), m.digest);
    CommitSlotOK(was, p, s.f, from, m.view, Wire(ids), m.digest);
    var r := CommitSlot(was, s.f, from, m.view, Wire(ids), m.digest);
    SamePrepares(was, r.slot, p, p, Ballot(0, None));
    hide SlotStep, Evolves, GainsOnly, Follows, PayloadLinked, OwnBallot;
    SentIsOwn(m.key, r, p);
    if was.Some? {
      EvolvesAdvances(was.value, r.slot);
    }
  }

  lemma OnlyPeers(sys: System, p: PeerID, s: Node)
    requires OInv(sys, p, s)
    ensures sys.nodes.Keys == Peers(sys.f) - sys.faulty
  {
  }

  /** A correct leader orders a batch under an index it has never voted on. */
  lemma SendCRequestKeepsO(sys: System, p: PeerID, s: Node)
    requires OInv(sys, p, s) && !s.halted
    ensures OInv(sys, p, SendCRequest(s))
  {
    if s.id == OLeader(s) && s.cReqBuffer != [] {
      var ids, key := s.cReqBuffer, s.oindex;
      var x := OwnSlot(s.id, ids, s.id, Of(ids));
      var out := [Ordering(Msg(PrePrepareMsg, s.id, key, Some(ids), None))];
      var t := s.(cReqBuffer := [], oindex := s.oindex + 1);
      assert SendCRequest(s) == t.(olog := t.olog[key := x], msgs := t.msgs + out);
      assert p == s.id && p == Leader(sys);
      OLayer(sys, p, s, key);
      hide OInv, SendCRequest, OwnSlot, LayerOK, SlotFacts, OwnBallot;
      AdvanceIndex(sys, p, s, t);
      OwnSlotStep(sys, p, t, key, ids);
      OPutKeeps(sys, p, t, key, x, 3 * sys.f + 1, Ballot(0, None), out);
    }
  }

  lemma AdvanceIndex(sys: System, p: PeerID, s: Node, t: Node)
    requires OInv(sys, p, s) && t == s.(cReqBuffer := [], oindex := s.oindex + 1)
    ensures OInv(sys, p, t)
  {
    var k :| Delivered(s, k);
    assert Delivered(t, k);
  }

  lemma OwnSlotStep(sys: System, p: PeerID, s: Node, key: nat, ids: Batch)
    requires OInv(sys, p, s) && p == Leader(sys) && key < s.oindex
    requires key in s.olog ==> OwnBallot(s.olog[key], p).None?
    ensures OStepOK(sys, p, s, key, OwnSlot(p, ids, p, Of(ids)), 3 * sys.f + 1, Ballot(0, None),
                    [Ordering(Msg(PrePrepareMsg, p, key, Some(ids), None))])
  {
    var x := OwnSlot(p, ids, p, Of(ids));
    hide OInv, OwnSlot, SlotOK, OwnBallot, GainsOnly, LayerOK, BatchLink;
    OLayer(sys, p, s, key);
    OwnSlotOK(Lookup(s.olog, key), p, sys.f, ids, 3 * sys.f + 1, Ballot(0, None));
    LinkIs(x.payload, Of(ids));
    if key in s.olog {
      IdleUnlessCast(s.olog[key], p, sys.f);
    }
    hide SlotFacts;
  }

  lemma OwnSlotOK<P(!new)>(was: Option<Slot<P>>, p: PeerID, f: nat, payload: P, from: PeerID, b: Ballot<P>)
    requires p in Peers(f) && (was.Some? ==> OwnBallot(was.value, p).None?)
    ensures var x := OwnSlot(p, payload, p, Of(payload));
      SlotOK(x, p, f) && GainsOnly(was, x, p, from, b) && OwnBallot(x, p) == Some(Ballot(p, Some(Of(payload)))) && x.payload == Some(payload)
  {
  }
}
