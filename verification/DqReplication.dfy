/** The replication layer of DQPBFT.  Two regimes: in `owned` runs every pre-prepare comes from the replica
    that its InstanceID names; otherwise all that is known is that onRequest never reuses an id on which the
    replica has already cast a ballot. */
module DqReplication {
  import opened Quorums
  import opened Slots
  import opened SlotAgreement
  import opened DqNode
  import opened DqExec
  import opened DqOrdering

  function CLogs(sys: System): Logs<InstanceID, Command> {
    map p | p in sys.nodes :: sys.nodes[p].log
  }

  /** The vote that a pre-prepare or prepare casts for its sender. */
  function CBallot(m: Msg<InstanceID, Command>): Ballot<Command> {
    Ballot(m.view, if m.kind == PrePrepareMsg then (if m.payload.Some? then Some(Of(m.payload.value)) else None) else m.digest)
  }

  predicate CVote(b: Body) {
    b.Replication? && b.r.kind != CommitMsg
  }

  ghost predicate CSentBacked(logs: Logs<InstanceID, Command>, from: PeerID, b: Body) {
    from in logs && CVote(b) ==> Backed(logs, b.r.key, from, CBallot(b.r))
  }

  function CmdLink(): (Option<Command>, Digest<Command>) -> bool {
    (payload: Option<Command>, d: Digest<Command>) => payload.Some? ==> d.Of? && SameCommand(payload.value, d.payload)
  }

  function Owner(): InstanceID -> PeerID {
    (id: InstanceID) => id.replica
  }

  ghost predicate CCore(logs: Logs<InstanceID, Command>, sys: System, owned: bool) {
    LayerOK(logs, sys.f, sys.faulty) && (owned ==> Led(logs, Owner(), CmdLink()))
  }

  ghost predicate CNet(logs: Logs<InstanceID, Command>, sys: System, p: PeerID, msgs: seq<Body>) {
    && (forall e :: e in sys.net ==> CSentBacked(logs, e.from, e.body))
    && (forall i :: 0 <= i < |msgs| ==> CSentBacked(logs, p, msgs[i]))
  }

  /** A replica's own ballots on its own ids are for indices it has used. */
  ghost predicate OwnIds(p: PeerID, s: Node) {
    forall id :: id in s.log && id.replica == p && OwnBallot(s.log[id], p).Some? ==> id.index < s.index
  }

  /** The command that a slot's digest stands for. */
  ghost predicate Carries(s: Slot<Command>, cmd: Command) {
    s.digest.Some? && CmdLink()(Some(cmd), s.digest.value)
  }

  /** Every delivered id is executed, none is delivered twice, and what was delivered is what was digested. */
  ghost predicate DeliveryOK(log: map<InstanceID, Slot<Command>>, ds: seq<Delivery>, owned: bool) {
    && (forall i :: 0 <= i < |ds| ==> Done(log, ds[i], owned))
    && Distinct(IdsOf(ds))
  }

  ghost predicate Done(log: map<InstanceID, Slot<Command>>, d: Delivery, owned: bool) {
    d.id in log && log[d.id].status == Executed && (owned ==> Carries(log[d.id], d.cmd))
  }

  /** An executed slot has given its command away. */
  ghost predicate Spent(log: map<InstanceID, Slot<Command>>) {
    forall id :: id in log && log[id].status == Executed ==> log[id].payload.None?
  }

  ghost predicate CInv(sys: System, owned: bool, p: PeerID, s: Node) {
    && Configured(sys, p, s) && CCore(CLogs(sys)[p := s.log], sys, owned) && CNet(CLogs(sys)[p := s.log], sys, p, s.msgs)
    && (owned ==> OwnIds(p, s)) && DeliveryOK(s.log, s.delivered, owned) && Spent(s.log)
  }

  // ----- delivery

  ghost predicate CommittedCarry(log: map<InstanceID, Slot<Command>>) {
    forall id :: id in log && log[id].status == Committed && log[id].payload.Some? ==> Carries(log[id], log[id].payload.value)
  }

  ghost predicate DeliverInv(log: map<InstanceID, Slot<Command>>, ds: seq<Delivery>, owned: bool) {
    DeliveryOK(log, ds, owned) && Spent(log) && (owned ==> CommittedCarry(log))
  }

  lemma DeliverOneKeeps(s: Node, id: InstanceID, owned: bool)
    requires DeliverInv(s.log, s.delivered, owned) && id in s.log && s.log[id].payload.Some? && s.log[id].status == Committed
    ensures DeliverInv(DeliverOne(s, id).log, DeliverOne(s, id).delivered, owned)
  {
    var t := DeliverOne(s, id);
    forall i | 0 <= i < |t.delivered| ensures Done(t.log, t.delivered[i], owned) {
      if i < |s.delivered| {
        assert Done(s.log, s.delivered[i], owned);
      }
    }
    assert forall i :: 0 <= i < |s.delivered| ==> Done(s.log, s.delivered[i], owned) && IdsOf(s.delivered)[i] == s.delivered[i].id;
  }

  lemma {:induction false} DeliverAllKeeps(s: Node, ids: Batch, owned: bool)
    requires DeliverInv(s.log, s.delivered, owned) && ReadyOrGone(s.log, ids)
    ensures DeliverInv(DeliverAll(s, ids).log, DeliverAll(s, ids).delivered, owned)
    decreases |ids|
  {
    hide DeliverInv;
    if ids != [] && s.log[ids[0]].payload.Some? {
      assert s.log[ids[0]].status == Committed;
      DeliverOneKeeps(s, ids[0], owned);
      assert forall i :: 0 <= i < |ids[1..]| ==> ids[1..][i] == ids[i + 1];
      DeliverAllKeeps(DeliverOne(s, ids[0]), ids[1..], owned);
    }
  }

  lemma {:induction false} ExecDelivers(s: Node, owned: bool)
    requires DeliverInv(s.log, s.delivered, owned)
    ensures DeliverInv(Exec(s).log, Exec(s).delivered, owned)
    decreases |CommittedSlots(s.olog)|
  {
    if !s.halted && CanDeliver(s) {
      var ids := Ids(s.olog[s.nextODeliver].payload);
      DeliverAllFrame(s, ids);
      DeliverAllKeeps(s, ids, owned);
      if !DeliverSlot(s).halted {
        SlotConsumed(s.olog, s.nextODeliver);
        ExecDelivers(DeliverSlot(s), owned);
      }
    }
  }

  /** In a layer that follows the owners, a committed slot holds the command of its digest. */
  lemma LedCarries(logs: Logs<InstanceID, Command>, sys: System, p: PeerID)
    requires CCore(logs, sys, true) && p in logs
    ensures CommittedCarry(logs[p])
  {
    forall id | id in logs[p] && logs[p][id].status == Committed && logs[p][id].payload.Some?
      ensures Carries(logs[p][id], logs[p][id].payload.value)
    {
      PreparedPayload(logs, sys.f, sys.faulty, Owner(), CmdLink(), id, p);
    }
  }

  lemma ExecKeepsC(sys: System, owned: bool, p: PeerID, s: Node)
    requires CInv(sys, owned, p, s) && OrderOK(s)
    ensures CInv(sys, owned, p, Exec(s))
  {
    hide Exec, OrderOK, CCore, CNet, DeliveryOK, Spent, OwnIds, CommittedCarry;
    var t, logs := Exec(s), CLogs(sys)[p := s.log];
    if owned {
      LedCarries(logs, sys, p);
    }
    ExecDelivers(s, owned);
    ExecSpec(s);
    ExecFrame(s);
    CRetireKeeps(logs, sys, owned, p, t.log, s.msgs);
    if owned {
      CRetireKeepsIds(p, s, t);
    }
    hide AllRetired;
    assert logs[p := t.log] == CLogs(sys)[p := t.log];
  }

  lemma CRetireKeepsIds(p: PeerID, s: Node, t: Node)
    requires OwnIds(p, s) && AllRetired(s.log, t.log) && t.index == s.index
    ensures OwnIds(p, t)
  {
    forall id | id in t.log && OwnBallot(t.log[id], p).Some? ensures OwnBallot(s.log[id], p).Some? {
      assert Retired(s.log[id], t.log[id]);
    }
  }

  lemma CRetireKeeps(logs: Logs<InstanceID, Command>, sys: System, owned: bool, p: PeerID, n: map<InstanceID, Slot<Command>>, msgs: seq<Body>)
    requires CCore(logs, sys, owned) && CNet(logs, sys, p, msgs) && p in logs && AllRetired(logs[p], n)
    ensures CCore(logs[p := n], sys, owned) && CNet(logs[p := n], sys, p, msgs)
  {
    RetireKeepsLayer(logs, sys.f, sys.faulty, p, n);
    hide LayerOK, Led;
    if owned {
      forall id | id in n ensures n[id].payload == logs[p][id].payload || (n[id].payload.None? && forall d :: CmdLink()(None, d)) {
        assert Retired(logs[p][id], n[id]);
      }
      RetireKeepsLed(logs, Owner(), CmdLink(), p, n);
    }
  }

  // ----- what the other layer does

  /** Changes that the replication layer does not see. */
  ghost predicate CSame(s: Node, t: Node) {
    && t.id == s.id && t.f == s.f && t.oview == s.oview && t.log == s.log && t.index >= s.index && t.delivered == s.delivered
    && |t.msgs| >= |s.msgs| && t.msgs[..|s.msgs|] == s.msgs
    && forall i :: |s.msgs| <= i < |t.msgs| ==> t.msgs[i].Ordering?
  }

  lemma CSameKeeps(sys: System, owned: bool, p: PeerID, s: Node, t: Node)
    requires CInv(sys, owned, p, s) && CSame(s, t)
    ensures CInv(sys, owned, p, t)
  {
    hide CCore, DeliveryOK, Spent;
    forall i | 0 <= i < |t.msgs| ensures CSentBacked(CLogs(sys)[p := t.log], p, t.msgs[i]) {
      if i < |s.msgs| {
        assert t.msgs[i] == t.msgs[..|s.msgs|][i] == s.msgs[i];
      }
    }
  }

  // ----- a slot step

  /** Nothing but delivery makes a slot Executed, and no other step changes an executed one's payload or digest. */
  ghost predicate Undelivered<P>(was: Option<Slot<P>>, x: Slot<P>) {
    && (was.Some? ==> Rank(x.status) >= Rank(was.value.status))
    && (was.Some? && was.value.status == Executed && was.value.digest.Some? ==> x.digest == was.value.digest)
    && (x.status == Executed ==> was.Some? && was.value.status == Executed && x.payload == was.value.payload)
  }

  ghost predicate CSends(key: InstanceID, x: Slot<Command>, p: PeerID, out: seq<Body>) {
    forall i :: 0 <= i < |out| && CVote(out[i]) ==> out[i].r.key == key && OwnBallot(x, p) == Some(CBallot(out[i].r))
  }

  ghost predicate CLedOK(p: PeerID, s: Node, key: InstanceID, x: Slot<Command>) {
    Follows(x, p, key.replica) && PayloadLinked(x, p, CmdLink()) && (key.replica == p && OwnBallot(x, p).Some? ==> key.index < s.index)
  }

  /** What a slot step of the replication layer has to satisfy. */
  ghost predicate CStepOK(sys: System, owned: bool, p: PeerID, s: Node, key: InstanceID, x: Slot<Command>, from: PeerID, b: Ballot<Command>, out: seq<Body>) {
    && SlotStep(CLogs(sys)[p := s.log], sys.f, p, key, x, from, b)
    && (owned ==> CLedOK(p, s, key, x))
    && Undelivered(Lookup(s.log, key), x)
    && CSends(key, x, p, out)
  }

  lemma CPutKeeps(sys: System, owned: bool, p: PeerID, s: Node, key: InstanceID, x: Slot<Command>, from: PeerID, b: Ballot<Command>, out: seq<Body>)
    requires CInv(sys, owned, p, s) && CStepOK(sys, owned, p, s, key, x, from, b, out)
    ensures CInv(sys, owned, p, s.(log := s.log[key := x], msgs := s.msgs + out))
  {
    hide CCore, CNet, OwnIds, DeliveryOK, Spent, SlotStep, Undelivered, CLedOK, CSends;
    var logs := CLogs(sys)[p := s.log];
    var t := s.(log := s.log[key := x], msgs := s.msgs + out);
    CPutKeepsCore(logs, sys, owned, p, s, key, x, from, b);
    CPutKeepsNet(logs, sys, p, s, key, x, from, b, out);
    CPutKeepsDelivery(s.log, s.delivered, owned, key, x);
    if owned {
      CPutKeepsIds(p, s, t, key, x);
    }
    assert Put(logs, p, key, x) == CLogs(sys)[p := t.log];
  }

  lemma CPutKeepsIds(p: PeerID, s: Node, t: Node, key: InstanceID, x: Slot<Command>)
    requires OwnIds(p, s) && CLedOK(p, s, key, x) && t.log == s.log[key := x] && t.index == s.index
    ensures OwnIds(p, t)
  {
  }

  lemma CPutKeepsCore(logs: Logs<InstanceID, Command>, sys: System, owned: bool, p: PeerID, s: Node, key: InstanceID, x: Slot<Command>, from: PeerID, b: Ballot<Command>)
    requires CCore(logs, sys, owned) && SlotStep(logs, sys.f, p, key, x, from, b) && (owned ==> CLedOK(p, s, key, x))
    ensures CCore(Put(logs, p, key, x), sys, owned)
  {
    PutKeepsLayer(logs, sys.f, sys.faulty, p, key, x, from, b);
    if owned {
      PutKeepsLed(logs, Owner(), CmdLink(), p, key, x);
    }
  }

  lemma CPutKeepsDelivery(log: map<InstanceID, Slot<Command>>, ds: seq<Delivery>, owned: bool, key: InstanceID, x: Slot<Command>)
    requires DeliveryOK(log, ds, owned) && Spent(log) && Undelivered(Lookup(log, key), x)
    ensures DeliveryOK(log[key := x], ds, owned) && Spent(log[key := x])
  {
    forall i | 0 <= i < |ds| ensures Done(log[key := x], ds[i], owned) {
      assert Done(log, ds[i], owned);
    }
  }

  lemma CPutKeepsNet(logs: Logs<InstanceID, Command>, sys: System, p: PeerID, s: Node, key: InstanceID, x: Slot<Command>, from: PeerID, b: Ballot<Command>, out: seq<Body>)
    requires CNet(logs, sys, p, s.msgs) && p in logs && logs[p] == s.log
    requires SlotStep(logs, sys.f, p, key, x, from, b) && CSends(key, x, p, out)
    ensures CNet(Put(logs, p, key, x), sys, p, s.msgs + out)
  {
    hide GainsOnly, SlotOK, OwnBallot;
    forall e | e in sys.net ensures CSentBacked(Put(logs, p, key, x), e.from, e.body) {
      if e.from in logs && CVote(e.body) {
        PutKeepsBacked(logs, p, key, x, e.body.r.key, e.from, CBallot(e.body.r));
      }
    }
    forall i | 0 <= i < |s.msgs + out| ensures CSentBacked(Put(logs, p, key, x), p, (s.msgs + out)[i]) {
      if i < |s.msgs| {
        if CVote(s.msgs[i]) {
          PutKeepsBacked(logs, p, key, x, s.msgs[i].r.key, p, CBallot(s.msgs[i].r));
        }
      } else {
        assert (s.msgs + out)[i] == out[i - |s.msgs|];
      }
    }
  }

  // ----- the handlers

  lemma CLayer(sys: System, owned: bool, p: PeerID, s: Node, key: InstanceID)
    requires CInv(sys, owned, p, s)
    ensures var logs := CLogs(sys)[p := s.log];
      && LayerOK(logs, sys.f, sys.faulty) && p in logs && logs[p] == s.log
      && (key in s.log ==> SlotOK(s.log[key], p, sys.f))
      && (owned ==> SlotFacts(Lookup(s.log, key), p, sys.f, key.replica, CmdLink()))
      && s.f == sys.f && p in Peers(sys.f)
    ensures sys.nodes.Keys == Peers(sys.f) - sys.faulty
    ensures owned && key.replica == p && key in s.log && OwnBallot(s.log[key], p).Some? ==> key.index < s.index
  {
    var logs := CLogs(sys)[p := s.log];
    if owned {
      LedSlot(logs, sys.f, sys.faulty, Owner(), CmdLink(), p, key);
    }
    assert logs.Keys == sys.nodes.Keys;
  }

  lemma CSentVote(sys: System, owned: bool, p: PeerID, s: Node, from: PeerID, m: Msg<InstanceID, Command>)
    requires CInv(sys, owned, p, s) && Envelope(from, Replication(m)) in sys.net && m.kind != CommitMsg && from != p
    ensures var logs := CLogs(sys)[p := s.log]; from in logs ==> Backed(logs, m.key, from, CBallot(m))
  {
    var e := Envelope(from, Replication(m));
    assert CVote(e.body) && CSentBacked(CLogs(sys)[p := s.log], e.from, e.body);
  }

  lemma CSentIsOwn(key: InstanceID, r: Outcome<Command>, p: PeerID)
    requires r.Next? && (r.prepare.Some? ==> r.prepare == OwnBallot(r.slot, p))
    ensures CSends(key, r.slot, p, AsReplication(Sent(key, r)))
  {
    hide OwnBallot;
  }

  lemma CLinks(c: Command)
    ensures CmdLink()(Some(c), Of(c))
    ensures forall a: Command :: SameCommand(a, c) ==> CmdLink()(Some(a), Of(c))
  {
  }

  /** The status that a slot step can leave. */
  lemma PrePrepareNotExecuted<P(!new)>(was: Option<Slot<P>>, same: (P, P) -> bool, self: PeerID, f: nat, from: PeerID,
                                 view: nat, payload: Option<P>, digest: Digest<P>)
    requires PrePrepareSlot(was, same, self, f, from, view, payload, digest).Next?
    ensures PrePrepareSlot(was, same, self, f, from, view, payload, digest).slot.status != Executed
  {
    hide Log, Majority;
  }

  lemma PrepareNotExecuted<P(!new)>(was: Option<Slot<P>>, self: PeerID, f: nat, from: PeerID, view: nat, payload: Option<P>, digest: Option<Digest<P>>)
    requires PrepareSlot(was, self, f, from, view, payload, digest).Next?
    ensures PrepareSlot(was, self, f, from, view, payload, digest).slot.status == Executed ==> was.Some? && was.value.status == Executed
  {
    hide Log, Majority;
  }

  lemma CommitNotExecuted<P(!new)>(was: Option<Slot<P>>, f: nat, from: PeerID, view: nat, payload: Option<P>, digest: Option<Digest<P>>)
    requires CommitSlot(was, f, from, view, payload, digest).Next?
    ensures CommitSlot(was, f, from, view, payload, digest).slot.status == Executed ==> was.Some? && was.value.status == Executed
  {
    hide Log, Majority;
  }

  lemma EvolvesUndelivered<P(!new)>(s: Slot<P>, t: Slot<P>)
    requires Evolves(s, t) && (t.status == Executed ==> s.status == Executed && t.payload == s.payload)
    ensures Undelivered(Some(s), t)
  {
  }

  lemma CPrePrepareStep(sys: System, owned: bool, p: PeerID, s: Node, from: PeerID, m: Msg<InstanceID, Command>)
    requires CInv(sys, owned, p, s) && Envelope(from, Replication(m)) in sys.net && m.kind == PrePrepareMsg && m.payload.Some?
    requires from != p && from in Peers(sys.f) && (owned ==> from == m.key.replica)
    requires PrePrepareSlot(Lookup(s.log, m.key), SameCommand, p, s.f, from, m.view, m.payload, Of(m.payload.value)).Next?
    ensures var r := PrePrepareSlot(Lookup(s.log, m.key), SameCommand, p, s.f, from, m.view, m.payload, Of(m.payload.value));
      CStepOK(sys, owned, p, s, m.key, r.slot, from, CBallot(m), AsReplication(Sent(m.key, r)))
  {
    var was, logs, d := Lookup(s.log, m.key), CLogs(sys)[p := s.log], Of(m.payload.value);
    CLayer(sys, owned, p, s, m.key);
    CSentVote(sys, owned, p, s, from, m);
    CLinks(m.payload.value);
    assert CBallot(m) == Ballot(m.view, Some(d));
    hide PrePrepareSlot, SlotOK, CInv, LayerOK, CmdLink, SameCommand, CBallot, SlotStep, Evolves, GainsOnly, Follows, PayloadLinked;
    var r := PrePrepareSlot(was, SameCommand, p, s.f, from, m.view, m.payload, d);
    PrePrepareStep(logs, sys.f, sys.faulty, p, m.key, SameCommand, from, m.view, m.payload, d);
    if owned {
      PrePrepareFollows(was, SameCommand, CmdLink(), p, s.f, from, m.view, m.payload, d);
    }
    PrePrepareSlotOK(was, SameCommand, p, s.f, from, m.view, m.payload, d);
    PrePrepareNotExecuted(was, SameCommand, p, s.f, from, m.view, m.payload, d);
    hide OwnBallot, SlotFacts;
    CSentIsOwn(m.key, r, p);
    if was.Some? {
      EvolvesUndelivered(was.value, r.slot);
    }
  }

  lemma CPrepareStep(sys: System, owned: bool, p: PeerID, s: Node, from: PeerID, m: Msg<InstanceID, Command>)
    requires CInv(sys, owned, p, s) && Envelope(from, Replication(m)) in sys.net && m.kind == PrepareMsg
    requires from != p && from in Peers(sys.f)
    requires PrepareSlot(Lookup(s.log, m.key), p, s.f, from, m.view, m.payload, m.digest).Next?
    ensures var r := PrepareSlot(Lookup(s.log, m.key), p, s.f, from, m.view, m.payload, m.digest);
      CStepOK(sys, owned, p, s, m.key, r.slot, from, CBallot(m), AsReplication(Sent(m.key, r)))
  {
    var was, logs := Lookup(s.log, m.key), CLogs(sys)[p := s.log];
    CLayer(sys, owned, p, s, m.key);
    CSentVote(sys, owned, p, s, from, m);
    assert CBallot(m) == Ballot(m.view, m.digest);
    hide PrepareSlot, SlotOK, CInv, LayerOK, CmdLink, CBallot, SlotStep, Evolves, GainsOnly, Follows, PayloadLinked;
    var r := PrepareSlot(was, p, s.f, from, m.view, m.payload, m.digest);
    PrepareStep(logs, sys.f, sys.faulty, p, m.key, from, m.view, m.payload, m.digest);
    if owned {
      PrepareFollows(was, CmdLink(), p, s.f, m.key.replica, from, m.view, m.payload, m.digest);
    }
    PrepareSlotOK(was, p, s.f, from, m.view, m.payload, m.digest);
    PrepareNotExecuted(was, p, s.f, from, m.view, m.payload, m.digest);
    hide OwnBallot, SlotFacts;
    CSentIsOwn(m.key, r, p);
    if was.Some? {
      EvolvesUndelivered(was.value, r.slot);
    }
  }

  lemma CCommitStep(sys: System, owned: bool, p: PeerID, s: Node, from: PeerID, m: Msg<InstanceID, Command>)
    requires CInv(sys, owned, p, s)
    requires CommitSlot(Lookup(s.log, m.key), s.f, from, m.view, m.payload, m.digest).Next?
    ensures var r := CommitSlot(Lookup(s.log, m.key), s.f, from, m.view, m.payload, m.digest);
      CStepOK(sys, owned, p, s, m.key, r.slot, 3 * sys.f + 1, CBallot(m), AsReplication(Sent(m.key, r)))
  {
    var was, logs := Lookup(s.log, m.key), CLogs(sys)[p := s.log];
    CLayer(sys, owned, p, s, m.key);
    hide CommitSlot, SlotOK, CInv, LayerOK, CmdLink, CBallot, SlotStep, Evolves, GainsOnly, Follows, PayloadLinked;
    var r := CommitSlot(was, s.f, from, m.view, m.payload, m.digest);
    CommitStep(logs, sys.f, sys.faulty, p, m.key, from, m.view, m.payload, m.digest, 3 * sys.f + 1, CBallot(m));
    if owned {
      CommitFollows(was, CmdLink(), p, s.f, m.key.replica, from, m.view, m.payload, m.digest);
    }
    CommitSlotOK(was, p, s.f, from, m.view, m.payload, m.digest);
    CommitNotExecuted(was, s.f, from, m.view, m.payload, m.digest);
    SamePrepares(was, r.slot, p, p, Ballot(0, None));
    hide OwnBallot, SlotFacts;
    CSentIsOwn(m.key, r, p);
    if was.Some? {
      EvolvesUndelivered(was.value, r.slot);
    }
  }

  lemma OSameInstalled(s: Node, key: InstanceID, x: Slot<Command>, out: seq<Body>)
    requires forall i :: 0 <= i < |out| ==> out[i].Replication?
    ensures OSame(s, s.(log := s.log[key := x], msgs := s.msgs + out))
  {
  }

  lemma OInvOrder(sys: System, p: PeerID, s: Node)
    requires OInv(sys, p, s)
    ensures OrderOK(s)
  {
  }
}
