/** Whole runs of DQPBFT. */
module DqRuns {
  import opened Quorums
  import opened Slots
  import opened SlotAgreement
  import opened DqNode
  import opened DqExec
  import opened DqOrdering
  import opened DqReplication

  /** What is assumed of a run beyond at most f faulty senders.  Any: nothing.  Fresh: onRequest takes ids on
      which the replica has not voted.  Owned: replication pre-prepares come from the owner of their id. */
  datatype Regime = Any | Fresh | Owned

  ghost predicate Inv(sys: System, g: Regime, p: PeerID, s: Node) {
    OInv(sys, p, s) && (g != Any ==> CInv(sys, g.Owned?, p, s))
  }

  /** No slot moves backwards. */
  ghost predicate Rises<K, P>(m: map<K, Slot<P>>, n: map<K, Slot<P>>) {
    forall k :: k in m ==> k in n && Rank(m[k].status) <= Rank(n[k].status)
  }

  lemma RetiredRises<K, P(!new)>(m: map<K, Slot<P>>, n: map<K, Slot<P>>)
    requires AllRetired(m, n)
    ensures Rises(m, n)
  {
  }

  /** A handler keeps the invariant and, where the regime knows the replication layer, lets no slot fall. */
  ghost predicate Good(sys: System, g: Regime, p: PeerID, s: Node, t: Node) {
    Inv(sys, g, p, t) && Rises(s.olog, t.olog) && (g != Any ==> Rises(s.log, t.log))
  }

  lemma GoodSame(sys: System, g: Regime, p: PeerID, s: Node, t: Node)
    requires Inv(sys, g, p, s) && OSame(s, t) && CSame(s, t)
    ensures Good(sys, g, p, s, t)
  {
    hide OInv, CInv, OSame, CSame;
    OSameKeeps(sys, p, s, t);
    if g != Any {
      CSameKeeps(sys, g.Owned?, p, s, t);
    }
    assert s.log == t.log && s.olog == t.olog by { SameLogs(s, t); }
  }

  lemma SameLogs(s: Node, t: Node)
    requires OSame(s, t) && CSame(s, t)
    ensures s.log == t.log && s.olog == t.olog
  {
  }

  lemma GoodTransitive(sys: System, g: Regime, p: PeerID, s: Node, t: Node, u: Node)
    requires Good(sys, g, p, s, t) && Good(sys, g, p, t, u)
    ensures Good(sys, g, p, s, u)
  {
  }

  lemma GoodExec(sys: System, g: Regime, p: PeerID, s: Node)
    requires Inv(sys, g, p, s)
    ensures Good(sys, g, p, s, Exec(s))
  {
    hide OInv, CInv, Exec;
    OInvOrder(sys, p, s);
    ExecKeepsO(sys, p, s);
    if g != Any {
      ExecKeepsC(sys, g.Owned?, p, s);
    }
    ExecSpec(s);
    RetiredRises(s.log, Exec(s).log);
    RetiredRises(s.olog, Exec(s).olog);
  }

  lemma GoodHalt(sys: System, g: Regime, p: PeerID, s: Node)
    requires Inv(sys, g, p, s)
    ensures Good(sys, g, p, s, s.(halted := true))
  {
    hide Inv;
    GoodSame(sys, g, p, s, s.(halted := true));
  }

  // ----- the ordering layer's handlers

  lemma GoodOFinish(sys: System, g: Regime, p: PeerID, s: Node, key: nat, r: Outcome<Batch>, from: PeerID, b: Ballot<Batch>)
    requires Inv(sys, g, p, s) && !s.halted
    requires r.Next? ==> OStepOK(sys, p, s, key, r.slot, from, b, AsOrdering(Sent(key, r))) && OStands(Lookup(s.olog, key), r.slot)
    ensures Good(sys, g, p, s, OFinish(s, key, r))
  {
    if r.Halt? {
      GoodHalt(sys, g, p, s);
    } else {
      var t := s.(olog := s.olog[key := r.slot], msgs := s.msgs + AsOrdering(Sent(key, r)));
      GoodOInstalled(sys, g, p, s, s, key, r.slot, from, b, AsOrdering(Sent(key, r)));
      hide Inv, OStepOK, Sent, AsOrdering, Exec;
      GoodExec(sys, g, p, t) by { assert Inv(sys, g, p, t); }
      GoodTransitive(sys, g, p, s, t, Exec(t));
    }
  }

  /** The status of an ordering slot does not fall. */
  predicate OStands(was: Option<Slot<Batch>>, x: Slot<Batch>) {
    was.Some? ==> Rank(was.value.status) <= Rank(x.status)
  }

  lemma GoodOInstalled(sys: System, g: Regime, p: PeerID, s: Node, u: Node, key: nat, x: Slot<Batch>, from: PeerID, b: Ballot<Batch>, out: seq<Body>)
    requires Inv(sys, g, p, u) && !u.halted && forall i :: 0 <= i < |out| ==> out[i].Ordering?
    requires OStepOK(sys, p, u, key, x, from, b, out) && OStands(Lookup(u.olog, key), x) && s.log == u.log && s.olog == u.olog
    ensures Good(sys, g, p, s, u.(olog := u.olog[key := x], msgs := u.msgs + out))
  {
    var t := u.(olog := u.olog[key := x], msgs := u.msgs + out);
    hide OInv, CInv, OStepOK;
    OPutKeeps(sys, p, u, key, x, from, b, out);
    if g != Any {
      assert CSame(u, t);
      CSameKeeps(sys, g.Owned?, p, u, t);
    }
  }

  lemma OStepStands(sys: System, p: PeerID, s: Node, key: nat, x: Slot<Batch>, from: PeerID, b: Ballot<Batch>, out: seq<Body>)
    requires OStepOK(sys, p, s, key, x, from, b, out)
    ensures OStands(Lookup(s.olog, key), x)
  {
  }

  lemma SendCRequestGood(sys: System, g: Regime, p: PeerID, s: Node)
    requires Inv(sys, g, p, s) && !s.halted
    ensures Good(sys, g, p, s, SendCRequest(s)) && !SendCRequest(s).halted
  {
    InvParts(sys, g, p, s);
    hide Inv, OInv, CInv, OwnSlot, CSame;
    var t := SendCRequest(s);
    SendCRequestKeepsO(sys, p, s);
    SendCRequestSame(s);
    if g != Any {
      CSameKeeps(sys, g.Owned?, p, s, t);
    }
    SendCRequestRises(sys, p, s);
    hide SendCRequest;
    assert Inv(sys, g, p, t) by { InvOf(sys, g, p, t); }
  }

  lemma InvOf(sys: System, g: Regime, p: PeerID, s: Node)
    requires OInv(sys, p, s) && (g != Any ==> CInv(sys, g.Owned?, p, s))
    ensures Inv(sys, g, p, s)
  {
  }

  lemma SendCRequestSame(s: Node)
    ensures CSame(s, SendCRequest(s))
  {
  }

  lemma SendCRequestRises(sys: System, p: PeerID, s: Node)
    requires OInv(sys, p, s)
    ensures Rises(s.olog, SendCRequest(s).olog) && Rises(s.log, SendCRequest(s).log)
  {
    assert s.id == p && s.f == sys.f && s.oview == sys.oview;
    hide OInv;
    if p == Leader(sys) {
      FreshIndex(sys, p, s);
    }
  }

  /** The slot under the leader's next index has not advanced. */
  lemma FreshIndex(sys: System, p: PeerID, s: Node)
    requires OInv(sys, p, s) && p == Leader(sys)
    ensures s.oindex in s.olog ==> Rank(s.olog[s.oindex].status) == 0
  {
    OLayer(sys, p, s, s.oindex);
    if s.oindex in s.olog {
      IdleUnlessCast(s.olog[s.oindex], p, sys.f);
    }
  }

  lemma OnCRequestGood(sys: System, g: Regime, p: PeerID, s: Node, id: InstanceID)
    requires Inv(sys, g, p, s) && !s.halted
    ensures Good(sys, g, p, s, OnCRequest(s, id)) && !OnCRequest(s, id).halted
  {
    hide Inv, SendCRequest, Good;
    var t := s.(cReqBuffer := s.cReqBuffer + [id]);
    assert Good(sys, g, p, s, t) by { GoodSame(sys, g, p, s, t); }
    assert Good(sys, g, p, s, s) by { GoodSame(sys, g, p, s, s); }
    SendCRequestGood(sys, g, p, t) by { GoodInv(sys, g, p, s, t); }
    GoodTransitive(sys, g, p, s, t, SendCRequest(t));
  }

  lemma OnOPrePrepareGood(sys: System, g: Regime, p: PeerID, s: Node, from: PeerID, m: Msg<nat, Batch>)
    requires Inv(sys, g, p, s) && !s.halted && Envelope(from, Ordering(m)) in sys.net && m.kind == PrePrepareMsg
    requires from != p && from in Peers(sys.f)
    ensures Good(sys, g, p, s, OnOPrePrepare(s, from, m))
  {
    hide Inv, PrePrepareSlot, OFinish, OStepOK, CInv, OInv, Good;
    InvParts(sys, g, p, s);
    if from != OLeader(s) {
      GoodHalt(sys, g, p, s);
    } else {
      var r := PrePrepareSlot(Lookup(s.olog, m.key), SameBatch, s.id, s.f, from, m.view, Wire(Ids(m.payload)), Of(Ids(m.payload)));
      if r.Next? {
        OPrePrepareStep(sys, p, s, from, m);
        OStepStands(sys, p, s, m.key, r.slot, from, OBallot(m), AsOrdering(Sent(m.key, r)));
      }
      GoodOFinish(sys, g, p, s, m.key, r, from, OBallot(m));
    }
  }

  lemma OnOPrepareGood(sys: System, g: Regime, p: PeerID, s: Node, from: PeerID, m: Msg<nat, Batch>)
    requires Inv(sys, g, p, s) && !s.halted && Envelope(from, Ordering(m)) in sys.net && m.kind == PrepareMsg
    requires from != p && from in Peers(sys.f)
    ensures Good(sys, g, p, s, OnOPrepare(s, from, m))
  {
    hide Inv, PrepareSlot, OFinish, OStepOK, CInv, OInv, Good;
    InvParts(sys, g, p, s);
    if from == OLeader(s) {
      GoodHalt(sys, g, p, s);
    } else {
      var r := PrepareSlot(Lookup(s.olog, m.key), s.id, s.f, from, m.view, Wire(Ids(m.payload)), m.digest);
      if r.Next? {
        OPrepareStep(sys, p, s, from, m);
        OStepStands(sys, p, s, m.key, r.slot, from, OBallot(m), AsOrdering(Sent(m.key, r)));
      }
      GoodOFinish(sys, g, p, s, m.key, r, from, OBallot(m));
    }
  }

  lemma OnOCommitGood(sys: System, g: Regime, p: PeerID, s: Node, from: PeerID, m: Msg<nat, Batch>)
    requires Inv(sys, g, p, s) && !s.halted
    ensures Good(sys, g, p, s, OnOCommit(s, from, m))
  {
    hide Inv, CommitSlot, OFinish, OStepOK, CInv, OInv, Good;
    InvParts(sys, g, p, s);
    var r := CommitSlot(Lookup(s.olog, m.key), s.f, from, m.view, Wire(Ids(m.payload)), m.digest);
    if r.Next? {
      OCommitStep(sys, p, s, from, m);
      OStepStands(sys, p, s, m.key, r.slot, 3 * sys.f + 1, OBallot(m), AsOrdering(Sent(m.key, r)));
    }
    GoodOFinish(sys, g, p, s, m.key, r, 3 * sys.f + 1, OBallot(m));
  }

  // ----- the replication layer's handlers

  lemma GoodFinish(sys: System, g: Regime, p: PeerID, s: Node, key: InstanceID, r: Outcome<Command>, from: PeerID, b: Ballot<Command>)
    requires Inv(sys, g, p, s) && !s.halted
    requires g != Any && r.Next? ==> CStepOK(sys, g.Owned?, p, s, key, r.slot, from, b, AsReplication(Sent(key, r)))
    ensures Good(sys, g, p, s, Finish(s, key, r))
  {
    if r.Halt? {
      GoodHalt(sys, g, p, s);
    } else {
      var t := s.(log := s.log[key := r.slot], msgs := s.msgs + AsReplication(Sent(key, r)));
      GoodInstalled(sys, g, p, s, key, r.slot, from, b, AsReplication(Sent(key, r)));
      hide Inv, CStepOK, Sent, AsReplication, Exec;
      GoodExec(sys, g, p, t) by { assert Inv(sys, g, p, t); }
      GoodTransitive(sys, g, p, s, t, Exec(t));
    }
  }

  lemma GoodInstalled(sys: System, g: Regime, p: PeerID, s: Node, key: InstanceID, x: Slot<Command>, from: PeerID, b: Ballot<Command>, out: seq<Body>)
    requires Inv(sys, g, p, s) && !s.halted && forall i :: 0 <= i < |out| ==> out[i].Replication?
    requires g != Any ==> CStepOK(sys, g.Owned?, p, s, key, x, from, b, out)
    ensures Good(sys, g, p, s, s.(log := s.log[key := x], msgs := s.msgs + out))
  {
    hide OInv, CInv, OSame, CStepOK;
    var t := s.(log := s.log[key := x], msgs := s.msgs + out);
    OSameInstalled(s, key, x, out);
    OSameKeeps(sys, p, s, t);
    if g != Any {
      CPutKeeps(sys, g.Owned?, p, s, key, x, from, b, out);
      assert Rises(s.log, t.log) by { StepRises(sys, g.Owned?, p, s, key, x, from, b, out); }
    }
  }

  lemma StepRises(sys: System, owned: bool, p: PeerID, s: Node, key: InstanceID, x: Slot<Command>, from: PeerID, b: Ballot<Command>, out: seq<Body>)
    requires CStepOK(sys, owned, p, s, key, x, from, b, out)
    ensures Rises(s.log, s.log[key := x])
  {
    hide SlotStep, CLedOK, CSends;
  }

  /** A delivered pre-prepare is the owner's in an owned run. */
  predicate FromOwner(from: PeerID, b: Body) {
    b.Replication? && b.r.kind == PrePrepareMsg ==> from == b.r.key.replica
  }

  lemma OnPrePrepareGood(sys: System, g: Regime, p: PeerID, s: Node, from: PeerID, m: Msg<InstanceID, Command>)
    requires Inv(sys, g, p, s) && !s.halted && Envelope(from, Replication(m)) in sys.net && m.kind == PrePrepareMsg
    requires from != p && from in Peers(sys.f) && (g.Owned? ==> from == m.key.replica)
    ensures Good(sys, g, p, s, OnPrePrepare(s, from, m))
  {
    hide Inv, OnCRequest, PrePrepareSlot, Finish;
    var t := if s.id == OLeader(s) then OnCRequest(s, m.key) else s;
    OnCRequestGood(sys, g, p, s, m.key);
    assert Rises(s.log, s.log) && Rises(s.olog, s.olog);
    if m.payload.None? {
      GoodHalt(sys, g, p, t);
      GoodTransitive(sys, g, p, s, t, t.(halted := true));
    } else {
      var r := PrePrepareSlot(Lookup(t.log, m.key), SameCommand, p, t.f, from, m.view, m.payload, Of(m.payload.value));
      var b := CBallot(m);
      assert g != Any && r.Next? ==> CStepOK(sys, g.Owned?, p, t, m.key, r.slot, from, b, AsReplication(Sent(m.key, r))) by {
        if g != Any && r.Next? {
          assert CInv(sys, g.Owned?, p, t) by { InvParts(sys, g, p, t); }
          CPrePrepareStep(sys, g.Owned?, p, t, from, m);
        }
      }
      hide CStepOK, OnPrePrepare, Good;
      GoodFinish(sys, g, p, t, m.key, r, from, b) by { assert Inv(sys, g, p, t) by { GoodInv(sys, g, p, s, t); } }
      GoodTransitive(sys, g, p, s, t, Finish(t, m.key, r));
      assert OnPrePrepare(s, from, m) == Finish(t, m.key, r) by { PrePrepareIs(sys, g, p, s, from, m); }
    }
  }

  lemma PrePrepareIs(sys: System, g: Regime, p: PeerID, s: Node, from: PeerID, m: Msg<InstanceID, Command>)
    requires Inv(sys, g, p, s) && m.payload.Some?
    ensures var t := if s.id == OLeader(s) then OnCRequest(s, m.key) else s;
      OnPrePrepare(s, from, m) == Finish(t, m.key, PrePrepareSlot(Lookup(t.log, m.key), SameCommand, p, t.f, from, m.view, m.payload, Of(m.payload.value)))
  {
  }

  lemma GoodInv(sys: System, g: Regime, p: PeerID, s: Node, t: Node)
    requires Good(sys, g, p, s, t)
    ensures Inv(sys, g, p, t)
  {
  }

  lemma InvParts(sys: System, g: Regime, p: PeerID, s: Node)
    requires Inv(sys, g, p, s)
    ensures OInv(sys, p, s) && (g != Any ==> CInv(sys, g.Owned?, p, s))
    ensures s.id == p && s.f == sys.f && s.oview == sys.oview && p in sys.nodes && p in Peers(sys.f)
  {
  }

  lemma OnPrepareGood(sys: System, g: Regime, p: PeerID, s: Node, from: PeerID, m: Msg<InstanceID, Command>)
    requires Inv(sys, g, p, s) && !s.halted && Envelope(from, Replication(m)) in sys.net && m.kind == PrepareMsg
    requires from != p && from in Peers(sys.f)
    ensures Good(sys, g, p, s, OnPrepare(s, from, m))
  {
    hide Inv, PrepareSlot, Finish, CStepOK, CInv, OInv, Good;
    InvParts(sys, g, p, s);
    var r := PrepareSlot(Lookup(s.log, m.key), p, s.f, from, m.view, m.payload, m.digest);
    if g != Any && r.Next? {
      CPrepareStep(sys, g.Owned?, p, s, from, m);
    }
    GoodFinish(sys, g, p, s, m.key, r, from, CBallot(m));
  }

  lemma OnCommitGood(sys: System, g: Regime, p: PeerID, s: Node, from: PeerID, m: Msg<InstanceID, Command>)
    requires Inv(sys, g, p, s) && !s.halted
    ensures Good(sys, g, p, s, OnCommit(s, from, m))
  {
    hide Inv, CommitSlot, Finish, CStepOK, CInv, OInv, Good;
    InvParts(sys, g, p, s);
    var r := CommitSlot(Lookup(s.log, m.key), s.f, from, m.view, m.payload, m.digest);
    if g != Any && r.Next? {
      CCommitStep(sys, g.Owned?, p, s, from, m);
    }
    GoodFinish(sys, g, p, s, m.key, r, 3 * sys.f + 1, CBallot(m));
  }

  /** onRequest takes the next own id; Fresh asks that the replica has cast no ballot there. */
  predicate FreshId(s: Node) {
    var id := InstanceID(s.id, s.index);
    id in s.log ==> OwnBallot(s.log[id], s.id).None?
  }

  /** The replication half of onRequest. */
  function OpenOwn(s: Node, cmd: Command): Node {
    var id := InstanceID(s.id, s.index);
    s.(index := s.index + 1,
       log := s.log[id := OwnSlot(s.id, cmd, s.id, Of(cmd))],
       msgs := s.msgs + [Replication(Msg(PrePrepareMsg, s.id, id, Some(cmd), None))])
  }

  lemma OpenOwnGood(sys: System, g: Regime, p: PeerID, s: Node, cmd: Command)
    requires Inv(sys, g, p, s) && !s.halted && (g == Fresh ==> FreshId(s))
    ensures Good(sys, g, p, s, OpenOwn(s, cmd))
  {
    hide OpenOwn, Inv, CInv, OInv, OwnSlot, Good, CStepOK;
    InvParts(sys, g, p, s);
    var id := InstanceID(p, s.index);
    var x := OwnSlot(p, cmd, p, Of(cmd));
    var out := [Replication(Msg(PrePrepareMsg, p, id, Some(cmd), None))];
    var u := s.(index := s.index + 1);
    OpenOwnIs(s, cmd);
    IndexGood(sys, g, p, s);
    GoodInv(sys, g, p, s, u);
    if g != Any {
      OwnIdFresh(sys, g, p, s);
      InvParts(sys, g, p, u);
      OwnRequestStep(sys, g.Owned?, p, u, s.index, cmd);
    }
    GoodInstalled(sys, g, p, u, id, x, 3 * sys.f + 1, Ballot(0, None), out);
    GoodTransitive(sys, g, p, s, u, OpenOwn(s, cmd));
  }

  lemma OpenOwnIs(s: Node, cmd: Command)
    ensures var u, id := s.(index := s.index + 1), InstanceID(s.id, s.index);
            OpenOwn(s, cmd) == u.(log := u.log[id := OwnSlot(s.id, cmd, s.id, Of(cmd))],
                                  msgs := u.msgs + [Replication(Msg(PrePrepareMsg, s.id, id, Some(cmd), None))])
  {
  }

  lemma OnRequestGood(sys: System, g: Regime, p: PeerID, s: Node, cmd: Command)
    requires Inv(sys, g, p, s) && !s.halted && (g == Fresh ==> FreshId(s))
    ensures Good(sys, g, p, s, OnRequest(s, cmd))
  {
    var t, id := OpenOwn(s, cmd), InstanceID(s.id, s.index);
    assert OnRequest(s, cmd) == if s.id == OLeader(s) then OnCRequest(t, id) else t;
    assert !t.halted;
    hide Inv, OnRequest, OnCRequest, Good, OpenOwn;
    OpenOwnGood(sys, g, p, s, cmd);
    GoodInv(sys, g, p, s, t);
    OnCRequestGood(sys, g, p, t, id);
    GoodTransitive(sys, g, p, s, t, OnCRequest(t, id));
  }

  lemma IndexGood(sys: System, g: Regime, p: PeerID, s: Node)
    requires Inv(sys, g, p, s)
    ensures Good(sys, g, p, s, s.(index := s.index + 1))
  {
    GoodSame(sys, g, p, s, s.(index := s.index + 1));
  }

  lemma OwnIdFresh(sys: System, g: Regime, p: PeerID, s: Node)
    requires Inv(sys, g, p, s) && g != Any && (g == Fresh ==> FreshId(s))
    ensures FreshId(s)
  {
  }

  lemma OwnRequestStep(sys: System, owned: bool, p: PeerID, s: Node, i: nat, cmd: Command)
    requires CInv(sys, owned, p, s) && i < s.index
    requires InstanceID(p, i) in s.log ==> OwnBallot(s.log[InstanceID(p, i)], p).None?
    ensures CStepOK(sys, owned, p, s, InstanceID(p, i), OwnSlot(p, cmd, p, Of(cmd)), 3 * sys.f + 1, Ballot(0, None),
                    [Replication(Msg(PrePrepareMsg, p, InstanceID(p, i), Some(cmd), None))])
  {
    hide CInv, OwnSlot, SlotOK, OwnBallot, GainsOnly, LayerOK, CmdLink;
    var id := InstanceID(p, i);
    var x := OwnSlot(p, cmd, p, Of(cmd));
    CLayer(sys, owned, p, s, id);
    OwnSlotOK(Lookup(s.log, id), p, sys.f, cmd, 3 * sys.f + 1, Ballot(0, None));
    CLinks(cmd);
    if id in s.log {
      IdleUnlessCast(s.log[id], p, sys.f);
    }
    assert x.status == PrePrepared by { OwnSlotStatus(p, cmd); }
    hide SlotFacts;
  }

  lemma OwnSlotStatus(p: PeerID, cmd: Command)
    ensures OwnSlot(p, cmd, p, Of(cmd)).status == PrePrepared
  {
  }
}
