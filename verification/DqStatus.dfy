/** Which steps of DQPBFT move an instance backwards, in runs of which nothing is assumed. */
module DqStatus {
  import opened Quorums
  import opened Slots
  import opened SlotAgreement
  import opened DqNode
  import opened DqExec
  import opened DqOrdering
  import opened DqReplication
  import opened DqRuns
  import opened DqSystem

  /** Each slot of the replication layer is in order by itself, whoever has sent what. */
  ghost predicate EachOK(s: Node) {
    forall id :: id in s.log ==> SlotOK(s.log[id], s.id, s.f)
  }

  /** A step keeps that and lets no instance fall. */
  ghost predicate Climbs(s: Node, t: Node) {
    t.id == s.id && t.f == s.f && EachOK(t) && Rises(s.log, t.log)
  }

  lemma ClimbsTwice(s: Node, t: Node, u: Node)
    requires Climbs(s, t) && Climbs(t, u)
    ensures Climbs(s, u)
  {
    hide EachOK;
  }

  lemma ClimbsSame(s: Node, t: Node)
    requires EachOK(s) && t.id == s.id && t.f == s.f && t.log == s.log
    ensures Climbs(s, t)
  {
  }

  // ----- exec

  /** Every listed instance is committed or beyond. */
  ghost predicate AllCommitted(log: map<InstanceID, Slot<Command>>, ids: Batch) {
    forall i :: 0 <= i < |ids| && ids[i] in log ==> Rank(log[ids[i]].status) >= 3
  }

  lemma DeliverOneClimbs(s: Node, id: InstanceID, rest: Batch)
    requires EachOK(s) && id in s.log && s.log[id].payload.Some? && Rank(s.log[id].status) >= 3 && AllCommitted(s.log, rest)
    ensures Climbs(s, DeliverOne(s, id)) && AllCommitted(DeliverOne(s, id).log, rest)
  {
    var t := DeliverOne(s, id);
    RetiredOK(s.log[id], t.log[id], s.id, s.f);
    hide SlotOK;
  }

  lemma RetiredOK(x: Slot<Command>, y: Slot<Command>, self: PeerID, f: nat)
    requires SlotOK(x, self, f) && Rank(x.status) >= 2 && y == x.(payload := None, status := Executed)
    ensures SlotOK(y, self, f)
  {
    PreparesOnly(x, y, f);
  }

  lemma {:induction false} DeliverAllClimbs(s: Node, ids: Batch)
    requires EachOK(s) && AllCommitted(s.log, ids)
    ensures Climbs(s, DeliverAll(s, ids))
    decreases |ids|
  {
    ClimbsSame(s, s);
    if ids != [] && ids[0] in s.log && s.log[ids[0]].payload.Some? {
      var t := DeliverOne(s, ids[0]);
      assert forall i :: 0 <= i < |ids[1..]| ==> ids[1..][i] == ids[i + 1];
      DeliverOneClimbs(s, ids[0], ids[1..]);
      hide EachOK, Climbs, AllCommitted, DeliverOne;
      assert EachOK(t) by { ClimbsOK(s, t); }
      DeliverAllClimbs(t, ids[1..]);
      ClimbsTwice(s, t, DeliverAll(t, ids[1..]));
    } else {
      ClimbsSame(s, s.(halted := true));
    }
  }

  lemma ClimbsOK(s: Node, t: Node)
    requires Climbs(s, t)
    ensures EachOK(t)
  {
  }

  lemma {:induction false} ExecClimbs(s: Node)
    requires EachOK(s)
    ensures Climbs(s, Exec(s))
    decreases |CommittedSlots(s.olog)|
  {
    ClimbsSame(s, s);
    if !s.halted && CanDeliver(s) {
      var ids := Ids(s.olog[s.nextODeliver].payload);
      var t := DeliverSlot(s);
      DeliverAllClimbs(s, ids);
      DeliverAllFrame(s, ids);
      hide EachOK, DeliverAll;
      assert Climbs(s, t);
      if !t.halted {
        SlotConsumed(s.olog, s.nextODeliver);
        ExecClimbs(t);
        ClimbsTwice(s, t, Exec(t));
      }
    }
  }

  // ----- the handlers

  /** A slot that may take the place of another one without a fall. */
  ghost predicate Higher(s: Node, id: InstanceID, x: Slot<Command>) {
    SlotOK(x, s.id, s.f) && (id in s.log ==> Rank(s.log[id].status) <= Rank(x.status))
  }

  lemma FinishClimbs(s: Node, id: InstanceID, r: Outcome<Command>)
    requires EachOK(s) && (r.Next? ==> Higher(s, id, r.slot))
    ensures Climbs(s, Finish(s, id, r))
  {
    hide SlotOK;
    ClimbsSame(s, s.(halted := true));
    if r.Next? {
      var t := s.(log := s.log[id := r.slot], msgs := s.msgs + AsReplication(Sent(id, r)));
      assert Climbs(s, t);
      hide Higher, Climbs, EachOK, Exec;
      ClimbsOK(s, t);
      ExecClimbs(t);
      ClimbsTwice(s, t, Exec(t));
    }
  }

  lemma OFinishClimbs(s: Node, i: nat, r: Outcome<Batch>)
    requires EachOK(s)
    ensures Climbs(s, OFinish(s, i, r))
  {
    hide EachOK, Climbs, Exec;
    ClimbsSame(s, s.(halted := true));
    if r.Next? {
      var t := s.(olog := s.olog[i := r.slot], msgs := s.msgs + AsOrdering(Sent(i, r)));
      ClimbsSame(s, t);
      ClimbsOK(s, t);
      ExecClimbs(t);
      ClimbsTwice(s, t, Exec(t));
    }
  }

  lemma OrderingKeepsLog(s: Node, id: InstanceID)
    ensures SendCRequest(s).log == s.log && SendCRequest(s).id == s.id && SendCRequest(s).f == s.f
    ensures OnCRequest(s, id).log == s.log && OnCRequest(s, id).id == s.id && OnCRequest(s, id).f == s.f
  {
  }

  lemma ReplicationClimbs(s: Node, from: PeerID, m: Msg<InstanceID, Command>)
    requires EachOK(s) && !s.halted && s.id in Peers(s.f) && from in Peers(s.f) && from != s.id
    ensures Climbs(s, Receive(s, from, Replication(m)))
  {
    OrderingKeepsLog(s, m.key);
    var was := Lookup(s.log, m.key);
    match m.kind
    case PrePrepareMsg =>
      var t := if s.id == OLeader(s) then OnCRequest(s, m.key) else s;
      ClimbsSame(s, t);
      ClimbsSame(s, t.(halted := true));
      if m.payload.Some? {
        var r := PrePrepareSlot(was, SameCommand, s.id, s.f, from, m.view, m.payload, Of(m.payload.value));
        if r.Next? {
          PrePrepareSlotOK(was, SameCommand, s.id, s.f, from, m.view, m.payload, Of(m.payload.value));
        }
        hide PrePrepareSlot, SlotOK, OnCRequest, Finish, GainsOnly, Climbs;
        FinishClimbs(t, m.key, r);
        ClimbsTwice(s, t, Finish(t, m.key, r));
      }
    case PrepareMsg =>
      var r := PrepareSlot(was, s.id, s.f, from, m.view, m.payload, m.digest);
      if r.Next? {
        PrepareSlotOK(was, s.id, s.f, from, m.view, m.payload, m.digest);
      }
      hide PrepareSlot, SlotOK, Finish, GainsOnly, Climbs;
      FinishClimbs(s, m.key, r);
    case CommitMsg =>
      var r := CommitSlot(was, s.f, from, m.view, m.payload, m.digest);
      if r.Next? {
        CommitSlotOK(was, s.id, s.f, from, m.view, m.payload, m.digest);
      }
      hide CommitSlot, SlotOK, Finish, Climbs;
      FinishClimbs(s, m.key, r);
  }

  lemma ReceiveClimbs(s: Node, from: PeerID, b: Body)
    requires EachOK(s) && s.id in Peers(s.f) && from in Peers(s.f) && from != s.id
    ensures Climbs(s, Receive(s, from, b))
  {
    hide EachOK, Climbs, OFinish, OnPrePrepare, OnPrepare, OnCommit;
    ClimbsSame(s, s);
    ClimbsSame(s, s.(halted := true));
    if !s.halted {
      match b
      case Replication(m) => ReplicationClimbs(s, from, m);
      case Ordering(m) =>
        OFinishClimbs(s, m.key, PrePrepareSlot(Lookup(s.olog, m.key), SameBatch, s.id, s.f, from, m.view, Wire(Ids(m.payload)), Of(Ids(m.payload))));
        OFinishClimbs(s, m.key, PrepareSlot(Lookup(s.olog, m.key), s.id, s.f, from, m.view, Wire(Ids(m.payload)), m.digest));
        OFinishClimbs(s, m.key, CommitSlot(Lookup(s.olog, m.key), s.f, from, m.view, Wire(Ids(m.payload)), m.digest));
    }
  }

  // ----- requests

  /** What onRequest makes of the log, at the ordering leader too. */
  lemma RequestLog(s: Node, cmd: Command)
    requires !s.halted
    ensures var t := OnRequest(s, cmd);
      t.log == s.log[InstanceID(s.id, s.index) := OwnSlot(s.id, cmd, s.id, Of(cmd))] && t.id == s.id && t.f == s.f
  {
    hide SendCRequest;
    OrderingKeepsLog(s.(index := s.index + 1, log := s.log[InstanceID(s.id, s.index) := OwnSlot(s.id, cmd, s.id, Of(cmd))],
                        msgs := s.msgs + [Replication(Msg(PrePrepareMsg, s.id, InstanceID(s.id, s.index), Some(cmd), None))]),
                     InstanceID(s.id, s.index));
  }

  lemma RequestOK(s: Node, cmd: Command)
    requires EachOK(s) && s.id in Peers(s.f)
    ensures EachOK(OnRequest(s, cmd)) && OnRequest(s, cmd).id == s.id && OnRequest(s, cmd).f == s.f
  {
    if !s.halted {
      RequestLog(s, cmd);
      assert SlotOK(OwnSlot(s.id, cmd, s.id, Of(cmd)), s.id, s.f);
      hide OnRequest, SlotOK;
    }
  }

  /** The replica's next id is prepared or beyond already. */
  predicate Overtaken(s: Node) {
    !s.halted && InstanceID(s.id, s.index) in s.log && Rank(s.log[InstanceID(s.id, s.index)].status) >= Rank(Prepared)
  }

  lemma RequestFallsIff(s: Node, cmd: Command)
    ensures !Rises(s.log, OnRequest(s, cmd).log) <==> Overtaken(s)
  {
    if !s.halted {
      RequestLog(s, cmd);
      var id, t := InstanceID(s.id, s.index), OnRequest(s, cmd);
      hide OnRequest;
      if Overtaken(s) {
        assert id in s.log && Rank(s.log[id].status) > Rank(t.log[id].status);
      }
    }
  }

  // ----- runs

  ghost predicate AllEachOK(sys: System) {
    forall p :: p in sys.nodes ==> EachOK(sys.nodes[p])
  }

  lemma Members(sys: System, p: PeerID)
    requires SysInv(sys, Any) && p in sys.nodes
    ensures sys.nodes[p].id == p && sys.nodes[p].f == sys.f && p in Peers(sys.f) && forall e :: e in sys.net ==> e.from in Peers(sys.f)
  {
    assert Inv(sys, Any, p, sys.nodes[p]);
    hide OCore, ONet, OLeads, OrderOK;
  }

  /** Whatever is delivered, only a request can make an instance fall. */
  lemma StepClimbs(sys: System, ev: Event)
    requires SysInv(sys, Any) && AllEachOK(sys) && Enabled(sys, ev)
    ensures AllEachOK(After(sys, ev))
    ensures forall p :: p in sys.nodes && !(ev.Request? && ev.at == p) ==> Rises(sys.nodes[p].log, After(sys, ev).nodes[p].log)
  {
    hide SysInv, EachOK, Receive, OnRequest, OnTimer, Rises;
    forall p | p in sys.nodes ensures Rises(sys.nodes[p].log, sys.nodes[p].log) {
      RisesSelf(sys.nodes[p].log);
    }
    if !ev.Adversary? {
      var p := Actor(ev);
      var s := sys.nodes[p];
      Members(sys, p);
      match ev
      case Deliver(_, e) => ReceiveClimbs(s, e.from, e.body);
      case Request(_, cmd) => RequestOK(s, cmd);
      case Timer(_) => TimerClimbs(s);
    }
  }

  lemma RisesSelf(log: map<InstanceID, Slot<Command>>)
    ensures Rises(log, log)
  {
  }

  lemma TimerClimbs(s: Node)
    requires EachOK(s)
    ensures Climbs(s, OnTimer(s))
  {
    OrderingKeepsLog(s, InstanceID(0, 0));
    ClimbsSame(s, OnTimer(s));
  }

  lemma {:induction false} RunClimbs(sys: System, evs: seq<Event>)
    requires SysInv(sys, Any) && AllEachOK(sys) && ValidRun(sys, Any, evs)
    ensures SysInv(RunEnds(sys, Any, evs), Any) && AllEachOK(RunEnds(sys, Any, evs))
    decreases |evs|
  {
    hide SysInv, AllEachOK;
    if evs != [] {
      StepKeeps(sys, Any, evs[0]);
      StepClimbs(sys, evs[0]);
      RunClimbs(After(sys, evs[0]), evs[1..]);
    }
  }

  lemma ReachedEachOK(sys: System)
    requires Reached(sys, Any)
    ensures SysInv(sys, Any) && AllEachOK(sys)
  {
    hide SysInv, AllEachOK;
    var start, evs :| Start(start) && ValidRun(start, Any, evs) && RunEnds(start, Any, evs) == sys;
    StartInv(start, Any);
    assert AllEachOK(start) by { StartEachOK(start); }
    RunClimbs(start, evs);
  }

  lemma StartEachOK(sys: System)
    requires Start(sys)
    ensures AllEachOK(sys)
  {
  }

  /** In any run at all, a step moves an instance of a replica backwards if and only if it is a request at that
      replica, live, and its next id is already prepared or beyond. */
  lemma FallsIff(sys: System, ev: Event, p: PeerID)
    requires Reached(sys, Any) && Enabled(sys, ev) && p in sys.nodes
    ensures !Rises(sys.nodes[p].log, After(sys, ev).nodes[p].log) <==> ev.Request? && ev.at == p && Overtaken(sys.nodes[p])
  {
    hide Reached, SysInv, AllEachOK, Rises, Overtaken, Receive, OnRequest, OnTimer;
    ReachedEachOK(sys);
    StepClimbs(sys, ev);
    if ev.Request? && ev.at == p {
      Members(sys, p);
      RequestFallsIff(sys.nodes[p], ev.cmd);
    }
  }

  // ----- votes

  /** onRequest keeps the replica at one ballot on its id if and only if it has not voted on it, or has cast the
      very ballot that it now casts. */
  lemma OneBallotIff(s: Node, cmd: Command)
    requires !s.halted
    ensures var id := InstanceID(s.id, s.index);
      var own := if id in s.log then OwnBallot(s.log[id], s.id) else None;
      id in OnRequest(s, cmd).log
      && (BallotKept(Lookup(s.log, id), OnRequest(s, cmd).log[id], s.id) <==> own.None? || own == Some(Ballot(s.id, Some(Of(cmd)))))
  {
    RequestLog(s, cmd);
    hide OnRequest;
  }

  /** What peers hold of p's votes on id is the ballot b. */
  ghost predicate HeldAs(logs: Logs<InstanceID, Command>, p: PeerID, id: InstanceID, b: Ballot<Command>) {
    forall r, v: nat :: r in logs && r != p && id in logs[r] && Entry(logs[r][id].pCert, v, p).Some? ==> Entry(logs[r][id].pCert, v, p) == Some(b)
  }

  /** The layer invariant, on which agreement rests, outlives a request if and only if no correct replica holds
      another ballot of the requester on the id. */
  lemma LayerOutlivesIff(logs: Logs<InstanceID, Command>, f: nat, faulty: set<PeerID>, p: PeerID, id: InstanceID, cmd: Command)
    requires LayerOK(logs, f, faulty) && p in logs
    ensures LayerOK(Put(logs, p, id, OwnSlot(p, cmd, p, Of(cmd))), f, faulty) <==> HeldAs(logs, p, id, Ballot(p, Some(Of(cmd))))
  {
    var x, b := OwnSlot(p, cmd, p, Of(cmd)), Ballot(p, Some(Of(cmd)));
    var after := Put(logs, p, id, x);
    if LayerOK(after, f, faulty) {
      forall r, v: nat | r in logs && r != p && id in logs[r] && Entry(logs[r][id].pCert, v, p).Some?
        ensures Entry(logs[r][id].pCert, v, p) == Some(b)
      {
        assert after[r][id] == logs[r][id] && EntriesBacked(after, id, after[r][id]);
        assert Backed(after, id, p, Entry(logs[r][id].pCert, v, p).value);
      }
    }
    if HeldAs(logs, p, id, b) {
      assert after.Keys == logs.Keys && SlotOK(x, p, f);
      forall r, k | r in after && k in after[r]
        ensures SlotOK(after[r][k], r, f) && EntriesBacked(after, k, after[r][k])
          && (OwnBallot(after[r][k], r).Some? ==> OwnBallot(after[r][k], r).value.digest.Some?)
      {
        if (r, k) != (p, id) {
          OtherSlot(logs, f, faulty, p, id, x, r, k);
        }
      }
    }
  }

  lemma OtherSlot(logs: Logs<InstanceID, Command>, f: nat, faulty: set<PeerID>, p: PeerID, id: InstanceID, x: Slot<Command>, r: PeerID, k: InstanceID)
    requires LayerOK(logs, f, faulty) && p in logs && r in logs && k in logs[r] && (r, k) != (p, id)
    requires OwnBallot(x, p).Some? && HeldAs(logs, p, id, OwnBallot(x, p).value)
    ensures EntriesBacked(Put(logs, p, id, x), k, logs[r][k])
  {
    var after := Put(logs, p, id, x);
    assert EntriesBacked(logs, k, logs[r][k]);
    forall v: nat, t: PeerID | t in after && Entry(logs[r][k].pCert, v, t).Some?
      ensures Backed(after, k, t, Entry(logs[r][k].pCert, v, t).value)
    {
      assert Backed(logs, k, t, Entry(logs[r][k].pCert, v, t).value);
    }
  }
}
