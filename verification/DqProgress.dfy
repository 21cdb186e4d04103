/** What DQPBFT does not put off: a live replica has delivered every ordering slot that it can deliver, a leader's
    buffer stays below the batch size, and deliveries are tallied by owner. */
module DqProgress {
  import opened Quorums
  import opened Slots
  import opened SlotAgreement
  import opened DqNode
  import opened DqSystem
  import DqRuns
  import DqOrdering

  type System = DqOrdering.System

  // ----- deliveries

  /** exec would not go on. */
  ghost predicate Drained(s: Node) {
    s.halted || !CanDeliver(s)
  }

  lemma {:induction false} ExecDrains(s: Node)
    ensures Drained(Exec(s))
    decreases |CommittedSlots(s.olog)|
  {
    hide Ready, DeliverAll;
    if !s.halted && CanDeliver(s) && !DeliverSlot(s).halted {
      DeliverAllFrame(s, Ids(s.olog[s.nextODeliver].payload));
      SlotConsumed(s.olog, s.nextODeliver);
      ExecDrains(DeliverSlot(s));
    }
  }

  /** A slot that a step has not committed is not committed, or was and holds the same payload. */
  predicate Quiet<P(==)>(was: Option<Slot<P>>, r: Outcome<P>) {
    r.Next? && !r.committed && r.slot.status == Committed ==> was.Some? && was.value.status == Committed && r.slot.payload == was.value.payload
  }

  lemma SlotsQuiet<P(!new)>(was: Option<Slot<P>>, same: (P, P) -> bool, self: PeerID, f: nat, from: PeerID, view: nat,
                      payload: Option<P>, d: Digest<P>, digest: Option<Digest<P>>)
    ensures Quiet(was, PrePrepareSlot(was, same, self, f, from, view, payload, d))
    ensures Quiet(was, PrepareSlot(was, self, f, from, view, payload, digest))
    ensures Quiet(was, CommitSlot(was, f, from, view, payload, digest))
  {
    hide Majority, Log;
  }

  lemma FinishDrains(s: Node, key: InstanceID, r: Outcome<Command>)
    requires Drained(s) && Quiet(Lookup(s.log, key), r)
    ensures Drained(Finish(s, key, r))
  {
    hide Exec;
    if r.Next? {
      ExecDrains(s.(log := s.log[key := r.slot], msgs := s.msgs + AsReplication(Sent(key, r))));
    }
  }

  lemma OFinishDrains(s: Node, key: nat, r: Outcome<Batch>)
    requires Drained(s) && Quiet(Lookup(s.olog, key), r)
    ensures Drained(OFinish(s, key, r))
  {
    hide Exec;
    if r.Next? {
      ExecDrains(s.(olog := s.olog[key := r.slot], msgs := s.msgs + AsOrdering(Sent(key, r))));
    }
  }

  lemma SendDrains(s: Node)
    requires Drained(s)
    ensures Drained(SendCRequest(s))
  {
  }

  lemma CRequestDrains(s: Node, id: InstanceID)
    requires Drained(s)
    ensures Drained(OnCRequest(s, id)) && OnCRequest(s, id).log == s.log
  {
    hide SendCRequest, Drained;
    var t := s.(cReqBuffer := s.cReqBuffer + [id]);
    assert Drained(t) by { SameDrains(s, t); }
    SendDrains(t);
    SendLog(t);
  }

  lemma SameDrains(s: Node, t: Node)
    requires Drained(s) && t.log == s.log && t.olog == s.olog && t.nextODeliver == s.nextODeliver && (s.halted ==> t.halted)
    ensures Drained(t)
  {
  }

  lemma SendLog(s: Node)
    ensures SendCRequest(s).log == s.log
  {
  }

  lemma RequestDrains(s: Node, cmd: Command)
    requires Drained(s)
    ensures Drained(OnRequest(s, cmd))
  {
    hide OnCRequest;
    if !s.halted {
      var id := InstanceID(s.id, s.index);
      var t := s.(index := s.index + 1, log := s.log[id := OwnSlot(s.id, cmd, s.id, Of(cmd))],
                  msgs := s.msgs + [Replication(Msg(PrePrepareMsg, s.id, id, Some(cmd), None))]);
      assert Drained(t);
      CRequestDrains(t, id);
    }
  }

  lemma ReplicationDrains(s: Node, from: PeerID, m: Msg<InstanceID, Command>)
    requires Drained(s)
    ensures Drained(Receive(s, from, Replication(m)))
  {
    var t := if m.kind == PrePrepareMsg && s.id == OLeader(s) then OnCRequest(s, m.key) else s;
    CRequestDrains(s, m.key);
    hide Drained, Quiet, Finish, OnCRequest, PrePrepareSlot, PrepareSlot, CommitSlot;
    SameDrains(t, t.(halted := true));
    var was := Lookup(s.log, m.key);
    SlotsQuiet(was, SameCommand, s.id, s.f, from, m.view, m.payload, if m.payload.Some? then Of(m.payload.value) else Junk(0), m.digest);
    match m.kind
    case PrePrepareMsg =>
      if m.payload.Some? {
        FinishDrains(t, m.key, PrePrepareSlot(was, SameCommand, s.id, s.f, from, m.view, m.payload, Of(m.payload.value)));
      }
    case PrepareMsg => FinishDrains(s, m.key, PrepareSlot(was, s.id, s.f, from, m.view, m.payload, m.digest));
    case CommitMsg => FinishDrains(s, m.key, CommitSlot(was, s.f, from, m.view, m.payload, m.digest));
  }

  lemma OrderingDrains(s: Node, from: PeerID, m: Msg<nat, Batch>)
    requires Drained(s)
    ensures Drained(Receive(s, from, Ordering(m)))
  {
    hide Drained, Quiet, OFinish, PrePrepareSlot, PrepareSlot, CommitSlot, Wire;
    SameDrains(s, s.(halted := true));
    var was, ids := Lookup(s.olog, m.key), Ids(m.payload);
    SlotsQuiet(was, SameBatch, s.id, s.f, from, m.view, Wire(ids), Of(ids), m.digest);
    match m.kind
    case PrePrepareMsg => OFinishDrains(s, m.key, PrePrepareSlot(was, SameBatch, s.id, s.f, from, m.view, Wire(ids), Of(ids)));
    case PrepareMsg => OFinishDrains(s, m.key, PrepareSlot(was, s.id, s.f, from, m.view, Wire(ids), m.digest));
    case CommitMsg => OFinishDrains(s, m.key, CommitSlot(was, s.f, from, m.view, Wire(ids), m.digest));
  }

  // ----- batches

  /** An id more for the leader: it is buffered behind the others, and they are ordered once they are enough. */
  lemma CollectsIff(s: Node, id: InstanceID)
    requires s.id == OLeader(s)
    ensures var t, ids := OnCRequest(s, id), s.cReqBuffer + [id];
      && t.log == s.log && t.oBatchSize == s.oBatchSize
      && (|ids| >= s.oBatchSize <==> t.cReqBuffer == [])
      && (if |ids| >= s.oBatchSize
          then t.oindex == s.oindex + 1 && s.oindex in t.olog && t.olog[s.oindex].payload == Some(ids)
               && t.msgs == s.msgs + [Ordering(Msg(PrePrepareMsg, s.id, s.oindex, Some(ids), None))]
          else t == s.(cReqBuffer := ids))
  {
  }

  /** The batch timer orders what the leader has buffered, however little, as the next slot. */
  lemma TimerOrders(s: Node)
    requires !s.halted
    ensures var t := OnTimer(s);
      if s.id == OLeader(s) && s.cReqBuffer != []
      then t.cReqBuffer == [] && t.oindex == s.oindex + 1 && s.oindex in t.olog && t.olog[s.oindex].payload == Some(s.cReqBuffer)
           && t.msgs == s.msgs + [Ordering(Msg(PrePrepareMsg, s.id, s.oindex, Some(s.cReqBuffer), None))]
      else t == s
  {
  }

  /** A pre-prepare without a command ends the replica, after the leader has noted the id. */
  lemma NeedsCommand(s: Node, from: PeerID, m: Msg<InstanceID, Command>)
    requires m.payload.None?
    ensures OnPrePrepare(s, from, m).halted && OnPrePrepare(s, from, m).log == s.log
  {
    CRequestLog(s, m.key);
  }

  lemma CRequestLog(s: Node, id: InstanceID)
    ensures OnCRequest(s, id).log == s.log
  {
  }

  ghost predicate BufferSmall(s: Node) {
    s.cReqBuffer == [] || (s.id == OLeader(s) && |s.cReqBuffer| < s.oBatchSize)
  }

  /** Deliveries of ids of this owner. */
  function Tally(ds: seq<Delivery>, owner: PeerID): nat {
    if ds == [] then 0 else Tally(ds[..|ds| - 1], owner) + if ds[|ds| - 1].id.replica == owner then 1 else 0
  }

  function NextOf(s: Node, owner: PeerID): nat {
    if owner in s.nextDeliver then s.nextDeliver[owner] else 0
  }

  ghost predicate Tallied(s: Node) {
    forall owner: PeerID :: NextOf(s, owner) == Tally(s.delivered, owner)
  }

  ghost predicate Tidy(s: Node) {
    BufferSmall(s) && Tallied(s)
  }

  lemma TidySame(s: Node, t: Node)
    requires Tidy(s) && t.delivered == s.delivered && t.nextDeliver == s.nextDeliver
    requires t.id == s.id && t.f == s.f && t.oview == s.oview && t.oBatchSize == s.oBatchSize && t.cReqBuffer == s.cReqBuffer
    ensures Tidy(t)
  {
    forall owner: PeerID ensures NextOf(t, owner) == Tally(t.delivered, owner) {
      assert NextOf(s, owner) == Tally(s.delivered, owner);
    }
  }

  lemma {:induction false} DeliverAllTidy(s: Node, ids: Batch)
    requires Tidy(s)
    ensures Tidy(DeliverAll(s, ids))
    decreases |ids|
  {
    hide Tally;
    if ids != [] {
      if ids[0] !in s.log || s.log[ids[0]].payload.None? {
        TidySame(s, s.(halted := true));
      } else {
        var t := DeliverOne(s, ids[0]);
        forall owner: PeerID ensures NextOf(t, owner) == Tally(t.delivered, owner) {
          TallyMore(s.delivered, t.delivered[|s.delivered|], owner);
        }
        hide DeliverOne, Tallied;
        DeliverAllTidy(t, ids[1..]);
      }
    }
  }

  lemma TallyMore(ds: seq<Delivery>, d: Delivery, owner: PeerID)
    ensures Tally(ds + [d], owner) == Tally(ds, owner) + if d.id.replica == owner then 1 else 0
  {
    assert (ds + [d])[..|ds|] == ds;
  }

  lemma {:induction false} ExecTidy(s: Node)
    requires Tidy(s)
    ensures Tidy(Exec(s))
    decreases |CommittedSlots(s.olog)|
  {
    hide Ready, DeliverAll, Tidy;
    if !s.halted && CanDeliver(s) {
      var t := DeliverSlot(s);
      SlotTidy(s);
      if !t.halted {
        Consumed(s);
        ExecTidy(t);
      }
    }
  }

  lemma Consumed(s: Node)
    requires CanDeliver(s) && !DeliverSlot(s).halted
    ensures |CommittedSlots(DeliverSlot(s).olog)| < |CommittedSlots(s.olog)|
  {
    hide DeliverAll;
    DeliverAllFrame(s, Ids(s.olog[s.nextODeliver].payload));
    SlotConsumed(s.olog, s.nextODeliver);
  }

  lemma SlotTidy(s: Node)
    requires Tidy(s) && s.nextODeliver in s.olog
    ensures Tidy(DeliverSlot(s))
  {
    hide DeliverAll, Tidy;
    var t := DeliverAll(s, Ids(s.olog[s.nextODeliver].payload));
    DeliverAllTidy(s, Ids(s.olog[s.nextODeliver].payload));
    TidySame(t, DeliverSlot(s));
  }

  lemma FinishTidy(s: Node, key: InstanceID, r: Outcome<Command>)
    requires Tidy(s)
    ensures Tidy(Finish(s, key, r))
  {
    hide Exec, Tidy;
    TidySame(s, s.(halted := true));
    if r.Next? {
      var t := s.(log := s.log[key := r.slot], msgs := s.msgs + AsReplication(Sent(key, r)));
      TidySame(s, t);
      ExecTidy(t);
    }
  }

  lemma OFinishTidy(s: Node, key: nat, r: Outcome<Batch>)
    requires Tidy(s)
    ensures Tidy(OFinish(s, key, r))
  {
    hide Exec, Tidy;
    TidySame(s, s.(halted := true));
    if r.Next? {
      var t := s.(olog := s.olog[key := r.slot], msgs := s.msgs + AsOrdering(Sent(key, r)));
      TidySame(s, t);
      ExecTidy(t);
    }
  }

  lemma SendTidy(s: Node)
    requires Tidy(s) || (Tallied(s) && s.id == OLeader(s))
    ensures Tidy(SendCRequest(s))
  {
    var t := SendCRequest(s);
    hide Tally;
    forall owner: PeerID ensures NextOf(t, owner) == Tally(t.delivered, owner) {
      assert NextOf(s, owner) == Tally(s.delivered, owner);
    }
  }

  lemma CRequestTidy(s: Node, id: InstanceID)
    requires Tidy(s)
    ensures Tidy(OnCRequest(s, id))
  {
    hide SendCRequest, Tally;
    var t := s.(cReqBuffer := s.cReqBuffer + [id]);
    forall owner: PeerID ensures NextOf(t, owner) == Tally(t.delivered, owner) {
      assert NextOf(s, owner) == Tally(s.delivered, owner);
    }
    if s.id == OLeader(s) {
      SendTidy(t);
    }
  }

  lemma RequestTidy(s: Node, cmd: Command)
    requires Tidy(s)
    ensures Tidy(OnRequest(s, cmd))
  {
    hide OnCRequest, Tidy, OwnSlot;
    var id := InstanceID(s.id, s.index);
    var t := s.(index := s.index + 1, log := s.log[id := OwnSlot(s.id, cmd, s.id, Of(cmd))],
                msgs := s.msgs + [Replication(Msg(PrePrepareMsg, s.id, id, Some(cmd), None))]);
    TidySame(s, t);
    CRequestTidy(t, id);
  }

  lemma ReceiveTidy(s: Node, from: PeerID, b: Body)
    requires Tidy(s)
    ensures Tidy(Receive(s, from, b))
  {
    hide Tidy, Finish, OFinish, OnCRequest, PrePrepareSlot, PrepareSlot, CommitSlot, Wire;
    TidySame(s, s.(halted := true));
    forall key: InstanceID, r: Outcome<Command> ensures Tidy(Finish(s, key, r)) {
      FinishTidy(s, key, r);
    }
    forall key: nat, r: Outcome<Batch> ensures Tidy(OFinish(s, key, r)) {
      OFinishTidy(s, key, r);
    }
    if b.Replication? && b.r.kind == PrePrepareMsg {
      var t := if s.id == OLeader(s) then OnCRequest(s, b.r.key) else s;
      CRequestTidy(s, b.r.key);
      TidySame(t, t.(halted := true));
      forall r: Outcome<Command> ensures Tidy(Finish(t, b.r.key, r)) {
        FinishTidy(t, b.r.key, r);
      }
    }
  }

  // ----- runs

  ghost predicate SysTidy(sys: System) {
    forall p :: p in sys.nodes ==> Tidy(sys.nodes[p]) && Drained(sys.nodes[p])
  }

  lemma StepTidy(sys: System, ev: Event)
    requires SysTidy(sys) && Enabled(sys, ev)
    ensures SysTidy(After(sys, ev))
  {
    hide Tidy, Drained, OnRequest, Receive, SendCRequest;
    if !ev.Adversary? {
      var s := sys.nodes[Actor(ev)];
      match ev
      case Deliver(_, e) =>
        ReceiveTidy(s, e.from, e.body);
        if e.body.Replication? {
          ReplicationDrains(s, e.from, e.body.r);
        } else {
          OrderingDrains(s, e.from, e.body.o);
        }
      case Request(_, cmd) =>
        RequestTidy(s, cmd);
        RequestDrains(s, cmd);
      case Timer(_) =>
        SendTidy(s);
        SendDrains(s);
    }
  }

  lemma {:induction false} RunTidy(sys: System, g: DqRuns.Regime, evs: seq<Event>)
    requires SysTidy(sys) && ValidRun(sys, g, evs)
    ensures SysTidy(RunEnds(sys, g, evs))
    decreases |evs|
  {
    hide SysTidy, After;
    if evs != [] {
      StepTidy(sys, evs[0]);
      RunTidy(After(sys, evs[0]), g, evs[1..]);
    }
  }

  lemma StartTidy(sys: System)
    requires Start(sys)
    ensures SysTidy(sys)
  {
  }

  lemma ReachedTidy(sys: System, g: DqRuns.Regime, p: PeerID)
    requires Reached(sys, g) && p in sys.nodes
    ensures Tidy(sys.nodes[p]) && Drained(sys.nodes[p])
  {
    hide SysTidy, Start, ValidRun, RunEnds;
    var start, evs :| Start(start) && ValidRun(start, g, evs) && RunEnds(start, g, evs) == sys;
    StartTidy(start);
    RunTidy(start, g, evs);
    assert SysTidy(sys);
    TidyOf(sys, p);
  }

  lemma TidyOf(sys: System, p: PeerID)
    requires SysTidy(sys) && p in sys.nodes
    ensures Tidy(sys.nodes[p]) && Drained(sys.nodes[p])
  {
    hide Tidy, Drained;
  }

  /** In any run at all, a live replica has delivered all it can: its next ordering slot is not committed, or one
      of the slot's ids is not committed with its command. */
  lemma NothingHeldBack(sys: System, g: DqRuns.Regime, p: PeerID)
    requires Reached(sys, g) && p in sys.nodes && !sys.nodes[p].halted
    ensures var s := sys.nodes[p]; var n := s.nextODeliver;
      n in s.olog && s.olog[n].status == Committed ==>
        exists i :: 0 <= i < |Ids(s.olog[n].payload)| && var id := Ids(s.olog[n].payload)[i];
          !(id in s.log && s.log[id].status == Committed && s.log[id].payload.Some?)
  {
    hide Reached, Tidy;
    ReachedTidy(sys, g, p);
  }

  /** In any run at all, ids wait in the leader's buffer only as long as they do not fill a batch, and nextDeliver
      counts the deliveries of each owner. */
  lemma BufferAndTally(sys: System, g: DqRuns.Regime, p: PeerID, owner: PeerID)
    requires Reached(sys, g) && p in sys.nodes
    ensures var s := sys.nodes[p];
      && (s.cReqBuffer != [] ==> s.id == OLeader(s) && |s.cReqBuffer| < s.oBatchSize)
      && (if owner in s.nextDeliver then s.nextDeliver[owner] else 0) == Tally(s.delivered, owner)
  {
    hide Reached, Drained, Tally;
    ReachedTidy(sys, g, p);
    assert NextOf(sys.nodes[p], owner) == Tally(sys.nodes[p].delivered, owner);
  }
}
