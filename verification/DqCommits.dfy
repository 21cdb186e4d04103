/** Every committed or delivered slot of DQPBFT, in both layers, has a quorum of commits behind it. */
module DqCommits {
  import opened Quorums
  import opened Slots
  import opened SlotAgreement
  import opened SlotCommits
  import opened DqNode
  import opened DqExec
  import opened DqOrdering
  import opened DqReplication
  import opened DqRuns
  import opened DqSystem
  import opened DqStatus

  ghost predicate AllUpright<K, P(!new)>(m: map<K, Slot<P>>, f: nat, loose: bool) {
    forall k :: k in m ==> Upright(m[k], f, loose)
  }

  /** Committed slots have a digest. */
  ghost predicate Digested<K, P>(m: map<K, Slot<P>>) {
    forall k :: k in m && Rank(m[k].status) >= Rank(Committed) ==> m[k].digest.Some?
  }

  /** loose: nothing is assumed of the run, and a commit without a digest is not excluded in the replication layer. */
  ghost predicate CommitsOK(s: Node, loose: bool) {
    AllUpright(s.log, s.f, loose) && AllUpright(s.olog, s.f, false)
  }

  ghost predicate DigestsOK(s: Node, loose: bool) {
    (!loose ==> Digested(s.log)) && Digested(s.olog)
  }

  lemma SameLogsOK(s: Node, t: Node, loose: bool)
    requires CommitsOK(s, loose) && t.log == s.log && t.olog == s.olog && t.f == s.f
    ensures CommitsOK(t, loose)
  {
  }

  lemma PutLog(s: Node, k: InstanceID, x: Slot<Command>, loose: bool)
    requires CommitsOK(s, loose) && Upright(x, s.f, loose)
    ensures CommitsOK(s.(log := s.log[k := x]), loose)
  {
    hide Upright;
  }

  lemma PutOlog(s: Node, i: nat, x: Slot<Batch>, loose: bool)
    requires CommitsOK(s, loose) && Upright(x, s.f, false)
    ensures CommitsOK(s.(olog := s.olog[i := x]), loose)
  {
    hide Upright;
  }

  // ----- exec

  lemma DeliverOneUpright(s: Node, id: InstanceID, loose: bool)
    requires CommitsOK(s, loose) && id in s.log && s.log[id].payload.Some? && Rank(s.log[id].status) >= Rank(Committed)
    ensures CommitsOK(DeliverOne(s, id), loose)
  {
    var t := s.(log := s.log[id := s.log[id].(payload := None, status := Executed)]);
    assert Upright(s.log[id], s.f, loose);
    assert Upright(t.log[id], s.f, loose) by { hide Backers; }
    hide Upright, CommitsOK;
    PutLog(s, id, t.log[id], loose);
    SameLogsOK(t, DeliverOne(s, id), loose);
  }

  lemma {:induction false} DeliverAllUpright(s: Node, ids: Batch, loose: bool)
    requires CommitsOK(s, loose) && AllCommitted(s.log, ids)
    ensures CommitsOK(DeliverAll(s, ids), loose)
    decreases |ids|
  {
    if ids != [] && ids[0] in s.log && s.log[ids[0]].payload.Some? {
      DeliverOneUpright(s, ids[0], loose);
      assert forall i :: 0 <= i < |ids[1..]| ==> ids[1..][i] == ids[i + 1];
      assert AllCommitted(DeliverOne(s, ids[0]).log, ids[1..]);
      hide CommitsOK, DeliverOne, AllCommitted;
      DeliverAllUpright(DeliverOne(s, ids[0]), ids[1..], loose);
    } else {
      hide AllUpright;
    }
  }

  lemma DeliverSlotUpright(s: Node, loose: bool)
    requires CommitsOK(s, loose) && CanDeliver(s)
    ensures CommitsOK(DeliverSlot(s), loose)
  {
    var ids, i := Ids(s.olog[s.nextODeliver].payload), s.nextODeliver;
    var t := DeliverAll(s, ids);
    DeliverAllUpright(s, ids, loose);
    DeliverAllFrame(s, ids);
    hide DeliverAll;
    if !t.halted {
      assert Upright(s.olog[i], s.f, false);
      assert Upright(s.olog[i].(status := Executed), s.f, false) by { hide Backers; }
      hide CommitsOK, Upright;
      PutOlog(t, i, s.olog[i].(status := Executed), loose);
      SameLogsOK(t.(olog := t.olog[i := s.olog[i].(status := Executed)]), DeliverSlot(s), loose);
    }
  }

  lemma {:induction false} ExecUpright(s: Node, loose: bool)
    requires CommitsOK(s, loose)
    ensures CommitsOK(Exec(s), loose)
    decreases |CommittedSlots(s.olog)|
  {
    if !s.halted && CanDeliver(s) {
      DeliverSlotUpright(s, loose);
      DeliverAllFrame(s, Ids(s.olog[s.nextODeliver].payload));
      hide CommitsOK, DeliverAll;
      if !DeliverSlot(s).halted {
        SlotConsumed(s.olog, s.nextODeliver);
        ExecUpright(DeliverSlot(s), loose);
      }
    }
  }

  // ----- the handlers

  lemma FinishUpright(s: Node, key: InstanceID, r: Outcome<Command>, loose: bool)
    requires CommitsOK(s, loose) && (r.Next? ==> Upright(r.slot, s.f, loose))
    ensures CommitsOK(Finish(s, key, r), loose)
  {
    hide CommitsOK, Upright, Exec;
    SameLogsOK(s, s.(halted := true), loose);
    if r.Next? {
      var t := s.(log := s.log[key := r.slot], msgs := s.msgs + AsReplication(Sent(key, r)));
      PutLog(s, key, r.slot, loose);
      SameLogsOK(s.(log := s.log[key := r.slot]), t, loose);
      ExecUpright(t, loose);
    }
  }

  lemma OFinishUpright(s: Node, i: nat, r: Outcome<Batch>, loose: bool)
    requires CommitsOK(s, loose) && (r.Next? ==> Upright(r.slot, s.f, false))
    ensures CommitsOK(OFinish(s, i, r), loose)
  {
    hide CommitsOK, Upright, Exec;
    SameLogsOK(s, s.(halted := true), loose);
    if r.Next? {
      var t := s.(olog := s.olog[i := r.slot], msgs := s.msgs + AsOrdering(Sent(i, r)));
      PutOlog(s, i, r.slot, loose);
      SameLogsOK(s.(olog := s.olog[i := r.slot]), t, loose);
      ExecUpright(t, loose);
    }
  }

  lemma OwnUpright<P(!new)>(view: nat, payload: P, self: PeerID, digest: Digest<P>, f: nat, loose: bool)
    ensures Upright(OwnSlot(view, payload, self, digest), f, loose)
  {
  }

  lemma SendUpright(s: Node, loose: bool)
    requires CommitsOK(s, loose)
    ensures CommitsOK(SendCRequest(s), loose)
  {
    hide CommitsOK, Upright, OwnSlot;
    OwnUpright(s.id, s.cReqBuffer, s.id, Of(s.cReqBuffer), s.f, false);
    var t := s.(olog := s.olog[s.oindex := OwnSlot(s.id, s.cReqBuffer, s.id, Of(s.cReqBuffer))]);
    PutOlog(s, s.oindex, t.olog[s.oindex], loose);
    if s.id == OLeader(s) && s.cReqBuffer != [] {
      SameLogsOK(t, SendCRequest(s), loose);
    }
  }

  lemma CRequestUpright(s: Node, id: InstanceID, loose: bool)
    requires CommitsOK(s, loose)
    ensures CommitsOK(OnCRequest(s, id), loose)
  {
    hide CommitsOK, SendCRequest;
    var t := s.(cReqBuffer := s.cReqBuffer + [id]);
    SameLogsOK(s, t, loose);
    SendUpright(t, loose);
  }

  lemma RequestUpright(s: Node, cmd: Command, loose: bool)
    requires CommitsOK(s, loose)
    ensures CommitsOK(OnRequest(s, cmd), loose)
  {
    hide CommitsOK, Upright, OwnSlot, OnCRequest;
    var id := InstanceID(s.id, s.index);
    var x := OwnSlot(s.id, cmd, s.id, Of(cmd));
    var t := s.(index := s.index + 1, log := s.log[id := x], msgs := s.msgs + [Replication(Msg(PrePrepareMsg, s.id, id, Some(cmd), None))]);
    OwnUpright(s.id, cmd, s.id, Of(cmd), s.f, loose);
    PutLog(s, id, x, loose);
    SameLogsOK(s.(log := s.log[id := x]), t, loose);
    CRequestUpright(t, id, loose);
  }

  lemma Held<K, P(!new)>(m: map<K, Slot<P>>, k: K, f: nat, loose: bool)
    requires AllUpright(m, f, loose) && (!loose ==> Digested(m))
    ensures var was := Lookup(m, k);
      was.Some? ==> Upright(was.value, f, loose) && (Rank(was.value.status) >= Rank(Committed) ==> loose || was.value.digest.Some?)
  {
    hide Upright;
  }

  /** The three slot handlers keep a slot upright, in either layer. */
  lemma SlotsUpright<P(!new)>(was: Option<Slot<P>>, same: (P, P) -> bool, self: PeerID, f: nat, from: PeerID, view: nat,
                              payload: Option<P>, d: Digest<P>, digest: Option<Digest<P>>, loose: bool)
    requires was.Some? ==> Upright(was.value, f, loose) && (Rank(was.value.status) >= Rank(Committed) ==> loose || was.value.digest.Some?)
    ensures var r := PrePrepareSlot(was, same, self, f, from, view, payload, d); r.Next? ==> Upright(r.slot, f, loose)
    ensures var r := PrepareSlot(was, self, f, from, view, payload, digest); r.Next? ==> Upright(r.slot, f, loose)
    ensures var r := CommitSlot(was, f, from, view, payload, digest); r.Next? ==> Upright(r.slot, f, loose)
  {
    hide PrePrepareSlot, PrepareSlot, CommitSlot, Upright, Commits;
    var x := PrePrepareSlot(was, same, self, f, from, view, payload, d);
    if x.Next? {
      PrePrepareIff(was, same, self, f, from, view, payload, d);
      UprightStays(was, x.slot, f, loose);
    }
    var y := PrepareSlot(was, self, f, from, view, payload, digest);
    if y.Next? {
      PrepareIff(was, self, f, from, view, payload, digest);
      UprightStays(was, y.slot, f, loose);
    }
    var z := CommitSlot(was, f, from, view, payload, digest);
    if z.Next? {
      CommitIff(was, f, from, view, payload, digest);
      UprightStays(was, z.slot, f, loose);
    }
  }

  lemma ReplicationUpright(s: Node, from: PeerID, m: Msg<InstanceID, Command>, loose: bool)
    requires CommitsOK(s, loose) && DigestsOK(s, loose)
    ensures CommitsOK(Receive(s, from, Replication(m)), loose)
  {
    var t := if m.kind == PrePrepareMsg && s.id == OLeader(s) then OnCRequest(s, m.key) else s;
    CRequestUpright(s, m.key, loose);
    OrderingKeepsLog(s, m.key);
    Held(s.log, m.key, s.f, loose);
    hide CommitsOK, DigestsOK, Upright, Finish, OnCRequest, PrePrepareSlot, PrepareSlot, CommitSlot;
    SameLogsOK(t, t.(halted := true), loose);
    SlotsUpright(Lookup(s.log, m.key), SameCommand, s.id, s.f, from, m.view, m.payload,
                 if m.payload.Some? then Of(m.payload.value) else Junk(0), m.digest, loose);
    match m.kind
    case PrePrepareMsg =>
      if m.payload.Some? {
        FinishUpright(t, m.key, PrePrepareSlot(Lookup(s.log, m.key), SameCommand, s.id, s.f, from, m.view, m.payload, Of(m.payload.value)), loose);
      }
    case PrepareMsg => FinishUpright(s, m.key, PrepareSlot(Lookup(s.log, m.key), s.id, s.f, from, m.view, m.payload, m.digest), loose);
    case CommitMsg => FinishUpright(s, m.key, CommitSlot(Lookup(s.log, m.key), s.f, from, m.view, m.payload, m.digest), loose);
  }

  lemma OrderingUpright(s: Node, from: PeerID, m: Msg<nat, Batch>, loose: bool)
    requires CommitsOK(s, loose) && DigestsOK(s, loose)
    ensures CommitsOK(Receive(s, from, Ordering(m)), loose)
  {
    Held(s.olog, m.key, s.f, false);
    hide CommitsOK, DigestsOK, Upright, OFinish, PrePrepareSlot, PrepareSlot, CommitSlot, Wire;
    SameLogsOK(s, s.(halted := true), loose);
    var was, ids := Lookup(s.olog, m.key), Ids(m.payload);
    SlotsUpright(was, SameBatch, s.id, s.f, from, m.view, Wire(ids), Of(ids), m.digest, false);
    match m.kind
    case PrePrepareMsg => OFinishUpright(s, m.key, PrePrepareSlot(was, SameBatch, s.id, s.f, from, m.view, Wire(ids), Of(ids)), loose);
    case PrepareMsg => OFinishUpright(s, m.key, PrepareSlot(was, s.id, s.f, from, m.view, Wire(ids), m.digest), loose);
    case CommitMsg => OFinishUpright(s, m.key, CommitSlot(was, s.f, from, m.view, Wire(ids), m.digest), loose);
  }

  // ----- runs

  ghost predicate SysCommits(sys: System, g: Regime) {
    forall p :: p in sys.nodes ==> CommitsOK(sys.nodes[p], g.Any?)
  }

  lemma DigestsOf(sys: System, g: Regime, p: PeerID)
    requires SysInv(sys, g) && p in sys.nodes
    ensures DigestsOK(sys.nodes[p], g.Any?)
  {
    hide SysInv, LayerOK, Led, OrderOK, DeliveryOK;
    OLayerOf(sys, g, p);
    LayerDigested(OLogs(sys), sys.f, sys.faulty, p);
    if g != Any {
      CLayerOf(sys, g, p);
      LayerDigested(CLogs(sys), sys.f, sys.faulty, p);
    }
  }

  lemma LayerDigested<K, P(!new)>(logs: Logs<K, P>, f: nat, faulty: set<PeerID>, p: PeerID)
    requires LayerOK(logs, f, faulty) && p in logs
    ensures Digested(logs[p])
  {
    forall k | k in logs[p] && Rank(logs[p][k].status) >= Rank(Committed) ensures logs[p][k].digest.Some? {
      var q, b := PreparedQuorum(logs, f, faulty, k, p);
    }
  }

  lemma StepCommits(sys: System, g: Regime, ev: Event)
    requires SysInv(sys, g) && SysCommits(sys, g) && Enabled(sys, ev)
    ensures SysCommits(After(sys, ev), g)
  {
    hide SysInv, CommitsOK, DigestsOK, OnRequest, SendCRequest, OnPrePrepare, OnPrepare, OnCommit, OnOPrePrepare, OnOPrepare, OnOCommit;
    if !ev.Adversary? {
      var s := sys.nodes[Actor(ev)];
      DigestsOf(sys, g, Actor(ev));
      match ev
      case Deliver(_, e) =>
        match e.body {
          case Replication(m) => ReplicationUpright(s, e.from, m, g.Any?);
          case Ordering(m) => OrderingUpright(s, e.from, m, g.Any?);
        }
      case Request(_, cmd) => RequestUpright(s, cmd, g.Any?);
      case Timer(_) => SendUpright(s, g.Any?);
    }
  }

  lemma {:induction false} RunCommits(sys: System, g: Regime, evs: seq<Event>)
    requires SysInv(sys, g) && SysCommits(sys, g) && ValidRun(sys, g, evs)
    ensures SysCommits(RunEnds(sys, g, evs), g)
    decreases |evs|
  {
    hide SysInv, SysCommits;
    if evs != [] {
      StepKeeps(sys, g, evs[0]);
      StepCommits(sys, g, evs[0]);
      RunCommits(After(sys, evs[0]), g, evs[1..]);
    }
  }

  lemma StartCommits(sys: System, g: Regime)
    requires Start(sys)
    ensures SysCommits(sys, g)
  {
  }

  lemma ReachedCommits(sys: System, g: Regime)
    requires Reached(sys, g)
    ensures SysInv(sys, g) && SysCommits(sys, g)
  {
    hide SysInv, SysCommits, Start;
    var start, evs :| Start(start) && ValidRun(start, g, evs) && RunEnds(start, g, evs) == sys;
    StartInv(start, g);
    StartCommits(start, g);
    RunCommits(start, g, evs);
    RunKeeps(start, g, evs);
  }

  /** In any run at all, a committed or executed ordering slot has more than 2f equal commits for its digest. */
  lemma OrderingCommitted(sys: System, g: Regime, p: PeerID, i: nat)
    requires Reached(sys, g) && p in sys.nodes && i in sys.nodes[p].olog && Rank(sys.nodes[p].olog[i].status) >= Rank(Committed)
    ensures var x := sys.nodes[p].olog[i];
      x.digest.Some? && exists b: Ballot<Batch> :: b.digest == x.digest && |Backers(x.cCert, b)| > 2 * sys.nodes[p].f
  {
    hide SysInv, Reached;
    ReachedCommits(sys, g);
    DigestsOf(sys, g, p);
    var x := sys.nodes[p].olog[i];
    assert Upright(x, sys.nodes[p].f, false);
  }

  /** So has a committed or executed instance; where nothing is assumed of the run, the commits may have no digest. */
  lemma InstanceCommitted(sys: System, g: Regime, p: PeerID, id: InstanceID)
    requires Reached(sys, g) && p in sys.nodes && id in sys.nodes[p].log && Rank(sys.nodes[p].log[id].status) >= Rank(Committed)
    ensures var x := sys.nodes[p].log[id];
      (g != Any ==> x.digest.Some?)
      && exists b: Ballot<Command> :: (b.digest == x.digest || (g == Any && b.digest.None?)) && |Backers(x.cCert, b)| > 2 * sys.nodes[p].f
  {
    hide SysInv, Reached;
    ReachedCommits(sys, g);
    DigestsOf(sys, g, p);
    var x := sys.nodes[p].log[id];
    assert Upright(x, sys.nodes[p].f, g.Any?);
  }
}
