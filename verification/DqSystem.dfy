/** Safety of DQPBFT over whole runs: replicas that halt, an adversary for the faulty ones, messages
    delivered in any order, more than once or never. */
module DqSystem {
  import opened Quorums
  import opened Slots
  import opened SlotAgreement
  import opened DqNode
  import opened DqExec
  import opened DqOrdering
  import opened DqReplication
  import opened DqRuns

  datatype Event =
    | Deliver(to: PeerID, e: Envelope)
    | Request(at: PeerID, cmd: Command)
    | Timer(at: PeerID)
    | Adversary(e: Envelope)

  predicate Enabled(sys: System, ev: Event) {
    match ev
    case Deliver(p, e) => p in sys.nodes && e in sys.net && e.from != p
    case Request(p, _) => p in sys.nodes
    case Timer(p) => p in sys.nodes
    case Adversary(e) => e.from in sys.faulty
  }

  predicate Allowed(sys: System, g: Regime, ev: Event)
    requires Enabled(sys, ev)
  {
    match g
    case Any => true
    case Fresh => ev.Request? && !sys.nodes[ev.at].halted ==> FreshId(sys.nodes[ev.at])
    case Owned => ev.Deliver? ==> FromOwner(ev.e.from, ev.e.body)
  }

  /** Replica p moves to state t; whatever t has sent is on the network. */
  function Moved(sys: System, p: PeerID, t: Node): System {
    sys.(nodes := sys.nodes[p := t], net := sys.net + (set i | 0 <= i < |t.msgs| :: Envelope(p, t.msgs[i])))
  }

  function After(sys: System, ev: Event): System
    requires Enabled(sys, ev)
  {
    match ev
    case Deliver(p, e) => Moved(sys, p, Receive(sys.nodes[p], e.from, e.body))
    case Request(p, cmd) => Moved(sys, p, OnRequest(sys.nodes[p], cmd))
    case Timer(p) => Moved(sys, p, OnTimer(sys.nodes[p]))
    case Adversary(e) => sys.(net := sys.net + {e})
  }

  predicate ValidRun(sys: System, g: Regime, evs: seq<Event>)
    decreases |evs|
  {
    evs == [] || (Enabled(sys, evs[0]) && Allowed(sys, g, evs[0]) && ValidRun(After(sys, evs[0]), g, evs[1..]))
  }

  function RunEnds(sys: System, g: Regime, evs: seq<Event>): System
    requires ValidRun(sys, g, evs)
    decreases |evs|
  {
    if evs == [] then sys else RunEnds(After(sys, evs[0]), g, evs[1..])
  }

  /** A cluster of 3f+1 replicas before anything happened. */
  ghost predicate Start(sys: System) {
    && sys.faulty <= Peers(sys.f) && |sys.faulty| <= sys.f
    && sys.nodes.Keys == Peers(sys.f) - sys.faulty && sys.net == {}
    && forall p :: p in sys.nodes ==> exists o :: sys.nodes[p] == Initial(sys.f, p, sys.oview, o)
  }

  // ----- the invariant

  ghost predicate NetOK(sys: System) {
    && (forall e :: e in sys.net ==> e.from in Peers(sys.f))
    && (forall p, i :: p in sys.nodes && 0 <= i < |sys.nodes[p].msgs| ==> Envelope(p, sys.nodes[p].msgs[i]) in sys.net)
  }

  ghost predicate SysInv(sys: System, g: Regime) {
    && sys.faulty <= Peers(sys.f) && sys.nodes.Keys == Peers(sys.f) - sys.faulty && NetOK(sys)
    && forall p :: p in sys.nodes ==> Inv(sys, g, p, sys.nodes[p])
  }

  /** One replica's part of the invariant, seen from another's. */
  lemma OtherO(sys: System, p: PeerID, t: Node, q: PeerID)
    requires OInv(sys, p, t) && p in sys.nodes && q in sys.nodes && OInv(sys, q, sys.nodes[q]) && q != p && NetOK(sys)
    ensures OInv(Moved(sys, p, t), q, sys.nodes[q])
  {
    var after := Moved(sys, p, t);
    hide OrderOK, LayerOK, Led;
    assert OLogs(after)[q := sys.nodes[q].olog] == OLogs(sys)[p := t.olog];
    var logs := OLogs(sys)[p := t.olog];
    forall e | e in after.net ensures OSentBacked(logs, e.from, e.body) {
    }
    forall i | 0 <= i < |sys.nodes[q].msgs| ensures OSentBacked(logs, q, sys.nodes[q].msgs[i]) {
      assert Envelope(q, sys.nodes[q].msgs[i]) in sys.net;
    }
  }

  lemma SelfO(sys: System, p: PeerID, t: Node)
    requires OInv(sys, p, t) && p in sys.nodes
    ensures OInv(Moved(sys, p, t), p, t)
  {
    var after := Moved(sys, p, t);
    hide OrderOK, LayerOK, Led;
    assert OLogs(after)[p := t.olog] == OLogs(sys)[p := t.olog];
    forall e | e in after.net ensures OSentBacked(OLogs(sys)[p := t.olog], e.from, e.body) {
    }
  }

  lemma OtherC(sys: System, owned: bool, p: PeerID, t: Node, q: PeerID)
    requires CInv(sys, owned, p, t) && p in sys.nodes && q in sys.nodes && CInv(sys, owned, q, sys.nodes[q]) && q != p && NetOK(sys)
    ensures CInv(Moved(sys, p, t), owned, q, sys.nodes[q])
  {
    var after := Moved(sys, p, t);
    hide DeliveryOK, Spent, OwnIds, LayerOK, Led;
    assert CLogs(after)[q := sys.nodes[q].log] == CLogs(sys)[p := t.log];
    var logs := CLogs(sys)[p := t.log];
    forall e | e in after.net ensures CSentBacked(logs, e.from, e.body) {
    }
    forall i | 0 <= i < |sys.nodes[q].msgs| ensures CSentBacked(logs, q, sys.nodes[q].msgs[i]) {
      assert Envelope(q, sys.nodes[q].msgs[i]) in sys.net;
    }
  }

  lemma SelfC(sys: System, owned: bool, p: PeerID, t: Node)
    requires CInv(sys, owned, p, t) && p in sys.nodes
    ensures CInv(Moved(sys, p, t), owned, p, t)
  {
    var after := Moved(sys, p, t);
    hide DeliveryOK, Spent, OwnIds, LayerOK, Led;
    assert CLogs(after)[p := t.log] == CLogs(sys)[p := t.log];
    forall e | e in after.net ensures CSentBacked(CLogs(sys)[p := t.log], e.from, e.body) {
    }
  }

  /** A move of one replica that keeps its own invariant keeps everybody's, if it forgets no message. */
  lemma MovedKeeps(sys: System, g: Regime, p: PeerID, t: Node)
    requires SysInv(sys, g) && p in sys.nodes && Inv(sys, g, p, t)
    ensures SysInv(Moved(sys, p, t), g)
  {
    var after := Moved(sys, p, t);
    hide OInv, CInv;
    assert p in Peers(sys.f);
    assert NetOK(after) by {
      hide Inv;
      forall q, i | q in after.nodes && 0 <= i < |after.nodes[q].msgs| ensures Envelope(q, after.nodes[q].msgs[i]) in after.net {
      }
    }
    forall q | q in after.nodes ensures Inv(after, g, q, after.nodes[q]) {
      if q == p {
        SelfO(sys, p, t);
        if g != Any {
          SelfC(sys, g.Owned?, p, t);
        }
      } else {
        assert Inv(sys, g, q, sys.nodes[q]);
        OtherO(sys, p, t, q);
        if g != Any {
          OtherC(sys, g.Owned?, p, t, q);
        }
      }
    }
  }

  lemma AdversaryKeeps(sys: System, g: Regime, e: Envelope)
    requires SysInv(sys, g) && e.from in sys.faulty
    ensures SysInv(sys.(net := sys.net + {e}), g)
  {
    var after := sys.(net := sys.net + {e});
    forall p | p in after.nodes ensures Inv(after, g, p, after.nodes[p]) {
      assert Inv(sys, g, p, sys.nodes[p]);
      AdversaryKeepsO(sys, p, e);
      if g != Any {
        AdversaryKeepsC(sys, g.Owned?, p, e);
      }
    }
  }

  lemma AdversaryKeepsO(sys: System, p: PeerID, e: Envelope)
    requires p in sys.nodes && OInv(sys, p, sys.nodes[p]) && sys.nodes.Keys == Peers(sys.f) - sys.faulty && e.from in sys.faulty
    ensures OInv(sys.(net := sys.net + {e}), p, sys.nodes[p])
  {
    hide OrderOK, LayerOK, Led;
    var after := sys.(net := sys.net + {e});
    assert OLogs(after) == OLogs(sys);
    assert e.from !in OLogs(sys)[p := sys.nodes[p].olog];
  }

  lemma AdversaryKeepsC(sys: System, owned: bool, p: PeerID, e: Envelope)
    requires p in sys.nodes && CInv(sys, owned, p, sys.nodes[p]) && sys.nodes.Keys == Peers(sys.f) - sys.faulty && e.from in sys.faulty
    ensures CInv(sys.(net := sys.net + {e}), owned, p, sys.nodes[p])
  {
  }

  lemma ReceiveGood(sys: System, g: Regime, p: PeerID, s: Node, e: Envelope)
    requires Inv(sys, g, p, s) && e in sys.net && e.from != p && e.from in Peers(sys.f) && (g.Owned? ==> FromOwner(e.from, e.body))
    ensures Good(sys, g, p, s, Receive(s, e.from, e.body))
  {
    hide Inv, OnPrePrepare, OnPrepare, OnCommit, OnOPrePrepare, OnOPrepare, OnOCommit, Good;
    if s.halted {
      GoodHalt(sys, g, p, s);
      assert s.(halted := true) == s;
    } else if e.body.Replication? {
      match e.body.r.kind
      case PrePrepareMsg => OnPrePrepareGood(sys, g, p, s, e.from, e.body.r);
      case PrepareMsg => OnPrepareGood(sys, g, p, s, e.from, e.body.r);
      case CommitMsg => OnCommitGood(sys, g, p, s, e.from, e.body.r);
    } else {
      match e.body.o.kind
      case PrePrepareMsg => OnOPrePrepareGood(sys, g, p, s, e.from, e.body.o);
      case PrepareMsg => OnOPrepareGood(sys, g, p, s, e.from, e.body.o);
      case CommitMsg => OnOCommitGood(sys, g, p, s, e.from, e.body.o);
    }
  }

  /** What a replica does in an event, for the replica concerned. */
  function Actor(ev: Event): PeerID
    requires !ev.Adversary?
  {
    if ev.Deliver? then ev.to else ev.at
  }

  lemma StepGood(sys: System, g: Regime, ev: Event)
    requires SysInv(sys, g) && Enabled(sys, ev) && Allowed(sys, g, ev) && !ev.Adversary?
    ensures var p := Actor(ev); Good(sys, g, p, sys.nodes[p], After(sys, ev).nodes[p])
  {
    var p := Actor(ev);
    var s := sys.nodes[p];
    assert Inv(sys, g, p, s);
    hide Inv, Good, Receive, OnRequest, SendCRequest;
    if ev.Deliver? {
      ReceiveGood(sys, g, p, s, ev.e);
    } else if s.halted {
      GoodHalt(sys, g, p, s);
      assert s.(halted := true) == s;
      assert After(sys, ev).nodes[p] == s by { HaltedStays(s, if ev.Request? then ev.cmd else Command(0, 0)); }
    } else if ev.Request? {
      OnRequestGood(sys, g, p, s, ev.cmd);
    } else {
      SendCRequestGood(sys, g, p, s);
    }
  }

  lemma HaltedStays(s: Node, cmd: Command)
    requires s.halted
    ensures OnRequest(s, cmd) == s && OnTimer(s) == s
  {
  }

  /** One event keeps the invariant. */
  lemma StepKeeps(sys: System, g: Regime, ev: Event)
    requires SysInv(sys, g) && Enabled(sys, ev) && Allowed(sys, g, ev)
    ensures SysInv(After(sys, ev), g)
  {
    if ev.Adversary? {
      AdversaryKeeps(sys, g, ev.e);
    } else {
      var p := Actor(ev);
      StepGood(sys, g, ev);
      hide SysInv, Inv, Receive, OnRequest, OnTimer;
      var t := After(sys, ev).nodes[p];
      MovedKeeps(sys, g, p, t) by { GoodInv(sys, g, p, sys.nodes[p], t); }
      assert After(sys, ev) == Moved(sys, p, t);
    }
  }

  /** No slot of a live replica, in either layer, moves backwards in one event. */
  lemma StatusMonotone(sys: System, g: Regime, ev: Event, p: PeerID)
    requires SysInv(sys, g) && Enabled(sys, ev) && Allowed(sys, g, ev) && p in sys.nodes
    ensures Rises(sys.nodes[p].olog, After(sys, ev).nodes[p].olog)
    ensures g != Any ==> Rises(sys.nodes[p].log, After(sys, ev).nodes[p].log)
  {
    hide SysInv, Receive, OnRequest, OnTimer, Inv;
    if !ev.Adversary? && Actor(ev) == p {
      StepGood(sys, g, ev);
    }
  }

  lemma StartInv(sys: System, g: Regime)
    requires Start(sys)
    ensures SysInv(sys, g)
  {
    hide OInv, CInv, Initial;
    forall p | p in sys.nodes ensures Inv(sys, g, p, sys.nodes[p]) {
      var o :| sys.nodes[p] == Initial(sys.f, p, sys.oview, o);
      StartO(sys, p);
      StartC(sys, g.Owned?, p);
    }
    StartSilent(sys);
  }

  lemma StartSilent(sys: System)
    requires Start(sys)
    ensures forall p :: p in sys.nodes ==> sys.nodes[p].msgs == []
  {
  }

  lemma StartO(sys: System, p: PeerID)
    requires Start(sys) && p in sys.nodes
    ensures OInv(sys, p, sys.nodes[p])
  {
    var s := sys.nodes[p];
    assert Delivered(s, 0);
    assert OLogs(sys)[p := s.olog] == OLogs(sys);
    assert forall q :: q in sys.nodes ==> sys.nodes[q].olog == map[];
  }

  lemma StartC(sys: System, owned: bool, p: PeerID)
    requires Start(sys) && p in sys.nodes
    ensures CInv(sys, owned, p, sys.nodes[p])
  {
    var s := sys.nodes[p];
    assert CLogs(sys)[p := s.log] == CLogs(sys);
    assert forall q :: q in sys.nodes ==> sys.nodes[q].log == map[];
  }

  lemma {:induction false} RunKeeps(sys: System, g: Regime, evs: seq<Event>)
    requires SysInv(sys, g) && ValidRun(sys, g, evs)
    ensures SysInv(RunEnds(sys, g, evs), g)
    decreases |evs|
  {
    if evs != [] {
      StepKeeps(sys, g, evs[0]);
      RunKeeps(After(sys, evs[0]), g, evs[1..]);
    }
  }

  /** sys is reached by some run in regime g. */
  ghost predicate Reached(sys: System, g: Regime) {
    exists start, evs :: Start(start) && ValidRun(start, g, evs) && RunEnds(start, g, evs) == sys
  }

  lemma ReachedInv(sys: System, g: Regime)
    requires Reached(sys, g)
    ensures SysInv(sys, g)
  {
    var start, evs :| Start(start) && ValidRun(start, g, evs) && RunEnds(start, g, evs) == sys;
    StartInv(start, g);
    RunKeeps(start, g, evs);
  }

  // ----- the results

  lemma OLayerOf(sys: System, g: Regime, p: PeerID)
    requires SysInv(sys, g) && p in sys.nodes
    ensures OCore(OLogs(sys), sys) && OrderOK(sys.nodes[p])
  {
    hide OCore, CInv, OrderOK;
    assert Inv(sys, g, p, sys.nodes[p]);
    assert OLogs(sys)[p := sys.nodes[p].olog] == OLogs(sys);
  }

  lemma CLayerOf(sys: System, g: Regime, p: PeerID)
    requires SysInv(sys, g) && p in sys.nodes && g != Any
    ensures LayerOK(CLogs(sys), sys.f, sys.faulty)
    ensures DeliveryOK(sys.nodes[p].log, sys.nodes[p].delivered, g.Owned?)
  {
    hide LayerOK, OInv, DeliveryOK, Led, OwnIds, Spent, CNet;
    assert Inv(sys, g, p, sys.nodes[p]);
    assert CLogs(sys)[p := sys.nodes[p].log] == CLogs(sys);
  }

  /** Two correct replicas that have prepared the same ordering slot hold the same digest and batch. */
  lemma OrderingAgreement(sys: System, g: Regime, p: PeerID, r: PeerID, i: nat)
    requires SysInv(sys, g) && p in sys.nodes && r in sys.nodes
    requires i in sys.nodes[p].olog && Rank(sys.nodes[p].olog[i].status) >= 2
    requires i in sys.nodes[r].olog && Rank(sys.nodes[r].olog[i].status) >= 2
    ensures sys.nodes[p].olog[i].digest == sys.nodes[r].olog[i].digest
    ensures BatchAt(sys.nodes[p].olog, i) == BatchAt(sys.nodes[r].olog, i)
    ensures sys.nodes[p].olog[i].digest == Some(Of(BatchAt(sys.nodes[p].olog, i)))
  {
    hide SysInv, LayerOK, Led;
    var logs: Logs<nat, Batch> := OLogs(sys);
    OLayerOf(sys, g, p);
    Agreement(logs, sys.f, sys.faulty, i, p, r);
    PreparedPayload(logs, sys.f, sys.faulty, ConstLeader(Leader(sys)), BatchLink(), i, p);
    PreparedPayload(logs, sys.f, sys.faulty, ConstLeader(Leader(sys)), BatchLink(), i, r);
    LinkIs(sys.nodes[p].olog[i].payload, sys.nodes[p].olog[i].digest.value);
    LinkIs(sys.nodes[r].olog[i].payload, sys.nodes[r].olog[i].digest.value);
  }

  lemma {:induction false} OrderedPrefix(olog: map<nat, Slot<Batch>>, m: nat, n: nat)
    requires m <= n
    ensures Ordered(olog, m) <= Ordered(olog, n)
  {
    if m < n {
      OrderedPrefix(olog, m, n - 1);
    }
  }

  predicate Comparable<T(==)>(a: seq<T>, b: seq<T>) {
    a <= b || b <= a
  }

  /** Total order: in any run at all, of two correct replicas one has delivered a prefix of what the other has. */
  lemma TotalOrder(sys: System, g: Regime, p: PeerID, r: PeerID)
    requires Reached(sys, g) && p in sys.nodes && r in sys.nodes
    ensures Comparable(IdsOf(sys.nodes[p].delivered), IdsOf(sys.nodes[r].delivered))
  {
    ReachedInv(sys, g);
    if sys.nodes[p].nextODeliver <= sys.nodes[r].nextODeliver {
      OrderedAlike(sys, g, p, r);
    } else {
      OrderedAlike(sys, g, r, p);
    }
  }

  lemma OrderedAlike(sys: System, g: Regime, p: PeerID, r: PeerID)
    requires SysInv(sys, g) && p in sys.nodes && r in sys.nodes && sys.nodes[p].nextODeliver <= sys.nodes[r].nextODeliver
    ensures Comparable(IdsOf(sys.nodes[p].delivered), IdsOf(sys.nodes[r].delivered))
  {
    hide SysInv, OCore, BatchAt;
    var s, t := sys.nodes[p], sys.nodes[r];
    OLayerOf(sys, g, p);
    OLayerOf(sys, g, r);
    forall i: nat | i in s.olog && i in t.olog && Rank(s.olog[i].status) >= 2 && Rank(t.olog[i].status) >= 2
      ensures BatchAt(s.olog, i) == BatchAt(t.olog, i)
    {
      OrderingAgreement(sys, g, p, r, i);
    }
    NodesAlike(s, t);
  }

  /** Nodes that agree on the ordering slots both have prepared have delivered comparable sequences. */
  lemma NodesAlike(s: Node, t: Node)
    requires OrderOK(s) && OrderOK(t) && s.nextODeliver <= t.nextODeliver
    requires forall i: nat :: i in s.olog && i in t.olog && Rank(s.olog[i].status) >= 2 && Rank(t.olog[i].status) >= 2 ==>
      BatchAt(s.olog, i) == BatchAt(t.olog, i)
    ensures Comparable(IdsOf(s.delivered), IdsOf(t.delivered))
  {
    hide BatchAt, Comparable, IdsOf;
    var n, m := s.nextODeliver, t.nextODeliver;
    OrderedFrame(s.olog, t.olog, n);
    var j: nat :| Delivered(s, j);
    var k: nat :| Delivered(t, k);
    if n < m {
      OrderedPrefix(t.olog, n + 1, m);
      assert Ordered(t.olog, n + 1) == Ordered(t.olog, n) + BatchAt(t.olog, n);
      assert j > 0 ==> BatchAt(s.olog, n) == BatchAt(t.olog, n);
      PrefixInto(Ordered(t.olog, n), BatchAt(s.olog, n), j, BatchAt(t.olog, n), Ordered(t.olog, m), BatchAt(t.olog, m)[..k]);
    } else {
      PrefixesOfOne(Ordered(t.olog, n), BatchAt(s.olog, n), j, BatchAt(t.olog, n), k);
    }
  }

  lemma PrefixInto<T>(a: seq<T>, x: seq<T>, j: nat, b: seq<T>, c: seq<T>, d: seq<T>)
    requires j <= |x| && (j > 0 ==> x == b) && a + b <= c
    ensures Comparable(a + x[..j], c + d)
  {
  }

  lemma PrefixesOfOne<T>(a: seq<T>, b: seq<T>, j: nat, c: seq<T>, k: nat)
    requires j <= |b| && k <= |c| && (j > 0 && k > 0 ==> b == c)
    ensures Comparable(a + b[..j], a + c[..k])
  {
  }

  /** Two correct replicas that have prepared the same instance hold the same command hash. */
  lemma InstanceAgreement(sys: System, g: Regime, p: PeerID, r: PeerID, id: InstanceID)
    requires Reached(sys, g) && g != Any && p in sys.nodes && r in sys.nodes
    requires id in sys.nodes[p].log && Rank(sys.nodes[p].log[id].status) >= 2
    requires id in sys.nodes[r].log && Rank(sys.nodes[r].log[id].status) >= 2
    ensures sys.nodes[p].log[id].digest == sys.nodes[r].log[id].digest && sys.nodes[p].log[id].digest.Some?
  {
    hide SysInv, LayerOK, DeliveryOK, Reached;
    ReachedInv(sys, g);
    var logs := CLogs(sys);
    CLayerOf(sys, g, p);
    Agreement(logs, sys.f, sys.faulty, id, p, r);
  }

  /** No instance is delivered twice by a correct replica. */
  lemma DeliveredOnce(sys: System, g: Regime, p: PeerID)
    requires Reached(sys, g) && g != Any && p in sys.nodes
    ensures Distinct(IdsOf(sys.nodes[p].delivered))
    ensures forall i :: 0 <= i < |sys.nodes[p].delivered| ==> Done(sys.nodes[p].log, sys.nodes[p].delivered[i], g.Owned?)
  {
    hide SysInv, LayerOK, Reached;
    ReachedInv(sys, g);
    CLayerOf(sys, g, p);
  }

  /** In owned runs the commands agree as well: at every position that both have reached, two correct
      replicas have delivered the same instance with an equal command. */
  lemma CommandsAgree(sys: System, p: PeerID, r: PeerID, i: nat)
    requires Reached(sys, Owned) && p in sys.nodes && r in sys.nodes
    requires i < |sys.nodes[p].delivered| && i < |sys.nodes[r].delivered|
    ensures sys.nodes[p].delivered[i].id == sys.nodes[r].delivered[i].id
    ensures sys.nodes[p].delivered[i].cmd.body == sys.nodes[r].delivered[i].cmd.body
  {
    var a, b := sys.nodes[p].delivered, sys.nodes[r].delivered;
    TotalOrder(sys, Owned, p, r);
    assert IdsOf(a)[i] == IdsOf(b)[i];
    DeliveredOnce(sys, Owned, p);
    DeliveredOnce(sys, Owned, r);
    assert Done(sys.nodes[p].log, a[i], true) && Done(sys.nodes[r].log, b[i], true);
    InstanceAgreement(sys, Owned, p, r, a[i].id);
  }
}
