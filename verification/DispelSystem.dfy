/** Safety of Dispel over whole runs. */
module DispelSystem {
  import opened Quorums
  import Slots
  import opened SlotAgreement
  import Bin = DispelBinary
  import Agr = DispelAgreement
  import opened DispelNode
  import opened DispelCounters
  import opened DispelRuns

  datatype Event =
    | Request(at: PeerID, cmd: Command)
    | Broadcast(to: PeerID, from: PeerID, m: RbMsg)
    | Consensus(to: PeerID, from: PeerID, k: Key, c: Bin.Msg)
    | Timer(at: PeerID, k: Key, round: nat)

  function Actor(ev: Event): PeerID {
    if ev.Broadcast? || ev.Consensus? then ev.to else ev.at
  }

  /** Broadcast messages arrive in any order and any number of times; for consensus messages the channel is
      that of DispelAgreement. */
  predicate Enabled(sys: System, ev: Event) {
    && Actor(ev) in sys.nodes
    && (ev.Broadcast? ==> ev.from != ev.to && Sendable(sys, ev.from, ev.m))
    && (ev.Consensus? ==> Agr.Enabled(Inst(sys, ev.k), Agr.Deliver(ev.to, Bin.Envelope(ev.from, ev.c))))
  }

  function Next(sys: System, ev: Event): Node
    requires Enabled(sys, ev)
  {
    match ev
    case Request(p, cmd) => OnRequest(sys.nodes[p], cmd)
    case Broadcast(p, from, m) => OnRb(sys.nodes[p], from, m)
    case Consensus(p, from, k, c) => OnCons(sys.nodes[p], from, k, c)
    case Timer(p, k, r) => OnTimer(sys.nodes[p], k, r)
  }

  function After(sys: System, ev: Event): System
    requires Enabled(sys, ev)
  {
    With(sys, Actor(ev), Next(sys, ev))
  }

  predicate ValidRun(sys: System, evs: seq<Event>)
    decreases |evs|
  {
    evs == [] || (Enabled(sys, evs[0]) && ValidRun(After(sys, evs[0]), evs[1..]))
  }

  function RunEnds(sys: System, evs: seq<Event>): System
    requires ValidRun(sys, evs)
    decreases |evs|
  {
    if evs == [] then sys else RunEnds(After(sys, evs[0]), evs[1..])
  }

  ghost predicate Start(sys: System) {
    && |sys.faulty| <= sys.f && sys.faulty <= Peers(sys.f) && sys.nodes.Keys == Peers(sys.f) - sys.faulty
    && forall p :: p in sys.nodes ==> exists t :: sys.nodes[p] == Initial(sys.f, p, t)
  }

  ghost predicate Reached(sys: System) {
    exists start, evs :: Start(start) && ValidRun(start, evs) && RunEnds(start, evs) == sys
  }

  ghost predicate SysInv(sys: System) {
    Inv(sys) && forall p :: p in sys.nodes ==> NodeOK(sys.nodes[p])
  }

  lemma AtSelf(sys: System, p: PeerID)
    requires Inv(sys) && p in sys.nodes
    ensures At(sys, p, sys.nodes[p])
  {
    assert With(sys, p, sys.nodes[p]) == sys;
    hide RbInv, ConsInv;
  }

  lemma ActorKeeps(sys: System, ev: Event)
    requires SysInv(sys) && Enabled(sys, ev)
    ensures At(sys, Actor(ev), Next(sys, ev))
  {
    var p := Actor(ev);
    AtSelf(sys, p);
    hide Inv, At, NodeOK, OnRequest, OnRb, OnCons, OnTimer, Agr.Enabled, Inst;
    match ev
    case Request(_, cmd) => OnRequestInv(sys, p, sys.nodes[p], cmd);
    case Broadcast(_, from, m) => OnRbInv(sys, p, from, m);
    case Consensus(_, from, k, c) => ConsensusKeeps(sys, p, from, k, c);
    case Timer(_, k, r) => TimerKeeps(sys, p, k, r);
  }

  lemma ConsensusKeeps(sys: System, p: PeerID, from: PeerID, k: Key, c: Bin.Msg)
    requires p in sys.nodes && At(sys, p, sys.nodes[p])
    requires Agr.Enabled(Inst(sys, k), Agr.Deliver(p, Bin.Envelope(from, c)))
    ensures At(sys, p, OnCons(sys.nodes[p], from, k, c))
  {
    var s, ev := sys.nodes[p], Agr.Deliver(p, Bin.Envelope(from, c));
    hide At, SetCons, ConsAt, Inst, Bin.Receive, Agr.Enabled;
    InstNode(sys, p, s, k);
    assert With(sys, p, s) == sys;
    HaltInv(sys, p, s);
    SetConsInv(sys, p, s, k, ev);
  }

  lemma TimerKeeps(sys: System, p: PeerID, k: Key, r: nat)
    requires p in sys.nodes && At(sys, p, sys.nodes[p])
    ensures At(sys, p, OnTimer(sys.nodes[p], k, r))
  {
    var s := sys.nodes[p];
    hide At, SetCons, ConsAt, Inst, Bin.OnTimer;
    InstNode(sys, p, s, k);
    SetConsInv(sys, p, s, k, Agr.Timer(p, r));
    assert Agr.Next(Inst(With(sys, p, s), k), Agr.Timer(p, r)) == Bin.OnTimer(ConsAt(s, k), s.f, r);
  }

  lemma NodeKeeps(sys: System, ev: Event)
    requires SysInv(sys) && Enabled(sys, ev)
    ensures NodeOK(Next(sys, ev)) && Onward(sys.nodes[Actor(ev)], Next(sys, ev))
  {
    var p := Actor(ev);
    var s := sys.nodes[p];
    assert NodeOK(s) && s.id == p && s.f == sys.f;
    assert ev.Broadcast? ==> ev.from in Peers(sys.f);
    hide SysInv, NodeOK, Onward;
    match ev
    case Request(_, cmd) => OnRequestKeeps(s, cmd);
    case Broadcast(_, from, m) => OnRbKeeps(s, from, m);
    case Consensus(_, from, k, c) => OnConsKeeps(s, from, k, c);
    case Timer(_, k, r) => OnTimerKeeps(s, k, r);
  }

  lemma StepKeeps(sys: System, ev: Event)
    requires SysInv(sys) && Enabled(sys, ev)
    ensures SysInv(After(sys, ev))
  {
    ActorKeeps(sys, ev);
    NodeKeeps(sys, ev);
    hide Inv, NodeOK, Next;
  }

  lemma {:induction false} RunKeeps(sys: System, evs: seq<Event>)
    requires SysInv(sys) && ValidRun(sys, evs)
    ensures SysInv(RunEnds(sys, evs))
    decreases |evs|
  {
    hide SysInv, Enabled;
    if evs != [] {
      StepKeeps(sys, evs[0]);
      RunKeeps(After(sys, evs[0]), evs[1..]);
    }
  }

  lemma StartInv(sys: System)
    requires Start(sys)
    ensures SysInv(sys)
  {
    forall p | p in sys.nodes ensures NodeOK(sys.nodes[p]) && sys.nodes[p].id == p && sys.nodes[p].f == sys.f && sys.nodes[p].log == map[] && sys.nodes[p].sent == {} {
      var t :| sys.nodes[p] == Initial(sys.f, p, t);
      InitialOK(sys.f, p, t);
    }
    hide NodeOK;
    assert RbLogs(sys).Keys == sys.nodes.Keys;
    assert RbInv(sys);
    forall k ensures Agr.SysInv(Inst(sys, k)) {
      InstStart(sys, k);
    }
  }

  lemma InstStart(sys: System, k: Key)
    requires Start(sys)
    ensures Agr.SysInv(Inst(sys, k))
  {
  }

  lemma ReachedInv(sys: System)
    requires Reached(sys)
    ensures SysInv(sys)
  {
    hide SysInv, Start;
    var start, evs :| Start(start) && ValidRun(start, evs) && RunEnds(start, evs) == sys;
    StartInv(start);
    RunKeeps(start, evs);
  }

  // ----- the results

  /** Broadcast agreement: two correct replicas that have finished the same broadcast, or have sent Ready for
      it, hold the same hash. */
  lemma BroadcastAgreement(sys: System, p: PeerID, q: PeerID, key: Key)
    requires Reached(sys) && p in sys.nodes && q in sys.nodes
    requires key in sys.nodes[p].log && Slots.Rank(sys.nodes[p].log[key].status) >= Slots.Rank(Slots.Prepared)
    requires key in sys.nodes[q].log && Slots.Rank(sys.nodes[q].log[key].status) >= Slots.Rank(Slots.Prepared)
    ensures sys.nodes[p].log[key].digest == sys.nodes[q].log[key].digest && sys.nodes[p].log[key].digest.Some?
  {
    hide Reached, LayerOK, ConsInv, NodeOK, Configured, SentBacked;
    ReachedInv(sys);
    assert LayerOK(RbLogs(sys), sys.f, sys.faulty);
    hide SysInv;
    Agreement(RbLogs(sys), sys.f, sys.faulty, key, p, q);
  }

  /** The counters count, in every reachable state. */
  lemma CountersExact(sys: System, p: PeerID, e: nat)
    requires Reached(sys) && p in sys.nodes && e in sys.nodes[p].epochs
    ensures var s := sys.nodes[p];
      s.epochs[e].rbDone == |ReadiedIn(s.log, e)| && s.epochs[e].consDone == |DecidedIn(s.epochs[e].cons)|
  {
    ReachedInv(sys);
    hide Reached, Inv, SlotsOK, DeliveryOK;
    assert NodeOK(sys.nodes[p]) && EpochCounts(sys.nodes[p], e);
  }

  /** Where restarts are sound and only peers' instances decide, replicas that have delivered an epoch have
      delivered the same broadcasts in it. */
  lemma EpochsAgree(sys: System, p: PeerID, q: PeerID, e: nat)
    requires Reached(sys) && p in sys.nodes && q in sys.nodes
    requires e < |sys.nodes[p].delivered| && e < |sys.nodes[q].delivered|
    requires forall id :: Agr.SoundRestarts(Inst(sys, Key(e, id)))
    requires e in sys.nodes[p].epochs && DecidedIn(sys.nodes[p].epochs[e].cons) <= Peers(sys.f)
    requires e in sys.nodes[q].epochs && DecidedIn(sys.nodes[q].epochs[e].cons) <= Peers(sys.f)
    ensures sys.nodes[p].delivered[e].Keys == sys.nodes[q].delivered[e].Keys
    ensures forall id :: id in sys.nodes[p].delivered[e] ==>
      var k := Key(e, id);
      k in sys.nodes[p].log && k in sys.nodes[q].log && sys.nodes[p].log[k].digest == sys.nodes[q].log[k].digest
  {
    hide Reached, SysInv, DecidedIn, Agr.SoundRestarts;
    ReachedInv(sys);
    EpochIds(sys, p, q, e);
    hide Inst;
    forall id | id in sys.nodes[p].delivered[e]
      ensures Key(e, id) in sys.nodes[p].log && Key(e, id) in sys.nodes[q].log
      ensures sys.nodes[p].log[Key(e, id)].digest == sys.nodes[q].log[Key(e, id)].digest
    {
      DeliveredReadied(sys, p, e, id);
      DeliveredReadied(sys, q, e, id);
      BroadcastAgreement(sys, p, q, Key(e, id));
    }
  }

  lemma EpochIds(sys: System, p: PeerID, q: PeerID, e: nat)
    requires SysInv(sys) && p in sys.nodes && q in sys.nodes
    requires e < |sys.nodes[p].delivered| && e < |sys.nodes[q].delivered|
    requires forall id :: Agr.SoundRestarts(Inst(sys, Key(e, id)))
    requires e in sys.nodes[p].epochs && DecidedIn(sys.nodes[p].epochs[e].cons) <= Peers(sys.f)
    requires e in sys.nodes[q].epochs && DecidedIn(sys.nodes[q].epochs[e].cons) <= Peers(sys.f)
    ensures sys.nodes[p].delivered[e].Keys == sys.nodes[q].delivered[e].Keys
  {
    var a, b := sys.nodes[p].epochs[e].cons, sys.nodes[q].epochs[e].cons;
    assert NodeOK(sys.nodes[p]) && NodeOK(sys.nodes[q]) && sys.nodes[p].f == sys.f == sys.nodes[q].f by { hide NodeOK; }
    hide NodeOK, SysInv, Agr.SoundRestarts, Inst;
    DeliveredEpoch(sys.nodes[p], e);
    DeliveredEpoch(sys.nodes[q], e);
    forall id ensures id in OnesIn(a) <==> id in OnesIn(b) {
      if id in DecidedIn(a) && id in DecidedIn(b) {
        InstancesAgree(sys, p, q, Key(e, id));
      }
    }
  }

  /** What has been delivered is the word of finished broadcasts. */
  lemma DeliveredReadied(sys: System, p: PeerID, e: nat, id: PeerID)
    requires SysInv(sys) && p in sys.nodes && e < |sys.nodes[p].delivered| && id in sys.nodes[p].delivered[e]
    ensures Readied(sys.nodes[p].log, Key(e, id))
  {
    hide Inv, Counts, SlotsOK;
    var s := sys.nodes[p];
    assert NodeOK(s);
    assert Delivered(s, e);
    var d :| DeliveredBy(s, e, d);
  }

  lemma InstancesAgree(sys: System, p: PeerID, q: PeerID, k: Key)
    requires SysInv(sys) && p in sys.nodes && q in sys.nodes && Agr.SoundRestarts(Inst(sys, k))
    requires ConsAt(sys.nodes[p], k).c.decided && ConsAt(sys.nodes[q], k).c.decided
    ensures ConsAt(sys.nodes[p], k).c.decidedValue == ConsAt(sys.nodes[q], k).c.decidedValue
  {
    var inst := Inst(sys, k);
    assert ConsInv(sys) && Agr.SysInv(inst);
    assert inst.nodes[p] == ConsAt(sys.nodes[p], k) && inst.nodes[q] == ConsAt(sys.nodes[q], k);
    hide SysInv, Agr.SysInv, Agr.SoundRestarts, ConsAt, Inst;
    if inst.nodes[p].c.decidedRound <= inst.nodes[q].c.decidedRound {
      Agr.LaterAgrees(inst, p, q);
    } else {
      Agr.LaterAgrees(inst, q, p);
    }
  }
}
