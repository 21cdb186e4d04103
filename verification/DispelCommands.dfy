/** Which command Dispel delivers for a broadcast: the one that its hash stands for, where the broadcast is another
    replica's. */
module DispelCommands {
  import opened Quorums
  import Slots
  import SA = SlotAgreement
  import Bin = DispelBinary
  import Agr = DispelAgreement
  import opened DispelNode
  import opened DispelCounters
  import opened DispelRuns
  import opened DispelSystem

  /** d is the hash of c, or of a command equal to c. */
  predicate Fits(c: Command, d: Option<Digest>) {
    d.Some? && d.value.Of? && c.body == d.value.payload.body
  }

  /** A broadcast that has been received has a hash, and its command fits it. */
  predicate SlotFits(x: Rb) {
    Slots.Rank(x.status) >= 1 ==> x.digest.Some? && (x.payload.Some? ==> Fits(x.payload.value, x.digest))
  }

  ghost predicate DeliveredFits(s: Node, e: nat, id: PeerID)
    requires e < |s.delivered| && id in s.delivered[e]
  {
    Key(e, id) in s.log && Slots.Rank(s.log[Key(e, id)].status) >= 1 && Fits(s.delivered[e][id], s.log[Key(e, id)].digest)
  }

  /** So it is for all broadcasts of others, delivered or not. */
  ghost predicate AllFit(s: Node) {
    && (forall k :: k in s.log && k.peer != s.id ==> SlotFits(s.log[k]))
    && (forall e: nat, id :: e < |s.delivered| && id in s.delivered[e] && id != s.id ==> DeliveredFits(s, e, id))
    && (!s.halted ==> s.nextDeliver == |s.delivered|)
  }

  lemma FitSame(s: Node, t: Node)
    requires AllFit(s) && t.id == s.id && t.log == s.log && t.delivered == s.delivered && t.nextDeliver == s.nextDeliver
    requires s.halted ==> t.halted
    ensures AllFit(t)
  {
    forall e: nat, id | e < |t.delivered| && id in t.delivered[e] && id != t.id ensures DeliveredFits(t, e, id) {
      assert DeliveredFits(s, e, id);
    }
  }

  /** A slot may change as long as its hash stays once it has been received. */
  lemma FitPut(s: Node, t: Node, k: Key, x: Rb)
    requires AllFit(s) && t.id == s.id && t.log == s.log[k := x] && t.delivered == s.delivered && t.nextDeliver == s.nextDeliver && t.halted == s.halted
    requires k.peer != s.id ==> SlotFits(x)
    requires k.peer != s.id && k in s.log && Slots.Rank(s.log[k].status) >= 1 ==> Slots.Rank(x.status) >= 1 && x.digest == s.log[k].digest
    ensures AllFit(t)
  {
    forall e: nat, id | e < |t.delivered| && id in t.delivered[e] && id != t.id ensures DeliveredFits(t, e, id) {
      assert DeliveredFits(s, e, id);
    }
  }

  lemma OnRequestFits(s: Node, cmd: Command)
    requires AllFit(s)
    ensures AllFit(OnRequest(s, cmd)) && OnRequest(s, cmd).id == s.id
  {
    if !s.halted {
      var key := Key(s.nextEpoch, s.id);
      var x := OwnRb(SA.Lookup(s.log, key), s.id, cmd);
      if x.Some? {
        FitPut(s, OnRequest(s, cmd), key, x.value);
      } else {
        FitSame(s, OnRequest(s, cmd));
      }
    }
  }

  // ----- exec

  lemma HandOverFits(s: Node)
    requires AllFit(s) && !s.halted && HasCommands(s, s.nextDeliver) && AllReadied(s, s.nextDeliver)
    ensures AllFit(HandOver(s)) && HandOver(s).id == s.id
  {
    var t, e := HandOver(s), s.nextDeliver;
    forall k | k in t.log && k.peer != t.id ensures SlotFits(t.log[k]) {
      assert SlotFits(s.log[k]);
    }
    forall i: nat, id | i < |t.delivered| && id in t.delivered[i] && id != t.id ensures DeliveredFits(t, i, id) {
      if i < |s.delivered| {
        assert DeliveredFits(s, i, id);
      } else {
        assert id in OnesIn(EpochAt(s, e).cons) && Key(e, id) in s.log;
        assert SlotFits(s.log[Key(e, id)]);
      }
    }
  }

  lemma DeliverEpochFits(s: Node)
    requires AllFit(s) && !s.halted && HasCommands(s, s.nextDeliver) && AllReadied(s, s.nextDeliver)
    ensures AllFit(DeliverEpoch(s)) && DeliverEpoch(s).id == s.id
  {
    HandOverFits(s);
    var t, own := HandOver(s), Key(s.nextDeliver, s.id);
    hide HandOver, OnRequest, AllFit;
    FitSame(t, t.(halted := true));
    FitSame(t, t.(reproposed := t.reproposed + {own}));
    forall cmd: Command ensures AllFit(OnRequest(t.(reproposed := t.reproposed + {own}), cmd)) && OnRequest(t.(reproposed := t.reproposed + {own}), cmd).id == t.id {
      OnRequestFits(t.(reproposed := t.reproposed + {own}), cmd);
    }
  }

  lemma {:induction false} ExecFits(s: Node)
    requires AllFit(s)
    ensures AllFit(Exec(s)) && Exec(s).id == s.id
    decreases |Finished(s)|
  {
    hide AllFit, HasCommands, AllReadied, Gate, DeliverEpoch;
    FitSame(s, s.(halted := true));
    if !s.halted && Gate(s) && AllReadied(s, s.nextDeliver) && HasCommands(s, s.nextDeliver) {
      DeliverEpochFits(s);
      if !DeliverEpoch(s).halted {
        DeliverConsumes(s);
        ExecFits(DeliverEpoch(s));
      }
    }
  }

  lemma SetConsFits(s: Node, k: Key, c: Bin.Replica)
    requires AllFit(s)
    ensures AllFit(SetCons(s, k, c)) && SetCons(s, k, c).id == s.id
  {
    hide AllFit, Exec;
    forall t: Node | t == s.(epochs := t.epochs) ensures AllFit(t) && AllFit(Exec(t)) && Exec(t).id == s.id {
      FitSame(s, t);
      ExecFits(t);
    }
  }

  lemma {:induction false} ProposeAllFits(s: Node, e: nat, n: nat)
    requires AllFit(s)
    ensures AllFit(ProposeAll(s, e, n)) && ProposeAll(s, e, n).id == s.id
  {
    hide AllFit, SetCons;
    if n > 0 {
      ProposeAllFits(s, e, n - 1);
      var t, key := ProposeAll(s, e, n - 1), Key(e, n - 1);
      SetConsFits(t, key, Bin.ProposeDone(ConsAt(t, key), t.f, 1));
      SetConsFits(t, key, Bin.ProposeValue(ConsAt(t, key), 1, 0));
    }
  }

  // ----- broadcast messages

  lemma FinishFits(s: Node, key: Key, r: Slots.Outcome<Command>)
    requires AllFit(s)
    requires r.Next? && key.peer != s.id ==> SlotFits(r.slot)
    requires r.Next? && key.peer != s.id && key in s.log && Slots.Rank(s.log[key].status) >= 1 ==>
      Slots.Rank(r.slot.status) >= 1 && r.slot.digest == s.log[key].digest
    ensures AllFit(Finish(s, key, r))
  {
    if r.Halt? {
      FitSame(s, s.(halted := true));
    } else {
      FitPut(s, Install(s, key, r), key, r.slot);
      hide AllFit, SlotFits, Install, TryStart, RBDone, Exec, AfterReady;
      var t := TryStart(Install(s, key, r), key.epoch);
      TryStartFits(Install(s, key, r), key.epoch);
      RBDoneFits(t, key);
      ExecFits(RBDone(t, key));
      AfterReadyFits(Exec(RBDone(t, key)), key);
    }
  }

  lemma TryStartFits(s: Node, e: nat)
    requires AllFit(s)
    ensures AllFit(TryStart(s, e))
  {
    hide AllFit, ProposeAll;
    ProposeAllFits(s, e, 3 * s.f + 1);
  }

  lemma RBDoneFits(s: Node, key: Key)
    requires AllFit(s)
    ensures AllFit(RBDone(s, key))
  {
    hide AllFit, SetCons;
    FitSame(s, s.(halted := true));
    SetConsFits(s, key, Bin.ProposeDone(ConsAt(s, key), s.f, 1));
  }

  lemma AfterReadyFits(s: Node, key: Key)
    requires AllFit(s)
    ensures AllFit(AfterReady(s, key))
  {
    hide AllFit, OnRequest;
    FitSame(s, s.(halted := true));
    if key in s.log && s.log[key].payload.Some? {
      OnRequestFits(s, s.log[key].payload.value);
    }
  }

  /** An Echo or a Ready does not make a broadcast received, and keeps its command. */
  lemma VoteFits(was: Option<Rb>, self: PeerID, f: nat, from: PeerID, payload: Option<Command>, digest: Option<Digest>)
    requires (was.Some? ==> RbOK(was.value, self, f) && SlotFits(was.value)) && from in Peers(f) && self in Peers(f) && from != self
    ensures var r := Slots.PrepareSlot(was, self, f, from, 0, payload, digest); r.Next? ==> SlotFits(r.slot) && Stays(was, r.slot)
    ensures var r := Slots.CommitSlot(was, f, from, 0, payload, digest); r.Next? ==> SlotFits(r.slot) && Stays(was, r.slot)
  {
    hide Slots.Log, Slots.Majority, RbOK;
  }

  /** The hash of a received broadcast stays. */
  predicate Stays(was: Option<Rb>, x: Rb) {
    was.Some? && Slots.Rank(was.value.status) >= 1 ==> Slots.Rank(x.status) >= 1 && x.digest == was.value.digest
  }

  /** A Send compares its command with the one held, and sets the hash. */
  lemma SendFits(was: Option<Rb>, self: PeerID, f: nat, from: PeerID, cmd: Command)
    requires (was.Some? ==> RbOK(was.value, self, f)) && from in Peers(f) && self in Peers(f) && from != self
    requires Slots.PrePrepareSlot(was, SameCommand, self, f, from, 0, Some(cmd), Slots.Of(cmd)).Next?
    ensures var x := Slots.PrePrepareSlot(was, SameCommand, self, f, from, 0, Some(cmd), Slots.Of(cmd)).slot; SlotFits(x) && Stays(was, x)
  {
    Slots.PrePrepareSlotOK(was, SameCommand, self, f, from, 0, Some(cmd), Slots.Of(cmd));
    hide Slots.PrePrepareSlot, Slots.GainsOnly;
  }

  lemma OnRbFits(s: Node, from: PeerID, m: RbMsg)
    requires NodeOK(s) && AllFit(s) && from in Peers(s.f) && from != s.id
    ensures AllFit(OnRb(s, from, m))
  {
    var was := SA.Lookup(s.log, m.key);
    assert (was.Some? ==> RbOK(was.value, s.id, s.f)) && s.id in Peers(s.f);
    assert was.Some? && m.key.peer != s.id ==> SlotFits(was.value);
    FitSame(s, s.(halted := true));
    hide NodeOK, AllFit, RbOK, SlotFits, Finish, Slots.PrePrepareSlot, Slots.PrepareSlot, Slots.CommitSlot;
    if m.key.peer != s.id {
      VoteFits(was, s.id, s.f, from, m.payload, m.digest);
    }
    match m.kind
    case Send =>
      if m.payload.Some? {
        var r := Slots.PrePrepareSlot(was, SameCommand, s.id, s.f, from, 0, m.payload, Slots.Of(m.payload.value));
        if r.Next? {
          SendFits(was, s.id, s.f, from, m.payload.value);
        }
        FinishFits(s, m.key, r);
      }
    case Echo => FinishFits(s, m.key, Slots.PrepareSlot(was, s.id, s.f, from, 0, m.payload, m.digest));
    case Ready => FinishFits(s, m.key, Slots.CommitSlot(was, s.f, from, 0, m.payload, m.digest));
  }

  // ----- runs

  ghost predicate SysFits(sys: System) {
    forall p :: p in sys.nodes ==> AllFit(sys.nodes[p])
  }

  lemma StepFits(sys: System, ev: Event)
    requires SysInv(sys) && SysFits(sys) && Enabled(sys, ev)
    ensures SysFits(After(sys, ev))
  {
    hide SysInv, NodeOK, AllFit, OnRb, OnRequest, OnCons, OnTimer, Sendable;
    var s := sys.nodes[Actor(ev)];
    Member(sys, Actor(ev));
    match ev
    case Request(_, cmd) => OnRequestFits(s, cmd);
    case Broadcast(_, from, m) =>
      SenderIsPeer(sys, ev);
      OnRbFits(s, from, m);
    case Consensus(_, from, k, c) => OnConsFits(s, from, k, c);
    case Timer(_, k, r) => OnTimerFits(s, k, r);
  }

  lemma OnConsFits(s: Node, from: PeerID, k: Key, c: Bin.Msg)
    requires AllFit(s)
    ensures AllFit(OnCons(s, from, k, c))
  {
    hide AllFit, SetCons;
    FitSame(s, s.(halted := true));
    SetConsFits(s, k, Bin.Receive(ConsAt(s, k), s.f, Bin.Envelope(from, c)));
  }

  lemma OnTimerFits(s: Node, k: Key, r: nat)
    requires AllFit(s)
    ensures AllFit(OnTimer(s, k, r))
  {
    hide AllFit, SetCons;
    SetConsFits(s, k, Bin.OnTimer(ConsAt(s, k), s.f, r));
  }

  lemma Member(sys: System, p: PeerID)
    requires SysInv(sys) && p in sys.nodes
    ensures NodeOK(sys.nodes[p]) && sys.nodes[p].id == p && sys.nodes[p].f == sys.f
  {
    hide NodeOK, ConsInv;
  }

  lemma SenderIsPeer(sys: System, ev: Event)
    requires SysInv(sys) && Enabled(sys, ev) && ev.Broadcast?
    ensures ev.from in Peers(sys.f)
  {
    hide NodeOK, ConsInv;
  }

  lemma {:induction false} RunFits(sys: System, evs: seq<Event>)
    requires SysInv(sys) && SysFits(sys) && ValidRun(sys, evs)
    ensures SysFits(RunEnds(sys, evs))
    decreases |evs|
  {
    hide SysInv, SysFits;
    if evs != [] {
      StepKeeps(sys, evs[0]);
      StepFits(sys, evs[0]);
      RunFits(After(sys, evs[0]), evs[1..]);
    }
  }

  lemma ReachedFits(sys: System)
    requires Reached(sys)
    ensures SysFits(sys)
  {
    hide SysInv;
    var start, evs :| Start(start) && ValidRun(start, evs) && RunEnds(start, evs) == sys;
    StartInv(start);
    assert SysFits(start);
    RunFits(start, evs);
  }

  /** Where restarts are sound and only peers' instances decide, two correct replicas that have delivered an epoch
      have delivered equal commands in it, for every broadcast but their own. */
  lemma CommandsAgree(sys: System, p: PeerID, q: PeerID, e: nat, id: PeerID)
    requires Reached(sys) && p in sys.nodes && q in sys.nodes
    requires e < |sys.nodes[p].delivered| && e < |sys.nodes[q].delivered|
    requires forall id :: Agr.SoundRestarts(Inst(sys, Key(e, id)))
    requires e in sys.nodes[p].epochs && DecidedIn(sys.nodes[p].epochs[e].cons) <= Peers(sys.f)
    requires e in sys.nodes[q].epochs && DecidedIn(sys.nodes[q].epochs[e].cons) <= Peers(sys.f)
    requires id in sys.nodes[p].delivered[e] && id != p && id != q
    ensures id in sys.nodes[q].delivered[e] && sys.nodes[p].delivered[e][id].body == sys.nodes[q].delivered[e][id].body
  {
    hide Reached, Agr.SoundRestarts, DecidedIn, SysInv, Inst;
    EpochsAgree(sys, p, q, e);
    ReachedFits(sys);
    ReachedInv(sys);
    Member(sys, p);
    Member(sys, q);
    assert DeliveredFits(sys.nodes[p], e, id) && DeliveredFits(sys.nodes[q], e, id);
  }
}
