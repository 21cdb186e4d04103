/** A broadcast that has finished has more than 2f equal Readies, in every run of Dispel. */
module DispelReadies {
  import opened Quorums
  import Slots
  import SA = SlotAgreement
  import opened SlotCommits
  import Bin = DispelBinary
  import opened DispelNode
  import opened DispelCounters
  import opened DispelRuns
  import opened DispelSystem

  ghost predicate ReadyOK(s: Node) {
    forall k :: k in s.log ==> Upright(s.log[k], s.f, false)
  }

  /** Finished broadcasts have a hash. */
  ghost predicate HashesOK(s: Node) {
    forall k :: k in s.log && Slots.Rank(s.log[k].status) >= Slots.Rank(Slots.Committed) ==> s.log[k].digest.Some?
  }

  lemma ReadySame(s: Node, t: Node)
    requires ReadyOK(s) && t.log == s.log && t.f == s.f
    ensures ReadyOK(t)
  {
  }

  lemma ReadyPut(s: Node, t: Node, k: Key, x: Rb)
    requires ReadyOK(s) && t.log == s.log[k := x] && t.f == s.f && Upright(x, s.f, false)
    ensures ReadyOK(t)
  {
    hide Upright;
  }

  /** A request's own slot is at Received. */
  lemma RequestReady(s: Node, cmd: Command)
    requires ReadyOK(s)
    ensures ReadyOK(OnRequest(s, cmd)) && OnRequest(s, cmd).f == s.f
  {
    if !s.halted {
      var key := Key(s.nextEpoch, s.id);
      var x := OwnRb(SA.Lookup(s.log, key), s.id, cmd);
      hide ReadyOK;
      if x.Some? {
        ReadyPut(s, OnRequest(s, cmd), key, x.value);
      } else {
        ReadySame(s, OnRequest(s, cmd));
      }
    }
  }

  lemma HandOverReady(s: Node)
    requires ReadyOK(s) && HasCommands(s, s.nextDeliver)
    ensures ReadyOK(HandOver(s)) && HandOver(s).f == s.f
  {
    var t := HandOver(s);
    forall k | k in t.log ensures Upright(t.log[k], t.f, false) {
      assert Upright(s.log[k], s.f, false);
      SameCommits(s.log[k], t.log[k], s.f);
    }
  }

  lemma SameCommits(x: Rb, y: Rb, f: nat)
    requires Upright(x, f, false) && y == x.(payload := y.payload)
    ensures Upright(y, f, false)
  {
    hide Backers;
  }

  lemma DeliverEpochReady(s: Node)
    requires ReadyOK(s) && HasCommands(s, s.nextDeliver)
    ensures ReadyOK(DeliverEpoch(s)) && DeliverEpoch(s).f == s.f
  {
    HandOverReady(s);
    var t, own := HandOver(s), Key(s.nextDeliver, s.id);
    var u := t.(reproposed := t.reproposed + {own});
    hide HandOver, OnRequest, ReadyOK;
    ReadySame(t, t.(halted := true));
    ReadySame(t, u);
    forall cmd: Command ensures ReadyOK(OnRequest(u, cmd)) && OnRequest(u, cmd).f == s.f {
      RequestReady(u, cmd);
    }
  }

  lemma {:induction false} ExecReady(s: Node)
    requires ReadyOK(s)
    ensures ReadyOK(Exec(s)) && Exec(s).f == s.f
    decreases |Finished(s)|
  {
    hide ReadyOK, HasCommands, AllReadied, Gate, DeliverEpoch;
    ReadySame(s, s.(halted := true));
    if !s.halted && Gate(s) && AllReadied(s, s.nextDeliver) && HasCommands(s, s.nextDeliver) {
      DeliverEpochReady(s);
      if !DeliverEpoch(s).halted {
        DeliverConsumes(s);
        ExecReady(DeliverEpoch(s));
      }
    }
  }

  lemma SetConsReady(s: Node, k: Key, c: Bin.Replica)
    requires ReadyOK(s)
    ensures ReadyOK(SetCons(s, k, c)) && SetCons(s, k, c).f == s.f
  {
    hide ReadyOK, Exec;
    forall t: Node | t == s.(epochs := t.epochs) ensures ReadyOK(t) && ReadyOK(Exec(t)) && Exec(t).f == s.f {
      ReadySame(s, t);
      ExecReady(t);
    }
  }

  lemma {:induction false} ProposeAllReady(s: Node, e: nat, n: nat)
    requires ReadyOK(s)
    ensures ReadyOK(ProposeAll(s, e, n)) && ProposeAll(s, e, n).f == s.f
  {
    hide ReadyOK, SetCons;
    if n > 0 {
      ProposeAllReady(s, e, n - 1);
      var t, key := ProposeAll(s, e, n - 1), Key(e, n - 1);
      SetConsReady(t, key, Bin.ProposeDone(ConsAt(t, key), t.f, 1));
      SetConsReady(t, key, Bin.ProposeValue(ConsAt(t, key), 1, 0));
    }
  }

  lemma RBDoneReady(s: Node, key: Key)
    requires ReadyOK(s)
    ensures ReadyOK(RBDone(s, key)) && RBDone(s, key).f == s.f
  {
    hide ReadyOK, SetCons;
    ReadySame(s, s.(halted := true));
    SetConsReady(s, key, Bin.ProposeDone(ConsAt(s, key), s.f, 1));
  }

  lemma TryStartReady(s: Node, e: nat)
    requires ReadyOK(s)
    ensures ReadyOK(TryStart(s, e)) && TryStart(s, e).f == s.f
  {
    hide ReadyOK, ProposeAll;
    ProposeAllReady(s, e, 3 * s.f + 1);
  }

  lemma AfterReadyReady(s: Node, key: Key)
    requires ReadyOK(s)
    ensures ReadyOK(AfterReady(s, key))
  {
    hide ReadyOK, OnRequest;
    ReadySame(s, s.(halted := true));
    if key in s.log && s.log[key].payload.Some? {
      RequestReady(s, s.log[key].payload.value);
    }
  }

  lemma FinishReady(s: Node, key: Key, r: Slots.Outcome<Command>)
    requires ReadyOK(s) && (r.Next? ==> Upright(r.slot, s.f, false))
    ensures ReadyOK(Finish(s, key, r))
  {
    hide ReadyOK, Upright, TryStart, RBDone, Exec, AfterReady;
    if r.Halt? {
      ReadySame(s, s.(halted := true));
    } else {
      ReadyPut(s, Install(s, key, r), key, r.slot);
      hide Install;
      var t := TryStart(Install(s, key, r), key.epoch);
      TryStartReady(Install(s, key, r), key.epoch);
      RBDoneReady(t, key);
      ExecReady(RBDone(t, key));
      AfterReadyReady(Exec(RBDone(t, key)), key);
    }
  }

  lemma OnRbReady(s: Node, from: PeerID, m: RbMsg)
    requires ReadyOK(s) && HashesOK(s)
    ensures ReadyOK(OnRb(s, from, m))
  {
    var was := SA.Lookup(s.log, m.key);
    assert was.Some? ==> Upright(was.value, s.f, false);
    assert was.Some? && Slots.Rank(was.value.status) >= Slots.Rank(Slots.Committed) ==> was.value.digest.Some?;
    ReadySame(s, s.(halted := true));
    hide ReadyOK, HashesOK, Upright, Commits, Finish, Slots.PrePrepareSlot, Slots.PrepareSlot, Slots.CommitSlot;
    match m.kind
    case Send =>
      if m.payload.Some? {
        var r := Slots.PrePrepareSlot(was, SameCommand, s.id, s.f, from, 0, m.payload, Slots.Of(m.payload.value));
        if r.Next? {
          PrePrepareIff(was, SameCommand, s.id, s.f, from, 0, m.payload, Slots.Of(m.payload.value));
          UprightStays(was, r.slot, s.f, false);
        }
        FinishReady(s, m.key, r);
      }
    case Echo =>
      var r := Slots.PrepareSlot(was, s.id, s.f, from, 0, m.payload, m.digest);
      if r.Next? {
        PrepareIff(was, s.id, s.f, from, 0, m.payload, m.digest);
        UprightStays(was, r.slot, s.f, false);
      }
      FinishReady(s, m.key, r);
    case Ready =>
      var r := Slots.CommitSlot(was, s.f, from, 0, m.payload, m.digest);
      if r.Next? {
        CommitIff(was, s.f, from, 0, m.payload, m.digest);
        UprightStays(was, r.slot, s.f, false);
      }
      FinishReady(s, m.key, r);
  }

  // ----- runs

  ghost predicate SysReady(sys: System) {
    forall p :: p in sys.nodes ==> ReadyOK(sys.nodes[p])
  }

  lemma HashesOf(sys: System, p: PeerID)
    requires SysInv(sys) && p in sys.nodes
    ensures HashesOK(sys.nodes[p]) && sys.nodes[p].f == sys.f
  {
    hide SA.LayerOK, NodeOK, ConsInv;
    var logs := RbLogs(sys);
    assert SA.LayerOK(logs, sys.f, sys.faulty);
    forall k | k in sys.nodes[p].log && Slots.Rank(sys.nodes[p].log[k].status) >= Slots.Rank(Slots.Committed)
      ensures sys.nodes[p].log[k].digest.Some?
    {
      var q, b := SA.PreparedQuorum(logs, sys.f, sys.faulty, k, p);
    }
  }

  lemma StepReady(sys: System, ev: Event)
    requires SysInv(sys) && SysReady(sys) && Enabled(sys, ev)
    ensures SysReady(After(sys, ev))
  {
    hide SysInv, ReadyOK, HashesOK, OnRb, OnRequest, SetCons, Sendable;
    var s := sys.nodes[Actor(ev)];
    HashesOf(sys, Actor(ev));
    ReadySame(s, s.(halted := true));
    match ev
    case Request(_, cmd) => RequestReady(s, cmd);
    case Broadcast(_, from, m) => OnRbReady(s, from, m);
    case Consensus(_, from, k, c) => SetConsReady(s, k, Bin.Receive(ConsAt(s, k), s.f, Bin.Envelope(from, c)));
    case Timer(_, k, r) => SetConsReady(s, k, Bin.OnTimer(ConsAt(s, k), s.f, r));
  }

  lemma {:induction false} RunReady(sys: System, evs: seq<Event>)
    requires SysInv(sys) && SysReady(sys) && ValidRun(sys, evs)
    ensures SysReady(RunEnds(sys, evs))
    decreases |evs|
  {
    hide SysInv, SysReady;
    if evs != [] {
      StepKeeps(sys, evs[0]);
      StepReady(sys, evs[0]);
      RunReady(After(sys, evs[0]), evs[1..]);
    }
  }

  /** In every run, a finished broadcast has more than 2f equal Readies for its hash. */
  lemma BroadcastFinished(sys: System, p: PeerID, k: Key)
    requires Reached(sys) && p in sys.nodes && k in sys.nodes[p].log
    requires Slots.Rank(sys.nodes[p].log[k].status) >= Slots.Rank(Slots.Committed)
    ensures var x := sys.nodes[p].log[k];
      x.digest.Some? && exists b: Slots.Ballot<Command> :: b.digest == x.digest && |Backers(x.cCert, b)| > 2 * sys.f
  {
    hide SysInv;
    var start, evs :| Start(start) && ValidRun(start, evs) && RunEnds(start, evs) == sys;
    StartInv(start);
    assert SysReady(start);
    RunReady(start, evs);
    RunKeeps(start, evs);
    HashesOf(sys, p);
    assert Upright(sys.nodes[p].log[k], sys.nodes[p].f, false);
  }
}
