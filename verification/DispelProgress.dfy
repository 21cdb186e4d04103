/** What Dispel does not put off: a live replica has delivered every epoch that its gate and its broadcasts let through. */
module DispelProgress {
  import opened Quorums
  import Slots
  import SA = SlotAgreement
  import Bin = DispelBinary
  import opened DispelNode
  import opened DispelCounters
  import opened DispelRuns
  import opened DispelSystem

  /** exec would not go on. */
  ghost predicate Drained(s: Node) {
    s.halted || !Gate(s) || !AllReadied(s, s.nextDeliver)
  }

  lemma {:induction false} ExecDrains(s: Node)
    ensures Drained(Exec(s))
    decreases |Finished(s)|
  {
    hide DeliverEpoch, HasCommands;
    if !s.halted && Gate(s) && AllReadied(s, s.nextDeliver) && HasCommands(s, s.nextDeliver) && !DeliverEpoch(s).halted {
      DeliverConsumes(s);
      ExecDrains(DeliverEpoch(s));
    }
  }

  /** A broadcast that was not finished is not finished by putting x. */
  lemma PutDrains(s: Node, t: Node, k: Key, x: Rb)
    requires Drained(s) && t.log == s.log[k := x] && t.nextDeliver == s.nextDeliver && t.threshold == s.threshold && t.f == s.f
    requires t.halted == s.halted && forall e: nat :: EpochAt(t, e) == EpochAt(s, e)
    requires x.status == Slots.Committed ==> k in s.log && s.log[k].status == Slots.Committed
    ensures Drained(t)
  {
    var e := s.nextDeliver;
    assert EpochAt(t, e) == EpochAt(s, e);
    if !t.halted && Gate(t) && AllReadied(t, e) {
      forall id | id in OnesIn(EpochAt(s, e).cons) ensures Key(e, id) in s.log ==> s.log[Key(e, id)].status == Slots.Committed {
        assert Key(e, id) in t.log ==> t.log[Key(e, id)].status == Slots.Committed;
      }
    }
  }

  lemma SameDrains(s: Node, t: Node)
    requires Drained(s) && t.log == s.log && t.epochs == s.epochs && t.nextDeliver == s.nextDeliver && t.threshold == s.threshold && t.f == s.f
    requires s.halted ==> t.halted
    ensures Drained(t)
  {
  }

  lemma OnRequestDrains(s: Node, cmd: Command)
    requires Drained(s)
    ensures Drained(OnRequest(s, cmd))
  {
    var key, t := Key(s.nextEpoch, s.id), OnRequest(s, cmd);
    var r := OwnRb(SA.Lookup(s.log, key), s.id, cmd);
    if s.halted || r.None? {
      SameDrains(s, t);
    } else {
      assert r.value.status == Slots.PrePrepared;
      hide OwnRb;
      PutDrains(s, t, key, r.value);
    }
  }

  /** An instance that has not just decided leaves the gate and the decided ones as they are. */
  lemma SetConsDrains(s: Node, k: Key, c: Bin.Replica)
    requires Drained(s) && Sticks(ConsAt(s, k).c, c.c)
    ensures Drained(SetCons(s, k, c))
  {
    var t := PutCons(s, k, c);
    if c.c.decided && !ConsAt(s, k).c.decided {
      hide Exec;
      ExecDrains(t);
    } else {
      assert OnesIn(EpochAt(t, k.epoch).cons) == OnesIn(EpochAt(s, k.epoch).cons);
      assert EpochAt(t, k.epoch).rbDone == EpochAt(s, k.epoch).rbDone && EpochAt(t, k.epoch).consDone == EpochAt(s, k.epoch).consDone;
    }
  }

  lemma AfterReadyDrains(s: Node, key: Key)
    requires Drained(s)
    ensures Drained(AfterReady(s, key))
  {
    hide Drained, OnRequest, ConsAt;
    SameDrains(s, s.(halted := true));
    if key in s.log && s.log[key].payload.Some? {
      OnRequestDrains(s, s.log[key].payload.value);
    }
  }

  /** A slot that a step has not finished is finished only if it was. */
  predicate Quiet(was: Option<Rb>, r: Slots.Outcome<Command>) {
    r.Next? && !r.committed && r.slot.status == Slots.Committed ==> was.Some? && was.value.status == Slots.Committed
  }

  lemma SlotsQuiet(was: Option<Rb>, self: PeerID, f: nat, from: PeerID, payload: Option<Command>, d: Digest, digest: Option<Digest>)
    ensures Quiet(was, Slots.PrePrepareSlot(was, SameCommand, self, f, from, 0, payload, d))
    ensures Quiet(was, Slots.PrepareSlot(was, self, f, from, 0, payload, digest))
    ensures Quiet(was, Slots.CommitSlot(was, f, from, 0, payload, digest))
  {
    hide Slots.Majority, Slots.Log, SameCommand;
  }

  lemma FinishDrains(s: Node, key: Key, r: Slots.Outcome<Command>)
    requires Drained(s) && Quiet(SA.Lookup(s.log, key), r)
    ensures Drained(Finish(s, key, r))
  {
    hide Drained, Exec, RBDone, TryStart, AfterReady, RbMsgs;
    SameDrains(s, s.(halted := true));
    if r.Next? {
      if r.committed {
        var t := RBDone(TryStart(Install(s, key, r), key.epoch), key);
        ExecDrains(t);
        AfterReadyDrains(Exec(t), key);
      } else {
        PutDrains(s, Install(s, key, r), key, r.slot);
      }
    }
  }

  lemma OnRbDrains(s: Node, from: PeerID, m: RbMsg)
    requires Drained(s)
    ensures Drained(OnRb(s, from, m))
  {
    hide Drained, Quiet, Finish, Slots.PrePrepareSlot, Slots.PrepareSlot, Slots.CommitSlot;
    SameDrains(s, s.(halted := true));
    var was := SA.Lookup(s.log, m.key);
    SlotsQuiet(was, s.id, s.f, from, m.payload, if m.payload.Some? then Slots.Of(m.payload.value) else Slots.Junk(0), m.digest);
    match m.kind
    case Send =>
      if m.payload.Some? {
        FinishDrains(s, m.key, Slots.PrePrepareSlot(was, SameCommand, s.id, s.f, from, 0, m.payload, Slots.Of(m.payload.value)));
      }
    case Echo => FinishDrains(s, m.key, Slots.PrepareSlot(was, s.id, s.f, from, 0, m.payload, m.digest));
    case Ready => FinishDrains(s, m.key, Slots.CommitSlot(was, s.f, from, 0, m.payload, m.digest));
  }

  // ----- asking again

  /** s has asked for cmd under its next id. */
  predicate AskedFor(s: Node, t: Node, cmd: Command) {
    var k := Key(s.nextEpoch, s.id);
    t.nextEpoch == s.nextEpoch + 1 && k in t.log && t.log[k].status == Slots.PrePrepared && t.sent == s.sent + {RbMsg(Send, k, Some(cmd), None)}
  }

  /** A request is sent under the next epoch, in which the replica must not have cast anything. */
  lemma RequestAsks(s: Node, cmd: Command)
    requires !s.halted
    ensures var t := OnRequest(s, cmd);
      if t.halted then t == s.(halted := true) else AskedFor(s, t, cmd) && t.delivered == s.delivered && t.nextDeliver == s.nextDeliver && t.reproposed == s.reproposed
  {
  }

  /** What an epoch delivers are the commands decided 1; an own command decided 0 is asked for again, and marked, and
      nothing else is. */
  lemma DeliverAsks(s: Node)
    requires !s.halted && HasCommands(s, s.nextDeliver)
    ensures var t, e, k := DeliverEpoch(s), s.nextDeliver, Key(s.nextDeliver, s.id);
      var lost := ConsAt(s, k).c.decided && ConsAt(s, k).c.decidedValue != 1 && k in s.log;
      && t.delivered == s.delivered + [map id | id in OnesIn(EpochAt(s, e).cons) :: s.log[Key(e, id)].payload.value]
      && t.nextDeliver == e + 1
      && (!lost ==> !t.halted && t.sent == s.sent && t.nextEpoch == s.nextEpoch && t.reproposed == s.reproposed)
      && (lost && !t.halted ==>
            s.log[k].payload.Some? && AskedFor(s, t, s.log[k].payload.value) && t.reproposed == s.reproposed + {k})
  {
    var t, k := HandOver(s), Key(s.nextDeliver, s.id);
    var u := t.(reproposed := t.reproposed + {k});
    if k in s.log && s.log[k].payload.Some? {
      RequestAsks(u, s.log[k].payload.value);
    }
    hide OnRequest;
  }

  /** An own broadcast that finishes after its instance has decided 0 is asked for again, unless exec has. */
  lemma FinishedAsks(s: Node, k: Key)
    requires !s.halted && k in s.log
    ensures var t := AfterReady(s, k);
      var lost := k.peer == s.id && k !in s.reproposed && ConsAt(s, k).c.decided && ConsAt(s, k).c.decidedValue == 0;
      && (!lost ==> t == s)
      && (lost && !t.halted ==> s.log[k].payload.Some? && AskedFor(s, t, s.log[k].payload.value))
  {
    hide OnRequest;
    if s.log[k].payload.Some? {
      RequestAsks(s, s.log[k].payload.value);
    }
  }

  /** A consensus message of an epoch that is not known here ends the replica; any other reaches its instance. */
  lemma NeedsEpoch(s: Node, from: PeerID, k: Key, m: Bin.Msg)
    requires !s.halted
    ensures var t := OnCons(s, from, k, m);
      if k.epoch !in s.epochs then t == s.(halted := true)
      else k.epoch in t.epochs && k.peer in t.epochs[k.epoch].cons
           && t.epochs[k.epoch].cons[k.peer] == Bin.Receive(ConsAt(s, k), s.f, Bin.Envelope(from, m))
  {
    if k.epoch in s.epochs {
      var c := Bin.Receive(ConsAt(s, k), s.f, Bin.Envelope(from, m));
      hide Bin.Receive, Exec;
      ExecCons(PutCons(s, k, c));
    }
  }

  /** So does a Send without a command. */
  lemma NeedsCommand(s: Node, from: PeerID, m: RbMsg)
    requires !s.halted && m.kind == Send && m.payload.None?
    ensures OnRb(s, from, m) == s.(halted := true)
  {
  }

  /** exec leaves the instances alone. */
  lemma {:induction false} ExecCons(s: Node)
    ensures forall e :: e in s.epochs ==> e in Exec(s).epochs && Exec(s).epochs[e].cons == s.epochs[e].cons
    decreases |Finished(s)|
  {
    hide HasCommands, AllReadied, Gate;
    if !s.halted && Gate(s) && AllReadied(s, s.nextDeliver) && HasCommands(s, s.nextDeliver) {
      DeliverCons(s);
      if !DeliverEpoch(s).halted {
        DeliverConsumes(s);
        hide DeliverEpoch;
        ExecCons(DeliverEpoch(s));
      }
    }
  }

  lemma DeliverCons(s: Node)
    requires HasCommands(s, s.nextDeliver)
    ensures forall e :: e in s.epochs ==> e in DeliverEpoch(s).epochs && DeliverEpoch(s).epochs[e].cons == s.epochs[e].cons
  {
    hide OwnRb;
  }

  // ----- runs

  ghost predicate SysDrained(sys: System) {
    forall p :: p in sys.nodes ==> Drained(sys.nodes[p])
  }

  lemma StepDrains(sys: System, ev: Event)
    requires SysDrained(sys) && Enabled(sys, ev)
    ensures SysDrained(After(sys, ev))
  {
    hide Drained, OnRb, OnRequest, SetCons, Sticks, Sendable, Bin.Receive, Bin.OnTimer, ConsAt;
    var s := sys.nodes[Actor(ev)];
    SameDrains(s, s.(halted := true));
    match ev
    case Request(_, cmd) => OnRequestDrains(s, cmd);
    case Broadcast(_, from, m) => OnRbDrains(s, from, m);
    case Consensus(_, from, k, c) =>
      ReceiveSticks(ConsAt(s, k), s.f, Bin.Envelope(from, c));
      SetConsDrains(s, k, Bin.Receive(ConsAt(s, k), s.f, Bin.Envelope(from, c)));
    case Timer(_, k, r) =>
      TimerSticks(ConsAt(s, k), s.f, r);
      SetConsDrains(s, k, Bin.OnTimer(ConsAt(s, k), s.f, r));
  }

  lemma {:induction false} RunDrains(sys: System, evs: seq<Event>)
    requires SysDrained(sys) && ValidRun(sys, evs)
    ensures SysDrained(RunEnds(sys, evs))
    decreases |evs|
  {
    hide SysDrained, Enabled, After;
    if evs != [] {
      StepDrains(sys, evs[0]);
      RunDrains(After(sys, evs[0]), evs[1..]);
    }
  }

  lemma StartDrained(sys: System)
    requires Start(sys)
    ensures SysDrained(sys)
  {
  }

  /** In every run, a replica that has not failed and whose gate is open waits for a broadcast of an instance
      decided 1: one that it has begun to receive and that has not finished. */
  lemma NothingHeldBack(sys: System, p: PeerID)
    requires Reached(sys) && p in sys.nodes && !sys.nodes[p].halted
    ensures var s := sys.nodes[p]; var e := s.nextDeliver;
      e in s.epochs && s.epochs[e].rbDone >= s.threshold && s.epochs[e].consDone == 3 * s.f + 1 ==>
        exists id :: id in OnesIn(s.epochs[e].cons) && Key(e, id) in s.log && s.log[Key(e, id)].status != Slots.Committed
  {
    hide Start, ValidRun, RunEnds;
    var start, evs :| Start(start) && ValidRun(start, evs) && RunEnds(start, evs) == sys;
    StartDrained(start);
    RunDrains(start, evs);
    assert Drained(sys.nodes[p]);
  }
}
