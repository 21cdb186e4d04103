/** Dispel in the form of protocols/dispel: a DBFT instance and a replica whose handlers update fields.  Each
    handler is proved to do what the functions of DispelBinary and DispelNode say. */
module DispelReplica {
  import opened Quorums
  import Slots
  import SA = SlotAgreement
  import Bin = DispelBinary
  import Slot = DqReplica
  import opened DispelNode

  /** The loop of onAfterSendReceiveAux over the Aux sets. */
  method UnionOf(sets: seq<set<int>>) returns (u: set<int>)
    ensures u == Bin.Union(sets)
  {
    u := {};
    for i := 0 to |sets|
      invariant u == Bin.Union(sets[..i])
    {
      assert sets[..i + 1][..i] == sets[..i];
      u := u + sets[i];
    }
    assert sets[..|sets|] == sets;
  }

  class Instance {
    const f: nat
    var rs: map<nat, Bin.Round>
    var decided: bool
    var decidedValue: int
    var decidedRound: nat
    var halt: bool
    var restartOnBinValues: bool
    var sent: set<Bin.Msg>
    ghost var got: set<Bin.Envelope>
    ghost var facts: set<Bin.Fact>

    ghost function State(): Bin.Replica
      reads this
    {
      Bin.Replica(Bin.Dbft(rs, decided, decidedValue, decidedRound, halt, restartOnBinValues), got, sent, facts)
    }

    constructor (f: nat)
      ensures State() == Bin.Initial() && this.f == f
    {
      this.f := f;
      rs, decided, decidedValue, decidedRound, halt, restartOnBinValues := map[], false, 0, 0, false, false;
      sent, got, facts := {}, {}, {};
    }

    function RoundAt(r: nat): Bin.Round
      reads this
    {
      if r in rs then rs[r] else Bin.MakeRound()
    }

    method Propose(r: nat, est: int)
      modifies this
      ensures State() == Bin.ProposeValue(old(State()), r, est)
    {
      if halt {
        return;
      }
      var round := RoundAt(r).(est := est);
      facts := facts + {Bin.Proposed(r, est)};
      if est !in round.bvbSent {
        round := round.(bvbSent := round.bvbSent + {est});
        round := round.(bvbEstimates := round.bvbEstimates[est := Bin.Count(round.bvbEstimates, est) + 1]);
        sent := sent + {Bin.Estimate(r, est)};
      }
      rs := rs[r := round];
    }

    /** binaryPropose with est -1. */
    method ProposeReadied(r: nat)
      modifies this
      ensures State() == Bin.ProposeDone(old(State()), f, r)
    {
      if halt {
        return;
      }
      var round := RoundAt(r);
      facts := facts + {Bin.Proposed(r, 1)};
      rs := rs[r := round.(est := 1, binValues := round.binValues + {1}, coordStepDone := true)];
      BroadcastAux(r);
    }

    method BroadcastAux(r: nat)
      modifies this
      ensures State() == Bin.BroadcastAux(old(State()), f, r)
    {
      var round := RoundAt(r);
      if round.auxSent {
        return;
      }
      sent := sent + {Bin.Aux(r, round.binValues)};
      rs := rs[r := round.(auxSent := true)];
      AfterSendReceiveAux(r);
    }

    method AfterSendReceiveAux(r: nat)
      modifies this
      ensures State() == Bin.AfterAux(old(State()), f, r)
    {
      hide Bin.Conclude, Bin.Continue;
      var round := RoundAt(r);
      var values := UnionOf(round.auxEstimates);
      if !round.auxSent || |round.auxEstimates| <= 2 * f || !(values <= round.binValues) {
        return;
      }
      Conclude(r, values);
      GoOn(r);
    }

    method Conclude(r: nat, values: set<int>)
      requires values == Bin.Union(RoundAt(r).auxEstimates)
      modifies this
      ensures State() == Bin.Conclude(old(State()), r)
    {
      var b := r % 2;
      var est := b;
      facts := facts + {Bin.Passed(r, values, got)};
      var round := RoundAt(r);
      if |values| == 1 {
        est := Bin.Only(values);
        if est == b && !decided {
          decided, decidedValue, decidedRound := true, est, r;
        }
      }
      rs := rs[r := round.(est := est)];
    }

    method GoOn(r: nat)
      modifies this
      ensures State() == Bin.Continue(old(State()), r)
    {
      var round := RoundAt(r);
      if decided && decidedRound == r {
        if 0 in round.binValues && 1 in round.binValues {
          Propose(r + 1, round.est);
        } else {
          restartOnBinValues := true;
        }
      } else if decided && decidedRound + 2 == r {
        halt := true;
      } else {
        Propose(r + 1, round.est);
      }
    }

    method OnBVBroadcast(from: PeerID, r: nat, v: int)
      modifies this
      ensures State() == Bin.OnEstimate(old(State()), f, from, r, v)
    {
      hide Bin.AfterBVBroadcast, Bin.Counted, Bin.Count;
      var count := CountEstimate(from, r, v);
      if count == 2 * f + 1 {
        var round := RoundAt(r);
        rs := rs[r := round.(binValues := round.binValues + {v})];
        AfterBVBroadcast(r);
      }
    }

    method CountEstimate(from: PeerID, r: nat, v: int) returns (count: nat)
      modifies this
      ensures State() == Bin.Counted(old(State()), f, from, r, v)
      ensures count == Bin.Count(old(RoundAt(r)).bvbEstimates, v) + 1
    {
      got := got + {Bin.Envelope(from, Bin.Estimate(r, v))};
      var round := RoundAt(r);
      count := Bin.Count(round.bvbEstimates, v) + 1;
      round := round.(bvbEstimates := round.bvbEstimates[v := count]);
      rs := rs[r := round];
      if count == f + 1 && v !in round.bvbSent {
        round := round.(bvbSent := round.bvbSent + {v});
        sent := sent + {Bin.Estimate(r, v)};
        rs := rs[r := round];
      }
    }

    method AfterBVBroadcast(r: nat)
      modifies this
      ensures State() == Bin.AfterBVBroadcast(old(State()), f, r)
    {
      hide Bin.BroadcastAux, Bin.ProposeValue;
      var round := RoundAt(r);
      if !round.coordStepDone {
        rs := rs[r := round.(coordStepDone := true, timerSet := true)];
        if round.timerExpired {
          BroadcastAux(r);
        }
      }
      round := RoundAt(r);
      if restartOnBinValues && 0 in round.binValues && 1 in round.binValues {
        restartOnBinValues := false;
        facts := facts + {Bin.Restarted(r, round.est)};
        Propose(r + 1, round.est);
      }
    }

    method OnAuxMessage(from: PeerID, r: nat, values: set<int>)
      modifies this
      ensures State() == Bin.OnAux(old(State()), f, from, r, values)
    {
      got := got + {Bin.Envelope(from, Bin.Aux(r, values))};
      var round := RoundAt(r);
      rs := rs[r := round.(auxEstimates := round.auxEstimates + [values])];
      AfterSendReceiveAux(r);
    }

    method OnCoordTimerExpired(r: nat)
      modifies this
      ensures State() == Bin.OnTimer(old(State()), f, r)
    {
      var round := RoundAt(r);
      if !round.timerSet {
        return;
      }
      rs := rs[r := round.(timerExpired := true)];
      if |round.binValues| < 1 {
        return;
      }
      BroadcastAux(r);
    }
  }

  function Cleared(log: map<Key, Rb>, e: nat, gone: set<PeerID>): map<Key, Rb> {
    map k | k in log :: if k.epoch == e && k.peer in gone then log[k].(payload := None) else log[k]
  }

  function Commands(log: map<Key, Rb>, e: nat, gone: set<PeerID>): map<PeerID, Command> {
    map id | id in gone && Key(e, id) in log && log[Key(e, id)].payload.Some? :: log[Key(e, id)].payload.value
  }

  lemma ClearOne(log: map<Key, Rb>, e: nat, gone: set<PeerID>, id: PeerID)
    requires Key(e, id) in log && log[Key(e, id)].payload.Some? && id !in gone
    ensures var c := Cleared(log, e, gone);
      Key(e, id) in c && c[Key(e, id)] == log[Key(e, id)] && c[Key(e, id) := c[Key(e, id)].(payload := None)] == Cleared(log, e, gone + {id})
    ensures Commands(log, e, gone)[id := log[Key(e, id)].payload.value] == Commands(log, e, gone + {id})
  {
  }

  /** Nothing cleared, and everything cleared. */
  lemma AllCleared(s: Node)
    requires HasCommands(s, s.nextDeliver)
    ensures var e, ones := s.nextDeliver, OnesIn(EpochAt(s, s.nextDeliver).cons);
      && Cleared(s.log, e, {}) == s.log && Commands(s.log, e, {}) == map[]
      && HandOver(s) == s.(log := Cleared(s.log, e, ones), delivered := s.delivered + [Commands(s.log, e, ones)], nextDeliver := e + 1)
  {
    var e, ones := s.nextDeliver, OnesIn(EpochAt(s, s.nextDeliver).cons);
    assert Commands(s.log, e, ones) == map id | id in ones :: s.log[Key(e, id)].payload.value;
  }

  class Replica {
    const id: PeerID
    const f: nat
    const threshold: nat
    var log: map<Key, Rb>
    var reproposed: set<Key>
    var epochs: map<nat, Epoch>
    var nextEpoch: nat
    var nextDeliver: nat
    var delivered: seq<map<PeerID, Command>>
    var sent: set<RbMsg>
    var halted: bool

    function State(): Node
      reads this
    {
      Node(id, f, threshold, log, reproposed, epochs, nextEpoch, nextDeliver, delivered, sent, halted)
    }

    constructor (f: nat, id: PeerID, threshold: nat)
      ensures State() == Initial(f, id, threshold)
    {
      this.f, this.id, this.threshold := f, id, threshold;
      log, reproposed, epochs, nextEpoch, nextDeliver := map[], {}, map[], 0, 0;
      delivered, sent, halted := [], {}, false;
    }

    method HandleRequest(cmd: Command)
      modifies this
      ensures State() == OnRequest(old(State()), cmd)
    {
      if halted {
        return;
      }
      var key := Key(nextEpoch, id);
      var x := Slots.MakeSlot(0, Some(cmd), Some(Slots.Of(cmd)));
      if key in log {
        x := log[key];
      }
      var c := Slots.Log(x.pCert, id, Slots.Ballot(0, Some(Slots.Of(cmd))));
      if c.None? {
        halted := true;
        return;
      }
      epochs := epochs[nextEpoch := EpochAt(State(), nextEpoch)];
      nextEpoch := nextEpoch + 1;
      log := log[key := x.(status := Slots.PrePrepared, pCert := c.value)];
      sent := sent + {RbMsg(Send, key, Some(cmd), None)};
    }

    /** exec: deliver epochs while the counters of the next one are complete. */
    method RunExec()
      modifies this
      ensures State() == Exec(old(State()))
    {
      ghost var start := State();
      while true
        invariant Exec(State()) == Exec(start)
        decreases |Finished(State())|, !halted
      {
        if halted || nextDeliver !in epochs || epochs[nextDeliver].rbDone < threshold || epochs[nextDeliver].consDone != 3 * f + 1 {
          return;
        }
        ghost var before := State();
        var ready, complete := Survey();
        if !ready {
          return;
        }
        if !complete {
          halted := true;
          return;
        }
        DeliverConsumes(before);
        Deliver();
        if halted {
          return;
        }
      }
    }

    /** The first loop of exec over the instances decided 1. */
    method Survey() returns (ready: bool, complete: bool)
      ensures ready == AllReadied(State(), nextDeliver) && complete == HasCommands(State(), nextDeliver)
    {
      ready, complete := true, true;
      var ones := OnesIn(EpochAt(State(), nextDeliver).cons);
      var todo := ones;
      while todo != {}
        invariant todo <= ones
        invariant ready <==> forall id :: id in ones - todo ==> Key(nextDeliver, id) in log ==> log[Key(nextDeliver, id)].status == Slots.Committed
        invariant complete <==> forall id :: id in ones - todo ==> Key(nextDeliver, id) in log && log[Key(nextDeliver, id)].payload.Some?
        decreases todo
      {
        var id :| id in todo;
        var key := Key(nextDeliver, id);
        if key !in log {
          complete := false;
        } else {
          ready := ready && log[key].status == Slots.Committed;
          complete := complete && log[key].payload.Some?;
        }
        todo := todo - {id};
      }
    }

    /** The second loop: hand each command over and clear it. */
    method HandOverCommands()
      requires HasCommands(State(), nextDeliver)
      modifies this
      ensures State() == HandOver(old(State()))
    {
      var e := nextDeliver;
      var ones := OnesIn(EpochAt(State(), e).cons);
      AllCleared(State());
      hide Cleared, Commands, OnesIn, HandOver;
      var cmds := TakeCommands(e, ones);
      delivered := delivered + [cmds];
      nextDeliver := e + 1;
    }

    method TakeCommands(e: nat, ids: set<PeerID>) returns (cmds: map<PeerID, Command>)
      requires forall id :: id in ids ==> Key(e, id) in log && log[Key(e, id)].payload.Some?
      modifies this
      ensures State() == old(State()).(log := log) && log == Cleared(old(log), e, ids) && cmds == Commands(old(log), e, ids)
    {
      ghost var was := State();
      var todo := ids;
      cmds := map[];
      ghost var gone: set<PeerID> := {};
      while todo != {}
        invariant todo <= ids && gone == ids - todo && State() == was.(log := log)
        invariant log == Cleared(was.log, e, gone) && cmds == Commands(was.log, e, gone)
        decreases todo
      {
        var id :| id in todo;
        ClearOne(was.log, e, gone, id);
        hide Cleared, Commands;
        cmds := cmds[id := log[Key(e, id)].payload.value];
        log := log[Key(e, id) := log[Key(e, id)].(payload := None)];
        todo, gone := todo - {id}, gone + {id};
      }
      assert gone == ids;
    }

    method Deliver()
      requires HasCommands(State(), nextDeliver)
      modifies this
      ensures State() == DeliverEpoch(old(State()))
    {
      var own, cons := Key(nextDeliver, id), EpochAt(State(), nextDeliver).cons;
      var again := id in cons && cons[id].c.decided && cons[id].c.decidedValue != 1 && own in log;
      var cmd := if own in log then log[own].payload else None;
      HandOverCommands();
      if again {
        if cmd.None? {
          halted := true;
          return;
        }
        reproposed := reproposed + {own};
        HandleRequest(cmd.value);
      }
    }

    method SetInstance(k: Key, c: Bin.Replica)
      modifies this
      ensures State() == SetCons(old(State()), k, c)
    {
      hide Exec, ConsAt, EpochAt;
      var ep := EpochAt(State(), k.epoch);
      var decides := c.c.decided && !ConsAt(State(), k).c.decided;
      ep := ep.(cons := ep.cons[k.peer := c]);
      if decides {
        ep := ep.(consDone := ep.consDone + 1);
      }
      epochs := epochs[k.epoch := ep];
      if decides {
        RunExec();
      }
    }

    method TryStartConsensus(e: nat)
      modifies this
      ensures State() == TryStart(old(State()), e)
    {
      if halted || EpochAt(State(), e).rbDone != threshold {
        return;
      }
      ProposePeers(e, 3 * f + 1);
    }

    method ProposePeers(e: nat, n: nat)
      modifies this
      ensures State() == ProposeAll(old(State()), e, n)
    {
      ghost var start := State();
      for i := 0 to n
        invariant State() == ProposeAll(start, e, i)
      {
        hide ProposeOne;
        ProposePeer(e, i);
      }
    }

    method ProposePeer(e: nat, peer: PeerID)
      modifies this
      ensures State() == ProposeOne(old(State()), e, peer)
    {
      if halted {
        return;
      }
      var key := Key(e, peer);
      var c := ConsAt(State(), key);
      if key in log && log[key].status == Slots.Committed {
        SetInstance(key, Bin.ProposeDone(c, f, 1));
      } else {
        SetInstance(key, Bin.ProposeValue(c, 1, 0));
      }
    }

    method OnRBDone(key: Key)
      modifies this
      ensures State() == RBDone(old(State()), key)
    {
      if halted || EpochAt(State(), key.epoch).rbDone <= threshold {
        return;
      }
      if key.peer !in EpochAt(State(), key.epoch).cons {
        halted := true;
        return;
      }
      SetInstance(key, Bin.ProposeDone(ConsAt(State(), key), f, 1));
    }

    method OnAfterReady(key: Key)
      modifies this
      ensures State() == AfterReady(old(State()), key)
    {
      if halted || id != key.peer || key !in log || key in reproposed {
        return;
      }
      var c := ConsAt(State(), key).c;
      if c.decided && c.decidedValue == 0 {
        if log[key].payload.None? {
          halted := true;
          return;
        }
        HandleRequest(log[key].payload.value);
      }
    }

    /** Store the slot, count a finished broadcast, and go on from there. */
    method Store(key: Key, r: Slots.Outcome<Command>)
      modifies this
      ensures State() == Finish(old(State()), key, r)
    {
      if r.Halt? {
        halted := true;
        return;
      }
      var ep := EpochAt(State(), key.epoch);
      if r.committed {
        ep := ep.(rbDone := ep.rbDone + 1);
      }
      log := log[key := r.slot];
      sent := sent + RbMsgs(key, r);
      epochs := epochs[key.epoch := ep];
      if r.committed {
        TryStartConsensus(key.epoch);
        OnRBDone(key);
        RunExec();
        OnAfterReady(key);
      }
    }

    method HandleBroadcast(from: PeerID, m: RbMsg)
      modifies this
      ensures State() == OnRb(old(State()), from, m)
    {
      if halted {
        return;
      }
      var was, r := SA.Lookup(log, m.key), Slots.Halt;
      match m.kind {
        case Send =>
          if m.payload.Some? {
            r := Slot.RunPrePrepare(was, SameCommand, id, f, from, 0, m.payload, Slots.Of(m.payload.value));
          }
        case Echo => r := Slot.RunPrepare(was, id, f, from, 0, m.payload, m.digest);
        case Ready => r := Slot.RunCommit(was, f, from, 0, m.payload, m.digest);
      }
      Store(m.key, r);
    }

    method HandleConsensus(from: PeerID, k: Key, m: Bin.Msg)
      modifies this
      ensures State() == OnCons(old(State()), from, k, m)
    {
      if halted {
        return;
      }
      if k.epoch !in epochs {
        halted := true;
        return;
      }
      SetInstance(k, Bin.Receive(ConsAt(State(), k), f, Bin.Envelope(from, m)));
    }

    method HandleTimer(k: Key, r: nat)
      modifies this
      ensures State() == OnTimer(old(State()), k, r)
    {
      if !halted && k.epoch in epochs && k.peer in epochs[k.epoch].cons {
        SetInstance(k, Bin.OnTimer(ConsAt(State(), k), f, r));
      }
    }
  }
}
