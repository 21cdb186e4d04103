/** Runs of Dispel: broadcast agreement, and every DBFT instance of the cluster as a run of DispelAgreement. */
module DispelRuns {
  import opened Quorums
  import Slots
  import opened SlotAgreement
  import Bin = DispelBinary
  import Local = DispelLocal
  import Agr = DispelAgreement
  import opened DispelNode
  import opened DispelCounters

  datatype System = System(f: nat, faulty: set<PeerID>, nodes: map<PeerID, Node>)

  function With(sys: System, p: PeerID, s: Node): System {
    sys.(nodes := sys.nodes[p := s])
  }

  function RbLogs(sys: System): Logs<Key, Command> {
    map q | q in sys.nodes :: sys.nodes[q].log
  }

  /** The instance of one peer and epoch, at all correct replicas. */
  function Inst(sys: System, k: Key): Agr.System {
    Agr.System(sys.f, sys.faulty, map q | q in sys.nodes :: ConsAt(sys.nodes[q], k))
  }

  /** What a Send or an Echo says. */
  function RbBallot(m: RbMsg): Slots.Ballot<Command> {
    Slots.Ballot(0, if m.kind == Send then (if m.payload.Some? then Some(Slots.Of(m.payload.value)) else None) else m.digest)
  }

  ghost predicate SentBacked(logs: Logs<Key, Command>, q: PeerID, sent: set<RbMsg>) {
    forall m :: m in sent && m.kind != Ready ==> Backed(logs, m.key, q, RbBallot(m))
  }

  ghost predicate Configured(sys: System) {
    && |sys.faulty| <= sys.f && sys.faulty <= Peers(sys.f) && sys.nodes.Keys == Peers(sys.f) - sys.faulty
    && forall q :: q in sys.nodes ==> sys.nodes[q].id == q && sys.nodes[q].f == sys.f
  }

  ghost predicate RbInv(sys: System) {
    && LayerOK(RbLogs(sys), sys.f, sys.faulty)
    && (forall q :: q in sys.nodes ==> SentBacked(RbLogs(sys), q, sys.nodes[q].sent))
    && (forall q, k :: q in sys.nodes && k in sys.nodes[q].log ==> sys.nodes[q].log[k].view == 0)
  }

  ghost predicate ConsInv(sys: System) {
    forall k :: Agr.SysInv(Inst(sys, k))
  }

  ghost predicate Inv(sys: System) {
    Configured(sys) && RbInv(sys) && ConsInv(sys)
  }

  /** The state of one replica after some of its steps, in a system where the invariant holds. */
  ghost predicate At(sys: System, p: PeerID, s: Node) {
    p in sys.nodes && s.id == p && s.f == sys.f && Inv(With(sys, p, s))
  }

  // ----- steps that change little

  lemma WithLogs(sys: System, p: PeerID, s: Node, t: Node)
    requires p in sys.nodes
    ensures RbLogs(With(sys, p, t)) == RbLogs(With(sys, p, s))[p := t.log]
    ensures With(With(sys, p, s), p, t) == With(sys, p, t)
  {
  }

  lemma SameRb(sys: System, p: PeerID, s: Node, t: Node)
    requires p in sys.nodes && RbInv(With(sys, p, s)) && t.log == s.log && t.sent == s.sent
    ensures RbInv(With(sys, p, t))
  {
    hide LayerOK, SentBacked;
    WithLogs(sys, p, s, t);
    assert RbLogs(With(sys, p, t)) == RbLogs(With(sys, p, s));
    forall q, k | q in With(sys, p, t).nodes && k in With(sys, p, t).nodes[q].log ensures With(sys, p, t).nodes[q].log[k].view == 0 {
      assert With(sys, p, s).nodes[q].log[k].view == 0;
    }
    forall q | q in With(sys, p, t).nodes ensures SentBacked(RbLogs(With(sys, p, t)), q, With(sys, p, t).nodes[q].sent) {
      assert SentBacked(RbLogs(With(sys, p, s)), q, With(sys, p, s).nodes[q].sent);
    }
  }

  lemma SameCons(sys: System, p: PeerID, s: Node, t: Node)
    requires p in sys.nodes && ConsInv(With(sys, p, s)) && forall k :: ConsAt(t, k) == ConsAt(s, k)
    ensures ConsInv(With(sys, p, t))
  {
    hide Agr.SysInv, ConsAt;
    forall k ensures Agr.SysInv(Inst(With(sys, p, t), k)) {
      assert Inst(With(sys, p, t), k) == Inst(With(sys, p, s), k);
    }
  }

  lemma StaysConfigured(sys: System, p: PeerID, s: Node, t: Node)
    requires p in sys.nodes && Configured(With(sys, p, s)) && t.id == s.id && t.f == s.f
    ensures Configured(With(sys, p, t))
  {
  }

  lemma Trivial(sys: System, p: PeerID, s: Node, t: Node)
    requires At(sys, p, s) && t.log == s.log && t.sent == s.sent && t.id == s.id && t.f == s.f && t.epochs == s.epochs
    ensures At(sys, p, t)
  {
    hide RbInv, ConsInv, Configured;
    SameRb(sys, p, s, t);
    SameCons(sys, p, s, t);
    StaysConfigured(sys, p, s, t);
  }

  // ----- broadcast slots

  /** Storing the slot of a step, and sending only what the slot backs. */
  lemma PutRb(sys: System, p: PeerID, s: Node, t: Node, key: Key, x: Rb, from: PeerID, b: Slots.Ballot<Command>)
    requires p in sys.nodes && RbInv(With(sys, p, s)) && t.log == s.log[key := x] && x.view == 0
    requires SlotStep(RbLogs(With(sys, p, s)), sys.f, p, key, x, from, b)
    requires forall m :: m in t.sent - s.sent && m.kind != Ready ==> m.key == key && Slots.OwnBallot(x, p) == Some(RbBallot(m))
    ensures RbInv(With(sys, p, t))
  {
    var logs, after := RbLogs(With(sys, p, s)), RbLogs(With(sys, p, t));
    WithLogs(sys, p, s, t);
    assert p in logs && logs[p] == s.log && after == Put(logs, p, key, x);
    assert BallotKept(Lookup(s.log, key), x, p);
    PutKeepsLayer(logs, sys.f, sys.faulty, p, key, x, from, b);
    hide LayerOK, SlotStep, Slots.OwnBallot, RbBallot;
    forall q | q in With(sys, p, t).nodes ensures SentBacked(after, q, With(sys, p, t).nodes[q].sent) {
      assert SentBacked(logs, q, With(sys, p, s).nodes[q].sent);
      SentStays(logs, p, key, x, q, With(sys, p, s).nodes[q].sent);
      if q == p {
        forall m | m in t.sent && m.kind != Ready ensures Backed(after, m.key, p, RbBallot(m)) {
          if m !in s.sent {
            assert after[p][key] == x;
          }
        }
      }
    }
  }

  lemma SentStays(logs: Logs<Key, Command>, p: PeerID, key: Key, x: Rb, q: PeerID, sent: set<RbMsg>)
    requires p in logs && SentBacked(logs, q, sent) && BallotKept(Lookup(logs[p], key), x, p)
    ensures SentBacked(Put(logs, p, key, x), q, sent)
  {
  }

  lemma OwnRbStep(logs: Logs<Key, Command>, f: nat, faulty: set<PeerID>, p: PeerID, key: Key, cmd: Command)
    requires LayerOK(logs, f, faulty) && p in logs && (key in logs[p] ==> logs[p][key].view == 0)
    requires OwnRb(Lookup(logs[p], key), p, cmd).Some?
    ensures var x := OwnRb(Lookup(logs[p], key), p, cmd).value;
      && SlotStep(logs, f, p, key, x, 3 * f + 1, Slots.Ballot(0, None)) && x.view == 0
      && Slots.OwnBallot(x, p) == Some(Slots.Ballot(0, Some(Slots.Of(cmd))))
  {
    var was := Lookup(logs[p], key);
    if was.Some? {
      LayerSlot(logs, f, faulty, p, key);
    }
    assert p in Peers(f);
    OwnRbOK(was, p, f, cmd);
    OwnRbGains(was, p, cmd, 3 * f + 1, Slots.Ballot(0, None));
    hide OwnRb, Slots.SlotOK, Slots.GainsOnly;
  }

  lemma OwnRbGains(was: Option<Rb>, p: PeerID, cmd: Command, from: PeerID, b: Slots.Ballot<Command>)
    requires OwnRb(was, p, cmd).Some? && (was.Some? ==> was.value.view == 0 && Slots.OwnBallot(was.value, p).None?)
    ensures var x := OwnRb(was, p, cmd).value;
      Slots.GainsOnly(was, x, p, from, b) && x.view == 0 && Slots.OwnBallot(x, p) == Some(Slots.Ballot(0, Some(Slots.Of(cmd))))
  {
  }

  // ----- requests and exec

  lemma OnRequestInv(sys: System, p: PeerID, s: Node, cmd: Command)
    requires At(sys, p, s)
    ensures At(sys, p, OnRequest(s, cmd))
  {
    var t, key := OnRequest(s, cmd), Key(s.nextEpoch, s.id);
    hide RbInv, ConsInv, Configured, OwnRb;
    StaysConfigured(sys, p, s, t);
    assert forall k :: ConsAt(t, k) == ConsAt(s, k);
    SameCons(sys, p, s, t);
    if s.halted || OwnRb(Lookup(s.log, key), p, cmd).None? {
      SameRb(sys, p, s, t);
    } else {
      hide ConsAt;
      OnRequestRb(sys, p, s, cmd);
    }
  }

  lemma OnRequestRb(sys: System, p: PeerID, s: Node, cmd: Command)
    requires p in sys.nodes && s.id == p && RbInv(With(sys, p, s)) && !s.halted
    requires OwnRb(Lookup(s.log, Key(s.nextEpoch, p)), p, cmd).Some?
    ensures RbInv(With(sys, p, OnRequest(s, cmd)))
  {
    var t, key, logs := OnRequest(s, cmd), Key(s.nextEpoch, p), RbLogs(With(sys, p, s));
    var x := OwnRb(Lookup(s.log, key), p, cmd).value;
    assert p in logs && logs[p] == s.log;
    assert key in s.log ==> s.log[key].view == 0 by {
      assert With(sys, p, s).nodes[p] == s;
    }
    OwnRbStep(logs, sys.f, sys.faulty, p, key, cmd);
    hide OwnRb, SlotStep, RbInv, Slots.OwnBallot;
    PutRb(sys, p, s, t, key, x, 3 * sys.f + 1, Slots.Ballot(0, None));
  }

  /** Handing a command over changes nothing that the layer invariant looks at. */
  lemma PayloadsKeepLayer(logs: Logs<Key, Command>, f: nat, faulty: set<PeerID>, p: PeerID, n: map<Key, Rb>)
    requires LayerOK(logs, f, faulty) && p in logs && n.Keys == logs[p].Keys
    requires forall k :: k in n ==> n[k] == logs[p][k].(payload := n[k].payload)
    ensures LayerOK(logs[p := n], f, faulty)
    ensures forall k, t, b :: Backed(logs, k, t, b) ==> Backed(logs[p := n], k, t, b)
  {
    var after := logs[p := n];
    assert after.Keys == logs.Keys;
    forall k, t, b | Backed(logs, k, t, b) ensures Backed(after, k, t, b) {
    }
    forall r, k | r in after && k in after[r]
      ensures Slots.SlotOK(after[r][k], r, f) && EntriesBacked(after, k, after[r][k])
      ensures Slots.OwnBallot(after[r][k], r).Some? ==> Slots.OwnBallot(after[r][k], r).value.digest.Some?
    {
      var x := logs[r][k];
      assert Slots.SlotOK(x, r, f) && EntriesBacked(logs, k, x);
      assert after[r][k].pCert == x.pCert && after[r][k].digest == x.digest && after[r][k].view == x.view && after[r][k].status == x.status;
      Slots.PreparesOnly(x, after[r][k], f);
    }
  }

  lemma HandOverInv(sys: System, p: PeerID, s: Node)
    requires At(sys, p, s) && HasCommands(s, s.nextDeliver)
    ensures At(sys, p, HandOver(s))
  {
    var t := HandOver(s);
    HandOverLog(s);
    hide HandOver, RbInv, ConsInv, Configured, LayerOK;
    StaysConfigured(sys, p, s, t);
    SameCons(sys, p, s, t);
    PayloadsInv(sys, p, s, t);
  }

  lemma HandOverLog(s: Node)
    requires HasCommands(s, s.nextDeliver)
    ensures var t := HandOver(s);
      && t.log.Keys == s.log.Keys && (forall k :: k in t.log ==> t.log[k] == s.log[k].(payload := t.log[k].payload))
      && t.id == s.id && t.f == s.f && t.sent == s.sent && t.epochs == s.epochs
  {
  }

  lemma PayloadsInv(sys: System, p: PeerID, s: Node, t: Node)
    requires p in sys.nodes && RbInv(With(sys, p, s)) && t.sent == s.sent && t.log.Keys == s.log.Keys
    requires forall k :: k in t.log ==> t.log[k] == s.log[k].(payload := t.log[k].payload)
    ensures RbInv(With(sys, p, t))
  {
    var logs, after := RbLogs(With(sys, p, s)), RbLogs(With(sys, p, t));
    WithLogs(sys, p, s, t);
    assert p in logs && logs[p] == s.log;
    hide LayerOK;
    PayloadsKeepLayer(logs, sys.f, sys.faulty, p, t.log);
    forall q | q in With(sys, p, t).nodes ensures SentBacked(after, q, With(sys, p, t).nodes[q].sent) {
      assert SentBacked(logs, q, With(sys, p, s).nodes[q].sent);
    }
    forall q, k | q in With(sys, p, t).nodes && k in With(sys, p, t).nodes[q].log ensures With(sys, p, t).nodes[q].log[k].view == 0 {
      assert With(sys, p, s).nodes[q].log[k].view == 0;
    }
  }

  lemma DeliverEpochInv(sys: System, p: PeerID, s: Node)
    requires At(sys, p, s) && HasCommands(s, s.nextDeliver)
    ensures At(sys, p, DeliverEpoch(s))
  {
    hide At, OnRequest, HandOver, HasCommands, DeliverEpoch;
    var t, own := HandOver(s), Key(s.nextDeliver, s.id);
    var u := t.(reproposed := t.reproposed + {own});
    DeliverCases(s);
    HandOverInv(sys, p, s);
    HaltInv(sys, p, t);
    Trivial(sys, p, t, u);
    if own in s.log && s.log[own].payload.Some? {
      OnRequestInv(sys, p, u, s.log[own].payload.value);
    }
  }

  lemma DeliverCases(s: Node)
    requires HasCommands(s, s.nextDeliver)
    ensures var t, own := HandOver(s), Key(s.nextDeliver, s.id);
      || DeliverEpoch(s) == t || DeliverEpoch(s) == t.(halted := true)
      || (own in s.log && s.log[own].payload.Some? && DeliverEpoch(s) == OnRequest(t.(reproposed := t.reproposed + {own}), s.log[own].payload.value))
  {
  }

  lemma {:induction false} ExecInv(sys: System, p: PeerID, s: Node)
    requires At(sys, p, s)
    ensures At(sys, p, Exec(s))
    decreases |Finished(s)|
  {
    if !s.halted && Gate(s) && AllReadied(s, s.nextDeliver) {
      Trivial(sys, p, s, s.(halted := true));
      hide At, DeliverEpoch;
      if HasCommands(s, s.nextDeliver) {
        DeliverEpochInv(sys, p, s);
        var t := DeliverEpoch(s);
        if !t.halted {
          DeliverConsumes(s);
          ExecInv(sys, p, t);
        }
      }
    }
  }

  // ----- consensus instances

  lemma SetConsInv(sys: System, p: PeerID, s: Node, k: Key, ev: Agr.Event)
    requires At(sys, p, s)
    requires var inst := Inst(With(sys, p, s), k); Agr.Enabled(inst, ev) && Agr.Actor(ev) == p
    ensures At(sys, p, SetCons(s, k, Agr.Next(Inst(With(sys, p, s), k), ev)))
  {
    var c := Agr.Next(Inst(With(sys, p, s), k), ev);
    var t := PutCons(s, k, c);
    assert SetCons(s, k, c) == if c.c.decided && !ConsAt(s, k).c.decided then Exec(t) else t;
    PutConsInv(sys, p, s, k, ev);
    hide At, Exec, SetCons;
    ExecInv(sys, p, t);
  }

  lemma PutConsInv(sys: System, p: PeerID, s: Node, k: Key, ev: Agr.Event)
    requires At(sys, p, s)
    requires var inst := Inst(With(sys, p, s), k); Agr.Enabled(inst, ev) && Agr.Actor(ev) == p
    ensures At(sys, p, PutCons(s, k, Agr.Next(Inst(With(sys, p, s), k), ev)))
  {
    hide RbInv, Configured, ConsInv, ConsAt, PutCons, Agr.Next, Agr.Enabled, Inst;
    var c := Agr.Next(Inst(With(sys, p, s), k), ev);
    var t := PutCons(s, k, c);
    PutConsAt(s, k, c);
    StaysConfigured(sys, p, s, t);
    SameRb(sys, p, s, t);
    OneInstance(sys, p, s, t, k, ev);
  }

  lemma PutConsAt(s: Node, k: Key, c: Bin.Replica)
    ensures var t := PutCons(s, k, c);
      && t.log == s.log && t.sent == s.sent && t.id == s.id && t.f == s.f
      && forall j :: ConsAt(t, j) == if j == k then c else ConsAt(s, j)
  {
  }

  lemma OneInstance(sys: System, p: PeerID, s: Node, t: Node, k: Key, ev: Agr.Event)
    requires p in sys.nodes && ConsInv(With(sys, p, s))
    requires var inst := Inst(With(sys, p, s), k);
      && Agr.Enabled(inst, ev) && Agr.Actor(ev) == p
      && forall j :: ConsAt(t, j) == if j == k then Agr.Next(inst, ev) else ConsAt(s, j)
    ensures ConsInv(With(sys, p, t))
  {
    hide Agr.SysInv, Agr.Next, Agr.Enabled, ConsAt;
    var inst := Inst(With(sys, p, s), k);
    Agr.StepKeeps(inst, ev);
    forall j ensures Agr.SysInv(Inst(With(sys, p, t), j)) {
      var was, now := Inst(With(sys, p, s), j), Inst(With(sys, p, t), j);
      assert Agr.SysInv(was);
      if j == k {
        assert now.nodes == inst.nodes[p := Agr.Next(inst, ev)];
        assert now == Agr.After(inst, ev);
      } else {
        assert now.nodes == was.nodes;
      }
    }
  }

  lemma InstNode(sys: System, p: PeerID, s: Node, k: Key)
    requires At(sys, p, s)
    ensures var inst := Inst(With(sys, p, s), k);
      p in inst.nodes && inst.nodes[p] == ConsAt(s, k) && inst.f == s.f && inst.faulty == sys.faulty
  {
  }

  lemma ProposeInv(sys: System, p: PeerID, s: Node, k: Key)
    requires At(sys, p, s)
    ensures At(sys, p, SetCons(s, k, Bin.ProposeDone(ConsAt(s, k), s.f, 1)))
    ensures At(sys, p, SetCons(s, k, Bin.ProposeValue(ConsAt(s, k), 1, 0)))
  {
    InstNode(sys, p, s, k);
    hide At, SetCons, ConsAt;
    SetConsInv(sys, p, s, k, Agr.ProposeReadied(p));
    SetConsInv(sys, p, s, k, Agr.ProposeZero(p));
  }

  lemma {:induction false} ProposeAllInv(sys: System, p: PeerID, s: Node, e: nat, n: nat)
    requires At(sys, p, s)
    ensures At(sys, p, ProposeAll(s, e, n))
  {
    hide At, SetCons, ConsAt;
    if n > 0 {
      ProposeAllInv(sys, p, s, e, n - 1);
      ProposeInv(sys, p, ProposeAll(s, e, n - 1), Key(e, n - 1));
    }
  }

  lemma AfterReadiedInv(sys: System, p: PeerID, s: Node, key: Key)
    requires At(sys, p, s)
    ensures At(sys, p, AfterReady(Exec(RBDone(TryStart(s, key.epoch), key)), key))
  {
    hide At, Exec, SetCons, ConsAt, OnRequest, ProposeAll;
    ProposeAllInv(sys, p, s, key.epoch, 3 * s.f + 1);
    var t := TryStart(s, key.epoch);
    ProposeInv(sys, p, t, key);
    HaltInv(sys, p, t);
    var u := RBDone(t, key);
    ExecInv(sys, p, u);
    var v := Exec(u);
    HaltInv(sys, p, v);
    if key in v.log && v.log[key].payload.Some? {
      OnRequestInv(sys, p, v, v.log[key].payload.value);
    }
  }

  lemma HaltInv(sys: System, p: PeerID, s: Node)
    requires At(sys, p, s)
    ensures At(sys, p, s.(halted := true))
  {
    Trivial(sys, p, s, s.(halted := true));
  }

  // ----- broadcast messages

  /** What a broadcast step of p on slot `key` has to satisfy. */
  ghost predicate StepOK(sys: System, p: PeerID, s: Node, key: Key, r: Slots.Outcome<Command>, from: PeerID, b: Slots.Ballot<Command>) {
    && r.Next? && r.slot.view == 0
    && SlotStep(RbLogs(With(sys, p, s)), sys.f, p, key, r.slot, from, b)
    && (r.prepare.Some? ==> r.prepare == Slots.OwnBallot(r.slot, p) && r.prepare.value.view == 0)
  }

  lemma InstallInv(sys: System, p: PeerID, s: Node, key: Key, r: Slots.Outcome<Command>, from: PeerID, b: Slots.Ballot<Command>)
    requires At(sys, p, s) && StepOK(sys, p, s, key, r, from, b)
    ensures At(sys, p, Install(s, key, r))
  {
    var t := Install(s, key, r);
    InstallFrame(s, key, r);
    InstallSends(s, key, r, p);
    hide RbInv, ConsInv, Configured, Install, SlotStep, Slots.OwnBallot, ConsAt;
    StaysConfigured(sys, p, s, t);
    SameCons(sys, p, s, t);
    PutRb(sys, p, s, t, key, r.slot, from, b);
  }

  lemma InstallFrame(s: Node, key: Key, r: Slots.Outcome<Command>)
    requires r.Next?
    ensures var t := Install(s, key, r);
      t.id == s.id && t.f == s.f && t.log == s.log[key := r.slot] && forall k :: ConsAt(t, k) == ConsAt(s, k)
  {
  }

  lemma InstallSends(s: Node, key: Key, r: Slots.Outcome<Command>, p: PeerID)
    requires r.Next? && (r.prepare.Some? ==> r.prepare == Slots.OwnBallot(r.slot, p) && r.prepare.value.view == 0)
    ensures forall m :: m in Install(s, key, r).sent - s.sent && m.kind != Ready ==> m.key == key && Slots.OwnBallot(r.slot, p) == Some(RbBallot(m))
  {
  }

  lemma FinishInv(sys: System, p: PeerID, s: Node, key: Key, r: Slots.Outcome<Command>, from: PeerID, b: Slots.Ballot<Command>)
    requires At(sys, p, s) && (r.Next? ==> StepOK(sys, p, s, key, r, from, b))
    ensures At(sys, p, Finish(s, key, r))
  {
    hide At, StepOK, Install, Exec, RBDone, TryStart, AfterReady;
    if r.Halt? {
      HaltInv(sys, p, s);
    } else {
      InstallInv(sys, p, s, key, r, from, b);
      if r.committed {
        AfterReadiedInv(sys, p, Install(s, key, r), key);
      }
    }
  }

  /** A message that some replica may have sent. */
  predicate Sendable(sys: System, from: PeerID, m: RbMsg) {
    from in sys.faulty || (from in sys.nodes && m in sys.nodes[from].sent)
  }

  lemma LayerAt(sys: System, p: PeerID, s: Node, key: Key)
    requires At(sys, p, s)
    ensures var logs := RbLogs(With(sys, p, s));
      && LayerOK(logs, sys.f, sys.faulty) && p in logs && logs[p] == s.log && s.id == p && s.f == sys.f && p in Peers(sys.f)
      && 3 * sys.f + 1 !in logs
      && (key in s.log ==> RbOK(s.log[key], p, sys.f))
  {
  }

  lemma SenderBacked(sys: System, p: PeerID, from: PeerID, m: RbMsg)
    requires p in sys.nodes && At(sys, p, sys.nodes[p]) && Sendable(sys, from, m) && from != p && m.kind != Ready
    ensures var logs := RbLogs(With(sys, p, sys.nodes[p])); from in logs ==> Backed(logs, m.key, from, RbBallot(m))
    ensures from in Peers(sys.f)
  {
  }

  lemma SendOK(sys: System, p: PeerID, from: PeerID, m: RbMsg)
    requires p in sys.nodes && At(sys, p, sys.nodes[p]) && Sendable(sys, from, m) && from != p && m.kind == Send && m.payload.Some?
    requires Slots.PrePrepareSlot(Lookup(sys.nodes[p].log, m.key), SameCommand, p, sys.f, from, 0, m.payload, Slots.Of(m.payload.value)).Next?
    ensures var r := Slots.PrePrepareSlot(Lookup(sys.nodes[p].log, m.key), SameCommand, p, sys.f, from, 0, m.payload, Slots.Of(m.payload.value));
      StepOK(sys, p, sys.nodes[p], m.key, r, from, RbBallot(m))
  {
    var s, logs := sys.nodes[p], RbLogs(With(sys, p, sys.nodes[p]));
    var was, d := Lookup(s.log, m.key), Slots.Of(m.payload.value);
    LayerAt(sys, p, s, m.key);
    SenderBacked(sys, p, from, m);
    assert RbBallot(m) == Slots.Ballot(0, Some(d));
    assert was.Some? ==> was.value.view == 0 && Slots.SlotOK(was.value, p, sys.f);
    hide Slots.PrePrepareSlot, Slots.SlotOK, At, LayerOK, RbBallot, SlotStep, Slots.GainsOnly, Slots.OwnBallot;
    PrePrepareStep(logs, sys.f, sys.faulty, p, m.key, SameCommand, from, 0, m.payload, d);
    Slots.PrePrepareSlotOK(was, SameCommand, p, sys.f, from, 0, m.payload, d);
    PrePrepareView(was, SameCommand, p, sys.f, from, 0, m.payload, d);
  }

  lemma PrePrepareView<P>(was: Option<Slots.Slot<P>>, same: (P, P) -> bool, self: PeerID, f: nat, from: PeerID, view: nat, payload: Option<P>, digest: Slots.Digest<P>)
    requires Slots.PrePrepareSlot(was, same, self, f, from, view, payload, digest).Next?
    ensures Slots.PrePrepareSlot(was, same, self, f, from, view, payload, digest).slot.view == if was.None? then view else was.value.view
  {
  }

  lemma PrepareView<P>(was: Option<Slots.Slot<P>>, self: PeerID, f: nat, from: PeerID, view: nat, payload: Option<P>, digest: Option<Slots.Digest<P>>)
    requires Slots.PrepareSlot(was, self, f, from, view, payload, digest).Next?
    ensures Slots.PrepareSlot(was, self, f, from, view, payload, digest).slot.view == if was.None? then view else was.value.view
  {
  }

  lemma CommitView<P>(was: Option<Slots.Slot<P>>, f: nat, from: PeerID, view: nat, payload: Option<P>, digest: Option<Slots.Digest<P>>)
    requires Slots.CommitSlot(was, f, from, view, payload, digest).Next?
    ensures Slots.CommitSlot(was, f, from, view, payload, digest).slot.view == if was.None? then view else was.value.view
  {
  }

  lemma EchoOK(sys: System, p: PeerID, from: PeerID, m: RbMsg)
    requires p in sys.nodes && At(sys, p, sys.nodes[p]) && Sendable(sys, from, m) && from != p && m.kind == Echo
    requires Slots.PrepareSlot(Lookup(sys.nodes[p].log, m.key), p, sys.f, from, 0, m.payload, m.digest).Next?
    ensures var r := Slots.PrepareSlot(Lookup(sys.nodes[p].log, m.key), p, sys.f, from, 0, m.payload, m.digest);
      StepOK(sys, p, sys.nodes[p], m.key, r, from, RbBallot(m))
  {
    var s, logs := sys.nodes[p], RbLogs(With(sys, p, sys.nodes[p]));
    var was := Lookup(s.log, m.key);
    LayerAt(sys, p, s, m.key);
    SenderBacked(sys, p, from, m);
    assert RbBallot(m) == Slots.Ballot(0, m.digest);
    assert was.Some? ==> was.value.view == 0 && Slots.SlotOK(was.value, p, sys.f);
    hide Slots.PrepareSlot, Slots.SlotOK, At, LayerOK, RbBallot, SlotStep, Slots.GainsOnly, Slots.OwnBallot;
    PrepareStep(logs, sys.f, sys.faulty, p, m.key, from, 0, m.payload, m.digest);
    Slots.PrepareSlotOK(was, p, sys.f, from, 0, m.payload, m.digest);
    PrepareView(was, p, sys.f, from, 0, m.payload, m.digest);
  }

  lemma ReadyOK(sys: System, p: PeerID, s: Node, from: PeerID, m: RbMsg)
    requires At(sys, p, s)
    requires Slots.CommitSlot(Lookup(s.log, m.key), sys.f, from, 0, m.payload, m.digest).Next?
    ensures var r := Slots.CommitSlot(Lookup(s.log, m.key), sys.f, from, 0, m.payload, m.digest);
      StepOK(sys, p, s, m.key, r, 3 * sys.f + 1, RbBallot(m))
  {
    var logs, was := RbLogs(With(sys, p, s)), Lookup(s.log, m.key);
    LayerAt(sys, p, s, m.key);
    assert was.Some? ==> was.value.view == 0 && Slots.SlotOK(was.value, p, sys.f);
    hide Slots.CommitSlot, Slots.SlotOK, At, LayerOK, RbBallot, SlotStep, Slots.OwnBallot;
    CommitStep(logs, sys.f, sys.faulty, p, m.key, from, 0, m.payload, m.digest, 3 * sys.f + 1, RbBallot(m));
    Slots.CommitSlotOK(was, p, sys.f, from, 0, m.payload, m.digest);
    CommitView(was, sys.f, from, 0, m.payload, m.digest);
  }

  lemma OnRbInv(sys: System, p: PeerID, from: PeerID, m: RbMsg)
    requires p in sys.nodes && At(sys, p, sys.nodes[p]) && Sendable(sys, from, m) && from != p
    ensures At(sys, p, OnRb(sys.nodes[p], from, m))
  {
    var s := sys.nodes[p];
    hide At, StepOK, Finish, LayerOK, RbOK, RbLogs, Sendable, Slots.PrePrepareSlot, Slots.PrepareSlot, Slots.CommitSlot;
    LayerAt(sys, p, s, m.key);
    HaltInv(sys, p, s);
    var was := Lookup(s.log, m.key);
    match m.kind
    case Send =>
      if m.payload.Some? {
        var r := Slots.PrePrepareSlot(was, SameCommand, p, sys.f, from, 0, m.payload, Slots.Of(m.payload.value));
        if r.Next? {
          SendOK(sys, p, from, m);
        }
        FinishInv(sys, p, s, m.key, r, from, RbBallot(m));
      }
    case Echo =>
      var r := Slots.PrepareSlot(was, p, sys.f, from, 0, m.payload, m.digest);
      if r.Next? {
        EchoOK(sys, p, from, m);
      }
      FinishInv(sys, p, s, m.key, r, from, RbBallot(m));
    case Ready =>
      var r := Slots.CommitSlot(was, sys.f, from, 0, m.payload, m.digest);
      if r.Next? {
        ReadyOK(sys, p, s, from, m);
      }
      FinishInv(sys, p, s, m.key, r, 3 * sys.f + 1, RbBallot(m));
  }
}
