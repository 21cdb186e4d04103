/** The counters that gate exec: in every state of a replica, whatever it has received, they count the finished
    broadcasts and the decided instances of each epoch, and what was delivered was decided by 3f+1 instances. */
module DispelCounters {
  import opened Quorums
  import Slots
  import SA = SlotAgreement
  import Bin = DispelBinary
  import opened DispelNode

  ghost predicate EpochCounts(s: Node, e: nat) {
    e in s.epochs && s.epochs[e].rbDone == |ReadiedIn(s.log, e)| && s.epochs[e].consDone == |DecidedIn(s.epochs[e].cons)|
  }

  ghost predicate Counts(s: Node) {
    (forall k :: k in s.log ==> k.epoch in s.epochs) && (forall e :: e in s.epochs ==> EpochCounts(s, e))
  }

  ghost predicate RbOK(x: Rb, self: PeerID, f: nat) {
    Slots.SlotOK(x, self, f) && x.view == 0
  }

  ghost predicate SlotsOK(s: Node) {
    forall k :: k in s.log ==> RbOK(s.log[k], s.id, s.f)
  }

  /** Epoch i was delivered on the word of 3f+1 decided instances, d. */
  ghost predicate DeliveredBy(s: Node, i: nat, d: set<PeerID>)
    requires i < |s.delivered|
  {
    && i in s.epochs && d <= DecidedIn(s.epochs[i].cons) && |d| == 3 * s.f + 1
    && s.delivered[i].Keys == d * OnesIn(s.epochs[i].cons)
    && forall id :: id in s.delivered[i] ==> Readied(s.log, Key(i, id))
  }

  ghost predicate Readied(log: map<Key, Rb>, k: Key) {
    k in log && log[k].status == Slots.Committed
  }

  /** A finished broadcast stays finished. */
  ghost predicate StaysReadied(a: map<Key, Rb>, b: map<Key, Rb>) {
    forall k :: Readied(a, k) ==> Readied(b, k)
  }

  ghost predicate Delivered(s: Node, i: nat) {
    i < |s.delivered| && exists d :: DeliveredBy(s, i, d)
  }

  ghost predicate DeliveryOK(s: Node) {
    && s.nextDeliver <= |s.delivered| && (!s.halted ==> s.nextDeliver == |s.delivered|)
    && forall i: nat :: i < |s.delivered| ==> Delivered(s, i)
  }

  ghost predicate NodeOK(s: Node) {
    s.id in Peers(s.f) && Counts(s) && SlotsOK(s) && DeliveryOK(s)
  }

  /** A decision of an instance stands. */
  ghost predicate Sticks(c: Bin.Dbft, d: Bin.Dbft) {
    c.decided ==> d.decided && d.decidedValue == c.decidedValue
  }

  /** What no step of a replica changes or takes back. */
  ghost predicate Onward(s: Node, t: Node) {
    && t.id == s.id && t.f == s.f && t.threshold == s.threshold && s.epochs.Keys <= t.epochs.Keys
    && s.log.Keys <= t.log.Keys && s.delivered <= t.delivered && s.sent <= t.sent && (s.halted ==> t.halted)
  }

  /** Instances that stick keep what has been delivered explained. */
  lemma DeliveryFrame(s: Node, t: Node)
    requires DeliveryOK(s) && t.delivered == s.delivered && t.nextDeliver == s.nextDeliver && (s.halted ==> t.halted) && t.f == s.f
    requires StaysReadied(s.log, t.log) && forall i :: i in s.epochs ==> i in t.epochs
    requires forall i, id :: i in s.epochs && id in s.epochs[i].cons ==>
      id in t.epochs[i].cons && Sticks(s.epochs[i].cons[id].c, t.epochs[i].cons[id].c)
    ensures DeliveryOK(t)
  {
    forall i: nat | i < |t.delivered| ensures Delivered(t, i) {
      assert Delivered(s, i);
      var d :| DeliveredBy(s, i, d);
      EpochFrame(s, t, i, d);
    }
  }

  lemma EpochFrame(s: Node, t: Node, i: nat, d: set<PeerID>)
    requires i < |s.delivered| && i < |t.delivered| && DeliveredBy(s, i, d) && t.delivered[i] == s.delivered[i] && t.f == s.f && i in t.epochs
    requires StaysReadied(s.log, t.log)
    requires forall id :: id in s.epochs[i].cons ==> id in t.epochs[i].cons && Sticks(s.epochs[i].cons[id].c, t.epochs[i].cons[id].c)
    ensures DeliveredBy(t, i, d)
  {
    var a, b := s.epochs[i].cons, t.epochs[i].cons;
    assert forall id :: id in d ==> (id in OnesIn(a) <==> id in OnesIn(b));
    assert d * OnesIn(a) == d * OnesIn(b);
  }

  // ----- the gate

  /** When the gate on the counters is open, it means that all peers have decided exactly if no instance
      outside the peers has decided: consensus and broadcast messages for unknown peers are accepted. */
  lemma GateMeansAllDecided(s: Node)
    requires NodeOK(s) && Gate(s)
    ensures var d := DecidedIn(s.epochs[s.nextDeliver].cons); Peers(s.f) <= d <==> d <= Peers(s.f)
  {
    var d := DecidedIn(s.epochs[s.nextDeliver].cons);
    assert EpochCounts(s, s.nextDeliver);
    if Peers(s.f) <= d {
      SameSize(Peers(s.f), d);
    } else if d <= Peers(s.f) {
      SameSize(d, Peers(s.f));
    }
  }

  lemma SameSize<T>(a: set<T>, b: set<T>)
    requires a <= b && |a| == |b|
    ensures a == b
  {
    assert b == a + (b - a);
    assert |b| == |a| + |b - a|;
    assert b - a == {};
  }

  /** The other half of the gate: at least the threshold of broadcasts has finished. */
  lemma GateMeansReadied(s: Node)
    requires NodeOK(s) && Gate(s)
    ensures |ReadiedIn(s.log, s.nextDeliver)| >= s.threshold
  {
    assert EpochCounts(s, s.nextDeliver);
  }

  /** If only peers have decided, a delivered epoch holds exactly the peers decided 1, and all have decided. */
  lemma DeliveredEpoch(s: Node, i: nat)
    requires NodeOK(s) && i < |s.delivered| && i in s.epochs && DecidedIn(s.epochs[i].cons) <= Peers(s.f)
    ensures DecidedIn(s.epochs[i].cons) == Peers(s.f) && s.delivered[i].Keys == OnesIn(s.epochs[i].cons)
  {
    assert Delivered(s, i);
    var d :| DeliveredBy(s, i, d);
    SameSize(d, Peers(s.f));
  }

  // ----- one instance

  lemma ConsCounts(s: Node, k: Key, c: Bin.Replica)
    requires Counts(s) && k.epoch in s.epochs && Sticks(ConsAt(s, k).c, c.c)
    ensures var cons := s.epochs[k.epoch].cons;
      |DecidedIn(cons[k.peer := c])| == |DecidedIn(cons)| + if c.c.decided && !ConsAt(s, k).c.decided then 1 else 0
  {
    hide Counts;
    var cons := s.epochs[k.epoch].cons;
    assert k.peer in DecidedIn(cons) <==> ConsAt(s, k).c.decided;
    PutDecided(cons, k.peer, c);
    if !c.c.decided {
      assert DecidedIn(cons) - {k.peer} == DecidedIn(cons);
    }
  }

  lemma PutDecided(cons: map<PeerID, Bin.Replica>, id: PeerID, c: Bin.Replica)
    ensures DecidedIn(cons[id := c]) == DecidedIn(cons) - {id} + if c.c.decided then {id} else {}
  {
    var a, b := DecidedIn(cons), DecidedIn(cons[id := c]);
    assert forall x :: x in b && x != id ==> x in a;
    assert forall x :: x in a && x != id ==> x in b;
    assert id in b <==> c.c.decided;
  }

  /** SetCons before exec. */
  function PutCons(s: Node, k: Key, c: Bin.Replica): Node {
    var ep := EpochAt(s, k.epoch);
    var decides := c.c.decided && !ConsAt(s, k).c.decided;
    s.(epochs := s.epochs[k.epoch := ep.(cons := ep.cons[k.peer := c], consDone := ep.consDone + if decides then 1 else 0)])
  }

  lemma PutConsKeeps(s: Node, k: Key, c: Bin.Replica)
    requires NodeOK(s) && k.epoch in s.epochs && Sticks(ConsAt(s, k).c, c.c)
    ensures NodeOK(PutCons(s, k, c)) && Onward(s, PutCons(s, k, c))
  {
    var t := PutCons(s, k, c);
    PutConsCounts(s, k, c);
    hide Counts, SlotsOK, RbOK, DeliveryOK;
    PutConsSticks(s, k, c);
    hide PutCons, Sticks, Onward, ConsAt;
    DeliveryFrame(s, t);
    SlotsFrame(s, t);
  }

  lemma PutConsSticks(s: Node, k: Key, c: Bin.Replica)
    requires k.epoch in s.epochs && Sticks(ConsAt(s, k).c, c.c)
    ensures var t := PutCons(s, k, c);
      && t == s.(epochs := t.epochs) && (forall i :: i in s.epochs ==> i in t.epochs)
      && forall i, id :: i in s.epochs && id in s.epochs[i].cons ==>
           id in t.epochs[i].cons && Sticks(s.epochs[i].cons[id].c, t.epochs[i].cons[id].c)
  {
  }

  lemma PutConsCounts(s: Node, k: Key, c: Bin.Replica)
    requires Counts(s) && k.epoch in s.epochs && Sticks(ConsAt(s, k).c, c.c)
    ensures var t := PutCons(s, k, c); Counts(t) && Onward(s, t) && t.log == s.log
  {
    var t := PutCons(s, k, c);
    ConsCounts(s, k, c);
    hide DecidedIn, ReadiedIn, ConsAt, Sticks;
    forall e | e in t.epochs ensures EpochCounts(t, e) {
      assert EpochCounts(s, e);
    }
  }

  lemma SlotsFrame(s: Node, t: Node)
    requires SlotsOK(s) && t.log == s.log && t.id == s.id && t.f == s.f
    ensures SlotsOK(t)
  {
  }

  // ----- requests and exec

  /** A request opens a broadcast in which the replica has cast nothing. */
  lemma OwnRbOK(was: Option<Rb>, self: PeerID, f: nat, cmd: Command)
    requires (was.Some? ==> RbOK(was.value, self, f)) && self in Peers(f) && OwnRb(was, self, cmd).Some?
    ensures var x := OwnRb(was, self, cmd).value;
      && RbOK(x, self, f) && x.status == Slots.PrePrepared
      && (was.Some? ==> Slots.Rank(was.value.status) == 0 && Slots.OwnBallot(was.value, self).None?)
  {
    var s := if was.Some? then was.value else Slots.MakeSlot(0, Some(cmd), Some(Slots.Of(cmd)));
    var c := Slots.Log(s.pCert, self, Slots.Ballot(0, Some(Slots.Of(cmd)))).value;
    assert Slots.Entry(c, 0, self).Some?;
  }

  /** Putting a slot whose status is not Readied before and after. */
  lemma PutUnread(log: map<Key, Rb>, k: Key, x: Rb, e: nat)
    requires x.status != Slots.Committed && (k in log ==> log[k].status != Slots.Committed)
    ensures ReadiedIn(log[k := x], e) == ReadiedIn(log, e)
  {
  }

  lemma OnRequestKeeps(s: Node, cmd: Command)
    requires NodeOK(s)
    ensures NodeOK(OnRequest(s, cmd)) && Onward(s, OnRequest(s, cmd))
  {
    var key := Key(s.nextEpoch, s.id);
    var r := OwnRb(SA.Lookup(s.log, key), s.id, cmd);
    if !s.halted && r.Some? {
      hide Counts, RbOK, OwnRb, DeliveryOK;
      OnRequestCounts(s, cmd);
      OnRequestSlots(s, cmd);
      hide SlotsOK, OnRequest;
      DeliveryFrame(s, OnRequest(s, cmd));
    } else if !s.halted {
      Halts(s);
    }
  }

  lemma OnRequestSlots(s: Node, cmd: Command)
    requires SlotsOK(s) && !s.halted && OwnRb(SA.Lookup(s.log, Key(s.nextEpoch, s.id)), s.id, cmd).Some?
    requires RbOK(OwnRb(SA.Lookup(s.log, Key(s.nextEpoch, s.id)), s.id, cmd).value, s.id, s.f)
    requires !Readied(s.log, Key(s.nextEpoch, s.id))
    ensures var t := OnRequest(s, cmd);
      && SlotsOK(t) && Onward(s, t) && t.delivered == s.delivered && t.nextDeliver == s.nextDeliver && !t.halted
      && StaysReadied(s.log, t.log)
      && forall i :: i in s.epochs ==> t.epochs[i] == s.epochs[i]
  {
    hide RbOK, OwnRb;
  }

  lemma Halts(s: Node)
    requires NodeOK(s)
    ensures NodeOK(s.(halted := true)) && Onward(s, s.(halted := true))
  {
    var t := s.(halted := true);
    forall e | e in t.epochs ensures EpochCounts(t, e) {
      assert EpochCounts(s, e);
    }
    hide Counts, SlotsOK;
    assert SlotsOK(t) by { SlotsFrame(s, t); }
    DeliveryFrame(s, t);
  }

  lemma OnRequestCounts(s: Node, cmd: Command)
    requires Counts(s) && SlotsOK(s) && s.id in Peers(s.f) && !s.halted
    requires OwnRb(SA.Lookup(s.log, Key(s.nextEpoch, s.id)), s.id, cmd).Some?
    ensures RbOK(OwnRb(SA.Lookup(s.log, Key(s.nextEpoch, s.id)), s.id, cmd).value, s.id, s.f) && Counts(OnRequest(s, cmd))
    ensures !Readied(s.log, Key(s.nextEpoch, s.id))
  {
    var key := Key(s.nextEpoch, s.id);
    var was := SA.Lookup(s.log, key);
    assert was.Some? ==> RbOK(was.value, s.id, s.f);
    OwnRbOK(was, s.id, s.f, cmd);
    var x := OwnRb(was, s.id, cmd).value;
    var t := OnRequest(s, cmd);
    hide OwnRb, RbOK, SlotsOK;
    assert t.log == s.log[key := x];
    forall e | e in t.epochs ensures EpochCounts(t, e) {
      PutUnread(s.log, key, x, e);
      if e in s.epochs {
        assert EpochCounts(s, e);
      } else {
        assert ReadiedIn(s.log, e) == {};
      }
    }
  }

  lemma HandOverKeeps(s: Node)
    requires NodeOK(s) && !s.halted && Gate(s) && AllReadied(s, s.nextDeliver) && HasCommands(s, s.nextDeliver)
    ensures NodeOK(HandOver(s)) && Onward(s, HandOver(s))
  {
    HandOverLog(s);
    HandOverDelivers(s);
    hide HandOver, SlotsOK, DeliveryOK;
    forall i | i in HandOver(s).epochs ensures EpochCounts(HandOver(s), i) {
      assert EpochCounts(s, i);
    }
  }

  lemma HandOverLog(s: Node)
    requires Counts(s) && SlotsOK(s) && HasCommands(s, s.nextDeliver)
    ensures var t := HandOver(s);
      && SlotsOK(t) && (forall k :: k in t.log ==> k.epoch in t.epochs) && (forall i :: ReadiedIn(t.log, i) == ReadiedIn(s.log, i))
      && t.log.Keys == s.log.Keys && StaysReadied(s.log, t.log) && s.delivered <= t.delivered && t == s.(log := t.log, delivered := t.delivered, nextDeliver := t.nextDeliver)
  {
    var t := HandOver(s);
    hide RbOK, EpochCounts, OnesIn;
    forall k | k in t.log ensures RbOK(t.log[k], t.id, t.f) {
      PayloadApart(s.log[k], t.log[k], s.id, s.f);
    }
    forall i ensures ReadiedIn(t.log, i) == ReadiedIn(s.log, i) {
      SameReadied(s.log, t.log, i);
    }
  }

  lemma SameReadied(a: map<Key, Rb>, b: map<Key, Rb>, e: nat)
    requires a.Keys == b.Keys && forall k :: k in a ==> b[k].status == a[k].status
    ensures ReadiedIn(a, e) == ReadiedIn(b, e)
  {
  }

  lemma HandOverDelivers(s: Node)
    requires Counts(s) && DeliveryOK(s) && !s.halted && Gate(s) && AllReadied(s, s.nextDeliver) && HasCommands(s, s.nextDeliver)
    requires StaysReadied(s.log, HandOver(s).log)
    ensures DeliveryOK(HandOver(s))
  {
    var e, t := s.nextDeliver, HandOver(s);
    forall i: nat | i < |t.delivered| ensures Delivered(t, i) {
      if i < |s.delivered| {
        assert Delivered(s, i);
        var d :| DeliveredBy(s, i, d);
        EpochFrame(s, t, i, d);
      } else {
        var d := DecidedIn(s.epochs[e].cons);
        assert d * OnesIn(s.epochs[e].cons) == OnesIn(s.epochs[e].cons);
        assert EpochCounts(s, e);
        assert DeliveredBy(t, i, d);
      }
    }
  }

  lemma PayloadApart(x: Rb, y: Rb, self: PeerID, f: nat)
    requires RbOK(x, self, f) && y == x.(payload := y.payload)
    ensures RbOK(y, self, f)
  {
    Slots.PreparesOnly(x, y, f);
  }

  lemma OnwardTransitive(s: Node, t: Node, u: Node)
    requires Onward(s, t) && Onward(t, u)
    ensures Onward(s, u)
  {
  }

  lemma Reproposes(s: Node, k: Key)
    requires NodeOK(s)
    ensures NodeOK(s.(reproposed := s.reproposed + {k})) && Onward(s, s.(reproposed := s.reproposed + {k}))
  {
    var t := s.(reproposed := s.reproposed + {k});
    forall e | e in t.epochs ensures EpochCounts(t, e) {
      assert EpochCounts(s, e);
    }
    hide Counts, SlotsOK;
    assert SlotsOK(t) by { SlotsFrame(s, t); }
    DeliveryFrame(s, t);
  }

  lemma DeliverEpochKeeps(s: Node)
    requires NodeOK(s) && !s.halted && Gate(s) && AllReadied(s, s.nextDeliver) && HasCommands(s, s.nextDeliver)
    ensures NodeOK(DeliverEpoch(s)) && Onward(s, DeliverEpoch(s))
  {
    hide NodeOK, Onward, OnRequest, HandOver;
    var t, own := HandOver(s), Key(s.nextDeliver, s.id);
    HandOverKeeps(s);
    Halts(t);
    OnwardTransitive(s, t, t.(halted := true));
    var u := t.(reproposed := t.reproposed + {own});
    Reproposes(t, own);
    if own in s.log && s.log[own].payload.Some? {
      OnRequestKeeps(u, s.log[own].payload.value);
      OnwardTransitive(t, u, OnRequest(u, s.log[own].payload.value));
      OnwardTransitive(s, t, OnRequest(u, s.log[own].payload.value));
    }
  }

  lemma OnwardSame(s: Node)
    ensures Onward(s, s)
  {
  }

  lemma {:induction false} ExecKeeps(s: Node)
    requires NodeOK(s)
    ensures NodeOK(Exec(s)) && Onward(s, Exec(s))
    decreases |Finished(s)|
  {
    hide NodeOK, Onward, DeliverEpoch, HasCommands;
    OnwardSame(s);
    if !s.halted && Gate(s) && AllReadied(s, s.nextDeliver) {
      if HasCommands(s, s.nextDeliver) {
        DeliverEpochKeeps(s);
        var t := DeliverEpoch(s);
        if !t.halted {
          DeliverConsumes(s);
          ExecKeeps(t);
          OnwardTransitive(s, t, Exec(t));
        }
      } else {
        Halts(s);
      }
    }
  }

  // ----- the instances of a node

  lemma SetConsKeeps(s: Node, k: Key, c: Bin.Replica)
    requires NodeOK(s) && k.epoch in s.epochs && Sticks(ConsAt(s, k).c, c.c)
    ensures NodeOK(SetCons(s, k, c)) && Onward(s, SetCons(s, k, c))
  {
    var t := PutCons(s, k, c);
    assert SetCons(s, k, c) == if c.c.decided && !ConsAt(s, k).c.decided then Exec(t) else t;
    PutConsKeeps(s, k, c);
    hide NodeOK, Onward, SetCons, PutCons, Exec;
    ExecKeeps(t);
    OnwardTransitive(s, t, Exec(t));
  }

  /** No DBFT step takes a decision back. */
  lemma AfterAuxSticks(s: Bin.Replica, f: nat, r: nat)
    ensures Sticks(s.c, Bin.AfterAux(s, f, r).c) && Sticks(s.c, Bin.BroadcastAux(s, f, r).c)
  {
    hide Bin.Passes, Bin.EstOf;
  }

  lemma ProposalSticks(s: Bin.Replica, f: nat)
    ensures Sticks(s.c, Bin.ProposeValue(s, 1, 0).c) && Sticks(s.c, Bin.ProposeDone(s, f, 1).c)
  {
    hide Bin.BroadcastAux;
    forall t: Bin.Replica ensures Sticks(t.c, Bin.BroadcastAux(t, f, 1).c) {
      AfterAuxSticks(t, f, 1);
    }
  }

  lemma TimerSticks(s: Bin.Replica, f: nat, r: nat)
    ensures Sticks(s.c, Bin.OnTimer(s, f, r).c)
  {
    hide Bin.BroadcastAux;
    forall t: Bin.Replica ensures Sticks(t.c, Bin.BroadcastAux(t, f, r).c) {
      AfterAuxSticks(t, f, r);
    }
  }

  lemma ReceiveSticks(s: Bin.Replica, f: nat, e: Bin.Envelope)
    ensures Sticks(s.c, Bin.Receive(s, f, e).c)
  {
    match e.msg
    case Estimate(r, v) => EstimateSticks(s, f, e.from, r, v);
    case Aux(r, values) =>
      hide Bin.AfterAux;
      forall t: Bin.Replica ensures Sticks(t.c, Bin.AfterAux(t, f, r).c) {
        AfterAuxSticks(t, f, r);
      }
  }

  lemma EstimateSticks(s: Bin.Replica, f: nat, from: PeerID, r: nat, v: int)
    ensures Sticks(s.c, Bin.OnEstimate(s, f, from, r, v).c)
  {
    hide Bin.BroadcastAux;
    forall t: Bin.Replica ensures Sticks(t.c, Bin.BroadcastAux(t, f, r).c) {
      AfterAuxSticks(t, f, r);
    }
  }

  lemma ProposeOneKeeps(s: Node, e: nat, id: PeerID)
    requires NodeOK(s) && e in s.epochs
    ensures NodeOK(ProposeOne(s, e, id)) && Onward(s, ProposeOne(s, e, id))
  {
    var key := Key(e, id);
    var c := ConsAt(s, key);
    hide NodeOK, Onward, SetCons, Sticks;
    OnwardSame(s);
    ProposalSticks(c, s.f);
    SetConsKeeps(s, key, Bin.ProposeDone(c, s.f, 1));
    SetConsKeeps(s, key, Bin.ProposeValue(c, 1, 0));
  }

  lemma {:induction false} ProposeAllKeeps(s: Node, e: nat, n: nat)
    requires NodeOK(s) && e in s.epochs
    ensures NodeOK(ProposeAll(s, e, n)) && Onward(s, ProposeAll(s, e, n)) && e in ProposeAll(s, e, n).epochs
  {
    hide NodeOK, ProposeOne;
    OnwardSame(s);
    if n > 0 {
      ProposeAllKeeps(s, e, n - 1);
      var t := ProposeAll(s, e, n - 1);
      ProposeOneKeeps(t, e, n - 1);
      OnwardTransitive(s, t, ProposeOne(t, e, n - 1));
    }
  }

  lemma RBDoneKeeps(s: Node, key: Key)
    requires NodeOK(s) && key.epoch in s.epochs
    ensures NodeOK(RBDone(s, key)) && Onward(s, RBDone(s, key))
  {
    hide NodeOK, Onward, SetCons, Sticks;
    OnwardSame(s);
    Halts(s);
    ProposalSticks(ConsAt(s, key), s.f);
    SetConsKeeps(s, key, Bin.ProposeDone(ConsAt(s, key), s.f, 1));
  }

  lemma AfterReadyKeeps(s: Node, key: Key)
    requires NodeOK(s)
    ensures NodeOK(AfterReady(s, key)) && Onward(s, AfterReady(s, key))
  {
    hide NodeOK, Onward, OnRequest;
    OnwardSame(s);
    Halts(s);
    if key in s.log && s.log[key].payload.Some? {
      OnRequestKeeps(s, s.log[key].payload.value);
    }
  }

  // ----- the broadcasts of a node

  /** What a slot step of a broadcast has to satisfy: Readied is reached once, and announced. */
  ghost predicate RbStep(was: Option<Rb>, r: Slots.Outcome<Command>, self: PeerID, f: nat) {
    && r.Next? && RbOK(r.slot, self, f)
    && (r.committed <==> r.slot.status == Slots.Committed && !(was.Some? && was.value.status == Slots.Committed))
    && (was.Some? && was.value.status == Slots.Committed ==> r.slot.status == Slots.Committed)
  }

  lemma PutReadied(log: map<Key, Rb>, k: Key, r: Slots.Outcome<Command>, self: PeerID, f: nat, e: nat)
    requires RbStep(SA.Lookup(log, k), r, self, f)
    ensures |ReadiedIn(log[k := r.slot], e)| == |ReadiedIn(log, e)| + if r.committed && e == k.epoch then 1 else 0
  {
    hide RbOK, ReadiedIn;
    var x := r.slot;
    if x.status != Slots.Committed {
      PutUnread(log, k, x, e);
    } else if e != k.epoch {
      PutElsewhere(log, k, x, e);
    } else {
      PutRead(log, k, x);
      var a := ReadiedIn(log, e);
      assert r.committed <==> k.peer !in a;
      assert k.peer in a ==> a + {k.peer} == a;
    }
  }

  lemma PutElsewhere(log: map<Key, Rb>, k: Key, x: Rb, e: nat)
    requires e != k.epoch
    ensures ReadiedIn(log[k := x], e) == ReadiedIn(log, e)
  {
  }

  lemma PutRead(log: map<Key, Rb>, k: Key, x: Rb)
    requires x.status == Slots.Committed
    ensures ReadiedIn(log[k := x], k.epoch) == ReadiedIn(log, k.epoch) + {k.peer}
    ensures k.peer in ReadiedIn(log, k.epoch) <==> k in log && log[k].status == Slots.Committed
  {
    var a, b := ReadiedIn(log, k.epoch), ReadiedIn(log[k := x], k.epoch);
    forall p | p in a ensures p in b {
      assert Key(k.epoch, p) in log;
    }
    forall p | p in b ensures p in a + {k.peer} {
      assert Key(k.epoch, p) in log[k := x];
    }
    assert log[k := x][k] == x;
  }

  lemma InstallKeeps(s: Node, key: Key, r: Slots.Outcome<Command>)
    requires NodeOK(s) && RbStep(SA.Lookup(s.log, key), r, s.id, s.f)
    ensures NodeOK(Install(s, key, r)) && Onward(s, Install(s, key, r)) && key.epoch in Install(s, key, r).epochs
  {
    hide RbMsgs, RbOK, Counts, DeliveryOK;
    InstallCounts(s, key, r);
    InstallSlots(s, key, r);
    hide SlotsOK, RbStep, Install;
    DeliveryFrame(s, Install(s, key, r));
  }

  lemma InstallSlots(s: Node, key: Key, r: Slots.Outcome<Command>)
    requires SlotsOK(s) && RbStep(SA.Lookup(s.log, key), r, s.id, s.f)
    ensures var t := Install(s, key, r);
      && SlotsOK(t) && Onward(s, t) && key.epoch in t.epochs && t.delivered == s.delivered && t.nextDeliver == s.nextDeliver
      && t.halted == s.halted && StaysReadied(s.log, t.log) && forall i :: i in s.epochs ==> t.epochs[i].cons == s.epochs[i].cons
  {
    hide RbMsgs, RbOK;
  }

  lemma InstallCounts(s: Node, key: Key, r: Slots.Outcome<Command>)
    requires Counts(s) && RbStep(SA.Lookup(s.log, key), r, s.id, s.f)
    ensures Counts(Install(s, key, r))
  {
    var t := Install(s, key, r);
    assert t.log == s.log[key := r.slot];
    hide RbStep, RbMsgs, ReadiedIn;
    forall e | e in t.epochs ensures EpochCounts(t, e) {
      PutReadied(s.log, key, r, s.id, s.f, e);
      if e in s.epochs {
        assert EpochCounts(s, e);
      } else {
        assert forall k :: k in s.log ==> k.epoch != e;
        NoneReadied(s.log, e);
      }
    }
  }

  lemma NoneReadied(log: map<Key, Rb>, e: nat)
    requires forall k :: k in log ==> k.epoch != e
    ensures ReadiedIn(log, e) == {}
  {
  }

  lemma SendStep(was: Option<Rb>, self: PeerID, f: nat, from: PeerID, cmd: Command)
    requires (was.Some? ==> RbOK(was.value, self, f)) && from in Peers(f) && self in Peers(f) && from != self
    requires Slots.PrePrepareSlot(was, SameCommand, self, f, from, 0, Some(cmd), Slots.Of(cmd)).Next?
    ensures RbStep(was, Slots.PrePrepareSlot(was, SameCommand, self, f, from, 0, Some(cmd), Slots.Of(cmd)), self, f)
  {
    Slots.PrePrepareSlotOK(was, SameCommand, self, f, from, 0, Some(cmd), Slots.Of(cmd));
    hide Slots.Log, Slots.Majority, Slots.GainsOnly;
  }

  lemma EchoStep(was: Option<Rb>, self: PeerID, f: nat, from: PeerID, payload: Option<Command>, digest: Option<Digest>)
    requires (was.Some? ==> RbOK(was.value, self, f)) && from in Peers(f) && self in Peers(f) && from != self
    requires Slots.PrepareSlot(was, self, f, from, 0, payload, digest).Next?
    ensures RbStep(was, Slots.PrepareSlot(was, self, f, from, 0, payload, digest), self, f)
  {
    Slots.PrepareSlotOK(was, self, f, from, 0, payload, digest);
    hide Slots.SlotOK, Slots.Log, Slots.Majority, Slots.GainsOnly;
  }

  lemma ReadyStep(was: Option<Rb>, self: PeerID, f: nat, from: PeerID, payload: Option<Command>, digest: Option<Digest>)
    requires was.Some? ==> RbOK(was.value, self, f)
    requires Slots.CommitSlot(was, f, from, 0, payload, digest).Next?
    ensures RbStep(was, Slots.CommitSlot(was, f, from, 0, payload, digest), self, f)
  {
    Slots.CommitSlotOK(was, self, f, from, 0, payload, digest);
    hide Slots.SlotOK, Slots.Log, Slots.Majority;
  }

  lemma FinishKeeps(s: Node, key: Key, r: Slots.Outcome<Command>)
    requires NodeOK(s) && (r.Next? ==> RbStep(SA.Lookup(s.log, key), r, s.id, s.f))
    ensures NodeOK(Finish(s, key, r)) && Onward(s, Finish(s, key, r))
  {
    hide NodeOK, RbStep, Install, RBDone, Exec, AfterReady, ProposeAll;
    if r.Halt? {
      Halts(s);
    } else {
      var t := Install(s, key, r);
      InstallKeeps(s, key, r);
      if r.committed {
        OnwardSame(t);
        ProposeAllKeeps(t, key.epoch, 3 * t.f + 1);
        var u := TryStart(t, key.epoch);
        RBDoneKeeps(u, key);
        var v := RBDone(u, key);
        ExecKeeps(v);
        AfterReadyKeeps(Exec(v), key);
        hide Onward;
        OnwardTransitive(s, t, u);
        OnwardTransitive(s, u, v);
        OnwardTransitive(s, v, Exec(v));
        OnwardTransitive(s, Exec(v), AfterReady(Exec(v), key));
      }
    }
  }

  /** A broadcast message keeps the counters. */
  lemma OnRbKeeps(s: Node, from: PeerID, m: RbMsg)
    requires NodeOK(s) && from in Peers(s.f) && from != s.id
    ensures NodeOK(OnRb(s, from, m)) && Onward(s, OnRb(s, from, m))
  {
    var was := SA.Lookup(s.log, m.key);
    assert (was.Some? ==> RbOK(was.value, s.id, s.f)) && s.id in Peers(s.f);
    hide NodeOK, Onward, RbOK, RbStep, Finish, Slots.PrePrepareSlot, Slots.PrepareSlot, Slots.CommitSlot;
    OnwardSame(s);
    Halts(s);
    match m.kind
    case Send =>
      if m.payload.Some? {
        var r := Slots.PrePrepareSlot(was, SameCommand, s.id, s.f, from, 0, m.payload, Slots.Of(m.payload.value));
        if r.Next? {
          SendStep(was, s.id, s.f, from, m.payload.value);
        }
        FinishKeeps(s, m.key, r);
      }
    case Echo =>
      var r := Slots.PrepareSlot(was, s.id, s.f, from, 0, m.payload, m.digest);
      if r.Next? {
        EchoStep(was, s.id, s.f, from, m.payload, m.digest);
      }
      FinishKeeps(s, m.key, r);
    case Ready =>
      var r := Slots.CommitSlot(was, s.f, from, 0, m.payload, m.digest);
      if r.Next? {
        ReadyStep(was, s.id, s.f, from, m.payload, m.digest);
      }
      FinishKeeps(s, m.key, r);
  }

  /** So does a consensus message, for whatever peer and round. */
  lemma OnConsKeeps(s: Node, from: PeerID, k: Key, m: Bin.Msg)
    requires NodeOK(s)
    ensures NodeOK(OnCons(s, from, k, m)) && Onward(s, OnCons(s, from, k, m))
  {
    hide NodeOK, Onward, SetCons, Sticks;
    OnwardSame(s);
    Halts(s);
    ReceiveSticks(ConsAt(s, k), s.f, Bin.Envelope(from, m));
    if k.epoch in s.epochs {
      SetConsKeeps(s, k, Bin.Receive(ConsAt(s, k), s.f, Bin.Envelope(from, m)));
    }
  }

  lemma OnTimerKeeps(s: Node, k: Key, r: nat)
    requires NodeOK(s)
    ensures NodeOK(OnTimer(s, k, r)) && Onward(s, OnTimer(s, k, r))
  {
    hide NodeOK, Onward, SetCons, Sticks;
    OnwardSame(s);
    TimerSticks(ConsAt(s, k), s.f, r);
    if k.epoch in s.epochs {
      SetConsKeeps(s, k, Bin.OnTimer(ConsAt(s, k), s.f, r));
    }
  }

  lemma InitialOK(f: nat, id: PeerID, threshold: nat)
    requires id in Peers(f)
    ensures NodeOK(Initial(f, id, threshold))
  {
  }
}
