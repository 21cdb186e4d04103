/** A run in which Dispel delivers an epoch although no peer's instance has decided: broadcast and consensus messages
    for ids that are no peers are accepted and counted.  Replica 3 is faulty; it broadcasts under the ids 10 .. 16,
    and the instances of the last four decide. */
module DispelGate {
  import opened Quorums
  import Slots
  import SA = SlotAgreement
  import Bin = DispelBinary
  import Agr = DispelAgreement
  import opened DispelNode
  import Counters = DispelCounters
  import opened DispelRuns
  import opened DispelSystem

  const CMD := Command(7, 0)

  function Fake(n: nat): Key {
    Key(0, 10 + n)
  }

  // ----- one broadcast

  function Vote(): Slots.Ballot<Command> {
    Slots.Ballot(0, Some(Slots.Of(CMD)))
  }

  /** A certificate in which exactly the senders in q have voted. */
  function Cert(q: set<PeerID>): Slots.Cert<Command> {
    Slots.Cert(0, if q == {} then map[] else map[0 := map p | p in q :: Vote()])
  }

  lemma OneMore(q: set<PeerID>, p: PeerID, r: set<PeerID>)
    requires p !in q && r == q + {p}
    ensures Slots.Log(Cert(q), p, Vote()) == Some(Cert(r))
    ensures Slots.Majority(Cert(r), Vote(), 1) <==> |r| > 2
  {
    assert Slots.Matching(Cert(r), Vote()) == r;
    if q == {} {
      assert map[p := Vote()] == map t | t in r :: Vote();
    } else {
      assert (map t | t in q :: Vote())[p := Vote()] == map t | t in r :: Vote();
      assert map[0 := map t | t in q :: Vote()][0 := map t | t in r :: Vote()] == map[0 := map t | t in r :: Vote()];
    }
  }

  lemma NoVotes()
    ensures Cert({}) == Slots.EmptyCert()
  {
  }

  function Held(status: Slots.Status, q: set<PeerID>, c: set<PeerID>): Rb {
    Slots.Slot(0, status, Some(CMD), Some(Slots.Of(CMD)), Cert(q), Cert(c))
  }

  lemma SlotSend(p: PeerID)
    requires p < 2
    ensures Slots.PrePrepareSlot(None, SameCommand, p, 1, 3, 0, Some(CMD), Slots.Of(CMD)) ==
      Slots.Next(Held(Slots.PrePrepared, {3, p}, {}), Some(Vote()), None, false)
  {
    OneMore({}, 3, {3});
    OneMore({3}, p, {3, p});
    NoVotes();
    assert |{3, p}| == 2;
    hide Slots.Log, Slots.Majority, Cert;
  }

  lemma SlotEcho(p: PeerID, q: PeerID)
    requires p < 2 && q == 1 - p
    ensures Slots.PrepareSlot(Some(Held(Slots.PrePrepared, {3, p}, {})), p, 1, q, 0, None, Some(Slots.Of(CMD))) ==
      Slots.Next(Held(Slots.Prepared, {3, p, q}, {p}), None, Some(Vote()), false)
  {
    OneMore({3, p}, q, {3, p, q});
    OneMore({}, p, {p});
    assert |{3, p, q}| == 3 && |{p}| == 1;
    hide Slots.Log, Slots.Majority, Cert;
  }

  lemma SlotReady(p: PeerID, q: PeerID)
    requires p < 2 && q == 1 - p
    ensures Slots.CommitSlot(Some(Held(Slots.Prepared, {3, p, q}, {p})), 1, 3, 0, None, Some(Slots.Of(CMD))) ==
      Slots.Next(Held(Slots.Prepared, {3, p, q}, {p, 3}), None, None, false)
    ensures Slots.CommitSlot(Some(Held(Slots.Prepared, {3, p, q}, {p, 3})), 1, q, 0, None, Some(Slots.Of(CMD))) ==
      Slots.Next(Held(Slots.Committed, {3, p, q}, {p, 3, q}), None, None, true)
  {
    OneMore({p}, 3, {p, 3});
    OneMore({p, 3}, q, {p, 3, q});
    assert |{p, 3}| == 2 && |{p, 3, q}| == 3;
    hide Slots.Log, Slots.Majority, Cert;
  }

  // ----- one instance

  function AuxOne(): Bin.Msg {
    Bin.Aux(1, {1})
  }

  /** The instance once the faulty replica's Aux has come, once the replica has proposed, and with one and with two
      further Aux messages. */
  function Touched(): Bin.Replica {
    Bin.OnAux(Bin.Initial(), 1, 3, 1, {1})
  }

  function Proposed(): Bin.Replica {
    Bin.ProposeDone(Touched(), 1, 1)
  }

  function Halfway(): Bin.Replica {
    Bin.OnAux(Proposed(), 1, 0, 1, {1})
  }

  function Decided(): Bin.Replica {
    Bin.OnAux(Halfway(), 1, 1, 1, {1})
  }

  function Rounds(r: Bin.Round): map<nat, Bin.Round> {
    map[1 := r]
  }

  lemma TouchedIs()
    ensures Touched().c == Bin.Dbft(Rounds(Bin.MakeRound().(auxEstimates := [{1}])), false, 0, 0, false, false)
    ensures Touched().got == {Bin.Envelope(3, AuxOne())}
  {
    assert [] + [{1}] == [{1}];
    assert Bin.Put(Bin.Initial(), 1, Bin.MakeRound()).c.rs == map[1 := Bin.MakeRound()];
  }

  lemma ProposedIs()
    ensures Proposed().c == Bin.Dbft(Rounds(Bin.Round(1, {1}, {}, map[], true, false, false, [{1}], true)), false, 0, 0, false, false)
    ensures AuxOne() in Proposed().sent && Proposed().got == {Bin.Envelope(3, AuxOne())}
  {
    TouchedIs();
    hide Touched, Bin.Union;
    assert {} + {1} == {1};
  }

  lemma HalfwayIs()
    ensures Halfway().c == Bin.Dbft(Rounds(Bin.Round(1, {1}, {}, map[], true, false, false, [{1}, {1}], true)), false, 0, 0, false, false)
    ensures Halfway().got == {Bin.Envelope(3, AuxOne())} + {Bin.Envelope(0, AuxOne())}
  {
    ProposedIs();
    hide Proposed, Bin.Union;
    assert [{1}] + [{1}] == [{1}, {1}];
  }

  lemma DecidedIs()
    ensures Decided().c.decided && Decided().c.decidedValue == 1
  {
    HalfwayIs();
    hide Halfway;
    var sets := [{1}, {1}] + [{1}];
    assert sets == [{1}, {1}, {1}];
    assert Bin.Union(sets) == {1} by { UnionOnes(); }
    assert |{1}| == 1;
    hide Bin.Union;
    Agr.SingletonIs({1}, 1);
  }

  lemma UnionOnes()
    ensures Bin.Union([{1}, {1}, {1}]) == {1}
  {
    assert [{1}, {1}, {1}][..2] == [{1}, {1}] && [{1}, {1}][..1] == [{1}] && [{1}][..0] == [];
  }

  // ----- the state of replica p

  /** n broadcasts have finished and d instances have decided; none of a peer has. */
  ghost predicate Base(s: Node, p: PeerID, n: nat, d: nat) {
    && s.id == p && s.f == 1 && s.threshold == 3 && !s.halted && s.delivered == [] && s.nextDeliver == 0
    && EpochAt(s, 0).rbDone == n && EpochAt(s, 0).consDone == d && (n > 0 ==> 0 in s.epochs)
    && (forall i: nat :: i < n ==> Done(s, i))
    && (forall id: nat :: id < 10 || id >= 10 + n ==> Idle(s, id))
  }

  predicate Done(s: Node, i: nat) {
    Fake(i) in s.log && s.log[Fake(i)].status == Slots.Committed && s.log[Fake(i)].payload == Some(CMD)
  }

  /** Nothing has happened under an id, or a peer has voted without deciding. */
  predicate Idle(s: Node, id: nat) {
    && !ConsAt(s, Key(0, id)).c.decided
    && (id < 4 || id >= 10 ==> Key(0, id) !in s.log)
    && (id >= 10 ==> ConsAt(s, Key(0, id)) == Bin.Initial())
  }

  /** The same with the broadcast of the next id under way. */
  ghost predicate Amid(s: Node, p: PeerID, n: nat, d: nat, x: Option<Rb>, c: Bin.Replica) {
    && s.id == p && s.f == 1 && s.threshold == 3 && !s.halted && s.delivered == [] && s.nextDeliver == 0
    && EpochAt(s, 0).rbDone == n && EpochAt(s, 0).consDone == d && (n > 0 ==> 0 in s.epochs)
    && (forall i: nat :: i < n ==> Done(s, i))
    && (forall id: nat :: id < 10 || id > 10 + n ==> Idle(s, id))
    && SA.Lookup(s.log, Fake(n)) == x && ConsAt(s, Fake(n)) == c && !c.c.decided
  }

  lemma Enter(s: Node, p: PeerID, n: nat, d: nat)
    requires Base(s, p, n, d)
    ensures Amid(s, p, n, d, None, Bin.Initial())
  {
    assert Idle(s, 10 + n);
  }

  function Message(kind: Kind, n: nat): RbMsg {
    RbMsg(kind, Fake(n), if kind == Send then Some(CMD) else None, if kind == Send then None else Some(Slots.Of(CMD)))
  }

  /** A broadcast step that does not finish. */
  lemma InstallAmid(s: Node, p: PeerID, n: nat, d: nat, x: Option<Rb>, c: Bin.Replica, r: Slots.Outcome<Command>)
    requires Amid(s, p, n, d, x, c) && r.Next? && !r.committed
    ensures Amid(Finish(s, Fake(n), r), p, n, d, Some(r.slot), c) && Finish(s, Fake(n), r).sent == s.sent + RbMsgs(Fake(n), r)
  {
    var t := Finish(s, Fake(n), r);
    assert forall i: nat :: i < n ==> Done(t, i) by {
      forall i: nat | i < n ensures Done(t, i) {
        assert Done(s, i);
      }
    }
    forall id: nat | id < 10 || id > 10 + n ensures Idle(t, id) {
      assert Idle(s, id);
    }
  }

  lemma TakeSend(s: Node, p: PeerID, n: nat, d: nat, c: Bin.Replica)
    requires p < 2 && Amid(s, p, n, d, None, c)
    ensures var t := OnRb(s, 3, Message(Send, n));
      Amid(t, p, n, d, Some(Held(Slots.PrePrepared, {3, p}, {})), c) && Message(Echo, n) in t.sent
  {
    SlotSend(p);
    var r := Slots.Next(Held(Slots.PrePrepared, {3, p}, {}), Some(Vote()), None, false);
    assert OnRb(s, 3, Message(Send, n)) == Finish(s, Fake(n), r) by { hide Slots.PrePrepareSlot, Held, Finish; }
    hide OnRb, Held;
    InstallAmid(s, p, n, d, None, c, r);
  }

  lemma TakeEcho(s: Node, p: PeerID, q: PeerID, n: nat, d: nat, c: Bin.Replica)
    requires p < 2 && q == 1 - p && Amid(s, p, n, d, Some(Held(Slots.PrePrepared, {3, p}, {})), c)
    ensures var t := OnRb(s, q, Message(Echo, n));
      Amid(t, p, n, d, Some(Held(Slots.Prepared, {3, p, q}, {p})), c) && Message(Ready, n) in t.sent
  {
    SlotEcho(p, q);
    var r := Slots.Next(Held(Slots.Prepared, {3, p, q}, {p}), None, Some(Vote()), false);
    assert OnRb(s, q, Message(Echo, n)) == Finish(s, Fake(n), r) by { hide Slots.PrepareSlot, Held, Finish; }
    hide OnRb, Held;
    InstallAmid(s, p, n, d, Some(Held(Slots.PrePrepared, {3, p}, {})), c, r);
  }

  lemma TakeReady(s: Node, p: PeerID, q: PeerID, n: nat, d: nat, c: Bin.Replica)
    requires p < 2 && q == 1 - p && Amid(s, p, n, d, Some(Held(Slots.Prepared, {3, p, q}, {p})), c)
    ensures var t := OnRb(s, 3, Message(Ready, n));
      Amid(t, p, n, d, Some(Held(Slots.Prepared, {3, p, q}, {p, 3})), c) && t.sent >= s.sent
  {
    SlotReady(p, q);
    var r := Slots.Next(Held(Slots.Prepared, {3, p, q}, {p, 3}), None, None, false);
    assert OnRb(s, 3, Message(Ready, n)) == Finish(s, Fake(n), r) by { hide Slots.CommitSlot, Held, Finish; }
    hide OnRb, Held;
    InstallAmid(s, p, n, d, Some(Held(Slots.Prepared, {3, p, q}, {p})), c, r);
  }

  // ----- the broadcast finishes

  /** What proposing for the peers leaves alone. */
  ghost predicate PeersOnly(s: Node, t: Node) {
    && t == s.(epochs := t.epochs) && 0 in t.epochs
    && t.epochs[0].rbDone == EpochAt(s, 0).rbDone && t.epochs[0].consDone == EpochAt(s, 0).consDone
    && (forall id: nat :: id >= 4 ==> ConsAt(t, Key(0, id)) == ConsAt(s, Key(0, id)))
    && (forall id: nat :: id < 4 ==> !ConsAt(t, Key(0, id)).c.decided)
  }

  lemma {:induction false} ProposeAllPeers(s: Node, m: nat)
    requires m <= 4 && 0 in s.epochs && !s.halted && forall id: nat :: id < 4 ==> Idle(s, id)
    ensures PeersOnly(s, ProposeAll(s, 0, m))
    decreases m
  {
    if m > 0 {
      ProposeAllPeers(s, m - 1);
      var t := ProposeAll(s, 0, m - 1);
      assert Idle(s, m - 1);
      hide Exec, ProposeAll;
      ProposePeer(t, m - 1);
      assert ProposeAll(s, 0, m) == ProposeOne(t, 0, m - 1) by { UnfoldAll(s, m); }
    } else {
      forall id: nat | id < 4 ensures !ConsAt(s, Key(0, id)).c.decided {
        assert Idle(s, id);
      }
    }
  }

  lemma UnfoldAll(s: Node, m: nat)
    requires m > 0
    ensures ProposeAll(s, 0, m) == ProposeOne(ProposeAll(s, 0, m - 1), 0, m - 1)
  {
  }

  lemma ProposePeer(s: Node, id: nat)
    requires 0 in s.epochs && !s.halted && Key(0, id) !in s.log && !ConsAt(s, Key(0, id)).c.decided
    ensures var t := ProposeOne(s, 0, id);
      && t == s.(epochs := t.epochs) && 0 in t.epochs
      && t.epochs[0].rbDone == s.epochs[0].rbDone && t.epochs[0].consDone == s.epochs[0].consDone
      && (forall j: nat :: j != id ==> ConsAt(t, Key(0, j)) == ConsAt(s, Key(0, j))) && !ConsAt(t, Key(0, id)).c.decided
  {
    hide Exec;
  }

  /** An instance that does not decide. */
  lemma SetUndecided(s: Node, p: PeerID, n: nat, d: nat, x: Option<Rb>, b: Bin.Replica, c: Bin.Replica)
    requires Amid(s, p, n, d, x, b) && 0 in s.epochs && !c.c.decided
    ensures Amid(SetCons(s, Fake(n), c), p, n, d, x, c) && SetCons(s, Fake(n), c).sent == s.sent && 0 in SetCons(s, Fake(n), c).epochs
  {
    var t := SetCons(s, Fake(n), c);
    hide Exec;
    forall i: nat | i < n ensures Done(t, i) {
      assert Done(s, i);
    }
    forall id: nat | id < 10 || id > 10 + n ensures Idle(t, id) {
      assert Idle(s, id);
    }
  }

  /** The gate is shut as long as fewer than four instances have decided. */
  lemma Shut(s: Node, n: nat)
    requires s.f == 1 && s.nextDeliver == 0 && EpochAt(s, 0).consDone < 4 && s.id < 2
    ensures Exec(s) == s && AfterReady(s, Fake(n)) == s
  {
  }

  /** The broadcast counted, before anything follows from it. */
  ghost predicate Counted(s: Node, p: PeerID, n: nat, d: nat, c: Bin.Replica) {
    && s.id == p && s.f == 1 && s.threshold == 3 && !s.halted && s.delivered == [] && s.nextDeliver == 0 && 0 in s.epochs
    && s.epochs[0].rbDone == n + 1 && s.epochs[0].consDone == d
    && (forall i: nat :: i <= n ==> Done(s, i))
    && (forall id: nat :: id < 10 || id > 10 + n ==> Idle(s, id))
    && ConsAt(s, Fake(n)) == c
  }

  lemma InstallCounted(s: Node, p: PeerID, q: PeerID, n: nat, d: nat, x: Option<Rb>, c: Bin.Replica)
    requires Amid(s, p, n, d, x, c)
    ensures var r := Slots.Next(Held(Slots.Committed, {3, p, q}, {p, 3, q}), None, None, true);
      Counted(Install(s, Fake(n), r), p, n, d, c) && (n >= 3 && c == Touched() ==> Fake(n).peer in Install(s, Fake(n), r).epochs[0].cons)
  {
    var r := Slots.Next(Held(Slots.Committed, {3, p, q}, {p, 3, q}), None, None, true);
    var t := Install(s, Fake(n), r);
    forall i: nat | i <= n ensures Done(t, i) {
      assert i < n ==> Done(s, i);
    }
    forall id: nat | id < 10 || id > 10 + n ensures Idle(t, id) {
      assert Idle(s, id);
    }
    if n >= 3 && c == Touched() {
      TouchedIs();
    }
  }

  lemma StartCounted(s: Node, p: PeerID, n: nat, d: nat, c: Bin.Replica)
    requires Counted(s, p, n, d, c)
    ensures Counted(TryStart(s, 0), p, n, d, c)
    ensures n >= 3 && Fake(n).peer in s.epochs[0].cons ==> Fake(n).peer in TryStart(s, 0).epochs[0].cons
  {
    if n == 2 {
      forall id: nat | id < 4 ensures Idle(s, id) {
        assert id < 10;
      }
      ProposeAllPeers(s, 4);
      var t := ProposeAll(s, 0, 4);
      hide ProposeAll;
      forall i: nat | i <= n ensures Done(t, i) {
        assert Done(s, i);
      }
      forall id: nat | id < 10 || id > 10 + n ensures Idle(t, id) {
        assert Idle(s, id);
      }
    }
  }

  lemma UpToFrom(s: Node, p: PeerID, n: nat, d: nat, c: Bin.Replica)
    requires Counted(s, p, n, d, c)
    ensures n < 3 && c == Bin.Initial() ==> Base(s, p, n + 1, d)
    ensures forall id: nat :: id < 10 || id >= 10 + n + 1 ==> Idle(s, id)
  {
  }

  /** The last Ready: the broadcast has finished, and from the fourth one on the replica proposes 1. */
  lemma Finishes(s: Node, p: PeerID, q: PeerID, n: nat, d: nat, c: Bin.Replica)
    requires p < 2 && q == 1 - p && d < 4 && Amid(s, p, n, d, Some(Held(Slots.Prepared, {3, p, q}, {p, 3})), c)
    requires c == if n < 3 then Bin.Initial() else Touched()
    ensures var t := OnRb(s, q, Message(Ready, n));
      Base(t, p, n + 1, d) && (n >= 3 ==> ConsAt(t, Fake(n)) == Proposed())
  {
    hide Held, Finish, Base, Counted, Touched, Proposed;
    var r := Slots.Next(Held(Slots.Committed, {3, p, q}, {p, 3, q}), None, None, true);
    LastReady(s, p, q, n, d, c);
    InstallCounted(s, p, q, n, d, Some(Held(Slots.Prepared, {3, p, q}, {p, 3})), c);
    hide Amid, OnRb;
    FinishCounted(s, p, n, d, c, r);
  }

  lemma LastReady(s: Node, p: PeerID, q: PeerID, n: nat, d: nat, c: Bin.Replica)
    requires p < 2 && q == 1 - p && Amid(s, p, n, d, Some(Held(Slots.Prepared, {3, p, q}, {p, 3})), c)
    ensures OnRb(s, q, Message(Ready, n)) ==
      Finish(s, Fake(n), Slots.Next(Held(Slots.Committed, {3, p, q}, {p, 3, q}), None, None, true))
  {
    SlotReady(p, q);
    hide Slots.CommitSlot, Held, Finish;
  }

  lemma FinishCounted(s: Node, p: PeerID, n: nat, d: nat, c: Bin.Replica, r: Slots.Outcome<Command>)
    requires r.Next? && r.committed && d < 4 && p < 2 && c == (if n < 3 then Bin.Initial() else Touched())
    requires Counted(Install(s, Fake(n), r), p, n, d, c) && (n >= 3 ==> Fake(n).peer in Install(s, Fake(n), r).epochs[0].cons)
    ensures var t := Finish(s, Fake(n), r);
      Base(t, p, n + 1, d) && (n >= 3 ==> ConsAt(t, Fake(n)) == Proposed())
  {
    hide Install, TryStart, RBDone, Exec, AfterReady, Touched, Proposed;
    var a := Install(s, Fake(n), r);
    StartCounted(a, p, n, d, c);
    var b := TryStart(a, 0);
    DoneCounted(b, p, n, d, c);
    Shut(RBDone(b, Fake(n)), n);
  }

  lemma DoneCounted(s: Node, p: PeerID, n: nat, d: nat, c: Bin.Replica)
    requires Counted(s, p, n, d, c) && d < 4 && c == (if n < 3 then Bin.Initial() else Touched())
    requires n >= 3 ==> Fake(n).peer in s.epochs[0].cons
    ensures var t := RBDone(s, Fake(n));
      Base(t, p, n + 1, d) && (n >= 3 ==> ConsAt(t, Fake(n)) == Proposed())
  {
    UpToFrom(s, p, n, d, c);
    if n >= 3 {
      TouchedIs();
      ProposedIs();
      hide Touched, Proposed, Exec;
      var t := SetCons(s, Fake(n), Proposed());
      assert RBDone(s, Fake(n)) == t by { assert Proposed() == Bin.ProposeDone(Touched(), 1, 1) by { ProposedFrom(); } }
      forall i: nat | i < n + 1 ensures Done(t, i) {
        assert Done(s, i);
      }
      forall id: nat | id < 10 || id >= 10 + n + 1 ensures Idle(t, id) {
        assert Idle(s, id);
      }
    }
  }

  lemma ProposedFrom()
    ensures Proposed() == Bin.ProposeDone(Touched(), 1, 1)
  {
  }

  // ----- the instance decides

  /** An instance of a finished broadcast that does not decide yet. */
  lemma StillBase(s: Node, p: PeerID, n: nat, d: nat, i: nat, c: Bin.Replica)
    requires Base(s, p, n, d) && i < n && !c.c.decided
    ensures Base(SetCons(s, Fake(i), c), p, n, d) && ConsAt(SetCons(s, Fake(i), c), Fake(i)) == c
  {
    var t := SetCons(s, Fake(i), c);
    hide Exec;
    forall j: nat | j < n ensures Done(t, j) {
      assert Done(s, j);
    }
    forall id: nat | id < 10 || id >= 10 + n ensures Idle(t, id) {
      assert Idle(s, id);
    }
  }

  function SetDecided(s: Node, k: Key, c: Bin.Replica): Node {
    var ep := EpochAt(s, k.epoch);
    s.(epochs := s.epochs[k.epoch := ep.(cons := ep.cons[k.peer := c], consDone := ep.consDone + 1)])
  }

  /** One that decides: it is counted. */
  lemma MoreDecided(s: Node, p: PeerID, n: nat, d: nat, i: nat, c: Bin.Replica)
    requires Base(s, p, n, d) && i < n && c.c.decided && !ConsAt(s, Fake(i)).c.decided
    ensures Base(SetDecided(s, Fake(i), c), p, n, d + 1) && SetCons(s, Fake(i), c) == Exec(SetDecided(s, Fake(i), c))
  {
    var t := SetDecided(s, Fake(i), c);
    hide Exec;
    forall j: nat | j < n ensures Done(t, j) {
      assert Done(s, j);
    }
    forall id: nat | id < 10 || id >= 10 + n ensures Idle(t, id) {
      assert Idle(s, id);
    }
  }

  lemma {:induction false} ExecKeeps(s: Node)
    ensures var t := Exec(s); s.delivered <= t.delivered && forall k :: ConsAt(t, k) == ConsAt(s, k)
    decreases |Finished(s)|
  {
    if !s.halted && Gate(s) && AllReadied(s, s.nextDeliver) && HasCommands(s, s.nextDeliver) {
      var t := DeliverEpoch(s);
      DeliverKeeps(s);
      hide DeliverEpoch, Gate, AllReadied, HasCommands;
      if !t.halted {
        DeliverConsumes(s);
        ExecKeeps(t);
      }
    }
  }

  lemma DeliverKeeps(s: Node)
    requires HasCommands(s, s.nextDeliver)
    ensures var t := DeliverEpoch(s); s.delivered < t.delivered && forall k :: ConsAt(t, k) == ConsAt(s, k)
  {
  }

  /** The gate has opened: the epoch is delivered, and still no peer's instance has decided. */
  lemma GateOpens(s: Node, p: PeerID)
    requires Base(s, p, 7, 4)
    ensures Exec(s).delivered != [] && forall id: nat :: id < 4 ==> !ConsAt(Exec(s), Key(0, id)).c.decided
  {
    forall id: nat | id < 10 || id >= 17 ensures id !in OnesIn(EpochAt(s, 0).cons) {
      assert Idle(s, id);
    }
    forall id: nat | 10 <= id < 17
      ensures Key(0, id) in s.log && s.log[Key(0, id)].payload.Some? && s.log[Key(0, id)].status == Slots.Committed
    {
      assert Done(s, id - 10);
    }
    forall id: nat | id < 4 ensures !ConsAt(s, Key(0, id)).c.decided {
      assert Idle(s, id);
    }
    ExecKeeps(s);
    DeliverKeeps(s);
    var t := DeliverEpoch(s);
    hide DeliverEpoch;
    assert Gate(s) && AllReadied(s, 0) && HasCommands(s, 0);
    if !t.halted {
      DeliverConsumes(s);
      ExecKeeps(t);
      assert Exec(s) == Exec(t);
    }
  }

  // ----- the run

  lemma {:induction false} ValidAppend(sys: System, evs: seq<Event>, ev: Event)
    requires ValidRun(sys, evs) && Enabled(RunEnds(sys, evs), ev)
    ensures ValidRun(sys, evs + [ev]) && RunEnds(sys, evs + [ev]) == After(RunEnds(sys, evs), ev)
    decreases |evs|
  {
    hide Enabled, After;
    if evs == [] {
      assert evs + [ev] == [ev] && [ev][1..] == [];
    } else {
      assert (evs + [ev])[0] == evs[0] && (evs + [ev])[1..] == evs[1..] + [ev];
      ValidAppend(After(sys, evs[0]), evs[1..], ev);
    }
  }

  lemma Then(sys: System, ev: Event)
    requires Reached(sys) && Enabled(sys, ev)
    ensures Reached(After(sys, ev))
  {
    hide Start, Enabled, After;
    var start, evs :| Start(start) && ValidRun(start, evs) && RunEnds(start, evs) == sys;
    ValidAppend(start, evs, ev);
  }

  /** Replicas 0, 1 and 2 are correct, and the states of the first two. */
  ghost predicate Stage(sys: System, a: Node, b: Node) {
    && Reached(sys) && sys.f == 1 && sys.faulty == {3} && sys.nodes.Keys == {0, 1, 2}
    && sys.nodes[0] == a && sys.nodes[1] == b
  }

  function Of(p: PeerID, a: Node, b: Node): Node {
    if p == 0 then a else b
  }

  lemma Hears(sys: System, a: Node, b: Node, p: PeerID, from: PeerID, m: RbMsg) returns (after: System)
    requires Stage(sys, a, b) && p < 2 && (from == 3 || (from == 1 - p && m in Of(from, a, b).sent))
    ensures var t := OnRb(Of(p, a, b), from, m); Stage(after, if p == 0 then t else a, if p == 0 then b else t)
  {
    hide Reached, OnRb;
    Then(sys, Broadcast(p, from, m));
    after := After(sys, Broadcast(p, from, m));
  }

  lemma Takes(sys: System, a: Node, b: Node, p: PeerID, from: PeerID, n: nat) returns (after: System)
    requires Stage(sys, a, b) && p < 2
    requires from == 3 || (from < 2 && AuxOne() in ConsAt(Of(from, a, b), Fake(n)).sent)
    requires forall e :: e in ConsAt(Of(p, a, b), Fake(n)).got ==> e.from != from
    ensures var t := OnCons(Of(p, a, b), from, Fake(n), AuxOne()); Stage(after, if p == 0 then t else a, if p == 0 then b else t)
  {
    hide Reached, OnCons, ConsAt;
    Then(sys, Consensus(p, from, Fake(n), AuxOne()));
    after := After(sys, Consensus(p, from, Fake(n), AuxOne()));
  }

  lemma ConsIs(s: Node, from: PeerID, n: nat)
    requires !s.halted && 0 in s.epochs && s.f == 1
    ensures OnCons(s, from, Fake(n), AuxOne()) == SetCons(s, Fake(n), Bin.OnAux(ConsAt(s, Fake(n)), 1, from, 1, {1}))
  {
    hide SetCons, Bin.OnAux;
  }

  /** Where the instances of the late broadcasts start: the faulty replica speaks first. */
  function StartOf(n: nat): Bin.Replica {
    if n < 3 then Bin.Initial() else Touched()
  }

  lemma Touch(s: Node, p: PeerID, n: nat, d: nat)
    requires n >= 3 && Amid(s, p, n, d, None, Bin.Initial())
    ensures Amid(OnCons(s, 3, Fake(n), AuxOne()), p, n, d, None, Touched())
  {
    ConsIs(s, 3, n);
    TouchedIs();
    hide Touched, OnCons, SetCons;
    SetUndecided(s, p, n, d, None, Bin.Initial(), Touched()) by { assert !Touched().c.decided; }
    assert Touched() == Bin.OnAux(Bin.Initial(), 1, 3, 1, {1}) by { TouchedFrom(); }
  }

  lemma TouchedFrom()
    ensures Touched() == Bin.OnAux(Bin.Initial(), 1, 3, 1, {1}) && Bin.Initial().got == {}
  {
  }

  lemma Opens(sys: System, a: Node, b: Node, n: nat, d: nat) returns (after: System, x: Node, y: Node)
    requires Stage(sys, a, b) && Base(a, 0, n, d) && Base(b, 1, n, 0)
    ensures Stage(after, x, y) && Amid(x, 0, n, d, None, StartOf(n)) && Amid(y, 1, n, 0, None, StartOf(n))
  {
    Enter(a, 0, n, d);
    Enter(b, 1, n, 0);
    TouchedFrom();
    after, x, y := sys, a, b;
    if n >= 3 {
      Touch(a, 0, n, d);
      Touch(b, 1, n, 0);
      assert ConsAt(a, Fake(n)) == ConsAt(b, Fake(n)) == Bin.Initial();
      hide Stage, Base, Amid, OnCons, Touched, ConsAt;
      x := OnCons(a, 3, Fake(n), AuxOne());
      y := OnCons(b, 3, Fake(n), AuxOne());
      after := Takes(sys, a, b, 0, 3, n);
      after := Takes(after, x, b, 1, 3, n);
    }
  }

  /** The faulty replica's broadcast under the next id finishes at both. */
  lemma Spreads(sys: System, a: Node, b: Node, n: nat, d: nat) returns (after: System, x: Node, y: Node)
    requires Stage(sys, a, b) && d < 4 && Amid(a, 0, n, d, None, StartOf(n)) && Amid(b, 1, n, 0, None, StartOf(n))
    ensures Stage(after, x, y) && Base(x, 0, n + 1, d) && Base(y, 1, n + 1, 0)
    ensures n >= 3 ==> ConsAt(x, Fake(n)) == Proposed() && ConsAt(y, Fake(n)) == Proposed()
  {
    hide Stage, Base, Amid, OnRb, Touched, Proposed, Held, ConsAt, Message;
    var c := StartOf(n);
    after, x, y := sys, a, b;
    TakeSend(x, 0, n, d, c);
    TakeSend(y, 1, n, 0, c);
    after := Hears(after, x, y, 0, 3, Message(Send, n));
    x := OnRb(x, 3, Message(Send, n));
    after := Hears(after, x, y, 1, 3, Message(Send, n));
    y := OnRb(y, 3, Message(Send, n));
    TakeEcho(x, 0, 1, n, d, c);
    TakeEcho(y, 1, 0, n, 0, c);
    var u, v := OnRb(x, 1, Message(Echo, n)), OnRb(y, 0, Message(Echo, n));
    after := Echoes(after, x, y, n);
    TakeReady(u, 0, 1, n, d, c);
    TakeReady(v, 1, 0, n, 0, c);
    after := Hears(after, u, v, 0, 3, Message(Ready, n));
    u := OnRb(u, 3, Message(Ready, n));
    after := Hears(after, u, v, 1, 3, Message(Ready, n));
    v := OnRb(v, 3, Message(Ready, n));
    Finishes(u, 0, 1, n, d, c);
    Finishes(v, 1, 0, n, 0, c);
    x, y := OnRb(u, 1, Message(Ready, n)), OnRb(v, 0, Message(Ready, n));
    after := Readies(after, u, v, n);
  }

  lemma SentStays(sys: System, a: Node, b: Node, m: RbMsg)
    requires Stage(sys, a, b)
    ensures a.sent <= OnRb(a, 1, m).sent
  {
    hide Inv, Counters.NodeOK, OnRb, Reached;
    ReachedInv(sys);
    assert Counters.NodeOK(a);
    InPeers(a);
    Counters.OnRbKeeps(a, 1, m) by { IdOf(sys, a, b); }
  }

  lemma InPeers(s: Node)
    requires Counters.NodeOK(s)
    ensures s.id in Peers(s.f)
  {
  }

  lemma IdOf(sys: System, a: Node, b: Node)
    requires Stage(sys, a, b)
    ensures a.id == 0 && 1 in Peers(a.f)
  {
    hide Reached;
    ReachedConfig(sys);
  }

  lemma ReachedConfig(sys: System)
    requires Reached(sys) && 0 in sys.nodes && sys.f == 1
    ensures sys.nodes[0].id == 0 && sys.nodes[0].f == 1
  {
    hide Counters.NodeOK, Reached;
    ReachedInv(sys);
  }

  lemma Echoes(sys: System, a: Node, b: Node, n: nat) returns (after: System)
    requires Stage(sys, a, b) && Message(Echo, n) in a.sent && Message(Echo, n) in b.sent
    ensures Stage(after, OnRb(a, 1, Message(Echo, n)), OnRb(b, 0, Message(Echo, n)))
  {
    hide Stage, OnRb, Message;
    after := Hears(sys, a, b, 0, 1, Message(Echo, n));
    SentStays(sys, a, b, Message(Echo, n));
    after := Hears(after, OnRb(a, 1, Message(Echo, n)), b, 1, 0, Message(Echo, n));
  }

  lemma Readies(sys: System, a: Node, b: Node, n: nat) returns (after: System)
    requires Stage(sys, a, b) && Message(Ready, n) in a.sent && Message(Ready, n) in b.sent
    ensures Stage(after, OnRb(a, 1, Message(Ready, n)), OnRb(b, 0, Message(Ready, n)))
  {
    hide Stage, OnRb, Message;
    after := Hears(sys, a, b, 0, 1, Message(Ready, n));
    SentStays(sys, a, b, Message(Ready, n));
    after := Hears(after, OnRb(a, 1, Message(Ready, n)), b, 1, 0, Message(Ready, n));
  }

  lemma DecideStep(s: Node, n: nat, d: nat)
    requires n >= 3 && d < 4 && Base(s, 0, n + 1, d) && ConsAt(s, Fake(n)) == Proposed()
    ensures var t := OnCons(s, 0, Fake(n), AuxOne());
      var u := SetDecided(t, Fake(n), Decided());
      && Base(t, 0, n + 1, d) && ConsAt(t, Fake(n)) == Halfway() && Base(u, 0, n + 1, d + 1)
      && OnCons(t, 1, Fake(n), AuxOne()) == Exec(u)
  {
    HalfwayIs();
    DecidedIs();
    hide Proposed, Halfway, Decided, SetCons, Exec;
    ConsIs(s, 0, n);
    assert Halfway() == Bin.OnAux(Proposed(), 1, 0, 1, {1}) && Decided() == Bin.OnAux(Halfway(), 1, 1, 1, {1}) by { StepsOf(); }
    StillBase(s, 0, n + 1, d, n, Halfway());
    var t := OnCons(s, 0, Fake(n), AuxOne());
    assert t == SetCons(s, Fake(n), Halfway());
    hide OnCons;
    ConsIs(t, 1, n);
    MoreDecided(t, 0, n + 1, d, n, Decided());
  }

  lemma StepsOf()
    ensures Halfway() == Bin.OnAux(Proposed(), 1, 0, 1, {1}) && Decided() == Bin.OnAux(Halfway(), 1, 1, 1, {1})
  {
  }

  /** Two more Aux messages, its own and replica 1's, let replica 0 decide the instance. */
  lemma Decides(sys: System, a: Node, b: Node, n: nat, d: nat) returns (after: System, x: Node)
    requires Stage(sys, a, b) && n >= 3 && d < 4 && Base(a, 0, n + 1, d)
    requires ConsAt(a, Fake(n)) == Proposed() && ConsAt(b, Fake(n)) == Proposed()
    ensures Base(x, 0, n + 1, d + 1) && Stage(after, Exec(x), b)
  {
    DecideStep(a, n, d);
    ProposedIs();
    HalfwayIs();
    hide Stage, Base, OnCons, ConsAt, Proposed, Halfway, Decided, SetDecided, Exec;
    var t := OnCons(a, 0, Fake(n), AuxOne());
    after := Takes(sys, a, b, 0, 0, n);
    after := Takes(after, t, b, 0, 1, n);
    x := SetDecided(t, Fake(n), Decided());
  }

  lemma StillShut(s: Node, n: nat, d: nat)
    requires Base(s, 0, n, d) && d < 4
    ensures Exec(s) == s
  {
    Shut(s, 0);
  }

  function DecidedBy(n: nat): nat {
    if n <= 3 then 0 else n - 3
  }

  lemma Begins() returns (sys: System)
    ensures Stage(sys, Initial(1, 0, 3), Initial(1, 1, 3))
    ensures Base(Initial(1, 0, 3), 0, 0, 0) && Base(Initial(1, 1, 3), 1, 0, 0)
  {
    hide Reached, Initial, Base;
    sys := System(1, {3}, map p: PeerID | p in {0, 1, 2} :: Initial(1, p, 3));
    StartReached(sys);
    BaseStart(0);
    BaseStart(1);
  }

  lemma StartReached(sys: System)
    requires sys == System(1, {3}, map p: PeerID | p in {0, 1, 2} :: Initial(1, p, 3))
    ensures Reached(sys)
  {
    assert Start(sys) by {
      hide Initial;
      assert Peers(1) == {0, 1, 2, 3};
      forall p | p in sys.nodes ensures exists t :: sys.nodes[p] == Initial(sys.f, p, t) {
        assert sys.nodes[p] == Initial(sys.f, p, 3);
      }
    }
    hide Start;
    assert ValidRun(sys, []) && RunEnds(sys, []) == sys;
  }

  lemma BaseStart(p: PeerID)
    ensures Base(Initial(1, p, 3), p, 0, 0)
  {
  }

  lemma {:induction false} Rounds7(n: nat) returns (sys: System, a: Node, b: Node)
    requires n < 7
    ensures Stage(sys, a, b) && Base(a, 0, n, DecidedBy(n)) && Base(b, 1, n, 0)
  {
    hide Stage, Base, Initial;
    if n == 0 {
      sys := Begins();
      a, b := Initial(1, 0, 3), Initial(1, 1, 3);
    } else {
      sys, a, b := Rounds7(n - 1);
      sys, a, b := Opens(sys, a, b, n - 1, DecidedBy(n - 1));
      sys, a, b := Spreads(sys, a, b, n - 1, DecidedBy(n - 1));
      if n > 3 {
        sys, a := Decides(sys, a, b, n - 1, DecidedBy(n - 1));
        StillShut(a, n, DecidedBy(n));
      }
    }
  }

  /** The gate opens on an epoch in which no peer's instance has decided, and the epoch is delivered. */
  lemma DeliveredUndecided() returns (sys: System)
    ensures Reached(sys) && |sys.faulty| <= sys.f && 0 in sys.nodes && sys.nodes[0].delivered != []
    ensures forall id :: id in Peers(sys.f) ==> !ConsAt(sys.nodes[0], Key(0, id)).c.decided
  {
    hide Base, Exec, ConsAt, Reached;
    var a, b;
    sys, a, b := Rounds7(6);
    sys, a, b := Opens(sys, a, b, 6, 3);
    sys, a, b := Spreads(sys, a, b, 6, 3);
    sys, a := Decides(sys, a, b, 6, 3);
    GateOpens(a, 0);
    assert |{3}| == 1;
  }
}
