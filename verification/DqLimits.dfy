/** Where DQPBFT does not keep its word: onPrePrepare does not ask whether the sender owns the InstanceID, and
    onRequest overwrites whatever the log holds under the next own id.  Together they let an owner vote twice. */
module DqLimits {
  import opened Quorums
  import opened Slots
  import opened SlotAgreement
  import opened DqNode
  import opened DqExec
  import opened DqOrdering
  import opened DqReplication
  import opened DqRuns
  import opened DqSystem

  // ----- a run with f == 1 in which replica 3 is faulty and leads the ordering layer

  const KEY := InstanceID(0, 0)

  function Cmd(i: int): Command { Command(i, 0) }

  function Vote(i: int): Ballot<Command> { Ballot(0, Some(Of(Cmd(i)))) }

  /** A certificate in which exactly the senders in q have cast b, in view 0. */
  function Uniform(q: set<PeerID>, b: Ballot<Command>): Cert<Command> {
    Cert(0, if q == {} then map[] else map[0 := map p | p in q :: b])
  }

  function Held(status: Status, i: int, q: set<PeerID>, c: set<PeerID>): Slot<Command> {
    Slot(0, status, Some(Cmd(i)), Some(Of(Cmd(i))), Uniform(q, Vote(i)), Uniform(c, Vote(i)))
  }

  lemma UniformLog(q: set<PeerID>, p: PeerID, i: int)
    requires p !in q
    ensures Log(Uniform(q, Vote(i)), p, Vote(i)) == Some(Uniform(q + {p}, Vote(i)))
  {
    if q == {} {
      assert map[p := Vote(i)] == map r | r in q + {p} :: Vote(i);
    } else {
      assert (map r | r in q :: Vote(i))[p := Vote(i)] == map r | r in q + {p} :: Vote(i);
      assert map[0 := map r | r in q :: Vote(i)][0 := map r | r in q + {p} :: Vote(i)] == map[0 := map r | r in q + {p} :: Vote(i)];
    }
  }

  lemma UniformMajority(q: set<PeerID>, i: int)
    ensures Majority(Uniform(q, Vote(i)), Vote(i), 1) <==> |q| > 2
  {
    assert Matching(Uniform(q, Vote(i)), Vote(i)) == q;
  }

  function PrePrepareMsgOf(i: int): Msg<InstanceID, Command> { Msg(PrePrepareMsg, 0, KEY, Some(Cmd(i)), None) }
  function PrepareMsgOf(i: int): Msg<InstanceID, Command> { Msg(PrepareMsg, 0, KEY, None, Some(Of(Cmd(i)))) }
  function CommitMsgOf(i: int): Msg<InstanceID, Command> { Msg(CommitMsg, 0, KEY, None, Some(Of(Cmd(i)))) }

  /** A replica whose ordering log is empty, with slot x under KEY. */
  ghost predicate At(sys: System, p: PeerID, x: Option<Slot<Command>>) {
    && p in sys.nodes && p != 3
    && var s := sys.nodes[p];
       s.id == p && s.f == 1 && s.oview == 3 && s.olog == map[] && s.nextODeliver == 0 && !s.halted && Lookup(s.log, KEY) == x
  }

  function Post(p: PeerID, out: Option<Body>): set<Envelope> {
    if out.Some? then {Envelope(p, out.value)} else {}
  }

  /** The same replica with another slot, and what it has sent on the net. */
  ghost predicate Became(sys: System, after: System, p: PeerID, x: Slot<Command>, out: Option<Body>) {
    && p in sys.nodes && At(after, p, Some(x)) && after.f == sys.f && after.faulty == sys.faulty && sys.net <= after.net
    && (forall q :: q in sys.nodes && q != p ==> q in after.nodes && after.nodes[q] == sys.nodes[q])
    && Post(p, out) <= after.net
  }

  lemma Votes(sys: System, p: PeerID, from: PeerID, i: int)
    requires At(sys, p, None) && Envelope(from, Replication(PrePrepareMsgOf(i))) in sys.net && from != p
    ensures var ev := Deliver(p, Envelope(from, Replication(PrePrepareMsgOf(i))));
      Enabled(sys, ev) && Became(sys, After(sys, ev), p, Held(PrePrepared, i, {from, p}, {}), Some(Replication(PrepareMsgOf(i))))
      && After(sys, ev).nodes[p].index == sys.nodes[p].index
  {
    var s := sys.nodes[p];
    var m := PrePrepareMsgOf(i);
    UniformLog({}, from, i);
    UniformLog({from}, p, i);
    UniformMajority({from, p}, i);
    assert {} + {from} == {from} && {from} + {p} == {from, p};
    assert |{from, p}| == 2;
    hide Log, Majority, Uniform;
    assert Uniform({}, Vote(i)) == EmptyCert() by { NoVotes(i); }
    var r := PrePrepareSlot(None, SameCommand, p, 1, from, 0, m.payload, Of(Cmd(i)));
    assert r == Next(Held(PrePrepared, i, {from, p}, {}), Some(Vote(i)), None, false);
    hide PrePrepareSlot;
    assert s.id != OLeader(s);
    FinishAlone(s, r);
    assert AsReplication(Sent(KEY, r)) == [Replication(PrepareMsgOf(i))];
    hide Finish, Held, AsReplication, Sent;
    var t := Receive(s, from, Replication(m));
    assert t == Finish(s, KEY, r);
    hide Became, Receive;
    MovedBecomes(sys, p, None, t, r.slot, Some(Replication(PrepareMsgOf(i))));
  }

  lemma NoVotes(i: int)
    ensures Uniform({}, Vote(i)) == EmptyCert()
  {
  }

  /** Installing a slot where nothing has been ordered delivers nothing. */
  lemma FinishAlone(s: Node, r: Outcome<Command>)
    requires r.Next? && s.olog == map[] && s.nextODeliver == 0
    ensures Finish(s, KEY, r) == s.(log := s.log[KEY := r.slot], msgs := s.msgs + AsReplication(Sent(KEY, r)))
  {
    hide AsReplication, Sent;
  }

  lemma MovedBecomes(sys: System, p: PeerID, was: Option<Slot<Command>>, t: Node, x: Slot<Command>, out: Option<Body>)
    requires At(sys, p, was)
    requires var s := sys.nodes[p]; t == s.(log := s.log[KEY := x], msgs := s.msgs + if out.Some? then [out.value] else [])
    ensures Became(sys, Moved(sys, p, t), p, x, out) && Moved(sys, p, t).nodes[p].index == sys.nodes[p].index
  {
    assert out.Some? ==> t.msgs[|sys.nodes[p].msgs|] == out.value;
  }

  /** One more prepare: with three of them the slot is prepared and the replica commits. */
  lemma PrepareResult(p: PeerID, from: PeerID, i: int, x: Slot<Command>, q: set<PeerID>)
    requires from !in q && (x == Held(PrePrepared, i, q, {}) || x == Held(PrePrepared, i, q, {}).(digest := None))
    ensures PrepareSlot(Some(x), p, 1, from, 0, None, Some(Of(Cmd(i)))) ==
      if |q| < 2 then Next(Held(PrePrepared, i, q + {from}, {}), None, None, false)
      else Next(Held(Prepared, i, q + {from}, {p}), None, Some(Vote(i)), false)
  {
    UniformLog(q, from, i);
    UniformLog({}, p, i);
    UniformMajority(q + {from}, i);
    UniformMajority({p}, i);
    assert {} + {p} == {p} && |{p}| == 1 && |q + {from}| == |q| + 1;
    hide Log, Majority, Uniform;
  }

  lemma Supports(sys: System, p: PeerID, from: PeerID, i: int, x: Slot<Command>, q: set<PeerID>)
    requires At(sys, p, Some(x)) && from !in q && from != p
    requires x == Held(PrePrepared, i, q, {}) || x == Held(PrePrepared, i, q, {}).(digest := None)
    requires Envelope(from, Replication(PrepareMsgOf(i))) in sys.net
    ensures var ev := Deliver(p, Envelope(from, Replication(PrepareMsgOf(i))));
      && Enabled(sys, ev)
      && Became(sys, After(sys, ev), p, Held(if |q| < 2 then PrePrepared else Prepared, i, q + {from}, if |q| < 2 then {} else {p}),
                if |q| < 2 then None else Some(Replication(CommitMsgOf(i))))
      && After(sys, ev).nodes[p].index == sys.nodes[p].index
  {
    var s := sys.nodes[p];
    var m := PrepareMsgOf(i);
    PrepareResult(p, from, i, x, q);
    hide PrepareSlot, Held, Exec;
    var r := PrepareSlot(Some(x), p, 1, from, 0, None, m.digest);
    assert s.id != OLeader(s);
    FinishAlone(s, r);
    var out := if |q| < 2 then None else Some(Replication(CommitMsgOf(i)));
    assert AsReplication(Sent(KEY, r)) == if out.Some? then [out.value] else [];
    hide Finish, AsReplication, Sent;
    var t := Receive(s, from, Replication(m));
    assert t == Finish(s, KEY, r);
    hide Became, Receive;
    MovedBecomes(sys, p, Some(x), t, r.slot, out);
  }

  /** One more commit: with three of them the slot is committed. */
  lemma Confirms(sys: System, p: PeerID, from: PeerID, i: int, q: set<PeerID>, c: set<PeerID>)
    requires At(sys, p, Some(Held(Prepared, i, q, c))) && from !in c && from != p
    requires Envelope(from, Replication(CommitMsgOf(i))) in sys.net
    ensures var ev := Deliver(p, Envelope(from, Replication(CommitMsgOf(i))));
      && Enabled(sys, ev)
      && Became(sys, After(sys, ev), p, Held(if |c| < 2 then Prepared else Committed, i, q, c + {from}), None)
  {
    var s := sys.nodes[p];
    var m := CommitMsgOf(i);
    var x := Held(Prepared, i, q, c);
    UniformLog(c, from, i);
    UniformMajority(c + {from}, i);
    assert |c + {from}| == |c| + 1;
    hide Log, Majority, Uniform;
    var r := CommitSlot(Some(x), 1, from, 0, None, m.digest);
    assert r == Next(Held(if |c| < 2 then Prepared else Committed, i, q, c + {from}), None, None, |c| >= 2);
    hide CommitSlot, Held;
    assert s.id != OLeader(s);
    FinishAlone(s, r);
    assert AsReplication(Sent(KEY, r)) == [];
    hide Finish, Held, AsReplication, Sent;
    var t := Receive(s, from, Replication(m));
    assert t == Finish(s, KEY, r) && s.msgs + [] == s.msgs;
    hide Became, Receive;
    MovedBecomes(sys, p, Some(x), t, r.slot, None);
  }

  /** The owner takes KEY for a command of its own, whatever it has voted there. */
  lemma Takes(sys: System, i: int, x: Slot<Command>)
    requires At(sys, 0, Some(x)) && sys.nodes[0].index == 0
    ensures var ev := Request(0, Cmd(i));
      Enabled(sys, ev) && Became(sys, After(sys, ev), 0, Held(PrePrepared, i, {0}, {}).(digest := None), Some(Replication(PrePrepareMsgOf(i))))
  {
    var s := sys.nodes[0];
    UniformLog({}, 0, i);
    assert {} + {0} == {0};
    NoVotes(i);
    assert OwnSlot(0, Cmd(i), 0, Of(Cmd(i))) == Held(PrePrepared, i, {0}, {}).(digest := None);
    hide OwnSlot, Held;
    var t := OnRequest(s, Cmd(i));
    assert t.msgs == s.msgs + [Replication(PrePrepareMsgOf(i))] && t.msgs[|s.msgs|] == Replication(PrePrepareMsgOf(i));
  }

  // ----- the run

  lemma Extend(start: System, g: Regime, evs: seq<Event>, ev: Event)
    requires ValidRun(start, g, evs) && Enabled(RunEnds(start, g, evs), ev) && Allowed(RunEnds(start, g, evs), g, ev)
    ensures ValidRun(start, g, evs + [ev]) && RunEnds(start, g, evs + [ev]) == After(RunEnds(start, g, evs), ev)
    decreases |evs|
  {
    if evs == [] {
      assert evs + [ev] == [ev];
    } else {
      assert (evs + [ev])[1..] == evs[1..] + [ev] && (evs + [ev])[0] == evs[0];
      Extend(After(start, evs[0]), g, evs[1..], ev);
    }
  }

  lemma Then(sys: System, ev: Event) returns (after: System)
    requires Reached(sys, Any) && Enabled(sys, ev)
    ensures Reached(after, Any) && after == After(sys, ev)
  {
    var start, evs :| Start(start) && ValidRun(start, Any, evs) && RunEnds(start, Any, evs) == sys;
    Extend(start, Any, evs, ev);
    after := After(sys, ev);
  }

  datatype Trio = Trio(a: Option<Slot<Command>>, b: Option<Slot<Command>>, c: Option<Slot<Command>>) {
    function Get(p: PeerID): Option<Slot<Command>> {
      if p == 0 then a else if p == 1 then b else c
    }
    function Set(p: PeerID, x: Slot<Command>): Trio {
      if p == 0 then this.(a := Some(x)) else if p == 1 then this.(b := Some(x)) else this.(c := Some(x))
    }
  }

  /** Where a run stands: the slots of replicas 0, 1 and 2 under KEY, and messages that are on the net. */
  ghost predicate Stage(sys: System, xs: Trio, net: set<Envelope>) {
    && Reached(sys, Any) && sys.f == 1 && sys.faulty == {3} && sys.nodes.Keys == {0, 1, 2} && net <= sys.net
    && At(sys, 0, xs.a) && At(sys, 1, xs.b) && At(sys, 2, xs.c)
  }

  lemma Advance(sys: System, xs: Trio, net: set<Envelope>, ev: Event, p: PeerID, x: Slot<Command>, out: Option<Body>)
      returns (after: System)
    requires Stage(sys, xs, net) && p < 3 && Enabled(sys, ev) && Became(sys, After(sys, ev), p, x, out)
    requires After(sys, ev).nodes.Keys == sys.nodes.Keys
    ensures Stage(after, xs.Set(p, x), net + Post(p, out)) && after == After(sys, ev)
  {
    hide After, Enabled, Reached;
    after := Then(sys, ev);
  }

  lemma SameKeys(sys: System, ev: Event)
    requires Enabled(sys, ev)
    ensures After(sys, ev).nodes.Keys == sys.nodes.Keys
  {
    hide Receive, OnRequest, OnTimer;
  }

  lemma AdvanceVotes(sys: System, xs: Trio, net: set<Envelope>, p: PeerID, from: PeerID, i: int) returns (after: System)
    requires Stage(sys, xs, net) && p < 3 && xs.Get(p) == None && from != p && Envelope(from, Replication(PrePrepareMsgOf(i))) in net
    ensures Stage(after, xs.Set(p, Held(PrePrepared, i, {from, p}, {})), net + {Envelope(p, Replication(PrepareMsgOf(i)))})
    ensures after.nodes[0].index == sys.nodes[0].index
  {
    hide Held, After, Enabled, Became, PrePrepareMsgOf, PrepareMsgOf, Reached;
    var ev := Deliver(p, Envelope(from, Replication(PrePrepareMsgOf(i))));
    Votes(sys, p, from, i);
    SameKeys(sys, ev);
    IndexKept(sys, After(sys, ev), p, Held(PrePrepared, i, {from, p}, {}), Some(Replication(PrepareMsgOf(i))));
    after := Advance(sys, xs, net, ev, p, Held(PrePrepared, i, {from, p}, {}), Some(Replication(PrepareMsgOf(i))));
    hide Stage;
  }

  lemma IndexKept(sys: System, after: System, p: PeerID, x: Slot<Command>, out: Option<Body>)
    requires Became(sys, after, p, x, out) && p in sys.nodes && after.nodes[p].index == sys.nodes[p].index && 0 in sys.nodes
    ensures 0 in after.nodes && after.nodes[0].index == sys.nodes[0].index
  {
  }

  lemma AdvanceSupports(sys: System, xs: Trio, net: set<Envelope>, p: PeerID, from: PeerID, i: int, q: set<PeerID>)
      returns (after: System)
    requires Stage(sys, xs, net) && p < 3 && from !in q && from != p && Envelope(from, Replication(PrepareMsgOf(i))) in net
    requires xs.Get(p) == Some(Held(PrePrepared, i, q, {})) || xs.Get(p) == Some(Held(PrePrepared, i, q, {}).(digest := None))
    ensures |q| < 2 ==> Stage(after, xs.Set(p, Held(PrePrepared, i, q + {from}, {})), net)
    ensures |q| >= 2 ==> Stage(after, xs.Set(p, Held(Prepared, i, q + {from}, {p})), net + {Envelope(p, Replication(CommitMsgOf(i)))})
    ensures after.nodes[0].index == sys.nodes[0].index
  {
    hide Held, After, Enabled, Became, CommitMsgOf, PrepareMsgOf, Reached;
    var ev := Deliver(p, Envelope(from, Replication(PrepareMsgOf(i))));
    var x := Held(if |q| < 2 then PrePrepared else Prepared, i, q + {from}, if |q| < 2 then {} else {p});
    var out := if |q| < 2 then None else Some(Replication(CommitMsgOf(i)));
    Supports(sys, p, from, i, xs.Get(p).value, q);
    SameKeys(sys, ev);
    IndexKept(sys, After(sys, ev), p, x, out);
    after := Advance(sys, xs, net, ev, p, x, out);
    hide Stage;
  }

  lemma AdvanceConfirms(sys: System, xs: Trio, net: set<Envelope>, p: PeerID, from: PeerID, i: int, q: set<PeerID>, c: set<PeerID>)
      returns (after: System)
    requires Stage(sys, xs, net) && p < 3 && from !in c && from != p && Envelope(from, Replication(CommitMsgOf(i))) in net
    requires xs.Get(p) == Some(Held(Prepared, i, q, c))
    ensures Stage(after, xs.Set(p, Held(if |c| < 2 then Prepared else Committed, i, q, c + {from})), net)
    ensures p != 0 ==> after.nodes[0].index == sys.nodes[0].index
  {
    hide Held, After, Enabled, Became, CommitMsgOf, Reached;
    var ev := Deliver(p, Envelope(from, Replication(CommitMsgOf(i))));
    var x := Held(if |c| < 2 then Prepared else Committed, i, q, c + {from});
    Confirms(sys, p, from, i, q, c);
    SameKeys(sys, ev);
    after := Advance(sys, xs, net, ev, p, x, None);
    assert p != 0 ==> after.nodes[0] == sys.nodes[0] by { OthersKept(sys, after, p, x, None); }
    hide Stage;
    assert net + Post(p, None) == net;
  }

  lemma OthersKept(sys: System, after: System, p: PeerID, x: Slot<Command>, out: Option<Body>)
    requires Became(sys, after, p, x, out)
    ensures forall q :: q in sys.nodes && q != p ==> q in after.nodes && after.nodes[q] == sys.nodes[q]
  {
  }

  lemma AdvanceTakes(sys: System, xs: Trio, net: set<Envelope>, i: int) returns (after: System)
    requires Stage(sys, xs, net) && sys.nodes[0].index == 0 && xs.Get(0).Some?
    ensures Stage(after, xs.Set(0, Held(PrePrepared, i, {0}, {}).(digest := None)), net + {Envelope(0, Replication(PrePrepareMsgOf(i)))})
  {
    hide Held, After, Enabled, Became, PrePrepareMsgOf, Reached;
    Takes(sys, i, xs.Get(0).value);
    SameKeys(sys, Request(0, Cmd(i)));
    after := Advance(sys, xs, net, Request(0, Cmd(i)), 0, Held(PrePrepared, i, {0}, {}).(digest := None), Some(Replication(PrePrepareMsgOf(i))));
    hide Stage;
  }

  lemma AdvanceAdversary(sys: System, xs: Trio, net: set<Envelope>, b: Body) returns (after: System)
    requires Stage(sys, xs, net)
    ensures Stage(after, xs, net + {Envelope(3, b)}) && after.nodes == sys.nodes
  {
    hide Reached;
    after := Then(sys, Adversary(Envelope(3, b)));
  }

  function FromThree(): set<Envelope> {
    {Envelope(3, Replication(PrePrepareMsgOf(1)))} + {Envelope(3, Replication(CommitMsgOf(1)))}
    + {Envelope(3, Replication(PrepareMsgOf(2)))} + {Envelope(3, Replication(CommitMsgOf(2)))}
  }

  /** Everything that replica 3 will ever say is on the net. */
  lemma Opening() returns (sys: System)
    ensures Stage(sys, Trio(None, None, None), FromThree()) && sys.nodes[0].index == 0
  {
    hide Stage;
    var xs := Trio(None, None, None);
    sys := Beginning();
    sys := AdvanceAdversary(sys, xs, {}, Replication(PrePrepareMsgOf(1)));
    sys := AdvanceAdversary(sys, xs, {} + {Envelope(3, Replication(PrePrepareMsgOf(1)))}, Replication(CommitMsgOf(1)));
    sys := AdvanceAdversary(sys, xs, {} + {Envelope(3, Replication(PrePrepareMsgOf(1)))} + {Envelope(3, Replication(CommitMsgOf(1)))},
                            Replication(PrepareMsgOf(2)));
    var three := {} + {Envelope(3, Replication(PrePrepareMsgOf(1)))} + {Envelope(3, Replication(CommitMsgOf(1)))} + {Envelope(3, Replication(PrepareMsgOf(2)))};
    sys := AdvanceAdversary(sys, xs, three, Replication(CommitMsgOf(2)));
    assert three + {Envelope(3, Replication(CommitMsgOf(2)))} == FromThree();
  }

  function Begun(): System {
    System(1, {3}, 3, map p: PeerID | p in {0, 1, 2} :: Initial(1, p, 3, 1), {})
  }

  lemma Beginning() returns (sys: System)
    ensures Stage(sys, Trio(None, None, None), {}) && sys.nodes[0].index == 0
  {
    sys := Begun();
    StartReached();
    Begins(0);
    Begins(1);
    Begins(2);
    assert sys.f == 1 && sys.faulty == {3} && sys.net == {};
    hide Reached, At, Begun;
  }

  lemma Begins(p: PeerID)
    requires p < 3
    ensures At(Begun(), p, None) && Begun().nodes[p].index == 0 && Begun().nodes.Keys == {0, 1, 2}
  {
  }

  lemma StartReached()
    ensures Reached(Begun(), Any)
  {
    var sys := Begun();
    assert Start(sys) by {
      assert Peers(1) == {0, 1, 2, 3};
      assert forall p :: p in sys.nodes ==> sys.nodes[p] == Initial(sys.f, p, sys.oview, 1);
    }
    assert ValidRun(sys, Any, []) && RunEnds(sys, Any, []) == sys;
  }

  /** Replicas 0 and 1 vote for command 1 under KEY, as replica 3 proposes; replica 1 commits it. */
  lemma FirstHalf() returns (sys: System, net: set<Envelope>)
    ensures Stage(sys, Trio(Some(Held(Prepared, 1, {3, 0, 1}, {0})), Some(Held(Committed, 1, {3, 0, 1}, {0, 1, 3})), None), net)
    ensures Envelope(3, Replication(PrepareMsgOf(2))) in net && Envelope(3, Replication(CommitMsgOf(2))) in net
    ensures sys.nodes[0].index == 0
  {
    hide Held, Stage, PrePrepareMsgOf, PrepareMsgOf, CommitMsgOf;
    net := FromThree();
    sys := Opening();
    sys := AdvanceVotes(sys, Trio(None, None, None), net, 0, 3, 1);
    net := net + {Envelope(0, Replication(PrepareMsgOf(1)))};
    var a := Some(Held(PrePrepared, 1, {3, 0}, {}));
    sys := AdvanceVotes(sys, Trio(a, None, None), net, 1, 3, 1);
    net := net + {Envelope(1, Replication(PrepareMsgOf(1)))};
    assert |{3, 0}| == 2 && |{3, 1}| == 2 && {3, 0} + {1} == {3, 0, 1} == {3, 1} + {0};
    var b := Some(Held(PrePrepared, 1, {3, 1}, {}));
    sys := AdvanceSupports(sys, Trio(a, b, None), net, 0, 1, 1, {3, 0});
    net := net + {Envelope(0, Replication(CommitMsgOf(1)))};
    a := Some(Held(Prepared, 1, {3, 0, 1}, {0}));
    sys := AdvanceSupports(sys, Trio(a, b, None), net, 1, 0, 1, {3, 1});
    net := net + {Envelope(1, Replication(CommitMsgOf(1)))};
    b := Some(Held(Prepared, 1, {3, 0, 1}, {1}));
    assert |{1}| == 1 && |{1, 0}| == 2 && {1} + {0} == {1, 0} && {1, 0} + {3} == {0, 1, 3};
    sys := AdvanceConfirms(sys, Trio(a, b, None), net, 1, 0, 1, {3, 0, 1}, {1});
    b := Some(Held(Prepared, 1, {3, 0, 1}, {1, 0}));
    sys := AdvanceConfirms(sys, Trio(a, b, None), net, 1, 3, 1, {3, 0, 1}, {1, 0});
  }

  /** Replica 0 then takes KEY for its own command, on which it votes again, and replica 2 commits that one. */
  lemma SecondHalf() returns (sys: System, x: Option<Slot<Command>>, net: set<Envelope>)
    ensures Stage(sys, Trio(x, Some(Held(Committed, 1, {3, 0, 1}, {0, 1, 3})), Some(Held(Committed, 2, {0, 2, 3}, {2, 0, 3}))), net)
  {
    hide Held, Stage, PrePrepareMsgOf, PrepareMsgOf, CommitMsgOf;
    var b := Some(Held(Committed, 1, {3, 0, 1}, {0, 1, 3}));
    sys, net := FirstHalf();
    sys := AdvanceTakes(sys, Trio(Some(Held(Prepared, 1, {3, 0, 1}, {0})), b, None), net, 2);
    net := net + {Envelope(0, Replication(PrePrepareMsgOf(2)))};
    x := Some(Held(PrePrepared, 2, {0}, {}).(digest := None));
    sys := AdvanceVotes(sys, Trio(x, b, None), net, 2, 0, 2);
    net := net + {Envelope(2, Replication(PrepareMsgOf(2)))};
    var c := Some(Held(PrePrepared, 2, {0, 2}, {}));
    assert |{0, 2}| == 2 && |{0}| == 1 && {0} + {2} == {0, 2} && {0, 2} + {3} == {0, 2, 3};
    sys := AdvanceSupports(sys, Trio(x, b, c), net, 2, 3, 2, {0, 2});
    net := net + {Envelope(2, Replication(CommitMsgOf(2)))};
    c := Some(Held(Prepared, 2, {0, 2, 3}, {2}));
    sys := AdvanceSupports(sys, Trio(x, b, c), net, 0, 2, 2, {0});
    x := Some(Held(PrePrepared, 2, {0, 2}, {}));
    sys := AdvanceSupports(sys, Trio(x, b, c), net, 0, 3, 2, {0, 2});
    net := net + {Envelope(0, Replication(CommitMsgOf(2)))};
    x := Some(Held(Prepared, 2, {0, 2, 3}, {0}));
    assert |{2}| == 1 && |{2, 0}| == 2 && {2} + {0} == {2, 0} && {2, 0} + {3} == {2, 0, 3};
    sys := AdvanceConfirms(sys, Trio(x, b, c), net, 2, 0, 2, {0, 2, 3}, {2});
    c := Some(Held(Prepared, 2, {0, 2, 3}, {2, 0}));
    sys := AdvanceConfirms(sys, Trio(x, b, c), net, 2, 3, 2, {0, 2, 3}, {2, 0});
  }

  /** Per-instance agreement fails in an unrestricted run: two correct replicas commit different hashes. */
  lemma OwnerVotesTwice() returns (sys: System)
    ensures Reached(sys, Any) && |sys.faulty| <= sys.f && 1 in sys.nodes && 2 in sys.nodes
    ensures var a, b := sys.nodes[1].log, sys.nodes[2].log;
      KEY in a && KEY in b && a[KEY].status == b[KEY].status == Committed && a[KEY].digest != b[KEY].digest
  {
    hide Reached;
    var x, net;
    sys, x, net := SecondHalf();
    assert At(sys, 1, Some(Held(Committed, 1, {3, 0, 1}, {0, 1, 3}))) && At(sys, 2, Some(Held(Committed, 2, {0, 2, 3}, {2, 0, 3})));
  }
}
