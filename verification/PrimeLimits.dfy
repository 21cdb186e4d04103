/** A run in which two correct replicas of Prime commit different matrices under one index, although the leader is
    correct: a faulty peer's prepare arrives first and plants a matrix without rows. */
module PrimeLimits {
  import opened Quorums
  import opened PrimeFrontier
  import opened PrimeNode
  import opened PrimeExec
  import opened PrimeRuns
  import opened PrimeSystem
  import Slots

  function Row(): seq<nat> {
    [0, 0, 0, 1]
  }

  function M(): Matrix {
    Zeroes(4)[3 := Row()]
  }

  function D(): Option<Digest<Matrix>> {
    Some(Slots.Of(M()))
  }

  function Ordered(): Msg {
    Order(PrePrepare, 0, 1, Some(M()), D())
  }

  function Planted(): Msg {
    Order(Prepare, 0, 1, Some([]), D())
  }

  function Vote(kind: Kind): Msg {
    Order(kind, 0, 1, None, D())
  }

  /** The votes in which exactly the senders have said d. */
  function Cast<P>(senders: set<PeerID>, d: Option<Digest<P>>): Votes<P> {
    map p | p in senders :: d
  }

  /** One more vote. */
  lemma CastMore<P(!new)>(senders: set<PeerID>, p: PeerID, after: set<PeerID>, d: Option<Digest<P>>, f: nat)
    requires after == senders + {p} && p !in senders
    ensures Log(Cast(senders, d), p, d) == Some(Cast(after, d))
    ensures Majority(Cast(after, d), d, f) <==> |after| > 2 * f
  {
    assert Agreeing(Cast(after, d), d) == after;
    assert Cast(senders, d)[p := d] == Cast(after, d);
  }

  lemma Counts(senders: set<PeerID>, p: PeerID, after: set<PeerID>)
    requires after == senders + {p} && p !in senders
    ensures Log(Cast(senders, D()), p, D()) == Some(Cast(after, D()))
    ensures Majority(Cast(after, D()), D(), 1) <==> |after| > 2
  {
    CastMore(senders, p, after, D(), 1);
  }

  /** Replica p with one slot. */
  function Held(p: PeerID, x: Slot, said: seq<Msg>): Node {
    Initial(1, p, 0).(olog := map[1 := x], msgs := said)
  }

  /** The slot of a replica that has planted, or held, the matrix m. */
  function Prepared(m: Matrix, prepares: set<PeerID>, commits: set<PeerID>): Slot {
    Slot(OPrepared, Some(m), D(), Cast(prepares, D()), Cast(commits, D()))
  }

  // ----- the leader

  lemma LeaderOrders()
    ensures var s := Step(Initial(1, 0, 0), Deliver(0, 3, POSummary(Row())));
      Ordered() in Step(s, PrePrepareTimer(0)).msgs
  {
    var s := Step(Initial(1, 0, 0), Deliver(0, 3, POSummary(Row())));
    assert s.summaries == M();
    assert M()[3][3] == 1 && Zeroes(4)[3][3] == 0;
    assert s.summaries != s.lastPrepared;
  }

  /** A live replica in view 0 hands an ordering message to its handler. */
  lemma Dispatch(s: Node, p: PeerID, from: PeerID, matrix: Option<Matrix>)
    requires !s.halted && s.oview == 0
    ensures Step(s, Deliver(p, from, Order(PrePrepare, 0, 1, matrix, D()))) == OnPrePrepare(s, from, 1, matrix, D())
    ensures Step(s, Deliver(p, from, Order(Prepare, 0, 1, matrix, D()))) == OnPrepare(s, from, 1, matrix, D())
    ensures Step(s, Deliver(p, from, Order(Commit, 0, 1, matrix, D()))) == OnCommit(s, from, 1, matrix, D())
  {
    hide OnPrePrepare, OnPrepare, OnCommit, OnPORequest, OnPOAck;
  }

  /** Three prepares make the replica prepared, and it votes to commit. */
  lemma Promotes(s: Node, m: Matrix, prepares: set<PeerID>)
    requires s.f == 1 && s.oview == 0 && |prepares| == 3
    ensures TryPrepare(s, 1, Slot(OPrePrepared, Some(m), D(), Cast(prepares, D()), map[]), D()) ==
      Say(s, Vote(Commit)).(olog := s.olog[1 := Prepared(m, prepares, {s.id})])
  {
    Counts({}, s.id, {s.id});
    NoVotes();
    assert Agreeing(Cast(prepares, D()), D()) == prepares;
    assert |{s.id}| == 1;
    hide Cast, M, Exec, Log;
  }

  // ----- replica 1

  lemma OneIsTricked()
    ensures OnPrepare(Initial(1, 1, 0), 3, 1, Some([]), D()) == Held(1, Slot(ONothing, Some([]), None, Cast({3}, D()), map[]), [])
  {
    hide Majority, Exec, M;
    assert Cast({3}, D()) == map[3 := D()];
  }

  lemma OnePrepares()
    ensures OnPrePrepare(Held(1, Slot(ONothing, Some([]), None, Cast({3}, D()), map[]), []), 0, 1, Some(M()), D()) ==
      Held(1, Prepared([], {3, 0, 1}, {1}), [Vote(Prepare), Vote(Commit)])
  {
    var x := Slot(ONothing, Some([]), None, Cast({3}, D()), map[]);
    var s := Held(1, x, []);
    hide Exec, TryPrepare, Majority, M, Zeroes, Cast;
    assert OnPrePrepare(s, 0, 1, Some(M()), D()) == CastPrepare(s, 0, 1, x.(hash := D()), D()) by { hide CastPrepare; }
    hide OnPrePrepare;
    var y := x.(hash := D(), status := OPrePrepared, prepares := Cast({3, 0, 1}, D()));
    assert CastPrepare(s, 0, 1, x.(hash := D()), D()) == TryPrepare(Say(s, Vote(Prepare)), 1, y, D()) by {
      Counts({3}, 0, {3, 0});
      Counts({3, 0}, 1, {3, 0, 1});
      hide Log;
    }
    hide CastPrepare;
    assert |{3, 0, 1}| == 3;
    Promotes(Say(s, Vote(Prepare)), [], {3, 0, 1});
    SaysTwice(s, Prepared([], {3, 0, 1}, {1}));
  }

  lemma SaysTwice(s: Node, x: Slot)
    requires 1 in s.olog && s == Held(s.id, s.olog[1], [])
    ensures var t := Say(Say(s, Vote(Prepare)), Vote(Commit)); t.(olog := t.olog[1 := x]) == Held(s.id, x, [Vote(Prepare), Vote(Commit)])
  {
  }

  lemma NoVotes()
    ensures Cast({}, D()) == map[]
  {
  }

  /** A second commit vote. */
  lemma Second(p: PeerID, m: Matrix, prepares: set<PeerID>, from: PeerID, said: seq<Msg>)
    requires from != p
    ensures OnCommit(Held(p, Prepared(m, prepares, {p}), said), from, 1, None, D()) == Held(p, Prepared(m, prepares, {p, from}), said)
  {
    Counts({p}, from, {p, from});
    assert |{p, from}| == 2;
    hide Majority, Cast, M, Exec, Log;
  }

  /** The third one commits the slot, and exec keeps its matrix. */
  lemma Third(p: PeerID, m: Matrix, prepares: set<PeerID>, q: PeerID, from: PeerID, said: seq<Msg>)
    requires from != p && q != p && from != q
    ensures var t := OnCommit(Held(p, Prepared(m, prepares, {p, q}), said), from, 1, None, D());
      1 in t.olog && t.olog[1].matrix == Some(m) && ORank(t.olog[1].status) >= 3
  {
    var x, s := Prepared(m, prepares, {p, q}), Held(p, Prepared(m, prepares, {p, q}), said);
    var y := Slot(OCommitted, Some(m), D(), Cast(prepares, D()), Cast({p, q, from}, D()));
    hide Exec, Majority, M, Zeroes, Cast;
    Counts({p, q}, from, {p, q, from});
    assert |{p, q, from}| == 3;
    hide Log, Initial;
    assert s.f == 1 && s.olog == map[1 := x] by { HeldIs(p, x, said); }
    hide Held;
    CommitIs(s, from, x, Cast({p, q, from}, D()));
    ExecKeepsCommitted(s.(olog := s.olog[1 := y]));
  }

  lemma HeldIs(p: PeerID, x: Slot, said: seq<Msg>)
    ensures var s := Held(p, x, said); s.f == 1 && s.olog == map[1 := x]
  {
  }

  lemma CommitIs(s: Node, from: PeerID, x: Slot, c: Votes<Matrix>)
    requires 1 in s.olog && s.olog[1] == x && x.hash == D() && x.status == OPrepared
    requires Log(x.commits, from, D()) == Some(c) && Majority(c, D(), s.f)
    ensures OnCommit(s, from, 1, None, D()) == Exec(s.(olog := s.olog[1 := x.(commits := c, status := OCommitted)]))
  {
    hide Exec, Majority, M, Log;
  }

  lemma {:induction false} ExecKeepsCommitted(s: Node)
    ensures var t := Exec(s);
      forall i :: i in s.olog && ORank(s.olog[i].status) >= 3 ==> i in t.olog && t.olog[i].matrix == s.olog[i].matrix && ORank(t.olog[i].status) >= 3
    decreases |CommittedSlots(s.olog)|
  {
    hide Usable, Available, RunOrigins;
    if !s.halted && CanPass(s) && Usable(s.olog[s.oexecIdx], s.f) && Available(s, s.olog[s.oexecIdx]) {
      RunOriginsFrame(s, s.olog[s.oexecIdx], Rows(s.olog[s.oexecIdx]));
      var t := RunSlot(s);
      if !t.halted {
        SlotConsumed(s);
        ExecKeepsCommitted(t);
      }
    }
  }

  // ----- replica 2

  lemma TwoVotes()
    ensures OnPrePrepare(Initial(1, 2, 0), 0, 1, Some(M()), D()) ==
      Held(2, Slot(OPrePrepared, Some(M()), None, Cast({0, 2}, D()), map[]), [Vote(Prepare)])
  {
    Counts({}, 0, {0});
    Counts({0}, 2, {0, 2});
    NoVotes();
    assert |{0, 2}| == 2;
    hide Majority, Cast, M, Exec, Log;
  }

  lemma TwoPrepares()
    ensures OnPrepare(Held(2, Slot(OPrePrepared, Some(M()), None, Cast({0, 2}, D()), map[]), [Vote(Prepare)]), 3, 1, None, D()) ==
      Held(2, Prepared(M(), {0, 2, 3}, {2}), [Vote(Prepare), Vote(Commit)])
  {
    var x := Slot(OPrePrepared, Some(M()), None, Cast({0, 2}, D()), map[]);
    var s := Held(2, x, [Vote(Prepare)]);
    hide Exec, TryPrepare, Majority, M, Zeroes, Cast;
    var y := x.(hash := D(), prepares := Cast({0, 2, 3}, D()));
    assert OnPrepare(s, 3, 1, None, D()) == TryPrepare(s, 1, y, D()) by {
      Counts({0, 2}, 3, {0, 2, 3});
      hide Log;
    }
    hide OnPrepare;
    assert |{0, 2, 3}| == 3;
    Promotes(s, M(), {0, 2, 3});
    SaysOnce(s, Prepared(M(), {0, 2, 3}, {2}));
  }

  lemma SaysOnce(s: Node, x: Slot)
    requires 1 in s.olog && s == Held(s.id, s.olog[1], [Vote(Prepare)])
    ensures var t := Say(s, Vote(Commit)); t.(olog := t.olog[1 := x]) == Held(s.id, x, [Vote(Prepare), Vote(Commit)])
  {
  }

  // ----- the run

  /** The system with replicas 0, 1 and 2 in the given states. */
  function Sys(a: Node, b: Node, c: Node): System {
    System(1, {3}, 0, map[0 := a, 1 := b, 2 := c])
  }

  lemma StartReached()
    ensures Reached(Sys(Initial(1, 0, 0), Initial(1, 1, 0), Initial(1, 2, 0)), false)
  {
    hide Initial, Start, Sys;
    StartOK();
    var sys := Sys(Initial(1, 0, 0), Initial(1, 1, 0), Initial(1, 2, 0));
    assert ValidRun(sys, false, []) && RunEnds(sys, false, []) == sys;
  }

  lemma StartOK()
    ensures Start(Sys(Initial(1, 0, 0), Initial(1, 1, 0), Initial(1, 2, 0)))
  {
    hide Initial;
    assert Peers(1) == {0, 1, 2, 3};
  }

  /** One event at replica p, which has from's message if from is correct. */
  lemma Moves(a: Node, b: Node, c: Node, ev: Event)
    requires Reached(Sys(a, b, c), false) && Actor(ev) < 3
    requires ev.Deliver? ==> ev.from < 4 && ev.from != ev.to
    requires ev.Deliver? ==> (ev.from == 0 ==> ev.m in a.msgs) && (ev.from == 1 ==> ev.m in b.msgs) && (ev.from == 2 ==> ev.m in c.msgs)
    ensures Actor(ev) == 0 ==> Reached(Sys(Step(a, ev), b, c), false)
    ensures Actor(ev) == 1 ==> Reached(Sys(a, Step(b, ev), c), false)
    ensures Actor(ev) == 2 ==> Reached(Sys(a, b, Step(c, ev)), false)
  {
    hide Reached, Step;
    assert 0 in Peers(1) && 1 in Peers(1) && 2 in Peers(1) && 3 in Peers(1);
    var sys := Sys(a, b, c);
    var after := Then(sys, false, ev);
    hide Peers;
    Replaced(a, b, c, Step(sys.nodes[Actor(ev)], ev));
  }

  lemma Replaced(a: Node, b: Node, c: Node, x: Node)
    ensures map[0 := a, 1 := b, 2 := c][0 := x] == map[0 := x, 1 := b, 2 := c]
    ensures map[0 := a, 1 := b, 2 := c][1 := x] == map[0 := a, 1 := x, 2 := c]
    ensures map[0 := a, 1 := b, 2 := c][2 := x] == map[0 := a, 1 := b, 2 := x]
  {
  }

  /** The leader orders M, and both others prepare: replica 1 with a matrix of no rows. */
  lemma BothPrepare() returns (a: Node)
    ensures var said := [Vote(Prepare), Vote(Commit)];
      Reached(Sys(a, Held(1, Prepared([], {3, 0, 1}, {1}), said), Held(2, Prepared(M(), {0, 2, 3}, {2}), said)), false)
  {
    hide Reached, Step, Held, M, D, Cast, Prepared, Initial, Row, OnPrePrepare, OnPrepare, OnCommit;
    StartReached();
    var b, c := Initial(1, 1, 0), Initial(1, 2, 0);
    a := Initial(1, 0, 0);
    Fresh0(1);
    Fresh0(2);
    Moves(a, b, c, Deliver(0, 3, POSummary(Row())));
    a := Step(a, Deliver(0, 3, POSummary(Row())));
    Moves(a, b, c, PrePrepareTimer(0));
    a := Step(a, PrePrepareTimer(0));
    LeaderOrders();
    Moves(a, b, c, Deliver(1, 3, Planted()));
    Dispatch(b, 1, 3, Some([]));
    OneIsTricked();
    b := Held(1, Slot(ONothing, Some([]), None, Cast({3}, D()), map[]), []);
    HeldAlive(1, Slot(ONothing, Some([]), None, Cast({3}, D()), map[]), []);
    Moves(a, b, c, Deliver(1, 0, Ordered()));
    Dispatch(b, 1, 0, Some(M()));
    OnePrepares();
    b := Held(1, Prepared([], {3, 0, 1}, {1}), [Vote(Prepare), Vote(Commit)]);
    Moves(a, b, c, Deliver(2, 0, Ordered()));
    Dispatch(c, 2, 0, Some(M()));
    TwoVotes();
    c := Held(2, Slot(OPrePrepared, Some(M()), None, Cast({0, 2}, D()), map[]), [Vote(Prepare)]);
    HeldAlive(2, Slot(OPrePrepared, Some(M()), None, Cast({0, 2}, D()), map[]), [Vote(Prepare)]);
    Moves(a, b, c, Deliver(2, 3, Vote(Prepare)));
    Dispatch(c, 2, 3, None);
    TwoPrepares();
  }

  lemma Fresh0(p: PeerID)
    ensures !Initial(1, p, 0).halted && Initial(1, p, 0).oview == 0
  {
  }

  lemma HeldAlive(p: PeerID, x: Slot, said: seq<Msg>)
    ensures var s := Held(p, x, said); !s.halted && s.oview == 0 && s.msgs == said
  {
  }

  /** Agreement on an ordering slot fails with a correct leader and one faulty peer of four. */
  lemma PlantedMatrix() returns (sys: System)
    ensures Reached(sys, false) && |sys.faulty| <= sys.f && LeaderOf(sys) in sys.nodes && 1 in sys.nodes && 2 in sys.nodes
    ensures var a, b := sys.nodes[1].olog, sys.nodes[2].olog;
      1 in a && 1 in b && ORank(a[1].status) >= 3 && ORank(b[1].status) >= 3
      && a[1].matrix == Some([]) && b[1].matrix == Some(M()) && M() != []
  {
    hide Reached, Step, Held, M, D, Cast, Prepared, Initial, Row, OnCommit;
    var said := [Vote(Prepare), Vote(Commit)];
    var a := BothPrepare();
    var b, c := Held(1, Prepared([], {3, 0, 1}, {1}), said), Held(2, Prepared(M(), {0, 2, 3}, {2}), said);
    HeldAlive(1, Prepared([], {3, 0, 1}, {1}), said);
    HeldAlive(2, Prepared(M(), {0, 2, 3}, {2}), said);
    assert said[1] == Vote(Commit);
    Moves(a, b, c, Deliver(1, 2, Vote(Commit)));
    Dispatch(b, 1, 2, None);
    Second(1, [], {3, 0, 1}, 2, said);
    b := Held(1, Prepared([], {3, 0, 1}, {1, 2}), said);
    HeldAlive(1, Prepared([], {3, 0, 1}, {1, 2}), said);
    Moves(a, b, c, Deliver(2, 1, Vote(Commit)));
    Dispatch(c, 2, 1, None);
    Second(2, M(), {0, 2, 3}, 1, said);
    c := Held(2, Prepared(M(), {0, 2, 3}, {2, 1}), said);
    HeldAlive(2, Prepared(M(), {0, 2, 3}, {2, 1}), said);
    Moves(a, b, c, Deliver(1, 3, Vote(Commit)));
    Dispatch(b, 1, 3, None);
    Third(1, [], {3, 0, 1}, 2, 3, said);
    b := OnCommit(b, 3, 1, None, D());
    Moves(a, b, c, Deliver(2, 3, Vote(Commit)));
    Dispatch(c, 2, 3, None);
    Third(2, M(), {0, 2, 3}, 1, 3, said);
    sys := Sys(a, b, OnCommit(c, 3, 1, None, D()));
    MatrixIsNot();
  }

  lemma MatrixIsNot()
    ensures M() != []
  {
    assert |M()| == 4;
  }
}
