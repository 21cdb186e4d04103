/** The order that Prime executes needs a correct leader, whatever the size of the cluster.  A faulty one can send a
    replica two pre-prepares for one index: the first is refused for its digest, but leaves its matrix behind, and if
    that is the beginning of the second one, the replica votes for the second and keeps the first. */
module PrimeFaultyLeader {
  import opened Quorums
  import opened PrimeFrontier
  import opened PrimeNode
  import opened PrimeExec
  import opened PrimeRuns
  import opened PrimeSystem
  import opened PrimeLimits
  import Slots

  const CMD := Command(7, 0)
  const A := Id(0, 1)
  const B := Id(1, 1)

  function Hash(): Option<Digest<Command>> {
    Some(Slots.Of(CMD))
  }

  /** Everybody has B, and the first f+1 rows have A as well: A is not due. */
  function Full(f: nat): Matrix {
    seq(3 * f + 1, j => seq(3 * f + 1, i => if i == 1 || (i == 0 && j <= f) then 1 else 0))
  }

  /** The first f+1 rows by themselves: A is due, and B. */
  function Short(f: nat): Matrix {
    Full(f)[..f + 1]
  }

  function DigestOf(m: Matrix): Option<Digest<Matrix>> {
    Some(Slots.Of(m))
  }

  function Vote(s: Node, kind: Kind): Msg {
    Order(kind, s.oview, 1, None, DigestOf(Full(s.f)))
  }

  lemma TwoVotes(p: PeerID, q: PeerID, f: nat)
    requires p != q && f >= 1
    ensures |{p, q}| == 2 && !(|{p, q}| > 2 * f)
  {
  }

  // ----- pre-ordering at one replica

  function Ack(id: Id): Msg {
    POAck(id, None, Hash())
  }

  /** The instance with the votes of the senders in t. */
  function Polled(f: nat, t: set<PeerID>): Inst {
    Inst(if |t| > 2 * f then PreOrderAck else PreOrder, Some(CMD), Hash(), Cast(t, Hash()))
  }

  /** A request to pre-order arrives. */
  lemma Asks(s: Node, from: PeerID, id: Id)
    requires id !in s.log && from != s.id && s.f >= 1
    ensures OnPORequest(s, from, id, Some(CMD), Hash()) == Say(s, Ack(id)).(log := s.log[id := Polled(s.f, {from, s.id})])
  {
    TwoVotes(from, s.id, s.f);
    NoCast(Hash());
    CastMore({}, from, {from}, Hash(), s.f);
    CastMore({from}, s.id, {from, s.id}, Hash(), s.f);
    hide Majority, Log, Cast, Summarize;
  }

  lemma NoCast<P>(d: Option<Digest<P>>)
    ensures Cast({}, d) == map[]
  {
  }

  /** An acknowledgement arrives. */
  lemma Acks1(s: Node, from: PeerID, id: Id, t: set<PeerID>)
    requires id in s.log && s.log[id] == Polled(s.f, t) && from !in t && id.replica < |s.poSummary|
    ensures var u := OnPOAck(s, from, id, None, Hash());
      u == s.(log := s.log[id := Polled(s.f, t + {from})], poSummary := u.poSummary) && |u.poSummary| == |s.poSummary|
  {
    CastMore(t, from, t + {from}, Hash(), s.f);
    assert |t + {from}| == |t| + 1;
    hide Majority, Log, Cast, RunEnd;
    var x := Polled(s.f, t).(votes := Cast(t + {from}, Hash()));
    assert s.log[id].(hash := Hash()) == s.log[id];
    assert OnPOAck(s, from, id, None, Hash()) == Settle(s, id, x, Hash());
  }

  // ----- the slot at one replica

  /** The slot of a replica that holds m, with the prepares of q and, once they are enough, its own commit. */
  function Voted(s: Node, m: Matrix, q: set<PeerID>, hash: Option<Digest<Matrix>>): Slot {
    var d := DigestOf(Full(s.f));
    if |q| > 2 * s.f then Slot(OPrepared, Some(m), hash, Cast(q, d), Cast({s.id}, d))
    else Slot(OPrePrepared, Some(m), hash, Cast(q, d), map[])
  }

  lemma OneVote(p: PeerID, f: nat)
    requires f >= 1
    ensures |{p}| == 1 && !(|{p}| > 2 * f)
  {
  }

  /** Enough prepares make it commit. */
  lemma Promoted(s: Node, m: Matrix, q: set<PeerID>)
    requires s.f >= 1 && |q| > 2 * s.f
    ensures var d := DigestOf(Full(s.f));
      TryPrepare(s, 1, Slot(OPrePrepared, Some(m), d, Cast(q, d), map[]), d) ==
      Say(s, Vote(s, Commit)).(olog := s.olog[1 := Voted(s, m, q, d)])
  {
    var d := DigestOf(Full(s.f));
    OneVote(s.id, s.f);
    NoCast(d);
    CastMore({}, s.id, {s.id}, d, s.f);
    assert Agreeing(Cast(q, d), d) == q;
    hide Log, Cast, Full, Exec;
  }

  /** The leader's pre-prepare of the whole matrix, to a replica that has no slot. */
  lemma Orders(s: Node)
    requires s.olog == map[] && s.id != Leader(s) && s.f >= 1
    ensures OnPrePrepare(s, Leader(s), 1, Some(Full(s.f)), DigestOf(Full(s.f))) ==
      Say(s, Vote(s, Prepare)).(olog := map[1 := Voted(s, Full(s.f), {Leader(s), s.id}, None)])
  {
    var d, l := DigestOf(Full(s.f)), Leader(s);
    TwoVotes(l, s.id, s.f);
    NoCast(d);
    CastMore({}, l, {l}, d, s.f);
    CastMore({l}, s.id, {l, s.id}, d, s.f);
    hide Majority, Log, Cast, Full, Exec;
  }

  /** A prepare more for it. */
  lemma Supports(s: Node, q: set<PeerID>, from: PeerID, hash: Option<Digest<Matrix>>)
    requires s.f >= 1 && 1 in s.olog && s.olog[1] == Voted(s, Full(s.f), q, hash) && from !in q && from != Leader(s)
    requires hash.None? || hash == DigestOf(Full(s.f))
    ensures var d := DigestOf(Full(s.f));
      var t := s.(olog := s.olog[1 := Voted(s, Full(s.f), q + {from}, d)]);
      OnPrepare(s, from, 1, None, d) == if |q| == 2 * s.f then Say(t, Vote(s, Commit)) else t
  {
    var d, x := DigestOf(Full(s.f)), Voted(s, Full(s.f), q, hash).(hash := DigestOf(Full(s.f)));
    CastMore(q, from, q + {from}, d, s.f);
    assert |q + {from}| == |q| + 1;
    if |q| == 2 * s.f {
      Promoted(s, Full(s.f), q + {from});
    }
    hide Log, Majority, Cast, Full, Exec;
    assert OnPrepare(s, from, 1, None, d) == TryPrepare(s, 1, x.(prepares := Cast(q + {from}, d)), d);
  }

  /** The slot of a replica that has heard prepares before any pre-prepare. */
  function Heard(s: Node, q: set<PeerID>): Slot {
    Slot(ONothing, None, if |q| >= 2 then DigestOf(Full(s.f)) else None, Cast(q, DigestOf(Full(s.f))), map[])
  }

  lemma Hears1(s: Node, q: set<PeerID>, from: PeerID)
    requires s.olog == (if q == {} then map[] else map[1 := Heard(s, q)]) && from !in q && from != Leader(s)
    ensures OnPrepare(s, from, 1, None, DigestOf(Full(s.f))) == s.(olog := map[1 := Heard(s, q + {from})])
  {
    var d := DigestOf(Full(s.f));
    NoCast(d);
    CastMore(q, from, q + {from}, d, s.f);
    assert |q + {from}| == |q| + 1;
    if q != {} {
      assert map[1 := Heard(s, q)][1 := Heard(s, q + {from})] == map[1 := Heard(s, q + {from})];
    }
    hide Log, Majority, Cast, Full, Exec;
  }

  lemma ShortIs(f: nat)
    requires f >= 1
    ensures |Full(f)| == 3 * f + 1 && |Short(f)| == f + 1 && Short(f) <= Full(f) && DigestOf(Short(f)) != DigestOf(Full(f))
  {
  }

  /** The first pre-prepare is refused, but its matrix stays. */
  lemma Refused(s: Node, q: set<PeerID>)
    requires s.f >= 1 && s.olog == map[1 := Heard(s, q)] && |q| >= 2
    ensures OnPrePrepare(s, Leader(s), 1, Some(Short(s.f)), DigestOf(Short(s.f))) ==
      s.(olog := map[1 := Heard(s, q).(matrix := Some(Short(s.f)))])
  {
    ShortIs(s.f);
    hide Full, Short, Cast, CastPrepare;
    var x := Heard(s, q);
    assert map[1 := x][1 := x.(matrix := Some(Short(s.f)))] == map[1 := x.(matrix := Some(Short(s.f)))];
  }

  /** The second one gets the replica's vote, for a matrix that it does not hold. */
  lemma Tricked(s: Node, q: set<PeerID>)
    requires s.f >= 1 && s.olog == map[1 := Heard(s, q).(matrix := Some(Short(s.f)))]
    requires |q| >= 2 * s.f && Leader(s) !in q && s.id !in q && s.id != Leader(s)
    ensures var l, d := Leader(s), DigestOf(Full(s.f));
      OnPrePrepare(s, l, 1, Some(Full(s.f)), d) ==
        Say(Say(s, Vote(s, Prepare)), Vote(s, Commit)).(olog := map[1 := Voted(s, Short(s.f), q + {l} + {s.id}, d)])
  {
    var l, d := Leader(s), DigestOf(Full(s.f));
    var all := q + {l} + {s.id};
    assert |all| == |q| + 2;
    CastMore(q, l, q + {l}, d, s.f);
    CastMore(q + {l}, s.id, all, d, s.f);
    var t, y := Say(s, Vote(s, Prepare)), Slot(OPrePrepared, Some(Short(s.f)), d, Cast(all, d), map[]);
    Promoted(t, Short(s.f), all);
    Passes2(s, q);
    hide Full, Short, Log, Majority, Cast, TryPrepare, OnPrePrepare, Heard;
    CastBoth(s, Heard(s, q).(matrix := Some(Short(s.f))), q, all, d);
    assert s.olog[1 := Voted(s, Short(s.f), all, d)] == map[1 := Voted(s, Short(s.f), all, d)];
  }

  lemma Passes2(s: Node, q: set<PeerID>)
    requires s.f >= 1 && s.olog == map[1 := Heard(s, q).(matrix := Some(Short(s.f)))] && |q| >= 2
    ensures var d := DigestOf(Full(s.f));
      && OnPrePrepare(s, Leader(s), 1, Some(Full(s.f)), d) == CastPrepare(s, Leader(s), 1, Heard(s, q).(matrix := Some(Short(s.f))), d)
      && Heard(s, q) == Slot(ONothing, None, d, Cast(q, d), map[])
  {
    ShortIs(s.f);
    SameRowsIs(Short(s.f), Full(s.f));
    hide Full, Short, Cast, CastPrepare, SameRows;
  }

  lemma CastBoth(s: Node, x: Slot, q: set<PeerID>, all: set<PeerID>, d: Option<Digest<Matrix>>)
    requires x.prepares == Cast(q, d) && Log(Cast(q, d), Leader(s), d) == Some(Cast(q + {Leader(s)}, d))
    requires Log(Cast(q + {Leader(s)}, d), s.id, d) == Some(Cast(all, d))
    ensures CastPrepare(s, Leader(s), 1, x, d) ==
      TryPrepare(Say(s, Order(Prepare, s.oview, 1, None, d)), 1, x.(status := OPrePrepared, prepares := Cast(all, d)), d)
  {
    hide Log, Cast, TryPrepare;
  }

  /** The slot with the commits of c. */
  function Committing(s: Node, m: Matrix, q: set<PeerID>, c: set<PeerID>): Slot {
    var d := DigestOf(Full(s.f));
    Slot(OPrepared, Some(m), d, Cast(q, d), Cast(c, d))
  }

  /** A commit more: the slot waits, or is committed and exec runs. */
  lemma Commits(s: Node, m: Matrix, q: set<PeerID>, c: set<PeerID>, from: PeerID)
    requires 1 in s.olog && s.olog[1] == Committing(s, m, q, c) && from !in c
    ensures var d, x := DigestOf(Full(s.f)), Committing(s, m, q, c + {from});
      OnCommit(s, from, 1, None, d) ==
        if |c| >= 2 * s.f then Exec(s.(olog := s.olog[1 := x.(status := OCommitted)])) else s.(olog := s.olog[1 := x])
  {
    var d := DigestOf(Full(s.f));
    CastMore(c, from, c + {from}, d, s.f);
    assert |c + {from}| == |c| + 1;
    hide Log, Majority, Cast, Full, Exec;
  }

  // ----- what the two matrices make due

  lemma OnesOf(m: Matrix, f: nat, i: nat, v: nat)
    requires Shaped(m) && i < |m| && f < |m| && forall j :: 0 <= j < |m| ==> m[j][i] == v
    ensures Frontier(m, f, i) == v
  {
    var c := Column(m, i);
    FrontierIff(m, f, i, v);
    FrontierIff(m, f, i, v + 1);
    AllReach(c, v);
    NoneReaches(c, v + 1);
  }

  lemma FullTargets(f: nat, i: nat)
    requires f >= 1 && i < 3 * f + 1
    ensures Shaped(Full(f)) && f < |Full(f)| == 3 * f + 1
    ensures Frontier(Full(f), f, i) == if i == 1 then 1 else 0
  {
    var m := Full(f);
    if i != 0 {
      OnesOf(m, f, i, if i == 1 then 1 else 0);
    } else {
      var c := Column(m, 0);
      assert c == c[..f + 1] + c[f + 1..];
      ReachingSplit(c[..f + 1], c[f + 1..], 1);
      NoneReaches(c[f + 1..], 1);
      FrontierIff(m, f, 0, 1);
    }
  }

  lemma ShortTargets(f: nat, i: nat)
    requires f >= 1 && i < f + 1
    ensures Shaped(Short(f)) && f < |Short(f)| == f + 1
    ensures Frontier(Short(f), f, i) == if i <= 1 then 1 else 0
  {
    var m := Short(f);
    assert forall j :: 0 <= j < f + 1 ==> m[j] == Full(f)[j];
    OnesOf(m, f, i, if i <= 1 then 1 else 0);
  }

  lemma {:induction false} SlotPrefix(olog: map<nat, Slot>, f: nat, peers: nat, n: nat, j: nat, k: nat)
    requires j <= k
    ensures SlotIds(olog, f, peers, n, j) <= SlotIds(olog, f, peers, n, k)
    decreases k
  {
    if j < k {
      SlotPrefix(olog, f, peers, n, j, k - 1);
    }
  }

  lemma OneRange(r: nat)
    ensures Range(r, 1, 1) == [] && Range(r, 1, 2) == [Id(r, 1)]
  {
    assert Range(r, 1, 2) == Range(r, 1, 1) + [Id(r, 1)];
  }

  /** The first instance that slot 1 makes due. */
  lemma FirstDue(olog: map<nat, Slot>, f: nat, peers: nat, whole: bool)
    requires f >= 1 && peers == 3 * f + 1 && 1 in olog && olog[1].matrix == Some(MatrixOf(f, whole))
    ensures var due := SlotIds(olog, f, peers, 1, Rows(olog[1])); due != [] && due[0] == if whole then B else A
  {
    FullTargets(f, 0);
    FullTargets(f, 1);
    ShortTargets(f, 0);
    hide Full, Short, Frontier, NextAfter, Range, SlotIds;
    NextUnfold(olog, f, peers, 1, 0);
    NextUnfold(olog, f, peers, 1, 1);
    FirstCursor(olog, f, peers, 0);
    FirstCursor(olog, f, peers, 1);
    OneRange(0);
    OneRange(1);
    SlotUnfold(olog, f, peers, 1, 1);
    SlotUnfold(olog, f, peers, 1, 2);
    NoIds(olog, f, peers);
    SlotPrefix(olog, f, peers, 1, if whole then 2 else 1, Rows(olog[1]));
  }

  lemma NoIds(olog: map<nat, Slot>, f: nat, peers: nat)
    ensures SlotIds(olog, f, peers, 1, 0) == []
  {
  }

  lemma FirstCursor(olog: map<nat, Slot>, f: nat, peers: nat, r: nat)
    requires r < peers
    ensures NextAfter(olog, f, peers, 1, r) == 1
  {
  }

  /** What a replica has executed starts with this instance. */
  predicate Starts(s: Node, id: Id) {
    Ids(s.executed) != [] && Ids(s.executed)[0] == id
  }

  function MatrixOf(f: nat, whole: bool): Matrix {
    if whole then Full(f) else Short(f)
  }

  /** A replica that has pre-ordered A and B and commits one of the matrices executes what that one makes due. */
  lemma Executes(u: Node, whole: bool)
    requires u.f >= 1 && OrderOK(u, Size(u)) && !u.halted && u.oexecIdx == 1 && 1 in u.olog && u.olog[1].status == OCommitted
    requires u.olog[1].matrix == Some(MatrixOf(u.f, whole))
    requires Acks(u.log, B) && (!whole ==> Acks(u.log, A))
    ensures Starts(Exec(u), if whole then B else A)
  {
    hide Full, Short, Frontier, SlotIds, OrderOK, Exec, Ids, Available;
    UsableHere(u.olog[1], u.f, whole);
    AllThere(u, whole);
    NothingDue(u);
    FirstDue(u.olog, u.f, Size(u), whole);
    AllOrNothing(u, Size(u));
  }

  lemma UsableHere(x: Slot, f: nat, whole: bool)
    requires f >= 1 && x.matrix == Some(MatrixOf(f, whole))
    ensures Usable(x, f) && Rows(x) <= 3 * f + 1
    ensures forall r :: 0 <= r < Rows(x) ==> Target(x, f, r) <= (if r == 1 || (r == 0 && !whole) then 1 else 0)
  {
    FullTargets(f, 0);
    ShortTargets(f, 0);
    hide Full, Short, Frontier;
    forall r | 0 <= r < Rows(x) ensures Target(x, f, r) <= if r == 1 || (r == 0 && !whole) then 1 else 0 {
      if whole {
        FullTargets(f, r);
      } else {
        ShortTargets(f, r);
      }
    }
  }

  lemma AllThere(u: Node, whole: bool)
    requires u.f >= 1 && OrderOK(u, Size(u)) && u.oexecIdx == 1 && 1 in u.olog
    requires u.olog[1].matrix == Some(MatrixOf(u.f, whole))
    requires Acks(u.log, B) && (!whole ==> Acks(u.log, A))
    ensures Usable(u.olog[1], u.f) && Available(u, u.olog[1])
  {
    hide Full, Short, Target, OrderOK, Usable, NextAfter, Next;
    UsableHere(u.olog[1], u.f, whole);
    forall r, i | 0 <= r < Rows(u.olog[1]) && Next(u, r) <= i <= Target(u.olog[1], u.f, r)
      ensures Id(r, i) in u.log && Rank(u.log[Id(r, i)].status) >= 2
    {
      CursorIs(u, Size(u), r);
      FirstCursor(u.olog, u.f, Size(u), r);
    }
  }

  lemma NothingDue(u: Node)
    requires OrderOK(u, Size(u)) && u.oexecIdx == 1
    ensures Ids(u.executed) == []
  {
  }

  // ----- the run

  /** A reached system whose leader is faulty. */
  ghost predicate Run(sys: System) {
    && Reached(sys, true) && sys.f >= 1 && sys.faulty <= Peers(sys.f) && |sys.faulty| <= sys.f && LeaderOf(sys) in sys.faulty
    && sys.nodes.Keys == Peers(sys.f) - sys.faulty
    && forall p :: p in sys.nodes ==> sys.nodes[p].id == p && sys.nodes[p].f == sys.f && sys.nodes[p].oview == sys.oview
  }

  function Put(sys: System, p: PeerID, t: Node): System {
    sys.(nodes := sys.nodes[p := t])
  }

  /** Peer `from` is faulty, or it has sent m. */
  predicate Says(sys: System, from: PeerID, m: Msg) {
    from in Peers(sys.f) && (from in sys.faulty || (from in sys.nodes && m in sys.nodes[from].msgs))
  }

  lemma Takes(sys: System, p: PeerID, from: PeerID, m: Msg) returns (after: System)
    requires Run(sys) && p in sys.nodes && from != p && Says(sys, from, m) && !sys.nodes[p].halted
    requires m.Order? && m.kind != PrePrepare ==> m.matrix.None?
    ensures Run(after) && after == Put(sys, p, Receive(sys.nodes[p], from, m))
  {
    hide Reached, Receive, SysInv, LocalInv;
    after := Then(sys, true, Deliver(p, from, m));
    ReachedInv(after, true);
    Kept(after);
  }

  lemma RunOf(sys: System, p: PeerID)
    requires Run(sys) && p in sys.nodes
    ensures var u, l := sys.nodes[p], LeaderOf(sys);
      u.id == p && u.f == sys.f >= 1 && u.oview == sys.oview && Leader(u) == l && l in Peers(sys.f) && l in sys.faulty && l != p
    ensures Reached(sys, true)
  {
    hide Reached;
  }

  lemma Kept(sys: System)
    requires SysInv(sys)
    ensures forall p :: p in sys.nodes ==> sys.nodes[p].id == p && sys.nodes[p].f == sys.f && sys.nodes[p].oview == sys.oview
  {
    hide LocalInv;
  }

  /** A live replica hands a message on slot 1 to its handler. */
  lemma Handed(s: Node, from: PeerID, kind: Kind, matrix: Option<Matrix>, d: Option<Digest<Matrix>>)
    requires !s.halted
    ensures Receive(s, from, Order(kind, s.oview, 1, matrix, d)) ==
      match kind
      case PrePrepare => OnPrePrepare(s, from, 1, matrix, d)
      case Prepare => OnPrepare(s, from, 1, matrix, d)
      case Commit => OnCommit(s, from, 1, matrix, d)
  {
    hide OnPrePrepare, OnPrepare, OnCommit;
  }

  /** What a peer has said stays said when another replica moves. */
  lemma SaysStill(sys: System, p: PeerID, t: Node, from: PeerID, m: Msg)
    requires Says(sys, from, m) && p in sys.nodes && from != p
    ensures Says(Put(sys, p, t), from, m)
  {
  }

  // ----- 1: everybody is asked to pre-order A and B

  function Asked(f: nat, p: PeerID, oview: nat): Node {
    var t := {oview % (3 * f + 1), p};
    Say(Say(Initial(f, p, oview), Ack(A)), Ack(B)).(log := map[A := Polled(f, t), B := Polled(f, t)])
  }

  lemma AskOne(sys: System, p: PeerID) returns (after: System)
    requires Run(sys) && p in sys.nodes && sys.nodes[p] == Initial(sys.f, p, sys.oview)
    ensures Run(after) && after == Put(sys, p, Asked(sys.f, p, sys.oview))
  {
    hide Reached, Receive, Asked, Initial;
    var l := LeaderOf(sys);
    AskedIs(sys.f, p, sys.oview);
    after := Takes(sys, p, l, PORequest(A, Some(CMD), Hash()));
    after := Takes(after, p, l, PORequest(B, Some(CMD), Hash()));
  }

  lemma AskedIs(f: nat, p: PeerID, oview: nat)
    requires f >= 1 && p != oview % (3 * f + 1)
    ensures var s, l := Initial(f, p, oview), oview % (3 * f + 1);
      var t := Receive(s, l, PORequest(A, Some(CMD), Hash()));
      !s.halted && !t.halted && Receive(t, l, PORequest(B, Some(CMD), Hash())) == Asked(f, p, oview)
  {
    var s, l := Initial(f, p, oview), oview % (3 * f + 1);
    var x := Polled(f, {l, p});
    Asks(s, l, A);
    var t := Say(s, Ack(A)).(log := map[A := x]);
    assert s.log[A := x] == map[A := x] && map[A := x][B := x] == map[A := x, B := x];
    hide OnPORequest, Polled;
    Asks(t, l, B);
  }

  lemma {:induction false} AskAll(sys: System, todo: set<PeerID>) returns (after: System)
    requires Run(sys) && todo <= sys.nodes.Keys && forall p :: p in todo ==> sys.nodes[p] == Initial(sys.f, p, sys.oview)
    ensures Run(after) && after.f == sys.f && after.faulty == sys.faulty && after.oview == sys.oview
    ensures forall p :: p in sys.nodes ==> after.nodes[p] == if p in todo then Asked(sys.f, p, sys.oview) else sys.nodes[p]
    decreases |todo|
  {
    hide Asked, Initial, Reached;
    after := sys;
    if todo != {} {
      var p :| p in todo;
      after := AskAll(sys, todo - {p});
      after := AskOne(after, p);
    }
  }

  // ----- 2: a replica hears the acknowledgements

  lemma {:induction false} Gather(sys: System, p: PeerID, id: Id, t: set<PeerID>, more: set<PeerID>) returns (after: System)
    requires Run(sys) && p in sys.nodes && !sys.nodes[p].halted && id in sys.nodes[p].log && sys.nodes[p].log[id] == Polled(sys.f, t)
    requires id.replica < |sys.nodes[p].poSummary| && t !! more && p !in more
    requires forall x :: x in more ==> Says(sys, x, Ack(id))
    ensures Run(after) && p in after.nodes && |after.nodes[p].poSummary| == |sys.nodes[p].poSummary|
    ensures after == Put(sys, p, sys.nodes[p].(log := sys.nodes[p].log[id := Polled(sys.f, t + more)], poSummary := after.nodes[p].poSummary))
    decreases |more|
  {
    hide Run, Says, Polled;
    after := sys;
    if more != {} {
      var x :| x in more;
      after := Gather(sys, p, id, t, more - {x});
      assert t + (more - {x}) + {x} == t + more;
      SaysStill(sys, p, after.nodes[p], x, Ack(id));
      var u := after.nodes[p];
      after := GatherOne(after, p, id, t + (more - {x}), x);
      assert sys.nodes[p := u][p := after.nodes[p]] == sys.nodes[p := after.nodes[p]];
      assert u.log[id := Polled(sys.f, t + more)] == sys.nodes[p].log[id := Polled(sys.f, t + more)];
    } else {
      assert t + more == t;
      PutSame(sys, p, id);
    }
  }

  lemma PutSame(sys: System, p: PeerID, id: Id)
    requires p in sys.nodes && id in sys.nodes[p].log
    ensures Put(sys, p, sys.nodes[p]) == sys && sys.nodes[p].log[id := sys.nodes[p].log[id]] == sys.nodes[p].log
  {
    assert sys.nodes[p := sys.nodes[p]] == sys.nodes;
  }

  lemma GatherOne(sys: System, p: PeerID, id: Id, t: set<PeerID>, x: PeerID) returns (after: System)
    requires Run(sys) && p in sys.nodes && !sys.nodes[p].halted && id in sys.nodes[p].log && sys.nodes[p].log[id] == Polled(sys.f, t)
    requires id.replica < |sys.nodes[p].poSummary| && x !in t && x != p && Says(sys, x, Ack(id))
    ensures Run(after) && p in after.nodes && |after.nodes[p].poSummary| == |sys.nodes[p].poSummary|
    ensures after == Put(sys, p, sys.nodes[p].(log := sys.nodes[p].log[id := Polled(sys.f, t + {x})], poSummary := after.nodes[p].poSummary))
  {
    hide Reached, OnPOAck, Polled;
    Acks1(sys.nodes[p], x, id, t);
    after := Takes(sys, p, x, Ack(id));
  }

  // ----- 3: the leader's pre-prepare of the whole matrix

  function Ordered1(s: Node): Node {
    Say(s, Vote(s, Prepare)).(olog := map[1 := Voted(s, Full(s.f), {Leader(s), s.id}, None)])
  }

  lemma {:induction false} OrderAll(sys: System, todo: set<PeerID>) returns (after: System)
    requires Run(sys) && todo <= sys.nodes.Keys && forall p :: p in todo ==> sys.nodes[p].olog == map[] && !sys.nodes[p].halted
    ensures Run(after) && after.f == sys.f && after.faulty == sys.faulty && after.oview == sys.oview
    ensures forall p :: p in sys.nodes ==> after.nodes[p] == if p in todo then Ordered1(sys.nodes[p]) else sys.nodes[p]
    decreases |todo|
  {
    hide Reached, Ordered1;
    after := sys;
    if todo != {} {
      var p :| p in todo;
      after := OrderAll(sys, todo - {p});
      after := OrderOne(after, p);
    }
  }

  lemma OrderOne(sys: System, p: PeerID) returns (after: System)
    requires Run(sys) && p in sys.nodes && sys.nodes[p].olog == map[] && !sys.nodes[p].halted
    ensures Run(after) && after == Put(sys, p, Ordered1(sys.nodes[p]))
  {
    var s := sys.nodes[p];
    hide Reached, OnPrePrepare, Receive;
    assert Leader(s) == LeaderOf(sys) && s.id == p;
    Orders(s);
    Handed(s, LeaderOf(sys), PrePrepare, Some(Full(s.f)), DigestOf(Full(s.f)));
    after := Takes(sys, p, LeaderOf(sys), Order(PrePrepare, s.oview, 1, Some(Full(s.f)), DigestOf(Full(s.f))));
  }

  // ----- 4: one replica hears prepares first, and is tricked

  lemma {:induction false} HearAll(sys: System, p: PeerID, more: set<PeerID>) returns (after: System)
    requires Run(sys) && p in sys.nodes && !sys.nodes[p].halted && sys.nodes[p].olog == map[] && p !in more && LeaderOf(sys) !in more
    requires forall x :: x in more ==> Says(sys, x, Vote(sys.nodes[p], Prepare))
    ensures Run(after) && after == Put(sys, p, sys.nodes[p].(olog := if more == {} then map[] else map[1 := Heard(sys.nodes[p], more)]))
    decreases |more|
  {
    hide Run, Says, Heard, Vote;
    after := sys;
    if more != {} {
      var x :| x in more;
      var s := sys.nodes[p];
      after := HearAll(sys, p, more - {x});
      SaysStill(sys, p, after.nodes[p], x, Vote(s, Prepare));
      assert more - {x} + {x} == more;
      after := HearOne(after, p, s, more - {x}, x);
    } else {
      assert sys.nodes[p := sys.nodes[p]] == sys.nodes;
    }
  }

  lemma HearOne(sys: System, p: PeerID, s: Node, q: set<PeerID>, x: PeerID) returns (after: System)
    requires Run(sys) && p in sys.nodes && !s.halted && sys.nodes[p] == s.(olog := if q == {} then map[] else map[1 := Heard(s, q)])
    requires x !in q && x != p && x != LeaderOf(sys) && Says(sys, x, Vote(s, Prepare))
    ensures Run(after) && after == Put(sys, p, s.(olog := map[1 := Heard(s, q + {x})]))
  {
    hide Run, Receive, Heard, OnPrepare, Says, Full;
    RunOf(sys, p);
    var u := sys.nodes[p];
    HeardSame(u, s, q);
    HeardSame(u, s, q + {x});
    Hears1(u, q, x);
    Handed(u, x, Prepare, None, DigestOf(Full(u.f)));
    after := Takes(sys, p, x, Vote(u, Prepare));
  }

  /** The replica is ready to commit the short matrix, under the digest of the whole one. */
  function Fooled(s: Node, all: set<PeerID>): Node {
    Say(Say(s, Vote(s, Prepare)), Vote(s, Commit)).(olog := map[1 := Committing(s, Short(s.f), all, {s.id})])
  }

  lemma Fool(sys: System, p: PeerID, s: Node, q: set<PeerID>) returns (after: System)
    requires Run(sys) && p in sys.nodes && !s.halted && sys.nodes[p] == s.(olog := map[1 := Heard(s, q)])
    requires |q| >= 2 * sys.f && LeaderOf(sys) !in q && p !in q
    ensures Run(after) && after == Put(sys, p, Fooled(s, q + {LeaderOf(sys)} + {p}))
  {
    hide Run, Receive, OnPrePrepare, Fooled, Short, Full, Heard;
    RunOf(sys, p);
    var u, l := sys.nodes[p], LeaderOf(sys);
    FoolLocal(u, s, q);
    var t := OnPrePrepare(u, l, 1, Some(Short(u.f)), DigestOf(Short(u.f)));
    Handed(u, l, PrePrepare, Some(Short(u.f)), DigestOf(Short(u.f)));
    Handed(t, l, PrePrepare, Some(Full(u.f)), DigestOf(Full(u.f)));
    assert Says(sys, l, Order(PrePrepare, u.oview, 1, Some(Full(u.f)), DigestOf(Full(u.f))));
    after := Takes(sys, p, l, Order(PrePrepare, u.oview, 1, Some(Short(u.f)), DigestOf(Short(u.f))));
    after := Takes(after, p, l, Order(PrePrepare, u.oview, 1, Some(Full(u.f)), DigestOf(Full(u.f))));
    assert sys.nodes[p := t][p := Fooled(s, q + {l} + {p})] == sys.nodes[p := Fooled(s, q + {l} + {p})];
  }

  lemma FoolLocal(u: Node, s: Node, q: set<PeerID>)
    requires u == s.(olog := map[1 := Heard(s, q)]) && u.f >= 1 && !u.halted
    requires |q| >= 2 * u.f && Leader(u) !in q && u.id !in q && u.id != Leader(u)
    ensures var l := Leader(u);
      var t := OnPrePrepare(u, l, 1, Some(Short(u.f)), DigestOf(Short(u.f)));
      && !t.halted && t.oview == u.oview && t.f == u.f
      && OnPrePrepare(t, l, 1, Some(Full(u.f)), DigestOf(Full(u.f))) == Fooled(s, q + {l} + {u.id})
  {
    assert Heard(u, q) == Heard(s, q);
    hide Short, Full, Heard, OnPrePrepare;
    var t := u.(olog := map[1 := Heard(u, q).(matrix := Some(Short(u.f)))]);
    Refused(u, q);
    assert Heard(t, q) == Heard(u, q) by { HeardSame(u, t, q); }
    Tricked(t, q);
    FooledIs(s, t, q, Leader(u));
  }

  lemma HeardSame(s: Node, t: Node, q: set<PeerID>)
    requires s.f == t.f
    ensures Heard(s, q) == Heard(t, q)
  {
  }

  lemma FooledIs(s: Node, t: Node, q: set<PeerID>, l: PeerID)
    requires t == s.(olog := t.olog) && |q| >= 2 * s.f && l !in q && s.id !in q && l != s.id
    ensures Say(Say(t, Vote(t, Prepare)), Vote(t, Commit)).(olog := map[1 := Voted(t, Short(t.f), q + {l} + {t.id}, DigestOf(Full(t.f)))])
      == Fooled(s, q + {l} + {s.id})
  {
    assert |q + {l} + {s.id}| == |q| + 2;
    hide Short, Full;
  }

  // ----- 5: the others hear each other's prepares

  /** A replica with the whole matrix and the prepares of q. */
  function Backing(s: Node, q: set<PeerID>, hash: Option<Digest<Matrix>>): Node {
    var t := Say(s, Vote(s, Prepare)).(olog := map[1 := Voted(s, Full(s.f), q, hash)]);
    if |q| > 2 * s.f then Say(t, Vote(s, Commit)) else t
  }

  lemma {:induction false} SupportAll(sys: System, p: PeerID, s: Node, more: set<PeerID>) returns (after: System, hash: Option<Digest<Matrix>>)
    requires Run(sys) && p in sys.nodes && !s.halted && sys.nodes[p] == Backing(s, {LeaderOf(sys), p}, None)
    requires p !in more && LeaderOf(sys) !in more && forall x :: x in more ==> Says(sys, x, Vote(s, Prepare))
    ensures Run(after) && after == Put(sys, p, Backing(s, {LeaderOf(sys), p} + more, hash))
    ensures hash == if more == {} then None else DigestOf(Full(s.f))
    decreases |more|
  {
    hide Run, Says, Backing, Vote, Full;
    after, hash := sys, None;
    var q := {LeaderOf(sys), p};
    if more != {} {
      var x :| x in more;
      after, hash := SupportAll(sys, p, s, more - {x});
      SaysStill(sys, p, after.nodes[p], x, Vote(s, Prepare));
      assert q + (more - {x}) + {x} == q + more;
      after := SupportOne(after, p, s, q + (more - {x}), hash, x);
      hash := DigestOf(Full(s.f));
    } else {
      assert q + more == q && sys.nodes[p := sys.nodes[p]] == sys.nodes;
    }
  }

  lemma SupportOne(sys: System, p: PeerID, s: Node, q: set<PeerID>, hash: Option<Digest<Matrix>>, x: PeerID) returns (after: System)
    requires Run(sys) && p in sys.nodes && !s.halted && sys.nodes[p] == Backing(s, q, hash) && (hash.None? || hash == DigestOf(Full(s.f)))
    requires x !in q && x != p && x != LeaderOf(sys) && Says(sys, x, Vote(s, Prepare))
    ensures Run(after) && after == Put(sys, p, Backing(s, q + {x}, DigestOf(Full(s.f))))
  {
    hide Run, Reached, Receive, OnPrepare, Says, Full;
    var u := sys.nodes[p];
    RunOf(sys, p);
    assert s.f == u.f && Leader(s) == Leader(u) && Vote(u, Prepare) == Vote(s, Prepare);
    hide Backing, Vote;
    BackingStep(s, q, hash, x);
    Handed(u, x, Prepare, None, DigestOf(Full(u.f)));
    after := Takes(sys, p, x, Vote(u, Prepare));
  }

  lemma BackingStep(s: Node, q: set<PeerID>, hash: Option<Digest<Matrix>>, x: PeerID)
    requires s.f >= 1 && !s.halted && (hash.None? || hash == DigestOf(Full(s.f))) && x !in q && x != Leader(s)
    ensures var u := Backing(s, q, hash);
      !u.halted && u.f == s.f && u.oview == s.oview && OnPrepare(u, x, 1, None, DigestOf(Full(s.f))) == Backing(s, q + {x}, DigestOf(Full(s.f)))
  {
    hide OnPrepare, Full, Cast, Voted;
    var u, d := Backing(s, q, hash), DigestOf(Full(s.f));
    VotedSame(s, u, q, hash);
    VotedSame(s, u, q + {x}, d);
    Supports(u, q, x, hash);
    assert |q + {x}| == |q| + 1;
    assert u.olog[1 := Voted(s, Full(s.f), q + {x}, d)] == map[1 := Voted(s, Full(s.f), q + {x}, d)];
  }

  lemma VotedSame(s: Node, t: Node, q: set<PeerID>, hash: Option<Digest<Matrix>>)
    requires s.f == t.f && s.id == t.id
    ensures Voted(s, Full(s.f), q, hash) == Voted(t, Full(t.f), q, hash)
  {
  }

  /** With enough prepares it is ready to commit the whole matrix. */
  lemma BackingReady(s: Node, q: set<PeerID>)
    requires |q| > 2 * s.f
    ensures var t := Backing(s, q, DigestOf(Full(s.f)));
      t.olog == map[1 := Committing(t, Full(t.f), q, {t.id})] && t.msgs == s.msgs + [Vote(s, Prepare)] + [Vote(s, Commit)]
      && t.log == s.log && t.f == s.f && t.oview == s.oview && t.id == s.id && t.halted == s.halted && t.oexecIdx == s.oexecIdx
  {
    hide Full, Cast;
  }

  // ----- 6: commits

  lemma {:induction false} CommitAll(sys: System, p: PeerID, s: Node, m: Matrix, q: set<PeerID>, c: set<PeerID>, more: set<PeerID>)
      returns (after: System)
    requires Run(sys) && p in sys.nodes && !s.halted && sys.nodes[p] == s.(olog := map[1 := Committing(s, m, q, c)])
    requires p !in more && c !! more && |c + more| <= 2 * sys.f && forall x :: x in more ==> Says(sys, x, Vote(s, Commit))
    ensures Run(after) && after == Put(sys, p, s.(olog := map[1 := Committing(s, m, q, c + more)]))
    decreases |more|
  {
    hide Run, Says, Vote, Committing;
    after := sys;
    if more != {} {
      var x :| x in more;
      assert c + (more - {x}) + {x} == c + more && |c + more| == |c + (more - {x})| + 1;
      after := CommitAll(sys, p, s, m, q, c, more - {x});
      SaysStill(sys, p, after.nodes[p], x, Vote(s, Commit));
      after := CommitOne(after, p, s, m, q, c + (more - {x}), x);
    } else {
      assert c + more == c && sys.nodes[p := sys.nodes[p]] == sys.nodes;
    }
  }

  lemma CommitOne(sys: System, p: PeerID, s: Node, m: Matrix, q: set<PeerID>, c: set<PeerID>, x: PeerID) returns (after: System)
    requires Run(sys) && p in sys.nodes && !s.halted && sys.nodes[p] == s.(olog := map[1 := Committing(s, m, q, c)])
    requires x !in c && x != p && |c| < 2 * sys.f && Says(sys, x, Vote(s, Commit))
    ensures Run(after) && after == Put(sys, p, s.(olog := map[1 := Committing(s, m, q, c + {x})]))
  {
    hide Run, Receive, OnCommit, Says, Committing, Full, Exec;
    RunOf(sys, p);
    var u, t := sys.nodes[p], s.(olog := map[1 := Committing(s, m, q, c + {x})]);
    CommitsLocal(u, s, m, q, c, x);
    Handed(u, x, Commit, None, DigestOf(Full(u.f)));
    after := Takes(sys, p, x, Vote(u, Commit));
  }

  lemma CommittingSame(s: Node, t: Node, m: Matrix, q: set<PeerID>, c: set<PeerID>)
    requires s.f == t.f
    ensures Committing(s, m, q, c) == Committing(t, m, q, c)
  {
  }

  lemma CommitsLocal(u: Node, s: Node, m: Matrix, q: set<PeerID>, c: set<PeerID>, x: PeerID)
    requires u == s.(olog := map[1 := Committing(s, m, q, c)]) && x !in c
    ensures var y := Committing(s, m, q, c + {x});
      OnCommit(u, x, 1, None, DigestOf(Full(u.f))) ==
        if |c| >= 2 * s.f then Exec(u.(olog := u.olog[1 := y.(status := OCommitted)])) else s.(olog := map[1 := y])
  {
    hide Committing, OnCommit, Full, Exec;
    CommittingSame(u, s, m, q, c);
    CommittingSame(u, s, m, q, c + {x});
    Commits(u, m, q, c, x);
    assert u.olog[1 := Committing(s, m, q, c + {x})] == map[1 := Committing(s, m, q, c + {x})];
  }

  /** The last commit: the slot is executed. */
  lemma CommitLast(sys: System, p: PeerID, s: Node, m: Matrix, whole: bool, q: set<PeerID>, c: set<PeerID>, x: PeerID) returns (after: System)
    requires Run(sys) && p in sys.nodes && sys.nodes[p] == s.(olog := map[1 := Committing(s, m, q, c)])
    requires !s.halted && s.oexecIdx == 1 && Acks(s.log, A) && Acks(s.log, B) && m == MatrixOf(s.f, whole)
    requires x !in c && x != p && |c| == 2 * sys.f && Says(sys, x, Vote(s, Commit))
    ensures Run(after) && p in after.nodes && after == Put(sys, p, after.nodes[p]) && Starts(after.nodes[p], if whole then B else A)
  {
    hide Run, Receive, OnCommit, Says, Committing, Full, Short, Exec, Ids, LocalInv, Acks;
    RunOf(sys, p);
    var u, y := sys.nodes[p], Committing(s, m, q, c + {x}).(status := OCommitted);
    CommitsLocal(u, s, m, q, c, x);
    Handed(u, x, Commit, None, DigestOf(Full(u.f)));
    ReachedLocal(sys, true, p);
    after := Takes(sys, p, x, Vote(u, Commit));
    LastLocal(u, s, m, q, c, x);
    Executes(u.(olog := u.olog[1 := y]), whole);
  }

  lemma LastLocal(u: Node, s: Node, m: Matrix, q: set<PeerID>, c: set<PeerID>, x: PeerID)
    requires LocalInv(u) && !u.halted && u == s.(olog := map[1 := Committing(s, m, q, c)])
    ensures var y := Committing(s, m, q, c + {x}).(status := OCommitted);
      y.matrix == Some(m) && OrderOK(u.(olog := u.olog[1 := y]), Size(u))
  {
    hide LocalInv, Full, Cast, OrderOK;
    ReadyToExecute(u, Committing(s, m, q, c + {x}).(status := OCommitted));
  }

  lemma ReadyToExecute(u: Node, y: Slot)
    requires LocalInv(u) && !u.halted && 1 in u.olog && ORank(u.olog[1].status) >= 1 && ORank(u.olog[1].status) <= ORank(y.status)
    requires y.matrix == u.olog[1].matrix && y.prepares == u.olog[1].prepares
    ensures OrderOK(u.(olog := u.olog[1 := y]), Size(u))
  {
    HeldSlotOK(u, 1);
    hide LocalInv, Good;
    PutSlot(u, 1, y);
    GoodOrder(u, u.(olog := u.olog[1 := y]));
  }

  lemma GoodOrder(s: Node, t: Node)
    requires Good(s, t)
    ensures OrderOK(t, Size(t))
  {
  }

  // ----- all of it

  lemma Begins(f: nat, faulty: set<PeerID>, oview: nat) returns (sys: System)
    requires f >= 1 && faulty <= Peers(f) && |faulty| <= f && oview % (3 * f + 1) in faulty
    ensures Run(sys) && sys.f == f && sys.faulty == faulty && sys.oview == oview
    ensures forall p :: p in sys.nodes ==> sys.nodes[p] == Initial(f, p, oview)
  {
    hide Initial;
    sys := System(f, faulty, oview, map p | p in Peers(f) - faulty :: Initial(f, p, oview));
    assert Reached(sys, true) by {
      assert Start(sys) && ValidRun(sys, true, []) && RunEnds(sys, true, []) == sys;
    }
    forall p | p in sys.nodes ensures sys.nodes[p].id == p && sys.nodes[p].f == f && sys.nodes[p].oview == oview {
      InitialIs(f, p, oview);
    }
    hide Reached;
  }

  lemma InitialIs(f: nat, p: PeerID, oview: nat)
    ensures var s := Initial(f, p, oview); s.id == p && s.f == f && s.oview == oview && |s.poSummary| == 3 * f + 1
  {
  }

  /** All peers but those in except say m. */
  ghost predicate AllSay(sys: System, except: set<PeerID>, m: Msg) {
    forall x :: x in Peers(sys.f) - except ==> Says(sys, x, m)
  }

  /** A move that forgets nothing leaves everybody's word. */
  lemma AllSayStill(sys: System, p: PeerID, t: Node, except: set<PeerID>, m: Msg)
    requires AllSay(sys, except, m) && p in sys.nodes && (p in except || m in t.msgs)
    ensures AllSay(Put(sys, p, t), except, m)
  {
  }

  /** A replica that has pre-ordered both instances and has no slot yet. */
  predicate Supplied0(s: Node, msgs: seq<Msg>) {
    !s.halted && s.olog == map[] && s.oexecIdx == 1 && Acks(s.log, A) && Acks(s.log, B) && s.msgs == msgs
  }

  lemma Supply(sys: System, p: PeerID) returns (after: System)
    requires Run(sys) && p in sys.nodes && sys.nodes[p] == Asked(sys.f, p, sys.oview)
    requires AllSay(sys, {p}, Ack(A)) && AllSay(sys, {p}, Ack(B))
    ensures Run(after) && p in after.nodes && after == Put(sys, p, after.nodes[p]) && Supplied0(after.nodes[p], sys.nodes[p].msgs)
  {
    hide Run, Asked, Polled, AllSay, Acks;
    SizeOf(sys);
    AskedFacts(sys.f, p, sys.oview);
    after := SupplyOne(sys, p, A);
    AllSayStill(sys, p, after.nodes[p], {p}, Ack(B));
    var mid := after;
    after := SupplyOne(mid, p, B);
    assert sys.nodes[p := mid.nodes[p]][p := after.nodes[p]] == sys.nodes[p := after.nodes[p]];
    PolledAcks(after.nodes[p].log, A, sys.f);
    PolledAcks(after.nodes[p].log, B, sys.f);
  }

  lemma SizeOf(sys: System)
    requires Run(sys)
    ensures sys.f >= 1
  {
  }

  /** All peers' acknowledgements of one instance. */
  lemma SupplyOne(sys: System, p: PeerID, id: Id) returns (after: System)
    requires Run(sys) && p in sys.nodes && AllSay(sys, {p}, Ack(id)) && id.replica < |sys.nodes[p].poSummary| && !sys.nodes[p].halted
    requires id in sys.nodes[p].log && sys.nodes[p].log[id] == Polled(sys.f, {LeaderOf(sys), p})
    ensures Run(after) && p in after.nodes && |after.nodes[p].poSummary| == |sys.nodes[p].poSummary|
    ensures after == Put(sys, p, sys.nodes[p].(log := sys.nodes[p].log[id := Polled(sys.f, Peers(sys.f))], poSummary := after.nodes[p].poSummary))
  {
    var two, rest := {LeaderOf(sys), p}, Peers(sys.f) - {LeaderOf(sys), p};
    assert two + rest == Peers(sys.f);
    hide Run, Polled, Says;
    after := Gather(sys, p, id, two, rest);
  }

  lemma AskedFacts(f: nat, p: PeerID, oview: nat)
    ensures var s := Asked(f, p, oview);
      && !s.halted && s.olog == map[] && s.oexecIdx == 1 && |s.poSummary| == 3 * f + 1 && s.msgs == [Ack(A)] + [Ack(B)]
      && s.log == map[A := Polled(f, {oview % (3 * f + 1), p}), B := Polled(f, {oview % (3 * f + 1), p})]
      && s.f == f && s.oview == oview && s.id == p
  {
  }

  lemma PolledAcks(log: map<Id, Inst>, id: Id, f: nat)
    requires id in log && log[id] == Polled(f, Peers(f)) && f >= 1
    ensures Acks(log, id)
  {
  }

  /** Both replicas pre-order the instances. */
  lemma SupplyBoth(sys: System, p: PeerID, r: PeerID) returns (after: System)
    requires Run(sys) && p in sys.nodes && r in sys.nodes && p != r && forall x :: x in sys.nodes ==> sys.nodes[x] == Initial(sys.f, x, sys.oview)
    ensures Run(after) && after.f == sys.f && after.faulty == sys.faulty && after.oview == sys.oview && after.nodes.Keys == sys.nodes.Keys
    ensures forall x :: x in after.nodes ==> !after.nodes[x].halted && after.nodes[x].olog == map[]
    ensures Supplied0(after.nodes[p], after.nodes[p].msgs) && Supplied0(after.nodes[r], after.nodes[r].msgs)
  {
    hide Asked, Initial, Says, Reached;
    var asked := AskAll(sys, sys.nodes.Keys);
    forall x | x in sys.nodes ensures asked.nodes[x].msgs == [Ack(A)] + [Ack(B)] && !asked.nodes[x].halted && asked.nodes[x].olog == map[] {
      AskedFacts(sys.f, x, sys.oview);
    }
    EverybodyAcks(asked);
    hide Run;
    after := Supply(asked, p);
    var mid := after;
    AllSayStill(asked, p, mid.nodes[p], {r}, Ack(A));
    AllSayStill(asked, p, mid.nodes[p], {r}, Ack(B));
    after := Supply(mid, r);
  }

  lemma EverybodyAcks(sys: System)
    requires Run(sys) && forall x :: x in sys.nodes ==> sys.nodes[x].msgs == [Ack(A)] + [Ack(B)]
    ensures forall p :: AllSay(sys, {p}, Ack(A)) && AllSay(sys, {p}, Ack(B))
  {
    assert Ack(A) in [Ack(A)] + [Ack(B)] && Ack(B) in [Ack(A)] + [Ack(B)];
    hide Reached;
  }

  /** The leader sends the whole matrix to all but p, who hears their prepares first and is fooled. */
  lemma Splits(sys: System, p: PeerID) returns (after: System)
    requires Run(sys) && p in sys.nodes && Supplied0(sys.nodes[p], sys.nodes[p].msgs)
    requires forall x :: x in sys.nodes ==> !sys.nodes[x].halted && sys.nodes[x].olog == map[]
    ensures Run(after) && after.f == sys.f && after.faulty == sys.faulty && after.oview == sys.oview && after.nodes.Keys == sys.nodes.Keys
    ensures after.nodes[p] == Fooled(sys.nodes[p], Peers(sys.f))
    ensures forall x :: x in sys.nodes && x != p ==> after.nodes[x] == Ordered1(sys.nodes[x])
  {
    SuppliedLive(sys.nodes[p]);
    hide Run, Says, Heard, Ordered1, Fooled, Full, Supplied0;
    RunOf(sys, p);
    KeysOf(sys);
    var ordered := OrderAll(sys, sys.nodes.Keys - {p});
    forall x | x in sys.nodes ensures Vote(sys.nodes[x], Prepare) in Ordered1(sys.nodes[x]).msgs {
      OrderedFacts(sys.nodes[x]);
    }
    after := FoolAfter(ordered, p);
  }

  lemma SuppliedLive(s: Node)
    requires Supplied0(s, s.msgs)
    ensures !s.halted && s.olog == map[]
  {
  }

  /** Everybody else has voted for the whole matrix. */
  lemma FoolAfter(sys: System, p: PeerID) returns (after: System)
    requires Run(sys) && p in sys.nodes && !sys.nodes[p].halted && sys.nodes[p].olog == map[]
    requires forall x :: x in sys.nodes && x != p ==> Vote(sys.nodes[x], Prepare) in sys.nodes[x].msgs
    ensures Run(after) && after == Put(sys, p, Fooled(sys.nodes[p], Peers(sys.f)))
  {
    hide Run, Says, Heard, Fooled, Full;
    RunOf(sys, p);
    KeysOf(sys);
    var l := LeaderOf(sys);
    var q := Peers(sys.f) - {l, p};
    Voters(sys, p, q);
    TwoLess(sys.f, l, p);
    hide Peers;
    after := HearAndFool(sys, p, q);
  }

  lemma HearAndFool(sys: System, p: PeerID, q: set<PeerID>) returns (after: System)
    requires Run(sys) && p in sys.nodes && !sys.nodes[p].halted && sys.nodes[p].olog == map[] && p !in q && LeaderOf(sys) !in q
    requires |q| >= 2 * sys.f && sys.f >= 1 && forall x :: x in q ==> Says(sys, x, Vote(sys.nodes[p], Prepare))
    ensures Run(after) && after == Put(sys, p, Fooled(sys.nodes[p], q + {LeaderOf(sys)} + {p}))
  {
    hide Run, Says, Heard, Fooled, Vote;
    var mid := HearAll(sys, p, q);
    after := Fool(mid, p, sys.nodes[p], q);
    assert sys.nodes[p := mid.nodes[p]][p := after.nodes[p]] == sys.nodes[p := after.nodes[p]];
  }

  lemma TwoLess(f: nat, l: PeerID, p: PeerID)
    requires l in Peers(f) && p in Peers(f) && l != p
    ensures |Peers(f) - {l, p}| == 3 * f - 1 && Peers(f) - {l, p} + {l} + {p} == Peers(f)
  {
    assert |{l, p}| == 2 && Peers(f) - {l, p} + {l, p} == Peers(f);
  }

  lemma OrderedFacts(s: Node)
    ensures var t := Ordered1(s);
      && t.msgs == s.msgs + [Vote(s, Prepare)] && t.halted == s.halted && t.f == s.f && t.oview == s.oview && t.id == s.id
      && t.log == s.log && t.oexecIdx == s.oexecIdx
    ensures s.f >= 1 && s.id != Leader(s) ==> Ordered1(s) == Backing(s, {Leader(s), s.id}, None)
  {
    if s.f >= 1 && s.id != Leader(s) {
      TwoVotes(Leader(s), s.id, s.f);
    }
    hide Full;
  }

  /** The voters for the whole matrix. */
  lemma Voters(sys: System, p: PeerID, q: set<PeerID>)
    requires Run(sys) && p in sys.nodes && q <= Peers(sys.f) - {p}
    requires forall x :: x in sys.nodes && x != p ==> Vote(sys.nodes[x], Prepare) in sys.nodes[x].msgs
    ensures forall x :: x in q ==> Says(sys, x, Vote(sys.nodes[p], Prepare))
  {
    hide Reached, Full;
    forall x | x in q ensures Says(sys, x, Vote(sys.nodes[p], Prepare)) {
      if x in sys.nodes {
        assert Vote(sys.nodes[x], Prepare) == Vote(sys.nodes[p], Prepare);
      }
    }
  }

  /** A replica that has heard everybody's prepare. */
  function Backed1(s: Node): Node {
    Backing(s, Peers(s.f), DigestOf(Full(s.f)))
  }

  /** All correct replicas have sent their prepare. */
  ghost predicate AllVote(sys: System) {
    forall x :: x in sys.nodes ==> Vote(sys.nodes[x], Prepare) in sys.nodes[x].msgs
  }

  /** One replica hears all prepares. */
  lemma BackOne(sys: System, p: PeerID, s: Node) returns (after: System)
    requires Run(sys) && p in sys.nodes && !s.halted && sys.nodes[p] == Ordered1(s) && s.f == sys.f && s.oview == sys.oview && s.id == p
    requires AllVote(sys)
    ensures Run(after) && after == Put(sys, p, Backed1(s)) && AllVote(after)
  {
    hide Reached, Says, Ordered1, Backing, Full;
    var l, more := LeaderOf(sys), Peers(sys.f) - {LeaderOf(sys), p};
    OrderedFacts(s);
    Voters(sys, p, more);
    assert Vote(sys.nodes[p], Prepare) == Vote(s, Prepare);
    var hash;
    after, hash := SupportAll(sys, p, s, more);
    assert {l, p} + more == Peers(sys.f);
    TwoLess(sys.f, l, p);
    BackingReady(s, Peers(sys.f));
    Backed1Same(s);
  }

  lemma {:induction false} BackAll(sys: System, base: map<PeerID, Node>, todo: set<PeerID>) returns (after: System)
    requires Run(sys) && todo <= sys.nodes.Keys && base.Keys == sys.nodes.Keys
    requires forall x :: x in todo ==> !base[x].halted && sys.nodes[x] == Ordered1(base[x]) && base[x].id == x && base[x].f == sys.f && base[x].oview == sys.oview
    requires AllVote(sys)
    ensures Run(after) && AllVote(after) && after.f == sys.f && after.faulty == sys.faulty && after.oview == sys.oview && after.nodes.Keys == sys.nodes.Keys
    ensures forall x :: x in sys.nodes ==> after.nodes[x] == if x in todo then Backed1(base[x]) else sys.nodes[x]
    decreases |todo|
  {
    hide Run, AllVote, Ordered1, Backed1;
    after := sys;
    if todo != {} {
      var p :| p in todo;
      var mid := BackAll(sys, base, todo - {p});
      after := BackOne(mid, p, base[p]);
    }
  }

  lemma Backed1Same(s: Node)
    ensures Backed1(s).f == s.f && Backed1(s).oview == s.oview
    ensures Vote(Backed1(s), Prepare) in Backed1(s).msgs
  {
    hide Full;
  }

  lemma {:induction false} Part(s: set<PeerID>, n: nat) returns (t: set<PeerID>)
    requires n <= |s|
    ensures t <= s && |t| == n
  {
    if n == 0 {
      t := {};
    } else {
      var u := Part(s, n - 1);
      if s <= u {
        SubsetSize(s, u);
        assert false;
      }
      var x :| x in s && x !in u;
      t := u + {x};
    }
  }

  /** The other commits reach one replica, which executes the slot. */
  lemma Concludes(sys: System, p: PeerID, s: Node, whole: bool, except: set<PeerID>) returns (after: System)
    requires Run(sys) && p in sys.nodes && sys.nodes[p] == s.(olog := map[1 := Committing(s, MatrixOf(s.f, whole), Peers(s.f), {p})])
    requires !s.halted && s.f == sys.f && s.oexecIdx == 1 && Acks(s.log, A) && Acks(s.log, B)
    requires p in except && |except| <= 2 && AllSay(sys, except, Vote(s, Commit))
    ensures Run(after) && p in after.nodes && after == Put(sys, p, after.nodes[p]) && Starts(after.nodes[p], if whole then B else A)
  {
    hide Reached, Says, Committing, Full, Short, Acks, Starts;
    assert |Peers(sys.f) - except| >= 2 * sys.f by {
      assert Peers(sys.f) <= (Peers(sys.f) - except) + except;
      SubsetSize(Peers(sys.f), (Peers(sys.f) - except) + except);
    }
    var t := Part(Peers(sys.f) - except, 2 * sys.f);
    var x :| x in t;
    var more := t - {x};
    assert |{p} + more| == 2 * sys.f;
    after := CommitAll(sys, p, s, MatrixOf(s.f, whole), Peers(s.f), {p}, more);
    var mid := after;
    SaysStill(sys, p, mid.nodes[p], x, Vote(s, Commit));
    after := CommitLast(mid, p, s, MatrixOf(s.f, whole), whole, Peers(s.f), {p} + more, x);
    assert sys.nodes[p := mid.nodes[p]][p := after.nodes[p]] == sys.nodes[p := after.nodes[p]];
  }

  /** With a faulty leader, whatever f, two correct replicas can execute in different orders. */
  lemma Diverges(f: nat, faulty: set<PeerID>, oview: nat) returns (sys: System, p: PeerID, r: PeerID)
    requires faulty <= Peers(f) && |faulty| <= f && oview % (3 * f + 1) in faulty
    ensures Reached(sys, true) && sys.f == f && sys.faulty == faulty && sys.oview == oview && p in sys.nodes && r in sys.nodes
    ensures Starts(sys.nodes[p], A) && Starts(sys.nodes[r], B)
  {
    hide Run, Reached, Supplied0, Fooled, Ordered1, Backed1, Starts, Initial;
    p, r := TwoCorrect(f, faulty, oview);
    var start := Begins(f, faulty, oview);
    KeysOf(start);
    var supplied := SupplyBoth(start, p, r);
    var split := Splits(supplied, p);
    KeysOf(supplied);
    VotesCast(supplied, split, p);
    var backed := BackAll(split, supplied.nodes, split.nodes.Keys - {p});
    sys := Ends(supplied, backed, p, r);
    assert Reached(sys, true) by { RunReached(sys); }
  }

  lemma TwoCorrect(f: nat, faulty: set<PeerID>, oview: nat) returns (p: PeerID, r: PeerID)
    requires faulty <= Peers(f) && |faulty| <= f && oview % (3 * f + 1) in faulty
    ensures f >= 1 && p != r && p in Peers(f) - faulty && r in Peers(f) - faulty
  {
    if faulty == {} {
      assert false;
    }
    assert |faulty| > 0;
    assert Peers(f) == (Peers(f) - faulty) + faulty;
    var two := Part(Peers(f) - faulty, 2);
    p :| p in two;
    assert |two - {p}| == 1;
    r :| r in two - {p};
  }

  lemma KeysOf(sys: System)
    requires Run(sys)
    ensures sys.nodes.Keys == Peers(sys.f) - sys.faulty && sys.f >= 1
    ensures forall x :: x in sys.nodes ==> sys.nodes[x].id == x && sys.nodes[x].f == sys.f && sys.nodes[x].oview == sys.oview
  {
    hide Reached;
  }

  lemma RunReached(sys: System)
    requires Run(sys)
    ensures Reached(sys, true)
  {
    hide Reached;
  }

  lemma VotesCast(base: System, sys: System, p: PeerID)
    requires p in sys.nodes && base.nodes.Keys == sys.nodes.Keys && sys.nodes[p] == Fooled(base.nodes[p], Peers(sys.f))
    requires forall x :: x in sys.nodes && x != p ==> sys.nodes[x] == Ordered1(base.nodes[x])
    ensures AllVote(sys)
  {
    forall x | x in sys.nodes ensures Vote(sys.nodes[x], Prepare) in sys.nodes[x].msgs {
      if x == p {
        FooledFacts(base.nodes[p], Peers(sys.f));
      } else {
        OrderedFacts(base.nodes[x]);
      }
    }
  }

  lemma FooledFacts(s: Node, all: set<PeerID>)
    ensures var t := Fooled(s, all);
      && t.msgs == s.msgs + [Vote(s, Prepare)] + [Vote(s, Commit)] && t.f == s.f && t.oview == s.oview && t.id == s.id
      && t.olog == map[1 := Committing(t, Short(t.f), all, {t.id})]
      && t.log == s.log && t.halted == s.halted && t.oexecIdx == s.oexecIdx
  {
    hide Short, Full;
  }

  /** A live replica that has pre-ordered both instances and is about to commit one of the matrices. */
  predicate Poised(s: Node, whole: bool) {
    && !s.halted && s.oexecIdx == 1 && Acks(s.log, A) && Acks(s.log, B)
    && s == s.(olog := map[1 := Committing(s, MatrixOf(s.f, whole), Peers(s.f), {s.id})])
  }

  lemma BackedFacts(s: Node)
    requires s.f >= 1
    ensures Vote(s, Commit) in Backed1(s).msgs && Backed1(s).f == s.f && Backed1(s).oview == s.oview && Backed1(s).id == s.id
    ensures Supplied0(s, s.msgs) ==> Poised(Backed1(s), true)
  {
    hide Full, Short, Cast, Acks, Backing;
    BackingReady(s, Peers(s.f));
  }

  lemma FooledPoised(s: Node)
    requires Supplied0(s, s.msgs)
    ensures Poised(Fooled(s, Peers(s.f)), false)
  {
    FooledFacts(s, Peers(s.f));
    hide Fooled, Full, Short, Acks, Committing;
  }

  lemma Commitment(base: System, sys: System, p: PeerID)
    requires Run(base) && Run(sys) && base.f == sys.f && base.oview == sys.oview && base.nodes.Keys == sys.nodes.Keys
    requires p in sys.nodes && sys.nodes[p] == Fooled(base.nodes[p], Peers(sys.f))
    requires forall x :: x in sys.nodes && x != p ==> sys.nodes[x] == Backed1(base.nodes[x])
    ensures forall s: Node :: s.f == sys.f && s.oview == sys.oview ==> AllSay(sys, {}, Vote(s, Commit))
  {
    KeysOf(base);
    KeysOf(sys);
    hide Run, Fooled, Backed1, Full;
    forall s: Node, x | s.f == sys.f && s.oview == sys.oview && x in Peers(sys.f) ensures Says(sys, x, Vote(s, Commit)) {
      if x == p {
        FooledFacts(base.nodes[p], Peers(sys.f));
      } else if x in sys.nodes {
        BackedFacts(base.nodes[x]);
      }
    }
  }

  lemma ConcludesPoised(sys: System, p: PeerID, whole: bool, except: set<PeerID>) returns (after: System)
    requires Run(sys) && p in sys.nodes && Poised(sys.nodes[p], whole)
    requires p in except && |except| <= 2 && AllSay(sys, except, Vote(sys.nodes[p], Commit))
    ensures Run(after) && p in after.nodes && after == Put(sys, p, after.nodes[p]) && Starts(after.nodes[p], if whole then B else A)
  {
    RunOf(sys, p);
    hide Run, Committing, Acks, Starts, AllSay;
    after := Concludes(sys, p, sys.nodes[p], whole, except);
  }

  lemma Ends(base: System, sys: System, p: PeerID, r: PeerID) returns (after: System)
    requires Run(base) && Run(sys) && base.f == sys.f && base.oview == sys.oview && base.nodes.Keys == sys.nodes.Keys
    requires p in sys.nodes && r in sys.nodes && p != r && sys.nodes[p] == Fooled(base.nodes[p], Peers(sys.f))
    requires forall x :: x in sys.nodes && x != p ==> sys.nodes[x] == Backed1(base.nodes[x])
    requires Supplied0(base.nodes[p], base.nodes[p].msgs) && Supplied0(base.nodes[r], base.nodes[r].msgs)
    ensures Run(after) && after.f == sys.f && after.faulty == sys.faulty && after.oview == sys.oview && p in after.nodes && r in after.nodes
    ensures Starts(after.nodes[p], A) && Starts(after.nodes[r], B)
  {
    KeysOf(base);
    KeysOf(sys);
    Commitment(base, sys, p);
    FooledPoised(base.nodes[p]);
    BackedFacts(base.nodes[r]);
    hide Run, Poised, Starts, Fooled, Backed1, Supplied0, Says;
    after := ConcludesPoised(sys, p, false, {p});
    var mid := after;
    AllSayStill(sys, p, mid.nodes[p], {p, r}, Vote(mid.nodes[r], Commit));
    after := ConcludesPoised(mid, r, true, {p, r});
  }

  /** So in the runs in which prepares and commits carry no matrix, the executed order is the same at all correct
      replicas if and only if the leader is correct: f, and who else is faulty, make no difference. */
  lemma TotalOrderIff(f: nat, faulty: set<PeerID>, oview: nat)
    requires faulty <= Peers(f) && |faulty| <= f
    ensures (forall sys: System, p: PeerID, r: PeerID ::
               Reached(sys, true) && sys.f == f && sys.faulty == faulty && sys.oview == oview && p in sys.nodes && r in sys.nodes
               ==> Comparable(sys.nodes[p], sys.nodes[r]))
      <==> oview % (3 * f + 1) !in faulty
  {
    hide Reached, Comparable;
    if oview % (3 * f + 1) in faulty {
      var sys, p, r := Diverges(f, faulty, oview);
      NotComparable(sys.nodes[p], sys.nodes[r]);
    } else {
      forall sys: System, p: PeerID, r: PeerID |
        Reached(sys, true) && sys.f == f && sys.faulty == faulty && sys.oview == oview && p in sys.nodes && r in sys.nodes
        ensures Comparable(sys.nodes[p], sys.nodes[r])
      {
        ReachedKeys(sys, true);
        TotalOrder(sys, p, r);
      }
    }
  }

  lemma NotComparable(s: Node, t: Node)
    requires Starts(s, A) && Starts(t, B)
    ensures !Comparable(s, t)
  {
  }

  lemma ReachedKeys(sys: System, bare: bool)
    requires Reached(sys, bare)
    ensures sys.nodes.Keys == Peers(sys.f) - sys.faulty
  {
    hide LocalInv, Reached;
    ReachedInv(sys, bare);
  }
}
