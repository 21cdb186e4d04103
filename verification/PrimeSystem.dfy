/** Runs of Prime: correct replicas, an adversary that speaks for the faulty ones, messages in any order. */
module PrimeSystem {
  import opened Quorums
  import opened PrimeFrontier
  import opened PrimeNode
  import opened PrimeExec
  import opened PrimeRuns
  import Slots

  /** What a correct replica has ever sent is in its msgs. */
  datatype System = System(f: nat, faulty: set<PeerID>, oview: nat, nodes: map<PeerID, Node>)

  predicate Enabled(sys: System, ev: Event) {
    && Actor(ev) in sys.nodes
    && (ev.Deliver? ==> ev.from in Peers(sys.f) && ev.from != ev.to
                        && (ev.from in sys.faulty || (ev.from in sys.nodes && ev.m in sys.nodes[ev.from].msgs)))
  }

  function After(sys: System, ev: Event): System
    requires Enabled(sys, ev)
  {
    sys.(nodes := sys.nodes[Actor(ev) := Step(sys.nodes[Actor(ev)], ev)])
  }

  /** Prepares and commits carry a digest only, as every correct replica sends them. */
  predicate Bare(ev: Event) {
    ev.Deliver? && ev.m.Order? && ev.m.kind != PrePrepare ==> ev.m.matrix.None?
  }

  predicate ValidRun(sys: System, bare: bool, evs: seq<Event>)
    decreases |evs|
  {
    evs == [] || (Enabled(sys, evs[0]) && (bare ==> Bare(evs[0])) && ValidRun(After(sys, evs[0]), bare, evs[1..]))
  }

  function RunEnds(sys: System, bare: bool, evs: seq<Event>): System
    requires ValidRun(sys, bare, evs)
    decreases |evs|
  {
    if evs == [] then sys else RunEnds(After(sys, evs[0]), bare, evs[1..])
  }

  ghost predicate Start(sys: System) {
    && sys.faulty <= Peers(sys.f) && |sys.faulty| <= sys.f && sys.nodes.Keys == Peers(sys.f) - sys.faulty
    && forall p :: p in sys.nodes ==> sys.nodes[p] == Initial(sys.f, p, sys.oview)
  }

  ghost predicate Reached(sys: System, bare: bool) {
    exists start, evs :: Start(start) && ValidRun(start, bare, evs) && RunEnds(start, bare, evs) == sys
  }

  // ----- what holds of each replica in every run

  ghost predicate SysInv(sys: System) {
    && sys.nodes.Keys == Peers(sys.f) - sys.faulty
    && forall p :: p in sys.nodes ==> LocalInv(sys.nodes[p]) && sys.nodes[p].id == p && sys.nodes[p].f == sys.f && sys.nodes[p].oview == sys.oview
  }

  lemma StepKeeps(sys: System, ev: Event)
    requires SysInv(sys) && Enabled(sys, ev)
    ensures SysInv(After(sys, ev))
    ensures Good(sys.nodes[Actor(ev)], After(sys, ev).nodes[Actor(ev)])
  {
    hide LocalInv, Step, SummaryGrows, LogGrows, SlotsGrow, Ids;
    StepGood(sys.nodes[Actor(ev)], ev);
  }

  lemma {:induction false} RunKeeps(sys: System, bare: bool, evs: seq<Event>)
    requires SysInv(sys) && ValidRun(sys, bare, evs)
    ensures SysInv(RunEnds(sys, bare, evs))
    decreases |evs|
  {
    if evs != [] {
      StepKeeps(sys, evs[0]);
      RunKeeps(After(sys, evs[0]), bare, evs[1..]);
    }
  }

  lemma StartInv(sys: System)
    requires Start(sys)
    ensures SysInv(sys)
  {
    hide LocalInv;
    forall p | p in sys.nodes ensures LocalInv(sys.nodes[p]) {
      InitialLocal(sys.f, p, sys.oview);
    }
  }

  lemma ReachedInv(sys: System, bare: bool)
    requires Reached(sys, bare)
    ensures SysInv(sys)
  {
    var start, evs :| Start(start) && ValidRun(start, bare, evs) && RunEnds(start, bare, evs) == sys;
    StartInv(start);
    RunKeeps(start, bare, evs);
  }

  lemma {:induction false} ValidAppend(sys: System, bare: bool, evs: seq<Event>, ev: Event)
    requires ValidRun(sys, bare, evs) && Enabled(RunEnds(sys, bare, evs), ev) && (bare ==> Bare(ev))
    ensures ValidRun(sys, bare, evs + [ev]) && RunEnds(sys, bare, evs + [ev]) == After(RunEnds(sys, bare, evs), ev)
    decreases |evs|
  {
    if evs == [] {
      assert evs + [ev] == [ev] && [ev][1..] == [];
    } else {
      assert (evs + [ev])[1..] == evs[1..] + [ev];
      ValidAppend(After(sys, evs[0]), bare, evs[1..], ev);
    }
  }

  /** One event more. */
  lemma Then(sys: System, bare: bool, ev: Event) returns (after: System)
    requires Reached(sys, bare) && Enabled(sys, ev) && (bare ==> Bare(ev))
    ensures Reached(after, bare) && after == After(sys, ev)
  {
    var start, evs :| Start(start) && ValidRun(start, bare, evs) && RunEnds(start, bare, evs) == sys;
    ValidAppend(start, bare, evs, ev);
    after := After(sys, ev);
  }

  lemma {:induction false} InRange(r: nat, a: nat, b: nat, id: Id)
    ensures id in Range(r, a, b) <==> id.replica == r && a <= id.index < b
    decreases b
  {
    if a < b {
      InRange(r, a, b - 1, id);
    }
  }

  lemma {:induction false} OfHas(ids: seq<Id>, id: Id)
    requires id in ids
    ensures id in Of(ids, id.replica)
    decreases |ids|
  {
    if id != ids[|ids| - 1] {
      OfHas(ids[..|ids| - 1], id);
    }
  }

  lemma ReachedLocal(sys: System, bare: bool, p: PeerID)
    requires Reached(sys, bare) && p in sys.nodes
    ensures LocalInv(sys.nodes[p]) && sys.nodes[p].id == p && sys.nodes[p].f == sys.f
  {
    hide LocalInv;
    ReachedInv(sys, bare);
  }

  /** In every run, whatever a replica has executed lies within its own summary of that origin. */
  lemma ExecutedIsSummarized(sys: System, bare: bool, p: PeerID, id: Id)
    requires Reached(sys, bare) && p in sys.nodes && id in Ids(sys.nodes[p].executed)
    ensures var s := sys.nodes[p];
      id.replica < |s.poSummary| && 1 <= id.index <= s.poSummary[id.replica]
  {
    hide OrderOK, Ids, Reached, InstsOK, SlotsOK;
    ReachedLocal(sys, bare, p);
    var s := sys.nodes[p];
    Contiguous(s, Size(s), id.replica);
    OfHas(Ids(s.executed), id);
    InRange(id.replica, if id.replica < Size(s) then 1 else 0, Next(s, id.replica), id);
  }

  /** So a summary never waits at an executed instance: what comes after it has not been acknowledged here. */
  lemma SummaryNeverStalls(sys: System, bare: bool, p: PeerID, r: nat)
    requires Reached(sys, bare) && p in sys.nodes && r < 3 * sys.f + 1
    ensures var s := sys.nodes[p];
      |s.poSummary| == 3 * sys.f + 1
      && (Id(r, s.poSummary[r] + 1) in s.log ==>
            s.log[Id(r, s.poSummary[r] + 1)].status == Nothing || s.log[Id(r, s.poSummary[r] + 1)].status == PreOrder)
  {
    hide OrderOK, Reached, SlotsOK;
    ReachedLocal(sys, bare, p);
    var s := sys.nodes[p];
    var id := Id(r, s.poSummary[r] + 1);
    assert !Acks(s.log, id);
  }

  /** A summary of another origin is exact: it reaches k if and only if all of 1 .. k have been acknowledged. */
  lemma SummaryExact(sys: System, bare: bool, p: PeerID, r: nat, k: nat)
    requires Reached(sys, bare) && p in sys.nodes && r < 3 * sys.f + 1 && r != p
    ensures var s := sys.nodes[p];
      |s.poSummary| == 3 * sys.f + 1 && (k <= s.poSummary[r] <==> forall j :: 1 <= j <= k ==> Acks(s.log, Id(r, j)))
  {
    hide OrderOK, Reached, SlotsOK, InstsOK, Acks;
    ReachedLocal(sys, bare, p);
    var s := sys.nodes[p];
    assert !Acks(s.log, Id(r, s.poSummary[r] + 1));
  }

  /** In every run each origin's requests are executed from its first one without a gap, once each and in order. */
  lemma ExecutedContiguous(sys: System, bare: bool, p: PeerID, r: nat)
    requires Reached(sys, bare) && p in sys.nodes && r < 3 * sys.f + 1
    ensures var s := sys.nodes[p];
      |s.poSummary| == 3 * sys.f + 1 && Next(s, r) <= s.poSummary[r] + 1 && Of(Ids(s.executed), r) == Range(r, 1, Next(s, r))
  {
    hide OrderOK, Reached, SlotsOK, InstsOK, Acks;
    ReachedLocal(sys, bare, p);
    Contiguous(sys.nodes[p], Size(sys.nodes[p]), r);
  }

  // ----- agreement on the matrices under a correct leader

  function LeaderOf(sys: System): PeerID {
    sys.oview % (3 * sys.f + 1)
  }

  /** Replica l has put this matrix to the vote under index i. */
  predicate Leads(l: Node, i: nat, matrix: Option<Matrix>) {
    i in l.olog && ORank(l.olog[i].status) >= 1 && l.olog[i].matrix == matrix
  }

  predicate Led(l: Node, m: Msg) {
    m.Order? ==> if m.kind == PrePrepare then Leads(l, m.index, m.matrix) else m.matrix.None?
  }

  /** Every matrix that s holds, and every pre-prepare it has sent, is the leader's. */
  ghost predicate Follows(l: Node, s: Node) {
    && (forall i :: i in s.olog && s.olog[i].matrix.Some? ==> Leads(l, i, s.olog[i].matrix))
    && (forall j :: 0 <= j < |s.msgs| ==> Led(l, s.msgs[j]))
  }

  /** From s to t, matrices have come only from index i's mat. */
  ghost predicate Traced(s: Node, t: Node, i: nat, mat: Option<Matrix>) {
    forall j :: j in t.olog && t.olog[j].matrix.Some? ==>
      (j in s.olog && t.olog[j].matrix == s.olog[j].matrix) || (j == i && t.olog[j].matrix == mat)
  }

  /** No pre-prepare has been sent, and no matrix. */
  ghost predicate Quiet(s: Node, t: Node) {
    && s.msgs <= t.msgs
    && forall j :: |s.msgs| <= j < |t.msgs| && t.msgs[j].Order? ==> t.msgs[j].kind != PrePrepare && t.msgs[j].matrix.None?
  }

  lemma {:induction false} ExecFrame(s: Node)
    ensures var t := Exec(s);
      && t.msgs == s.msgs && t.olog.Keys == s.olog.Keys && forall i :: i in s.olog ==> t.olog[i].matrix == s.olog[i].matrix
    decreases |CommittedSlots(s.olog)|
  {
    hide Usable, Available, RunOrigins;
    if !s.halted && CanPass(s) && Usable(s.olog[s.oexecIdx], s.f) && Available(s, s.olog[s.oexecIdx]) {
      RunOriginsFrame(s, s.olog[s.oexecIdx], Rows(s.olog[s.oexecIdx]));
      var t := RunSlot(s);
      if !t.halted {
        SlotConsumed(s);
        ExecFrame(t);
      }
    }
  }

  /** Storing a slot with mat or with the matrix held, and running exec. */
  lemma ExecTraced(s: Node, t: Node, i: nat, x: Slot, mat: Option<Matrix>)
    requires t.olog == s.olog[i := x] && (x.matrix == mat || (i in s.olog && x.matrix == s.olog[i].matrix))
    ensures Traced(s, t, i, mat) && Traced(s, Exec(t), i, mat) && Exec(t).msgs == t.msgs
  {
    hide Exec;
    ExecFrame(t);
  }

  lemma TryPrepareTraced(s: Node, i: nat, x: Slot, d: Option<Digest<Matrix>>, mat: Option<Matrix>)
    requires x.matrix == mat || (i in s.olog && x.matrix == s.olog[i].matrix)
    ensures var t := TryPrepare(s, i, x, d); Traced(s, t, i, mat) && Quiet(s, t)
  {
    hide Exec, Majority, Traced;
    ExecTraced(s, s.(olog := s.olog[i := x]), i, x, mat);
    NothingTraced(s, i, mat);
    if s.id !in x.commits {
      var c := x.commits[s.id := d];
      var t := Say(s, Order(Commit, s.oview, i, None, d));
      ExecTraced(s, t.(olog := t.olog[i := x.(status := OPrepared, commits := c)]), i, x.(status := OPrepared, commits := c), mat);
      ExecTraced(s, t.(olog := t.olog[i := x.(status := OCommitted, commits := c)]), i, x.(status := OCommitted, commits := c), mat);
    }
  }

  lemma NothingTraced(s: Node, i: nat, mat: Option<Matrix>)
    ensures Traced(s, s, i, mat) && Traced(s, Halt(s), i, mat)
  {
  }

  lemma CastPrepareTraced(s: Node, from: PeerID, i: nat, x: Slot, d: Option<Digest<Matrix>>, mat: Option<Matrix>)
    requires x.matrix == mat || (i in s.olog && x.matrix == s.olog[i].matrix)
    ensures var t := CastPrepare(s, from, i, x, d); Traced(s, t, i, mat) && Quiet(s, t)
  {
    hide TryPrepare, Traced;
    NothingTraced(s, i, mat);
    if from !in x.prepares && s.id !in x.prepares[from := d] {
      var t := Say(s, Order(Prepare, s.oview, i, None, d));
      var y := x.(status := OPrePrepared, prepares := x.prepares[from := d][s.id := d]);
      TryPrepareTraced(t, i, y, d, mat);
      SayTraced(s, t, TryPrepare(t, i, y, d), i, mat);
    }
  }

  lemma SayTraced(s: Node, t: Node, u: Node, i: nat, mat: Option<Matrix>)
    requires Traced(t, u, i, mat) && Quiet(t, u) && Quiet(s, t) && t.olog == s.olog
    ensures Traced(s, u, i, mat) && Quiet(s, u)
  {
  }

  lemma OnPrePrepareTraced(s: Node, from: PeerID, i: nat, matrix: Option<Matrix>, d: Option<Digest<Matrix>>)
    ensures var t := OnPrePrepare(s, from, i, matrix, d); Traced(s, t, i, matrix) && Quiet(s, t)
  {
    hide CastPrepare, Traced;
    NothingTraced(s, i, matrix);
    if from == Leader(s) && matrix.Some? {
      if i in s.olog {
        var y := if s.olog[i].matrix.Some? then s.olog[i] else s.olog[i].(matrix := matrix);
        ExecTraced(s, s.(olog := s.olog[i := y]), i, y, matrix);
        CastPrepareTraced(s, from, i, y.(hash := d), d, matrix);
      } else {
        CastPrepareTraced(s, from, i, Slot(ONothing, matrix, None, map[], map[]), d, matrix);
      }
    }
  }

  lemma OnPrepareTraced(s: Node, from: PeerID, i: nat, matrix: Option<Matrix>, d: Option<Digest<Matrix>>)
    ensures var t := OnPrepare(s, from, i, matrix, d); Traced(s, t, i, matrix) && Quiet(s, t)
  {
    hide TryPrepare, Traced;
    NothingTraced(s, i, matrix);
    match KnownSlot(s, i, matrix, d)
    case None =>
    case Some(x) => TryPrepareTraced(s, i, x.(prepares := x.prepares[from := d]), d, matrix);
  }

  lemma OnCommitTraced(s: Node, from: PeerID, i: nat, matrix: Option<Matrix>, d: Option<Digest<Matrix>>)
    ensures var t := OnCommit(s, from, i, matrix, d); Traced(s, t, i, matrix) && Quiet(s, t)
  {
    hide Exec, Majority, Traced;
    NothingTraced(s, i, matrix);
    match KnownSlot(s, i, matrix, d)
    case None =>
    case Some(x) =>
      var c := x.commits[from := d];
      var done := Majority(c, d, s.f) && x.status == OPrepared;
      var y := x.(commits := c, status := if done then OCommitted else x.status);
      ExecTraced(s, s.(olog := s.olog[i := y]), i, y, matrix);
  }

  /** A replica keeps following while the leader moves on. */
  lemma FollowsOn(l: Node, k: Node, s: Node)
    requires Follows(l, s) && SlotsGrow(l.olog, k.olog)
    ensures Follows(k, s)
  {
  }

  lemma FollowsTraced(l: Node, s: Node, t: Node, i: nat, mat: Option<Matrix>)
    requires Follows(l, s) && Traced(s, t, i, mat) && Quiet(s, t) && (mat.Some? ==> Leads(l, i, mat))
    ensures Follows(l, t)
  {
    forall j | 0 <= j < |t.msgs| ensures Led(l, t.msgs[j]) {
      if j < |s.msgs| {
        assert t.msgs[j] == s.msgs[j];
      }
    }
  }

  /** Pre-ordering leaves the slots alone. */
  ghost predicate Apart(s: Node, t: Node) {
    t.olog == s.olog && Quiet(s, t)
  }

  lemma SettleApart(s: Node, id: Id, x: Inst, d: Option<Digest<Command>>)
    ensures Apart(s, Settle(s, id, x, d))
  {
    hide RunEnd, Majority;
  }

  lemma CastRequestApart(s: Node, from: PeerID, id: Id, x: Inst, d: Option<Digest<Command>>)
    ensures Apart(s, CastRequest(s, from, id, x, d))
  {
    hide Settle;
    if from !in x.votes && s.id !in x.votes[from := d] {
      SettleApart(Say(s, POAck(id, None, x.hash)), id, x.(status := PreOrder, votes := x.votes[from := d][s.id := x.hash]), x.hash);
    }
  }

  lemma OnPORequestApart(s: Node, from: PeerID, id: Id, cmd: Option<Command>, hash: Option<Digest<Command>>)
    ensures Apart(s, OnPORequest(s, from, id, cmd, hash))
  {
    hide CastRequest;
    if cmd.Some? {
      CastRequestApart(s, from, id, Inst(Nothing, cmd, hash, map[]), hash);
      if id in s.log && UpdateCommand(s.log[id], cmd.value).Some? {
        CastRequestApart(s, from, id, UpdateCommand(s.log[id], cmd.value).value.(hash := hash), hash);
      }
    }
  }

  lemma OnPOAckApart(s: Node, from: PeerID, id: Id, cmd: Option<Command>, hash: Option<Digest<Command>>)
    ensures Apart(s, OnPOAck(s, from, id, cmd, hash))
  {
    hide Settle;
    var x := if id in s.log then s.log[id].(hash := hash) else Inst(Nothing, cmd, hash, map[]);
    if from !in x.votes {
      SettleApart(s, id, x.(votes := x.votes[from := hash]), hash);
    }
  }

  lemma FollowsSame(l: Node, s: Node, t: Node)
    requires Follows(l, s) && Apart(s, t)
    ensures Follows(l, t)
  {
    FollowsTraced(l, s, t, 0, None);
  }

  ghost predicate AgreeInv(sys: System) {
    && SysInv(sys) && LeaderOf(sys) in sys.nodes
    && forall p :: p in sys.nodes ==> Follows(sys.nodes[LeaderOf(sys)], sys.nodes[p])
  }

  lemma LedMessage(sys: System, i: nat)
    requires AgreeInv(sys) && i < |sys.nodes[LeaderOf(sys)].msgs|
    ensures Led(sys.nodes[LeaderOf(sys)], sys.nodes[LeaderOf(sys)].msgs[i])
  {
  }

  /** A pre-prepare that a replica accepts is one that the leader has sent. */
  lemma DeliveredLeads(sys: System, ev: Event)
    requires AgreeInv(sys) && Enabled(sys, ev) && ev.Deliver? && ev.m.Order? && ev.m.kind == PrePrepare && ev.from == LeaderOf(sys)
    ensures Leads(sys.nodes[LeaderOf(sys)], ev.m.index, ev.m.matrix)
  {
    var msgs := sys.nodes[LeaderOf(sys)].msgs;
    var i :| 0 <= i < |msgs| && msgs[i] == ev.m;
    LedMessage(sys, i);
  }

  lemma LeaderIn(sys: System)
    requires AgreeInv(sys)
    ensures LeaderOf(sys) in sys.nodes
  {
  }

  lemma AgreeParts(sys: System, p: PeerID)
    requires AgreeInv(sys) && p in sys.nodes
    ensures var l, s := sys.nodes[LeaderOf(sys)], sys.nodes[p];
      Follows(l, s) && Follows(l, l) && Leader(s) == LeaderOf(sys) && s.id == p && LocalInv(s) && SysInv(sys)
  {
    hide LocalInv, Follows;
  }

  lemma ReceiveFollows(sys: System, ev: Event)
    requires AgreeInv(sys) && Enabled(sys, ev) && Bare(ev) && ev.Deliver?
    requires !sys.nodes[ev.to].halted
    ensures Follows(sys.nodes[LeaderOf(sys)], Receive(sys.nodes[ev.to], ev.from, ev.m))
  {
    hide AgreeInv, SysInv, LocalInv, Follows, OnPrePrepare, OnPrepare, OnCommit, Leads;
    LeaderIn(sys);
    var l, s := sys.nodes[LeaderOf(sys)], sys.nodes[ev.to];
    AgreeParts(sys, ev.to);
    if ev.m.Order? {
      if ev.m.kind == PrePrepare && ev.from == LeaderOf(sys) {
        DeliveredLeads(sys, ev);
      }
      hide Enabled;
      OrderFollows(l, s, ev.from, ev.m.kind, ev.m.index, ev.m.matrix, ev.m.digest);
    } else {
      PreOrderFollows(l, s, ev.from, ev.m);
    }
  }

  lemma PreOrderFollows(l: Node, s: Node, from: PeerID, m: Msg)
    requires Follows(l, s) && !s.halted && !m.Order?
    ensures Follows(l, Receive(s, from, m))
  {
    hide Follows, Apart, OnPORequest, OnPOAck, OnPOSummary;
    match m {
      case PORequest(id, cmd, hash) => OnPORequestApart(s, from, id, cmd, hash);
      case POAck(id, cmd, hash) => OnPOAckApart(s, from, id, cmd, hash);
      case POSummary(row) => OnPOSummaryApart(s, from, row);
    }
    FollowsSame(l, s, Receive(s, from, m));
  }

  lemma OrderFollows(l: Node, s: Node, from: PeerID, kind: Kind, i: nat, matrix: Option<Matrix>, d: Option<Digest<Matrix>>)
    requires Follows(l, s)
    requires if kind == PrePrepare then from == Leader(s) ==> Leads(l, i, matrix) else matrix.None?
    ensures kind == PrePrepare ==> Follows(l, OnPrePrepare(s, from, i, matrix, d))
    ensures kind == Prepare ==> Follows(l, OnPrepare(s, from, i, matrix, d))
    ensures kind == Commit ==> Follows(l, OnCommit(s, from, i, matrix, d))
  {
    hide Follows, Traced, Quiet, OnPrePrepare, OnPrepare, OnCommit, Leads;
    match kind
    case PrePrepare =>
      if from == Leader(s) {
        OnPrePrepareTraced(s, from, i, matrix, d);
        FollowsTraced(l, s, OnPrePrepare(s, from, i, matrix, d), i, matrix);
      } else {
        NotLeader(s, from, i, matrix, d);
      }
    case Prepare =>
      OnPrepareTraced(s, from, i, matrix, d);
      FollowsTraced(l, s, OnPrepare(s, from, i, matrix, d), i, matrix);
    case Commit =>
      OnCommitTraced(s, from, i, matrix, d);
      FollowsTraced(l, s, OnCommit(s, from, i, matrix, d), i, matrix);
  }

  lemma OnPOSummaryApart(s: Node, from: PeerID, row: seq<nat>)
    ensures Apart(s, OnPOSummary(s, from, row))
  {
  }

  lemma NotLeader(s: Node, from: PeerID, i: nat, matrix: Option<Matrix>, d: Option<Digest<Matrix>>)
    requires from != Leader(s)
    ensures OnPrePrepare(s, from, i, matrix, d) == s
  {
  }

  /** The leader's own timer: the slot it opens is what it leads with. */
  lemma TimerFollows(l: Node)
    requires Follows(l, l) && LocalInv(l)
    ensures Follows(SendPrePrepare(l), SendPrePrepare(l))
  {
    var t := SendPrePrepare(l);
    if l.id == Leader(l) && l.summaries != l.lastPrepared {
      SendPrePrepareGrows(l);
      FollowsOn(l, t, l);
      assert Leads(t, l.oindex, Some(l.summaries));
      forall j | 0 <= j < |t.msgs| ensures Led(t, t.msgs[j]) {
        if j < |l.msgs| {
          assert t.msgs[j] == l.msgs[j];
        }
      }
      hide LocalInv;
      forall i | i in t.olog && t.olog[i].matrix.Some? ensures Leads(t, i, t.olog[i].matrix) {
      }
    }
  }

  lemma SendPrePrepareGrows(s: Node)
    requires LocalInv(s)
    ensures SlotsGrow(s.olog, SendPrePrepare(s).olog)
  {
    hide OrderOK, InstsOK, Summed;
  }

  lemma StepFollows(sys: System, ev: Event)
    requires AgreeInv(sys) && Enabled(sys, ev) && Bare(ev)
    ensures AgreeInv(After(sys, ev))
  {
    hide SysInv, Follows, Step, SlotsGrow, Good, LocalInv;
    var p, after := Actor(ev), After(sys, ev);
    AgreeParts(sys, p);
    StepKeeps(sys, ev);
    LeaderGrows(sys, ev);
    ActorFollows(sys, ev);
    forall q | q in after.nodes ensures Follows(after.nodes[LeaderOf(sys)], after.nodes[q]) {
      if q != p {
        FollowsOn(sys.nodes[LeaderOf(sys)], after.nodes[LeaderOf(sys)], sys.nodes[q]);
      }
    }
  }

  lemma LeaderGrows(sys: System, ev: Event)
    requires AgreeInv(sys) && Enabled(sys, ev)
    ensures SlotsGrow(sys.nodes[LeaderOf(sys)].olog, After(sys, ev).nodes[LeaderOf(sys)].olog)
  {
    hide LocalInv, SysInv, Follows, Step, SlotsGrow;
    StepKeeps(sys, ev);
    SlotsStay(sys.nodes[LeaderOf(sys)].olog);
  }

  lemma SlotsStay(olog: map<nat, Slot>)
    ensures SlotsGrow(olog, olog)
  {
  }

  lemma ActorFollows(sys: System, ev: Event)
    requires AgreeInv(sys) && Enabled(sys, ev) && Bare(ev)
    ensures var after := After(sys, ev); Follows(after.nodes[LeaderOf(sys)], after.nodes[Actor(ev)])
  {
    hide Receive, Follows, LocalInv, AgreeInv, SysInv, SlotsGrow, Apart, OnRequest, SendSummary, SendPrePrepare;
    LeaderIn(sys);
    var p := Actor(ev);
    var l, s, t := sys.nodes[LeaderOf(sys)], sys.nodes[p], Step(sys.nodes[p], ev);
    AgreeParts(sys, p);
    LeaderGrows(sys, ev);
    if ev.PrePrepareTimer? && p == LeaderOf(sys) {
      TimerFollows(s);
    } else {
      if ev.Deliver? && !s.halted {
        ReceiveFollows(sys, ev);
      } else {
        QuietStep(s, ev);
        FollowsSame(l, s, t);
      }
      FollowsOn(l, After(sys, ev).nodes[LeaderOf(sys)], t);
    }
  }

  lemma QuietStep(s: Node, ev: Event)
    requires s.halted || ev.Request? || ev.SummaryTimer? || (ev.PrePrepareTimer? && s.id != Leader(s))
    ensures Apart(s, Step(s, ev))
  {
  }

  lemma {:induction false} RunFollows(sys: System, evs: seq<Event>)
    requires AgreeInv(sys) && ValidRun(sys, true, evs)
    ensures AgreeInv(RunEnds(sys, true, evs))
    decreases |evs|
  {
    if evs != [] {
      StepFollows(sys, evs[0]);
      RunFollows(After(sys, evs[0]), evs[1..]);
    }
  }

  lemma StartFollows(sys: System)
    requires Start(sys) && LeaderOf(sys) in sys.nodes
    ensures AgreeInv(sys)
  {
    StartInv(sys);
    hide LocalInv;
  }

  lemma {:induction false} RunKeepsConfig(sys: System, bare: bool, evs: seq<Event>)
    requires ValidRun(sys, bare, evs)
    ensures var t := RunEnds(sys, bare, evs); t.f == sys.f && t.oview == sys.oview && t.nodes.Keys == sys.nodes.Keys && t.faulty == sys.faulty
    decreases |evs|
  {
    if evs != [] {
      RunKeepsConfig(After(sys, evs[0]), bare, evs[1..]);
    }
  }

  lemma ReachedAgree(sys: System)
    requires Reached(sys, true) && LeaderOf(sys) in sys.nodes
    ensures AgreeInv(sys)
  {
    hide Start, ValidRun, RunEnds, AgreeInv;
    var start, evs :| Start(start) && ValidRun(start, true, evs) && RunEnds(start, true, evs) == sys;
    RunKeepsConfig(start, true, evs);
    StartFollows(start);
    RunFollows(start, evs);
  }

  /** Slots that both replicas have passed carry the leader's matrix in both. */
  lemma PassedAlike(l: Node, s: Node, t: Node)
    requires LocalInv(s) && LocalInv(t) && Follows(l, s) && Follows(l, t) && s.oexecIdx <= t.oexecIdx
    ensures SameMatrices(s.olog, t.olog, s.oexecIdx)
  {
    hide OrderOK, InstsOK, Summed;
    forall i: nat | 1 <= i < s.oexecIdx ensures i in s.olog && i in t.olog && s.olog[i].matrix == t.olog[i].matrix {
      assert SlotOK(s.olog[i], Leader(s)) && SlotOK(t.olog[i], Leader(t));
    }
  }

  lemma OrderedAlike(sys: System, p: PeerID, r: PeerID)
    requires AgreeInv(sys) && p in sys.nodes && r in sys.nodes && sys.nodes[p].oexecIdx <= sys.nodes[r].oexecIdx
    ensures Ids(sys.nodes[p].executed) <= Ids(sys.nodes[r].executed)
  {
    var s, t := sys.nodes[p], sys.nodes[r];
    hide OrderOK, InstsOK, Summed, SlotsOK, Follows, Ids;
    PassedAlike(sys.nodes[LeaderOf(sys)], s, t);
    SameOrder(s, t, Size(s));
  }

  /** One replica has executed a prefix of what the other has. */
  predicate Comparable(s: Node, t: Node) {
    Ids(s.executed) <= Ids(t.executed) || Ids(t.executed) <= Ids(s.executed)
  }

  /** Under a correct leader, and if no prepare or commit carries a matrix, of two correct replicas one has
      executed a prefix of what the other has, in every run. */
  lemma TotalOrder(sys: System, p: PeerID, r: PeerID)
    requires Reached(sys, true) && LeaderOf(sys) in sys.nodes && p in sys.nodes && r in sys.nodes
    ensures Comparable(sys.nodes[p], sys.nodes[r])
  {
    hide Reached, AgreeInv, Ids;
    ReachedAgree(sys);
    if sys.nodes[p].oexecIdx <= sys.nodes[r].oexecIdx {
      OrderedAlike(sys, p, r);
    } else {
      OrderedAlike(sys, r, p);
    }
  }

  // ----- the matrix that a replica holds

  lemma {:induction false} SameRowsIs(held: Matrix, m: Matrix)
    ensures SameRows(held, m) == Some(true) <==> held <= m
    decreases |held|
  {
    if held != [] && m != [] {
      SameRowsIs(held[1..], m[1..]);
      assert held == [held[0]] + held[1..] && m == [m[0]] + m[1..];
    }
  }

  /** A pre-prepare that gets the vote leaves the replica with its matrix if and only if the slot held none or
      one of as many rows: a shorter matrix that a prepare or commit has planted is taken for the same one. */
  lemma HeldMatrixIff(s: Node, from: PeerID, i: nat, matrix: Matrix, d: Option<Digest<Matrix>>)
    requires i in s.olog ==> s.olog[i].status == ONothing
    requires var t := OnPrePrepare(s, from, i, Some(matrix), d); i in t.olog && ORank(t.olog[i].status) >= 1
    ensures var t := OnPrePrepare(s, from, i, Some(matrix), d);
      t.olog[i].matrix == Some(matrix) <==> (i in s.olog && s.olog[i].matrix.Some? ==> |s.olog[i].matrix.value| == |matrix|)
  {
    hide Exec, Majority, TryPrepare, SameRows;
    var x := if i in s.olog then s.olog[i].(hash := d, matrix := if s.olog[i].matrix.Some? then s.olog[i].matrix else Some(matrix))
             else Slot(ONothing, Some(matrix), None, map[], map[]);
    if i in s.olog && s.olog[i].matrix.Some? {
      var held := s.olog[i].matrix.value;
      SameRowsIs(held, matrix);
      assert held <= matrix && |held| == |matrix| ==> held == matrix;
    }
    CastKeepsMatrix(s, from, i, x, d);
    hide CastPrepare;
  }

  lemma CastKeepsMatrix(s: Node, from: PeerID, i: nat, x: Slot, d: Option<Digest<Matrix>>)
    requires i in s.olog ==> s.olog[i].status == ONothing
    ensures var t := CastPrepare(s, from, i, x, d); i in t.olog && ORank(t.olog[i].status) >= 1 ==> t.olog[i].matrix == x.matrix
  {
    hide TryPrepare;
    if from !in x.prepares && s.id !in x.prepares[from := d] {
      var y := x.(status := OPrePrepared, prepares := x.prepares[from := d][s.id := d]);
      TryKeepsMatrix(Say(s, Order(Prepare, s.oview, i, None, d)), i, y, d);
    }
  }

  lemma TryKeepsMatrix(s: Node, i: nat, x: Slot, d: Option<Digest<Matrix>>)
    requires i in s.olog ==> s.olog[i].status == ONothing
    ensures var t := TryPrepare(s, i, x, d); i in t.olog && ORank(t.olog[i].status) >= 1 ==> t.olog[i].matrix == x.matrix
  {
    hide Exec, Majority;
    if s.id !in x.commits {
      var c := x.commits[s.id := d];
      ExecFrame(Say(s, Order(Commit, s.oview, i, None, d)).(olog := s.olog[i := x.(status := OCommitted, commits := c)]));
    }
  }
}
