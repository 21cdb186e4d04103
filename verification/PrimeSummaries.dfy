/** What a Prime leader orders: summaries that the replicas have sent, so that whatever a frontier covers has been
    acknowledged by a correct replica. */
module PrimeSummaries {
  import opened Quorums
  import opened PrimeFrontier
  import opened PrimeNode
  import opened PrimeExec
  import opened PrimeRuns
  import opened PrimeSystem
  import Slots

  // ----- the two timers

  /** A replica sends its own summary, and enters it in its matrix. */
  lemma SummaryTimerSends(s: Node)
    requires s.id < |s.summaries|
    ensures var t := SendSummary(s);
      && t.msgs == s.msgs + [POSummary(s.poSummary)] && |t.summaries| == |s.summaries| && t.poSummary == s.poSummary
      && forall r :: 0 <= r < |s.summaries| ==> t.summaries[r] == if r == s.id then s.poSummary else s.summaries[r]
  {
  }

  /** The leader orders its matrix if and only if it is not the one that it ordered last; no second time. */
  lemma LeaderOrdersIff(s: Node)
    ensures var t := SendPrePrepare(s);
      && (t.msgs != s.msgs <==> s.id == Leader(s) && s.summaries != s.lastPrepared)
      && (t.msgs != s.msgs ==>
            t.msgs == s.msgs + [Order(PrePrepare, s.oview, s.oindex, Some(s.summaries), Some(Slots.Of(s.summaries)))]
            && s.oindex in t.olog && t.olog[s.oindex].matrix == Some(s.summaries))
      && SendPrePrepare(t) == t
  {
  }

  // ----- who has sent a row

  ghost predicate RowSent(sys: System, q: PeerID, row: seq<nat>) {
    q in sys.nodes ==> row == seq(3 * sys.f + 1, j => 0) || POSummary(row) in sys.nodes[q].msgs
  }

  ghost predicate RowsSent(sys: System, m: Matrix) {
    |m| == 3 * sys.f + 1 && forall q :: 0 <= q < |m| ==> RowSent(sys, q, m[q])
  }

  predicate AtMost(row: seq<nat>, summary: seq<nat>) {
    |row| == |summary| && forall r :: 0 <= r < |row| ==> row[r] <= summary[r]
  }

  ghost predicate MsgOK(sys: System, s: Node, m: Msg) {
    match m
    case POSummary(row) => AtMost(row, s.poSummary)
    case Order(kind, _, _, matrix, _) => kind == PrePrepare ==> matrix.Some? && RowsSent(sys, matrix.value)
    case _ => true
  }

  ghost predicate Told(sys: System, s: Node) {
    RowsSent(sys, s.summaries) && forall m :: m in s.msgs ==> MsgOK(sys, s, m)
  }

  // ----- steps that send no summary and order nothing

  predicate Plain(m: Msg) {
    !m.POSummary? && !(m.Order? && m.kind == PrePrepare)
  }

  ghost predicate RowsKept(s: Node, t: Node) {
    t.summaries == s.summaries && s.msgs <= t.msgs && forall k :: |s.msgs| <= k < |t.msgs| ==> Plain(t.msgs[k])
  }

  lemma {:induction false} ExecRows(s: Node)
    ensures var t := Exec(s); t.summaries == s.summaries && t.msgs == s.msgs
    decreases |CommittedSlots(s.olog)|
  {
    hide Usable, Available, RunOrigins;
    if !s.halted && CanPass(s) && Usable(s.olog[s.oexecIdx], s.f) && Available(s, s.olog[s.oexecIdx]) {
      RunOriginsFrame(s, s.olog[s.oexecIdx], Rows(s.olog[s.oexecIdx]));
      var t := RunSlot(s);
      if !t.halted {
        SlotConsumed(s);
        ExecRows(t);
      }
    }
  }

  lemma TryPrepareRows(s: Node, i: nat, x: Slot, d: Option<Digest<Matrix>>)
    ensures RowsKept(s, TryPrepare(s, i, x, d))
  {
    hide Exec, Majority;
    if s.id !in x.commits {
      var c := x.commits[s.id := d];
      var u := Say(s, Order(Commit, s.oview, i, None, d));
      ExecRows(u.(olog := u.olog[i := x.(status := OCommitted, commits := c)]));
    }
  }

  lemma CastPrepareRows(s: Node, from: PeerID, i: nat, x: Slot, d: Option<Digest<Matrix>>)
    ensures RowsKept(s, CastPrepare(s, from, i, x, d))
  {
    hide TryPrepare;
    if from !in x.prepares && s.id !in x.prepares[from := d] {
      TryPrepareRows(Say(s, Order(Prepare, s.oview, i, None, d)), i,
                     x.(status := OPrePrepared, prepares := x.prepares[from := d][s.id := d]), d);
    }
  }

  lemma OrderRows(s: Node, from: PeerID, i: nat, matrix: Option<Matrix>, d: Option<Digest<Matrix>>)
    ensures RowsKept(s, OnPrePrepare(s, from, i, matrix, d))
  {
    hide CastPrepare, SameRows, RowsKept;
    assert RowsKept(s, s) && RowsKept(s, Halt(s)) && forall o :: RowsKept(s, s.(olog := o)) by { NoRows(s); }
    if i in s.olog {
      var y := if s.olog[i].matrix.Some? then s.olog[i] else s.olog[i].(matrix := matrix);
      CastPrepareRows(s, from, i, y.(hash := d), d);
    } else {
      CastPrepareRows(s, from, i, Slot(ONothing, matrix, None, map[], map[]), d);
    }
  }

  lemma NoRows(s: Node)
    ensures RowsKept(s, s) && RowsKept(s, Halt(s)) && forall o :: RowsKept(s, s.(olog := o))
  {
  }

  lemma VoteRows(s: Node, from: PeerID, i: nat, matrix: Option<Matrix>, d: Option<Digest<Matrix>>)
    ensures RowsKept(s, OnPrepare(s, from, i, matrix, d)) && RowsKept(s, OnCommit(s, from, i, matrix, d))
  {
    hide TryPrepare, Exec, Majority, RowsKept;
    NoRows(s);
    match KnownSlot(s, i, matrix, d)
    case None =>
    case Some(x) =>
      TryPrepareRows(s, i, x.(prepares := x.prepares[from := d]), d);
      var c := x.commits[from := d];
      var done := Majority(c, d, s.f) && x.status == OPrepared;
      var t := s.(olog := s.olog[i := x.(commits := c, status := if done then OCommitted else x.status)]);
      ExecRows(t);
      SameRowsKept(s, t, Exec(t));
  }

  lemma SameRowsKept(s: Node, t: Node, u: Node)
    requires RowsKept(s, t) && u.summaries == t.summaries && u.msgs == t.msgs
    ensures RowsKept(s, u)
  {
  }

  lemma SettleRows(s: Node, id: Id, x: Inst, d: Option<Digest<Command>>)
    ensures Settle(s, id, x, d).summaries == s.summaries && Settle(s, id, x, d).msgs == s.msgs
  {
    hide RunEnd, Majority;
  }

  lemma CastRequestRows(s: Node, from: PeerID, id: Id, x: Inst, d: Option<Digest<Command>>)
    ensures RowsKept(s, CastRequest(s, from, id, x, d))
  {
    hide Settle;
    if from !in x.votes && s.id !in x.votes[from := d] {
      SettleRows(Say(s, POAck(id, None, x.hash)), id, x.(status := PreOrder, votes := x.votes[from := d][s.id := x.hash]), x.hash);
    }
  }

  lemma RequestRows(s: Node, from: PeerID, id: Id, cmd: Option<Command>, hash: Option<Digest<Command>>)
    ensures RowsKept(s, OnPORequest(s, from, id, cmd, hash)) && RowsKept(s, OnPOAck(s, from, id, cmd, hash))
  {
    hide CastRequest, Settle;
    if cmd.Some? {
      CastRequestRows(s, from, id, Inst(Nothing, cmd, hash, map[]), hash);
      if id in s.log && UpdateCommand(s.log[id], cmd.value).Some? {
        CastRequestRows(s, from, id, UpdateCommand(s.log[id], cmd.value).value.(hash := hash), hash);
      }
    }
    var x := if id in s.log then s.log[id].(hash := hash) else Inst(Nothing, cmd, hash, map[]);
    if from !in x.votes {
      SettleRows(s, id, x.(votes := x.votes[from := hash]), hash);
    }
  }

  /** All that a step may do to rows and summaries. */
  ghost predicate Moves(s: Node, t: Node, ev: Event) {
    || RowsKept(s, t)
    || (ev.Deliver? && ev.m.POSummary? && ev.from < |s.summaries| && t.summaries == s.summaries[ev.from := ev.m.row] && t.msgs == s.msgs)
    || (ev.SummaryTimer? && s.id < |s.summaries| && t.summaries == s.summaries[s.id := s.poSummary] && t.msgs == s.msgs + [POSummary(s.poSummary)])
    || (ev.PrePrepareTimer? && t.summaries == s.summaries
        && t.msgs == s.msgs + [Order(PrePrepare, s.oview, s.oindex, Some(s.summaries), Some(Slots.Of(s.summaries)))])
  }

  lemma StepKind(s: Node, ev: Event)
    ensures Moves(s, Step(s, ev), ev)
  {
    hide RowsKept, OnPORequest, OnPOAck, OnPrePrepare, OnPrepare, OnCommit;
    NoRows(s);
    match ev
    case Request(_, cmd) => OwnRequestRows(s, cmd);
    case SummaryTimer(_) =>
    case PrePrepareTimer(_) =>
    case Deliver(_, from, m) =>
      match m
      case PORequest(id, cmd, hash) => RequestRows(s, from, id, cmd, hash);
      case POAck(id, cmd, hash) => RequestRows(s, from, id, cmd, hash);
      case POSummary(row) =>
      case Order(kind, view, i, matrix, d) =>
        OrderRows(s, from, i, matrix, d);
        VoteRows(s, from, i, matrix, d);
  }

  lemma OwnRequestRows(s: Node, cmd: Command)
    ensures RowsKept(s, OnRequest(s, cmd))
  {
  }

  // ----- runs

  /** What has been sent stays sent, and summaries rise. */
  ghost predicate Onward(a: System, b: System) {
    && a.f == b.f && a.nodes.Keys == b.nodes.Keys
    && forall p :: p in a.nodes ==> a.nodes[p].msgs <= b.nodes[p].msgs && SummaryGrows(a.nodes[p], b.nodes[p])
  }

  lemma RowStays(a: System, b: System, q: PeerID, row: seq<nat>)
    requires Onward(a, b) && RowSent(a, q, row)
    ensures RowSent(b, q, row)
  {
    hide SummaryGrows;
  }

  lemma RowsStay(a: System, b: System, m: Matrix)
    requires Onward(a, b) && RowsSent(a, m)
    ensures RowsSent(b, m)
  {
    hide Onward, RowSent;
    assert a.f == b.f by { OnwardSize(a, b); }
    forall q | 0 <= q < |m| ensures RowSent(b, q, m[q]) {
      RowStays(a, b, q, m[q]);
    }
  }

  lemma OnwardSize(a: System, b: System)
    requires Onward(a, b)
    ensures a.f == b.f
  {
  }

  lemma MsgStays(a: System, b: System, s: Node, t: Node, m: Msg)
    requires Onward(a, b) && MsgOK(a, s, m) && SummaryGrows(s, t)
    ensures MsgOK(b, t, m)
  {
    if m.Order? && m.kind == PrePrepare {
      hide Onward, RowsSent;
      RowsStay(a, b, m.matrix.value);
    }
  }

  lemma ToldStays(a: System, b: System, s: Node)
    requires Onward(a, b) && Told(a, s)
    ensures Told(b, s)
  {
    hide Onward, RowsSent, MsgOK;
    RowsStay(a, b, s.summaries);
    Same(s);
    forall m | m in s.msgs ensures MsgOK(b, s, m) {
      MsgStays(a, b, s, s, m);
    }
  }

  lemma Same(s: Node)
    ensures SummaryGrows(s, s)
  {
  }

  /** b is the system after the step that has made t of s. */
  lemma ActorTold(a: System, b: System, s: Node, t: Node, ev: Event)
    requires Onward(a, b) && Told(a, s) && Moves(s, t, ev) && SummaryGrows(s, t) && s.id in b.nodes && b.nodes[s.id] == t
    requires |s.poSummary| == 3 * b.f + 1 && s.id < 3 * b.f + 1
    requires ev.Deliver? && ev.m.POSummary? ==> RowSent(b, ev.from, ev.m.row)
    ensures Told(b, t)
  {
    hide Onward, MsgOK;
    RowsStay(a, b, s.summaries);
    hide RowSent;
    if ev.SummaryTimer? && !RowsKept(s, t) {
      assert RowSent(b, s.id, s.poSummary) by { OwnRow(b, s, t); }
    }
    assert RowsSent(b, t.summaries);
    hide RowsSent, RowSent;
    forall m | m in t.msgs ensures MsgOK(b, t, m) {
      if m in s.msgs {
        MsgStays(a, b, s, t, m);
      } else {
        NewMsg(b, s, t, ev, m);
      }
    }
  }

  lemma OwnRow(sys: System, s: Node, t: Node)
    requires s.id in sys.nodes && sys.nodes[s.id] == t && t.msgs == s.msgs + [POSummary(s.poSummary)]
    ensures RowSent(sys, s.id, s.poSummary)
  {
    assert t.msgs[|s.msgs|] == POSummary(s.poSummary);
  }

  lemma NewMsg(sys: System, s: Node, t: Node, ev: Event, m: Msg)
    requires Moves(s, t, ev) && SummaryGrows(s, t) && RowsSent(sys, t.summaries) && m in t.msgs && m !in s.msgs
    ensures MsgOK(sys, t, m)
  {
    hide RowsSent;
    var k :| 0 <= k < |t.msgs| && t.msgs[k] == m;
    if RowsKept(s, t) {
      assert k >= |s.msgs|;
    }
  }

  ghost predicate RowInv(sys: System) {
    SysInv(sys) && forall p :: p in sys.nodes ==> Told(sys, sys.nodes[p])
  }

  lemma DeliveredRow(sys: System, ev: Event)
    requires Enabled(sys, ev) && ev.Deliver? && ev.m.POSummary? && SysInv(sys)
    ensures RowSent(sys, ev.from, ev.m.row)
  {
    hide LocalInv;
  }

  lemma StepOnward(sys: System, ev: Event)
    requires SysInv(sys) && Enabled(sys, ev)
    ensures Onward(sys, After(sys, ev)) && SummaryGrows(sys.nodes[Actor(ev)], After(sys, ev).nodes[Actor(ev)])
  {
    hide LocalInv, Step, LogGrows, SlotsGrow, Ids;
    StepKeeps(sys, ev);
  }

  lemma NodeIs(sys: System, p: PeerID)
    requires SysInv(sys) && p in sys.nodes
    ensures var s := sys.nodes[p]; s.id == p && s.f == sys.f && p < 3 * sys.f + 1 && |s.poSummary| == 3 * sys.f + 1 && LocalInv(s)
  {
    hide InstsOK, SlotsOK, OrderOK;
    assert p in Peers(sys.f);
  }

  lemma StepTold(sys: System, ev: Event)
    requires RowInv(sys) && Enabled(sys, ev)
    ensures RowInv(After(sys, ev))
  {
    hide SysInv, Told, Step, Onward, Moves, SummaryGrows, Good, LocalInv;
    var p, after := Actor(ev), After(sys, ev);
    StepKeeps(sys, ev);
    StepOnward(sys, ev);
    StepKind(sys.nodes[p], ev);
    NodeIs(sys, p);
    if ev.Deliver? && ev.m.POSummary? {
      DeliveredRow(sys, ev);
      RowStays(sys, after, ev.from, ev.m.row);
    }
    ActorTold(sys, after, sys.nodes[p], after.nodes[p], ev);
    forall q | q in after.nodes ensures Told(after, after.nodes[q]) {
      if q != p {
        ToldStays(sys, after, sys.nodes[q]);
      }
    }
  }

  lemma {:induction false} RunTold(sys: System, bare: bool, evs: seq<Event>)
    requires RowInv(sys) && ValidRun(sys, bare, evs)
    ensures RowInv(RunEnds(sys, bare, evs))
    decreases |evs|
  {
    hide RowInv;
    if evs != [] {
      StepTold(sys, evs[0]);
      RunTold(After(sys, evs[0]), bare, evs[1..]);
    }
  }

  lemma StartTold(sys: System)
    requires Start(sys)
    ensures RowInv(sys)
  {
    StartInv(sys);
    hide SysInv;
  }

  lemma ReachedTold(sys: System, bare: bool)
    requires Reached(sys, bare)
    ensures RowInv(sys)
  {
    hide Start, RowInv, ValidRun, RunEnds;
    var start, evs :| Start(start) && ValidRun(start, bare, evs) && RunEnds(start, bare, evs) == sys;
    StartTold(start);
    RunTold(start, bare, evs);
  }

  /** In every run, what a correct leader has ordered covers only what a correct replica has summarized: up to the
      frontier every instance of an origin has been acknowledged by one correct replica, or is its own. */
  lemma FrontierSummarized(sys: System, bare: bool, l: PeerID, m: Msg, i: nat, v: nat) returns (q: PeerID)
    requires Reached(sys, bare) && l in sys.nodes && m in sys.nodes[l].msgs && m.Order? && m.kind == PrePrepare && m.matrix.Some?
    requires Shaped(m.matrix.value) && sys.f < |m.matrix.value| && i < |m.matrix.value| && 1 <= v <= Frontier(m.matrix.value, sys.f, i)
    ensures q in sys.nodes && |sys.nodes[q].poSummary| == 3 * sys.f + 1 && i < 3 * sys.f + 1 && v <= sys.nodes[q].poSummary[i]
    ensures i != q ==> Acks(sys.nodes[q].log, Id(i, v))
  {
    var mat := m.matrix.value;
    hide Acks, Frontier, Reached, Shaped;
    ReachedConfig(sys, bare);
    OrderedSize(sys, bare, l, m);
    var below: PeerID;
    q, below := CorrectWitnesses(mat, sys.f, i, sys.faulty);
    OrderedRow(sys, bare, l, m, q);
    if i != q {
      SummaryExact(sys, bare, q, i, v);
    }
  }

  lemma OrderedSize(sys: System, bare: bool, l: PeerID, m: Msg)
    requires Reached(sys, bare) && l in sys.nodes && m in sys.nodes[l].msgs && m.Order? && m.kind == PrePrepare && m.matrix.Some?
    ensures |m.matrix.value| == 3 * sys.f + 1
  {
    hide SysInv, Reached;
    ReachedTold(sys, bare);
    assert MsgOK(sys, sys.nodes[l], m);
  }

  /** A correct replica's row in an ordered matrix is all zeroes or within its summary. */
  lemma OrderedRow(sys: System, bare: bool, l: PeerID, m: Msg, q: PeerID)
    requires Reached(sys, bare) && l in sys.nodes && m in sys.nodes[l].msgs && m.Order? && m.kind == PrePrepare && m.matrix.Some?
    requires q < |m.matrix.value| && q !in sys.faulty
    ensures |m.matrix.value| == 3 * sys.f + 1 && q in sys.nodes
    ensures m.matrix.value[q] == seq(3 * sys.f + 1, j => 0) || AtMost(m.matrix.value[q], sys.nodes[q].poSummary)
    ensures |sys.nodes[q].poSummary| == 3 * sys.f + 1
  {
    hide SysInv, LocalInv, Reached;
    ReachedTold(sys, bare);
    ReachedConfig(sys, bare);
    assert MsgOK(sys, sys.nodes[l], m);
    assert q in Peers(sys.f);
    NodeIs(sys, q);
    assert RowSent(sys, q, m.matrix.value[q]);
    if m.matrix.value[q] != seq(3 * sys.f + 1, j => 0) {
      assert MsgOK(sys, sys.nodes[q], POSummary(m.matrix.value[q]));
    }
  }

  lemma ReachedConfig(sys: System, bare: bool)
    requires Reached(sys, bare)
    ensures |sys.faulty| <= sys.f && sys.nodes.Keys == Peers(sys.f) - sys.faulty
  {
    var start, evs :| Start(start) && ValidRun(start, bare, evs) && RunEnds(start, bare, evs) == sys;
    RunKeepsConfig(start, bare, evs);
  }
}
