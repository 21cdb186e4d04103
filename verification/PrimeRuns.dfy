/** What every handler of protocols/prime keeps of one replica, whatever the other replicas send. */
module PrimeRuns {
  import opened Quorums
  import opened PrimeFrontier
  import opened PrimeNode
  import opened PrimeExec
  import Slots

  function Size(s: Node): nat {
    3 * s.f + 1
  }

  // ----- the invariant

  /** An instance that the replica has acknowledged, or executed. */
  predicate Acks(log: map<Id, Inst>, id: Id) {
    id in log && Rank(log[id].status) >= 2
  }

  /** A replica that has pre-ordered an instance has voted on it, and holds its command until it is executed. */
  predicate InstOK(x: Inst, self: PeerID) {
    && (x.status == Nothing || x.status == PreOrder || x.status == PreOrderAck || x.status == Executed)
    && (Rank(x.status) >= 1 ==> self in x.votes)
    && (x.status == PreOrder || x.status == PreOrderAck ==> x.cmd.Some?)
  }

  ghost predicate InstsOK(s: Node) {
    forall id :: id in s.log ==> InstOK(s.log[id], s.id)
  }

  /** The instance after an origin's summary is not acknowledged, and exec has not come beyond it.  Up to the
      summary everything of another origin is acknowledged. */
  ghost predicate Summed(s: Node) {
    && |s.poSummary| == Size(s)
    && (!s.halted ==> forall id :: Acks(s.log, id) ==> id.replica < Size(s))
    && (forall r: nat :: r >= Size(s) ==> Next(s, r) == 0)
    && (forall r :: 0 <= r < Size(s) ==> !Acks(s.log, Id(r, s.poSummary[r] + 1)) && Next(s, r) <= s.poSummary[r] + 1)
    && (forall r, j :: 0 <= r < Size(s) && r != s.id && 1 <= j <= s.poSummary[r] ==> Acks(s.log, Id(r, j)))
  }

  /** A slot that the replica has voted on carries the leader's vote and a matrix. */
  predicate SlotOK(x: Slot, leader: PeerID) {
    ORank(x.status) >= 1 ==> leader in x.prepares && x.matrix.Some?
  }

  ghost predicate SlotsOK(s: Node) {
    && (forall i :: i in s.olog ==> SlotOK(s.olog[i], Leader(s)))
    && (forall i :: i in s.olog && ORank(s.olog[i].status) >= 1 && s.id == Leader(s) ==> i < s.oindex)
    && (forall i :: 1 <= i < s.oexecIdx ==> i in s.olog && s.olog[i].status == OExecuted)
  }

  ghost predicate LocalInv(s: Node) {
    InstsOK(s) && Summed(s) && SlotsOK(s) && OrderOK(s, Size(s))
  }

  ghost predicate SummaryGrows(s: Node, t: Node) {
    |t.poSummary| == |s.poSummary| && (forall r :: 0 <= r < |s.poSummary| ==> s.poSummary[r] <= t.poSummary[r])
  }

  ghost predicate LogGrows(s: Node, t: Node) {
    forall id :: id in s.log && id.replica != s.id ==> id in t.log && Rank(s.log[id].status) <= Rank(t.log[id].status)
  }

  ghost predicate SlotsGrow(olog: map<nat, Slot>, after: map<nat, Slot>) {
    && (forall i :: i in olog ==> i in after && ORank(olog[i].status) <= ORank(after[i].status))
    && (forall i :: i in olog && ORank(olog[i].status) >= 1 ==> after[i].matrix == olog[i].matrix)
  }

  /** What no step takes back: summaries, what has been executed, the status of other origins' instances and of
      slots, and the matrix of a slot voted on. */
  ghost predicate Grows(s: Node, t: Node) {
    && t.id == s.id && t.f == s.f && t.oview == s.oview
    && SummaryGrows(s, t) && LogGrows(s, t) && SlotsGrow(s.olog, t.olog)
    && Ids(s.executed) <= Ids(t.executed) && s.msgs <= t.msgs
  }

  ghost predicate Good(s: Node, t: Node) {
    LocalInv(t) && Grows(s, t)
  }

  lemma GoodTwice(s: Node, t: Node, u: Node)
    requires Good(s, t) && Good(t, u)
    ensures Good(s, u)
  {
    hide LocalInv, Ids;
  }

  /** Fields that the invariant does not see. */
  lemma GoodSame(s: Node, t: Node)
    requires LocalInv(s) && s.msgs <= t.msgs && (s.halted ==> t.halted)
    requires t == s.(msgs := t.msgs, summaries := t.summaries, lastPrepared := t.lastPrepared, index := t.index, halted := t.halted)
    ensures Good(s, t)
  {
    hide Ids, OrderOK;
    SameOrderOK(s, t);
    assert InstsOK(t) && SlotsOK(t);
    hide InstsOK, SlotsOK;
    SummedSame(s, t);
    hide Summed;
  }

  lemma SameOrderOK(s: Node, t: Node)
    requires OrderOK(s, Size(s)) && t.f == s.f && t.log == s.log && t.olog == s.olog
    requires t.execIdx == s.execIdx && t.oexecIdx == s.oexecIdx && t.executed == s.executed
    ensures OrderOK(t, Size(t))
  {
    assert Supplied(t);
    OthersKeep(s, t, Size(s));
  }

  // ----- pre-ordering

  /** x may take the place of what the log holds under id, and is not acknowledged by that. */
  predicate MayReplace(s: Node, id: Id, x: Inst) {
    && InstOK(x, s.id)
    && (if id in s.log && id.replica != s.id then Rank(s.log[id].status) <= Rank(x.status) else true)
    && (Rank(x.status) >= 2 ==> id in s.log && s.log[id].status == x.status)
  }

  lemma PutInst(s: Node, id: Id, x: Inst)
    requires LocalInv(s) && !s.halted && MayReplace(s, id, x)
    ensures Good(s, s.(log := s.log[id := x]))
  {
    var t := s.(log := s.log[id := x]);
    PutOrder(s, id, x);
    hide OrderOK, Ids;
    assert InstsOK(t) && SlotsOK(t) && LogGrows(s, t);
    hide InstsOK, SlotsOK, LogGrows;
    PutSummed(s, id, x);
    hide Summed;
  }

  lemma PutOrder(s: Node, id: Id, x: Inst)
    requires OrderOK(s, Size(s)) && InstOK(x, s.id) && (x.status == Executed ==> id in s.log && s.log[id].status == Executed)
    ensures OrderOK(s.(log := s.log[id := x]), Size(s))
  {
    var t := s.(log := s.log[id := x]);
    assert Supplied(t);
    OthersKeep(s, t, Size(s));
  }

  lemma PutSummed(s: Node, id: Id, x: Inst)
    requires Summed(s) && !s.halted && MayReplace(s, id, x)
    ensures Summed(s.(log := s.log[id := x]))
  {
    var t := s.(log := s.log[id := x]);
    assert forall r: nat :: Next(t, r) == Next(s, r);
    hide Next;
    assert forall j :: Acks(t.log, j) ==> Acks(s.log, j);
    assert forall j: Id :: j.replica != s.id && Acks(s.log, j) ==> Acks(t.log, j);
    hide Acks;
  }

  lemma {:induction false} RunEndOK(log: map<Id, Inst>, r: nat, i: nat)
    ensures var k := RunEnd(log, r, i);
      k >= i && !Acked(log, Id(r, k + 1)) && forall j :: i < j <= k ==> Acked(log, Id(r, j))
    decreases |Logged(log, r, i + 1)|
  {
    if Acked(log, Id(r, i + 1)) {
      LoggedShrinks(log, r, i + 1);
      RunEndOK(log, r, i + 1);
    }
  }

  /** An acknowledgement is followed by summarize: a new summary ends where the acknowledged run does, and not
      at an instance that exec has overtaken. */
  lemma Acknowledge(s: Node, id: Id, x: Inst)
    requires LocalInv(s) && !s.halted && InstOK(x, s.id) && x.status == PreOrder && (id in s.log ==> Rank(s.log[id].status) <= 1)
    ensures Good(s, Summarize(s.(log := s.log[id := x.(status := PreOrderAck)]), id.replica))
  {
    hide OrderOK, Ids, InstsOK, SlotsOK, LogGrows, SlotsGrow, SummaryGrows, Acks, Summed, RunEnd, Acked, Marks;
    var y := x.(status := PreOrderAck);
    var u := s.(log := s.log[id := y]);
    var t := Summarize(u, id.replica);
    SummedSize(s);
    var r, k := id.replica, if id.replica < Size(s) then RunEnd(u.log, id.replica, s.poSummary[id.replica]) else 0;
    assert t == if r < Size(s) then u.(poSummary := s.poSummary[r := k]) else u.(halted := true);
    AckFrame(s, id, y, t);
    AckMarks(s, id, y);
    hide Summarize, InstOK;
    if id.replica < Size(s) {
      RunEndOK(u.log, r, s.poSummary[r]);
      EndNotAcked(s, t, id, k);
      AckedAcks(u.log, r, s.poSummary[r], k);
      SummaryMoves(s, id, u.log, k);
    } else {
      AckOutside(s, id, u.log);
    }
  }

  /** All but the summaries. */
  lemma AckFrame(s: Node, id: Id, y: Inst, t: Node)
    requires LocalInv(s) && InstOK(y, s.id) && y.status == PreOrderAck && (id in s.log ==> Rank(s.log[id].status) <= 1)
    requires t == s.(log := s.log[id := y], poSummary := t.poSummary, halted := t.halted)
    ensures InstsOK(t) && SlotsOK(t) && OrderOK(t, Size(t)) && LogGrows(s, t) && SlotsGrow(s.olog, t.olog)
    ensures Ids(t.executed) == Ids(s.executed)
  {
    hide OrderOK, Ids, Summed, SlotsOK, InstsOK, LogGrows, SlotsGrow;
    PutOrder(s, id, y);
    SameOrderOK(s.(log := s.log[id := y]), t);
    SlotsSame(s, t);
    InstsPut(s, id, y, t);
  }

  lemma SlotsSame(s: Node, t: Node)
    requires SlotsOK(s) && t.id == s.id && t.f == s.f && t.oview == s.oview && t.olog == s.olog && t.oindex == s.oindex && t.oexecIdx == s.oexecIdx
    ensures SlotsOK(t) && SlotsGrow(s.olog, t.olog)
  {
  }

  lemma InstsPut(s: Node, id: Id, y: Inst, t: Node)
    requires InstsOK(s) && InstOK(y, s.id) && t.id == s.id && t.log == s.log[id := y]
    requires id in s.log ==> Rank(s.log[id].status) <= Rank(y.status)
    ensures InstsOK(t) && LogGrows(s, t)
  {
  }

  lemma SummedSize(s: Node)
    requires Summed(s)
    ensures |s.poSummary| == Size(s)
  {
  }

  /** At most id is newly acknowledged. */
  ghost predicate Marks(log: map<Id, Inst>, after: map<Id, Inst>, id: Id) {
    (forall j :: Acks(log, j) ==> Acks(after, j)) && (forall j :: j != id && Acks(after, j) ==> Acks(log, j))
  }

  lemma AckMarks(s: Node, id: Id, y: Inst)
    requires Rank(y.status) >= 2
    ensures Marks(s.log, s.log[id := y], id)
  {
  }

  lemma AckedAcks(log: map<Id, Inst>, r: nat, i: nat, k: nat)
    requires forall j :: i < j <= k ==> Acked(log, Id(r, j))
    ensures forall j :: i < j <= k ==> Acks(log, Id(r, j))
  {
  }

  /** The instance after the run is not an executed one: those lie below the old summary. */
  lemma EndNotAcked(s: Node, u: Node, id: Id, k: nat)
    requires Summed(s) && OrderOK(s, Size(s)) && InstsOK(u) && id in u.log && u.log == s.log[id := u.log[id]] && u.log[id].status == PreOrderAck
    requires id.replica < Size(s) && k >= s.poSummary[id.replica] && !Acked(u.log, Id(id.replica, k + 1))
    ensures !Acks(u.log, Id(id.replica, k + 1))
  {
    var end := Id(id.replica, k + 1);
    assert Fresh(s);
    hide OrderOK;
    if Acks(u.log, end) {
      assert false;
    }
  }

  lemma SummaryMoves(s: Node, id: Id, after: map<Id, Inst>, k: nat)
    requires Summed(s) && !s.halted && id.replica < Size(s) && k >= s.poSummary[id.replica]
    requires !Acks(after, Id(id.replica, k + 1)) && forall j :: s.poSummary[id.replica] < j <= k ==> Acks(after, Id(id.replica, j))
    requires Marks(s.log, after, id)
    ensures var t := s.(log := after, poSummary := s.poSummary[id.replica := k]); Summed(t) && SummaryGrows(s, t)
  {
    hide Acks;
    var t := s.(log := after, poSummary := s.poSummary[id.replica := k]);
    assert forall r: nat :: Next(t, r) == Next(s, r);
    hide Next;
  }

  lemma AckOutside(s: Node, id: Id, after: map<Id, Inst>)
    requires Summed(s) && id.replica >= Size(s)
    requires Marks(s.log, after, id)
    ensures var t := s.(log := after, halted := true); Summed(t) && SummaryGrows(s, t)
  {
    hide Acks;
    var t := s.(log := after, halted := true);
    assert forall r: nat :: Next(t, r) == Next(s, r);
    hide Next;
  }

  // ----- onPORequest, onPOAck, onRequest

  lemma SettleGood(s: Node, id: Id, x: Inst, d: Option<Digest<Command>>)
    requires LocalInv(s) && !s.halted && MayReplace(s, id, x) && (id in s.log ==> Rank(s.log[id].status) <= Rank(x.status))
    ensures Good(s, Settle(s, id, x, d))
  {
    hide LocalInv, Good, Summarize, InstOK;
    if x.status == PreOrder {
      Acknowledge(s, id, x);
    }
    PutInst(s, id, x);
  }

  lemma SayGood(s: Node, m: Msg)
    requires LocalInv(s)
    ensures Good(s, Say(s, m))
  {
    GoodSame(s, Say(s, m));
  }

  lemma HaltGood(s: Node)
    requires LocalInv(s)
    ensures Good(s, s) && Good(s, Halt(s))
  {
    GoodSame(s, s);
    GoodSame(s, Halt(s));
  }

  /** A second vote of the replica's own is fatal: it votes on an instance once, before it is pre-ordered. */
  lemma CastRequestGood(s: Node, from: PeerID, id: Id, x: Inst, d: Option<Digest<Command>>)
    requires LocalInv(s) && !s.halted && InstOK(x, s.id) && x.cmd.Some? && (id in s.log ==> x.status == s.log[id].status)
    ensures Good(s, CastRequest(s, from, id, x, d))
  {
    hide LocalInv, Good, Settle;
    HaltGood(s);
    if from !in x.votes && s.id !in x.votes && s.id != from {
      var w := x.votes[from := d][s.id := x.hash];
      var t := Say(s, POAck(id, None, x.hash));
      SayGood(s, POAck(id, None, x.hash));
      assert LocalInv(t) by { GoodInv(s, t); }
      SettleGood(t, id, x.(status := PreOrder, votes := w), x.hash);
      GoodTwice(s, t, Settle(t, id, x.(status := PreOrder, votes := w), x.hash));
    }
  }

  lemma GoodInv(s: Node, t: Node)
    requires Good(s, t)
    ensures LocalInv(t)
  {
  }

  lemma HeldOK(s: Node, id: Id)
    requires LocalInv(s) && id in s.log
    ensures InstOK(s.log[id], s.id)
  {
  }

  lemma OnPORequestGood(s: Node, from: PeerID, id: Id, cmd: Option<Command>, hash: Option<Digest<Command>>)
    requires LocalInv(s) && !s.halted
    ensures Good(s, OnPORequest(s, from, id, cmd, hash))
  {
    hide LocalInv, Good, CastRequest;
    HaltGood(s);
    if cmd.Some? && hash == Some(Slots.Of(cmd.value)) {
      if id !in s.log {
        CastRequestGood(s, from, id, Inst(Nothing, cmd, hash, map[]), hash);
      } else {
        HeldOK(s, id);
        match UpdateCommand(s.log[id], cmd.value)
        case None =>
        case Some(x) =>
          PutInst(s, id, x);
          CastRequestGood(s, from, id, x.(hash := hash), hash);
      }
    }
  }

  lemma CastAckGood(s: Node, from: PeerID, id: Id, x: Inst, d: Option<Digest<Command>>)
    requires LocalInv(s) && !s.halted && InstOK(x, s.id) && (if id in s.log then x.status == s.log[id].status else x.status == Nothing)
    ensures Good(s, CastAck(s, from, id, x, d))
  {
    hide LocalInv, Good, Settle;
    HaltGood(s);
    if from !in x.votes {
      SettleGood(s, id, x.(votes := x.votes[from := d]), d);
    }
  }

  lemma OnPOAckGood(s: Node, from: PeerID, id: Id, cmd: Option<Command>, hash: Option<Digest<Command>>)
    requires LocalInv(s) && !s.halted
    ensures Good(s, OnPOAck(s, from, id, cmd, hash))
  {
    hide LocalInv, Good, CastAck;
    HaltGood(s);
    if id !in s.log {
      CastAckGood(s, from, id, Inst(Nothing, cmd, hash, map[]), hash);
    } else {
      HeldOK(s, id);
      CastAckGood(s, from, id, s.log[id].(hash := hash), hash);
    }
  }

  lemma OnRequestGood(s: Node, cmd: Command)
    requires LocalInv(s) && !s.halted
    ensures Good(s, OnRequest(s, cmd))
  {
    var id, d := Id(s.id, s.index), Some(Slots.Of(cmd));
    var t := s.(log := s.log[id := Inst(PreOrder, Some(cmd), d, map[s.id := d])]);
    hide LocalInv, Good;
    PutInst(s, id, t.log[id]);
    GoodInv(s, t);
    GoodSame(t, OnRequest(s, cmd));
    GoodTwice(s, t, OnRequest(s, cmd));
  }

  // ----- ordering

  /** exec keeps the cursors behind the summaries: it passes acknowledged instances only. */
  lemma ExecGood(s: Node)
    requires LocalInv(s) && !s.halted
    ensures Good(s, Exec(s))
  {
    hide Exec, OrderOK, Ids, CanPass, Usable, Available, InstsOK, Summed, SlotsOK, SlotsGrow, SummaryGrows, LogGrows, Passes, OnlyExecuted;
    var t := Exec(s);
    ExecOK(s, Size(s));
    ExecSummed(s, t);
    ExecInsts(s, t);
    ExecSlots(s, t);
  }

  lemma ExecSlots(s: Node, t: Node)
    requires SlotsOK(s) && ExecChanges(s, t)
    ensures SlotsOK(t) && SlotsGrow(s.olog, t.olog)
  {
    ExecOlog(s, t);
    hide ExecChanges, SlotOK;
  }

  lemma ExecOlog(s: Node, t: Node)
    requires ExecChanges(s, t)
    ensures t.id == s.id && t.f == s.f && t.oview == s.oview && t.oindex == s.oindex && t.olog.Keys == s.olog.Keys
    ensures forall i :: i in s.olog ==>
      t.olog[i].prepares == s.olog[i].prepares && t.olog[i].matrix == s.olog[i].matrix
      && ORank(s.olog[i].status) <= ORank(t.olog[i].status) && (ORank(s.olog[i].status) == 0 ==> ORank(t.olog[i].status) == 0)
      && (s.olog[i].status == OExecuted ==> t.olog[i].status == OExecuted)
    ensures forall i :: s.oexecIdx <= i < t.oexecIdx ==> i in t.olog && t.olog[i].status == OExecuted
    ensures forall i :: i in s.olog ==> forall l: PeerID :: SlotOK(s.olog[i], l) ==> SlotOK(t.olog[i], l)
  {
    hide Ids, OnlyExecuted, Passes;
  }

  lemma ExecInsts(s: Node, t: Node)
    requires InstsOK(s) && OnlyExecuted(s.log, t.log) && t.id == s.id
    ensures InstsOK(t) && LogGrows(s, t)
  {
  }

  lemma ExecSummed(s: Node, t: Node)
    requires Summed(s) && !s.halted && t.id == s.id && t.f == s.f && t.poSummary == s.poSummary && OnlyExecuted(s.log, t.log) && Passes(s, t)
    ensures Summed(t) && SummaryGrows(s, t)
  {
    assert forall id :: Acks(t.log, id) <==> Acks(s.log, id);
    forall r: nat, i: nat | Next(s, r) <= i < Next(t, r) ensures Acks(s.log, Id(r, i)) {
    }
    hide OnlyExecuted, Passes, Acks, Next;
    forall r | 0 <= r < Size(s) ensures Next(t, r) <= s.poSummary[r] + 1 {
      StopsAt(s, t, r, s.poSummary[r] + 1);
    }
    forall r: nat | r >= Size(s) ensures Next(t, r) == 0 {
      StopsAt(s, t, r, 0);
    }
  }

  /** No cursor passes an instance that is not acknowledged. */
  lemma StopsAt(s: Node, t: Node, r: nat, i: nat)
    requires forall q: nat, j: nat :: Next(s, q) <= j < Next(t, q) ==> Acks(s.log, Id(q, j))
    requires Next(s, r) <= i && !Acks(s.log, Id(r, i))
    ensures Next(t, r) <= i
  {
  }

  /** x may take the place of slot i. */
  predicate MaySet(s: Node, i: nat, x: Slot) {
    && SlotOK(x, Leader(s)) && (ORank(x.status) >= 1 && s.id == Leader(s) ==> i < s.oindex)
    && (i in s.olog ==> ORank(s.olog[i].status) <= ORank(x.status) && (ORank(s.olog[i].status) >= 1 ==> x.matrix == s.olog[i].matrix))
  }

  lemma PutSlot(s: Node, i: nat, x: Slot)
    requires LocalInv(s) && !s.halted && MaySet(s, i, x)
    ensures Good(s, s.(olog := s.olog[i := x]))
  {
    var t := s.(olog := s.olog[i := x]);
    hide Ids;
    SetOrder(s, i, x);
    hide OrderOK;
    assert SlotsOK(t) && SlotsGrow(s.olog, t.olog);
    hide SlotsOK, SlotsGrow, SlotOK;
    SummedSame(s, t);
    hide Summed;
  }

  lemma SummedSame(s: Node, t: Node)
    requires Summed(s) && t.id == s.id && t.f == s.f && t.log == s.log && t.execIdx == s.execIdx && t.poSummary == s.poSummary
    requires s.halted ==> t.halted
    ensures Summed(t)
  {
    assert forall r: nat :: Next(t, r) == Next(s, r);
    hide Next, Acks;
  }

  /** The slots that have been passed are executed ones, whose matrix stays. */
  lemma SetOrder(s: Node, i: nat, x: Slot)
    requires OrderOK(s, Size(s)) && SlotsOK(s) && MaySet(s, i, x)
    ensures OrderOK(s.(olog := s.olog[i := x]), Size(s))
  {
    var t := s.(olog := s.olog[i := x]);
    assert SameMatrices(s.olog, t.olog, s.oexecIdx);
    assert Supplied(t);
    OthersKeep(s, t, Size(s));
  }

  lemma TryPrepareGood(s: Node, i: nat, x: Slot, d: Option<Digest<Matrix>>)
    requires LocalInv(s) && !s.halted && MaySet(s, i, x)
    ensures Good(s, TryPrepare(s, i, x, d))
  {
    hide LocalInv, Good, Exec, Majority, MaySet;
    HaltGood(s);
    PutSlot(s, i, x);
    if s.id !in x.commits && x.status == OPrePrepared {
      var t := Say(s, Order(Commit, s.oview, i, None, d));
      var c := x.commits[s.id := d];
      SayGood(s, Order(Commit, s.oview, i, None, d));
      GoodInv(s, t);
      MaySetRises(s, t, i, x, x.(status := OPrepared, commits := c));
      PutSlot(t, i, x.(status := OPrepared, commits := c));
      GoodTwice(s, t, t.(olog := t.olog[i := x.(status := OPrepared, commits := c)]));
      MaySetRises(s, t, i, x, x.(status := OCommitted, commits := c));
      PutAndExec(t, i, x.(status := OCommitted, commits := c));
      GoodTwice(s, t, Exec(t.(olog := t.olog[i := x.(status := OCommitted, commits := c)])));
    }
  }

  lemma MaySetRises(s: Node, t: Node, i: nat, x: Slot, y: Slot)
    requires MaySet(s, i, x) && y == x.(status := y.status, commits := y.commits) && 1 <= ORank(x.status) <= ORank(y.status)
    requires t == s.(msgs := t.msgs)
    ensures MaySet(t, i, y)
  {
  }

  lemma PutAndExec(s: Node, i: nat, x: Slot)
    requires LocalInv(s) && !s.halted && MaySet(s, i, x)
    ensures Good(s, Exec(s.(olog := s.olog[i := x])))
  {
    hide LocalInv, Good, Exec, MaySet;
    var t := s.(olog := s.olog[i := x]);
    PutSlot(s, i, x);
    GoodInv(s, t);
    ExecGood(t);
    GoodTwice(s, t, Exec(t));
  }

  /** The leader's vote is there once: a slot pre-prepared before fails here. */
  lemma CastPrepareGood(s: Node, i: nat, x: Slot, d: Option<Digest<Matrix>>)
    requires LocalInv(s) && !s.halted && x.matrix.Some? && SlotOK(x, Leader(s))
    requires if i in s.olog then x.status == s.olog[i].status else x.status == ONothing
    ensures Good(s, CastPrepare(s, Leader(s), i, x, d))
  {
    hide LocalInv, Good, TryPrepare;
    HaltGood(s);
    if Leader(s) !in x.prepares && s.id !in x.prepares && s.id != Leader(s) {
      var y := x.(status := OPrePrepared, prepares := x.prepares[Leader(s) := d][s.id := d]);
      var t := Say(s, Order(Prepare, s.oview, i, None, d));
      SayGood(s, Order(Prepare, s.oview, i, None, d));
      GoodInv(s, t);
      TryPrepareGood(t, i, y, d);
      GoodTwice(s, t, TryPrepare(t, i, y, d));
    }
  }

  lemma HeldSlotOK(s: Node, i: nat)
    requires LocalInv(s) && i in s.olog
    ensures SlotOK(s.olog[i], Leader(s)) && (ORank(s.olog[i].status) >= 1 && s.id == Leader(s) ==> i < s.oindex)
  {
  }

  lemma OnPrePrepareGood(s: Node, from: PeerID, i: nat, matrix: Option<Matrix>, d: Option<Digest<Matrix>>)
    requires LocalInv(s) && !s.halted
    ensures Good(s, OnPrePrepare(s, from, i, matrix, d))
  {
    hide LocalInv, Good, CastPrepare;
    HaltGood(s);
    if from == Leader(s) && matrix.Some? {
      if i !in s.olog {
        CastPrepareGood(s, i, Slot(ONothing, matrix, None, map[], map[]), d);
      } else {
        HeldSlotOK(s, i);
        var x := s.olog[i];
        var y := if x.matrix.Some? then x else x.(matrix := matrix);
        PutSlot(s, i, y);
        CastPrepareGood(s, i, y.(hash := d), d);
      }
    }
  }

  lemma KnownSlotOK(s: Node, i: nat, matrix: Option<Matrix>, d: Option<Digest<Matrix>>)
    requires LocalInv(s) && KnownSlot(s, i, matrix, d).Some?
    ensures MaySet(s, i, KnownSlot(s, i, matrix, d).value)
  {
    if i in s.olog {
      HeldSlotOK(s, i);
    }
  }

  lemma OnPrepareGood(s: Node, from: PeerID, i: nat, matrix: Option<Matrix>, d: Option<Digest<Matrix>>)
    requires LocalInv(s) && !s.halted
    ensures Good(s, OnPrepare(s, from, i, matrix, d))
  {
    hide LocalInv, Good, TryPrepare;
    HaltGood(s);
    match KnownSlot(s, i, matrix, d)
    case None =>
    case Some(x) =>
      if from !in x.prepares {
        KnownSlotOK(s, i, matrix, d);
        TryPrepareGood(s, i, x.(prepares := x.prepares[from := d]), d);
      }
  }

  lemma OnCommitGood(s: Node, from: PeerID, i: nat, matrix: Option<Matrix>, d: Option<Digest<Matrix>>)
    requires LocalInv(s) && !s.halted
    ensures Good(s, OnCommit(s, from, i, matrix, d))
  {
    hide LocalInv, Good, Exec, Majority;
    HaltGood(s);
    match KnownSlot(s, i, matrix, d)
    case None =>
    case Some(x) =>
      if from !in x.commits {
        KnownSlotOK(s, i, matrix, d);
        var c := x.commits[from := d];
        var done := Majority(c, d, s.f) && x.status == OPrepared;
        var y := x.(commits := c, status := if done then OCommitted else x.status);
        PutSlot(s, i, y);
        PutAndExec(s, i, y);
      }
  }

  lemma SendPrePrepareGood(s: Node)
    requires LocalInv(s) && !s.halted
    ensures Good(s, SendPrePrepare(s))
  {
    hide LocalInv, Good;
    HaltGood(s);
    if s.id == Leader(s) && s.summaries != s.lastPrepared {
      var d, i := Some(Slots.Of(s.summaries)), s.oindex;
      var x := Slot(OPrePrepared, Some(s.summaries), d, map[s.id := d], map[]);
      var t := s.(oindex := i + 1);
      NextIndexGood(s);
      if i in s.olog {
        HeldSlotOK(s, i);
      }
      PutSlot(t, i, x) by { GoodInv(s, t); }
      var u := t.(olog := t.olog[i := x]);
      GoodTwice(s, t, u);
      GoodSame(u, SendPrePrepare(s)) by { GoodInv(t, u); }
      GoodTwice(s, u, SendPrePrepare(s));
    }
  }

  lemma NextIndexGood(s: Node)
    requires LocalInv(s)
    ensures Good(s, s.(oindex := s.oindex + 1))
  {
    var t := s.(oindex := s.oindex + 1);
    hide Ids, OrderOK;
    SameOrderOK(s, t);
    assert InstsOK(t) && SlotsOK(t);
    hide InstsOK, SlotsOK;
    SummedSame(s, t);
    hide Summed;
    assert Ids(t.executed) == Ids(s.executed);
  }

  // ----- every step

  datatype Event =
    | Deliver(to: PeerID, from: PeerID, m: Msg)
    | Request(at: PeerID, cmd: Command)
    | SummaryTimer(at: PeerID)
    | PrePrepareTimer(at: PeerID)

  function Actor(ev: Event): PeerID {
    if ev.Deliver? then ev.to else ev.at
  }

  function Step(s: Node, ev: Event): Node {
    if s.halted then s
    else match ev
    case Deliver(_, from, m) => Receive(s, from, m)
    case Request(_, cmd) => OnRequest(s, cmd)
    case SummaryTimer(_) => SendSummary(s)
    case PrePrepareTimer(_) => SendPrePrepare(s)
  }

  lemma ReceiveGood(s: Node, from: PeerID, m: Msg)
    requires LocalInv(s) && !s.halted
    ensures Good(s, Receive(s, from, m))
  {
    hide LocalInv, Good, OnPORequest, OnPOAck, OnPrePrepare, OnPrepare, OnCommit;
    HaltGood(s);
    match m
    case PORequest(id, cmd, hash) => OnPORequestGood(s, from, id, cmd, hash);
    case POAck(id, cmd, hash) => OnPOAckGood(s, from, id, cmd, hash);
    case POSummary(row) => GoodSame(s, OnPOSummary(s, from, row));
    case Order(kind, view, i, matrix, d) =>
      match kind
      case PrePrepare => OnPrePrepareGood(s, from, i, matrix, d);
      case Prepare => OnPrepareGood(s, from, i, matrix, d);
      case Commit => OnCommitGood(s, from, i, matrix, d);
  }

  /** Whatever a replica receives, from whomever, its invariant stays and nothing is taken back. */
  lemma StepGood(s: Node, ev: Event)
    requires LocalInv(s)
    ensures Good(s, Step(s, ev))
  {
    hide LocalInv, Good, Receive, OnRequest, SendPrePrepare;
    HaltGood(s);
    if !s.halted {
      match ev
      case Deliver(_, from, m) => ReceiveGood(s, from, m);
      case Request(_, cmd) => OnRequestGood(s, cmd);
      case SummaryTimer(_) => GoodSame(s, SendSummary(s));
      case PrePrepareTimer(_) => SendPrePrepareGood(s);
    }
  }

  lemma InitialLocal(f: nat, id: PeerID, oview: nat)
    ensures LocalInv(Initial(f, id, oview))
  {
  }
}
