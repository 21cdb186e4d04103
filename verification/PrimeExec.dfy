/** exec of protocols/prime: an ordering slot executes, origin by origin, what its matrix's frontiers newly cover. */
module PrimeExec {
  import opened Quorums
  import opened PrimeFrontier
  import opened PrimeNode

  // ----- the simple specification

  function Max(a: nat, b: nat): nat {
    if a < b then b else a
  }

  /** The next index of origin r once the slots 1 .. n-1 have been executed. */
  function NextAfter(olog: map<nat, Slot>, f: nat, peers: nat, n: nat, r: nat): nat {
    if n <= 1 then (if r < peers then 1 else 0)
    else
      var before := NextAfter(olog, f, peers, n - 1, r);
      if n - 1 in olog && Usable(olog[n - 1], f) && r < Rows(olog[n - 1])
      then Max(before, Target(olog[n - 1], f, r) + 1) else before
  }

  /** Indices a .. b-1 of origin r. */
  function Range(r: nat, a: nat, b: nat): seq<Id> {
    if a >= b then [] else Range(r, a, b - 1) + [Id(r, b - 1)]
  }

  /** What slot n adds for its first k origins. */
  function SlotIds(olog: map<nat, Slot>, f: nat, peers: nat, n: nat, k: nat): seq<Id> {
    if k == 0 then []
    else SlotIds(olog, f, peers, n, k - 1) + Range(k - 1, NextAfter(olog, f, peers, n, k - 1), NextAfter(olog, f, peers, n + 1, k - 1))
  }

  function Due(olog: map<nat, Slot>, f: nat, peers: nat, n: nat): seq<Id> {
    if n <= 1 then []
    else Due(olog, f, peers, n - 1) + if n - 1 in olog then SlotIds(olog, f, peers, n - 1, Rows(olog[n - 1])) else []
  }

  function Ids(outs: seq<Output>): seq<Id> {
    seq(|outs|, i requires 0 <= i < |outs| => outs[i].id)
  }

  /** No instance at or above its origin's cursor has been executed. */
  ghost predicate Fresh(s: Node) {
    forall id :: id in s.log && s.log[id].status == Executed ==> id.index < Next(s, id.replica)
  }

  /** What is acknowledged and not executed has its command. */
  ghost predicate Supplied(s: Node) {
    forall id :: id in s.log && Rank(s.log[id].status) >= 2 && s.log[id].status != Executed ==> s.log[id].cmd.Some?
  }

  /** The replica has executed exactly what the slots it has passed make due, in that order. */
  ghost predicate OrderOK(s: Node, peers: nat) {
    && Fresh(s) && Supplied(s) && s.oexecIdx >= 1
    && Ids(s.executed) == Due(s.olog, s.f, peers, s.oexecIdx)
    && (forall r: nat :: Next(s, r) == NextAfter(s.olog, s.f, peers, s.oexecIdx, r))
    && (forall n :: 1 <= n < s.oexecIdx ==> n in s.olog && Usable(s.olog[n], s.f))
  }

  /** Acknowledged instances may have been executed; nothing else has changed. */
  ghost predicate OnlyExecuted(log: map<Id, Inst>, after: map<Id, Inst>) {
    && log.Keys == after.Keys
    && forall id :: id in log ==>
         after[id] == log[id] || (Rank(log[id].status) >= 2 && after[id] == log[id].(status := Executed, cmd := None))
  }

  // ----- exec refines the specification

  /** Two logs with the same matrices before slot n. */
  ghost predicate SameMatrices(a: map<nat, Slot>, b: map<nat, Slot>, n: nat) {
    forall i: nat :: 1 <= i < n ==> (i in a <==> i in b) && (i in a ==> a[i].matrix == b[i].matrix)
  }

  lemma {:induction false} NextFrame(a: map<nat, Slot>, b: map<nat, Slot>, f: nat, peers: nat, n: nat, r: nat)
    requires SameMatrices(a, b, n)
    ensures NextAfter(a, f, peers, n, r) == NextAfter(b, f, peers, n, r)
    decreases n
  {
    if n > 1 {
      NextFrame(a, b, f, peers, n - 1, r);
    }
  }

  lemma {:induction false} SlotFrame(a: map<nat, Slot>, b: map<nat, Slot>, f: nat, peers: nat, n: nat, k: nat)
    requires SameMatrices(a, b, n + 1)
    ensures SlotIds(a, f, peers, n, k) == SlotIds(b, f, peers, n, k)
    decreases k
  {
    hide NextAfter, Range;
    if k > 0 {
      SlotFrame(a, b, f, peers, n, k - 1);
      NextFrame(a, b, f, peers, n, k - 1);
      NextFrame(a, b, f, peers, n + 1, k - 1);
    }
  }

  lemma {:induction false} DueFrame(a: map<nat, Slot>, b: map<nat, Slot>, f: nat, peers: nat, n: nat)
    requires SameMatrices(a, b, n)
    ensures Due(a, f, peers, n) == Due(b, f, peers, n)
    decreases n
  {
    hide SlotIds;
    if n > 1 {
      DueFrame(a, b, f, peers, n - 1);
      SlotFrame(a, b, f, peers, n - 1, if n - 1 in a then Rows(a[n - 1]) else 0);
    }
  }

  lemma {:induction false} RangeSplit(r: nat, a: nat, b: nat)
    requires a < b
    ensures Range(r, a, b) == [Id(r, a)] + Range(r, a + 1, b)
    decreases b
  {
    if a + 1 < b {
      RangeSplit(r, a, b - 1);
    }
  }

  /** The instances of origin r from a to b are acknowledged. */
  ghost predicate Here(log: map<Id, Inst>, r: nat, a: nat, b: nat) {
    forall i :: a <= i <= b ==> Id(r, i) in log && Rank(log[Id(r, i)].status) >= 2
  }

  /** One instance: it is executed, not skipped, and its command is there. */
  lemma ExecuteNextOK(s: Node, r: nat)
    requires Fresh(s) && Supplied(s) && !s.halted && Here(s.log, r, Next(s, r), Next(s, r))
    ensures var t := ExecuteNext(s, r);
      && Fresh(t) && Supplied(t) && !t.halted && OnlyExecuted(s.log, t.log)
      && Ids(t.executed) == Ids(s.executed) + [Id(r, Next(s, r))] && Next(t, r) == Next(s, r) + 1
      && forall q: nat :: q != r ==> Next(t, q) == Next(s, q)
  {
  }

  lemma HereStays(log: map<Id, Inst>, after: map<Id, Inst>, r: nat, a: nat, b: nat, c: nat)
    requires Here(log, r, a, b) && OnlyExecuted(log, after) && a <= c
    ensures Here(after, r, c, b)
  {
  }

  lemma OnlyExecutedSame(log: map<Id, Inst>)
    ensures OnlyExecuted(log, log)
  {
  }

  lemma OnlyExecutedTwice(a: map<Id, Inst>, b: map<Id, Inst>, c: map<Id, Inst>)
    requires OnlyExecuted(a, b) && OnlyExecuted(b, c)
    ensures OnlyExecuted(a, c)
  {
  }

  /** One origin: the indices from its cursor up to the frontier, and the cursor just above. */
  lemma {:induction false} RunOriginOK(s: Node, r: nat, last: nat)
    requires Fresh(s) && Supplied(s) && !s.halted && Here(s.log, r, Next(s, r), last)
    ensures var t := RunOrigin(s, r, last);
      && Fresh(t) && Supplied(t) && !t.halted && OnlyExecuted(s.log, t.log)
      && Ids(t.executed) == Ids(s.executed) + Range(r, Next(s, r), last + 1) && Next(t, r) == Max(Next(s, r), last + 1)
      && forall q: nat :: q != r ==> Next(t, q) == Next(s, q)
    decreases last + 1 - Next(s, r)
  {
    hide Fresh, Supplied, ExecuteNext, Next, Ids, OnlyExecuted;
    if Next(s, r) <= last {
      ExecuteNextOK(s, r);
      var t := ExecuteNext(s, r);
      HereStays(s.log, t.log, r, Next(s, r), last, Next(t, r));
      RunOriginOK(t, r, last);
      OnlyExecutedTwice(s.log, t.log, RunOrigin(s, r, last).log);
      RangeSplit(r, Next(s, r), last + 1);
    } else {
      OnlyExecutedSame(s.log);
    }
  }

  /** t has run the first k origins of s's next slot. */
  ghost predicate OriginsRun(s: Node, t: Node, peers: nat, k: nat) {
    Fresh(t) && Supplied(t) && !t.halted && OnlyExecuted(s.log, t.log) && ExecutedTo(s, t, peers, k) && CursorsAt(s, t, peers, k)
  }

  ghost predicate ExecutedTo(s: Node, t: Node, peers: nat, k: nat) {
    Ids(t.executed) == Ids(s.executed) + SlotIds(s.olog, s.f, peers, s.oexecIdx, k)
  }

  ghost predicate CursorsAt(s: Node, t: Node, peers: nat, k: nat) {
    && (forall q: nat :: q < k ==> Next(t, q) == NextAfter(s.olog, s.f, peers, s.oexecIdx + 1, q))
    && (forall q: nat :: q >= k ==> Next(t, q) == NextAfter(s.olog, s.f, peers, s.oexecIdx, q))
  }

  /** s may run its next slot. */
  ghost predicate ReadyToRun(s: Node, peers: nat) {
    OrderOK(s, peers) && !s.halted && CanPass(s) && Usable(s.olog[s.oexecIdx], s.f) && Available(s, s.olog[s.oexecIdx])
  }

  /** All origins of the next slot. */
  lemma {:induction false} RunOriginsOK(s: Node, peers: nat, k: nat)
    requires ReadyToRun(s, peers) && k <= Rows(s.olog[s.oexecIdx])
    ensures OriginsRun(s, RunOrigins(s, s.olog[s.oexecIdx], k), peers, k)
    decreases k
  {
    var slot := s.olog[s.oexecIdx];
    hide RunOrigin, RunOrigins, Usable, OrderOK, Target, OriginsRun, Available;
    if k > 0 {
      RunOriginsOK(s, peers, k - 1);
      OriginsUnfold(s, slot, k);
      OriginStep(s, RunOrigins(s, slot, k - 1), RunOrigins(s, slot, k), peers, k);
    } else {
      NoOrigins(s, peers);
    }
  }

  lemma NoOrigins(s: Node, peers: nat)
    requires ReadyToRun(s, peers)
    ensures OriginsRun(s, RunOrigins(s, s.olog[s.oexecIdx], 0), peers, 0)
  {
    hide NextAfter, Available, Usable;
    OnlyExecutedSame(s.log);
  }

  lemma OriginStep(s: Node, t: Node, u: Node, peers: nat, k: nat)
    requires ReadyToRun(s, peers) && 0 < k <= Rows(s.olog[s.oexecIdx])
    requires OriginsRun(s, t, peers, k - 1) && u == RunOrigin(t, k - 1, Target(s.olog[s.oexecIdx], s.f, k - 1))
    ensures OriginsRun(s, u, peers, k)
  {
    var n, last := s.oexecIdx, Target(s.olog[s.oexecIdx], s.f, k - 1);
    var before, after := NextAfter(s.olog, s.f, peers, n, k - 1), NextAfter(s.olog, s.f, peers, n + 1, k - 1);
    hide RunOrigin, NextAfter, Usable, Target, Fresh, Supplied, Next, ExecutedTo, OnlyExecuted, Ids, Range, SlotIds, Due, Max, Rows, Here;
    NextUnfold(s.olog, s.f, peers, n, k - 1);
    assert Next(t, k - 1) == before == Next(s, k - 1);
    AllHere(s, k - 1);
    HereStays(s.log, t.log, k - 1, before, last, before);
    RunOriginOK(t, k - 1, last);
    OnlyExecutedTwice(s.log, t.log, u.log);
    hide CursorsAt, Available;
    CursorsMove(s, t, u, peers, k);
    SlotUnfold(s.olog, s.f, peers, n, k);
    RangeTo(k - 1, before, last + 1);
    ExecutedMoves(s, t, u, peers, k, Range(k - 1, before, after));
  }

  lemma AllHere(s: Node, r: nat)
    requires CanPass(s) && Usable(s.olog[s.oexecIdx], s.f) && Available(s, s.olog[s.oexecIdx]) && r < Rows(s.olog[s.oexecIdx])
    ensures Here(s.log, r, Next(s, r), Target(s.olog[s.oexecIdx], s.f, r))
  {
  }

  lemma ExecutedMoves(s: Node, t: Node, u: Node, peers: nat, k: nat, more: seq<Id>)
    requires k > 0 && ExecutedTo(s, t, peers, k - 1) && Ids(u.executed) == Ids(t.executed) + more
    requires SlotIds(s.olog, s.f, peers, s.oexecIdx, k) == SlotIds(s.olog, s.f, peers, s.oexecIdx, k - 1) + more
    ensures ExecutedTo(s, u, peers, k)
  {
  }

  lemma CursorsMove(s: Node, t: Node, u: Node, peers: nat, k: nat)
    requires k > 0 && CursorsAt(s, t, peers, k - 1) && Next(u, k - 1) == NextAfter(s.olog, s.f, peers, s.oexecIdx + 1, k - 1)
    requires forall q: nat :: q != k - 1 ==> Next(u, q) == Next(t, q)
    ensures CursorsAt(s, u, peers, k)
  {
  }

  lemma OriginsUnfold(s: Node, slot: Slot, k: nat)
    requires Usable(slot, s.f) && 0 < k <= Rows(slot)
    ensures RunOrigins(s, slot, k) == RunOrigin(RunOrigins(s, slot, k - 1), k - 1, Target(slot, s.f, k - 1))
  {
  }

  lemma NextUnfold(olog: map<nat, Slot>, f: nat, peers: nat, n: nat, r: nat)
    requires n >= 1 && n in olog && Usable(olog[n], f) && r < Rows(olog[n])
    ensures NextAfter(olog, f, peers, n + 1, r) == Max(NextAfter(olog, f, peers, n, r), Target(olog[n], f, r) + 1)
  {
  }

  lemma SlotUnfold(olog: map<nat, Slot>, f: nat, peers: nat, n: nat, k: nat)
    requires k > 0
    ensures SlotIds(olog, f, peers, n, k) == SlotIds(olog, f, peers, n, k - 1)
      + Range(k - 1, NextAfter(olog, f, peers, n, k - 1), NextAfter(olog, f, peers, n + 1, k - 1))
  {
  }

  lemma RangeTo(r: nat, a: nat, b: nat)
    ensures Range(r, a, Max(a, b)) == Range(r, a, b)
  {
  }

  lemma SameUpTo(olog: map<nat, Slot>, n: nat)
    requires n in olog
    ensures SameMatrices(olog, olog[n := olog[n].(status := OExecuted)], n + 1)
  {
  }

  // ----- the commands

  /** What exec adds to executed are commands that the log held, each under its instance's id, and those
      instances are marked. */
  ghost predicate Drawn(s: Node, t: Node) {
    && OnlyExecuted(s.log, t.log) && s.executed <= t.executed
    && forall k :: |s.executed| <= k < |t.executed| ==> Draws(s.log, t.log, t.executed[k])
  }

  predicate Draws(log: map<Id, Inst>, after: map<Id, Inst>, o: Output) {
    && o.id in log && log[o.id].status != Executed && log[o.id].cmd == Some(o.cmd)
    && o.id in after && after[o.id].status == Executed
  }

  lemma DrawnSame(s: Node, t: Node)
    requires t.log == s.log && t.executed == s.executed
    ensures Drawn(s, t)
  {
    OnlyExecutedSame(s.log);
  }

  lemma DrawnTwice(s: Node, t: Node, u: Node)
    requires Drawn(s, t) && Drawn(t, u)
    ensures Drawn(s, u)
  {
    OnlyExecutedTwice(s.log, t.log, u.log);
    forall k | |s.executed| <= k < |u.executed| ensures Draws(s.log, u.log, u.executed[k]) {
      if k < |t.executed| {
        assert u.executed[k] == t.executed[k] && Draws(s.log, t.log, t.executed[k]);
      } else {
        assert Draws(t.log, u.log, u.executed[k]);
      }
    }
  }

  lemma ExecuteNextDraws(s: Node, r: nat)
    requires Here(s.log, r, Next(s, r), Next(s, r))
    ensures var t := ExecuteNext(s, r); Drawn(s, t) && forall q: nat :: q != r ==> Next(t, q) == Next(s, q)
    ensures !ExecuteNext(s, r).halted ==> Next(ExecuteNext(s, r), r) == Next(s, r) + 1
  {
  }

  lemma {:induction false} RunOriginDraws(s: Node, r: nat, last: nat)
    requires Here(s.log, r, Next(s, r), last)
    ensures var t := RunOrigin(s, r, last); Drawn(s, t) && forall q: nat :: q != r ==> Next(t, q) == Next(s, q)
    decreases last + 1 - Next(s, r)
  {
    hide ExecuteNext, Next, Drawn;
    DrawnSame(s, s);
    if !s.halted && Next(s, r) <= last {
      ExecuteNextDraws(s, r);
      var t := ExecuteNext(s, r);
      if !t.halted {
        DrawnKnows(s, t);
        HereStays(s.log, t.log, r, Next(s, r), last, Next(t, r));
        RunOriginDraws(t, r, last);
        DrawnTwice(s, t, RunOrigin(t, r, last));
      }
    }
  }

  lemma DrawnKnows(s: Node, t: Node)
    requires Drawn(s, t)
    ensures OnlyExecuted(s.log, t.log) && s.executed <= t.executed
  {
  }

  lemma {:induction false} RunOriginsDraw(s: Node, slot: Slot, n: nat)
    requires Usable(slot, s.f) && Available(s, slot) && n <= Rows(slot)
    ensures var t := RunOrigins(s, slot, n); Drawn(s, t) && forall q: nat :: q >= n ==> Next(t, q) == Next(s, q)
    decreases n
  {
    hide RunOrigin, Usable, Target, Next, Drawn;
    DrawnSame(s, s);
    if n > 0 {
      RunOriginsDraw(s, slot, n - 1);
      var t := RunOrigins(s, slot, n - 1);
      DrawnKnows(s, t);
      assert Here(s.log, n - 1, Next(s, n - 1), Target(slot, s.f, n - 1));
      HereStays(s.log, t.log, n - 1, Next(s, n - 1), Target(slot, s.f, n - 1), Next(t, n - 1));
      RunOriginDraws(t, n - 1, Target(slot, s.f, n - 1));
      DrawnTwice(s, t, RunOrigins(s, slot, n));
    }
  }

  lemma RunSlotDraws(s: Node)
    requires s.oexecIdx in s.olog && Usable(s.olog[s.oexecIdx], s.f) && Available(s, s.olog[s.oexecIdx])
    ensures Drawn(s, RunSlot(s))
  {
    hide RunOrigins, Usable, Available;
    RunOriginsDraw(s, s.olog[s.oexecIdx], Rows(s.olog[s.oexecIdx]));
  }

  /** Whatever the state, exec executes the commands that the log holds. */
  lemma {:induction false} ExecDraws(s: Node)
    ensures Drawn(s, Exec(s))
    decreases |CommittedSlots(s.olog)|
  {
    hide Usable, Available, RunSlot, Drawn;
    DrawnSame(s, s);
    DrawnSame(s, Halt(s));
    if !s.halted && CanPass(s) && Usable(s.olog[s.oexecIdx], s.f) && Available(s, s.olog[s.oexecIdx]) {
      RunSlotDraws(s);
      var t := RunSlot(s);
      if !t.halted {
        SlotConsumed(s);
        ExecDraws(t);
        DrawnTwice(s, t, Exec(t));
      }
    }
  }

  /** A slot is executed as a whole: all that its frontiers newly cover, each instance with the command
      that the log held for it.  No command is missing on the way. */
  lemma RunSlotOK(s: Node, peers: nat)
    requires ReadyToRun(s, peers)
    ensures var t := RunSlot(s);
      && OrderOK(t, peers) && !t.halted && Drawn(s, t)
      && t == s.(log := t.log, execIdx := t.execIdx, executed := t.executed, oexecIdx := s.oexecIdx + 1,
                 olog := s.olog[s.oexecIdx := s.olog[s.oexecIdx].(status := OExecuted)])
      && Ids(t.executed) == Ids(s.executed) + SlotIds(s.olog, s.f, peers, s.oexecIdx, Rows(s.olog[s.oexecIdx]))
  {
    var slot := s.olog[s.oexecIdx];
    var t := RunOrigins(s, slot, Rows(slot));
    hide Drawn;
    RunSlotDraws(s);
    RunOriginsOK(s, peers, Rows(slot));
    RunOriginsFrame(s, slot, Rows(slot));
    assert RunSlot(s) == t.(olog := s.olog[s.oexecIdx := slot.(status := OExecuted)], oexecIdx := s.oexecIdx + 1);
    hide RunOrigins, RunSlot, Usable, Due, SlotIds, NextAfter, Available;
    SlotDone(s, t, RunSlot(s), peers);
  }

  lemma SlotDone(s: Node, t: Node, u: Node, peers: nat)
    requires OrderOK(s, peers) && s.oexecIdx in s.olog && Usable(s.olog[s.oexecIdx], s.f)
    requires OriginsRun(s, t, peers, Rows(s.olog[s.oexecIdx])) && t.f == s.f
    requires u == t.(olog := s.olog[s.oexecIdx := s.olog[s.oexecIdx].(status := OExecuted)], oexecIdx := s.oexecIdx + 1)
    ensures OrderOK(u, peers)
    ensures Ids(u.executed) == Ids(s.executed) + SlotIds(s.olog, s.f, peers, s.oexecIdx, Rows(s.olog[s.oexecIdx]))
  {
    hide Due, SlotIds, NextAfter, Usable;
    var n := s.oexecIdx;
    SameUpTo(s.olog, n);
    DueUnfold(s.olog, s.f, peers, n + 1);
    DueFrame(s.olog, u.olog, s.f, peers, n + 1);
    forall i | 1 <= i < u.oexecIdx ensures i in u.olog && Usable(u.olog[i], u.f) {
      SameUsable(s.olog[i], u.olog[i], s.f);
    }
    hide Ids;
    assert Fresh(u) && Supplied(u);
    forall r: nat ensures Next(u, r) == NextAfter(u.olog, s.f, peers, n + 1, r) {
      NextFrame(s.olog, u.olog, s.f, peers, n + 1, r);
      NextRises(s.olog, s.f, peers, n + 1, r);
      assert Next(u, r) == Next(t, r);
    }
  }

  lemma SameUsable(a: Slot, b: Slot, f: nat)
    requires a.matrix == b.matrix
    ensures Usable(a, f) == Usable(b, f)
  {
  }

  /** What exec changes: instances and committed slots may be executed. */
  ghost predicate ExecChanges(s: Node, t: Node) {
    && t == s.(log := t.log, execIdx := t.execIdx, olog := t.olog, oexecIdx := t.oexecIdx, executed := t.executed, halted := t.halted)
    && OnlyExecuted(s.log, t.log) && s.olog.Keys == t.olog.Keys && s.oexecIdx <= t.oexecIdx
    && Ids(s.executed) <= Ids(t.executed)
    && (forall i :: i in s.olog ==> t.olog[i] == s.olog[i] || (s.olog[i].status == OCommitted && t.olog[i] == s.olog[i].(status := OExecuted)))
    && (forall i :: s.oexecIdx <= i < t.oexecIdx ==> i in t.olog && t.olog[i].status == OExecuted)
    && Passes(s, t)
  }

  /** The cursors have only passed acknowledged instances. */
  ghost predicate Passes(s: Node, t: Node) {
    forall r: nat, i: nat :: Next(s, r) <= i < Next(t, r) ==> Id(r, i) in s.log && Rank(s.log[Id(r, i)].status) >= 2
  }

  lemma PassesTwice(s: Node, t: Node, u: Node)
    requires Passes(s, t) && Passes(t, u) && OnlyExecuted(s.log, t.log)
    ensures Passes(s, u)
  {
    forall r: nat, i: nat | Next(s, r) <= i < Next(u, r) ensures Id(r, i) in s.log && Rank(s.log[Id(r, i)].status) >= 2 {
      if i >= Next(t, r) {
        assert Id(r, i) in t.log;
      }
    }
  }

  lemma SlotPasses(s: Node, t: Node, peers: nat, r: nat, i: nat)
    requires ReadyToRun(s, peers) && OrderOK(t, peers) && t.f == s.f && t.oexecIdx == s.oexecIdx + 1
    requires t.olog == s.olog[s.oexecIdx := s.olog[s.oexecIdx].(status := OExecuted)]
    requires Next(s, r) <= i < Next(t, r)
    ensures Id(r, i) in s.log && Rank(s.log[Id(r, i)].status) >= 2
  {
    var n := s.oexecIdx;
    hide OrderOK, NextAfter, SameMatrices, Usable, Target, Available, Next, Rows;
    CursorIs(s, peers, r);
    CursorIs(t, peers, r);
    SameUpTo(s.olog, n);
    NextFrame(s.olog, t.olog, s.f, peers, n + 1, r);
    if r < Rows(s.olog[n]) {
      AllHere(s, r);
      NextUnfold(s.olog, s.f, peers, n, r);
    } else {
      NextRises(s.olog, s.f, peers, n + 1, r);
    }
  }

  lemma CursorIs(s: Node, peers: nat, r: nat)
    requires OrderOK(s, peers)
    ensures Next(s, r) == NextAfter(s.olog, s.f, peers, s.oexecIdx, r) && s.oexecIdx >= 1
  {
  }

  lemma SlotChanges(s: Node, peers: nat)
    requires ReadyToRun(s, peers)
    ensures ExecChanges(s, RunSlot(s))
  {
    hide RunSlot, OrderOK, Available, Usable, SlotIds, OnlyExecuted, Ids, Passes;
    RunSlotOK(s, peers);
    DrawnKnows(s, RunSlot(s));
    AllPasses(s, RunSlot(s), peers);
  }

  lemma AllPasses(s: Node, t: Node, peers: nat)
    requires ReadyToRun(s, peers) && OrderOK(t, peers) && t.f == s.f && t.oexecIdx == s.oexecIdx + 1
    requires t.olog == s.olog[s.oexecIdx := s.olog[s.oexecIdx].(status := OExecuted)]
    ensures Passes(s, t)
  {
    hide ReadyToRun, OrderOK, Next;
    forall r: nat, i: nat | Next(s, r) <= i < Next(t, r) ensures Id(r, i) in s.log && Rank(s.log[Id(r, i)].status) >= 2 {
      SlotPasses(s, t, peers, r, i);
    }
  }

  lemma ExecChangesTwice(s: Node, t: Node, u: Node)
    requires ExecChanges(s, t) && ExecChanges(t, u)
    ensures ExecChanges(s, u)
  {
    hide Ids, Passes, OnlyExecuted;
    OnlyExecutedTwice(s.log, t.log, u.log);
    PassesTwice(s, t, u);
  }

  lemma ExecStays(s: Node)
    ensures ExecChanges(s, s) && ExecChanges(s, Halt(s))
  {
    OnlyExecutedSame(s.log);
    hide OnlyExecuted;
    assert Ids(Halt(s).executed) == Ids(s.executed);
  }

  lemma OrderHalts(s: Node, peers: nat)
    requires OrderOK(s, peers)
    ensures OrderOK(Halt(s), peers)
  {
    assert Ids(Halt(s).executed) == Ids(s.executed);
  }

  /** exec keeps the specification, also where it fails, and stops only at a slot that is not committed, that
      it cannot index into, or that needs an instance that is not pre-ordered here. */
  lemma {:induction false} ExecOK(s: Node, peers: nat)
    requires OrderOK(s, peers) && !s.halted
    ensures var t := Exec(s);
      && OrderOK(t, peers) && ExecChanges(s, t) && Drawn(s, t)
      && (t.halted <==> CanPass(t) && !Usable(t.olog[t.oexecIdx], t.f))
      && (!t.halted && CanPass(t) ==> !Available(t, t.olog[t.oexecIdx]))
    decreases |CommittedSlots(s.olog)|
  {
    hide Usable, Available, RunSlot, OrderOK, ExecChanges, SlotIds, OnlyExecuted, Drawn;
    ExecDraws(s);
    if CanPass(s) && Usable(s.olog[s.oexecIdx], s.f) && Available(s, s.olog[s.oexecIdx]) {
      RunSlotOK(s, peers);
      SlotChanges(s, peers);
      SlotConsumed(s);
      var t := RunSlot(s);
      ExecOK(t, peers);
      ExecChangesTwice(s, t, Exec(s));
    } else {
      ExecStays(s);
      OrderHalts(s, peers);
    }
  }

  /** The rest of the replica may fill in its logs between two calls, as long as it marks nothing executed that
      is not, stores no acknowledged instance without a command and leaves the slots passed as they are. */
  lemma OthersKeep(s: Node, t: Node, peers: nat)
    requires OrderOK(s, peers) && t.f == s.f && t.execIdx == s.execIdx && t.oexecIdx == s.oexecIdx && t.executed == s.executed
    requires forall id :: id in t.log && t.log[id].status == Executed ==> id in s.log && s.log[id].status == Executed
    requires Supplied(t)
    requires SameMatrices(s.olog, t.olog, s.oexecIdx)
    ensures OrderOK(t, peers)
  {
    DueFrame(s.olog, t.olog, s.f, peers, s.oexecIdx);
    forall r: nat ensures NextAfter(t.olog, s.f, peers, s.oexecIdx, r) == NextAfter(s.olog, s.f, peers, s.oexecIdx, r) {
      NextFrame(s.olog, t.olog, s.f, peers, s.oexecIdx, r);
    }
  }

  // ----- what the specification says

  /** The executed ids of one origin. */
  function Of(ids: seq<Id>, r: nat): seq<Id> {
    if ids == [] then [] else Of(ids[..|ids| - 1], r) + if ids[|ids| - 1].replica == r then [ids[|ids| - 1]] else []
  }

  lemma {:induction false} OfConcat(a: seq<Id>, b: seq<Id>, r: nat)
    ensures Of(a + b, r) == Of(a, r) + Of(b, r)
    decreases |b|
  {
    if b == [] {
      assert a + b == a;
    } else {
      OfConcat(a, b[..|b| - 1], r);
      assert (a + b)[..|a + b| - 1] == a + b[..|b| - 1];
    }
  }

  lemma {:induction false} OfRange(r: nat, a: nat, b: nat, q: nat)
    ensures Of(Range(r, a, b), q) == if q == r then Range(r, a, b) else []
    decreases b
  {
    if a < b {
      OfRange(r, a, b - 1, q);
      OfConcat(Range(r, a, b - 1), [Id(r, b - 1)], q);
      assert Of([Id(r, b - 1)], q) == if q == r then [Id(r, b - 1)] else [] by {
        assert [Id(r, b - 1)][..0] == [];
      }
    }
  }

  lemma {:induction false} RangeJoin(r: nat, a: nat, b: nat, c: nat)
    requires a <= b <= c
    ensures Range(r, a, b) + Range(r, b, c) == Range(r, a, c)
    decreases c
  {
    if b < c {
      RangeJoin(r, a, b, c - 1);
    }
  }

  lemma SlotEmpty(olog: map<nat, Slot>, f: nat, peers: nat, n: nat, q: nat)
    ensures SlotIds(olog, f, peers, n, 0) == [] && Of([], q) == []
  {
  }

  /** What a slot adds for origin q: the indices from its old cursor to its new one. */
  lemma {:induction false} OfSlot(olog: map<nat, Slot>, f: nat, peers: nat, n: nat, k: nat, q: nat)
    ensures Of(SlotIds(olog, f, peers, n, k), q) ==
      if q < k then Range(q, NextAfter(olog, f, peers, n, q), NextAfter(olog, f, peers, n + 1, q)) else []
    decreases k
  {
    hide NextAfter, Range, Of, SlotIds;
    SlotEmpty(olog, f, peers, n, q);
    if k > 0 {
      SlotUnfold(olog, f, peers, n, k);
      OfSlot(olog, f, peers, n, k - 1, q);
      var more := Range(k - 1, NextAfter(olog, f, peers, n, k - 1), NextAfter(olog, f, peers, n + 1, k - 1));
      OfConcat(SlotIds(olog, f, peers, n, k - 1), more, q);
      OfRange(k - 1, NextAfter(olog, f, peers, n, k - 1), NextAfter(olog, f, peers, n + 1, k - 1), q);
    }
  }

  /** Each origin's requests are executed contiguously, from its first one, once each and in order. */
  lemma {:induction false} DueContiguous(olog: map<nat, Slot>, f: nat, peers: nat, n: nat, r: nat)
    requires n >= 1 && forall i :: 1 <= i < n ==> i in olog && Usable(olog[i], f)
    ensures var first := if r < peers then 1 else 0;
      NextAfter(olog, f, peers, n, r) >= first && Of(Due(olog, f, peers, n), r) == Range(r, first, NextAfter(olog, f, peers, n, r))
    decreases n
  {
    hide Usable, Target, SlotIds, Due, NextAfter, Range, Of;
    if n > 1 {
      DueContiguous(olog, f, peers, n - 1, r);
      DueStep(olog, f, peers, n, r, if r < peers then 1 else 0);
    } else {
      DueStart(olog, f, peers, r);
    }
  }

  lemma DueStart(olog: map<nat, Slot>, f: nat, peers: nat, r: nat)
    ensures NextAfter(olog, f, peers, 1, r) == if r < peers then 1 else 0
    ensures Of(Due(olog, f, peers, 1), r) == [] && forall a: nat :: Range(r, a, a) == []
  {
  }

  lemma DueStep(olog: map<nat, Slot>, f: nat, peers: nat, n: nat, r: nat, first: nat)
    requires n > 1 && n - 1 in olog
    requires NextAfter(olog, f, peers, n - 1, r) >= first
    requires Of(Due(olog, f, peers, n - 1), r) == Range(r, first, NextAfter(olog, f, peers, n - 1, r))
    ensures NextAfter(olog, f, peers, n, r) >= first && Of(Due(olog, f, peers, n), r) == Range(r, first, NextAfter(olog, f, peers, n, r))
  {
    var a, b, rows := NextAfter(olog, f, peers, n - 1, r), NextAfter(olog, f, peers, n, r), Rows(olog[n - 1]);
    hide Usable, Target, SlotIds, Due, NextAfter, Range, Of;
    DueUnfold(olog, f, peers, n);
    NextRises(olog, f, peers, n, r);
    OfConcat(Due(olog, f, peers, n - 1), SlotIds(olog, f, peers, n - 1, rows), r);
    OfSlot(olog, f, peers, n - 1, rows, r);
    RangeJoin(r, first, a, b);
    RangeEmpty(r, a, b);
  }

  lemma RangeEmpty(r: nat, a: nat, b: nat)
    ensures a == b ==> Range(r, a, b) == []
  {
  }

  lemma DueUnfold(olog: map<nat, Slot>, f: nat, peers: nat, n: nat)
    requires n > 1 && n - 1 in olog
    ensures Due(olog, f, peers, n) == Due(olog, f, peers, n - 1) + SlotIds(olog, f, peers, n - 1, Rows(olog[n - 1]))
  {
  }

  /** A cursor never falls, and stays where the slot's matrix has no row for the origin. */
  lemma NextRises(olog: map<nat, Slot>, f: nat, peers: nat, n: nat, r: nat)
    requires n > 1 && n - 1 in olog
    ensures NextAfter(olog, f, peers, n - 1, r) <= NextAfter(olog, f, peers, n, r)
    ensures r >= Rows(olog[n - 1]) ==> NextAfter(olog, f, peers, n - 1, r) == NextAfter(olog, f, peers, n, r)
  {
  }

  /** So it is for every replica. */
  lemma Contiguous(s: Node, peers: nat, r: nat)
    requires OrderOK(s, peers)
    ensures Of(Ids(s.executed), r) == Range(r, if r < peers then 1 else 0, Next(s, r))
  {
    DueContiguous(s.olog, s.f, peers, s.oexecIdx, r);
  }

  /** A slot is applied entirely or not at all. */
  lemma AllOrNothing(s: Node, peers: nat)
    requires OrderOK(s, peers) && !s.halted && CanPass(s) && Usable(s.olog[s.oexecIdx], s.f)
    ensures !Available(s, s.olog[s.oexecIdx]) ==> Exec(s) == s
    ensures Available(s, s.olog[s.oexecIdx]) ==>
      Ids(s.executed) + SlotIds(s.olog, s.f, peers, s.oexecIdx, Rows(s.olog[s.oexecIdx])) <= Ids(Exec(s).executed)
  {
    if Available(s, s.olog[s.oexecIdx]) {
      RunSlotOK(s, peers);
      SlotConsumed(s);
      hide Usable, Available, SlotIds, OrderOK, RunSlot;
      ExecOK(RunSlot(s), peers);
    }
  }

  lemma {:induction false} DuePrefix(olog: map<nat, Slot>, f: nat, peers: nat, m: nat, n: nat)
    requires 1 <= m <= n
    ensures Due(olog, f, peers, m) <= Due(olog, f, peers, n)
    decreases n
  {
    if m < n {
      DuePrefix(olog, f, peers, m, n - 1);
    }
  }

  /** Two replicas that agree on the matrices of the slots both have passed have executed the same instances in
      the same order, as far as the slower one has come. */
  lemma SameOrder(s: Node, t: Node, peers: nat)
    requires OrderOK(s, peers) && OrderOK(t, peers) && s.f == t.f
    requires s.oexecIdx <= t.oexecIdx && SameMatrices(s.olog, t.olog, s.oexecIdx)
    ensures Ids(s.executed) <= Ids(t.executed)
  {
    DueFrame(s.olog, t.olog, s.f, peers, s.oexecIdx);
    DuePrefix(t.olog, s.f, peers, s.oexecIdx, t.oexecIdx);
  }
}
