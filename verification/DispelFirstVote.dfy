/** The vote with which a Dispel replica enters the consensus on a broadcast: 1 if and only if the broadcast has
    finished, none before the epoch's threshold of finished broadcasts, and one for every peer from then on. */
module DispelFirstVote {
  import opened Quorums
  import Slots
  import SA = SlotAgreement
  import Bin = DispelBinary
  import Local = DispelLocal
  import Agr = DispelAgreement
  import opened DispelNode
  import opened DispelCounters
  import opened DispelRuns
  import opened DispelSystem

  // ----- one instance

  function Ones(c: Bin.Replica): set<int> {
    set x | x in c.facts && x.Proposed? && x.round == 1 :: x.value
  }

  /** Nothing goes on in round 0. */
  ghost predicate NoZero(c: Bin.Replica) {
    Bin.At(c, 0).binValues == {} && forall x :: x in c.facts && x.Passed? ==> x.round > 0
  }

  /** What every step keeps. */
  ghost predicate Up(c: Bin.Replica, d: Bin.Replica) {
    c.facts <= d.facts && (c.c.halt ==> d.c.halt) && Bin.At(c, 0).binValues <= Bin.At(d, 0).binValues
  }

  /** No first vote has been added, unless something goes on in round 0. */
  ghost predicate Tame(c: Bin.Replica, d: Bin.Replica) {
    Up(c, d) && (NoZero(d) ==> Ones(d) == Ones(c))
  }

  lemma UpTwice(c: Bin.Replica, d: Bin.Replica, e: Bin.Replica)
    requires Up(c, d) && Up(d, e)
    ensures Up(c, e)
  {
  }

  lemma TameTwice(c: Bin.Replica, d: Bin.Replica, e: Bin.Replica)
    requires Tame(c, d) && Tame(d, e)
    ensures Tame(c, e)
  {
    hide Ones;
    if NoZero(e) {
      assert NoZero(d);
    }
  }

  lemma SameTame(c: Bin.Replica, d: Bin.Replica)
    requires d.facts == c.facts && (c.c.halt ==> d.c.halt) && Bin.At(c, 0).binValues <= Bin.At(d, 0).binValues
    ensures Tame(c, d)
  {
  }

  lemma ProposeTame(c: Bin.Replica, r: nat, est: int)
    ensures Up(c, Bin.ProposeValue(c, r, est)) && (r != 1 ==> Tame(c, Bin.ProposeValue(c, r, est)))
  {
  }

  lemma ConcludeTame(c: Bin.Replica, r: nat)
    ensures var d := Bin.Conclude(c, r);
      && Tame(c, d) && (r == 0 ==> !NoZero(d))
  {
    hide Bin.EstOf;
    var d := Bin.Conclude(c, r);
    assert Bin.Passed(r, Bin.Union(Bin.At(c, r).auxEstimates), c.got) in d.facts;
    assert Ones(d) == Ones(c);
  }

  lemma ContinueTame(c: Bin.Replica, r: nat)
    ensures Up(c, Bin.Continue(c, r)) && (r != 0 ==> Tame(c, Bin.Continue(c, r)))
  {
    hide Bin.ProposeValue, Up, Tame;
    ProposeTame(c, r + 1, Bin.At(c, r).est);
    SameTame(c, c.(c := c.c.(restartOnBinValues := true)));
    SameTame(c, c.(c := c.c.(halt := true)));
    TameUp(c, c.(c := c.c.(restartOnBinValues := true)));
    TameUp(c, c.(c := c.c.(halt := true)));
  }

  lemma TameUp(c: Bin.Replica, d: Bin.Replica)
    ensures Tame(c, d) ==> Up(c, d)
  {
  }

  lemma AfterAuxTame(c: Bin.Replica, f: nat, r: nat)
    ensures Tame(c, Bin.AfterAux(c, f, r))
  {
    hide Bin.Conclude, Bin.Continue, Bin.Passes;
    SameTame(c, c);
    if Bin.Passes(Bin.At(c, r), f) {
      var d, e := Bin.Conclude(c, r), Bin.AfterAux(c, f, r);
      ConcludeTame(c, r);
      ContinueTame(d, r);
      if r == 0 {
        StillZero(d, e);
        UpTwice(c, d, e);
      } else {
        TameTwice(c, d, e);
      }
    }
  }

  lemma StillZero(c: Bin.Replica, d: Bin.Replica)
    requires Up(c, d) && !NoZero(c)
    ensures !NoZero(d)
  {
  }

  lemma BroadcastAuxTame(c: Bin.Replica, f: nat, r: nat)
    ensures Tame(c, Bin.BroadcastAux(c, f, r))
  {
    hide Bin.AfterAux, Tame;
    SameTame(c, c);
    var rs := Bin.At(c, r);
    if !rs.auxSent {
      var d := Bin.Put(c.(sent := c.sent + {Bin.Aux(r, rs.binValues)}), r, rs.(auxSent := true));
      SameTame(c, d);
      AfterAuxTame(d, f, r);
      TameTwice(c, d, Bin.AfterAux(d, f, r));
    }
  }

  lemma RestartTame(c: Bin.Replica, r: nat)
    ensures Tame(c, Bin.Restart(c, r))
  {
    var rs := Bin.At(c, r);
    var d := c.(c := c.c.(restartOnBinValues := false), facts := c.facts + {Bin.Restarted(r, rs.est)});
    hide Bin.ProposeValue;
    SameTame(c, c);
    assert Tame(c, d);
    if c.c.restartOnBinValues && {0, 1} <= rs.binValues {
      ProposeTame(d, r + 1, rs.est);
      if r == 0 {
        assert 0 in Bin.At(d, 0).binValues;
        StillZero(d, Bin.Restart(c, r));
        UpTwice(c, d, Bin.Restart(c, r));
      } else {
        TameTwice(c, d, Bin.Restart(c, r));
      }
    }
  }

  lemma OnEstimateTame(c: Bin.Replica, f: nat, from: PeerID, r: nat, v: int)
    ensures Tame(c, Bin.OnEstimate(c, f, from, r, v))
  {
    var d := Bin.Counted(c, f, from, r, v);
    assert Tame(c, d) by { SameTame(c, d); }
    hide Tame, Bin.Counted;
    if Bin.Count(Bin.At(c, r).bvbEstimates, v) + 1 == 2 * f + 1 {
      var a := Bin.Admit(d, r, v);
      SameTame(d, a);
      TameTwice(c, d, a);
      hide Bin.Admit;
      var rs := Bin.At(a, r);
      var t := Bin.Put(a, r, rs.(coordStepDone := true, timerSet := true));
      SameTame(a, a);
      SameTame(a, t);
      BroadcastAuxTame(t, f, r);
      hide Bin.BroadcastAux, Bin.Restart;
      TameTwice(a, t, Bin.BroadcastAux(t, f, r));
      TameTwice(c, a, Bin.CoordStep(a, f, r));
      RestartTame(Bin.CoordStep(a, f, r), r);
      TameTwice(c, Bin.CoordStep(a, f, r), Bin.OnEstimate(c, f, from, r, v));
    }
  }

  lemma ReceiveTame(c: Bin.Replica, f: nat, e: Bin.Envelope)
    ensures Tame(c, Bin.Receive(c, f, e))
  {
    hide Tame, Bin.AfterAux, Bin.OnEstimate;
    match e.msg
    case Estimate(r, v) => OnEstimateTame(c, f, e.from, r, v);
    case Aux(r, values) =>
      var rs := Bin.At(c, r);
      var d := Bin.Put(c.(got := c.got + {e}), r, rs.(auxEstimates := rs.auxEstimates + [values]));
      SameTame(c, d);
      AfterAuxTame(d, f, r);
      TameTwice(c, d, Bin.AfterAux(d, f, r));
  }

  lemma OnTimerTame(c: Bin.Replica, f: nat, r: nat)
    ensures Tame(c, Bin.OnTimer(c, f, r))
  {
    hide Tame, Bin.BroadcastAux;
    var d := Bin.Put(c, r, Bin.At(c, r).(timerExpired := true));
    SameTame(c, c);
    SameTame(c, d);
    BroadcastAuxTame(d, f, r);
    TameTwice(c, d, Bin.BroadcastAux(d, f, r));
  }

  /** The first vote on a broadcast, finished or not, as d carries it after c. */
  ghost predicate First(c: Bin.Replica, d: Bin.Replica, done: bool) {
    && Up(c, d)
    && if c.c.halt then d == c
       else if done then Ones(d) == Ones(c) + {1} && 1 in Bin.At(d, 1).binValues && Bin.At(d, 1).auxSent
       else Ones(d) == Ones(c) + {0} && 0 in Bin.At(d, 1).bvbSent && Bin.At(d, 1).binValues == Bin.At(c, 1).binValues
  }

  lemma ProposeValueFirst(c: Bin.Replica)
    ensures First(c, Bin.ProposeValue(c, 1, 0), false)
  {
  }

  lemma ProposeDoneFirst(c: Bin.Replica, f: nat)
    ensures First(c, Bin.ProposeDone(c, f, 1), true)
  {
    if !c.c.halt {
      var rs := Bin.At(c, 1);
      var t := Bin.Put(c.(facts := c.facts + {Bin.Proposed(1, 1)}), 1, rs.(est := 1, binValues := rs.binValues + {1}, coordStepDone := true));
      assert Up(c, t) && Ones(t) == Ones(c) + {1} && 1 in Bin.At(t, 1).binValues;
      AuxFirst(t, f);
      hide Bin.BroadcastAux, Ones, Bin.At, Bin.Put;
      UpTwice(c, t, Bin.BroadcastAux(t, f, 1));
    }
  }

  /** A step that leaves the first votes, and what round 1 has. */
  ghost predicate Still(c: Bin.Replica, d: Bin.Replica) {
    Up(c, d) && Ones(d) == Ones(c) && Bin.At(c, 1).binValues <= Bin.At(d, 1).binValues && (Bin.At(c, 1).auxSent ==> Bin.At(d, 1).auxSent)
  }

  lemma AuxFirst(c: Bin.Replica, f: nat)
    ensures Still(c, Bin.BroadcastAux(c, f, 1)) && Bin.At(Bin.BroadcastAux(c, f, 1), 1).auxSent
  {
    hide Bin.AfterAux;
    var rs := Bin.At(c, 1);
    if !rs.auxSent {
      var u := Bin.Put(c.(sent := c.sent + {Bin.Aux(1, rs.binValues)}), 1, rs.(auxSent := true));
      AfterAuxFirst(u, f);
    }
  }

  lemma AfterAuxFirst(c: Bin.Replica, f: nat)
    ensures Still(c, Bin.AfterAux(c, f, 1))
  {
    hide Bin.Conclude, Bin.Continue, Bin.Passes;
    ConcludeFirst(c);
    ContinueFirst(Bin.Conclude(c, 1));
    hide Ones;
  }

  lemma ConcludeFirst(c: Bin.Replica)
    ensures Still(c, Bin.Conclude(c, 1))
  {
    hide Bin.EstOf;
  }

  lemma ContinueFirst(c: Bin.Replica)
    ensures Still(c, Bin.Continue(c, 1))
  {
  }

  /** Under the facts of a reachable instance, nothing else gives a first vote. */
  lemma NothingInZero(inst: Agr.System, p: PeerID)
    requires Agr.SysInv(inst) && p in inst.nodes
    ensures NoZero(inst.nodes[p])
  {
    hide Agr.SysInv, Agr.NodeInv, Local.ProposalOK;
    var c := inst.nodes[p];
    Candidates(inst, p);
    forall v | v in Bin.At(c, 0).binValues ensures false {
      NotIntroduced(inst, v);
    }
    forall x | x in c.facts && x.Passed? ensures x.round > 0 {
      Agr.PassFacts(inst, p, x);
      if x.round == 0 {
        var w := Member(x.values);
        NotIntroduced(inst, w);
      }
    }
  }

  lemma Member(vs: set<int>) returns (w: int)
    requires vs != {}
    ensures w in vs
  {
    if forall v :: v !in vs {
      assert false;
    }
    w :| w in vs;
  }

  lemma Candidates(inst: Agr.System, p: PeerID)
    requires Agr.SysInv(inst) && p in inst.nodes
    ensures forall v :: v in Bin.At(inst.nodes[p], 0).binValues ==> Agr.Introduced(inst, 0, v)
  {
    assert Agr.NodeInv(inst, inst.nodes[p]);
  }

  lemma NotIntroduced(inst: Agr.System, v: int)
    requires Agr.SysInv(inst)
    ensures !Agr.Introduced(inst, 0, v)
  {
    hide Agr.SysInv;
    if Agr.Introduced(inst, 0, v) {
      var q :| q in inst.nodes && Bin.Proposed(0, v) in inst.nodes[q].facts;
      Agr.ProposalFacts(inst, q, 0, v);
    }
  }

  // ----- steps of a replica that leave the instances alone

  /** Who has finished what, and how much. */
  ghost predicate Fixed(s: Node, t: Node) {
    && t.id == s.id && t.f == s.f && t.threshold == s.threshold && (s.halted ==> t.halted)
    && (forall k :: Readied(t.log, k) <==> Readied(s.log, k))
    && (forall e: nat :: EpochAt(t, e).rbDone == EpochAt(s, e).rbDone)
  }

  ghost predicate Calm(s: Node, t: Node) {
    Fixed(s, t) && forall k :: ConsAt(t, k) == ConsAt(s, k)
  }

  lemma CalmSame(s: Node, t: Node)
    requires t.id == s.id && t.f == s.f && t.threshold == s.threshold && (s.halted ==> t.halted) && t.log == s.log && t.epochs == s.epochs
    ensures Calm(s, t)
  {
  }

  lemma CalmTwice(s: Node, t: Node, u: Node)
    requires Calm(s, t) && Calm(t, u)
    ensures Calm(s, u)
  {
    hide Readied, EpochAt, ConsAt;
  }

  lemma OnRequestCalm(s: Node, cmd: Command)
    requires NodeOK(s)
    ensures Calm(s, OnRequest(s, cmd))
  {
    var key, t := Key(s.nextEpoch, s.id), OnRequest(s, cmd);
    var r := OwnRb(SA.Lookup(s.log, key), s.id, cmd);
    hide OwnRb, Calm;
    if s.halted || r.None? {
      CalmSame(s, t);
    } else {
      OnRequestCounts(s, cmd);
      OwnUnread(SA.Lookup(s.log, key), s.id, cmd);
      hide NodeOK;
      PutCalm(s, t, key, r.value);
    }
  }

  lemma OwnUnread(was: Option<Rb>, self: PeerID, cmd: Command)
    ensures var x := OwnRb(was, self, cmd); x.Some? ==> x.value.status == Slots.PrePrepared
  {
  }

  lemma PutCalm(s: Node, t: Node, key: Key, x: Rb)
    requires !Readied(s.log, key) && x.status != Slots.Committed && !s.halted
    requires t.id == s.id && t.f == s.f && t.threshold == s.threshold
    requires t.log == s.log[key := x] && t.epochs == s.epochs[key.epoch := EpochAt(s, key.epoch)]
    ensures Calm(s, t)
  {
  }

  lemma HandOverCalm(s: Node)
    requires HasCommands(s, s.nextDeliver)
    ensures Calm(s, HandOver(s))
  {
  }

  lemma DeliverEpochCalm(s: Node)
    requires NodeOK(s) && !s.halted && Gate(s) && AllReadied(s, s.nextDeliver) && HasCommands(s, s.nextDeliver)
    ensures Calm(s, DeliverEpoch(s))
  {
    hide NodeOK, Onward, Calm, OnRequest, HandOver, AllReadied;
    var t, own := HandOver(s), Key(s.nextDeliver, s.id);
    var u := t.(reproposed := t.reproposed + {own});
    HandOverCalm(s);
    HandOverKeeps(s);
    CalmSame(t, t.(halted := true));
    CalmTwice(s, t, t.(halted := true));
    Reproposes(t, own);
    CalmSame(t, u);
    CalmTwice(s, t, u);
    if own in s.log && s.log[own].payload.Some? {
      OnRequestCalm(u, s.log[own].payload.value);
      CalmTwice(s, u, OnRequest(u, s.log[own].payload.value));
    }
  }

  lemma {:induction false} ExecCalm(s: Node)
    requires NodeOK(s)
    ensures Calm(s, Exec(s))
    decreases |Finished(s)|
  {
    hide NodeOK, Onward, Calm, DeliverEpoch, HasCommands, AllReadied, Gate;
    CalmSame(s, s);
    CalmSame(s, s.(halted := true));
    if !s.halted && Gate(s) && AllReadied(s, s.nextDeliver) && HasCommands(s, s.nextDeliver) {
      DeliverEpochCalm(s);
      DeliverEpochKeeps(s);
      var t := DeliverEpoch(s);
      if !t.halted {
        DeliverConsumes(s);
        ExecCalm(t);
        CalmTwice(s, t, Exec(t));
      }
    }
  }

  // ----- installing an instance

  ghost predicate SetTo(s: Node, t: Node, k: Key, c: Bin.Replica) {
    Fixed(s, t) && forall j :: ConsAt(t, j) == if j == k then c else ConsAt(s, j)
  }

  lemma PutConsSets(s: Node, k: Key, c: Bin.Replica)
    ensures SetTo(s, PutCons(s, k, c), k, c)
  {
    hide Readied;
  }

  lemma SetConsSets(s: Node, k: Key, c: Bin.Replica)
    requires NodeOK(s) && k.epoch in s.epochs && Sticks(ConsAt(s, k).c, c.c)
    ensures SetTo(s, SetCons(s, k, c), k, c)
  {
    hide NodeOK, Onward, PutCons, Exec, SetTo, Calm, Sticks;
    var t := PutCons(s, k, c);
    SetConsIs(s, k, c);
    PutConsSets(s, k, c);
    PutConsKeeps(s, k, c);
    ExecCalm(t);
    hide ConsAt, SetCons;
    SetThenCalm(s, t, Exec(t), k, c);
  }

  lemma SetConsIs(s: Node, k: Key, c: Bin.Replica)
    ensures SetCons(s, k, c) == PutCons(s, k, c) || SetCons(s, k, c) == Exec(PutCons(s, k, c))
  {
    hide Exec;
  }

  lemma SetThenCalm(s: Node, t: Node, u: Node, k: Key, c: Bin.Replica)
    requires SetTo(s, t, k, c) && Calm(t, u)
    ensures SetTo(s, u, k, c)
  {
    hide ConsAt, EpochAt, Readied;
  }

  // ----- the start of consensus

  /** Of the first n peers' instances in epoch e, each has got its first vote, unless the replica has failed. */
  ghost predicate Started(s: Node, t: Node, e: nat, n: nat) {
    && Fixed(s, t)
    && (forall k: Key :: k.epoch != e || k.peer >= n ==> ConsAt(t, k) == ConsAt(s, k))
    && forall k: Key :: k.epoch == e && k.peer < n ==>
         First(ConsAt(s, k), ConsAt(t, k), Readied(s.log, k)) || (t.halted && ConsAt(t, k) == ConsAt(s, k))
  }

  lemma ProposeOneStarts(s: Node, e: nat, id: PeerID)
    requires NodeOK(s) && e in s.epochs && !s.halted
    ensures var t, k := ProposeOne(s, e, id), Key(e, id);
      && Fixed(s, t) && (forall j :: j != k ==> ConsAt(t, j) == ConsAt(s, j)) && First(ConsAt(s, k), ConsAt(t, k), Readied(s.log, k))
  {
    var k := Key(e, id);
    var c := ConsAt(s, k);
    hide NodeOK, SetCons, Sticks, ConsAt, Fixed, First, Bin.ProposeValue, Bin.ProposeDone;
    ProposalSticks(c, s.f);
    ProposeValueFirst(c);
    ProposeDoneFirst(c, s.f);
    SetConsSets(s, k, Bin.ProposeDone(c, s.f, 1));
    SetConsSets(s, k, Bin.ProposeValue(c, 1, 0));
  }

  lemma {:induction false} ProposeAllStarts(s: Node, e: nat, n: nat)
    requires NodeOK(s) && e in s.epochs
    ensures Started(s, ProposeAll(s, e, n), e, n) || s.halted
  {
    hide NodeOK, Onward, ProposeOne, Readied, ConsAt, EpochAt, First;
    if n > 0 && !s.halted {
      ProposeAllStarts(s, e, n - 1);
      ProposeAllKeeps(s, e, n - 1);
      var t := ProposeAll(s, e, n - 1);
      if t.halted {
        assert ProposeOne(t, e, n - 1) == t by { HaltedProposes(t, e, n - 1); }
      } else {
        ProposeOneStarts(t, e, n - 1);
      }
    }
  }

  lemma HaltedProposes(s: Node, e: nat, id: PeerID)
    requires s.halted
    ensures ProposeOne(s, e, id) == s
  {
  }

  /** At the threshold every peer's instance that has not stopped gets its first vote: 1, as a candidate of round
      1 and in an Aux, if the broadcast has finished here, and the estimate 0 otherwise. */
  lemma TryStartVotes(s: Node, e: nat, id: PeerID)
    requires NodeOK(s) && e in s.epochs && !s.halted && EpochAt(s, e).rbDone == s.threshold && id < 3 * s.f + 1
    requires !TryStart(s, e).halted && !ConsAt(s, Key(e, id)).c.halt
    ensures var k := Key(e, id); var c, d := ConsAt(s, k), ConsAt(TryStart(s, e), k);
      && (k in s.log && s.log[k].status == Slots.Committed ==>
            Bin.Proposed(1, 1) in d.facts && 1 in Bin.At(d, 1).binValues && Bin.At(d, 1).auxSent)
      && (k !in s.log || s.log[k].status != Slots.Committed ==>
            Bin.Proposed(1, 0) in d.facts && 0 in Bin.At(d, 1).bvbSent && Bin.At(d, 1).binValues == Bin.At(c, 1).binValues
            && (Bin.Proposed(1, 1) in d.facts ==> Bin.Proposed(1, 1) in c.facts))
  {
    hide NodeOK, ProposeAll, ConsAt;
    ProposeAllStarts(s, e, 3 * s.f + 1);
    var k := Key(e, id);
    OnesAre(ConsAt(s, k));
    OnesAre(ConsAt(TryStart(s, e), k));
    hide Ones;
    assert First(ConsAt(s, k), ConsAt(TryStart(s, e), k), Readied(s.log, k));
  }

  lemma OnesAre(c: Bin.Replica)
    ensures forall v :: v in Ones(c) <==> Bin.Proposed(1, v) in c.facts
  {
  }

  /** After it, a broadcast that finishes is voted 1, or its instance is not there. */
  lemma RBDoneSets(s: Node, key: Key)
    requires NodeOK(s) && key.epoch in s.epochs
    ensures var t := RBDone(s, key);
      && Fixed(s, t) && (forall j :: j != key ==> ConsAt(t, j) == ConsAt(s, j))
      && (ConsAt(t, key) == ConsAt(s, key) || First(ConsAt(s, key), ConsAt(t, key), true))
      && (!t.halted && EpochAt(s, key.epoch).rbDone > s.threshold ==> First(ConsAt(s, key), ConsAt(t, key), true))
      && (EpochAt(s, key.epoch).rbDone <= s.threshold ==> t == s)
  {
    var c := ConsAt(s, key);
    CalmSame(s, s);
    CalmSame(s, s.(halted := true));
    hide NodeOK, SetCons, Sticks, ConsAt, Fixed, First, Bin.ProposeDone;
    ProposalSticks(c, s.f);
    ProposeDoneFirst(c, s.f);
    SetConsSets(s, key, Bin.ProposeDone(c, s.f, 1));
  }

  lemma RBDoneVotes(s: Node, key: Key)
    requires NodeOK(s) && key.epoch in s.epochs && !s.halted && EpochAt(s, key.epoch).rbDone > s.threshold
    requires !RBDone(s, key).halted && !ConsAt(s, key).c.halt
    ensures var d := ConsAt(RBDone(s, key), key);
      Bin.Proposed(1, 1) in d.facts && 1 in Bin.At(d, 1).binValues && Bin.At(d, 1).auxSent
  {
    hide NodeOK, RBDone, ConsAt;
    RBDoneSets(s, key);
    OnesAre(ConsAt(RBDone(s, key), key));
    hide Ones;
  }

  // ----- the first votes of a replica

  /** 1 only for a finished broadcast, and nothing before the threshold. */
  ghost predicate VotesOK(s: Node, k: Key) {
    var votes := Ones(ConsAt(s, k));
    && votes <= {0, 1} && (1 in votes ==> Readied(s.log, k))
    && (votes != {} ==> EpochAt(s, k.epoch).rbDone >= s.threshold)
  }

  /** From the threshold on every peer has a vote, and that for a finished broadcast is 1. */
  ghost predicate HasVote(s: Node, k: Key) {
    !s.halted && k.peer < 3 * s.f + 1 && !ConsAt(s, k).c.halt && EpochAt(s, k.epoch).rbDone >= s.threshold ==>
      && (s.threshold > 0 ==> Ones(ConsAt(s, k)) != {})
      && (Readied(s.log, k) ==> 1 in Ones(ConsAt(s, k)))
  }

  ghost predicate FirstVotes(s: Node) {
    forall k :: VotesOK(s, k) && HasVote(s, k)
  }

  lemma CalmVotes(s: Node, t: Node)
    requires FirstVotes(s) && Calm(s, t)
    ensures FirstVotes(t)
  {
    hide Ones, ConsAt, EpochAt, Readied;
    forall k ensures VotesOK(t, k) && HasVote(t, k) {
      assert VotesOK(s, k) && HasVote(s, k);
    }
  }

  /** A consensus message or a timer adds no first vote. */
  lemma TameVotes(s: Node, t: Node, k: Key, c: Bin.Replica)
    requires FirstVotes(s) && SetTo(s, t, k, c) && Tame(ConsAt(s, k), c) && NoZero(c)
    ensures FirstVotes(t)
  {
    hide Ones, ConsAt, EpochAt, Readied, NoZero;
    forall j ensures VotesOK(t, j) && HasVote(t, j) {
      assert VotesOK(s, j) && HasVote(s, j);
    }
  }

  /** A broadcast step is installed. */
  ghost predicate Installed(s: Node, t: Node, key: Key, committed: bool) {
    && t.id == s.id && t.f == s.f && t.threshold == s.threshold && t.halted == s.halted
    && (forall k :: k != key ==> (Readied(t.log, k) <==> Readied(s.log, k)))
    && (if committed then Readied(t.log, key) && !Readied(s.log, key) else Readied(t.log, key) <==> Readied(s.log, key))
    && (forall e: nat :: EpochAt(t, e).rbDone == EpochAt(s, e).rbDone + if committed && e == key.epoch then 1 else 0)
    && forall k :: ConsAt(t, k) == ConsAt(s, k)
  }

  lemma InstallIs(s: Node, key: Key, r: Slots.Outcome<Command>)
    requires RbStep(SA.Lookup(s.log, key), r, s.id, s.f)
    ensures Installed(s, Install(s, key, r), key, r.committed)
  {
    hide RbOK, RbMsgs;
  }

  /** What is left to do after a broadcast has finished. */
  ghost predicate Pending(s: Node, key: Key) {
    && (forall k :: VotesOK(s, k)) && Readied(s.log, key)
    && forall k: Key :: k != key && (k.epoch != key.epoch || EpochAt(s, k.epoch).rbDone != s.threshold) ==> HasVote(s, k)
  }

  lemma InstalledPending(s: Node, t: Node, key: Key)
    requires FirstVotes(s) && Installed(s, t, key, true)
    ensures Pending(t, key)
  {
    hide Ones, ConsAt, EpochAt, Readied;
    forall k ensures VotesOK(t, k) && (k != key && (k.epoch != key.epoch || EpochAt(t, k.epoch).rbDone != t.threshold) ==> HasVote(t, k)) {
      assert VotesOK(s, k) && HasVote(s, k);
    }
  }

  lemma InstalledVotes(s: Node, t: Node, key: Key)
    requires FirstVotes(s) && Installed(s, t, key, false)
    ensures FirstVotes(t)
  {
    hide Ones, ConsAt, EpochAt, Readied;
    forall k ensures VotesOK(t, k) && HasVote(t, k) {
      assert VotesOK(s, k) && HasVote(s, k);
    }
  }

  lemma TryStartPending(s: Node, key: Key)
    requires NodeOK(s) && Pending(s, key) && key.epoch in s.epochs
    ensures var t := TryStart(s, key.epoch);
      && Pending(t, key) && EpochAt(t, key.epoch).rbDone == EpochAt(s, key.epoch).rbDone && t.threshold == s.threshold
      && (EpochAt(s, key.epoch).rbDone <= s.threshold ==> FirstVotes(t))
  {
    hide NodeOK, ProposeAll, Ones, ConsAt, EpochAt, Readied;
    var t := TryStart(s, key.epoch);
    if !s.halted && EpochAt(s, key.epoch).rbDone == s.threshold {
      ProposeAllStarts(s, key.epoch, 3 * s.f + 1);
      forall k ensures VotesOK(t, k) && HasVote(t, k) {
        assert VotesOK(s, k);
      }
    }
  }

  lemma RBDonePending(s: Node, key: Key)
    requires NodeOK(s) && Pending(s, key) && key.epoch in s.epochs
    requires EpochAt(s, key.epoch).rbDone <= s.threshold ==> FirstVotes(s)
    ensures FirstVotes(RBDone(s, key))
  {
    hide NodeOK, RBDone, Ones, ConsAt, EpochAt, Readied;
    var t := RBDone(s, key);
    RBDoneSets(s, key);
    if EpochAt(s, key.epoch).rbDone > s.threshold {
      forall k ensures VotesOK(t, k) && HasVote(t, k) {
        assert VotesOK(s, k);
      }
    }
  }

  lemma FinishVotes(s: Node, key: Key, r: Slots.Outcome<Command>)
    requires NodeOK(s) && FirstVotes(s) && (r.Next? ==> RbStep(SA.Lookup(s.log, key), r, s.id, s.f))
    ensures FirstVotes(Finish(s, key, r))
  {
    hide NodeOK, FirstVotes, Onward, RbStep, Install, TryStart, RBDone, Exec, AfterReady, Installed, Pending, Calm, EpochAt;
    if r.Halt? {
      CalmSame(s, s.(halted := true));
      CalmVotes(s, s.(halted := true));
    } else {
      var t := Install(s, key, r);
      InstallIs(s, key, r);
      if r.committed {
        InstallKeeps(s, key, r);
        InstalledPending(s, t, key);
        ReadyVotes(t, key);
      } else {
        InstalledVotes(s, t, key);
      }
    }
  }

  lemma TryStartKeeps(s: Node, e: nat)
    requires NodeOK(s) && e in s.epochs
    ensures NodeOK(TryStart(s, e)) && e in TryStart(s, e).epochs
  {
    hide NodeOK, Onward, ProposeAll;
    ProposeAllKeeps(s, e, 3 * s.f + 1);
  }

  lemma ReadyVotes(s: Node, key: Key)
    requires NodeOK(s) && Pending(s, key) && key.epoch in s.epochs
    ensures FirstVotes(AfterReady(Exec(RBDone(TryStart(s, key.epoch), key)), key))
  {
    hide NodeOK, FirstVotes, TryStart, RBDone, Exec, AfterReady, Pending, Calm, EpochAt, Onward;
    var u := TryStart(s, key.epoch);
    TryStartPending(s, key);
    TryStartKeeps(s, key.epoch);
    RBDonePending(u, key);
    RBDoneKeeps(u, key);
    var v := RBDone(u, key);
    ExecCalm(v);
    ExecKeeps(v);
    CalmVotes(v, Exec(v));
    AfterReadyCalm(Exec(v), key);
    CalmVotes(Exec(v), AfterReady(Exec(v), key));
  }

  lemma AfterReadyCalm(s: Node, key: Key)
    requires NodeOK(s)
    ensures Calm(s, AfterReady(s, key))
  {
    hide NodeOK, Calm, OnRequest, ConsAt;
    CalmSame(s, s);
    CalmSame(s, s.(halted := true));
    if key in s.log && s.log[key].payload.Some? {
      OnRequestCalm(s, s.log[key].payload.value);
    }
  }

  lemma OnRbVotes(s: Node, from: PeerID, m: RbMsg)
    requires NodeOK(s) && FirstVotes(s) && from in Peers(s.f) && from != s.id
    ensures FirstVotes(OnRb(s, from, m))
  {
    var was := SA.Lookup(s.log, m.key);
    assert (was.Some? ==> RbOK(was.value, s.id, s.f)) && s.id in Peers(s.f);
    hide NodeOK, FirstVotes, Calm, RbOK, RbStep, Finish, Slots.PrePrepareSlot, Slots.PrepareSlot, Slots.CommitSlot;
    CalmSame(s, s.(halted := true));
    CalmVotes(s, s.(halted := true));
    match m.kind
    case Send =>
      if m.payload.Some? {
        var r := Slots.PrePrepareSlot(was, SameCommand, s.id, s.f, from, 0, m.payload, Slots.Of(m.payload.value));
        if r.Next? {
          SendStep(was, s.id, s.f, from, m.payload.value);
        }
        FinishVotes(s, m.key, r);
      }
    case Echo =>
      var r := Slots.PrepareSlot(was, s.id, s.f, from, 0, m.payload, m.digest);
      if r.Next? {
        EchoStep(was, s.id, s.f, from, m.payload, m.digest);
      }
      FinishVotes(s, m.key, r);
    case Ready =>
      var r := Slots.CommitSlot(was, s.f, from, 0, m.payload, m.digest);
      if r.Next? {
        ReadyStep(was, s.id, s.f, from, m.payload, m.digest);
      }
      FinishVotes(s, m.key, r);
  }

  // ----- runs

  ghost predicate SysVotes(sys: System) {
    forall p :: p in sys.nodes ==> FirstVotes(sys.nodes[p])
  }

  /** Instances in reachable states have no round 0. */
  lemma ReachedNoZero(sys: System, p: PeerID, k: Key)
    requires SysInv(sys) && p in sys.nodes
    ensures NoZero(ConsAt(sys.nodes[p], k))
  {
    hide RbInv, NodeOK, NoZero, Agr.SysInv, ConsAt;
    var inst := Inst(sys, k);
    assert Agr.SysInv(inst) && inst.nodes[p] == ConsAt(sys.nodes[p], k);
    NothingInZero(inst, p);
  }

  lemma ActorNodeOK(sys: System, ev: Event)
    requires SysInv(sys) && Enabled(sys, ev)
    ensures var s := sys.nodes[Actor(ev)]; NodeOK(s) && s.id == Actor(ev) && s.f == sys.f
    ensures ev.Broadcast? ==> ev.from in Peers(sys.f) && ev.from != ev.to
  {
    hide NodeOK, ConsInv, RbInv;
  }

  lemma ConsVotes(s: Node, t: Node, k: Key, c: Bin.Replica)
    requires NodeOK(s) && FirstVotes(s) && k.epoch in s.epochs && Sticks(ConsAt(s, k).c, c.c) && Tame(ConsAt(s, k), c)
    requires t == SetCons(s, k, c) && NoZero(ConsAt(t, k))
    ensures FirstVotes(t)
  {
    hide NodeOK, FirstVotes, SetCons, Sticks, Tame, NoZero, ConsAt, Fixed;
    SetConsSets(s, k, c);
    assert ConsAt(t, k) == c;
    TameVotes(s, t, k, c);
  }

  lemma StepVotes(sys: System, ev: Event)
    requires SysInv(sys) && SysVotes(sys) && Enabled(sys, ev)
    ensures SysVotes(After(sys, ev))
  {
    hide SysInv, NodeOK, FirstVotes, OnRb, OnRequest, SetCons, Sticks, Tame, NoZero, ConsAt, Sendable, Calm, Bin.Receive, Bin.OnTimer, Agr.Enabled;
    var s, t := sys.nodes[Actor(ev)], After(sys, ev).nodes[Actor(ev)];
    ActorNodeOK(sys, ev);
    StepKeeps(sys, ev);
    CalmSame(s, s.(halted := true));
    CalmVotes(s, s.(halted := true));
    match ev
    case Request(_, cmd) =>
      OnRequestCalm(s, cmd);
      CalmVotes(s, t);
    case Broadcast(_, from, m) => OnRbVotes(s, from, m);
    case Consensus(_, from, k, c) =>
      var e := Bin.Envelope(from, c);
      ReceiveSticks(ConsAt(s, k), s.f, e);
      ReceiveTame(ConsAt(s, k), s.f, e);
      ReachedNoZero(After(sys, ev), Actor(ev), k);
      if !s.halted && k.epoch in s.epochs {
        ConsVotes(s, t, k, Bin.Receive(ConsAt(s, k), s.f, e));
      }
    case Timer(_, k, r) =>
      TimerSticks(ConsAt(s, k), s.f, r);
      OnTimerTame(ConsAt(s, k), s.f, r);
      ReachedNoZero(After(sys, ev), Actor(ev), k);
      if !s.halted && k.epoch in s.epochs && k.peer in s.epochs[k.epoch].cons {
        ConsVotes(s, t, k, Bin.OnTimer(ConsAt(s, k), s.f, r));
      }
  }

  lemma {:induction false} RunVotes(sys: System, evs: seq<Event>)
    requires SysInv(sys) && SysVotes(sys) && ValidRun(sys, evs)
    ensures SysVotes(RunEnds(sys, evs))
    decreases |evs|
  {
    hide SysInv, SysVotes, Enabled;
    if evs != [] {
      StepKeeps(sys, evs[0]);
      StepVotes(sys, evs[0]);
      RunVotes(After(sys, evs[0]), evs[1..]);
    }
  }

  lemma StartVotes(sys: System)
    requires Start(sys)
    ensures SysVotes(sys)
  {
  }

  /** In every run: a replica has voted 1 first on an instance only if the broadcast has finished here, and has
      voted at all only once the threshold of broadcasts has finished. */
  lemma VotesOneForFinished(sys: System, p: PeerID, k: Key, v: int)
    requires Reached(sys) && p in sys.nodes && Bin.Proposed(1, v) in ConsAt(sys.nodes[p], k).facts
    ensures var s := sys.nodes[p];
      && (v == 0 || v == 1) && EpochAt(s, k.epoch).rbDone >= s.threshold
      && (v == 1 ==> k in s.log && s.log[k].status == Slots.Committed)
  {
    ReachedFirstVotes(sys, p);
    hide Reached, HasVote;
    assert VotesOK(sys.nodes[p], k);
    OnesAre(ConsAt(sys.nodes[p], k));
  }

  /** And from the threshold on it has voted on every peer's instance that has not stopped, with 1 if the
      broadcast has finished. */
  lemma FinishedHaveVote(sys: System, p: PeerID, k: Key)
    requires Reached(sys) && p in sys.nodes && !sys.nodes[p].halted && k.peer in Peers(sys.f)
    requires var s := sys.nodes[p]; EpochAt(s, k.epoch).rbDone >= s.threshold && !ConsAt(s, k).c.halt
    ensures var s := sys.nodes[p]; var d := ConsAt(s, k);
      && (s.threshold > 0 ==> Bin.Proposed(1, 0) in d.facts || Bin.Proposed(1, 1) in d.facts)
      && (k in s.log && s.log[k].status == Slots.Committed ==> Bin.Proposed(1, 1) in d.facts)
  {
    ReachedFirstVotes(sys, p);
    hide Reached;
    assert VotesOK(sys.nodes[p], k) && HasVote(sys.nodes[p], k);
    OnesAre(ConsAt(sys.nodes[p], k));
    hide Ones;
  }

  lemma ReachedFirstVotes(sys: System, p: PeerID)
    requires Reached(sys) && p in sys.nodes
    ensures FirstVotes(sys.nodes[p]) && sys.nodes[p].f == sys.f
  {
    hide SysInv, Start, ValidRun, RunEnds, FirstVotes;
    var start, evs :| Start(start) && ValidRun(start, evs) && RunEnds(start, evs) == sys;
    StartInv(start);
    StartVotes(start);
    RunVotes(start, evs);
    RunKeeps(start, evs);
    NodeOf(sys, p);
  }

  lemma NodeOf(sys: System, p: PeerID)
    requires SysInv(sys) && p in sys.nodes
    ensures sys.nodes[p].f == sys.f
  {
    hide NodeOK, ConsInv, RbInv;
  }
}
