/** What one correct replica knows of its own DBFT instance, whatever it receives. */
module DispelLocal {
  import opened Quorums
  import opened DispelBinary

  /** The senders of an estimate. */
  function EstSenders(got: set<Envelope>, r: nat, v: int): set<PeerID> {
    set e | e in got && e.msg == Estimate(r, v) :: e.from
  }

  function AuxSenders(got: set<Envelope>, r: nat): set<PeerID> {
    set e | e in got && e.msg.Aux? && e.msg.round == r :: e.from
  }

  /** A value that a correct replica may support: proposed by itself, or sent by n replicas. */
  ghost predicate Justified(s: Replica, r: nat, v: int, n: nat) {
    Proposed(r, v) in s.facts || |EstSenders(s.got, r, v)| >= n
  }

  /** The replica has counted an estimate of its own. */
  ghost predicate Voted(s: Replica, r: nat, v: int) {
    Proposed(r, v) in s.facts && v in At(s, r).bvbSent
  }

  ghost predicate EstimatesOK(s: Replica, f: nat, r: nat) {
    var rs := At(s, r);
    && (forall v :: Count(rs.bvbEstimates, v) <= |EstSenders(s.got, r, v)| + (if Voted(s, r, v) then 1 else 0))
    && (forall v :: v in rs.bvbSent || v in rs.binValues ==> Justified(s, r, v, f + 1))
    && (forall v :: Estimate(r, v) in s.sent ==> v in rs.bvbSent)
  }

  ghost predicate AuxOK(s: Replica, r: nat) {
    var rs := At(s, r);
    && |rs.auxEstimates| == |AuxSenders(s.got, r)|
    && (forall e :: e in s.got && e.msg.Aux? && e.msg.round == r ==> e.msg.values <= Union(rs.auxEstimates))
    && (!rs.auxSent ==> forall vs :: Aux(r, vs) !in s.sent)
    && (forall vs :: Aux(r, vs) in s.sent ==> vs != {})
    && (forall vs, ws :: Aux(r, vs) in s.sent && Aux(r, ws) in s.sent ==> vs == ws)
  }

  /** A recorded pass: 2f+1 senders, whose Aux sets it contains, and only candidates of the round. */
  ghost predicate PassOK(s: Replica, f: nat, p: Fact) {
    p.Passed? ==>
      && p.got <= s.got && |AuxSenders(p.got, p.round)| > 2 * f && p.values <= At(s, p.round).binValues
      && (forall e :: e in p.got && e.msg.Aux? && e.msg.round == p.round ==> e.msg.values <= p.values)
  }

  ghost predicate HasPassed(s: Replica, r: nat, v: int) {
    exists vs, got :: Passed(r, vs, got) in s.facts && EstOf(r, vs) == v
  }

  /** Restarts have only proposed values that some pass of their round has left. */
  ghost predicate Sound(s: Replica) {
    forall r, v :: Restarted(r, v) in s.facts ==> HasPassed(s, r, v)
  }

  /** A decision was reached in a pass that saw nothing else. */
  ghost predicate DecisionOK(s: Replica) {
    && (s.c.decided ==> s.c.decidedValue == s.c.decidedRound % 2
                        && exists got :: Passed(s.c.decidedRound, {s.c.decidedValue}, got) in s.facts)
    && (s.c.restartOnBinValues ==> s.c.decided)
  }

  /** The values an estimate can have: the default, a proposal, the result of a pass. */
  ghost predicate Known(s: Replica, r: nat, v: int) {
    v == 0 || Proposed(r, v) in s.facts || HasPassed(s, r, v)
  }

  /** A proposal is the epoch's, or it follows from the round before. */
  ghost predicate ProposalOK(s: Replica, r: nat, v: int) {
    && r >= 1
    && ((r == 1 && (v == 0 || v == 1)) || HasPassed(s, r - 1, v) || (Known(s, r - 1, v) && Restarted(r - 1, v) in s.facts))
  }

  ghost predicate RoundsOK(s: Replica, f: nat) {
    forall r: nat :: EstimatesOK(s, f, r) && AuxOK(s, r) && Known(s, r, At(s, r).est)
  }

  ghost predicate FactsOK(s: Replica, f: nat) {
    && (forall x :: x in s.facts ==> PassOK(s, f, x))
    && (forall r, v :: Proposed(r, v) in s.facts ==> ProposalOK(s, r, v))
  }

  ghost predicate Local(s: Replica, f: nat) {
    RoundsOK(s, f) && FactsOK(s, f) && DecisionOK(s)
  }

  // ----- growth

  /** What no handler ever takes back. */
  ghost predicate Grows(s: Replica, t: Replica) {
    && s.got <= t.got && s.sent <= t.sent && s.facts <= t.facts
    && forall r: nat :: At(s, r).binValues <= At(t, r).binValues && At(s, r).bvbSent <= At(t, r).bvbSent
  }

  lemma SendersGrow(a: set<Envelope>, b: set<Envelope>, r: nat, v: int)
    requires a <= b
    ensures EstSenders(a, r, v) <= EstSenders(b, r, v) && |EstSenders(a, r, v)| <= |EstSenders(b, r, v)|
  {
    SubsetSize(EstSenders(a, r, v), EstSenders(b, r, v));
  }

  lemma FactsGrow(s: Replica, t: Replica, f: nat)
    requires Grows(s, t) && FactsOK(s, f)
    ensures forall x :: x in s.facts ==> PassOK(t, f, x)
    ensures forall r, v :: Proposed(r, v) in s.facts ==> ProposalOK(t, r, v)
  {
  }

  ghost predicate RoundOK(s: Replica, f: nat, r: nat) {
    EstimatesOK(s, f, r) && AuxOK(s, r) && Known(s, r, At(s, r).est)
  }

  /** The Aux half of a round depends on the Aux messages only. */
  lemma AuxFrame(s: Replica, t: Replica, k: nat)
    requires AuxOK(s, k) && At(t, k).auxEstimates == At(s, k).auxEstimates && At(t, k).auxSent == At(s, k).auxSent
    requires forall vs :: Aux(k, vs) in t.sent ==> Aux(k, vs) in s.sent
    requires s.got <= t.got && forall e :: e in t.got && e.msg.Aux? && e.msg.round == k ==> e in s.got
    ensures AuxOK(t, k)
  {
    assert AuxSenders(t.got, k) == AuxSenders(s.got, k);
  }

  lemma EstimatesFrame(s: Replica, t: Replica, f: nat, k: nat)
    requires EstimatesOK(s, f, k) && At(t, k).bvbEstimates == At(s, k).bvbEstimates && At(t, k).bvbSent == At(s, k).bvbSent
    requires forall v :: v in At(t, k).binValues ==> v in At(s, k).binValues || Justified(t, k, v, f + 1)
    requires forall v :: Estimate(k, v) in t.sent ==> Estimate(k, v) in s.sent
    requires s.facts <= t.facts && s.got <= t.got
    ensures EstimatesOK(t, f, k)
  {
    forall v ensures Count(At(t, k).bvbEstimates, v) <= |EstSenders(t.got, k, v)| + (if Voted(t, k, v) then 1 else 0) {
      SendersGrow(s.got, t.got, k, v);
      assert Voted(s, k, v) ==> Voted(t, k, v);
    }
    forall v | v in At(t, k).bvbSent || v in At(t, k).binValues ensures Justified(t, k, v, f + 1) {
      SendersGrow(s.got, t.got, k, v);
      assert v in At(s, k).bvbSent || v in At(s, k).binValues ==> Justified(s, k, v, f + 1);
    }
  }

  /** A step that leaves round k and what was sent and received for it alone keeps round k. */
  lemma RoundFrame(s: Replica, t: Replica, f: nat, k: nat)
    requires RoundOK(s, f, k) && Grows(s, t) && At(t, k) == At(s, k)
    requires forall m :: m in t.sent && m.round == k ==> m in s.sent
    requires forall e :: e in t.got && e.msg.round == k ==> e in s.got
    ensures RoundOK(t, f, k)
  {
    hide AuxOK, EstimatesOK;
    AuxFrame(s, t, k);
    EstimatesFrame(s, t, f, k);
    KnownGrows(s, t, k, At(s, k).est);
    assert AuxOK(t, k);
    assert EstimatesOK(t, f, k);
    assert Known(t, k, At(t, k).est);
  }

  lemma KnownGrows(s: Replica, t: Replica, r: nat, v: int)
    requires Grows(s, t) && Known(s, r, v)
    ensures Known(t, r, v)
  {
  }

  /** A step in round r only, that adds at most one fact. */
  lemma StepKeeps(s: Replica, t: Replica, f: nat, r: nat, x: Fact)
    requires Local(s, f) && Grows(s, t) && RoundOK(t, f, r) && t.facts <= s.facts + {x}
    requires forall k: nat :: k != r ==> At(t, k) == At(s, k)
    requires forall m :: m in t.sent && m.round != r ==> m in s.sent
    requires forall e :: e in t.got && e.msg.round != r ==> e in s.got
    requires x in t.facts ==> PassOK(t, f, x) && (x.Proposed? ==> ProposalOK(t, x.round, x.value))
    ensures RoundsOK(t, f) && FactsOK(t, f)
  {
    FactsGrow(s, t, f);
    hide RoundOK, PassOK, ProposalOK, Grows;
    forall k: nat ensures RoundOK(t, f, k) {
      if k != r {
        RoundOf(s, f, k);
        RoundFrame(s, t, f, k);
      }
    }
    RoundsOf(t, f);
  }

  lemma DecisionFrame(s: Replica, t: Replica)
    requires DecisionOK(s) && s.facts <= t.facts && t.c.restartOnBinValues == s.c.restartOnBinValues
    requires t.c.decided == s.c.decided && t.c.decidedValue == s.c.decidedValue && t.c.decidedRound == s.c.decidedRound
    ensures DecisionOK(t)
  {
  }

  // ----- the handlers

  lemma ProposeValueKeeps(s: Replica, f: nat, r: nat, est: int)
    requires Local(s, f) && ProposalOK(s, r, est)
    ensures Local(ProposeValue(s, r, est), f) && Grows(s, ProposeValue(s, r, est))
  {
    if !s.c.halt {
      var t := ProposeValue(s, r, est);
      assert RoundOK(s, f, r);
      ProposeRound(s, f, r, est);
      hide ProposeValue, RoundsOK, FactsOK;
      FactsGrow(s, t, f);
      ProposalGrows(s, t, r, est);
      hide RoundOK, ProposalOK, Grows, PassOK;
      StepKeeps(s, t, f, r, Proposed(r, est));
      DecisionFrame(s, t);
    }
  }

  lemma ProposeRound(s: Replica, f: nat, r: nat, est: int)
    requires RoundOK(s, f, r) && !s.c.halt
    ensures var t := ProposeValue(s, r, est);
      && Grows(s, t) && RoundOK(t, f, r) && t.facts == s.facts + {Proposed(r, est)} && t.got == s.got
      && (forall k: nat :: k != r ==> At(t, k) == At(s, k))
      && (forall m :: m in t.sent && m.round != r ==> m in s.sent)
      && t.c == s.c.(rs := t.c.rs)
  {
    var t := ProposeValue(s, r, est);
    hide AuxOK, EstimatesOK;
    assert EstimatesOK(s, f, r) && AuxOK(s, r);
    ProposeEstimates(s, t, f, r, est);
    ProposeFrame(s, r, est);
    hide ProposeValue;
    AuxFrame(s, t, r);
  }

  lemma ProposeFrame(s: Replica, r: nat, est: int)
    requires !s.c.halt
    ensures var t := ProposeValue(s, r, est);
      && Grows(s, t) && Known(t, r, At(t, r).est) && t.facts == s.facts + {Proposed(r, est)} && t.got == s.got
      && (forall k: nat :: k != r ==> At(t, k) == At(s, k))
      && (forall m :: m in t.sent ==> m in s.sent || m == Estimate(r, est))
      && t.c == s.c.(rs := t.c.rs) && At(t, r).auxEstimates == At(s, r).auxEstimates && At(t, r).auxSent == At(s, r).auxSent
  {
  }

  lemma ProposeEstimates(s: Replica, t: Replica, f: nat, r: nat, est: int)
    requires EstimatesOK(s, f, r) && !s.c.halt && t == ProposeValue(s, r, est)
    ensures EstimatesOK(t, f, r)
  {
  }

  lemma ProposalGrows(s: Replica, t: Replica, r: nat, v: int)
    requires Grows(s, t) && ProposalOK(s, r, v)
    ensures ProposalOK(t, r, v)
  {
  }

  lemma GrowsTransitive(s: Replica, t: Replica, u: Replica)
    requires Grows(s, t) && Grows(t, u)
    ensures Grows(s, u)
  {
  }

  /** Concluding a round whose guards pass: the pass is recorded, and a decision is one that saw a single value. */
  lemma ConcludeKeeps(s: Replica, f: nat, r: nat)
    requires Local(s, f) && Passes(At(s, r), f)
    ensures var t := Conclude(s, r);
      Local(t, f) && Grows(s, t) && HasPassed(t, r, At(t, r).est) && t.c.restartOnBinValues == s.c.restartOnBinValues
  {
    var t := Conclude(s, r);
    var rs := At(s, r);
    var vs := Union(rs.auxEstimates);
    var x := Passed(r, vs, s.got);
    ConcludeRound(s, f, r);
    ConcludeDecides(s, r);
    hide Conclude, RoundOK, PassOK, Passes, HasPassed, Grows;
    StepKeeps(s, t, f, r, x);
  }

  lemma ConcludeRound(s: Replica, f: nat, r: nat)
    requires Local(s, f) && Passes(At(s, r), f)
    ensures var t, x := Conclude(s, r), Passed(r, Union(At(s, r).auxEstimates), s.got);
      && RoundOK(t, f, r) && PassOK(t, f, x) && Grows(s, t) && HasPassed(t, r, At(t, r).est) && t.facts == s.facts + {x}
      && (forall k: nat :: k != r ==> At(t, k) == At(s, k)) && t.sent == s.sent && t.got == s.got
      && t.c.restartOnBinValues == s.c.restartOnBinValues
  {
    var t := Conclude(s, r);
    var rs := At(s, r);
    var vs := Union(rs.auxEstimates);
    var x := Passed(r, vs, s.got);
    assert x in t.facts && At(t, r) == rs.(est := EstOf(r, vs));
    assert HasPassed(t, r, EstOf(r, vs));
    assert RoundOK(s, f, r);
    hide Local;
    assert PassOK(t, f, x);
    hide AuxOK, EstimatesOK, PassOK;
    AuxFrame(s, t, r);
    EstimatesFrame(s, t, f, r);
  }

  lemma ConcludeDecides(s: Replica, r: nat)
    requires DecisionOK(s)
    ensures DecisionOK(Conclude(s, r))
  {
  }

  lemma FlagsKeep(s: Replica, t: Replica, f: nat)
    requires Local(s, f) && t == s.(c := t.c) && t.c.rs == s.c.rs && DecisionOK(t)
    ensures Local(t, f) && Grows(s, t)
  {
    hide RoundOK, PassOK, ProposalOK;
    assert Grows(s, t);
    FactsGrow(s, t, f);
    forall k: nat ensures RoundOK(t, f, k) {
      assert RoundOK(s, f, k) by { RoundOf(s, f, k); }
      RoundFrame(s, t, f, k);
    }
    assert RoundsOK(t, f) by { RoundsOf(t, f); }
  }

  lemma RoundOf(s: Replica, f: nat, k: nat)
    requires RoundsOK(s, f)
    ensures RoundOK(s, f, k)
  {
  }

  lemma RoundsOf(s: Replica, f: nat)
    requires forall k: nat :: RoundOK(s, f, k)
    ensures RoundsOK(s, f)
  {
    forall k: nat ensures EstimatesOK(s, f, k) && AuxOK(s, k) && Known(s, k, At(s, k).est) {
      assert RoundOK(s, f, k);
    }
  }

  lemma PassedProposal(s: Replica, r: nat, v: int)
    requires HasPassed(s, r, v)
    ensures ProposalOK(s, r + 1, v)
  {
  }

  lemma ContinueKeeps(s: Replica, f: nat, r: nat)
    requires Local(s, f) && HasPassed(s, r, At(s, r).est)
    ensures Local(Continue(s, r), f) && Grows(s, Continue(s, r))
  {
    hide Local, ProposalOK, HasPassed, ProposeValue, Grows, At;
    PassedProposal(s, r, At(s, r).est);
    WaitingKeeps(s, f);
    ProposeValueKeeps(s, f, r + 1, At(s, r).est);
  }

  /** Setting restartOnBinValues after a decision, or halt. */
  lemma WaitingKeeps(s: Replica, f: nat)
    requires Local(s, f)
    ensures s.c.decided ==> Local(s.(c := s.c.(restartOnBinValues := true)), f) && Grows(s, s.(c := s.c.(restartOnBinValues := true)))
    ensures Local(s.(c := s.c.(halt := true)), f) && Grows(s, s.(c := s.c.(halt := true)))
  {
    var waiting, stopped := s.(c := s.c.(restartOnBinValues := true)), s.(c := s.c.(halt := true));
    assert DecisionOK(stopped) && (s.c.decided ==> DecisionOK(waiting));
    hide DecisionOK, Grows, RoundsOK, FactsOK;
    if s.c.decided {
      FlagsKeep(s, waiting, f);
    }
    FlagsKeep(s, stopped, f);
  }

  lemma AfterAuxKeeps(s: Replica, f: nat, r: nat)
    requires Local(s, f)
    ensures Local(AfterAux(s, f, r), f) && Grows(s, AfterAux(s, f, r))
  {
    hide Local, Conclude, Continue, HasPassed;
    if Passes(At(s, r), f) {
      ConcludeKeeps(s, f, r);
      ContinueKeeps(Conclude(s, r), f, r);
      GrowsTransitive(s, Conclude(s, r), AfterAux(s, f, r));
    }
  }

  lemma BroadcastAuxKeeps(s: Replica, f: nat, r: nat)
    requires Local(s, f) && At(s, r).binValues != {}
    ensures Local(BroadcastAux(s, f, r), f) && Grows(s, BroadcastAux(s, f, r))
  {
    var rs := At(s, r);
    if !rs.auxSent {
      var t := Put(s.(sent := s.sent + {Aux(r, rs.binValues)}), r, rs.(auxSent := true));
      AuxSentOK(s, f, r);
      RoundKeeps(s, t, f, r);
      hide Local, AfterAux;
      AfterAuxKeeps(t, f, r);
      GrowsTransitive(s, t, AfterAux(t, f, r));
    }
  }

  lemma AuxSentOK(s: Replica, f: nat, r: nat)
    requires Local(s, f) && !At(s, r).auxSent && At(s, r).binValues != {}
    ensures var t := Put(s.(sent := s.sent + {Aux(r, At(s, r).binValues)}), r, At(s, r).(auxSent := true));
      RoundOK(t, f, r) && Grows(s, t)
  {
    var t := Put(s.(sent := s.sent + {Aux(r, At(s, r).binValues)}), r, At(s, r).(auxSent := true));
    assert RoundOK(s, f, r);
    assert Grows(s, t);
    KnownGrows(s, t, r, At(s, r).est);
    EstimatesFrame(s, t, f, r);
    assert AuxOK(t, r);
  }

  /** A step in round r that records nothing and leaves the flags alone. */
  lemma RoundKeeps(s: Replica, t: Replica, f: nat, r: nat)
    requires Local(s, f) && RoundOK(t, f, r) && Grows(s, t) && t.facts == s.facts
    requires t.c == s.c.(rs := t.c.rs)
    requires forall k: nat :: k != r ==> At(t, k) == At(s, k)
    requires forall m :: m in t.sent && m.round != r ==> m in s.sent
    requires forall e :: e in t.got && e.msg.round != r ==> e in s.got
    ensures Local(t, f)
  {
    hide RoundOK, PassOK, ProposalOK, Grows;
    FactsGrow(s, t, f);
    forall k: nat ensures RoundOK(t, f, k) {
      if k != r {
        RoundOf(s, f, k);
        RoundFrame(s, t, f, k);
      }
    }
    RoundsOf(t, f);
    DecisionFrame(s, t);
  }

  // ----- the entry points

  /** The epoch's first proposal: 0, or -1 for a finished broadcast. */
  lemma ProposeFirstKeeps(s: Replica, f: nat)
    requires Local(s, f)
    ensures Local(ProposeValue(s, 1, 0), f) && Grows(s, ProposeValue(s, 1, 0))
    ensures Local(ProposeDone(s, f, 1), f) && Grows(s, ProposeDone(s, f, 1))
  {
    assert ProposalOK(s, 1, 0);
    hide ProposalOK, Grows;
    ProposeValueKeeps(s, f, 1, 0);
    if !s.c.halt {
      var t := Put(s.(facts := s.facts + {Proposed(1, 1)}), 1, At(s, 1).(est := 1, binValues := At(s, 1).binValues + {1}, coordStepDone := true));
      DoneRound(s, f);
      assert ProposalOK(t, 1, 1) by { FirstProposal(t); }
      hide RoundOK, BroadcastAux;
      assert RoundsOK(t, f) && FactsOK(t, f) by {
        hide RoundsOK, FactsOK, DecisionOK;
        StepKeeps(s, t, f, 1, Proposed(1, 1));
      }
      DecisionFrame(s, t);
      hide Local;
      BroadcastAuxKeeps(t, f, 1);
      GrowsTransitive(s, t, BroadcastAux(t, f, 1));
    }
  }

  lemma FirstProposal(t: Replica)
    ensures ProposalOK(t, 1, 1)
  {
  }

  lemma DoneRound(s: Replica, f: nat)
    requires Local(s, f)
    ensures var t := Put(s.(facts := s.facts + {Proposed(1, 1)}), 1, At(s, 1).(est := 1, binValues := At(s, 1).binValues + {1}, coordStepDone := true));
      RoundOK(t, f, 1) && Grows(s, t) && PassOK(t, f, Proposed(1, 1))
  {
    var t := Put(s.(facts := s.facts + {Proposed(1, 1)}), 1, At(s, 1).(est := 1, binValues := At(s, 1).binValues + {1}, coordStepDone := true));
    assert RoundOK(s, f, 1);
    hide Local, AuxOK, EstimatesOK;
    assert Grows(s, t);
    AuxFrame(s, t, 1);
    EstimatesFrame(s, t, f, 1);
  }

  lemma CountedKeeps(s: Replica, f: nat, from: PeerID, r: nat, v: int)
    requires Local(s, f) && Envelope(from, Estimate(r, v)) !in s.got
    ensures var t := Counted(s, f, from, r, v);
      Local(t, f) && Grows(s, t) && (Count(At(s, r).bvbEstimates, v) >= f ==> Justified(t, r, v, f + 1))
  {
    var t := Counted(s, f, from, r, v);
    CountedRound(s, f, from, r, v);
    hide RoundOK, Counted, Justified;
    RoundKeeps(s, t, f, r);
  }

  lemma CountedRound(s: Replica, f: nat, from: PeerID, r: nat, v: int)
    requires Local(s, f) && Envelope(from, Estimate(r, v)) !in s.got
    ensures var t := Counted(s, f, from, r, v);
      && RoundOK(t, f, r) && Grows(s, t) && (Count(At(s, r).bvbEstimates, v) >= f ==> Justified(t, r, v, f + 1))
      && t.facts == s.facts && t.c == s.c.(rs := t.c.rs) && (forall k: nat :: k != r ==> At(t, k) == At(s, k))
      && (forall m :: m in t.sent && m.round != r ==> m in s.sent)
      && (forall e :: e in t.got && e.msg.round != r ==> e in s.got)
  {
    var t := Counted(s, f, from, r, v);
    assert EstimatesOK(s, f, r) && AuxOK(s, r) && Known(s, r, At(s, r).est);
    hide Local, AuxOK, EstimatesOK, Known;
    CountedFrame(s, f, from, r, v);
    CountedEstimates(s, f, from, r, v);
    hide Justified, Counted;
    AuxFrame(s, t, r);
    KnownGrows(s, t, r, At(s, r).est);
  }

  lemma CountedFrame(s: Replica, f: nat, from: PeerID, r: nat, v: int)
    ensures var t := Counted(s, f, from, r, v);
      && Grows(s, t) && t.facts == s.facts && t.c == s.c.(rs := t.c.rs) && (forall k: nat :: k != r ==> At(t, k) == At(s, k))
      && (forall m :: m in t.sent ==> m in s.sent || m == Estimate(r, v))
      && t.got == s.got + {Envelope(from, Estimate(r, v))}
      && At(t, r).auxEstimates == At(s, r).auxEstimates && At(t, r).auxSent == At(s, r).auxSent && At(t, r).est == At(s, r).est
  {
  }

  lemma NewSender(s: Replica, from: PeerID, r: nat, v: int)
    requires Envelope(from, Estimate(r, v)) !in s.got
    ensures var got := s.got + {Envelope(from, Estimate(r, v))};
      && |EstSenders(got, r, v)| == |EstSenders(s.got, r, v)| + 1
      && forall w :: w != v ==> EstSenders(got, r, w) == EstSenders(s.got, r, w)
  {
    var got := s.got + {Envelope(from, Estimate(r, v))};
    assert from !in EstSenders(s.got, r, v);
    assert EstSenders(got, r, v) == EstSenders(s.got, r, v) + {from};
    forall w | w != v ensures EstSenders(got, r, w) == EstSenders(s.got, r, w) {
    }
  }

  lemma CountedEstimates(s: Replica, f: nat, from: PeerID, r: nat, v: int)
    requires EstimatesOK(s, f, r) && Envelope(from, Estimate(r, v)) !in s.got
    ensures EstimatesOK(Counted(s, f, from, r, v), f, r)
    ensures Count(At(s, r).bvbEstimates, v) >= f ==> Justified(Counted(s, f, from, r, v), r, v, f + 1)
  {
    var t := Counted(s, f, from, r, v);
    NewSender(s, from, r, v);
    forall w ensures Count(At(t, r).bvbEstimates, w) <= |EstSenders(t.got, r, w)| + (if Voted(t, r, w) then 1 else 0) {
      assert Count(At(s, r).bvbEstimates, w) <= |EstSenders(s.got, r, w)| + (if Voted(s, r, w) then 1 else 0);
    }
    assert Count(At(s, r).bvbEstimates, v) >= f ==> Justified(t, r, v, f + 1);
    forall w | w in At(t, r).bvbSent || w in At(t, r).binValues ensures Justified(t, r, w, f + 1) {
      assert w in At(s, r).bvbSent || w in At(s, r).binValues || w == v;
      assert w in At(s, r).bvbSent || w in At(s, r).binValues ==> Justified(s, r, w, f + 1);
    }
  }

  lemma OnEstimateKeeps(s: Replica, f: nat, from: PeerID, r: nat, v: int)
    requires Local(s, f) && Envelope(from, Estimate(r, v)) !in s.got
    ensures Local(OnEstimate(s, f, from, r, v), f) && Grows(s, OnEstimate(s, f, from, r, v))
  {
    var t := Counted(s, f, from, r, v);
    CountedKeeps(s, f, from, r, v);
    assert OnEstimate(s, f, from, r, v) ==
      if Count(At(s, r).bvbEstimates, v) + 1 == 2 * f + 1 then Restart(CoordStep(Admit(t, r, v), f, r), r) else t;
    hide Local, Counted, OnEstimate, Grows, Justified;
    if Count(At(s, r).bvbEstimates, v) + 1 == 2 * f + 1 {
      var a := Admit(t, r, v);
      AdmitKeeps(t, f, r, v);
      CoordStepKeeps(a, f, r);
      var b := CoordStep(a, f, r);
      RestartKeeps(b, f, r);
      hide Restart, CoordStep, Admit;
      GrowsTransitive(s, t, a);
      GrowsTransitive(s, a, b);
      GrowsTransitive(s, b, Restart(b, r));
    }
  }

  lemma AdmitKeeps(s: Replica, f: nat, r: nat, v: int)
    requires Local(s, f) && Justified(s, r, v, f + 1)
    ensures Local(Admit(s, r, v), f) && Grows(s, Admit(s, r, v)) && At(Admit(s, r, v), r).binValues != {}
  {
    var t := Admit(s, r, v);
    assert RoundOK(s, f, r);
    assert v in At(t, r).binValues;
    assert RoundOK(t, f, r) && Grows(s, t) by {
      hide Local, AuxOK, EstimatesOK;
      AuxFrame(s, t, r);
      EstimatesFrame(s, t, f, r);
    }
    hide RoundOK;
    RoundKeeps(s, t, f, r);
  }

  /** Changing the timer and coordinator flags of a round. */
  lemma TimerKeeps(s: Replica, t: Replica, f: nat, r: nat, rs: Round)
    requires Local(s, f) && t == Put(s, r, rs)
    requires rs == At(s, r).(coordStepDone := rs.coordStepDone, timerSet := rs.timerSet, timerExpired := rs.timerExpired)
    ensures Local(t, f) && Grows(s, t)
  {
    assert RoundOK(s, f, r);
    assert RoundOK(t, f, r) && Grows(s, t) by {
      hide Local, AuxOK, EstimatesOK;
      AuxFrame(s, t, r);
      EstimatesFrame(s, t, f, r);
    }
    hide RoundOK;
    RoundKeeps(s, t, f, r);
  }

  lemma CoordStepKeeps(s: Replica, f: nat, r: nat)
    requires Local(s, f) && At(s, r).binValues != {}
    ensures Local(CoordStep(s, f, r), f) && Grows(s, CoordStep(s, f, r))
  {
    hide Local, Grows;
    var rs := At(s, r).(coordStepDone := true, timerSet := true);
    var t := Put(s, r, rs);
    TimerKeeps(s, t, f, r, rs);
    if rs.timerExpired {
      BroadcastAuxKeeps(t, f, r);
      GrowsTransitive(s, t, BroadcastAux(t, f, r));
    }
    assert Grows(s, s) by { GrowsSame(s); }
  }

  lemma GrowsSame(s: Replica)
    ensures Grows(s, s)
  {
  }

  /** A restart proposes a known value. */
  lemma RestartKeeps(s: Replica, f: nat, r: nat)
    requires Local(s, f)
    ensures Local(Restart(s, r), f) && Grows(s, Restart(s, r))
  {
    hide Local, ProposeValue, ProposalOK, Grows;
    GrowsSame(s);
    var rs := At(s, r);
    if s.c.restartOnBinValues && {0, 1} <= rs.binValues {
      var x := Restarted(r, rs.est);
      var t := s.(c := s.c.(restartOnBinValues := false), facts := s.facts + {x});
      assert Restart(s, r) == ProposeValue(t, r + 1, rs.est);
      RestartProposal(s, f, r);
      RestartLocal(s, t, f, x);
      hide Restart;
      ProposeValueKeeps(t, f, r + 1, rs.est);
      GrowsTransitive(s, t, ProposeValue(t, r + 1, rs.est));
    }
  }

  lemma RestartLocal(s: Replica, t: Replica, f: nat, x: Fact)
    requires Local(s, f) && x.Restarted? && t == s.(c := s.c.(restartOnBinValues := false), facts := s.facts + {x})
    ensures Local(t, f) && Grows(s, t)
  {
    assert Grows(s, t);
    FactsGrow(s, t, f);
    hide RoundOK, ProposalOK;
    forall k: nat ensures RoundOK(t, f, k) {
      RoundOf(s, f, k);
      RoundFrame(s, t, f, k);
    }
    RoundsOf(t, f);
    if s.c.decided {
      var got :| Passed(s.c.decidedRound, {s.c.decidedValue}, got) in s.facts;
      assert Passed(t.c.decidedRound, {t.c.decidedValue}, got) in t.facts;
    }
  }

  lemma RestartProposal(s: Replica, f: nat, r: nat)
    requires Local(s, f) && s.c.restartOnBinValues
    ensures var x := Restarted(r, At(s, r).est);
      ProposalOK(s.(c := s.c.(restartOnBinValues := false), facts := s.facts + {x}), r + 1, At(s, r).est)
  {
  }

  lemma OnlyIs(v: int)
    ensures forall r: nat :: EstOf(r, {v}) == v
  {
  }

  lemma OnAuxKeeps(s: Replica, f: nat, from: PeerID, r: nat, values: set<int>)
    requires Local(s, f) && from !in AuxSenders(s.got, r)
    ensures Local(OnAux(s, f, from, r, values), f) && Grows(s, OnAux(s, f, from, r, values))
  {
    var t := Put(s.(got := s.got + {Envelope(from, Aux(r, values))}), r, At(s, r).(auxEstimates := At(s, r).auxEstimates + [values]));
    AuxCounted(s, f, from, r, values);
    hide RoundOK;
    RoundKeeps(s, t, f, r);
    hide Local, AfterAux;
    AfterAuxKeeps(t, f, r);
    GrowsTransitive(s, t, AfterAux(t, f, r));
  }

  lemma AuxCounted(s: Replica, f: nat, from: PeerID, r: nat, values: set<int>)
    requires Local(s, f) && from !in AuxSenders(s.got, r)
    ensures var t := Put(s.(got := s.got + {Envelope(from, Aux(r, values))}), r, At(s, r).(auxEstimates := At(s, r).auxEstimates + [values]));
      RoundOK(t, f, r) && Grows(s, t)
  {
    var t := Put(s.(got := s.got + {Envelope(from, Aux(r, values))}), r, At(s, r).(auxEstimates := At(s, r).auxEstimates + [values]));
    assert EstimatesOK(s, f, r) && AuxOK(s, r) && Known(s, r, At(s, r).est);
    hide Local, EstimatesOK, AuxOK, Known;
    assert Grows(s, t);
    KnownGrows(s, t, r, At(s, r).est);
    EstimatesFrame(s, t, f, r);
    AuxMore(s, t, r, from, values);
  }

  lemma AuxMore(s: Replica, t: Replica, r: nat, from: PeerID, values: set<int>)
    requires AuxOK(s, r) && from !in AuxSenders(s.got, r)
    requires t == Put(s.(got := s.got + {Envelope(from, Aux(r, values))}), r, At(s, r).(auxEstimates := At(s, r).auxEstimates + [values]))
    ensures AuxOK(t, r)
  {
    SenderAdded(s.got, r, from, values);
    var sets := At(t, r).auxEstimates;
    assert sets[..|sets| - 1] == At(s, r).auxEstimates;
    assert Union(sets) == Union(At(s, r).auxEstimates) + values;
    assert t.sent == s.sent && At(t, r).auxSent == At(s, r).auxSent;
    hide Union, AuxSenders, At, Put;
  }

  lemma SenderAdded(got: set<Envelope>, r: nat, from: PeerID, values: set<int>)
    requires from !in AuxSenders(got, r)
    ensures |AuxSenders(got + {Envelope(from, Aux(r, values))}, r)| == |AuxSenders(got, r)| + 1
  {
    assert AuxSenders(got + {Envelope(from, Aux(r, values))}, r) == AuxSenders(got, r) + {from};
  }

  lemma OnTimerKeeps(s: Replica, f: nat, r: nat)
    requires Local(s, f)
    ensures Local(OnTimer(s, f, r), f) && Grows(s, OnTimer(s, f, r))
  {
    hide Local, Grows;
    GrowsSame(s);
    var rs := At(s, r).(timerExpired := true);
    var t := Put(s, r, rs);
    TimerKeeps(s, t, f, r, rs);
    if rs.binValues != {} {
      BroadcastAuxKeeps(t, f, r);
      GrowsTransitive(s, t, BroadcastAux(t, f, r));
    }
  }
}
