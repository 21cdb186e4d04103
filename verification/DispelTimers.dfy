/** When a DBFT instance sends its Aux message: never before its timer, except on a finished broadcast, and never later
    than the timer and the first candidate allow; and what the echo and candidate thresholds count. */
module DispelTimers {
  import opened Quorums
  import opened DispelBinary
  import opened DispelLocal
  import opened DispelAgreement

  /** The flags of a round go with one another. */
  predicate Timely(rs: Round) {
    && (rs.timerExpired ==> rs.timerSet)
    && (rs.timerSet ==> rs.coordStepDone)
    && (rs.binValues != {} <==> rs.coordStepDone)
    && (rs.coordStepDone ==> rs.timerSet || rs.auxSent)
    && (rs.timerExpired && rs.binValues != {} ==> rs.auxSent)
  }

  /** An Aux message has waited for the timer, unless the replica voted on a finished broadcast. */
  predicate Waited(s: Replica, r: nat) {
    At(s, r).auxSent ==> At(s, r).timerExpired || (r == 1 && Proposed(1, 1) in s.facts)
  }

  ghost predicate AllTimely(s: Replica) {
    forall r: nat :: Timely(At(s, r)) && Waited(s, r)
  }

  predicate SameFlags(a: Round, b: Round) {
    && b.timerSet == a.timerSet && b.timerExpired == a.timerExpired && b.binValues == a.binValues
    && b.coordStepDone == a.coordStepDone && b.auxSent == a.auxSent
  }

  ghost predicate FlagsKept(s: Replica, t: Replica) {
    s.facts <= t.facts && forall r: nat :: SameFlags(At(s, r), At(t, r))
  }

  lemma KeptTwice(s: Replica, t: Replica, u: Replica)
    requires FlagsKept(s, t) && FlagsKept(t, u)
    ensures FlagsKept(s, u)
  {
    hide At;
    forall r: nat ensures SameFlags(At(s, r), At(u, r)) {
      assert SameFlags(At(s, r), At(t, r)) && SameFlags(At(t, r), At(u, r));
    }
  }

  lemma ProposeKeepsFlags(s: Replica, r: nat, est: int)
    ensures FlagsKept(s, ProposeValue(s, r, est))
  {
  }

  lemma ConcludeKeepsFlags(s: Replica, r: nat)
    ensures FlagsKept(s, Conclude(s, r))
  {
    hide EstOf;
  }

  lemma ContinueKeepsFlags(s: Replica, r: nat)
    ensures FlagsKept(s, Continue(s, r))
  {
    hide ProposeValue;
    ProposeKeepsFlags(s, r + 1, At(s, r).est);
  }

  lemma AfterAuxKeepsFlags(s: Replica, f: nat, r: nat)
    ensures FlagsKept(s, AfterAux(s, f, r))
  {
    hide Conclude, Continue;
    if Passes(At(s, r), f) {
      ConcludeKeepsFlags(s, r);
      ContinueKeepsFlags(Conclude(s, r), r);
      KeptTwice(s, Conclude(s, r), AfterAux(s, f, r));
    }
  }

  lemma RestartKeepsFlags(s: Replica, r: nat)
    ensures FlagsKept(s, Restart(s, r))
  {
    hide ProposeValue;
    var t := s.(c := s.c.(restartOnBinValues := false), facts := s.facts + {Restarted(r, At(s, r).est)});
    assert FlagsKept(s, t);
    ProposeKeepsFlags(t, r + 1, At(s, r).est);
    KeptTwice(s, t, ProposeValue(t, r + 1, At(s, r).est));
  }

  lemma KeptTimely(s: Replica, t: Replica)
    requires AllTimely(s) && FlagsKept(s, t)
    ensures AllTimely(t)
  {
    hide At;
    forall r: nat ensures Timely(At(t, r)) && Waited(t, r) {
      assert SameFlags(At(s, r), At(t, r)) && Timely(At(s, r)) && Waited(s, r);
    }
  }

  /** All but round r is in order, and round r will be once the Aux message is out. */
  ghost predicate AllButAux(s: Replica, r: nat) {
    && (forall k: nat :: k != r ==> Timely(At(s, k)) && Waited(s, k))
    && Timely(At(s, r).(auxSent := true))
    && (At(s, r).timerExpired || (r == 1 && Proposed(1, 1) in s.facts))
  }

  lemma BroadcastAuxTimely(s: Replica, f: nat, r: nat)
    requires AllButAux(s, r)
    ensures AllTimely(BroadcastAux(s, f, r))
  {
    hide AfterAux;
    var rs := At(s, r);
    if rs.auxSent {
      assert rs.(auxSent := true) == rs;
      forall k: nat ensures Timely(At(s, k)) && Waited(s, k) {
      }
    } else {
      var t := Put(s.(sent := s.sent + {Aux(r, rs.binValues)}), r, rs.(auxSent := true));
      forall k: nat ensures Timely(At(t, k)) && Waited(t, k) {
        assert k != r ==> At(t, k) == At(s, k) && Waited(s, k);
      }
      AfterAuxKeepsFlags(t, f, r);
      KeptTimely(t, AfterAux(t, f, r));
    }
  }

  lemma CountedKeepsFlags(s: Replica, f: nat, from: PeerID, r: nat, v: int)
    ensures FlagsKept(s, Counted(s, f, from, r, v))
  {
  }

  /** A new candidate sets the timer, or finds it expired. */
  lemma AdmitTimely(s: Replica, f: nat, r: nat, v: int)
    requires AllTimely(s)
    ensures AllTimely(CoordStep(Admit(s, r, v), f, r))
  {
    hide BroadcastAux;
    var a := Admit(s, r, v);
    assert Timely(At(s, r)) && Waited(s, r);
    var rs := At(a, r);
    forall k: nat | k != r ensures At(a, k) == At(s, k) && Timely(At(a, k)) && Waited(a, k) {
      assert Timely(At(s, k)) && Waited(s, k);
    }
    if rs.coordStepDone {
      assert CoordStep(a, f, r) == a;
    } else {
      var t := Put(a, r, rs.(coordStepDone := true, timerSet := true));
      forall k: nat | k != r ensures Timely(At(t, k)) && Waited(t, k) {
        assert At(t, k) == At(a, k) && Waited(a, k);
      }
      if rs.timerExpired {
        BroadcastAuxTimely(t, f, r);
      } else {
        assert Timely(At(t, r)) && Waited(t, r);
      }
    }
  }

  lemma OnEstimateTimely(s: Replica, f: nat, from: PeerID, r: nat, v: int)
    requires AllTimely(s)
    ensures AllTimely(OnEstimate(s, f, from, r, v))
  {
    hide AllTimely, Counted, Restart, CoordStep, Admit, FlagsKept;
    var t := Counted(s, f, from, r, v);
    CountedKeepsFlags(s, f, from, r, v);
    KeptTimely(s, t);
    AdmitTimely(t, f, r, v);
    RestartKeepsFlags(CoordStep(Admit(t, r, v), f, r), r);
    KeptTimely(CoordStep(Admit(t, r, v), f, r), Restart(CoordStep(Admit(t, r, v), f, r), r));
  }

  lemma OnAuxTimely(s: Replica, f: nat, from: PeerID, r: nat, values: set<int>)
    requires AllTimely(s)
    ensures AllTimely(OnAux(s, f, from, r, values))
  {
    hide AllTimely, AfterAux;
    var t := Put(s.(got := s.got + {Envelope(from, Aux(r, values))}), r, At(s, r).(auxEstimates := At(s, r).auxEstimates + [values]));
    assert FlagsKept(s, t);
    AfterAuxKeepsFlags(t, f, r);
    KeptTwice(s, t, AfterAux(t, f, r));
    KeptTimely(s, AfterAux(t, f, r));
  }

  lemma OnTimerTimely(s: Replica, f: nat, r: nat)
    requires AllTimely(s)
    ensures AllTimely(OnTimer(s, f, r))
  {
    hide BroadcastAux;
    var rs := At(s, r);
    assert Timely(rs) && Waited(s, r);
    if rs.timerSet {
      var t := Put(s, r, rs.(timerExpired := true));
      forall k: nat | k != r ensures Timely(At(t, k)) && Waited(t, k) {
        assert At(t, k) == At(s, k) && Waited(s, k);
      }
      BroadcastAuxTimely(t, f, r);
    }
  }

  lemma ProposeDoneTimely(s: Replica, f: nat)
    requires AllTimely(s)
    ensures AllTimely(ProposeDone(s, f, 1))
  {
    hide BroadcastAux;
    if !s.c.halt {
      var rs := At(s, 1);
      assert Timely(rs) && Waited(s, 1);
      var t := Put(s.(facts := s.facts + {Proposed(1, 1)}), 1, rs.(est := 1, binValues := rs.binValues + {1}, coordStepDone := true));
      forall k: nat | k != 1 ensures Timely(At(t, k)) && Waited(t, k) {
        assert At(t, k) == At(s, k) && Waited(s, k) && Timely(At(s, k));
      }
      BroadcastAuxTimely(t, f, 1);
    }
  }

  lemma NextTimely(sys: System, ev: Event)
    requires Enabled(sys, ev) && Actor(ev) in sys.nodes && AllTimely(sys.nodes[Actor(ev)])
    ensures AllTimely(Next(sys, ev))
  {
    hide AllTimely, ProposeValue, ProposeDone, OnTimer, OnEstimate, OnAux, FlagsKept, Sendable;
    var s := sys.nodes[Actor(ev)];
    match ev
    case ProposeZero(_) =>
      ProposeKeepsFlags(s, 1, 0);
      KeptTimely(s, ProposeValue(s, 1, 0));
    case ProposeReadied(_) => ProposeDoneTimely(s, sys.f);
    case Timer(_, r) => OnTimerTimely(s, sys.f, r);
    case Deliver(_, e) =>
      match e.msg
      case Estimate(r, v) => OnEstimateTimely(s, sys.f, e.from, r, v);
      case Aux(r, values) => OnAuxTimely(s, sys.f, e.from, r, values);
  }

  lemma {:induction false} RunTimely(sys: System, evs: seq<Event>)
    requires ValidRun(sys, evs) && forall p :: p in sys.nodes ==> AllTimely(sys.nodes[p])
    ensures forall p :: p in RunEnds(sys, evs).nodes ==> AllTimely(RunEnds(sys, evs).nodes[p])
    decreases |evs|
  {
    hide AllTimely, Next, Enabled;
    if evs != [] {
      EnabledActor(sys, evs[0]);
      NextTimely(sys, evs[0]);
      RunTimely(After(sys, evs[0]), evs[1..]);
    }
  }

  lemma EnabledActor(sys: System, ev: Event)
    requires Enabled(sys, ev)
    ensures Actor(ev) in sys.nodes
  {
  }

  /** In every run and every round: the timer is set by the first candidate; the Aux message is out once the timer has
      expired, and before that only on a vote for a finished broadcast. */
  lemma AuxInTime(sys: System, p: PeerID, r: nat)
    requires Reached(sys) && p in sys.nodes
    ensures var s := sys.nodes[p]; var rs := At(s, r);
      && (rs.binValues != {} ==> rs.timerSet || rs.auxSent)
      && (rs.timerSet ==> rs.binValues != {})
      && (rs.timerExpired ==> rs.timerSet && rs.auxSent)
      && (rs.auxSent ==> rs.timerExpired || (r == 1 && Proposed(1, 1) in s.facts))
  {
    hide ValidRun, RunEnds;
    var start, evs :| Start(start) && ValidRun(start, evs) && RunEnds(start, evs) == sys;
    forall q | q in start.nodes ensures AllTimely(start.nodes[q]) {
      assert forall k: nat :: At(start.nodes[q], k) == MakeRound();
    }
    RunTimely(start, evs);
    hide Start;
    assert Timely(At(sys.nodes[p], r)) && Waited(sys.nodes[p], r);
  }

  // ----- the thresholds

  /** The f+1st estimate of a value is echoed, once, and the 2f+1st makes it a candidate, whichever way they count. */
  lemma EstimateCounts(s: Replica, f: nat, from: PeerID, r: nat, v: int)
    requires f > 0
    ensures var t, n := OnEstimate(s, f, from, r, v), Count(At(s, r).bvbEstimates, v) + 1;
      && Count(At(t, r).bvbEstimates, v) == n
      && (n == f + 1 ==> v in At(t, r).bvbSent && (v !in At(s, r).bvbSent ==> Estimate(r, v) in t.sent))
      && (n != f + 1 ==> (v in At(t, r).bvbSent <==> v in At(s, r).bvbSent))
      && (v in At(t, r).binValues <==> v in At(s, r).binValues || n == 2 * f + 1)
  {
    var d := Counted(s, f, from, r, v);
    CountedIs(s, f, from, r, v);
    hide Counted;
    if Count(At(s, r).bvbEstimates, v) + 1 == 2 * f + 1 {
      var a := Admit(d, r, v);
      AdmitIs(d, r, v);
      hide Admit;
      CoordStepRest(a, f, r);
      RestartRest(CoordStep(a, f, r), r);
      hide CoordStep, Restart;
    }
  }

  lemma CountedIs(s: Replica, f: nat, from: PeerID, r: nat, v: int)
    ensures var t, n := Counted(s, f, from, r, v), Count(At(s, r).bvbEstimates, v) + 1;
      && Count(At(t, r).bvbEstimates, v) == n && At(t, r).binValues == At(s, r).binValues && s.sent <= t.sent
      && (n == f + 1 ==> v in At(t, r).bvbSent && (v !in At(s, r).bvbSent ==> Estimate(r, v) in t.sent))
      && (n != f + 1 ==> At(t, r).bvbSent == At(s, r).bvbSent)
  {
  }

  lemma AdmitIs(s: Replica, r: nat, v: int)
    ensures var t := Admit(s, r, v);
      && At(t, r).binValues == At(s, r).binValues + {v} && At(t, r).bvbEstimates == At(s, r).bvbEstimates
      && At(t, r).bvbSent == At(s, r).bvbSent && t.sent == s.sent
  {
  }

  /** The estimates, echoes and candidates of round r, and what has been sent. */
  ghost predicate Rest(s: Replica, t: Replica, r: nat) {
    && At(t, r).bvbEstimates == At(s, r).bvbEstimates && At(t, r).bvbSent == At(s, r).bvbSent
    && At(t, r).binValues == At(s, r).binValues && s.sent <= t.sent
  }

  lemma RestTwice(s: Replica, t: Replica, u: Replica, r: nat)
    requires Rest(s, t, r) && Rest(t, u, r)
    ensures Rest(s, u, r)
  {
  }

  lemma ProposeRest(s: Replica, k: nat, est: int, r: nat)
    requires k != r
    ensures Rest(s, ProposeValue(s, k, est), r)
  {
  }

  lemma AfterAuxRest(s: Replica, f: nat, r: nat)
    ensures Rest(s, AfterAux(s, f, r), r)
  {
    hide ProposeValue, EstOf, Passes;
    var t := Conclude(s, r);
    assert Rest(s, t, r);
    hide Conclude;
    ProposeRest(t, r + 1, At(t, r).est, r);
    assert Rest(t, Continue(t, r), r);
    RestTwice(s, t, Continue(t, r), r);
  }

  lemma CoordStepRest(s: Replica, f: nat, r: nat)
    ensures Rest(s, CoordStep(s, f, r), r)
  {
    hide AfterAux;
    var t := Put(s, r, At(s, r).(coordStepDone := true, timerSet := true));
    var u := Put(t.(sent := t.sent + {Aux(r, At(t, r).binValues)}), r, At(t, r).(auxSent := true));
    assert Rest(s, t, r) && Rest(s, u, r);
    AfterAuxRest(u, f, r);
    RestTwice(s, u, AfterAux(u, f, r), r);
  }

  lemma RestartRest(s: Replica, r: nat)
    ensures Rest(s, Restart(s, r), r)
  {
    hide ProposeValue;
    var t := s.(c := s.c.(restartOnBinValues := false), facts := s.facts + {Restarted(r, At(s, r).est)});
    ProposeRest(t, r + 1, At(s, r).est, r);
  }

  // ----- no estimate is in vain

  /** f+1 estimates of v have been echoed, and 2f+1 have made it a candidate. */
  predicate Heeded(s: Replica, f: nat, r: nat, v: int) {
    var rs := At(s, r);
    && (Count(rs.bvbEstimates, v) > f ==> v in rs.bvbSent)
    && (Count(rs.bvbEstimates, v) > 2 * f ==> v in rs.binValues)
    && (v in rs.bvbSent ==> Estimate(r, v) in s.sent)
    && Count(rs.bvbEstimates, v) >= |EstSenders(s.got, r, v)|
  }

  ghost predicate AllHeeded(s: Replica, f: nat) {
    forall r: nat, v :: Heeded(s, f, r, v)
  }

  /** Estimates and echoes are as they were, and no candidate is gone. */
  ghost predicate Kept(s: Replica, t: Replica) {
    && t.got == s.got && s.sent <= t.sent
    && forall r: nat :: At(t, r).bvbEstimates == At(s, r).bvbEstimates && At(t, r).bvbSent == At(s, r).bvbSent
                        && At(s, r).binValues <= At(t, r).binValues
  }

  lemma KeptHeeded(s: Replica, t: Replica, f: nat)
    requires AllHeeded(s, f) && Kept(s, t)
    ensures AllHeeded(t, f)
  {
    hide At, Count;
    forall r: nat, v ensures Heeded(t, f, r, v) {
      assert Heeded(s, f, r, v);
    }
  }

  /** A replica counts its own estimate only while fewer than f+1 others have made it echo the value. */
  lemma ProposeHeeded(s: Replica, f: nat, r: nat, est: int)
    requires AllHeeded(s, f) && f > 0
    ensures AllHeeded(ProposeValue(s, r, est), f)
  {
    var t := ProposeValue(s, r, est);
    forall k: nat, v ensures Heeded(t, f, k, v) {
      assert Heeded(s, f, k, v);
    }
  }

  lemma ConcludeHeeded(s: Replica, f: nat, r: nat)
    requires AllHeeded(s, f)
    ensures AllHeeded(Conclude(s, r), f)
  {
    assert Kept(s, Conclude(s, r)) by { hide EstOf; }
    KeptHeeded(s, Conclude(s, r), f);
  }

  lemma ContinueHeeded(s: Replica, f: nat, r: nat)
    requires AllHeeded(s, f) && f > 0
    ensures AllHeeded(Continue(s, r), f)
  {
    hide AllHeeded, ProposeValue;
    ProposeHeeded(s, f, r + 1, At(s, r).est);
    KeptHeeded(s, s.(c := s.c.(restartOnBinValues := true)), f);
    KeptHeeded(s, s.(c := s.c.(halt := true)), f);
  }

  lemma AfterAuxHeeded(s: Replica, f: nat, r: nat)
    requires AllHeeded(s, f) && f > 0
    ensures AllHeeded(AfterAux(s, f, r), f)
  {
    hide AllHeeded, Conclude, Continue, Passes;
    if Passes(At(s, r), f) {
      ConcludeHeeded(s, f, r);
      ContinueHeeded(Conclude(s, r), f, r);
    }
  }

  lemma BroadcastAuxHeeded(s: Replica, f: nat, r: nat)
    requires AllHeeded(s, f) && f > 0
    ensures AllHeeded(BroadcastAux(s, f, r), f)
  {
    hide AllHeeded, AfterAux;
    var t := Put(s.(sent := s.sent + {Aux(r, At(s, r).binValues)}), r, At(s, r).(auxSent := true));
    KeptHeeded(s, t, f);
    AfterAuxHeeded(t, f, r);
  }

  lemma CoordStepHeeded(s: Replica, f: nat, r: nat)
    requires AllHeeded(s, f) && f > 0
    ensures AllHeeded(CoordStep(s, f, r), f)
  {
    hide AllHeeded, BroadcastAux;
    var t := Put(s, r, At(s, r).(coordStepDone := true, timerSet := true));
    KeptHeeded(s, t, f);
    BroadcastAuxHeeded(t, f, r);
  }

  lemma RestartHeeded(s: Replica, f: nat, r: nat)
    requires AllHeeded(s, f) && f > 0
    ensures AllHeeded(Restart(s, r), f)
  {
    hide AllHeeded, ProposeValue;
    var t := s.(c := s.c.(restartOnBinValues := false), facts := s.facts + {Restarted(r, At(s, r).est)});
    KeptHeeded(s, t, f);
    ProposeHeeded(t, f, r + 1, At(s, r).est);
  }

  /** A new estimate, echoed and admitted where the thresholds say so. */
  lemma OnEstimateHeeded(s: Replica, f: nat, from: PeerID, r: nat, v: int)
    requires AllHeeded(s, f) && f > 0 && Envelope(from, Estimate(r, v)) !in s.got
    ensures AllHeeded(OnEstimate(s, f, from, r, v), f)
  {
    var t, n := Counted(s, f, from, r, v), Count(At(s, r).bvbEstimates, v) + 1;
    CountedHeeded(s, f, from, r, v);
    hide AllHeeded, Counted, Restart, CoordStep, Heeded;
    if n == 2 * f + 1 {
      AdmitHeeded(t, f, r, v);
      var a := Admit(t, r, v);
      CoordStepHeeded(a, f, r);
      RestartHeeded(CoordStep(a, f, r), f, r);
    } else {
      AllOf(t, f, r, v);
    }
  }

  /** All but the candidate v of round r. */
  ghost predicate HeededBut(s: Replica, f: nat, r: nat, v: int) {
    && (forall k: nat, w :: k != r || w != v ==> Heeded(s, f, k, w))
    && (Count(At(s, r).bvbEstimates, v) > f ==> v in At(s, r).bvbSent)
    && (v in At(s, r).bvbSent ==> Estimate(r, v) in s.sent)
    && Count(At(s, r).bvbEstimates, v) >= |EstSenders(s.got, r, v)|
  }

  lemma CountedHeeded(s: Replica, f: nat, from: PeerID, r: nat, v: int)
    requires AllHeeded(s, f) && Envelope(from, Estimate(r, v)) !in s.got
    ensures var t, n := Counted(s, f, from, r, v), Count(At(s, r).bvbEstimates, v) + 1;
      HeededBut(t, f, r, v) && Count(At(t, r).bvbEstimates, v) == n && (n != 2 * f + 1 ==> Heeded(t, f, r, v))
  {
    var t := Counted(s, f, from, r, v);
    NewSender(s, from, r, v);
    CountedFrame(s, f, from, r, v);
    forall k: nat, w | k != r || w != v ensures Heeded(t, f, k, w) {
      assert Heeded(s, f, k, w);
      assert EstSenders(t.got, k, w) == EstSenders(s.got, k, w);
    }
    assert Heeded(s, f, r, v);
  }

  lemma AllOf(s: Replica, f: nat, r: nat, v: int)
    requires HeededBut(s, f, r, v) && Heeded(s, f, r, v)
    ensures AllHeeded(s, f)
  {
    hide Heeded, At;
  }

  lemma AdmitHeeded(s: Replica, f: nat, r: nat, v: int)
    requires HeededBut(s, f, r, v)
    ensures AllHeeded(Admit(s, r, v), f)
  {
    var a := Admit(s, r, v);
    forall k: nat, w ensures Heeded(a, f, k, w) {
      if k != r || w != v {
        assert Heeded(s, f, k, w);
      }
    }
  }

  lemma OnAuxHeeded(s: Replica, f: nat, from: PeerID, r: nat, values: set<int>)
    requires AllHeeded(s, f) && f > 0
    ensures AllHeeded(OnAux(s, f, from, r, values), f)
  {
    hide AfterAux;
    var t := Put(s.(got := s.got + {Envelope(from, Aux(r, values))}), r, At(s, r).(auxEstimates := At(s, r).auxEstimates + [values]));
    forall k: nat, v ensures Heeded(t, f, k, v) {
      assert Heeded(s, f, k, v);
      assert EstSenders(t.got, k, v) == EstSenders(s.got, k, v);
    }
    hide AllHeeded;
    AfterAuxHeeded(t, f, r);
  }

  lemma OnTimerHeeded(s: Replica, f: nat, r: nat)
    requires AllHeeded(s, f) && f > 0
    ensures AllHeeded(OnTimer(s, f, r), f)
  {
    hide AllHeeded, BroadcastAux;
    var t := Put(s, r, At(s, r).(timerExpired := true));
    KeptHeeded(s, t, f);
    BroadcastAuxHeeded(t, f, r);
  }

  lemma ProposeDoneHeeded(s: Replica, f: nat)
    requires AllHeeded(s, f) && f > 0
    ensures AllHeeded(ProposeDone(s, f, 1), f)
  {
    hide AllHeeded, BroadcastAux;
    var rs := At(s, 1);
    var t := Put(s.(facts := s.facts + {Proposed(1, 1)}), 1, rs.(est := 1, binValues := rs.binValues + {1}, coordStepDone := true));
    KeptHeeded(s, t, f);
    BroadcastAuxHeeded(t, f, 1);
  }

  lemma NextHeeded(sys: System, ev: Event)
    requires Enabled(sys, ev) && Actor(ev) in sys.nodes && AllHeeded(sys.nodes[Actor(ev)], sys.f) && sys.f > 0
    ensures AllHeeded(Next(sys, ev), sys.f)
  {
    hide AllHeeded, ProposeValue, ProposeDone, OnTimer, OnEstimate, OnAux, Sendable;
    var s := sys.nodes[Actor(ev)];
    match ev
    case ProposeZero(_) => ProposeHeeded(s, sys.f, 1, 0);
    case ProposeReadied(_) => ProposeDoneHeeded(s, sys.f);
    case Timer(_, r) => OnTimerHeeded(s, sys.f, r);
    case Deliver(_, e) =>
      match e.msg
      case Estimate(r, v) => OnEstimateHeeded(s, sys.f, e.from, r, v);
      case Aux(r, values) => OnAuxHeeded(s, sys.f, e.from, r, values);
  }

  lemma {:induction false} RunHeeded(sys: System, evs: seq<Event>)
    requires ValidRun(sys, evs) && sys.f > 0 && forall p :: p in sys.nodes ==> AllHeeded(sys.nodes[p], sys.f)
    ensures RunEnds(sys, evs).f == sys.f && forall p :: p in RunEnds(sys, evs).nodes ==> AllHeeded(RunEnds(sys, evs).nodes[p], sys.f)
    decreases |evs|
  {
    hide AllHeeded, Next, Enabled;
    if evs != [] {
      EnabledActor(sys, evs[0]);
      NextHeeded(sys, evs[0]);
      RunHeeded(After(sys, evs[0]), evs[1..]);
    }
  }

  /** In every run of a cluster with f > 0, a replica that has received a value from f+1 peers has sent it along, and
      one that has received it from 2f+1 peers holds it as a candidate. */
  lemma NoEstimateInVain(sys: System, p: PeerID, r: nat, v: int)
    requires Reached(sys) && p in sys.nodes && sys.f > 0
    ensures var s := sys.nodes[p];
      && (|EstSenders(s.got, r, v)| > sys.f ==> Estimate(r, v) in s.sent)
      && (|EstSenders(s.got, r, v)| > 2 * sys.f ==> v in At(s, r).binValues)
  {
    hide ValidRun, RunEnds;
    var start, evs :| Start(start) && ValidRun(start, evs) && RunEnds(start, evs) == sys;
    forall q | q in start.nodes ensures AllHeeded(start.nodes[q], start.f) {
      assert forall k: nat :: At(start.nodes[q], k) == MakeRound();
    }
    RunKeepsSize(start, evs);
    RunHeeded(start, evs);
    hide Start;
    assert Heeded(sys.nodes[p], sys.f, r, v);
  }

  lemma {:induction false} RunKeepsSize(sys: System, evs: seq<Event>)
    requires ValidRun(sys, evs)
    ensures RunEnds(sys, evs).f == sys.f
    decreases |evs|
  {
    hide Next, Enabled;
    if evs != [] {
      RunKeepsSize(After(sys, evs[0]), evs[1..]);
    }
  }

  /** With f = 0 the replica's own estimate is the 2f+1st, is not looked at, and makes no candidate. */
  lemma AloneInVain()
    ensures var t := ProposeValue(Initial(), 1, 0);
      Count(At(t, 1).bvbEstimates, 0) == 1 && At(t, 1).binValues == {} && OnTimer(t, 0, 1) == t
  {
  }
}
