/** Runs of one DBFT instance among 3f+1 replicas.  The channel delivers to a replica at most one Aux per
    sender and round and at most one Estimate per sender, round and value; faulty senders may send anything. */
module DispelAgreement {
  import opened Quorums
  import opened DispelBinary
  import opened DispelLocal

  datatype System = System(f: nat, faulty: set<PeerID>, nodes: map<PeerID, Replica>)

  datatype Event =
    | ProposeZero(at: PeerID)
    | ProposeReadied(at: PeerID)
    | Deliver(to: PeerID, e: Envelope)
    | Timer(at: PeerID, round: nat)

  predicate Sendable(sys: System, e: Envelope) {
    e.from in sys.faulty || (e.from in sys.nodes && e.msg in sys.nodes[e.from].sent)
  }

  predicate Enabled(sys: System, ev: Event) {
    match ev
    case ProposeZero(p) => p in sys.nodes
    case ProposeReadied(p) => p in sys.nodes
    case Timer(p, _) => p in sys.nodes
    case Deliver(p, e) =>
      && p in sys.nodes && Sendable(sys, e) && e !in sys.nodes[p].got
      && (e.msg.Aux? ==> e.from !in AuxSenders(sys.nodes[p].got, e.msg.round))
  }

  function Actor(ev: Event): PeerID {
    if ev.Deliver? then ev.to else ev.at
  }

  function Next(sys: System, ev: Event): Replica
    requires Enabled(sys, ev)
  {
    match ev
    case ProposeZero(p) => ProposeValue(sys.nodes[p], 1, 0)
    case ProposeReadied(p) => ProposeDone(sys.nodes[p], sys.f, 1)
    case Timer(p, r) => OnTimer(sys.nodes[p], sys.f, r)
    case Deliver(p, e) => Receive(sys.nodes[p], sys.f, e)
  }

  function After(sys: System, ev: Event): System
    requires Enabled(sys, ev)
  {
    sys.(nodes := sys.nodes[Actor(ev) := Next(sys, ev)])
  }

  predicate ValidRun(sys: System, evs: seq<Event>)
    decreases |evs|
  {
    evs == [] || (Enabled(sys, evs[0]) && ValidRun(After(sys, evs[0]), evs[1..]))
  }

  function RunEnds(sys: System, evs: seq<Event>): System
    requires ValidRun(sys, evs)
    decreases |evs|
  {
    if evs == [] then sys else RunEnds(After(sys, evs[0]), evs[1..])
  }

  ghost predicate Start(sys: System) {
    && |sys.faulty| <= sys.f && sys.nodes.Keys == Peers(sys.f) - sys.faulty
    && sys.faulty <= Peers(sys.f) && forall p :: p in sys.nodes ==> sys.nodes[p] == Initial()
  }

  ghost predicate Reached(sys: System) {
    exists start, evs :: Start(start) && ValidRun(start, evs) && RunEnds(start, evs) == sys
  }

  /** A correct replica has introduced v through binaryPropose in round r. */
  ghost predicate Introduced(sys: System, r: nat, v: int) {
    exists p :: p in sys.nodes && Proposed(r, v) in sys.nodes[p].facts
  }

  // ----- the invariant

  ghost predicate NodeInv(sys: System, s: Replica) {
    && Local(s, sys.f)
    && (forall e :: e in s.got ==> e.from in Peers(sys.f) && Sendable(sys, e))
    && (forall r: nat, v :: v in At(s, r).bvbSent || v in At(s, r).binValues ==> Introduced(sys, r, v))
  }

  ghost predicate SysInv(sys: System) {
    && |sys.faulty| <= sys.f && sys.faulty <= Peers(sys.f) && sys.nodes.Keys == Peers(sys.f) - sys.faulty
    && forall p :: p in sys.nodes ==> NodeInv(sys, sys.nodes[p])
  }

  lemma AuxGot(s: Replica, f: nat, r: nat)
    ensures AfterAux(s, f, r).got == s.got && BroadcastAux(s, f, r).got == s.got
  {
    hide Passes, EstOf;
  }

  lemma NextGot(sys: System, ev: Event)
    requires Enabled(sys, ev)
    ensures Next(sys, ev).got == sys.nodes[Actor(ev)].got + if ev.Deliver? then {ev.e} else {}
  {
    hide AfterAux, BroadcastAux;
    forall s, r: nat ensures AfterAux(s, sys.f, r).got == s.got && BroadcastAux(s, sys.f, r).got == s.got {
      AuxGot(s, sys.f, r);
    }
  }

  lemma NextLocal(sys: System, ev: Event)
    requires SysInv(sys) && Enabled(sys, ev)
    ensures var s, t := sys.nodes[Actor(ev)], Next(sys, ev);
      Local(t, sys.f) && Grows(s, t)
  {
    var s := sys.nodes[Actor(ev)];
    assert NodeInv(sys, s);
    hide Local, Grows, ProposeValue, ProposeDone, OnTimer, OnEstimate, OnAux;
    match ev
    case ProposeZero(p) => ProposeFirstKeeps(s, sys.f);
    case ProposeReadied(p) => ProposeFirstKeeps(s, sys.f);
    case Timer(p, r) => OnTimerKeeps(s, sys.f, r);
    case Deliver(p, e) =>
      match e.msg {
        case Estimate(r, v) => OnEstimateKeeps(s, sys.f, e.from, r, v);
        case Aux(r, values) => OnAuxKeeps(s, sys.f, e.from, r, values);
      }
  }

  lemma IntroducedGrows(sys: System, p: PeerID, t: Replica, r: nat, v: int)
    requires p in sys.nodes && sys.nodes[p].facts <= t.facts && Introduced(sys, r, v)
    ensures Introduced(sys.(nodes := sys.nodes[p := t]), r, v)
  {
    var q :| q in sys.nodes && Proposed(r, v) in sys.nodes[q].facts;
    assert Proposed(r, v) in sys.(nodes := sys.nodes[p := t]).nodes[q].facts;
  }

  /** f+1 estimates of v come from somebody correct, who had been given v by somebody correct. */
  lemma EchoesJustified(sys: System, p: PeerID, t: Replica, r: nat, v: int)
    requires SysInv(sys) && p in sys.nodes && Grows(sys.nodes[p], t) && Justified(t, r, v, sys.f + 1)
    requires forall e :: e in t.got ==> e.from in Peers(sys.f) && Sendable(sys, e)
    ensures Introduced(sys.(nodes := sys.nodes[p := t]), r, v)
  {
    var after := sys.(nodes := sys.nodes[p := t]);
    if Proposed(r, v) in t.facts {
      assert Proposed(r, v) in after.nodes[p].facts;
    } else {
      var q := CorrectMember(sys.f, sys.faulty, EstSenders(t.got, r, v));
      assert Envelope(q, Estimate(r, v)) in t.got;
      assert Estimate(r, v) in sys.nodes[q].sent && NodeInv(sys, sys.nodes[q]);
      assert EstimatesOK(sys.nodes[q], sys.f, r);
      IntroducedGrows(sys, p, t, r, v);
    }
  }

  lemma OtherNode(sys: System, p: PeerID, t: Replica, s: Replica)
    requires p in sys.nodes && NodeInv(sys, s) && Grows(sys.nodes[p], t)
    ensures NodeInv(sys.(nodes := sys.nodes[p := t]), s)
  {
    hide Local;
    var after := sys.(nodes := sys.nodes[p := t]);
    forall r: nat, v | v in At(s, r).bvbSent || v in At(s, r).binValues ensures Introduced(after, r, v) {
      IntroducedGrows(sys, p, t, r, v);
    }
  }

  lemma ActorNode(sys: System, p: PeerID, t: Replica)
    requires SysInv(sys) && p in sys.nodes && Local(t, sys.f) && Grows(sys.nodes[p], t)
    requires forall e :: e in t.got ==> e.from in Peers(sys.f) && Sendable(sys, e)
    ensures NodeInv(sys.(nodes := sys.nodes[p := t]), t)
  {
    var after := sys.(nodes := sys.nodes[p := t]);
    hide SysInv, Introduced, FactsOK, DecisionOK, Justified;
    forall r: nat, v | v in At(t, r).bvbSent || v in At(t, r).binValues ensures Introduced(after, r, v) {
      assert EstimatesOK(t, sys.f, r);
      EchoesJustified(sys, p, t, r, v);
    }
  }

  lemma StepKeeps(sys: System, ev: Event)
    requires SysInv(sys) && Enabled(sys, ev)
    ensures SysInv(After(sys, ev))
  {
    hide Next, NodeInv, Grows, Local, Sendable;
    var p, t := Actor(ev), Next(sys, ev);
    NextLocal(sys, ev);
    GotSendable(sys, ev);
    ActorNode(sys, p, t);
    forall q | q in After(sys, ev).nodes ensures NodeInv(After(sys, ev), After(sys, ev).nodes[q]) {
      if q != p {
        OtherNode(sys, p, t, sys.nodes[q]);
      }
    }
  }

  lemma GotSendable(sys: System, ev: Event)
    requires SysInv(sys) && Enabled(sys, ev)
    ensures forall e :: e in Next(sys, ev).got ==> e.from in Peers(sys.f) && Sendable(sys, e)
  {
    NextGot(sys, ev);
    hide Next, Local, Introduced;
    assert NodeInv(sys, sys.nodes[Actor(ev)]);
  }

  lemma {:induction false} RunKeeps(sys: System, evs: seq<Event>)
    requires SysInv(sys) && ValidRun(sys, evs)
    ensures SysInv(RunEnds(sys, evs))
    decreases |evs|
  {
    if evs != [] {
      StepKeeps(sys, evs[0]);
      RunKeeps(After(sys, evs[0]), evs[1..]);
    }
  }

  lemma ReachedInv(sys: System)
    requires Reached(sys)
    ensures SysInv(sys)
  {
    var start, evs :| Start(start) && ValidRun(start, evs) && RunEnds(start, evs) == sys;
    StartInv(start);
    hide SysInv, Start;
    RunKeeps(start, evs);
  }

  lemma StartInv(sys: System)
    requires Start(sys)
    ensures SysInv(sys)
  {
  }

  // ----- the results

  /** Justification: a candidate of a correct replica was introduced in that round by a correct replica;
      f+1 echoes alone never create one. */
  lemma Justification(sys: System, p: PeerID, r: nat, v: int)
    requires Reached(sys) && p in sys.nodes && v in At(sys.nodes[p], r).binValues
    ensures Introduced(sys, r, v)
  {
    ReachedInv(sys);
    assert NodeInv(sys, sys.nodes[p]);
  }

  /** Correct replicas never send a second estimate of a value, or a second Aux, in a round: where one is
      sent, none has been before, and every Aux sent is of one and the same non-empty set. */
  lemma SendsOnce(sys: System, p: PeerID, r: nat, v: int, vs: set<int>, ws: set<int>)
    requires Reached(sys) && p in sys.nodes
    ensures v !in At(sys.nodes[p], r).bvbSent ==> Estimate(r, v) !in sys.nodes[p].sent
    ensures !At(sys.nodes[p], r).auxSent ==> Aux(r, vs) !in sys.nodes[p].sent
    ensures Aux(r, vs) in sys.nodes[p].sent && Aux(r, ws) in sys.nodes[p].sent ==> vs == ws && vs != {}
  {
    ReachedInv(sys);
    assert NodeInv(sys, sys.nodes[p]);
    assert EstimatesOK(sys.nodes[p], sys.f, r) && AuxOK(sys.nodes[p], r);
  }

  /** Two passes of one round share a correct sender, and so an Aux set. */
  lemma CommonAux(sys: System, p: PeerID, q: PeerID, x: Fact, y: Fact) returns (vs: set<int>)
    requires SysInv(sys) && p in sys.nodes && q in sys.nodes && x in sys.nodes[p].facts && y in sys.nodes[q].facts
    requires x.Passed? && y.Passed? && x.round == y.round
    ensures vs != {} && vs <= x.values && vs <= y.values
  {
    var r, f := x.round, sys.f;
    assert NodeInv(sys, sys.nodes[p]) && NodeInv(sys, sys.nodes[q]);
    assert PassOK(sys.nodes[p], f, x) && PassOK(sys.nodes[q], f, y);
    hide Local, Introduced;
    assert AuxSenders(x.got, r) <= Peers(f) && AuxSenders(y.got, r) <= Peers(f);
    var t := QuorumIntersection(f, sys.faulty, AuxSenders(x.got, r), AuxSenders(y.got, r));
    var d :| d in x.got && d.msg.Aux? && d.msg.round == r && d.from == t;
    var e :| e in y.got && e.msg.Aux? && e.msg.round == r && e.from == t;
    vs := d.msg.values;
    assert Sendable(sys, d) && Sendable(sys, e) && NodeInv(sys, sys.nodes[t]);
    assert AuxOK(sys.nodes[t], r) by { RoundOf(sys.nodes[t], f, r) by { assert Local(sys.nodes[t], f); } }
    assert Aux(r, d.msg.values) in sys.nodes[t].sent && Aux(r, e.msg.values) in sys.nodes[t].sent;
  }

  /** Convergence: once a correct replica has decided v in round r, every pass of the Aux guards of round r by
      a correct replica, earlier or later and with whatever further messages, makes its estimate v. */
  lemma Convergence(sys: System, p: PeerID, q: PeerID, y: Fact)
    requires Reached(sys) && p in sys.nodes && sys.nodes[p].c.decided
    requires q in sys.nodes && y in sys.nodes[q].facts && y.Passed? && y.round == sys.nodes[p].c.decidedRound
    ensures EstOf(y.round, y.values) == sys.nodes[p].c.decidedValue
  {
    ReachedInv(sys);
    DecidedRound(sys, p, q, y);
  }

  lemma DecidedRound(sys: System, p: PeerID, q: PeerID, y: Fact)
    requires SysInv(sys) && p in sys.nodes && sys.nodes[p].c.decided
    requires q in sys.nodes && y in sys.nodes[q].facts && y.Passed? && y.round == sys.nodes[p].c.decidedRound
    ensures EstOf(y.round, y.values) == sys.nodes[p].c.decidedValue
  {
    var v := sys.nodes[p].c.decidedValue;
    assert NodeInv(sys, sys.nodes[p]);
    assert DecisionOK(sys.nodes[p]);
    var got :| Passed(y.round, {v}, got) in sys.nodes[p].facts;
    var vs := CommonAux(sys, p, q, Passed(y.round, {v}, got), y);
    assert vs == {v} && v in y.values;
    hide SysInv, NodeInv, DecisionOK;
    if |y.values| == 1 {
      SingletonIs(y.values, v);
    }
  }

  lemma SingletonIs(vs: set<int>, v: int)
    requires |vs| == 1 && v in vs
    ensures vs == {v} && forall r: nat :: EstOf(r, vs) == v
  {
    assert v in {Only(vs)};
  }

  // ----- agreement

  /** Every restart so far has proposed a value that some pass of its round had left. */
  ghost predicate SoundRestarts(sys: System) {
    forall p :: p in sys.nodes ==> Sound(sys.nodes[p])
  }

  /** What the invariant says of a pass: it saw something, and only what the round's proposers introduced. */
  lemma PassFacts(sys: System, q: PeerID, y: Fact)
    requires SysInv(sys) && q in sys.nodes && y in sys.nodes[q].facts && y.Passed?
    ensures y.values != {} && forall w :: w in y.values ==> Introduced(sys, y.round, w)
  {
    var vs := CommonAux(sys, q, q, y, y);
    assert NodeInv(sys, sys.nodes[q]);
    assert PassOK(sys.nodes[q], sys.f, y);
    hide Local, Introduced;
  }

  lemma ProposalFacts(sys: System, q: PeerID, r: nat, v: int)
    requires SysInv(sys) && q in sys.nodes && Proposed(r, v) in sys.nodes[q].facts
    ensures ProposalOK(sys.nodes[q], r, v)
  {
  }

  /** A value that a pass left behind was introduced in its round, or is the parity of a round that saw both. */
  lemma PassedOrigin(sys: System, q: PeerID, r: nat, v: int)
    requires SysInv(sys) && q in sys.nodes && HasPassed(sys.nodes[q], r, v)
    ensures r >= 1 && (Introduced(sys, r, v) || v == r % 2)
    ensures (forall w :: Introduced(sys, r, w) ==> w == 0 || w == 1) ==> Introduced(sys, r, v)
  {
    hide SysInv, ProposalOK;
    var vs, got :| Passed(r, vs, got) in sys.nodes[q].facts && EstOf(r, vs) == v;
    var y := Passed(r, vs, got);
    PassFacts(sys, q, y);
    assert y.values == vs && y.round == r;
    var w := Member(vs);
    assert Introduced(sys, r, w);
    var t :| t in sys.nodes && Proposed(r, w) in sys.nodes[t].facts;
    ProposalFacts(sys, t, r, w);
    assert r >= 1 by { NotBeforeOne(sys.nodes[t], r, w); }
    if |vs| == 1 {
      SingletonIs(vs, w);
    } else if forall w :: Introduced(sys, r, w) ==> w == 0 || w == 1 {
      forall u | u in vs ensures u == 0 || u == 1 {
        assert Introduced(sys, r, u);
      }
      if v !in vs {
        assert vs <= {1 - v};
        SubsetSize(vs, {1 - v});
        assert false;
      }
    }
  }

  lemma Member(vs: set<int>) returns (v: int)
    requires vs != {}
    ensures v in vs
  {
    if forall w: int :: w !in vs {
      assert false;
    }
    v :| v in vs;
  }

  lemma NotBeforeOne(s: Replica, r: nat, v: int)
    requires ProposalOK(s, r, v)
    ensures r >= 1
  {
  }

  /** Correct replicas only ever propose 0 and 1, whatever the faulty ones send. */
  lemma {:induction false} Binary(sys: System, r: nat, v: int)
    requires SysInv(sys) && Introduced(sys, r, v)
    ensures v == 0 || v == 1
    decreases r
  {
    hide SysInv;
    var p :| p in sys.nodes && Proposed(r, v) in sys.nodes[p].facts;
    ProposalFacts(sys, p, r, v);
    if !(r == 1 && (v == 0 || v == 1)) && v != 0 {
      if Proposed(r - 1, v) in sys.nodes[p].facts {
        assert Introduced(sys, r - 1, v);
        Binary(sys, r - 1, v);
      } else {
        PassedOrigin(sys, p, r - 1, v);
        if Introduced(sys, r - 1, v) {
          Binary(sys, r - 1, v);
        }
      }
    }
  }

  /** Every pass of round r has left the estimate v. */
  ghost predicate Unanimous(sys: System, r: nat, v: int) {
    forall t, x :: t in sys.nodes && x in sys.nodes[t].facts && x.Passed? && x.round == r ==> EstOf(r, x.values) == v
  }

  /** Unanimity carries over to the next round. */
  lemma NextUnanimous(sys: System, r: nat, v: int)
    requires SysInv(sys) && SoundRestarts(sys) && r >= 1 && Unanimous(sys, r, v)
    ensures Unanimous(sys, r + 1, v)
  {
    hide SysInv;
    forall q, y | q in sys.nodes && y in sys.nodes[q].facts && y.Passed? && y.round == r + 1 ensures EstOf(r + 1, y.values) == v {
      PassFacts(sys, q, y);
      forall w | w in y.values ensures w == v {
        assert Introduced(sys, y.round, w);
        var t :| t in sys.nodes && Proposed(y.round, w) in sys.nodes[t].facts;
        NextProposal(sys, t, r, v, w);
      }
      assert y.values == {v};
      SingletonIs({v}, v);
    }
  }

  lemma NextProposal(sys: System, t: PeerID, r: nat, v: int, w: int)
    requires SysInv(sys) && SoundRestarts(sys) && r >= 1 && Unanimous(sys, r, v)
    requires t in sys.nodes && Proposed(r + 1, w) in sys.nodes[t].facts
    ensures w == v
  {
  }

  /** Once every pass of round r has given v, so does every pass of a later round. */
  lemma {:induction false} Persists(sys: System, r: nat, v: int, n: nat)
    requires SysInv(sys) && SoundRestarts(sys) && 1 <= r <= n && Unanimous(sys, r, v)
    ensures Unanimous(sys, n, v)
    decreases n
  {
    hide SysInv, SoundRestarts, Unanimous;
    if n > r {
      Persists(sys, r, v, n - 1);
      NextUnanimous(sys, n - 1, v);
    }
  }

  /** Agreement: where restarts are sound, no two correct replicas decide differently, in whatever rounds. */
  lemma DecisionsAgree(sys: System, p: PeerID, q: PeerID)
    requires Reached(sys) && SoundRestarts(sys) && p in sys.nodes && q in sys.nodes
    requires sys.nodes[p].c.decided && sys.nodes[q].c.decided
    ensures sys.nodes[p].c.decidedValue == sys.nodes[q].c.decidedValue
  {
    ReachedInv(sys);
    if sys.nodes[p].c.decidedRound <= sys.nodes[q].c.decidedRound {
      LaterAgrees(sys, p, q);
    } else {
      LaterAgrees(sys, q, p);
    }
  }

  // ----- steps after which restarts are sound

  /** What can be asked of a step before it is taken: the estimate of the decided round is the decided value, and a
      restart, if there is one, is of that round. */
  ghost predicate Steady(sys: System, ev: Event)
    requires Enabled(sys, ev)
  {
    var s, t := sys.nodes[Actor(ev)], Next(sys, ev);
    && (t.c.decided ==> At(t, t.c.decidedRound).est == t.c.decidedValue)
    && forall r, v :: Restarted(r, v) in t.facts && Restarted(r, v) !in s.facts ==> r == t.c.decidedRound
  }

  ghost predicate SteadyRun(sys: System, evs: seq<Event>)
    requires ValidRun(sys, evs)
    decreases |evs|
  {
    evs == [] || (Steady(sys, evs[0]) && SteadyRun(After(sys, evs[0]), evs[1..]))
  }

  /** A restart proposes the estimate of its round, and only after a decision. */
  lemma RestartValue(s: Replica, f: nat, r: nat, k: nat, v: int)
    requires Restarted(k, v) !in s.facts && Restarted(k, v) in Restart(s, r).facts
    ensures k == r && v == At(Restart(s, r), k).est && s.c.restartOnBinValues && Restart(s, r).c.decided == s.c.decided
  {
  }

  lemma PassRestartsNothing(s: Replica, f: nat, r: nat, k: nat, v: int)
    ensures Restarted(k, v) in AfterAux(s, f, r).facts <==> Restarted(k, v) in s.facts
  {
    hide Passes, EstOf, Union;
  }

  lemma AuxRestartsNothing(s: Replica, f: nat, r: nat, k: nat, v: int)
    ensures Restarted(k, v) in AfterAux(s, f, r).facts <==> Restarted(k, v) in s.facts
    ensures Restarted(k, v) in BroadcastAux(s, f, r).facts <==> Restarted(k, v) in s.facts
    ensures Restarted(k, v) in CoordStep(s, f, r).facts <==> Restarted(k, v) in s.facts
  {
    hide AfterAux;
    forall u: Replica ensures Restarted(k, v) in AfterAux(u, f, r).facts <==> Restarted(k, v) in u.facts {
      PassRestartsNothing(u, f, r, k, v);
    }
  }

  lemma NewRestart(s: Replica, f: nat, from: PeerID, r: nat, w: int, k: nat, v: int)
    requires Local(s, f) && Envelope(from, Estimate(r, w)) !in s.got
    requires Restarted(k, v) !in s.facts && Restarted(k, v) in OnEstimate(s, f, from, r, w).facts
    ensures var t := OnEstimate(s, f, from, r, w); t.c.decided && v == At(t, k).est
  {
    var a := Counted(s, f, from, r, w);
    CountedKeeps(s, f, from, r, w);
    assert a.facts == s.facts && Admit(a, r, w).facts == s.facts;
    var b := CoordStep(Admit(a, r, w), f, r);
    AuxRestartsNothing(Admit(a, r, w), f, r, k, v);
    assert OnEstimate(s, f, from, r, w) == if Count(At(s, r).bvbEstimates, w) + 1 == 2 * f + 1 then Restart(b, r) else a;
    hide Local, Counted, Admit, CoordStep, OnEstimate, Grows, Justified;
    AdmitKeeps(a, f, r, w);
    CoordStepKeeps(Admit(a, r, w), f, r);
    RestartValue(b, f, r, k, v);
    hide Restart;
    assert b.c.decided by { FlagMeansDecided(b, f); }
  }

  lemma FlagMeansDecided(s: Replica, f: nat)
    requires Local(s, f) && s.c.restartOnBinValues
    ensures s.c.decided
  {
  }

  lemma StepRestarts(sys: System, ev: Event, k: nat, v: int)
    requires SysInv(sys) && Enabled(sys, ev) && Restarted(k, v) !in sys.nodes[Actor(ev)].facts && Restarted(k, v) in Next(sys, ev).facts
    ensures Next(sys, ev).c.decided && v == At(Next(sys, ev), k).est
  {
    var s := sys.nodes[Actor(ev)];
    assert NodeInv(sys, s);
    hide SysInv, NodeInv, OnEstimate, AfterAux, BroadcastAux, Local;
    match ev
    case ProposeZero(_) =>
    case ProposeReadied(_) =>
      forall u: Replica ensures Restarted(k, v) in BroadcastAux(u, sys.f, 1).facts <==> Restarted(k, v) in u.facts {
        AuxRestartsNothing(u, sys.f, 1, k, v);
      }
    case Timer(_, r) =>
      forall u: Replica ensures Restarted(k, v) in BroadcastAux(u, sys.f, r).facts <==> Restarted(k, v) in u.facts {
        AuxRestartsNothing(u, sys.f, r, k, v);
      }
    case Deliver(_, e) =>
      match e.msg {
        case Estimate(r, w) => NewRestart(s, sys.f, e.from, r, w, k, v);
        case Aux(r, values) =>
          forall u: Replica ensures Restarted(k, v) in AfterAux(u, sys.f, r).facts <==> Restarted(k, v) in u.facts {
            AuxRestartsNothing(u, sys.f, r, k, v);
          }
      }
  }

  /** A steady step keeps restarts sound. */
  lemma SteadyStep(sys: System, ev: Event)
    requires SysInv(sys) && Enabled(sys, ev) && SoundRestarts(sys) && Steady(sys, ev)
    ensures SoundRestarts(After(sys, ev))
  {
    var p, s, t := Actor(ev), sys.nodes[Actor(ev)], Next(sys, ev);
    NextLocal(sys, ev);
    assert DecisionOK(t);
    hide SysInv, Local, Next, RoundsOK, FactsOK;
    assert Sound(s);
    forall r, v | Restarted(r, v) in t.facts ensures HasPassed(t, r, v) {
      if Restarted(r, v) in s.facts {
        PassedStays(s, t, r, v);
      } else {
        StepRestarts(sys, ev, r, v);
        DecisionPassed(t);
      }
    }
  }

  lemma PassedStays(s: Replica, t: Replica, r: nat, v: int)
    requires s.facts <= t.facts && HasPassed(s, r, v)
    ensures HasPassed(t, r, v)
  {
  }

  lemma DecisionPassed(s: Replica)
    requires DecisionOK(s) && s.c.decided
    ensures HasPassed(s, s.c.decidedRound, s.c.decidedValue)
  {
    SingletonIs({s.c.decidedValue}, s.c.decidedValue);
  }

  /** So a run of steady steps has sound restarts. */
  lemma {:induction false} SteadyRunsSound(sys: System, evs: seq<Event>)
    requires SysInv(sys) && SoundRestarts(sys) && ValidRun(sys, evs) && SteadyRun(sys, evs)
    ensures SoundRestarts(RunEnds(sys, evs))
    decreases |evs|
  {
    hide SysInv, SoundRestarts, Steady;
    if evs != [] {
      StepKeeps(sys, evs[0]);
      SteadyStep(sys, evs[0]);
      SteadyRunsSound(After(sys, evs[0]), evs[1..]);
    }
  }

  /** And no two correct replicas decide differently in it. */
  lemma SteadyDecisionsAgree(start: System, evs: seq<Event>, p: PeerID, q: PeerID)
    requires Start(start) && ValidRun(start, evs) && SteadyRun(start, evs)
    requires p in RunEnds(start, evs).nodes && q in RunEnds(start, evs).nodes
    requires RunEnds(start, evs).nodes[p].c.decided && RunEnds(start, evs).nodes[q].c.decided
    ensures RunEnds(start, evs).nodes[p].c.decidedValue == RunEnds(start, evs).nodes[q].c.decidedValue
  {
    StartInv(start);
    assert SoundRestarts(start);
    hide SysInv, SoundRestarts;
    SteadyRunsSound(start, evs);
    DecisionsAgree(RunEnds(start, evs), p, q);
  }

  /** What a replica decided on stays the estimate of that round, except that an Aux message overwrites it if and
      only if it makes the guards of the round before pass again, with values that give another estimate. */
  lemma LateAuxIff(sys: System, p: PeerID, from: PeerID, r: nat, values: set<int>)
    requires Reached(sys) && Enabled(sys, Deliver(p, Envelope(from, Aux(r, values))))
    requires sys.nodes[p].c.decided && At(sys.nodes[p], sys.nodes[p].c.decidedRound).est == sys.nodes[p].c.decidedValue
    ensures var s, t := sys.nodes[p], Next(sys, Deliver(p, Envelope(from, Aux(r, values))));
      var rs := At(s, r).(auxEstimates := At(s, r).auxEstimates + [values]);
      At(t, s.c.decidedRound).est != s.c.decidedValue <==>
        r + 1 == s.c.decidedRound && !s.c.halt && Passes(rs, sys.f) && EstOf(r, Union(rs.auxEstimates)) != s.c.decidedValue
  {
    var ev := Deliver(p, Envelope(from, Aux(r, values)));
    var s := sys.nodes[p];
    hide SysInv, Reached, Passes, EstOf, Union, OnAux, OnEstimate, At, NodeInv, Sendable, AuxSenders;
    ReachedInv(sys);
    StepKeeps(sys, ev);
    AuxOutcome(s, sys.f, from, r, values);
    var vs := Union(At(s, r).auxEstimates + [values]);
    var got := s.got + {Envelope(from, Aux(r, values))};
    if r == s.c.decidedRound && Passed(r, vs, got) in Next(sys, ev).facts {
      DecidedRound(After(sys, ev), p, p, Passed(r, vs, got));
    }
  }

  /** What an Aux message makes of the estimate of the decided round. */
  lemma AuxOutcome(s: Replica, f: nat, from: PeerID, r: nat, values: set<int>)
    requires s.c.decided
    ensures var t, d, rs := OnAux(s, f, from, r, values), s.c.decidedRound, At(s, r).(auxEstimates := At(s, r).auxEstimates + [values]);
      && t.c.decided && t.c.decidedRound == d && t.c.decidedValue == s.c.decidedValue
      && (!Passes(rs, f) ==> At(t, d).est == At(s, d).est)
      && (Passes(rs, f) ==>
            && At(t, d).est == (if d == r || (d == r + 1 && !s.c.halt) then EstOf(r, Union(rs.auxEstimates)) else At(s, d).est)
            && Passed(r, Union(rs.auxEstimates), s.got + {Envelope(from, Aux(r, values))}) in t.facts)
  {
    var rs := At(s, r).(auxEstimates := At(s, r).auxEstimates + [values]);
    var u := Put(s.(got := s.got + {Envelope(from, Aux(r, values))}), r, rs);
    hide Passes, EstOf, Union, Conclude, Continue;
    if Passes(rs, f) {
      ConcludeOutcome(u, r);
      ContinueOutcome(Conclude(u, r), r, s.c.decidedRound);
    }
  }

  lemma ConcludeOutcome(s: Replica, r: nat)
    requires s.c.decided
    ensures var t := Conclude(s, r);
      && t.c == s.c.(rs := t.c.rs) && Passed(r, Union(At(s, r).auxEstimates), s.got) in t.facts
      && At(t, r).est == EstOf(r, Union(At(s, r).auxEstimates)) && forall k: nat :: k != r ==> At(t, k) == At(s, k)
  {
    hide EstOf, Union;
  }

  /** After a round the next one gets its estimate, unless it is the round decided or the instance halts. */
  lemma ContinueOutcome(s: Replica, r: nat, k: nat)
    requires s.c.decided && k == s.c.decidedRound
    ensures At(Continue(s, r), k).est == if k == r + 1 && !s.c.halt then At(s, r).est else At(s, k).est
    ensures s.facts <= Continue(s, r).facts && Continue(s, r).c.decided
    ensures Continue(s, r).c.decidedValue == s.c.decidedValue && Continue(s, r).c.decidedRound == s.c.decidedRound
  {
  }

  lemma DecisionPass(sys: System, p: PeerID) returns (y: Fact)
    requires SysInv(sys) && p in sys.nodes && sys.nodes[p].c.decided
    ensures y in sys.nodes[p].facts && y.Passed? && y.round == sys.nodes[p].c.decidedRound && y.values == {sys.nodes[p].c.decidedValue}
    ensures y.round >= 1 && EstOf(y.round, y.values) == sys.nodes[p].c.decidedValue
  {
    var c := sys.nodes[p].c;
    assert NodeInv(sys, sys.nodes[p]);
    assert DecisionOK(sys.nodes[p]);
    var got :| Passed(c.decidedRound, {c.decidedValue}, got) in sys.nodes[p].facts;
    y := Passed(c.decidedRound, {c.decidedValue}, got);
    hide SysInv, NodeInv;
    SingletonIs({c.decidedValue}, c.decidedValue);
    PassedOrigin(sys, p, y.round, c.decidedValue);
  }

  lemma LaterAgrees(sys: System, p: PeerID, q: PeerID)
    requires SysInv(sys) && SoundRestarts(sys) && p in sys.nodes && q in sys.nodes
    requires sys.nodes[p].c.decided && sys.nodes[q].c.decided && sys.nodes[p].c.decidedRound <= sys.nodes[q].c.decidedRound
    ensures sys.nodes[p].c.decidedValue == sys.nodes[q].c.decidedValue
  {
    hide SysInv, SoundRestarts;
    var r, v := sys.nodes[p].c.decidedRound, sys.nodes[p].c.decidedValue;
    var x := DecisionPass(sys, p);
    var y := DecisionPass(sys, q);
    forall t, z | t in sys.nodes && z in sys.nodes[t].facts && z.Passed? && z.round == r ensures EstOf(r, z.values) == v {
      DecidedRound(sys, p, t, z);
    }
    Persists(sys, r, v, y.round);
  }

  /** Validity: what a correct replica decides, some correct replica proposed in the first round. */
  lemma DecisionValid(sys: System, p: PeerID)
    requires Reached(sys) && SoundRestarts(sys) && p in sys.nodes && sys.nodes[p].c.decided
    ensures Introduced(sys, 1, sys.nodes[p].c.decidedValue)
  {
    ReachedInv(sys);
    hide SysInv, SoundRestarts;
    var y := DecisionPass(sys, p);
    PassFacts(sys, p, y);
    Origin(sys, y.round, sys.nodes[p].c.decidedValue);
  }

  lemma {:induction false} Origin(sys: System, r: nat, v: int)
    requires SysInv(sys) && SoundRestarts(sys) && Introduced(sys, r, v)
    ensures Introduced(sys, 1, v)
    decreases r
  {
    hide SysInv;
    var p :| p in sys.nodes && Proposed(r, v) in sys.nodes[p].facts;
    ProposalFacts(sys, p, r, v);
    if r > 1 {
      assert Sound(sys.nodes[p]) && HasPassed(sys.nodes[p], r - 1, v);
      var k: nat := r - 1;
      forall w | Introduced(sys, k, w) ensures w == 0 || w == 1 {
        Binary(sys, k, w);
      }
      PassedOrigin(sys, p, k, v);
      Origin(sys, k, v);
    }
  }
}
