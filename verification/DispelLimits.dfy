/** Why DBFT agreement needs sound restarts.  A replica that has decided re-evaluates an earlier round when a
    late Aux message arrives; that overwrites the estimate of the round of its decision, and the restart
    branch then proposes the other value.  The run below, with one faulty replica among four, ends with
    replicas 0 and 1 having decided 0 and replica 2 having decided 1. */
module DispelLimits {
  import opened Quorums
  import opened DispelBinary
  import opened DispelLocal
  import opened DispelAgreement

  function Copies(v: int, n: nat): seq<set<int>> {
    if n == 0 then [] else Copies(v, n - 1) + [{v}]
  }

  lemma UnionMore(sets: seq<set<int>>, vs: set<int>)
    ensures Union(sets + [vs]) == Union(sets) + vs && Union([]) == {}
  {
    assert (sets + [vs])[..|sets|] == sets;
  }

  lemma {:induction false} UnionCopies(v: int, n: nat)
    requires n > 0
    ensures |Copies(v, n)| == n && Union(Copies(v, n)) == {v}
    decreases n
  {
    UnionMore(Copies(v, n - 1), {v});
    hide Union;
    if n > 1 {
      UnionCopies(v, n - 1);
    } else {
      assert Copies(v, 0) == [];
      assert {} + {v} == {v};
    }
  }

  /** A round in which the replica has proposed v and counted its own estimate. */
  function Opened(v: int): Round { Round(v, {}, {v}, map[v := 1], false, false, false, [], false) }

  /** Three estimates of v and the timer: the Aux message {v} is out, n Aux messages {v} are in. */
  function Voted3(v: int, n: nat): Round { Round(v, {v}, {v}, map[v := 3], true, true, true, Copies(v, n), true) }

  // ----- what single replicas do, for partner q

  lemma SecondVote(s: Replica, q: PeerID, r: nat, v: int)
    requires At(s, r) == Opened(v)
    ensures var t := OnEstimate(s, 1, q, r, v);
      t.c == s.c.(rs := s.c.rs[r := Opened(v).(bvbEstimates := map[v := 2])]) && t.sent == s.sent
  {
    assert map[v := 1][v := 2] == map[v := 2];
  }

  lemma ThirdVote(s: Replica, q: PeerID, r: nat, v: int)
    requires At(s, r) == Opened(v).(bvbEstimates := map[v := 2]) && !s.c.restartOnBinValues
    ensures var t := OnEstimate(s, 1, q, r, v);
      t.c == s.c.(rs := s.c.rs[r := Voted3(v, 0).(timerExpired := false, auxSent := false)]) && t.sent == s.sent
  {
    assert map[v := 2][v := 3] == map[v := 3];
    var rs := At(s, r).(bvbEstimates := map[v := 3]);
    var t := Put(s.(got := s.got + {Envelope(q, Estimate(r, v))}), r, rs);
    var u := Put(t, r, rs.(binValues := {v}));
    assert {} + {v} == {v};
    assert Admit(t, r, v) == u;
    var w := Put(u, r, rs.(binValues := {v}, coordStepDone := true, timerSet := true));
    assert CoordStep(u, 1, r) == w;
    assert Restart(w, r) == w;
    assert OnEstimate(s, 1, q, r, v) == w;
    assert w.c.rs == s.c.rs[r := rs.(binValues := {v}, coordStepDone := true, timerSet := true)];
  }

  lemma Fires(s: Replica, r: nat, v: int)
    requires At(s, r) == Voted3(v, 0).(est := At(s, r).est, timerExpired := false, auxSent := false)
    ensures var t := OnTimer(s, 1, r);
      t.c == s.c.(rs := s.c.rs[r := Voted3(v, 0).(est := At(s, r).est)]) && t.sent == s.sent + {Aux(r, {v})}
  {
  }

  /** The first and second Aux message {v}. */
  lemma Hears(s: Replica, from: PeerID, r: nat, v: int, n: nat)
    requires At(s, r) == Voted3(v, n).(est := At(s, r).est) && n < 2
    ensures var t := OnAux(s, 1, from, r, {v});
      t.c == s.c.(rs := s.c.rs[r := Voted3(v, n + 1).(est := At(s, r).est)]) && t.sent == s.sent
  {
    UnionCopies(v, n + 1);
  }

  /** The third one in a round of the other parity: go on with v. */
  lemma GoesOn(s: Replica, from: PeerID, r: nat, v: int)
    requires At(s, r) == Voted3(v, 2) && v != r % 2 && !s.c.decided && !s.c.halt && r + 1 !in s.c.rs
    ensures var t := OnAux(s, 1, from, r, {v});
      t.c == s.c.(rs := s.c.rs[r := Voted3(v, 3)][r + 1 := Opened(v)]) && t.sent == s.sent + {Estimate(r + 1, v)}
  {
    hide Copies, Union;
    CopiesMore(v, 2);
    UnionCopies(v, 3);
    OnlyIs(v);
  }

  lemma CopiesMore(v: int, n: nat)
    ensures Copies(v, n) + [{v}] == Copies(v, n + 1)
  {
  }

  /** The third one in a round of its own parity: decide v. */
  lemma Decides(s: Replica, from: PeerID, r: nat, v: int)
    requires At(s, r) == Voted3(v, 2).(est := At(s, r).est) && v == r % 2 && !s.c.decided && !s.c.halt
    ensures var t := OnAux(s, 1, from, r, {v});
      t.c == s.c.(rs := s.c.rs[r := Voted3(v, 3)], decided := true, decidedValue := v, decidedRound := r, restartOnBinValues := true)
      && t.sent == s.sent
  {
    assert Copies(v, 2) + [{v}] == Copies(v, 3);
    UnionCopies(v, 3);
    OnlyIs(v);
    hide Copies, Union;
  }

  /** Round 1 after the broadcast has finished as well. */
  function Both(aux: seq<set<int>>): Round { Round(1, {0, 1}, {0}, map[0 := 3], true, true, true, aux, true) }

  lemma TurnsReadied(s: Replica)
    requires At(s, 1) == Voted3(0, 3) && !s.c.halt
    ensures var t := ProposeDone(s, 1, 1);
      t.c == s.c.(rs := s.c.rs[1 := Both(Copies(0, 3))]) && t.sent == s.sent
  {
    assert {0} + {1} == {0, 1};
  }

  /** A late Aux {1} for round 1: the estimate of round 2, decided as 0, becomes 1. */
  lemma LateAux(s: Replica)
    requires At(s, 1) == Both(Copies(0, 3)) && At(s, 2) == Voted3(0, 3) && s.c.decided && s.c.decidedRound == 2 && !s.c.halt && 2 in s.c.rs
    ensures var t := OnAux(s, 1, 2, 1, {1});
      t.c == s.c.(rs := s.c.rs[1 := Both(Copies(0, 3) + [{1}])][2 := Revised(1)]) && t.sent == s.sent + {Estimate(2, 1)}
  {
    UnionCopies(0, 3);
    var sets := Copies(0, 3) + [{1}];
    assert sets[..|sets| - 1] == Copies(0, 3);
    assert Union(sets) == {0, 1} && |{0, 1}| == 2;
    hide Copies, Union;
    assert {0} + {1} == {0, 1};
    assert map[0 := 3][1 := 1] == map[0 := 3, 1 := 1];
  }

  /** Round 2 after the late proposal, with n estimates of 1. */
  function Revised(n: nat): Round { Round(1, {0}, {0, 1}, map[0 := 3, 1 := n], true, true, true, Copies(0, 3), true) }

  lemma RevisedSecond(s: Replica, q: PeerID)
    requires At(s, 2) == Revised(1)
    ensures var t := OnEstimate(s, 1, q, 2, 1);
      t.c == s.c.(rs := s.c.rs[2 := Revised(2)]) && t.sent == s.sent
  {
    assert map[0 := 3, 1 := 1][1 := 2] == map[0 := 3, 1 := 2];
    hide Copies;
  }

  /** The restart: round 3 opens with 1. */
  lemma RevisedThird(s: Replica, q: PeerID)
    requires At(s, 2) == Revised(2) && s.c.restartOnBinValues && !s.c.halt && 3 !in s.c.rs
    ensures var t := OnEstimate(s, 1, q, 2, 1);
      t.c == s.c.(rs := s.c.rs[2 := Revised(3).(binValues := {0, 1})][3 := Opened(1)], restartOnBinValues := false)
      && t.sent == s.sent + {Estimate(3, 1)}
  {
    hide Copies;
    assert map[0 := 3, 1 := 2][1 := 3] == map[0 := 3, 1 := 3];
    var rs := At(s, 2).(bvbEstimates := map[0 := 3, 1 := 3]);
    var t := Put(s.(got := s.got + {Envelope(q, Estimate(2, 1))}), 2, rs);
    assert {0} + {1} == {0, 1};
    var u := Put(t, 2, rs.(binValues := {0, 1}));
    assert Admit(t, 2, 1) == u && CoordStep(u, 1, 2) == u;
    assert OnEstimate(s, 1, q, 2, 1) == Restart(u, 2);
    hide OnEstimate, Admit, CoordStep;
    assert {} + {1} == {1};
    assert u.c.rs == s.c.rs[2 := Revised(3).(binValues := {0, 1})];
  }

  lemma OpensZero(s: Replica)
    requires s.c == Dbft(map[], false, 0, 0, false, false)
    ensures var t := ProposeValue(s, 1, 0);
      t.c == Dbft(map[1 := Opened(0)], false, 0, 0, false, false) && t.sent == s.sent + {Estimate(1, 0)}
  {
    assert {} + {0} == {0};
  }

  // ----- replica 2

  function Counted3(n: nat): Round { Round(0, {}, if n >= 2 then {1} else {}, map[1 := n], false, false, false, [], false) }

  lemma EarlyVote(s: Replica, q: PeerID, n: nat)
    requires At(s, 3) == (if n == 0 then MakeRound() else Counted3(n)) && n < 2
    ensures var t := OnEstimate(s, 1, q, 3, 1);
      t.c == s.c.(rs := s.c.rs[3 := Counted3(n + 1)]) && s.sent <= t.sent
  {
    assert map[1 := 1][1 := 2] == map[1 := 2];
    assert {} + {1} == {1};
  }

  lemma LastVote(s: Replica, q: PeerID)
    requires At(s, 3) == Counted3(2) && !s.c.restartOnBinValues
    ensures var t := OnEstimate(s, 1, q, 3, 1);
      t.c == s.c.(rs := s.c.rs[3 := Voted3(1, 0).(est := 0, timerExpired := false, auxSent := false)]) && t.sent == s.sent
  {
    assert map[1 := 2][1 := 3] == map[1 := 3];
    var rs := At(s, 3).(bvbEstimates := map[1 := 3]);
    var t := Put(s.(got := s.got + {Envelope(q, Estimate(3, 1))}), 3, rs);
    assert {} + {1} == {1};
    var u := Put(t, 3, rs.(binValues := {1}));
    var w := Put(u, 3, rs.(binValues := {1}, coordStepDone := true, timerSet := true));
    assert Admit(t, 3, 1) == u && CoordStep(u, 1, 3) == w && Restart(w, 3) == w;
    assert OnEstimate(s, 1, q, 3, 1) == w;
    assert w.c.rs == s.c.rs[3 := rs.(binValues := {1}, coordStepDone := true, timerSet := true)];
  }

  lemma Readied(s: Replica)
    requires s.c == Dbft(map[], false, 0, 0, false, false)
    ensures var t := ProposeDone(s, 1, 1);
      t.c == Dbft(map[1 := Round(1, {1}, {}, map[], true, false, false, [], true)], false, 0, 0, false, false) && t.sent == s.sent + {Aux(1, {1})}
  {
    assert {} + {1} == {1};
  }

  // ----- where the run stands

  datatype Key = EstKey(to: PeerID, from: PeerID, round: nat, value: int) | AuxKey(to: PeerID, from: PeerID, round: nat)

  function KeyOf(p: PeerID, e: Envelope): Key {
    match e.msg
    case Estimate(r, v) => EstKey(p, e.from, r, v)
    case Aux(r, _) => AuxKey(p, e.from, r)
  }

  datatype Trio = Trio(a: Dbft, b: Dbft, c: Dbft) {
    function Get(p: PeerID): Dbft {
      if p == 0 then a else if p == 1 then b else c
    }
    function Set(p: PeerID, x: Dbft): Trio {
      if p == 0 then this.(a := x) else if p == 1 then this.(b := x) else this.(c := x)
    }
  }

  /** The instances of replicas 0, 1 and 2, the deliveries done, and messages that correct replicas have sent. */
  ghost predicate Stage(sys: System, cs: Trio, done: set<Key>, said: set<Envelope>) {
    && Reached(sys) && sys.f == 1 && sys.faulty == {3} && sys.nodes.Keys == {0, 1, 2}
    && sys.nodes[0].c == cs.a && sys.nodes[1].c == cs.b && sys.nodes[2].c == cs.c
    && Delivered(sys, done) && Sent(sys, said)
  }

  ghost predicate Delivered(sys: System, done: set<Key>) {
    forall p, e :: p in sys.nodes && e in sys.nodes[p].got ==> KeyOf(p, e) in done
  }

  ghost predicate Sent(sys: System, said: set<Envelope>) {
    forall e :: e in said ==> e.from in sys.nodes && e.msg in sys.nodes[e.from].sent
  }

  function Post(p: PeerID, m: Option<Msg>): set<Envelope> {
    if m.Some? then {Envelope(p, m.value)} else {}
  }

  lemma Extend(start: System, evs: seq<Event>, ev: Event)
    requires ValidRun(start, evs) && Enabled(RunEnds(start, evs), ev)
    ensures ValidRun(start, evs + [ev]) && RunEnds(start, evs + [ev]) == After(RunEnds(start, evs), ev)
    decreases |evs|
  {
    if evs == [] {
      assert evs + [ev] == [ev];
    } else {
      assert (evs + [ev])[1..] == evs[1..] + [ev] && (evs + [ev])[0] == evs[0];
      Extend(After(start, evs[0]), evs[1..], ev);
    }
  }

  lemma Then(sys: System, ev: Event)
    requires Reached(sys) && Enabled(sys, ev)
    ensures Reached(After(sys, ev))
  {
    var start, evs :| Start(start) && ValidRun(start, evs) && RunEnds(start, evs) == sys;
    Extend(start, evs, ev);
  }

  /** An event that adds keys to what has been delivered and m to what has been sent. */
  lemma Advance(sys: System, cs: Trio, done: set<Key>, said: set<Envelope>, ev: Event, c: Dbft, m: Option<Msg>, keys: set<Key>)
      returns (after: System)
    requires Stage(sys, cs, done, said) && Enabled(sys, ev) && Actor(ev) < 3
    requires var s, t := sys.nodes[Actor(ev)], Next(sys, ev);
      t.c == c && s.sent <= t.sent && (m.Some? ==> m.value in t.sent)
    requires ev.Deliver? ==> KeyOf(ev.to, ev.e) in keys
    ensures Stage(after, cs.Set(Actor(ev), c), done + keys, said + Post(Actor(ev), m))
  {
    hide Reached, Enabled, Sent, Delivered, Next;
    after := After(sys, ev);
    Then(sys, ev);
    assert after.nodes.Keys == sys.nodes.Keys;
    AdvanceDelivered(sys, done, ev, keys);
    AdvanceSent(sys, said, ev, m);
  }

  lemma AdvanceDelivered(sys: System, done: set<Key>, ev: Event, keys: set<Key>)
    requires Delivered(sys, done) && Enabled(sys, ev) && Actor(ev) in sys.nodes
    requires ev.Deliver? ==> KeyOf(ev.to, ev.e) in keys
    ensures Delivered(After(sys, ev), done + keys)
  {
    NextGot(sys, ev);
    hide Next, Enabled, KeyOf;
  }

  lemma AdvanceSent(sys: System, said: set<Envelope>, ev: Event, m: Option<Msg>)
    requires Sent(sys, said) && Enabled(sys, ev) && Actor(ev) in sys.nodes
    requires sys.nodes[Actor(ev)].sent <= Next(sys, ev).sent && (m.Some? ==> m.value in Next(sys, ev).sent)
    ensures Sent(After(sys, ev), said + Post(Actor(ev), m))
  {
    hide Next, Enabled;
  }

  lemma CanDeliver(sys: System, cs: Trio, done: set<Key>, said: set<Envelope>, p: PeerID, e: Envelope)
    requires Stage(sys, cs, done, said) && p < 3 && (e.from == 3 || e in said) && KeyOf(p, e) !in done
    ensures p in sys.nodes && Enabled(sys, Deliver(p, e)) && sys.nodes[p].c == cs.Get(p) && sys.f == 1
  {
    hide Reached;
    assert e !in sys.nodes[p].got;
    assert forall d :: d in sys.nodes[p].got && d.msg.Aux? ==> AuxKey(p, d.from, d.msg.round) == KeyOf(p, d);
  }

  lemma CanAct(sys: System, cs: Trio, done: set<Key>, said: set<Envelope>, p: PeerID, r: nat)
    requires Stage(sys, cs, done, said) && p < 3
    ensures Enabled(sys, Timer(p, r)) && Enabled(sys, ProposeZero(p)) && Enabled(sys, ProposeReadied(p))
    ensures p in sys.nodes && sys.nodes[p].c == cs.Get(p) && sys.f == 1
  {
    hide Reached, Delivered, Sent;
  }

  // ----- the steps of the run

  lemma AdvanceDeliver(sys: System, cs: Trio, done: set<Key>, said: set<Envelope>, p: PeerID, e: Envelope, c: Dbft, m: Option<Msg>)
      returns (after: System)
    requires Stage(sys, cs, done, said) && Enabled(sys, Deliver(p, e)) && p < 3
    requires var s, t := sys.nodes[p], Receive(sys.nodes[p], 1, e);
      t.c == c && s.sent <= t.sent && (m.Some? ==> m.value in t.sent)
    ensures Stage(after, cs.Set(p, c), done + {KeyOf(p, e)}, said + Post(p, m))
  {
    assert sys.f == 1;
    hide Stage, Receive;
    after := Advance(sys, cs, done, said, Deliver(p, e), c, m, {KeyOf(p, e)});
  }

  lemma TakeSecond(sys: System, cs: Trio, done: set<Key>, said: set<Envelope>, p: PeerID, q: PeerID, r: nat, v: int) returns (after: System)
    requires Stage(sys, cs, done, said) && p < 3 && (var e := Envelope(q, Estimate(r, v)); (e.from == 3 || e in said) && KeyOf(p, e) !in done)
    requires r in cs.Get(p).rs && cs.Get(p).rs[r] == Opened(v)
    ensures Stage(after, cs.Set(p, cs.Get(p).(rs := cs.Get(p).rs[r := Opened(v).(bvbEstimates := map[v := 2])])), done + {KeyOf(p, Envelope(q, Estimate(r, v)))}, said + {})
  {
    CanDeliver(sys, cs, done, said, p, Envelope(q, Estimate(r, v)));
    SecondVote(sys.nodes[p], q, r, v);
    hide Stage, Enabled, OnEstimate, OnAux;
    after := AdvanceDeliver(sys, cs, done, said, p, Envelope(q, Estimate(r, v)), cs.Get(p).(rs := cs.Get(p).rs[r := Opened(v).(bvbEstimates := map[v := 2])]), None);
  }

  lemma TakeThird(sys: System, cs: Trio, done: set<Key>, said: set<Envelope>, p: PeerID, q: PeerID, r: nat, v: int) returns (after: System)
    requires Stage(sys, cs, done, said) && p < 3 && (var e := Envelope(q, Estimate(r, v)); (e.from == 3 || e in said) && KeyOf(p, e) !in done)
    requires r in cs.Get(p).rs && cs.Get(p).rs[r] == Opened(v).(bvbEstimates := map[v := 2]) && !cs.Get(p).restartOnBinValues
    ensures Stage(after, cs.Set(p, cs.Get(p).(rs := cs.Get(p).rs[r := Voted3(v, 0).(timerExpired := false, auxSent := false)])), done + {KeyOf(p, Envelope(q, Estimate(r, v)))}, said + {})
  {
    CanDeliver(sys, cs, done, said, p, Envelope(q, Estimate(r, v)));
    ThirdVote(sys.nodes[p], q, r, v);
    hide Stage, Enabled, OnEstimate, OnAux;
    after := AdvanceDeliver(sys, cs, done, said, p, Envelope(q, Estimate(r, v)), cs.Get(p).(rs := cs.Get(p).rs[r := Voted3(v, 0).(timerExpired := false, auxSent := false)]), None);
  }

  lemma TakeAux(sys: System, cs: Trio, done: set<Key>, said: set<Envelope>, p: PeerID, q: PeerID, r: nat, v: int, n: nat) returns (after: System)
    requires Stage(sys, cs, done, said) && p < 3 && (var e := Envelope(q, Aux(r, {v})); (e.from == 3 || e in said) && KeyOf(p, e) !in done)
    requires r in cs.Get(p).rs && cs.Get(p).rs[r] == Voted3(v, n).(est := cs.Get(p).rs[r].est) && n < 2
    ensures Stage(after, cs.Set(p, cs.Get(p).(rs := cs.Get(p).rs[r := Voted3(v, n + 1).(est := cs.Get(p).rs[r].est)])), done + {KeyOf(p, Envelope(q, Aux(r, {v})))}, said + {})
  {
    CanDeliver(sys, cs, done, said, p, Envelope(q, Aux(r, {v})));
    Hears(sys.nodes[p], q, r, v, n);
    hide Stage, Enabled, OnEstimate, OnAux;
    after := AdvanceDeliver(sys, cs, done, said, p, Envelope(q, Aux(r, {v})), cs.Get(p).(rs := cs.Get(p).rs[r := Voted3(v, n + 1).(est := cs.Get(p).rs[r].est)]), None);
  }

  lemma TakeGoesOn(sys: System, cs: Trio, done: set<Key>, said: set<Envelope>, p: PeerID, q: PeerID, r: nat, v: int) returns (after: System)
    requires Stage(sys, cs, done, said) && p < 3 && (var e := Envelope(q, Aux(r, {v})); (e.from == 3 || e in said) && KeyOf(p, e) !in done)
    requires r in cs.Get(p).rs && cs.Get(p).rs[r] == Voted3(v, 2) && v != r % 2 && !cs.Get(p).decided && !cs.Get(p).halt && r + 1 !in cs.Get(p).rs
    ensures Stage(after, cs.Set(p, cs.Get(p).(rs := cs.Get(p).rs[r := Voted3(v, 3)][r + 1 := Opened(v)])), done + {KeyOf(p, Envelope(q, Aux(r, {v})))}, said + {Envelope(p, Estimate(r + 1, v))})
  {
    CanDeliver(sys, cs, done, said, p, Envelope(q, Aux(r, {v})));
    GoesOn(sys.nodes[p], q, r, v);
    hide Stage, Enabled, OnEstimate, OnAux;
    after := AdvanceDeliver(sys, cs, done, said, p, Envelope(q, Aux(r, {v})), cs.Get(p).(rs := cs.Get(p).rs[r := Voted3(v, 3)][r + 1 := Opened(v)]), Some(Estimate(r + 1, v)));
  }

  lemma TakeDecides(sys: System, cs: Trio, done: set<Key>, said: set<Envelope>, p: PeerID, q: PeerID, r: nat, v: int) returns (after: System)
    requires Stage(sys, cs, done, said) && p < 3 && (var e := Envelope(q, Aux(r, {v})); (e.from == 3 || e in said) && KeyOf(p, e) !in done)
    requires r in cs.Get(p).rs && cs.Get(p).rs[r] == Voted3(v, 2).(est := cs.Get(p).rs[r].est) && v == r % 2 && !cs.Get(p).decided && !cs.Get(p).halt
    ensures Stage(after, cs.Set(p, cs.Get(p).(rs := cs.Get(p).rs[r := Voted3(v, 3)], decided := true, decidedValue := v, decidedRound := r, restartOnBinValues := true)), done + {KeyOf(p, Envelope(q, Aux(r, {v})))}, said + {})
  {
    CanDeliver(sys, cs, done, said, p, Envelope(q, Aux(r, {v})));
    Decides(sys.nodes[p], q, r, v);
    hide Stage, Enabled, OnEstimate, OnAux;
    after := AdvanceDeliver(sys, cs, done, said, p, Envelope(q, Aux(r, {v})), cs.Get(p).(rs := cs.Get(p).rs[r := Voted3(v, 3)], decided := true, decidedValue := v, decidedRound := r, restartOnBinValues := true), None);
  }

  lemma TakeLate(sys: System, cs: Trio, done: set<Key>, said: set<Envelope>, p: PeerID) returns (after: System)
    requires Stage(sys, cs, done, said) && p < 3 && (var e := Envelope(2, Aux(1, {1})); (e.from == 3 || e in said) && KeyOf(p, e) !in done)
    requires 1 in cs.Get(p).rs && cs.Get(p).rs[1] == Both(Copies(0, 3)) && 2 in cs.Get(p).rs && cs.Get(p).rs[2] == Voted3(0, 3)
    requires cs.Get(p).decided && cs.Get(p).decidedRound == 2 && !cs.Get(p).halt
    ensures Stage(after, cs.Set(p, cs.Get(p).(rs := cs.Get(p).rs[1 := Both(Copies(0, 3) + [{1}])][2 := Revised(1)])), done + {KeyOf(p, Envelope(2, Aux(1, {1})))}, said + {Envelope(p, Estimate(2, 1))})
  {
    CanDeliver(sys, cs, done, said, p, Envelope(2, Aux(1, {1})));
    LateAux(sys.nodes[p]);
    hide Stage, Enabled, OnEstimate, OnAux;
    after := AdvanceDeliver(sys, cs, done, said, p, Envelope(2, Aux(1, {1})), cs.Get(p).(rs := cs.Get(p).rs[1 := Both(Copies(0, 3) + [{1}])][2 := Revised(1)]), Some(Estimate(2, 1)));
  }

  lemma TakeRevised(sys: System, cs: Trio, done: set<Key>, said: set<Envelope>, p: PeerID, q: PeerID) returns (after: System)
    requires Stage(sys, cs, done, said) && p < 3 && (var e := Envelope(q, Estimate(2, 1)); (e.from == 3 || e in said) && KeyOf(p, e) !in done)
    requires 2 in cs.Get(p).rs && cs.Get(p).rs[2] == Revised(1)
    ensures Stage(after, cs.Set(p, cs.Get(p).(rs := cs.Get(p).rs[2 := Revised(2)])), done + {KeyOf(p, Envelope(q, Estimate(2, 1)))}, said + {})
  {
    CanDeliver(sys, cs, done, said, p, Envelope(q, Estimate(2, 1)));
    RevisedSecond(sys.nodes[p], q);
    hide Stage, Enabled, OnEstimate, OnAux;
    after := AdvanceDeliver(sys, cs, done, said, p, Envelope(q, Estimate(2, 1)), cs.Get(p).(rs := cs.Get(p).rs[2 := Revised(2)]), None);
  }

  lemma TakeRestart(sys: System, cs: Trio, done: set<Key>, said: set<Envelope>, p: PeerID, q: PeerID) returns (after: System)
    requires Stage(sys, cs, done, said) && p < 3 && (var e := Envelope(q, Estimate(2, 1)); (e.from == 3 || e in said) && KeyOf(p, e) !in done)
    requires 2 in cs.Get(p).rs && cs.Get(p).rs[2] == Revised(2) && cs.Get(p).restartOnBinValues && !cs.Get(p).halt && 3 !in cs.Get(p).rs
    ensures Stage(after, cs.Set(p, cs.Get(p).(rs := cs.Get(p).rs[2 := Revised(3).(binValues := {0, 1})][3 := Opened(1)], restartOnBinValues := false)), done + {KeyOf(p, Envelope(q, Estimate(2, 1)))}, said + {Envelope(p, Estimate(3, 1))})
  {
    CanDeliver(sys, cs, done, said, p, Envelope(q, Estimate(2, 1)));
    RevisedThird(sys.nodes[p], q);
    hide Stage, Enabled, OnEstimate, OnAux;
    after := AdvanceDeliver(sys, cs, done, said, p, Envelope(q, Estimate(2, 1)), cs.Get(p).(rs := cs.Get(p).rs[2 := Revised(3).(binValues := {0, 1})][3 := Opened(1)], restartOnBinValues := false), Some(Estimate(3, 1)));
  }

  lemma TakeEarly(sys: System, cs: Trio, done: set<Key>, said: set<Envelope>, p: PeerID, q: PeerID, n: nat) returns (after: System)
    requires Stage(sys, cs, done, said) && p < 3 && (var e := Envelope(q, Estimate(3, 1)); (e.from == 3 || e in said) && KeyOf(p, e) !in done)
    requires n < 2 && (if n == 0 then 3 !in cs.Get(p).rs else 3 in cs.Get(p).rs && cs.Get(p).rs[3] == Counted3(n))
    ensures Stage(after, cs.Set(p, cs.Get(p).(rs := cs.Get(p).rs[3 := Counted3(n + 1)])), done + {KeyOf(p, Envelope(q, Estimate(3, 1)))}, said + {})
  {
    CanDeliver(sys, cs, done, said, p, Envelope(q, Estimate(3, 1)));
    EarlyVote(sys.nodes[p], q, n);
    hide Stage, Enabled, OnEstimate, OnAux;
    after := AdvanceDeliver(sys, cs, done, said, p, Envelope(q, Estimate(3, 1)), cs.Get(p).(rs := cs.Get(p).rs[3 := Counted3(n + 1)]), None);
  }

  lemma TakeLast(sys: System, cs: Trio, done: set<Key>, said: set<Envelope>, p: PeerID, q: PeerID) returns (after: System)
    requires Stage(sys, cs, done, said) && p < 3 && (var e := Envelope(q, Estimate(3, 1)); (e.from == 3 || e in said) && KeyOf(p, e) !in done)
    requires 3 in cs.Get(p).rs && cs.Get(p).rs[3] == Counted3(2) && !cs.Get(p).restartOnBinValues
    ensures Stage(after, cs.Set(p, cs.Get(p).(rs := cs.Get(p).rs[3 := Voted3(1, 0).(est := 0, timerExpired := false, auxSent := false)])), done + {KeyOf(p, Envelope(q, Estimate(3, 1)))}, said + {})
  {
    CanDeliver(sys, cs, done, said, p, Envelope(q, Estimate(3, 1)));
    LastVote(sys.nodes[p], q);
    hide Stage, Enabled, OnEstimate, OnAux;
    after := AdvanceDeliver(sys, cs, done, said, p, Envelope(q, Estimate(3, 1)), cs.Get(p).(rs := cs.Get(p).rs[3 := Voted3(1, 0).(est := 0, timerExpired := false, auxSent := false)]), None);
  }

  lemma TakeTimer(sys: System, cs: Trio, done: set<Key>, said: set<Envelope>, p: PeerID, r: nat, v: int) returns (after: System)
    requires Stage(sys, cs, done, said) && p < 3
    requires r in cs.Get(p).rs && cs.Get(p).rs[r] == Voted3(v, 0).(est := cs.Get(p).rs[r].est, timerExpired := false, auxSent := false)
    ensures Stage(after, cs.Set(p, cs.Get(p).(rs := cs.Get(p).rs[r := Voted3(v, 0).(est := cs.Get(p).rs[r].est)])), done, said + {Envelope(p, Aux(r, {v}))})
  {
    CanAct(sys, cs, done, said, p, 0);
    Fires(sys.nodes[p], r, v);
    hide Stage, OnTimer, ProposeDone;
    after := Advance(sys, cs, done, said, Timer(p, r), cs.Get(p).(rs := cs.Get(p).rs[r := Voted3(v, 0).(est := cs.Get(p).rs[r].est)]), Some(Aux(r, {v})), {});
    assert done + {} == done;
  }

  lemma TakeReadied(sys: System, cs: Trio, done: set<Key>, said: set<Envelope>, p: PeerID) returns (after: System)
    requires Stage(sys, cs, done, said) && p < 3
    requires cs.Get(p) == Dbft(map[], false, 0, 0, false, false)
    ensures Stage(after, cs.Set(p, Dbft(map[1 := Round(1, {1}, {}, map[], true, false, false, [], true)], false, 0, 0, false, false)), done, said + {Envelope(p, Aux(1, {1}))})
  {
    hide Stage, OnTimer, ProposeDone, Reached;
    CanAct(sys, cs, done, said, p, 0);
    Readied(sys.nodes[p]);
    after := Advance(sys, cs, done, said, ProposeReadied(p), Dbft(map[1 := Round(1, {1}, {}, map[], true, false, false, [], true)], false, 0, 0, false, false), Some(Aux(1, {1})), {});
    assert done + {} == done;
  }

  lemma TakeTurns(sys: System, cs: Trio, done: set<Key>, said: set<Envelope>, p: PeerID) returns (after: System)
    requires Stage(sys, cs, done, said) && p < 3
    requires 1 in cs.Get(p).rs && cs.Get(p).rs[1] == Voted3(0, 3) && !cs.Get(p).halt
    ensures Stage(after, cs.Set(p, cs.Get(p).(rs := cs.Get(p).rs[1 := Both(Copies(0, 3))])), done, said + {})
  {
    hide Stage, OnTimer, ProposeDone, Reached;
    CanAct(sys, cs, done, said, p, 0);
    TurnsReadied(sys.nodes[p]);
    after := Advance(sys, cs, done, said, ProposeReadied(p), cs.Get(p).(rs := cs.Get(p).rs[1 := Both(Copies(0, 3))]), None, {});
    assert done + {} == done;
  }

  lemma TakeZero(sys: System, cs: Trio, done: set<Key>, said: set<Envelope>, p: PeerID) returns (after: System)
    requires Stage(sys, cs, done, said) && p < 3
    requires cs.Get(p) == Dbft(map[], false, 0, 0, false, false)
    ensures Stage(after, cs.Set(p, Dbft(map[1 := Opened(0)], false, 0, 0, false, false)), done, said + {Envelope(p, Estimate(1, 0))})
  {
    CanAct(sys, cs, done, said, p, 0);
    OpensZero(sys.nodes[p]);
    hide Stage, OnTimer, ProposeDone;
    after := Advance(sys, cs, done, said, ProposeZero(p), Dbft(map[1 := Opened(0)], false, 0, 0, false, false), Some(Estimate(1, 0)), {});
    assert done + {} == done;
  }

  // ----- the run, phase by phase; replicas 0 and 1 do the same, q being the other one

  function Plain(rs: map<nat, Round>): Dbft { Dbft(rs, false, 0, 0, false, false) }

  function Decided0(rs: map<nat, Round>, restart: bool): Dbft { Dbft(rs, true, 0, 2, false, restart) }

  function VoteKeys(p: PeerID, q: PeerID, r: nat, v: int): set<Key> { {EstKey(p, q, r, v)} + {EstKey(p, 3, r, v)} }

  function AuxKeys(p: PeerID, q: PeerID, r: nat): set<Key> { {AuxKey(p, p, r)} + {AuxKey(p, q, r)} + {AuxKey(p, 3, r)} }

  /** Replica p, which has opened round r with v, hears v from q and from 3, and its timer expires. */
  lemma Votes(sys: System, cs: Trio, done: set<Key>, said: set<Envelope>, p: PeerID, q: PeerID, r: nat, v: int) returns (after: System)
    requires Stage(sys, cs, done, said) && p < 3 && q < 3 && Envelope(q, Estimate(r, v)) in said
    requires VoteKeys(p, q, r, v) !! done
    requires r in cs.Get(p).rs && cs.Get(p).rs[r] == Opened(v) && !cs.Get(p).restartOnBinValues
    ensures Stage(after, cs.Set(p, cs.Get(p).(rs := cs.Get(p).rs[r := Voted3(v, 0)])), done + VoteKeys(p, q, r, v), said + {Envelope(p, Aux(r, {v}))})
  {
    hide Stage;
    var c := cs.Get(p);
    assert EstKey(p, q, r, v) in VoteKeys(p, q, r, v) && EstKey(p, 3, r, v) in VoteKeys(p, q, r, v);
    after := TakeSecond(sys, cs, done, said, p, q, r, v);
    var c1 := c.(rs := c.rs[r := Opened(v).(bvbEstimates := map[v := 2])]);
    after := TakeThird(after, cs.Set(p, c1), done + {EstKey(p, q, r, v)}, said + {}, p, 3, r, v);
    var c2 := c1.(rs := c1.rs[r := Voted3(v, 0).(timerExpired := false, auxSent := false)]);
    after := TakeTimer(after, cs.Set(p, c1).Set(p, c2), done + {EstKey(p, q, r, v)} + {EstKey(p, 3, r, v)}, said + {} + {}, p, r, v);
    assert c2.(rs := c2.rs[r := Voted3(v, 0)]) == c.(rs := c.rs[r := Voted3(v, 0)]);
    assert done + {EstKey(p, q, r, v)} + {EstKey(p, 3, r, v)} == done + VoteKeys(p, q, r, v);
    assert said + {} + {} + {Envelope(p, Aux(r, {v}))} == said + {Envelope(p, Aux(r, {v}))};
  }

  /** Its own Aux message and that of q. */
  lemma HearsTwo(sys: System, cs: Trio, done: set<Key>, said: set<Envelope>, p: PeerID, a: PeerID, b: PeerID, r: nat, v: int) returns (after: System)
    requires Stage(sys, cs, done, said) && p < 3 && a != b && Envelope(a, Aux(r, {v})) in said && Envelope(b, Aux(r, {v})) in said
    requires {AuxKey(p, a, r)} + {AuxKey(p, b, r)} !! done
    requires r in cs.Get(p).rs && cs.Get(p).rs[r] == Voted3(v, 0).(est := cs.Get(p).rs[r].est)
    ensures Stage(after, cs.Set(p, cs.Get(p).(rs := cs.Get(p).rs[r := Voted3(v, 2).(est := cs.Get(p).rs[r].est)])),
                  done + {AuxKey(p, a, r)} + {AuxKey(p, b, r)}, said)
  {
    hide Stage;
    var c := cs.Get(p);
    assert AuxKey(p, a, r) in {AuxKey(p, a, r)} + {AuxKey(p, b, r)} && AuxKey(p, b, r) in {AuxKey(p, a, r)} + {AuxKey(p, b, r)};
    after := TakeAux(sys, cs, done, said, p, a, r, v, 0);
    var c1 := c.(rs := c.rs[r := Voted3(v, 1).(est := c.rs[r].est)]);
    after := TakeAux(after, cs.Set(p, c1), done + {AuxKey(p, a, r)}, said + {}, p, b, r, v, 1);
    assert c1.(rs := c1.rs[r := Voted3(v, 2).(est := c.rs[r].est)]) == c.(rs := c.rs[r := Voted3(v, 2).(est := c.rs[r].est)]);
    assert said + {} + {} == said;
  }

  /** Round 1 ends with estimate 0; round 2 is opened. */
  lemma EndsRound1(sys: System, cs: Trio, done: set<Key>, said: set<Envelope>, p: PeerID, q: PeerID) returns (after: System)
    requires Stage(sys, cs, done, said) && p < 2 && q < 2 && p != q
    requires Envelope(p, Aux(1, {0})) in said && Envelope(q, Aux(1, {0})) in said && AuxKeys(p, q, 1) !! done
    requires cs.Get(p) == Plain(map[1 := Voted3(0, 0)])
    ensures Stage(after, cs.Set(p, Plain(map[1 := Voted3(0, 3), 2 := Opened(0)])), done + AuxKeys(p, q, 1), said + {Envelope(p, Estimate(2, 0))})
  {
    hide Stage;
    assert {AuxKey(p, p, 1)} + {AuxKey(p, q, 1)} <= AuxKeys(p, q, 1) && AuxKey(p, 3, 1) in AuxKeys(p, q, 1);
    after := HearsTwo(sys, cs, done, said, p, p, q, 1, 0);
    var c := Plain(map[1 := Voted3(0, 2)]);
    assert cs.Get(p).(rs := cs.Get(p).rs[1 := Voted3(0, 2)]) == c;
    after := TakeGoesOn(after, cs.Set(p, c), done + {AuxKey(p, p, 1)} + {AuxKey(p, q, 1)}, said, p, 3, 1, 0);
    assert c.rs[1 := Voted3(0, 3)][2 := Opened(0)] == map[1 := Voted3(0, 3), 2 := Opened(0)];
    assert done + {AuxKey(p, p, 1)} + {AuxKey(p, q, 1)} + {AuxKey(p, 3, 1)} == done + AuxKeys(p, q, 1);
  }

  /** Round 2 decides 0; the broadcast turns out finished; a late Aux {1} of round 1 reopens round 2 with 1. */
  lemma DecidesAndForgets(sys: System, cs: Trio, done: set<Key>, said: set<Envelope>, p: PeerID, q: PeerID) returns (after: System)
    requires Stage(sys, cs, done, said) && p < 2 && q < 2 && p != q
    requires Envelope(p, Aux(2, {0})) in said && Envelope(q, Aux(2, {0})) in said && Envelope(2, Aux(1, {1})) in said
    requires AuxKeys(p, q, 2) + {AuxKey(p, 2, 1)} !! done
    requires cs.Get(p) == Plain(map[1 := Voted3(0, 3), 2 := Voted3(0, 0)])
    ensures Stage(after, cs.Set(p, Decided0(map[1 := Both(Copies(0, 3) + [{1}]), 2 := Revised(1)], true)),
                  done + AuxKeys(p, q, 2) + {AuxKey(p, 2, 1)}, said + {Envelope(p, Estimate(2, 1))})
  {
    hide Stage;
    assert {AuxKey(p, p, 2)} + {AuxKey(p, q, 2)} <= AuxKeys(p, q, 2) && AuxKey(p, 3, 2) in AuxKeys(p, q, 2);
    assert AuxKey(p, 2, 1) in AuxKeys(p, q, 2) + {AuxKey(p, 2, 1)};
    after := HearsTwo(sys, cs, done, said, p, p, q, 2, 0);
    var c := Plain(map[1 := Voted3(0, 3), 2 := Voted3(0, 2)]);
    assert cs.Get(p).(rs := cs.Get(p).rs[2 := Voted3(0, 2)]) == c;
    var done1 := done + {AuxKey(p, p, 2)} + {AuxKey(p, q, 2)};
    after := TakeDecides(after, cs.Set(p, c), done1, said, p, 3, 2, 0);
    var c1 := Decided0(map[1 := Voted3(0, 3), 2 := Voted3(0, 3)], true);
    assert c.(rs := c.rs[2 := Voted3(0, 3)], decided := true, decidedValue := 0, decidedRound := 2, restartOnBinValues := true) == c1;
    var done2 := done1 + {AuxKey(p, 3, 2)};
    after := TakeTurns(after, cs.Set(p, c1), done2, said + {}, p);
    var c2 := Decided0(map[1 := Both(Copies(0, 3)), 2 := Voted3(0, 3)], true);
    assert c1.(rs := c1.rs[1 := Both(Copies(0, 3))]) == c2;
    after := TakeLate(after, cs.Set(p, c2), done2, said + {} + {}, p);
    assert c2.rs[1 := Both(Copies(0, 3) + [{1}])][2 := Revised(1)] == map[1 := Both(Copies(0, 3) + [{1}]), 2 := Revised(1)];
    assert done2 == done + AuxKeys(p, q, 2);
    assert said + {} + {} == said;
  }

  /** Estimates of 1 for round 2 make both values candidates: the restart proposes 1 in round 3. */
  lemma Restarts(sys: System, cs: Trio, done: set<Key>, said: set<Envelope>, p: PeerID, q: PeerID) returns (after: System)
    requires Stage(sys, cs, done, said) && p < 2 && q < 2 && p != q && Envelope(q, Estimate(2, 1)) in said
    requires VoteKeys(p, q, 2, 1) !! done
    requires cs.Get(p) == Decided0(map[1 := Both(Copies(0, 3) + [{1}]), 2 := Revised(1)], true)
    ensures Stage(after, cs.Set(p, Reopened(Opened(1))), done + VoteKeys(p, q, 2, 1), said + {Envelope(p, Estimate(3, 1))})
  {
    hide Stage;
    assert EstKey(p, q, 2, 1) in VoteKeys(p, q, 2, 1) && EstKey(p, 3, 2, 1) in VoteKeys(p, q, 2, 1);
    after := TakeRevised(sys, cs, done, said, p, q);
    var c := Decided0(map[1 := Both(Copies(0, 3) + [{1}]), 2 := Revised(2)], true);
    assert cs.Get(p).(rs := cs.Get(p).rs[2 := Revised(2)]) == c;
    after := TakeRestart(after, cs.Set(p, c), done + {EstKey(p, q, 2, 1)}, said + {}, p, 3);
    assert c.(rs := c.rs[2 := Revised(3).(binValues := {0, 1})][3 := Opened(1)], restartOnBinValues := false) == Reopened(Opened(1));
    assert done + {EstKey(p, q, 2, 1)} + {EstKey(p, 3, 2, 1)} == done + VoteKeys(p, q, 2, 1);
    assert said + {} == said;
  }

  /** Decided 0 in round 2, and now in round 3. */
  function Reopened(round3: Round): Dbft {
    Decided0(map[1 := Both(Copies(0, 3) + [{1}]), 2 := Revised(3).(binValues := {0, 1}), 3 := round3], false)
  }

  function Outside(): Dbft { Plain(map[1 := Round(1, {1}, {}, map[], true, false, false, [], true)]) }

  /** Replica 2 has taken no part in round 2; it decides 1 in round 3. */
  lemma DecidesOne(sys: System, cs: Trio, done: set<Key>, said: set<Envelope>) returns (after: System, final: Dbft, keys: set<Key>, sent: set<Envelope>)
    requires Stage(sys, cs, done, said) && cs.c == Outside()
    requires Envelope(0, Estimate(3, 1)) in said && Envelope(1, Estimate(3, 1)) in said && Envelope(0, Aux(3, {1})) in said
    requires forall k :: k in done ==> k.to != 2
    ensures final.decided && final.decidedValue == 1
    ensures Stage(after, cs.Set(2, final), keys, sent)
  {
    hide Stage;
    var c0 := Outside();
    after := TakeEarly(sys, cs, done, said, 2, 0, 0);
    var c1 := c0.(rs := c0.rs[3 := Counted3(1)]);
    var done1 := done + {EstKey(2, 0, 3, 1)};
    after := TakeEarly(after, cs.Set(2, c1), done1, said + {}, 2, 1, 1);
    var c2 := c1.(rs := c1.rs[3 := Counted3(2)]);
    var done2 := done1 + {EstKey(2, 1, 3, 1)};
    after := TakeLast(after, cs.Set(2, c2), done2, said + {} + {}, 2, 3);
    var done3 := done2 + {EstKey(2, 3, 3, 1)};
    assert said + {} + {} + {} == said;
    var c3 := c2.(rs := c2.rs[3 := Voted3(1, 0).(est := 0, timerExpired := false, auxSent := false)]);
    after := TakeTimer(after, cs.Set(2, c3), done3, said, 2, 3, 1);
    var c4 := c3.(rs := c3.rs[3 := Voted3(1, 0).(est := 0)]);
    var said4 := said + {Envelope(2, Aux(3, {1}))};
    after := HearsTwo(after, cs.Set(2, c4), done3, said4, 2, 2, 0, 3, 1);
    var c5 := c4.(rs := c4.rs[3 := Voted3(1, 2).(est := 0)]);
    var done5 := done3 + {AuxKey(2, 2, 3)} + {AuxKey(2, 0, 3)};
    after := TakeDecides(after, cs.Set(2, c5), done5, said4, 2, 3, 3, 1);
    final := c5.(rs := c5.rs[3 := Voted3(1, 3)], decided := true, decidedValue := 1, decidedRound := 3, restartOnBinValues := true);
    keys, sent := done5 + {AuxKey(2, 3, 3)}, said4 + {};
  }

  function Begun(): System {
    System(1, {3}, map[0 := Initial(), 1 := Initial(), 2 := Initial()])
  }

  lemma Beginning() returns (sys: System)
    ensures Stage(sys, Trio(Plain(map[]), Plain(map[]), Plain(map[])), {}, {})
  {
    sys := Begun();
    BegunReached();
    hide Reached;
  }

  lemma BegunReached()
    ensures Reached(Begun())
  {
    var sys := Begun();
    assert Peers(1) == {0, 1, 2, 3};
    assert ValidRun(sys, []) && RunEnds(sys, []) == sys;
    assert Start(sys);
  }

  /** The phase of the run in which a delivery happens. */
  function PhaseOf(k: Key): int {
    match k
    case EstKey(_, _, r, v) => if v == 0 then 2 * r - 1 else r + 3
    case AuxKey(_, from, r) => if from == 2 && r == 1 then 4 else 2 * r
  }

  /** Only replicas 0 and 1 have received anything, and only in the first n phases. */
  ghost predicate UpTo(done: set<Key>, n: int) {
    forall k :: k in done ==> k.to < 2 && k.round >= 1 && PhaseOf(k) <= n
  }

  /** Replicas 0 and 1 vote for v in round r. */
  lemma BothVote(sys: System, cs: Trio, done: set<Key>, said: set<Envelope>, r: nat, v: int) returns (after: System, keys: set<Key>, sent: set<Envelope>)
    requires Stage(sys, cs, done, said) && cs.a == cs.b && r >= 1 && UpTo(done, PhaseOf(EstKey(0, 1, r, v)) - 1)
    requires Envelope(0, Estimate(r, v)) in said && Envelope(1, Estimate(r, v)) in said
    requires r in cs.a.rs && cs.a.rs[r] == Opened(v) && !cs.a.restartOnBinValues
    ensures var c := cs.a.(rs := cs.a.rs[r := Voted3(v, 0)]); Stage(after, Trio(c, c, cs.c), keys, sent)
    ensures UpTo(keys, PhaseOf(EstKey(0, 1, r, v))) && said <= sent && Envelope(0, Aux(r, {v})) in sent && Envelope(1, Aux(r, {v})) in sent
  {
    hide Stage, Opened, Voted3;
    after := Votes(sys, cs, done, said, 0, 1, r, v);
    keys, sent := done + VoteKeys(0, 1, r, v), said + {Envelope(0, Aux(r, {v}))};
    var c := cs.a.(rs := cs.a.rs[r := Voted3(v, 0)]);
    after := Votes(after, Trio(c, cs.b, cs.c), keys, sent, 1, 0, r, v);
    keys, sent := keys + VoteKeys(1, 0, r, v), sent + {Envelope(1, Aux(r, {v}))};
  }

  /** Round 1: replicas 0 and 1 propose 0, replica 2 a finished broadcast. */
  lemma Proposals() returns (sys: System, said: set<Envelope>)
    ensures var d := Plain(map[1 := Opened(0)]); Stage(sys, Trio(d, d, Outside()), {}, said)
    ensures Envelope(0, Estimate(1, 0)) in said && Envelope(1, Estimate(1, 0)) in said && Envelope(2, Aux(1, {1})) in said
  {
    hide Stage, Opened;
    var c, d := Plain(map[]), Plain(map[1 := Opened(0)]);
    sys := Beginning();
    sys := TakeZero(sys, Trio(c, c, c), {}, {}, 0);
    said := {} + {Envelope(0, Estimate(1, 0))};
    sys := TakeZero(sys, Trio(d, c, c), {}, said, 1);
    said := said + {Envelope(1, Estimate(1, 0))};
    sys := TakeReadied(sys, Trio(d, d, c), {}, said, 2);
    said := said + {Envelope(2, Aux(1, {1}))};
  }

  /** Replicas 0 and 1 both end round 1 with 0. */
  lemma FirstRound() returns (sys: System, done: set<Key>, said: set<Envelope>)
    ensures var d := Plain(map[1 := Voted3(0, 3), 2 := Opened(0)]); Stage(sys, Trio(d, d, Outside()), done, said)
    ensures UpTo(done, 2)
    ensures Envelope(0, Estimate(2, 0)) in said && Envelope(1, Estimate(2, 0)) in said && Envelope(2, Aux(1, {1})) in said
  {
    hide Stage, Voted3, Opened;
    sys, said := Proposals();
    var open1, voted := Plain(map[1 := Opened(0)]), Plain(map[1 := Voted3(0, 0)]);
    assert open1.(rs := open1.rs[1 := Voted3(0, 0)]) == voted;
    sys, done, said := BothVote(sys, Trio(open1, open1, Outside()), {}, said, 1, 0);
    sys := EndsRound1(sys, Trio(voted, voted, Outside()), done, said, 0, 1);
    var d := Plain(map[1 := Voted3(0, 3), 2 := Opened(0)]);
    done, said := done + AuxKeys(0, 1, 1), said + {Envelope(0, Estimate(2, 0))};
    sys := EndsRound1(sys, Trio(d, voted, Outside()), done, said, 1, 0);
    done, said := done + AuxKeys(1, 0, 1), said + {Envelope(1, Estimate(2, 0))};
  }

  /** Round 2: both decide 0 and vote for 1 after that. */
  lemma SecondRound() returns (sys: System, done: set<Key>, said: set<Envelope>)
    ensures var e := Decided0(map[1 := Both(Copies(0, 3) + [{1}]), 2 := Revised(1)], true); Stage(sys, Trio(e, e, Outside()), done, said)
    ensures UpTo(done, 4) && Envelope(0, Estimate(2, 1)) in said && Envelope(1, Estimate(2, 1)) in said
  {
    hide Stage, Voted3, Opened, Both, Copies, Revised;
    sys, done, said := FirstRound();
    var d, voted := Plain(map[1 := Voted3(0, 3), 2 := Opened(0)]), Plain(map[1 := Voted3(0, 3), 2 := Voted3(0, 0)]);
    assert d.(rs := d.rs[2 := Voted3(0, 0)]) == voted;
    sys, done, said := BothVote(sys, Trio(d, d, Outside()), done, said, 2, 0);
    sys := DecidesAndForgets(sys, Trio(voted, voted, Outside()), done, said, 0, 1);
    var e := Decided0(map[1 := Both(Copies(0, 3) + [{1}]), 2 := Revised(1)], true);
    done, said := done + AuxKeys(0, 1, 2) + {AuxKey(0, 2, 1)}, said + {Envelope(0, Estimate(2, 1))};
    sys := DecidesAndForgets(sys, Trio(e, voted, Outside()), done, said, 1, 0);
    done, said := done + AuxKeys(1, 0, 2) + {AuxKey(1, 2, 1)}, said + {Envelope(1, Estimate(2, 1))};
  }

  /** Both propose and vote for 1 in round 3. */
  lemma ThirdRound() returns (sys: System, done: set<Key>, said: set<Envelope>)
    ensures var v := Reopened(Voted3(1, 0)); Stage(sys, Trio(v, v, Outside()), done, said)
    ensures UpTo(done, 6) && Envelope(0, Estimate(3, 1)) in said && Envelope(1, Estimate(3, 1)) in said && Envelope(0, Aux(3, {1})) in said
  {
    hide Stage, Voted3, Opened, Both, Copies, Revised;
    sys, done, said := SecondRound();
    var e := Decided0(map[1 := Both(Copies(0, 3) + [{1}]), 2 := Revised(1)], true);
    sys := Restarts(sys, Trio(e, e, Outside()), done, said, 0, 1);
    done, said := done + VoteKeys(0, 1, 2, 1), said + {Envelope(0, Estimate(3, 1))};
    sys := Restarts(sys, Trio(Reopened(Opened(1)), e, Outside()), done, said, 1, 0);
    done, said := done + VoteKeys(1, 0, 2, 1), said + {Envelope(1, Estimate(3, 1))};
    var r := Reopened(Opened(1));
    assert r.(rs := r.rs[3 := Voted3(1, 0)]) == Reopened(Voted3(1, 0));
    sys, done, said := BothVote(sys, Trio(r, r, Outside()), done, said, 3, 1);
  }

  /** Agreement fails in an unrestricted run with one faulty replica of four. */
  lemma DecisionsDiffer() returns (sys: System)
    ensures Reached(sys) && |sys.faulty| <= sys.f && 0 in sys.nodes && 2 in sys.nodes
    ensures sys.nodes[0].c.decided && sys.nodes[2].c.decided && sys.nodes[0].c.decidedValue != sys.nodes[2].c.decidedValue
  {
    hide Stage, Reached;
    var done, said;
    sys, done, said := ThirdRound();
    var v := Reopened(Voted3(1, 0));
    var final;
    sys, final, done, said := DecidesOne(sys, Trio(v, v, Outside()), done, said);
    Outcome(sys, Trio(v, v, final), done, said);
  }

  lemma Outcome(sys: System, cs: Trio, done: set<Key>, said: set<Envelope>)
    requires Stage(sys, cs, done, said)
    ensures Reached(sys) && |sys.faulty| <= sys.f && sys.nodes.Keys == {0, 1, 2} && sys.nodes[0].c == cs.a && sys.nodes[2].c == cs.c
  {
    hide Reached, Delivered, Sent;
  }
}
