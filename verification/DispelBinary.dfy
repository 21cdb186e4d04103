/** DBFT, the binary consensus of protocols/dispel/dbft.go: one instance at one replica, as functions on values.

    The coordinator's value never reaches an Aux message: the membership test on it compares a message with
    integers and always fails, so Aux carries binValues.  It is left out. */
module DispelBinary {
  import opened Quorums

  datatype Msg = Estimate(round: nat, value: int) | Aux(round: nat, values: set<int>)

  datatype Envelope = Envelope(from: PeerID, msg: Msg)

  datatype Round = Round(
    est: int,
    binValues: set<int>,
    bvbSent: set<int>,
    bvbEstimates: map<int, nat>,
    coordStepDone: bool,
    timerSet: bool,
    timerExpired: bool,
    auxEstimates: seq<set<int>>,
    auxSent: bool)

  datatype Dbft = Dbft(
    rs: map<nat, Round>,
    decided: bool,
    decidedValue: int,
    decidedRound: nat,
    halt: bool,
    restartOnBinValues: bool)

  /** History: a value introduced through binaryPropose, a pass of the Aux guards with what had been received,
      a proposal of the restart branch. */
  datatype Fact =
    | Proposed(round: nat, value: int)
    | Passed(round: nat, values: set<int>, got: set<Envelope>)
    | Restarted(round: nat, value: int)

  /** An instance with what it has received and sent. */
  datatype Replica = Replica(c: Dbft, got: set<Envelope>, sent: set<Msg>, facts: set<Fact>)

  function MakeRound(): Round {
    Round(0, {}, {}, map[], false, false, false, [], false)
  }

  function Initial(): Replica {
    Replica(Dbft(map[], false, 0, 0, false, false), {}, {}, {})
  }

  function At(s: Replica, r: nat): Round {
    if r in s.c.rs then s.c.rs[r] else MakeRound()
  }

  function Put(s: Replica, r: nat, rs: Round): Replica {
    s.(c := s.c.(rs := s.c.rs[r := rs]))
  }

  function Count(m: map<int, nat>, v: int): nat {
    if v in m then m[v] else 0
  }

  function Union(sets: seq<set<int>>): set<int> {
    if sets == [] then {} else Union(sets[..|sets| - 1]) + sets[|sets| - 1]
  }

  /** The estimate after a round whose Aux values are vs. */
  function EstOf(r: nat, vs: set<int>): int {
    if |vs| == 1 then Only(vs) else r % 2
  }

  function Only(vs: set<int>): (v: int)
    requires |vs| == 1
    ensures vs == {v}
  {
    OnlyOne(vs);
    var v :| vs == {v};
    v
  }

  lemma OnlyOne(vs: set<int>)
    requires |vs| == 1
    ensures exists v :: vs == {v}
  {
    if forall v :: v !in vs {
      assert false;
    }
    var v :| v in vs;
    assert |vs - {v}| == 0;
    assert vs == {v};
  }

  // ----- dbft.go

  /** binaryPropose for est 0 or 1. */
  function ProposeValue(s: Replica, r: nat, est: int): Replica {
    if s.c.halt then s
    else
      var rs := At(s, r).(est := est);
      var t := s.(facts := s.facts + {Proposed(r, est)});
      if est in rs.bvbSent then Put(t, r, rs)
      else Put(t.(sent := t.sent + {Estimate(r, est)}), r,
               rs.(bvbSent := rs.bvbSent + {est}, bvbEstimates := rs.bvbEstimates[est := Count(rs.bvbEstimates, est) + 1]))
  }

  /** binaryPropose for est -1: the broadcast is done, vote 1 at once. */
  function ProposeDone(s: Replica, f: nat, r: nat): Replica {
    if s.c.halt then s
    else
      var rs := At(s, r);
      var t := Put(s.(facts := s.facts + {Proposed(r, 1)}), r, rs.(est := 1, binValues := rs.binValues + {1}, coordStepDone := true));
      BroadcastAux(t, f, r)
  }

  function BroadcastAux(s: Replica, f: nat, r: nat): Replica {
    var rs := At(s, r);
    if rs.auxSent then s
    else AfterAux(Put(s.(sent := s.sent + {Aux(r, rs.binValues)}), r, rs.(auxSent := true)), f, r)
  }

  /** The guards of onAfterSendReceiveAux. */
  predicate Passes(rs: Round, f: nat) {
    rs.auxSent && |rs.auxEstimates| > 2 * f && Union(rs.auxEstimates) <= rs.binValues
  }

  /** onAfterSendReceiveAux. */
  function AfterAux(s: Replica, f: nat, r: nat): Replica {
    if !Passes(At(s, r), f) then s else Continue(Conclude(s, r), r)
  }

  /** The new estimate, and a decision if it is unanimous and of the round's parity. */
  function Conclude(s: Replica, r: nat): Replica {
    var rs := At(s, r);
    var vs := Union(rs.auxEstimates);
    var est := EstOf(r, vs);
    var t := Put(s.(facts := s.facts + {Passed(r, vs, s.got)}), r, rs.(est := est));
    if |vs| == 1 && est == r % 2 && !s.c.decided
    then t.(c := t.c.(decided := true, decidedValue := est, decidedRound := r))
    else t
  }

  /** What a replica does after a round: go on, wait to be restarted, or stop two rounds after its decision. */
  function Continue(s: Replica, r: nat): Replica {
    var rs := At(s, r);
    if s.c.decided && s.c.decidedRound == r then
      if {0, 1} <= rs.binValues then ProposeValue(s, r + 1, rs.est)
      else s.(c := s.c.(restartOnBinValues := true))
    else if s.c.decided && s.c.decidedRound + 2 == r then s.(c := s.c.(halt := true))
    else ProposeValue(s, r + 1, rs.est)
  }

  /** The estimate counted, and f+1 of them echoed. */
  function Counted(s: Replica, f: nat, from: PeerID, r: nat, v: int): Replica {
    var rs := At(s, r);
    var count := Count(rs.bvbEstimates, v) + 1;
    var t := Put(s.(got := s.got + {Envelope(from, Estimate(r, v))}), r, rs.(bvbEstimates := rs.bvbEstimates[v := count]));
    if count == f + 1 && v !in rs.bvbSent then Echo(t, r, v) else t
  }

  function OnEstimate(s: Replica, f: nat, from: PeerID, r: nat, v: int): Replica {
    var t := Counted(s, f, from, r, v);
    if Count(At(s, r).bvbEstimates, v) + 1 == 2 * f + 1 then AfterBVBroadcast(Admit(t, r, v), f, r) else t
  }

  /** f+1 estimates: send it along. */
  function Echo(s: Replica, r: nat, v: int): Replica {
    var rs := At(s, r);
    Put(s.(sent := s.sent + {Estimate(r, v)}), r, rs.(bvbSent := rs.bvbSent + {v}))
  }

  /** 2f+1 estimates: the value is a candidate. */
  function Admit(s: Replica, r: nat, v: int): Replica {
    Put(s, r, At(s, r).(binValues := At(s, r).binValues + {v}))
  }

  function AfterBVBroadcast(s: Replica, f: nat, r: nat): Replica {
    Restart(CoordStep(s, f, r), r)
  }

  function CoordStep(s: Replica, f: nat, r: nat): Replica {
    var rs := At(s, r);
    if rs.coordStepDone then s
    else
      var t := Put(s, r, rs.(coordStepDone := true, timerSet := true));
      if rs.timerExpired then BroadcastAux(t, f, r) else t
  }

  function Restart(s: Replica, r: nat): Replica {
    var rs := At(s, r);
    if s.c.restartOnBinValues && {0, 1} <= rs.binValues then
      ProposeValue(s.(c := s.c.(restartOnBinValues := false),
                      facts := s.facts + {Restarted(r, rs.est)}), r + 1, rs.est)
    else s
  }

  function OnAux(s: Replica, f: nat, from: PeerID, r: nat, values: set<int>): Replica {
    var rs := At(s, r);
    AfterAux(Put(s.(got := s.got + {Envelope(from, Aux(r, values))}), r, rs.(auxEstimates := rs.auxEstimates + [values])), f, r)
  }

  function OnTimer(s: Replica, f: nat, r: nat): Replica {
    var rs := At(s, r);
    if !rs.timerSet then s
    else
      var t := Put(s, r, rs.(timerExpired := true));
      if rs.binValues == {} then t else BroadcastAux(t, f, r)
  }

  function Receive(s: Replica, f: nat, e: Envelope): Replica {
    match e.msg
    case Estimate(r, v) => OnEstimate(s, f, e.from, r, v)
    case Aux(r, values) => OnAux(s, f, e.from, r, values)
  }
}
