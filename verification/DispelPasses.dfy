/** What a replica makes of a DBFT round that passes the Aux guards: its estimate, its decision, and how it goes on. */
module DispelPasses {
  import opened Quorums
  import opened DispelBinary
  import opened DispelLocal

  /** The values that the Aux messages of a round hold together. */
  function Seen(s: Replica, r: nat): set<int> {
    Union(At(s, r).auxEstimates)
  }

  lemma EstIs(r: nat, vs: set<int>, v: int)
    ensures vs == {v} ==> EstOf(r, vs) == v
    ensures (forall w :: vs != {w}) ==> EstOf(r, vs) == r % 2
  {
    if |vs| == 1 {
      OnlyOne(vs);
    }
  }

  /** The estimate after a pass is the one value seen, and the parity of the round where there is not just one; it is
      decided if and only if it is that parity alone, and nothing has been decided before. */
  lemma PassDecides(s: Replica, f: nat, r: nat, v: int)
    requires Passes(At(s, r), f)
    ensures var t, vs := AfterAux(s, f, r), Seen(s, r);
      && (vs == {v} ==> At(t, r).est == v)
      && ((forall w :: vs != {w}) ==> At(t, r).est == r % 2)
      && (s.c.decided ==> t.c.decided && t.c.decidedValue == s.c.decidedValue && t.c.decidedRound == s.c.decidedRound)
      && (!s.c.decided ==> (t.c.decided <==> vs == {r % 2}))
      && (!s.c.decided && t.c.decided ==> t.c.decidedValue == r % 2 && t.c.decidedRound == r)
  {
    EstIs(r, Seen(s, r), v);
    EstIs(r, Seen(s, r), r % 2);
    ConcludeIs(s, r);
    hide EstOf, Conclude;
    ContinueIs(Conclude(s, r), r);
    hide Continue;
    if |Seen(s, r)| == 1 {
      OnlyOne(Seen(s, r));
      var w :| Seen(s, r) == {w};
      EstIs(r, Seen(s, r), w);
    }
  }

  lemma ConcludeIs(s: Replica, r: nat)
    ensures var t, vs := Conclude(s, r), Seen(s, r);
      && At(t, r) == At(s, r).(est := EstOf(r, vs))
      && (if |vs| == 1 && EstOf(r, vs) == r % 2 && !s.c.decided
          then t.c == s.c.(rs := t.c.rs, decided := true, decidedValue := r % 2, decidedRound := r) else t.c == s.c.(rs := t.c.rs))
      && forall x: Fact :: x in t.facts && x !in s.facts ==> x.Passed?
  {
    hide EstOf;
  }

  lemma ContinueIs(s: Replica, r: nat)
    ensures var t := Continue(s, r);
      && At(t, r) == At(s, r) && t.c.decided == s.c.decided && t.c.decidedValue == s.c.decidedValue && t.c.decidedRound == s.c.decidedRound
  {
  }

  /** How it goes on: it stops two rounds after its decision; in the round of its decision it waits until both values
      are candidates; otherwise, and if it has not stopped, it proposes its estimate in the next round. */
  lemma PassGoesOn(s: Replica, f: nat, r: nat)
    requires Passes(At(s, r), f)
    ensures var t := AfterAux(s, f, r);
      var here := t.c.decided && t.c.decidedRound == r;
      var waits := here && !(0 in At(s, r).binValues && 1 in At(s, r).binValues);
      var stops := !here && t.c.decided && t.c.decidedRound + 2 == r;
      && t.c.restartOnBinValues == (s.c.restartOnBinValues || waits)
      && t.c.halt == (s.c.halt || stops)
      && (if waits || stops || s.c.halt then forall x: Fact :: x in t.facts && x !in s.facts ==> !x.Proposed?
          else Proposed(r + 1, At(t, r).est) in t.facts && At(t, r + 1).est == At(t, r).est && At(t, r).est in At(t, r + 1).bvbSent)
  {
    ConcludeIs(s, r);
    var c := Conclude(s, r);
    assert AfterAux(s, f, r) == Continue(c, r);
    hide EstOf, Conclude, AfterAux, Union;
    ContinueIs(c, r);
    ProposeIs(c, r + 1, At(c, r).est);
    hide ProposeValue;
  }

  lemma ProposeIs(s: Replica, r: nat, est: int)
    ensures var t := ProposeValue(s, r, est);
      && t.c.halt == s.c.halt && t.c.restartOnBinValues == s.c.restartOnBinValues && (s.c.halt ==> t == s)
      && (!s.c.halt ==> Proposed(r, est) in t.facts && At(t, r).est == est && est in At(t, r).bvbSent)
  {
  }

  /** A replica that waits proposes its estimate as soon as the second of the two values becomes a candidate. */
  lemma WaitEnds(s: Replica, r: nat)
    requires !s.c.halt
    ensures var t := Restart(s, r);
      if s.c.restartOnBinValues && 0 in At(s, r).binValues && 1 in At(s, r).binValues
      then Proposed(r + 1, At(s, r).est) in t.facts && !t.c.restartOnBinValues && At(t, r + 1).est == At(s, r).est
      else t == s
  {
    var u := s.(c := s.c.(restartOnBinValues := false), facts := s.facts + {Restarted(r, At(s, r).est)});
    ProposeIs(u, r + 1, At(s, r).est);
    hide ProposeValue;
  }

  /** Where that is looked at: when a value becomes a candidate by its 2f+1st estimate. */
  lemma CandidateEndsWait(s: Replica, f: nat, from: PeerID, r: nat, v: int)
    requires !s.c.halt && s.c.restartOnBinValues && Count(At(s, r).bvbEstimates, v) == 2 * f && At(s, r).coordStepDone
    requires 0 in At(s, r).binValues + {v} && 1 in At(s, r).binValues + {v}
    ensures var t := OnEstimate(s, f, from, r, v);
      Proposed(r + 1, At(s, r).est) in t.facts && !t.c.restartOnBinValues
  {
    var d := Counted(s, f, from, r, v);
    CountedLeaves(s, f, from, r, v);
    hide Counted, Restart;
    WaitEnds(Admit(d, r, v), r);
  }

  lemma CountedLeaves(s: Replica, f: nat, from: PeerID, r: nat, v: int)
    ensures var t := Counted(s, f, from, r, v);
      && t.c == s.c.(rs := t.c.rs) && At(t, r).binValues == At(s, r).binValues && At(t, r).est == At(s, r).est
      && At(t, r).coordStepDone == At(s, r).coordStepDone
  {
  }

  /** An Aux message makes a round pass if and only if the replica has sent its own, the senders are now more than 2f,
      and all values seen are candidates; otherwise it is only noted. */
  lemma AuxCounts(s: Replica, f: nat, from: PeerID, r: nat, values: set<int>)
    requires AuxOK(s, r) && from !in AuxSenders(s.got, r)
    ensures var t, seen, got := OnAux(s, f, from, r, values), Seen(s, r) + values, s.got + {Envelope(from, Aux(r, values))};
      if At(s, r).auxSent && |AuxSenders(s.got, r) + {from}| > 2 * f && seen <= At(s, r).binValues
      then Passed(r, seen, got) in t.facts
      else t.facts == s.facts && t.sent == s.sent && t.got == got && t.c == s.c.(rs := t.c.rs)
           && At(t, r) == At(s, r).(auxEstimates := At(s, r).auxEstimates + [values])
  {
    var u := Put(s.(got := s.got + {Envelope(from, Aux(r, values))}), r, At(s, r).(auxEstimates := At(s, r).auxEstimates + [values]));
    UnionAdds(At(s, r).auxEstimates, values);
    hide Union, AuxSenders, EstOf;
    assert |AuxSenders(s.got, r) + {from}| == |AuxSenders(s.got, r)| + 1;
    PassRecorded(u, f, r);
  }

  lemma UnionAdds(sets: seq<set<int>>, vs: set<int>)
    ensures Union(sets + [vs]) == Union(sets) + vs
  {
    assert (sets + [vs])[..|sets|] == sets;
  }

  lemma PassRecorded(s: Replica, f: nat, r: nat)
    ensures var t := AfterAux(s, f, r);
      if Passes(At(s, r), f) then Passed(r, Union(At(s, r).auxEstimates), s.got) in t.facts else t == s
  {
    hide EstOf, Union;
  }
}
