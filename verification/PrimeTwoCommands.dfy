/** A run in which two correct replicas of Prime acknowledge different commands under one id: a faulty peer requests
    under an id of a correct replica, which votes for it and later reuses the id for a client's command. */
module PrimeTwoCommands {
  import opened Quorums
  import opened PrimeFrontier
  import opened PrimeNode
  import opened PrimeExec
  import opened PrimeRuns
  import opened PrimeSystem
  import opened PrimeCommands
  import opened PrimeLimits
  import Slots

  function Of(c: Command): Option<Digest<Command>> {
    Some(Slots.Of(c))
  }

  function First(): Id {
    Id(0, 1)
  }

  function Foreign(): Command {
    Command(7, 0)
  }

  function Own(): Command {
    Command(8, 0)
  }

  function Requests(c: Command): Msg {
    PORequest(First(), Some(c), Of(c))
  }

  function Acks(c: Command): Msg {
    POAck(First(), None, Of(c))
  }

  /** Replica p has pre-ordered c with the votes of the given peers. */
  function Pre(p: PeerID, c: Command, voters: set<PeerID>): Node {
    Initial(1, p, 0).(log := map[First() := Inst(PreOrder, Some(c), Of(c), Cast(voters, Of(c)))], msgs := [Acks(c)])
  }

  lemma PreIs(p: PeerID, c: Command, voters: set<PeerID>)
    ensures var s := Pre(p, c, voters); !s.halted && s.msgs == [Acks(c)] && s.index == 1 && s.id == p && s.f == 1 && |s.poSummary| == 4
  {
  }

  lemma Majority3(voters: set<PeerID>, c: Command)
    ensures Majority(Cast(voters, Of(c)), Of(c), 1) <==> |voters| > 2
  {
    assert Agreeing(Cast(voters, Of(c)), Of(c)) == voters;
  }

  /** A request is taken up with the sender's vote and the replica's own. */
  lemma TakesUp(p: PeerID, from: PeerID, c: Command)
    requires p != from
    ensures Step(Initial(1, p, 0), Deliver(p, from, Requests(c))) == Pre(p, c, {from, p})
  {
    CastMore({}, from, {from}, Of(c), 1);
    CastMore({from}, p, {from, p}, Of(c), 1);
    assert Cast({}, Of(c)) == map[];
    assert |{from, p}| == 2;
    Majority3({from, p}, c);
    hide Majority, Cast, Log;
  }

  /** The vote of a third peer acknowledges the instance. */
  lemma Acknowledges(p: PeerID, from: PeerID, c: Command, q: PeerID)
    requires p != from && q != p && q != from
    ensures var t := Step(Pre(p, c, {from, p}), Deliver(p, q, Acks(c)));
      First() in t.log && t.log[First()].status == PreOrderAck && t.log[First()].cmd == Some(c)
  {
    CastMore({from, p}, q, {from, p, q}, Of(c), 1);
    assert |{from, p, q}| == 3;
    Majority3({from, p, q}, c);
    PreIs(p, c, {from, p});
    hide Majority, Cast, Log, RunEnd, Initial;
  }

  /** The origin takes its first id, whatever the log holds under it. */
  lemma Reuses(c: Command, d: Command, voters: set<PeerID>)
    ensures var t := Step(Pre(0, c, voters), Request(0, d)); t.msgs == [Acks(c), Requests(d)]
  {
    PreIs(0, c, voters);
    hide Initial, Cast;
  }

  /** With one faulty peer of four, two correct replicas acknowledge different commands under one id, and the
      origin, which is correct too, has voted for both. */
  lemma TwoCommands() returns (sys: System)
    ensures Reached(sys, false) && |sys.faulty| <= sys.f && 0 in sys.nodes && 1 in sys.nodes && 2 in sys.nodes
    ensures var a, b := sys.nodes[1].log, sys.nodes[2].log;
      First() in a && First() in b && a[First()].status == PreOrderAck && b[First()].status == PreOrderAck
      && a[First()].cmd == Some(Foreign()) && b[First()].cmd == Some(Own()) && Foreign().body != Own().body
    ensures !SaidOnce(sys.nodes[0], First())
  {
    hide Reached, Step, Initial, Cast, Foreign, Own, Pre;
    StartReached();
    var a, b, c := Initial(1, 0, 0), Initial(1, 1, 0), Initial(1, 2, 0);
    var x, y := Foreign(), Own();
    Moves(a, b, c, Deliver(0, 3, Requests(x)));
    TakesUp(0, 3, x);
    a := Pre(0, x, {3, 0});
    PreIs(0, x, {3, 0});
    Moves(a, b, c, Deliver(1, 3, Requests(x)));
    TakesUp(1, 3, x);
    b := Pre(1, x, {3, 1});
    Moves(a, b, c, Deliver(1, 0, Acks(x)));
    Acknowledges(1, 3, x, 0);
    b := Step(b, Deliver(1, 0, Acks(x)));
    Moves(a, b, c, Request(0, y));
    Reuses(x, y, {3, 0});
    a := Step(a, Request(0, y));
    assert a.msgs[1] == Requests(y);
    Moves(a, b, c, Deliver(2, 0, Requests(y)));
    TakesUp(2, 0, y);
    c := Pre(2, y, {0, 2});
    Moves(a, b, c, Deliver(2, 3, Acks(y)));
    Acknowledges(2, 0, y, 3);
    c := Step(c, Deliver(2, 3, Acks(y)));
    sys := Sys(a, b, c);
    Differ();
    TwoVotesSaid(a, x, y);
  }

  lemma Differ()
    ensures Foreign().body != Own().body
  {
  }

  lemma TwoVotesSaid(s: Node, x: Command, y: Command)
    requires s.msgs == [Acks(x), Requests(y)] && x != y
    ensures !SaidOnce(s, First())
  {
    assert VotesFor(s.msgs[0], First(), Of(x)) && VotesFor(s.msgs[1], First(), Of(y));
    assert Said(s, First(), Of(x)) && Said(s, First(), Of(y));
  }
}
