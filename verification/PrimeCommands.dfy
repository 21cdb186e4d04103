/** The commands that Prime executes: where they come from, that they go with the hash that the replicas voted on,
    and when two replicas execute the same command under one id. */
module PrimeCommands {
  import opened Quorums
  import opened PrimeFrontier
  import opened PrimeNode
  import opened PrimeExec
  import opened PrimeRuns
  import opened PrimeSystem
  import Slots

  /** The hash is that of a command with this body. */
  predicate Fits(hash: Option<Digest<Command>>, body: int) {
    hash.Some? && hash.value.Of? && hash.value.payload.body == body
  }

  /** Pre-ordered here and not executed. */
  predicate Active(status: Status) {
    status == PreOrder || status == PreOrderAck
  }

  function Held(s: Node, id: Id): Inst {
    if id in s.log then s.log[id] else Inst(Nothing, None, None, map[])
  }

  /** m votes for d under id. */
  predicate VotesFor(m: Msg, id: Id, d: Option<Digest<Command>>) {
    (m.PORequest? || m.POAck?) && m.id == id && m.hash == d
  }

  ghost predicate Said(s: Node, id: Id, d: Option<Digest<Command>>) {
    exists m :: m in s.msgs && VotesFor(m, id, d)
  }

  // ----- what one message does to an instance

  /** The instance has only been given a command. */
  predicate TakesCommand(s: Node, t: Node, x: Inst, y: Inst) {
    y == x.(cmd := y.cmd) && (x.cmd.Some? ==> y.cmd == x.cmd) && t.msgs == s.msgs
  }

  /** It has been given one vote, for its hash. */
  predicate TakesVote(s: Node, t: Node, from: PeerID, x: Inst, y: Inst, d: Option<Digest<Command>>) {
    && from !in x.votes && y.votes == x.votes[from := d] && y.hash == d && t.msgs == s.msgs
    && (x.status != Nothing ==> y.cmd == x.cmd)
    && (y.status == x.status || (x.status == PreOrder && y.status == PreOrderAck && Majority(y.votes, d, s.f)))
  }

  /** It has been pre-ordered: the sender's vote and the replica's own, for the hash of cmd. */
  predicate Starts(s: Node, t: Node, from: PeerID, id: Id, x: Inst, y: Inst, d: Option<Digest<Command>>, body: Option<int>) {
    && from !in x.votes && s.id !in x.votes && from != s.id && y.votes == x.votes[from := d][s.id := d]
    && t.msgs == s.msgs + [POAck(id, None, d)] && y.hash == d
    && body.Some? && Fits(d, body.value) && y.cmd.Some? && y.cmd.value.body == body.value
    && (y.status == PreOrder || (y.status == PreOrderAck && Majority(y.votes, d, s.f)))
  }

  /** A pre-ordering message of sender from changes at most the instance id. */
  predicate Turns(s: Node, t: Node, from: PeerID, id: Id, d: Option<Digest<Command>>, body: Option<int>) {
    && t.id == s.id && t.f == s.f && t.index == s.index && t.executed == s.executed
    && ((t.log == s.log && t.msgs == s.msgs)
        || (id in t.log && t.log == s.log[id := t.log[id]]
            && (Held(s, id).hash.Some? ==> t.log[id].hash == Held(s, id).hash)
            && (TakesCommand(s, t, Held(s, id), t.log[id]) || TakesVote(s, t, from, Held(s, id), t.log[id], d)
                || Starts(s, t, from, id, Held(s, id), t.log[id], d, body))))
  }

  lemma SettleTurns(s: Node, id: Id, x: Inst, d: Option<Digest<Command>>)
    ensures var t := Settle(s, id, x, d);
      && t == s.(log := s.log[id := t.log[id]], poSummary := t.poSummary, halted := t.halted)
      && (t.log[id] == x || (x.status == PreOrder && Majority(x.votes, d, s.f) && t.log[id] == x.(status := PreOrderAck)))
  {
    hide Majority, RunEnd;
  }

  /** What onPORequest finds or makes before it votes. */
  predicate MayStart(s: Node, id: Id, x: Inst, c: Command, d: Option<Digest<Command>>) {
    && d == Some(Slots.Of(c)) && x.hash == d && x.cmd.Some? && x.cmd.value.body == c.body
    && x.votes == Held(s, id).votes && (Held(s, id).hash.Some? ==> Held(s, id).hash == d)
  }

  lemma CastRequestTurns(s: Node, from: PeerID, id: Id, x: Inst, c: Command, d: Option<Digest<Command>>)
    requires MayStart(s, id, x, c, d)
    ensures Turns(s, CastRequest(s, from, id, x, d), from, id, d, Some(c.body))
  {
    hide Majority, Settle;
    if from !in x.votes && s.id !in x.votes && from != s.id {
      SettleTurns(Say(s, POAck(id, None, d)), id, x.(status := PreOrder, votes := x.votes[from := d][s.id := d]), d);
    }
  }

  lemma OnPORequestTurns(s: Node, from: PeerID, id: Id, cmd: Option<Command>, hash: Option<Digest<Command>>)
    ensures Turns(s, OnPORequest(s, from, id, cmd, hash), from, id, hash, if cmd.Some? then Some(cmd.value.body) else None)
  {
    hide CastRequest;
    if cmd.Some? && hash == Some(Slots.Of(cmd.value)) {
      var x := if id !in s.log then Some(Inst(Nothing, cmd, hash, map[])) else UpdateCommand(s.log[id], cmd.value);
      if x.Some? && (x.value.hash.None? || x.value.hash == hash) {
        CastRequestTurns(s, from, id, x.value.(hash := hash), cmd.value, hash);
      }
    }
  }

  lemma OnPOAckTurns(s: Node, from: PeerID, id: Id, cmd: Option<Command>, hash: Option<Digest<Command>>)
    ensures Turns(s, OnPOAck(s, from, id, cmd, hash), from, id, hash, None)
  {
    hide Majority, Settle;
    var x := if id !in s.log then Inst(Nothing, cmd, hash, map[]) else s.log[id].(hash := hash);
    if from !in x.votes {
      SettleTurns(s, id, x.(votes := x.votes[from := hash]), hash);
    }
  }

  // ----- ordering leaves the log to exec

  predicate NoVote(m: Msg) {
    !m.PORequest? && !m.POAck?
  }

  /** From s to t only exec has touched the log. */
  ghost predicate Ordered(s: Node, t: Node) {
    && t.id == s.id && t.f == s.f && t.index == s.index && Drawn(s, t) && s.msgs <= t.msgs
    && forall k :: |s.msgs| <= k < |t.msgs| ==> NoVote(t.msgs[k])
  }

  lemma {:induction false} ExecFields(s: Node)
    ensures var t := Exec(s); t.id == s.id && t.f == s.f && t.index == s.index && t.msgs == s.msgs
    decreases |CommittedSlots(s.olog)|
  {
    hide Usable, Available, RunOrigins;
    if !s.halted && CanPass(s) && Usable(s.olog[s.oexecIdx], s.f) && Available(s, s.olog[s.oexecIdx]) {
      RunOriginsFrame(s, s.olog[s.oexecIdx], Rows(s.olog[s.oexecIdx]));
      var t := RunSlot(s);
      if !t.halted {
        SlotConsumed(s);
        ExecFields(t);
      }
    }
  }

  lemma PutOrders(s: Node, t: Node)
    requires t.id == s.id && t.f == s.f && t.index == s.index && t.log == s.log && t.executed == s.executed && s.msgs <= t.msgs
    requires forall k :: |s.msgs| <= k < |t.msgs| ==> NoVote(t.msgs[k])
    ensures Ordered(s, t) && Ordered(s, Exec(t))
  {
    hide Exec, Drawn;
    DrawnSame(s, t);
    ExecFields(t);
    ExecDraws(t);
    DrawnTwice(s, t, Exec(t));
  }

  lemma TryPrepareOrders(s: Node, t: Node, i: nat, x: Slot, d: Option<Digest<Matrix>>)
    requires t.id == s.id && t.f == s.f && t.index == s.index && t.log == s.log && t.executed == s.executed && s.msgs <= t.msgs
    requires forall k :: |s.msgs| <= k < |t.msgs| ==> NoVote(t.msgs[k])
    ensures Ordered(s, TryPrepare(t, i, x, d))
  {
    hide Exec, Majority, Ordered;
    PutOrders(s, Halt(t));
    PutOrders(s, t.(olog := t.olog[i := x]));
    if s.id !in x.commits {
      var u := Say(t, Order(Commit, t.oview, i, None, d));
      var c := x.commits[s.id := d];
      PutOrders(s, u.(olog := u.olog[i := x.(status := OCommitted, commits := c)]));
      PutOrders(s, u.(olog := u.olog[i := x.(status := OPrepared, commits := c)]));
    }
  }

  lemma CastPrepareOrders(s: Node, from: PeerID, i: nat, x: Slot, d: Option<Digest<Matrix>>)
    ensures Ordered(s, CastPrepare(s, from, i, x, d))
  {
    hide TryPrepare, Ordered;
    PutOrders(s, Halt(s));
    if from !in x.prepares && s.id !in x.prepares[from := d] {
      TryPrepareOrders(s, Say(s, Order(Prepare, s.oview, i, None, d)), i,
                       x.(status := OPrePrepared, prepares := x.prepares[from := d][s.id := d]), d);
    }
  }

  lemma OnPrePrepareOrders(s: Node, from: PeerID, i: nat, matrix: Option<Matrix>, d: Option<Digest<Matrix>>)
    ensures Ordered(s, OnPrePrepare(s, from, i, matrix, d))
  {
    hide CastPrepare, Ordered;
    PutOrders(s, s);
    PutOrders(s, Halt(s));
    if i in s.olog {
      var y := if s.olog[i].matrix.Some? then s.olog[i] else s.olog[i].(matrix := matrix);
      PutOrders(s, s.(olog := s.olog[i := y]));
      CastPrepareOrders(s, from, i, y.(hash := d), d);
    } else {
      CastPrepareOrders(s, from, i, Slot(ONothing, matrix, None, map[], map[]), d);
    }
  }

  lemma OnPrepareOrders(s: Node, from: PeerID, i: nat, matrix: Option<Matrix>, d: Option<Digest<Matrix>>)
    ensures Ordered(s, OnPrepare(s, from, i, matrix, d))
  {
    hide TryPrepare, Ordered;
    PutOrders(s, s);
    PutOrders(s, Halt(s));
    match KnownSlot(s, i, matrix, d)
    case None =>
    case Some(x) => TryPrepareOrders(s, s, i, x.(prepares := x.prepares[from := d]), d);
  }

  lemma OnCommitOrders(s: Node, from: PeerID, i: nat, matrix: Option<Matrix>, d: Option<Digest<Matrix>>)
    ensures Ordered(s, OnCommit(s, from, i, matrix, d))
  {
    hide Exec, Majority, Ordered;
    PutOrders(s, s);
    PutOrders(s, Halt(s));
    match KnownSlot(s, i, matrix, d)
    case None =>
    case Some(x) =>
      var c := x.commits[from := d];
      var done := Majority(c, d, s.f) && x.status == OPrepared;
      PutOrders(s, s.(olog := s.olog[i := x.(commits := c, status := if done then OCommitted else x.status)]));
  }

  /** Every event but a request of the replica's own is one or the other. */
  predicate TurnsBy(s: Node, t: Node, ev: Event) {
    ev.Deliver?
    && match ev.m
       case PORequest(id, cmd, hash) => Turns(s, t, ev.from, id, hash, if cmd.Some? then Some(cmd.value.body) else None)
       case POAck(id, _, hash) => Turns(s, t, ev.from, id, hash, None)
       case _ => false
  }

  lemma StepMoves(s: Node, ev: Event)
    requires !s.halted && !ev.Request?
    ensures var t := Step(s, ev); TurnsBy(s, t, ev) || Ordered(s, t)
  {
    hide Turns, Ordered, OnPORequest, OnPOAck, OnPrePrepare, OnPrepare, OnCommit;
    match ev
    case SummaryTimer(_) => PutOrders(s, SendSummary(s));
    case PrePrepareTimer(_) => PutOrders(s, SendPrePrepare(s));
    case Deliver(_, from, m) =>
      match m
      case PORequest(id, cmd, hash) => OnPORequestTurns(s, from, id, cmd, hash);
      case POAck(id, cmd, hash) => OnPOAckTurns(s, from, id, cmd, hash);
      case POSummary(row) => PutOrders(s, OnPOSummary(s, from, row));
      case Order(kind, view, i, matrix, d) =>
        PutOrders(s, s);
        match kind
        case PrePrepare => OnPrePrepareOrders(s, from, i, matrix, d);
        case Prepare => OnPrepareOrders(s, from, i, matrix, d);
        case Commit => OnCommitOrders(s, from, i, matrix, d);
  }

  // ----- what a replica holds, has said and has executed

  /** A pre-ordered instance has the command of its hash; one that is acknowledged has 2f+1 votes for the hash. */
  predicate Sound(x: Inst, f: nat) {
    && (Active(x.status) ==> x.cmd.Some? && Fits(x.hash, x.cmd.value.body))
    && (x.status == PreOrderAck ==> Majority(x.votes, x.hash, f))
  }

  ghost predicate LogSound(s: Node) {
    forall id :: id in s.log ==> Sound(s.log[id], s.f)
  }

  /** A vote on another's instance is on record, and cannot be changed. */
  predicate Bound(s: Node, m: Msg) {
    !NoVote(m) && m.id.replica != s.id ==> m.id in s.log && m.hash.Some? && s.log[m.id].hash == m.hash && s.id in s.log[m.id].votes
  }

  ghost predicate SaidHeld(s: Node) {
    forall m :: m in s.msgs ==> Bound(s, m)
  }

  /** The command executed goes with the hash of its instance.  A request may later reuse an id of the
      replica's own. */
  predicate OutFits(s: Node, o: Output) {
    o.id in s.log && Fits(s.log[o.id].hash, o.cmd.body)
  }

  ghost predicate OutsFit(s: Node) {
    forall o :: o in s.executed && (o.id.replica != s.id || o.id.index >= s.index) ==> OutFits(s, o)
  }

  ghost predicate Sane(s: Node) {
    LogSound(s) && SaidHeld(s) && OutsFit(s)
  }

  lemma MajorityGrows(votes: Votes<Command>, from: PeerID, d: Option<Digest<Command>>, f: nat)
    requires from !in votes && Majority(votes, d, f)
    ensures Majority(votes[from := d], d, f)
  {
    SubsetSize(Agreeing(votes, d), Agreeing(votes[from := d], d));
  }

  lemma TurnsSound(s: Node, t: Node, from: PeerID, id: Id, d: Option<Digest<Command>>, body: Option<int>)
    requires LogSound(s) && Turns(s, t, from, id, d, body)
    ensures LogSound(t)
  {
    hide Majority;
    if t.log != s.log {
      var x, y := Held(s, id), t.log[id];
      assert Sound(x, s.f);
      if TakesVote(s, t, from, x, y, d) && x.status == PreOrderAck {
        MajorityGrows(x.votes, from, d, s.f);
      }
      assert Sound(y, s.f);
    }
  }

  lemma TurnsSaid(s: Node, t: Node, from: PeerID, id: Id, d: Option<Digest<Command>>, body: Option<int>)
    requires SaidHeld(s) && Turns(s, t, from, id, d, body)
    ensures SaidHeld(t)
  {
    hide Majority;
    forall m | m in t.msgs ensures Bound(t, m) {
      if m in s.msgs {
        assert Bound(s, m);
      }
    }
  }

  lemma TurnsFit(s: Node, t: Node, from: PeerID, id: Id, d: Option<Digest<Command>>, body: Option<int>)
    requires OutsFit(s) && Turns(s, t, from, id, d, body)
    ensures OutsFit(t)
  {
    hide TakesCommand, TakesVote, Starts;
  }

  lemma OrderedSane(s: Node, t: Node)
    requires Sane(s) && InstsOK(s) && Ordered(s, t)
    ensures Sane(t)
  {
    hide Majority;
    forall m | m in t.msgs ensures Bound(t, m) {
      if m in s.msgs {
        assert Bound(s, m);
      }
    }
    forall id | id in t.log ensures Sound(t.log[id], t.f) {
      assert Sound(s.log[id], s.f);
    }
    forall o | o in t.executed && (o.id.replica != t.id || o.id.index >= t.index) ensures OutFits(t, o) {
      if o in s.executed {
        assert OutFits(s, o);
      } else {
        NewOutput(s, t, o);
        assert Sound(s.log[o.id], s.f);
      }
    }
  }

  /** What exec executes is acknowledged. */
  lemma NewOutput(s: Node, t: Node, o: Output)
    requires InstsOK(s) && Drawn(s, t) && o in t.executed && o !in s.executed
    ensures o.id in s.log && s.log[o.id].status == PreOrderAck && s.log[o.id].cmd == Some(o.cmd)
    ensures o.id in t.log && t.log[o.id].hash == s.log[o.id].hash
  {
    var k :| 0 <= k < |t.executed| && t.executed[k] == o;
    assert k >= |s.executed|;
    assert Draws(s.log, t.log, t.executed[k]);
    assert InstOK(s.log[o.id], s.id);
  }

  lemma RequestSane(s: Node, cmd: Command)
    requires Sane(s)
    ensures Sane(OnRequest(s, cmd))
  {
    hide Majority;
    var t := OnRequest(s, cmd);
    forall m | m in t.msgs ensures Bound(t, m) {
      if m in s.msgs {
        assert Bound(s, m);
      }
    }
  }

  /** A request spoils this for one id at most: it does so if and only if another command has been executed under
      the replica's next id. */
  lemma RequestFitsIff(s: Node, cmd: Command, o: Output)
    requires o in s.executed && OutFits(s, o)
    ensures var t := OnRequest(s, cmd);
      o in t.executed && (OutFits(t, o) <==> (o.id == Id(s.id, s.index) ==> o.cmd.body == cmd.body))
  {
  }

  // ----- all replicas

  /** All correct members of the quorum q have voted for d. */
  ghost predicate BackedBy(sys: System, id: Id, d: Option<Digest<Command>>, q: set<PeerID>) {
    && q <= Peers(sys.f) && |q| > 2 * sys.f
    && forall p :: p in q && p in sys.nodes ==> Said(sys.nodes[p], id, d)
  }

  ghost predicate Backed(sys: System, o: Output) {
    exists d, q :: BackedBy(sys, o.id, d, q) && Fits(d, o.cmd.body)
  }

  ghost predicate VoteSaid(sys: System, q: PeerID, id: Id, d: Option<Digest<Command>>) {
    q in Peers(sys.f) && (q in sys.nodes ==> Said(sys.nodes[q], id, d))
  }

  ghost predicate VotesSaid(sys: System, s: Node) {
    forall id, q :: id in s.log && q in s.log[id].votes ==> VoteSaid(sys, q, id, s.log[id].votes[q])
  }

  ghost predicate OutsBacked(sys: System, s: Node) {
    forall o :: o in s.executed ==> Backed(sys, o)
  }

  ghost predicate Voted(sys: System, s: Node) {
    Sane(s) && VotesSaid(sys, s) && OutsBacked(sys, s)
  }

  ghost predicate VoteInv(sys: System) {
    && SysInv(sys)
    && forall p :: p in sys.nodes ==> Voted(sys, sys.nodes[p])
  }

  /** Nobody takes back a vote. */
  ghost predicate SaysMore(a: System, b: System) {
    && a.f == b.f && a.nodes.Keys == b.nodes.Keys
    && forall p :: p in a.nodes ==> a.nodes[p].msgs <= b.nodes[p].msgs
  }

  lemma VoteStays(a: System, b: System, q: PeerID, id: Id, d: Option<Digest<Command>>)
    requires SaysMore(a, b) && VoteSaid(a, q, id, d)
    ensures VoteSaid(b, q, id, d)
  {
    if q in a.nodes {
      var m :| m in a.nodes[q].msgs && VotesFor(m, id, d);
      assert m in b.nodes[q].msgs;
    }
  }

  lemma BackedStays(a: System, b: System, o: Output)
    requires SaysMore(a, b) && Backed(a, o)
    ensures Backed(b, o)
  {
    var d, q :| BackedBy(a, o.id, d, q) && Fits(d, o.cmd.body);
    forall p | p in q && p in b.nodes ensures Said(b.nodes[p], o.id, d) {
      assert Said(a.nodes[p], o.id, d);
      VoteStays(a, b, p, o.id, d);
    }
    assert BackedBy(b, o.id, d, q);
  }

  lemma VotedStays(a: System, b: System, s: Node)
    requires SaysMore(a, b) && Voted(a, s)
    ensures Voted(b, s)
  {
    hide Sane, Backed, VoteSaid;
    forall id, q | id in s.log && q in s.log[id].votes ensures VoteSaid(b, q, id, s.log[id].votes[q]) {
      VoteStays(a, b, q, id, s.log[id].votes[q]);
    }
    forall o | o in s.executed ensures Backed(b, o) {
      BackedStays(a, b, o);
    }
  }

  /** The votes for the hash of an acknowledged instance are a quorum. */
  lemma AckBacked(sys: System, s: Node, o: Output)
    requires LogSound(s) && VotesSaid(sys, s) && s.f == sys.f
    requires o.id in s.log && s.log[o.id].status == PreOrderAck && s.log[o.id].cmd == Some(o.cmd)
    ensures Backed(sys, o)
  {
    var x := s.log[o.id];
    assert Sound(x, s.f);
    AckVotes(sys, s, o.id);
    assert BackedBy(sys, o.id, x.hash, Agreeing(x.votes, x.hash));
  }

  lemma AckVotes(sys: System, s: Node, id: Id)
    requires VotesSaid(sys, s) && s.f == sys.f && id in s.log && Majority(s.log[id].votes, s.log[id].hash, s.f)
    ensures BackedBy(sys, id, s.log[id].hash, Agreeing(s.log[id].votes, s.log[id].hash))
  {
    var x := s.log[id];
    forall p | p in Agreeing(x.votes, x.hash) ensures VoteSaid(sys, p, id, x.hash) {
      assert VoteSaid(sys, p, id, x.votes[p]);
    }
  }

  /** sys is the system after the step that made t of s. */
  lemma OrderedVoted(sys: System, s: Node, t: Node)
    requires Voted(sys, s) && InstsOK(s) && Ordered(s, t) && s.f == sys.f
    ensures Voted(sys, t)
  {
    OrderedSane(s, t);
    hide Backed, VoteSaid, InstsOK, SaidHeld, OutsFit, LogSound;
    forall o | o in t.executed ensures Backed(sys, o) {
      if o !in s.executed {
        NewOutput(s, t, o);
        AckBacked(sys, s, o);
      }
    }
    forall id, q | id in t.log && q in t.log[id].votes ensures VoteSaid(sys, q, id, t.log[id].votes[q]) {
      assert t.log[id].votes == s.log[id].votes;
    }
  }

  lemma TurnsVoted(sys: System, s: Node, t: Node, from: PeerID, id: Id, d: Option<Digest<Command>>, body: Option<int>)
    requires Voted(sys, s) && Turns(s, t, from, id, d, body) && s.id in Peers(sys.f)
    requires VoteSaid(sys, from, id, d) && (s.id in sys.nodes ==> sys.nodes[s.id].msgs == t.msgs)
    ensures Voted(sys, t)
  {
    hide Majority;
    TurnsSound(s, t, from, id, d, body);
    TurnsSaid(s, t, from, id, d, body);
    TurnsFit(s, t, from, id, d, body);
    hide Backed, LogSound, SaidHeld, OutsFit, VoteSaid;
    if t.log != s.log && Starts(s, t, from, id, Held(s, id), t.log[id], d, body) {
      OwnVote(sys, s, t, id, d);
    }
    forall j, q | j in t.log && q in t.log[j].votes ensures VoteSaid(sys, q, j, t.log[j].votes[q]) {
      TurnVote(sys, s, t, from, id, d, body, j, q);
    }
  }

  lemma OwnVote(sys: System, s: Node, t: Node, id: Id, d: Option<Digest<Command>>)
    requires s.id in Peers(sys.f) && (s.id in sys.nodes ==> sys.nodes[s.id].msgs == t.msgs)
    requires t.msgs == s.msgs + [POAck(id, None, d)]
    ensures VoteSaid(sys, s.id, id, d)
  {
    assert VotesFor(t.msgs[|s.msgs|], id, d);
  }

  lemma TurnVote(sys: System, s: Node, t: Node, from: PeerID, id: Id, d: Option<Digest<Command>>, body: Option<int>, j: Id, q: PeerID)
    requires VotesSaid(sys, s) && Turns(s, t, from, id, d, body) && VoteSaid(sys, from, id, d)
    requires t.log != s.log && Starts(s, t, from, id, Held(s, id), t.log[id], d, body) ==> VoteSaid(sys, s.id, id, d)
    requires j in t.log && q in t.log[j].votes
    ensures VoteSaid(sys, q, j, t.log[j].votes[q])
  {
    hide Majority, VoteSaid;
    if j in s.log && q in s.log[j].votes {
      assert VoteSaid(sys, q, j, s.log[j].votes[q]);
    }
  }

  lemma RequestVoted(sys: System, s: Node, cmd: Command)
    requires Voted(sys, s) && s.id in sys.nodes && s.id in Peers(sys.f) && sys.nodes[s.id].msgs == OnRequest(s, cmd).msgs
    ensures Voted(sys, OnRequest(s, cmd))
  {
    RequestSane(s, cmd);
    hide Sane, Backed;
    var t := OnRequest(s, cmd);
    assert VotesFor(t.msgs[|s.msgs|], Id(s.id, s.index), Some(Slots.Of(cmd)));
    forall j, q | j in t.log && q in t.log[j].votes ensures VoteSaid(sys, q, j, t.log[j].votes[q]) {
      if j != Id(s.id, s.index) {
        assert VoteSaid(sys, q, j, s.log[j].votes[q]);
      }
    }
  }

  /** A vote that arrives has been said, if its sender is correct. */
  lemma DeliveredSaid(sys: System, ev: Event)
    requires SysInv(sys) && Enabled(sys, ev) && ev.Deliver? && !NoVote(ev.m)
    ensures VoteSaid(sys, ev.from, ev.m.id, ev.m.hash)
  {
    hide LocalInv;
    assert VotesFor(ev.m, ev.m.id, ev.m.hash);
  }

  lemma ActorVoted(sys: System, ev: Event)
    requires VoteInv(sys) && Enabled(sys, ev) && SaysMore(sys, After(sys, ev))
    ensures var after := After(sys, ev); Voted(after, after.nodes[Actor(ev)])
  {
    hide Step, Voted, OrderOK, Summed, SlotsOK, SaysMore, InstOK, Turns, Ordered, OnRequest, VoteSaid;
    var p, after := Actor(ev), After(sys, ev);
    var s, t := sys.nodes[p], after.nodes[p];
    VotedStays(sys, after, s);
    assert s.id == p && p in Peers(sys.f) && s.f == sys.f && InstsOK(s);
    StepIs(s, ev);
    if !s.halted {
      if ev.Request? {
        RequestVoted(after, s, ev.cmd);
      } else {
        StepMoves(s, ev);
        if TurnsBy(s, t, ev) {
          DeliveredSaid(sys, ev);
          VoteStays(sys, after, ev.from, ev.m.id, ev.m.hash);
          TurnsVoted(after, s, t, ev.from, ev.m.id, ev.m.hash, BodyOf(ev.m));
        } else {
          OrderedVoted(after, s, t);
        }
      }
    }
  }

  function BodyOf(m: Msg): Option<int> {
    if m.PORequest? && m.cmd.Some? then Some(m.cmd.value.body) else None
  }

  lemma StepIs(s: Node, ev: Event)
    ensures s.halted ==> Step(s, ev) == s
    ensures !s.halted && ev.Request? ==> Step(s, ev) == OnRequest(s, ev.cmd)
  {
    hide OnRequest, Receive;
  }

  lemma StepSays(sys: System, ev: Event)
    requires SysInv(sys) && Enabled(sys, ev)
    ensures SaysMore(sys, After(sys, ev))
  {
    hide LocalInv, Step, SummaryGrows, LogGrows, SlotsGrow, Ids;
    StepKeeps(sys, ev);
  }

  lemma StepVotes(sys: System, ev: Event)
    requires VoteInv(sys) && Enabled(sys, ev)
    ensures VoteInv(After(sys, ev))
  {
    hide SysInv, Voted, Step, SaysMore, Good;
    StepKeeps(sys, ev);
    StepSays(sys, ev);
    ActorVoted(sys, ev);
    forall p | p in After(sys, ev).nodes ensures Voted(After(sys, ev), After(sys, ev).nodes[p]) {
      if p != Actor(ev) {
        VotedStays(sys, After(sys, ev), sys.nodes[p]);
      }
    }
  }

  lemma {:induction false} RunVotes(sys: System, bare: bool, evs: seq<Event>)
    requires VoteInv(sys) && ValidRun(sys, bare, evs)
    ensures VoteInv(RunEnds(sys, bare, evs))
    decreases |evs|
  {
    hide VoteInv;
    if evs != [] {
      StepVotes(sys, evs[0]);
      RunVotes(After(sys, evs[0]), bare, evs[1..]);
    }
  }

  lemma StartVotes(sys: System)
    requires Start(sys)
    ensures VoteInv(sys)
  {
    StartInv(sys);
    hide SysInv;
    forall p | p in sys.nodes ensures Voted(sys, sys.nodes[p]) {
      assert Sane(sys.nodes[p]);
    }
  }

  lemma ReachedVotes(sys: System, bare: bool)
    requires Reached(sys, bare)
    ensures VoteInv(sys)
  {
    hide Start, VoteInv, ValidRun, RunEnds;
    var start, evs :| Start(start) && ValidRun(start, bare, evs) && RunEnds(start, bare, evs) == sys;
    StartVotes(start);
    RunVotes(start, bare, evs);
  }

  // ----- in every run

  /** In every run, a command executed under another replica's id, or under an own id not yet requested, is that
      of the hash of its instance. */
  lemma ExecutedFits(sys: System, bare: bool, p: PeerID, o: Output)
    requires Reached(sys, bare) && p in sys.nodes && o in sys.nodes[p].executed
    requires o.id.replica != p || o.id.index >= sys.nodes[p].index
    ensures o.id in sys.nodes[p].log && Fits(sys.nodes[p].log[o.id].hash, o.cmd.body)
  {
    ReachedVotes(sys, bare);
    hide LocalInv, LogSound, SaidHeld, VotesSaid, OutsBacked, Reached;
    assert OutFits(sys.nodes[p], o);
  }

  /** Whatever is executed has the votes of a quorum for the hash of its command. */
  lemma ExecutedBacked(sys: System, bare: bool, p: PeerID, o: Output)
    requires Reached(sys, bare) && p in sys.nodes && o in sys.nodes[p].executed
    ensures exists d, q :: BackedBy(sys, o.id, d, q) && Fits(d, o.cmd.body)
  {
    ReachedVotes(sys, bare);
    hide LocalInv, LogSound, SaidHeld, VotesSaid, Reached, OutsFit;
  }

  /** The replica has voted for one hash only under this id. */
  ghost predicate SaidOnce(s: Node, id: Id) {
    forall d, e :: Said(s, id, d) && Said(s, id, e) ==> d == e
  }

  /** A replica does so for every id of another. */
  lemma OthersSaidOnce(sys: System, bare: bool, p: PeerID, id: Id)
    requires Reached(sys, bare) && p in sys.nodes && id.replica != p
    ensures SaidOnce(sys.nodes[p], id)
  {
    ReachedVotes(sys, bare);
    hide LocalInv, LogSound, OutsFit, VotesSaid, OutsBacked, Reached;
    var s := sys.nodes[p];
    forall d, e | Said(s, id, d) && Said(s, id, e) ensures d == e {
      var m :| m in s.msgs && VotesFor(m, id, d);
      var n :| n in s.msgs && VotesFor(n, id, e);
      assert Bound(s, m) && Bound(s, n);
    }
  }

  /** Two correct replicas execute the same command under an id, unless its origin is correct and has voted for two
      hashes under it. */
  lemma CommandsAgree(sys: System, bare: bool, p: PeerID, r: PeerID, o: Output, u: Output)
    requires Reached(sys, bare) && p in sys.nodes && r in sys.nodes
    requires o in sys.nodes[p].executed && u in sys.nodes[r].executed && o.id == u.id
    requires o.id.replica in sys.nodes ==> SaidOnce(sys.nodes[o.id.replica], o.id)
    ensures o.cmd.body == u.cmd.body
  {
    hide Reached, SaidOnce, Said;
    ExecutedBacked(sys, bare, p, o);
    ExecutedBacked(sys, bare, r, u);
    var d, a :| BackedBy(sys, o.id, d, a) && Fits(d, o.cmd.body);
    var e, b :| BackedBy(sys, u.id, e, b) && Fits(e, u.cmd.body);
    ReachedFaulty(sys, bare);
    var q := QuorumIntersection(sys.f, sys.faulty, a, b);
    if q != o.id.replica {
      OthersSaidOnce(sys, bare, q, o.id);
    }
    OneSaid(sys.nodes[q], o.id, d, e);
  }

  /** So are the hashes and the commands of instances that both have acknowledged. */
  lemma AcknowledgedAgree(sys: System, bare: bool, p: PeerID, r: PeerID, id: Id)
    requires Reached(sys, bare) && p in sys.nodes && r in sys.nodes
    requires id in sys.nodes[p].log && id in sys.nodes[r].log
    requires sys.nodes[p].log[id].status == PreOrderAck && sys.nodes[r].log[id].status == PreOrderAck
    requires id.replica in sys.nodes ==> SaidOnce(sys.nodes[id.replica], id)
    ensures var x, y := sys.nodes[p].log[id], sys.nodes[r].log[id];
      x.hash == y.hash && x.cmd.Some? && y.cmd.Some? && x.cmd.value.body == y.cmd.value.body
  {
    hide Reached, SaidOnce, Said;
    var a := AckQuorum(sys, bare, p, id);
    var b := AckQuorum(sys, bare, r, id);
    ReachedFaulty(sys, bare);
    var q := QuorumIntersection(sys.f, sys.faulty, a, b);
    if q != id.replica {
      OthersSaidOnce(sys, bare, q, id);
    }
    OneSaid(sys.nodes[q], id, sys.nodes[p].log[id].hash, sys.nodes[r].log[id].hash);
  }

  lemma AckQuorum(sys: System, bare: bool, p: PeerID, id: Id) returns (q: set<PeerID>)
    requires Reached(sys, bare) && p in sys.nodes && id in sys.nodes[p].log && sys.nodes[p].log[id].status == PreOrderAck
    ensures var x := sys.nodes[p].log[id]; BackedBy(sys, id, x.hash, q) && x.cmd.Some? && Fits(x.hash, x.cmd.value.body)
  {
    ReachedVotes(sys, bare);
    hide Reached, LocalInv, SaidHeld, OutsFit, OutsBacked;
    var s, x := sys.nodes[p], sys.nodes[p].log[id];
    assert Sound(x, s.f);
    AckVotes(sys, s, id);
    q := Agreeing(x.votes, x.hash);
  }

  lemma OneSaid(s: Node, id: Id, d: Option<Digest<Command>>, e: Option<Digest<Command>>)
    requires SaidOnce(s, id) && Said(s, id, d) && Said(s, id, e)
    ensures d == e
  {
  }

  lemma ReachedFaulty(sys: System, bare: bool)
    requires Reached(sys, bare)
    ensures |sys.faulty| <= sys.f && sys.nodes.Keys == Peers(sys.f) - sys.faulty
  {
    var start, evs :| Start(start) && ValidRun(start, bare, evs) && RunEnds(start, bare, evs) == sys;
    RunKeepsConfig(start, bare, evs);
  }

  function Bodies(outs: seq<Output>): seq<int> {
    seq(|outs|, i requires 0 <= i < |outs| => outs[i].cmd.body)
  }

  /** The commands executed are prefixes of one another too, where the executed ids are. */
  lemma SameCommands(sys: System, p: PeerID, r: PeerID)
    requires Reached(sys, true) && LeaderOf(sys) in sys.nodes && p in sys.nodes && r in sys.nodes
    requires forall q, id: Id :: q in sys.nodes && id.replica == q ==> SaidOnce(sys.nodes[q], id)
    ensures var a, b := Bodies(sys.nodes[p].executed), Bodies(sys.nodes[r].executed); a <= b || b <= a
  {
    hide Reached, SaidOnce;
    TotalOrder(sys, p, r);
    if Ids(sys.nodes[p].executed) <= Ids(sys.nodes[r].executed) {
      Prefixed(sys, p, r);
    } else {
      Prefixed(sys, r, p);
    }
  }

  lemma Prefixed(sys: System, p: PeerID, r: PeerID)
    requires Reached(sys, true) && p in sys.nodes && r in sys.nodes
    requires forall q, id: Id :: q in sys.nodes && id.replica == q ==> SaidOnce(sys.nodes[q], id)
    requires Ids(sys.nodes[p].executed) <= Ids(sys.nodes[r].executed)
    ensures Bodies(sys.nodes[p].executed) <= Bodies(sys.nodes[r].executed)
  {
    hide Reached, SaidOnce;
    var a, b := sys.nodes[p].executed, sys.nodes[r].executed;
    assert |Ids(a)| <= |Ids(b)|;
    forall k | 0 <= k < |a| ensures a[k].cmd.body == b[k].cmd.body {
      assert Ids(a)[k] == Ids(b)[k];
      CommandsAgree(sys, true, p, r, a[k], b[k]);
    }
  }

  // ----- origins that are not asked under their own ids

  /** No replica is sent a pre-order request under an id of its own. */
  predicate Owned(ev: Event) {
    ev.Deliver? && ev.m.PORequest? ==> ev.m.id.replica != ev.to
  }

  /** The replica has voted for the hash that it holds under an id of its own, and only once it had requested it. */
  predicate OwnBound(s: Node, m: Msg) {
    !NoVote(m) && m.id.replica == s.id ==> m.id.index < s.index && m.id in s.log && m.hash.Some? && s.log[m.id].hash == m.hash
  }

  ghost predicate OwnHeld(s: Node) {
    forall m :: m in s.msgs ==> OwnBound(s, m)
  }

  lemma StepOwns(s: Node, ev: Event)
    requires OwnHeld(s) && Owned(ev) && (ev.Deliver? ==> ev.to == s.id)
    ensures OwnHeld(Step(s, ev))
  {
    hide Step, Ordered, Turns, OwnHeld;
    StepIs(s, ev);
    if !s.halted {
      if ev.Request? {
        RequestOwns(s, ev.cmd);
      } else {
        StepMoves(s, ev);
        if TurnsBy(s, Step(s, ev), ev) {
          TurnsOwn(s, Step(s, ev), ev.from, ev.m.id, ev.m.hash, BodyOf(ev.m));
        } else {
          OrderedOwns(s, Step(s, ev));
        }
      }
    }
  }

  lemma TurnsOwn(s: Node, t: Node, from: PeerID, id: Id, d: Option<Digest<Command>>, body: Option<int>)
    requires OwnHeld(s) && Turns(s, t, from, id, d, body) && (id.replica == s.id ==> body.None?)
    ensures OwnHeld(t)
  {
    hide Majority;
    forall m | m in t.msgs ensures OwnBound(t, m) {
      if m in s.msgs {
        assert OwnBound(s, m);
      }
    }
  }

  lemma OrderedOwns(s: Node, t: Node)
    requires OwnHeld(s) && Ordered(s, t)
    ensures OwnHeld(t)
  {
    forall m | m in t.msgs ensures OwnBound(t, m) {
      if m in s.msgs {
        assert OwnBound(s, m);
      }
    }
  }

  lemma RequestOwns(s: Node, cmd: Command)
    requires OwnHeld(s)
    ensures OwnHeld(OnRequest(s, cmd))
  {
    var t := OnRequest(s, cmd);
    forall m | m in t.msgs ensures OwnBound(t, m) {
      if m in s.msgs {
        assert OwnBound(s, m);
      }
    }
  }

  lemma {:induction false} RunOwns(sys: System, bare: bool, evs: seq<Event>)
    requires SysInv(sys) && ValidRun(sys, bare, evs) && (forall i :: 0 <= i < |evs| ==> Owned(evs[i]))
    requires forall p :: p in sys.nodes ==> OwnHeld(sys.nodes[p])
    ensures SysInv(RunEnds(sys, bare, evs))
    ensures forall p :: p in sys.nodes ==> p in RunEnds(sys, bare, evs).nodes && OwnHeld(RunEnds(sys, bare, evs).nodes[p])
    decreases |evs|
  {
    hide LocalInv, Step, OwnHeld, Good;
    if evs != [] {
      StepOwns(sys.nodes[Actor(evs[0])], evs[0]);
      StepKeeps(sys, evs[0]);
      RunOwns(After(sys, evs[0]), bare, evs[1..]);
    }
  }

  /** In a run in which no replica is asked under an id of its own, every replica votes once under every id; and so
      executed and acknowledged commands agree. */
  lemma OwnedSayOnce(start: System, bare: bool, evs: seq<Event>, p: PeerID, id: Id)
    requires Start(start) && ValidRun(start, bare, evs) && (forall i :: 0 <= i < |evs| ==> Owned(evs[i]))
    requires p in RunEnds(start, bare, evs).nodes
    ensures SaidOnce(RunEnds(start, bare, evs).nodes[p], id)
  {
    hide ValidRun, RunEnds, LocalInv;
    var end := RunEnds(start, bare, evs);
    RunKeepsConfig(start, bare, evs);
    StartInv(start);
    if id.replica != p {
      OthersSaidOnce(end, bare, p, id);
    } else {
      RunOwns(start, bare, evs);
      forall d, e | Said(end.nodes[p], id, d) && Said(end.nodes[p], id, e) ensures d == e {
        var m :| m in end.nodes[p].msgs && VotesFor(m, id, d);
        var n :| n in end.nodes[p].msgs && VotesFor(n, id, e);
        assert OwnBound(end.nodes[p], m) && OwnBound(end.nodes[p], n);
      }
    }
  }

  // ----- where commands come from

  /** A client has asked the replica with this id for the command, or a faulty peer has asked to pre-order it. */
  predicate Asks(ev: Event, faulty: set<PeerID>, id: Id, body: int) {
    if ev.Request? then ev.at == id.replica && ev.cmd.body == body
    else ev.Deliver? && ev.from in faulty && ev.m.PORequest? && ev.m.id == id && ev.m.cmd.Some? && ev.m.cmd.value.body == body
  }

  ghost predicate Asked(seen: seq<Event>, faulty: set<PeerID>, id: Id, body: int) {
    exists ev :: ev in seen && Asks(ev, faulty, id, body)
  }

  ghost predicate LogAsked(seen: seq<Event>, faulty: set<PeerID>, s: Node) {
    forall id :: id in s.log && Active(s.log[id].status) && s.log[id].cmd.Some? ==> Asked(seen, faulty, id, s.log[id].cmd.value.body)
  }

  ghost predicate MsgsAsked(seen: seq<Event>, faulty: set<PeerID>, s: Node) {
    forall m :: m in s.msgs && m.PORequest? && m.cmd.Some? ==> Asked(seen, faulty, m.id, m.cmd.value.body)
  }

  ghost predicate OutsAsked(seen: seq<Event>, faulty: set<PeerID>, s: Node) {
    forall o :: o in s.executed ==> Asked(seen, faulty, o.id, o.cmd.body)
  }

  ghost predicate AllAsked(seen: seq<Event>, faulty: set<PeerID>, s: Node) {
    LogAsked(seen, faulty, s) && MsgsAsked(seen, faulty, s) && OutsAsked(seen, faulty, s)
  }

  lemma AskedStays(seen: seq<Event>, more: seq<Event>, faulty: set<PeerID>, s: Node)
    requires AllAsked(seen, faulty, s)
    ensures AllAsked(seen + more, faulty, s)
  {
    assert forall ev :: ev in seen ==> ev in seen + more;
    assert forall id, body :: Asked(seen, faulty, id, body) ==> Asked(seen + more, faulty, id, body);
    hide Asked;
  }

  lemma TurnsAsked(seen: seq<Event>, faulty: set<PeerID>, s: Node, t: Node, from: PeerID, id: Id, d: Option<Digest<Command>>, body: Option<int>)
    requires AllAsked(seen, faulty, s) && LogSound(s) && Turns(s, t, from, id, d, body)
    requires body.Some? ==> Asked(seen, faulty, id, body.value)
    ensures AllAsked(seen, faulty, t)
  {
    hide Majority, Asked;
    forall j | j in t.log && Active(t.log[j].status) && t.log[j].cmd.Some? ensures Asked(seen, faulty, j, t.log[j].cmd.value.body) {
      if j in s.log {
        assert Sound(s.log[j], s.f);
      }
    }
  }

  lemma OrderedAsked(seen: seq<Event>, faulty: set<PeerID>, s: Node, t: Node)
    requires AllAsked(seen, faulty, s) && InstsOK(s) && Ordered(s, t)
    ensures AllAsked(seen, faulty, t)
  {
    hide Asked;
    forall o | o in t.executed ensures Asked(seen, faulty, o.id, o.cmd.body) {
      if o !in s.executed {
        NewOutput(s, t, o);
      }
    }
    forall m | m in t.msgs && m.PORequest? && m.cmd.Some? ensures Asked(seen, faulty, m.id, m.cmd.value.body) {
      var k :| 0 <= k < |t.msgs| && t.msgs[k] == m;
      assert k < |s.msgs|;
    }
  }

  lemma RequestAsked(seen: seq<Event>, faulty: set<PeerID>, s: Node, cmd: Command)
    requires AllAsked(seen, faulty, s) && Asked(seen, faulty, Id(s.id, s.index), cmd.body)
    ensures AllAsked(seen, faulty, OnRequest(s, cmd))
  {
    hide Asked;
  }

  ghost predicate AskInv(sys: System, seen: seq<Event>) {
    VoteInv(sys) && forall p :: p in sys.nodes ==> AllAsked(seen, sys.faulty, sys.nodes[p])
  }

  /** A request that is delivered has been asked for. */
  lemma DeliveredAsked(sys: System, seen: seq<Event>, ev: Event)
    requires AskInv(sys, seen) && Enabled(sys, ev) && ev.Deliver? && ev.m.PORequest? && ev.m.cmd.Some?
    ensures Asked(seen + [ev], sys.faulty, ev.m.id, ev.m.cmd.value.body)
  {
    hide VoteInv;
    assert ev in seen + [ev];
    if ev.from !in sys.faulty {
      AskedStays(seen, [ev], sys.faulty, sys.nodes[ev.from]);
      hide Asked;
    }
  }

  lemma ActorAsked(sys: System, seen: seq<Event>, ev: Event)
    requires AskInv(sys, seen) && Enabled(sys, ev)
    ensures AllAsked(seen + [ev], sys.faulty, After(sys, ev).nodes[Actor(ev)])
  {
    hide AllAsked, Step, OrderOK, Summed, SlotsOK, InstOK, Turns, Ordered, OnRequest, VotesSaid, OutsBacked, Asked, Sound;
    var p := Actor(ev);
    var s, t := sys.nodes[p], After(sys, ev).nodes[p];
    assert Voted(sys, s) && s.id == p && InstsOK(s);
    AskedStays(seen, [ev], sys.faulty, s);
    StepIs(s, ev);
    if !s.halted {
      if ev.Request? {
        RequestedAsked(seen, sys.faulty, ev, s);
        RequestAsked(seen + [ev], sys.faulty, s, ev.cmd);
      } else {
        StepMoves(s, ev);
        if TurnsBy(s, t, ev) {
          if BodyOf(ev.m).Some? {
            DeliveredAsked(sys, seen, ev);
          }
          TurnsAsked(seen + [ev], sys.faulty, s, t, ev.from, ev.m.id, ev.m.hash, BodyOf(ev.m));
        } else {
          OrderedAsked(seen + [ev], sys.faulty, s, t);
        }
      }
    }
  }

  lemma RequestedAsked(seen: seq<Event>, faulty: set<PeerID>, ev: Event, s: Node)
    requires ev.Request? && ev.at == s.id
    ensures Asked(seen + [ev], faulty, Id(s.id, s.index), ev.cmd.body)
  {
    assert ev in seen + [ev];
  }

  lemma StepAsks(sys: System, seen: seq<Event>, ev: Event)
    requires AskInv(sys, seen) && Enabled(sys, ev)
    ensures AskInv(After(sys, ev), seen + [ev])
  {
    hide VoteInv, AllAsked, Step;
    StepVotes(sys, ev);
    ActorAsked(sys, seen, ev);
    forall p | p in After(sys, ev).nodes ensures AllAsked(seen + [ev], sys.faulty, After(sys, ev).nodes[p]) {
      if p != Actor(ev) {
        AskedStays(seen, [ev], sys.faulty, sys.nodes[p]);
      }
    }
  }

  lemma {:induction false} RunAsks(sys: System, bare: bool, seen: seq<Event>, evs: seq<Event>)
    requires AskInv(sys, seen) && ValidRun(sys, bare, evs)
    ensures AskInv(RunEnds(sys, bare, evs), seen + evs)
    decreases |evs|
  {
    hide AskInv, After;
    if evs != [] {
      StepAsks(sys, seen, evs[0]);
      RunAsks(After(sys, evs[0]), bare, seen + [evs[0]], evs[1..]);
      assert seen + [evs[0]] + evs[1..] == seen + evs;
    } else {
      assert seen + evs == seen;
    }
  }

  /** In every run, a command is executed under an id only if a client has asked that replica for it, or a faulty
      peer has asked to pre-order it under this id. */
  lemma ExecutedAsked(start: System, bare: bool, evs: seq<Event>, p: PeerID, o: Output)
    requires Start(start) && ValidRun(start, bare, evs)
    requires p in RunEnds(start, bare, evs).nodes && o in RunEnds(start, bare, evs).nodes[p].executed
    ensures exists ev :: ev in evs && Asks(ev, start.faulty, o.id, o.cmd.body)
  {
    hide ValidRun, RunEnds, VoteInv;
    StartVotes(start);
    RunKeepsConfig(start, bare, evs);
    RunAsks(start, bare, [], evs);
    assert [] + evs == evs;
    assert Asked(evs, start.faulty, o.id, o.cmd.body);
  }
}
