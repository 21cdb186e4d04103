/** What each handler of protocols/prime makes of a replica, as functions on values.

    Requests are pre-ordered one by one (brbinstance.go); the leader orders matrices of the replicas' summaries
    (oinstance.go); exec runs what the next matrix newly covers. */
module PrimeNode {
  import opened Quorums
  import opened PrimeFrontier
  import Slots

  /** body stands for the fields that Command.Equal compares; meta for those it ignores. */
  datatype Command = Command(body: int, meta: int)

  type Digest<P> = Slots.Digest<P>

  datatype Status = Nothing | PreOrder | PreOrderAck | Summary | Committed | Executed

  function Rank(s: Status): nat {
    match s
    case Nothing => 0
    case PreOrder => 1
    case PreOrderAck => 2
    case Summary => 3
    case Committed => 4
    case Executed => 5
  }

  datatype OStatus = ONothing | OPrePrepared | OPrepared | OCommitted | OExecuted

  function ORank(s: OStatus): nat {
    match s
    case ONothing => 0
    case OPrePrepared => 1
    case OPrepared => 2
    case OCommitted => 3
    case OExecuted => 4
  }

  datatype Id = Id(replica: PeerID, index: nat)

  /** One certificate: what each sender has said.  Messages of one instance are Equals if their digests agree. */
  type Votes<P> = map<PeerID, Option<Digest<P>>>

  datatype Inst = Inst(status: Status, cmd: Option<Command>, hash: Option<Digest<Command>>, votes: Votes<Command>)

  datatype Slot = Slot(
    status: OStatus,
    matrix: Option<Matrix>,
    hash: Option<Digest<Matrix>>,
    prepares: Votes<Matrix>,
    commits: Votes<Matrix>)

  datatype Output = Output(id: Id, cmd: Command)

  datatype Kind = PrePrepare | Prepare | Commit

  datatype Msg =
    | PORequest(id: Id, cmd: Option<Command>, hash: Option<Digest<Command>>)
    | POAck(id: Id, cmd: Option<Command>, hash: Option<Digest<Command>>)
    | POSummary(row: seq<nat>)
    | Order(kind: Kind, view: nat, index: nat, matrix: Option<Matrix>, digest: Option<Digest<Matrix>>)

  datatype Node = Node(
    id: PeerID,
    f: nat,
    log: map<Id, Inst>,
    index: nat,
    poSummary: seq<nat>,
    summaries: Matrix,
    lastPrepared: Matrix,
    execIdx: map<nat, nat>,
    olog: map<nat, Slot>,
    oindex: nat,
    oview: nat,
    oexecIdx: nat,
    executed: seq<Output>,
    msgs: seq<Msg>,
    halted: bool)

  function Halt(s: Node): Node {
    s.(halted := true)
  }

  function Say(s: Node, m: Msg): Node {
    s.(msgs := s.msgs + [m])
  }

  function Leader(s: Node): PeerID {
    s.oview % (3 * s.f + 1)
  }

  // ----- quorum.go

  /** log: None is the Fatal on a second message of one sender. */
  function Log<P>(votes: Votes<P>, from: PeerID, d: Option<Digest<P>>): Option<Votes<P>> {
    if from in votes then None else Some(votes[from := d])
  }

  /** The senders that have said d. */
  function Agreeing<P(==)>(votes: Votes<P>, d: Option<Digest<P>>): set<PeerID> {
    set p | p in votes && votes[p] == d
  }

  predicate Majority<P(==)>(votes: Votes<P>, d: Option<Digest<P>>, f: nat) {
    |Agreeing(votes, d)| > 2 * f
  }

  // ----- exec.go

  /** The next index of an origin; of an unknown one the map gives 0. */
  function Next(s: Node, r: nat): nat {
    if r in s.execIdx then s.execIdx[r] else 0
  }

  /** A matrix that exec can index into. */
  predicate Usable(slot: Slot, f: nat) {
    slot.matrix.Some? && Shaped(slot.matrix.value) && (slot.matrix.value == [] || f < |slot.matrix.value|)
  }

  function Rows(slot: Slot): nat {
    if slot.matrix.Some? then |slot.matrix.value| else 0
  }

  function Target(slot: Slot, f: nat, r: nat): nat
    requires Usable(slot, f) && r < Rows(slot)
  {
    Frontier(slot.matrix.value, f, r)
  }

  predicate CanPass(s: Node) {
    s.oexecIdx in s.olog && s.olog[s.oexecIdx].status == OCommitted
  }

  /** Everything newly covered has been pre-ordered here. */
  predicate Available(s: Node, slot: Slot)
    requires Usable(slot, s.f)
  {
    forall r, i :: 0 <= r < Rows(slot) && Next(s, r) <= i <= Target(slot, s.f, r) ==>
      Id(r, i) in s.log && Rank(s.log[Id(r, i)].status) >= Rank(PreOrderAck)
  }

  /** Execute one instance, unless it has been, and move the origin's cursor.  A missing command, or instance,
      is a nil dereference. */
  function ExecuteNext(s: Node, r: nat): Node {
    var id := Id(r, Next(s, r));
    var moved := s.execIdx[r := Next(s, r) + 1];
    if id !in s.log then s.(halted := true)
    else if s.log[id].status == Executed then s.(execIdx := moved)
    else if s.log[id].cmd.None? then s.(halted := true)
    else s.(executed := s.executed + [Output(id, s.log[id].cmd.value)], log := s.log[id := s.log[id].(status := Executed, cmd := None)], execIdx := moved)
  }

  function RunOrigin(s: Node, r: nat, last: nat): Node
    decreases last + 1 - Next(s, r)
  {
    if s.halted || Next(s, r) > last then s
    else
      var t := ExecuteNext(s, r);
      if t.halted then t else RunOrigin(t, r, last)
  }

  function RunOrigins(s: Node, slot: Slot, n: nat): Node
    requires Usable(slot, s.f) && n <= Rows(slot)
    ensures RunOrigins(s, slot, n).f == s.f
    decreases n
  {
    if n == 0 then s
    else
      var t := RunOrigins(s, slot, n - 1);
      RunOriginFrame(t, n - 1, Target(slot, s.f, n - 1));
      RunOrigin(t, n - 1, Target(slot, s.f, n - 1))
  }

  lemma {:induction false} RunOriginFrame(s: Node, r: nat, last: nat)
    ensures var t := RunOrigin(s, r, last);
      t == s.(log := t.log, execIdx := t.execIdx, executed := t.executed, halted := t.halted) && (s.halted ==> t == s)
    decreases last + 1 - Next(s, r)
  {
    if !s.halted && Next(s, r) <= last && !ExecuteNext(s, r).halted {
      RunOriginFrame(ExecuteNext(s, r), r, last);
    }
  }

  lemma {:induction false} RunOriginsFrame(s: Node, slot: Slot, n: nat)
    requires Usable(slot, s.f) && n <= Rows(slot)
    ensures var t := RunOrigins(s, slot, n);
      t == s.(log := t.log, execIdx := t.execIdx, executed := t.executed, halted := t.halted) && (s.halted ==> t == s)
    decreases n
  {
    hide RunOrigin, Usable, Target;
    if n > 0 {
      RunOriginsFrame(s, slot, n - 1);
      RunOriginFrame(RunOrigins(s, slot, n - 1), n - 1, Target(slot, s.f, n - 1));
    }
  }

  function RunSlot(s: Node): Node
    requires s.oexecIdx in s.olog && Usable(s.olog[s.oexecIdx], s.f)
  {
    var slot := s.olog[s.oexecIdx];
    var t := RunOrigins(s, slot, Rows(slot));
    if t.halted then t else t.(olog := t.olog[s.oexecIdx := slot.(status := OExecuted)], oexecIdx := s.oexecIdx + 1)
  }

  function CommittedSlots(olog: map<nat, Slot>): set<nat> {
    set i | i in olog && olog[i].status == OCommitted
  }

  lemma SlotConsumed(s: Node)
    requires CanPass(s) && Usable(s.olog[s.oexecIdx], s.f) && !RunSlot(s).halted
    ensures |CommittedSlots(RunSlot(s).olog)| < |CommittedSlots(s.olog)|
  {
    var slot := s.olog[s.oexecIdx];
    RunOriginsFrame(s, slot, Rows(slot));
    assert CommittedSlots(RunSlot(s).olog) == CommittedSlots(s.olog) - {s.oexecIdx};
  }

  function Exec(s: Node): Node
    decreases |CommittedSlots(s.olog)|
  {
    if s.halted || !CanPass(s) then s
    else if !Usable(s.olog[s.oexecIdx], s.f) then s.(halted := true)
    else if !Available(s, s.olog[s.oexecIdx]) then s
    else
      var t := RunSlot(s);
      if t.halted then t else (SlotConsumed(s); Exec(t))
  }

  // ----- brbinstance.go

  predicate Acked(log: map<Id, Inst>, id: Id) {
    id in log && log[id].status == PreOrderAck && log[id].cmd.Some?
  }

  function Logged(log: map<Id, Inst>, r: nat, i: nat): set<Id> {
    set id | id in log && id.replica == r && id.index >= i
  }

  lemma LoggedShrinks(log: map<Id, Inst>, r: nat, i: nat)
    requires Id(r, i) in log
    ensures |Logged(log, r, i + 1)| < |Logged(log, r, i)|
  {
    assert Logged(log, r, i) == Logged(log, r, i + 1) + {Id(r, i)};
  }

  /** The end of the run of acknowledged instances after index i. */
  function RunEnd(log: map<Id, Inst>, r: nat, i: nat): nat
    decreases |Logged(log, r, i + 1)|
  {
    if Acked(log, Id(r, i + 1)) then (LoggedShrinks(log, r, i + 1); RunEnd(log, r, i + 1)) else i
  }

  /** summarize; an origin that is not a peer is an index out of range. */
  function Summarize(s: Node, r: nat): Node {
    if r < |s.poSummary| then s.(poSummary := s.poSummary[r := RunEnd(s.log, r, s.poSummary[r])]) else Halt(s)
  }

  /** The end of onPORequest and onPOAck: store the instance and acknowledge it once 2f+1 votes agree with d. */
  function Settle(s: Node, id: Id, x: Inst, d: Option<Digest<Command>>): Node {
    if Majority(x.votes, d, s.f) && x.status == PreOrder
    then Summarize(s.(log := s.log[id := x.(status := PreOrderAck)]), id.replica)
    else s.(log := s.log[id := x])
  }

  /** updateCommand: an instance keeps the command it holds, if it is an equal one. */
  function UpdateCommand(x: Inst, cmd: Command): Option<Inst> {
    if x.cmd.None? then Some(x.(cmd := Some(cmd))) else if x.cmd.value.body == cmd.body then Some(x) else None
  }

  /** The command stays set where only the hashes differ. */
  function OnPORequest(s: Node, from: PeerID, id: Id, cmd: Option<Command>, hash: Option<Digest<Command>>): Node {
    if cmd.None? || hash != Some(Slots.Of(cmd.value)) then Halt(s)
    else if id !in s.log then CastRequest(s, from, id, Inst(Nothing, cmd, hash, map[]), hash)
    else
      match UpdateCommand(s.log[id], cmd.value)
      case None => s
      case Some(x) =>
        if x.hash.Some? && x.hash != hash then s.(log := s.log[id := x])
        else CastRequest(s, from, id, x.(hash := hash), hash)
  }

  function CastRequest(s: Node, from: PeerID, id: Id, x: Inst, d: Option<Digest<Command>>): Node {
    match Log(x.votes, from, d)
    case None => Halt(s)
    case Some(v) =>
      match Log(v, s.id, x.hash)
      case None => Halt(s)
      case Some(w) => Settle(Say(s, POAck(id, None, x.hash)), id, x.(status := PreOrder, votes := w), x.hash)
  }

  function OnPOAck(s: Node, from: PeerID, id: Id, cmd: Option<Command>, hash: Option<Digest<Command>>): Node {
    if id !in s.log then CastAck(s, from, id, Inst(Nothing, cmd, hash, map[]), hash)
    else if s.log[id].hash.Some? && s.log[id].hash != hash then s
    else CastAck(s, from, id, s.log[id].(hash := hash), hash)
  }

  function CastAck(s: Node, from: PeerID, id: Id, x: Inst, d: Option<Digest<Command>>): Node {
    match Log(x.votes, from, d)
    case None => Halt(s)
    case Some(v) => Settle(s, id, x.(votes := v), d)
  }

  /** A row from an id outside the matrix is an index out of range. */
  function OnPOSummary(s: Node, from: PeerID, row: seq<nat>): Node {
    if from < |s.summaries| then s.(summaries := s.summaries[from := row]) else Halt(s)
  }

  function SendSummary(s: Node): Node {
    if s.id < |s.summaries| then Say(s.(summaries := s.summaries[s.id := s.poSummary]), POSummary(s.poSummary)) else Halt(s)
  }

  // ----- request.go

  /** onRequest: the replica's next id, whatever the log held under it. */
  function OnRequest(s: Node, cmd: Command): Node {
    var id, d := Id(s.id, s.index), Some(Slots.Of(cmd));
    Say(s.(index := s.index + 1, log := s.log[id := Inst(PreOrder, Some(cmd), d, map[s.id := d])]), PORequest(id, Some(cmd), d))
  }

  // ----- oinstance.go

  /** The leader's timer: order the summaries it holds, unless they are the ones it ordered last. */
  function SendPrePrepare(s: Node): Node {
    if s.id != Leader(s) || s.summaries == s.lastPrepared then s
    else
      var mat, d := Some(s.summaries), Some(Slots.Of(s.summaries));
      Say(s.(lastPrepared := s.summaries, oindex := s.oindex + 1,
             olog := s.olog[s.oindex := Slot(OPrePrepared, mat, d, map[s.id := d], map[])]),
          Order(PrePrepare, s.oview, s.oindex, mat, d))
  }

  /** updateOCommand on the rows that the slot holds: None is an index out of range. */
  function SameRows(held: Matrix, m: Matrix): Option<bool>
    decreases |held|
  {
    if held == [] then Some(true)
    else if m == [] then None
    else if held[0] != m[0] then Some(false)
    else SameRows(held[1..], m[1..])
  }

  function OnPrePrepare(s: Node, from: PeerID, i: nat, matrix: Option<Matrix>, d: Option<Digest<Matrix>>): Node {
    if from != Leader(s) then s
    else if matrix.None? || d != Some(Slots.Of(matrix.value)) then Halt(s)
    else if i !in s.olog then CastPrepare(s, from, i, Slot(ONothing, matrix, None, map[], map[]), d)
    else
      var x := s.olog[i];
      var same := if x.matrix.Some? then SameRows(x.matrix.value, matrix.value) else Some(true);
      if same.None? then Halt(s)
      else if !same.value then s
      else
        var y := if x.matrix.Some? then x else x.(matrix := matrix);
        if y.hash.Some? && y.hash != d then s.(olog := s.olog[i := y])
        else CastPrepare(s, from, i, y.(hash := d), d)
  }

  function CastPrepare(s: Node, from: PeerID, i: nat, x: Slot, d: Option<Digest<Matrix>>): Node {
    match Log(x.prepares, from, d)
    case None => Halt(s)
    case Some(v) =>
      match Log(v, s.id, d)
      case None => Halt(s)
      case Some(w) => TryPrepare(Say(s, Order(Prepare, s.oview, i, None, d)), i, x.(status := OPrePrepared, prepares := w), d)
  }

  /** Promotion to prepared, and perhaps to committed, once the prepares have d. */
  function TryPrepare(s: Node, i: nat, x: Slot, d: Option<Digest<Matrix>>): Node {
    if !Majority(x.prepares, d, s.f) || x.status != OPrePrepared then s.(olog := s.olog[i := x])
    else
      match Log(x.commits, s.id, d)
      case None => Halt(s)
      case Some(c) =>
        var t := Say(s, Order(Commit, s.oview, i, None, d));
        if Majority(c, d, s.f) then Exec(t.(olog := t.olog[i := x.(status := OCommitted, commits := c)]))
        else t.(olog := t.olog[i := x.(status := OPrepared, commits := c)])
  }

  /** The slot that a prepare or a commit finds or makes; None if its digest is another one.  A new slot takes
      the matrix of the message but not its digest. */
  function KnownSlot(s: Node, i: nat, matrix: Option<Matrix>, d: Option<Digest<Matrix>>): Option<Slot> {
    if i !in s.olog then Some(Slot(ONothing, matrix, None, map[], map[]))
    else if s.olog[i].hash.Some? && s.olog[i].hash != d then None
    else Some(s.olog[i].(hash := d))
  }

  function OnPrepare(s: Node, from: PeerID, i: nat, matrix: Option<Matrix>, d: Option<Digest<Matrix>>): Node {
    if from == Leader(s) then s
    else
      match KnownSlot(s, i, matrix, d)
      case None => s
      case Some(x) =>
        match Log(x.prepares, from, d)
        case None => Halt(s)
        case Some(v) => TryPrepare(s, i, x.(prepares := v), d)
  }

  function OnCommit(s: Node, from: PeerID, i: nat, matrix: Option<Matrix>, d: Option<Digest<Matrix>>): Node {
    match KnownSlot(s, i, matrix, d)
    case None => s
    case Some(x) =>
      match Log(x.commits, from, d)
      case None => Halt(s)
      case Some(c) =>
        var done := Majority(c, d, s.f) && x.status == OPrepared;
        var t := s.(olog := s.olog[i := x.(commits := c, status := if done then OCommitted else x.status)]);
        if done || x.status == OCommitted then Exec(t) else t
  }

  // ----- prime.go

  /** A message of another view is dropped. */
  function Receive(s: Node, from: PeerID, m: Msg): Node {
    if s.halted then s
    else match m
    case PORequest(id, cmd, hash) => OnPORequest(s, from, id, cmd, hash)
    case POAck(id, cmd, hash) => OnPOAck(s, from, id, cmd, hash)
    case POSummary(row) => OnPOSummary(s, from, row)
    case Order(kind, view, i, matrix, d) =>
      if view != s.oview then s
      else match kind
      case PrePrepare => OnPrePrepare(s, from, i, matrix, d)
      case Prepare => OnPrepare(s, from, i, matrix, d)
      case Commit => OnCommit(s, from, i, matrix, d)
  }

  function Zeroes(n: nat): Matrix {
    seq(n, i => seq(n, j => 0))
  }

  function Initial(f: nat, id: PeerID, oview: nat): Node {
    var n := 3 * f + 1;
    Node(id, f, map[], 1, seq(n, r => 0), Zeroes(n), Zeroes(n), map r | r in PeersBelow(n) :: 1, map[], 1, oview, 1, [], [], false)
  }
}
