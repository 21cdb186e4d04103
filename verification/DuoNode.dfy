/** A DuoBFT replica: one log, a trusted path of f+1 messages and a normal path of 2f+1, and signatures that
    come back later through callbacks.  Instances live in insts and are referred to by position, as the
    callbacks hold on to the instance and not to its index.

    All messages of a run are of the one current view; others end the replica. */
module DuoNode {
  import opened Quorums

  /** trusted says that the command carries Meta: it is executed by the trusted path, others by the normal
      one.  Equal ignores Meta. */
  datatype Command = Command(body: int, trusted: bool)

  datatype Hash = Of(cmd: Command) | Junk(id: nat)

  datatype Status = Nothing | Prepared | PreCommitted | Committed | Executed

  datatype TStatus = TNone | TPrepared | TCommitted | TExecuted

  function Rank(s: Status): nat {
    match s
    case Nothing => 0
    case Prepared => 1
    case PreCommitted => 2
    case Committed => 3
    case Executed => 4
  }

  function TRank(s: TStatus): nat {
    match s
    case TNone => 0
    case TPrepared => 1
    case TCommitted => 3
    case TExecuted => 4
  }

  /** The messages of the current view, by sender: all that Equals still looks at is the hash. */
  type Cert = map<PeerID, Option<Hash>>

  datatype Inst = Inst(
    index: nat,
    status: Status,
    tStatus: TStatus,
    cmd: Option<Command>,
    hash: Option<Hash>,
    tc: Cert,
    pc: Cert,
    cc: Cert)

  datatype Callback =
    | PrepareSigned(ref: nat, hash: Option<Hash>)
    | CommitSigned(ref: nat, hash: Option<Hash>)
    | RequestSigned(ref: nat, hash: Option<Hash>)

  datatype Output = Output(index: nat, cmd: Command)

  datatype Node = Node(
    id: PeerID,
    f: nat,
    view: nat,
    insts: seq<Inst>,
    log: map<nat, nat>,
    index: nat,
    execute: nat,
    tExecute: nat,
    outputs: seq<Output>,
    pending: multiset<Callback>,
    halted: bool)

  datatype Msg =
    | Prepare(index: nat, cmd: Option<Command>, hash: Option<Hash>)
    | PreCommit(index: nat, cmd: Option<Command>, hash: Option<Hash>)
    | Commit(index: nat, cmd: Option<Command>, hash: Option<Hash>)

  function Primary(s: Node): PeerID {
    s.view % (3 * s.f + 1)
  }

  // ----- quorum.go

  function LogIn(c: Cert, from: PeerID, h: Option<Hash>): Option<Cert> {
    if from in c then None else Some(c[from := h])
  }

  function Supporters(c: Cert, h: Option<Hash>): set<PeerID> {
    set p | p in c && c[p] == h
  }

  predicate Majority(c: Cert, size: nat, h: Option<Hash>) {
    |Supporters(c, h)| >= size
  }

  // ----- instances

  function MakeInst(i: nat, cmd: Option<Command>, hash: Option<Hash>): Inst {
    Inst(i, Nothing, TNone, cmd, hash, map[], map[], map[])
  }

  predicate Has(s: Node, i: nat) {
    i in s.log && s.log[i] < |s.insts|
  }

  function At(s: Node, i: nat): Inst
    requires Has(s, i)
  {
    s.insts[s.log[i]]
  }

  function Put(s: Node, ref: nat, x: Inst): Node
    requires ref < |s.insts|
  {
    s.(insts := s.insts[ref := x])
  }

  /** A new instance under its index. */
  function Add(s: Node, x: Inst): Node {
    s.(insts := s.insts + [x], log := s.log[x.index := |s.insts|])
  }

  function UpdateCommand(x: Inst, cmd: Command): Option<Inst> {
    if x.cmd.None? then Some(x.(cmd := Some(cmd)))
    else if x.cmd.value.body == cmd.body then Some(x)
    else None
  }

  function UpdateHash(x: Inst, hash: Option<Hash>): Option<Inst> {
    if x.hash.None? then Some(x.(hash := hash))
    else if x.hash == hash then Some(x)
    else None
  }

  /** Log a message in both certificates of the first phase. */
  function LogBoth(x: Inst, from: PeerID, h: Option<Hash>): Option<Inst> {
    var t, p := LogIn(x.tc, from, h), LogIn(x.pc, from, h);
    if t.None? || p.None? then None else Some(x.(tc := t.value, pc := p.value))
  }

  // ----- the two execution loops

  predicate CanTExec(s: Node) {
    Has(s, s.tExecute) && At(s, s.tExecute).tStatus == TCommitted && At(s, s.tExecute).cmd.Some?
  }

  function TExecOne(s: Node): Node
    requires CanTExec(s)
  {
    var x := At(s, s.tExecute);
    Put(s, s.log[s.tExecute], x.(tStatus := TExecuted)).(
      tExecute := s.tExecute + 1,
      outputs := s.outputs + if x.cmd.value.trusted then [Output(s.tExecute, x.cmd.value)] else [])
  }

  /** The logged indices from n on. */
  function From(log: map<nat, nat>, n: nat): set<nat> {
    set i | i in log && i >= n
  }

  lemma FromShrinks(log: map<nat, nat>, n: nat)
    requires n in log
    ensures |From(log, n + 1)| < |From(log, n)|
  {
    assert From(log, n) == From(log, n + 1) + {n};
  }

  function TExec(s: Node): Node
    decreases |From(s.log, s.tExecute)|
  {
    if CanTExec(s) then (FromShrinks(s.log, s.tExecute); TExec(TExecOne(s))) else s
  }

  predicate CanExec(s: Node) {
    Has(s, s.execute) && At(s, s.execute).status == Committed && At(s, s.execute).cmd.Some?
  }

  function ExecOne(s: Node): Node
    requires CanExec(s)
  {
    var x := At(s, s.execute);
    Put(s, s.log[s.execute], x.(status := Executed)).(
      execute := s.execute + 1,
      outputs := s.outputs + if !x.cmd.value.trusted then [Output(s.execute, x.cmd.value)] else [])
  }

  function Exec(s: Node): Node
    decreases |From(s.log, s.execute)|
  {
    if CanExec(s) then (FromShrinks(s.log, s.execute); Exec(ExecOne(s))) else s
  }

  // ----- the two promotions that follow a first-phase message

  function PromoteT(s: Node, ref: nat, h: Option<Hash>): Node
    requires ref < |s.insts|
  {
    var x := s.insts[ref];
    if x.tStatus == TPrepared && Majority(x.tc, s.f + 1, h) then TExec(Put(s, ref, x.(tStatus := TCommitted))) else s
  }

  function PromoteP(s: Node, ref: nat, h: Option<Hash>): Node
    requires ref < |s.insts|
  {
    var x := s.insts[ref];
    if x.status == Prepared && Majority(x.pc, 2 * s.f + 1, h)
    then Put(s, ref, x.(status := PreCommitted)).(pending := s.pending + multiset{CommitSigned(ref, x.hash)})
    else s
  }

  function PromoteC(s: Node, ref: nat, h: Option<Hash>): Node
    requires ref < |s.insts|
  {
    var x := s.insts[ref];
    if x.status == PreCommitted && Majority(x.cc, 2 * s.f + 1, h) then Exec(Put(s, ref, x.(status := Committed))) else s
  }

  lemma {:induction false} TExecSize(s: Node)
    ensures |TExec(s).insts| == |s.insts|
    decreases |From(s.log, s.tExecute)|
  {
    if CanTExec(s) {
      FromShrinks(s.log, s.tExecute);
      TExecSize(TExecOne(s));
    }
  }

  /** After a first-phase message has been logged: first the trusted path, then the normal one. */
  function Promote(s: Node, ref: nat, h: Option<Hash>): Node
    requires ref < |s.insts|
  {
    var x := s.insts[ref];
    TExecSize(Put(s, ref, x.(tStatus := TCommitted)));
    PromoteP(PromoteT(s, ref, h), ref, h)
  }

  // ----- handlers

  function Halt(s: Node): Node {
    s.(halted := true)
  }

  /** The instance a message is for, created if there is none. */
  function Find(s: Node, i: nat, cmd: Option<Command>, hash: Option<Hash>): Node {
    if Has(s, i) then s else Add(s, MakeInst(i, cmd, hash))
  }

  function OnPrepare(s: Node, from: PeerID, i: nat, cmd: Option<Command>, hash: Option<Hash>): Node {
    if from != Primary(s) then s
    else if cmd.None? || hash != Some(Of(cmd.value)) || i == 0 then Halt(s)
    else var t := Find(s, i, cmd, hash); PrepareAt(t, t.log[i], from, cmd.value, hash)
  }

  function PrepareAt(s: Node, ref: nat, from: PeerID, cmd: Command, hash: Option<Hash>): Node
    requires ref < |s.insts|
  {
    match UpdateCommand(s.insts[ref], cmd)
    case None => Halt(s)
    case Some(x) =>
      match UpdateHash(x, hash)
      case None => Halt(s)
      case Some(y) =>
        match LogBoth(y, from, hash)
        case None => Halt(s)
        case Some(z) =>
          Put(s, ref, z.(status := Prepared, tStatus := TPrepared)).(pending := s.pending + multiset{PrepareSigned(ref, z.hash)})
  }

  function OnPrepareSigned(s: Node, ref: nat, h: Option<Hash>): Node
    requires ref < |s.insts|
  {
    match LogBoth(s.insts[ref], s.id, h)
    case None => Halt(s)
    case Some(x) => Promote(Put(s, ref, x), ref, h)
  }

  function OnPreCommit(s: Node, from: PeerID, i: nat, cmd: Option<Command>, hash: Option<Hash>): Node {
    if i == 0 then Halt(s)
    else var t := Find(s, i, cmd, hash); PreCommitAt(t, t.log[i], from, hash)
  }

  function PreCommitAt(s: Node, ref: nat, from: PeerID, hash: Option<Hash>): Node
    requires ref < |s.insts|
  {
    match UpdateHash(s.insts[ref], hash)
    case None => Halt(s)
    case Some(y) =>
      match LogBoth(y, from, hash)
      case None => Halt(s)
      case Some(z) => Promote(Put(s, ref, z), ref, hash)
  }

  function OnCommit(s: Node, from: PeerID, i: nat, cmd: Option<Command>, hash: Option<Hash>): Node {
    if i == 0 then Halt(s)
    else var t := Find(s, i, cmd, hash); CommitAt(t, t.log[i], from, hash)
  }

  function CommitAt(s: Node, ref: nat, from: PeerID, hash: Option<Hash>): Node
    requires ref < |s.insts|
  {
    match UpdateHash(s.insts[ref], hash)
    case None => Halt(s)
    case Some(y) =>
      match LogIn(y.cc, from, hash)
      case None => Halt(s)
      case Some(c) => PromoteC(Put(s, ref, y.(cc := c)), ref, hash)
  }

  function OnCommitSigned(s: Node, ref: nat, h: Option<Hash>): Node
    requires ref < |s.insts|
  {
    match LogIn(s.insts[ref].cc, s.id, h)
    case None => Halt(s)
    case Some(c) => PromoteC(Put(s, ref, s.insts[ref].(cc := c)), ref, h)
  }

  /** onRequest: the next index, whatever the log holds there. */
  function OnRequest(s: Node, cmd: Command): Node {
    if s.id != Primary(s) then s
    else
      var i, hash := s.index + 1, Some(Of(cmd));
      Add(s, MakeInst(i, Some(cmd), hash).(status := Prepared, tStatus := TPrepared)).(
        index := i, pending := s.pending + multiset{RequestSigned(|s.insts|, hash)})
  }

  function OnRequestSigned(s: Node, ref: nat, h: Option<Hash>): Node
    requires ref < |s.insts|
  {
    match LogBoth(s.insts[ref], s.id, h)
    case None => Halt(s)
    case Some(x) => Put(s, ref, x)
  }

  // ----- steps

  datatype Event = Deliver(from: PeerID, m: Msg) | Request(cmd: Command) | Callback(cb: Callback)

  predicate Enabled(s: Node, ev: Event) {
    && (ev.Deliver? ==> ev.from != s.id)
    && (ev.Callback? ==> ev.cb in s.pending && ev.cb.ref < |s.insts|)
  }

  function After(s: Node, ev: Event): Node
    requires Enabled(s, ev)
  {
    if s.halted then s
    else match ev
    case Deliver(from, m) =>
      (match m
       case Prepare(i, cmd, hash) => OnPrepare(s, from, i, cmd, hash)
       case PreCommit(i, cmd, hash) => OnPreCommit(s, from, i, cmd, hash)
       case Commit(i, cmd, hash) => OnCommit(s, from, i, cmd, hash))
    case Request(cmd) => OnRequest(s, cmd)
    case Callback(cb) =>
      var t := s.(pending := s.pending - multiset{cb});
      match cb
      case PrepareSigned(ref, h) => OnPrepareSigned(t, ref, h)
      case CommitSigned(ref, h) => OnCommitSigned(t, ref, h)
      case RequestSigned(ref, h) => OnRequestSigned(t, ref, h)
  }

  /** A replica of a cluster whose leader is given. */
  function Initial(f: nat, id: PeerID, view: nat): Node {
    Node(id, f, view, [], map[], 0, 1, 1, [], multiset{}, false)
  }
}
