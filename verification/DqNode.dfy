/** What each handler of protocols/dqpbft makes of a replica, as functions on values. */
module DqNode {
  import opened Quorums
  import opened Slots
  import opened SlotAgreement

  /** body stands for the fields that Command.Equal compares; meta for those it ignores. */
  datatype Command = Command(body: int, meta: int)

  datatype InstanceID = InstanceID(replica: PeerID, index: nat)

  type Batch = seq<InstanceID>

  datatype Kind = PrePrepareMsg | PrepareMsg | CommitMsg

  datatype Msg<K, P> = Msg(kind: Kind, view: nat, key: K, payload: Option<P>, digest: Option<Digest<P>>)

  datatype Body = Replication(r: Msg<InstanceID, Command>) | Ordering(o: Msg<nat, Batch>)

  datatype Delivery = Delivery(id: InstanceID, cmd: Command)

  datatype Node = Node(
    id: PeerID,
    f: nat,
    log: map<InstanceID, Slot<Command>>,
    index: nat,
    nextDeliver: map<PeerID, nat>,
    olog: map<nat, Slot<Batch>>,
    oindex: nat,
    oview: nat,
    nextODeliver: nat,
    cReqBuffer: Batch,
    oBatchSize: nat,
    delivered: seq<Delivery>,
    msgs: seq<Body>,
    halted: bool)

  /** Command.Equal. */
  predicate SameCommand(a: Command, b: Command) {
    a.body == b.body
  }

  /** InstancesEquals. */
  predicate SameBatch(a: Batch, b: Batch) {
    a == b
  }

  /** The ids of a batch; an absent list is an empty one. */
  function Ids(payload: Option<Batch>): Batch {
    if payload.Some? then payload.value else []
  }

  /** The network drops the difference between an absent and an empty list. */
  function Wire(ids: Batch): Option<Batch> {
    if ids == [] then None else Some(ids)
  }

  function OLeader(s: Node): PeerID {
    s.oview % (3 * s.f + 1)
  }

  // ----- exec.go

  /** Every id of the batch is committed here with its command still present. */
  predicate Ready(log: map<InstanceID, Slot<Command>>, ids: Batch) {
    forall i :: 0 <= i < |ids| ==> ids[i] in log && log[ids[i]].status == Committed && log[ids[i]].payload.Some?
  }

  /** Deliver the ids one by one.  An id listed twice has lost its command the second time: a nil dereference. */
  function DeliverAll(s: Node, ids: Batch): Node
    decreases |ids|
  {
    if ids == [] then s
    else if ids[0] !in s.log || s.log[ids[0]].payload.None? then s.(halted := true)
    else DeliverAll(DeliverOne(s, ids[0]), ids[1..])
  }

  function DeliverOne(s: Node, id: InstanceID): Node
    requires id in s.log && s.log[id].payload.Some?
  {
    s.(delivered := s.delivered + [Delivery(id, s.log[id].payload.value)],
       log := s.log[id := s.log[id].(payload := None, status := Executed)],
       nextDeliver := s.nextDeliver[id.replica := (if id.replica in s.nextDeliver then s.nextDeliver[id.replica] else 0) + 1])
  }

  predicate CanDeliver(s: Node) {
    && s.nextODeliver in s.olog
    && s.olog[s.nextODeliver].status == Committed
    && Ready(s.log, Ids(s.olog[s.nextODeliver].payload))
  }

  function DeliverSlot(s: Node): Node
    requires s.nextODeliver in s.olog
  {
    var t := DeliverAll(s, Ids(s.olog[s.nextODeliver].payload));
    if t.halted then t
    else t.(olog := s.olog[s.nextODeliver := s.olog[s.nextODeliver].(status := Executed)], nextODeliver := s.nextODeliver + 1)
  }

  /** The ordering slots that exec can still deliver. */
  function CommittedSlots(olog: map<nat, Slot<Batch>>): set<nat> {
    set i | i in olog && olog[i].status == Committed
  }

  lemma {:induction false} DeliverAllFrame(s: Node, ids: Batch)
    ensures var t := DeliverAll(s, ids);
      t.olog == s.olog && t.nextODeliver == s.nextODeliver && t.id == s.id && t.f == s.f && t.msgs == s.msgs
      && t.index == s.index && t.oindex == s.oindex && t.oview == s.oview && t.cReqBuffer == s.cReqBuffer && t.oBatchSize == s.oBatchSize
    decreases |ids|
  {
    if ids != [] && ids[0] in s.log && s.log[ids[0]].payload.Some? {
      DeliverAllFrame(DeliverOne(s, ids[0]), ids[1..]);
    }
  }

  lemma SlotConsumed(olog: map<nat, Slot<Batch>>, i: nat)
    requires i in CommittedSlots(olog)
    ensures |CommittedSlots(olog[i := olog[i].(status := Executed)])| < |CommittedSlots(olog)|
  {
    assert CommittedSlots(olog[i := olog[i].(status := Executed)]) == CommittedSlots(olog) - {i};
  }

  function Exec(s: Node): Node
    decreases |CommittedSlots(s.olog)|
  {
    if s.halted || !CanDeliver(s) then s
    else
      var t := DeliverSlot(s);
      if t.halted then t else (DeliverAllFrame(s, Ids(s.olog[s.nextODeliver].payload)); SlotConsumed(s.olog, s.nextODeliver); Exec(t))
  }

  // ----- messages that a slot step sends

  function Sent<K, P>(key: K, r: Outcome<P>): seq<Msg<K, P>>
    requires r.Next?
  {
    (if r.prepare.Some? then [Msg(PrepareMsg, r.prepare.value.view, key, None, r.prepare.value.digest)] else [])
    + (if r.commit.Some? then [Msg(CommitMsg, r.commit.value.view, key, None, r.commit.value.digest)] else [])
  }

  function AsReplication(ms: seq<Msg<InstanceID, Command>>): seq<Body> {
    seq(|ms|, i requires 0 <= i < |ms| => Replication(ms[i]))
  }

  function AsOrdering(ms: seq<Msg<nat, Batch>>): seq<Body> {
    seq(|ms|, i requires 0 <= i < |ms| => Ordering(ms[i]))
  }

  /** Install the outcome of a replication-layer step. */
  function Finish(s: Node, key: InstanceID, r: Outcome<Command>): Node {
    match r
    case Halt => s.(halted := true)
    case Next(slot, _, _, committed) =>
      var t := s.(log := s.log[key := slot], msgs := s.msgs + AsReplication(Sent(key, r)));
      if committed then Exec(t) else t
  }

  /** Install the outcome of an ordering-layer step. */
  function OFinish(s: Node, key: nat, r: Outcome<Batch>): Node {
    match r
    case Halt => s.(halted := true)
    case Next(slot, _, _, committed) =>
      var t := s.(olog := s.olog[key := slot], msgs := s.msgs + AsOrdering(Sent(key, r)));
      if committed then Exec(t) else t
  }

  // ----- request.go, cinstance.go

  function OwnSlot<P>(view: nat, payload: P, self: PeerID, digest: Digest<P>): Slot<P> {
    Slot(view, PrePrepared, Some(payload), None, Cert(view, map[view := map[self := Ballot(view, Some(digest))]]), EmptyCert())
  }

  /** onRequest: a fresh instance of the replica's own, whatever the log held under its id. */
  function OnRequest(s: Node, cmd: Command): Node {
    if s.halted then s
    else
      var id := InstanceID(s.id, s.index);
      var t := s.(index := s.index + 1,
                  log := s.log[id := OwnSlot(s.id, cmd, s.id, Of(cmd))],
                  msgs := s.msgs + [Replication(Msg(PrePrepareMsg, s.id, id, Some(cmd), None))]);
      if s.id == OLeader(s) then OnCRequest(t, id) else t
  }

  function OnPrePrepare(s: Node, from: PeerID, m: Msg<InstanceID, Command>): Node {
    var t := if s.id == OLeader(s) then OnCRequest(s, m.key) else s;
    if m.payload.None? then t.(halted := true)
    else Finish(t, m.key, PrePrepareSlot(Lookup(t.log, m.key), SameCommand, s.id, s.f, from, m.view, m.payload, Of(m.payload.value)))
  }

  function OnPrepare(s: Node, from: PeerID, m: Msg<InstanceID, Command>): Node {
    Finish(s, m.key, PrepareSlot(Lookup(s.log, m.key), s.id, s.f, from, m.view, m.payload, m.digest))
  }

  function OnCommit(s: Node, from: PeerID, m: Msg<InstanceID, Command>): Node {
    Finish(s, m.key, CommitSlot(Lookup(s.log, m.key), s.f, from, m.view, m.payload, m.digest))
  }

  // ----- oinstance.go

  function OnCRequest(s: Node, id: InstanceID): Node {
    if s.id != OLeader(s) then s
    else
      var t := s.(cReqBuffer := s.cReqBuffer + [id]);
      if |t.cReqBuffer| >= t.oBatchSize then SendCRequest(t) else t
  }

  /** Order the buffered ids in the next slot.  Also what the batch timer does. */
  function SendCRequest(s: Node): Node {
    if s.id != OLeader(s) then s
    else if s.cReqBuffer == [] then s
    else
      var ids := s.cReqBuffer;
      s.(cReqBuffer := [],
         oindex := s.oindex + 1,
         olog := s.olog[s.oindex := OwnSlot(s.id, ids, s.id, Of(ids))],
         msgs := s.msgs + [Ordering(Msg(PrePrepareMsg, s.id, s.oindex, Some(ids), None))])
  }

  function OnOPrePrepare(s: Node, from: PeerID, m: Msg<nat, Batch>): Node {
    if from != OLeader(s) then s.(halted := true)
    else OFinish(s, m.key, PrePrepareSlot(Lookup(s.olog, m.key), SameBatch, s.id, s.f, from, m.view, Wire(Ids(m.payload)), Of(Ids(m.payload))))
  }

  function OnOPrepare(s: Node, from: PeerID, m: Msg<nat, Batch>): Node {
    if from == OLeader(s) then s.(halted := true)
    else OFinish(s, m.key, PrepareSlot(Lookup(s.olog, m.key), s.id, s.f, from, m.view, Wire(Ids(m.payload)), m.digest))
  }

  function OnOCommit(s: Node, from: PeerID, m: Msg<nat, Batch>): Node {
    OFinish(s, m.key, CommitSlot(Lookup(s.olog, m.key), s.f, from, m.view, Wire(Ids(m.payload)), m.digest))
  }

  // ----- dqpbft.go

  function Receive(s: Node, from: PeerID, b: Body): Node {
    if s.halted then s
    else match b
    case Replication(m) =>
      (match m.kind
       case PrePrepareMsg => OnPrePrepare(s, from, m)
       case PrepareMsg => OnPrepare(s, from, m)
       case CommitMsg => OnCommit(s, from, m))
    case Ordering(m) =>
      (match m.kind
       case PrePrepareMsg => OnOPrePrepare(s, from, m)
       case PrepareMsg => OnOPrepare(s, from, m)
       case CommitMsg => OnOCommit(s, from, m))
  }

  function OnTimer(s: Node): Node {
    if s.halted then s else SendCRequest(s)
  }

  function Initial(f: nat, id: PeerID, leader: nat, oBatchSize: nat): Node {
    Node(id, f, map[], 0, map[], map[], 0, leader, 0, [], oBatchSize, [], [], false)
  }
}
