/** A Dispel replica: reliable broadcast (rb.go), one DBFT instance per peer and epoch, and exec.

    A broadcast is a slot whose views are all 0: Received, Echoed and Readied are its PrePrepared, Prepared and
    Committed, Send, Echo and Ready its pre-prepare, prepare and commit.  What a handler broadcasts before a
    panic is never signed and sent, so a halting handler sends nothing. */
module DispelNode {
  import opened Quorums
  import Slots
  import SA = SlotAgreement
  import Bin = DispelBinary

  /** body stands for the fields that Command.Equal compares; meta for those it ignores. */
  datatype Command = Command(body: int, meta: int)

  datatype Key = Key(epoch: nat, peer: PeerID)

  datatype Kind = Send | Echo | Ready

  type Digest = Slots.Digest<Command>

  type Rb = Slots.Slot<Command>

  datatype RbMsg = RbMsg(kind: Kind, key: Key, payload: Option<Command>, digest: Option<Digest>)

  datatype Epoch = Epoch(rbDone: nat, consDone: nat, cons: map<PeerID, Bin.Replica>)

  datatype Node = Node(
    id: PeerID,
    f: nat,
    threshold: nat,
    log: map<Key, Rb>,
    reproposed: set<Key>,
    epochs: map<nat, Epoch>,
    nextEpoch: nat,
    nextDeliver: nat,
    delivered: seq<map<PeerID, Command>>,
    sent: set<RbMsg>,
    halted: bool)

  predicate SameCommand(a: Command, b: Command) {
    a.body == b.body
  }

  function EpochAt(s: Node, e: nat): Epoch {
    if e in s.epochs then s.epochs[e] else Epoch(0, 0, map[])
  }

  function ConsAt(s: Node, k: Key): Bin.Replica {
    var cons := EpochAt(s, k.epoch).cons;
    if k.peer in cons then cons[k.peer] else Bin.Initial()
  }

  /** The broadcasts of an epoch that have finished. */
  function ReadiedIn(log: map<Key, Rb>, e: nat): set<PeerID> {
    set k | k in log && k.epoch == e && log[k].status == Slots.Committed :: k.peer
  }

  function DecidedIn(cons: map<PeerID, Bin.Replica>): set<PeerID> {
    set id | id in cons && cons[id].c.decided
  }

  function OnesIn(cons: map<PeerID, Bin.Replica>): set<PeerID> {
    set id | id in cons && cons[id].c.decided && cons[id].c.decidedValue == 1
  }

  // ----- request.go

  /** The slot after a request of the replica's own; None when it has already cast a message there. */
  function OwnRb(was: Option<Rb>, self: PeerID, cmd: Command): Option<Rb> {
    var s := if was.Some? then was.value else Slots.MakeSlot(0, Some(cmd), Some(Slots.Of(cmd)));
    match Slots.Log(s.pCert, self, Slots.Ballot(0, Some(Slots.Of(cmd))))
    case None => None
    case Some(c) => Some(s.(status := Slots.PrePrepared, pCert := c))
  }

  function OnRequest(s: Node, cmd: Command): Node {
    if s.halted then s
    else
      var key := Key(s.nextEpoch, s.id);
      match OwnRb(SA.Lookup(s.log, key), s.id, cmd)
      case None => s.(halted := true)
      case Some(x) =>
        s.(nextEpoch := s.nextEpoch + 1,
           epochs := s.epochs[key.epoch := EpochAt(s, key.epoch)],
           log := s.log[key := x],
           sent := s.sent + {RbMsg(Send, key, Some(cmd), None)})
  }

  // ----- exec.go

  /** The gate on the counters. */
  predicate Gate(s: Node) {
    && s.nextDeliver in s.epochs
    && s.epochs[s.nextDeliver].rbDone >= s.threshold
    && s.epochs[s.nextDeliver].consDone == 3 * s.f + 1
  }

  /** Every instance of the epoch that decided 1 has its broadcast, with the command. */
  predicate HasCommands(s: Node, e: nat) {
    forall id :: id in OnesIn(EpochAt(s, e).cons) ==> Key(e, id) in s.log && s.log[Key(e, id)].payload.Some?
  }

  predicate AllReadied(s: Node, e: nat) {
    forall id :: id in OnesIn(EpochAt(s, e).cons) ==> Key(e, id) in s.log ==> s.log[Key(e, id)].status == Slots.Committed
  }

  /** Hand over the commands that the epoch decided 1. */
  function HandOver(s: Node): Node
    requires HasCommands(s, s.nextDeliver)
  {
    var e := s.nextDeliver;
    var ones := OnesIn(EpochAt(s, e).cons);
    s.(delivered := s.delivered + [map id | id in ones :: s.log[Key(e, id)].payload.value],
       log := map k | k in s.log :: if k.epoch == e && k.peer in ones then s.log[k].(payload := None) else s.log[k],
       nextDeliver := e + 1)
  }

  /** Hand over, and ask again for an own command that was decided 0. */
  function DeliverEpoch(s: Node): Node
    requires HasCommands(s, s.nextDeliver)
  {
    var t, cons, own := HandOver(s), EpochAt(s, s.nextDeliver).cons, Key(s.nextDeliver, s.id);
    if s.id in DecidedIn(cons) - OnesIn(cons) && own in s.log then
      if s.log[own].payload.None? then t.(halted := true)
      else OnRequest(t.(reproposed := t.reproposed + {own}), s.log[own].payload.value)
    else t
  }

  /** The epochs that exec can still get through. */
  function Finished(s: Node): set<nat> {
    set e | e in s.epochs && e >= s.nextDeliver && s.epochs[e].consDone == 3 * s.f + 1
  }

  lemma DeliverConsumes(s: Node)
    requires !s.halted && Gate(s) && HasCommands(s, s.nextDeliver)
    ensures var t := DeliverEpoch(s); !t.halted ==> t.f == s.f && |Finished(t)| < |Finished(s)|
  {
    var t := DeliverEpoch(s);
    if t.halted {
      return;
    }
    forall e | e in Finished(t) ensures e in Finished(s) && e != s.nextDeliver {
      assert EpochAt(t, e).consDone == EpochAt(s, e).consDone;
    }
    assert Finished(t) <= Finished(s) - {s.nextDeliver};
    SubsetSize(Finished(t), Finished(s) - {s.nextDeliver});
  }

  /** exec.  An instance decided 1 without a broadcast, or without its command, is a nil dereference. */
  function Exec(s: Node): Node
    decreases |Finished(s)|
  {
    if s.halted || !Gate(s) then s
    else if !AllReadied(s, s.nextDeliver) then s
    else if !HasCommands(s, s.nextDeliver) then s.(halted := true)
    else
      var t := DeliverEpoch(s);
      if t.halted then t else (DeliverConsumes(s); Exec(t))
  }

  // ----- dbft.go, for one instance of the node

  /** Replace one instance; a decision is counted and may let exec go on. */
  function SetCons(s: Node, k: Key, c: Bin.Replica): Node {
    var ep := EpochAt(s, k.epoch);
    var decides := c.c.decided && !ConsAt(s, k).c.decided;
    var t := s.(epochs := s.epochs[k.epoch := ep.(cons := ep.cons[k.peer := c], consDone := ep.consDone + if decides then 1 else 0)]);
    if decides then Exec(t) else t
  }

  function ProposeOne(s: Node, e: nat, id: PeerID): Node {
    if s.halted then s
    else
      var key := Key(e, id);
      if key in s.log && s.log[key].status == Slots.Committed
      then SetCons(s, key, Bin.ProposeDone(ConsAt(s, key), s.f, 1))
      else SetCons(s, key, Bin.ProposeValue(ConsAt(s, key), 1, 0))
  }

  /** Propose for the first n peers. */
  function ProposeAll(s: Node, e: nat, n: nat): Node {
    if n == 0 then s else ProposeOne(ProposeAll(s, e, n - 1), e, n - 1)
  }

  function TryStart(s: Node, e: nat): Node {
    if s.halted || EpochAt(s, e).rbDone != s.threshold then s else ProposeAll(s, e, 3 * s.f + 1)
  }

  function RBDone(s: Node, key: Key): Node {
    if s.halted || EpochAt(s, key.epoch).rbDone <= s.threshold then s
    else if key.peer !in EpochAt(s, key.epoch).cons then s.(halted := true)
    else SetCons(s, key, Bin.ProposeDone(ConsAt(s, key), s.f, 1))
  }

  function AfterReady(s: Node, key: Key): Node {
    if s.halted || s.id != key.peer || key !in s.log || key in s.reproposed then s
    else if !(ConsAt(s, key).c.decided && ConsAt(s, key).c.decidedValue == 0) then s
    else if s.log[key].payload.None? then s.(halted := true)
    else OnRequest(s, s.log[key].payload.value)
  }

  // ----- rb.go

  function RbMsgs(key: Key, r: Slots.Outcome<Command>): set<RbMsg>
    requires r.Next?
  {
    (if r.prepare.Some? then {RbMsg(Echo, key, None, r.prepare.value.digest)} else {})
    + (if r.commit.Some? then {RbMsg(Ready, key, None, r.commit.value.digest)} else {})
  }

  /** Install the outcome of a broadcast step; a finished broadcast is counted at once. */
  function Install(s: Node, key: Key, r: Slots.Outcome<Command>): Node
    requires r.Next?
  {
    var ep := EpochAt(s, key.epoch);
    s.(log := s.log[key := r.slot], sent := s.sent + RbMsgs(key, r),
       epochs := s.epochs[key.epoch := ep.(rbDone := ep.rbDone + if r.committed then 1 else 0)])
  }

  function Finish(s: Node, key: Key, r: Slots.Outcome<Command>): Node {
    match r
    case Halt => s.(halted := true)
    case Next(_, _, _, committed) =>
      var t := Install(s, key, r);
      if committed then AfterReady(Exec(RBDone(TryStart(t, key.epoch), key)), key) else t
  }

  function OnRb(s: Node, from: PeerID, m: RbMsg): Node {
    if s.halted then s
    else
      var was := SA.Lookup(s.log, m.key);
      match m.kind
      case Send =>
        if m.payload.None? then s.(halted := true)
        else Finish(s, m.key, Slots.PrePrepareSlot(was, SameCommand, s.id, s.f, from, 0, m.payload, Slots.Of(m.payload.value)))
      case Echo => Finish(s, m.key, Slots.PrepareSlot(was, s.id, s.f, from, 0, m.payload, m.digest))
      case Ready => Finish(s, m.key, Slots.CommitSlot(was, s.f, from, 0, m.payload, m.digest))
  }

  /** A consensus message: its epoch has to exist. */
  function OnCons(s: Node, from: PeerID, k: Key, m: Bin.Msg): Node {
    if s.halted then s
    else if k.epoch !in s.epochs then s.(halted := true)
    else SetCons(s, k, Bin.Receive(ConsAt(s, k), s.f, Bin.Envelope(from, m)))
  }

  function OnTimer(s: Node, k: Key, r: nat): Node {
    if s.halted || k.epoch !in s.epochs || k.peer !in s.epochs[k.epoch].cons then s
    else SetCons(s, k, Bin.OnTimer(ConsAt(s, k), s.f, r))
  }

  function Initial(f: nat, id: PeerID, threshold: nat): Node {
    Node(id, f, threshold, map[], {}, map[], 0, 0, [], {}, false)
  }
}
