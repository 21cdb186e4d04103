/** A DQPBFT replica in the form of protocols/dqpbft: fields that the handlers update, a delivery loop and a
    counting loop.  Every handler is proved to take State() where the functions of DqNode say. */
module DqReplica {
  import opened Quorums
  import opened Slots
  import opened SlotAgreement
  import opened DqNode

  /** Quorum.Majority: count the messages of b's view that equal b. */
  method CountMajority<P(==)>(c: Cert<P>, b: Ballot<P>, f: nat) returns (ok: bool)
    ensures ok <==> Majority(c, b, f)
  {
    if b.view !in c.msgs {
      return false;
    }
    var senders := c.msgs[b.view];
    if |senders| <= 2 * f {
      SubsetSize(Matching(c, b), senders.Keys);
      return false;
    }
    var todo, size := senders.Keys, 0;
    ghost var counted: set<PeerID> := {};
    while todo != {}
      invariant todo <= senders.Keys && counted == Matching(c, b) - todo && size == |counted|
      decreases todo
    {
      var p :| p in todo;
      if senders[p] == b {
        size := size + 1;
        counted := counted + {p};
      }
      todo := todo - {p};
    }
    assert counted == Matching(c, b);
    return size > 2 * f;
  }

  /** The promotion that onPrePrepare and onPrepare of both layers end with. */
  method Promote<P(==)>(s: Slot<P>, self: PeerID, f: nat, b: Ballot<P>, sent: Option<Ballot<P>>) returns (r: Outcome<P>)
    ensures r == TryPrepare(s, self, f, b, sent)
  {
    var slot := s;
    var enough := CountMajority(slot.pCert, b, f);
    if !enough || slot.status != PrePrepared {
      return Next(slot, sent, None, false);
    }
    slot := slot.(status := Prepared);
    var cm := Ballot(b.view, slot.digest);
    var c := Log(slot.cCert, self, cm);
    if c.None? {
      return Halt;
    }
    slot := slot.(cCert := c.value);
    var done := CountMajority(slot.cCert, cm, f);
    if done && slot.status == Prepared {
      slot := slot.(status := Committed);
    }
    return Next(slot, sent, Some(cm), done);
  }

  /** One turn of the second loop of exec. */
  lemma DeliverNext(s: Node, ids: Batch, i: nat)
    requires i < |ids|
    ensures DeliverAll(s, ids[i..]) ==
      if ids[i] !in s.log || s.log[ids[i]].payload.None? then s.(halted := true) else DeliverAll(DeliverOne(s, ids[i]), ids[i + 1..])
  {
  }

  class Replica {
    const id: PeerID
    const f: nat
    const oview: nat
    const oBatchSize: nat
    var log: map<InstanceID, Slot<Command>>
    var index: nat
    var nextDeliver: map<PeerID, nat>
    var olog: map<nat, Slot<Batch>>
    var oindex: nat
    var nextODeliver: nat
    var cReqBuffer: Batch
    var delivered: seq<Delivery>
    var msgs: seq<Body>
    var halted: bool

    ghost function State(): Node
      reads this
    {
      Node(id, f, log, index, nextDeliver, olog, oindex, oview, nextODeliver, cReqBuffer, oBatchSize, delivered, msgs, halted)
    }

    constructor (f: nat, id: PeerID, leader: nat, oBatchSize: nat)
      ensures State() == Initial(f, id, leader, oBatchSize)
    {
      this.id, this.f, this.oview, this.oBatchSize := id, f, leader, oBatchSize;
      log, index, nextDeliver := map[], 0, map[];
      olog, oindex, nextODeliver, cReqBuffer := map[], 0, 0, [];
      delivered, msgs, halted := [], [], false;
    }

    /** exec: pass ordering slots while the next one is committed and all its instances are. */
    method RunExec()
      modifies this
      ensures State() == Exec(old(State()))
    {
      ghost var start := State();
      while true
        invariant Exec(State()) == Exec(start)
        decreases |CommittedSlots(olog)|, !halted
      {
        if halted || nextODeliver !in olog || olog[nextODeliver].status != Committed {
          return;
        }
        var ids := Ids(olog[nextODeliver].payload);
        var ready := AllReady(ids);
        if !ready {
          return;
        }
        ghost var before := State();
        DeliverAllFrame(before, ids);
        SlotConsumed(before.olog, before.nextODeliver);
        DeliverBatch(ids);
        if halted {
          return;
        }
        olog := olog[nextODeliver := olog[nextODeliver].(status := Executed)];
        nextODeliver := nextODeliver + 1;
        assert State() == DeliverSlot(before);
      }
    }

    method AllReady(ids: Batch) returns (ready: bool)
      ensures ready <==> Ready(log, ids)
    {
      for i := 0 to |ids|
        invariant Ready(log, ids[..i])
      {
        if ids[i] !in log || log[ids[i]].status != Committed || log[ids[i]].payload.None? {
          return false;
        }
        assert ids[..i + 1] == ids[..i] + [ids[i]];
      }
      assert ids[..|ids|] == ids;
      return true;
    }

    method DeliverBatch(ids: Batch)
      modifies this
      ensures State() == DeliverAll(old(State()), ids)
    {
      ghost var start := State();
      for i := 0 to |ids|
        invariant DeliverAll(State(), ids[i..]) == DeliverAll(start, ids)
      {
        hide DeliverAll;
        DeliverNext(State(), ids, i);
        if ids[i] !in log || log[ids[i]].payload.None? {
          halted := true;
          return;
        }
        var id := ids[i];
        ghost var before := State();
        delivered := delivered + [Delivery(id, log[id].payload.value)];
        log := log[id := log[id].(payload := None)];
        var next := if id.replica in nextDeliver then nextDeliver[id.replica] else 0;
        nextDeliver := nextDeliver[id.replica := next + 1];
        log := log[id := log[id].(status := Executed)];
        assert log == before.log[id := before.log[id].(payload := None, status := Executed)];
        assert State() == DeliverOne(before, id);
      }
    }

    method SendBatch()
      modifies this
      ensures State() == SendCRequest(old(State()))
    {
      if id != oview % (3 * f + 1) {
        return;
      }
      var ids := cReqBuffer;
      cReqBuffer := [];
      if |ids| <= 0 {
        return;
      }
      var i := oindex;
      oindex := oindex + 1;
      var c := Log(EmptyCert(), id, Ballot(id, Some(Of(ids))));
      olog := olog[i := Slot(id, PrePrepared, Some(ids), None, c.value, EmptyCert())];
      msgs := msgs + [Ordering(Msg(PrePrepareMsg, id, i, Some(ids), None))];
    }

    method HandleCRequest(inst: InstanceID)
      modifies this
      ensures State() == OnCRequest(old(State()), inst)
    {
      if id != oview % (3 * f + 1) {
        return;
      }
      cReqBuffer := cReqBuffer + [inst];
      if |cReqBuffer| >= oBatchSize {
        SendBatch();
      }
    }

    method HandleRequest(cmd: Command)
      modifies this
      ensures State() == OnRequest(old(State()), cmd)
    {
      if halted {
        return;
      }
      var inst := InstanceID(id, index);
      index := index + 1;
      var c := Log(EmptyCert(), id, Ballot(id, Some(Of(cmd))));
      log := log[inst := Slot(id, PrePrepared, Some(cmd), None, c.value, EmptyCert())];
      msgs := msgs + [Replication(Msg(PrePrepareMsg, id, inst, Some(cmd), None))];
      if id == oview % (3 * f + 1) {
        HandleCRequest(inst);
      }
    }

    /** Store a slot, queue what was broadcast, and deliver after a commit. */
    method Install(key: InstanceID, r: Outcome<Command>)
      modifies this
      ensures State() == Finish(old(State()), key, r)
    {
      if r.Halt? {
        halted := true;
        return;
      }
      log := log[key := r.slot];
      msgs := msgs + AsReplication(Sent(key, r));
      if r.committed {
        RunExec();
      }
    }

    method InstallO(key: nat, r: Outcome<Batch>)
      modifies this
      ensures State() == OFinish(old(State()), key, r)
    {
      if r.Halt? {
        halted := true;
        return;
      }
      olog := olog[key := r.slot];
      msgs := msgs + AsOrdering(Sent(key, r));
      if r.committed {
        RunExec();
      }
    }

    method HandlePrePrepare(from: PeerID, m: Msg<InstanceID, Command>)
      modifies this
      ensures State() == OnPrePrepare(old(State()), from, m)
    {
      if id == oview % (3 * f + 1) {
        HandleCRequest(m.key);
      }
      if m.payload.None? {
        halted := true;
        return;
      }
      var r := RunPrePrepare(Lookup(log, m.key), SameCommand, id, f, from, m.view, m.payload, Of(m.payload.value));
      Install(m.key, r);
    }

    method HandlePrepare(from: PeerID, m: Msg<InstanceID, Command>)
      modifies this
      ensures State() == OnPrepare(old(State()), from, m)
    {
      var r := RunPrepare(Lookup(log, m.key), id, f, from, m.view, m.payload, m.digest);
      Install(m.key, r);
    }

    method HandleCommit(from: PeerID, m: Msg<InstanceID, Command>)
      modifies this
      ensures State() == OnCommit(old(State()), from, m)
    {
      var r := RunCommit(Lookup(log, m.key), f, from, m.view, m.payload, m.digest);
      Install(m.key, r);
    }

    method HandleOPrePrepare(from: PeerID, m: Msg<nat, Batch>)
      modifies this
      ensures State() == OnOPrePrepare(old(State()), from, m)
    {
      if from != oview % (3 * f + 1) {
        halted := true;
        return;
      }
      var r := RunPrePrepare(Lookup(olog, m.key), SameBatch, id, f, from, m.view, Wire(Ids(m.payload)), Of(Ids(m.payload)));
      InstallO(m.key, r);
    }

    method HandleOPrepare(from: PeerID, m: Msg<nat, Batch>)
      modifies this
      ensures State() == OnOPrepare(old(State()), from, m)
    {
      if from == oview % (3 * f + 1) {
        halted := true;
        return;
      }
      var r := RunPrepare(Lookup(olog, m.key), id, f, from, m.view, Wire(Ids(m.payload)), m.digest);
      InstallO(m.key, r);
    }

    method HandleOCommit(from: PeerID, m: Msg<nat, Batch>)
      modifies this
      ensures State() == OnOCommit(old(State()), from, m)
    {
      var r := RunCommit(Lookup(olog, m.key), f, from, m.view, Wire(Ids(m.payload)), m.digest);
      InstallO(m.key, r);
    }
  }

  /** A pre-prepare on one slot, step by step. */
  method RunPrePrepare<P(==)>(was: Option<Slot<P>>, same: (P, P) -> bool, self: PeerID, f: nat, from: PeerID,
                              view: nat, payload: Option<P>, digest: Digest<P>) returns (r: Outcome<P>)
    ensures r == PrePrepareSlot(was, same, self, f, from, view, payload, digest)
  {
    var s := MakeSlot(view, payload, Some(digest));
    if was.Some? {
      s := was.value;
      if s.payload.None? {
        s := s.(payload := payload);
      } else if payload.None? || !same(s.payload.value, payload.value) {
        return Halt;
      }
      if s.digest.None? {
        s := s.(digest := Some(digest));
      } else if s.digest != Some(digest) {
        return Halt;
      }
    }
    var c := Log(s.pCert, from, Ballot(view, Some(digest)));
    if c.None? {
      return Halt;
    }
    s := s.(pCert := c.value, status := PrePrepared);
    var pm := Ballot(s.view, s.digest);
    c := Log(s.pCert, self, pm);
    if c.None? {
      return Halt;
    }
    s := s.(pCert := c.value);
    r := Promote(s, self, f, pm, Some(pm));
  }

  /** The slot a prepare or a commit goes to. */
  method FindSlot<P(==)>(was: Option<Slot<P>>, view: nat, payload: Option<P>, digest: Option<Digest<P>>) returns (s: Option<Slot<P>>)
    ensures s == KnownSlot(was, view, payload, digest)
  {
    if was.None? {
      return Some(MakeSlot(view, payload, digest));
    }
    if was.value.digest.None? {
      return Some(was.value.(digest := digest));
    }
    if was.value.digest != digest {
      return None;
    }
    return was;
  }

  method RunPrepare<P(==)>(was: Option<Slot<P>>, self: PeerID, f: nat, from: PeerID,
                           view: nat, payload: Option<P>, digest: Option<Digest<P>>) returns (r: Outcome<P>)
    ensures r == PrepareSlot(was, self, f, from, view, payload, digest)
  {
    var known := FindSlot(was, view, payload, digest);
    if known.None? {
      return Halt;
    }
    var c := Log(known.value.pCert, from, Ballot(view, digest));
    if c.None? {
      return Halt;
    }
    r := Promote(known.value.(pCert := c.value), self, f, Ballot(view, digest), None);
  }

  method RunCommit<P(==)>(was: Option<Slot<P>>, f: nat, from: PeerID,
                          view: nat, payload: Option<P>, digest: Option<Digest<P>>) returns (r: Outcome<P>)
    ensures r == CommitSlot(was, f, from, view, payload, digest)
  {
    var known := FindSlot(was, view, payload, digest);
    if known.None? {
      return Halt;
    }
    var s := known.value;
    var c := Log(s.cCert, from, Ballot(view, digest));
    if c.None? {
      return Halt;
    }
    s := s.(cCert := c.value);
    var done := CountMajority(s.cCert, Ballot(view, digest), f);
    if done && s.status == Prepared {
      return Next(s.(status := Committed), None, None, true);
    }
    return Next(s, None, None, false);
  }
}
