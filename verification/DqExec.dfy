/** exec of protocols/dqpbft against a simple specification: what has been delivered is the concatenation
    of the batches of the ordering slots passed. */
module DqExec {
  import opened Quorums
  import opened Slots
  import opened SlotAgreement
  import opened DqNode

  function IdsOf(ds: seq<Delivery>): Batch {
    seq(|ds|, i requires 0 <= i < |ds| => ds[i].id)
  }

  lemma IdsOfConcat(a: seq<Delivery>, b: seq<Delivery>)
    ensures IdsOf(a + b) == IdsOf(a) + IdsOf(b)
  {
  }

  /** The batches of slots 0 .. n-1, one after the other. */
  function Ordered(olog: map<nat, Slot<Batch>>, n: nat): Batch {
    if n == 0 then [] else Ordered(olog, n - 1) + BatchAt(olog, n - 1)
  }

  function BatchAt(olog: map<nat, Slot<Batch>>, i: nat): Batch {
    if i in olog then Ids(olog[i].payload) else []
  }

  /** All slots before nextODeliver are executed, and exactly their batches are delivered; a replica that has
      halted inside a slot has delivered a prefix of that slot's batch on top. */
  ghost predicate OrderOK(s: Node) {
    && (forall i :: 0 <= i < s.nextODeliver ==> i in s.olog && s.olog[i].status == Executed)
    && exists k :: Delivered(s, k)
  }

  ghost predicate Delivered(s: Node, k: nat) {
    && k <= |BatchAt(s.olog, s.nextODeliver)|
    && (k > 0 ==> s.halted && s.nextODeliver in s.olog && s.olog[s.nextODeliver].status == Committed)
    && IdsOf(s.delivered) == Ordered(s.olog, s.nextODeliver) + BatchAt(s.olog, s.nextODeliver)[..k]
  }

  ghost predicate Distinct<T>(s: seq<T>) {
    forall i, j :: 0 <= i < j < |s| ==> s[i] != s[j]
  }

  lemma {:induction false} OrderedFrame(a: map<nat, Slot<Batch>>, b: map<nat, Slot<Batch>>, n: nat)
    requires forall i :: 0 <= i < n ==> BatchAt(a, i) == BatchAt(b, i)
    ensures Ordered(a, n) == Ordered(b, n)
  {
    if n > 0 {
      OrderedFrame(a, b, n - 1);
    }
  }

  // ----- one slot

  ghost predicate ReadyOrGone(log: map<InstanceID, Slot<Command>>, ids: Batch) {
    forall i :: 0 <= i < |ids| ==> ids[i] in log && (log[ids[i]].payload.Some? ==> log[ids[i]].status == Committed)
  }

  /** How far DeliverAll gets: to the first id whose command is gone or has been delivered before. */
  function Reach(log: map<InstanceID, Slot<Command>>, ids: Batch): nat
    decreases |ids|
  {
    if ids == [] || ids[0] !in log || log[ids[0]].payload.None? then 0
    else 1 + Reach(Take(log, ids[0]), ids[1..])
  }

  function Take(log: map<InstanceID, Slot<Command>>, id: InstanceID): map<InstanceID, Slot<Command>>
    requires id in log
  {
    log[id := log[id].(payload := None, status := Executed)]
  }

  /** The ids reached are distinct and their commands present. */
  lemma {:induction false} ReachedReady(log: map<InstanceID, Slot<Command>>, ids: Batch)
    ensures var k := Reach(log, ids);
      && k <= |ids| && Distinct(ids[..k])
      && forall i :: 0 <= i < k ==> ids[i] in log && log[ids[i]].payload.Some?
    decreases |ids|
  {
    if ids != [] && ids[0] in log && log[ids[0]].payload.Some? {
      var rest := ids[1..];
      ReachedReady(Take(log, ids[0]), rest);
      var k := Reach(Take(log, ids[0]), rest);
      forall i | 1 <= i < k + 1 ensures ids[i] in log && log[ids[i]].payload.Some? && ids[i] != ids[0] {
        assert ids[i] == rest[i - 1];
      }
      assert forall i, j :: 1 <= i < j < k + 1 ==> ids[i] == rest[..k][i - 1] && ids[j] == rest[..k][j - 1];
    }
  }

  /** What DeliverAll appends. */
  function DeliveredBy(log: map<InstanceID, Slot<Command>>, ids: Batch): seq<Delivery>
    decreases |ids|
  {
    if ids == [] || ids[0] !in log || log[ids[0]].payload.None? then []
    else [Delivery(ids[0], log[ids[0]].payload.value)] + DeliveredBy(Take(log, ids[0]), ids[1..])
  }

  /** DeliverAll halts exactly when it does not reach the end of the batch. */
  lemma {:induction false} DeliverAllAppends(s: Node, ids: Batch)
    requires !s.halted
    ensures var t := DeliverAll(s, ids);
      t.delivered == s.delivered + DeliveredBy(s.log, ids) && t.halted == (Reach(s.log, ids) < |ids|)
    decreases |ids|
  {
    if ids != [] && ids[0] in s.log && s.log[ids[0]].payload.Some? {
      DeliverAllAppends(DeliverOne(s, ids[0]), ids[1..]);
    }
  }

  /** What is appended: the ids reached, in order, each with the command its slot held. */
  lemma {:induction false} DeliveredIs(log: map<InstanceID, Slot<Command>>, ids: Batch)
    ensures var ds, k := DeliveredBy(log, ids), Reach(log, ids);
      && k <= |ids| && IdsOf(ds) == ids[..k]
      && forall i :: 0 <= i < k ==> ds[i].id in log && log[ds[i].id].payload == Some(ds[i].cmd)
    decreases |ids|
  {
    if ids != [] && ids[0] in log && log[ids[0]].payload.Some? {
      var rest, log' := ids[1..], Take(log, ids[0]);
      DeliveredIs(log', rest);
      var ds, k := DeliveredBy(log, ids), Reach(log', rest);
      var tail := DeliveredBy(log', rest);
      IdsOfConcat([ds[0]], tail);
      assert ids[..k + 1] == [ids[0]] + rest[..k];
      assert |tail| == |IdsOf(tail)| == k;
      forall i | 0 <= i < k + 1 ensures ds[i].id in log && log[ds[i].id].payload == Some(ds[i].cmd) {
        if i > 0 {
          assert ds[i] == tail[i - 1];
        }
      }
    }
  }

  /** The log that DeliverAll leaves. */
  function TakeAll(log: map<InstanceID, Slot<Command>>, ids: Batch): map<InstanceID, Slot<Command>>
    decreases |ids|
  {
    if ids == [] || ids[0] !in log || log[ids[0]].payload.None? then log
    else TakeAll(Take(log, ids[0]), ids[1..])
  }

  lemma {:induction false} DeliverAllLog(s: Node, ids: Batch)
    ensures DeliverAll(s, ids).log == TakeAll(s.log, ids)
    decreases |ids|
  {
    if ids != [] && ids[0] in s.log && s.log[ids[0]].payload.Some? {
      DeliverAllLog(DeliverOne(s, ids[0]), ids[1..]);
    }
  }

  /** DeliverAll retires exactly the slots of the ids it reaches. */
  lemma {:induction false} TakeAllRetires(log: map<InstanceID, Slot<Command>>, ids: Batch)
    requires ReadyOrGone(log, ids)
    ensures var n, k := TakeAll(log, ids), Reach(log, ids);
      && k <= |ids| && AllRetired(log, n)
      && (forall id :: id in log && id !in ids[..k] ==> n[id] == log[id])
      && (forall i :: 0 <= i < k ==> n[ids[i]].status == Executed)
    decreases |ids|
  {
    if ids != [] && log[ids[0]].payload.Some? {
      var log', rest := Take(log, ids[0]), ids[1..];
      assert forall i :: 0 <= i < |rest| ==> rest[i] == ids[i + 1];
      assert AllRetired(log, log');
      TakeAllRetires(log', rest);
      var n, k := TakeAll(log, ids), Reach(log', rest);
      assert ids[..k + 1] == [ids[0]] + rest[..k];
      RetiredTransitive(log, log', n);
      forall i | 0 <= i < k + 1 ensures n[ids[i]].status == Executed {
        if i > 0 {
          assert ids[i] == rest[i - 1];
        } else if ids[0] in rest[..k] {
          var j :| 0 <= j < k && rest[j] == ids[0];
        }
      }
    }
  }

  lemma {:induction false} RetiredTransitive<K, P>(a: map<K, Slot<P>>, b: map<K, Slot<P>>, c: map<K, Slot<P>>)
    requires AllRetired(a, b) && AllRetired(b, c)
    ensures AllRetired(a, c)
  {
  }

  /** A ready batch is delivered completely exactly when its ids are distinct. */
  lemma {:induction false} CompleteIffDistinct(log: map<InstanceID, Slot<Command>>, ids: Batch)
    requires forall i :: 0 <= i < |ids| ==> ids[i] in log && log[ids[i]].payload.Some?
    ensures Reach(log, ids) == |ids| <==> Distinct(ids)
    decreases |ids|
  {
    if ids != [] {
      var rest := ids[1..];
      assert forall i :: 0 <= i < |rest| ==> rest[i] == ids[i + 1];
      var log' := Take(log, ids[0]);
      if ids[0] in rest {
        var j :| 0 <= j < |rest| && rest[j] == ids[0];
        assert ids[0] == ids[j + 1];
        ReachStops(log', rest, j);
      } else {
        CompleteIffDistinct(log', rest);
        if Distinct(rest) {
          assert Distinct(ids);
        }
      }
    }
  }

  lemma {:induction false} ReachStops(log: map<InstanceID, Slot<Command>>, ids: Batch, j: nat)
    requires j < |ids| && ids[j] in log && log[ids[j]].payload.None?
    ensures Reach(log, ids) <= j
    decreases |ids|
  {
    if j > 0 && ids[0] in log && log[ids[0]].payload.Some? {
      ReachStops(Take(log, ids[0]), ids[1..], j - 1);
    }
  }

  /** One round of the loop. */
  lemma DeliverSlotSpec(s: Node)
    requires !s.halted && CanDeliver(s) && OrderOK(s)
    ensures OrderOK(DeliverSlot(s))
    ensures DeliverSlot(s).halted <==> !Distinct(BatchAt(s.olog, s.nextODeliver))
  {
    var n, ids := s.nextODeliver, BatchAt(s.olog, s.nextODeliver);
    var t, k := DeliverSlot(s), Reach(s.log, ids);
    DeliverAllFrame(s, ids);
    DeliverAllAppends(s, ids);
    DeliveredIs(s.log, ids);
    CompleteIffDistinct(s.log, ids);
    IdsOfConcat(s.delivered, DeliveredBy(s.log, ids));
    if t.halted {
      var j :| Delivered(s, j);
      assert Ordered(s.olog, n) + ids[..0] == Ordered(s.olog, n);
      assert Delivered(t, k);
    } else {
      assert ids[..k] == ids;
      SlotPassed(s, t);
    }
  }

  /** Passing a whole slot keeps the specification. */
  lemma SlotPassed(s: Node, t: Node)
    requires !s.halted && OrderOK(s) && s.nextODeliver in s.olog && t.nextODeliver == s.nextODeliver + 1
    requires t.olog == s.olog[s.nextODeliver := s.olog[s.nextODeliver].(status := Executed)]
    requires IdsOf(t.delivered) == IdsOf(s.delivered) + BatchAt(s.olog, s.nextODeliver)
    ensures OrderOK(t)
  {
    var n, ids := s.nextODeliver, BatchAt(s.olog, s.nextODeliver);
    var j :| Delivered(s, j);
    OrderedFrame(s.olog, t.olog, n);
    assert Ordered(s.olog, n) + ids[..0] == Ordered(s.olog, n);
    assert Ordered(t.olog, n + 1) + BatchAt(t.olog, n + 1)[..0] == Ordered(t.olog, n) + ids;
    assert Delivered(t, 0);
  }

  lemma DeliverSlotRetires(s: Node)
    requires !s.halted && CanDeliver(s)
    ensures var t := DeliverSlot(s);
      && AllRetired(s.log, t.log) && AllRetired(s.olog, t.olog)
      && (forall i :: i in s.olog ==> t.olog[i].payload == s.olog[i].payload)
  {
    DeliverAllFrame(s, Ids(s.olog[s.nextODeliver].payload));
    DeliverAllLog(s, Ids(s.olog[s.nextODeliver].payload));
    TakeAllRetires(s.log, Ids(s.olog[s.nextODeliver].payload));
  }

  /** exec keeps the specification, only retires slots, and stops where nothing more can be delivered. */
  lemma {:induction false} ExecSpec(s: Node)
    requires OrderOK(s)
    ensures var t := Exec(s);
      && OrderOK(t) && AllRetired(s.log, t.log) && AllRetired(s.olog, t.olog)
      && (forall i :: i in s.olog ==> t.olog[i].payload == s.olog[i].payload)
      && t.nextODeliver >= s.nextODeliver && (!t.halted ==> !CanDeliver(t))
    decreases |CommittedSlots(s.olog)|
  {
    if !s.halted && CanDeliver(s) {
      var t := DeliverSlot(s);
      DeliverSlotSpec(s);
      DeliverSlotRetires(s);
      DeliverAllFrame(s, Ids(s.olog[s.nextODeliver].payload));
      if !t.halted {
        SlotConsumed(s.olog, s.nextODeliver);
        ExecSpec(t);
        RetiredTransitive(s.log, t.log, Exec(t).log);
        RetiredTransitive(s.olog, t.olog, Exec(t).olog);
      }
    }
  }

  lemma {:induction false} ExecFrame(s: Node)
    ensures var t := Exec(s);
      t.id == s.id && t.f == s.f && t.msgs == s.msgs && t.index == s.index && t.oindex == s.oindex
      && t.oview == s.oview && t.cReqBuffer == s.cReqBuffer && t.oBatchSize == s.oBatchSize
    decreases |CommittedSlots(s.olog)|
  {
    if !s.halted && CanDeliver(s) {
      DeliverAllFrame(s, Ids(s.olog[s.nextODeliver].payload));
      if !DeliverSlot(s).halted {
        SlotConsumed(s.olog, s.nextODeliver);
        ExecFrame(DeliverSlot(s));
      }
    }
  }
}
