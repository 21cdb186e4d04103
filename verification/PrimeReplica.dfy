/** The handlers of protocols/prime on a replica's fields. */
module PrimeReplica {
  import opened Quorums
  import opened PrimeFrontier
  import opened PrimeNode
  import PrimeExec
  import Slots

  /** quorum.Majority: count the votes that equal d. */
  method CountMajority<P(==)>(votes: Votes<P>, d: Option<Digest<P>>, f: nat) returns (ok: bool)
    ensures ok <==> Majority(votes, d, f)
  {
    if |votes| <= 2 * f {
      SubsetSize(Agreeing(votes, d), votes.Keys);
      return false;
    }
    var todo, size := votes.Keys, 0;
    ghost var counted: set<PeerID> := {};
    while todo != {}
      invariant todo <= votes.Keys && counted == Agreeing(votes, d) - todo && size == |counted|
      decreases todo
    {
      var p :| p in todo;
      if votes[p] == d {
        size := size + 1;
        counted := counted + {p};
      }
      todo := todo - {p};
    }
    assert counted == Agreeing(votes, d);
    return size > 2 * f;
  }

  /** updateOCommand: compare the rows that the slot holds; None is an index out of range. */
  method CompareRows(held: Matrix, m: Matrix) returns (same: Option<bool>)
    ensures same == SameRows(held, m)
  {
    var i := 0;
    while i < |held|
      invariant 0 <= i <= |held| && i <= |m| && SameRows(held, m) == SameRows(held[i..], m[i..])
    {
      if i >= |m| {
        return None;
      }
      if held[i] != m[i] {
        return Some(false);
      }
      assert held[i..][1..] == held[i + 1..] && m[i..][1..] == m[i + 1..];
      i := i + 1;
    }
    return Some(true);
  }

  class Replica {
    const id: PeerID
    const f: nat
    const oview: nat
    var log: map<Id, Inst>
    var index: nat
    var poSummary: seq<nat>
    var summaries: Matrix
    var lastPrepared: Matrix
    var execIdx: map<nat, nat>
    var olog: map<nat, Slot>
    var oindex: nat
    var oexecIdx: nat
    var executed: seq<Output>
    var msgs: seq<Msg>
    var halted: bool

    function State(): Node
      reads this
    {
      Node(id, f, log, index, poSummary, summaries, lastPrepared, execIdx, olog, oindex, oview, oexecIdx, executed, msgs, halted)
    }

    constructor (f: nat, id: PeerID, oview: nat)
      ensures State() == Initial(f, id, oview)
    {
      var n := 3 * f + 1;
      this.f, this.id, this.oview := f, id, oview;
      log, index, olog, oindex, oexecIdx, executed, msgs, halted := map[], 1, map[], 1, 1, [], [], false;
      poSummary := seq(n, r => 0);
      summaries := Zeroes(n);
      lastPrepared := Zeroes(n);
      execIdx := map r | r in PeersBelow(n) :: 1;
      new;
      assert State() == Initial(f, id, oview);
    }

    // ----- brbinstance.go

    /** summarize. */
    method DoSummarize(r: nat)
      modifies this
      ensures State() == Summarize(old(State()), r)
    {
      if r >= |poSummary| {
        halted := true;
        return;
      }
      var i := poSummary[r] + 1;
      while Acked(log, Id(r, i))
        invariant State() == old(State())
        invariant i >= 1 && RunEnd(log, r, i - 1) == RunEnd(log, r, poSummary[r])
        decreases |Logged(log, r, i)|
      {
        LoggedShrinks(log, r, i);
        i := i + 1;
      }
      poSummary := poSummary[r := i - 1];
    }

    /** The end of onPORequest and onPOAck. */
    method Acknowledge(key: Id, x: Inst, d: Option<Digest<Command>>)
      modifies this
      ensures State() == Settle(old(State()), key, x, d)
    {
      var enough := CountMajority(x.votes, d, f);
      if enough && x.status == PreOrder {
        log := log[key := x.(status := PreOrderAck)];
        DoSummarize(key.replica);
      } else {
        log := log[key := x];
      }
    }

    method HandlePORequest(from: PeerID, key: Id, cmd: Option<Command>, hash: Option<Digest<Command>>)
      modifies this
      ensures State() == OnPORequest(old(State()), from, key, cmd, hash)
    {
      if cmd.None? || hash != Some(Slots.Of(cmd.value)) {
        halted := true;
        return;
      }
      var inst := Inst(Nothing, cmd, hash, map[]);
      if key in log {
        inst := log[key];
        if inst.cmd.Some? {
          if inst.cmd.value.body != cmd.value.body {
            return;
          }
        } else {
          inst := inst.(cmd := cmd);
        }
        if inst.hash.Some? && inst.hash != hash {
          log := log[key := inst];
          return;
        }
        inst := inst.(hash := hash);
      }
      if from in inst.votes {
        halted := true;
        return;
      }
      inst := inst.(votes := inst.votes[from := hash], status := PreOrder);
      if id in inst.votes {
        halted := true;
        return;
      }
      inst := inst.(votes := inst.votes[id := inst.hash]);
      msgs := msgs + [POAck(key, None, inst.hash)];
      Acknowledge(key, inst, inst.hash);
    }

    method HandlePOAck(from: PeerID, key: Id, cmd: Option<Command>, hash: Option<Digest<Command>>)
      modifies this
      ensures State() == OnPOAck(old(State()), from, key, cmd, hash)
    {
      var inst := Inst(Nothing, cmd, hash, map[]);
      if key in log {
        inst := log[key];
        if inst.hash.Some? && inst.hash != hash {
          return;
        }
        inst := inst.(hash := hash);
      }
      if from in inst.votes {
        halted := true;
        return;
      }
      Acknowledge(key, inst.(votes := inst.votes[from := hash]), hash);
    }

    /** onRequest of request.go. */
    method HandleRequest(cmd: Command)
      modifies this
      ensures State() == OnRequest(old(State()), cmd)
    {
      var key, d := Id(id, index), Some(Slots.Of(cmd));
      index := index + 1;
      log := log[key := Inst(PreOrder, Some(cmd), d, map[id := d])];
      msgs := msgs + [PORequest(key, Some(cmd), d)];
    }

    // ----- oinstance.go

    method DoSendPrePrepare()
      modifies this
      ensures State() == SendPrePrepare(old(State()))
    {
      if id != oview % (3 * f + 1) || summaries == lastPrepared {
        return;
      }
      var i, d := oindex, Some(Slots.Of(summaries));
      lastPrepared := summaries;
      oindex := oindex + 1;
      olog := olog[i := Slot(OPrePrepared, Some(summaries), d, map[id := d], map[])];
      msgs := msgs + [Order(PrePrepare, oview, i, Some(summaries), d)];
    }

    method HandlePrePrepare(from: PeerID, i: nat, matrix: Option<Matrix>, d: Option<Digest<Matrix>>)
      modifies this
      ensures State() == OnPrePrepare(old(State()), from, i, matrix, d)
    {
      if from != oview % (3 * f + 1) {
        return;
      }
      if matrix.None? || d != Some(Slots.Of(matrix.value)) {
        halted := true;
        return;
      }
      var inst := Slot(ONothing, matrix, None, map[], map[]);
      if i in olog {
        inst := olog[i];
        if inst.matrix.Some? {
          var same := CompareRows(inst.matrix.value, matrix.value);
          if same.None? {
            halted := true;
            return;
          }
          if !same.value {
            return;
          }
        } else {
          inst := inst.(matrix := matrix);
        }
        if inst.hash.Some? && inst.hash != d {
          olog := olog[i := inst];
          return;
        }
        inst := inst.(hash := d);
      }
      if from in inst.prepares {
        halted := true;
        return;
      }
      inst := inst.(prepares := inst.prepares[from := d], status := OPrePrepared);
      if id in inst.prepares {
        halted := true;
        return;
      }
      inst := inst.(prepares := inst.prepares[id := d]);
      msgs := msgs + [Order(Prepare, oview, i, None, d)];
      Promote(i, inst, d);
    }

    /** The promotion that onPrePrepare and onPrepare end with. */
    method Promote(i: nat, x: Slot, d: Option<Digest<Matrix>>)
      modifies this
      ensures State() == TryPrepare(old(State()), i, x, d)
    {
      var inst := x;
      var enough := CountMajority(inst.prepares, d, f);
      if !enough || inst.status != OPrePrepared {
        olog := olog[i := inst];
        return;
      }
      inst := inst.(status := OPrepared);
      if id in inst.commits {
        halted := true;
        return;
      }
      msgs := msgs + [Order(Commit, oview, i, None, d)];
      inst := inst.(commits := inst.commits[id := d]);
      var done := CountMajority(inst.commits, d, f);
      if done {
        inst := inst.(status := OCommitted);
      }
      olog := olog[i := inst];
      if done {
        RunExec();
      }
    }

    method HandlePrepare(from: PeerID, i: nat, matrix: Option<Matrix>, d: Option<Digest<Matrix>>)
      modifies this
      ensures State() == OnPrepare(old(State()), from, i, matrix, d)
    {
      if from == oview % (3 * f + 1) {
        return;
      }
      var inst := Slot(ONothing, matrix, None, map[], map[]);
      if i in olog {
        inst := olog[i];
        if inst.hash.Some? && inst.hash != d {
          return;
        }
        inst := inst.(hash := d);
      }
      if from in inst.prepares {
        halted := true;
        return;
      }
      Promote(i, inst.(prepares := inst.prepares[from := d]), d);
    }

    method HandleCommit(from: PeerID, i: nat, matrix: Option<Matrix>, d: Option<Digest<Matrix>>)
      modifies this
      ensures State() == OnCommit(old(State()), from, i, matrix, d)
    {
      var inst := Slot(ONothing, matrix, None, map[], map[]);
      if i in olog {
        inst := olog[i];
        if inst.hash.Some? && inst.hash != d {
          return;
        }
        inst := inst.(hash := d);
      }
      if from in inst.commits {
        halted := true;
        return;
      }
      inst := inst.(commits := inst.commits[from := d]);
      var done := CountMajority(inst.commits, d, f);
      if done && inst.status == OPrepared {
        inst := inst.(status := OCommitted);
      }
      olog := olog[i := inst];
      if inst.status == OCommitted {
        RunExec();
      }
    }

    // ----- exec.go

    /** exec: pass ordering slots while the next one is committed and all it covers is here. */
    method RunExec()
      modifies this
      ensures State() == Exec(old(State()))
    {
      ghost var start := State();
      while true
        invariant Exec(State()) == Exec(start)
        decreases |CommittedSlots(olog)|, !halted
      {
        if halted || oexecIdx !in olog || olog[oexecIdx].status != OCommitted {
          return;
        }
        if !Usable(olog[oexecIdx], f) {
          halted := true;
          return;
        }
        ghost var before := State();
        var targets := Targets(olog[oexecIdx]);
        var here := Survey(olog[oexecIdx], targets);
        if !here {
          return;
        }
        PassSlot(targets);
        if halted {
          return;
        }
        SlotConsumed(before);
      }
    }

    /** The frontier of every column. */
    method Targets(slot: Slot) returns (targets: seq<nat>)
      requires Usable(slot, f)
      ensures |targets| == Rows(slot) && forall r :: 0 <= r < |targets| ==> targets[r] == Target(slot, f, r)
    {
      targets := [];
      for r := 0 to |slot.matrix.value|
        invariant |targets| == r && forall q :: 0 <= q < r ==> targets[q] == Target(slot, f, q)
      {
        var t := SelectFrontier(slot.matrix.value, f, r);
        targets := targets + [t];
      }
    }

    method Survey(slot: Slot, targets: seq<nat>) returns (here: bool)
      requires Usable(slot, f) && |targets| == Rows(slot) && forall r :: 0 <= r < |targets| ==> targets[r] == Target(slot, f, r)
      ensures here <==> Available(State(), slot)
    {
      for r := 0 to |targets|
        invariant forall q, i :: 0 <= q < r && Next(State(), q) <= i <= targets[q] ==>
          Id(q, i) in log && Rank(log[Id(q, i)].status) >= Rank(PreOrderAck)
      {
        var i := Next(State(), r);
        while i <= targets[r]
          invariant i >= Next(State(), r)
          invariant forall k :: Next(State(), r) <= k < i ==> Id(r, k) in log && Rank(log[Id(r, k)].status) >= Rank(PreOrderAck)
          decreases targets[r] + 1 - i
        {
          if Id(r, i) !in log || Rank(log[Id(r, i)].status) < Rank(PreOrderAck) {
            return false;
          }
          i := i + 1;
        }
      }
      return true;
    }

    method PassSlot(targets: seq<nat>)
      requires oexecIdx in olog && Usable(olog[oexecIdx], f)
      requires |targets| == Rows(olog[oexecIdx]) && forall r :: 0 <= r < |targets| ==> targets[r] == Target(olog[oexecIdx], f, r)
      requires !halted
      modifies this
      ensures State() == RunSlot(old(State()))
    {
      ghost var start := State();
      var slot := olog[oexecIdx];
      RunOriginsFrame(start, slot, Rows(slot));
      for r := 0 to |targets|
        invariant State() == RunOrigins(start, slot, r)
      {
        PrimeExec.OriginsUnfold(start, slot, r + 1);
        hide RunOrigins, RunOrigin, Usable, Target;
        ExecuteOrigin(r, targets[r]);
      }
      hide RunOrigins;
      if halted {
        return;
      }
      olog := olog[oexecIdx := slot.(status := OExecuted)];
      oexecIdx := oexecIdx + 1;
    }

    /** The inner loop: the origin's instances from its cursor to the frontier. */
    method ExecuteOrigin(r: nat, last: nat)
      modifies this
      ensures State() == RunOrigin(old(State()), r, last)
    {
      ghost var start := State();
      while !halted && Next(State(), r) <= last
        invariant RunOrigin(State(), r, last) == RunOrigin(start, r, last)
        decreases !halted, last + 1 - Next(State(), r)
      {
        ExecuteOne(r);
        hide ExecuteNext;
      }
    }

    method ExecuteOne(r: nat)
      requires !halted
      modifies this
      ensures State() == ExecuteNext(old(State()), r) && (!halted ==> Next(State(), r) == Next(old(State()), r) + 1)
    {
      var i := Next(State(), r);
      var id := Id(r, i);
      if id !in log {
        halted := true;
      } else if log[id].status == Executed {
        execIdx := execIdx[r := i + 1];
      } else if log[id].cmd.None? {
        halted := true;
      } else {
        executed := executed + [Output(id, log[id].cmd.value)];
        log := log[id := log[id].(status := Executed, cmd := None)];
        execIdx := execIdx[r := i + 1];
      }
    }
  }
}
