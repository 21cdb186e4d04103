/** A DuoBFT replica in the form of protocols/duobft: fields that handlers and callbacks update, two delivery loops and
    a counting loop.  Every method is proved to take State() where the functions of DuoNode say. */
module DuoReplica {
  import opened Quorums
  import opened DuoNode

  /** Quorum.Majority, with the size the certificate was made for. */
  method CountMajority(c: Cert, size: nat, h: Option<Hash>) returns (ok: bool)
    ensures ok <==> Majority(c, size, h)
  {
    if |c| < size {
      SubsetSize(Supporters(c, h), c.Keys);
      return false;
    }
    var todo, count := c.Keys, 0;
    ghost var counted: set<PeerID> := {};
    while todo != {}
      invariant todo <= c.Keys && counted == Supporters(c, h) - todo && count == |counted|
      decreases todo
    {
      var p :| p in todo;
      if c[p] == h {
        count := count + 1;
        counted := counted + {p};
      }
      todo := todo - {p};
    }
    assert counted == Supporters(c, h);
    return count >= size;
  }

  class Replica {
    const id: PeerID
    const f: nat
    const view: nat
    var insts: seq<Inst>
    var log: map<nat, nat>
    var index: nat
    var execute: nat
    var tExecute: nat
    var outputs: seq<Output>
    var pending: multiset<Callback>
    var halted: bool

    ghost function State(): Node
      reads this
    {
      Node(id, f, view, insts, log, index, execute, tExecute, outputs, pending, halted)
    }

    constructor (f: nat, id: PeerID, view: nat)
      ensures State() == Initial(f, id, view)
    {
      this.f, this.id, this.view := f, id, view;
      insts, log, index, execute, tExecute := [], map[], 0, 1, 1;
      outputs, pending, halted := [], multiset{}, false;
    }

    /** texec: run through the committed indices, putting out the commands with Meta. */
    method RunTExec()
      modifies this
      ensures State() == TExec(old(State()))
    {
      ghost var start := State();
      while tExecute in log && log[tExecute] < |insts| && insts[log[tExecute]].tStatus == TCommitted && insts[log[tExecute]].cmd.Some?
        invariant TExec(State()) == TExec(start)
        decreases |From(log, tExecute)|
      {
        FromShrinks(log, tExecute);
        ghost var before := State();
        var ref := log[tExecute];
        var cmd := insts[ref].cmd.value;
        if cmd.trusted {
          outputs := outputs + [Output(tExecute, cmd)];
        }
        insts := insts[ref := insts[ref].(tStatus := TExecuted)];
        tExecute := tExecute + 1;
        assert State() == TExecOne(before);
      }
    }

    /** exec: the same for the normal path and the commands without Meta. */
    method RunExec()
      modifies this
      ensures State() == Exec(old(State()))
    {
      ghost var start := State();
      while execute in log && log[execute] < |insts| && insts[log[execute]].status == Committed && insts[log[execute]].cmd.Some?
        invariant Exec(State()) == Exec(start)
        decreases |From(log, execute)|
      {
        FromShrinks(log, execute);
        ghost var before := State();
        var ref := log[execute];
        var cmd := insts[ref].cmd.value;
        if !cmd.trusted {
          outputs := outputs + [Output(execute, cmd)];
        }
        insts := insts[ref := insts[ref].(status := Executed)];
        execute := execute + 1;
        assert State() == ExecOne(before);
      }
    }

    /** What follows a first-phase message that has been logged. */
    method DoPromote(ref: nat, h: Option<Hash>)
      requires ref < |insts|
      modifies this
      ensures State() == Promote(old(State()), ref, h)
    {
      hide PromoteT, PromoteP;
      DoPromoteT(ref, h);
      DoPromoteP(ref, h);
    }

    method DoPromoteT(ref: nat, h: Option<Hash>)
      requires ref < |insts|
      modifies this
      ensures State() == PromoteT(old(State()), ref, h) && ref < |insts|
    {
      TExecSize(Put(State(), ref, insts[ref].(tStatus := TCommitted)));
      var enough := CountMajority(insts[ref].tc, f + 1, h);
      if insts[ref].tStatus == TPrepared && enough {
        insts := insts[ref := insts[ref].(tStatus := TCommitted)];
        RunTExec();
      }
    }

    method DoPromoteP(ref: nat, h: Option<Hash>)
      requires ref < |insts|
      modifies this
      ensures State() == PromoteP(old(State()), ref, h)
    {
      var enough := CountMajority(insts[ref].pc, 2 * f + 1, h);
      if insts[ref].status == Prepared && enough {
        pending := pending + multiset{CommitSigned(ref, insts[ref].hash)};
        insts := insts[ref := insts[ref].(status := PreCommitted)];
      }
    }

    /** What follows a commit that has been logged. */
    method DoCommit(ref: nat, h: Option<Hash>)
      requires ref < |insts|
      modifies this
      ensures State() == PromoteC(old(State()), ref, h)
    {
      var enough := CountMajority(insts[ref].cc, 2 * f + 1, h);
      if insts[ref].status == PreCommitted && enough {
        insts := insts[ref := insts[ref].(status := Committed)];
        RunExec();
      }
    }

    method FindInstance(i: nat, cmd: Option<Command>, hash: Option<Hash>) returns (ref: nat)
      modifies this
      ensures State() == Find(old(State()), i, cmd, hash)
      ensures i in log && log[i] == ref < |insts|
    {
      if !(i in log && log[i] < |insts|) {
        log := log[i := |insts|];
        insts := insts + [MakeInst(i, cmd, hash)];
      }
      ref := log[i];
    }

    method HandlePrepare(from: PeerID, i: nat, cmd: Option<Command>, hash: Option<Hash>)
      modifies this
      ensures State() == OnPrepare(old(State()), from, i, cmd, hash)
    {
      if from != view % (3 * f + 1) {
        return;
      }
      if cmd.None? || hash != Some(Of(cmd.value)) || i == 0 {
        halted := true;
        return;
      }
      var ref := FindInstance(i, cmd, hash);
      hide UpdateCommand, UpdateHash, LogBoth;
      var x := UpdateCommand(insts[ref], cmd.value);
      if x.Some? {
        x := UpdateHash(x.value, hash);
      }
      if x.Some? {
        x := LogBoth(x.value, from, hash);
      }
      if x.None? {
        halted := true;
        return;
      }
      insts := insts[ref := x.value.(status := Prepared, tStatus := TPrepared)];
      pending := pending + multiset{PrepareSigned(ref, x.value.hash)};
    }

    method HandlePreCommit(from: PeerID, i: nat, cmd: Option<Command>, hash: Option<Hash>)
      modifies this
      ensures State() == OnPreCommit(old(State()), from, i, cmd, hash)
    {
      if i == 0 {
        halted := true;
        return;
      }
      var ref := FindInstance(i, cmd, hash);
      var x := UpdateHash(insts[ref], hash);
      if x.Some? {
        x := LogBoth(x.value, from, hash);
      }
      if x.None? {
        halted := true;
        return;
      }
      insts := insts[ref := x.value];
      DoPromote(ref, hash);
    }

    method HandleCommit(from: PeerID, i: nat, cmd: Option<Command>, hash: Option<Hash>)
      modifies this
      ensures State() == OnCommit(old(State()), from, i, cmd, hash)
    {
      if i == 0 {
        halted := true;
        return;
      }
      var ref := FindInstance(i, cmd, hash);
      var x := UpdateHash(insts[ref], hash);
      if x.None? || LogIn(x.value.cc, from, hash).None? {
        halted := true;
        return;
      }
      insts := insts[ref := x.value.(cc := LogIn(x.value.cc, from, hash).value)];
      DoCommit(ref, hash);
    }

    method HandleRequest(cmd: Command)
      modifies this
      ensures State() == OnRequest(old(State()), cmd)
    {
      if view % (3 * f + 1) != id {
        return;
      }
      index := index + 1;
      var hash := Some(Of(cmd));
      log := log[index := |insts|];
      pending := pending + multiset{RequestSigned(|insts|, hash)};
      insts := insts + [Inst(index, Prepared, TPrepared, Some(cmd), hash, map[], map[], map[])];
    }

    /** The callback that onPrepare leaves behind. */
    method OnPrepareSignature(ref: nat, h: Option<Hash>)
      requires ref < |insts|
      modifies this
      ensures State() == OnPrepareSigned(old(State()), ref, h)
    {
      var x := LogBoth(insts[ref], id, h);
      if x.None? {
        halted := true;
        return;
      }
      insts := insts[ref := x.value];
      DoPromote(ref, h);
    }

    /** The callback of onRequest. */
    method OnRequestSignature(ref: nat, h: Option<Hash>)
      requires ref < |insts|
      modifies this
      ensures State() == OnRequestSigned(old(State()), ref, h)
    {
      var x := LogBoth(insts[ref], id, h);
      if x.None? {
        halted := true;
        return;
      }
      insts := insts[ref := x.value];
    }

    /** The callback of a commit's signature. */
    method OnCommitSignature(ref: nat, h: Option<Hash>)
      requires ref < |insts|
      modifies this
      ensures State() == OnCommitSigned(old(State()), ref, h)
    {
      var c := LogIn(insts[ref].cc, id, h);
      if c.None? {
        halted := true;
        return;
      }
      insts := insts[ref := insts[ref].(cc := c.value)];
      DoCommit(ref, h);
    }
  }
}
