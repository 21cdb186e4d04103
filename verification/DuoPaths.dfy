/** The two paths of DuoBFT, in every interleaving of messages, requests and signature callbacks: the normal path
    never overtakes the trusted one, and each command is output once, by its own path, in index order. */
module DuoPaths {
  import opened Quorums
  import opened DuoNode

  ghost predicate InstOK(x: Inst) {
    && x.tc == x.pc
    && (Rank(x.status) >= 2 ==> TRank(x.tStatus) >= 3)
    && (Rank(x.status) >= 1 <==> TRank(x.tStatus) >= 1)
    && (Rank(x.status) >= 1 ==> x.cmd.Some? && x.hash.Some?)
  }

  /** The log holds instance ref under its own index. */
  ghost predicate Current(s: Node, ref: nat) {
    ref < |s.insts| && s.insts[ref].index in s.log && s.log[s.insts[ref].index] == ref
  }

  ghost predicate LogOK(s: Node) {
    forall i :: i in s.log ==> i >= 1 && s.log[i] < |s.insts| && s.insts[s.log[i]].index == i
  }

  /** An instance that has been prepared is the one the log holds. */
  ghost predicate InstsOK(s: Node) {
    forall r: nat :: r < |s.insts| ==> InstOK(s.insts[r]) && (Rank(s.insts[r].status) >= 1 ==> Current(s, r))
  }

  /** Signatures are awaited for prepared instances only. */
  ghost predicate PendingOK(s: Node) {
    forall cb :: cb in s.pending ==> cb.ref < |s.insts| && Rank(s.insts[cb.ref].status) >= 1
  }

  ghost predicate RefsOK(s: Node) {
    LogOK(s) && InstsOK(s) && PendingOK(s)
  }

  /** Why no instance is prepared twice: the primary has used the index, the others have its Prepare. */
  ghost predicate OnceOK(s: Node) {
    forall r: nat :: r < |s.insts| && Rank(s.insts[r].status) >= 1 ==>
      if s.id == Primary(s) then s.insts[r].index <= s.index else Primary(s) in s.insts[r].tc
  }

  ghost predicate TCursorOK(s: Node) {
    && 1 <= s.tExecute
    && (forall i: nat :: 1 <= i < s.tExecute ==> Has(s, i) && At(s, i).tStatus == TExecuted)
    && (forall i: nat :: i >= s.tExecute && Has(s, i) ==> At(s, i).tStatus != TExecuted)
  }

  ghost predicate CursorOK(s: Node) {
    && 1 <= s.execute <= s.tExecute
    && (forall i: nat :: 1 <= i < s.execute ==> Has(s, i) && At(s, i).status == Executed)
    && (forall i: nat :: i >= s.execute && Has(s, i) ==> At(s, i).status != Executed)
  }

  /** The outputs of one of the two paths. */
  function OfPath(outs: seq<Output>, trusted: bool): seq<Output> {
    if outs == [] then []
    else OfPath(outs[..|outs| - 1], trusted) + if outs[|outs| - 1].cmd.trusted == trusted then [outs[|outs| - 1]] else []
  }

  /** What a path has to put out for the indices 1 .. n-1. */
  function Due(s: Node, n: nat, trusted: bool): seq<Output> {
    if n <= 1 then []
    else Due(s, n - 1, trusted) +
         if Has(s, n - 1) && At(s, n - 1).cmd.Some? && At(s, n - 1).cmd.value.trusted == trusted
         then [Output(n - 1, At(s, n - 1).cmd.value)] else []
  }

  ghost predicate OutputsOK(s: Node) {
    OfPath(s.outputs, true) == Due(s, s.tExecute, true) && OfPath(s.outputs, false) == Due(s, s.execute, false)
  }

  /** Everything but that the loops have run to their end. */
  ghost predicate Base(s: Node) {
    RefsOK(s) && OnceOK(s) && TCursorOK(s) && CursorOK(s) && OutputsOK(s)
  }

  ghost predicate NodeOK(s: Node) {
    Base(s) && !CanTExec(s) && !CanExec(s)
  }

  // ----- changing one instance

  /** A change that neither executes nor touches the command of a prepared instance. */
  ghost predicate Step(s: Node, ref: nat, x: Inst)
    requires ref < |s.insts|
  {
    var y := s.insts[ref];
    && x.index == y.index && InstOK(x) && (Rank(x.status) >= 1 ==> Current(s, ref)) && Rank(x.status) >= Rank(y.status)
    && (x.tStatus == TExecuted <==> y.tStatus == TExecuted) && (x.status == Executed <==> y.status == Executed)
    && (Rank(y.status) >= 1 ==> x.cmd == y.cmd)
    && (Rank(x.status) >= 1 ==> if s.id == Primary(s) then x.index <= s.index else Primary(s) in x.tc)
  }

  lemma {:induction false} DueFrame(s: Node, t: Node, n: nat, trusted: bool)
    requires forall i: nat :: 1 <= i < n ==> Has(s, i) && Has(t, i) && At(s, i).cmd == At(t, i).cmd
    ensures Due(s, n, trusted) == Due(t, n, trusted)
  {
    if n > 1 {
      DueFrame(s, t, n - 1, trusted);
    }
  }

  lemma PutBase(s: Node, ref: nat, x: Inst)
    requires Base(s) && ref < |s.insts| && Step(s, ref, x)
    ensures Base(Put(s, ref, x))
  {
    PutRefs(s, ref, x);
    PutCursors(s, ref, x);
    PutOutputs(s, ref, x);
  }

  lemma PutRefs(s: Node, ref: nat, x: Inst)
    requires RefsOK(s) && OnceOK(s) && ref < |s.insts| && Step(s, ref, x)
    ensures RefsOK(Put(s, ref, x)) && OnceOK(Put(s, ref, x))
  {
    var t := Put(s, ref, x);
    hide InstOK;
    assert LogOK(t) && PendingOK(t) && OnceOK(t);
    forall r: nat | r < |t.insts| ensures InstOK(t.insts[r]) && (Rank(t.insts[r].status) >= 1 ==> Current(t, r)) {
      assert InstOK(s.insts[r]) && (Rank(s.insts[r].status) >= 1 ==> Current(s, r));
    }
  }

  lemma PutOutputs(s: Node, ref: nat, x: Inst)
    requires InstsOK(s) && TCursorOK(s) && CursorOK(s) && OutputsOK(s) && ref < |s.insts| && Step(s, ref, x)
    ensures OutputsOK(Put(s, ref, x))
  {
    var t := Put(s, ref, x);
    forall i: nat | 1 <= i < s.tExecute ensures Has(s, i) && Has(t, i) && At(s, i).cmd == At(t, i).cmd {
      assert At(s, i).tStatus == TExecuted && InstOK(At(s, i));
    }
    hide InstsOK, Step, CursorOK, InstOK;
    assert 1 <= s.execute <= s.tExecute by { assert CursorOK(s); }
    DueFrame(s, t, s.tExecute, true);
    DueFrame(s, t, s.execute, false);
  }

  lemma PutCursors(s: Node, ref: nat, x: Inst)
    requires RefsOK(s) && TCursorOK(s) && CursorOK(s) && ref < |s.insts| && Step(s, ref, x)
    ensures TCursorOK(Put(s, ref, x)) && CursorOK(Put(s, ref, x))
  {
    hide Step, RefsOK;
    var t := Put(s, ref, x);
    assert (x.tStatus == TExecuted <==> s.insts[ref].tStatus == TExecuted) && (x.status == Executed <==> s.insts[ref].status == Executed) by {
      StepStatus(s, ref, x);
    }
    forall i: nat | Has(s, i) ensures Has(t, i) && (At(t, i).tStatus == TExecuted <==> At(s, i).tStatus == TExecuted)
                                      && (At(t, i).status == Executed <==> At(s, i).status == Executed) {
    }
  }

  lemma StepStatus(s: Node, ref: nat, x: Inst)
    requires ref < |s.insts| && Step(s, ref, x)
    ensures x.tStatus == TExecuted <==> s.insts[ref].tStatus == TExecuted
    ensures x.status == Executed <==> s.insts[ref].status == Executed
  {
  }

  /** A new instance under an index that no prepared instance has. */
  lemma AddBase(s: Node, x: Inst)
    requires Base(s) && x.index >= 1 && InstOK(x) && Rank(x.status) <= 1 && (x.tStatus == TNone || x.tStatus == TPrepared)
    requires x.index in s.log ==> Rank(s.insts[s.log[x.index]].status) == 0
    requires Rank(x.status) >= 1 ==> if s.id == Primary(s) then x.index <= s.index else Primary(s) in x.tc
    ensures Base(Add(s, x))
  {
    AddRefs(s, x);
    AddCursors(s, x);
    AddOutputs(s, x);
  }

  lemma NotPassed(s: Node, i: nat)
    requires InstsOK(s) && TCursorOK(s) && CursorOK(s) && i >= 1 && (i in s.log ==> s.log[i] < |s.insts| && Rank(s.insts[s.log[i]].status) == 0)
    ensures i >= s.tExecute && i >= s.execute
  {
    assert i < s.tExecute ==> Has(s, i);
    assert i in s.log ==> InstOK(s.insts[s.log[i]]);
  }

  lemma AddAt(s: Node, x: Inst)
    requires LogOK(s)
    ensures var t := Add(s, x);
      && Has(t, x.index) && At(t, x.index) == x
      && forall i: nat :: Has(s, i) && i != x.index ==> Has(t, i) && At(t, i) == At(s, i)
    ensures forall i: nat :: Has(Add(s, x), i) && i != x.index ==> Has(s, i)
  {
  }

  lemma AddCursors(s: Node, x: Inst)
    requires RefsOK(s) && TCursorOK(s) && CursorOK(s) && x.index >= 1 && x.tStatus != TExecuted && x.status != Executed
    requires x.index in s.log ==> Rank(s.insts[s.log[x.index]].status) == 0
    ensures TCursorOK(Add(s, x)) && CursorOK(Add(s, x))
  {
    NotPassed(s, x.index);
    AddAt(s, x);
    hide RefsOK, Has, At, Add;
  }

  lemma AddOutputs(s: Node, x: Inst)
    requires RefsOK(s) && TCursorOK(s) && CursorOK(s) && OutputsOK(s) && x.index >= 1
    requires x.index in s.log ==> Rank(s.insts[s.log[x.index]].status) == 0
    ensures OutputsOK(Add(s, x))
  {
    NotPassed(s, x.index);
    AddAt(s, x);
    var t := Add(s, x);
    assert t.outputs == s.outputs && t.execute == s.execute && t.tExecute == s.tExecute;
    hide RefsOK, Has, At, Add;
    DueFrame(s, t, s.tExecute, true);
    DueFrame(s, t, s.execute, false);
  }

  lemma AddRefs(s: Node, x: Inst)
    requires RefsOK(s) && OnceOK(s) && x.index >= 1 && InstOK(x)
    requires x.index in s.log ==> Rank(s.insts[s.log[x.index]].status) == 0
    requires Rank(x.status) >= 1 ==> if s.id == Primary(s) then x.index <= s.index else Primary(s) in x.tc
    ensures RefsOK(Add(s, x)) && OnceOK(Add(s, x))
  {
    hide InstOK, Rank;
    AddOnce(s, x);
    AddCurrent(s, x);
  }

  lemma AddOnce(s: Node, x: Inst)
    requires LogOK(s) && PendingOK(s) && OnceOK(s) && x.index >= 1
    requires Rank(x.status) >= 1 ==> if s.id == Primary(s) then x.index <= s.index else Primary(s) in x.tc
    ensures LogOK(Add(s, x)) && PendingOK(Add(s, x)) && OnceOK(Add(s, x))
  {
  }

  lemma AddCurrent(s: Node, x: Inst)
    requires LogOK(s) && InstsOK(s) && InstOK(x)
    requires x.index in s.log ==> Rank(s.insts[s.log[x.index]].status) == 0
    ensures InstsOK(Add(s, x))
  {
  }

  // ----- the loops

  /** What the trusted loop leaves alone. */
  ghost predicate TSame(s: Node, t: Node) {
    && t.id == s.id && t.f == s.f && t.view == s.view && t.log == s.log && t.index == s.index && t.execute == s.execute
    && t.pending == s.pending && t.halted == s.halted && |t.insts| == |s.insts|
    && forall r: nat :: r < |s.insts| ==>
         t.insts[r] == s.insts[r].(tStatus := t.insts[r].tStatus) && TRank(t.insts[r].tStatus) >= TRank(s.insts[r].tStatus)
  }

  lemma TExecOneKeeps(s: Node)
    requires Base(s) && CanTExec(s)
    ensures Base(TExecOne(s)) && TSame(s, TExecOne(s))
  {
    TExecFields(s);
    TExecAts(s);
    TExecRefs(s);
    TExecCursors(s, TExecOne(s));
    TExecOutputs(s, TExecOne(s));
  }

  lemma TExecFields(s: Node)
    requires CanTExec(s)
    ensures TExecOne(s).tExecute == s.tExecute + 1 && TExecOne(s).execute == s.execute && TSame(s, TExecOne(s))
  {
  }

  lemma TExecAts(s: Node)
    requires LogOK(s) && CanTExec(s)
    ensures var t := TExecOne(s);
      && (forall i: nat :: Has(s, i) <==> Has(t, i))
      && (forall i: nat :: Has(s, i) && i != s.tExecute ==> At(t, i) == At(s, i))
      && Has(t, s.tExecute) && At(t, s.tExecute) == At(s, s.tExecute).(tStatus := TExecuted)
  {
  }

  lemma TExecCursors(s: Node, t: Node)
    requires TCursorOK(s) && CursorOK(s) && t.tExecute == s.tExecute + 1 && t.execute == s.execute
    requires forall i: nat :: Has(s, i) <==> Has(t, i)
    requires forall i: nat :: Has(s, i) && i != s.tExecute ==> At(t, i) == At(s, i)
    requires Has(s, s.tExecute) && Has(t, s.tExecute) && At(t, s.tExecute) == At(s, s.tExecute).(tStatus := TExecuted)
    ensures TCursorOK(t) && CursorOK(t)
  {
  }

  lemma TExecRefs(s: Node)
    requires RefsOK(s) && OnceOK(s) && CanTExec(s)
    ensures RefsOK(TExecOne(s)) && OnceOK(TExecOne(s))
  {
    var t, x := TExecOne(s), At(s, s.tExecute);
    assert InstOK(x);
    assert LogOK(t) && PendingOK(t) && OnceOK(t);
    forall r: nat | r < |t.insts| ensures InstOK(t.insts[r]) && (Rank(t.insts[r].status) >= 1 ==> Current(t, r)) {
      assert InstOK(s.insts[r]) && (Rank(s.insts[r].status) >= 1 ==> Current(s, r));
    }
  }

  lemma OutputAdded(outs: seq<Output>, o: Output, trusted: bool)
    ensures OfPath(outs + [o], trusted) == OfPath(outs, trusted) + if o.cmd.trusted == trusted then [o] else []
  {
  }

  lemma TExecOutputs(s: Node, t: Node)
    requires OutputsOK(s) && LogOK(s) && CanTExec(s) && t == TExecOne(s) && s.execute <= s.tExecute && s.tExecute >= 1
    requires forall i: nat :: 1 <= i < s.tExecute ==> Has(s, i)
    requires forall i: nat :: Has(s, i) && i != s.tExecute ==> Has(t, i) && At(t, i) == At(s, i)
    ensures OutputsOK(t)
  {
    hide TExecOne, Due, OfPath, LogOK;
    var x := At(s, s.tExecute);
    var o := Output(s.tExecute, x.cmd.value);
    TExecOneIs(s);
    OutputAdded(s.outputs, o, true);
    OutputAdded(s.outputs, o, false);
    DueFrame(s, t, s.tExecute, true);
    DueFrame(s, t, s.execute, false);
    DueUnfold(t, s.tExecute + 1, true);
    assert s.outputs + [] == s.outputs;
  }

  lemma TExecOneIs(s: Node)
    requires LogOK(s) && CanTExec(s)
    ensures var t, x := TExecOne(s), At(s, s.tExecute);
      && x.cmd.Some? && Has(t, s.tExecute) && At(t, s.tExecute).cmd == x.cmd && t.tExecute == s.tExecute + 1 && t.execute == s.execute
      && t.outputs == s.outputs + if x.cmd.value.trusted then [Output(s.tExecute, x.cmd.value)] else []
  {
  }

  lemma TSameTransitive(s: Node, t: Node, u: Node)
    requires TSame(s, t) && TSame(t, u)
    ensures TSame(s, u)
  {
  }

  lemma {:induction false} TExecKeeps(s: Node)
    requires Base(s)
    ensures Base(TExec(s)) && !CanTExec(TExec(s)) && TSame(s, TExec(s))
    decreases |From(s.log, s.tExecute)|
  {
    hide Base, TExecOne, CanTExec;
    if CanTExec(s) {
      FromShrinks(s.log, s.tExecute) by { assert CanTExec(s) ==> s.tExecute in s.log by { InLog(s); } }
      TExecOneKeeps(s);
      TExecStep(s);
      TExecKeeps(TExecOne(s));
      TSameTransitive(s, TExecOne(s), TExec(TExecOne(s)));
    }
  }

  lemma InLog(s: Node)
    ensures CanTExec(s) ==> s.tExecute in s.log
    ensures CanExec(s) ==> s.execute in s.log
  {
  }

  lemma TExecStep(s: Node)
    requires CanTExec(s)
    ensures TExecOne(s).log == s.log && TExecOne(s).tExecute == s.tExecute + 1
  {
  }

  /** What the normal loop leaves alone. */
  ghost predicate PSame(s: Node, t: Node) {
    && t.id == s.id && t.f == s.f && t.view == s.view && t.log == s.log && t.index == s.index && t.tExecute == s.tExecute
    && t.pending == s.pending && t.halted == s.halted && |t.insts| == |s.insts|
    && forall r: nat :: r < |s.insts| ==>
         t.insts[r] == s.insts[r].(status := t.insts[r].status) && Rank(t.insts[r].status) >= Rank(s.insts[r].status)
  }

  /** The normal path is never ahead: whatever it may execute, the trusted path has passed. */
  lemma ExecOneKeeps(s: Node)
    requires Base(s) && CanExec(s) && !CanTExec(s)
    ensures Base(ExecOne(s)) && PSame(s, ExecOne(s)) && !CanTExec(ExecOne(s)) && s.execute < s.tExecute
  {
    assert InstOK(At(s, s.execute)) && At(s, s.execute).index == s.execute;
    assert s.execute < s.tExecute;
    ExecFields(s);
    ExecAts(s);
    ExecRefs(s);
    hide InstOK;
    ExecCursors(s, ExecOne(s));
    ExecOutputs(s, ExecOne(s));
    assert Has(s, s.tExecute) <==> Has(ExecOne(s), s.tExecute);
  }

  lemma ExecFields(s: Node)
    requires CanExec(s)
    ensures ExecOne(s).execute == s.execute + 1 && ExecOne(s).tExecute == s.tExecute && ExecOne(s).log == s.log && PSame(s, ExecOne(s))
  {
  }

  lemma ExecAts(s: Node)
    requires LogOK(s) && CanExec(s)
    ensures var t := ExecOne(s);
      && (forall i: nat :: Has(s, i) <==> Has(t, i))
      && (forall i: nat :: Has(s, i) && i != s.execute ==> At(t, i) == At(s, i))
      && Has(t, s.execute) && At(t, s.execute) == At(s, s.execute).(status := Executed)
  {
  }

  lemma ExecCursors(s: Node, t: Node)
    requires TCursorOK(s) && CursorOK(s) && t.execute == s.execute + 1 && t.tExecute == s.tExecute && s.execute < s.tExecute
    requires forall i: nat :: Has(s, i) <==> Has(t, i)
    requires forall i: nat :: Has(s, i) && i != s.execute ==> At(t, i) == At(s, i)
    requires Has(s, s.execute) && Has(t, s.execute) && At(t, s.execute) == At(s, s.execute).(status := Executed)
    ensures TCursorOK(t) && CursorOK(t)
  {
  }

  lemma ExecRefs(s: Node)
    requires RefsOK(s) && OnceOK(s) && CanExec(s)
    ensures RefsOK(ExecOne(s)) && OnceOK(ExecOne(s))
  {
    var t, x := ExecOne(s), At(s, s.execute);
    assert InstOK(x) && InstOK(x.(status := Executed));
    hide InstOK;
    assert LogOK(t) && PendingOK(t) && OnceOK(t);
    forall r: nat | r < |t.insts| ensures InstOK(t.insts[r]) && (Rank(t.insts[r].status) >= 1 ==> Current(t, r)) {
      assert InstOK(s.insts[r]) && (Rank(s.insts[r].status) >= 1 ==> Current(s, r));
    }
  }

  lemma ExecOutputs(s: Node, t: Node)
    requires OutputsOK(s) && LogOK(s) && CanExec(s) && t == ExecOne(s) && 1 <= s.execute < s.tExecute
    requires forall i: nat :: 1 <= i < s.tExecute ==> Has(s, i)
    requires forall i: nat :: Has(s, i) && i != s.execute ==> Has(t, i) && At(t, i) == At(s, i)
    ensures OutputsOK(t)
  {
    hide ExecOne, Due, OfPath, LogOK;
    var x := At(s, s.execute);
    var o := Output(s.execute, x.cmd.value);
    ExecOneIs(s);
    OutputAdded(s.outputs, o, true);
    OutputAdded(s.outputs, o, false);
    DueFrame(s, t, s.tExecute, true);
    DueFrame(s, t, s.execute, false);
    DueUnfold(t, s.execute + 1, false);
    assert s.outputs + [] == s.outputs;
  }

  lemma ExecOneIs(s: Node)
    requires LogOK(s) && CanExec(s)
    ensures var t, x := ExecOne(s), At(s, s.execute);
      && x.cmd.Some? && Has(t, s.execute) && At(t, s.execute).cmd == x.cmd && t.execute == s.execute + 1 && t.tExecute == s.tExecute
      && t.outputs == s.outputs + if !x.cmd.value.trusted then [Output(s.execute, x.cmd.value)] else []
  {
  }

  lemma DueUnfold(s: Node, n: nat, trusted: bool)
    requires n > 1
    ensures Due(s, n, trusted) == Due(s, n - 1, trusted) +
      if Has(s, n - 1) && At(s, n - 1).cmd.Some? && At(s, n - 1).cmd.value.trusted == trusted
      then [Output(n - 1, At(s, n - 1).cmd.value)] else []
  {
  }

  lemma {:induction false} ExecKeeps(s: Node)
    requires Base(s) && !CanTExec(s)
    ensures NodeOK(Exec(s))
    decreases |From(s.log, s.execute)|
  {
    hide Base, ExecOne, CanTExec, CanExec;
    if CanExec(s) {
      InLog(s);
      FromShrinks(s.log, s.execute);
      ExecOneKeeps(s);
      ExecFields(s);
      ExecKeeps(ExecOne(s));
    }
  }

  // ----- the promotions

  /** Changes of what is pending, of the index counter and of being halted. */
  lemma Outside(s: Node, t: Node)
    requires Base(s) && t == s.(pending := t.pending, index := t.index, halted := t.halted) && t.index >= s.index && PendingOK(t)
    ensures Base(t) && CanTExec(t) == CanTExec(s) && CanExec(t) == CanExec(s)
  {
    assert LogOK(t) && InstsOK(t) && OnceOK(t);
    DueFrame(s, t, s.tExecute, true) by { Passed(s); }
    DueFrame(s, t, s.execute, false) by { Passed(s); }
    assert TCursorOK(t) && CursorOK(t) by {
      hide RefsOK, OnceOK, OutputsOK;
      assert forall i: nat :: Has(t, i) == Has(s, i) && (Has(s, i) ==> At(t, i) == At(s, i));
      hide Has, At;
    }
  }

  lemma Passed(s: Node)
    requires TCursorOK(s) && CursorOK(s)
    ensures forall i: nat :: 1 <= i < s.tExecute ==> Has(s, i)
    ensures forall i: nat :: 1 <= i < s.execute ==> Has(s, i)
  {
  }

  /** A change of one instance that does not commit it leaves both loops where they are. */
  lemma PutIdle(s: Node, ref: nat, x: Inst)
    requires NodeOK(s) && ref < |s.insts| && Step(s, ref, x)
    requires x.tStatus == TCommitted ==> s.insts[ref].tStatus == TCommitted
    requires x.status == Committed ==> s.insts[ref].status == Committed
    ensures NodeOK(Put(s, ref, x))
  {
    PutBase(s, ref, x);
    assert InstOK(s.insts[ref]);
    assert CanTExec(Put(s, ref, x)) ==> CanTExec(s) by { hide Base; }
    assert CanExec(Put(s, ref, x)) ==> CanExec(s) by { hide Base; }
  }

  lemma PromoteTKeeps(s: Node, ref: nat, h: Option<Hash>)
    requires NodeOK(s) && ref < |s.insts|
    ensures var t := PromoteT(s, ref, h);
      && NodeOK(t) && TSame(s, t)
      && (t.insts[ref].tStatus == TPrepared ==> !Majority(t.insts[ref].tc, t.f + 1, h))
  {
    var x := s.insts[ref];
    assert TSame(s, s) by { hide NodeOK; }
    if x.tStatus == TPrepared && Majority(x.tc, s.f + 1, h) {
      TCommits(s, ref);
      hide NodeOK, Base, Majority, TSame, CanTExec, CanExec;
      var u := Put(s, ref, x.(tStatus := TCommitted));
      TExecKeeps(u);
      TSameTransitive(s, u, TExec(u));
      SameCanExec(u, TExec(u));
      assert NodeOK(TExec(u));
      SameStatus(u, TExec(u), ref);
    }
  }

  lemma SameStatus(s: Node, t: Node, ref: nat)
    requires ref < |s.insts| && TSame(s, t) && s.insts[ref].tStatus == TCommitted
    ensures t.insts[ref].tStatus != TPrepared
  {
  }

  lemma TCommits(s: Node, ref: nat)
    requires NodeOK(s) && ref < |s.insts| && s.insts[ref].tStatus == TPrepared
    ensures var u := Put(s, ref, s.insts[ref].(tStatus := TCommitted)); Base(u) && TSame(s, u) && !CanExec(u)
  {
    PreparedStep(s, ref);
    PutBase(s, ref, s.insts[ref].(tStatus := TCommitted));
    hide Base, Step;
  }

  lemma SameCanExec(s: Node, t: Node)
    requires TSame(s, t) && !CanExec(s)
    ensures !CanExec(t)
  {
  }

  lemma PreparedStep(s: Node, ref: nat)
    requires Base(s) && ref < |s.insts| && s.insts[ref].tStatus == TPrepared
    ensures Step(s, ref, s.insts[ref].(tStatus := TCommitted))
  {
  }

  lemma PromotePKeeps(s: Node, ref: nat, h: Option<Hash>)
    requires NodeOK(s) && ref < |s.insts|
    requires s.insts[ref].tStatus == TPrepared ==> !Majority(s.insts[ref].tc, s.f + 1, h)
    ensures NodeOK(PromoteP(s, ref, h))
  {
    var x := s.insts[ref];
    if x.status == Prepared && Majority(x.pc, 2 * s.f + 1, h) {
      var y := x.(status := PreCommitted);
      RaisedStep(s, ref, y, h);
      hide Majority, Step;
      PutIdle(s, ref, y);
      var t := Put(s, ref, y);
      hide Base, CanTExec, CanExec;
      AwaitSignature(t, PromoteP(s, ref, h), CommitSigned(ref, x.hash));
    }
  }

  /** 2f+1 matching messages are also f+1, in the same certificate: by now the trusted path has them. */
  lemma RaisedStep(s: Node, ref: nat, y: Inst, h: Option<Hash>)
    requires InstsOK(s) && OnceOK(s) && ref < |s.insts|
    requires var x := s.insts[ref];
      || (x.status == Prepared && y == x.(status := PreCommitted) && Majority(x.pc, 2 * s.f + 1, h)
          && (x.tStatus == TPrepared ==> !Majority(x.tc, s.f + 1, h)))
      || (x.status == PreCommitted && y == x.(status := Committed))
    ensures Step(s, ref, y)
  {
  }

  lemma AwaitSignature(s: Node, t: Node, cb: Callback)
    requires NodeOK(s) && cb.ref < |s.insts| && Rank(s.insts[cb.ref].status) >= 1
    requires t == s.(pending := s.pending + multiset{cb})
    ensures NodeOK(t)
  {
    assert PendingOK(t) by { assert PendingOK(s); hide NodeOK; }
    hide CanTExec, CanExec;
    Outside(s, t) by { hide Base; }
  }

  lemma PromoteKeeps(s: Node, ref: nat, h: Option<Hash>)
    requires NodeOK(s) && ref < |s.insts|
    ensures NodeOK(Promote(s, ref, h))
  {
    hide NodeOK, PromoteT, PromoteP, TExec;
    PromoteTKeeps(s, ref, h);
    PromotePKeeps(PromoteT(s, ref, h), ref, h);
  }

  lemma PromoteCKeeps(s: Node, ref: nat, h: Option<Hash>)
    requires NodeOK(s) && ref < |s.insts|
    ensures NodeOK(PromoteC(s, ref, h))
  {
    var x := s.insts[ref];
    if x.status == PreCommitted && Majority(x.cc, 2 * s.f + 1, h) {
      var y := x.(status := Committed);
      RaisedStep(s, ref, y, h);
      hide Majority, Step;
      PutBase(s, ref, y);
      hide Base;
      assert !CanTExec(Put(s, ref, y));
      hide CanTExec, CanExec, Put;
      ExecKeeps(Put(s, ref, y));
    }
  }

  // ----- the handlers

  lemma Halts(s: Node)
    requires NodeOK(s)
    ensures NodeOK(Halt(s))
  {
    assert PendingOK(Halt(s)) by { assert PendingOK(s); hide NodeOK; }
    hide CanTExec, CanExec;
    Outside(s, Halt(s)) by { hide Base; }
  }

  /** The signature has come back. */
  lemma Returned(s: Node, cb: Callback)
    requires NodeOK(s) && cb in s.pending
    ensures NodeOK(s.(pending := s.pending - multiset{cb}))
  {
    var t := s.(pending := s.pending - multiset{cb});
    assert PendingOK(t) by { assert PendingOK(s); hide NodeOK; }
    hide CanTExec, CanExec;
    Outside(s, t) by { hide Base; }
  }

  /** Looking an instance up, or creating it. */
  lemma FindKeeps(s: Node, i: nat, cmd: Option<Command>, hash: Option<Hash>)
    requires NodeOK(s) && i >= 1
    ensures var t := Find(s, i, cmd, hash);
      NodeOK(t) && Has(t, i) && At(t, i).index == i && t.id == s.id && Primary(t) == Primary(s)
  {
    if Has(s, i) {
      assert LogOK(s) by { hide CanTExec, CanExec; }
    } else {
      var x := MakeInst(i, cmd, hash);
      assert i !in s.log by { assert LogOK(s); }
      AddBase(s, x);
      AddIdle(s, x);
    }
  }

  lemma AddIdle(s: Node, x: Inst)
    requires LogOK(s) && !CanTExec(s) && !CanExec(s) && x.tStatus != TCommitted && x.status != Committed
    ensures !CanTExec(Add(s, x)) && !CanExec(Add(s, x))
  {
  }

  /** Logging first-phase messages, and a hash, keeps the statuses. */
  lemma LoggedStep(s: Node, ref: nat, from: PeerID, h: Option<Hash>, y: Inst)
    requires InstsOK(s) && OnceOK(s) && ref < |s.insts| && LogBoth(y, from, h).Some?
    requires y == s.insts[ref] || UpdateHash(s.insts[ref], h) == Some(y)
    ensures Step(s, ref, LogBoth(y, from, h).value)
  {
  }

  lemma OnPrepareSignedKeeps(s: Node, ref: nat, h: Option<Hash>)
    requires NodeOK(s) && ref < |s.insts|
    ensures NodeOK(OnPrepareSigned(s, ref, h))
  {
    var r := LogBoth(s.insts[ref], s.id, h);
    hide CanTExec, CanExec, Promote;
    if r.Some? {
      LoggedStep(s, ref, s.id, h, s.insts[ref]);
      hide Base, Step;
      PutIdle(s, ref, r.value);
      PromoteKeeps(Put(s, ref, r.value), ref, h);
    } else {
      Halts(s);
    }
  }

  lemma OnRequestSignedKeeps(s: Node, ref: nat, h: Option<Hash>)
    requires NodeOK(s) && ref < |s.insts|
    ensures NodeOK(OnRequestSigned(s, ref, h))
  {
    var r := LogBoth(s.insts[ref], s.id, h);
    hide CanTExec, CanExec;
    if r.Some? {
      LoggedStep(s, ref, s.id, h, s.insts[ref]);
      hide Base, Step;
      PutIdle(s, ref, r.value);
    } else {
      Halts(s);
    }
  }

  lemma OnPreCommitKeeps(s: Node, from: PeerID, i: nat, cmd: Option<Command>, hash: Option<Hash>)
    requires NodeOK(s)
    ensures NodeOK(OnPreCommit(s, from, i, cmd, hash))
  {
    hide NodeOK, PreCommitAt, Find;
    Halts(s);
    if i >= 1 {
      FindKeeps(s, i, cmd, hash);
      var t := Find(s, i, cmd, hash);
      PreCommitAtKeeps(t, t.log[i], from, hash);
    }
  }

  lemma PreCommitAtKeeps(s: Node, ref: nat, from: PeerID, hash: Option<Hash>)
    requires NodeOK(s) && ref < |s.insts|
    ensures NodeOK(PreCommitAt(s, ref, from, hash))
  {
    hide CanTExec, CanExec, Promote;
    Halts(s);
    var y := UpdateHash(s.insts[ref], hash);
    if y.Some? && LogBoth(y.value, from, hash).Some? {
      var z := LogBoth(y.value, from, hash).value;
      LoggedStep(s, ref, from, hash, y.value);
      hide Base, Step;
      PutIdle(s, ref, z);
      PromoteKeeps(Put(s, ref, z), ref, hash);
    }
  }

  lemma CommitLogged(s: Node, ref: nat, h: Option<Hash>, y: Inst, c: Cert)
    requires InstsOK(s) && OnceOK(s) && ref < |s.insts|
    requires y == s.insts[ref] || UpdateHash(s.insts[ref], h) == Some(y)
    ensures Step(s, ref, y.(cc := c))
  {
  }

  lemma OnCommitKeeps(s: Node, from: PeerID, i: nat, cmd: Option<Command>, hash: Option<Hash>)
    requires NodeOK(s)
    ensures NodeOK(OnCommit(s, from, i, cmd, hash))
  {
    hide NodeOK, CommitAt, Find;
    Halts(s);
    if i >= 1 {
      FindKeeps(s, i, cmd, hash);
      var t := Find(s, i, cmd, hash);
      CommitAtKeeps(t, t.log[i], from, hash);
    }
  }

  lemma CommitAtKeeps(s: Node, ref: nat, from: PeerID, hash: Option<Hash>)
    requires NodeOK(s) && ref < |s.insts|
    ensures NodeOK(CommitAt(s, ref, from, hash))
  {
    hide CanTExec, CanExec, PromoteC;
    Halts(s);
    var y := UpdateHash(s.insts[ref], hash);
    if y.Some? && LogIn(y.value.cc, from, hash).Some? {
      var z := y.value.(cc := LogIn(y.value.cc, from, hash).value);
      CommitLogged(s, ref, hash, y.value, z.cc);
      hide Base, Step;
      PutIdle(s, ref, z);
      PromoteCKeeps(Put(s, ref, z), ref, hash);
    }
  }

  lemma OnCommitSignedKeeps(s: Node, ref: nat, h: Option<Hash>)
    requires NodeOK(s) && ref < |s.insts|
    ensures NodeOK(OnCommitSigned(s, ref, h))
  {
    var c := LogIn(s.insts[ref].cc, s.id, h);
    hide CanTExec, CanExec, PromoteC;
    if c.Some? {
      CommitLogged(s, ref, h, s.insts[ref], c.value);
      hide Base, Step;
      PutIdle(s, ref, s.insts[ref].(cc := c.value));
      PromoteCKeeps(Put(s, ref, s.insts[ref].(cc := c.value)), ref, h);
    } else {
      Halts(s);
    }
  }

  /** A Prepare gets through only where the primary's message is not logged yet, so never twice. */
  lemma OnPrepareKeeps(s: Node, from: PeerID, i: nat, cmd: Option<Command>, hash: Option<Hash>)
    requires NodeOK(s) && from != s.id
    ensures NodeOK(OnPrepare(s, from, i, cmd, hash))
  {
    hide NodeOK, PrepareAt, Find;
    Halts(s);
    if from == Primary(s) && cmd.Some? && hash == Some(Of(cmd.value)) && i >= 1 {
      FindKeeps(s, i, cmd, hash);
      var t := Find(s, i, cmd, hash);
      PrepareAtKeeps(t, t.log[i], from, cmd.value, hash);
    }
  }

  lemma PrepareAtKeeps(s: Node, ref: nat, from: PeerID, cmd: Command, hash: Option<Hash>)
    requires NodeOK(s) && ref < |s.insts| && s.insts[ref].index in s.log && s.log[s.insts[ref].index] == ref
    requires from == Primary(s) && from != s.id && hash.Some?
    ensures NodeOK(PrepareAt(s, ref, from, cmd, hash))
  {
    hide CanTExec, CanExec;
    Halts(s);
    var x := UpdateCommand(s.insts[ref], cmd);
    if x.Some? && UpdateHash(x.value, hash).Some? && LogBoth(UpdateHash(x.value, hash).value, from, hash).Some? {
      var z := LogBoth(UpdateHash(x.value, hash).value, from, hash).value.(status := Prepared, tStatus := TPrepared);
      PreparedFirst(s, ref, from, cmd, hash, z);
      hide Base, Step, LogBoth, UpdateHash, UpdateCommand;
      PutIdle(s, ref, z);
      AwaitSignature(Put(s, ref, z), PrepareAt(s, ref, from, cmd, hash), PrepareSigned(ref, z.hash));
    }
  }

  lemma PreparedFirst(s: Node, ref: nat, from: PeerID, cmd: Command, hash: Option<Hash>, z: Inst)
    requires InstsOK(s) && OnceOK(s) && ref < |s.insts| && s.insts[ref].index in s.log && s.log[s.insts[ref].index] == ref
    requires from == Primary(s) && from != s.id && hash.Some?
    requires var x := UpdateCommand(s.insts[ref], cmd);
      && x.Some? && UpdateHash(x.value, hash).Some? && LogBoth(UpdateHash(x.value, hash).value, from, hash).Some?
      && z == LogBoth(UpdateHash(x.value, hash).value, from, hash).value.(status := Prepared, tStatus := TPrepared)
    ensures Step(s, ref, z) && Rank(s.insts[ref].status) == 0
  {
  }

  /** A request takes an index that is still unused, and the instance it replaces has not been prepared. */
  lemma OnRequestKeeps(s: Node, cmd: Command)
    requires NodeOK(s)
    ensures NodeOK(OnRequest(s, cmd))
  {
    if s.id == Primary(s) {
      var i, hash := s.index + 1, Some(Of(cmd));
      var t := s.(index := i);
      assert PendingOK(t) by { assert PendingOK(s); hide NodeOK; }
      Outside(s, t) by { hide CanTExec, CanExec; }
      var x := MakeInst(i, Some(cmd), hash).(status := Prepared, tStatus := TPrepared);
      UnusedIndex(s);
      hide CanTExec, CanExec;
      AddBase(t, x) by { hide Base; }
      AddIdle(t, x);
      var u := Add(t, x);
      hide Base;
      assert u.insts[|s.insts|] == x;
      AwaitSignature(u, OnRequest(s, cmd), RequestSigned(|s.insts|, hash));
    }
  }

  lemma UnusedIndex(s: Node)
    requires LogOK(s) && OnceOK(s) && s.id == Primary(s)
    ensures s.index + 1 in s.log ==> Rank(s.insts[s.log[s.index + 1]].status) == 0
  {
  }

  // ----- runs

  lemma StepKeeps(s: Node, ev: Event)
    requires NodeOK(s) && Enabled(s, ev)
    ensures NodeOK(After(s, ev))
  {
    hide NodeOK, OnPrepare, OnPreCommit, OnCommit, OnRequest, OnPrepareSigned, OnCommitSigned, OnRequestSigned;
    if !s.halted {
      match ev
      case Request(cmd) => OnRequestKeeps(s, cmd);
      case Callback(cb) =>
        Returned(s, cb);
        CallbackKeeps(s.(pending := s.pending - multiset{cb}), cb);
      case Deliver(from, m) =>
        match m {
          case Prepare(i, cmd, hash) => OnPrepareKeeps(s, from, i, cmd, hash);
          case PreCommit(i, cmd, hash) => OnPreCommitKeeps(s, from, i, cmd, hash);
          case Commit(i, cmd, hash) => OnCommitKeeps(s, from, i, cmd, hash);
        }
    }
  }

  lemma CallbackKeeps(s: Node, cb: Callback)
    requires NodeOK(s) && cb.ref < |s.insts|
    ensures cb.PrepareSigned? ==> NodeOK(OnPrepareSigned(s, cb.ref, cb.hash))
    ensures cb.CommitSigned? ==> NodeOK(OnCommitSigned(s, cb.ref, cb.hash))
    ensures cb.RequestSigned? ==> NodeOK(OnRequestSigned(s, cb.ref, cb.hash))
  {
    hide NodeOK;
    OnPrepareSignedKeeps(s, cb.ref, cb.hash);
    OnCommitSignedKeeps(s, cb.ref, cb.hash);
    OnRequestSignedKeeps(s, cb.ref, cb.hash);
  }

  predicate ValidRun(s: Node, evs: seq<Event>)
    decreases |evs|
  {
    evs == [] || (Enabled(s, evs[0]) && ValidRun(After(s, evs[0]), evs[1..]))
  }

  function RunEnds(s: Node, evs: seq<Event>): Node
    requires ValidRun(s, evs)
    decreases |evs|
  {
    if evs == [] then s else RunEnds(After(s, evs[0]), evs[1..])
  }

  lemma {:induction false} RunKeeps(s: Node, evs: seq<Event>)
    requires NodeOK(s) && ValidRun(s, evs)
    ensures NodeOK(RunEnds(s, evs))
    decreases |evs|
  {
    hide NodeOK, After;
    if evs != [] {
      StepKeeps(s, evs[0]);
      RunKeeps(After(s, evs[0]), evs[1..]);
    }
  }

  lemma InitialOK(f: nat, id: PeerID, view: nat)
    ensures NodeOK(Initial(f, id, view))
  {
  }

  /** Path inclusion: after any run, what the normal path has pre-committed the trusted path has committed,
      and the normal path has not executed further than the trusted one. */
  lemma PathInclusion(f: nat, id: PeerID, view: nat, evs: seq<Event>, r: nat)
    requires ValidRun(Initial(f, id, view), evs)
    ensures var s := RunEnds(Initial(f, id, view), evs);
      && s.execute <= s.tExecute
      && (r < |s.insts| && Rank(s.insts[r].status) >= Rank(PreCommitted) ==> TRank(s.insts[r].tStatus) >= TRank(TCommitted))
  {
    InitialOK(f, id, view);
    RunKeeps(Initial(f, id, view), evs);
    var s := RunEnds(Initial(f, id, view), evs);
    assert r < |s.insts| ==> InstOK(s.insts[r]);
  }

  ghost predicate Increasing(outs: seq<Output>) {
    forall i, j :: 0 <= i < j < |outs| ==> outs[i].index < outs[j].index
  }

  lemma {:induction false} DueIncreases(s: Node, n: nat, trusted: bool)
    ensures var d := Due(s, n, trusted);
      Increasing(d) && forall i :: 0 <= i < |d| ==> 1 <= d[i].index < n && d[i].cmd.trusted == trusted
    decreases n
  {
    if n > 1 {
      DueIncreases(s, n - 1, trusted);
    }
  }

  lemma {:induction false} DueHas(s: Node, n: nat, trusted: bool, i: nat)
    requires 1 <= i < n && Has(s, i) && At(s, i).cmd.Some?
    ensures Output(i, At(s, i).cmd.value) in Due(s, n, trusted) <==> At(s, i).cmd.value.trusted == trusted
    decreases n
  {
    if i < n - 1 {
      DueHas(s, n - 1, trusted, i);
    } else {
      DueIncreases(s, n - 1, trusted);
    }
  }

  /** Each path puts out its commands in index order, so no index twice, and exactly its own: the trusted path
      those with Meta among the indices below tExecute, the normal path the others among those below execute. */
  lemma OutputOrder(f: nat, id: PeerID, view: nat, evs: seq<Event>, trusted: bool)
    requires ValidRun(Initial(f, id, view), evs)
    ensures var s := RunEnds(Initial(f, id, view), evs);
      var outs := OfPath(s.outputs, trusted);
      var n := if trusted then s.tExecute else s.execute;
      && Increasing(outs)
      && (forall k :: 0 <= k < |outs| ==> 1 <= outs[k].index < n && outs[k].cmd.trusted == trusted)
      && (forall i: nat :: 1 <= i < n ==> Has(s, i) && At(s, i).cmd.Some?)
      && (forall i: nat :: 1 <= i < n ==> (Output(i, At(s, i).cmd.value) in outs <==> At(s, i).cmd.value.trusted == trusted))
  {
    InitialOK(f, id, view);
    RunKeeps(Initial(f, id, view), evs);
    var s := RunEnds(Initial(f, id, view), evs);
    var n := if trusted then s.tExecute else s.execute;
    assert OutputsOK(s) && TCursorOK(s) && CursorOK(s);
    forall i: nat | 1 <= i < n ensures Has(s, i) && At(s, i).cmd.Some? {
      assert At(s, i).tStatus == TExecuted && InstOK(At(s, i));
    }
    hide NodeOK;
    DueIncreases(s, n, trusted);
    forall i: nat | 1 <= i < n
      ensures Output(i, At(s, i).cmd.value) in Due(s, n, trusted) <==> At(s, i).cmd.value.trusted == trusted
    {
      DueHas(s, n, trusted, i);
    }
  }
}
