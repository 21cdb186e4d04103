/** What the statuses of a DuoBFT instance stand for: the quorum of its certificate, counted afresh.  A step raises
    an instance exactly if the message that it logs completes such a quorum. */
module DuoQuorums {
  import opened Quorums
  import opened DuoNode
  import opened DuoPaths

  /** How many senders have sent this hash. */
  function Count(c: Cert, h: Option<Hash>): nat {
    |set p | p in c && c[p] == h|
  }

  lemma CountDecides(c: Cert, n: nat, h: Option<Hash>)
    ensures Majority(c, n, h) <==> Count(c, h) >= n
  {
    assert Supporters(c, h) == set p | p in c && c[p] == h;
  }

  /** From c to d one message has been logged, and with it n senders agree with that message. */
  ghost predicate Completes(c: Cert, d: Cert, n: nat) {
    exists p: PeerID, h :: Adds(c, d, p, h) && Count(d, h) >= n
  }

  predicate Adds(c: Cert, d: Cert, p: PeerID, h: Option<Hash>) {
    p !in c && d == c[p := h]
  }

  /** The senders behind a status are agreed on the instance's own hash.  Executed stands for committed, TExecuted
      for trusted-committed. */
  predicate Founded(x: Inst, f: nat) {
    && (TRank(x.tStatus) >= TRank(TCommitted) ==> Count(x.tc, x.hash) >= f + 1)
    && (Rank(x.status) >= Rank(PreCommitted) ==> Count(x.pc, x.hash) >= 2 * f + 1)
    && (Rank(x.status) >= Rank(Committed) ==> Count(x.cc, x.hash) >= 2 * f + 1)
  }

  /** A prepared instance has the hash of its command. */
  predicate Fits(x: Inst) {
    Rank(x.status) >= 1 || TRank(x.tStatus) >= 1 ==>
      x.cmd.Some? && x.hash.Some? && x.hash.value.Of? && x.hash.value.cmd.body == x.cmd.value.body
  }

  ghost predicate AllFounded(s: Node) {
    forall r: nat :: r < |s.insts| ==> Founded(s.insts[r], s.f) && Fits(s.insts[r])
  }

  /** What is signed for an instance is its hash. */
  predicate HashOf(s: Node, cb: Callback) {
    cb.ref < |s.insts| && cb.hash == s.insts[cb.ref].hash
  }

  ghost predicate PendingHashes(s: Node) {
    forall cb :: cb in s.pending ==> HashOf(s, cb)
  }

  // ----- one instance through one step

  /** What a step may do to an instance: it rises only on a quorum that the step completes. */
  ghost predicate Rises(x: Inst, y: Inst, f: nat) {
    && x.tc.Items <= y.tc.Items && x.pc.Items <= y.pc.Items && x.cc.Items <= y.cc.Items
    && (x.hash.Some? ==> y.hash == x.hash) && (x.cmd.Some? ==> y.cmd == x.cmd) && (Fits(x) ==> Fits(y))
    && (TRank(x.tStatus) < 3 <= TRank(y.tStatus) ==>
          x.tStatus == TPrepared && Completes(x.tc, y.tc, f + 1) && Count(y.tc, y.hash) >= f + 1)
    && (Rank(x.status) < 2 <= Rank(y.status) ==>
          x.status == Prepared && Completes(x.pc, y.pc, 2 * f + 1) && Count(y.pc, y.hash) >= 2 * f + 1)
    && (Rank(x.status) < 3 <= Rank(y.status) ==>
          x.status == PreCommitted && Completes(x.cc, y.cc, 2 * f + 1) && Count(y.cc, y.hash) >= 2 * f + 1)
  }

  /** And it does rise on one, but that the primary's own signature of its request promotes nothing. */
  ghost predicate Promoted(x: Inst, y: Inst, f: nat, own: bool) {
    && (!own && x.tStatus == TPrepared && Completes(x.tc, y.tc, f + 1) ==> TRank(y.tStatus) >= 3)
    && (!own && x.status == Prepared && Completes(x.pc, y.pc, 2 * f + 1) ==> Rank(y.status) >= 2)
    && (x.status == PreCommitted && Completes(x.cc, y.cc, 2 * f + 1) ==> Rank(y.status) >= 3)
  }

  ghost predicate StepOf(s: Node, t: Node, own: bool) {
    && t.f == s.f && |s.insts| <= |t.insts|
    && (forall r: nat :: r < |s.insts| ==> Rises(s.insts[r], t.insts[r], s.f) && Promoted(s.insts[r], t.insts[r], s.f, own))
    && (forall r: nat :: |s.insts| <= r < |t.insts| ==> Rank(t.insts[r].status) <= 1 && TRank(t.insts[r].tStatus) <= 1 && Fits(t.insts[r]))
    && (forall cb :: cb in t.pending ==> cb in s.pending || HashOf(t, cb))
  }

  lemma NothingLogged(c: Cert, n: nat)
    ensures !Completes(c, c, n)
  {
  }

  lemma OneLogged(c: Cert, p: PeerID, h: Option<Hash>, n: nat)
    requires p !in c
    ensures Completes(c, c[p := h], n) <==> Count(c[p := h], h) >= n
    ensures c.Items <= c[p := h].Items
  {
    var d := c[p := h];
    assert Adds(c, d, p, h);
    forall q: PeerID, g | Adds(c, d, q, g) ensures q == p && g == h {
      assert q in d;
    }
  }

  // ----- the loops raise nothing but what is committed

  lemma {:induction false} TExecInsts(s: Node)
    ensures var t := TExec(s); t.f == s.f && t.pending == s.pending && |t.insts| == |s.insts| && forall r: nat :: r < |s.insts| ==>
      t.insts[r] == s.insts[r] || (s.insts[r].tStatus == TCommitted && t.insts[r] == s.insts[r].(tStatus := TExecuted))
    decreases |From(s.log, s.tExecute)|
  {
    if CanTExec(s) {
      FromShrinks(s.log, s.tExecute);
      TExecInsts(TExecOne(s));
    }
  }

  lemma {:induction false} ExecInsts(s: Node)
    ensures var t := Exec(s); t.f == s.f && t.pending == s.pending && |t.insts| == |s.insts| && forall r: nat :: r < |s.insts| ==>
      t.insts[r] == s.insts[r] || (s.insts[r].status == Committed && t.insts[r] == s.insts[r].(status := Executed))
    decreases |From(s.log, s.execute)|
  {
    if CanExec(s) {
      FromShrinks(s.log, s.execute);
      ExecInsts(ExecOne(s));
    }
  }

  /** The instance that a first-phase message has been logged in is promoted by what its certificates now hold. */
  lemma PromoteInsts(s: Node, ref: nat, h: Option<Hash>)
    requires ref < |s.insts|
    ensures forall cb :: cb in Promote(s, ref, h).pending ==> cb in s.pending || (cb.ref == ref && cb.hash == s.insts[ref].hash)
    ensures var t := Promote(s, ref, h); t.f == s.f && |t.insts| == |s.insts| && forall r: nat :: r < |s.insts| ==>
      var x, y := s.insts[r], t.insts[r];
      && y == x.(status := y.status, tStatus := y.tStatus)
      && (if r == ref && x.tStatus == TPrepared && Count(x.tc, h) >= s.f + 1 then TRank(y.tStatus) >= 3 else SameT(x, y))
      && (if r == ref && x.status == Prepared && Count(x.pc, h) >= 2 * s.f + 1 then y.status == PreCommitted else y.status == x.status)
  {
    PromoteTInsts(s, ref, h);
    PromotePInsts(PromoteT(s, ref, h), ref, h);
    hide PromoteT, PromoteP, Count;
  }

  lemma PromoteTInsts(s: Node, ref: nat, h: Option<Hash>)
    requires ref < |s.insts|
    ensures var t := PromoteT(s, ref, h); t.f == s.f && t.pending == s.pending && |t.insts| == |s.insts| && forall r: nat :: r < |s.insts| ==>
      var x, y := s.insts[r], t.insts[r];
      && y == x.(tStatus := y.tStatus)
      && (if r == ref && x.tStatus == TPrepared && Count(x.tc, h) >= s.f + 1 then TRank(y.tStatus) >= 3 else SameT(x, y))
  {
    var x := s.insts[ref];
    TExecInsts(Put(s, ref, x.(tStatus := TCommitted)));
    CountDecides(x.tc, s.f + 1, h);
    hide TExec, Majority, Count;
  }

  lemma PromotePInsts(s: Node, ref: nat, h: Option<Hash>)
    requires ref < |s.insts|
    ensures forall cb :: cb in PromoteP(s, ref, h).pending ==> cb in s.pending || (cb.ref == ref && cb.hash == s.insts[ref].hash)
    ensures var t := PromoteP(s, ref, h); t.f == s.f && |t.insts| == |s.insts| && forall r: nat :: r < |s.insts| ==>
      var x, y := s.insts[r], t.insts[r];
      && y == x.(status := y.status)
      && (if r == ref && x.status == Prepared && Count(x.pc, h) >= 2 * s.f + 1 then y.status == PreCommitted else y.status == x.status)
  {
    CountDecides(s.insts[ref].pc, 2 * s.f + 1, h);
    hide Majority, Count;
  }

  /** Only a trusted-committed instance may have been executed. */
  predicate SameT(x: Inst, y: Inst) {
    y.tStatus == x.tStatus || (TRank(x.tStatus) >= 3 && TRank(y.tStatus) >= 3)
  }

  lemma PromoteCInsts(s: Node, ref: nat, h: Option<Hash>)
    requires ref < |s.insts|
    ensures var t := PromoteC(s, ref, h); t.f == s.f && t.pending == s.pending && |t.insts| == |s.insts| && forall r: nat :: r < |s.insts| ==>
      var x, y := s.insts[r], t.insts[r];
      && y == x.(status := y.status)
      && (if r == ref && x.status == PreCommitted && Count(x.cc, h) >= 2 * s.f + 1 then Rank(y.status) >= 3
          else y.status == x.status || (Rank(x.status) >= 3 && Rank(y.status) >= 3))
  {
    ExecInsts(Put(s, ref, s.insts[ref].(status := Committed)));
    CountDecides(s.insts[ref].cc, 2 * s.f + 1, h);
    hide Exec, Majority, Count;
  }

  lemma StepSame(s: Node, t: Node, own: bool)
    requires t.insts == s.insts && t.f == s.f && t.pending == s.pending
    ensures StepOf(s, t, own)
  {
    forall r: nat | r < |s.insts| ensures Rises(s.insts[r], t.insts[r], s.f) && Promoted(s.insts[r], t.insts[r], s.f, own) {
      var x := s.insts[r];
      NothingLogged(x.tc, s.f + 1);
      NothingLogged(x.pc, 2 * s.f + 1);
      NothingLogged(x.cc, 2 * s.f + 1);
    }
  }

  /** y is x with the hash h, which x did not contradict. */
  predicate Hashed(x: Inst, y: Inst, h: Option<Hash>) {
    y == x.(hash := h) && (x.hash.Some? ==> x.hash == h)
  }

  /** A first-phase message logged in x, and the promotions. */
  lemma FirstPhase(s: Node, ref: nat, x: Inst, from: PeerID, h: Option<Hash>)
    requires ref < |s.insts| && LogBoth(x, from, h).Some? && Hashed(s.insts[ref], x, h)
    ensures StepOf(s, Promote(Put(s, ref, LogBoth(x, from, h).value), ref, h), false)
  {
    var z := LogBoth(x, from, h).value;
    var u := Put(s, ref, z);
    var t := Promote(u, ref, h);
    PromoteInsts(u, ref, h);
    hide Promote, Rises, Promoted, SameT, Fits;
    forall r: nat | r < |s.insts| ensures Rises(s.insts[r], t.insts[r], s.f) && Promoted(s.insts[r], t.insts[r], s.f, false) {
      if r == ref {
        FirstPhaseInst(s.insts[r], z, t.insts[r], from, h, s.f);
      } else {
        OtherInst(s.insts[r], t.insts[r], s.f);
      }
    }
  }

  /** What first-phase promotion makes of the instance that has logged the message. */
  lemma FirstPhaseInst(x: Inst, z: Inst, y: Inst, from: PeerID, h: Option<Hash>, f: nat)
    requires from !in x.tc && from !in x.pc && (x.hash.Some? ==> x.hash == h)
    requires z == x.(hash := h, tc := x.tc[from := h], pc := x.pc[from := h]) && y == z.(status := y.status, tStatus := y.tStatus)
    requires if z.tStatus == TPrepared && Count(z.tc, h) >= f + 1 then TRank(y.tStatus) >= 3 else SameT(z, y)
    requires if z.status == Prepared && Count(z.pc, h) >= 2 * f + 1 then y.status == PreCommitted else y.status == z.status
    ensures Rises(x, y, f) && Promoted(x, y, f, false)
  {
    OneLogged(x.tc, from, h, f + 1);
    OneLogged(x.pc, from, h, 2 * f + 1);
    NothingLogged(x.cc, 2 * f + 1);
    hide Completes, Count;
  }

  lemma OtherInst(x: Inst, y: Inst, f: nat)
    requires y == x.(status := y.status, tStatus := y.tStatus) && SameT(x, y)
    requires y.status == x.status || (Rank(x.status) >= 3 && Rank(y.status) >= 3)
    ensures Rises(x, y, f) && Promoted(x, y, f, false)
  {
    NothingLogged(x.tc, f + 1);
    NothingLogged(x.pc, 2 * f + 1);
    NothingLogged(x.cc, 2 * f + 1);
    hide Completes, Count;
  }

  lemma SecondPhase(s: Node, ref: nat, x: Inst, from: PeerID, h: Option<Hash>)
    requires ref < |s.insts| && LogIn(x.cc, from, h).Some? && Hashed(s.insts[ref], x, h)
    ensures StepOf(s, PromoteC(Put(s, ref, x.(cc := LogIn(x.cc, from, h).value)), ref, h), false)
  {
    var z := x.(cc := LogIn(x.cc, from, h).value);
    var u := Put(s, ref, z);
    var t := PromoteC(u, ref, h);
    PromoteCInsts(u, ref, h);
    hide PromoteC, Rises, Promoted, Fits;
    forall r: nat | r < |s.insts| ensures Rises(s.insts[r], t.insts[r], s.f) && Promoted(s.insts[r], t.insts[r], s.f, false) {
      if r == ref {
        SecondPhaseInst(s.insts[r], z, t.insts[r], from, h, s.f);
      } else {
        OtherInst(s.insts[r], t.insts[r], s.f);
      }
    }
  }

  lemma SecondPhaseInst(x: Inst, z: Inst, y: Inst, from: PeerID, h: Option<Hash>, f: nat)
    requires from !in x.cc && (x.hash.Some? ==> x.hash == h) && z == x.(hash := h, cc := x.cc[from := h]) && y == z.(status := y.status)
    requires if z.status == PreCommitted && Count(z.cc, h) >= 2 * f + 1 then Rank(y.status) >= 3
             else y.status == z.status || (Rank(z.status) >= 3 && Rank(y.status) >= 3)
    ensures Rises(x, y, f) && Promoted(x, y, f, false)
  {
    NothingLogged(x.tc, f + 1);
    NothingLogged(x.pc, 2 * f + 1);
    OneLogged(x.cc, from, h, 2 * f + 1);
    hide Completes, Count;
  }

  /** Looking an instance up first changes nothing of those that are there. */
  lemma FoundFirst(s: Node, i: nat, cmd: Option<Command>, hash: Option<Hash>, t: Node, own: bool)
    requires StepOf(Find(s, i, cmd, hash), t, own)
    ensures StepOf(s, t, own)
  {
    var u := Find(s, i, cmd, hash);
    forall r: nat | |s.insts| <= r < |t.insts| ensures Rank(t.insts[r].status) <= 1 && TRank(t.insts[r].tStatus) <= 1 && Fits(t.insts[r]) {
      if r < |u.insts| {
        assert Rises(u.insts[r], t.insts[r], s.f);
      }
    }
  }

  lemma FindHas(s: Node, i: nat, cmd: Option<Command>, hash: Option<Hash>)
    ensures var t := Find(s, i, cmd, hash); i in t.log && t.log[i] < |t.insts|
  {
  }

  // ----- the handlers

  lemma PreCommitStep(s: Node, from: PeerID, i: nat, cmd: Option<Command>, hash: Option<Hash>)
    ensures StepOf(s, OnPreCommit(s, from, i, cmd, hash), false)
  {
    StepSame(s, Halt(s), false);
    if i != 0 {
      FindHas(s, i, cmd, hash);
      var t := Find(s, i, cmd, hash);
      hide Find, StepOf, PreCommitAt;
      PreCommitAtStep(t, t.log[i], from, hash);
      FoundFirst(s, i, cmd, hash, OnPreCommit(s, from, i, cmd, hash), false);
    }
  }

  lemma PreCommitAtStep(s: Node, ref: nat, from: PeerID, hash: Option<Hash>)
    requires ref < |s.insts|
    ensures StepOf(s, PreCommitAt(s, ref, from, hash), false)
  {
    hide StepOf, Promote;
    StepSame(s, Halt(s), false);
    var y := UpdateHash(s.insts[ref], hash);
    if y.Some? && LogBoth(y.value, from, hash).Some? {
      FirstPhase(s, ref, y.value, from, hash);
    }
  }

  lemma CommitStep(s: Node, from: PeerID, i: nat, cmd: Option<Command>, hash: Option<Hash>)
    ensures StepOf(s, OnCommit(s, from, i, cmd, hash), false)
  {
    StepSame(s, Halt(s), false);
    if i != 0 {
      FindHas(s, i, cmd, hash);
      var t := Find(s, i, cmd, hash);
      hide Find, StepOf, CommitAt;
      CommitAtStep(t, t.log[i], from, hash);
      FoundFirst(s, i, cmd, hash, OnCommit(s, from, i, cmd, hash), false);
    }
  }

  lemma CommitAtStep(s: Node, ref: nat, from: PeerID, hash: Option<Hash>)
    requires ref < |s.insts|
    ensures StepOf(s, CommitAt(s, ref, from, hash), false)
  {
    hide StepOf, PromoteC;
    StepSame(s, Halt(s), false);
    var y := UpdateHash(s.insts[ref], hash);
    if y.Some? && LogIn(y.value.cc, from, hash).Some? {
      SecondPhase(s, ref, y.value, from, hash);
    }
  }

  /** A Prepare brings an instance to Prepared and no further; one that it finds prepared already, it would halt at. */
  lemma PrepareStep(s: Node, from: PeerID, i: nat, cmd: Option<Command>, hash: Option<Hash>)
    requires NodeOK(s) && from != s.id
    ensures StepOf(s, OnPrepare(s, from, i, cmd, hash), false)
  {
    StepSame(s, s, false);
    StepSame(s, Halt(s), false);
    if from == Primary(s) && cmd.Some? && hash == Some(Of(cmd.value)) && i != 0 {
      FindKeeps(s, i, cmd, hash);
      var t := Find(s, i, cmd, hash);
      hide NodeOK, Find, StepOf, PrepareAt;
      PrepareAtStep(t, t.log[i], from, cmd.value, hash);
      FoundFirst(s, i, cmd, hash, OnPrepare(s, from, i, cmd, hash), false);
    }
  }

  lemma PrepareAtStep(s: Node, ref: nat, from: PeerID, cmd: Command, hash: Option<Hash>)
    requires NodeOK(s) && ref < |s.insts| && s.insts[ref].index in s.log && s.log[s.insts[ref].index] == ref
    requires from == Primary(s) && from != s.id && hash == Some(Of(cmd))
    ensures StepOf(s, PrepareAt(s, ref, from, cmd, hash), false)
  {
    hide NodeOK, StepOf, Completes, LogBoth;
    StepSame(s, Halt(s), false);
    KnowsOnce(s, ref);
    var x := UpdateCommand(s.insts[ref], cmd);
    if x.Some? && UpdateHash(x.value, hash).Some? && LogBoth(UpdateHash(x.value, hash).value, from, hash).Some? {
      var y := UpdateHash(x.value, hash).value;
      var z := LogBoth(y, from, hash).value.(status := Prepared, tStatus := TPrepared);
      PreparedFirst(s, ref, from, cmd, hash, z);
      LoggedBoth(y, from, hash);
      assert y == s.insts[ref].(cmd := y.cmd, hash := y.hash);
      LowStep(s, ref, z, from, hash);
      SameInstsAfter(s, Put(s, ref, z), PrepareAt(s, ref, from, cmd, hash));
    }
  }

  lemma KnowsOnce(s: Node, ref: nat)
    requires NodeOK(s) && ref < |s.insts|
    ensures InstsOK(s) && OnceOK(s) && InstOK(s.insts[ref])
  {
  }

  lemma LoggedBoth(x: Inst, from: PeerID, h: Option<Hash>)
    requires LogBoth(x, from, h).Some?
    ensures from !in x.tc && from !in x.pc && LogBoth(x, from, h).value == x.(tc := x.tc[from := h], pc := x.pc[from := h])
  {
  }

  lemma SameInstsAfter(s: Node, t: Node, u: Node)
    requires StepOf(s, t, false) && u.insts == t.insts && u.f == t.f
    requires forall cb :: cb in u.pending ==> cb in t.pending || HashOf(u, cb)
    ensures StepOf(s, u, false)
  {
  }

  /** A first-phase message in an instance that is not prepared yet. */
  lemma LowStep(s: Node, ref: nat, z: Inst, from: PeerID, h: Option<Hash>)
    requires ref < |s.insts| && Rank(s.insts[ref].status) == 0 && TRank(s.insts[ref].tStatus) == 0 && from !in s.insts[ref].tc && from !in s.insts[ref].pc
    requires z.tc == s.insts[ref].tc[from := h] && z.pc == s.insts[ref].pc[from := h] && z.cc == s.insts[ref].cc && Rank(z.status) <= 1 && TRank(z.tStatus) <= 1
    requires (s.insts[ref].hash.Some? ==> z.hash == s.insts[ref].hash) && (s.insts[ref].cmd.Some? ==> z.cmd == s.insts[ref].cmd) && Fits(z)
    ensures StepOf(s, Put(s, ref, z), false)
  {
    var t := Put(s, ref, z);
    hide Completes;
    forall r: nat | r < |s.insts| ensures Rises(s.insts[r], t.insts[r], s.f) && Promoted(s.insts[r], t.insts[r], s.f, false) {
      var w := s.insts[r];
      NothingLogged(w.tc, s.f + 1);
      NothingLogged(w.pc, 2 * s.f + 1);
      NothingLogged(w.cc, 2 * s.f + 1);
      if r == ref {
        OneLogged(w.tc, from, h, s.f + 1);
        OneLogged(w.pc, from, h, 2 * s.f + 1);
      }
    }
  }

  lemma RequestSignedStep(s: Node, ref: nat, h: Option<Hash>)
    requires ref < |s.insts|
    ensures StepOf(s, OnRequestSigned(s, ref, h), true)
  {
    StepSame(s, Halt(s), true);
    var z := LogBoth(s.insts[ref], s.id, h);
    if z.Some? {
      var t := Put(s, ref, z.value);
      hide Completes;
      forall r: nat | r < |s.insts| ensures Rises(s.insts[r], t.insts[r], s.f) && Promoted(s.insts[r], t.insts[r], s.f, true) {
        var w := s.insts[r];
        NothingLogged(w.cc, 2 * s.f + 1);
        NothingLogged(w.tc, 2 * s.f + 1);
        NothingLogged(w.pc, 2 * s.f + 1);
        if r == ref {
          OneLogged(w.tc, s.id, h, s.f + 1);
          OneLogged(w.pc, s.id, h, 2 * s.f + 1);
        }
      }
    }
  }

  /** The signature of the primary's own request. */
  predicate OwnRequest(ev: Event) {
    ev.Callback? && ev.cb.RequestSigned?
  }

  lemma StepFounded(s: Node, ev: Event)
    requires NodeOK(s) && Enabled(s, ev) && PendingHashes(s)
    ensures StepOf(s, After(s, ev), OwnRequest(ev))
  {
    hide NodeOK, StepOf, Promote, PromoteC, OnPrepare, OnPreCommit, OnCommit, OnRequestSigned;
    StepSame(s, s, OwnRequest(ev));
    if !s.halted {
      match ev
      case Request(cmd) => RequestStep(s, cmd);
      case Deliver(from, m) =>
        match m {
          case Prepare(i, cmd, hash) => PrepareStep(s, from, i, cmd, hash);
          case PreCommit(i, cmd, hash) => PreCommitStep(s, from, i, cmd, hash);
          case Commit(i, cmd, hash) => CommitStep(s, from, i, cmd, hash);
        }
      case Callback(cb) =>
        var t := s.(pending := s.pending - multiset{cb});
        StepSame(t, Halt(t), OwnRequest(ev));
        match cb {
          case PrepareSigned(ref, h) =>
            if LogBoth(t.insts[ref], t.id, h).Some? {
              FirstPhase(t, ref, t.insts[ref], t.id, h);
            }
          case CommitSigned(ref, h) =>
            if LogIn(t.insts[ref].cc, t.id, h).Some? {
              SecondPhase(t, ref, t.insts[ref], t.id, h);
            }
          case RequestSigned(ref, h) => RequestSignedStep(t, ref, h);
        }
        SameInsts(s, t, After(s, ev), OwnRequest(ev));
    }
  }

  lemma SameInsts(s: Node, u: Node, t: Node, own: bool)
    requires u.insts == s.insts && u.f == s.f && u.pending <= s.pending && StepOf(u, t, own)
    ensures StepOf(s, t, own)
  {
  }

  lemma RequestStep(s: Node, cmd: Command)
    ensures StepOf(s, OnRequest(s, cmd), false)
  {
    StepSame(s, s, false);
  }

  // ----- the results

  lemma CountGrows(c: Cert, d: Cert, h: Option<Hash>)
    requires c.Items <= d.Items
    ensures Count(c, h) <= Count(d, h)
  {
    var a, b := set p | p in c && c[p] == h, set p | p in d && d[p] == h;
    forall p | p in a ensures p in b {
      assert (p, h) in c.Items;
    }
    SubsetSize(a, b);
  }

  lemma RiseFounded(x: Inst, y: Inst, f: nat)
    requires Founded(x, f) && Fits(x) && Rises(x, y, f) && (Rank(x.status) >= 2 || TRank(x.tStatus) >= 3 ==> x.hash.Some?)
    ensures Founded(y, f) && Fits(y)
  {
    CountGrows(x.tc, y.tc, x.hash);
    CountGrows(x.pc, y.pc, x.hash);
    CountGrows(x.cc, y.cc, x.hash);
    hide Count, Completes;
  }

  /** A pending signature stays one of the instance's hash. */
  lemma PendingStay(s: Node, t: Node, own: bool)
    requires NodeOK(s) && PendingHashes(s) && StepOf(s, t, own)
    ensures PendingHashes(t)
  {
    forall cb | cb in t.pending ensures HashOf(t, cb) {
      if cb in s.pending {
        PendingHash(s, cb);
        assert HashOf(s, cb) && Rises(s.insts[cb.ref], t.insts[cb.ref], s.f);
      }
    }
  }

  lemma PendingHash(s: Node, cb: Callback)
    requires NodeOK(s) && cb in s.pending
    ensures cb.ref < |s.insts| && s.insts[cb.ref].hash.Some?
  {
    assert PendingOK(s) && InstOK(s.insts[cb.ref]);
  }

  ghost predicate Sound(s: Node) {
    NodeOK(s) && AllFounded(s) && PendingHashes(s)
  }

  lemma StepSound(s: Node, ev: Event)
    requires Sound(s) && Enabled(s, ev)
    ensures Sound(After(s, ev)) && After(s, ev).f == s.f
  {
    hide NodeOK, After, Founded, Fits, Rises, Promoted;
    var t := After(s, ev);
    StepKeeps(s, ev);
    StepFounded(s, ev);
    PendingStay(s, t, OwnRequest(ev));
    forall r: nat | r < |t.insts| ensures Founded(t.insts[r], t.f) && Fits(t.insts[r]) {
      if r < |s.insts| {
        FittingHash(s.insts[r]);
        RiseFounded(s.insts[r], t.insts[r], s.f);
      } else {
        LowFounded(t.insts[r], t.f);
      }
    }
  }

  lemma FittingHash(x: Inst)
    requires Fits(x)
    ensures Rank(x.status) >= 2 || TRank(x.tStatus) >= 3 ==> x.hash.Some?
  {
  }

  lemma {:induction false} RunSound(s: Node, evs: seq<Event>)
    requires Sound(s) && ValidRun(s, evs)
    ensures Sound(RunEnds(s, evs)) && RunEnds(s, evs).f == s.f
    decreases |evs|
  {
    hide Sound, After;
    if evs != [] {
      StepSound(s, evs[0]);
      RunSound(After(s, evs[0]), evs[1..]);
    }
  }

  lemma LowFounded(x: Inst, f: nat)
    requires Rank(x.status) <= 1 && TRank(x.tStatus) <= 1
    ensures Founded(x, f)
  {
  }

  lemma StartSound(f: nat, id: PeerID, view: nat)
    ensures Sound(Initial(f, id, view)) && Initial(f, id, view).f == f
  {
    InitialOK(f, id, view);
    hide NodeOK;
  }

  /** In every run each status stands for its quorum: f+1 senders of the instance's hash behind TCommitted, 2f+1 in
      the same certificate behind PreCommitted, and 2f+1 commits behind Committed; and from Prepared on the hash is
      that of the instance's command. */
  lemma QuorumsBehind(f: nat, id: PeerID, view: nat, evs: seq<Event>, r: nat)
    requires ValidRun(Initial(f, id, view), evs) && r < |RunEnds(Initial(f, id, view), evs).insts|
    ensures var x := RunEnds(Initial(f, id, view), evs).insts[r];
      && (TRank(x.tStatus) >= TRank(TCommitted) ==> Count(x.tc, x.hash) >= f + 1)
      && (Rank(x.status) >= Rank(PreCommitted) ==> Count(x.pc, x.hash) >= 2 * f + 1)
      && (Rank(x.status) >= Rank(Committed) ==> Count(x.cc, x.hash) >= 2 * f + 1)
      && (Rank(x.status) >= Rank(Prepared) || TRank(x.tStatus) >= TRank(TPrepared) ==>
            x.cmd.Some? && x.hash.Some? && x.hash.value.Of? && x.hash.value.cmd.body == x.cmd.value.body)
  {
    StartSound(f, id, view);
    hide NodeOK, Initial;
    RunSound(Initial(f, id, view), evs);
    var s := RunEnds(Initial(f, id, view), evs);
    assert Founded(s.insts[r], s.f) && Fits(s.insts[r]);
  }

  lemma {:induction false} OnItsPath(outs: seq<Output>, o: Output)
    requires o in outs
    ensures o in OfPath(outs, o.cmd.trusted)
    decreases |outs|
  {
    if o != outs[|outs| - 1] {
      OnItsPath(outs[..|outs| - 1], o);
    }
  }

  lemma {:induction false} DueIs(s: Node, n: nat, trusted: bool, o: Output)
    requires o in Due(s, n, trusted)
    ensures 1 <= o.index < n && Has(s, o.index) && At(s, o.index).cmd == Some(o.cmd) && o.cmd.trusted == trusted
  {
    if o in Due(s, n - 1, trusted) {
      DueIs(s, n - 1, trusted, o);
    }
  }

  /** What is put out is the command of its instance, fits the hash, and has the quorum of its path for that hash. */
  lemma OutputBacked(f: nat, id: PeerID, view: nat, evs: seq<Event>, o: Output)
    requires ValidRun(Initial(f, id, view), evs) && o in RunEnds(Initial(f, id, view), evs).outputs
    ensures var s := RunEnds(Initial(f, id, view), evs);
      && Has(s, o.index)
      && var x := At(s, o.index);
         && x.cmd == Some(o.cmd) && x.hash.Some? && x.hash.value.Of? && x.hash.value.cmd.body == o.cmd.body
         && (if o.cmd.trusted then Count(x.tc, x.hash) >= f + 1 else Count(x.cc, x.hash) >= 2 * f + 1)
  {
    StartSound(f, id, view);
    hide Initial, Due, OfPath, RefsOK, OnceOK;
    RunSound(Initial(f, id, view), evs);
    var s := RunEnds(Initial(f, id, view), evs);
    OnItsPath(s.outputs, o);
    if o.cmd.trusted {
      DueIs(s, s.tExecute, true, o);
    } else {
      DueIs(s, s.execute, false, o);
    }
    assert Founded(At(s, o.index), s.f) && Fits(At(s, o.index));
  }

  /** A message with another hash than its instance's, a Prepare with another command, or any message for index 0,
      ends the replica. */
  lemma ConflictHalts(s: Node, ev: Event)
    requires Enabled(s, ev) && ev.Deliver? && !s.halted && (ev.m.Prepare? ==> ev.from == Primary(s))
    requires ev.m.index == 0 || (Has(s, ev.m.index) && var x := At(s, ev.m.index);
      || (x.hash.Some? && ev.m.hash != x.hash)
      || (ev.m.Prepare? && x.cmd.Some? && ev.m.cmd.Some? && ev.m.cmd.value.body != x.cmd.value.body))
    ensures After(s, ev) == Halt(s)
  {
    hide Promote, PromoteC;
  }

  /** And in every run a step commits a pre-committed instance, and pre-commits or trusted-commits a prepared one,
      exactly if the message that it logs there completes the quorum.  Only the primary's own signature of its
      request is logged without a look at the first-phase certificates. */
  lemma RisesIff(f: nat, id: PeerID, view: nat, evs: seq<Event>, ev: Event, r: nat)
    requires ValidRun(Initial(f, id, view), evs) && r < |RunEnds(Initial(f, id, view), evs).insts|
    requires Enabled(RunEnds(Initial(f, id, view), evs), ev)
    ensures var s := RunEnds(Initial(f, id, view), evs);
      var t := After(s, ev);
      && |s.insts| <= |t.insts|
      && var x, y := s.insts[r], t.insts[r];
         && (x.status == PreCommitted ==> (Rank(y.status) >= Rank(Committed) <==> Completes(x.cc, y.cc, 2 * f + 1)))
         && (x.status == Prepared && !OwnRequest(ev) ==> (Rank(y.status) >= Rank(PreCommitted) <==> Completes(x.pc, y.pc, 2 * f + 1)))
         && (x.tStatus == TPrepared && !OwnRequest(ev) ==> (TRank(y.tStatus) >= TRank(TCommitted) <==> Completes(x.tc, y.tc, f + 1)))
  {
    StartSound(f, id, view);
    hide NodeOK, Initial, After, Completes, AllFounded, PendingHashes;
    RunSound(Initial(f, id, view), evs);
    StepFounded(RunEnds(Initial(f, id, view), evs), ev);
  }
}
