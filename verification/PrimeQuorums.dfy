/** The quorums behind Prime's ordering slots, counted afresh: which message raises a slot, and which does not count. */
module PrimeQuorums {
  import opened Quorums
  import opened PrimeFrontier
  import opened PrimeNode
  import opened PrimeExec
  import opened PrimeRuns
  import opened PrimeSystem
  import Slots

  /** The senders of d. */
  function Senders(votes: Votes<Matrix>, d: Option<Digest<Matrix>>): set<PeerID> {
    set p | p in votes && votes[p] == d
  }

  lemma MajorityIs(votes: Votes<Matrix>, d: Option<Digest<Matrix>>, f: nat)
    ensures Majority(votes, d, f) <==> |Senders(votes, d)| > 2 * f
  {
    assert Agreeing(votes, d) == Senders(votes, d);
  }

  lemma SendersMore(votes: Votes<Matrix>, p: PeerID, d: Option<Digest<Matrix>>, f: nat)
    requires p !in votes
    ensures Senders(votes[p := d], d) == Senders(votes, d) + {p}
    ensures Majority(votes[p := d], d, f) <==> |Senders(votes, d) + {p}| > 2 * f
  {
    assert Agreeing(votes[p := d], d) == Senders(votes, d) + {p};
  }

  /** exec marks committed slots as executed and does nothing else to slots. */
  lemma {:induction false} ExecSlots(s: Node)
    ensures var t := Exec(s); t.olog.Keys == s.olog.Keys && t.msgs == s.msgs && forall i :: i in s.olog ==>
      t.olog[i] == s.olog[i] || (s.olog[i].status == OCommitted && t.olog[i] == s.olog[i].(status := OExecuted))
    decreases |CommittedSlots(s.olog)|
  {
    hide Usable, Available, RunOrigins;
    if !s.halted && CanPass(s) && Usable(s.olog[s.oexecIdx], s.f) && Available(s, s.olog[s.oexecIdx]) {
      RunOriginsFrame(s, s.olog[s.oexecIdx], Rows(s.olog[s.oexecIdx]));
      var t := RunSlot(s);
      if !t.halted {
        SlotConsumed(s);
        ExecSlots(t);
      }
    }
  }

  lemma ExecSlot(s: Node, i: nat)
    requires i in s.olog && s.olog[i].status == OCommitted
    ensures var t := Exec(s); t.msgs == s.msgs && i in t.olog && ORank(t.olog[i].status) >= 3 && t.olog[i] == s.olog[i].(status := t.olog[i].status)
  {
    hide Exec;
    ExecSlots(s);
  }

  // ----- what a message does to a slot

  /** The slot once its prepares have d from the given senders, and the replica's own commit is due. */
  ghost predicate Counted(s: Node, t: Node, i: nat, x: Slot, y: Slot, prepared: set<PeerID>, d: Option<Digest<Matrix>>) {
    var f := s.f;
    if |prepared| <= 2 * f then y.status == OPrePrepared && y.commits == x.commits && t.msgs == s.msgs
    else
      && y.commits == x.commits[s.id := d] && t.msgs == s.msgs + [Order(Commit, s.oview, i, None, d)]
      && (if |Senders(x.commits, d) + {s.id}| > 2 * f then ORank(y.status) >= 3 else y.status == OPrepared)
  }

  lemma TryPrepareIs(s: Node, i: nat, x: Slot, d: Option<Digest<Matrix>>)
    requires x.status == OPrePrepared && s.id !in x.commits
    ensures var c, u := x.commits[s.id := d], Say(s, Order(Commit, s.oview, i, None, d));
      TryPrepare(s, i, x, d) ==
        if !Majority(x.prepares, d, s.f) then s.(olog := s.olog[i := x])
        else if Majority(c, d, s.f) then Exec(u.(olog := u.olog[i := x.(status := OCommitted, commits := c)]))
        else u.(olog := u.olog[i := x.(status := OPrepared, commits := c)])
  {
    hide Exec, Majority;
  }

  lemma TryPrepareCounts(s: Node, i: nat, x: Slot, d: Option<Digest<Matrix>>, prepared: set<PeerID>)
    requires x.status == OPrePrepared && s.id !in x.commits && prepared == Senders(x.prepares, d)
    ensures var t := TryPrepare(s, i, x, d);
      i in t.olog && t.olog[i].prepares == x.prepares && t.olog[i].hash == x.hash && t.olog[i].matrix == x.matrix
      && Counted(s, t, i, x, t.olog[i], prepared, d)
  {
    hide Exec, Senders, Majority, TryPrepare;
    MajorityIs(x.prepares, d, s.f);
    SendersMore(x.commits, s.id, d, s.f);
    TryPrepareIs(s, i, x, d);
    if |prepared| > 2 * s.f && |Senders(x.commits, d) + {s.id}| > 2 * s.f {
      var y := x.(status := OCommitted, commits := x.commits[s.id := d]);
      var u := Say(s, Order(Commit, s.oview, i, None, d)).(olog := s.olog[i := y]);
      ExecSlot(u, i);
    }
  }

  /** The slot that a pre-prepare finds, or an empty one. */
  function SlotAt(s: Node, i: nat): Slot {
    if i in s.olog then s.olog[i] else Slot(ONothing, None, None, map[], map[])
  }

  /** A pre-prepare of the leader's gives a slot the leader's vote and the replica's own; with 2f+1 for its digest
      the slot is prepared, and with 2f+1 commits, counting the replica's, committed. */
  lemma PrePrepareCounts(s: Node, i: nat, matrix: Matrix, d: Option<Digest<Matrix>>)
    requires d == Some(Slots.Of(matrix)) && s.id != Leader(s)
    requires var x := SlotAt(s, i);
      && (x.matrix == Some(matrix) || x.matrix.None?) && (x.hash == d || x.hash.None?)
      && Leader(s) !in x.prepares && s.id !in x.prepares && s.id !in x.commits
    ensures var x, t, l := SlotAt(s, i), OnPrePrepare(s, Leader(s), i, Some(matrix), d), Leader(s);
      && i in t.olog && t.olog[i].matrix == Some(matrix) && t.olog[i].prepares == x.prepares[l := d][s.id := d]
      && Counted(Say(s, Order(Prepare, s.oview, i, None, d)), t, i, x, t.olog[i], Senders(x.prepares, d) + {l, s.id}, d)
  {
    hide TryPrepare, Senders, Counted, SameRows, OnPrePrepare, SlotAt;
    var x, u := SlotAt(s, i), Say(s, Order(Prepare, s.oview, i, None, d));
    var z := x.(matrix := Some(matrix), hash := if i in s.olog then d else None, status := OPrePrepared,
                prepares := x.prepares[Leader(s) := d][s.id := d]);
    BothSend(x.prepares, Leader(s), s.id, d);
    OnPrePrepareIs(s, i, matrix, d, x, z);
    TryPrepareCounts(u, i, z, d, Senders(x.prepares, d) + {Leader(s), s.id});
    CountedSame(u, TryPrepare(u, i, z, d), i, z, x, Senders(x.prepares, d) + {Leader(s), s.id}, d);
  }

  lemma BothSend(votes: Votes<Matrix>, p: PeerID, q: PeerID, d: Option<Digest<Matrix>>)
    requires p !in votes && q !in votes && p != q
    ensures Senders(votes[p := d][q := d], d) == Senders(votes, d) + {p, q}
  {
  }

  lemma OnPrePrepareIs(s: Node, i: nat, matrix: Matrix, d: Option<Digest<Matrix>>, x: Slot, z: Slot)
    requires d == Some(Slots.Of(matrix)) && s.id != Leader(s)
    requires x == SlotAt(s, i)
    requires (x.matrix == Some(matrix) || x.matrix.None?) && (x.hash == d || x.hash.None?) && Leader(s) !in x.prepares && s.id !in x.prepares
    requires z == x.(matrix := Some(matrix), hash := if i in s.olog then d else None, status := OPrePrepared,
                     prepares := x.prepares[Leader(s) := d][s.id := d])
    ensures OnPrePrepare(s, Leader(s), i, Some(matrix), d) == TryPrepare(Say(s, Order(Prepare, s.oview, i, None, d)), i, z, d)
  {
    SameRowsIs(matrix, matrix);
    hide TryPrepare, SameRows;
  }

  lemma CountedSame(s: Node, t: Node, i: nat, z: Slot, x: Slot, prepared: set<PeerID>, d: Option<Digest<Matrix>>)
    requires z.commits == x.commits && i in t.olog && Counted(s, t, i, z, t.olog[i], prepared, d)
    ensures Counted(s, t, i, x, t.olog[i], prepared, d)
  {
  }

  /** So does one more prepare of another peer for a slot that the replica has voted on. */
  lemma PrepareCounts(s: Node, from: PeerID, i: nat, matrix: Option<Matrix>, d: Option<Digest<Matrix>>)
    requires i in s.olog && s.olog[i].status == OPrePrepared && (s.olog[i].hash == d || s.olog[i].hash.None?)
    requires from != Leader(s) && from !in s.olog[i].prepares && s.id !in s.olog[i].commits
    ensures var x, t := s.olog[i], OnPrepare(s, from, i, matrix, d);
      && i in t.olog && t.olog[i].matrix == x.matrix && t.olog[i].prepares == x.prepares[from := d] && t.olog[i].hash == d
      && Counted(s, t, i, x, t.olog[i], Senders(x.prepares, d) + {from}, d)
  {
    var x := s.olog[i];
    SendersMore(x.prepares, from, d, s.f);
    hide TryPrepare, Senders, Counted;
    var z := x.(hash := d, prepares := x.prepares[from := d]);
    TryPrepareCounts(s, i, z, d, Senders(x.prepares, d) + {from});
    CountedSame(s, OnPrepare(s, from, i, matrix, d), i, z, x, Senders(x.prepares, d) + {from}, d);
  }

  /** A commit takes a prepared slot to committed, or on to executed, exactly if it is the 2f+1st for its digest. */
  lemma CommitCounts(s: Node, from: PeerID, i: nat, matrix: Option<Matrix>, d: Option<Digest<Matrix>>)
    requires i in s.olog && (s.olog[i].hash == d || s.olog[i].hash.None?) && from !in s.olog[i].commits
    ensures var x, t := s.olog[i], OnCommit(s, from, i, matrix, d);
      && i in t.olog && t.olog[i].commits == x.commits[from := d] && t.olog[i].prepares == x.prepares && t.olog[i].hash == d
      && (x.status == OPrepared ==>
            (ORank(t.olog[i].status) >= 3 <==> |Senders(x.commits, d) + {from}| > 2 * s.f) && (ORank(t.olog[i].status) >= 3 || t.olog[i].status == OPrepared))
      && (ORank(x.status) < 2 ==> t.olog[i].status == x.status)
  {
    var x := s.olog[i];
    hide Exec, Majority, Senders, OnCommit;
    SendersMore(x.commits, from, d, s.f);
    OnCommitIs(s, from, i, matrix, d);
    var c := x.commits[from := d];
    var done := Majority(c, d, s.f) && x.status == OPrepared;
    ExecSlots(s.(olog := s.olog[i := x.(hash := d, commits := c, status := if done then OCommitted else x.status)]));
  }

  lemma OnCommitIs(s: Node, from: PeerID, i: nat, matrix: Option<Matrix>, d: Option<Digest<Matrix>>)
    requires i in s.olog && (s.olog[i].hash == d || s.olog[i].hash.None?) && from !in s.olog[i].commits
    ensures var x := s.olog[i];
      var c := x.commits[from := d];
      var done := Majority(c, d, s.f) && x.status == OPrepared;
      var t := s.(olog := s.olog[i := x.(hash := d, commits := c, status := if done then OCommitted else x.status)]);
      OnCommit(s, from, i, matrix, d) == if done || x.status == OCommitted then Exec(t) else t
  {
    hide Exec, Majority;
  }

  /** A prepare or a commit with another digest than the slot's counts for nothing, and a pre-prepare with another
      one leaves the votes as they are. */
  lemma OtherDigest(s: Node, from: PeerID, i: nat, matrix: Option<Matrix>, d: Option<Digest<Matrix>>)
    requires i in s.olog && s.olog[i].hash.Some? && s.olog[i].hash != d
    ensures OnPrepare(s, from, i, matrix, d) == s && OnCommit(s, from, i, matrix, d) == s
    ensures var t := OnPrePrepare(s, from, i, matrix, d);
      t == s.(olog := t.olog, halted := t.halted) && t.olog.Keys == s.olog.Keys
      && t.olog == s.olog[i := s.olog[i].(matrix := t.olog[i].matrix)] && (s.olog[i].matrix.Some? ==> t == s || t == Halt(s))
  {
    hide SameRows, CastPrepare;
    assert s.olog[i := s.olog[i]] == s.olog;
  }

  /** Only the leader pre-prepares, and only others prepare; a digest that is not the matrix's ends the replica, and
      another view is ignored. */
  lemma WrongSender(s: Node, from: PeerID, i: nat, matrix: Option<Matrix>, d: Option<Digest<Matrix>>)
    ensures from != Leader(s) ==> OnPrePrepare(s, from, i, matrix, d) == s
    ensures from == Leader(s) ==> OnPrepare(s, from, i, matrix, d) == s
    ensures from == Leader(s) && (matrix.None? || d != Some(Slots.Of(matrix.value))) ==> OnPrePrepare(s, from, i, matrix, d) == Halt(s)
    ensures forall kind, view: nat :: view != s.oview ==> Receive(s, from, Order(kind, view, i, matrix, d)) == s
  {
    hide CastPrepare, TryPrepare;
  }

  // ----- every slot in every run

  /** Executed stands for committed. */
  ghost predicate Founded(x: Slot, f: nat) {
    && (ORank(x.status) >= 2 ==> exists d :: |Senders(x.prepares, d)| > 2 * f)
    && (ORank(x.status) >= 3 ==> exists d :: |Senders(x.commits, d)| > 2 * f)
  }

  ghost predicate AllFounded(s: Node) {
    forall i :: i in s.olog ==> Founded(s.olog[i], s.f)
  }


  lemma SendersGrow(votes: Votes<Matrix>, p: PeerID, e: Option<Digest<Matrix>>, d: Option<Digest<Matrix>>)
    requires p !in votes
    ensures |Senders(votes, d)| <= |Senders(votes[p := e], d)|
  {
    SubsetSize(Senders(votes, d), Senders(votes[p := e], d));
  }

  /** One more prepare, or one more commit. */
  lemma VoteFounded(x: Slot, p: PeerID, d: Option<Digest<Matrix>>, f: nat)
    requires Founded(x, f)
    ensures p !in x.prepares ==> Founded(x.(prepares := x.prepares[p := d]), f)
    ensures p !in x.commits ==> Founded(x.(commits := x.commits[p := d]), f)
  {
    if ORank(x.status) >= 2 && p !in x.prepares {
      var e :| |Senders(x.prepares, e)| > 2 * f;
      SendersGrow(x.prepares, p, d, e);
    }
    if ORank(x.status) >= 3 && p !in x.commits {
      var e :| |Senders(x.commits, e)| > 2 * f;
      SendersGrow(x.commits, p, d, e);
    }
  }

  lemma ExecFounded(s: Node)
    requires AllFounded(s)
    ensures AllFounded(Exec(s)) && Exec(s).f == s.f
  {
    ExecSlots(s);
    ExecSize(s);
    hide Exec;
    forall i | i in Exec(s).olog ensures Founded(Exec(s).olog[i], s.f) {
      assert Founded(s.olog[i], s.f);
    }
  }

  lemma {:induction false} ExecSize(s: Node)
    ensures Exec(s).f == s.f
    decreases |CommittedSlots(s.olog)|
  {
    hide Usable, Available, RunOrigins;
    if !s.halted && CanPass(s) && Usable(s.olog[s.oexecIdx], s.f) && Available(s, s.olog[s.oexecIdx]) {
      RunOriginsFrame(s, s.olog[s.oexecIdx], Rows(s.olog[s.oexecIdx]));
      var t := RunSlot(s);
      if !t.halted {
        SlotConsumed(s);
        ExecSize(t);
      }
    }
  }

  lemma PutFounded(s: Node, t: Node, i: nat, x: Slot)
    requires AllFounded(s) && Founded(x, s.f) && t.olog == s.olog[i := x] && t.f == s.f
    ensures AllFounded(t) && AllFounded(Exec(t)) && Exec(t).f == s.f
  {
    hide Founded;
    assert AllFounded(t);
    ExecFounded(t);
  }

  lemma TryPrepareFounded(s: Node, i: nat, x: Slot, d: Option<Digest<Matrix>>)
    requires AllFounded(s) && Founded(x, s.f)
    ensures AllFounded(TryPrepare(s, i, x, d)) && TryPrepare(s, i, x, d).f == s.f
  {
    hide AllFounded, Exec;
    HaltFounded(s);
    PutFounded(s, s.(olog := s.olog[i := x]), i, x);
    if x.status == OPrePrepared && s.id !in x.commits {
      MajorityIs(x.prepares, d, s.f);
      MajorityIs(x.commits[s.id := d], d, s.f);
      hide TryPrepare, Majority, Senders;
      TryPrepareIs(s, i, x, d);
      var c, u := x.commits[s.id := d], Say(s, Order(Commit, s.oview, i, None, d));
      if Majority(x.prepares, d, s.f) {
        PutFounded(s, u.(olog := u.olog[i := x.(status := OPrepared, commits := c)]), i, x.(status := OPrepared, commits := c));
        if Majority(c, d, s.f) {
          PutFounded(s, u.(olog := u.olog[i := x.(status := OCommitted, commits := c)]), i, x.(status := OCommitted, commits := c));
        }
      }
    }
  }

  lemma HaltFounded(s: Node)
    requires AllFounded(s)
    ensures AllFounded(Halt(s))
  {
  }

  lemma LowFounded(x: Slot, f: nat)
    requires ORank(x.status) <= 1
    ensures Founded(x, f)
  {
  }

  lemma HeldFounded(s: Node, i: nat, matrix: Option<Matrix>, hash: Option<Digest<Matrix>>)
    requires AllFounded(s) && i in s.olog
    ensures Founded(s.olog[i].(matrix := matrix, hash := hash), s.f) && Founded(s.olog[i], s.f)
  {
    assert Founded(s.olog[i], s.f);
  }

  lemma CastPrepareFounded(s: Node, from: PeerID, i: nat, x: Slot, d: Option<Digest<Matrix>>)
    requires AllFounded(s)
    ensures AllFounded(CastPrepare(s, from, i, x, d)) && CastPrepare(s, from, i, x, d).f == s.f
  {
    hide AllFounded, TryPrepare;
    HaltFounded(s);
    if from !in x.prepares && s.id !in x.prepares[from := d] {
      var y := x.(status := OPrePrepared, prepares := x.prepares[from := d][s.id := d]);
      var t := Say(s, Order(Prepare, s.oview, i, None, d));
      LowFounded(y, s.f);
      assert AllFounded(t) by { SaidFounded(s, t); }
      TryPrepareFounded(t, i, y, d);
    }
  }

  lemma SaidFounded(s: Node, t: Node)
    requires AllFounded(s) && t.olog == s.olog && t.f == s.f
    ensures AllFounded(t)
  {
  }

  lemma OnPrePrepareFounded(s: Node, from: PeerID, i: nat, matrix: Option<Matrix>, d: Option<Digest<Matrix>>)
    requires AllFounded(s)
    ensures AllFounded(OnPrePrepare(s, from, i, matrix, d)) && OnPrePrepare(s, from, i, matrix, d).f == s.f
  {
    hide AllFounded, CastPrepare, SameRows, Founded, Exec;
    HaltFounded(s);
    if i in s.olog {
      var y := if s.olog[i].matrix.Some? then s.olog[i] else s.olog[i].(matrix := matrix);
      HeldFounded(s, i, y.matrix, y.hash);
      PutFounded(s, s.(olog := s.olog[i := y]), i, y);
      CastPrepareFounded(s, from, i, y.(hash := d), d);
    } else {
      CastPrepareFounded(s, from, i, Slot(ONothing, matrix, None, map[], map[]), d);
    }
  }

  lemma KnownFounded(s: Node, i: nat, matrix: Option<Matrix>, d: Option<Digest<Matrix>>)
    requires AllFounded(s) && KnownSlot(s, i, matrix, d).Some?
    ensures Founded(KnownSlot(s, i, matrix, d).value, s.f)
  {
    if i in s.olog {
      HeldFounded(s, i, s.olog[i].matrix, d);
    }
  }

  lemma OnPrepareFounded(s: Node, from: PeerID, i: nat, matrix: Option<Matrix>, d: Option<Digest<Matrix>>)
    requires AllFounded(s)
    ensures AllFounded(OnPrepare(s, from, i, matrix, d)) && OnPrepare(s, from, i, matrix, d).f == s.f
  {
    hide AllFounded, TryPrepare, Founded;
    HaltFounded(s);
    match KnownSlot(s, i, matrix, d)
    case None =>
    case Some(x) =>
      KnownFounded(s, i, matrix, d);
      if from !in x.prepares {
        VoteFounded(x, from, d, s.f);
        TryPrepareFounded(s, i, x.(prepares := x.prepares[from := d]), d);
      }
  }

  lemma OnCommitFounded(s: Node, from: PeerID, i: nat, matrix: Option<Matrix>, d: Option<Digest<Matrix>>)
    requires AllFounded(s)
    ensures AllFounded(OnCommit(s, from, i, matrix, d)) && OnCommit(s, from, i, matrix, d).f == s.f
  {
    hide AllFounded, Exec, Senders, Majority;
    HaltFounded(s);
    match KnownSlot(s, i, matrix, d)
    case None =>
    case Some(x) =>
      KnownFounded(s, i, matrix, d);
      if from !in x.commits {
        var c := x.commits[from := d];
        VoteFounded(x, from, d, s.f);
        MajorityIs(c, d, s.f);
        var done := Majority(c, d, s.f) && x.status == OPrepared;
        var y := x.(commits := c, status := if done then OCommitted else x.status);
        PutFounded(s, s.(olog := s.olog[i := y]), i, y);
      }
  }

  /** Pre-ordering and the timers. */
  lemma OthersFounded(s: Node, ev: Event)
    requires LocalInv(s) && AllFounded(s) && (ev.Deliver? ==> !ev.m.Order?)
    ensures AllFounded(Step(s, ev)) && Step(s, ev).f == s.f
  {
    StepGood(s, ev);
    assert Step(s, ev).f == s.f by { hide LocalInv, Step; }
    hide LocalInv, Good, AllFounded, Founded, OnPORequest, OnPOAck, OnPOSummary, Quiet;
    match ev
    case Request(_, cmd) => SaidFounded(s, Step(s, ev));
    case SummaryTimer(_) => SaidFounded(s, Step(s, ev));
    case PrePrepareTimer(_) => OpensFounded(s);
    case Deliver(_, from, m) =>
      match m {
        case PORequest(id, cmd, hash) => OnPORequestApart(s, from, id, cmd, hash);
        case POAck(id, cmd, hash) => OnPOAckApart(s, from, id, cmd, hash);
        case POSummary(row) => OnPOSummaryApart(s, from, row);
      }
      SaidFounded(s, Step(s, ev));
  }

  lemma OpensFounded(s: Node)
    requires AllFounded(s)
    ensures AllFounded(SendPrePrepare(s))
  {
    hide Founded;
    forall x: Slot | ORank(x.status) <= 1 ensures Founded(x, s.f) {
      LowFounded(x, s.f);
    }
  }

  lemma OrderFounded(s: Node, from: PeerID, m: Msg)
    requires AllFounded(s) && m.Order?
    ensures AllFounded(Receive(s, from, m)) && Receive(s, from, m).f == s.f
  {
    hide AllFounded, OnPrePrepare, OnPrepare, OnCommit;
    match m.kind
    case PrePrepare => OnPrePrepareFounded(s, from, m.index, m.matrix, m.digest);
    case Prepare => OnPrepareFounded(s, from, m.index, m.matrix, m.digest);
    case Commit => OnCommitFounded(s, from, m.index, m.matrix, m.digest);
  }

  lemma StepFounded(s: Node, ev: Event)
    requires LocalInv(s) && AllFounded(s)
    ensures AllFounded(Step(s, ev)) && Step(s, ev).f == s.f
  {
    hide LocalInv, AllFounded, Receive, OnRequest, SendSummary, SendPrePrepare;
    if ev.Deliver? && ev.m.Order? {
      OrderFounded(s, ev.from, ev.m);
    } else {
      OthersFounded(s, ev);
    }
  }

  ghost predicate SysFounded(sys: System) {
    SysInv(sys) && forall p :: p in sys.nodes ==> AllFounded(sys.nodes[p])
  }

  lemma NodeOf(sys: System, p: PeerID)
    requires SysInv(sys) && p in sys.nodes
    ensures LocalInv(sys.nodes[p]) && sys.nodes[p].f == sys.f
  {
    hide LocalInv;
  }

  lemma {:induction false} RunFounded(sys: System, bare: bool, evs: seq<Event>)
    requires SysFounded(sys) && ValidRun(sys, bare, evs)
    ensures SysFounded(RunEnds(sys, bare, evs))
    decreases |evs|
  {
    hide SysInv, LocalInv, AllFounded, Step, Good;
    if evs != [] {
      StepKeeps(sys, evs[0]);
      NodeOf(sys, Actor(evs[0]));
      StepFounded(sys.nodes[Actor(evs[0])], evs[0]);
      RunFounded(After(sys, evs[0]), bare, evs[1..]);
    }
  }

  lemma StartFounded(sys: System)
    requires Start(sys)
    ensures SysFounded(sys)
  {
    StartInv(sys);
    hide SysInv;
  }

  /** In every run, a prepared slot has more than 2f equal prepares, and a committed one more than 2f equal commits. */
  lemma SlotQuorums(sys: System, bare: bool, p: PeerID, i: nat)
    requires Reached(sys, bare) && p in sys.nodes && i in sys.nodes[p].olog
    ensures var x := sys.nodes[p].olog[i];
      && (ORank(x.status) >= ORank(OPrepared) ==> exists d :: |Senders(x.prepares, d)| > 2 * sys.f)
      && (ORank(x.status) >= ORank(OCommitted) ==> exists d :: |Senders(x.commits, d)| > 2 * sys.f)
  {
    hide Start, SysInv, ValidRun, RunEnds;
    var start, evs :| Start(start) && ValidRun(start, bare, evs) && RunEnds(start, bare, evs) == sys;
    StartFounded(start);
    RunFounded(start, bare, evs);
    NodeOf(sys, p);
    assert Founded(sys.nodes[p].olog[i], sys.nodes[p].f);
  }
}
