/** The request buffer of peer/req_buf.go under concurrency: every lock, atomic and memory operation of an adder
    or a flusher is one step, and steps interleave freely.  The element type is the caller's.

    owners and handedOwners are history: who claimed which slot since the last flush, and whose elements have
    been handed over.  The index counts without the 32-bit wrap-around: it grows by one per waiting adder. */
module ReqBuf {
  import opened Quorums

  const CAP := 1024

  type Elem = int

  datatype Adder = Called | Locked | Claimed(k: nat) | Stored(k: nat) | Waiting | Woken | Returned

  datatype Flusher = Entered(force: bool) | Wanting | Holding | Counted(n: nat) | Unlocking | Left

  datatype State = State(
    threshold: int,
    elem: map<nat, Elem>,
    adders: map<nat, Adder>,
    flushers: map<nat, Flusher>,
    buf: seq<Option<Elem>>,
    i: nat,
    owners: seq<nat>,
    handed: seq<seq<Option<Elem>>>,
    handedOwners: seq<nat>)

  datatype Step =
    | Call(a: nat, e: Elem)
    | RLock(a: nat)
    | AddIndex(a: nat)
    | Write(a: nat)
    | Wait(a: nat)
    | RUnlock(a: nat)
    | Enter(fl: nat, force: bool)
    | Check(fl: nat)
    | Lock(fl: nat)
    | CountUp(fl: nat)
    | Hand(fl: nat)
    | Unlock(fl: nat)

  // ----- sync.RWMutex

  predicate Reading(x: Adder) {
    x.Locked? || x.Claimed? || x.Stored?
  }

  predicate Writing(x: Flusher) {
    x.Holding? || x.Counted? || x.Unlocking?
  }

  predicate Readers(s: State) {
    exists a :: a in s.adders && Reading(s.adders[a])
  }

  predicate Writers(s: State) {
    exists fl :: fl in s.flushers && Writing(s.flushers[fl])
  }

  // ----- the steps

  function Min(a: nat, b: nat): nat {
    if a < b then a else b
  }

  predicate AdderIs(s: State, a: nat, test: Adder -> bool) {
    a in s.adders && a in s.elem && test(s.adders[a])
  }

  predicate FlusherIs(s: State, fl: nat, test: Flusher -> bool) {
    fl in s.flushers && test(s.flushers[fl])
  }

  predicate Enabled(s: State, st: Step) {
    && |s.buf| == CAP
    && match st
       case Call(a, _) => a !in s.adders
       case RLock(a) => AdderIs(s, a, (x: Adder) => x.Called? || x.Woken?) && !Writers(s)
       case AddIndex(a) => AdderIs(s, a, (x: Adder) => x.Locked?)
       case Write(a) => AdderIs(s, a, (x: Adder) => x.Claimed? && x.k < CAP)
       case Wait(a) => AdderIs(s, a, (x: Adder) => x.Claimed? && x.k >= CAP)
       case RUnlock(a) => AdderIs(s, a, (x: Adder) => x.Stored?)
       case Enter(fl, _) => fl !in s.flushers
       case Check(fl) => FlusherIs(s, fl, (x: Flusher) => x.Entered?)
       case Lock(fl) => FlusherIs(s, fl, (x: Flusher) => x.Wanting?) && !Writers(s) && !Readers(s)
       case CountUp(fl) => FlusherIs(s, fl, (x: Flusher) => x.Holding?)
       case Hand(fl) => FlusherIs(s, fl, (x: Flusher) => x.Counted? && x.n <= CAP)
       case Unlock(fl) => FlusherIs(s, fl, (x: Flusher) => x.Unlocking?)
  }

  function Adds(s: State, a: nat, x: Adder): State {
    s.(adders := s.adders[a := x])
  }

  function Flushes(s: State, fl: nat, x: Flusher): State {
    s.(flushers := s.flushers[fl := x])
  }

  /** Broadcast: everybody who waits is woken. */
  function Wake(adders: map<nat, Adder>): map<nat, Adder> {
    map a | a in adders :: if adders[a].Waiting? then Woken else adders[a]
  }

  function After(s: State, st: Step): State
    requires Enabled(s, st)
  {
    match st
    case Call(a, e) => Adds(s, a, Called).(elem := s.elem[a := e])
    case RLock(a) => Adds(s, a, Locked)
    case AddIndex(a) => Adds(s, a, Claimed(s.i)).(i := s.i + 1, owners := s.owners + [a])
    case Write(a) => Adds(s, a, Stored(s.adders[a].k)).(buf := s.buf[s.adders[a].k := Some(s.elem[a])])
    case Wait(a) => Adds(s, a, Waiting)
    case RUnlock(a) => Adds(s, a, Returned)
    case Enter(fl, force) => Flushes(s, fl, Entered(force))
    case Check(fl) => Flushes(s, fl, if s.i < s.threshold && !s.flushers[fl].force then Left else Wanting)
    case Lock(fl) => Flushes(s, fl, Holding)
    case CountUp(fl) => Flushes(s, fl, Counted(Min(s.i, CAP))).(adders := if s.i >= CAP then Wake(s.adders) else s.adders)
    case Hand(fl) =>
      var n := s.flushers[fl].n;
      if n == 0 then Flushes(s, fl, Unlocking)
      else Flushes(s, fl, Unlocking).(i := 0, owners := [], handed := s.handed + [s.buf[..n]],
                                      handedOwners := s.handedOwners + if n <= |s.owners| then s.owners[..n] else [])
    case Unlock(fl) => Flushes(s, fl, Left)
  }

  function Initial(threshold: int): State {
    State(threshold, map[], map[], map[], seq(CAP, j => None), 0, [], [], [])
  }

  // ----- the invariant

  /** A flusher inside the lock is alone there. */
  ghost predicate Exclusive(s: State) {
    forall fl :: fl in s.flushers && Writing(s.flushers[fl]) ==>
      && (forall a :: a in s.adders ==> !Reading(s.adders[a]))
      && (forall g :: g in s.flushers && Writing(s.flushers[g]) ==> g == fl)
  }

  /** Who holds a slot of the buffer. */
  ghost predicate Claims(s: State) {
    && |s.owners| == s.i
    && (forall a :: a in s.adders && (s.adders[a].Claimed? || s.adders[a].Stored?) ==>
          s.adders[a].k < s.i && s.owners[s.adders[a].k] == a)
    && (forall a :: a in s.adders && s.adders[a].Stored? ==> s.adders[a].k < CAP)
    && (forall k :: 0 <= k < s.i ==> s.owners[k] in s.adders && s.owners[k] in s.elem)
    && (forall k :: 0 <= k < Min(s.i, CAP) ==>
          s.adders[s.owners[k]] == Claimed(k) || s.adders[s.owners[k]] == Stored(k) || s.adders[s.owners[k]] == Returned)
  }

  /** A slot whose owner has gone past the write holds the owner's element. */
  ghost predicate Written(s: State) {
    && |s.buf| == CAP && |s.owners| == s.i
    && (forall k :: 0 <= k < Min(s.i, CAP) ==> s.owners[k] in s.adders && s.owners[k] in s.elem)
    && (forall k :: 0 <= k < Min(s.i, CAP) && !s.adders[s.owners[k]].Claimed? ==> s.buf[k] == Some(s.elem[s.owners[k]]))
  }

  /** Everybody whose element has been or will be handed over, once each. */
  function Placed(s: State): seq<nat> {
    s.handedOwners + if |s.owners| <= CAP then s.owners else s.owners[..CAP]
  }

  ghost predicate Kept(s: State) {
    && (forall a :: a in s.adders && s.adders[a].Returned? ==> a in Placed(s))
    && (forall a :: a in s.handedOwners ==> a in s.adders && s.adders[a].Returned? && a in s.elem)
    && (forall j, k :: 0 <= j < k < |Placed(s)| ==> Placed(s)[j] != Placed(s)[k])
  }

  function Flat(batches: seq<seq<Option<Elem>>>): seq<Option<Elem>> {
    if batches == [] then [] else Flat(batches[..|batches| - 1]) + batches[|batches| - 1]
  }

  /** The elements of some adders. */
  function Elems(elem: map<nat, Elem>, who: seq<nat>): seq<Option<Elem>> {
    seq(|who|, k requires 0 <= k < |who| => if who[k] in elem then Some(elem[who[k]]) else None)
  }

  ghost predicate Batches(s: State) {
    Flat(s.handed) == Elems(s.elem, s.handedOwners)
  }

  /** Nobody waits unless the buffer is full; a flusher that has counted has woken all. */
  ghost predicate Waits(s: State) {
    && (forall a :: a in s.adders && s.adders[a].Waiting? ==> s.i > CAP)
    && (forall fl :: fl in s.flushers && s.flushers[fl].Counted? ==>
          s.flushers[fl].n == Min(s.i, CAP) && forall a :: a in s.adders ==> !s.adders[a].Waiting?)
  }

  ghost predicate Known(s: State) {
    s.adders.Keys == s.elem.Keys && |s.buf| == CAP
  }

  ghost predicate Inv(s: State) {
    Known(s) && Exclusive(s) && Claims(s) && Written(s) && Kept(s) && Batches(s) && Waits(s)
  }

  // ----- every step keeps it

  lemma ExclusiveKeeps(s: State, st: Step)
    requires Inv(s) && Enabled(s, st)
    ensures Exclusive(After(s, st)) && Known(After(s, st))
  {
    hide Claims, Written, Kept, Batches, Waits;
    assert Exclusive(s) && Known(s);
  }

  lemma ClaimsKeeps(s: State, st: Step)
    requires Inv(s) && Enabled(s, st)
    ensures Claims(After(s, st))
  {
    hide Written, Kept, Batches, Waits;
    assert Exclusive(s) && Known(s) && Claims(s);
  }

  lemma WrittenKeeps(s: State, st: Step)
    requires Inv(s) && Enabled(s, st)
    ensures Written(After(s, st))
  {
    hide Exclusive, Kept, Batches, Waits;
    assert Known(s) && Claims(s) && Written(s);
  }

  lemma WaitsKeeps(s: State, st: Step)
    requires Inv(s) && Enabled(s, st)
    ensures Waits(After(s, st))
  {
    hide Written, Kept, Batches;
    assert Known(s) && Exclusive(s) && Claims(s) && Waits(s);
  }

  /** What a flusher is about to pass on: the elements of all who hold a slot, each of them written and returned. */
  lemma HandsWritten(s: State, fl: nat)
    requires Inv(s) && Enabled(s, Hand(fl))
    ensures var n := s.flushers[fl].n;
      && n == Min(s.i, CAP) && n <= |s.owners| && s.buf[..n] == Elems(s.elem, s.owners[..n])
      && Placed(s) == s.handedOwners + s.owners[..n]
      && forall k :: 0 <= k < n ==> s.owners[k] in s.adders && s.adders[s.owners[k]] == Returned
  {
    hide Kept, Batches;
    var n := s.flushers[fl].n;
    assert Writing(s.flushers[fl]);
    forall k | 0 <= k < n ensures s.owners[k] in s.adders && s.adders[s.owners[k]] == Returned && s.buf[k] == Some(s.elem[s.owners[k]]) {
      assert !Reading(s.adders[s.owners[k]]);
    }
  }

  lemma ElemsSame(elem: map<nat, Elem>, more: map<nat, Elem>, who: seq<nat>)
    requires forall a :: a in who ==> a in elem && a in more && more[a] == elem[a]
    ensures Elems(elem, who) == Elems(more, who)
  {
  }

  lemma ElemsConcat(elem: map<nat, Elem>, a: seq<nat>, b: seq<nat>)
    ensures Elems(elem, a + b) == Elems(elem, a) + Elems(elem, b)
  {
  }

  lemma FlatAppend(batches: seq<seq<Option<Elem>>>, b: seq<Option<Elem>>)
    ensures Flat(batches + [b]) == Flat(batches) + b
  {
    assert (batches + [b])[..|batches|] == batches;
  }

  lemma BatchesKeeps(s: State, st: Step)
    requires Inv(s) && Enabled(s, st)
    ensures Batches(After(s, st))
  {
    var t := After(s, st);
    assert Kept(s) && Batches(s) && Known(s);
    if st.Hand? && s.flushers[st.fl].n > 0 {
      HandsWritten(s, st.fl);
      var n := s.flushers[st.fl].n;
      hide Inv, Flat, Elems, Kept, Known;
      FlatAppend(s.handed, s.buf[..n]);
      ElemsConcat(s.elem, s.handedOwners, s.owners[..n]);
    } else {
      hide Inv;
      ElemsSame(s.elem, t.elem, s.handedOwners);
    }
  }

  lemma KeptFrame(s: State, t: State)
    requires Kept(s) && Placed(t) == Placed(s) && t.handedOwners == s.handedOwners
    requires forall a :: a in s.adders ==> a in t.adders && (s.adders[a].Returned? ==> t.adders[a].Returned?)
    requires forall a :: a in t.adders && t.adders[a].Returned? ==> a in Placed(s)
    requires forall a :: a in s.elem ==> a in t.elem
    ensures Kept(t)
  {
    hide Placed;
  }

  lemma StoredPlaced(s: State, a: nat)
    requires Claims(s) && a in s.adders && s.adders[a].Stored?
    ensures a in Placed(s)
  {
    var k := s.adders[a].k;
    assert k < Min(s.i, CAP) && s.owners[k] == a;
    assert Placed(s)[|s.handedOwners| + k] == a;
  }

  /** A claim of a free slot places a new adder; a claim beyond the buffer places nobody. */
  lemma AddPlaces(s: State, a: nat)
    requires Inv(s) && Enabled(s, AddIndex(a))
    ensures Kept(After(s, AddIndex(a)))
  {
    hide Batches, Written, Waits;
    var t := After(s, AddIndex(a));
    if s.i < CAP {
      assert Placed(t) == Placed(s) + [a];
      assert a !in Placed(s);
    } else {
      assert Placed(t) == Placed(s);
      KeptFrame(s, t);
    }
  }

  lemma KeptKeeps(s: State, st: Step)
    requires Inv(s) && Enabled(s, st)
    ensures Kept(After(s, st))
  {
    if st.AddIndex? {
      AddPlaces(s, st.a);
    } else if st.Hand? {
      HandKeeps(s, st.fl);
    } else {
      if st.RUnlock? {
        StoredPlaced(s, st.a);
      }
      hide Batches, Written, Waits, Exclusive, Claims;
      KeptFrame(s, After(s, st));
    }
  }

  lemma SamePlaced(s: State, t: State, n: nat)
    requires n <= |s.owners| && Placed(s) == s.handedOwners + s.owners[..n] && t.owners == [] && t.handedOwners == s.handedOwners + s.owners[..n]
    ensures Placed(t) == Placed(s)
  {
  }

  lemma SameOwners(s: State, t: State)
    requires t.owners == s.owners && t.handedOwners == s.handedOwners
    ensures Placed(t) == Placed(s)
  {
  }

  lemma HandKeeps(s: State, fl: nat)
    requires Inv(s) && Enabled(s, Hand(fl))
    ensures Kept(After(s, Hand(fl)))
  {
    var t, n := After(s, Hand(fl)), s.flushers[fl].n;
    HandsWritten(s, fl);
    hide Batches, Written, Waits, Exclusive, Claims, Placed;
    if n > 0 {
      assert Placed(t) == Placed(s) by { SamePlaced(s, t, n); }
      forall a | a in t.handedOwners ensures a in t.adders && t.adders[a].Returned? && a in t.elem {
        if a !in s.handedOwners {
          assert a in s.owners[..n];
        }
      }
    } else {
      SameOwners(s, t);
      KeptFrame(s, t);
    }
  }

  lemma StepKeeps(s: State, st: Step)
    requires Inv(s) && Enabled(s, st)
    ensures Inv(After(s, st))
  {
    ExclusiveKeeps(s, st);
    ClaimsKeeps(s, st);
    WrittenKeeps(s, st);
    WaitsKeeps(s, st);
    BatchesKeeps(s, st);
    KeptKeeps(s, st);
  }

  // ----- runs

  predicate ValidRun(s: State, steps: seq<Step>)
    decreases |steps|
  {
    steps == [] || (Enabled(s, steps[0]) && ValidRun(After(s, steps[0]), steps[1..]))
  }

  function RunEnds(s: State, steps: seq<Step>): State
    requires ValidRun(s, steps)
    decreases |steps|
  {
    if steps == [] then s else RunEnds(After(s, steps[0]), steps[1..])
  }

  lemma {:induction false} RunKeeps(s: State, steps: seq<Step>)
    requires Inv(s) && ValidRun(s, steps)
    ensures Inv(RunEnds(s, steps))
    decreases |steps|
  {
    hide Inv, Enabled;
    if steps != [] {
      StepKeeps(s, steps[0]);
      RunKeeps(After(s, steps[0]), steps[1..]);
    }
  }

  lemma InitialInv(threshold: int)
    ensures Inv(Initial(threshold))
  {
  }

  /** Reliable hand-off: after any interleaving, each adder that has returned stands exactly once among those
      handed over and those in the buffer, and what the flushers have passed on is exactly the elements of
      those handed over, each after its add had returned. */
  lemma HandOff(threshold: int, steps: seq<Step>, a: nat)
    requires ValidRun(Initial(threshold), steps)
    ensures var s := RunEnds(Initial(threshold), steps);
      && (a in s.adders && s.adders[a].Returned? ==>
            exists j :: 0 <= j < |Placed(s)| && Placed(s)[j] == a && forall k :: 0 <= k < |Placed(s)| && Placed(s)[k] == a ==> k == j)
      && Flat(s.handed) == Elems(s.elem, s.handedOwners)
      && (a in s.handedOwners ==> a in s.adders && s.adders[a].Returned?)
  {
    InitialInv(threshold);
    RunKeeps(Initial(threshold), steps);
    var s := RunEnds(Initial(threshold), steps);
    hide RunEnds, ValidRun;
    assert Kept(s) && Batches(s);
    if a in s.adders && s.adders[a].Returned? {
      var j :| 0 <= j < |Placed(s)| && Placed(s)[j] == a;
      assert forall k :: 0 <= k < |Placed(s)| && Placed(s)[k] == a ==> k == j;
    }
  }

  /** No stale slot: a flush passes on, slot by slot, what the adders of this round have written. */
  lemma FlushExposes(threshold: int, steps: seq<Step>, fl: nat)
    requires ValidRun(Initial(threshold), steps) && Enabled(RunEnds(Initial(threshold), steps), Hand(fl))
    ensures var s := RunEnds(Initial(threshold), steps);
      var n := s.flushers[fl].n;
      && n == Min(s.i, CAP) && n <= |s.owners| && s.buf[..n] == Elems(s.elem, s.owners[..n])
      && forall k :: 0 <= k < n ==> s.owners[k] in s.adders && s.adders[s.owners[k]] == Returned
  {
    InitialInv(threshold);
    RunKeeps(Initial(threshold), steps);
    HandsWritten(RunEnds(Initial(threshold), steps), fl);
  }

  /** No lost wake-up: whoever waits waits for a buffer that is over-full, and any flush of it wakes him. */
  lemma WaitersAreOwed(threshold: int, steps: seq<Step>, a: nat)
    requires ValidRun(Initial(threshold), steps)
    ensures var s := RunEnds(Initial(threshold), steps);
      && (a in s.adders && s.adders[a].Waiting? ==> s.i > CAP)
      && (forall fl :: Enabled(s, CountUp(fl)) && a in s.adders && s.adders[a].Waiting? ==> After(s, CountUp(fl)).adders[a] == Woken)
  {
    hide RunEnds, ValidRun, Initial, Claims, Written, Kept, Batches, Exclusive;
    InitialInv(threshold);
    RunKeeps(Initial(threshold), steps);
    var s := RunEnds(Initial(threshold), steps);
    assert Waits(s);
    hide Inv;
  }
}
