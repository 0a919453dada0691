/** One read-write lock among any number of threads.  It refines "one writer or a bag of readers". */
module RwLockProtocol {
  import opened Base
  import opened Blocking
  import R = RwLock

  datatype Writer = NoWriter | Writing(t: Tid) | Granted(t: Tid) | Orphan

  /** Everything but `v` is history.  `active`: read holds, by holder.  `granted`: readers admitted from the
      queue that have not run yet.  `orphans`: admissions of readers that gave up with ETIMEDOUT. */
  datatype Rec = Rec(v: R.Val, writer: Writer, active: multiset<Tid>, granted: set<Tid>, orphans: nat)

  const FRESH := Rec(R.FRESH, NoWriter, multiset{}, {}, 0)

  predicate Holds(x: Rec, t: Tid) {
    t in x.active || x.writer == Writing(t)
  }

  ghost predicate Inv(g: Net, r: nat, x: Rec) {
    && (forall t :: Dequeued(g, t, ReaderQ(r)) <==> t in x.granted)
    && (forall t :: Dequeued(g, t, WriterQ(r)) <==> x.writer == Granted(t))
    && x.v.readers == |x.active| + |x.granted| + x.orphans
    && (x.v.readers > 0 ==> x.v.held && Qu(g, ReaderQ(r)) == [] && x.writer.NoWriter?)
    && (x.v.held && x.v.readers == 0 ==> !x.writer.NoWriter?)
    && (!x.v.held ==> Qu(g, ReaderQ(r)) == [] && Qu(g, WriterQ(r)) == [] && x.writer.NoWriter?)
  }

  lemma Frame(g: Net, g': Net, r: nat, x: Rec)
    requires Inv(g, r, x) && SameGrants(g, g', ReaderQ(r)) && SameGrants(g, g', WriterQ(r))
    ensures Inv(g', r, x)
  {
  }

  // ---------------------------------------------------------------- steps

  function Read(g: Net, r: nat, x: Rec, t: Tid, timed: bool, valid: bool): (Net, Rec, R.EnterResult) {
    var (v, q, res) := R.ReadSection(x.v, Qu(g, ReaderQ(r)), t, valid || !timed);
    match res
    case Acquired => (g, x.(v := v, active := x.active + multiset{t}), res)
    case MustWait => (Enqueue(g, t, ReaderQ(r), timed), x.(v := v), res)
    case Invalid => (g, x.(v := v), res)
  }

  function Write(g: Net, r: nat, x: Rec, t: Tid, timed: bool, valid: bool): (Net, Rec, R.EnterResult) {
    var (v, q, res) := R.WriteSection(x.v, Qu(g, WriterQ(r)), t, valid || !timed);
    match res
    case Acquired => (g, x.(v := v, writer := Writing(t)), res)
    case MustWait => (Enqueue(g, t, WriterQ(r), timed), x.(v := v), res)
    case Invalid => (g, x.(v := v), res)
  }

  function TryRead(x: Rec, t: Tid): (Rec, bool) {
    var (v, ok) := R.TryReadSection(x.v);
    (if ok then x.(v := v, active := x.active + multiset{t}) else x, ok)
  }

  function TryWrite(x: Rec, t: Tid): (Rec, bool) {
    var (v, ok) := R.TryWriteSection(x.v);
    (if ok then x.(v := v, writer := Writing(t)) else x, ok)
  }

  function Unlock(g: Net, r: nat, x: Rec, t: Tid): (Net, Rec, R.UnlockResult<Tid>) {
    var (v, rq, wq, res) := R.UnlockSection(x.v, Qu(g, ReaderQ(r)), Qu(g, WriterQ(r)));
    var active := if x.v.readers > 0 then x.active - multiset{t} else x.active;
    match res
    case ReadersRemain => (g, x.(v := v, active := active), res)
    case ToWriter(w) => (TakeOff(g, t, w, WriterQ(r)), x.(v := v, active := active, writer := Granted(w)), res)
    case ToReaders(ws) =>
      (TakeAll(g, t, ReaderQ(r)), x.(v := v, active := active, writer := NoWriter, granted := Elements(ws)), res)
    case Released => (g, x.(v := v, active := active, writer := NoWriter), res)
  }

  function ReadEpilogue(g: Net, x: Rec, t: Tid): (Net, Rec) {
    (Finish(g, t), x.(active := x.active + multiset{t}, granted := x.granted - {t}))
  }

  function WriteEpilogue(g: Net, x: Rec, t: Tid): (Net, Rec) {
    (Finish(g, t), x.(writer := Writing(t)))
  }

  function ReadGiveUp(g: Net, x: Rec, t: Tid): (Net, Rec)
    requires Th(g, t).port > 0
  {
    (Drain(g, t), x.(granted := x.granted - {t}, orphans := x.orphans + 1))
  }

  function WriteGiveUp(g: Net, x: Rec, t: Tid): (Net, Rec)
    requires Th(g, t).port > 0
  {
    (Drain(g, t), x.(writer := Orphan))
  }

  // ---------------------------------------------------------------- preservation

  /** What the code asserts on every path that takes the lock or joins its readers. */
  lemma AssertionsHold(g: Net, r: nat, x: Rec)
    requires Inv(g, r, x)
    ensures !x.v.held ==> Qu(g, ReaderQ(r)) == [] && Qu(g, WriterQ(r)) == [] && x.v.readers == 0
    ensures x.v.readers > 0 ==> Qu(g, ReaderQ(r)) == []
    ensures forall t :: Holds(x, t) ==> x.v.held
  {
    forall t | t in x.active ensures x.v.held {
      OneHoldLess(x, t);
    }
  }

  lemma ReadKeeps(g: Net, r: nat, x: Rec, t: Tid, timed: bool, valid: bool)
    requires NetInv(g) && Inv(g, r, x) && Th(g, t).wait.Out?
    ensures var (g', x', res) := Read(g, r, x, t, timed, valid); Inv(g', r, x')
  {
    EnqueueKeeps(g, t, ReaderQ(r), timed);
    assert SameView(g, Enqueue(g, t, ReaderQ(r), timed), WriterQ(r));
  }

  lemma WriteKeeps(g: Net, r: nat, x: Rec, t: Tid, timed: bool, valid: bool)
    requires NetInv(g) && Inv(g, r, x) && Th(g, t).wait.Out?
    ensures var (g', x', res) := Write(g, r, x, t, timed, valid); Inv(g', r, x')
  {
    EnqueueKeeps(g, t, WriterQ(r), timed);
    assert SameView(g, Enqueue(g, t, WriterQ(r), timed), ReaderQ(r));
  }

  lemma TryKeeps(g: Net, r: nat, x: Rec, t: Tid)
    requires Inv(g, r, x)
    ensures Inv(g, r, TryRead(x, t).0) && Inv(g, r, TryWrite(x, t).0)
  {
  }

  lemma OneHoldLess(x: Rec, t: Tid)
    requires t in x.active
    ensures |x.active - multiset{t}| == |x.active| - 1
  {
    assert x.active == (x.active - multiset{t}) + multiset{t};
  }

  lemma ToWriterKeeps(g: Net, r: nat, x: Rec, t: Tid)
    requires NetInv(g) && Inv(g, r, x) && Holds(x, t)
    requires x.v.readers <= 1 && Qu(g, WriterQ(r)) != []
    ensures var (g', x', res) := Unlock(g, r, x, t); Inv(g', r, x')
  {
    AssertionsHold(g, r, x);
    var (g', x', res) := Unlock(g, r, x, t);
    var wq := Qu(g, WriterQ(r));
    if t in x.active { OneHoldLess(x, t); }
    assert wq[0] in wq;
    WithoutDistinct(wq, wq[0]);
    TakeOffKeeps(g, t, wq[0], WriterQ(r));
    assert SameView(g, g', ReaderQ(r));
    assert forall u :: Waits(g', u, WriterQ(r)) <==> Waits(g, u, WriterQ(r));
  }

  lemma ToReadersKeeps(g: Net, r: nat, x: Rec, t: Tid)
    requires NetInv(g) && Inv(g, r, x) && Holds(x, t)
    requires x.v.readers <= 1 && Qu(g, WriterQ(r)) == [] && Qu(g, ReaderQ(r)) != []
    ensures var (g', x', res) := Unlock(g, r, x, t); Inv(g', r, x')
  {
    AssertionsHold(g, r, x);
    var (g', x', res) := Unlock(g, r, x, t);
    if t in x.active { OneHoldLess(x, t); }
    assert x.granted == {};
    forall u ensures u in Qu(g, ReaderQ(r)) <==> Waits(g, u, ReaderQ(r)) {
      assert !Dequeued(g, u, ReaderQ(r));
    }
    ElementsCount(Qu(g, ReaderQ(r)));
    TakeAllKeeps(g, t, ReaderQ(r));
    assert SameView(g, g', WriterQ(r));
    assert forall u :: Waits(g', u, ReaderQ(r)) <==> Waits(g, u, ReaderQ(r));
  }

  lemma UnlockKeeps(g: Net, r: nat, x: Rec, t: Tid)
    requires NetInv(g) && Inv(g, r, x) && Holds(x, t)
    ensures var (g', x', res) := Unlock(g, r, x, t); Inv(g', r, x')
  {
    AssertionsHold(g, r, x);
    if t in x.active { OneHoldLess(x, t); }
    var (g', x', res) := Unlock(g, r, x, t);
    match res
    case ToWriter(_) => ToWriterKeeps(g, r, x, t);
    case ToReaders(_) => ToReadersKeeps(g, r, x, t);
    case _ =>
  }

  lemma ReadEpilogueKeeps(g: Net, r: nat, x: Rec, t: Tid)
    requires NetInv(g) && Inv(g, r, x) && Waits(g, t, ReaderQ(r)) && AtStage(g, t, Finishing)
    ensures x.v.readers > 0
    ensures var (g', x') := ReadEpilogue(g, x, t); Inv(g', r, x')
  {
    assert Dequeued(g, t, ReaderQ(r));
    FinishKeeps(g, t);
    assert SameView(g, Finish(g, t), WriterQ(r));
  }

  lemma WriteEpilogueKeeps(g: Net, r: nat, x: Rec, t: Tid)
    requires NetInv(g) && Inv(g, r, x) && Waits(g, t, WriterQ(r)) && AtStage(g, t, Finishing)
    ensures x.v.readers == 0 && x.v.held
    ensures var (g', x') := WriteEpilogue(g, x, t); Inv(g', r, x')
  {
    assert Dequeued(g, t, WriterQ(r));
    FinishKeeps(g, t);
    assert SameView(g, Finish(g, t), ReaderQ(r));
  }

  lemma ReadGiveUpKeeps(g: Net, r: nat, x: Rec, t: Tid)
    requires NetInv(g) && Inv(g, r, x) && Waits(g, t, ReaderQ(r)) && AtStage(g, t, Draining) && Th(g, t).port > 0
    ensures var (g', x') := ReadGiveUp(g, x, t); Inv(g', r, x')
  {
    assert Dequeued(g, t, ReaderQ(r));
    DrainKeeps(g, t);
    assert SameView(g, Drain(g, t), WriterQ(r));
  }

  lemma WriteGiveUpKeeps(g: Net, r: nat, x: Rec, t: Tid)
    requires NetInv(g) && Inv(g, r, x) && Waits(g, t, WriterQ(r)) && AtStage(g, t, Draining) && Th(g, t).port > 0
    ensures var (g', x') := WriteGiveUp(g, x, t); Inv(g', r, x')
  {
    assert Dequeued(g, t, WriterQ(r));
    DrainKeeps(g, t);
    assert SameView(g, Drain(g, t), ReaderQ(r));
  }

  // ---------------------------------------------------------------- outcomes, in terms of the abstract lock

  predicate NobodyReads(x: Rec) {
    x.active == multiset{} && x.granted == {} && x.orphans == 0
  }

  /** A reader gets in exactly if no writer has the lock or was promised it; a writer exactly if nobody has or
      was promised anything.  Waiting writers do not keep readers out. */
  lemma EntersIff(g: Net, r: nat, x: Rec, t: Tid, timed: bool, valid: bool)
    requires Inv(g, r, x)
    ensures Read(g, r, x, t, timed, valid).2 == R.Acquired <==> x.writer.NoWriter?
    ensures Write(g, r, x, t, timed, valid).2 == R.Acquired <==> x.writer.NoWriter? && NobodyReads(x)
    ensures TryRead(x, t).1 <==> x.writer.NoWriter?
    ensures TryWrite(x, t).1 <==> x.writer.NoWriter? && NobodyReads(x)
  {
    assert |x.active| == 0 ==> x.active == multiset{};
    assert |x.granted| == 0 ==> x.granted == {};
  }

  /** The last unlock passes the lock on: to exactly one of the queued writers if there is one, otherwise to
      every queued reader, otherwise to nobody.  An earlier one lets nobody in. */
  lemma UnlockPassesOn(g: Net, r: nat, x: Rec, t: Tid)
    requires NetInv(g) && Inv(g, r, x) && Holds(x, t)
    ensures var (g', x', _) := Unlock(g, r, x, t);
      var last := x.v.readers <= 1;
      && (!last ==> g' == g && x'.writer == x.writer && x'.granted == x.granted)
      && (last && Qu(g, WriterQ(r)) != [] ==>
            x'.writer.Granted? && x'.writer.t in Qu(g, WriterQ(r)) && Dequeued(g', x'.writer.t, WriterQ(r)) && NobodyReads(x'))
      && (last && Qu(g, WriterQ(r)) == [] ==> x'.writer.NoWriter? && x'.active == multiset{} && x'.orphans == 0)
      && (last && Qu(g, WriterQ(r)) == [] ==> forall u :: u in x'.granted <==> u in Qu(g, ReaderQ(r)))
      && (last && Qu(g, WriterQ(r)) == [] && Qu(g, ReaderQ(r)) == [] ==> !x'.v.held)
  {
    AssertionsHold(g, r, x);
    UnlockKeeps(g, r, x, t);
    var (g', x', _) := Unlock(g, r, x, t);
    if t in x.active { OneHoldLess(x, t); }
    assert |x'.active| == 0 ==> x'.active == multiset{};
    assert |x.granted| == 0 ==> x.granted == {};
    if x.v.readers <= 1 && Qu(g, WriterQ(r)) != [] {
      assert Qu(g, WriterQ(r))[0] in Qu(g, WriterQ(r));
    }
  }

  /** The queues of the transition system are those the sections compute. */
  lemma QueuesAgree(g: Net, r: nat, x: Rec, t: Tid, timed: bool, valid: bool)
    ensures Qu(Read(g, r, x, t, timed, valid).0, ReaderQ(r)) == R.ReadSection(x.v, Qu(g, ReaderQ(r)), t, valid || !timed).1
    ensures Qu(Write(g, r, x, t, timed, valid).0, WriterQ(r)) == R.WriteSection(x.v, Qu(g, WriterQ(r)), t, valid || !timed).1
    ensures var (_, rq, wq, _) := R.UnlockSection(x.v, Qu(g, ReaderQ(r)), Qu(g, WriterQ(r)));
      Qu(Unlock(g, r, x, t).0, ReaderQ(r)) == rq && Qu(Unlock(g, r, x, t).0, WriterQ(r)) == wq
  {
  }
}
