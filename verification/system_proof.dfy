/** Every step of every thread keeps the invariant of the whole system. */
module SystemProof {
  import opened Base
  import opened Blocking
  import opened System
  import M = Mutex
  import C = Condition
  import MP = MutexProtocol
  import RP = RwLockProtocol
  import SP = SemaphoreProtocol
  import BP = BarrierProtocol

  // ---------------------------------------------------------------- primitives

  ghost predicate SameOwner(p: Qid, q: Qid) {
    || p == q
    || (p.ReaderQ? && q.WriterQ? && p.r == q.w)
    || (p.WriterQ? && q.ReaderQ? && p.w == q.r)
  }

  ghost predicate SameRec(s: State, s': State, q: Qid) {
    match q
    case MutexQ(m) => Mx(s', m) == Mx(s, m)
    case ReaderQ(r) => Rw(s', r) == Rw(s, r)
    case WriterQ(r) => Rw(s', r) == Rw(s, r)
    case SemQ(i) => Se(s', i) == Se(s, i)
    case BarrierQ(b) => Ba(s', b) == Ba(s, b)
    case CondQ(_) => true
  }

  lemma PrimFrame(s: State, s': State, p: Qid)
    requires PrimOk(s, p) && SameRec(s, s', p)
    requires forall o :: SameOwner(o, p) ==> SameView(s.net, s'.net, o)
    ensures PrimOk(s', p)
  {
    assert SameView(s.net, s'.net, p);
    match p
    case MutexQ(m) => MP.Frame(s.net, s'.net, m, Mx(s, m));
    case ReaderQ(r) =>
      assert SameView(s.net, s'.net, WriterQ(r));
      RP.Frame(s.net, s'.net, r, Rw(s, r));
    case WriterQ(r) =>
      assert SameView(s.net, s'.net, ReaderQ(r));
      RP.Frame(s.net, s'.net, r, Rw(s, r));
    case SemQ(i) => SP.Frame(s.net, s'.net, i, Se(s, i));
    case BarrierQ(b) => BP.Frame(s.net, s'.net, b, Ba(s, b));
    case CondQ(_) =>
  }

  /** A step that touches one primitive only has that primitive to answer for. */
  lemma PrimsKeep(s: State, s': State, q: Qid)
    requires (forall p :: PrimOk(s, p)) && PrimOk(s', q)
    requires SameElsewhere(s.net, s'.net, q)
    requires forall p :: SameOwner(p, q) || SameRec(s, s', p)
    ensures forall p :: PrimOk(s', p)
  {
    forall p ensures PrimOk(s', p) {
      assert PrimOk(s, p);
      if !SameOwner(p, q) {
        forall o | SameOwner(o, p) ensures SameView(s.net, s'.net, o) {
          assert o != q;
        }
        PrimFrame(s, s', p);
      }
    }
  }

  lemma PrimsSame(s: State, s': State)
    requires (forall p :: PrimOk(s, p)) && SameEverywhere(s.net, s'.net)
    requires forall p :: SameRec(s, s', p)
    ensures forall p :: PrimOk(s', p)
  {
    forall p ensures PrimOk(s', p) {
      assert PrimOk(s, p);
      PrimFrame(s, s', p);
    }
  }

  /** A timed-out thread leaving its queue is nobody's business. */
  lemma LeavingKeeps(s: State, s': State, q: Qid)
    requires PrimOk(s, q) && !q.BarrierQ? && SameRec(s, s', q)
    requires SameElsewhere(s.net, s'.net, q) && SameGrants(s.net, s'.net, q)
    ensures PrimOk(s', q)
  {
    match q
    case MutexQ(m) => MP.Frame(s.net, s'.net, m, Mx(s, m));
    case ReaderQ(r) =>
      assert SameView(s.net, s'.net, WriterQ(r));
      RP.Frame(s.net, s'.net, r, Rw(s, r));
    case WriterQ(r) =>
      assert SameView(s.net, s'.net, ReaderQ(r));
      RP.Frame(s.net, s'.net, r, Rw(s, r));
    case SemQ(i) => SP.Frame(s.net, s'.net, i, Se(s, i));
    case CondQ(_) =>
  }

  // ---------------------------------------------------------------- threads

  /** What a step of `t` must leave alone: the other threads, and the mutexes they own. */
  ghost predicate OthersSame(s: State, s': State, t: Tid) {
    && (forall u :: u != t ==> PcOf(s', u) == PcOf(s, u) && Th(s'.net, u).wait == Th(s.net, u).wait)
    && (forall c, u :: u != t && u in Qu(s'.net, CondQ(c)) ==> u in Qu(s.net, CondQ(c)))
    && (forall m :: Mx(s', m).breached == Mx(s, m).breached)
    && (forall m :: !Mx(s, m).breached && (Mx(s, m).holder.Held? || Mx(s, m).holder.Orphan?) && Mx(s, m).holder.t != t ==>
          Mx(s', m).holder == Mx(s, m).holder)
  }

  /** ... and what it may do to a cancel_lock. */
  ghost predicate CancelLockStep(s: State, s': State, t: Tid, p: Tid) {
    var x, x' := Mx(s, CancelLock(p)), Mx(s', CancelLock(p));
    && x'.v.kind == M.Normal && !x'.v.lock && !x'.tainted && x'.breached == x.breached
    && (!x.breached && x'.holder.Held? && x'.holder != x.holder ==> x'.holder.t == t)
    && (!x.breached && x'.holder.Held? && x'.holder.t == t ==> CancelHeld(PcOf(s', t), t) == Some(p))
    && (x.breached && p == t && OnCond(PcOf(s', t)) ==> OnCond(PcOf(s, t)))
  }

  lemma OtherKeeps(s: State, s': State, t: Tid, u: Tid)
    requires u != t && ThreadOk(s, u) && OthersSame(s, s', t)
    requires s'.cancels == s.cancels && CancelLockStep(s, s', t, u)
    requires PcOf(s, t).CHook? ==>
      PcOf(s', t) == PcOf(s, t) && Mx(s', CancelLock(PcOf(s, t).p)).holder == Mx(s, CancelLock(PcOf(s, t).p)).holder
    ensures ThreadOk(s', u)
  {
  }

  lemma ThreadsKeep(s: State, s': State, t: Tid)
    requires (forall u :: ThreadOk(s, u)) && OthersSame(s, s', t)
    requires s'.cancels == s.cancels && (forall p :: CancelLockStep(s, s', t, p))
    requires PcOf(s, t).CHook? ==>
      PcOf(s', t) == PcOf(s, t) && Mx(s', CancelLock(PcOf(s, t).p)).holder == Mx(s, CancelLock(PcOf(s, t).p)).holder
    requires WaitOk(s', t) && HooksOk(s', t) && LocksOk(s', t) && RequestOk(s', t)
    ensures forall u :: ThreadOk(s', u)
  {
    forall u ensures ThreadOk(s', u) {
      assert ThreadOk(s, u);
      assert CancelLockStep(s, s', t, u);
      if u != t {
        OtherKeeps(s, s', t, u);
      } else if !Breached(s, t) && Mx(s', CancelLock(t)).holder.Held? && Mx(s', CancelLock(t)).holder.t != t {
        assert Mx(s', CancelLock(t)).holder == Mx(s, CancelLock(t)).holder;
      }
    }
  }

  /** Steps in which no thread moves in its program and no mutex changes. */
  lemma PlainKeeps(s: State, s': State, t: Tid)
    requires forall u :: ThreadOk(s, u)
    requires s'.pcs == s.pcs && s'.cancels == s.cancels && s'.mutexes == s.mutexes
    requires forall u :: u != t ==> Th(s'.net, u).wait == Th(s.net, u).wait
    requires forall c, u :: u in Qu(s'.net, CondQ(c)) ==> u in Qu(s.net, CondQ(c))
    requires WaitOk(s', t)
    ensures forall u :: ThreadOk(s', u)
  {
    assert ThreadOk(s, t);
    forall p ensures CancelLockStep(s, s', t, p) {
      assert CancelLockOk(s, p) by { assert ThreadOk(s, p); }
    }
    ThreadsKeep(s, s', t);
  }

  // ---------------------------------------------------------------- the blocking protocol

  lemma SendStep(s: State, t: Tid)
    requires Inv(s) && Th(s.net, t).sends != []
    ensures Inv(s.(net := Blocking.Send(s.net, t)))
  {
    var s' := s.(net := Blocking.Send(s.net, t));
    SendKeeps(s.net, t);
    assert ThreadOk(s, t);
    PrimsSame(s, s');
    PlainKeeps(s, s', t);
  }

  lemma ReceiveStep(s: State, t: Tid)
    requires Inv(s) && Receiving(s, t) && Th(s.net, t).port > 0
    ensures Inv(s.(net := Blocking.Receive(s.net, t)))
  {
    var s' := s.(net := Blocking.Receive(s.net, t));
    ReceiveKeeps(s.net, t);
    assert ThreadOk(s, t);
    PrimsSame(s, s');
    PlainKeeps(s, s', t);
  }

  lemma TimeOutStep(s: State, t: Tid)
    requires Inv(s) && Receiving(s, t) && Th(s.net, t).wait.timed
    ensures Inv(s.(net := Blocking.TimeOut(s.net, t)))
  {
    var s' := s.(net := Blocking.TimeOut(s.net, t));
    TimeOutKeeps(s.net, t);
    assert ThreadOk(s, t);
    PrimsSame(s, s');
    PlainKeeps(s, s', t);
  }

  /** The waits on a condition that end here move on to retaking the thread's own cancel_lock. */
  lemma CondWaitEnds(s: State, s': State, t: Tid, err: bool)
    requires Inv(s) && Th(s.net, t).wait.In? && Th(s.net, t).wait.q.CondQ?
    requires !AtStage(s.net, t, Stage.Blocking)
    requires s'.pcs == s.pcs[t := AfterWait(PcOf(s, t), err)] && s'.cancels == s.cancels && s'.mutexes == s.mutexes
    requires Th(s'.net, t).wait.Out? && forall u :: u != t ==> Th(s'.net, u).wait == Th(s.net, u).wait
    requires forall c, u :: u in Qu(s'.net, CondQ(c)) ==> u in Qu(s.net, CondQ(c))
    ensures forall u :: ThreadOk(s', u)
  {
    assert ThreadOk(s, t);
    forall p ensures CancelLockStep(s, s', t, p) {
      assert ThreadOk(s, p);
    }
    ThreadsKeep(s, s', t);
  }

  /** PlainKeeps, for a step that stores the program counter it found. */
  lemma MovesOn(s: State, s': State, t: Tid)
    requires forall u :: ThreadOk(s, u)
    requires s'.pcs == s.pcs[t := PcOf(s, t)] && s'.cancels == s.cancels && s'.mutexes == s.mutexes
    requires forall u :: u != t ==> Th(s'.net, u).wait == Th(s.net, u).wait
    requires forall c, u :: u in Qu(s'.net, CondQ(c)) ==> u in Qu(s.net, CondQ(c))
    requires WaitOk(s', t)
    ensures forall u :: ThreadOk(s', u)
  {
    assert ThreadOk(s, t);
    forall p ensures CancelLockStep(s, s', t, p) {
      assert ThreadOk(s, p);
    }
    ThreadsKeep(s, s', t);
  }

  lemma RecheckQueuedStep(s: State, t: Tid)
    requires Inv(s) && AtStage(s.net, t, TimedOut) && !Th(s.net, t).wait.q.BarrierQ? && Queued(s.net, t)
    ensures Inv(s.(net := Blocking.Recheck(s.net, t), pcs := s.pcs[t := AfterWait(PcOf(s, t), true)]))
  {
    var s' := s.(net := Blocking.Recheck(s.net, t), pcs := s.pcs[t := AfterWait(PcOf(s, t), true)]);
    var q := Th(s.net, t).wait.q;
    RecheckKeeps(s.net, t);
    assert ThreadOk(s, t);
    assert PrimOk(s, q);
    LeavingKeeps(s, s', q);
    PrimsKeep(s, s', q);
    if q.CondQ? {
      CondWaitEnds(s, s', t, true);
    } else {
      MovesOn(s, s', t);
    }
  }

  lemma RecheckOffStep(s: State, t: Tid)
    requires Inv(s) && (AtStage(s.net, t, TimedOut) || AtStage(s.net, t, Taken)) && !Th(s.net, t).wait.q.BarrierQ?
    requires !Queued(s.net, t)
    ensures Inv(s.(net := Blocking.Recheck(s.net, t), pcs := s.pcs[t := PcOf(s, t)]))
  {
    var s' := s.(net := Blocking.Recheck(s.net, t), pcs := s.pcs[t := PcOf(s, t)]);
    RecheckKeeps(s.net, t);
    assert ThreadOk(s, t);
    PrimsSame(s, s');
    MovesOn(s, s', t);
  }

  // ---------------------------------------------------------------- read-write locks, semaphores, barriers

  /** A step of a thread in user code, or ending a wait there, on a primitive other than a mutex. */
  lemma UserStep(s: State, s': State, t: Tid, q: Qid)
    requires Inv(s) && PcOf(s, t).Run? && !q.MutexQ?
    requires NetInv(s'.net) && SameElsewhere(s.net, s'.net, q) && PrimOk(s', q)
    requires s'.mutexes == s.mutexes && s'.pcs == s.pcs && s'.cancels == s.cancels
    requires forall p :: SameOwner(p, q) || SameRec(s, s', p)
    requires forall u :: u != t ==> Th(s'.net, u).wait == Th(s.net, u).wait
    requires var w := Th(s'.net, t).wait;
      w.Out? || (w.q == q && !q.CondQ? && (q.BarrierQ? ==> !w.timed && w.stage == Stage.Blocking))
    requires q.CondQ? ==> forall u :: u in Qu(s'.net, q) ==> u in Qu(s.net, q)
    ensures Inv(s')
  {
    assert ThreadOk(s, t);
    PrimsKeep(s, s', q);
    forall c, u | u in Qu(s'.net, CondQ(c)) ensures u in Qu(s.net, CondQ(c)) {
      if CondQ(c) != q {
        assert SameView(s.net, s'.net, CondQ(c));
      }
    }
    PlainKeeps(s, s', t);
  }

  lemma RwCommit(s: State, t: Tid, q: Qid, r: nat, g: Net, x: RP.Rec)
    requires Inv(s) && PcOf(s, t).Run? && (q == ReaderQ(r) || q == WriterQ(r))
    requires RP.Inv(g, r, x) && NetStep(s.net, g, t, q)
    ensures Inv(s.(net := g, rws := s.rws[r := x]))
  {
    var s' := s.(net := g, rws := s.rws[r := x]);
    assert Rw(s', r) == x;
    UserStep(s, s', t, q);
  }

  lemma SemCommit(s: State, t: Tid, i: nat, g: Net, x: SP.Rec)
    requires Inv(s) && PcOf(s, t).Run?
    requires SP.Inv(g, i, x) && NetStep(s.net, g, t, SemQ(i))
    ensures Inv(s.(net := g, sems := s.sems[i := x]))
  {
    var s' := s.(net := g, sems := s.sems[i := x]);
    assert Se(s', i) == x;
    UserStep(s, s', t, SemQ(i));
  }

  lemma BarrierCommit(s: State, t: Tid, b: nat, g: Net, x: BP.Rec)
    requires Inv(s) && PcOf(s, t).Run?
    requires BP.Inv(g, b, x) && NetStep(s.net, g, t, BarrierQ(b)) && (Th(g, t).wait.In? ==> Th(g, t).wait == In(BarrierQ(b), false, Stage.Blocking))
    ensures Inv(s.(net := g, bars := s.bars[b := x]))
  {
    var s' := s.(net := g, bars := s.bars[b := x]);
    assert Ba(s', b) == x;
    UserStep(s, s', t, BarrierQ(b));
  }

  lemma ReadStep(s: State, t: Tid, r: nat, timed: bool, valid: bool)
    requires Inv(s) && InUser(s, t)
    ensures var (g, x, _) := RP.Read(s.net, r, Rw(s, r), t, timed, valid); Inv(s.(net := g, rws := s.rws[r := x]))
  {
    var (g, x, _) := RP.Read(s.net, r, Rw(s, r), t, timed, valid);
    assert PrimOk(s, ReaderQ(r));
    RP.ReadKeeps(s.net, r, Rw(s, r), t, timed, valid);
    NothingMoved(s.net, t, ReaderQ(r));
    QueuedUp(s.net, t, ReaderQ(r), timed);
    RwCommit(s, t, ReaderQ(r), r, g, x);
  }

  lemma WriteStep(s: State, t: Tid, r: nat, timed: bool, valid: bool)
    requires Inv(s) && InUser(s, t)
    ensures var (g, x, _) := RP.Write(s.net, r, Rw(s, r), t, timed, valid); Inv(s.(net := g, rws := s.rws[r := x]))
  {
    var (g, x, _) := RP.Write(s.net, r, Rw(s, r), t, timed, valid);
    assert PrimOk(s, WriterQ(r));
    RP.WriteKeeps(s.net, r, Rw(s, r), t, timed, valid);
    NothingMoved(s.net, t, WriterQ(r));
    QueuedUp(s.net, t, WriterQ(r), timed);
    RwCommit(s, t, WriterQ(r), r, g, x);
  }

  lemma TryRwStep(s: State, t: Tid, r: nat)
    requires Inv(s) && InUser(s, t)
    ensures Inv(s.(rws := s.rws[r := RP.TryRead(Rw(s, r), t).0]))
    ensures Inv(s.(rws := s.rws[r := RP.TryWrite(Rw(s, r), t).0]))
  {
    assert PrimOk(s, ReaderQ(r));
    RP.TryKeeps(s.net, r, Rw(s, r), t);
    NothingMoved(s.net, t, ReaderQ(r));
    RwCommit(s, t, ReaderQ(r), r, s.net, RP.TryRead(Rw(s, r), t).0);
    RwCommit(s, t, ReaderQ(r), r, s.net, RP.TryWrite(Rw(s, r), t).0);
  }

  lemma RwUnlockStep(s: State, t: Tid, r: nat)
    requires Inv(s) && InUser(s, t) && RP.Holds(Rw(s, r), t)
    ensures var (g, x, _) := RP.Unlock(s.net, r, Rw(s, r), t); Inv(s.(net := g, rws := s.rws[r := x]))
  {
    var (g, x, res) := RP.Unlock(s.net, r, Rw(s, r), t);
    assert PrimOk(s, ReaderQ(r));
    RP.UnlockKeeps(s.net, r, Rw(s, r), t);
    if res.ToWriter? {
      HandedOff(s.net, t, res.w, WriterQ(r));
      RwCommit(s, t, WriterQ(r), r, g, x);
    } else if res.ToReaders? {
      AllHandedOff(s.net, t, ReaderQ(r));
      RwCommit(s, t, ReaderQ(r), r, g, x);
    } else {
      NothingMoved(s.net, t, ReaderQ(r));
      RwCommit(s, t, ReaderQ(r), r, g, x);
    }
  }

  lemma DownStep(s: State, t: Tid, i: nat, timed: bool, valid: bool)
    requires Inv(s) && InUser(s, t)
    ensures var (g, x, _) := SP.Down(s.net, i, Se(s, i), t, timed, valid); Inv(s.(net := g, sems := s.sems[i := x]))
    ensures Inv(s.(sems := s.sems[i := SP.TryDown(Se(s, i)).0]))
  {
    var (g, x, _) := SP.Down(s.net, i, Se(s, i), t, timed, valid);
    assert PrimOk(s, SemQ(i));
    SP.DownKeeps(s.net, i, Se(s, i), t, timed, valid);
    SP.TryDownKeeps(s.net, i, Se(s, i));
    NothingMoved(s.net, t, SemQ(i));
    QueuedUp(s.net, t, SemQ(i), timed);
    SemCommit(s, t, i, g, x);
    SemCommit(s, t, i, s.net, SP.TryDown(Se(s, i)).0);
  }

  lemma PostStep(s: State, t: Tid, i: nat)
    requires Inv(s) && InUser(s, t)
    ensures var (g, x, _) := SP.Post(s.net, i, Se(s, i), t); Inv(s.(net := g, sems := s.sems[i := x]))
  {
    var (g, x, r) := SP.Post(s.net, i, Se(s, i), t);
    assert PrimOk(s, SemQ(i));
    SP.PostKeeps(s.net, i, Se(s, i), t);
    if r.HandedTo? {
      HandedOff(s.net, t, r.w, SemQ(i));
    } else {
      NothingMoved(s.net, t, SemQ(i));
    }
    SemCommit(s, t, i, g, x);
  }

  lemma BarrierWaitStep(s: State, t: Tid, b: nat)
    requires Inv(s) && InUser(s, t) && Ba(s, b).v.pending > 0
    ensures var (g, x, _) := BP.Enter(s.net, b, Ba(s, b), t); Inv(s.(net := g, bars := s.bars[b := x]))
  {
    var (g, x, r) := BP.Enter(s.net, b, Ba(s, b), t);
    assert PrimOk(s, BarrierQ(b));
    BP.EnterKeeps(s.net, b, Ba(s, b), t);
    QueuedUp(s.net, t, BarrierQ(b), false);
    AllHandedOff(s.net, t, BarrierQ(b));
    NothingMoved(s.net, t, BarrierQ(b));
    BarrierCommit(s, t, b, g, x);
  }

  lemma SignalStep(s: State, t: Tid, c: nat)
    requires Inv(s) && InUser(s, t)
    ensures Qu(s.net, CondQ(c)) != [] ==> Inv(s.(net := TakeOff(s.net, t, Qu(s.net, CondQ(c))[0], CondQ(c))))
    ensures Inv(s.(net := TakeAll(s.net, t, CondQ(c))))
  {
    var q := Qu(s.net, CondQ(c));
    if q != [] {
      HandedOff(s.net, t, q[0], CondQ(c));
      UserStep(s, s.(net := TakeOff(s.net, t, q[0], CondQ(c))), t, CondQ(c));
    }
    AllHandedOff(s.net, t, CondQ(c));
    UserStep(s, s.(net := TakeAll(s.net, t, CondQ(c))), t, CondQ(c));
  }

  // ---------------------------------------------------------------- leaving a wait

  lemma WaitsAreUser(s: State, t: Tid)
    requires Inv(s) && Th(s.net, t).wait.In? && !Th(s.net, t).wait.q.CondQ?
    requires !Th(s.net, t).wait.q.MutexQ? || Th(s.net, t).wait.timed
    ensures PcOf(s, t).Run? && (Th(s.net, t).wait.q.MutexQ? ==> Th(s.net, t).wait.q.m.User?)
  {
    assert ThreadOk(s, t);
  }

  lemma FinishRwStep(s: State, t: Tid, q: Qid, r: nat)
    requires Inv(s) && Waits(s.net, t, q) && AtStage(s.net, t, Finishing) && (q == ReaderQ(r) || q == WriterQ(r))
    ensures var (g, x) := if q.ReaderQ? then RP.ReadEpilogue(s.net, Rw(s, r), t) else RP.WriteEpilogue(s.net, Rw(s, r), t);
      Inv(s.(net := g, rws := s.rws[r := x]))
  {
    WaitsAreUser(s, t);
    assert PrimOk(s, q);
    Finished(s.net, t, q);
    if q.ReaderQ? {
      RP.ReadEpilogueKeeps(s.net, r, Rw(s, r), t);
      RwCommit(s, t, q, r, RP.ReadEpilogue(s.net, Rw(s, r), t).0, RP.ReadEpilogue(s.net, Rw(s, r), t).1);
    } else {
      RP.WriteEpilogueKeeps(s.net, r, Rw(s, r), t);
      RwCommit(s, t, q, r, RP.WriteEpilogue(s.net, Rw(s, r), t).0, RP.WriteEpilogue(s.net, Rw(s, r), t).1);
    }
  }

  lemma GiveUpRwStep(s: State, t: Tid, q: Qid, r: nat)
    requires Inv(s) && Waits(s.net, t, q) && AtStage(s.net, t, Draining) && Th(s.net, t).port > 0
    requires q == ReaderQ(r) || q == WriterQ(r)
    ensures var (g, x) := if q.ReaderQ? then RP.ReadGiveUp(s.net, Rw(s, r), t) else RP.WriteGiveUp(s.net, Rw(s, r), t);
      Inv(s.(net := g, rws := s.rws[r := x]))
  {
    WaitsAreUser(s, t);
    assert PrimOk(s, q);
    Drained(s.net, t, q);
    if q.ReaderQ? {
      RP.ReadGiveUpKeeps(s.net, r, Rw(s, r), t);
      RwCommit(s, t, q, r, RP.ReadGiveUp(s.net, Rw(s, r), t).0, RP.ReadGiveUp(s.net, Rw(s, r), t).1);
    } else {
      RP.WriteGiveUpKeeps(s.net, r, Rw(s, r), t);
      RwCommit(s, t, q, r, RP.WriteGiveUp(s.net, Rw(s, r), t).0, RP.WriteGiveUp(s.net, Rw(s, r), t).1);
    }
  }

  lemma FinishSemStep(s: State, t: Tid, i: nat)
    requires Inv(s) && Waits(s.net, t, SemQ(i)) && AtStage(s.net, t, Finishing)
    ensures var (g, x) := SP.Epilogue(s.net, Se(s, i), t); Inv(s.(net := g, sems := s.sems[i := x]))
  {
    WaitsAreUser(s, t);
    assert PrimOk(s, SemQ(i));
    Finished(s.net, t, SemQ(i));
    SP.EpilogueKeeps(s.net, i, Se(s, i), t);
    SemCommit(s, t, i, SP.Epilogue(s.net, Se(s, i), t).0, SP.Epilogue(s.net, Se(s, i), t).1);
  }

  lemma GiveUpSemStep(s: State, t: Tid, i: nat)
    requires Inv(s) && Waits(s.net, t, SemQ(i)) && AtStage(s.net, t, Draining) && Th(s.net, t).port > 0
    ensures var (g, x) := SP.GiveUp(s.net, Se(s, i), t); Inv(s.(net := g, sems := s.sems[i := x]))
  {
    WaitsAreUser(s, t);
    assert PrimOk(s, SemQ(i));
    Drained(s.net, t, SemQ(i));
    SP.GiveUpKeeps(s.net, i, Se(s, i), t);
    SemCommit(s, t, i, SP.GiveUp(s.net, Se(s, i), t).0, SP.GiveUp(s.net, Se(s, i), t).1);
  }

  lemma LeaveBarrierStep(s: State, t: Tid, b: nat)
    requires Inv(s) && Waits(s.net, t, BarrierQ(b)) && AtStage(s.net, t, Taken)
    ensures t in Ba(s, b).ticket && Ba(s, b).ticket[t] < |Ba(s, b).past|
    ensures var (g, x) := BP.Leave(s.net, Ba(s, b), t); Inv(s.(net := g, bars := s.bars[b := x]))
  {
    WaitsAreUser(s, t);
    assert PrimOk(s, BarrierQ(b));
    Finished(s.net, t, BarrierQ(b));
    BP.LeaveKeeps(s.net, b, Ba(s, b), t);
    BarrierCommit(s, t, b, BP.Leave(s.net, Ba(s, b), t).0, BP.Leave(s.net, Ba(s, b), t).1);
  }

  lemma LeaveCondStep(s: State, t: Tid, g: Net, err: bool)
    requires Inv(s) && Th(s.net, t).wait.In? && Th(s.net, t).wait.q.CondQ? && !AtStage(s.net, t, Stage.Blocking)
    requires NetStep(s.net, g, t, Th(s.net, t).wait.q) && Th(g, t).wait.Out? && g.queues == s.net.queues
    ensures Inv(s.(net := g, pcs := s.pcs[t := AfterWait(PcOf(s, t), err)]))
  {
    var s' := s.(net := g, pcs := s.pcs[t := AfterWait(PcOf(s, t), err)]);
    PrimsKeep(s, s', Th(s.net, t).wait.q);
    assert forall c :: Qu(g, CondQ(c)) == Qu(s.net, CondQ(c));
    CondWaitEnds(s, s', t, err);
  }

  // ---------------------------------------------------------------- mutexes

  /** A step of `t` on mutex `m`, whatever it does to `t`'s program counter. */
  lemma MutexCommit(s: State, s': State, t: Tid, m: Mid)
    requires Inv(s) && s' == s.(net := s'.net, mutexes := s.mutexes[m := Mx(s', m)], pcs := s'.pcs)
    requires forall u :: u != t ==> PcOf(s', u) == PcOf(s, u)
    requires NetMove(s.net, s'.net, t, MutexQ(m))
    requires MP.Inv(s'.net, m, Mx(s', m)) && MP.Respects(Mx(s, m), Mx(s', m), t)
    requires !PcOf(s, t).CHook?
    requires WaitOk(s', t) && HooksOk(s', t) && LocksOk(s', t) && RequestOk(s', t)
    requires forall p :: CancelLockStep(s, s', t, p)
    ensures Inv(s')
  {
    assert PrimOk(s', MutexQ(m));
    PrimsKeep(s, s', MutexQ(m));
    assert forall c :: SameView(s.net, s'.net, CondQ(c));
    ThreadsKeep(s, s', t);
  }

  /** The cancel_locks after a step on a mutex of the program. */
  lemma UserMutexLeavesCancelLocks(s: State, s': State, t: Tid, m: Mid)
    requires Inv(s) && m.User? && s'.mutexes == s.mutexes[m := Mx(s', m)]
    requires CancelHeld(PcOf(s', t), t) == CancelHeld(PcOf(s, t), t) && Mx(s', m).breached == Mx(s, m).breached
    requires OnCond(PcOf(s', t)) ==> OnCond(PcOf(s, t))
    ensures forall p :: CancelLockStep(s, s', t, p)
  {
    forall p ensures CancelLockStep(s, s', t, p) {
      assert ThreadOk(s, p);
    }
  }

  /** The cancel_locks after `t` has locked, unlocked or queued for the one of `o`. */
  lemma CancelLockMoves(s: State, s': State, t: Tid, o: Tid)
    requires Inv(s) && s'.mutexes == s.mutexes[CancelLock(o) := Mx(s', CancelLock(o))]
    requires CancelLockStep(s, s', t, o) && (OnCond(PcOf(s', t)) ==> OnCond(PcOf(s, t)))
    requires forall p :: p != o && CancelHeld(PcOf(s, t), t) == Some(p) ==> CancelHeld(PcOf(s', t), t) == Some(p)
    ensures forall p :: CancelLockStep(s, s', t, p)
  {
    forall p ensures CancelLockStep(s, s', t, p) {
      assert ThreadOk(s, p);
    }
  }

  /** Only `t` moved, and of the mutexes only `m`; no condition queue changed. */
  ghost predicate MutexMove(s: State, s': State, t: Tid, m: Mid) {
    && s'.cancels == s.cancels
    && (forall u :: u != t ==> PcOf(s', u) == PcOf(s, u))
    && (forall n :: n != m ==> Mx(s', n) == Mx(s, n)) && Mx(s', m).breached == Mx(s, m).breached
    && (forall c :: Qu(s'.net, CondQ(c)) == Qu(s.net, CondQ(c)))
  }

  /** The thread's own view once it has the mutex it wanted. */
  lemma AcquiredThread(s: State, s': State, t: Tid, m: Mid)
    requires ThreadOk(s, t) && MutexMove(s, s', t, m) && MayLock(s, t, m, false)
    requires PcOf(s', t) == AfterLock(PcOf(s, t)) && Th(s'.net, t).wait.Out?
    requires m.CancelLock? && !Mx(s, m).breached ==> Mx(s', m).holder == MP.Held(t, 1)
    requires m.User? ==> MP.Owns(Mx(s', m), t)
    ensures WaitOk(s', t) && HooksOk(s', t) && LocksOk(s', t) && RequestOk(s', t)
  {
  }

  /** ... or has queued up for it, or was turned away. */
  lemma NotAcquiredThread(s: State, s': State, t: Tid, m: Mid, timed: bool)
    requires ThreadOk(s, t) && MutexMove(s, s', t, m) && MayLock(s, t, m, timed)
    requires PcOf(s', t) == PcOf(s, t)
    requires Th(s'.net, t).wait.Out? || Th(s'.net, t).wait == In(MutexQ(m), timed, Stage.Blocking)
    requires Mx(s', m).holder == Mx(s, m).holder
    ensures WaitOk(s', t) && HooksOk(s', t) && LocksOk(s', t) && RequestOk(s', t)
  {
  }

  /** What a cancel_lock looks like to a thread that does not hold it. */
  lemma CancelLockAbsent(s: State, t: Tid, o: Tid)
    requires Inv(s) && CancelHeld(PcOf(s, t), t) != Some(o)
    ensures var x := Mx(s, CancelLock(o));
      x.v.kind == M.Normal && !x.v.lock && !x.tainted && (!x.breached ==> !MP.IsHeldBy(x, t) && !x.holder.Orphan?)
  {
    assert CancelLockOk(s, o) by { assert ThreadOk(s, o); }
    assert PrimOk(s, MutexQ(CancelLock(o)));
  }

  /** Locking and unlocking move the program counter in step with who holds which cancel_lock. */
  lemma PcAfterLock(pc: Pc, t: Tid, m: Mid)
    requires NamesMutex(pc) ==> pc.m.User?
    requires if pc.Run? then m.User? else Wants(pc, t) == Some(m)
    ensures CancelHeld(pc, t) == None
    ensures CancelHeld(AfterLock(pc), t) == if m.User? then None else Some(m.t)
    ensures OnCond(AfterLock(pc)) ==> OnCond(pc)
  {
  }

  lemma PcAfterUnlock(pc: Pc, t: Tid, m: Mid)
    requires NamesMutex(pc) ==> pc.m.User?
    requires if pc.Run? then m.User? else Releases(pc, t) == Some(m)
    ensures CancelHeld(pc, t) == if m.User? then None else Some(m.t)
    ensures CancelHeld(AfterUnlock(pc), t) == None && !pc.CHook? && (OnCond(AfterUnlock(pc)) ==> OnCond(pc))
  {
  }

  /** The shape of every step on one mutex. */
  ghost predicate OnMutex(s: State, s': State, t: Tid, m: Mid) {
    && s' == s.(net := s'.net, mutexes := s.mutexes[m := Mx(s', m)], pcs := s'.pcs)
    && (forall u :: u != t ==> PcOf(s', u) == PcOf(s, u))
    && NetMove(s.net, s'.net, t, MutexQ(m))
    && MP.Inv(s'.net, m, Mx(s', m)) && MP.Respects(Mx(s, m), Mx(s', m), t)
  }

  /** `t` now has mutex `m`, by finding it free or by being handed it. */
  lemma Acquired(s: State, s': State, t: Tid, m: Mid)
    requires Inv(s) && OnMutex(s, s', t, m) && MayLock(s, t, m, false)
    requires PcOf(s', t) == AfterLock(PcOf(s, t)) && Th(s'.net, t).wait.Out? && (m.User? ==> MP.Owns(Mx(s', m), t))
    requires m.CancelLock? ==>
      && (!Mx(s, m).breached ==> Mx(s', m).holder == MP.Held(t, 1))
      && Mx(s', m).v.kind == M.Normal && !Mx(s', m).v.lock && !Mx(s', m).tainted
    ensures Inv(s')
  {
    assert ThreadOk(s, t);
    assert forall c :: SameView(s.net, s'.net, CondQ(c));
    AcquiredThread(s, s', t, m);
    PcAfterLock(PcOf(s, t), t, m);
    if m.User? {
      UserMutexLeavesCancelLocks(s, s', t, m);
    } else {
      CancelLockMoves(s, s', t, m.t);
    }
    MutexCommit(s, s', t, m);
  }

  /** `t` did not get mutex `m`, or had it already. */
  lemma NotAcquired(s: State, s': State, t: Tid, m: Mid, timed: bool)
    requires Inv(s) && OnMutex(s, s', t, m) && MayLock(s, t, m, timed)
    requires PcOf(s', t) == PcOf(s, t)
    requires Th(s'.net, t).wait.Out? || Th(s'.net, t).wait == In(MutexQ(m), timed, Stage.Blocking)
    requires Mx(s', m).holder == Mx(s, m).holder
    requires m.CancelLock? ==> Mx(s', m) == Mx(s, m)
    ensures Inv(s')
  {
    assert ThreadOk(s, t);
    assert forall c :: SameView(s.net, s'.net, CondQ(c));
    NotAcquiredThread(s, s', t, m, timed);
    if m.User? {
      UserMutexLeavesCancelLocks(s, s', t, m);
    } else {
      CancelLockAbsent(s, t, m.t);
      assert CancelLockOk(s, m.t) by { assert ThreadOk(s, m.t); }
      CancelLockMoves(s, s', t, m.t);
    }
    MutexCommit(s, s', t, m);
  }

  lemma LockStep(s: State, t: Tid, m: Mid, timed: bool, valid: bool)
    requires Inv(s) && Ready(s, t) && MayLock(s, t, m, timed)
    ensures Inv(DoLock(s, t, m, timed, valid))
  {
    var s' := DoLock(s, t, m, timed, valid);
    var (g, x, r) := MP.Lock(s.net, m, Mx(s, m), t, timed, valid);
    assert Mx(s', m) == x;
    assert MP.Inv(s.net, m, Mx(s, m)) by { assert PrimOk(s, MutexQ(m)); }
    MP.LockKeeps(s.net, m, Mx(s, m), t, timed, valid);
    MP.LockOutcome(s.net, m, Mx(s, m), t, timed, valid);
    if m.CancelLock? {
      CancelLockAbsent(s, t, m.t);
      MP.LockPlain(s.net, m, Mx(s, m), t, valid);
    }
    if r == M.Acquired || (r == M.Deadlock && !PcOf(s, t).Run?) {
      Acquired(s, s', t, m);
    } else {
      NotAcquired(s, s', t, m, timed);
    }
  }

  lemma FinishMutexStep(s: State, t: Tid, m: Mid)
    requires Inv(s) && Waits(s.net, t, MutexQ(m)) && AtStage(s.net, t, Finishing)
    ensures var (g, x) := MP.Epilogue(s.net, Mx(s, m), t);
      Inv(s.(net := g, mutexes := s.mutexes[m := x], pcs := s.pcs[t := AfterLock(PcOf(s, t))]))
  {
    var (g, x) := MP.Epilogue(s.net, Mx(s, m), t);
    var s' := s.(net := g, mutexes := s.mutexes[m := x], pcs := s.pcs[t := AfterLock(PcOf(s, t))]);
    assert Mx(s', m) == x;
    assert PrimOk(s, MutexQ(m));
    assert WaitOk(s, t) by { assert ThreadOk(s, t); }
    MP.EpilogueKeeps(s.net, m, Mx(s, m), t);
    Finished(s.net, t, MutexQ(m));
    if m.CancelLock? {
      CancelLockAbsent(s, t, m.t);
    }
    Acquired(s, s', t, m);
  }

  lemma GiveUpMutexStep(s: State, t: Tid, m: Mid)
    requires Inv(s) && Waits(s.net, t, MutexQ(m)) && AtStage(s.net, t, Draining) && Th(s.net, t).port > 0
    ensures var (g, x) := MP.GiveUp(s.net, Mx(s, m), t); Inv(s.(net := g, mutexes := s.mutexes[m := x]))
  {
    var (g, x) := MP.GiveUp(s.net, Mx(s, m), t);
    var s' := s.(net := g, mutexes := s.mutexes[m := x]);
    assert Mx(s', m) == x;
    assert PrimOk(s, MutexQ(m));
    assert ThreadOk(s, t);
    WaitsAreUser(s, t);
    MP.GiveUpKeeps(s.net, m, Mx(s, m), t);
    Drained(s.net, t, MutexQ(m));
    UserMutexLeavesCancelLocks(s, s', t, m);
    MutexCommit(s, s', t, m);
  }

  lemma UserMutexStep(s: State, t: Tid, m: Mid, x: MP.Rec)
    requires Inv(s) && InUser(s, t) && m.User? && MP.Inv(s.net, m, x) && MP.Respects(Mx(s, m), x, t)
    ensures Inv(s.(mutexes := s.mutexes[m := x]))
  {
    var s' := s.(mutexes := s.mutexes[m := x]);
    assert Mx(s', m) == x;
    assert ThreadOk(s, t);
    NothingMoved(s.net, t, MutexQ(m));
    UserMutexLeavesCancelLocks(s, s', t, m);
    MutexCommit(s, s', t, m);
  }

  lemma UnlockMovesThread(s: State, s': State, t: Tid, m: Mid)
    requires ThreadOk(s, t) && CancelLockOk(s, t) && MutexMove(s, s', t, m) && MayUnlock(s, t, m)
    requires PcOf(s', t) == AfterUnlock(PcOf(s, t)) && Th(s'.net, t).wait == Th(s.net, t).wait
    ensures WaitOk(s', t) && HooksOk(s', t) && LocksOk(s', t) && RequestOk(s', t)
  {
  }

  /** `t` gave up mutex `m`, one level of it, or was refused. */
  lemma Unlocked(s: State, s': State, t: Tid, m: Mid)
    requires Inv(s) && OnMutex(s, s', t, m) && MayUnlock(s, t, m)
    requires PcOf(s', t) == AfterUnlock(PcOf(s, t)) && Th(s'.net, t).wait == Th(s.net, t).wait
    requires m.CancelLock? ==>
      && (!Mx(s, m).breached ==> !Mx(s', m).holder.Held?)
      && Mx(s', m).v.kind == M.Normal && !Mx(s', m).v.lock && !Mx(s', m).tainted
    ensures Inv(s')
  {
    assert ThreadOk(s, t);
    assert forall c :: SameView(s.net, s'.net, CondQ(c));
    UnlockMovesThread(s, s', t, m);
    PcAfterUnlock(PcOf(s, t), t, m);
    if m.User? {
      UserMutexLeavesCancelLocks(s, s', t, m);
    } else {
      CancelLockMoves(s, s', t, m.t);
    }
    MutexCommit(s, s', t, m);
  }

  lemma UnlockStep(s: State, t: Tid, m: Mid)
    requires Inv(s) && MayUnlock(s, t, m)
    requires PcOf(s, t).Run? && Mx(s, m).v.kind == M.Normal ==> MP.IsHeldBy(Mx(s, m), t)
    ensures Inv(DoUnlock(s, t, m))
  {
    var s' := DoUnlock(s, t, m);
    var (g, x, r) := MP.Unlock(s.net, m, Mx(s, m), t);
    assert Mx(s', m) == x;
    assert MP.Inv(s.net, m, Mx(s, m)) by { assert PrimOk(s, MutexQ(m)); }
    assert ThreadOk(s, t);
    assert Mx(s, m).v.kind == M.Normal && !Mx(s, m).breached ==> MP.IsHeldBy(Mx(s, m), t);
    MP.UnlockKeeps(s.net, m, Mx(s, m), t);
    if m.CancelLock? {
      assert CancelLockOk(s, m.t) by { assert ThreadOk(s, m.t); }
    }
    Unlocked(s, s', t, m);
  }

  // ---------------------------------------------------------------- composite calls

  /** A step of `t` that only moves its program counter. */
  lemma PcStep(s: State, t: Tid, pc: Pc)
    requires Inv(s) && !PcOf(s, t).CHook? && CancelHeld(pc, t) == CancelHeld(PcOf(s, t), t) && !OnCond(pc)
    requires var s' := s.(pcs := s.pcs[t := pc]);
      WaitOk(s', t) && HooksOk(s', t) && LocksOk(s', t) && RequestOk(s', t)
    ensures Inv(s.(pcs := s.pcs[t := pc]))
  {
    var s' := s.(pcs := s.pcs[t := pc]);
    PrimsSame(s, s');
    forall p ensures CancelLockStep(s, s', t, p) {
      assert ThreadOk(s, p);
    }
    ThreadsKeep(s, s', t);
  }

  lemma StartStep(s: State, t: Tid, pc: Pc)
    requires Inv(s) && InUser(s, t)
    requires
      || pc.CEnter? || pc.SEnter?
      || ((pc.WEnter? || pc.WDone?) && pc.m.User? && MP.IsHeldBy(Mx(s, pc.m), t))
    ensures Inv(s.(pcs := s.pcs[t := pc]))
  {
    assert ThreadOk(s, t);
    if pc.WEnter? || pc.WDone? { assert PrimOk(s, MutexQ(pc.m)); }
    PcStep(s, t, pc);
  }

  lemma ReturnStep(s: State, t: Tid)
    requires Inv(s) && Ready(s, t) && PcOf(s, t).WDone?
    ensures Inv(s.(pcs := s.pcs[t := Run]))
  {
    assert ThreadOk(s, t);
    PcStep(s, t, Run);
  }

  lemma AbortStep(s: State, t: Tid)
    requires Inv(s) && Ready(s, t) && PcOf(s, t).WHook?
    ensures Inv(s.(pcs := s.pcs[t := WAbort(PcOf(s, t).m)]))
  {
    assert ThreadOk(s, t);
    PcStep(s, t, WAbort(PcOf(s, t).m));
  }

  /** A section of `t` under the cancel_lock of `p`, possibly touching one condition queue. */
  ghost predicate UnderCancelLock(s: State, s': State, t: Tid, p: Tid) {
    && CancelHeld(PcOf(s, t), t) == Some(p) && CancelHeld(PcOf(s', t), t) == Some(p)
    && s'.mutexes == s.mutexes && s'.rws == s.rws && s'.sems == s.sems && s'.bars == s.bars
    && (forall u :: u != p ==> Cn(s', u) == Cn(s, u))
    && (forall u :: u != t ==> PcOf(s', u) == PcOf(s, u))
    && (forall u :: u != t ==> Th(s'.net, u).wait == Th(s.net, u).wait)
    && (forall c, u :: u != t && u in Qu(s'.net, CondQ(c)) ==> u in Qu(s.net, CondQ(c)))
  }

  lemma UnderCancelLockOther(s: State, s': State, t: Tid, p: Tid, u: Tid)
    requires UnderCancelLock(s, s', t, p) && ThreadOk(s, u) && LocksOk(s, t) && CancelLockOk(s, u)
    requires u != t && (u == p ==> HooksOk(s', p) && RequestOk(s', p) && BreachOk(s', p))
    ensures ThreadOk(s', u)
  {
  }

  lemma CancelCommit(s: State, s': State, t: Tid, p: Tid, q: Qid)
    requires Inv(s) && UnderCancelLock(s, s', t, p)
    requires q.CondQ? && NetMove(s.net, s'.net, t, q)
    requires HooksOk(s', p) && RequestOk(s', p) && BreachOk(s', p) && BreachOk(s', t)
    requires WaitOk(s', t) && HooksOk(s', t) && LocksOk(s', t) && RequestOk(s', t)
    ensures Inv(s')
  {
    PrimsKeep(s, s', q);
    assert ThreadOk(s, t);
    forall u ensures ThreadOk(s', u) {
      assert ThreadOk(s, u);
      if u != t {
        UnderCancelLockOther(s, s', t, p, u);
      }
    }
  }

  lemma ArmStep(s: State, t: Tid)
    requires Inv(s) && Ready(s, t) && PcOf(s, t).WHook? && !C.Acts(Cn(s, t))
    ensures var pc := PcOf(s, t);
      Inv(s.(net := Enqueue(s.net, t, CondQ(pc.c), pc.timed),
             cancels := s.cancels[t := Cn(s, t).(async := false, hook := Some(pc.c))],
             pcs := s.pcs[t := WArmed(pc.c, pc.m, Cn(s, t).async)]))
  {
    var pc := PcOf(s, t);
    var s' := s.(net := Enqueue(s.net, t, CondQ(pc.c), pc.timed),
             cancels := s.cancels[t := Cn(s, t).(async := false, hook := Some(pc.c))],
             pcs := s.pcs[t := WArmed(pc.c, pc.m, Cn(s, t).async)]);
    QueuedUp(s.net, t, CondQ(pc.c), pc.timed);
    assert ThreadOk(s, t);
    CancelCommit(s, s', t, t, CondQ(pc.c));
  }

  lemma DisarmStep(s: State, t: Tid)
    requires Inv(s) && Ready(s, t) && PcOf(s, t).WClear?
    ensures var pc := PcOf(s, t);
      Inv(s.(cancels := s.cancels[t := Cn(s, t).(hook := None, async := pc.oldAsync)],
             pcs := s.pcs[t := WDisarmed(pc.m, pc.err, C.Acts(Cn(s, t)))]))
  {
    var pc := PcOf(s, t);
    var s' := s.(cancels := s.cancels[t := Cn(s, t).(hook := None, async := pc.oldAsync)],
             pcs := s.pcs[t := WDisarmed(pc.m, pc.err, C.Acts(Cn(s, t)))]);
    NothingMoved(s.net, t, CondQ(pc.c));
    assert ThreadOk(s, t);
    CancelCommit(s, s', t, t, CondQ(pc.c));
  }

  /** Recording a request: a waiter that should act on it now has a canceller about to run its hook. */
  lemma RequestStep(s: State, t: Tid, cn: C.Cancel<nat>, pc: Pc)
    requires Inv(s) && Ready(s, t) && PcOf(s, t).CGot? && cn == Cn(s, PcOf(s, t).p).(pending := true)
    requires
      || (pc.CHook? && pc.p == PcOf(s, t).p && cn.hook == Some(pc.hookCond) && cn.enabled && !Cn(s, pc.p).pending)
      || (pc == CUnlock(PcOf(s, t).p) && (Cn(s, PcOf(s, t).p).pending || !cn.enabled || cn.hook == None))
    ensures Inv(s.(cancels := s.cancels[PcOf(s, t).p := cn], pcs := s.pcs[t := pc]))
  {
    var p := PcOf(s, t).p;
    var s' := s.(cancels := s.cancels[p := cn], pcs := s.pcs[t := pc]);
    NothingMoved(s.net, t, CondQ(0));
    assert ThreadOk(s, t);
    assert ThreadOk(s, p);
    assert UnderCancelLock(s, s', t, p);
    assert HooksOk(s', p);
    CancelCommit(s, s', t, p, CondQ(0));
  }

  /** What a thread whose hook is being run can be queued on: its condition, or, once it is off that, its own
      cancel_lock, which the caller of the hook holds. */
  lemma HookedOn(s: State, t: Tid)
    requires Inv(s) && PcOf(s, t).CHook? && Queued(s.net, PcOf(s, t).p)
    ensures var p, c := PcOf(s, t).p, PcOf(s, t).hookCond;
      Th(s.net, p).wait.q == CondQ(c) || Th(s.net, p).wait.q == MutexQ(CancelLock(p))
    ensures Mx(s, CancelLock(PcOf(s, t).p)).holder == MP.Held(t, 1) && !Breached(s, PcOf(s, t).p)
  {
    assert ThreadOk(s, t);
    assert ThreadOk(s, PcOf(s, t).p);
  }

  lemma HookTakesOff(s: State, t: Tid)
    requires Inv(s) && Ready(s, t) && PcOf(s, t).CHook? && PcOf(s, t).p in Qu(s.net, CondQ(PcOf(s, t).hookCond))
    ensures var p, c := PcOf(s, t).p, PcOf(s, t).hookCond;
      Inv(s.(net := TakeOff(s.net, t, p, CondQ(c)), pcs := s.pcs[t := CUnlock(p)]))
  {
    var p, c := PcOf(s, t).p, PcOf(s, t).hookCond;
    var s' := s.(net := TakeOff(s.net, t, p, CondQ(c)), pcs := s.pcs[t := CUnlock(p)]);
    assert ThreadOk(s, t);
    assert ThreadOk(s, p);
    HandedOff(s.net, t, p, CondQ(c));
    WithoutDistinct(Qu(s.net, CondQ(c)), p);
    assert p !in Qu(s'.net, CondQ(c));
    assert RequestOk(s', p);
    assert UnderCancelLock(s, s', t, p);
    CancelCommit(s, s', t, p, CondQ(c));
  }

  lemma HookFindsNothing(s: State, t: Tid)
    requires Inv(s) && Ready(s, t) && PcOf(s, t).CHook? && PcOf(s, t).p !in Qu(s.net, CondQ(PcOf(s, t).hookCond))
    ensures Inv(s.(pcs := s.pcs[t := CUnlock(PcOf(s, t).p)]))
  {
    var p, c := PcOf(s, t).p, PcOf(s, t).hookCond;
    var s' := s.(pcs := s.pcs[t := CUnlock(p)]);
    assert ThreadOk(s, t);
    assert ThreadOk(s, p);
    NothingMoved(s.net, t, CondQ(c));
    assert RequestOk(s', p);
    CancelCommit(s, s', t, p, CondQ(c));
  }

  /** The hook finds the thread on the queue of its own cancel_lock, and takes it off that. */
  lemma HookBreaches(s: State, t: Tid)
    requires Inv(s) && Ready(s, t) && PcOf(s, t).CHook?
    requires var p := PcOf(s, t).p; Queued(s.net, p) && Th(s.net, p).wait.q == MutexQ(CancelLock(p))
    ensures var p := PcOf(s, t).p; var m := CancelLock(p); var (g, x) := MP.Snatch(s.net, m, Mx(s, m), t, p);
      Inv(s.(net := g, mutexes := s.mutexes[m := x], pcs := s.pcs[t := CUnlock(p)]))
  {
    var p := PcOf(s, t).p;
    var m := CancelLock(p);
    var (g, x) := MP.Snatch(s.net, m, Mx(s, m), t, p);
    var s' := s.(net := g, mutexes := s.mutexes[m := x], pcs := s.pcs[t := CUnlock(p)]);
    HookedOn(s, t);
    assert PrimOk(s, MutexQ(m));
    assert CancelLockOk(s, p) by { assert ThreadOk(s, p); }
    MP.SnatchKeeps(s.net, m, Mx(s, m), t, p);
    assert Mx(s', m) == x;
    assert PrimOk(s', MutexQ(m));
    PrimsKeep(s, s', MutexQ(m));
    assert forall c :: SameView(s.net, s'.net, CondQ(c));
    assert ThreadOk(s, t) && ThreadOk(s, p);
    forall u ensures ThreadOk(s', u) {
      assert ThreadOk(s, u);
      if u == t {
        BreachSelf(s, s', t, p);
      } else {
        BreachOther(s, s', t, p, u);
      }
    }
  }

  lemma BreachSelf(s: State, s': State, t: Tid, p: Tid)
    requires ThreadOk(s, t) && Ready(s, t) && PcOf(s', t) == CUnlock(p) && Th(s'.net, t).wait.Out? && t != p
    requires HookOf(PcOf(s, t)) == None && s'.cancels == s.cancels
    requires Mx(s', CancelLock(p)).breached && Mx(s', CancelLock(t)) == Mx(s, CancelLock(t))
    requires !Breached(s, t) && Mx(s, CancelLock(t)).holder.Held? ==>
      var h := Mx(s, CancelLock(t)).holder.t; h != t && PcOf(s', h) == PcOf(s, h)
    ensures ThreadOk(s', t)
  {
  }

  lemma BreachOther(s: State, s': State, t: Tid, p: Tid, u: Tid)
    requires ThreadOk(s, u) && ThreadOk(s, t) && PcOf(s, t).CHook? && PcOf(s, t).p == p && u != t
    requires Mx(s, CancelLock(p)).holder == MP.Held(t, 1) && !Breached(s, p)
    requires Th(s.net, p).wait.In? && Th(s.net, p).wait.q == MutexQ(CancelLock(p)) && (u == p ==> !OnCond(PcOf(s, p)))
    requires s'.pcs == s.pcs[t := CUnlock(p)] && s'.cancels == s.cancels
    requires s'.mutexes == s.mutexes[CancelLock(p) := Mx(s, CancelLock(p)).(breached := true)]
    requires Th(s'.net, u).wait == Th(s.net, u).wait && forall c :: Qu(s'.net, CondQ(c)) == Qu(s.net, CondQ(c))
    ensures ThreadOk(s', u)
  {
    assert forall m :: m != CancelLock(p) ==> Mx(s', m) == Mx(s, m);
    assert PcOf(s, u).CHook? ==> PcOf(s, u).p != p;
  }

  lemma HookStep(s: State, t: Tid)
    requires Inv(s) && Ready(s, t) && PcOf(s, t).CHook?
    ensures Inv(DoHook(s, t, PcOf(s, t).p))
  {
    var p, c := PcOf(s, t).p, PcOf(s, t).hookCond;
    assert p in Qu(s.net, CondQ(c)) <==> Queued(s.net, p) && Th(s.net, p).wait.q == CondQ(c);
    if !Queued(s.net, p) {
      HookFindsNothing(s, t);
    } else {
      HookedOn(s, t);
      if Th(s.net, p).wait.q == CondQ(c) {
        HookTakesOff(s, t);
      } else {
        HookBreaches(s, t);
      }
    }
  }

  lemma SetStep(s: State, t: Tid)
    requires Inv(s) && Ready(s, t) && PcOf(s, t).SGot?
    ensures Inv(s.(cancels := s.cancels[t := DoSet(Cn(s, t), PcOf(s, t).setting)], pcs := s.pcs[t := SUnlock]))
  {
    var s' := s.(cancels := s.cancels[t := DoSet(Cn(s, t), PcOf(s, t).setting)], pcs := s.pcs[t := SUnlock]);
    NothingMoved(s.net, t, CondQ(0));
    assert ThreadOk(s, t);
    CancelCommit(s, s', t, t, CondQ(0));
  }
}
