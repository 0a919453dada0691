/** Calls with a deadline: what a timeout that comes too late gives away, and what an invalid deadline leaks. */
module TimeoutResults {
  import opened Base
  import opened Blocking
  import opened System
  import opened Theorems
  import opened Frames
  import M = Mutex
  import MP = MutexProtocol
  import RP = RwLockProtocol
  import SP = SemaphoreProtocol

  // ---------------------------------------------------------------- late timeouts

  /** After a timeout, the queue lock retaken: still queued, the caller leaves and that is all; taken off, it
      goes on to drain the message it is owed.  No primitive changes. */
  predicate RechecksTo(s: State, t: Tid, s1: State)
    requires Th(s.net, t).wait.In?
  {
    if Queued(s.net, t) then Th(s1.net, t).wait.Out? && Qu(s1.net, Th(s.net, t).wait.q) == Without(Qu(s.net, Th(s.net, t).wait.q), t)
    else Waits(s1.net, t, Th(s.net, t).wait.q) && AtStage(s1.net, t, Draining)
  }

  lemma RecheckOutcome(s: State, t: Tid)
    requires Enabled(s, t, Action.Recheck) && AtStage(s.net, t, TimedOut)
    ensures RechecksTo(s, t, Apply(s, t, Action.Recheck)) && SameBut(s, Apply(s, t, Action.Recheck), None)
  {
  }

  /** A timed lock that times out hands nothing over exactly if it still finds itself queued; otherwise it has
      been given the mutex, and its ETIMEDOUT leaves the mutex with a caller that believes it has nothing. */
  lemma LateTimeout(s: State, t: Tid, m: Mid)
    requires Reachable(s) && Waits(s.net, t, MutexQ(m)) && AtStage(s.net, t, TimedOut) && Enabled(s, t, Action.Recheck)
    ensures RechecksTo(s, t, Apply(s, t, Action.Recheck)) && SameBut(s, Apply(s, t, Action.Recheck), None)
    ensures Mx(s, m).holder == MP.Granted(t) <==> !Queued(s.net, t)
  {
    RecheckOutcome(s, t);
    ReachableHolds(s);
    assert MP.Inv(s.net, m, Mx(s, m)) by { assert PrimOk(s, MutexQ(m)); }
    assert !Mx(s, m).breached by { TimedIsUser(s, t); }
  }

  lemma TimedIsUser(s: State, t: Tid)
    requires Inv(s) && (AtStage(s.net, t, TimedOut) || AtStage(s.net, t, Draining)) && Th(s.net, t).wait.q.MutexQ?
    ensures Th(s.net, t).wait.q.m.User? && !Mx(s, Th(s.net, t).wait.q.m).breached
  {
    assert ThreadOk(s, t);
    assert PrimOk(s, Th(s.net, t).wait.q);
  }

  lemma LateRead(s: State, t: Tid, r: nat)
    requires Reachable(s) && Waits(s.net, t, ReaderQ(r)) && AtStage(s.net, t, TimedOut) && Enabled(s, t, Action.Recheck)
    ensures RechecksTo(s, t, Apply(s, t, Action.Recheck)) && SameBut(s, Apply(s, t, Action.Recheck), None)
    ensures t in Rw(s, r).granted <==> !Queued(s.net, t)
  {
    RecheckOutcome(s, t);
    ReachableHolds(s);
    assert RP.Inv(s.net, r, Rw(s, r)) by { assert PrimOk(s, ReaderQ(r)); }
    assert Dequeued(s.net, t, ReaderQ(r)) <==> t in Rw(s, r).granted;
  }

  lemma LateWrite(s: State, t: Tid, r: nat)
    requires Reachable(s) && Waits(s.net, t, WriterQ(r)) && AtStage(s.net, t, TimedOut) && Enabled(s, t, Action.Recheck)
    ensures RechecksTo(s, t, Apply(s, t, Action.Recheck)) && SameBut(s, Apply(s, t, Action.Recheck), None)
    ensures Rw(s, r).writer == RP.Granted(t) <==> !Queued(s.net, t)
  {
    RecheckOutcome(s, t);
    ReachableHolds(s);
    assert RP.Inv(s.net, r, Rw(s, r)) by { assert PrimOk(s, WriterQ(r)); }
    assert Dequeued(s.net, t, WriterQ(r)) <==> Rw(s, r).writer == RP.Granted(t);
  }

  lemma LateDown(s: State, t: Tid, i: nat)
    requires Reachable(s) && Waits(s.net, t, SemQ(i)) && AtStage(s.net, t, TimedOut) && Enabled(s, t, Action.Recheck)
    ensures RechecksTo(s, t, Apply(s, t, Action.Recheck)) && SameBut(s, Apply(s, t, Action.Recheck), None)
    ensures t in Se(s, i).granted <==> !Queued(s.net, t)
  {
    RecheckOutcome(s, t);
    ReachableHolds(s);
    assert SP.Inv(s.net, i, Se(s, i)) by { assert PrimOk(s, SemQ(i)); }
    assert Dequeued(s.net, t, SemQ(i)) <==> t in Se(s, i).granted;
  }

  /** What the drain then gives away: the mutex, a read hold, the write hold or a unit, granted to the caller and
      from then on nobody's. */
  lemma GivenAway(s: State, t: Tid)
    requires Reachable(s) && Enabled(s, t, Action.GiveUp)
    ensures var s' := DoGiveUp(s, t);
      && Th(s'.net, t).wait.Out?
      && match Th(s.net, t).wait.q
         case MutexQ(m) => Mx(s, m).holder == MP.Granted(t) && Mx(s', m).holder == MP.Orphan(t) && Mx(s', m).v == Mx(s, m).v
         case ReaderQ(r) =>
           && t in Rw(s, r).granted && Rw(s', r).v == Rw(s, r).v && Rw(s', r).active == Rw(s, r).active
           && Rw(s', r).granted == Rw(s, r).granted - {t} && Rw(s', r).orphans == Rw(s, r).orphans + 1
         case WriterQ(r) => Rw(s, r).writer == RP.Granted(t) && Rw(s', r) == Rw(s, r).(writer := RP.Orphan)
         case SemQ(i) =>
           && t in Se(s, i).granted && Se(s', i).v == Se(s, i).v && Se(s', i).waits == Se(s, i).waits
           && Se(s', i).granted == Se(s, i).granted - {t} && Se(s', i).drained == Se(s, i).drained + 1
         case _ => true
  {
    ReachableHolds(s);
    GrantedToDrainer(s, t);
  }

  lemma GrantedToDrainer(s: State, t: Tid)
    requires Inv(s) && AtStage(s.net, t, Draining)
    ensures match Th(s.net, t).wait.q
            case MutexQ(m) => Mx(s, m).holder == MP.Granted(t)
            case ReaderQ(r) => t in Rw(s, r).granted
            case WriterQ(r) => Rw(s, r).writer == RP.Granted(t)
            case SemQ(i) => t in Se(s, i).granted
            case _ => true
  {
    var q := Th(s.net, t).wait.q;
    assert PrimOk(s, q);
    assert Dequeued(s.net, t, q);
    if q.MutexQ? { TimedIsUser(s, t); }
  }

  // ---------------------------------------------------------------- it happens

  /** Threads 0 and 1 and the queue they meet at; both are between calls or inside one plain blocking call. */
  predicate Shot(s: State, t0: Thread, t1: Thread, q: Qid, line: seq<Tid>) {
    && Th(s.net, 0) == t0 && Th(s.net, 1) == t1 && PcOf(s, 0).Run? && PcOf(s, 1).Run? && Qu(s.net, q) == line
  }

  const IDLE: Thread := Thread(Out, 0, [], Nowhere)

  function Waiter(q: Qid, stage: Stage, port: nat, place: Place): Thread {
    Thread(In(q, true, stage), port, [], place)
  }

  predicate Plain(q: Qid) {
    !q.CondQ? && !q.BarrierQ?
  }

  lemma Start() returns (s: State)
    ensures Reachable(s) && (forall q :: Shot(s, IDLE, IDLE, q, []))
    ensures Mx(s, User(0)) == MP.Fresh(M.Normal) && Rw(s, 0) == RP.FRESH && Se(s, 0) == SP.Fresh(0)
    ensures !Ba(s, 0).v.lock && Ba(s, 0).v.pending == Ba(s, 0).v.count == 1
  {
    s := State.State(Net(map[], map[]), map[], map[], map[], map[], map[], map[]);
    assert IsRun([s], []);
  }

  /** Thread 1 times out ... */
  lemma TimesOut(s: State, q: Qid) returns (s': State)
    requires Reachable(s) && Plain(q) && Shot(s, IDLE, Waiter(q, Stage.Blocking, 0, OnQueue), q, [1])
    ensures Reachable(s') && Shot(s', IDLE, Waiter(q, TimedOut, 0, OnQueue), q, [1]) && SameBut(s, s', None)
    ensures s'.net.queues == s.net.queues
  {
    s' := Apply(s, 1, Action.TimeOut);
    ReachableStep(s, 1, Action.TimeOut);
  }

  /** ... just as thread 0 takes it off the queue and sends it its wakeup ... */
  lemma Sends(s: State, q: Qid) returns (s': State)
    requires Reachable(s) && Plain(q) && Shot(s, IDLE.(sends := [1]), Waiter(q, TimedOut, 0, OwedBy(0)), q, [])
    ensures Reachable(s') && Shot(s', IDLE, Waiter(q, TimedOut, 1, InPort), q, []) && SameBut(s, s', None)
  {
    s' := Apply(s, 0, Action.Send);
    ReachableStep(s, 0, Action.Send);
  }

  lemma Rechecks(s: State, q: Qid) returns (s': State)
    requires Reachable(s) && Plain(q) && !Wedged(s, q) && Shot(s, IDLE, Waiter(q, TimedOut, 1, InPort), q, [])
    ensures Reachable(s') && Shot(s', IDLE, Waiter(q, Draining, 1, InPort), q, []) && SameBut(s, s', None)
  {
    s' := Apply(s, 1, Action.Recheck);
    ReachableStep(s, 1, Action.Recheck);
  }

  lemma Drains(s: State, q: Qid) returns (s': State)
    requires Reachable(s) && Plain(q) && Shot(s, IDLE, Waiter(q, Draining, 1, InPort), q, [])
    ensures Reachable(s') && s' == DoGiveUp(s, 1) && InUser(s', 0) && InUser(s', 1)
  {
    s' := Apply(s, 1, Action.GiveUp);
    ReachableStep(s, 1, Action.GiveUp);
  }

  /** ... and reports ETIMEDOUT all the same. */
  lemma TooLate(s: State, q: Qid) returns (s': State, s1: State)
    requires Reachable(s) && Plain(q) && !Wedged(s, q)
    requires Shot(s, IDLE.(sends := [1]), Waiter(q, TimedOut, 0, OwedBy(0)), q, [])
    ensures Waits(s1.net, 1, q) && SameBut(s, s1, None) && Reachable(s1) && Enabled(s1, 1, Action.GiveUp)
    ensures Reachable(s') && InUser(s', 0) && InUser(s', 1) && s' == DoGiveUp(s1, 1)
  {
    var s0 := Sends(s, q);
    s1 := Rechecks(s0, q);
    s' := Drains(s1, q);
  }

  lemma MutexTaken(s: State) returns (s': State)
    requires Reachable(s) && Shot(s, IDLE, IDLE, MutexQ(User(0)), []) && Mx(s, User(0)) == MP.Fresh(M.Normal)
    ensures Reachable(s') && Shot(s', IDLE, IDLE, MutexQ(User(0)), [])
    ensures Mx(s', User(0)) == MP.Fresh(M.Normal).(v := Mx(s, User(0)).v.(held := true), holder := MP.Held(0, 1))
  {
    s' := Apply(s, 0, Lock(User(0), false, true));
    ReachableStep(s, 0, Lock(User(0), false, true));
  }

  lemma MutexAwaited(s: State) returns (s': State)
    requires Reachable(s) && Shot(s, IDLE, IDLE, MutexQ(User(0)), [])
    requires Mx(s, User(0)).v == M.Val(M.Normal, false, true, None, 0)
    ensures Reachable(s') && Shot(s', IDLE, Waiter(MutexQ(User(0)), Stage.Blocking, 0, OnQueue), MutexQ(User(0)), [1])
    ensures Mx(s', User(0)) == Mx(s, User(0))
  {
    s' := DoLock(s, 1, User(0), true, true);
    ReachLock(s, 1, User(0), true, true);
  }

  lemma MutexHandedOver(s: State) returns (s': State)
    requires Reachable(s) && Shot(s, IDLE, Waiter(MutexQ(User(0)), TimedOut, 0, OnQueue), MutexQ(User(0)), [1])
    requires Mx(s, User(0)).v == M.Val(M.Normal, false, true, None, 0) && Mx(s, User(0)).holder == MP.Held(0, 1)
    ensures Reachable(s') && Mx(s', User(0)).v == Mx(s, User(0)).v
    ensures Shot(s', IDLE.(sends := [1]), Waiter(MutexQ(User(0)), TimedOut, 0, OwedBy(0)), MutexQ(User(0)), [])
  {
    s' := Apply(s, 0, Unlock(User(0)));
    ReachableStep(s, 0, Unlock(User(0)));
  }

  /** Both threads are back in user code, neither has the mutex, and it is held. */
  lemma OrphanHappens()
    ensures exists s :: Reachable(s) && InUser(s, 0) && InUser(s, 1) && Mx(s, User(0)).v.held && Mx(s, User(0)).holder == MP.Orphan(1)
  {
    var s := Start();
    s := MutexTaken(s);
    s := MutexAwaited(s);
    s := TimesOut(s, MutexQ(User(0)));
    s := MutexHandedOver(s);
    var s', s1 := TooLate(s, MutexQ(User(0)));
    GivenAway(s1, 1);
  }

  predicate BothIdle(s: State) {
    Shot(s, IDLE, IDLE, ReaderQ(0), []) && Shot(s, IDLE, IDLE, WriterQ(0), [])
  }

  lemma RwTaken(s: State) returns (s': State)
    requires Reachable(s) && BothIdle(s) && Rw(s, 0) == RP.FRESH
    ensures Reachable(s') && BothIdle(s')
    ensures Rw(s', 0).v == Rw(s, 0).v.(held := true) && Rw(s', 0).writer == RP.Writing(0)
  {
    s' := Apply(s, 0, Write(0, false, true));
    ReachableStep(s, 0, Write(0, false, true));
  }

  lemma RwAwaited(s: State, q: Qid) returns (s': State)
    requires Reachable(s) && BothIdle(s) && (q == ReaderQ(0) || q == WriterQ(0))
    requires !Rw(s, 0).v.lock && Rw(s, 0).v.held && Rw(s, 0).v.readers == 0
    ensures Reachable(s') && Shot(s', IDLE, Waiter(q, Stage.Blocking, 0, OnQueue), q, [1]) && Rw(s', 0) == Rw(s, 0)
    ensures Qu(s'.net, if q.ReaderQ? then WriterQ(0) else ReaderQ(0)) == []
  {
    var a := if q.ReaderQ? then Read(0, true, true) else Write(0, true, true);
    s' := Apply(s, 1, a);
    ReachableStep(s, 1, a);
  }

  lemma RwHandedOver(s: State, q: Qid) returns (s': State)
    requires Reachable(s) && (q == ReaderQ(0) || q == WriterQ(0)) && Shot(s, IDLE, Waiter(q, TimedOut, 0, OnQueue), q, [1])
    requires !Rw(s, 0).v.lock && Rw(s, 0).v.held && Rw(s, 0).v.readers == 0 && Rw(s, 0).writer == RP.Writing(0)
    requires Qu(s.net, if q.ReaderQ? then WriterQ(0) else ReaderQ(0)) == []
    ensures Reachable(s') && Shot(s', IDLE.(sends := [1]), Waiter(q, TimedOut, 0, OwedBy(0)), q, [])
    ensures !Rw(s', 0).v.lock && Rw(s', 0).v.held && Rw(s', 0).v.readers == if q.ReaderQ? then 1 else 0
  {
    s' := Apply(s, 0, RwUnlock(0));
    ReachableStep(s, 0, RwUnlock(0));
  }

  lemma RwGivenAway(q: Qid) returns (s': State, s1: State)
    requires q == ReaderQ(0) || q == WriterQ(0)
    ensures Reachable(s1) && Enabled(s1, 1, Action.GiveUp) && Waits(s1.net, 1, q) && Rw(s1, 0).v.held
    ensures Reachable(s') && InUser(s', 0) && InUser(s', 1) && s' == DoGiveUp(s1, 1)
  {
    var s := Start();
    s := RwTaken(s);
    s := RwAwaited(s, q);
    s := TimesOut(s, q);
    s := RwHandedOver(s, q);
    s', s1 := TooLate(s, q);
  }

  /** The same for a read lock: nobody reads, and the lock counts a reader. */
  lemma OrphanReadHappens()
    ensures exists s :: Reachable(s) && InUser(s, 0) && InUser(s, 1) && Rw(s, 0).v.held && Rw(s, 0).orphans > 0
  {
    var s', s1 := RwGivenAway(ReaderQ(0));
    GivenAway(s1, 1);
  }

  /** ... and for a write lock: nobody writes, and the lock is held. */
  lemma OrphanWriteHappens()
    ensures exists s :: Reachable(s) && InUser(s, 0) && InUser(s, 1) && Rw(s, 0).v.held && Rw(s, 0).writer == RP.Orphan
  {
    var s', s1 := RwGivenAway(WriterQ(0));
    GivenAway(s1, 1);
  }

  lemma UnitAwaited(s: State) returns (s': State)
    requires Reachable(s) && Shot(s, IDLE, IDLE, SemQ(0), []) && Se(s, 0) == SP.Fresh(0)
    ensures Reachable(s') && Shot(s', IDLE, Waiter(SemQ(0), Stage.Blocking, 0, OnQueue), SemQ(0), [1]) && Se(s', 0) == SP.Fresh(0)
  {
    s' := Apply(s, 1, Down(0, true, true));
    ReachableStep(s, 1, Down(0, true, true));
  }

  lemma UnitHandedOver(s: State) returns (s': State)
    requires Reachable(s) && Shot(s, IDLE, Waiter(SemQ(0), TimedOut, 0, OnQueue), SemQ(0), [1]) && Se(s, 0) == SP.Fresh(0)
    ensures Reachable(s') && Shot(s', IDLE.(sends := [1]), Waiter(SemQ(0), TimedOut, 0, OwedBy(0)), SemQ(0), [])
    ensures !Se(s', 0).v.lock && Se(s', 0).v.value == 0 && Se(s', 0).posts == 1 && Se(s', 0).waits == 0
  {
    s' := Apply(s, 0, Post(0));
    ReachableStep(s, 0, Post(0));
  }

  lemma UnitLost(s: State, s': State)
    requires Reachable(s) && Enabled(s, 1, Action.GiveUp) && s' == DoGiveUp(s, 1) && Waits(s.net, 1, SemQ(0))
    requires Se(s, 0).v.value == 0 && Se(s, 0).posts == 1 && Se(s, 0).waits == 0
    ensures Se(s', 0).v.value == 0 && Se(s', 0).posts == 1 && Se(s', 0).waits == 0 && Se(s', 0).drained > 0
  {
  }

  predicate UnitIsLost(x: SP.Rec) {
    x.posts == 1 && x.v.value == 0 && x.waits == 0 && x.drained > 0
  }

  lemma UnitTakenOff() returns (s: State)
    ensures Reachable(s) && Shot(s, IDLE.(sends := [1]), Waiter(SemQ(0), TimedOut, 0, OwedBy(0)), SemQ(0), [])
    ensures !Se(s, 0).v.lock && Se(s, 0).v.value == 0 && Se(s, 0).posts == 1 && Se(s, 0).waits == 0
  {
    s := Start();
    s := UnitAwaited(s);
    s := TimesOut(s, SemQ(0));
    s := UnitHandedOver(s);
  }

  /** ... and for a semaphore: one post, no wait returned, and the value is zero. */
  lemma LostUnitHappens()
    ensures exists s :: Reachable(s) && InUser(s, 0) && InUser(s, 1) && UnitIsLost(Se(s, 0))
  {
    var s := UnitTakenOff();
    var s', s1 := TooLate(s, SemQ(0));
    UnitLost(s1, s');
  }

  // ---------------------------------------------------------------- for good

  /** A normal mutex left so is never released, never handed on and never locked again. */
  lemma OrphanStays(s: State, t: Tid, a: Action, m: Mid)
    requires Reachable(s) && Enabled(s, t, a)
    requires Mx(s, m).v.kind == M.Normal && Mx(s, m).holder.Orphan? && !Mx(s, m).breached
    ensures var x := Mx(Apply(s, t, a), m); x.v.kind == M.Normal && x.holder == Mx(s, m).holder && !x.breached
  {
    ReachableHolds(s);
    assert MP.Inv(s.net, m, Mx(s, m)) by { assert PrimOk(s, MutexQ(m)); }
    if ObjectOf(s, t, a) != Some(MutexQ(m)) {
      OthersUntouched(s, t, a);
    } else {
      OrphanIsUser(s, m);
      OrphanSections(s.net, m, Mx(s, m), t);
      OrphanStep(s, t, a, m);
    }
  }

  lemma OrphanIsUser(s: State, m: Mid)
    requires Inv(s) && Mx(s, m).holder.Orphan? && !Mx(s, m).breached
    ensures m.User?
  {
    assert PrimOk(s, MutexQ(m));
    if m.CancelLock? { assert CancelLockOk(s, m.t) by { assert ThreadOk(s, m.t); } }
  }

  lemma OrphanStep(s: State, t: Tid, a: Action, m: Mid)
    requires Inv(s) && Enabled(s, t, a) && ObjectOf(s, t, a) == Some(MutexQ(m)) && m.User?
    requires Mx(s, m).v.kind == M.Normal && Mx(s, m).holder.Orphan? && !Mx(s, m).breached
    ensures var x := Mx(Apply(s, t, a), m); x.v.kind == M.Normal && x.holder == Mx(s, m).holder && !x.breached
  {
    assert MP.Inv(s.net, m, Mx(s, m)) by { assert PrimOk(s, MutexQ(m)); }
    assert ThreadOk(s, t);
    if PcOf(s, t).CHook? { assert ThreadOk(s, PcOf(s, t).p); }
    OrphanSections(s.net, m, Mx(s, m), t);
  }

  lemma OrphanSections(g: Net, m: Mid, x: MP.Rec, t: Tid)
    requires MP.Inv(g, m, x) && x.v.kind == M.Normal && x.holder.Orphan? && !x.breached
    ensures forall timed, valid :: var y := MP.Lock(g, m, x, t, timed, valid).1;
      y.v.kind == M.Normal && y.holder == x.holder && !y.breached
    ensures MP.TryLock(x, t).0 == x
    ensures x.v.owner == None && !MP.IsHeldBy(x, t) && !Dequeued(g, t, MutexQ(m))
  {
  }

  lemma OrphanForever(states: seq<State>, events: seq<Event>, i: nat, j: nat, m: Mid)
    requires IsRun(states, events) && i <= j < |states|
    requires Mx(states[i], m).v.kind == M.Normal && Mx(states[i], m).holder.Orphan? && !Mx(states[i], m).breached
    ensures Mx(states[j], m).v.kind == M.Normal && Mx(states[j], m).holder == Mx(states[i], m).holder
  {
    var h := Mx(states[i], m).holder;
    var p := (s: State) => Mx(s, m).v.kind == M.Normal && Mx(s, m).holder == h && !Mx(s, m).breached;
    forall s, t, a | Reachable(s) && Enabled(s, t, a) && p(s) ensures p(Apply(s, t, a)) {
      OrphanStays(s, t, a, m);
    }
    Permanent(p, states, events, i, j);
  }
}
