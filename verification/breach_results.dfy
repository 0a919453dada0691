/** A cancellation hook takes its target off whatever queue the target is on.  When that is the queue of the
    target's own cancel_lock, a second thread enters the sections that lock protects: exactly when, and that it
    happens. */
module BreachResults {
  import opened Base
  import opened Blocking
  import opened System
  import opened SystemProof
  import opened Theorems
  import opened Frames
  import M = Mutex
  import C = Condition
  import MP = MutexProtocol

  /** The hook runs while its target waits for its own cancel_lock. */
  predicate Breaches(s: State, e: Event, p: Tid) {
    e.a == Advance && PcOf(s, e.t).CHook? && PcOf(s, e.t).p == p && p in Qu(s.net, MutexQ(CancelLock(p)))
  }

  lemma SectionsKeepBreach(g: Net, m: Mid, x: MP.Rec, t: Tid)
    ensures forall timed, valid :: MP.Lock(g, m, x, t, timed, valid).1.breached == x.breached
    ensures MP.TryLock(x, t).0.breached == x.breached && MP.Unlock(g, m, x, t).1.breached == x.breached
    ensures forall to :: MP.Transfer(x, t, to).0.breached == x.breached
  {
  }

  lemma CallsKeepBreach(s: State, t: Tid, a: Action, m: Mid)
    requires Enabled(s, t, a) && (a.Lock? || a.TryLock? || a.Unlock? || a.Transfer?)
    ensures Mx(Apply(s, t, a), m).breached == Mx(s, m).breached
  {
    MutexCallFrame(s, t, a);
    if a.m == m { SectionsKeepBreach(s.net, m, Mx(s, m), t); }
  }

  lemma EndingKeepsBreach(s: State, t: Tid, m: Mid)
    ensures CanFinish(s, t) ==> Mx(DoFinish(s, t), m).breached == Mx(s, m).breached
    ensures CanGiveUp(s, t) ==> Mx(DoGiveUp(s, t), m).breached == Mx(s, m).breached
  {
  }

  lemma EndingStepKeepsBreach(s: State, t: Tid, a: Action, m: Mid)
    requires Enabled(s, t, a) && (a.Finish? || a.GiveUp?)
    ensures Mx(Apply(s, t, a), m).breached == Mx(s, m).breached
  {
    EndingKeepsBreach(s, t, m);
  }

  lemma HookBreachesIff(s: State, t: Tid, p: Tid)
    requires Inv(s) && PcOf(s, t).CHook?
    ensures Breached(DoHook(s, t, PcOf(s, t).p), p) <==> Breached(s, p) || Breaches(s, Event(t, Advance), p)
  {
    var o := PcOf(s, t).p;
    assert o in Qu(s.net, MutexQ(CancelLock(o))) ==> Waits(s.net, o, MutexQ(CancelLock(o)));
    if Queued(s.net, o) { HookedOn(s, t); }
  }

  lemma HookStepBreaches(s: State, t: Tid, p: Tid)
    requires Inv(s) && Enabled(s, t, Advance) && PcOf(s, t).CHook?
    ensures Breached(Apply(s, t, Advance), p) <==> Breached(s, p) || Breaches(s, Event(t, Advance), p)
  {
    HookBreachesIff(s, t, p);
  }

  lemma OthersKeepBreach(s: State, t: Tid, a: Action, m: Mid)
    requires Enabled(s, t, a) && ObjectOf(s, t, a) != Some(MutexQ(m))
    ensures Mx(Apply(s, t, a), m).breached == Mx(s, m).breached
  {
    OthersUntouched(s, t, a);
  }

  lemma BreachStep(s: State, t: Tid, a: Action, p: Tid)
    requires Inv(s) && Enabled(s, t, a)
    ensures Breached(Apply(s, t, a), p) <==> Breached(s, p) || Breaches(s, Event(t, a), p)
  {
    if a.Advance? && PcOf(s, t).CHook? {
      HookStepBreaches(s, t, p);
    } else if a.Finish? || a.GiveUp? {
      EndingStepKeepsBreach(s, t, a, CancelLock(p));
    } else if a.Lock? || a.TryLock? || a.Unlock? || a.Transfer? {
      CallsKeepBreach(s, t, a, CancelLock(p));
    } else {
      OthersKeepBreach(s, t, a, CancelLock(p));
    }
  }

  /** In a run a cancel_lock is breached exactly if some canceller's hook ran while its owner waited for it. */
  lemma BreachedIff(states: seq<State>, events: seq<Event>, j: nat, p: Tid)
    requires IsRun(states, events) && j < |states|
    ensures Breached(states[j], p) <==> exists i :: 0 <= i < j && Breaches(states[i], events[i], p)
  {
    var q := (s: State) => Breached(s, p);
    forall s, t, a | Reachable(s) && Enabled(s, t, a)
      ensures q(Apply(s, t, a)) <==> q(s) || Breaches(s, Event(t, a), p)
    {
      ReachableHolds(s);
      BreachStep(s, t, a, p);
    }
    HistoryIff(q, (s, e) => Breaches(s, e, p), states, events, j);
  }

  /** At that moment the canceller holds the lock, and still does when its target is let in. */
  lemma BreachLetsIn(s: State, t: Tid, p: Tid)
    requires Reachable(s) && Breaches(s, Event(t, Advance), p) && Ready(s, t)
    ensures MP.IsHeldBy(Mx(s, CancelLock(p)), t) && PcOf(s, p).WWoken?
    ensures var s' := DoHook(s, t, p);
      && CancelHeld(PcOf(s', t), t) == Some(p) && Th(s'.net, t).sends == [p]
      && Waits(s'.net, p, MutexQ(CancelLock(p))) && forall q :: p !in Qu(s'.net, q)
  {
    ReachableHolds(s);
    BreachedAt(s, t, p);
    TakeOffEffect(s.net, t, p, MutexQ(CancelLock(p)));
  }

  lemma BreachedAt(s: State, t: Tid, p: Tid)
    requires Inv(s) && PcOf(s, t).CHook? && PcOf(s, t).p == p && p in Qu(s.net, MutexQ(CancelLock(p)))
    ensures MP.IsHeldBy(Mx(s, CancelLock(p)), t) && PcOf(s, p).WWoken? && Waits(s.net, p, MutexQ(CancelLock(p)))
  {
    assert Waits(s.net, p, MutexQ(CancelLock(p)));
    HookedOn(s, t);
    assert ThreadOk(s, t) && ThreadOk(s, p);
  }

  /** A mutex of the program is never breached, and a breached lock's owner has a request pending. */
  lemma OnlyCancelLocks(s: State, n: nat, p: Tid)
    requires Reachable(s)
    ensures !Mx(s, User(n)).breached
    ensures Breached(s, p) ==> Cn(s, p).pending
  {
    ReachableHolds(s);
    assert PrimOk(s, MutexQ(User(n)));
    assert ThreadOk(s, p);
  }

  // ---------------------------------------------------------------- it happens

  /** Thread 0 waits on condition 0 with mutex 0, thread 1 cancels it, thread 2 signals. */
  datatype Scene = Scene(p0: Pc, p1: Pc, x0: Thread, sends1: seq<Tid>, sends2: seq<Tid>, user: MP.Holder,
                         lock: MP.Holder, breached: bool, cq: seq<Tid>, mq: seq<Tid>, cancel: C.Cancel<nat>)

  predicate Shows(s: State, x: Scene) {
    && PcOf(s, 0) == x.p0 && PcOf(s, 1) == x.p1 && PcOf(s, 2) == Run
    && Th(s.net, 0) == x.x0 && Th(s.net, 1) == Thread(Out, 0, x.sends1, Nowhere) && Th(s.net, 2) == Thread(Out, 0, x.sends2, Nowhere)
    && Mx(s, User(0)) == MP.Rec(M.Val(M.Normal, false, !x.user.Free?, None, 0), x.user, false, false)
    && Mx(s, CancelLock(0)) == MP.Rec(M.Val(M.Normal, false, !x.lock.Free?, None, 0), x.lock, false, x.breached)
    && Qu(s.net, MutexQ(User(0))) == [] && Qu(s.net, CondQ(0)) == x.cq && Qu(s.net, MutexQ(CancelLock(0))) == x.mq
    && Cn(s, 0) == x.cancel
  }

  const IDLE: Thread := Thread(Out, 0, [], Nowhere)

  function OnCondition(stage: Stage, port: nat, place: Place): Thread {
    Thread(In(CondQ(0), false, stage), port, [], place)
  }

  function OnLock(stage: Stage, port: nat, place: Place): Thread {
    Thread(In(MutexQ(CancelLock(0)), false, stage), port, [], place)
  }

  // What the steps of the run do to the state.

  lemma LocksFree(s: State, t: Tid, m: Mid) returns (s': State)
    requires Reachable(s) && Ready(s, t) && MayLock(s, t, m, false)
    requires Mx(s, m).v == M.Val(M.Normal, false, false, None, 0) && Mx(s, m).holder == MP.Free
    ensures Reachable(s')
    ensures s' == s.(mutexes := s.mutexes[m := Mx(s, m).(v := Mx(s, m).v.(held := true), holder := MP.Held(t, 1))],
                     pcs := s.pcs[t := AfterLock(PcOf(s, t))])
  {
    s' := DoLock(s, t, m, false, true);
    ReachLock(s, t, m, false, true);
  }

  lemma LocksBusy(s: State, t: Tid, m: Mid) returns (s': State)
    requires Reachable(s) && Ready(s, t) && MayLock(s, t, m, false) && Mx(s, m).v == M.Val(M.Normal, false, true, None, 0)
    ensures Reachable(s') && s' == s.(net := s'.net, mutexes := s'.mutexes, pcs := s'.pcs)
    ensures forall n {:trigger Mx(s', n)} :: Mx(s', n) == Mx(s, n)
    ensures forall u {:trigger PcOf(s', u)} :: PcOf(s', u) == PcOf(s, u)
    ensures Th(s'.net, t) == Th(s.net, t).(wait := In(MutexQ(m), false, Stage.Blocking), place := OnQueue)
    ensures forall u {:trigger Th(s'.net, u)} :: u != t ==> Th(s'.net, u) == Th(s.net, u)
    ensures forall q {:trigger Qu(s'.net, q)} :: Qu(s'.net, q) == if q == MutexQ(m) then [t] + Qu(s.net, q) else Qu(s.net, q)
  {
    s' := DoLock(s, t, m, false, true);
    ReachLock(s, t, m, false, true);
  }

  lemma UnlocksAlone(s: State, t: Tid, m: Mid) returns (s': State)
    requires Reachable(s) && Th(s.net, t).sends == [] && !PcOf(s, t).Run? && MayUnlock(s, t, m)
    requires Mx(s, m).v == M.Val(M.Normal, false, true, None, 0) && Qu(s.net, MutexQ(m)) == []
    ensures Reachable(s')
    ensures s' == s.(mutexes := s.mutexes[m := Mx(s, m).(v := Mx(s, m).v.(held := false), holder := MP.Free)],
                     pcs := s.pcs[t := AfterUnlock(PcOf(s, t))])
  {
    s' := DoUnlock(s, t, m);
    ReachUnlock(s, t, m);
  }

  lemma Queues(s: State, t: Tid, c: nat, m: Mid) returns (s': State)
    requires Reachable(s) && Ready(s, t) && PcOf(s, t) == WHook(c, m, false) && Cn(s, t) == C.FreshCancel()
    ensures Reachable(s')
    ensures s' == s.(net := Enqueue(s.net, t, CondQ(c), false), cancels := s.cancels[t := C.Cancel(true, false, false, Some(c))],
                     pcs := s.pcs[t := WArmed(c, m, false)])
  {
    s' := DoAdvance(s, t);
    ReachAdvance(s, t);
  }

  lemma Requests(s: State, t: Tid, p: Tid, c: nat) returns (s': State)
    requires Reachable(s) && Ready(s, t) && PcOf(s, t) == CGot(p) && Cn(s, p) == C.Cancel(true, false, false, Some(c))
    ensures Reachable(s')
    ensures s' == s.(cancels := s.cancels[p := Cn(s, p).(pending := true)], pcs := s.pcs[t := CHook(p, c)])
  {
    s' := DoAdvance(s, t);
    ReachAdvance(s, t);
  }

  lemma Hooks(s: State, t: Tid, p: Tid, c: nat) returns (s': State)
    requires Reachable(s) && Ready(s, t) && PcOf(s, t) == CHook(p, c) && Waits(s.net, p, MutexQ(CancelLock(p))) && Queued(s.net, p)
    ensures Reachable(s')
    ensures var m := CancelLock(p);
      s' == s.(net := TakeOff(s.net, t, p, MutexQ(m)), mutexes := s.mutexes[m := Mx(s, m).(breached := true)],
               pcs := s.pcs[t := CUnlock(p)])
  {
    s' := DoAdvance(s, t);
    ReachAdvance(s, t);
  }

  lemma Signals(s: State, t: Tid, c: nat, w: Tid) returns (s': State)
    requires Reachable(s) && InUser(s, t) && Qu(s.net, CondQ(c)) == [w] && t != w
    ensures Reachable(s') && s' == s.(net := s'.net)
    ensures Th(s'.net, t) == Th(s.net, t).(sends := [w]) && Th(s'.net, w) == Th(s.net, w).(place := OwedBy(t))
    ensures forall u {:trigger Th(s'.net, u)} :: u != t && u != w ==> Th(s'.net, u) == Th(s.net, u)
    ensures forall q {:trigger Qu(s'.net, q)} :: Qu(s'.net, q) == if q == CondQ(c) then [] else Qu(s.net, q)
  {
    s' := Apply(s, t, Signal(c));
    ReachableStep(s, t, Signal(c));
  }

  lemma Begins(s: State, t: Tid, a: Action, pc: Pc) returns (s': State)
    requires Reachable(s) && InUser(s, t)
    requires
      || (a.CancelThread? && pc == CEnter(a.p))
      || (a.CondWait? && !a.timed && a.m.User? && MP.IsHeldBy(Mx(s, a.m), t) && pc == WEnter(a.c, a.m, false))
    ensures Reachable(s') && s' == s.(pcs := s.pcs[t := pc])
  {
    s' := Apply(s, t, a);
    ReachableStep(s, t, a);
  }

  lemma Sends(s: State, t: Tid) returns (s': State)
    requires Reachable(s) && Th(s.net, t).sends != []
    ensures Reachable(s') && s' == s.(net := Blocking.Send(s.net, t))
  {
    s' := Apply(s, t, Action.Send);
    ReachableStep(s, t, Action.Send);
  }

  lemma Receives(s: State, t: Tid) returns (s': State)
    requires Reachable(s) && Receiving(s, t) && Th(s.net, t).port > 0
    ensures Reachable(s') && s' == s.(net := Blocking.Receive(s.net, t))
  {
    s' := Apply(s, t, Action.Receive);
    ReachableStep(s, t, Action.Receive);
  }

  lemma FindsItselfOff(s: State, t: Tid) returns (s': State)
    requires Reachable(s) && AtStage(s.net, t, Taken) && !Queued(s.net, t) && !Th(s.net, t).wait.q.BarrierQ?
    requires !Wedged(s, Th(s.net, t).wait.q)
    ensures Reachable(s') && s' == s.(net := Blocking.Recheck(s.net, t), pcs := s.pcs[t := PcOf(s, t)])
  {
    s' := Apply(s, t, Action.Recheck);
    ReachableStep(s, t, Action.Recheck);
  }

  lemma LeavesCond(s: State, t: Tid, c: nat) returns (s': State)
    requires Reachable(s) && Waits(s.net, t, CondQ(c)) && AtStage(s.net, t, Finishing)
    ensures Reachable(s')
    ensures s' == s.(net := Blocking.Finish(s.net, t), pcs := s.pcs[t := AfterWait(PcOf(s, t), false)])
  {
    s' := DoFinish(s, t);
    ReachFinish(s, t);
  }

  lemma LeavesMutex(s: State, t: Tid, m: Mid) returns (s': State)
    requires Reachable(s) && Waits(s.net, t, MutexQ(m)) && AtStage(s.net, t, Finishing) && Mx(s, m).v.kind == M.Normal
    ensures Reachable(s')
    ensures s' == s.(net := Blocking.Finish(s.net, t), mutexes := s.mutexes[m := Mx(s, m).(holder := MP.Held(t, 1))],
                     pcs := s.pcs[t := AfterLock(PcOf(s, t))])
  {
    s' := DoFinish(s, t);
    ReachFinish(s, t);
  }

  // The run, scene by scene.

  const SCENE0 := Scene(Run, Run, IDLE, [], [], MP.Free, MP.Free, false, [], [], C.FreshCancel())
  const SCENE1 := SCENE0.(user := MP.Held(0, 1))
  const SCENE2 := SCENE1.(p0 := WEnter(0, User(0), false))
  const SCENE3 := SCENE2.(p0 := WHook(0, User(0), false), lock := MP.Held(0, 1))
  const SCENE4 := SCENE3.(p0 := WArmed(0, User(0), false), x0 := OnCondition(Stage.Blocking, 0, OnQueue), cq := [0],
                                cancel := C.Cancel(true, false, false, Some(0)))
  const SCENE5 := SCENE4.(p0 := WRelease(0, User(0), false), lock := MP.Free)
  const SCENE6 := SCENE5.(p0 := WBlock(0, User(0), false), user := MP.Free)
  const SCENE7 := SCENE6.(p1 := CEnter(0))
  const SCENE8 := SCENE7.(p1 := CGot(0), lock := MP.Held(1, 1))
  const SCENE9 := SCENE8.(p1 := CHook(0, 0), cancel := C.Cancel(true, false, true, Some(0)))
  const SCENE10 := SCENE9.(x0 := OnCondition(Stage.Blocking, 0, OwedBy(2)), sends2 := [0], cq := [])
  const SCENE11 := SCENE10.(x0 := OnCondition(Stage.Blocking, 1, InPort), sends2 := [])
  const SCENE12 := SCENE11.(x0 := OnCondition(Taken, 0, Nowhere))
  const SCENE13 := SCENE12.(x0 := OnCondition(Finishing, 0, Nowhere))
  const SCENE14 := SCENE13.(p0 := WWoken(0, User(0), false, false), x0 := IDLE)
  const SCENE15 := SCENE14.(x0 := OnLock(Stage.Blocking, 0, OnQueue), mq := [0])
  const SCENE16 := SCENE15.(p1 := CUnlock(0), x0 := OnLock(Stage.Blocking, 0, OwedBy(1)), sends1 := [0],
                                  breached := true, mq := [])
  const SCENE17 := SCENE16.(x0 := OnLock(Stage.Blocking, 1, InPort), sends1 := [])
  const SCENE18 := SCENE17.(x0 := OnLock(Taken, 0, Nowhere))
  const SCENE19 := SCENE18.(x0 := OnLock(Finishing, 0, Nowhere))
  const SCENE20 := SCENE19.(p0 := WClear(0, User(0), false, false), x0 := IDLE, lock := MP.Held(0, 1))

  lemma Step0(s: State) returns (s': State)
    requires Reachable(s) && Shows(s, SCENE0)
    ensures Reachable(s') && Shows(s', SCENE1)
  {
    s' := LocksFree(s, 0, User(0));
  }

  lemma Step1(s: State) returns (s': State)
    requires Reachable(s) && Shows(s, SCENE1)
    ensures Reachable(s') && Shows(s', SCENE2)
  {
    s' := Begins(s, 0, CondWait(0, User(0), false, true), WEnter(0, User(0), false));
  }

  lemma Step2(s: State) returns (s': State)
    requires Reachable(s) && Shows(s, SCENE2)
    ensures Reachable(s') && Shows(s', SCENE3)
  {
    s' := LocksFree(s, 0, CancelLock(0));
  }

  lemma Scene3(s: State, s': State)
    requires Shows(s, SCENE3)
    requires s' == s.(net := Enqueue(s.net, 0, CondQ(0), false), cancels := s.cancels[0 := C.Cancel(true, false, false, Some(0))],
                     pcs := s.pcs[0 := WArmed(0, User(0), false)])
    ensures Shows(s', SCENE4)
  {
  }

  lemma Step3(s: State) returns (s': State)
    requires Reachable(s) && Shows(s, SCENE3)
    ensures Reachable(s') && Shows(s', SCENE4)
  {
    s' := Queues(s, 0, 0, User(0));
    Scene3(s, s');
  }

  lemma Step4(s: State) returns (s': State)
    requires Reachable(s) && Shows(s, SCENE4)
    ensures Reachable(s') && Shows(s', SCENE5)
  {
    s' := UnlocksAlone(s, 0, CancelLock(0));
  }

  lemma Step5(s: State) returns (s': State)
    requires Reachable(s) && Shows(s, SCENE5)
    ensures Reachable(s') && Shows(s', SCENE6)
  {
    s' := UnlocksAlone(s, 0, User(0));
  }

  lemma Step6(s: State) returns (s': State)
    requires Reachable(s) && Shows(s, SCENE6)
    ensures Reachable(s') && Shows(s', SCENE7)
  {
    s' := Begins(s, 1, CancelThread(0), CEnter(0));
  }

  lemma Scene7(s: State, s': State)
    requires Shows(s, SCENE7)
    requires var x := Mx(s, CancelLock(0));
      s' == s.(mutexes := s.mutexes[CancelLock(0) := x.(v := x.v.(held := true), holder := MP.Held(1, 1))],
               pcs := s.pcs[1 := AfterLock(PcOf(s, 1))])
    ensures Shows(s', SCENE8)
  {
  }

  lemma Step7(s: State) returns (s': State)
    requires Reachable(s) && Shows(s, SCENE7)
    ensures Reachable(s') && Shows(s', SCENE8)
  {
    s' := LocksFree(s, 1, CancelLock(0));
    Scene7(s, s');
  }

  lemma Step8(s: State) returns (s': State)
    requires Reachable(s) && Shows(s, SCENE8)
    ensures Reachable(s') && Shows(s', SCENE9)
  {
    s' := Requests(s, 1, 0, 0);
  }

  lemma Step9(s: State) returns (s': State)
    requires Reachable(s) && Shows(s, SCENE9)
    ensures Reachable(s') && Shows(s', SCENE10)
  {
    s' := Signals(s, 2, 0, 0);
  }

  lemma Step10(s: State) returns (s': State)
    requires Reachable(s) && Shows(s, SCENE10)
    ensures Reachable(s') && Shows(s', SCENE11)
  {
    s' := Sends(s, 2);
  }

  lemma Step11(s: State) returns (s': State)
    requires Reachable(s) && Shows(s, SCENE11)
    ensures Reachable(s') && Shows(s', SCENE12)
  {
    s' := Receives(s, 0);
  }

  lemma Step12(s: State) returns (s': State)
    requires Reachable(s) && Shows(s, SCENE12)
    ensures Reachable(s') && Shows(s', SCENE13)
  {
    s' := FindsItselfOff(s, 0);
  }

  lemma Step13(s: State) returns (s': State)
    requires Reachable(s) && Shows(s, SCENE13)
    ensures Reachable(s') && Shows(s', SCENE14)
  {
    s' := LeavesCond(s, 0, 0);
  }

  lemma Step14(s: State) returns (s': State)
    requires Reachable(s) && Shows(s, SCENE14)
    ensures Reachable(s') && Shows(s', SCENE15)
  {
    s' := LocksBusy(s, 0, CancelLock(0));
  }

  lemma Scene15(s: State, s': State)
    requires Shows(s, SCENE15)
    requires s' == s.(net := TakeOff(s.net, 1, 0, MutexQ(CancelLock(0))),
                     mutexes := s.mutexes[CancelLock(0) := Mx(s, CancelLock(0)).(breached := true)], pcs := s.pcs[1 := CUnlock(0)])
    ensures Shows(s', SCENE16)
  {
  }

  lemma Step15(s: State) returns (s': State)
    requires Reachable(s) && Shows(s, SCENE15)
    ensures Reachable(s') && Shows(s', SCENE16)
  {
    s' := Hooks(s, 1, 0, 0);
    Scene15(s, s');
  }

  lemma Step16(s: State) returns (s': State)
    requires Reachable(s) && Shows(s, SCENE16)
    ensures Reachable(s') && Shows(s', SCENE17)
  {
    s' := Sends(s, 1);
  }

  lemma Step17(s: State) returns (s': State)
    requires Reachable(s) && Shows(s, SCENE17)
    ensures Reachable(s') && Shows(s', SCENE18)
  {
    s' := Receives(s, 0);
  }

  lemma Step18(s: State) returns (s': State)
    requires Reachable(s) && Shows(s, SCENE18)
    ensures Reachable(s') && Shows(s', SCENE19)
  {
    s' := FindsItselfOff(s, 0);
  }

  lemma Scene19(s: State, s': State)
    requires Shows(s, SCENE19)
    requires s' == s.(net := Blocking.Finish(s.net, 0),
                     mutexes := s.mutexes[CancelLock(0) := Mx(s, CancelLock(0)).(holder := MP.Held(0, 1))],
                     pcs := s.pcs[0 := AfterLock(PcOf(s, 0))])
    ensures Shows(s', SCENE20)
  {
  }

  lemma Step19(s: State) returns (s': State)
    requires Reachable(s) && Shows(s, SCENE19)
    ensures Reachable(s') && Shows(s', SCENE20)
  {
    s' := LeavesMutex(s, 0, CancelLock(0));
    Scene19(s, s');
  }

  lemma Begin() returns (s: State)
    ensures Reachable(s) && Shows(s, SCENE0)
  {
    s := State.State(Net(map[], map[]), map[], map[], map[], map[], map[], map[]);
    assert IsRun([s], []);
  }

  lemma StartsToWait(s: State) returns (s': State)
    requires Reachable(s) && Shows(s, SCENE0)
    ensures Reachable(s') && Shows(s', SCENE4)
  {
    s' := Step0(s);
    s' := Step1(s');
    s' := Step2(s');
    s' := Step3(s');
  }

  lemma Blocks(s: State) returns (s': State)
    requires Reachable(s) && Shows(s, SCENE4)
    ensures Reachable(s') && Shows(s', SCENE7)
  {
    s' := Step4(s);
    s' := Step5(s');
    s' := Step6(s');
  }

  lemma IsCancelled(s: State) returns (s': State)
    requires Reachable(s) && Shows(s, SCENE7)
    ensures Reachable(s') && Shows(s', SCENE10)
  {
    s' := Step7(s);
    s' := Step8(s');
    s' := Step9(s');
  }

  lemma IsWoken(s: State) returns (s': State)
    requires Reachable(s) && Shows(s, SCENE10)
    ensures Reachable(s') && Shows(s', SCENE14)
  {
    s' := Step10(s);
    s' := Step11(s');
    s' := Step12(s');
    s' := Step13(s');
  }

  lemma IsHooked(s: State) returns (s': State)
    requires Reachable(s) && Shows(s, SCENE14)
    ensures Reachable(s') && Shows(s', SCENE17)
  {
    s' := Step14(s);
    s' := Step15(s');
    s' := Step16(s');
  }

  lemma GetsIn(s: State) returns (s': State)
    requires Reachable(s) && Shows(s, SCENE17)
    ensures Reachable(s') && Shows(s', SCENE20)
  {
    s' := Step17(s);
    s' := Step18(s');
    s' := Step19(s');
  }

  /** `t` and `u` are both inside sections that the cancel_lock of `p` is there to keep apart. */
  predicate BothInside(s: State, p: Tid, t: Tid, u: Tid) {
    t != u && CancelHeld(PcOf(s, t), t) == Some(p) && CancelHeld(PcOf(s, u), u) == Some(p)
  }

  lemma FirstHalf() returns (s: State)
    ensures Reachable(s) && Shows(s, SCENE10)
  {
    s := Begin();
    s := StartsToWait(s);
    s := Blocks(s);
    s := IsCancelled(s);
  }

  lemma SecondHalf(s: State) returns (s': State)
    requires Reachable(s) && Shows(s, SCENE10)
    ensures Reachable(s') && Shows(s', SCENE20)
  {
    var s1 := IsWoken(s);
    var s2 := IsHooked(s1);
    s' := GetsIn(s2);
  }

  lemma ShowsBothInside(s: State)
    requires Shows(s, SCENE20)
    ensures Breached(s, 0) && BothInside(s, 0, 0, 1)
  {
  }

  /** A canceller and the thread it cancels get there. */
  lemma BreachHappens()
    ensures exists s :: Reachable(s) && Breached(s, 0) && BothInside(s, 0, 0, 1)
  {
    var s := FirstHalf();
    s := SecondHalf(s);
    ShowsBothInside(s);
  }

  /** Without a breach nobody does. */
  lemma NoBreachNoOverlap(s: State, p: Tid, t: Tid, u: Tid)
    requires Reachable(s) && BothInside(s, p, t, u)
    ensures Breached(s, p)
  {
    ReachableHolds(s);
    assert ThreadOk(s, t) && ThreadOk(s, u);
  }
}
