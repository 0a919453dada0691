/** What the invariant means for wakeups and for callers of mutexes, in every reachable state. */
module MutexResults {
  import opened Base
  import opened Blocking
  import opened System
  import opened Theorems
  import opened Frames
  import M = Mutex
  import MP = MutexProtocol

  // ---------------------------------------------------------------- one wakeup, one place

  /** A thread that has taken neither its wakeup nor its timeout exit is in exactly one of three places: on the
      queue it waits on, among the sends some waker still owes, or with one message in its port.  Any other
      thread is in none, so no wakeup leaks into a later wait and no section finds its caller's `prevp` set. */
  lemma OneWakeup(s: State, t: Tid)
    requires Reachable(s)
    ensures var onQueue, owed, inPort := Queued(s.net, t), exists w :: t in Th(s.net, w).sends, Th(s.net, t).port > 0;
      && (Owed(s.net, t) ==>
            (onQueue && !owed && !inPort) || (!onQueue && owed && !inPort) || (!onQueue && !owed && inPort))
      && (!Owed(s.net, t) ==> !owed && !inPort && forall q :: t !in Qu(s.net, q))
      && Th(s.net, t).port <= 1
  {
    ReachableHolds(s);
    ExactlyOnePlace(s.net, t);
    assert forall q :: t in Qu(s.net, q) ==> Queued(s.net, t);
  }

  /** The one-message port is empty whenever a wakeup is sent to it. */
  lemma PortNeverOverflows(s: State, w: Tid)
    requires Reachable(s) && Enabled(s, w, Action.Send)
    ensures Th(s.net, Th(s.net, w).sends[0]).port == 0
  {
    ReachableHolds(s);
    SendKeeps(s.net, w);
  }

  // ---------------------------------------------------------------- the refinement

  /** The steps of a single-owner lock with direct handoff.  From `Granted(w)` only `w` goes on. */
  predicate LockStepOf(h: MP.Holder, t: Tid, h': MP.Holder) {
    || h' == h
    || (h.Free? && h' == MP.Held(t, 1))
    || (h == MP.Granted(t) && h' == MP.Held(t, 1))
    || (h.Held? && h.t == t && h' == MP.Held(t, h.depth + 1))
    || (h.Held? && h.t == t && h.depth > 1 && h' == MP.Held(t, h.depth - 1))
    || (h.Held? && h.t == t && h.depth == 1 && (h'.Free? || h'.Granted?))
    || (h.Held? && h.t == t && h'.Held? && h'.depth == h.depth)
  }

  lemma MutexSectionRefines(g: Net, m: Mid, x: MP.Rec, t: Tid)
    requires NetInv(g) && MP.Inv(g, m, x) && !x.tainted && !x.breached
    ensures forall timed, valid :: LockStepOf(x.holder, t, MP.Lock(g, m, x, t, timed, valid).1.holder)
    ensures LockStepOf(x.holder, t, MP.TryLock(x, t).0.holder)
    ensures (x.v.kind == M.Normal ==> MP.IsHeldBy(x, t)) && !Waits(g, t, MutexQ(m)) ==>
      LockStepOf(x.holder, t, MP.Unlock(g, m, x, t).1.holder)
    ensures forall to :: x.v.owner == Some(t) && !Waits(g, t, MutexQ(m)) ==> LockStepOf(x.holder, t, MP.Transfer(x, t, to).0.holder)
    ensures Waits(g, t, MutexQ(m)) && AtStage(g, t, Finishing) ==> LockStepOf(x.holder, t, MP.Epilogue(g, x, t).1.holder)
  {
    assert Dequeued(g, t, MutexQ(m)) <==> x.holder == MP.Granted(t);
  }

  /** Every step of every thread is, for every mutex no timed lock ever gave up and no hook ever breached, a step
      of that lock. */
  lemma MutexRefines(s: State, t: Tid, a: Action, m: Mid)
    requires Reachable(s) && Enabled(s, t, a) && !Mx(Apply(s, t, a), m).tainted && !Mx(Apply(s, t, a), m).breached
    ensures LockStepOf(Mx(s, m).holder, t, Mx(Apply(s, t, a), m).holder)
  {
    if ObjectOf(s, t, a) != Some(MutexQ(m)) {
      OthersUntouched(s, t, a);
    } else {
      OnItsMutexRefines(s, t, a, m);
    }
  }

  lemma OnItsMutexRefines(s: State, t: Tid, a: Action, m: Mid)
    requires Reachable(s) && Enabled(s, t, a) && ObjectOf(s, t, a) == Some(MutexQ(m))
    requires !Mx(Apply(s, t, a), m).tainted && !Mx(Apply(s, t, a), m).breached
    ensures LockStepOf(Mx(s, m).holder, t, Mx(Apply(s, t, a), m).holder)
  {
    if a.Finish? || a.GiveUp? {
      LeavingRefines(s, t, a, m);
    } else if a.Advance? {
      HookRefines(s, t, m);
    } else if a.Unlock? {
      UnlockRefines(s, t, m);
    } else {
      CallRefines(s, t, a, m);
    }
  }

  lemma MutexFacts(s: State, t: Tid, m: Mid)
    requires Reachable(s)
    ensures NetInv(s.net) && MP.Inv(s.net, m, Mx(s, m)) && WaitOk(s, t)
    ensures forall n {:trigger Mx(s, n)} :: NamesMutex(PcOf(s, t)) && n == PcOf(s, t).m ==> n.User?
    ensures MutexHeld(PcOf(s, t)) ==> MP.IsHeldBy(Mx(s, PcOf(s, t).m), t)
    ensures CancelHeld(PcOf(s, t), t).Some? ==>
      Breached(s, CancelHeld(PcOf(s, t), t).value) || MP.IsHeldBy(Mx(s, CancelLock(CancelHeld(PcOf(s, t), t).value)), t)
  {
    ReachableHolds(s);
    assert PrimOk(s, MutexQ(m)) && ThreadOk(s, t);
  }

  lemma LeavingRefines(s: State, t: Tid, a: Action, m: Mid)
    requires Reachable(s) && Enabled(s, t, a) && Waits(s.net, t, MutexQ(m))
    requires (a.Finish? || a.GiveUp?) && !Mx(Apply(s, t, a), m).tainted && !Mx(Apply(s, t, a), m).breached
    ensures LockStepOf(Mx(s, m).holder, t, Mx(Apply(s, t, a), m).holder)
  {
    MutexFacts(s, t, m);
    MutexSectionRefines(s.net, m, Mx(s, m), t);
  }

  /** A hook breaches a mutex or leaves it alone. */
  lemma HookRefines(s: State, t: Tid, m: Mid)
    requires Enabled(s, t, Advance) && PcOf(s, t).CHook? && !Mx(Apply(s, t, Advance), m).breached
    ensures Mx(Apply(s, t, Advance), m) == Mx(s, m)
  {
    HookOrNothing(s, t, PcOf(s, t).p, m);
  }

  lemma HookOrNothing(s: State, t: Tid, p: Tid, m: Mid)
    ensures Mx(DoHook(s, t, p), m) == Mx(s, m) || Mx(DoHook(s, t, p), m).breached
  {
  }

  lemma CallRefines(s: State, t: Tid, a: Action, m: Mid)
    requires Reachable(s) && !Mx(s, m).tainted && !Mx(s, m).breached
    requires Enabled(s, t, a) && (a.Lock? || a.TryLock? || a.Transfer?) && a.m == m
    ensures LockStepOf(Mx(s, m).holder, t, Mx(Apply(s, t, a), m).holder)
  {
    MutexFacts(s, t, m);
    MutexSectionRefines(s.net, m, Mx(s, m), t);
  }

  lemma UnlockRefines(s: State, t: Tid, m: Mid)
    requires Reachable(s) && Enabled(s, t, Unlock(m)) && !Mx(s, m).tainted && !Mx(s, m).breached
    ensures LockStepOf(Mx(s, m).holder, t, Mx(Apply(s, t, Unlock(m)), m).holder)
  {
    UnlocksWhatItHolds(s, t, m);
    UnlockSectionRefines(s, t, m);
  }

  lemma UnlockSectionRefines(s: State, t: Tid, m: Mid)
    requires NetInv(s.net) && MP.Inv(s.net, m, Mx(s, m)) && !Mx(s, m).tainted && !Mx(s, m).breached
    requires !Waits(s.net, t, MutexQ(m)) && (Mx(s, m).v.kind == M.Normal ==> MP.IsHeldBy(Mx(s, m), t))
    ensures LockStepOf(Mx(s, m).holder, t, Mx(DoUnlock(s, t, m), m).holder)
  {
    MutexSectionRefines(s.net, m, Mx(s, m), t);
  }

  /** A thread that unlocks a normal mutex holds it: in its own code by the caller's duty, inside the library
      because of where it is. */
  lemma UnlocksWhatItHolds(s: State, t: Tid, m: Mid)
    requires Reachable(s) && Enabled(s, t, Unlock(m)) && !Mx(s, m).breached
    ensures Mx(s, m).v.kind == M.Normal ==> MP.IsHeldBy(Mx(s, m), t)
    ensures NetInv(s.net) && MP.Inv(s.net, m, Mx(s, m)) && !Waits(s.net, t, MutexQ(m))
  {
    MutexFacts(s, t, m);
    if !PcOf(s, t).Run? {
      PcReleases(PcOf(s, t), t, m);
    }
  }

  lemma PcReleases(pc: Pc, t: Tid, m: Mid)
    requires Releases(pc, t) == Some(m)
    ensures (MutexHeld(pc) && pc.m == m) || (CancelHeld(pc, t).Some? && m == CancelLock(CancelHeld(pc, t).value))
  {
  }

  /** No two threads hold the mutex or have been handed it; a free mutex has no waiters; the record agrees.  A
      mutex of the program is never breached. */
  lemma MutexExclusive(s: State, m: Mid, t: Tid, u: Tid)
    requires Reachable(s) && t != u && (m.User? || !Mx(s, m).breached)
    ensures var x := Mx(s, m);
      var has := (v: Tid) => MP.IsHeldBy(x, v) || Dequeued(s.net, v, MutexQ(m));
      && !(has(t) && has(u))
      && (has(t) ==> x.v.held && (x.v.kind != M.Normal ==> x.v.owner == Some(t)))
      && (!x.v.held ==> Qu(s.net, MutexQ(m)) == [] && (x.v.kind != M.Normal ==> x.v.owner == None))
      && (x.v.kind == M.Recursive && !x.tainted ==>
            (Dequeued(s.net, t, MutexQ(m)) ==> x.v.locks == 0) && (MP.IsHeldBy(x, t) ==> x.v.locks == x.holder.depth > 0))
  {
    ReachableHolds(s);
    assert MP.Inv(s.net, m, Mx(s, m)) by { assert PrimOk(s, MutexQ(m)); }
  }

  /** The assertion a transfer opens with holds exactly for the holder of a mutex that is not normal: on a normal
      one it fails for everybody, its holder included. */
  lemma TransferAssertionIff(s: State, m: Mid, t: Tid)
    requires Reachable(s)
    ensures Mx(s, m).v.owner == Some(t) <==>
      Mx(s, m).v.kind != M.Normal && MP.OwnerOf(Mx(s, m).holder) == Some(t)
  {
    ReachableHolds(s);
    assert MP.Inv(s.net, m, Mx(s, m)) by { assert PrimOk(s, MutexQ(m)); }
  }

  // ---------------------------------------------------------------- when a mutex is tainted

  /** A thread whose timed lock gave up drains the grant it was sent. */
  predicate GivesUpMutex(s: State, e: Event, m: Mid) {
    e.a.GiveUp? && Waits(s.net, e.t, MutexQ(m))
  }

  lemma TaintSections(g: Net, m: Mid, x: MP.Rec, t: Tid)
    ensures forall timed, valid :: MP.Lock(g, m, x, t, timed, valid).1.tainted == x.tainted
    ensures MP.TryLock(x, t).0.tainted == x.tainted && MP.Unlock(g, m, x, t).1.tainted == x.tainted
    ensures forall to :: MP.Transfer(x, t, to).0.tainted == x.tainted
    ensures MP.Epilogue(g, x, t).1.tainted == x.tainted
    ensures Th(g, t).port > 0 ==> MP.GiveUp(g, x, t).1.tainted
  {
  }

  lemma TaintStep(s: State, t: Tid, a: Action, m: Mid)
    requires Enabled(s, t, a)
    ensures Mx(Apply(s, t, a), m).tainted <==> Mx(s, m).tainted || GivesUpMutex(s, Event(t, a), m)
  {
    if ObjectOf(s, t, a) != Some(MutexQ(m)) {
      OthersUntouched(s, t, a);
    } else if a.Finish? || a.GiveUp? {
      LeavingTaints(s, t, a, m);
    } else if a.Advance? {
      HookTaints(s, t, PcOf(s, t).p, m);
    } else {
      CallTaints(s, t, a, m);
    }
  }

  lemma CallTaints(s: State, t: Tid, a: Action, m: Mid)
    requires Enabled(s, t, a) && (a.Lock? || a.TryLock? || a.Unlock? || a.Transfer?) && a.m == m
    ensures Mx(Apply(s, t, a), m).tainted == Mx(s, m).tainted
  {
    TaintSections(s.net, m, Mx(s, m), t);
  }

  lemma LeavingTaints(s: State, t: Tid, a: Action, m: Mid)
    requires (a.Finish? && CanFinish(s, t)) || (a.GiveUp? && CanGiveUp(s, t))
    requires Waits(s.net, t, MutexQ(m))
    ensures var s' := if a.Finish? then DoFinish(s, t) else DoGiveUp(s, t);
      Mx(s', m).tainted <==> Mx(s, m).tainted || a.GiveUp?
  {
    TaintSections(s.net, m, Mx(s, m), t);
  }

  lemma HookTaints(s: State, t: Tid, p: Tid, m: Mid)
    ensures Mx(DoHook(s, t, p), m).tainted == Mx(s, m).tainted
  {
  }

  /** In a run, a mutex is tainted exactly if some timed lock gave up a grant of it before. */
  lemma TaintedIff(states: seq<State>, events: seq<Event>, j: nat, m: Mid)
    requires IsRun(states, events) && j < |states|
    ensures Mx(states[j], m).tainted <==> exists i :: 0 <= i < j && GivesUpMutex(states[i], events[i], m)
  {
    var p := (s: State) => Mx(s, m).tainted;
    forall s, t, a | Enabled(s, t, a) ensures p(Apply(s, t, a)) <==> p(s) || GivesUpMutex(s, Event(t, a), m) {
      TaintStep(s, t, a, m);
    }
    HistoryIff(p, (s, e) => GivesUpMutex(s, e, m), states, events, j);
  }

  /** A mutex that is never locked with a deadline is never tainted. */
  lemma UntimedNeverTainted(states: seq<State>, events: seq<Event>, j: nat, m: Mid)
    requires IsRun(states, events) && j < |states|
    requires forall i :: 0 <= i < j && events[i].a.Lock? && events[i].a.m == m ==> !events[i].a.timed
    ensures !Mx(states[j], m).tainted
  {
    TaintedIff(states, events, j, m);
    forall i | 0 <= i < j ensures !GivesUpMutex(states[i], events[i], m) {
      if GivesUpMutex(states[i], events[i], m) {
        assert Step(states[i], events[i], states[i + 1]);
        RunKeeps(states, events, i);
        TimedWaitHasCause(states, events, i, events[i].t, m);
      }
    }
  }

  predicate LocksTimed(e: Event, t: Tid, m: Mid) {
    e.t == t && e.a.Lock? && e.a.m == m && e.a.timed
  }

  lemma TimedWaitHasCause(states: seq<State>, events: seq<Event>, j: nat, t: Tid, m: Mid)
    requires IsRun(states, events) && j < |states|
    requires Waits(states[j].net, t, MutexQ(m)) && Th(states[j].net, t).wait.timed
    ensures exists i :: 0 <= i < j && LocksTimed(events[i], t, m)
  {
    var p := (s: State) => Waits(s.net, t, MutexQ(m)) && Th(s.net, t).wait.timed;
    forall s, u, a | Enabled(s, u, a) && !p(s) && p(Apply(s, u, a)) ensures LocksTimed(Event(u, a), t, m) {
      WaitFrame(s, u, a, t);
    }
    Caused(p, (s, e) => LocksTimed(e, t, m), states, events, j);
  }
}
