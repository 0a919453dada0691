/** What the invariant means for callers of condition waits and of pthread_cancel. */
module CancelResults {
  import opened Base
  import opened Blocking
  import opened System
  import opened Theorems
  import opened Frames
  import opened SystemProof
  import C = Condition
  import MP = MutexProtocol

  /** Deferred cancellation is never lost on a condition wait: an enabled thread with a pending request is on
      no condition queue, unless its canceller still holds its cancel_lock and is about to run the hook. */
  lemma CancelNotLost(s: State, t: Tid, c: nat)
    requires Reachable(s) && C.Acts(Cn(s, t)) && t in Qu(s.net, CondQ(c))
    ensures var h := Mx(s, CancelLock(t)).holder;
      h.Held? && PcOf(s, h.t) == CHook(t, c)
  {
    ReachableHolds(s);
    assert ThreadOk(s, t);
    assert Waits(s.net, t, CondQ(c));
  }

  /** Running the hook takes the thread off whatever queue it is on and owes it a wakeup. */
  lemma HookTakesWaiterOff(s: State, w: Tid, t: Tid, c: nat)
    requires Reachable(s) && PcOf(s, w) == CHook(t, c) && Ready(s, w) && Queued(s.net, t)
    ensures var s' := DoHook(s, w, t);
      && (forall q :: t !in Qu(s'.net, q)) && Th(s'.net, w).sends == [t] && Waits(s'.net, t, Th(s.net, t).wait.q)
  {
    ReachableHolds(s);
    TakeOffEffect(s.net, w, t, Th(s.net, t).wait.q);
  }

  /** The hook tests whether the thread is on any queue, meaning to ask whether it is on its condition's.  The
      two agree exactly if the thread is not queued on its own cancel_lock. */
  lemma HookTestAgreesIff(s: State, w: Tid, t: Tid, c: nat)
    requires Reachable(s) && PcOf(s, w) == CHook(t, c)
    ensures (Queued(s.net, t) <==> t in Qu(s.net, CondQ(c))) <==> t !in Qu(s.net, MutexQ(CancelLock(t)))
  {
    ReachableHolds(s);
    assert t in Qu(s.net, CondQ(c)) ==> Waits(s.net, t, CondQ(c));
    assert t in Qu(s.net, MutexQ(CancelLock(t))) ==> Waits(s.net, t, MutexQ(CancelLock(t)));
    if Queued(s.net, t) {
      HookedOn(s, w);
    }
  }

  /** The hook argument is set only while the frame it points into is live, it names the condition of that
      frame, and whoever is about to follow it finds it so. */
  lemma HookArgumentIsLive(s: State, t: Tid, w: Tid)
    requires Reachable(s)
    ensures Cn(s, t).hook.Some? ==> NamesMutex(PcOf(s, t)) && HookOf(PcOf(s, t)) == Cn(s, t).hook && !Cn(s, t).async
    ensures forall c: nat :: t in Qu(s.net, CondQ(c)) ==> Cn(s, t).hook == Some(c)
    ensures PcOf(s, w).CHook? && PcOf(s, w).p == t ==> Cn(s, t).hook == Some(PcOf(s, w).hookCond)
  {
    ReachableHolds(s);
    assert ThreadOk(s, t);
    assert ThreadOk(s, w);
    assert forall c: nat :: t in Qu(s.net, CondQ(c)) ==> Waits(s.net, t, CondQ(c));
  }

  /** A cancel_lock no hook has breached is held by one thread, which is in a section that needs it, and is
      never orphaned. */
  lemma CancelLockIsSound(s: State, p: Tid, t: Tid)
    requires Reachable(s) && !Breached(s, p)
    ensures MP.IsHeldBy(Mx(s, CancelLock(p)), t) <==> CancelHeld(PcOf(s, t), t) == Some(p)
    ensures !Mx(s, CancelLock(p)).holder.Orphan?
  {
    ReachableHolds(s);
    assert ThreadOk(s, t);
    assert ThreadOk(s, p);
    assert PrimOk(s, MutexQ(CancelLock(p)));
  }

  /** From before the mutex is released until its wakeup or timeout, the waiter waits on the condition; it has
      the mutex up to its release. */
  lemma WaitsBeforeRelease(s: State, t: Tid, c: nat)
    requires Reachable(s) && OnCond(PcOf(s, t)) && PcOf(s, t).c == c
    ensures Waits(s.net, t, CondQ(c))
    ensures PcOf(s, t).WArmed? || PcOf(s, t).WRelease? ==>
      MP.IsHeldBy(Mx(s, PcOf(s, t).m), t) && AtStage(s.net, t, Stage.Blocking)
    ensures MP.IsHeldBy(Mx(s, PcOf(s, t).m), t) || PcOf(s, t).WBlock?
  {
    ReachableHolds(s);
    assert ThreadOk(s, t);
  }

  /** The release really releases, unless the caller holds a recursive mutex more than once. */
  lemma ReleaseReleases(s: State, t: Tid)
    requires Reachable(s) && PcOf(s, t).WRelease? && Enabled(s, t, Unlock(PcOf(s, t).m)) && !Mx(s, PcOf(s, t).m).tainted
    ensures var m := PcOf(s, t).m; var s' := DoUnlock(s, t, m);
      && MP.IsHeldBy(Mx(s, m), t) && (MP.Owns(Mx(s', m), t) <==> Mx(s, m).holder.depth > 1) && PcOf(s', t).WBlock?
  {
    ReachableHolds(s);
    var m := PcOf(s, t).m;
    assert ThreadOk(s, t);
    assert MP.Inv(s.net, m, Mx(s, m)) by { assert PrimOk(s, MutexQ(m)); }
    HeldUnlock(s.net, m, Mx(s, m), t);
  }

  lemma HeldUnlock(g: Net, m: Mid, x: MP.Rec, t: Tid)
    requires NetInv(g) && MP.Inv(g, m, x) && !x.tainted && !x.breached && MP.IsHeldBy(x, t) && !Waits(g, t, MutexQ(m))
    ensures MP.Owns(MP.Unlock(g, m, x, t).1, t) <==> x.holder.depth > 1
  {
    if Qu(g, MutexQ(m)) != [] {
      assert Qu(g, MutexQ(m))[0] in Qu(g, MutexQ(m));
    }
  }

  /** However a condition wait ends, woken, timed out, refused for its deadline or cancelled, its thread has
      the mutex when it leaves. */
  lemma ExitHoldsMutex(s: State, t: Tid)
    requires Reachable(s) && PcOf(s, t).WDone?
    ensures MP.Owns(Mx(s, PcOf(s, t).m), t) && Mx(s, PcOf(s, t).m).v.held
    ensures !Mx(s, PcOf(s, t).m).tainted ==> MP.IsHeldBy(Mx(s, PcOf(s, t).m), t)
  {
    ReachableHolds(s);
    assert ThreadOk(s, t);
    assert PrimOk(s, MutexQ(PcOf(s, t).m));
  }

  /** A signal with anybody waiting takes exactly the first waiter, and owes it a wakeup. */
  lemma SignalTakesOne(s: State, w: Tid, c: nat, t: Tid)
    requires Reachable(s) && Enabled(s, w, Signal(c)) && t in Qu(s.net, CondQ(c))
    ensures var s' := Apply(s, w, Signal(c)); var q := Qu(s.net, CondQ(c));
      && Qu(s'.net, CondQ(c)) == q[1..] && Th(s'.net, w).sends == [q[0]]
      && (t in Qu(s'.net, CondQ(c)) <==> t != q[0])
  {
    ReachableHolds(s);
    assert Distinct(Qu(s.net, CondQ(c)));
  }

  /** A broadcast leaves nobody queued; it owes each thread it took off exactly one wakeup, in order, and every
      one of them is still waiting for it. */
  lemma BroadcastTakesAll(s: State, w: Tid, c: nat, t: Tid)
    requires Reachable(s) && Enabled(s, w, Broadcast(c))
    ensures var q := Qu(s.net, CondQ(c)); var g := TakeAll(s.net, w, CondQ(c));
      && Apply(s, w, Broadcast(c)) == s.(net := g)
      && Qu(g, CondQ(c)) == [] && Th(g, w).sends == q && Distinct(q)
      && (t in q ==> Owed(g, t) && Waits(g, t, CondQ(c)) && Th(g, t).port == 0 && forall p :: t !in Qu(g, p))
      && (t !in q ==> Th(g, t).place == Th(s.net, t).place)
  {
    ReachableHolds(s);
    TakeAllEffect(s.net, w, CondQ(c), t);
  }

  lemma TakeAllEffect(g: Net, w: Tid, q: Qid, t: Tid)
    requires NetInv(g)
    ensures var g' := TakeAll(g, w, q);
      && Qu(g', q) == [] && Th(g', w).sends == Th(g, w).sends + Qu(g, q) && Distinct(Qu(g, q))
      && (t in Qu(g, q) ==> Owed(g', t) && Waits(g', t, q) && Th(g', t).port == 0 && forall p :: t !in Qu(g', p))
      && (t !in Qu(g, q) ==> Th(g', t).place == Th(g, t).place)
  {
    TakeAllKeeps(g, w, q);
    var g' := TakeAll(g, w, q);
    assert t in Qu(g, q) ==> Waits(g, t, q);
    assert forall p :: t in Qu(g', p) ==> Waits(g', t, p);
  }

  /** The four ways off a condition queue. */
  predicate Removes(s: State, e: Event, t: Tid, c: nat) {
    || (e.a == Signal(c) && Qu(s.net, CondQ(c)) != [] && t == Qu(s.net, CondQ(c))[0])
    || e.a == Broadcast(c)
    || (e.a == Advance && PcOf(s, e.t) == CHook(t, c))
    || (e.a == Action.Recheck && e.t == t && AtStage(s.net, t, TimedOut))
  }

  /** A waiter leaves a condition queue by exactly one of a signal, a broadcast, its canceller's hook, or its
      own timeout. */
  lemma RemovalCause(s: State, w: Tid, a: Action, t: Tid, c: nat)
    requires Reachable(s) && Enabled(s, w, a)
    requires t in Qu(s.net, CondQ(c)) && t !in Qu(Apply(s, w, a).net, CondQ(c))
    ensures Removes(s, Event(w, a), t, c)
  {
    ReachableHolds(s);
    if a.Recheck? {
      RecheckRemoval(s, w, t, c);
    } else if a.Advance? {
      AdvanceRemoval(s, w, t, c);
    } else if !a.Signal? && !a.Broadcast? {
      OtherRemoval(s, w, a, c);
    }
  }

  lemma RecheckRemoval(s: State, w: Tid, t: Tid, c: nat)
    requires Inv(s) && Enabled(s, w, Action.Recheck)
    requires t in Qu(s.net, CondQ(c)) && t !in Qu(Blocking.Recheck(s.net, w), CondQ(c))
    ensures w == t && AtStage(s.net, t, TimedOut)
  {
    RecheckKeeps(s.net, w);
  }

  lemma OtherAdvances(s: State, w: Tid, t: Tid, c: nat)
    requires Enabled(s, w, Advance) && !PcOf(s, w).CHook? && t in Qu(s.net, CondQ(c))
    ensures t in Qu(DoAdvance(s, w).net, CondQ(c))
  {
  }

  lemma AdvanceRemoval(s: State, w: Tid, t: Tid, c: nat)
    requires Inv(s) && Enabled(s, w, Advance)
    requires t in Qu(s.net, CondQ(c)) && t !in Qu(DoAdvance(s, w).net, CondQ(c))
    ensures PcOf(s, w) == CHook(t, c)
  {
    if PcOf(s, w).CHook? { HookRemoval(s, w, t, c); } else { OtherAdvances(s, w, t, c); }
  }

  lemma HookRemoval(s: State, w: Tid, t: Tid, c: nat)
    requires Inv(s) && PcOf(s, w).CHook?
    requires t in Qu(s.net, CondQ(c)) && t !in Qu(DoHook(s, w, PcOf(s, w).p).net, CondQ(c))
    ensures PcOf(s, w) == CHook(t, c)
  {
    var p := PcOf(s, w).p;
    if Queued(s.net, p) { HookedOn(s, w); }
  }

  lemma OtherRemoval(s: State, w: Tid, a: Action, c: nat)
    requires Enabled(s, w, a) && !a.Signal? && !a.Broadcast? && !a.Advance? && !a.Recheck?
    ensures Qu(Apply(s, w, a).net, CondQ(c)) == Qu(s.net, CondQ(c))
  {
    if a.Finish? || a.GiveUp? {
      EndingMovesNoQueue(s, w, CondQ(c));
    } else if a.Read? || a.Write? || a.RwUnlock? {
      RwRemoval(s, w, a, c);
    } else if a.Lock? || a.Unlock? || a.Down? || a.Post? || a.BarrierWait? {
      QueueingRemoval(s, w, a, c);
    }
  }

  lemma RwRemoval(s: State, w: Tid, a: Action, c: nat)
    requires Enabled(s, w, a) && (a.Read? || a.Write? || a.RwUnlock?)
    ensures Qu(Apply(s, w, a).net, CondQ(c)) == Qu(s.net, CondQ(c))
  {
  }

  lemma QueueingRemoval(s: State, w: Tid, a: Action, c: nat)
    requires Enabled(s, w, a) && (a.Lock? || a.Unlock? || a.Down? || a.Post? || a.BarrierWait?)
    ensures Qu(Apply(s, w, a).net, CondQ(c)) == Qu(s.net, CondQ(c))
  {
  }

  // ---------------------------------------------------------------- waits in a run

  /** The section that hooks and queues `t` on condition `c`. */
  predicate Arms(s: State, e: Event, t: Tid, c: nat) {
    e.t == t && e.a == Advance && PcOf(s, t).WHook? && PcOf(s, t).c == c && !C.Acts(Cn(s, t))
  }

  predicate WaitsOnCond(s: State, t: Tid, c: nat) {
    OnCond(PcOf(s, t)) && PcOf(s, t).c == c
  }

  lemma LockingOnCond(s: State, t: Tid, a: Action, u: Tid, c: nat)
    requires Enabled(s, t, a) && (a.Lock? || a.Unlock? || a.Recheck?) && WaitsOnCond(Apply(s, t, a), u, c)
    ensures WaitsOnCond(s, u, c)
  {
  }

  lemma EndingOnCond(s: State, t: Tid, a: Action, u: Tid, c: nat)
    requires Enabled(s, t, a) && (a.Finish? || a.GiveUp?) && WaitsOnCond(Apply(s, t, a), u, c)
    ensures WaitsOnCond(s, u, c)
  {
  }

  lemma StartingOnCond(s: State, t: Tid, a: Action, u: Tid, c: nat)
    requires Enabled(s, t, a) && (a.CondWait? || a.CancelThread? || a.Set?) && WaitsOnCond(Apply(s, t, a), u, c)
    ensures WaitsOnCond(s, u, c)
  {
    var pc := PcOf(Apply(s, t, a), t);
    assert !OnCond(pc);
    assert u != t ==> PcOf(Apply(s, t, a), u) == PcOf(s, u);
  }

  lemma AdvanceOnCond(s: State, t: Tid, u: Tid, c: nat)
    requires CanAdvance(s, t) && WaitsOnCond(DoAdvance(s, t), u, c)
    ensures WaitsOnCond(s, u, c) || Arms(s, Event(t, Advance), u, c)
  {
  }

  lemma ElsePcsSame(s: State, t: Tid, a: Action)
    requires Enabled(s, t, a)
    requires a.Send? || a.Receive? || a.TimeOut? || a.TryLock? || a.Transfer? || a.Signal? || a.Broadcast?
    ensures Apply(s, t, a).pcs == s.pcs
  {
  }

  lemma PrimPcsSame(s: State, t: Tid, a: Action)
    requires Enabled(s, t, a)
    requires a.Read? || a.Write? || a.TryRead? || a.TryWrite? || a.RwUnlock? || a.Down? || a.TryDown? || a.Post? || a.BarrierWait?
    ensures Apply(s, t, a).pcs == s.pcs
  {
  }

  /** Only its own arming puts a thread on a condition. */
  lemma OnCondByArming(s: State, t: Tid, a: Action, u: Tid, c: nat)
    requires Enabled(s, t, a) && WaitsOnCond(Apply(s, t, a), u, c)
    ensures WaitsOnCond(s, u, c) || Arms(s, Event(t, a), u, c)
  {
    if a.Lock? || a.Unlock? || a.Recheck? {
      LockingOnCond(s, t, a, u, c);
    } else if a.Finish? || a.GiveUp? {
      EndingOnCond(s, t, a, u, c);
    } else if a.CondWait? || a.CancelThread? || a.Set? {
      StartingOnCond(s, t, a, u, c);
    } else if a.Advance? {
      AdvanceOnCond(s, t, u, c);
    } else if a.Send? || a.Receive? || a.TimeOut? || a.TryLock? || a.Transfer? || a.Signal? || a.Broadcast? {
      ElsePcsSame(s, t, a);
    } else {
      PrimPcsSame(s, t, a);
    }
  }

  /** A thread that waits on a condition armed that wait before, and has been on it since. */
  lemma {:induction false} ArmedBefore(states: seq<State>, events: seq<Event>, i: nat, t: Tid, c: nat) returns (k: nat)
    requires IsRun(states, events) && i < |states| && WaitsOnCond(states[i], t, c)
    ensures k < i && Arms(states[k], events[k], t, c) && forall n :: k < n <= i ==> WaitsOnCond(states[n], t, c)
  {
    assert i > 0;
    StepAt(states, events, i - 1);
    OnCondByArming(states[i - 1], events[i - 1].t, events[i - 1].a, t, c);
    if WaitsOnCond(states[i - 1], t, c) {
      k := ArmedBefore(states, events, i - 1, t, c);
    } else {
      k := i - 1;
    }
  }

  lemma ArmingQueues(s: State, t: Tid, c: nat)
    requires Enabled(s, t, Advance) && Arms(s, Event(t, Advance), t, c)
    ensures t in Qu(DoAdvance(s, t).net, CondQ(c))
  {
  }

  lemma {:induction false} QueuedUntilRemoved(states: seq<State>, events: seq<Event>, k: nat, j: nat, t: Tid, c: nat)
    requires IsRun(states, events) && k <= j < |states| && t in Qu(states[k].net, CondQ(c))
    ensures t in Qu(states[j].net, CondQ(c)) || exists n :: k <= n < j && Removes(states[n], events[n], t, c)
    decreases j
  {
    if k < j {
      QueuedUntilRemoved(states, events, k, j - 1, t, c);
      if t in Qu(states[j - 1].net, CondQ(c)) && t !in Qu(states[j].net, CondQ(c)) {
        RemovedByStep(states, events, j - 1, t, c);
      }
    }
  }

  lemma RemovedByStep(states: seq<State>, events: seq<Event>, n: nat, t: Tid, c: nat)
    requires IsRun(states, events) && n < |events|
    requires t in Qu(states[n].net, CondQ(c)) && t !in Qu(states[n + 1].net, CondQ(c))
    ensures Removes(states[n], events[n], t, c)
  {
    RunPrefix(states, events, n);
    assert Step(states[n], events[n], states[n + 1]);
    RemovalCause(states[n], events[n].t, events[n].a, t, c);
  }

  /** A condition wait releases and waits atomically: in any run, whoever signals or broadcasts after the waiter's
      release finds it still queued, or it has been taken off since it armed this wait, by a signal, a broadcast,
      its canceller's hook or its own timeout. */
  lemma SignalFindsWaiter(states: seq<State>, events: seq<Event>, i: nat, j: nat, t: Tid, c: nat, m: Mid)
    requires IsRun(states, events) && i < j < |events|
    requires events[i] == Event(t, Unlock(m)) && PcOf(states[i], t).WRelease? && PcOf(states[i], t).c == c && PcOf(states[i], t).m == m
    requires events[j].a == Signal(c) || events[j].a == Broadcast(c)
    ensures exists k ::
      && 0 <= k < i && Arms(states[k], events[k], t, c) && (forall n :: k < n <= i ==> WaitsOnCond(states[n], t, c))
      && (t in Qu(states[j].net, CondQ(c)) || exists n :: k < n < j && Removes(states[n], events[n], t, c))
  {
    var k := ArmedBefore(states, events, i, t, c);
    assert Step(states[k], events[k], states[k + 1]);
    ArmingQueues(states[k], t, c);
    QueuedUntilRemoved(states, events, k + 1, j, t, c);
  }

  /** The condition queues of the transition system are those the sections compute. */
  lemma QueuesAgree(s: State, w: Tid, t: Tid, c: nat)
    ensures InUser(s, w) && Enabled(s, w, Signal(c)) ==>
      Qu(Apply(s, w, Signal(c)).net, CondQ(c)) == C.SignalSection(Qu(s.net, CondQ(c))).0
    ensures Waits(s.net, t, CondQ(c)) ==>
      Qu(DoHook(s, w, t).net, CondQ(c)) == C.HookSection(Qu(s.net, CondQ(c)), t).0
  {
  }
}
