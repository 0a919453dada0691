/** What condition waits and pthread_cancel return, in every run: the error, whether the wait is cancelled, and what it
    restores are traced to the events of that wait. */
module WaitResults {
  import opened Blocking
  import opened System
  import opened Theorems
  import C = Condition

  // ---------------------------------------------------------------- steps of other threads

  /** Nobody else moves `t` on in its program or changes what it waits for; of its cancellation fields others can only
      set `pending`. */
  predicate LeftAlone(s: State, s': State, t: Tid) {
    && PcOf(s', t) == PcOf(s, t) && Th(s'.net, t).wait == Th(s.net, t).wait
    && Cn(s', t) == Cn(s, t).(pending := Cn(s', t).pending) && (Cn(s, t).pending ==> Cn(s', t).pending)
  }

  lemma NetLeavesAlone(s: State, w: Tid, a: Action, t: Tid)
    requires Enabled(s, w, a) && w != t && (a.Send? || a.Receive? || a.TimeOut? || a.Recheck?)
    ensures LeftAlone(s, Apply(s, w, a), t)
  {
  }

  lemma FinishLeavesAlone(s: State, w: Tid, t: Tid)
    requires CanFinish(s, w) && w != t
    ensures LeftAlone(s, DoFinish(s, w), t)
  {
  }

  lemma GiveUpLeavesAlone(s: State, w: Tid, t: Tid)
    requires CanGiveUp(s, w) && w != t
    ensures LeftAlone(s, DoGiveUp(s, w), t)
  {
  }

  lemma SignalLeavesAlone(s: State, w: Tid, c: nat, t: Tid)
    requires Enabled(s, w, Signal(c)) && w != t
    ensures LeftAlone(s, Apply(s, w, Signal(c)), t)
  {
    if Qu(s.net, CondQ(c)) != [] {
      var g := TakeOff(s.net, w, Qu(s.net, CondQ(c))[0], CondQ(c));
      assert Apply(s, w, Signal(c)) == s.(net := g);
      TakeOffLeavesAlone(s.net, w, Qu(s.net, CondQ(c))[0], CondQ(c), t);
    }
  }

  lemma TakeOffLeavesAlone(g: Net, w: Tid, u: Tid, q: Qid, t: Tid)
    ensures Th(TakeOff(g, w, u, q), t).wait == Th(g, t).wait
  {
  }

  lemma BroadcastLeavesAlone(s: State, w: Tid, c: nat, t: Tid)
    requires Enabled(s, w, Broadcast(c)) && w != t
    ensures LeftAlone(s, Apply(s, w, Broadcast(c)), t)
  {
  }

  lemma MutexLeavesAlone(s: State, w: Tid, a: Action, t: Tid)
    requires Enabled(s, w, a) && w != t && (a.Lock? || a.TryLock? || a.Unlock? || a.Transfer?)
    ensures LeftAlone(s, Apply(s, w, a), t)
  {
  }

  lemma RwEnterLeavesAlone(s: State, w: Tid, a: Action, t: Tid)
    requires Enabled(s, w, a) && w != t && (a.Read? || a.Write?)
    ensures LeftAlone(s, Apply(s, w, a), t)
  {
  }

  lemma RwLeavesAlone(s: State, w: Tid, a: Action, t: Tid)
    requires Enabled(s, w, a) && w != t && (a.Read? || a.Write? || a.TryRead? || a.TryWrite? || a.RwUnlock?)
    ensures LeftAlone(s, Apply(s, w, a), t)
  {
    if a.Read? || a.Write? { RwEnterLeavesAlone(s, w, a, t); }
  }

  lemma CountingLeavesAlone(s: State, w: Tid, a: Action, t: Tid)
    requires Enabled(s, w, a) && w != t && (a.Down? || a.TryDown? || a.Post? || a.BarrierWait?)
    ensures LeftAlone(s, Apply(s, w, a), t)
  {
  }

  lemma AdvanceLeavesAlone(s: State, w: Tid, t: Tid)
    requires CanAdvance(s, w) && w != t
    ensures LeftAlone(s, DoAdvance(s, w), t)
  {
    if PcOf(s, w).CHook? {
      HookLeavesAlone(s, w, PcOf(s, w).p, t);
    } else if PcOf(s, w).CGot? {
      RequestLeavesAlone(s, w, t);
    } else if PcOf(s, w).WHook? {
      ArmLeavesAlone(s, w, t);
    } else if PcOf(s, w).WClear? || PcOf(s, w).SGot? {
      ClearLeavesAlone(s, w, t);
    }
  }

  lemma ClearLeavesAlone(s: State, w: Tid, t: Tid)
    requires CanAdvance(s, w) && w != t && (PcOf(s, w).WClear? || PcOf(s, w).SGot?)
    ensures LeftAlone(s, DoAdvance(s, w), t)
  {
  }

  lemma RequestLeavesAlone(s: State, w: Tid, t: Tid)
    requires CanAdvance(s, w) && w != t && PcOf(s, w).CGot?
    ensures LeftAlone(s, DoAdvance(s, w), t)
  {
  }

  lemma ArmLeavesAlone(s: State, w: Tid, t: Tid)
    requires CanAdvance(s, w) && w != t && PcOf(s, w).WHook?
    ensures LeftAlone(s, DoAdvance(s, w), t)
  {
    if DoAdvance(s, w).net != s.net {
      EnqueueLeavesAlone(s.net, w, CondQ(PcOf(s, w).c), PcOf(s, w).timed, t);
      assert DoAdvance(s, w).net == Enqueue(s.net, w, CondQ(PcOf(s, w).c), PcOf(s, w).timed);
    }
  }

  lemma EnqueueLeavesAlone(g: Net, w: Tid, q: Qid, timed: bool, t: Tid)
    requires w != t
    ensures Th(Enqueue(g, w, q, timed), t) == Th(g, t)
  {
  }

  lemma HookLeavesAlone(s: State, w: Tid, p: Tid, t: Tid)
    requires w != t
    ensures LeftAlone(s, DoHook(s, w, p), t)
  {
  }

  lemma OthersLeaveAlone(s: State, w: Tid, a: Action, t: Tid)
    requires Enabled(s, w, a) && w != t
    ensures LeftAlone(s, Apply(s, w, a), t)
  {
    if a.Lock? || a.TryLock? || a.Unlock? || a.Transfer? {
      MutexLeavesAlone(s, w, a, t);
    } else if a.Read? || a.Write? || a.TryRead? || a.TryWrite? || a.RwUnlock? {
      RwLeavesAlone(s, w, a, t);
    } else if a.Down? || a.TryDown? || a.Post? || a.BarrierWait? {
      CountingLeavesAlone(s, w, a, t);
    } else if a.Advance? {
      AdvanceLeavesAlone(s, w, t);
    } else if a.Finish? {
      FinishLeavesAlone(s, w, t);
    } else if a.GiveUp? {
      GiveUpLeavesAlone(s, w, t);
    } else if a.Signal? {
      SignalLeavesAlone(s, w, a.c, t);
    } else if a.Broadcast? {
      BroadcastLeavesAlone(s, w, a.c, t);
    } else if a.Send? || a.Receive? || a.TimeOut? || a.Recheck? {
      NetLeavesAlone(s, w, a, t);
    }
  }

  // ---------------------------------------------------------------- the steps of a wait

  /** A section of the wait of `t`, at its entry or its end, finds an enabled request pending. */
  predicate FindsRequest(s: State, e: Event, t: Tid) {
    e == Event(t, Advance) && (PcOf(s, t).WHook? || PcOf(s, t).WClear?) && Cn(s, t).enabled && Cn(s, t).pending
  }

  /** How far the wait of `t` that `call` began has come, if it has timed out exactly if `late` and has found a request
      exactly if `acted`; `before` are the cancellation fields at the call. */
  predicate Tells(s: State, t: Tid, call: Action, late: bool, acted: bool, before: C.Cancel<nat>)
    requires call.CondWait?
  {
    var pc, w := PcOf(s, t), Th(s.net, t).wait;
    && NamesMutex(pc) && pc.m == call.m && (late ==> call.timed) && Cn(s, t).enabled == before.enabled
    && match pc
       case WEnter(c, _, timed) => c == call.c && timed == call.timed && !late && !acted && Cn(s, t).async == before.async
       case WHook(c, _, timed) => c == call.c && timed == call.timed && !late && !acted && Cn(s, t).async == before.async
       case WAbort(_) => !late && acted && Cn(s, t).async == before.async
       case WArmed(c, _, prior) => c == call.c && prior == before.async && w.In? && w.timed == call.timed && !late && !acted
       case WRelease(c, _, prior) => c == call.c && prior == before.async && w.In? && w.timed == call.timed && !late && !acted
       case WBlock(c, _, prior) =>
         && c == call.c && prior == before.async && w.In? && w.timed == call.timed && !acted
         && (late <==> w.stage == TimedOut || w.stage == Draining)
       case WWoken(c, _, err, prior) => c == call.c && prior == before.async && (late <==> err) && !acted
       case WClear(c, _, err, prior) => c == call.c && prior == before.async && (late <==> err) && !acted
       case WDisarmed(_, err, cancelled) => (late <==> err) && (acted <==> cancelled) && Cn(s, t).async == before.async
       case WRelock(_, err, cancelled) => (late <==> err) && (acted <==> cancelled) && Cn(s, t).async == before.async
       case WDone(_, err, cancelled) => (late <==> err) && (acted <==> cancelled) && Cn(s, t).async == before.async
       case _ => false
  }

  /** A step in the middle of a wait. */
  ghost predicate Goes(s: State, e: Event, s': State, t: Tid, call: Action, late: bool, acted: bool, before: C.Cancel<nat>)
    requires call.CondWait?
  {
    NamesMutex(PcOf(s', t)) ==> Tells(s', t, call, late || e == Event(t, TimeOut), acted || FindsRequest(s, e, t), before)
  }

  lemma LockGoes(s: State, t: Tid, m: Mid, timed: bool, valid: bool, call: Action, late: bool, acted: bool, before: C.Cancel<nat>)
    requires Enabled(s, t, Lock(m, timed, valid)) && call.CondWait? && Tells(s, t, call, late, acted, before)
    ensures Goes(s, Event(t, Lock(m, timed, valid)), DoLock(s, t, m, timed, valid), t, call, late, acted, before)
  {
  }

  lemma UnlockGoes(s: State, t: Tid, m: Mid, call: Action, late: bool, acted: bool, before: C.Cancel<nat>)
    requires Enabled(s, t, Unlock(m)) && call.CondWait? && Tells(s, t, call, late, acted, before) && WaitOk(s, t)
    ensures Goes(s, Event(t, Unlock(m)), DoUnlock(s, t, m), t, call, late, acted, before)
  {
  }

  lemma FinishGoes(s: State, t: Tid, call: Action, late: bool, acted: bool, before: C.Cancel<nat>)
    requires CanFinish(s, t) && call.CondWait? && Tells(s, t, call, late, acted, before) && WaitOk(s, t)
    ensures Goes(s, Event(t, Action.Finish), DoFinish(s, t), t, call, late, acted, before)
  {
  }

  lemma GiveUpGoes(s: State, t: Tid, call: Action, late: bool, acted: bool, before: C.Cancel<nat>)
    requires CanGiveUp(s, t) && call.CondWait? && Tells(s, t, call, late, acted, before) && WaitOk(s, t) && StagesOk(s.net)
    ensures Goes(s, Event(t, Action.GiveUp), DoGiveUp(s, t), t, call, late, acted, before)
  {
  }

  lemma RecheckGoes(s: State, t: Tid, call: Action, late: bool, acted: bool, before: C.Cancel<nat>)
    requires NetInv(s.net) && Enabled(s, t, Action.Recheck)
    requires call.CondWait? && Tells(s, t, call, late, acted, before) && WaitOk(s, t)
    ensures Goes(s, Event(t, Action.Recheck), Apply(s, t, Action.Recheck), t, call, late, acted, before)
  {
    RecheckKeeps(s.net, t);
  }

  lemma BlockingGoes(s: State, t: Tid, a: Action, call: Action, late: bool, acted: bool, before: C.Cancel<nat>)
    requires NetInv(s.net) && Enabled(s, t, a) && (a.Send? || a.Receive? || a.TimeOut? || a.Recheck?)
    requires call.CondWait? && Tells(s, t, call, late, acted, before) && WaitOk(s, t)
    ensures Goes(s, Event(t, a), Apply(s, t, a), t, call, late, acted, before)
  {
    if a.Recheck? { RecheckGoes(s, t, call, late, acted, before); }
  }

  lemma AdvanceGoes(s: State, t: Tid, call: Action, late: bool, acted: bool, before: C.Cancel<nat>)
    requires CanAdvance(s, t) && call.CondWait? && Tells(s, t, call, late, acted, before)
    ensures Goes(s, Event(t, Advance), DoAdvance(s, t), t, call, late, acted, before)
  {
    if PcOf(s, t).WHook? {
      ArmGoes(s, t, call, late, acted, before);
    } else if PcOf(s, t).WClear? {
      DisarmGoes(s, t, call, late, acted, before);
    }
  }

  lemma ArmGoes(s: State, t: Tid, call: Action, late: bool, acted: bool, before: C.Cancel<nat>)
    requires CanAdvance(s, t) && PcOf(s, t).WHook? && call.CondWait? && Tells(s, t, call, late, acted, before)
    ensures Goes(s, Event(t, Advance), DoAdvance(s, t), t, call, late, acted, before)
  {
  }

  lemma DisarmGoes(s: State, t: Tid, call: Action, late: bool, acted: bool, before: C.Cancel<nat>)
    requires CanAdvance(s, t) && PcOf(s, t).WClear? && call.CondWait? && Tells(s, t, call, late, acted, before)
    ensures Goes(s, Event(t, Advance), DoAdvance(s, t), t, call, late, acted, before)
  {
  }

  /** In the middle of a composite call a thread takes no other step. */
  lemma OnlyThese(s: State, t: Tid, a: Action)
    requires Enabled(s, t, a) && !PcOf(s, t).Run?
    ensures a.Send? || a.Receive? || a.TimeOut? || a.Recheck? || a.Finish? || a.GiveUp? || a.Lock? || a.Unlock? || a.Advance?
  {
  }

  lemma OwnLockingGoes(s: State, t: Tid, a: Action, call: Action, late: bool, acted: bool, before: C.Cancel<nat>)
    requires Inv(s) && Enabled(s, t, a) && call.CondWait? && Tells(s, t, call, late, acted, before)
    requires a.Lock? || a.Unlock?
    ensures Goes(s, Event(t, a), Apply(s, t, a), t, call, late, acted, before)
  {
    if a.Lock? {
      LockGoes(s, t, a.m, a.timed, a.valid, call, late, acted, before);
    } else {
      assert ThreadOk(s, t);
      UnlockGoes(s, t, a.m, call, late, acted, before);
    }
  }

  lemma OwnEndingGoes(s: State, t: Tid, a: Action, call: Action, late: bool, acted: bool, before: C.Cancel<nat>)
    requires Inv(s) && Enabled(s, t, a) && call.CondWait? && Tells(s, t, call, late, acted, before)
    requires a.Finish? || a.GiveUp?
    ensures Goes(s, Event(t, a), Apply(s, t, a), t, call, late, acted, before)
  {
    assert ThreadOk(s, t);
    if a.Finish? {
      FinishGoes(s, t, call, late, acted, before);
    } else {
      GiveUpGoes(s, t, call, late, acted, before);
    }
  }

  lemma OwnStepGoes(s: State, t: Tid, a: Action, call: Action, late: bool, acted: bool, before: C.Cancel<nat>)
    requires Inv(s) && Enabled(s, t, a) && call.CondWait? && Tells(s, t, call, late, acted, before)
    ensures Goes(s, Event(t, a), Apply(s, t, a), t, call, late, acted, before)
  {
    OnlyThese(s, t, a);
    if a.Lock? || a.Unlock? {
      OwnLockingGoes(s, t, a, call, late, acted, before);
    } else if a.Finish? || a.GiveUp? {
      OwnEndingGoes(s, t, a, call, late, acted, before);
    } else if a.Advance? {
      AdvanceGoes(s, t, call, late, acted, before);
    } else {
      assert ThreadOk(s, t);
      BlockingGoes(s, t, a, call, late, acted, before);
    }
  }

  // ---------------------------------------------------------------- the whole wait

  /** From its call at `k` up to `i`, `t` is in one condition wait. */
  predicate InWait(states: seq<State>, events: seq<Event>, k: nat, i: nat, t: Tid) {
    && k < i < |states| && i <= |events| && events[k].t == t && events[k].a.CondWait?
    && forall n :: k < n <= i ==> NamesMutex(PcOf(states[n], t))
  }

  predicate TimedOutSince(events: seq<Event>, k: nat, i: nat, t: Tid)
    requires i <= |events|
  {
    exists n :: k < n < i && events[n] == Event(t, TimeOut)
  }

  predicate FoundSince(states: seq<State>, events: seq<Event>, k: nat, i: nat, t: Tid)
    requires i <= |events| && i <= |states|
  {
    exists n :: k < n < i && FindsRequest(states[n], events[n], t)
  }

  lemma CallBegins(s: State, t: Tid, call: Action)
    requires Enabled(s, t, call) && call.CondWait? && (call.timed ==> call.valid)
    ensures Tells(Apply(s, t, call), t, call, false, false, Cn(s, t))
  {
  }

  /** An invalid deadline is reported at once. */
  lemma InvalidReturns(s: State, t: Tid, call: Action)
    requires Enabled(s, t, call) && call.CondWait? && call.timed && !call.valid
    ensures var s' := Apply(s, t, call); PcOf(s', t) == WDone(call.m, true, false) && s' == s.(pcs := s'.pcs)
  {
  }

  lemma StepGoes(s: State, e: Event, s': State, t: Tid, call: Action, late: bool, acted: bool, before: C.Cancel<nat>)
    requires Inv(s) && Step(s, e, s') && call.CondWait? && Tells(s, t, call, late, acted, before) && NamesMutex(PcOf(s', t))
    ensures Tells(s', t, call, late || e == Event(t, TimeOut), acted || FindsRequest(s, e, t), before)
  {
    if e.t == t {
      OwnStepGoes(s, t, e.a, call, late, acted, before);
    } else {
      OthersLeaveAlone(s, e.t, e.a, t);
    }
  }

  lemma FirstTold(states: seq<State>, events: seq<Event>, k: nat, t: Tid)
    requires IsRun(states, events) && InWait(states, events, k, k + 1, t) && (events[k].a.timed ==> events[k].a.valid)
    ensures Tells(states[k + 1], t, events[k].a, TimedOutSince(events, k, k + 1, t), FoundSince(states, events, k, k + 1, t), Cn(states[k], t))
  {
    StepAt(states, events, k);
    CallBegins(states[k], t, events[k].a);
  }

  lemma ToldNext(states: seq<State>, events: seq<Event>, i: nat, t: Tid, call: Action, late: bool, acted: bool, before: C.Cancel<nat>)
    requires IsRun(states, events) && i < |events| && NamesMutex(PcOf(states[i + 1], t))
    requires call.CondWait? && Tells(states[i], t, call, late, acted, before)
    ensures Tells(states[i + 1], t, call, late || events[i] == Event(t, TimeOut), acted || FindsRequest(states[i], events[i], t), before)
  {
    RunKeeps(states, events, i);
    StepAt(states, events, i);
    StepGoes(states[i], events[i], states[i + 1], t, call, late, acted, before);
  }

  lemma {:induction false} ToldInRun(states: seq<State>, events: seq<Event>, k: nat, i: nat, t: Tid)
    requires IsRun(states, events) && InWait(states, events, k, i, t) && (events[k].a.timed ==> events[k].a.valid)
    ensures Tells(states[i], t, events[k].a, TimedOutSince(events, k, i, t), FoundSince(states, events, k, i, t), Cn(states[k], t))
    decreases i
  {
    if i == k + 1 {
      FirstTold(states, events, k, t);
    } else {
      ToldInRun(states, events, k, i - 1, t);
      SinceNext(states, events, k, i, t);
      var late, acted := TimedOutSince(events, k, i - 1, t), FoundSince(states, events, k, i - 1, t);
      ToldNext(states, events, i - 1, t, events[k].a, late, acted, Cn(states[k], t));
    }
  }

  lemma SinceNext(states: seq<State>, events: seq<Event>, k: nat, i: nat, t: Tid)
    requires k + 1 < i <= |events| && i <= |states|
    ensures TimedOutSince(events, k, i, t) <==> TimedOutSince(events, k, i - 1, t) || events[i - 1] == Event(t, TimeOut)
    ensures FoundSince(states, events, k, i, t) <==>
      FoundSince(states, events, k, i - 1, t) || FindsRequest(states[i - 1], events[i - 1], t)
  {
  }

  lemma LockingStartsNoWait(s: State, t: Tid, a: Action)
    requires Enabled(s, t, a) && (a.Lock? || a.Unlock? || a.Recheck?) && !NamesMutex(PcOf(s, t))
    ensures !NamesMutex(PcOf(Apply(s, t, a), t))
  {
  }

  lemma FinishStartsNoWait(s: State, t: Tid)
    requires CanFinish(s, t) && !NamesMutex(PcOf(s, t))
    ensures !NamesMutex(PcOf(DoFinish(s, t), t))
  {
  }

  lemma GiveUpStartsNoWait(s: State, t: Tid)
    requires CanGiveUp(s, t) && !NamesMutex(PcOf(s, t))
    ensures !NamesMutex(PcOf(DoGiveUp(s, t), t))
  {
  }

  lemma AdvanceStartsNoWait(s: State, t: Tid)
    requires CanAdvance(s, t) && !NamesMutex(PcOf(s, t))
    ensures !NamesMutex(PcOf(DoAdvance(s, t), t))
  {
  }

  lemma CallsKeepPc(s: State, t: Tid, a: Action)
    requires Enabled(s, t, a)
    requires !a.Lock? && !a.Unlock? && !a.Recheck? && !a.Finish? && !a.GiveUp? && !a.Advance?
    requires !a.CondWait? && !a.CancelThread? && !a.Set?
    ensures PcOf(Apply(s, t, a), t) == PcOf(s, t)
  {
  }

  lemma OnlyCallStarts(s: State, t: Tid, a: Action)
    requires Enabled(s, t, a) && !a.CondWait? && !NamesMutex(PcOf(s, t))
    ensures !NamesMutex(PcOf(Apply(s, t, a), t))
  {
    if a.Lock? || a.Unlock? || a.Recheck? {
      LockingStartsNoWait(s, t, a);
    } else if a.Finish? {
      FinishStartsNoWait(s, t);
    } else if a.GiveUp? {
      GiveUpStartsNoWait(s, t);
    } else if a.Advance? {
      AdvanceStartsNoWait(s, t);
    } else if !a.CancelThread? && !a.Set? {
      CallsKeepPc(s, t, a);
    }
  }

  lemma StartsByCall(s: State, e: Event, s': State, t: Tid)
    requires Step(s, e, s') && !NamesMutex(PcOf(s, t)) && NamesMutex(PcOf(s', t))
    ensures e.t == t && e.a.CondWait?
  {
    if e.t != t {
      OthersLeaveAlone(s, e.t, e.a, t);
    } else if !e.a.CondWait? {
      OnlyCallStarts(s, t, e.a);
    }
  }

  lemma StartedAt(states: seq<State>, events: seq<Event>, i: nat, t: Tid)
    requires IsRun(states, events) && i < |events| && !NamesMutex(PcOf(states[i], t)) && NamesMutex(PcOf(states[i + 1], t))
    ensures events[i].t == t && events[i].a.CondWait?
  {
    StepAt(states, events, i);
    StartsByCall(states[i], events[i], states[i + 1], t);
  }

  /** A thread in the sections of a condition wait called one. */
  lemma {:induction false} CalledBefore(states: seq<State>, events: seq<Event>, i: nat, t: Tid) returns (k: nat)
    requires IsRun(states, events) && i < |states| && NamesMutex(PcOf(states[i], t))
    ensures InWait(states, events, k, i, t)
  {
    if NamesMutex(PcOf(states[i - 1], t)) {
      k := CalledBefore(states, events, i - 1, t);
    } else {
      StartedAt(states, events, i - 1, t);
      k := i - 1;
    }
  }

  lemma DoneStays(s: State, e: Event, s': State, t: Tid)
    requires Inv(s) && Step(s, e, s') && PcOf(s, t).WDone? && NamesMutex(PcOf(s', t))
    ensures PcOf(s', t) == PcOf(s, t) && Cn(s', t).enabled == Cn(s, t).enabled && Cn(s', t).async == Cn(s, t).async
  {
    if e.t != t {
      OthersLeaveAlone(s, e.t, e.a, t);
    } else {
      DoneStaysOwn(s, t, e.a);
    }
  }

  lemma DoneStaysOwn(s: State, t: Tid, a: Action)
    requires Inv(s) && Enabled(s, t, a) && PcOf(s, t).WDone? && NamesMutex(PcOf(Apply(s, t, a), t))
    ensures PcOf(Apply(s, t, a), t) == PcOf(s, t) && Apply(s, t, a).cancels == s.cancels
  {
    DoneSendsOrLeaves(s, t, a);
  }

  lemma DoneSendsOrLeaves(s: State, t: Tid, a: Action)
    requires Inv(s) && Enabled(s, t, a) && PcOf(s, t).WDone?
    ensures a.Send? || a.Advance?
  {
    assert ThreadOk(s, t);
    OnlyThese(s, t, a);
  }

  lemma InvalidAt(states: seq<State>, events: seq<Event>, k: nat, t: Tid)
    requires IsRun(states, events) && k < |events| && events[k].t == t
    requires events[k].a.CondWait? && events[k].a.timed && !events[k].a.valid
    ensures PcOf(states[k + 1], t) == WDone(events[k].a.m, true, false) && states[k + 1].cancels == states[k].cancels
  {
    StepAt(states, events, k);
    InvalidReturns(states[k], t, events[k].a);
  }

  lemma DoneStaysAt(states: seq<State>, events: seq<Event>, i: nat, t: Tid)
    requires IsRun(states, events) && i < |events| && PcOf(states[i], t).WDone? && NamesMutex(PcOf(states[i + 1], t))
    ensures PcOf(states[i + 1], t) == PcOf(states[i], t)
    ensures Cn(states[i + 1], t).enabled == Cn(states[i], t).enabled && Cn(states[i + 1], t).async == Cn(states[i], t).async
  {
    RunKeeps(states, events, i);
    StepAt(states, events, i);
    DoneStays(states[i], events[i], states[i + 1], t);
  }

  lemma {:induction false} InvalidInRun(states: seq<State>, events: seq<Event>, k: nat, i: nat, t: Tid)
    requires IsRun(states, events) && InWait(states, events, k, i, t) && events[k].a.timed && !events[k].a.valid
    ensures PcOf(states[i], t) == WDone(events[k].a.m, true, false)
    ensures Cn(states[i], t).enabled == Cn(states[k], t).enabled && Cn(states[i], t).async == Cn(states[k], t).async
    decreases i
  {
    if i == k + 1 {
      InvalidAt(states, events, k, t);
    } else {
      InvalidInRun(states, events, k, i - 1, t);
      DoneStaysAt(states, events, i - 1, t);
    }
  }

  /** What a condition wait returns, in every run.  ETIMEDOUT exactly if its receive timed out, EINVAL at once for an
      invalid deadline, cancelled exactly if one of its two sections under the cancel_lock found an enabled request;
      and it comes back with the mutex it was called with, the cancellation state and the cancellation type as they
      were. */
  predicate Returns(states: seq<State>, events: seq<Event>, k: nat, i: nat, t: Tid)
    requires InWait(states, events, k, i, t) && PcOf(states[i], t).WDone?
  {
    var pc, call := PcOf(states[i], t), events[k].a;
    && pc.m == call.m
    && Cn(states[i], t).enabled == Cn(states[k], t).enabled && Cn(states[i], t).async == Cn(states[k], t).async
    && (if call.timed && !call.valid then pc.err && !pc.cancelled
        else (pc.err <==> TimedOutSince(events, k, i, t)) && (pc.cancelled <==> FoundSince(states, events, k, i, t)))
  }

  lemma WaitReturns(states: seq<State>, events: seq<Event>, i: nat, t: Tid)
    requires IsRun(states, events) && i < |states| && PcOf(states[i], t).WDone?
    ensures exists k: nat :: InWait(states, events, k, i, t) && Returns(states, events, k, i, t)
  {
    var k := CalledBefore(states, events, i, t);
    if events[k].a.timed && !events[k].a.valid {
      InvalidInRun(states, events, k, i, t);
    } else {
      ToldInRun(states, events, k, i, t);
    }
    assert Returns(states, events, k, i, t);
  }

  /** A wait without a deadline never returns an error. */
  lemma UntimedReturnsNoError(states: seq<State>, events: seq<Event>, k: nat, i: nat, t: Tid)
    requires IsRun(states, events) && InWait(states, events, k, i, t) && PcOf(states[i], t).WDone? && !events[k].a.timed
    ensures !PcOf(states[i], t).err
  {
    ToldInRun(states, events, k, i, t);
  }

  // ---------------------------------------------------------------- requests

  /** `w` has recorded its request to `p`, or has not got that far in its call. */
  predicate Recorded(s: State, w: Tid, p: Tid) {
    Cn(s, p).pending || PcOf(s, w) == CEnter(p) || PcOf(s, w) == CGot(p)
  }

  lemma PendingStays(s: State, w: Tid, a: Action, p: Tid)
    requires Enabled(s, w, a) && Cn(s, p).pending
    ensures Cn(Apply(s, w, a), p).pending
  {
    if w != p {
      OthersLeaveAlone(s, w, a, p);
    } else if a.Advance? {
      OwnPendingStays(s, p);
    } else {
      CancelsStay(s, w, a);
    }
  }

  lemma OwnPendingStays(s: State, p: Tid)
    requires CanAdvance(s, p) && Cn(s, p).pending
    ensures Cn(DoAdvance(s, p), p).pending
  {
  }

  lemma CancelsStay(s: State, w: Tid, a: Action)
    requires Enabled(s, w, a) && !a.Advance?
    ensures Apply(s, w, a).cancels == s.cancels
  {
    if a.Lock? || a.TryLock? || a.Unlock? || a.Transfer? {
      MutexKeepsCancels(s, w, a);
    } else if a.Read? || a.Write? || a.TryRead? || a.TryWrite? || a.RwUnlock? {
      RwKeepsCancels(s, w, a);
    }
  }

  lemma MutexKeepsCancels(s: State, w: Tid, a: Action)
    requires Enabled(s, w, a) && (a.Lock? || a.TryLock? || a.Unlock? || a.Transfer?)
    ensures Apply(s, w, a).cancels == s.cancels
  {
  }

  lemma RwKeepsCancels(s: State, w: Tid, a: Action)
    requires Enabled(s, w, a) && (a.Read? || a.Write? || a.TryRead? || a.TryWrite? || a.RwUnlock?)
    ensures Apply(s, w, a).cancels == s.cancels
  {
  }

  lemma RecordingGoes(s: State, w: Tid, a: Action, p: Tid)
    requires Enabled(s, w, a) && !Cn(s, p).pending && (PcOf(s, w) == CEnter(p) || PcOf(s, w) == CGot(p))
    ensures Recorded(Apply(s, w, a), w, p)
  {
    OnlyThese(s, w, a);
  }

  lemma RecordedStays(s: State, v: Tid, a: Action, w: Tid, p: Tid)
    requires Enabled(s, v, a) && Recorded(s, w, p)
    ensures Recorded(Apply(s, v, a), w, p)
  {
    if Cn(s, p).pending {
      PendingStays(s, v, a, p);
    } else if v != w {
      OthersLeaveAlone(s, v, a, w);
    } else {
      RecordingGoes(s, w, a, p);
    }
  }

  /** A request that was recorded stays to the end of the run. */
  lemma PendingForever(states: seq<State>, events: seq<Event>, i: nat, j: nat, p: Tid)
    requires IsRun(states, events) && i <= j < |states| && Cn(states[i], p).pending
    ensures Cn(states[j], p).pending
  {
    forall s, v, a | Reachable(s) && Enabled(s, v, a) && Cn(s, p).pending ensures Cn(Apply(s, v, a), p).pending {
      PendingStays(s, v, a, p);
    }
    Permanent(s => Cn(s, p).pending, states, events, i, j);
  }

  /** pthread_cancel loses no request: once the caller is back in user code the request is pending, for good. */
  lemma CancelRecords(states: seq<State>, events: seq<Event>, i: nat, j: nat, w: Tid, p: Tid)
    requires IsRun(states, events) && i < j < |states| && events[i] == Event(w, CancelThread(p)) && PcOf(states[j], w).Run?
    ensures Cn(states[j], p).pending
  {
    StepAt(states, events, i);
    forall s, v, a | Reachable(s) && Enabled(s, v, a) && Recorded(s, w, p) ensures Recorded(Apply(s, v, a), w, p) {
      RecordedStays(s, v, a, w, p);
    }
    Permanent(s => Recorded(s, w, p), states, events, i + 1, j);
  }

  /** And it is heeded: a wait that comes to one of its sections under the cancel_lock with the request pending and
      cancellation enabled is cancelled. */
  lemma RequestIsHeeded(states: seq<State>, events: seq<Event>, i: nat, k: nat, n: nat, j: nat, p: Tid)
    requires IsRun(states, events) && i <= n && k < n < j && InWait(states, events, k, j, p) && PcOf(states[j], p).WDone?
    requires Cn(states[i], p).pending && events[n] == Event(p, Advance) && Cn(states[n], p).enabled
    requires PcOf(states[n], p).WHook? || PcOf(states[n], p).WClear?
    ensures PcOf(states[j], p).cancelled
  {
    PendingForever(states, events, i, n, p);
    assert FindsRequest(states[n], events[n], p);
    if events[k].a.timed && !events[k].a.valid {
      InvalidInRun(states, events, k, n, p);
    } else {
      ToldInRun(states, events, k, j, p);
    }
  }
}
