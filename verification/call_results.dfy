/** What the calls made of several locked sections do not skip, in every run: a wait releases its mutex before it blocks,
    and a setting is in force when its call returns. */
module CallResults {
  import opened Blocking
  import opened System
  import opened Theorems
  import opened WaitResults
  import C = Condition

  // ---------------------------------------------------------------- the release in a wait

  /** Beyond the point where a wait gives up its mutex; one that acts on a request at its entry never gets there. */
  predicate BeyondRelease(pc: Pc) {
    pc.WBlock? || pc.WWoken? || pc.WClear? || pc.WDisarmed? || pc.WRelock? || (pc.WDone? && !pc.cancelled)
  }

  predicate Releasing(s: State, e: Event, t: Tid, m: Mid) {
    e == Event(t, Unlock(m)) && PcOf(s, t).WRelease? && PcOf(s, t).m == m
  }

  predicate ReleasedSince(states: seq<State>, events: seq<Event>, k: nat, i: nat, t: Tid, m: Mid)
    requires i <= |events| && i <= |states|
  {
    exists n :: k < n < i && Releasing(states[n], events[n], t, m)
  }

  lemma AdvanceStaysBefore(s: State, t: Tid)
    requires CanAdvance(s, t) && NamesMutex(PcOf(s, t)) && !BeyondRelease(PcOf(s, t))
    ensures !BeyondRelease(PcOf(DoAdvance(s, t), t))
  {
  }

  lemma BlockedStaysBefore(s: State, t: Tid, a: Action)
    requires Inv(s) && Enabled(s, t, a) && NamesMutex(PcOf(s, t)) && !BeyondRelease(PcOf(s, t))
    requires a.Send? || a.Receive? || a.TimeOut? || a.Recheck?
    ensures !BeyondRelease(PcOf(Apply(s, t, a), t))
  {
    assert ThreadOk(s, t);
  }

  lemma EndingStaysBefore(s: State, t: Tid, a: Action)
    requires Inv(s) && Enabled(s, t, a) && NamesMutex(PcOf(s, t)) && !BeyondRelease(PcOf(s, t)) && (a.Finish? || a.GiveUp?)
    ensures !BeyondRelease(PcOf(Apply(s, t, a), t))
  {
    assert ThreadOk(s, t);
  }

  lemma LockStaysBefore(s: State, t: Tid, m: Mid, timed: bool, valid: bool)
    requires Enabled(s, t, Lock(m, timed, valid)) && NamesMutex(PcOf(s, t)) && !BeyondRelease(PcOf(s, t))
    ensures !BeyondRelease(PcOf(DoLock(s, t, m, timed, valid), t))
  {
  }

  lemma UnlockIsRelease(s: State, t: Tid, m: Mid)
    requires Enabled(s, t, Unlock(m)) && NamesMutex(PcOf(s, t)) && !BeyondRelease(PcOf(s, t))
    ensures BeyondRelease(PcOf(DoUnlock(s, t, m), t)) ==> Releasing(s, Event(t, Unlock(m)), t, PcOf(s, t).m)
  {
  }

  lemma OnlyReleaseGetsBeyond(s: State, t: Tid, a: Action)
    requires Inv(s) && Enabled(s, t, a) && NamesMutex(PcOf(s, t)) && !BeyondRelease(PcOf(s, t))
    ensures BeyondRelease(PcOf(Apply(s, t, a), t)) ==> Releasing(s, Event(t, a), t, PcOf(s, t).m)
  {
    OnlyThese(s, t, a);
    if a.Lock? {
      LockStaysBefore(s, t, a.m, a.timed, a.valid);
    } else if a.Unlock? {
      UnlockIsRelease(s, t, a.m);
    } else if a.Finish? || a.GiveUp? {
      EndingStaysBefore(s, t, a);
    } else if a.Advance? {
      AdvanceStaysBefore(s, t);
    } else {
      BlockedStaysBefore(s, t, a);
    }
  }

  lemma GetsBeyondAt(states: seq<State>, events: seq<Event>, i: nat, t: Tid)
    requires IsRun(states, events) && i < |events| && NamesMutex(PcOf(states[i], t))
    requires !BeyondRelease(PcOf(states[i], t)) && BeyondRelease(PcOf(states[i + 1], t))
    ensures Releasing(states[i], events[i], t, PcOf(states[i], t).m)
  {
    RunKeeps(states, events, i);
    StepAt(states, events, i);
    if events[i].t == t {
      OnlyReleaseGetsBeyond(states[i], t, events[i].a);
    } else {
      OthersLeaveAlone(states[i], events[i].t, events[i].a, t);
    }
  }

  lemma WaitBegins(states: seq<State>, events: seq<Event>, k: nat, t: Tid)
    requires IsRun(states, events) && k < |events| && events[k].t == t
    requires events[k].a.CondWait? && (events[k].a.timed ==> events[k].a.valid)
    ensures PcOf(states[k + 1], t).WEnter?
  {
    StepAt(states, events, k);
  }

  /** A wait that blocks has released the mutex it was called with, after its call and before. */
  lemma {:induction false} WaitReleases(states: seq<State>, events: seq<Event>, k: nat, i: nat, t: Tid)
    requires IsRun(states, events) && InWait(states, events, k, i, t) && (events[k].a.timed ==> events[k].a.valid)
    requires BeyondRelease(PcOf(states[i], t))
    ensures ReleasedSince(states, events, k, i, t, events[k].a.m)
    decreases i
  {
    if i == k + 1 {
      WaitBegins(states, events, k, t);
    } else if BeyondRelease(PcOf(states[i - 1], t)) {
      WaitReleases(states, events, k, i - 1, t);
    } else {
      ToldInRun(states, events, k, i - 1, t);
      GetsBeyondAt(states, events, i - 1, t);
    }
  }

  // ---------------------------------------------------------------- pthread_setcancelstate and pthread_setcanceltype

  /** How far the call that sets `x` has come, if the caller's fields were `before` when it called. */
  predicate Sets(s: State, t: Tid, x: Setting, before: C.Cancel<nat>) {
    var pc, c := PcOf(s, t), Cn(s, t);
    if pc == SEnter(x) || pc == SGot(x) then c.enabled == before.enabled && c.async == before.async
    else (pc.SUnlock? || pc.Run?) && InForce(c, x, before)
  }

  predicate InForce(c: C.Cancel<nat>, x: Setting, before: C.Cancel<nat>) {
    && c.enabled == (if x.State? then x.enabled else before.enabled)
    && c.async == (if x.Type? then x.async else before.async)
  }

  lemma SetAdvances(s: State, t: Tid, x: Setting, before: C.Cancel<nat>)
    requires CanAdvance(s, t) && !PcOf(s, t).Run? && Sets(s, t, x, before)
    ensures Sets(DoAdvance(s, t), t, x, before)
  {
  }

  lemma SetLocks(s: State, t: Tid, a: Action, x: Setting)
    requires Enabled(s, t, a) && (a.Lock? || a.Unlock?) && (PcOf(s, t) == SEnter(x) || PcOf(s, t) == SUnlock)
    ensures var pc := PcOf(Apply(s, t, a), t);
      pc == PcOf(s, t) || (if PcOf(s, t).SEnter? then pc == SGot(x) else pc.Run?)
  {
  }

  lemma SetBlocks(s: State, t: Tid, a: Action, x: Setting)
    requires Enabled(s, t, a) && (PcOf(s, t) == SEnter(x) || PcOf(s, t) == SGot(x) || PcOf(s, t) == SUnlock)
    requires a.Send? || a.Receive? || a.TimeOut? || a.Recheck?
    ensures PcOf(Apply(s, t, a), t) == PcOf(s, t)
  {
  }

  lemma SetEnds(s: State, t: Tid, a: Action, x: Setting)
    requires Enabled(s, t, a) && (PcOf(s, t) == SEnter(x) || PcOf(s, t) == SGot(x) || PcOf(s, t) == SUnlock)
    requires a.Finish? || a.GiveUp?
    ensures PcOf(Apply(s, t, a), t) == PcOf(s, t) || (PcOf(s, t).SEnter? && PcOf(Apply(s, t, a), t) == SGot(x))
  {
  }

  lemma OwnStepSets(s: State, t: Tid, a: Action, x: Setting, before: C.Cancel<nat>)
    requires Enabled(s, t, a) && !PcOf(s, t).Run? && Sets(s, t, x, before)
    ensures Sets(Apply(s, t, a), t, x, before)
  {
    OnlyThese(s, t, a);
    if a.Advance? {
      SetAdvances(s, t, x, before);
    } else {
      CancelsStay(s, t, a);
      if a.Lock? || a.Unlock? {
        SetLocks(s, t, a, x);
      } else if a.Finish? || a.GiveUp? {
        SetEnds(s, t, a, x);
      } else {
        SetBlocks(s, t, a, x);
      }
    }
  }

  lemma SetsAt(states: seq<State>, events: seq<Event>, i: nat, t: Tid, x: Setting, before: C.Cancel<nat>)
    requires IsRun(states, events) && i < |events| && !PcOf(states[i], t).Run? && Sets(states[i], t, x, before)
    ensures Sets(states[i + 1], t, x, before)
  {
    StepAt(states, events, i);
    if events[i].t == t {
      OwnStepSets(states[i], t, events[i].a, x, before);
    } else {
      OthersLeaveAlone(states[i], events[i].t, events[i].a, t);
    }
  }

  lemma SetBegins(states: seq<State>, events: seq<Event>, k: nat, t: Tid, x: Setting)
    requires IsRun(states, events) && k < |events| && events[k] == Event(t, Set(x))
    ensures PcOf(states[k + 1], t) == SEnter(x) && Cn(states[k + 1], t) == Cn(states[k], t)
  {
    StepAt(states, events, k);
  }

  lemma {:induction false} SetInRun(states: seq<State>, events: seq<Event>, k: nat, i: nat, t: Tid, x: Setting)
    requires IsRun(states, events) && k < i < |states| && events[k] == Event(t, Set(x))
    requires forall n :: k < n < i ==> !PcOf(states[n], t).Run?
    ensures Sets(states[i], t, x, Cn(states[k], t))
    decreases i
  {
    SetBegins(states, events, k, t, x);
    if i > k + 1 {
      SetInRun(states, events, k, i - 1, t, x);
      SetsAt(states, events, i - 1, t, x, Cn(states[k], t));
    }
  }

  /** When a thread that called pthread_setcancelstate or pthread_setcanceltype is back in user code, what it set is in
      force, and its other setting is as it was. */
  lemma SettingInForce(states: seq<State>, events: seq<Event>, k: nat, i: nat, t: Tid, x: Setting)
    requires IsRun(states, events) && k < i < |states| && events[k] == Event(t, Set(x))
    requires PcOf(states[i], t).Run? && forall n :: k < n < i ==> !PcOf(states[n], t).Run?
    ensures InForce(Cn(states[i], t), x, Cn(states[k], t))
  {
    SetInRun(states, events, k, i, t, x);
  }
}
