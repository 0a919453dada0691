/** What holds in every run of any number of threads over any number of primitives. */
module Theorems {
  import opened Base
  import opened Blocking
  import opened System
  import opened SystemProof
  import M = Mutex
  import C = Condition
  import MP = MutexProtocol
  import RP = RwLockProtocol

  // ---------------------------------------------------------------- runs

  datatype Event = Event(t: Tid, a: Action)

  ghost predicate Step(s: State, e: Event, s': State) {
    Enabled(s, e.t, e.a) && s' == Apply(s, e.t, e.a)
  }

  /** A run from an initial state: `states[i + 1]` is `states[i]` after `events[i]`. */
  ghost predicate IsRun(states: seq<State>, events: seq<Event>) {
    && |states| == |events| + 1
    && Init(states[0])
    && forall i {:trigger Step(states[i], events[i], states[i + 1])} :: 0 <= i < |events| ==> Step(states[i], events[i], states[i + 1])
  }

  lemma StepAt(states: seq<State>, events: seq<Event>, i: nat)
    requires IsRun(states, events) && i < |events|
    ensures Step(states[i], events[i], states[i + 1])
  {
  }

  lemma InitHolds(s: State)
    requires Init(s)
    ensures Inv(s)
  {
    assert forall q, t :: !Waits(s.net, t, q);
    forall q ensures PrimOk(s, q) {
      InitPrim(s, q);
    }
    forall t ensures ThreadOk(s, t) {
    }
  }

  lemma InitPrim(s: State, q: Qid)
    requires Init(s)
    ensures PrimOk(s, q)
  {
    assert forall t :: !Waits(s.net, t, q);
  }

  lemma FinishStep(s: State, t: Tid)
    requires Inv(s) && Enabled(s, t, Action.Finish)
    ensures Inv(DoFinish(s, t))
  {
    match Th(s.net, t).wait.q
    case MutexQ(m) => FinishMutexStep(s, t, m);
    case ReaderQ(r) => FinishRwStep(s, t, ReaderQ(r), r);
    case WriterQ(r) => FinishRwStep(s, t, WriterQ(r), r);
    case SemQ(i) => FinishSemStep(s, t, i);
    case BarrierQ(b) => LeaveBarrierStep(s, t, b);
    case CondQ(c) =>
      Finished(s.net, t, CondQ(c));
      LeaveCondStep(s, t, Blocking.Finish(s.net, t), false);
  }

  lemma GiveUpStep(s: State, t: Tid)
    requires Inv(s) && Enabled(s, t, Action.GiveUp)
    ensures Inv(DoGiveUp(s, t))
  {
    assert WaitOk(s, t) by { assert ThreadOk(s, t); }
    match Th(s.net, t).wait.q
    case MutexQ(m) => GiveUpMutexStep(s, t, m);
    case ReaderQ(r) => GiveUpRwStep(s, t, ReaderQ(r), r);
    case WriterQ(r) => GiveUpRwStep(s, t, WriterQ(r), r);
    case SemQ(i) => GiveUpSemStep(s, t, i);
    case BarrierQ(b) => assert false;
    case CondQ(c) =>
      Drained(s.net, t, CondQ(c));
      LeaveCondStep(s, t, Drain(s.net, t), true);
  }

  lemma AdvanceWaitStep(s: State, t: Tid)
    requires Inv(s) && Enabled(s, t, Advance) && (PcOf(s, t).WHook? || PcOf(s, t).WClear?)
    ensures Inv(DoAdvance(s, t))
  {
    if PcOf(s, t).WClear? {
      DisarmStep(s, t);
    } else if C.Acts(Cn(s, t)) {
      AbortStep(s, t);
    } else {
      ArmStep(s, t);
    }
  }

  lemma AdvanceRequestStep(s: State, t: Tid)
    requires Inv(s) && Enabled(s, t, Advance) && PcOf(s, t).CGot?
    ensures Inv(DoAdvance(s, t))
  {
    var p := PcOf(s, t).p;
    var (cn, r) := C.RequestSection(Cn(s, p));
    RequestStep(s, t, cn, if r.Hook? then CHook(p, r.cond) else CUnlock(p));
  }

  lemma AdvanceStep(s: State, t: Tid)
    requires Inv(s) && Enabled(s, t, Advance)
    ensures Inv(DoAdvance(s, t))
  {
    var pc := PcOf(s, t);
    if pc.WHook? || pc.WClear? {
      AdvanceWaitStep(s, t);
    } else if pc.CGot? {
      AdvanceRequestStep(s, t);
    } else if pc.CHook? {
      HookStep(s, t);
    } else if pc.SGot? {
      SetStep(s, t);
    } else {
      ReturnStep(s, t);
    }
  }

  lemma RwActionKeeps(s: State, t: Tid, a: Action)
    requires Inv(s) && Enabled(s, t, a) && (a.Read? || a.Write? || a.TryRead? || a.TryWrite? || a.RwUnlock?)
    ensures Inv(Apply(s, t, a))
  {
    match a
    case Read(r, timed, valid) => ReadStep(s, t, r, timed, valid);
    case Write(r, timed, valid) => WriteStep(s, t, r, timed, valid);
    case TryRead(r) => TryRwStep(s, t, r);
    case TryWrite(r) => TryRwStep(s, t, r);
    case RwUnlock(r) => RwUnlockStep(s, t, r);
  }

  lemma CountingActionKeeps(s: State, t: Tid, a: Action)
    requires Inv(s) && Enabled(s, t, a) && (a.Down? || a.TryDown? || a.Post? || a.BarrierWait?)
    ensures Inv(Apply(s, t, a))
  {
    match a
    case Down(i, timed, valid) => DownStep(s, t, i, timed, valid);
    case TryDown(i) => DownStep(s, t, i, false, true);
    case Post(i) => PostStep(s, t, i);
    case BarrierWait(b) => BarrierWaitStep(s, t, b);
  }

  lemma MutexActionKeeps(s: State, t: Tid, a: Action)
    requires Inv(s) && Enabled(s, t, a) && (a.Lock? || a.TryLock? || a.Unlock? || a.Transfer?)
    ensures Inv(Apply(s, t, a))
  {
    assert PrimOk(s, MutexQ(a.m));
    match a
    case Lock(m, timed, valid) => LockStep(s, t, m, timed, valid);
    case TryLock(m) =>
      MP.TryLockKeeps(s.net, m, Mx(s, m), t);
      UserMutexStep(s, t, m, MP.TryLock(Mx(s, m), t).0);
    case Unlock(m) => UnlockStep(s, t, m);
    case Transfer(m, to) =>
      MP.TransferKeeps(s.net, m, Mx(s, m), t, to);
      UserMutexStep(s, t, m, MP.Transfer(Mx(s, m), t, to).0);
  }

  lemma BlockingActionKeeps(s: State, t: Tid, a: Action)
    requires Inv(s) && Enabled(s, t, a)
    requires a.Send? || a.Receive? || a.TimeOut? || a.Recheck? || a.Finish? || a.GiveUp?
    ensures Inv(Apply(s, t, a))
  {
    match a
    case Send => SendStep(s, t);
    case Receive => ReceiveStep(s, t);
    case TimeOut => TimeOutStep(s, t);
    case Recheck =>
      RecheckKeeps(s.net, t);
      if Queued(s.net, t) { RecheckQueuedStep(s, t); } else { RecheckOffStep(s, t); }
    case Finish => FinishStep(s, t);
    case GiveUp => GiveUpStep(s, t);
  }

  lemma SignalActionKeeps(s: State, t: Tid, a: Action)
    requires Inv(s) && Enabled(s, t, a) && (a.Signal? || a.Broadcast?)
    ensures Inv(Apply(s, t, a))
  {
    SignalStep(s, t, a.c);
  }

  lemma CallActionKeeps(s: State, t: Tid, a: Action)
    requires Inv(s) && Enabled(s, t, a)
    requires a.CondWait? || a.CancelThread? || a.Set? || a.Advance?
    ensures Inv(Apply(s, t, a))
  {
    match a
    case CondWait(c, m, timed, valid) =>
      StartStep(s, t, if timed && !valid then WDone(m, true, false) else WEnter(c, m, timed));
    case CancelThread(p) => StartStep(s, t, CEnter(p));
    case Set(x) => StartStep(s, t, SEnter(x));
    case Advance => AdvanceStep(s, t);
  }

  /** Every step of every thread keeps the invariant. */
  lemma StepKeeps(s: State, t: Tid, a: Action)
    requires Inv(s) && Enabled(s, t, a)
    ensures Inv(Apply(s, t, a))
  {
    if a.Send? || a.Receive? || a.TimeOut? || a.Recheck? || a.Finish? || a.GiveUp? {
      BlockingActionKeeps(s, t, a);
    } else if a.Lock? || a.TryLock? || a.Unlock? || a.Transfer? {
      MutexActionKeeps(s, t, a);
    } else if a.Read? || a.Write? || a.TryRead? || a.TryWrite? || a.RwUnlock? {
      RwActionKeeps(s, t, a);
    } else if a.Down? || a.TryDown? || a.Post? || a.BarrierWait? {
      CountingActionKeeps(s, t, a);
    } else if a.Signal? || a.Broadcast? {
      SignalActionKeeps(s, t, a);
    } else {
      CallActionKeeps(s, t, a);
    }
  }

  /** The invariant of the whole library holds in every state of every run. */
  lemma {:induction false} RunKeeps(states: seq<State>, events: seq<Event>, i: nat)
    requires IsRun(states, events) && i < |states|
    ensures Inv(states[i])
  {
    if i == 0 {
      InitHolds(states[0]);
    } else {
      RunKeeps(states, events, i - 1);
      StepAt(states, events, i - 1);
      StepKeeps(states[i - 1], events[i - 1].t, events[i - 1].a);
    }
  }

  /** Some run leads to `s`. */
  ghost predicate Reachable(s: State) {
    exists states, events :: IsRun(states, events) && states[|states| - 1] == s
  }

  lemma ReachableHolds(s: State)
    requires Reachable(s)
    ensures Inv(s)
  {
    var states, events :| IsRun(states, events) && states[|states| - 1] == s;
    RunKeeps(states, events, |states| - 1);
  }

  lemma ReachableStep(s: State, t: Tid, a: Action)
    requires Reachable(s) && Enabled(s, t, a)
    ensures Reachable(Apply(s, t, a))
  {
    Extend(s, Event(t, a), Apply(s, t, a));
  }

  lemma Extend(s: State, e: Event, s': State)
    requires Reachable(s) && Step(s, e, s')
    ensures Reachable(s')
  {
    var states, events :| IsRun(states, events) && states[|states| - 1] == s;
    var states', events' := states + [s'], events + [e];
    forall i | 0 <= i < |events'| ensures Step(states'[i], events'[i], states'[i + 1]) {
      if i < |events| {
        assert Step(states[i], events[i], states[i + 1]);
      }
    }
    assert IsRun(states', events');
  }

  lemma ReachLock(s: State, t: Tid, m: Mid, timed: bool, valid: bool)
    requires Reachable(s) && Ready(s, t) && MayLock(s, t, m, timed) && !Mx(s, m).v.lock
    ensures Reachable(DoLock(s, t, m, timed, valid))
  {
    ReachableStep(s, t, Lock(m, timed, valid));
  }

  lemma ReachUnlock(s: State, t: Tid, m: Mid)
    requires Reachable(s) && Th(s.net, t).sends == [] && MayUnlock(s, t, m) && !Mx(s, m).v.lock
    requires PcOf(s, t).Run? && Mx(s, m).v.kind == M.Normal ==> MP.IsHeldBy(Mx(s, m), t)
    ensures Reachable(DoUnlock(s, t, m))
  {
    ReachableStep(s, t, Unlock(m));
  }

  lemma ReachFinish(s: State, t: Tid)
    requires Reachable(s) && CanFinish(s, t)
    ensures Reachable(DoFinish(s, t))
  {
    ReachableStep(s, t, Action.Finish);
  }

  lemma ReachAdvance(s: State, t: Tid)
    requires Reachable(s) && CanAdvance(s, t)
    ensures Reachable(DoAdvance(s, t))
  {
    ReachableStep(s, t, Advance);
  }

  lemma RunPrefix(states: seq<State>, events: seq<Event>, i: nat)
    requires IsRun(states, events) && i < |states|
    ensures Reachable(states[i])
  {
    assert IsRun(states[..i + 1], events[..i]);
  }

  /** What every step keeps, every run keeps from the moment it holds. */
  lemma {:induction false} Permanent(p: State -> bool, states: seq<State>, events: seq<Event>, i: nat, j: nat)
    requires IsRun(states, events) && i <= j < |states| && p(states[i])
    requires forall s, t, a :: Reachable(s) && Enabled(s, t, a) && p(s) ==> p(Apply(s, t, a))
    ensures p(states[j])
  {
    if i < j {
      Permanent(p, states, events, i, j - 1);
      RunPrefix(states, events, j - 1);
      StepAt(states, events, j - 1);
    }
  }

  /** What holds at some point of a run, but not at its start, was brought about by a step. */
  lemma {:induction false} Caused(p: State -> bool, cause: (State, Event) -> bool, states: seq<State>, events: seq<Event>, j: nat)
    requires IsRun(states, events) && j < |states| && p(states[j])
    requires forall s :: Init(s) ==> !p(s)
    requires forall s, t, a :: Reachable(s) && Enabled(s, t, a) && !p(s) && p(Apply(s, t, a)) ==> cause(s, Event(t, a))
    ensures exists i :: 0 <= i < j && cause(states[i], events[i])
  {
    if j > 0 {
      RunPrefix(states, events, j - 1);
      StepAt(states, events, j - 1);
      if p(states[j - 1]) {
        Caused(p, cause, states, events, j - 1);
      }
    }
  }

  /** What holds after a step exactly if it held before or the step is of a certain kind holds in a run exactly
      after the first such step. */
  lemma {:induction false} HistoryIff(p: State -> bool, cause: (State, Event) -> bool, states: seq<State>, events: seq<Event>, j: nat)
    requires IsRun(states, events) && j < |states|
    requires forall s :: Init(s) ==> !p(s)
    requires forall s, t, a :: Reachable(s) && Enabled(s, t, a) ==> (p(Apply(s, t, a)) <==> p(s) || cause(s, Event(t, a)))
    ensures p(states[j]) <==> exists i :: 0 <= i < j && cause(states[i], events[i])
  {
    if j > 0 {
      HistoryIff(p, cause, states, events, j - 1);
      RunPrefix(states, events, j - 1);
      StepAt(states, events, j - 1);
      assert p(states[j]) <==> p(states[j - 1]) || cause(states[j - 1], events[j - 1]);
    }
  }

  /** None of the source's assertions about queues, owners and counts can fail, in any reachable state. */
  lemma AssertionsNeverFail(s: State, t: Tid)
    requires Reachable(s)
    ensures forall m :: Mx(s, m).v.held && Mx(s, m).v.kind != M.Normal ==> Mx(s, m).v.owner.Some?
    ensures forall r :: !Rw(s, r).v.held ==>
      Qu(s.net, ReaderQ(r)) == [] && Qu(s.net, WriterQ(r)) == [] && Rw(s, r).v.readers == 0
    ensures forall r :: Rw(s, r).v.readers > 0 ==> Qu(s.net, ReaderQ(r)) == []
    ensures forall i :: Se(s, i).v.value > 0 ==> Qu(s.net, SemQ(i)) == []
    ensures (AtStage(s.net, t, TimedOut) || AtStage(s.net, t, Taken)) && Queued(s.net, t) ==> AtStage(s.net, t, TimedOut)
    ensures AtStage(s.net, t, Finishing) ==>
      match Th(s.net, t).wait.q
      case MutexQ(m) =>
        (Mx(s, m).v.kind != M.Normal ==> Mx(s, m).v.owner == Some(t)) && (Mx(s, m).v.kind == M.Recursive ==> Mx(s, m).v.locks == 0)
      case ReaderQ(r) => Rw(s, r).v.readers > 0
      case WriterQ(r) => Rw(s, r).v.readers == 0
      case _ => true
  {
    ReachableHolds(s);
    forall m ensures Mx(s, m).v.held && Mx(s, m).v.kind != M.Normal ==> Mx(s, m).v.owner.Some? {
      assert PrimOk(s, MutexQ(m));
    }
    forall r ensures PrimOk(s, ReaderQ(r)) {
    }
    forall i ensures Se(s, i).v.value > 0 ==> Qu(s.net, SemQ(i)) == [] {
      assert PrimOk(s, SemQ(i));
    }
    if AtStage(s.net, t, TimedOut) || AtStage(s.net, t, Taken) {
      RecheckKeeps(s.net, t);
    }
    if AtStage(s.net, t, Finishing) {
      assert PrimOk(s, Th(s.net, t).wait.q);
      match Th(s.net, t).wait.q
      case MutexQ(m) => MP.EpilogueKeeps(s.net, m, Mx(s, m), t);
      case ReaderQ(r) => RP.ReadEpilogueKeeps(s.net, r, Rw(s, r), t);
      case WriterQ(r) => RP.WriteEpilogueKeeps(s.net, r, Rw(s, r), t);
      case _ =>
    }
  }
}
