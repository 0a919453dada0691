/** Nobody gets stuck without a reason: which threads cannot take a step, and what each of them is waiting for. */
module ProgressResults {
  import opened Blocking
  import opened System
  import opened Theorems
  import C = Condition
  import RP = RwLockProtocol
  import R = CountingResults

  // ---------------------------------------------------------------- who cannot take a step

  /** In a receive without a deadline, with nothing to receive. */
  predicate Sleeps(s: State, t: Tid) {
    Receiving(s, t) && !Th(s.net, t).wait.timed && Th(s.net, t).port == 0
  }

  /** Timed out and taken off the queue: it has to drain a message that has not arrived yet. */
  predicate AwaitsDrain(s: State, t: Tid) {
    AtStage(s.net, t, Draining) && Th(s.net, t).port == 0
  }

  /** It has to retake a spin lock that was leaked: that of the queue it waited on, or that of the mutex it brought to
      a condition wait. */
  predicate AwaitsLeaked(s: State, t: Tid) {
    var pc, w := PcOf(s, t), Th(s.net, t).wait;
    || (w.In? && !w.q.BarrierQ? && (w.stage == TimedOut || w.stage == Taken) && Wedged(s, w.q))
    || ((pc.WRelease? || (pc.WRelock? && w.Out?)) && Mx(s, pc.m).v.lock)
  }

  /** It is about to cancel a thread asynchronously, a step that is not part of the model. */
  predicate AboutToKill(s: State, t: Tid) {
    PcOf(s, t).CGot? && Ready(s, t) && C.RequestSection(Cn(s, PcOf(s, t).p)).1 == C.Kernel
  }

  predicate Stuck(s: State, t: Tid) {
    Th(s.net, t).sends == [] && (Sleeps(s, t) || AwaitsDrain(s, t) || AwaitsLeaked(s, t) || AboutToKill(s, t))
  }

  predicate AtBarrier(s: State, t: Tid) {
    Th(s.net, t).wait.In? && Th(s.net, t).wait.q.BarrierQ?
  }

  ghost predicate NoStep(s: State, t: Tid) {
    forall a :: !Enabled(s, t, a)
  }

  // ---------------------------------------------------------------- a step for everybody else

  lemma WaiterGoesOn(s: State, t: Tid) returns (a: Action)
    requires Inv(s) && Th(s.net, t).sends == [] && Th(s.net, t).wait.In? && !Stuck(s, t) && !OnCond(PcOf(s, t)) && !AtBarrier(s, t)
    ensures Enabled(s, t, a)
  {
    assert ThreadOk(s, t);
    match Th(s.net, t).wait.stage
    case Blocking => a := if Th(s.net, t).port > 0 then Receive else Action.TimeOut;
    case TimedOut => a := Action.Recheck;
    case Taken => a := Action.Recheck;
    case Draining => a := Action.GiveUp;
    case Finishing => a := Action.Finish;
  }

  lemma BarrierGoesOn(s: State, t: Tid) returns (a: Action)
    requires Reachable(s) && Th(s.net, t).sends == [] && AtBarrier(s, t) && !Stuck(s, t)
    ensures Enabled(s, t, a)
  {
    ReachableHolds(s);
    assert ThreadOk(s, t);
    if Th(s.net, t).wait.stage == Blocking {
      a := Receive;
    } else {
      a := Action.Finish;
      R.WokenMayLeave(s, Th(s.net, t).wait.q.b, t);
    }
  }

  lemma CondWaiterGoesOn(s: State, t: Tid) returns (a: Action)
    requires Inv(s) && Th(s.net, t).sends == [] && !Stuck(s, t) && OnCond(PcOf(s, t))
    ensures Enabled(s, t, a)
  {
    assert ThreadOk(s, t);
    if PcOf(s, t).WArmed? {
      a := Unlock(CancelLock(t));
    } else if PcOf(s, t).WRelease? {
      a := Unlock(PcOf(s, t).m);
    } else {
      match Th(s.net, t).wait.stage
      case Blocking => a := if Th(s.net, t).port > 0 then Receive else Action.TimeOut;
      case TimedOut => a := Action.Recheck;
      case Taken => a := Action.Recheck;
      case Draining => a := Action.GiveUp;
      case Finishing => a := Action.Finish;
    }
  }

  lemma OtherGoesOn(s: State, t: Tid) returns (a: Action)
    requires Inv(s) && Ready(s, t) && !Stuck(s, t)
    ensures Enabled(s, t, a)
  {
    assert ThreadOk(s, t);
    var pc := PcOf(s, t);
    if pc.Run? {
      a := Signal(0);
    } else if Wants(pc, t).Some? {
      a := Lock(Wants(pc, t).value, false, true);
      LocksAreFree(s, t);
    } else if Releases(pc, t).Some? {
      a := Unlock(Releases(pc, t).value);
      LocksAreFree(s, t);
    } else {
      a := Advance;
    }
  }

  /** No spin lock of a `cancel_lock` is ever leaked. */
  lemma LocksAreFree(s: State, t: Tid)
    requires Inv(s)
    ensures forall p :: !Mx(s, CancelLock(p)).v.lock
  {
    forall p ensures !Mx(s, CancelLock(p)).v.lock {
      assert ThreadOk(s, p);
    }
  }

  lemma GoesOn(s: State, t: Tid) returns (a: Action)
    requires Reachable(s) && !Stuck(s, t)
    ensures Enabled(s, t, a)
  {
    ReachableHolds(s);
    if Th(s.net, t).sends != [] {
      a := Action.Send;
    } else if AtBarrier(s, t) {
      a := BarrierGoesOn(s, t);
    } else if OnCond(PcOf(s, t)) {
      a := CondWaiterGoesOn(s, t);
    } else if Th(s.net, t).wait.In? {
      a := WaiterGoesOn(s, t);
    } else {
      a := OtherGoesOn(s, t);
    }
  }

  lemma WaiterIsStuck(s: State, t: Tid, a: Action)
    requires Inv(s) && Th(s.net, t).sends == [] && (Sleeps(s, t) || AwaitsDrain(s, t))
    ensures !Enabled(s, t, a)
  {
    assert ThreadOk(s, t);
  }

  lemma NeedsLeaked(s: State, t: Tid, a: Action)
    requires Inv(s) && Th(s.net, t).sends == [] && AwaitsLeaked(s, t)
    ensures !Enabled(s, t, a)
  {
    assert ThreadOk(s, t);
  }

  lemma StuckStays(s: State, t: Tid, a: Action)
    requires Reachable(s) && Stuck(s, t)
    ensures !Enabled(s, t, a)
  {
    ReachableHolds(s);
    if Sleeps(s, t) || AwaitsDrain(s, t) {
      WaiterIsStuck(s, t, a);
    } else if AwaitsLeaked(s, t) {
      NeedsLeaked(s, t, a);
    }
  }

  /** A thread has no step left exactly if it sleeps, has to drain a message that is still to come, needs a spin lock
      that was leaked, or is about to kill another: no call gets stuck anywhere else. */
  lemma StuckIff(s: State, t: Tid)
    requires Reachable(s)
    ensures NoStep(s, t) <==> Stuck(s, t)
  {
    if Stuck(s, t) {
      forall a ensures !Enabled(s, t, a) {
        StuckStays(s, t, a);
      }
    } else {
      var a := GoesOn(s, t);
    }
  }

  // ---------------------------------------------------------------- what they wait for

  /** What `t` waits for is not to be had, and it stands in the queue for it. */
  predicate HasReason(s: State, t: Tid)
    requires Th(s.net, t).wait.In?
  {
    var q := Th(s.net, t).wait.q;
    && t in Qu(s.net, q)
    && match q
       case MutexQ(m) => Mx(s, m).v.held && (!Mx(s, m).breached ==> !Mx(s, m).holder.Free?)
       case ReaderQ(r) => !Rw(s, r).writer.NoWriter?
       case WriterQ(r) => !Rw(s, r).writer.NoWriter? || !RP.NobodyReads(Rw(s, r))
       case SemQ(i) => Se(s, i).v.value == 0
       case CondQ(c) => PcOf(s, t).WBlock? && PcOf(s, t).c == c
       case BarrierQ(b) => Ba(s, b).v.pending > 0 && |Qu(s.net, q)| < Ba(s, b).v.count
  }

  /** `w` owes `t` a wakeup, and can send it. */
  predicate Owes(s: State, w: Tid, t: Tid) {
    t in Th(s.net, w).sends && Enabled(s, w, Action.Send)
  }

  lemma OffTheQueueIsOwed(s: State, t: Tid)
    requires Reachable(s) && Owed(s.net, t) && Th(s.net, t).port == 0 && !Queued(s.net, t)
    ensures exists w :: Owes(s, w, t)
  {
    ReachableHolds(s);
    assert Th(s.net, t).place.OwedBy?;
    assert Owes(s, Th(s.net, t).place.w, t);
  }

  lemma QueuedHasReason(s: State, t: Tid)
    requires Reachable(s) && Sleeps(s, t) && Queued(s.net, t)
    ensures HasReason(s, t)
  {
    ReachableHolds(s);
    assert ThreadOk(s, t);
    assert PrimOk(s, Th(s.net, t).wait.q);
  }

  /** A thread sleeps only in the queue for something it cannot have yet, or with a wakeup on its way from a thread
      that is free to send it: no wakeup is lost, and nobody waits for what is there to be had. */
  lemma NobodySleepsInVain(s: State, t: Tid)
    requires Reachable(s) && Sleeps(s, t)
    ensures HasReason(s, t) || exists w :: Owes(s, w, t)
  {
    if Queued(s.net, t) {
      QueuedHasReason(s, t);
    } else {
      OffTheQueueIsOwed(s, t);
    }
  }

  /** A thread that has to drain a message always has one on its way. */
  lemma DrainIsOwed(s: State, t: Tid)
    requires Reachable(s) && AwaitsDrain(s, t)
    ensures exists w :: Owes(s, w, t)
  {
    ReachableHolds(s);
    OffTheQueueIsOwed(s, t);
  }
}
