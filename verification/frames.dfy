/** What a step leaves alone: every primitive but the one it works on. */
module Frames {
  import opened Base
  import opened Blocking
  import opened System

  /** A queue of the primitive whose record a step can change, if it can change one. */
  function ObjectOf(s: State, t: Tid, a: Action): Option<Qid> {
    match a
    case Lock(m, _, _) => Some(MutexQ(m))
    case TryLock(m) => Some(MutexQ(m))
    case Unlock(m) => Some(MutexQ(m))
    case Transfer(m, _) => Some(MutexQ(m))
    case Read(r, _, _) => Some(ReaderQ(r))
    case Write(r, _, _) => Some(WriterQ(r))
    case TryRead(r) => Some(ReaderQ(r))
    case TryWrite(r) => Some(WriterQ(r))
    case RwUnlock(r) => Some(ReaderQ(r))
    case Down(i, _, _) => Some(SemQ(i))
    case TryDown(i) => Some(SemQ(i))
    case Post(i) => Some(SemQ(i))
    case BarrierWait(b) => Some(BarrierQ(b))
    case Finish => WaitedOn(s, t)
    case GiveUp => WaitedOn(s, t)
    case Advance => if PcOf(s, t).CHook? then WaitedOn(s, PcOf(s, t).p) else None
    case _ => None
  }

  function WaitedOn(s: State, t: Tid): Option<Qid> {
    if Th(s.net, t).wait.In? then Some(Th(s.net, t).wait.q) else None
  }

  /** All primitives but the one that owns the queue `o` have the same record. */
  ghost predicate SameBut(s: State, s': State, o: Option<Qid>) {
    && (forall m {:trigger Mx(s', m)} :: o != Some(MutexQ(m)) ==> Mx(s', m) == Mx(s, m))
    && (forall r {:trigger Rw(s', r)} :: o != Some(ReaderQ(r)) && o != Some(WriterQ(r)) ==> Rw(s', r) == Rw(s, r))
    && (forall i {:trigger Se(s', i)} :: o != Some(SemQ(i)) ==> Se(s', i) == Se(s, i))
    && (forall b {:trigger Ba(s', b)} :: o != Some(BarrierQ(b)) ==> Ba(s', b) == Ba(s, b))
  }

  /** Ending a wait, one way or the other, moves no queue and touches no other primitive. */
  lemma FinishFrame(s: State, t: Tid)
    requires CanFinish(s, t)
    ensures SameBut(s, DoFinish(s, t), WaitedOn(s, t))
  {
  }

  lemma GiveUpFrame(s: State, t: Tid)
    requires CanGiveUp(s, t)
    ensures SameBut(s, DoGiveUp(s, t), WaitedOn(s, t))
  {
  }

  lemma EndingMovesNoQueue(s: State, t: Tid, q: Qid)
    ensures CanFinish(s, t) ==> Qu(DoFinish(s, t).net, q) == Qu(s.net, q)
    ensures CanGiveUp(s, t) ==> Qu(DoGiveUp(s, t).net, q) == Qu(s.net, q)
  {
  }

  lemma AdvanceFrame(s: State, t: Tid)
    requires CanAdvance(s, t)
    ensures SameBut(s, DoAdvance(s, t), ObjectOf(s, t, Advance))
  {
    if PcOf(s, t).CHook? { HookFrame(s, t, PcOf(s, t).p); }
  }

  lemma HookFrame(s: State, t: Tid, p: Tid)
    ensures SameBut(s, DoHook(s, t, p), WaitedOn(s, p))
  {
  }

  lemma MutexCallFrame(s: State, t: Tid, a: Action)
    requires Enabled(s, t, a) && (a.Lock? || a.TryLock? || a.Unlock? || a.Transfer?)
    ensures SameBut(s, Apply(s, t, a), Some(MutexQ(a.m)))
  {
  }

  lemma RwEnterFrame(s: State, t: Tid, a: Action)
    requires Enabled(s, t, a) && (a.Read? || a.Write?)
    ensures SameBut(s, Apply(s, t, a), Some(ReaderQ(a.r))) && SameBut(s, Apply(s, t, a), Some(WriterQ(a.r)))
  {
  }

  lemma RwCallFrame(s: State, t: Tid, a: Action)
    requires Enabled(s, t, a) && (a.Read? || a.Write? || a.TryRead? || a.TryWrite? || a.RwUnlock?)
    ensures SameBut(s, Apply(s, t, a), Some(ReaderQ(a.r))) && SameBut(s, Apply(s, t, a), Some(WriterQ(a.r)))
  {
    if a.Read? || a.Write? { RwEnterFrame(s, t, a); }
  }

  lemma CountingCallFrame(s: State, t: Tid, a: Action)
    requires Enabled(s, t, a) && (a.Down? || a.TryDown? || a.Post? || a.BarrierWait?)
    ensures SameBut(s, Apply(s, t, a), ObjectOf(s, t, a))
  {
  }

  lemma PortFrame(s: State, t: Tid, a: Action)
    requires Enabled(s, t, a) && (a.Send? || a.Receive? || a.TimeOut? || a.Recheck?)
    ensures SameBut(s, Apply(s, t, a), None)
  {
  }

  lemma SignalFrame(s: State, t: Tid, c: nat)
    requires Enabled(s, t, Signal(c))
    ensures SameBut(s, Apply(s, t, Signal(c)), None)
  {
  }

  lemma BroadcastFrame(s: State, t: Tid, c: nat)
    requires Enabled(s, t, Broadcast(c))
    ensures SameBut(s, Apply(s, t, Broadcast(c)), None)
  {
  }

  lemma StartFrame(s: State, t: Tid, a: Action)
    requires Enabled(s, t, a) && (a.CondWait? || a.CancelThread? || a.Set?)
    ensures Apply(s, t, a) == s.(pcs := Apply(s, t, a).pcs)
  {
  }

  /** No step changes a primitive it does not work on. */
  lemma OthersUntouched(s: State, t: Tid, a: Action)
    requires Enabled(s, t, a)
    ensures SameBut(s, Apply(s, t, a), ObjectOf(s, t, a))
  {
    if a.Finish? {
      FinishFrame(s, t);
    } else if a.GiveUp? {
      GiveUpFrame(s, t);
    } else if a.Advance? {
      AdvanceFrame(s, t);
    } else if a.Lock? || a.TryLock? || a.Unlock? || a.Transfer? {
      MutexCallFrame(s, t, a);
    } else if a.Read? || a.Write? || a.TryRead? || a.TryWrite? || a.RwUnlock? {
      RwCallFrame(s, t, a);
    } else if a.Down? || a.TryDown? || a.Post? || a.BarrierWait? {
      CountingCallFrame(s, t, a);
    } else if a.Send? || a.Receive? || a.TimeOut? || a.Recheck? {
      PortFrame(s, t, a);
    } else if a.Signal? {
      SignalFrame(s, t, a.c);
    } else if a.Broadcast? {
      BroadcastFrame(s, t, a.c);
    } else {
      StartFrame(s, t, a);
    }
  }

  // ---------------------------------------------------------------- waits

  /** The wait a step may begin: on which queue, and whether with a deadline. */
  function Begins(s: State, t: Tid, a: Action): Option<(Qid, bool)> {
    match a
    case Lock(m, timed, _) => Some((MutexQ(m), timed))
    case Read(r, timed, _) => Some((ReaderQ(r), timed))
    case Write(r, timed, _) => Some((WriterQ(r), timed))
    case Down(i, timed, _) => Some((SemQ(i), timed))
    case BarrierWait(b) => Some((BarrierQ(b), false))
    case Advance => if PcOf(s, t).WHook? then Some((CondQ(PcOf(s, t).c), PcOf(s, t).timed)) else None
    case _ => None
  }

  /** `u` waits as before, or no longer, or has begun to. */
  predicate WaitMoves(w: Wait, w': Wait, begun: Option<(Qid, bool)>) {
    w'.In? ==> (w.In? && w'.q == w.q && w'.timed == w.timed) || begun == Some((w'.q, w'.timed))
  }

  lemma PortWaits(s: State, t: Tid, a: Action, u: Tid)
    requires Enabled(s, t, a) && (a.Send? || a.Receive? || a.TimeOut? || a.Recheck? || a.Finish? || a.GiveUp?)
    ensures WaitMoves(Th(s.net, u).wait, Th(Apply(s, t, a).net, u).wait, None)
  {
  }

  lemma QueueingWaits(s: State, t: Tid, a: Action, u: Tid)
    requires Enabled(s, t, a) && (a.Lock? || a.Read? || a.Write? || a.Down? || a.BarrierWait?)
    ensures WaitMoves(Th(s.net, u).wait, Th(Apply(s, t, a).net, u).wait, if u == t then Begins(s, t, a) else None)
  {
  }

  lemma UnlockingWaits(s: State, t: Tid, a: Action, u: Tid)
    requires Enabled(s, t, a) && (a.Unlock? || a.RwUnlock? || a.Post?)
    ensures Th(Apply(s, t, a).net, u).wait == Th(s.net, u).wait
  {
  }

  lemma SignallingWaits(s: State, t: Tid, a: Action, u: Tid)
    requires Enabled(s, t, a) && (a.Signal? || a.Broadcast?)
    ensures Th(Apply(s, t, a).net, u).wait == Th(s.net, u).wait
  {
  }

  lemma ArmingWaits(s: State, t: Tid, u: Tid)
    requires Enabled(s, t, Advance) && PcOf(s, t).WHook?
    ensures WaitMoves(Th(s.net, u).wait, Th(DoAdvance(s, t).net, u).wait, if u == t then Begins(s, t, Advance) else None)
  {
  }

  lemma AdvancingWaits(s: State, t: Tid, u: Tid)
    requires CanAdvance(s, t) && !PcOf(s, t).WHook?
    ensures Th(DoAdvance(s, t).net, u).wait == Th(s.net, u).wait
  {
  }

  lemma OtherWaits(s: State, t: Tid, a: Action)
    requires Enabled(s, t, a)
    requires a.TryLock? || a.Transfer? || a.TryRead? || a.TryWrite? || a.TryDown? || a.CondWait? || a.CancelThread? || a.Set?
    ensures Apply(s, t, a).net == s.net
  {
  }

  /** Only a thread itself begins to wait, and only by a call that can. */
  lemma WaitFrame(s: State, t: Tid, a: Action, u: Tid)
    requires Enabled(s, t, a)
    ensures WaitMoves(Th(s.net, u).wait, Th(Apply(s, t, a).net, u).wait, if u == t then Begins(s, t, a) else None)
  {
    if a.Send? || a.Receive? || a.TimeOut? || a.Recheck? || a.Finish? || a.GiveUp? {
      PortWaits(s, t, a, u);
    } else if a.Lock? || a.Read? || a.Write? || a.Down? || a.BarrierWait? {
      QueueingWaits(s, t, a, u);
    } else if a.Unlock? || a.RwUnlock? || a.Post? {
      UnlockingWaits(s, t, a, u);
    } else if a.Signal? || a.Broadcast? {
      SignallingWaits(s, t, a, u);
    } else if a.Advance? {
      if PcOf(s, t).WHook? { ArmingWaits(s, t, u); } else { AdvancingWaits(s, t, u); }
    } else {
      OtherWaits(s, t, a);
    }
  }
}
