/** Calls that return with the spin lock of their primitive still taken: which they are, and that it stays so. */
module LeakResults {
  import opened Base
  import opened Blocking
  import opened System
  import opened Theorems
  import opened Frames
  import M = Mutex
  import MP = MutexProtocol
  import RP = RwLockProtocol
  import SP = SemaphoreProtocol
  import BP = BarrierProtocol
  import T = TimeoutResults

  /** A call that leaks the spin lock of the primitive that owns `q`: with a deadline whose nanoseconds are out
      of range, when it finds the primitive busy; or on a barrier with a count of one. */
  predicate Leaks(s: State, e: Event, q: Qid) {
    match q
    case MutexQ(m) =>
      e.a == Lock(m, true, false) && Mx(s, m).v.held && (Mx(s, m).v.kind == M.Normal || Mx(s, m).v.owner != Some(e.t))
    case ReaderQ(r) => RwLeaks(s, e, r)
    case WriterQ(r) => RwLeaks(s, e, r)
    case SemQ(i) => e.a == Down(i, true, false) && Se(s, i).v.value == 0
    case BarrierQ(b) => e.a == BarrierWait(b) && Ba(s, b).v.count == 1
    case CondQ(_) => false
  }

  predicate RwLeaks(s: State, e: Event, r: nat) {
    || (e.a == Read(r, true, false) && Rw(s, r).v.held && Rw(s, r).v.readers == 0)
    || (e.a == Write(r, true, false) && Rw(s, r).v.held)
  }

  // ---------------------------------------------------------------- sections

  lemma MutexLeaks(g: Net, m: Mid, x: MP.Rec, t: Tid)
    ensures forall timed, valid :: MP.Lock(g, m, x, t, timed, valid).1.v.lock <==>
      x.v.lock || (timed && !valid && x.v.held && (x.v.kind == M.Normal || x.v.owner != Some(t)))
    ensures MP.TryLock(x, t).0.v.lock == x.v.lock && MP.Unlock(g, m, x, t).1.v.lock == x.v.lock
    ensures forall to :: MP.Transfer(x, t, to).0.v.lock == x.v.lock
  {
  }

  lemma RwLeaksIff(g: Net, r: nat, x: RP.Rec, t: Tid)
    ensures forall timed, valid :: RP.Read(g, r, x, t, timed, valid).1.v.lock <==>
      x.v.lock || (timed && !valid && x.v.held && x.v.readers == 0)
    ensures forall timed, valid :: RP.Write(g, r, x, t, timed, valid).1.v.lock <==> x.v.lock || (timed && !valid && x.v.held)
    ensures RP.TryRead(x, t).0.v.lock == x.v.lock && RP.TryWrite(x, t).0.v.lock == x.v.lock
    ensures RP.Unlock(g, r, x, t).1.v.lock == x.v.lock
  {
  }

  lemma SemLeaksIff(g: Net, i: nat, x: SP.Rec, t: Tid)
    ensures forall timed, valid :: SP.Down(g, i, x, t, timed, valid).1.v.lock <==>
      x.v.lock || (timed && !valid && x.v.value == 0)
    ensures SP.TryDown(x).0.v.lock == x.v.lock && SP.Post(g, i, x, t).1.v.lock == x.v.lock
  {
  }

  lemma BarrierLeaksIff(g: Net, b: nat, x: BP.Rec, t: Tid)
    requires BP.Inv(g, b, x)
    ensures BP.Enter(g, b, x, t).1.v.lock <==> x.v.lock || x.v.count == 1
  {
  }

  // ---------------------------------------------------------------- steps

  lemma MutexCallLeaks(s: State, t: Tid, a: Action, q: Qid)
    requires Enabled(s, t, a) && (a.Lock? || a.TryLock? || a.Unlock? || a.Transfer?)
    ensures Wedged(Apply(s, t, a), q) <==> Wedged(s, q) || Leaks(s, Event(t, a), q)
  {
    MutexCallFrame(s, t, a);
    if q == MutexQ(a.m) { MutexLeaks(s.net, a.m, Mx(s, a.m), t); }
  }

  lemma RwEnterLeaks(s: State, t: Tid, a: Action)
    requires Enabled(s, t, a) && (a.Read? || a.Write?)
    ensures Rw(Apply(s, t, a), a.r).v.lock <==> Rw(s, a.r).v.lock || RwLeaks(s, Event(t, a), a.r)
  {
    RwLeaksIff(s.net, a.r, Rw(s, a.r), t);
  }

  lemma RwOtherLeaks(s: State, t: Tid, a: Action)
    requires Enabled(s, t, a) && (a.TryRead? || a.TryWrite? || a.RwUnlock?)
    ensures Rw(Apply(s, t, a), a.r).v.lock == Rw(s, a.r).v.lock
  {
    RwLeaksIff(s.net, a.r, Rw(s, a.r), t);
  }

  lemma RwCallLeaks(s: State, t: Tid, a: Action, q: Qid)
    requires Enabled(s, t, a) && (a.Read? || a.Write? || a.TryRead? || a.TryWrite? || a.RwUnlock?)
    ensures Wedged(Apply(s, t, a), q) <==> Wedged(s, q) || Leaks(s, Event(t, a), q)
  {
    RwCallFrame(s, t, a);
    if a.Read? || a.Write? { RwEnterLeaks(s, t, a); } else { RwOtherLeaks(s, t, a); }
    RwWedge(s, Apply(s, t, a), Event(t, a), a.r, q);
  }

  lemma RwWedge(s: State, s': State, e: Event, r: nat, q: Qid)
    requires SameBut(s, s', Some(ReaderQ(r))) && (Rw(s', r).v.lock <==> Rw(s, r).v.lock || RwLeaks(s, e, r))
    requires (e.a.Read? || e.a.Write? || e.a.TryRead? || e.a.TryWrite? || e.a.RwUnlock?) && e.a.r == r
    ensures Wedged(s', q) <==> Wedged(s, q) || Leaks(s, e, q)
  {
  }

  lemma SemCallLeaks(s: State, t: Tid, a: Action, q: Qid)
    requires Enabled(s, t, a) && (a.Down? || a.TryDown? || a.Post?)
    ensures Wedged(Apply(s, t, a), q) <==> Wedged(s, q) || Leaks(s, Event(t, a), q)
  {
    CountingCallFrame(s, t, a);
    if q == SemQ(a.i) { SemLeaksIff(s.net, a.i, Se(s, a.i), t); }
  }

  lemma BarrierCallLeaks(s: State, t: Tid, a: Action, q: Qid)
    requires Inv(s) && Enabled(s, t, a) && a.BarrierWait?
    ensures Wedged(Apply(s, t, a), q) <==> Wedged(s, q) || Leaks(s, Event(t, a), q)
  {
    CountingCallFrame(s, t, a);
    assert BP.Inv(s.net, a.b, Ba(s, a.b)) by { assert PrimOk(s, BarrierQ(a.b)); }
    if q == BarrierQ(a.b) { BarrierLeaksIff(s.net, a.b, Ba(s, a.b), t); }
  }

  lemma PlainLeaksNothing(s: State, t: Tid, a: Action, q: Qid)
    requires Enabled(s, t, a) && ObjectOf(s, t, a) == None && !a.Advance?
    ensures Wedged(Apply(s, t, a), q) == Wedged(s, q)
  {
    OthersUntouched(s, t, a);
    SameWedge(s, Apply(s, t, a), q);
  }

  lemma SameWedge(s: State, s': State, q: Qid)
    requires SameBut(s, s', None)
    ensures Wedged(s', q) == Wedged(s, q)
  {
  }

  lemma FinishLeaksNothing(s: State, t: Tid, q: Qid)
    requires CanFinish(s, t)
    ensures Wedged(DoFinish(s, t), q) == Wedged(s, q)
  {
    FinishFrame(s, t);
  }

  lemma GiveUpLeaksNothing(s: State, t: Tid, q: Qid)
    requires CanGiveUp(s, t)
    ensures Wedged(DoGiveUp(s, t), q) == Wedged(s, q)
  {
    GiveUpFrame(s, t);
  }

  lemma AdvanceLeaksNothing(s: State, t: Tid, q: Qid)
    requires CanAdvance(s, t)
    ensures Wedged(DoAdvance(s, t), q) == Wedged(s, q)
  {
    if PcOf(s, t).CHook? { HookLeaksNothing(s, t, PcOf(s, t).p, q); }
  }

  lemma HookLeaksNothing(s: State, t: Tid, p: Tid, q: Qid)
    ensures Wedged(DoHook(s, t, p), q) == Wedged(s, q)
  {
  }

  /** A step leaves a spin lock taken exactly if it was, or if it is a call that leaks it. */
  lemma LeaksIff(s: State, t: Tid, a: Action, q: Qid)
    requires Inv(s) && Enabled(s, t, a)
    ensures Wedged(Apply(s, t, a), q) <==> Wedged(s, q) || Leaks(s, Event(t, a), q)
  {
    if a.Finish? {
      FinishLeaksNothing(s, t, q);
    } else if a.GiveUp? {
      GiveUpLeaksNothing(s, t, q);
    } else if a.Advance? {
      AdvanceLeaksNothing(s, t, q);
    } else if a.Lock? || a.TryLock? || a.Unlock? || a.Transfer? {
      MutexCallLeaks(s, t, a, q);
    } else if a.Read? || a.Write? || a.TryRead? || a.TryWrite? || a.RwUnlock? {
      RwCallLeaks(s, t, a, q);
    } else if a.Down? || a.TryDown? || a.Post? {
      SemCallLeaks(s, t, a, q);
    } else if a.BarrierWait? {
      BarrierCallLeaks(s, t, a, q);
    } else {
      PlainLeaksNothing(s, t, a, q);
    }
  }

  // ---------------------------------------------------------------- runs

  /** In a run the spin lock of a primitive is found taken for good exactly if some earlier call leaked it. */
  lemma WedgedIff(states: seq<State>, events: seq<Event>, j: nat, q: Qid)
    requires IsRun(states, events) && j < |states|
    ensures Wedged(states[j], q) <==> exists i :: 0 <= i < j && Leaks(states[i], events[i], q)
  {
    var p := (s: State) => Wedged(s, q);
    forall s, t, a | Reachable(s) && Enabled(s, t, a) ensures p(Apply(s, t, a)) <==> p(s) || Leaks(s, Event(t, a), q) {
      ReachableHolds(s);
      LeaksIff(s, t, a, q);
    }
    HistoryIff(p, (s, e) => Leaks(s, e, q), states, events, j);
  }

  /** A section under the spin lock that owns `q`. */
  predicate Enters(s: State, e: Event, q: Qid) {
    match q
    case MutexQ(m) => e.a == Unlock(m) || e.a == TryLock(m) || (e.a.Lock? && e.a.m == m) || Retakes(s, e, q)
    case ReaderQ(r) => EntersRw(s, e, r)
    case WriterQ(r) => EntersRw(s, e, r)
    case SemQ(i) => e.a == Post(i) || e.a == TryDown(i) || (e.a.Down? && e.a.i == i) || Retakes(s, e, q)
    case BarrierQ(b) => e.a == BarrierWait(b)
    case CondQ(_) => false
  }

  predicate EntersRw(s: State, e: Event, r: nat) {
    || ((e.a.Read? || e.a.Write? || e.a.TryRead? || e.a.TryWrite? || e.a.RwUnlock?) && e.a.r == r)
    || Retakes(s, e, ReaderQ(r)) || Retakes(s, e, WriterQ(r))
  }

  /** After blocking. */
  predicate Retakes(s: State, e: Event, q: Qid) {
    e.a.Recheck? && Waits(s.net, e.t, q)
  }

  /** After a leak no section of that primitive is entered again, by anybody, for the rest of the run. */
  lemma LeakedForever(states: seq<State>, events: seq<Event>, i: nat, j: nat, q: Qid)
    requires IsRun(states, events) && i < j < |events| && Leaks(states[i], events[i], q)
    ensures Wedged(states[j], q) && !Enters(states[j], events[j], q)
  {
    WedgedIff(states, events, j, q);
    assert Step(states[j], events[j], states[j + 1]);
    Barred(states[j], events[j], q);
  }

  lemma Barred(s: State, e: Event, q: Qid)
    requires Wedged(s, q) && Enabled(s, e.t, e.a)
    ensures !Enters(s, e, q)
  {
  }

  /** A call that leaks can be made, in a reachable state. */
  lemma LeakFollows(s: State, e: Event, q: Qid) returns (s': State)
    requires Reachable(s) && Enabled(s, e.t, e.a) && Leaks(s, e, q)
    ensures Reachable(s') && Wedged(s', q)
  {
    ReachableHolds(s);
    LeaksIff(s, e.t, e.a, q);
    ReachableStep(s, e.t, e.a);
    s' := Apply(s, e.t, e.a);
  }

  /** Each of the leaks happens. */
  lemma LeaksHappen(q: Qid)
    requires q in {MutexQ(User(0)), ReaderQ(0), WriterQ(0), SemQ(0), BarrierQ(0)}
    ensures exists s :: Reachable(s) && Wedged(s, q)
  {
    var s := T.Start();
    if q.MutexQ? {
      s := T.MutexTaken(s);
      assert T.Shot(s, T.IDLE, T.IDLE, q, []);
      s := LeakFollows(s, Event(1, Lock(User(0), true, false)), q);
    } else if q.ReaderQ? || q.WriterQ? {
      s := T.RwTaken(s);
      s := LeakFollows(s, Event(1, if q.ReaderQ? then Read(0, true, false) else Write(0, true, false)), q);
    } else if q.SemQ? {
      assert T.Shot(s, T.IDLE, T.IDLE, q, []);
      s := LeakFollows(s, Event(1, Down(0, true, false)), q);
    } else {
      assert T.Shot(s, T.IDLE, T.IDLE, q, []);
      s := LeakFollows(s, Event(1, BarrierWait(0)), q);
    }
  }
}
