/** What the invariant means for callers of read-write locks, semaphores and barriers. */
module CountingResults {
  import opened Base
  import opened Blocking
  import opened System
  import opened Theorems
  import opened Frames
  import RP = RwLockProtocol
  import SP = SemaphoreProtocol
  import BP = BarrierProtocol

  // ---------------------------------------------------------------- read-write locks

  /** One writer or a bag of readers, counting those whose admission is still on its way. */
  lemma RwExclusive(s: State, r: nat, t: Tid, u: Tid)
    requires Reachable(s)
    ensures var x := Rw(s, r);
      var mayWrite := (v: Tid) => x.writer == RP.Writing(v) || Dequeued(s.net, v, WriterQ(r));
      var mayRead := (v: Tid) => v in x.active || Dequeued(s.net, v, ReaderQ(r));
      && (mayWrite(t) ==> !mayRead(u) && (mayWrite(u) ==> t == u) && x.v.held && x.v.readers == 0)
      && (mayRead(t) ==> x.v.held && x.v.readers > 0 && Qu(s.net, ReaderQ(r)) == [])
      && (!x.v.held ==> Qu(s.net, ReaderQ(r)) == [] && Qu(s.net, WriterQ(r)) == [] && x.v.readers == 0)
      && x.v.readers == |x.active| + |x.granted| + x.orphans
  {
    ReachableHolds(s);
    assert RP.Inv(s.net, r, Rw(s, r)) by { assert PrimOk(s, ReaderQ(r)); }
    var x := Rw(s, r);
    RP.AssertionsHold(s.net, r, x);
    forall v | v in x.active ensures x.v.readers > 0 {
      RP.OneHoldLess(x, v);
    }
  }

  lemma OrphanRwSections(g: Net, r: nat, x: RP.Rec, t: Tid)
    requires RP.Inv(g, r, x) && (x.writer.Orphan? || x.orphans > 0)
    ensures forall timed, valid :: KeepsOrphan(x, RP.Read(g, r, x, t, timed, valid).1)
    ensures forall timed, valid :: KeepsOrphan(x, RP.Write(g, r, x, t, timed, valid).1)
    ensures KeepsOrphan(x, RP.TryRead(x, t).0) && KeepsOrphan(x, RP.TryWrite(x, t).0)
    ensures RP.Holds(x, t) ==> KeepsOrphan(x, RP.Unlock(g, r, x, t).1)
    ensures KeepsOrphan(x, RP.ReadEpilogue(g, x, t).1)
    ensures Dequeued(g, t, WriterQ(r)) ==> KeepsOrphan(x, RP.WriteEpilogue(g, x, t).1)
    ensures Th(g, t).port > 0 ==> KeepsOrphan(x, RP.ReadGiveUp(g, x, t).1)
    ensures Th(g, t).port > 0 && Dequeued(g, t, WriterQ(r)) ==> KeepsOrphan(x, RP.WriteGiveUp(g, x, t).1)
  {
    if t in x.active {
      RP.OneHoldLess(x, t);
    }
  }

  predicate KeepsOrphan(x: RP.Rec, y: RP.Rec) {
    (x.writer.Orphan? ==> y.writer.Orphan?) && x.orphans <= y.orphans
  }

  predicate OnRw(o: Option<Qid>, r: nat) {
    o == Some(ReaderQ(r)) || o == Some(WriterQ(r))
  }

  /** No step ends a drained grant. */
  lemma RwOrphanStays(s: State, t: Tid, a: Action, r: nat)
    requires Reachable(s) && Enabled(s, t, a) && (Rw(s, r).writer.Orphan? || Rw(s, r).orphans > 0)
    ensures KeepsOrphan(Rw(s, r), Rw(Apply(s, t, a), r))
  {
    ReachableHolds(s);
    assert RP.Inv(s.net, r, Rw(s, r)) by { assert PrimOk(s, ReaderQ(r)); }
    if !OnRw(ObjectOf(s, t, a), r) {
      OthersUntouched(s, t, a);
    } else if a.Finish? || a.GiveUp? {
      LeavingKeepsOrphan(s, t, a, r);
    } else if a.Advance? {
      HookKeepsRw(s, t, PcOf(s, t).p, r);
    } else {
      CallKeepsOrphan(s, t, a, r);
    }
  }

  lemma HookKeepsRw(s: State, t: Tid, p: Tid, r: nat)
    ensures Rw(DoHook(s, t, p), r) == Rw(s, r)
  {
  }

  lemma CallKeepsOrphan(s: State, t: Tid, a: Action, r: nat)
    requires RP.Inv(s.net, r, Rw(s, r)) && (Rw(s, r).writer.Orphan? || Rw(s, r).orphans > 0)
    requires Enabled(s, t, a) && (a.Read? || a.Write? || a.TryRead? || a.TryWrite? || a.RwUnlock?) && a.r == r
    ensures KeepsOrphan(Rw(s, r), Rw(Apply(s, t, a), r))
  {
    OrphanRwSections(s.net, r, Rw(s, r), t);
  }

  lemma LeavingKeepsOrphan(s: State, t: Tid, a: Action, r: nat)
    requires RP.Inv(s.net, r, Rw(s, r)) && (Rw(s, r).writer.Orphan? || Rw(s, r).orphans > 0)
    requires (a.Finish? && CanFinish(s, t)) || (a.GiveUp? && CanGiveUp(s, t))
    requires OnRw(WaitedOn(s, t), r) && !Queued(s.net, t)
    ensures KeepsOrphan(Rw(s, r), if a.Finish? then Rw(DoFinish(s, t), r) else Rw(DoGiveUp(s, t), r))
  {
    OrphanRwSections(s.net, r, Rw(s, r), t);
  }

  /** So a write grant drained by a timeout shuts everybody out to the end of the run, and a drained read grant
      shuts writers out. */
  lemma RwOrphanForever(states: seq<State>, events: seq<Event>, i: nat, j: nat, r: nat, u: Tid)
    requires IsRun(states, events) && i <= j < |states|
    ensures Rw(states[i], r).writer.Orphan? ==> Rw(states[j], r).writer.Orphan? && !RP.Holds(Rw(states[j], r), u)
    ensures Rw(states[i], r).orphans > 0 ==> Rw(states[j], r).orphans > 0 && Rw(states[j], r).writer.NoWriter?
  {
    var p := (s: State) => Rw(s, r).writer.Orphan?;
    var q := (s: State) => Rw(s, r).orphans > 0;
    forall s, t, a | Reachable(s) && Enabled(s, t, a) && (p(s) || q(s))
      ensures p(s) ==> p(Apply(s, t, a))
      ensures q(s) ==> q(Apply(s, t, a))
    {
      RwOrphanStays(s, t, a, r);
    }
    if p(states[i]) { Permanent(p, states, events, i, j); }
    if q(states[i]) { Permanent(q, states, events, i, j); }
    RunPrefix(states, events, j);
    OrphansShutOut(states[j], r, u);
  }

  /** While a drained write grant is outstanding nobody holds the lock; while a drained read grant is, no writer
      does. */
  lemma OrphansShutOut(s: State, r: nat, u: Tid)
    requires Reachable(s)
    ensures Rw(s, r).writer.Orphan? ==> !RP.Holds(Rw(s, r), u)
    ensures Rw(s, r).orphans > 0 ==> Rw(s, r).writer.NoWriter?
  {
    ReachableHolds(s);
    var x := Rw(s, r);
    assert RP.Inv(s.net, r, x) by { assert PrimOk(s, ReaderQ(r)); }
    if u in x.active { RP.OneHoldLess(x, u); }
  }

  // ---------------------------------------------------------------- semaphores

  /** The ledger balances: units put in are still there, were taken, are on their way to a waiter, or went to
      a wait that gave up.  Nobody waits while there is a unit to take. */
  lemma SemaphoreBalances(s: State, i: nat, inFlight: set<Tid>)
    requires Reachable(s)
    requires forall t :: t in inFlight <==> Dequeued(s.net, t, SemQ(i))
    ensures var x := Se(s, i);
      && x.initial + x.posts == x.v.value + x.waits + |inFlight| + x.drained
      && (x.v.value > 0 ==> forall t :: Waits(s.net, t, SemQ(i)) ==> t in inFlight)
  {
    ReachableHolds(s);
    assert SP.Inv(s.net, i, Se(s, i)) by { assert PrimOk(s, SemQ(i)); }
    assert inFlight == Se(s, i).granted;
  }

  // ---------------------------------------------------------------- barriers

  /** Of the threads of a completed round one got the serial value, and every other has left with zero or is
      on its way out; nobody has left a round that is not complete. */
  lemma BarrierRounds(s: State, b: nat, k: nat, inFlight: set<Tid>)
    requires Reachable(s) && k < |Ba(s, b).past|
    requires forall t :: t in inFlight <==> t in Ba(s, b).ticket && Ba(s, b).ticket[t] == k
    ensures var x := Ba(s, b);
      && |x.past[k].members| == x.v.count
      && x.past[k].serial in x.past[k].members && x.past[k].serial !in x.past[k].zeros
      && |x.past[k].zeros| + |inFlight| == x.v.count - 1
  {
    ReachableHolds(s);
    assert BP.Inv(s.net, b, Ba(s, b)) by { assert PrimOk(s, BarrierQ(b)); }
    BP.RoundsAreExact(s.net, b, Ba(s, b), k, inFlight);
  }

  /** A thread woken from a barrier always belongs to a completed round. */
  lemma BarrierWakesCompletedRounds(s: State, b: nat, t: Tid)
    requires Reachable(s) && Dequeued(s.net, t, BarrierQ(b))
    ensures var x := Ba(s, b);
      t in x.ticket && x.ticket[t] < |x.past| && t in x.past[x.ticket[t]].members && x.past[x.ticket[t]].serial != t
  {
    ReachableHolds(s);
    var x := Ba(s, b);
    assert BP.Inv(s.net, b, x) by { assert PrimOk(s, BarrierQ(b)); }
    assert BP.RoundOk(x, x.ticket[t]);
  }

  /** A thread that has received its wakeup from a barrier finds its round complete: the guard on its return is
      no restriction. */
  lemma WokenMayLeave(s: State, b: nat, t: Tid)
    requires Reachable(s) && Waits(s.net, t, BarrierQ(b)) && AtStage(s.net, t, Taken)
    ensures CanFinish(s, t)
  {
    ReachableHolds(s);
    assert BP.Inv(s.net, b, Ba(s, b)) by { assert PrimOk(s, BarrierQ(b)); }
    BP.LeaveKeeps(s.net, b, Ba(s, b), t);
  }
}
