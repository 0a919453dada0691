/** One mutex among any number of threads: its sections interleaved with blocking, wakeups and timeouts.
    It refines a single-owner lock with direct handoff. */
module MutexProtocol {
  import opened Base
  import opened Blocking
  import M = Mutex

  /** The abstract lock.  `Granted`: handed over, the new owner has not run yet.
      `Orphan`: handed to a thread whose timed lock gave up and returned ETIMEDOUT all the same. */
  datatype Holder = Free | Held(t: Tid, depth: nat) | Granted(t: Tid) | Orphan(t: Tid)

  /** All but `v` is history: no section reads it.  `tainted`: some grant was orphaned.  `breached`: a waiter was
      taken off the queue by a cancellation hook, which does not look whose queue it is. */
  datatype Rec = Rec(v: M.Val<Tid>, holder: Holder, tainted: bool, breached: bool)

  function Fresh(kind: M.Kind): Rec {
    Rec(M.Fresh(kind), Free, false, false)
  }

  function OwnerOf(h: Holder): Option<Tid> {
    if h.Free? then None else Some(h.t)
  }

  predicate IsHeldBy(x: Rec, t: Tid) {
    x.holder.Held? && x.holder.t == t
  }

  /** Held by `t`, or wrongly left with `t` after its timed lock gave up. */
  predicate Owns(x: Rec, t: Tid) {
    IsHeldBy(x, t) || x.holder == Orphan(t)
  }

  /** What is left of the invariant once a hook has let a second thread in: `holder` says nothing any more. */
  ghost predicate Loose(g: Net, m: Mid, x: Rec) {
    && m.CancelLock? && x.v.kind == M.Normal && x.v.owner == None && x.v.locks == 0 && !x.tainted
    && (!x.v.held ==> Qu(g, MutexQ(m)) == [])
  }

  ghost predicate Inv(g: Net, m: Mid, x: Rec) {
    if x.breached then Loose(g, m, x) else Strict(g, m, x)
  }

  ghost predicate Strict(g: Net, m: Mid, x: Rec) {
    && (x.v.held <==> !x.holder.Free?)
    && (!x.v.held ==> Qu(g, MutexQ(m)) == [])
    && (forall t :: Dequeued(g, t, MutexQ(m)) <==> x.holder == Granted(t))
    && x.v.owner == (if x.v.kind == M.Normal then None else OwnerOf(x.holder))
    && (x.v.kind != M.Recursive || x.holder.Free? || x.holder.Granted? ==> x.v.locks == 0)
    && (x.holder.Orphan? ==> x.tainted)
    && (x.holder.Held? ==> x.holder.depth > 0 && (x.v.kind != M.Recursive ==> x.holder.depth == 1))
    && (x.holder.Held? && x.v.kind == M.Recursive && !x.tainted ==> x.v.locks == x.holder.depth)
  }

  /** What another thread has is out of `t`'s reach. */
  predicate Respects(x: Rec, x': Rec, t: Tid) {
    x'.breached == x.breached &&
    (!x.breached && (x.holder.Held? || x.holder.Orphan?) && x.holder.t != t ==> x'.holder == x.holder)
  }

  lemma Frame(g: Net, g': Net, m: Mid, x: Rec)
    requires Inv(g, m, x) && SameGrants(g, g', MutexQ(m))
    ensures Inv(g', m, x)
  {
  }

  // ---------------------------------------------------------------- steps

  function AfterLock(h: Holder, t: Tid): Holder {
    if h.Held? && h.t == t then Held(t, h.depth + 1) else Held(t, 1)
  }

  function Lock(g: Net, m: Mid, x: Rec, t: Tid, timed: bool, valid: bool): (Net, Rec, M.LockResult) {
    var (v, q, r) := M.LockSection(x.v, Qu(g, MutexQ(m)), t, valid || !timed);
    match r
    case Acquired => (g, x.(v := v, holder := AfterLock(x.holder, t)), r)
    case MustWait => (Enqueue(g, t, MutexQ(m), timed), x.(v := v), r)
    case _ => (g, x.(v := v), r)
  }

  function TryLock(x: Rec, t: Tid): (Rec, bool) {
    var (v, ok) := M.TrySection(x.v, t);
    (if ok then x.(v := v, holder := AfterLock(x.holder, t)) else x.(v := v), ok)
  }

  function AfterNestedUnlock(h: Holder): Holder {
    if h.Held? && h.depth > 1 then Held(h.t, h.depth - 1) else if h.Held? then Orphan(h.t) else h
  }

  function Unlock(g: Net, m: Mid, x: Rec, t: Tid): (Net, Rec, M.UnlockResult<Tid>) {
    var (v, q, r) := M.UnlockSection(x.v, Qu(g, MutexQ(m)), t);
    match r
    case NotOwner => (g, x.(v := v), r)
    case StillLocked => (g, x.(v := v, holder := AfterNestedUnlock(x.holder)), r)
    case Released => (g, x.(v := v, holder := Free), r)
    case HandedTo(w) => (TakeOff(g, t, w, MutexQ(m)), x.(v := v, holder := Granted(w)), r)
  }

  function Transfer(x: Rec, t: Tid, to: Option<Tid>): (Rec, bool) {
    var (v, ok) := M.TransferSection(x.v, t, to);
    (if v == x.v then x
     else x.(v := v, holder := if x.holder.Held? then Held(v.owner.value, x.holder.depth) else Orphan(v.owner.value)), ok)
  }

  function Epilogue(g: Net, x: Rec, t: Tid): (Net, Rec) {
    (Finish(g, t), x.(v := M.EpilogueSection(x.v, t), holder := Held(t, 1)))
  }

  function GiveUp(g: Net, x: Rec, t: Tid): (Net, Rec)
    requires Th(g, t).port > 0
  {
    (Drain(g, t), x.(holder := Orphan(t), tainted := true))
  }

  /** A cancellation hook takes a waiter off this queue. */
  function Snatch(g: Net, m: Mid, x: Rec, w: Tid, t: Tid): (Net, Rec) {
    (TakeOff(g, w, t, MutexQ(m)), x.(breached := true))
  }

  // ---------------------------------------------------------------- preservation

  lemma LockKeeps(g: Net, m: Mid, x: Rec, t: Tid, timed: bool, valid: bool)
    requires NetInv(g) && Inv(g, m, x) && Th(g, t).wait.Out?
    ensures var (g', x', r) := Lock(g, m, x, t, timed, valid);
      && NetStep(g, g', t, MutexQ(m)) && Inv(g', m, x') && Respects(x, x', t)
      && (r == M.MustWait && x.v.kind != M.Normal ==> x.v.owner.Some?)
  {
    NothingMoved(g, t, MutexQ(m));
    QueuedUp(g, t, MutexQ(m), timed);
  }

  /** The outcomes of a lock section: `t` has the mutex, or nothing changed hands. */
  lemma LockOutcome(g: Net, m: Mid, x: Rec, t: Tid, timed: bool, valid: bool)
    requires NetInv(g) && Inv(g, m, x) && Th(g, t).wait.Out?
    ensures var (g', x', r) := Lock(g, m, x, t, timed, valid);
      && (r == M.Acquired || r == M.Deadlock ==> g' == g && (!x.breached ==> Owns(x', t)))
      && (r == M.MustWait ==> Th(g', t).wait == In(MutexQ(m), timed, Stage.Blocking))
      && (r != M.Acquired ==> x'.holder == x.holder && (Th(g', t).wait.Out? <==> r != M.MustWait))
  {
    if x.holder.Granted? && !x.breached {
      assert Dequeued(g, x.holder.t, MutexQ(m));
    }
  }

  /** When a lock section succeeds, refuses and waits, in terms of the abstract lock alone. */
  lemma LockAcquiresIff(g: Net, m: Mid, x: Rec, t: Tid, timed: bool, valid: bool)
    requires Inv(g, m, x) && !x.breached
    ensures var r := Lock(g, m, x, t, timed, valid).2;
      && (r == M.Acquired <==> x.holder.Free? || (x.v.kind == M.Recursive && OwnerOf(x.holder) == Some(t)))
      && (r == M.Deadlock <==> x.v.kind == M.ErrorCheck && OwnerOf(x.holder) == Some(t))
      && (TryLock(x, t).1 <==> r == M.Acquired)
  {
  }

  /** When an unlock succeeds, in terms of the abstract lock alone; a normal mutex does not check. */
  lemma UnlockRefusesIff(g: Net, m: Mid, x: Rec, t: Tid)
    requires Inv(g, m, x) && !x.breached
    ensures var r := Unlock(g, m, x, t).2;
      && (r == M.NotOwner <==> x.v.kind != M.Normal && OwnerOf(x.holder) != Some(t))
      && (r != M.NotOwner && r != M.StillLocked ==>
            (r == M.Released <==> Qu(g, MutexQ(m)) == []) && (r.HandedTo? ==> r.w in Qu(g, MutexQ(m))))
  {
    if Qu(g, MutexQ(m)) != [] {
      assert Qu(g, MutexQ(m))[0] in Qu(g, MutexQ(m));
    }
  }

  /** A normal mutex locked without a deadline: the caller has it or waits for it. */
  lemma LockPlain(g: Net, m: Mid, x: Rec, t: Tid, valid: bool)
    requires Inv(g, m, x) && x.v.kind == M.Normal && !x.v.lock
    ensures var (g', x', r) := Lock(g, m, x, t, false, valid);
      && x'.tainted == x.tainted && x'.breached == x.breached
      && (if r == M.Acquired then (!x.breached ==> x'.holder == Held(t, 1)) && x'.v == x.v.(held := true)
          else r == M.MustWait && x' == x)
  {
  }

  lemma TryLockKeeps(g: Net, m: Mid, x: Rec, t: Tid)
    requires Inv(g, m, x) && Th(g, t).wait.Out?
    ensures Inv(g, m, TryLock(x, t).0) && Respects(x, TryLock(x, t).0, t)
  {
  }

  lemma UnlockKeeps(g: Net, m: Mid, x: Rec, t: Tid)
    requires NetInv(g) && Inv(g, m, x) && !Waits(g, t, MutexQ(m))
    requires x.v.kind == M.Normal && !x.breached ==> IsHeldBy(x, t)
    ensures var (g', x', r) := Unlock(g, m, x, t);
      && NetMove(g, g', t, MutexQ(m)) && Inv(g', m, x') && Respects(x, x', t)
      && Th(g', t).wait == Th(g, t).wait && (r != M.NotOwner && !x.breached ==> Owns(x, t))
  {
    var (g', x', r) := Unlock(g, m, x, t);
    var q := Qu(g, MutexQ(m));
    if r.HandedTo? {
      assert q[0] in q;
      WithoutDistinct(q, q[0]);
      assert forall u :: Waits(g', u, MutexQ(m)) <==> Waits(g, u, MutexQ(m));
      TakeOffKeeps(g, t, q[0], MutexQ(m));
    }
  }

  lemma TransferKeeps(g: Net, m: Mid, x: Rec, t: Tid, to: Option<Tid>)
    requires Inv(g, m, x) && Th(g, t).wait.Out? && x.v.owner == Some(t)
    ensures Inv(g, m, Transfer(x, t, to).0) && Respects(x, Transfer(x, t, to).0, t)
  {
    assert x.holder != Granted(t);
  }

  /** The assertions of the epilogue hold, and nobody else can hold the mutex meanwhile. */
  lemma EpilogueKeeps(g: Net, m: Mid, x: Rec, t: Tid)
    requires NetInv(g) && Inv(g, m, x) && Waits(g, t, MutexQ(m)) && AtStage(g, t, Finishing)
    ensures !x.breached ==> x.holder == Granted(t) && x.v.held && M.EpilogueSection(x.v, t) == M.TakeOver(x.v, t)
    ensures x.v.kind != M.Normal ==> x.v.owner == Some(t)
    ensures x.v.kind == M.Recursive ==> x.v.locks == 0
    ensures var (g', x') := Epilogue(g, x, t); Inv(g', m, x')
  {
    assert Dequeued(g, t, MutexQ(m));
  }

  lemma GiveUpKeeps(g: Net, m: Mid, x: Rec, t: Tid)
    requires NetInv(g) && Inv(g, m, x) && Waits(g, t, MutexQ(m)) && AtStage(g, t, Draining) && Th(g, t).port > 0
    requires !x.breached
    ensures x.holder == Granted(t)
    ensures var (g', x') := GiveUp(g, x, t); Inv(g', m, x')
  {
    assert Dequeued(g, t, MutexQ(m));
  }

  /** What a hook leaves of a mutex that somebody holds. */
  lemma SnatchKeeps(g: Net, m: Mid, x: Rec, w: Tid, t: Tid)
    requires NetInv(g) && Inv(g, m, x) && m.CancelLock? && x.v.kind == M.Normal && !x.tainted
    requires x.holder.Held? && !x.breached && t in Qu(g, MutexQ(m)) && Th(g, w).wait.Out?
    ensures var (g', x') := Snatch(g, m, x, w, t); Inv(g', m, x') && NetStep(g, g', w, MutexQ(m))
    ensures !Strict(Snatch(g, m, x, w, t).0, m, Snatch(g, m, x, w, t).1)
  {
    HandedOff(g, w, t, MutexQ(m));
    TakeOffEffect(g, w, t, MutexQ(m));
    assert Dequeued(Snatch(g, m, x, w, t).0, t, MutexQ(m));
  }

  /** The queues of the transition system are those the sections compute. */
  lemma QueuesAgree(g: Net, m: Mid, x: Rec, t: Tid, timed: bool, valid: bool)
    ensures Qu(Lock(g, m, x, t, timed, valid).0, MutexQ(m)) == M.LockSection(x.v, Qu(g, MutexQ(m)), t, valid || !timed).1
    ensures Qu(Unlock(g, m, x, t).0, MutexQ(m)) == M.UnlockSection(x.v, Qu(g, MutexQ(m)), t).1
  {
  }
}
