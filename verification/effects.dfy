/** What each call does to the abstract state of its primitive, in every reachable state: who has what afterwards, who
    waits, who is owed a wakeup, and when nothing changes. */
module Effects {
  import opened Base
  import opened Blocking
  import opened System
  import opened Theorems
  import M = Mutex
  import MP = MutexProtocol
  import RP = RwLockProtocol
  import SP = SemaphoreProtocol

  // ---------------------------------------------------------------- mutexes

  /** `t` owns the mutex already, as far as the mutex can tell. */
  predicate KnownOwner(x: MP.Rec, t: Tid) {
    x.v.kind != M.Normal && MP.OwnerOf(x.holder) == Some(t)
  }

  /** Locking at once: the mutex is free, or recursive and the caller's. */
  predicate Obtains(x: MP.Rec, t: Tid) {
    x.holder.Free? || (x.v.kind == M.Recursive && KnownOwner(x, t))
  }

  function Deeper(h: MP.Holder, t: Tid): MP.Holder {
    MP.Held(t, if MP.IsHeldBy(MP.Rec(M.Fresh(M.Normal), h, false, false), t) then h.depth + 1 else 1)
  }

  lemma LockSectionEffect(g: Net, m: Mid, x: MP.Rec, t: Tid, timed: bool, valid: bool)
    requires MP.Inv(g, m, x) && !x.breached
    ensures var (g', x', r) := MP.Lock(g, m, x, t, timed, valid);
      && (Obtains(x, t) ==> x'.holder == Deeper(x.holder, t) && x'.v.held && g' == g)
      && (!Obtains(x, t) && KnownOwner(x, t) ==> x' == x && g' == g)
      && (!Obtains(x, t) && !KnownOwner(x, t) && timed && !valid ==> x'.holder == x.holder && x'.v.lock && g' == g)
      && (!Obtains(x, t) && !KnownOwner(x, t) && (valid || !timed) ==>
            && x'.holder == x.holder && Th(g', t).wait == In(MutexQ(m), timed, Stage.Blocking)
            && Qu(g', MutexQ(m)) == [t] + Qu(g, MutexQ(m)))
  {
  }

  lemma LockEffect(s: State, t: Tid, m: Mid, timed: bool, valid: bool)
    requires Reachable(s) && Enabled(s, t, Lock(m, timed, valid)) && !Mx(s, m).breached
    ensures var s' := DoLock(s, t, m, timed, valid);
      var x, x' := Mx(s, m), Mx(s', m);
      && Apply(s, t, Lock(m, timed, valid)) == s'
      && (Obtains(x, t) ==> x'.holder == Deeper(x.holder, t) && x'.v.held && s'.net == s.net)
      && (!Obtains(x, t) && KnownOwner(x, t) ==> x' == x && s'.net == s.net)
      && (!Obtains(x, t) && !KnownOwner(x, t) && timed && !valid ==> x'.holder == x.holder && x'.v.lock && s'.net == s.net)
      && (!Obtains(x, t) && !KnownOwner(x, t) && (valid || !timed) ==>
            && x'.holder == x.holder && Th(s'.net, t).wait == In(MutexQ(m), timed, Stage.Blocking)
            && Qu(s'.net, MutexQ(m)) == [t] + Qu(s.net, MutexQ(m)))
  {
    ReachableHolds(s);
    assert PrimOk(s, MutexQ(m));
    LockSectionEffect(s.net, m, Mx(s, m), t, timed, valid);
  }

  lemma TryLockEffect(s: State, t: Tid, m: Mid)
    requires Reachable(s) && Enabled(s, t, TryLock(m))
    ensures var s' := Apply(s, t, TryLock(m));
      var x, x' := Mx(s, m), Mx(s', m);
      && s'.net == s.net
      && (Obtains(x, t) ==> MP.TryLock(x, t).1 && x'.holder == Deeper(x.holder, t) && x'.v.held)
      && (!Obtains(x, t) ==> !MP.TryLock(x, t).1 && x' == x)
  {
    ReachableHolds(s);
    assert PrimOk(s, MutexQ(m));
    assert ThreadOk(s, t);
  }

  lemma UnlockSectionEffect(g: Net, m: Mid, x: MP.Rec, t: Tid)
    requires NetInv(g) && MP.Inv(g, m, x) && !x.breached && !x.tainted && !Waits(g, t, MutexQ(m))
    requires x.v.kind == M.Normal ==> MP.IsHeldBy(x, t)
    ensures var (g', x', r) := MP.Unlock(g, m, x, t);
      var q := Qu(g, MutexQ(m));
      && (!MP.IsHeldBy(x, t) ==> x' == x && g' == g && r.NotOwner?)
      && (MP.IsHeldBy(x, t) && x.holder.depth > 1 ==> x'.holder == MP.Held(t, x.holder.depth - 1) && g' == g)
      && (MP.IsHeldBy(x, t) && x.holder.depth == 1 && q == [] ==> x'.holder.Free? && !x'.v.held && g' == g)
      && (MP.IsHeldBy(x, t) && x.holder.depth == 1 && q != [] ==>
            && x'.holder == MP.Granted(q[0]) && Qu(g', MutexQ(m)) == q[1..]
            && Th(g', t).sends == Th(g, t).sends + [q[0]] && Dequeued(g', q[0], MutexQ(m)))
  {
    var q := Qu(g, MutexQ(m));
    if q != [] {
      assert q[0] in q;
      TakeOffEffect(g, t, q[0], MutexQ(m));
    }
    assert x.holder != MP.Granted(t);
  }

  /** The last unlock hands the mutex to the first waiter, which is owed a wakeup, or frees it. */
  lemma UnlockEffect(s: State, t: Tid, m: Mid)
    requires Reachable(s) && Enabled(s, t, Unlock(m)) && !Mx(s, m).breached && !Mx(s, m).tainted
    ensures var s' := DoUnlock(s, t, m);
      var x, x', q := Mx(s, m), Mx(s', m), Qu(s.net, MutexQ(m));
      && Apply(s, t, Unlock(m)) == s'
      && (!MP.IsHeldBy(x, t) ==> x' == x && s'.net == s.net && MP.Unlock(s.net, m, x, t).2.NotOwner?)
      && (MP.IsHeldBy(x, t) && x.holder.depth > 1 ==> x'.holder == MP.Held(t, x.holder.depth - 1) && s'.net == s.net)
      && (MP.IsHeldBy(x, t) && x.holder.depth == 1 && q == [] ==> x'.holder.Free? && !x'.v.held && s'.net == s.net)
      && (MP.IsHeldBy(x, t) && x.holder.depth == 1 && q != [] ==>
            && x'.holder == MP.Granted(q[0]) && Qu(s'.net, MutexQ(m)) == q[1..]
            && Th(s'.net, t).sends == [q[0]] && Dequeued(s'.net, q[0], MutexQ(m)))
  {
    UnlockerIsOut(s, t, m);
    UnlockSectionEffect(s.net, m, Mx(s, m), t);
  }

  lemma UnlockerIsOut(s: State, t: Tid, m: Mid)
    requires Reachable(s) && Enabled(s, t, Unlock(m)) && !Mx(s, m).breached
    ensures NetInv(s.net) && MP.Inv(s.net, m, Mx(s, m)) && !Waits(s.net, t, MutexQ(m)) && Th(s.net, t).sends == []
    ensures Mx(s, m).v.kind == M.Normal && !Mx(s, m).tainted ==> MP.IsHeldBy(Mx(s, m), t)
  {
    ReachableHolds(s);
    assert PrimOk(s, MutexQ(m));
    assert ThreadOk(s, t);
  }

  /** A transfer by the owner: to a thread that does not exist it fails and changes nothing; otherwise it succeeds,
      and that thread is the owner, at the same depth. */
  lemma TransferEffect(s: State, t: Tid, m: Mid, to: Option<Tid>)
    requires Reachable(s) && Enabled(s, t, Transfer(m, to))
    ensures var s' := Apply(s, t, Transfer(m, to));
      var x, x' := Mx(s, m), Mx(s', m);
      && s'.net == s.net && (MP.Transfer(x, t, to).1 <==> to.Some?)
      && (to.None? ==> x' == x)
      && (to.Some? ==> MP.OwnerOf(x'.holder) == to && x'.v.owner == to && x'.v == x.v.(owner := to))
      && (to.Some? && x.holder.Held? ==> x'.holder == MP.Held(to.value, x.holder.depth))
  {
    ReachableHolds(s);
    assert PrimOk(s, MutexQ(m));
    assert ThreadOk(s, t);
  }

  // ---------------------------------------------------------------- read-write locks

  lemma ReadEffect(s: State, t: Tid, r: nat, timed: bool, valid: bool)
    requires Reachable(s) && Enabled(s, t, Read(r, timed, valid))
    ensures var s' := Apply(s, t, Read(r, timed, valid));
      var x, x' := Rw(s, r), Rw(s', r);
      && (x.writer.NoWriter? ==> x'.active == x.active + multiset{t} && x'.writer.NoWriter? && s'.net == s.net)
      && (!x.writer.NoWriter? && timed && !valid ==> x' == x.(v := x.v.(lock := true)) && s'.net == s.net)
      && (!x.writer.NoWriter? && (valid || !timed) ==>
            && x' == x && Th(s'.net, t).wait == In(ReaderQ(r), timed, Stage.Blocking)
            && Qu(s'.net, ReaderQ(r)) == [t] + Qu(s.net, ReaderQ(r)))
  {
    ReachableHolds(s);
    assert PrimOk(s, ReaderQ(r));
  }

  lemma WriteEffect(s: State, t: Tid, r: nat, timed: bool, valid: bool)
    requires Reachable(s) && Enabled(s, t, Write(r, timed, valid))
    ensures var s' := Apply(s, t, Write(r, timed, valid));
      var x, x' := Rw(s, r), Rw(s', r);
      var free := x.writer.NoWriter? && RP.NobodyReads(x);
      && (free ==> x'.writer == RP.Writing(t) && x'.active == multiset{} && s'.net == s.net)
      && (!free && timed && !valid ==> x' == x.(v := x.v.(lock := true)) && s'.net == s.net)
      && (!free && (valid || !timed) ==>
            && x' == x && Th(s'.net, t).wait == In(WriterQ(r), timed, Stage.Blocking)
            && Qu(s'.net, WriterQ(r)) == [t] + Qu(s.net, WriterQ(r)))
  {
    ReachableHolds(s);
    assert PrimOk(s, WriterQ(r));
    RP.EntersIff(s.net, r, Rw(s, r), t, timed, valid);
  }

  lemma TryReadEffect(s: State, t: Tid, r: nat)
    requires Reachable(s) && Enabled(s, t, TryRead(r))
    ensures var s' := Apply(s, t, TryRead(r));
      var x, x' := Rw(s, r), Rw(s', r);
      && s'.net == s.net
      && (x.writer.NoWriter? ==> x'.active == x.active + multiset{t} && x'.writer.NoWriter?)
      && (!x.writer.NoWriter? ==> x' == x)
  {
    ReachableHolds(s);
    assert PrimOk(s, ReaderQ(r));
  }

  lemma TryWriteEffect(s: State, t: Tid, r: nat)
    requires Reachable(s) && Enabled(s, t, TryWrite(r))
    ensures var s' := Apply(s, t, TryWrite(r));
      var x, x' := Rw(s, r), Rw(s', r);
      var free := x.writer.NoWriter? && RP.NobodyReads(x);
      && s'.net == s.net
      && (free ==> x'.writer == RP.Writing(t) && x'.active == multiset{})
      && (!free ==> x' == x)
  {
    ReachableHolds(s);
    assert PrimOk(s, WriterQ(r));
    RP.EntersIff(s.net, r, Rw(s, r), t, false, true);
  }

  /** One hold less for the caller, and nobody else's hold is touched; the last one passes the lock on
      (`RwLockProtocol.UnlockPassesOn`). */
  lemma RwUnlockEffect(s: State, t: Tid, r: nat)
    requires Reachable(s) && Enabled(s, t, RwUnlock(r))
    ensures var x, x' := Rw(s, r), Rw(Apply(s, t, RwUnlock(r)), r);
      && x'.active == x.active - multiset{t} && !x'.writer.Writing? && !x'.v.lock
      && Apply(s, t, RwUnlock(r)).net == RP.Unlock(s.net, r, x, t).0
  {
    ReachableHolds(s);
    assert PrimOk(s, ReaderQ(r));
    RP.AssertionsHold(s.net, r, Rw(s, r));
    WriterExcludesReaders(s.net, r, Rw(s, r), t);
  }

  lemma WriterExcludesReaders(g: Net, r: nat, x: RP.Rec, t: Tid)
    requires RP.Inv(g, r, x) && RP.Holds(x, t)
    ensures x.v.readers > 0 <==> t in x.active
    ensures x.writer.Writing? ==> x.writer.t == t && x.active == multiset{}
  {
    assert |x.active| == 0 ==> x.active == multiset{};
    if t in x.active { RP.OneHoldLess(x, t); }
  }

  // ---------------------------------------------------------------- semaphores

  /** A wait or a trywait takes a unit exactly if there is one. */
  lemma DownEffect(s: State, t: Tid, i: nat, timed: bool, valid: bool)
    requires Reachable(s) && Enabled(s, t, Down(i, timed, valid))
    ensures var s' := Apply(s, t, Down(i, timed, valid));
      var x, x' := Se(s, i), Se(s', i);
      && (x.v.value > 0 ==> x'.v.value == x.v.value - 1 && x'.waits == x.waits + 1 && s'.net == s.net)
      && (x.v.value == 0 && timed && !valid ==> x' == x.(v := x.v.(lock := true)) && s'.net == s.net)
      && (x.v.value == 0 && (valid || !timed) ==>
            && x' == x && Th(s'.net, t).wait == In(SemQ(i), timed, Stage.Blocking)
            && Qu(s'.net, SemQ(i)) == [t] + Qu(s.net, SemQ(i)))
  {
  }

  lemma TryDownEffect(s: State, t: Tid, i: nat)
    requires Reachable(s) && Enabled(s, t, TryDown(i))
    ensures var s' := Apply(s, t, TryDown(i));
      var x, x' := Se(s, i), Se(s', i);
      && s'.net == s.net && (SP.TryDown(x).1 <==> x.v.value > 0)
      && (x.v.value > 0 ==> x'.v.value == x.v.value - 1 && x'.waits == x.waits + 1)
      && (x.v.value == 0 ==> x' == x)
  {
  }

  lemma PostSectionEffect(g: Net, i: nat, x: SP.Rec, t: Tid)
    requires NetInv(g) && SP.Inv(g, i, x)
    ensures var (g', x', r) := SP.Post(g, i, x, t);
      var q := Qu(g, SemQ(i));
      && x'.posts == x.posts + 1 && x'.v.lock == x.v.lock
      && (q == [] ==> x'.v.value == x.v.value + 1 && x'.granted == x.granted && g' == g)
      && (q != [] ==> x'.v.value == 0 && x'.granted == x.granted + {q[0]})
      && (q != [] ==> Qu(g', SemQ(i)) == q[1..] && Th(g', t).sends == Th(g, t).sends + [q[0]] && Dequeued(g', q[0], SemQ(i)))
  {
    var q := Qu(g, SemQ(i));
    if q != [] {
      assert q[0] in q;
      TakeOffEffect(g, t, q[0], SemQ(i));
    }
  }

  /** A post counts a unit if nobody waits; otherwise the first waiter gets it, and is owed a wakeup. */
  lemma PostEffect(s: State, t: Tid, i: nat)
    requires Reachable(s) && Enabled(s, t, Post(i))
    ensures var s' := Apply(s, t, Post(i));
      var x, x', q := Se(s, i), Se(s', i), Qu(s.net, SemQ(i));
      && x'.posts == x.posts + 1 && !x'.v.lock
      && (q == [] ==> x'.v.value == x.v.value + 1 && x'.granted == x.granted && s'.net == s.net)
      && (q != [] ==> x'.v.value == 0 && x'.granted == x.granted + {q[0]})
      && (q != [] ==> Qu(s'.net, SemQ(i)) == q[1..] && Th(s'.net, t).sends == [q[0]] && Dequeued(s'.net, q[0], SemQ(i)))
  {
    ReachableHolds(s);
    assert PrimOk(s, SemQ(i));
    PostSectionEffect(s.net, i, Se(s, i), t);
  }

  // ---------------------------------------------------------------- barriers and cancellation settings

  /** Entering a barrier: all but the last thread of a round wait; the last one does not, completes the round, and
      owes each of the others a wakeup. */
  lemma BarrierEffect(s: State, t: Tid, b: nat)
    requires Reachable(s) && Enabled(s, t, BarrierWait(b))
    ensures var s' := Apply(s, t, BarrierWait(b));
      var x, x', q := Ba(s, b), Ba(s', b), Qu(s.net, BarrierQ(b));
      && (|q| + 1 < x.v.count ==>
            && Th(s'.net, t).wait == In(BarrierQ(b), false, Stage.Blocking) && Qu(s'.net, BarrierQ(b)) == [t] + q
            && x'.past == x.past && x'.v.pending == x.v.pending - 1)
      && (|q| + 1 == x.v.count ==>
            && Th(s'.net, t).wait.Out? && Qu(s'.net, BarrierQ(b)) == [] && Th(s'.net, t).sends == q
            && |x'.past| == |x.past| + 1 && x'.past[|x.past|].serial == t && x'.v.pending == x.v.count)
      && |q| + 1 <= x.v.count
  {
    ReachableHolds(s);
    assert PrimOk(s, BarrierQ(b));
  }

  /** pthread_setcancelstate and pthread_setcanceltype set the field they name, of the caller, and no other. */
  lemma SetEffect(s: State, t: Tid, u: Tid)
    requires CanAdvance(s, t) && PcOf(s, t).SGot?
    ensures var s' := DoAdvance(s, t);
      var setting := PcOf(s, t).setting;
      && PcOf(s', t) == SUnlock
      && (setting.State? ==> Cn(s', t) == Cn(s, t).(enabled := setting.enabled))
      && (setting.Type? ==> Cn(s', t) == Cn(s, t).(async := setting.async))
      && (u != t ==> Cn(s', u) == Cn(s, u))
  {
  }

  /** pthread_cancel records its request, whatever the target is doing; it goes on to run a hook exactly if the request
      is new and the target enabled, deferred and hooked, and then that hook. */
  lemma RequestEffect(s: State, w: Tid, p: Tid, c: nat, u: Tid)
    requires CanAdvance(s, w) && PcOf(s, w) == CGot(p)
    ensures var s' := DoAdvance(s, w);
      var x := Cn(s, p);
      && Cn(s', p) == x.(pending := true) && s'.net == s.net
      && (PcOf(s', w) == CHook(p, c) <==> !x.pending && x.enabled && !x.async && x.hook == Some(c))
      && (PcOf(s', w).CHook? || PcOf(s', w) == CUnlock(p))
      && (u != p ==> Cn(s', u) == Cn(s, u))
  {
  }
}
