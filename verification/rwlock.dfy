/** Read-write locks: each spin-locked section as a function, and the same section as code on the heap. */
module RwLock {
  import opened Links

  datatype Val = Val(lock: bool, held: bool, readers: nat)

  datatype EnterResult = Acquired | Invalid | MustWait
  datatype UnlockResult<+T> = ReadersRemain | ToWriter(w: T) | ToReaders(ws: seq<T>) | Released

  const FRESH := Val(false, false, 0)

  function ReadSection<T>(v: Val, rq: seq<T>, self: T, valid: bool): (Val, seq<T>, EnterResult) {
    if !v.held then (v.(held := true, readers := 1), rq, Acquired)
    else if v.readers > 0 then (v.(readers := v.readers + 1), rq, Acquired)
    else if !valid then (v.(lock := true), rq, Invalid)
    else (v, [self] + rq, MustWait)
  }

  function WriteSection<T>(v: Val, wq: seq<T>, self: T, valid: bool): (Val, seq<T>, EnterResult) {
    if !v.held then (v.(held := true), wq, Acquired)
    else if !valid then (v.(lock := true), wq, Invalid)
    else (v, [self] + wq, MustWait)
  }

  function TryReadSection(v: Val): (Val, bool) {
    if !v.held then (v.(held := true, readers := 1), true)
    else if v.readers > 0 then (v.(readers := v.readers + 1), true)
    else (v, false)
  }

  function TryWriteSection(v: Val): (Val, bool) {
    if !v.held then (v.(held := true), true) else (v, false)
  }

  /** One queued writer, the last to queue, goes first; without one, every queued reader goes. */
  function UnlockSection<T>(v: Val, rq: seq<T>, wq: seq<T>): (Val, seq<T>, seq<T>, UnlockResult<T>) {
    if v.readers > 1 then (v.(readers := v.readers - 1), rq, wq, ReadersRemain)
    else if wq != [] then (v.(readers := 0), rq, wq[1..], ToWriter(wq[0]))
    else if rq != [] then (v.(readers := |rq|), [], wq, ToReaders(rq))
    else (v.(readers := 0, held := false), rq, wq, Released)
  }

  class PthreadRwlock {
    var lock: bool
    var held: bool
    var readers: nat
    const readerqueue: WaitQueue
    const writerqueue: WaitQueue

    constructor ()
      ensures Value() == FRESH && Valid() && fresh(readerqueue) && fresh(writerqueue)
      ensures readerqueue.elems == [] && writerqueue.elems == []
    {
      lock, held, readers := false, false, 0;
      readerqueue := new WaitQueue();
      writerqueue := new WaitQueue();
    }

    ghost function Value(): Val
      reads this
    {
      Val(lock, held, readers)
    }

    ghost predicate Valid()
      reads readerqueue, readerqueue.elems, writerqueue, writerqueue.elems
    {
      readerqueue != writerqueue && readerqueue.Valid() && writerqueue.Valid()
    }

    /** What the code asserts of a lock it finds free, and of one it finds held by readers. */
    ghost predicate AssertionsHold()
      reads this, readerqueue, writerqueue
    {
      && (!held ==> readerqueue.first == null && writerqueue.first == null && readers == 0)
      && (readers > 0 ==> readerqueue.first == null)
    }

    method ReadEnter(self: Pthread, valid: bool) returns (r: EnterResult)
      requires !lock && Valid() && AssertionsHold() && self.prevp == Null
      modifies this, readerqueue, self`next, self`prevp, readerqueue.elems`prevp
      ensures Valid() && writerqueue.elems == old(writerqueue.elems)
      ensures (Value(), readerqueue.elems, r) == ReadSection(old(Value()), old(readerqueue.elems), self, valid)
      ensures lock <==> r == Invalid
      ensures r == Acquired <==> !old(held) || old(readers) > 0
      ensures r == Invalid <==> old(held) && old(readers) == 0 && !valid
      ensures r == Acquired ==> held && readers == old(readers) + 1 && readerqueue.elems == old(readerqueue.elems)
      ensures r != Acquired ==> held && readers == old(readers)
      ensures r == MustWait ==> readerqueue.elems == [self] + old(readerqueue.elems)
    {
      lock := true;
      if !held {
        held := true;
        assert readerqueue.first == null && writerqueue.first == null && readers == 0;
        readers := 1;
        lock := false;
        return Acquired;
      } else if readers > 0 {
        assert readerqueue.first == null;
        readers := readers + 1;
        lock := false;
        return Acquired;
      }
      if !valid {
        return Invalid;
      }
      Apart(readerqueue, writerqueue);
      UnlinkedIsElsewhere(writerqueue, self);
      readerqueue.Enqueue(self);
      lock := false;
      return MustWait;
    }

    method WriteEnter(self: Pthread, valid: bool) returns (r: EnterResult)
      requires !lock && Valid() && AssertionsHold() && self.prevp == Null
      modifies this, writerqueue, self`next, self`prevp, writerqueue.elems`prevp
      ensures Valid() && readerqueue.elems == old(readerqueue.elems)
      ensures (Value(), writerqueue.elems, r) == WriteSection(old(Value()), old(writerqueue.elems), self, valid)
      ensures lock <==> r == Invalid
      ensures r == Acquired <==> !old(held)
      ensures r == Invalid <==> old(held) && !valid
      ensures held && readers == old(readers)
      ensures writerqueue.elems == if r == MustWait then [self] + old(writerqueue.elems) else old(writerqueue.elems)
    {
      lock := true;
      if !held {
        held := true;
        assert readerqueue.first == null && writerqueue.first == null && readers == 0;
        lock := false;
        return Acquired;
      }
      if !valid {
        return Invalid;
      }
      Apart(readerqueue, writerqueue);
      UnlinkedIsElsewhere(readerqueue, self);
      writerqueue.Enqueue(self);
      lock := false;
      return MustWait;
    }

    method TryRead() returns (ok: bool)
      requires !lock && Valid() && AssertionsHold()
      modifies this
      ensures (Value(), ok) == TryReadSection(old(Value()))
      ensures ok <==> !old(held) || old(readers) > 0
      ensures held && !lock && readers == old(readers) + if ok then 1 else 0
    {
      lock := true;
      if !held {
        held := true;
        assert readerqueue.first == null && writerqueue.first == null && readers == 0;
        readers := 1;
        lock := false;
        return true;
      } else if readers > 0 {
        assert readerqueue.first == null;
        readers := readers + 1;
        lock := false;
        return true;
      }
      lock := false;
      return false;
    }

    method TryWrite() returns (ok: bool)
      requires !lock && Valid() && AssertionsHold()
      modifies this
      ensures (Value(), ok) == TryWriteSection(old(Value()))
      ensures ok <==> !old(held)
      ensures held && !lock && readers == old(readers)
    {
      lock := true;
      if !held {
        held := true;
        assert readerqueue.first == null && writerqueue.first == null && readers == 0;
        lock := false;
        return true;
      }
      lock := false;
      return false;
    }

    /** pthread_rwlock_unlock.  A writer's wakeup follows the section, readers are woken inside it. */
    method Unlock(ghost self: Pthread) returns (ghost r: UnlockResult<Pthread>)
      requires !lock && held && Valid()
      requires forall t :: t in readerqueue.elems ==> t.port == 0
      modifies this, readerqueue, writerqueue, self`sent
      modifies readerqueue.elems`prevp, readerqueue.elems`port, writerqueue.elems`next, writerqueue.elems`prevp
      ensures Valid()
      ensures (Value(), readerqueue.elems, writerqueue.elems, r)
           == UnlockSection(old(Value()), old(readerqueue.elems), old(writerqueue.elems))
      ensures r.ToReaders? ==> forall t :: t in r.ws ==> t.prevp == Null && t.port == 1
      ensures self.sent == old(self.sent) + if r.ToReaders? then Messages(r.ws) else []
      ensures r.ReadersRemain? <==> old(readers) > 1
      ensures r.ToWriter? <==> old(readers) <= 1 && old(writerqueue.elems) != []
      ensures r.Released? <==> old(readers) <= 1 && old(writerqueue.elems) == [] == old(readerqueue.elems)
      ensures readers == if r.ReadersRemain? then old(readers) - 1 else if r.ToReaders? then |r.ws| else 0
      ensures (held <==> !r.Released?) && !lock
      ensures old(writerqueue.elems) == if r.ToWriter? then [r.w] + writerqueue.elems else writerqueue.elems
      ensures if r.ToReaders? then r.ws == old(readerqueue.elems) && readerqueue.elems == []
        else readerqueue.elems == old(readerqueue.elems)
      ensures r.ToWriter? ==> r.w.prevp == Null
    {
      Apart(readerqueue, writerqueue);
      lock := true;
      if readers > 1 {
        readers := readers - 1;
        lock := false;
        r := ReadersRemain;
        return;
      }
      if readers == 1 {
        readers := 0;
      }
      if writerqueue.first != null {
        var wakeup := writerqueue.first;
        wakeup.Dequeue(writerqueue);
        lock := false;
        r := ToWriter(wakeup);
        return;
      }
      if readerqueue.first != null {
        var n, woken := readerqueue.WakeAll(self);
        readers := readers + n;
        lock := false;
        r := ToReaders(woken);
        return;
      }
      held := false;
      lock := false;
      r := Released;
    }
  }
}
