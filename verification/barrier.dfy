/** Barriers: the spin-locked section as a function, and the whole call as code on the heap. */
module Barrier {
  import opened Links

  datatype Val = Val(lock: bool, count: nat, pending: nat)

  /** `Serial` carries the chain cut off from the queue, still to be walked.
      With a count of one the section returns without releasing the spin lock. */
  datatype EnterResult<+T> = SerialAlone | Serial(chain: seq<T>) | MustWait

  function Fresh(count: nat): Val {
    Val(false, count, count)
  }

  function EnterSection<T>(v: Val, q: seq<T>, self: T): (Val, seq<T>, EnterResult<T>)
    requires v.pending > 0
  {
    if v.pending > 1 then (v.(pending := v.pending - 1), [self] + q, MustWait)
    else if v.count > 1 then (v.(pending := v.count), [], Serial(q))
    else (v.(pending := v.count, lock := true), q, SerialAlone)
  }

  class PthreadBarrier {
    var lock: bool
    var pending: nat
    const count: nat
    const queue: WaitQueue

    constructor (count: nat)
      requires count > 0
      ensures Value() == Fresh(count) && queue.Valid() && queue.elems == [] && fresh(queue)
    {
      this.count := count;
      lock, pending := false, count;
      queue := new WaitQueue();
    }

    ghost function Value(): Val
      reads this
    {
      Val(lock, count, pending)
    }

    /** pthread_barrier_wait up to the release of the lock.  `chain` is the queue cut off by the serial thread. */
    method Enter(self: Pthread) returns (chain: Pthread?, ghost r: EnterResult<Pthread>)
      requires !lock && 0 < pending <= count && queue.Valid() && self.prevp == Null
      modifies this, queue, self`next, self`prevp, queue.elems`prevp
      ensures queue.Valid() && (lock <==> count == 1) && (!r.Serial? ==> chain == null)
      ensures (Value(), queue.elems, r) == EnterSection(old(Value()), old(queue.elems), self)
      ensures r.Serial? ==> queue.elems == [] && r.chain == old(queue.elems) && chain == old(queue.first)
      ensures r.Serial? ==> forall t :: t in r.chain ==> t.next == old(t.next) && t.port == old(t.port)
      ensures old(pending) > 1 ==> r == MustWait && pending == old(pending) - 1 && queue.elems == [self] + old(queue.elems)
      ensures old(pending) == 1 ==> pending == count && r == if count > 1 then Serial(old(queue.elems)) else SerialAlone
    {
      chain := null;
      lock := true;
      pending := pending - 1;
      if pending == 0 {
        pending := count;
        if count > 1 {
          r := Serial(queue.elems);
          chain := queue.first;
          queue.first := null;
          queue.elems := [];
          lock := false;
        } else {
          r := SerialAlone;
        }
      } else {
        queue.Enqueue(self);
        lock := false;
        r := MustWait;
      }
    }

    /** pthread_barrier_wait up to blocking, or to the end for the serial thread: the last one of a round, and
        nobody else, sends one message to each of the others, in order.  From the moment the lock is dropped,
        `outside` and every thread woken so far may relink itself, and may enter the next round. */
    method Wait(self: Pthread, ghost outside: set<Pthread>) returns (ghost r: EnterResult<Pthread>)
      requires !lock && 0 < pending <= count && queue.Valid() && self.prevp == Null && self !in outside
      requires forall t :: t in queue.elems ==> t.port == 0 && t !in outside
      modifies this, queue, self, queue.elems, outside
      ensures r == EnterSection(old(Value()), old(queue.elems), self).2
      ensures r.MustWait? <==> old(pending) > 1
      ensures self.sent == old(self.sent) + if old(pending) == 1 && count > 1 then Messages(old(queue.elems)) else []
    {
      NoRepeats(queue);
      UnlinkedIsElsewhere(queue, self);
      ghost var s := queue.elems;
      var chain;
      chain, r := Enter(self);
      if chain != null {
        WalkDetached(self, chain, queue, s, outside);
      }
      NextRound();
    }

    /** Other threads enter meanwhile. */
    method NextRound()
      modifies this, queue
    {
    }
  }
}
