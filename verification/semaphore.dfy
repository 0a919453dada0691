/** Semaphores: each spin-locked section as a function, and the same section as code on the heap. */
module Semaphore {
  import opened Base
  import opened Links

  datatype Val = Val(lock: bool, value: nat)

  datatype EnterResult = Acquired | Invalid | MustWait
  datatype PostResult<+T> = Counted | HandedTo(w: T)

  function DownSection<T>(v: Val, q: seq<T>, self: T, valid: bool): (Val, seq<T>, EnterResult) {
    if v.value > 0 then (v.(value := v.value - 1), q, Acquired)
    else if !valid then (v.(lock := true), q, Invalid)
    else (v, [self] + q, MustWait)
  }

  function TrySection(v: Val): (Val, bool) {
    if v.value > 0 then (v.(value := v.value - 1), true) else (v, false)
  }

  function PostSection<T>(v: Val, q: seq<T>): (Val, seq<T>, PostResult<T>) {
    if v.value > 0 then (v.(value := v.value + 1), q, Counted)
    else if q == [] then (v.(value := 1), q, Counted)
    else (v, q[1..], HandedTo(q[0]))
  }

  class Sem {
    var lock: bool
    var value: nat
    const queue: WaitQueue

    constructor (initial: nat)
      ensures Value() == Val(false, initial) && queue.Valid() && queue.elems == [] && fresh(queue)
    {
      lock, value := false, initial;
      queue := new WaitQueue();
    }

    ghost function Value(): Val
      reads this
    {
      Val(lock, value)
    }

    /** __sem_timedwait_internal, up to blocking. */
    method Down(self: Pthread, valid: bool) returns (r: EnterResult)
      requires !lock && queue.Valid() && self.prevp == Null
      modifies this, queue, self`next, self`prevp, queue.elems`prevp
      ensures queue.Valid()
      ensures (Value(), queue.elems, r) == DownSection(old(Value()), old(queue.elems), self, valid)
      ensures lock <==> r == Invalid
      ensures r == Acquired <==> old(value) > 0
      ensures r == Invalid <==> old(value) == 0 && !valid
      ensures value == if r == Acquired then old(value) - 1 else old(value)
      ensures queue.elems == if r == MustWait then [self] + old(queue.elems) else old(queue.elems)
    {
      lock := true;
      if value > 0 {
        value := value - 1;
        lock := false;
        return Acquired;
      }
      if !valid {
        return Invalid;
      }
      queue.Enqueue(self);
      lock := false;
      return MustWait;
    }

    method TryDown() returns (ok: bool)
      requires !lock
      modifies this
      ensures (Value(), ok) == TrySection(old(Value()))
      ensures ok <==> old(value) > 0
      ensures !lock && value == if ok then old(value) - 1 else old(value)
    {
      lock := true;
      if value > 0 {
        value := value - 1;
        lock := false;
        return true;
      }
      lock := false;
      return false;
    }

    /** __sem_post; the wakeup of the thread in `HandedTo` is sent after the section. */
    method Post() returns (r: PostResult<Pthread>)
      requires !lock && queue.Valid()
      requires value > 0 ==> queue.first == null
      modifies this, queue, queue.elems`next, queue.elems`prevp
      ensures queue.Valid()
      ensures (Value(), queue.elems, r) == PostSection(old(Value()), old(queue.elems))
      ensures r.HandedTo? ==> r.w.prevp == Null
      ensures r.Counted? <==> old(queue.elems) == []
      ensures !lock && value == if r.Counted? then old(value) + 1 else old(value)
      ensures old(queue.elems) == if r.HandedTo? then [r.w] + queue.elems else queue.elems
    {
      lock := true;
      if value > 0 {
        assert queue.first == null;
        value := value + 1;
        lock := false;
        return Counted;
      }
      if queue.first == null {
        value := 1;
        lock := false;
        return Counted;
      }
      var wakeup := queue.first;
      wakeup.Dequeue(queue);
      lock := false;
      return HandedTo(wakeup);
    }
  }
}
