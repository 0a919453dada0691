/** Mutexes: each spin-locked section as a function, and the same section as code on the heap. */
module Mutex {
  import opened Base
  import opened Links

  datatype Kind = Normal | ErrorCheck | Recursive

  /** `lock` is the spin lock protecting the rest; it is set outside a section only when a section leaked it. */
  datatype Val<+T> = Val(kind: Kind, lock: bool, held: bool, owner: Option<T>, locks: nat)

  datatype LockResult = Acquired | Deadlock | Invalid | MustWait
  datatype UnlockResult<+T> = NotOwner | StillLocked | Released | HandedTo(w: T)

  const UINT_MAX: nat := 0xFFFF_FFFF

  function Fresh<T>(kind: Kind): Val<T> {
    Val(kind, false, false, None, 0)
  }

  /** The first acquisition, by a caller that found `held` clear or was handed the mutex. */
  function TakeOver<T>(m: Val<T>, self: T): Val<T> {
    match m.kind
    case Normal => m.(held := true)
    case ErrorCheck => m.(held := true, owner := Some(self))
    case Recursive => m.(held := true, owner := Some(self), locks := 1)
  }

  /** The tail of a lock call that had to wait.  Whoever woke it has left `held` set. */
  function EpilogueSection<T>(m: Val<T>, self: T): Val<T> {
    match m.kind
    case Normal => m
    case ErrorCheck => m.(owner := Some(self))
    case Recursive => m.(owner := Some(self), locks := 1)
  }

  /** Lock and timed lock up to the point of blocking.  `valid` says that there is no deadline or that its
      nanoseconds are in range; an invalid one is noticed with the spin lock taken and leaves it taken. */
  function LockSection<T(==)>(m: Val<T>, q: seq<T>, self: T, valid: bool): (Val<T>, seq<T>, LockResult) {
    if !m.held then (TakeOver(m, self), q, Acquired)
    else if m.kind == ErrorCheck && m.owner == Some(self) then (m, q, Deadlock)
    else if m.kind == Recursive && m.owner == Some(self) then (m.(locks := m.locks + 1), q, Acquired)
    else if !valid then (m.(lock := true), q, Invalid)
    else (m, [self] + q, MustWait)
  }

  function TrySection<T(==)>(m: Val<T>, self: T): (Val<T>, bool) {
    if !m.held then (TakeOver(m, self), true)
    else if m.kind == Recursive && m.owner == Some(self) then (m.(locks := m.locks + 1), true)
    else (m, false)
  }

  /** `locks` is unsigned: decrementing zero wraps. */
  function Decrement(locks: nat): nat {
    if locks == 0 then UINT_MAX else locks - 1
  }

  function UnlockSection<T(==)>(m: Val<T>, q: seq<T>, self: T): (Val<T>, seq<T>, UnlockResult<T>) {
    if m.kind != Normal && m.owner != Some(self) then (m, q, NotOwner)
    else
      var m1 := if m.kind == Recursive then m.(locks := Decrement(m.locks)) else m;
      if m.kind == Recursive && m1.locks > 0 then (m1, q, StillLocked)
      else
        var m2 := if m.kind != Normal then m1.(owner := None) else m1;
        if q == [] then (m2.(held := false), q, Released)
        else (if m.kind != Normal then m2.(owner := Some(q[0])) else m2, q[1..], HandedTo(q[0]))
  }

  /** The source asserts `owner == self` first, which a normal mutex never satisfies. */
  function TransferSection<T(==)>(m: Val<T>, self: T, to: Option<T>): (Val<T>, bool) {
    if to == None then (m, false)
    else if to == Some(self) || m.kind == Normal then (m, true)
    else (m.(owner := to), true)
  }

  class PthreadMutex {
    const kind: Kind
    var lock: bool
    var held: bool
    var owner: Pthread?
    var locks: nat
    const queue: WaitQueue

    constructor (kind: Kind)
      ensures Value() == Fresh(kind) && queue.Valid() && queue.elems == []
      ensures fresh(queue)
    {
      this.kind := kind;
      lock, held, owner, locks := false, false, null, 0;
      queue := new WaitQueue();
    }

    ghost function Value(): Val<Pthread>
      reads this
    {
      Val(kind, lock, held, if owner == null then None else Some(owner), locks)
    }

    /** `self` has a mutex that was free, or one level more of one it had. */
    ghost predicate Taken(self: Pthread, was: bool, before: nat)
      reads this
    {
      held && (kind != Normal ==> owner == self) && (kind == Recursive ==> locks == if was then before + 1 else 1)
    }

    /** __pthread_mutex_timedlock_internal, up to blocking.  The assertion on `owner` is the precondition. */
    method LockEnter(self: Pthread, valid: bool) returns (r: LockResult)
      requires !lock && queue.Valid() && self.prevp == Null
      requires held && kind != Normal ==> owner != null
      modifies this, queue, self`next, self`prevp, queue.elems`prevp
      ensures queue.Valid()
      ensures (Value(), queue.elems, r) == LockSection(old(Value()), old(queue.elems), self, valid)
      ensures lock <==> r == Invalid
      ensures r == Acquired <==> !old(held) || (kind == Recursive && old(owner) == self)
      ensures r == Deadlock <==> old(held) && kind == ErrorCheck && old(owner) == self
      ensures r == Invalid ==> !valid
      ensures r == MustWait ==> valid
      ensures held && (r == Acquired ==> Taken(self, old(held), old(locks)))
      ensures r != Acquired || kind == Normal ==> owner == old(owner) && locks == old(locks)
      ensures queue.elems == if r == MustWait then [self] + old(queue.elems) else old(queue.elems)
    {
      lock := true;
      if !held {
        held := true;
        match kind {
          case Normal =>
          case ErrorCheck => owner := self;
          case Recursive => locks := 1; owner := self;
        }
        lock := false;
        return Acquired;
      }
      match kind {
        case Normal =>
        case ErrorCheck =>
          if owner == self {
            lock := false;
            return Deadlock;
          }
        case Recursive =>
          if owner == self {
            locks := locks + 1;
            lock := false;
            return Acquired;
          }
      }
      if !valid {
        return Invalid;
      }
      queue.Enqueue(self);
      lock := false;
      return MustWait;
    }

    /** The tail of __pthread_mutex_timedlock_internal for a thread that was handed the mutex. */
    method LockEpilogue(self: Pthread)
      requires kind != Normal ==> owner == self
      requires kind == Recursive ==> locks == 0
      modifies this`owner, this`locks
      ensures Value() == EpilogueSection(old(Value()), self)
      ensures kind != Normal ==> owner == self
      ensures locks == if kind == Recursive then 1 else old(locks)
      ensures held ==> Value() == TakeOver(old(Value()), self)
    {
      match kind {
        case Normal =>
        case ErrorCheck => owner := self;
        case Recursive => locks := 1; owner := self;
      }
    }

    method TryLock(self: Pthread) returns (ok: bool)
      requires !lock
      modifies this
      ensures (Value(), ok) == TrySection(old(Value()), self)
      ensures ok <==> !old(held) || (kind == Recursive && old(owner) == self)
      ensures !lock && held && (ok ==> Taken(self, old(held), old(locks)))
      ensures !ok || kind == Normal ==> owner == old(owner) && locks == old(locks)
    {
      lock := true;
      if !held {
        held := true;
        match kind {
          case Normal =>
          case ErrorCheck => owner := self;
          case Recursive => locks := 1; owner := self;
        }
        lock := false;
        return true;
      }
      ok := false;
      if kind == Recursive && owner == self {
        locks := locks + 1;
        ok := true;
      }
      lock := false;
    }

    /** __pthread_mutex_unlock.  The wakeup of the thread in `HandedTo` is sent after the section. */
    method Unlock(self: Pthread) returns (r: UnlockResult<Pthread>)
      requires !lock && queue.Valid()
      modifies this, queue, queue.elems`next, queue.elems`prevp
      ensures queue.Valid()
      ensures (Value(), queue.elems, r) == UnlockSection(old(Value()), old(queue.elems), self)
      ensures r.HandedTo? ==> r.w.prevp == Null
      ensures r.NotOwner? <==> kind != Normal && old(owner) != self
      ensures r.StillLocked? <==> kind == Recursive && old(owner) == self && old(locks) != 1
      ensures !lock && (held <==> old(held) && !r.Released?)
      ensures kind == Recursive && !r.NotOwner? ==> locks == if old(locks) == 0 then UINT_MAX else old(locks) - 1
      ensures kind != Recursive || r.NotOwner? ==> locks == old(locks)
      ensures old(queue.elems) == if r.HandedTo? then [r.w] + queue.elems else queue.elems
      ensures r.Released? ==> old(queue.elems) == []
      ensures kind != Normal && r.Released? ==> owner == null
      ensures kind != Normal && r.HandedTo? ==> owner == r.w
      ensures kind == Normal || r.NotOwner? || r.StillLocked? ==> owner == old(owner)
    {
      lock := true;
      if kind != Normal {
        if owner != self {
          lock := false;
          return NotOwner;
        }
        if kind == Recursive {
          locks := Decrement(locks);
          if locks > 0 {
            lock := false;
            return StillLocked;
          }
        }
        owner := null;
      }
      r := PassOn();
      lock := false;
    }

    /** The rest of it: the last hold is given up, so the mutex goes to the first waiter or is free. */
    method PassOn() returns (r: UnlockResult<Pthread>)
      requires queue.Valid()
      modifies this`held, this`owner, queue, queue.elems`next, queue.elems`prevp
      ensures queue.Valid() && (r.Released? || r.HandedTo?)
      ensures r.Released? ==> old(queue.elems) == [] == queue.elems && !held && owner == old(owner)
      ensures r.HandedTo? ==> old(queue.elems) == [r.w] + queue.elems && r.w.prevp == Null
      ensures r.HandedTo? ==> held == old(held) && owner == if kind == Normal then old(owner) else r.w
    {
      if queue.first == null {
        held := false;
        return Released;
      }
      var wakeup := queue.first;
      wakeup.Dequeue(queue);
      if kind != Normal {
        owner := wakeup;
      }
      return HandedTo(wakeup);
    }

    /** __pthread_mutex_transfer_np; `to` is null when the ID names no thread. */
    method Transfer(self: Pthread, to: Pthread?) returns (ok: bool)
      requires owner == self
      modifies this`owner
      ensures (Value(), ok) == TransferSection(old(Value()), self, if to == null then None else Some(to))
      ensures ok <==> to != null
      ensures owner == if ok && kind != Normal then to else old(owner)
    {
      if to == null {
        return false;
      }
      if to != self && kind != Normal {
        owner := to;
      }
      return true;
    }
  }
}
