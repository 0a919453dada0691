/** The thread table, the list of recycled structures and the state of a thread: each locked section as a
    function, and the same section as code on the heap. */
module ThreadTable {
  import opened Base
  import opened Links
  import C = Condition

  const POSIX_THREAD_THREADS_MAX: nat := 64
  const PTHREAD_CANCELED := -1

  // ---------------------------------------------------------------- the table

  function NewSize(max: nat): nat {
    if max > 0 then 2 * max else POSIX_THREAD_THREADS_MAX
  }

  /** The first locked section of an allocation: the new ID, or None if the table is full. */
  function SlotSection<T>(slots: seq<T>, num: nat, empty: T): (seq<T>, nat, Option<nat>) {
    if num < |slots| then (slots[num := empty], num + 1, Some(num + 1)) else (slots, num, None)
  }

  /** The second one, with a bigger table in hand that holds whatever malloc left in it.  None: somebody else
      enlarged the table while the lock was dropped. */
  function GrowSection<T>(slots: seq<T>, num: nat, empty: T, saved: nat, spare: seq<T>): (seq<T>, nat, Option<nat>)
    requires num <= |slots| && |spare| == NewSize(saved)
  {
    if saved != |slots| then (slots, num, None)
    else ((slots + spare[saved..])[num := empty], num + 1, Some(num + 1))
  }

  /** The structure an allocation recycles: the first one on the list that its last user is done with. */
  function FirstDead<T(==)>(free: seq<T>, dead: set<T>): (r: Option<T>)
    ensures r.Some? ==> r.value in free && r.value in dead
    ensures r.None? <==> forall t :: t in free ==> t !in dead
  {
    if free == [] then None else if free[0] in dead then Some(free[0]) else FirstDead(free[1..], dead)
  }

  lemma {:induction false} FirstDeadSkips<T>(free: seq<T>, k: nat, dead: set<T>)
    requires k <= |free| && forall i :: 0 <= i < k ==> free[i] !in dead
    ensures FirstDead(free, dead) == FirstDead(free[k..], dead)
  {
    if k == 0 {
      assert free[0..] == free;
    } else {
      FirstDeadSkips(free[1..], k - 1, dead);
      assert free[1..][k - 1..] == free[k..];
    }
  }

  // ---------------------------------------------------------------- the state of a thread

  /** The end of pthread_exit: `leaves` says that nobody will join, so the thread gives its structure back. */
  function ExitSection(state: ThreadState, status: int, value: int, cancelled: bool): (ThreadState, int, bool)
  {
    if state == Detached then (state, status, true)
    else (Exited, if cancelled then PTHREAD_CANCELED else value, false)
  }

  datatype Verdict = Wait | Reap | NoSuchThread | NotJoinable | Done

  function JoinSection(state: ThreadState): Verdict {
    match state
    case Joinable => Wait
    case Exited => Reap
    case Terminated => NoSuchThread
    case Detached => NotJoinable
  }

  function DetachSection(state: ThreadState): (ThreadState, Verdict) {
    match state
    case Joinable => (Detached, Done)
    case Exited => (state, Reap)
    case Terminated => (state, NoSuchThread)
    case Detached => (state, NotJoinable)
  }

  ghost function DeadOf(s: seq<Pthread>): set<Pthread>
    reads s
  {
    set t | t in s && t.state == Terminated
  }

  /** The section of __pthread_exit under `state_lock`. */
  method Exit(self: Pthread, value: int, stateCond: C.PthreadCond) returns (leaves: bool)
    requires self.state == Joinable || self.state == Detached
    requires stateCond.queue.Valid() && forall t :: t in stateCond.queue.elems ==> t.port == 0
    modifies self`state, self`status, self`sent, stateCond.queue, stateCond.queue.elems`prevp, stateCond.queue.elems`port
    ensures stateCond.queue.Valid()
    ensures (self.state, self.status, leaves)
         == ExitSection(old(self.state), old(self.status), value, self.cancelEnabled && self.cancelPending)
    ensures leaves <==> old(self.state) == Detached
    ensures leaves ==> self.state == Detached && self.status == old(self.status)
    ensures !leaves ==> self.state == Exited
    ensures !leaves ==> self.status == if self.cancelEnabled && self.cancelPending then PTHREAD_CANCELED else value
    ensures stateCond.queue.elems == if leaves then old(stateCond.queue.elems) else []
    ensures self.sent == old(self.sent) + if leaves then [] else Messages(old(stateCond.queue.elems))
  {
    var status := value;
    if self.cancelEnabled && self.cancelPending {
      status := PTHREAD_CANCELED;
    }
    if self.state == Detached {
      return true;
    }
    self.state := Exited;
    self.status := status;
    stateCond.Broadcast(self);
    leaves := false;
  }

  /** The section of pthread_join under `state_lock`: what to do about the state found.  Wait is the condition of
      its loop, NoSuchThread is ESRCH, NotJoinable is EINVAL. */
  method Join(p: Pthread) returns (r: Verdict)
    ensures r == JoinSection(p.state)
    ensures r == Wait <==> p.state == Joinable
    ensures r == Reap <==> p.state == Exited
    ensures r == NoSuchThread <==> p.state == Terminated
    ensures r == NotJoinable <==> p.state == Detached
  {
    if p.state == Joinable {
      return Wait;
    }
    match p.state {
      case Exited => return Reap;
      case Terminated => return NoSuchThread;
      case _ => return NotJoinable;
    }
  }

  /** The section of pthread_detach under `state_lock`, called by `self`. */
  method Detach(p: Pthread, stateCond: C.PthreadCond, ghost self: Pthread) returns (r: Verdict)
    requires stateCond.queue.Valid() && forall t :: t in stateCond.queue.elems ==> t.port == 0
    modifies p`state, self`sent, stateCond.queue, stateCond.queue.elems`prevp, stateCond.queue.elems`port
    ensures stateCond.queue.Valid()
    ensures (p.state, r) == DetachSection(old(p.state))
    ensures r == Done <==> old(p.state) == Joinable
    ensures r == Reap <==> old(p.state) == Exited
    ensures r == NoSuchThread <==> old(p.state) == Terminated
    ensures r == NotJoinable <==> old(p.state) == Detached
    ensures p.state == if r == Done then Detached else old(p.state)
    ensures stateCond.queue.elems == if r == Done then [] else old(stateCond.queue.elems)
    ensures r == Done ==> forall t :: t in old(stateCond.queue.elems) ==> t.prevp == Null && t.port == 1
    ensures self.sent == old(self.sent) + if r == Done then Messages(old(stateCond.queue.elems)) else []
  {
    match p.state {
      case Joinable =>
        p.state := Detached;
        stateCond.Broadcast(self);
        return Done;
      case Exited => return Reap;
      case Terminated => return NoSuchThread;
      case Detached => return NotJoinable;
    }
  }

  class Table {
    var threads: array<Pthread?>
    var maxThreads: nat
    var numThreads: nat
    const freeThreads: WaitQueue

    ghost predicate Valid()
      reads this, threads
    {
      numThreads <= maxThreads == threads.Length
    }

    constructor ()
      ensures Valid() && numThreads == maxThreads == 0
      ensures freeThreads.Valid() && freeThreads.elems == []
      ensures fresh(freeThreads) && fresh(threads)
    {
      threads := new Pthread?[0](i => null);
      maxThreads, numThreads := 0, 0;
      freeThreads := new WaitQueue();
    }

    ghost predicate FirstTerminated(s: seq<Pthread>, k: nat)
      reads s
    {
      k < |s| && s[k].state == Terminated && forall i :: 0 <= i < k ==> s[i].state != Terminated
    }

    /** The scan of the free list in __pthread_alloc. */
    method Scan() returns (new_: Pthread?)
      requires freeThreads.Valid()
      ensures (if new_ == null then None else Some(new_)) == FirstDead(freeThreads.elems, DeadOf(freeThreads.elems))
      ensures new_ == null ==> forall t :: t in freeThreads.elems ==> t.state != Terminated
      ensures new_ != null ==> exists k: nat :: FirstTerminated(freeThreads.elems, k) && freeThreads.elems[k] == new_
    {
      ghost var s := freeThreads.elems;
      ghost var k := 0;
      new_ := freeThreads.first;
      while new_ != null
        invariant 0 <= k <= |s| && new_ == if k < |s| then s[k] else null
        invariant forall i :: 0 <= i < k ==> s[i] !in DeadOf(s)
        decreases |s| - k
      {
        if new_.state == Terminated {
          assert FirstTerminated(s, k);
          break;
        }
        assert s[k].next == if k + 1 < |s| then s[k + 1] else null;
        new_ := new_.next;
        k := k + 1;
      }
      FirstDeadSkips(s, k, DeadOf(s));
    }

    /** The locked section around it. */
    method Recycle() returns (new_: Pthread?)
      requires freeThreads.Valid()
      modifies freeThreads, freeThreads.elems`next, freeThreads.elems`prevp
      ensures freeThreads.Valid()
      ensures (if new_ == null then None else Some(new_)) == FirstDead(old(freeThreads.elems), old(DeadOf(freeThreads.elems)))
      ensures new_ == null ==> freeThreads.elems == old(freeThreads.elems)
      ensures new_ == null ==> forall t :: t in old(freeThreads.elems) ==> t.state != Terminated
      ensures new_ != null ==> exists k: nat :: old(FirstTerminated(freeThreads.elems, k)) && old(freeThreads.elems[k]) == new_
      ensures new_ != null ==> var p: Pthread := new_; freeThreads.elems == Without(old(freeThreads.elems), p)
      ensures new_ != null ==> new_.prevp == Null && new_ !in freeThreads.elems
    {
      new_ := Scan();
      if new_ != null {
        new_.Dequeue(freeThreads);
      }
    }

    /** __pthread_alloc, the section that looks for a free slot. */
    method TakeSlot(new_: Pthread) returns (ok: bool)
      requires Valid()
      modifies this`numThreads, threads, new_`thread
      ensures Valid() && threads == old(threads)
      ensures (threads[..], numThreads, if ok then Some(new_.thread) else None)
           == SlotSection(old(threads[..]), old(numThreads), null)
      ensures ok <==> old(numThreads) < maxThreads
      ensures ok ==> new_.thread == numThreads == old(numThreads) + 1 && threads[..] == old(threads[..])[numThreads - 1 := null]
      ensures !ok ==> numThreads == old(numThreads) && threads[..] == old(threads[..])
      ensures !ok ==> new_.thread == old(new_.thread)
    {
      if numThreads < maxThreads {
        numThreads := numThreads + 1;
        new_.thread := numThreads;
        threads[new_.thread - 1] := null;
        return true;
      }
      return false;
    }

    /** __pthread_alloc, the section entered with a table twice as large. */
    method Enlarge(new_: Pthread, saved: nat, table: array<Pthread?>) returns (ok: bool)
      requires Valid() && table.Length == NewSize(saved) && table != threads
      modifies this, table, new_`thread
      ensures Valid()
      ensures (threads[..], numThreads, if ok then Some(new_.thread) else None)
           == GrowSection(old(threads[..]), old(numThreads), null, saved, old(table[..]))
      ensures ok <==> saved == old(maxThreads)
      ensures ok ==> new_.thread == numThreads == old(numThreads) + 1 && threads[new_.thread - 1] == null
      ensures ok ==> maxThreads == if saved > 0 then 2 * saved else POSIX_THREAD_THREADS_MAX
      ensures ok ==> threads[..old(numThreads)] == old(threads[..])[..old(numThreads)]
      ensures !ok ==> numThreads == old(numThreads) && threads[..] == old(threads[..])
      ensures threads == if ok then table else old(threads)
      ensures !ok ==> new_.thread == old(new_.thread)
    {
      if saved != maxThreads {
        return false;
      }
      forall i | 0 <= i < maxThreads {
        table[i] := threads[i];
      }
      maxThreads := NewSize(saved);
      threads := table;
      assert table[..] == old(threads[..]) + old(table[..])[saved..];
      numThreads := numThreads + 1;
      new_.thread := numThreads;
      threads[new_.thread - 1] := null;
      return true;
    }

    method GetId(thread: nat) returns (p: Pthread?)
      requires Valid() && 0 < thread <= numThreads
      ensures p == threads[thread - 1]
    {
      p := threads[thread - 1];
    }

    method SetId(thread: nat, p: Pthread?)
      requires Valid() && 0 < thread <= numThreads
      modifies threads
      ensures Valid() && threads[..] == old(threads[..])[thread - 1 := p]
    {
      threads[thread - 1] := p;
    }

    /** __pthread_dealloc by `self`, the only thread that still uses `p`: withdraw it, wake bogus joiners, list it
        and only then mark it reusable. */
    method Dealloc(p: Pthread, stateCond: C.PthreadCond, ghost self: Pthread)
      requires Valid() && 0 < p.thread <= numThreads && p.state != Terminated
      requires freeThreads.Valid() && p.prevp == Null
      requires stateCond.queue.Valid() && stateCond.queue != freeThreads
      requires forall t :: t in stateCond.queue.elems ==> t.port == 0
      modifies threads, freeThreads, freeThreads.elems`prevp, p`state, p`next, p`prevp, self`sent
      modifies stateCond.queue, stateCond.queue.elems`prevp, stateCond.queue.elems`port
      ensures Valid() && threads[..] == old(threads[..])[p.thread - 1 := null]
      ensures freeThreads.Valid() && freeThreads.elems == [p] + old(freeThreads.elems)
      ensures p.state == Terminated
      ensures stateCond.queue.Valid()
      ensures stateCond.queue.elems == if old(p.state) == Exited then old(stateCond.queue.elems) else []
      ensures self.sent == old(self.sent) + if old(p.state) == Exited then [] else Messages(old(stateCond.queue.elems))
    {
      SetId(p.thread, null);
      Apart(freeThreads, stateCond.queue);
      UnlinkedIsElsewhere(stateCond.queue, p);
      if p.state != Exited {
        stateCond.Broadcast(self);
      }
      assert p.prevp == Null;
      freeThreads.Enqueue(p);
      p.state := Terminated;
    }
  }
}
