/** Condition variables and deferred cancellation: each locked section as a function, and as code on the heap. */
module Condition {
  import opened Base
  import opened Links

  /** The fields a thread's `cancel_lock` protects.  `hook` names the condition its owner can be taken off. */
  datatype Cancel<+Q> = Cancel(enabled: bool, async: bool, pending: bool, hook: Option<Q>)

  function FreshCancel<Q>(): Cancel<Q> {
    Cancel(true, false, false, None)
  }

  predicate Acts<Q>(c: Cancel<Q>) {
    c.enabled && c.pending
  }

  /** The section that opens a wait, under `cancel_lock`: either act on a pending request, or set the hook,
      go deferred and queue.  The last component is the type to restore. */
  function ArmSection<Q, T>(c: Cancel<Q>, q: seq<T>, self: T, cond: Q): (Cancel<Q>, seq<T>, bool, bool) {
    if Acts(c) then (c, q, true, c.async)
    else (c.(async := false, hook := Some(cond)), [self] + q, false, c.async)
  }

  /** The section that closes a wait, under `cancel_lock`. */
  function DisarmSection<Q>(c: Cancel<Q>, oldAsync: bool): (Cancel<Q>, bool) {
    (c.(hook := None, async := oldAsync), Acts(c))
  }

  datatype Request<+Q> = Nothing | Kernel | Hook(cond: Q)

  /** pthread_cancel, under the target's `cancel_lock`: what is left to do after recording the request. */
  function RequestSection<Q>(c: Cancel<Q>): (Cancel<Q>, Request<Q>) {
    if c.pending then (c, Nothing)
    else
      var c1 := c.(pending := true);
      (c1, if !c.enabled then Nothing else if c.async then Kernel
           else if c.hook.Some? then Hook(c.hook.value) else Nothing)
  }

  /** cancel_hook, for a thread on the queue `q`, whatever queue that is: the test is on `prevp`. */
  function HookSection<T(==)>(q: seq<T>, wakeup: T): (seq<T>, bool) {
    (Without(q, wakeup), wakeup in q)
  }

  function SignalSection<T>(q: seq<T>): (seq<T>, Option<T>) {
    if q == [] then (q, None) else (q[1..], Some(q[0]))
  }

  ghost function CancelOf(t: Pthread): Cancel<WaitQueue>
    reads t
  {
    Cancel(t.cancelEnabled, t.cancelAsync, t.cancelPending, if t.cancelHook == null then None else Some(t.cancelHook))
  }

  class PthreadCond {
    const queue: WaitQueue

    constructor ()
      ensures queue.Valid() && queue.elems == [] && fresh(queue)
    {
      queue := new WaitQueue();
    }

    /** __pthread_cond_signal; the wakeup is sent after the section. */
    method Signal() returns (wakeup: Pthread?)
      requires queue.Valid()
      modifies queue, queue.elems`next, queue.elems`prevp
      ensures queue.Valid()
      ensures (queue.elems, if wakeup == null then None else Some(wakeup)) == SignalSection(old(queue.elems))
      ensures if wakeup == null then old(queue.elems) == [] == queue.elems
        else wakeup.prevp == Null && old(queue.elems) == [wakeup] + queue.elems
    {
      wakeup := queue.first;
      if wakeup != null {
        wakeup.Dequeue(queue);
      }
    }

    /** __pthread_cond_broadcast: every wakeup is sent inside the section. */
    method Broadcast(ghost sender: Pthread)
      requires queue.Valid() && forall t :: t in queue.elems ==> t.port == 0
      modifies queue, queue.elems`prevp, queue.elems`port, sender`sent
      ensures queue.Valid() && queue.elems == []
      ensures forall t :: t in old(queue.elems) ==> t.prevp == Null && t.port == 1
      ensures sender.sent == old(sender.sent) + Messages(old(queue.elems))
    {
      var n, woken := queue.WakeAll(sender);
    }

    /** cancel_hook, up to its wakeup.  `q` is the queue the thread is on, if it is on one: the code looks at
        `prevp` only, so it need not be this condition's. */
    method CancelHook(wakeup: Pthread, ghost q: WaitQueue) returns (unblock: bool)
      requires q.Valid() && queue.Valid() && (wakeup.prevp != Null ==> wakeup in q.elems)
      modifies wakeup`prevp, q, q.elems`next, q.elems`prevp
      ensures q.Valid() && queue.Valid() && wakeup.prevp == Null
      ensures (q.elems, unblock) == HookSection(old(q.elems), wakeup)
      ensures unblock <==> old(wakeup.prevp) != Null
      ensures q.elems == if old(wakeup.prevp) != Null then Without(old(q.elems), wakeup) else old(q.elems)
      ensures q != queue ==> queue.elems == old(queue.elems)
    {
      if q != queue { Apart(q, queue); }
      unblock := wakeup.prevp != Null;
      if unblock {
        wakeup.Dequeue(q);
      } else {
        UnlinkedIsElsewhere(q, wakeup);
      }
    }

    /** __pthread_cond_timedwait_internal from taking `cancel_lock` to releasing it. */
    method WaitArm(self: Pthread) returns (cancelled: bool, oldAsync: bool)
      requires queue.Valid() && self.prevp == Null
      modifies self`next, self`prevp, self`cancelAsync, self`cancelHook, queue, queue.elems`prevp
      ensures queue.Valid()
      ensures (CancelOf(self), queue.elems, cancelled, oldAsync)
           == ArmSection(old(CancelOf(self)), old(queue.elems), self, queue)
      ensures cancelled <==> old(self.cancelEnabled) && old(self.cancelPending)
      ensures oldAsync == old(self.cancelAsync)
      ensures if cancelled then CancelOf(self) == old(CancelOf(self)) && queue.elems == old(queue.elems)
        else self.cancelHook == queue && !self.cancelAsync && queue.elems == [self] + old(queue.elems)
    {
      cancelled := self.cancelEnabled && self.cancelPending;
      oldAsync := self.cancelAsync;
      if !cancelled {
        self.cancelHook := queue;
        if oldAsync {
          self.cancelAsync := false;
        }
        queue.Enqueue(self);
      }
    }

    /** The queue-locked section after blocking.  `err` says that the wait timed out; the thread still being
        queued implies it, as the source asserts. */
    method WaitRecheck(self: Pthread, err: bool) returns (drain: bool)
      requires queue.Valid() && (self.prevp != Null ==> self in queue.elems && err)
      modifies self`prevp, queue, queue.elems`next, queue.elems`prevp
      ensures queue.Valid() && self.prevp == Null
      ensures queue.elems == Without(old(queue.elems), self)
      ensures drain == (err && self !in old(queue.elems))
    {
      drain := self.Recheck(err, queue);
    }

    /** __pthread_cond_timedwait_internal from retaking `cancel_lock` to releasing it. */
    static method WaitDisarm(self: Pthread, oldAsync: bool) returns (cancelled: bool)
      modifies self`cancelAsync, self`cancelHook
      ensures (CancelOf(self), cancelled) == DisarmSection(old(CancelOf(self)), oldAsync)
      ensures self.cancelHook == null && self.cancelAsync == oldAsync
      ensures cancelled <==> self.cancelEnabled && self.cancelPending
    {
      self.cancelHook := null;
      self.cancelAsync := oldAsync;
      cancelled := self.cancelEnabled && self.cancelPending;
    }

    /** pthread_cancel, under the target's `cancel_lock` and before the hook is run.  The request is recorded,
        whatever else there is to do; the hook is run for a new request to an enabled, deferred thread only. */
    static method RequestCancel(p: Pthread) returns (r: Request<WaitQueue>)
      modifies p`cancelPending
      ensures (CancelOf(p), r) == RequestSection(old(CancelOf(p)))
      ensures p.cancelPending
      ensures r.Hook? <==> !old(p.cancelPending) && p.cancelEnabled && !p.cancelAsync && p.cancelHook != null
      ensures r.Hook? ==> r.cond == p.cancelHook
      ensures r.Kernel? <==> !old(p.cancelPending) && p.cancelEnabled && p.cancelAsync
    {
      if p.cancelPending {
        return Nothing;
      }
      p.cancelPending := true;
      if !p.cancelEnabled {
        return Nothing;
      }
      if p.cancelAsync {
        return Kernel;
      }
      if p.cancelHook != null {
        return Hook(p.cancelHook);
      }
      return Nothing;
    }
  }
}
