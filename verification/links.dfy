/** The thread structure and its intrusive queue links, at the level of pointers. */
module Links {
  import opened Base

  /** What a `struct __pthread **` can point at here: a queue's head word or a thread's `next` field. */
  datatype Link = Null | Head(q: WaitQueue) | NextOf(t: Pthread)

  /** A structure nobody uses is Terminated. */
  datatype ThreadState = Joinable | Detached | Exited | Terminated

  /** A wakeup message, and whether its receiver had been unlinked by then. */
  datatype Message = Message(to: Pthread, unlinked: bool)

  /** One message to each of `ts`, in order, each after it was unlinked. */
  function Messages(ts: seq<Pthread>): seq<Message> {
    seq(|ts|, i requires 0 <= i < |ts| => Message(ts[i], true))
  }

  class Pthread {
    var thread: nat  // the ID
    var state: ThreadState
    var status: int
    var stack: bool
    var threadSpecifics: Option<map<nat, int>>  // NULL until the thread first sets a value

    var next: Pthread?
    var prevp: Link
    var port: nat  // wakeup messages in the thread's port, at most one
    ghost var sent: seq<Message>  // history: the wakeups this thread has sent, which nobody else adds to

    var cancelEnabled: bool
    var cancelAsync: bool
    var cancelPending: bool
    var cancelHook: WaitQueue?  // the queue of the condition the hook would take the thread off

    constructor ()
      ensures prevp == Null && next == null && port == 0 && sent == []
      ensures cancelEnabled && !cancelAsync && !cancelPending && cancelHook == null
    {
      next, prevp, port, sent := null, Null, 0, [];
      cancelEnabled, cancelAsync, cancelPending, cancelHook := true, false, false, null;
    }

    /** __pthread_wakeup, called by `sender`: a send that must not find the port full. */
    method Wakeup(ghost sender: Pthread)
      requires port == 0
      modifies this`port, sender`sent
      ensures port == 1
      ensures sender.sent == old(sender.sent) + [Message(this, prevp == Null)]
    {
      port := port + 1;
      sender.sent := sender.sent + [Message(this, prevp == Null)];
    }

    /** __pthread_dequeue: unlink from whatever queue this is, in the middle or at either end.
        The queue and the position are ghost: the code follows `prevp` and never looks for the head. */
    method Unlink(ghost q: WaitQueue, ghost k: nat)
      requires q.Valid() && k < |q.elems| && q.elems[k] == this
      modifies this`prevp, q, q.elems`next, q.elems`prevp
      ensures q.Valid() && prevp == Null && q.elems == RemoveAt(old(q.elems), k)
      ensures next == old(next)
    {
      ghost var s := q.elems;
      NoRepeats(q);
      if next != null {
        next.prevp := prevp;
      }
      match prevp {
        case Head(h) => h.first := next;
        case NextOf(p) => p.next := next;
      }
      prevp := Null;
      q.elems := RemoveAt(s, k);
    }

    method Dequeue(ghost q: WaitQueue)
      requires q.Valid() && this in q.elems
      modifies this`prevp, q, q.elems`next, q.elems`prevp
      ensures q.Valid() && prevp == Null && next == old(next)
      ensures q.elems == Without(old(q.elems), this) && this !in q.elems
    {
      ghost var k :| 0 <= k < |q.elems| && q.elems[k] == this;
      NoRepeats(q);
      WithoutIsRemoveAt(q.elems, k);
      WithoutDistinct(q.elems, this);
      Unlink(q, k);
    }

    /** After blocking, under the queue lock: was it somebody else who took this thread off? */
    method Recheck(err: bool, ghost q: WaitQueue) returns (drain: bool)
      requires q.Valid() && (prevp != Null ==> this in q.elems)
      modifies this`prevp, q, q.elems`next, q.elems`prevp
      ensures q.Valid() && prevp == Null
      ensures q.elems == Without(old(q.elems), this) && this !in q.elems
      ensures drain == (err && this !in old(q.elems))
    {
      if prevp.Null? {
        assert forall k :: 0 <= k < |q.elems| ==> q.elems[k].prevp != Null;
        drain := err;
      } else {
        Dequeue(q);
        drain := false;
      }
    }
  }

  class WaitQueue {
    var first: Pthread?
    ghost var elems: seq<Pthread>

    ghost predicate Valid()
      reads this, elems
    {
      && first == (if elems == [] then null else elems[0])
      && (forall i {:trigger elems[i].prevp} :: 0 <= i < |elems| ==>
            elems[i].prevp == if i == 0 then Head(this) else NextOf(elems[i - 1]))
      && (forall i {:trigger elems[i].next} :: 0 <= i < |elems| ==>
            elems[i].next == if i + 1 < |elems| then elems[i + 1] else null)
    }

    constructor ()
      ensures Valid() && elems == []
    {
      first, elems := null, [];
    }

    /** __pthread_enqueue: the new element goes to the front. */
    method Enqueue(t: Pthread)
      requires Valid() && t.prevp == Null
      modifies this, t`next, t`prevp, elems`prevp
      ensures Valid() && elems == [t] + old(elems) && t.prevp != Null
    {
      assert forall k :: 0 <= k < |elems| ==> elems[k].prevp != Null;
      NoRepeats(this);
      t.next := first;
      t.prevp := Head(this);
      if first != null {
        first.prevp := NextOf(t);
      }
      first := t;
      elems := [t] + elems;
    }

    /** The dequeuing iteration, waking and counting each element; then the head word is cleared. */
    method WakeAll(ghost sender: Pthread) returns (n: nat, ghost woken: seq<Pthread>)
      requires Valid() && forall t :: t in elems ==> t.port == 0
      modifies this, elems`prevp, elems`port, sender`sent
      ensures Valid() && elems == [] && woken == old(elems) && n == |woken|
      ensures forall t :: t in woken ==> t.prevp == Null && t.port == 1
      ensures sender.sent == old(sender.sent) + Messages(woken)
    {
      n, woken := 0, elems;
      ghost var s := elems;
      NoRepeats(this);
      var iter := first;
      while iter != null
        invariant elems == s && n <= |s| && iter == if n < |s| then s[n] else null
        invariant forall i {:trigger s[i].next} :: 0 <= i < |s| ==> s[i].next == if i + 1 < |s| then s[i + 1] else null
        invariant forall i {:trigger s[i]} :: 0 <= i < n ==> s[i].prevp == Null && s[i].port == 1
        invariant forall i {:trigger s[i]} :: n <= i < |s| ==> s[i].port == 0
        invariant sender.sent == old(sender.sent) + Messages(s[..n])
        decreases |s| - n
      {
        var element := iter;
        iter := iter.next;
        element.prevp := Null;
        n := n + 1;
        element.Wakeup(sender);
        assert Messages(s[..n]) == Messages(s[..n - 1]) + [Message(element, true)];
      }
      assert s[..n] == s;
      first := null;
      elems := [];
    }
  }

  /** `prevp` is one pointer, so it pins down both the queue an element is in and its position there. */
  lemma {:induction false} SoleMembership(p: WaitQueue, q: WaitQueue, i: nat, j: nat)
    requires p.Valid() && q.Valid()
    requires i < |p.elems| && j < |q.elems| && p.elems[i] == q.elems[j]
    ensures p == q && i == j
  {
    assert p.elems[i].prevp == q.elems[j].prevp;
    if i > 0 && j > 0 {
      assert NextOf(p.elems[i - 1]) == NextOf(q.elems[j - 1]);
      SoleMembership(p, q, i - 1, j - 1);
    }
  }

  lemma NoRepeats(q: WaitQueue)
    requires q.Valid()
    ensures Distinct(q.elems)
  {
    forall i, j | 0 <= i < j < |q.elems| ensures q.elems[i] != q.elems[j] {
      if q.elems[i] == q.elems[j] { SoleMembership(q, q, i, j); }
    }
  }

  /** Two queues never share an element: relinking in one cannot disturb the other. */
  lemma Apart(p: WaitQueue, q: WaitQueue)
    requires p.Valid() && q.Valid() && p != q
    ensures forall i, j :: 0 <= i < |p.elems| && 0 <= j < |q.elems| ==> p.elems[i] != q.elems[j]
  {
    forall i, j | 0 <= i < |p.elems| && 0 <= j < |q.elems| ensures p.elems[i] != q.elems[j] {
      if p.elems[i] == q.elems[j] { SoleMembership(p, q, i, j); }
    }
  }

  /** Being linked is the same as having a `prevp`, whatever `next` still says. */
  lemma LinkedIffPrevp(q: WaitQueue, t: Pthread)
    requires q.Valid() && t in q.elems
    ensures t.prevp != Null
    ensures forall k :: 0 <= k < |q.elems| && q.elems[k] == t ==>
      t.prevp == if k == 0 then Head(q) else NextOf(q.elems[k - 1])
  {
    var k :| 0 <= k < |q.elems| && q.elems[k] == t;
    assert q.elems[k].prevp != Null;
  }

  lemma UnlinkedIsElsewhere(q: WaitQueue, t: Pthread)
    requires q.Valid() && t.prevp == Null
    ensures t !in q.elems
  {
    assert forall k :: 0 <= k < |q.elems| ==> q.elems[k].prevp != Null;
  }

  /** All the queues and all the threads of a program: a thread has a `prevp` exactly if it is in a queue. */
  ghost predicate AllLinked(qs: set<WaitQueue>, ts: set<Pthread>)
    reads qs, ts
  {
    && (forall q, i {:trigger q.elems[i]} :: q in qs && 0 <= i < |q.elems| ==> q.elems[i] in ts)
    && (forall q :: q in qs ==> q.Valid())
    && (forall t {:trigger InSome(qs, t)} :: t in ts && t.prevp != Null ==> InSome(qs, t))
  }

  ghost predicate InSome(qs: set<WaitQueue>, t: Pthread)
    reads qs
  {
    exists q :: q in qs && t in q.elems
  }

  lemma PrevpIffQueued(qs: set<WaitQueue>, ts: set<Pthread>, t: Pthread)
    requires AllLinked(qs, ts) && t in ts
    ensures t.prevp != Null <==> InSome(qs, t)
    ensures forall p, q :: p in qs && q in qs && t in p.elems && t in q.elems ==> p == q
  {
    forall q | q in qs && t in q.elems ensures t.prevp != Null {
      LinkedIffPrevp(q, t);
    }
    forall p, q | p in qs && q in qs && t in p.elems && t in q.elems ensures p == q {
      var i :| 0 <= i < |p.elems| && p.elems[i] == t;
      var j :| 0 <= j < |q.elems| && q.elems[j] == t;
      SoleMembership(p, q, i, j);
    }
  }

  /** Queueing and dequeuing in one queue disturb no other. */
  method EnqueueAmong(q: WaitQueue, t: Pthread, ghost qs: set<WaitQueue>, ghost ts: set<Pthread>)
    requires AllLinked(qs, ts) && q in qs && t in ts && t.prevp == Null
    modifies q, ts`next, ts`prevp
    ensures AllLinked(qs, ts) && q.elems == [t] + old(q.elems)
    ensures forall p :: p in qs && p != q ==> p.elems == old(p.elems)
  {
    ghost var was := q.elems;
    forall p | p in qs && p != q ensures t !in p.elems && forall u :: u in p.elems ==> u !in was {
      UnlinkedIsElsewhere(p, t);
      Apart(p, q);
    }
    label before:
    q.Enqueue(t);
    forall p | p in qs && p != q ensures p.Valid() {
      assert old@before(p.Valid());
      assert forall i :: 0 <= i < |p.elems| ==> p.elems[i] in p.elems && p.elems[i] !in was;
    }
    forall u | u in ts && u.prevp != Null ensures InSome(qs, u) {
      if u != t {
        assert old@before(InSome(qs, u));
        var p :| p in qs && u in old@before(p.elems);
        assert u in p.elems;
      }
    }
  }

  method DequeueAmong(q: WaitQueue, t: Pthread, ghost qs: set<WaitQueue>, ghost ts: set<Pthread>)
    requires AllLinked(qs, ts) && q in qs && t in ts && t in q.elems
    modifies q, ts`next, ts`prevp
    ensures AllLinked(qs, ts) && t.prevp == Null && q.elems == Without(old(q.elems), t)
    ensures forall p :: p in qs && p != q ==> p.elems == old(p.elems)
  {
    ghost var was := q.elems;
    forall p | p in qs && p != q ensures forall u :: u in p.elems ==> u !in was {
      Apart(p, q);
    }
    label before:
    t.Dequeue(q);
    StaysInside(was, t, ts);
    forall p | p in qs && p != q ensures p.Valid() {
      assert old@before(p.Valid());
      assert forall i :: 0 <= i < |p.elems| ==> p.elems[i] in p.elems && p.elems[i] !in was;
    }
    forall u | u in ts && u.prevp != Null ensures InSome(qs, u) {
      assert old@before(InSome(qs, u));
      var p :| p in qs && u in old@before(p.elems);
      assert u in p.elems;
    }
  }

  lemma StaysInside(s: seq<Pthread>, t: Pthread, ts: set<Pthread>)
    requires forall i {:trigger s[i]} :: 0 <= i < |s| ==> s[i] in ts
    ensures forall i {:trigger Without(s, t)[i]} :: 0 <= i < |Without(s, t)| ==> Without(s, t)[i] in ts
  {
    forall i | 0 <= i < |Without(s, t)| ensures Without(s, t)[i] in ts {
      assert Without(s, t)[i] in Without(s, t);
    }
  }

  /** What other threads may do once the lock is dropped: anything to the links of `others` and to the queue. */
  method Interference(ghost others: set<Pthread>, q: WaitQueue)
    modifies others, q
  {
  }

  /** The barrier's walk over a chain it has cut off from the queue, without the lock: `self` sends one message to
      each thread of the chain, in order, and to nobody else.  Every thread already woken, and every thread outside
      the chain, may relink itself meanwhile, on this queue too. */
  method WalkDetached(self: Pthread, chain: Pthread?, q: WaitQueue, ghost s: seq<Pthread>, ghost outside: set<Pthread>)
    requires Distinct(s) && self !in s && self !in outside && forall t :: t in s ==> t !in outside
    requires chain == if s == [] then null else s[0]
    requires forall i {:trigger s[i].next} :: 0 <= i < |s| ==> s[i].next == if i + 1 < |s| then s[i + 1] else null
    requires forall t :: t in s ==> t.port == 0
    modifies self`sent, s, outside, q
    ensures self.sent == old(self.sent) + Messages(s)
  {
    ghost var k := 0;
    var iter := chain;
    while iter != null
      invariant k <= |s| && iter == if k < |s| then s[k] else null
      invariant forall i {:trigger s[i].next} :: k <= i < |s| ==> s[i].next == if i + 1 < |s| then s[i + 1] else null
      invariant forall i {:trigger s[i]} :: k <= i < |s| ==> s[i].port == 0
      invariant self.sent == old(self.sent) + Messages(s[..k])
      decreases |s| - k
    {
      var element := iter;
      iter := iter.next;
      element.prevp := Null;
      element.Wakeup(self);
      k := k + 1;
      assert Messages(s[..k]) == Messages(s[..k - 1]) + [Message(element, true)];
      ghost var done := set t | t in s[..k];
      assert forall i :: k <= i < |s| ==> s[i] !in done && s[i] !in outside;
      Interference(done + outside, q);
    }
    assert s[..k] == s;
  }
}
