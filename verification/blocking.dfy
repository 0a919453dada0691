/** The protocol below every primitive: a wait queue per lock word, one wakeup port per thread,
    and the sends a waker still owes to threads it has taken off a queue. */
module Blocking {
  import opened Base

  type Tid = nat

  datatype Mid = User(n: nat) | CancelLock(t: Tid)

  datatype Qid = MutexQ(m: Mid) | ReaderQ(r: nat) | WriterQ(w: nat) | SemQ(s: nat) | CondQ(c: nat) | BarrierQ(b: nat)

  /** How far a thread is through one blocking call.
      Blocking: enqueued, message not received, not timed out.
      TimedOut: the timed receive returned ETIMEDOUT, the queue lock is not yet retaken.
      Taken:    the message was received, the queue lock is not yet retaken.
      Draining: found off the queue after a timeout, receiving the message it is owed.
      Finishing: found off the queue after its message; only the primitive's epilogue is left. */
  datatype Stage = Blocking | TimedOut | Taken | Draining | Finishing

  datatype Wait = Out | In(q: Qid, timed: bool, stage: Stage)

  /** Where the wakeup that a blocked thread is waiting for is. */
  datatype Place = Nowhere | OnQueue | OwedBy(w: Tid) | InPort

  /** `place` is a history variable: no operation reads it. */
  datatype Thread = Thread(wait: Wait, port: nat, sends: seq<Tid>, place: Place)

  datatype Net = Net(threads: map<Tid, Thread>, queues: map<Qid, seq<Tid>>)

  function Th(g: Net, t: Tid): Thread {
    if t in g.threads then g.threads[t] else Thread(Out, 0, [], Nowhere)
  }

  function Qu(g: Net, q: Qid): seq<Tid> {
    if q in g.queues then g.queues[q] else []
  }

  function SetTh(g: Net, t: Tid, x: Thread): (g': Net)
    ensures forall y {:trigger Th(g', y)} :: Th(g', y) == if y == t then x else Th(g, y)
    ensures forall p {:trigger Qu(g', p)} :: Qu(g', p) == Qu(g, p)
  {
    g.(threads := g.threads[t := x])
  }

  function SetQu(g: Net, q: Qid, s: seq<Tid>): (g': Net)
    ensures forall y {:trigger Th(g', y)} :: Th(g', y) == Th(g, y)
    ensures forall p {:trigger Qu(g', p)} :: Qu(g', p) == if p == q then s else Qu(g, p)
  {
    g.(queues := g.queues[q := s])
  }

  predicate Waits(g: Net, t: Tid, q: Qid) {
    Th(g, t).wait.In? && Th(g, t).wait.q == q
  }

  predicate AtStage(g: Net, t: Tid, stage: Stage) {
    Th(g, t).wait.In? && Th(g, t).wait.stage == stage
  }

  /** Inside a blocking call, having taken neither its wakeup nor its timeout exit. */
  predicate Owed(g: Net, t: Tid) {
    Th(g, t).wait.In? && Th(g, t).wait.stage in {Blocking, TimedOut, Draining}
  }

  /** `prevp` is not null. */
  predicate Queued(g: Net, t: Tid) {
    Th(g, t).wait.In? && t in Qu(g, Th(g, t).wait.q)
  }

  /** Waiting on `q` but taken off it by somebody else: the grant is in flight. */
  predicate Dequeued(g: Net, t: Tid, q: Qid) {
    Waits(g, t, q) && t !in Qu(g, q)
  }

  // ---------------------------------------------------------------- operations

  function Enqueue(g: Net, t: Tid, q: Qid, timed: bool): Net {
    SetQu(SetTh(g, t, Th(g, t).(wait := In(q, timed, Blocking), place := OnQueue)), q, [t] + Qu(g, q))
  }

  /** `w` takes `t` off `q` and owes it a wakeup. */
  function TakeOff(g: Net, w: Tid, t: Tid, q: Qid): Net {
    var g1 := SetTh(g, t, Th(g, t).(place := OwedBy(w)));
    SetQu(SetTh(g1, w, Th(g1, w).(sends := Th(g, w).sends + [t])), q, Without(Qu(g, q), t))
  }

  function Mark(g: Net, w: Tid, ts: seq<Tid>): (g': Net)
    ensures forall p {:trigger Qu(g', p)} :: Qu(g', p) == Qu(g, p)
    ensures forall y {:trigger Th(g', y)} ::
      Th(g', y) == if y in ts then Th(g, y).(place := OwedBy(w)) else Th(g, y)
    decreases |ts|
  {
    if ts == [] then g else Mark(SetTh(g, ts[0], Th(g, ts[0]).(place := OwedBy(w))), w, ts[1..])
  }

  /** `w` empties `q` and owes every thread that was on it a wakeup, head first. */
  function TakeAll(g: Net, w: Tid, q: Qid): Net {
    var g1 := Mark(g, w, Qu(g, q));
    SetQu(SetTh(g1, w, Th(g1, w).(sends := Th(g, w).sends + Qu(g, q))), q, [])
  }

  /** `w` puts one message in the port of the next thread it owes one. */
  function Send(g: Net, w: Tid): Net
    requires Th(g, w).sends != []
  {
    var t := Th(g, w).sends[0];
    var g1 := SetTh(g, w, Th(g, w).(sends := Th(g, w).sends[1..]));
    SetTh(g1, t, Th(g1, t).(port := Th(g1, t).port + 1, place := InPort))
  }

  function Receive(g: Net, t: Tid): Net
    requires Th(g, t).wait.In? && Th(g, t).port > 0
  {
    SetTh(g, t, Th(g, t).(port := Th(g, t).port - 1, wait := Th(g, t).wait.(stage := Taken), place := Nowhere))
  }

  function TimeOut(g: Net, t: Tid): Net
    requires Th(g, t).wait.In?
  {
    SetTh(g, t, Th(g, t).(wait := Th(g, t).wait.(stage := TimedOut)))
  }

  /** Retake the queue lock after blocking.  Still queued: dequeue self and leave.  Off the queue:
      drain the port after a timeout, otherwise go on to the epilogue. */
  function Recheck(g: Net, t: Tid): Net
    requires Th(g, t).wait.In?
  {
    var wt := Th(g, t).wait;
    if t in Qu(g, wt.q) then
      SetQu(SetTh(g, t, Th(g, t).(wait := Out, place := Nowhere)), wt.q, Without(Qu(g, wt.q), t))
    else
      SetTh(g, t, Th(g, t).(wait := wt.(stage := if wt.stage == TimedOut then Draining else Finishing)))
  }

  function Drain(g: Net, t: Tid): Net
    requires Th(g, t).port > 0
  {
    SetTh(g, t, Th(g, t).(port := Th(g, t).port - 1, wait := Out, place := Nowhere))
  }

  function Finish(g: Net, t: Tid): Net {
    SetTh(g, t, Th(g, t).(wait := Out))
  }

  // ---------------------------------------------------------------- invariant

  /** The history variable agrees with the queues and with the sends still owed. */
  ghost predicate PlacesOk(g: Net) {
    && (forall q, t {:trigger t in Qu(g, q)} {:trigger Waits(g, t, q)} ::
          t in Qu(g, q) <==> Th(g, t).place == OnQueue && Waits(g, t, q))
    && (forall w, t {:trigger t in Th(g, w).sends} {:trigger Th(g, t), OwedBy(w)} ::
          t in Th(g, w).sends <==> Th(g, t).place == OwedBy(w))
  }

  /** ... and with the ports and the stages. */
  ghost predicate StagesOk(g: Net) {
    && (forall t :: Th(g, t).port == if Th(g, t).place == InPort then 1 else 0)
    && (forall t :: Owed(g, t) <==> Th(g, t).place != Nowhere)
    && (forall t :: AtStage(g, t, Draining) ==> Th(g, t).place != OnQueue)
    && (forall t :: AtStage(g, t, Draining) || AtStage(g, t, TimedOut) ==> Th(g, t).wait.timed)
  }

  ghost predicate DistinctOk(g: Net) {
    && (forall q :: Distinct(Qu(g, q)))
    && (forall w :: Distinct(Th(g, w).sends))
  }

  ghost predicate NetInv(g: Net) {
    PlacesOk(g) && StagesOk(g) && DistinctOk(g)
  }

  /** Nothing about queue `q` or about who waits on it differs. */
  ghost predicate SameView(g: Net, g': Net, q: Qid) {
    Qu(g', q) == Qu(g, q) && forall t :: Waits(g', t, q) == Waits(g, t, q)
  }

  ghost predicate SameElsewhere(g: Net, g': Net, q: Qid) {
    forall p :: p != q ==> SameView(g, g', p)
  }

  ghost predicate SameEverywhere(g: Net, g': Net) {
    forall p :: SameView(g, g', p)
  }

  /** Who holds a grant from `q` does not change, and an empty `q` stays empty. */
  ghost predicate SameGrants(g: Net, g': Net, q: Qid) {
    && (Qu(g, q) == [] ==> Qu(g', q) == [])
    && (forall t :: Dequeued(g', t, q) <==> Dequeued(g, t, q))
  }

  // ---------------------------------------------------------------- preservation

  lemma EnqueueKeeps(g: Net, t: Tid, q: Qid, timed: bool)
    requires NetInv(g) && Th(g, t).wait.Out?
    ensures t !in Qu(g, q)
    ensures NetInv(Enqueue(g, t, q, timed))
    ensures SameElsewhere(g, Enqueue(g, t, q, timed), q)
  {
    assert t !in Qu(g, q);
  }

  lemma TakeOffPlaces(g: Net, w: Tid, t: Tid, q: Qid)
    requires PlacesOk(g) && DistinctOk(g) && t in Qu(g, q)
    ensures PlacesOk(TakeOff(g, w, t, q))
  {
    WithoutDistinct(Qu(g, q), t);
  }

  lemma TakeOffKeeps(g: Net, w: Tid, t: Tid, q: Qid)
    requires NetInv(g) && t in Qu(g, q)
    ensures NetInv(TakeOff(g, w, t, q))
    ensures SameElsewhere(g, TakeOff(g, w, t, q), q)
  {
    WithoutDistinct(Qu(g, q), t);
    TakeOffPlaces(g, w, t, q);
    DistinctConcat(Th(g, w).sends, [t]);
  }

  lemma TakeAllPlaces(g: Net, w: Tid, q: Qid)
    requires PlacesOk(g)
    ensures PlacesOk(TakeAll(g, w, q))
  {
    var g' := TakeAll(g, w, q);
    assert Th(g', w).sends == Th(g, w).sends + Qu(g, q);
    assert forall t :: t in Th(g', w).sends <==> t in Th(g, w).sends || t in Qu(g, q);
  }

  lemma TakeAllKeeps(g: Net, w: Tid, q: Qid)
    requires NetInv(g)
    ensures NetInv(TakeAll(g, w, q))
    ensures SameElsewhere(g, TakeAll(g, w, q), q)
  {
    TakeAllPlaces(g, w, q);
    DistinctConcat(Th(g, w).sends, Qu(g, q));
    assert Th(TakeAll(g, w, q), w).sends == Th(g, w).sends + Qu(g, q);
  }

  lemma SendPlaces(g: Net, w: Tid)
    requires PlacesOk(g) && DistinctOk(g) && Th(g, w).sends != []
    ensures PlacesOk(Send(g, w))
  {
    var t := Th(g, w).sends[0];
    assert t in Th(g, w).sends;
    assert t !in Th(g, w).sends[1..];
  }

  /** A send never finds a message already in the port. */
  lemma SendKeeps(g: Net, w: Tid)
    requires NetInv(g) && Th(g, w).sends != []
    ensures Th(g, Th(g, w).sends[0]).port == 0
    ensures NetInv(Send(g, w))
    ensures SameEverywhere(g, Send(g, w))
  {
    assert Th(g, w).sends[0] in Th(g, w).sends;
    SendPlaces(g, w);
  }

  lemma ReceiveKeeps(g: Net, t: Tid)
    requires NetInv(g) && AtStage(g, t, Blocking) && Th(g, t).port > 0
    ensures NetInv(Receive(g, t))
    ensures SameEverywhere(g, Receive(g, t))
  {
  }

  lemma DrainKeeps(g: Net, t: Tid)
    requires NetInv(g) && AtStage(g, t, Draining) && Th(g, t).port > 0
    ensures NetInv(Drain(g, t))
    ensures SameElsewhere(g, Drain(g, t), Th(g, t).wait.q)
  {
  }

  lemma TimeOutKeeps(g: Net, t: Tid)
    requires NetInv(g) && AtStage(g, t, Blocking) && Th(g, t).wait.timed
    ensures NetInv(TimeOut(g, t))
    ensures SameEverywhere(g, TimeOut(g, t))
  {
  }

  /** Still queued means a timeout: no call leaves early with success. */
  lemma RecheckKeeps(g: Net, t: Tid)
    requires NetInv(g) && (AtStage(g, t, TimedOut) || AtStage(g, t, Taken))
    ensures Queued(g, t) ==> AtStage(g, t, TimedOut)
    ensures NetInv(Recheck(g, t))
    ensures SameElsewhere(g, Recheck(g, t), Th(g, t).wait.q)
    ensures !Queued(g, t) ==> SameEverywhere(g, Recheck(g, t))
  {
    WithoutDistinct(Qu(g, Th(g, t).wait.q), t);
  }

  lemma FinishKeeps(g: Net, t: Tid)
    requires NetInv(g) && (AtStage(g, t, Taken) || AtStage(g, t, Finishing))
    ensures NetInv(Finish(g, t))
    ensures SameElsewhere(g, Finish(g, t), Th(g, t).wait.q)
  {
  }

  // ---------------------------------------------------------------- steps seen from outside

  /** The net after a step of `t` on queue `q`: the other threads' waits are untouched. */
  ghost predicate NetMove(g: Net, g': Net, t: Tid, q: Qid) {
    && NetInv(g') && SameElsewhere(g, g', q)
    && (forall u :: u != t ==> Th(g', u).wait == Th(g, u).wait)
  }

  ghost predicate NetStep(g: Net, g': Net, t: Tid, q: Qid) {
    NetMove(g, g', t, q) && (Th(g', t).wait.Out? || Th(g', t).wait.q == q)
  }

  lemma NothingMoved(g: Net, t: Tid, q: Qid)
    requires NetInv(g) && Th(g, t).wait.Out?
    ensures NetStep(g, g, t, q)
  {
  }

  lemma QueuedUp(g: Net, t: Tid, q: Qid, timed: bool)
    requires NetInv(g) && Th(g, t).wait.Out?
    ensures NetStep(g, Enqueue(g, t, q, timed), t, q)
  {
    EnqueueKeeps(g, t, q, timed);
  }

  lemma HandedOff(g: Net, t: Tid, w: Tid, q: Qid)
    requires NetInv(g) && Th(g, t).wait.Out? && w in Qu(g, q)
    ensures NetStep(g, TakeOff(g, t, w, q), t, q)
  {
    TakeOffKeeps(g, t, w, q);
  }

  lemma AllHandedOff(g: Net, t: Tid, q: Qid)
    requires NetInv(g) && Th(g, t).wait.Out?
    ensures NetStep(g, TakeAll(g, t, q), t, q)
  {
    TakeAllKeeps(g, t, q);
  }

  lemma Finished(g: Net, t: Tid, q: Qid)
    requires NetInv(g) && Waits(g, t, q) && (AtStage(g, t, Finishing) || AtStage(g, t, Taken))
    ensures NetStep(g, Finish(g, t), t, q)
  {
    FinishKeeps(g, t);
  }

  lemma Drained(g: Net, t: Tid, q: Qid)
    requires NetInv(g) && Waits(g, t, q) && AtStage(g, t, Draining) && Th(g, t).port > 0
    ensures NetStep(g, Drain(g, t), t, q)
  {
    DrainKeeps(g, t);
  }

  /** Being taken off leaves a thread on no queue, still waiting, and owed exactly what was owed before plus it. */
  lemma TakeOffEffect(g: Net, w: Tid, t: Tid, q: Qid)
    requires NetInv(g) && t in Qu(g, q)
    ensures var g' := TakeOff(g, w, t, q);
      && (forall p :: t !in Qu(g', p)) && Waits(g', t, q)
      && Th(g', w).sends == Th(g, w).sends + [t] && Qu(g', q) == Without(Qu(g, q), t)
  {
    WithoutDistinct(Qu(g, q), t);
    assert forall p :: t in Qu(g, p) ==> Waits(g, t, p);
  }

  // ---------------------------------------------------------------- what the invariant says

  /** A thread that still waits for its wakeup is in exactly one of three places; any other is in none. */
  lemma ExactlyOnePlace(g: Net, t: Tid)
    requires NetInv(g)
    ensures (exists q :: t in Qu(g, q)) <==> Queued(g, t)
    ensures Owed(g, t) ==>
      || (Queued(g, t) && (forall w :: t !in Th(g, w).sends) && Th(g, t).port == 0)
      || (!Queued(g, t) && (exists w :: t in Th(g, w).sends) && Th(g, t).port == 0)
      || (!Queued(g, t) && (forall w :: t !in Th(g, w).sends) && Th(g, t).port == 1)
    ensures !Owed(g, t) ==> !Queued(g, t) && (forall w :: t !in Th(g, w).sends) && Th(g, t).port == 0
    ensures forall v, w, i, j | 0 <= i < |Th(g, v).sends| && 0 <= j < |Th(g, w).sends| ::
      Th(g, v).sends[i] == t && Th(g, w).sends[j] == t ==> v == w && i == j
  {
    if Th(g, t).place.OwedBy? {
      assert t in Th(g, Th(g, t).place.w).sends;
    }
    forall v, w, i, j | 0 <= i < |Th(g, v).sends| && 0 <= j < |Th(g, w).sends| && Th(g, v).sends[i] == t && Th(g, w).sends[j] == t
      ensures v == w && i == j
    {
      assert t in Th(g, v).sends && t in Th(g, w).sends;
    }
  }
}
