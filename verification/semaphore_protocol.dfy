/** One semaphore among any number of threads.  It refines a counter; a blocked wait takes effect at the post
    that dequeued it. */
module SemaphoreProtocol {
  import opened Base
  import opened Blocking
  import S = Semaphore

  /** Everything but `v` is history: the ledger of units that entered and left. */
  datatype Rec = Rec(v: S.Val, initial: nat, posts: nat, waits: nat, granted: set<Tid>, drained: nat)

  function Fresh(initial: nat): Rec {
    Rec(S.Val(false, initial), initial, 0, 0, {}, 0)
  }

  ghost predicate Inv(g: Net, i: nat, x: Rec) {
    && (forall t :: Dequeued(g, t, SemQ(i)) <==> t in x.granted)
    && (x.v.value > 0 ==> Qu(g, SemQ(i)) == [])
    && x.initial + x.posts == x.v.value + x.waits + |x.granted| + x.drained
  }

  lemma Frame(g: Net, g': Net, i: nat, x: Rec)
    requires Inv(g, i, x) && SameGrants(g, g', SemQ(i))
    ensures Inv(g', i, x)
  {
  }

  // ---------------------------------------------------------------- steps

  function Down(g: Net, i: nat, x: Rec, t: Tid, timed: bool, valid: bool): (Net, Rec, S.EnterResult) {
    var (v, q, r) := S.DownSection(x.v, Qu(g, SemQ(i)), t, valid || !timed);
    match r
    case Acquired => (g, x.(v := v, waits := x.waits + 1), r)
    case MustWait => (Enqueue(g, t, SemQ(i), timed), x.(v := v), r)
    case Invalid => (g, x.(v := v), r)
  }

  function TryDown(x: Rec): (Rec, bool) {
    var (v, ok) := S.TrySection(x.v);
    (if ok then x.(v := v, waits := x.waits + 1) else x, ok)
  }

  function Post(g: Net, i: nat, x: Rec, t: Tid): (Net, Rec, S.PostResult<Tid>) {
    var (v, q, r) := S.PostSection(x.v, Qu(g, SemQ(i)));
    match r
    case Counted => (g, x.(v := v, posts := x.posts + 1), r)
    case HandedTo(w) => (TakeOff(g, t, w, SemQ(i)), x.(v := v, posts := x.posts + 1, granted := x.granted + {w}), r)
  }

  function Epilogue(g: Net, x: Rec, t: Tid): (Net, Rec) {
    (Finish(g, t), x.(granted := x.granted - {t}, waits := x.waits + 1))
  }

  function GiveUp(g: Net, x: Rec, t: Tid): (Net, Rec)
    requires Th(g, t).port > 0
  {
    (Drain(g, t), x.(granted := x.granted - {t}, drained := x.drained + 1))
  }

  // ---------------------------------------------------------------- preservation

  lemma DownKeeps(g: Net, i: nat, x: Rec, t: Tid, timed: bool, valid: bool)
    requires NetInv(g) && Inv(g, i, x) && Th(g, t).wait.Out?
    ensures var (g', x', r) := Down(g, i, x, t, timed, valid); Inv(g', i, x')
  {
    EnqueueKeeps(g, t, SemQ(i), timed);
  }

  lemma TryDownKeeps(g: Net, i: nat, x: Rec)
    requires Inv(g, i, x)
    ensures Inv(g, i, TryDown(x).0)
  {
  }

  lemma PostKeeps(g: Net, i: nat, x: Rec, t: Tid)
    requires NetInv(g) && Inv(g, i, x)
    ensures var (g', x', r) := Post(g, i, x, t); Inv(g', i, x')
  {
    var (g', x', r) := Post(g, i, x, t);
    var q := Qu(g, SemQ(i));
    if r.HandedTo? {
      assert q[0] in q;
      WithoutDistinct(q, q[0]);
      assert forall u :: Waits(g', u, SemQ(i)) <==> Waits(g, u, SemQ(i));
      assert !Dequeued(g, q[0], SemQ(i));
    }
  }

  lemma EpilogueKeeps(g: Net, i: nat, x: Rec, t: Tid)
    requires NetInv(g) && Inv(g, i, x) && Waits(g, t, SemQ(i)) && AtStage(g, t, Finishing)
    ensures var (g', x') := Epilogue(g, x, t); Inv(g', i, x')
  {
    assert Dequeued(g, t, SemQ(i));
  }

  lemma GiveUpKeeps(g: Net, i: nat, x: Rec, t: Tid)
    requires NetInv(g) && Inv(g, i, x) && Waits(g, t, SemQ(i)) && AtStage(g, t, Draining) && Th(g, t).port > 0
    ensures var (g', x') := GiveUp(g, x, t); Inv(g', i, x')
  {
    assert Dequeued(g, t, SemQ(i));
  }

  /** The queues of the transition system are those the sections compute. */
  lemma QueuesAgree(g: Net, i: nat, x: Rec, t: Tid, timed: bool, valid: bool)
    ensures Qu(Down(g, i, x, t, timed, valid).0, SemQ(i)) == S.DownSection(x.v, Qu(g, SemQ(i)), t, valid || !timed).1
    ensures Qu(Post(g, i, x, t).0, SemQ(i)) == S.PostSection(x.v, Qu(g, SemQ(i))).1
  {
  }
}
