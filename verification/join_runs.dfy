/** Runs in which two threads show what can become of a join: it can outlive the thread it waits for and take the
    status of a later one, it can be overtaken by a detach, and it can meet a second join. */
module JoinRuns {
  import opened Base
  import opened Links
  import opened Lifecycle
  import LR = LifecycleResults
  import T = ThreadTable

  const ME: Aid := 0
  const YOU: Aid := 1
  const S: Sid := 0

  /** The first use of the first structure, when its ID has just been taken. */
  const NEW := ABSENT.(id := 1, custody := Creating, maker := Some(ME))

  lemma Next(l: Life, e: Action) returns (l': Life)
    requires LR.Reachable(l) && Enabled(l, e)
    ensures LR.Reachable(l') && l' == Apply(l, e)
  {
    l' := Apply(l, e);
    var states, actions :| LR.IsRun(states, actions) && states[|states| - 1] == l;
    var longer, acts := states + [l'], actions + [e];
    forall i | 0 <= i < |acts| ensures LR.Step(longer[i], acts[i], longer[i + 1]) {
      if i < |actions| { LR.StepAt(states, actions, i); }
    }
    assert LR.IsRun(longer, acts) && longer[|longer| - 1] == l';
  }

  /** The table holds one ID, that of `S`; only the two callers do anything. */
  ghost predicate At(l: Life, x: Str, mine: Pc, yours: Pc, free: seq<Sid>) {
    && LR.Reachable(l) && !l.doubled && l.reapers == map[] && l.num == 1 && |l.slots| == 64
    && l.slots[0] == (if x.custody.InTable? then Some(S) else None)
    && l.free == free && St(l, S) == x && PcOf(l, ME) == mine && PcOf(l, YOU) == yours
  }

  lemma Empty() returns (l: Life)
    ensures LR.Reachable(l) && Lifecycle.Init(l)
  {
    l := Life([], 0, [], map[], map[], [], map[], map[], false);
    assert LR.IsRun([l], []) && [l][|[l]| - 1] == l;
  }

  lemma Allocated() returns (l: Life)
    ensures LR.Reachable(l) && !l.doubled && l.reapers == map[] && l.num == 0 && l.slots == [] && l.free == []
    ensures St(l, S) == NEW.(id := 0, custody := Raw) && PcOf(l, ME) == Slot(S) && PcOf(l, YOU) == Idle
  {
    l := Empty();
    l := Next(l, Create(ME));
    l := Next(l, Recycle(ME));
    assert PcOf(l, ME) == Malloc;
    l := Next(l, NewStr(ME, Some(S), Joinable));
  }

  lemma GotId() returns (l: Life)
    ensures At(l, NEW, Setup(S), Idle, [])
  {
    l := Allocated();
    l := Next(l, TakeSlot(ME));
    assert PcOf(l, ME) == Grow(S, 0);
    l := Next(l, Enlarge(ME, Some(seq(64, i => None))));
  }

  lemma Equipped(l: Life, x: Str, yours: Pc) returns (l': Life)
    requires At(l, x, Setup(S), yours, []) && x.custody == Creating && x.id == 1
    ensures At(l', x.(state := Joinable, claim := Open, asked := false, stack := true), Publish(S), yours, [])
  {
    l' := Next(l, SetUp(ME, false));
    assert At(l', x.(state := Joinable, claim := Open, asked := false), Equip(S), yours, []);
    l' := Next(l', Provide(ME, true, true));
  }

  /** A creation from the ID up to the moment before the thread is started; `x` is what was handed out. */
  lemma Created(l: Life, x: Str, yours: Pc) returns (l': Life)
    requires At(l, x, Setup(S), yours, []) && x.custody == Creating && x.id == 1
    ensures At(l', x.(state := Joinable, claim := Open, asked := false, stack := true, custody := InTable), Start(S), yours, [])
  {
    l' := Equipped(l, x, yours);
    l' := Next(l', Post(ME));
  }

  // ---------------------------------------------------------------- a wait that outlives its thread

  /** Published, not started, and named by `YOU` against the rule. */
  const NAMED := NEW.(stack := true, custody := InTable, fair := false)

  /** What is left of it after the creation has failed. */
  const FAILED := NAMED.(stack := false, custody := Tearing(false))

  /** `YOU` joins the thread before it is started and waits. */
  lemma WaitsTooSoon() returns (l: Life)
    ensures At(l, NAMED, Start(S), JoinWait(S, 0, 0, false), [])
  {
    l := GotId();
    l := Created(l, NEW, Idle);
    l := Next(l, Join(YOU, 1));
    assert At(l, NAMED, Start(S), JoinLock(S, 0), []);
    l := Next(l, JoinCheck(YOU));
  }

  /** The thread cannot be started: it is taken out of the table again... */
  lemma StartFails() returns (l: Life)
    ensures At(l, FAILED, Tear(S, Withdraw, Failed), JoinWait(S, 0, 0, false), [])
  {
    l := WaitsTooSoon();
    l := Next(l, Launch(ME, false));
    assert At(l, NAMED, Retract(S), JoinWait(S, 0, 0, false), []);
    l := Next(l, Unpost(ME));
  }

  /** ...and the joiner is woken... */
  lemma Broadcast() returns (l: Life)
    ensures At(l, FAILED.(announced := true), Tear(S, Enlist, Failed), JoinLock(S, 0), [])
  {
    l := StartFails();
    l := Next(l, TearDown(ME));
    assert At(l, FAILED, Tear(S, Announce, Failed), JoinWait(S, 0, 0, false), []);
    l := Next(l, TearDown(ME));
  }

  /** ...but looks again before the structure is marked. */
  lemma LooksTooSoon() returns (l: Life)
    ensures At(l, FAILED.(announced := true, custody := Tearing(true)), Tear(S, Mark, Failed), JoinWait(S, 0, 0, true), [S])
  {
    l := Broadcast();
    l := Next(l, JoinCheck(YOU));
    assert At(l, FAILED.(announced := true), Tear(S, Enlist, Failed), JoinWait(S, 0, 0, true), []);
    l := Next(l, TearDown(ME));
  }

  const FREED := FAILED.(announced := true, state := Terminated, custody := Reusable, maker := None, claim := Spent)

  lemma Stranded() returns (l: Life)
    ensures At(l, FREED, Idle, JoinWait(S, 0, 0, true), [S])
  {
    l := LooksTooSoon();
    l := Next(l, TearDown(ME));
  }

  /** So it waits on a structure that is on the free list. */
  lemma StrandedHappens()
    ensures exists l :: LR.Reachable(l) && !l.doubled && LR.OnFreeList(l, S) && PcOf(l, YOU) == JoinWait(S, 0, 0, true)
  {
    var l := Stranded();
    assert LR.OnFreeList(l, S);
  }

  /** The next creation takes the structure. */
  const REUSED := FREED.(custody := Creating, use := 1, maker := Some(ME), announced := false, claim := Open)

  lemma Reused() returns (l: Life)
    ensures At(l, REUSED, Prepare(S), JoinWait(S, 0, 0, true), [])
  {
    l := Stranded();
    l := Next(l, Create(ME));
    assert At(l, FREED, Scan, JoinWait(S, 0, 0, true), [S]);
    var dead := set s | s in l.free && St(l, s).state == Terminated;
    assert S in dead && T.FirstDead(l.free, dead) == Some(S) && Without(l.free, S) == [];
    l := Next(l, Recycle(ME));
  }

  const SECOND := REUSED.(state := Joinable, stack := true, custody := InTable)

  lemma SecondRuns() returns (l: Life)
    ensures At(l, SECOND.(own := Running, maker := None), Idle, JoinWait(S, 0, 0, true), [])
  {
    l := Reused();
    l := Next(l, Initialize(ME, true));
    assert At(l, REUSED, Setup(S), JoinWait(S, 0, 0, true), []);
    l := Created(l, REUSED, JoinWait(S, 0, 0, true));
    assert At(l, SECOND, Start(S), JoinWait(S, 0, 0, true), []);
    l := Next(l, Launch(ME, true));
  }

  /** The exit of that thread ends the wait, and the join, which asked for use 0, returns what use 1 left. */
  lemma LaterUseHappens(v: int)
    ensures exists l :: LR.Reachable(l) && !l.doubled && PcOf(l, YOU) == JoinReap(S, 0, v) && St(l, S).use == 1
  {
    var l := SecondRuns();
    l := Next(l, Exit(S, v));
    assert PcOf(l, YOU) == JoinLock(S, 0) && St(l, S).state == Exited && St(l, S).status == v && St(l, S).use == 1;
    l := Next(l, JoinCheck(YOU));
    assert PcOf(l, YOU) == JoinRead(S, 0) && St(l, S).status == v && St(l, S).use == 1 && !l.doubled;
    l := Next(l, ReadStatus(YOU));
  }

  // ---------------------------------------------------------------- two calls on one thread

  const FIRST := NEW.(stack := true, custody := InTable, own := Running, maker := None)

  /** `ME` has created a thread and waits for it, as the rule allows. */
  lemma Waits() returns (l: Life)
    ensures At(l, FIRST.(claim := By(ME)), JoinWait(S, 0, 0, false), Idle, [])
  {
    l := GotId();
    l := Created(l, NEW, Idle);
    l := Next(l, Launch(ME, true));
    assert At(l, FIRST, Idle, Idle, []);
    l := Next(l, Join(ME, 1));
    assert At(l, FIRST.(claim := By(ME)), JoinLock(S, 0), Idle, []);
    l := Next(l, JoinCheck(ME));
  }

  /** A second caller is about to detach the thread (`JoinResults.DetachReleasesWaiter` says what comes of it)... */
  lemma DetachBesideJoinHappens()
    ensures exists l :: LR.Reachable(l) && !l.doubled && PcOf(l, ME) == JoinWait(S, 0, 0, false) && PcOf(l, YOU) == DetachLock(S, 0)
  {
    var l := Waits();
    l := Next(l, Detach(YOU, 1));
  }

  /** ...or to join it, too: both are woken by the exit, and see it. */
  lemma DoubledHappens()
    ensures exists l :: LR.Reachable(l) && l.doubled && PcOf(l, ME) == JoinRead(S, 0) && PcOf(l, YOU) == JoinRead(S, 0)
  {
    var l := BothWoken(0);
    l := Next(l, JoinCheck(ME));
    assert PcOf(l, ME) == JoinRead(S, 0) && (S, 0) in l.reapers;
    assert PcOf(l, YOU) == JoinLock(S, 0) && St(l, S).state == Exited && St(l, S).use == 0;
    l := Next(l, JoinCheck(YOU));
  }

  lemma BothWoken(v: int) returns (l: Life)
    ensures LR.Reachable(l) && St(l, S).state == Exited && St(l, S).use == 0
    ensures PcOf(l, ME) == JoinLock(S, 0) && PcOf(l, YOU) == JoinLock(S, 0)
  {
    l := Waits();
    l := Next(l, Join(YOU, 1));
    assert At(l, FIRST.(claim := By(ME), fair := false), JoinWait(S, 0, 0, false), JoinLock(S, 0), []);
    l := Next(l, Exit(S, v));
  }
}
