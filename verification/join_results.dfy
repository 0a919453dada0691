/** What holds of joins and detaches, in every run: what a join returns, when two calls take the same thread down,
    who is woken by what, and when a wait outlives the thread it waits for. */
module JoinResults {
  import opened Base
  import opened Links
  import opened Lifecycle
  import opened LifecycleResults
  import T = ThreadTable

  // ---------------------------------------------------------------- who sees an exit

  /** The exit that the step sees, if it is a check of the state that finds EXITED. */
  function Seen(l: Life, e: Action): Option<(Sid, nat)>
    requires Enabled(l, e)
  {
    if IsCheck(e) && St(l, PcOf(l, e.a).s).state == Exited then
      Some((PcOf(l, e.a).s, St(l, PcOf(l, e.a).s).use))
    else None
  }

  lemma CheckReapers(l: Life, e: Action, x: (Sid, nat))
    requires Enabled(l, e) && IsCheck(e)
    ensures x in Apply(l, e).reapers <==> x in l.reapers || Seen(l, e) == Some(x)
    ensures Apply(l, e).doubled <==> l.doubled || (Seen(l, e).Some? && Seen(l, e).value in l.reapers)
  {
    if e.JoinCheck? {
      JoinCheckReapers(l, e.a, PcOf(l, e.a).s, PcOf(l, e.a).use, x);
    } else {
      DetachCheckReapers(l, e.a, PcOf(l, e.a).s, PcOf(l, e.a).use, x);
    }
  }

  lemma JoinCheckReapers(l: Life, a: Aid, s: Sid, u: nat, x: (Sid, nat))
    ensures x in DoJoinCheck(l, a, s, u).reapers <==> x in l.reapers || (St(l, s).state == Exited && x == (s, St(l, s).use))
    ensures DoJoinCheck(l, a, s, u).doubled <==> l.doubled || (St(l, s).state == Exited && (s, St(l, s).use) in l.reapers)
  {
  }

  lemma DetachCheckReapers(l: Life, a: Aid, s: Sid, u: nat, x: (Sid, nat))
    ensures x in DoDetachCheck(l, a, s, u).reapers <==> x in l.reapers || (St(l, s).state == Exited && x == (s, St(l, s).use))
    ensures DoDetachCheck(l, a, s, u).doubled <==> l.doubled || (St(l, s).state == Exited && (s, St(l, s).use) in l.reapers)
  {
  }

  lemma SeenStep(l: Life, e: Action, x: (Sid, nat))
    requires Enabled(l, e)
    ensures x in Apply(l, e).reapers <==> x in l.reapers || Seen(l, e) == Some(x)
    ensures Apply(l, e).doubled <==> l.doubled || (Seen(l, e).Some? && Seen(l, e).value in l.reapers)
  {
    if IsCheck(e) {
      CheckReapers(l, e, x);
    } else {
      ReapersStay(l, e);
    }
  }

  /** The `i`-th step of the run sees the exit `x`. */
  ghost predicate Sees(states: seq<Life>, actions: seq<Action>, i: nat, x: (Sid, nat)) {
    i < |actions| && i < |states| && Enabled(states[i], actions[i]) && Seen(states[i], actions[i]) == Some(x)
  }

  lemma {:induction false} SeenIff(states: seq<Life>, actions: seq<Action>, i: nat, x: (Sid, nat))
    requires IsRun(states, actions) && i < |states|
    ensures x in states[i].reapers <==> exists j: nat :: j < i && Sees(states, actions, j, x)
  {
    if i > 0 {
      SeenIff(states, actions, i - 1, x);
      StepAt(states, actions, i - 1);
      SeenStep(states[i - 1], actions[i - 1], x);
      assert Seen(states[i - 1], actions[i - 1]) == Some(x) <==> Sees(states, actions, i - 1, x);
    }
  }

  /** Two steps before the `i`-th state saw the same exit. */
  ghost predicate SeenTwice(states: seq<Life>, actions: seq<Action>, i: nat) {
    exists j: nat, k: nat, x :: j < k < i && Sees(states, actions, j, x) && Sees(states, actions, k, x)
  }

  /** A run has doubled exactly if two joins or detaches have seen EXITED in the same use of a structure: both
      will take the stack and the structure down. */
  lemma {:induction false} DoubledIff(states: seq<Life>, actions: seq<Action>, i: nat)
    requires IsRun(states, actions) && i < |states|
    ensures states[i].doubled <==> SeenTwice(states, actions, i)
  {
    if i > 0 {
      DoubledIff(states, actions, i - 1);
      StepAt(states, actions, i - 1);
      var seen := Seen(states[i - 1], actions[i - 1]);
      SeenStep(states[i - 1], actions[i - 1], if seen.Some? then seen.value else (0, 0));
      if seen.Some? {
        SeenIff(states, actions, i - 1, seen.value);
        assert Sees(states, actions, i - 1, seen.value);
        if seen.value in states[i - 1].reapers {
          var j: nat :| j < i - 1 && Sees(states, actions, j, seen.value);
          assert SeenTwice(states, actions, i);
        }
      }
      if SeenTwice(states, actions, i) && !SeenTwice(states, actions, i - 1) {
        var j: nat, k: nat, x :| j < k < i && Sees(states, actions, j, x) && Sees(states, actions, k, x);
        assert k == i - 1;
      }
    }
  }

  // ---------------------------------------------------------------- the rule

  /** The step names `s` against the rule: before its thread was started, or beside another call. */
  predicate BreaksRule(l: Life, e: Action, s: Sid) {
    && (e.Join? || e.Detach?) && 0 < e.id <= |l.slots| && l.slots[e.id - 1] == Some(s)
    && !MayName(St(l, s))
  }

  lemma NamingIsFair(l: Life, a: Aid, id: nat, join: bool, s: Sid)
    requires 0 < id <= |l.slots|
    ensures St(DoName(l, a, id, join), s).fair <==> St(l, s).fair && !(l.slots[id - 1] == Some(s) && !MayName(St(l, s)))
  {
  }

  lemma CallIsFair(l: Life, e: Action, s: Sid)
    requires Enabled(l, e) && !IsCreation(e) && !IsStart(e) && !IsEnding(e)
    ensures St(Apply(l, e), s).fair <==> St(l, s).fair && !BreaksRule(l, e, s)
  {
    match e
    case Join(a, id) => NamingIsFair(l, a, id, true, s);
    case Detach(a, id) => NamingIsFair(l, a, id, false, s);
    case JoinCheck(a) => JoinCheckGoes(l, a, PcOf(l, a).s, PcOf(l, a).use, s);
    case DetachCheck(a) => DetachCheckGoes(l, a, PcOf(l, a).s, PcOf(l, a).use, s);
    case _ =>
  }

  lemma FairStep(l: Life, e: Action, s: Sid)
    requires Sound(l) && Enabled(l, e)
    ensures St(Apply(l, e), s).fair <==> St(l, s).fair && !BreaksRule(l, e, s)
  {
    if IsCreation(e) {
      CreationGoes(l, e, s);
    } else if IsStart(e) {
      StartGoes(l, e, s);
    } else if IsEnding(e) {
      EndingGoes(l, e, s);
    } else {
      CallIsFair(l, e, s);
    }
  }

  ghost predicate Breaks(states: seq<Life>, actions: seq<Action>, i: nat, s: Sid) {
    i < |actions| && i < |states| && BreaksRule(states[i], actions[i], s)
  }

  /** A structure counts as fair exactly as long as every call that named it kept the rule. */
  lemma {:induction false} FairIff(states: seq<Life>, actions: seq<Action>, i: nat, s: Sid)
    requires IsRun(states, actions) && i < |states| && !states[i].doubled
    ensures St(states[i], s).fair <==> forall j: nat :: j < i ==> !Breaks(states, actions, j, s)
  {
    if i > 0 {
      NotDoubledBefore(states, actions, i - 1, i);
      FairIff(states, actions, i - 1, s);
      RunKeeps(states, actions, i - 1);
      StepAt(states, actions, i - 1);
      FairStep(states[i - 1], actions[i - 1], s);
      assert Breaks(states, actions, i - 1, s) <==> BreaksRule(states[i - 1], actions[i - 1], s);
    }
  }

  /** The rule does not let a second caller see an exit: `doubled` needs a structure named against it. */
  lemma FairNeverDoubles(l: Life, e: Action)
    requires Reachable(l) && !l.doubled && Enabled(l, e) && Apply(l, e).doubled
    ensures Seen(l, e).Some? && !St(l, Seen(l, e).value.0).fair
  {
    SeenStep(l, e, (0, 0));
    ReachableHolds(l);
    var (s, u) := Seen(l, e).value;
    var r := l.reapers[(s, u)];
    assert StrOk(l, s) && ActOk(l, e.a) && ActOk(l, r);
  }

  // ---------------------------------------------------------------- what a join returns

  /** A joiner has its value only once a thread has exited, and it is the one the structure's present use left;
      that is the use the joiner named, if all calls on the structure kept the rule. */
  lemma JoinHasExitStatus(l: Life, a: Aid, s: Sid, u: nat, v: int)
    requires Reachable(l) && !l.doubled
    requires PcOf(l, a) == JoinReap(s, u, v) || exists stage :: PcOf(l, a) == Tear(s, stage, Joined(u, v))
    ensures var x := St(l, s);
      && x.state == Exited && x.own == Stopped && u <= x.use && (x.fair ==> u == x.use)
      && (s, x.use) in l.exits && l.exits[(s, x.use)] == v
  {
    ReachableHolds(l);
    assert StrOk(l, s) && ActOk(l, a);
  }

  /** A step that changes the record of exits is an exit, of a use that had none. */
  lemma ExitsGrow(l: Life, e: Action, s: Sid, u: nat)
    requires Inv(l) && !l.doubled && Enabled(l, e)
    ensures (s, u) in l.exits ==> (s, u) in Apply(l, e).exits && Apply(l, e).exits[(s, u)] == l.exits[(s, u)]
    ensures (s, u) in Apply(l, e).exits && (s, u) !in l.exits ==> IsExit(l, e, s, u, Apply(l, e).exits[(s, u)])
  {
    if e.Exit? {
      assert StrOk(l, e.s);
    } else {
      OthersKeepExits(l, e);
    }
  }

  lemma OthersKeepExits(l: Life, e: Action)
    requires Enabled(l, e) && !e.Exit?
    ensures Apply(l, e).exits == l.exits
  {
    if IsCreation(e) || IsStart(e) {
      CreationKeepsExits(l, e);
    } else {
      CallsKeepExits(l, e);
    }
  }

  lemma CreationKeepsExits(l: Life, e: Action)
    requires Enabled(l, e) && (IsCreation(e) || IsStart(e))
    ensures Apply(l, e).exits == l.exits
  {
  }

  lemma CallsKeepExits(l: Life, e: Action)
    requires Enabled(l, e) && !e.Exit? && !IsCreation(e) && !IsStart(e)
    ensures Apply(l, e).exits == l.exits
  {
  }

  /** `s`, in its `u`-th use, exits and leaves `v` for whoever joins it: what it passed to pthread_exit, or
      PTHREAD_CANCELED if cancellation is enabled and pending. */
  predicate IsExit(l: Life, e: Action, s: Sid, u: nat, v: int) {
    var x := St(l, s);
    e.Exit? && e.s == s && x.use == u && v == if x.enabled && x.pending then T.PTHREAD_CANCELED else e.value
  }

  lemma {:induction false} ExitRecorded(states: seq<Life>, actions: seq<Action>, i: nat, s: Sid, u: nat) returns (k: nat)
    requires IsRun(states, actions) && i < |states| && !states[i].doubled && (s, u) in states[i].exits
    ensures k < i && IsExit(states[k], actions[k], s, u, states[i].exits[(s, u)])
  {
    assert i > 0;
    NotDoubledBefore(states, actions, i - 1, i);
    StepAt(states, actions, i - 1);
    RunKeeps(states, actions, i - 1);
    ExitsGrow(states[i - 1], actions[i - 1], s, u);
    if (s, u) in states[i - 1].exits {
      k := ExitRecorded(states, actions, i - 1, s, u);
    } else {
      k := i - 1;
    }
  }

  /** In a run, what a join returns was passed to pthread_exit before, by the thread of the structure's present
      use; by the thread that was asked for, if all calls on the structure kept the rule. */
  lemma JoinReturnsExitStatus(states: seq<Life>, actions: seq<Action>, i: nat, a: Aid, s: Sid, u: nat, v: int)
    requires IsRun(states, actions) && i < |states| && !states[i].doubled && PcOf(states[i], a) == JoinReap(s, u, v)
    ensures exists k: nat :: k < i && IsExit(states[k], actions[k], s, St(states[i], s).use, v)
    ensures St(states[i], s).fair ==> St(states[i], s).use == u
  {
    RunIsReachable(states, actions, i);
    JoinHasExitStatus(states[i], a, s, u, v);
    var k := ExitRecorded(states, actions, i, s, St(states[i], s).use);
    assert IsExit(states[k], actions[k], s, St(states[i], s).use, v);
  }

  // ---------------------------------------------------------------- waiting

  /** The use that a caller looked at is over. */
  predicate Over(l: Life, s: Sid, seen: nat) {
    seen < St(l, s).use || St(l, s).state == Terminated
  }

  /** The maker of `s` could not start its thread, has sent the broadcast of the teardown, and has not marked the
      structure yet. */
  ghost predicate Closing(l: Life, s: Sid) {
    exists b: Aid :: PcOf(l, b) == Tear(s, Enlist, Failed) || PcOf(l, b) == Tear(s, Mark, Failed)
  }

  lemma ClosingIff(l: Life, s: Sid)
    requires Sound(l)
    ensures Closing(l, s) ==> St(l, s).announced && St(l, s).own == NotStarted && Alive(St(l, s))
    ensures St(l, s).announced && St(l, s).state == Joinable && St(l, s).id > 0 && !Closing(l, s) ==> St(l, s).custody.Creating?
  {
    assert StrOk(l, s);
    if Closing(l, s) {
      var b: Aid :| PcOf(l, b) == Tear(s, Enlist, Failed) || PcOf(l, b) == Tear(s, Mark, Failed);
      assert ActOk(l, b);
    } else if St(l, s).maker.Some? {
      assert ActOk(l, St(l, s).maker.value);
    }
  }

  /** Nobody waits in vain for the use of the structure it last looked at, unless it looked too late: its thread
      is joinable and runs or is about to be started, and whatever ends that wakes the waiter. */
  lemma WaiterNotStranded(l: Life, a: Aid, s: Sid, u: nat, seen: nat)
    requires Reachable(l) && !l.doubled && PcOf(l, a) == JoinWait(s, u, seen, false)
    ensures var x := St(l, s);
      && x.state == Joinable && x.use == seen && !Closing(l, s)
      && (x.own == Running || (x.own == NotStarted && x.maker.Some? && Makes(PcOf(l, x.maker.value)) == Some(s)))
      && (x.fair ==> x.own == Running && x.use == u)
  {
    ReachableHolds(l);
    assert StrOk(l, s) && ActOk(l, a);
    ClosingIff(l, s);
  }

  /** A wait is `late` exactly if the use it is for is over, or its broadcast has been sent. */
  lemma LateIff(l: Life, a: Aid, s: Sid, u: nat, seen: nat, late: bool)
    requires Reachable(l) && !l.doubled && PcOf(l, a) == JoinWait(s, u, seen, late)
    ensures late <==> Over(l, s, seen) || Closing(l, s)
  {
    ReachableHolds(l);
    assert StrOk(l, s) && ActOk(l, a);
    ClosingIff(l, s);
  }

  /** A check that makes the caller wait is late exactly if it falls between the broadcast and the mark of a
      teardown of a thread that was never started. */
  lemma CheckIsLateIff(l: Life, a: Aid, s: Sid, u: nat)
    requires Reachable(l) && !l.doubled && PcOf(l, a) == JoinLock(s, u) && St(l, s).state == Joinable
    ensures PcOf(DoJoinCheck(l, a, s, u), a) == JoinWait(s, u, St(l, s).use, St(l, s).announced)
    ensures St(l, s).announced <==> Closing(l, s)
  {
    ReachableHolds(l);
    assert StrOk(l, s) && ActOk(l, a);
    ClosingIff(l, s);
  }

  /** The step makes `a` wait: it is its own check. */
  predicate Begins(l: Life, e: Action, a: Aid, pc: Pc)
    requires pc.JoinWait?
  {
    && e == JoinCheck(a) && PcOf(l, a) == JoinLock(pc.s, pc.use)
    && St(l, pc.s).state == Joinable && pc.seen == St(l, pc.s).use && pc.late == St(l, pc.s).announced
  }

  lemma EndingBeginsNoWait(l: Life, e: Action, a: Aid)
    requires Enabled(l, e) && IsEnding(e) && PcOf(Apply(l, e), a).JoinWait?
    ensures PcOf(l, a) == PcOf(Apply(l, e), a)
  {
    match e
    case TearDown(b) => TearStepBeginsNoWait(l, PcOf(l, b).s, PcOf(l, b).stage, a);
    case Leave(s) => TearStepBeginsNoWait(l, s, St(l, s).own.stage, a);
    case _ =>
  }

  lemma TearStepBeginsNoWait(l: Life, s: Sid, stage: Stage, a: Aid)
    ensures PcOf(TearStep(l, s, stage), a) == PcOf(l, a) || PcOf(TearStep(l, s, stage), a).JoinLock?
  {
  }

  lemma CreationBeginsNoWait(l: Life, e: Action, a: Aid)
    requires Enabled(l, e) && IsCreation(e) && PcOf(Apply(l, e), a).JoinWait?
    ensures PcOf(l, a) == PcOf(Apply(l, e), a)
  {
  }

  lemma StartBeginsNoWait(l: Life, e: Action, a: Aid)
    requires Enabled(l, e) && IsStart(e) && PcOf(Apply(l, e), a).JoinWait?
    ensures PcOf(l, a) == PcOf(Apply(l, e), a)
  {
  }

  lemma CheckBeginsWait(l: Life, b: Aid, s: Sid, u: nat, a: Aid)
    requires PcOf(l, b) == JoinLock(s, u) && PcOf(DoJoinCheck(l, b, s, u), a).JoinWait?
    ensures var pc := PcOf(DoJoinCheck(l, b, s, u), a); PcOf(l, a) == pc || Begins(l, JoinCheck(b), a, pc)
  {
  }

  lemma DetachBeginsNoWait(l: Life, b: Aid, s: Sid, u: nat, a: Aid)
    requires PcOf(DoDetachCheck(l, b, s, u), a).JoinWait?
    ensures PcOf(l, a) == PcOf(DoDetachCheck(l, b, s, u), a)
  {
  }

  lemma CallBeginsWait(l: Life, e: Action, a: Aid)
    requires Enabled(l, e) && !IsCreation(e) && !IsStart(e) && !IsEnding(e) && PcOf(Apply(l, e), a).JoinWait?
    ensures PcOf(l, a) == PcOf(Apply(l, e), a) || Begins(l, e, a, PcOf(Apply(l, e), a))
  {
    match e
    case JoinCheck(b) => CheckBeginsWait(l, b, PcOf(l, b).s, PcOf(l, b).use, a);
    case DetachCheck(b) => DetachBeginsNoWait(l, b, PcOf(l, b).s, PcOf(l, b).use, a);
    case _ =>
  }

  lemma WaitBegins(l: Life, e: Action, a: Aid)
    requires Enabled(l, e) && PcOf(Apply(l, e), a).JoinWait?
    ensures PcOf(l, a) == PcOf(Apply(l, e), a) || Begins(l, e, a, PcOf(Apply(l, e), a))
  {
    if IsCreation(e) {
      CreationBeginsNoWait(l, e, a);
    } else if IsStart(e) {
      StartBeginsNoWait(l, e, a);
    } else if IsEnding(e) {
      EndingBeginsNoWait(l, e, a);
    } else {
      CallBeginsWait(l, e, a);
    }
  }

  /** `a` has been waiting from its check at `k` on. */
  ghost predicate WaitsSince(states: seq<Life>, actions: seq<Action>, k: nat, i: nat, a: Aid) {
    && k < i < |states| && i <= |actions| && PcOf(states[i], a).JoinWait?
    && Begins(states[k], actions[k], a, PcOf(states[i], a))
    && forall n :: k < n <= i ==> PcOf(states[n], a) == PcOf(states[i], a)
  }

  lemma {:induction false} BeganWaiting(states: seq<Life>, actions: seq<Action>, i: nat, a: Aid) returns (k: nat)
    requires IsRun(states, actions) && i < |states| && PcOf(states[i], a).JoinWait?
    ensures WaitsSince(states, actions, k, i, a)
  {
    assert i > 0;
    StepAt(states, actions, i - 1);
    WaitBegins(states[i - 1], actions[i - 1], a);
    if PcOf(states[i - 1], a) == PcOf(states[i], a) {
      k := BeganWaiting(states, actions, i - 1, a);
    } else {
      k := i - 1;
    }
  }

  /** The use is over, or its broadcast has been sent. */
  ghost predicate OverBy(l: Life, s: Sid, seen: nat) {
    Over(l, s, seen) || Closing(l, s)
  }

  /** At `k` the use was `seen`, and its broadcast had been sent, or not. */
  ghost predicate LookedAt(states: seq<Life>, k: nat, s: Sid, seen: nat, sent: bool) {
    k < |states| && St(states[k], s).use == seen && (Closing(states[k], s) <==> sent)
  }

  /** In a run, a joiner is still waiting although the use it last looked at is over, or its broadcast sent, exactly
      if that look fell between the broadcast and the mark of a creation that could not start its thread. */
  lemma StrandedIff(states: seq<Life>, actions: seq<Action>, i: nat, a: Aid, s: Sid, u: nat, seen: nat, late: bool)
    requires IsRun(states, actions) && i < |states| && !states[i].doubled && PcOf(states[i], a) == JoinWait(s, u, seen, late)
    ensures exists k: nat :: WaitsSince(states, actions, k, i, a) && LookedAt(states, k, s, seen, OverBy(states[i], s, seen))
  {
    var k := BeganWaiting(states, actions, i, a);
    NotDoubledBefore(states, actions, k, i);
    RunIsReachable(states, actions, i);
    RunIsReachable(states, actions, k);
    LateIff(states[i], a, s, u, seen, late);
    CheckIsLateIff(states[k], a, s, u);
    assert WaitsSince(states, actions, k, i, a);
  }

  // ---------------------------------------------------------------- waking

  /** An exit wakes whoever waits, for this use or, too late, for an earlier one; what the caller then finds is the
      exit and its status. */
  lemma ExitReleasesWaiter(l: Life, a: Aid, s: Sid, u: nat, seen: nat, late: bool, value: int)
    requires Reachable(l) && !l.doubled && PcOf(l, a) == JoinWait(s, u, seen, late)
    requires Enabled(l, Exit(s, value)) && (late ==> St(l, s).state == Joinable)
    ensures var l1 := DoExit(l, s, value);
      && PcOf(l1, a) == JoinLock(s, u)
      && PcOf(DoJoinCheck(l1, a, s, u), a) == JoinRead(s, u)
      && St(l1, s).status == Leaves(St(l, s), value)
  {
    ReachableHolds(l);
    assert ActOk(l, a);
  }

  /** A detach that gets to the thread before its exit wakes whoever waits for it, and what the caller then finds
      ends its call. */
  lemma DetachReleasesWaiter(l: Life, a: Aid, b: Aid, s: Sid, u: nat, seen: nat, w: nat)
    requires Reachable(l) && !l.doubled && PcOf(l, a) == JoinWait(s, u, seen, false) && PcOf(l, b) == DetachLock(s, w)
    ensures var l1 := DoDetachCheck(l, b, s, w);
      && PcOf(l1, b) == Idle && St(l1, s).state == Detached
      && PcOf(l1, a) == JoinLock(s, u)
      && PcOf(DoJoinCheck(l1, a, s, u), a) == Idle
  {
    WaiterNotStranded(l, a, s, u, seen);
  }

  /** Nobody waits for a use that was detached, whenever it looked. */
  lemma NobodyWaitsForDetached(l: Life, a: Aid, s: Sid, u: nat, seen: nat, late: bool)
    requires Reachable(l) && !l.doubled && PcOf(l, a) == JoinWait(s, u, seen, late) && St(l, s).state != Joinable
    ensures Over(l, s, seen)
  {
    ReachableHolds(l);
    assert ActOk(l, a);
  }
}
