/** What holds of the thread table and of recycled structures, in every run up to the moment when a second caller
    takes the same exited thread down (`JoinResults.DoubledIff`). */
module LifecycleResults {
  import opened Base
  import opened Links
  import opened Lifecycle
  import opened LifecycleProof
  import T = ThreadTable

  // ---------------------------------------------------------------- runs

  ghost predicate IsRun(states: seq<Life>, actions: seq<Action>) {
    && |states| == |actions| + 1 && Lifecycle.Init(states[0])
    && forall i {:trigger Step(states[i], actions[i], states[i + 1])} :: 0 <= i < |actions| ==> Step(states[i], actions[i], states[i + 1])
  }

  lemma StepAt(states: seq<Life>, actions: seq<Action>, i: nat)
    requires IsRun(states, actions) && i < |actions|
    ensures Step(states[i], actions[i], states[i + 1])
  {
  }

  ghost predicate Step(l: Life, e: Action, l': Life) {
    Enabled(l, e) && l' == Apply(l, e)
  }

  ghost predicate Reachable(l: Life) {
    exists states, actions :: IsRun(states, actions) && states[|states| - 1] == l
  }

  lemma InitHolds(l: Life)
    requires Lifecycle.Init(l)
    ensures Sound(l) && !l.doubled
  {
    forall s ensures StrOk(l, s) {
    }
    forall a: Aid ensures ActOk(l, a) {
    }
  }

  predicate IsCreation(e: Action) {
    e.Create? || e.Recycle? || e.Initialize? || e.NewStr? || e.TakeSlot? || e.Enlarge?
  }

  predicate IsStart(e: Action) {
    e.SetUp? || e.Provide? || e.Post? || e.Launch? || e.Unpost?
  }

  /** A step of a thread on itself, or of a teardown. */
  predicate IsEnding(e: Action) {
    e.TearDown? || e.Leave? || e.Exit? || e.SetCancelState? || e.Cancel?
  }

  lemma CreationKeeps(l: Life, e: Action)
    requires Sound(l) && Enabled(l, e) && IsCreation(e)
    ensures Sound(Apply(l, e))
  {
    match e
    case Create(a) => PcStep(l, a, Scan);
    case Recycle(a) => RecycleStep(l, a);
    case Initialize(a, ok) => InitializeStep(l, a, PcOf(l, a).s, ok);
    case NewStr(a, got, junk) => if got.None? { PcStep(l, a, Idle); } else { NewStrStep(l, a, got.value, junk); }
    case TakeSlot(a) => TakeSlotStep(l, a, PcOf(l, a).s);
    case Enlarge(a, spare) => EnlargeStep(l, a, PcOf(l, a).s, PcOf(l, a).saved, spare);
  }

  lemma StartKeeps(l: Life, e: Action)
    requires Sound(l) && Enabled(l, e) && IsStart(e)
    ensures Sound(Apply(l, e))
  {
    match e
    case SetUp(a, detached) => SetUpStep(l, a, PcOf(l, a).s, detached);
    case Provide(a, stackOk, restOk) => ProvideStep(l, a, PcOf(l, a).s, stackOk, restOk);
    case Post(a) => PostStep(l, a, PcOf(l, a).s);
    case Launch(a, ok) => LaunchStep(l, a, PcOf(l, a).s, ok);
    case Unpost(a) => UnpostStep(l, a, PcOf(l, a).s);
  }

  lemma EndingKeeps(l: Life, e: Action)
    requires Sound(l) && Enabled(l, e) && IsEnding(e)
    ensures Sound(Apply(l, e))
  {
    match e
    case TearDown(a) => TearDownStep(l, a, PcOf(l, a).s, PcOf(l, a).stage, PcOf(l, a).why);
    case Leave(s) => LeaveStep(l, s);
    case Exit(s, value) => ExitStep(l, s, value);
    case SetCancelState(s, on) =>
      assert StrOk(l, s);
      CancelStep(l, s, St(l, s).(enabled := on));
    case Cancel(s) => CancelStep(l, s, St(l, s).(pending := true));
  }

  lemma ReadStatusStep(l: Life, a: Aid)
    requires Sound(l) && PcOf(l, a).JoinRead?
    ensures Sound(SetPc(l, a, JoinReap(PcOf(l, a).s, PcOf(l, a).use, St(l, PcOf(l, a).s).status)))
  {
    assert ActOk(l, a);
    PcStep(l, a, JoinReap(PcOf(l, a).s, PcOf(l, a).use, St(l, PcOf(l, a).s).status));
  }

  lemma CallKeeps(l: Life, e: Action)
    requires Sound(l) && Enabled(l, e) && !Apply(l, e).doubled && !IsCreation(e) && !IsStart(e) && !IsEnding(e)
    ensures Sound(Apply(l, e))
  {
    match e
    case Join(a, id) => NameStep(l, a, id, true);
    case JoinCheck(a) => JoinCheckStep(l, a, PcOf(l, a).s, PcOf(l, a).use);
    case Abandon(a) => AbandonStep(l, a, PcOf(l, a).s);
    case ReadStatus(a) => ReadStatusStep(l, a);
    case Reap(a) =>
      var pc := PcOf(l, a);
      ReapStep(l, a, pc.s, if pc.JoinReap? then Joined(pc.use, pc.value) else Detaching(pc.use));
    case Detach(a, id) => NameStep(l, a, id, false);
    case DetachCheck(a) => DetachCheckStep(l, a, PcOf(l, a).s, PcOf(l, a).use);
  }

  /** The only steps that record who saw an exit. */
  predicate IsCheck(e: Action) {
    e.JoinCheck? || e.DetachCheck?
  }

  lemma ReapersStay(l: Life, e: Action)
    requires Enabled(l, e) && !IsCheck(e)
    ensures Apply(l, e).doubled == l.doubled && Apply(l, e).reapers == l.reapers
  {
    if IsCreation(e) {
      CreationReapers(l, e);
    } else if IsEnding(e) {
      EndingReapers(l, e);
    } else {
      CallReapers(l, e);
    }
  }

  lemma CreationReapers(l: Life, e: Action)
    requires Enabled(l, e) && IsCreation(e)
    ensures Apply(l, e).doubled == l.doubled && Apply(l, e).reapers == l.reapers
  {
  }

  lemma EndingReapers(l: Life, e: Action)
    requires Enabled(l, e) && IsEnding(e)
    ensures Apply(l, e).doubled == l.doubled && Apply(l, e).reapers == l.reapers
  {
  }

  lemma CallReapers(l: Life, e: Action)
    requires Enabled(l, e) && !IsCheck(e) && !IsCreation(e) && !IsEnding(e)
    ensures Apply(l, e).doubled == l.doubled && Apply(l, e).reapers == l.reapers
  {
  }

  lemma DoubledStays(l: Life, e: Action)
    requires Enabled(l, e) && l.doubled
    ensures Apply(l, e).doubled
  {
    if !IsCheck(e) { ReapersStay(l, e); }
  }

  /** Every step keeps the invariant. */
  lemma StepKeeps(l: Life, e: Action)
    requires Inv(l) && Enabled(l, e)
    ensures Inv(Apply(l, e))
  {
    if l.doubled {
      DoubledStays(l, e);
    } else if IsCreation(e) {
      CreationKeeps(l, e);
    } else if IsStart(e) {
      StartKeeps(l, e);
    } else if IsEnding(e) {
      EndingKeeps(l, e);
    } else if !Apply(l, e).doubled {
      CallKeeps(l, e);
    }
  }

  /** The invariant holds in every state of every run. */
  lemma {:induction false} RunKeeps(states: seq<Life>, actions: seq<Action>, i: nat)
    requires IsRun(states, actions) && i < |states|
    ensures Inv(states[i])
  {
    if i == 0 {
      InitHolds(states[0]);
    } else {
      RunKeeps(states, actions, i - 1);
      StepAt(states, actions, i - 1);
      StepKeeps(states[i - 1], actions[i - 1]);
    }
  }

  lemma ReachableHolds(l: Life)
    requires Reachable(l) && !l.doubled
    ensures Sound(l)
  {
    var states, actions :| IsRun(states, actions) && states[|states| - 1] == l;
    RunKeeps(states, actions, |states| - 1);
  }

  lemma RunIsReachable(states: seq<Life>, actions: seq<Action>, i: nat)
    requires IsRun(states, actions) && i < |states|
    ensures Reachable(states[i])
  {
    forall k | 0 <= k < i
      ensures Step(states[..i + 1][k], actions[..i][k], states[..i + 1][k + 1])
    {
      StepAt(states, actions, k);
    }
    assert IsRun(states[..i + 1], actions[..i]);
  }

  /** Nothing undoes it: a run that has not doubled by `j` had not by `i`. */
  lemma {:induction false} NotDoubledBefore(states: seq<Life>, actions: seq<Action>, i: nat, j: nat)
    requires IsRun(states, actions) && i <= j < |states| && !states[j].doubled
    ensures !states[i].doubled
    decreases j
  {
    if i < j {
      StepAt(states, actions, j - 1);
      if states[j - 1].doubled { DoubledStays(states[j - 1], actions[j - 1]); }
      NotDoubledBefore(states, actions, i, j - 1);
    }
  }

  // ---------------------------------------------------------------- what no step changes

  /** `s` is as fair as before, and its thread still runs if it did. */
  predicate Goes(l: Life, l': Life, s: Sid) {
    St(l', s).fair == St(l, s).fair && (St(l, s).own.Running? ==> St(l', s).own.Running?)
  }

  /** So are its cancellation fields. */
  predicate SameFlags(l: Life, l': Life, s: Sid) {
    St(l', s).enabled == St(l, s).enabled && St(l', s).pending == St(l, s).pending
  }

  predicate SameAsked(l: Life, l': Life, s: Sid) {
    St(l', s).asked == St(l, s).asked
  }

  /** A structure is handed out with fresh cancellation fields. */
  predicate Refreshes(l: Life, e: Action, s: Sid) {
    (e.Initialize? && e.ok && PcOf(l, e.a) == Prepare(s)) || (e.NewStr? && e.got == Some(s))
  }

  /** The steps that decide whether a thread is to be detached. */
  predicate Decides(l: Life, e: Action, s: Sid) {
    || (e.SetUp? && PcOf(l, e.a) == Setup(s))
    || (e.DetachCheck? && PcOf(l, e.a).DetachLock? && PcOf(l, e.a).s == s && St(l, s).state == Joinable)
  }

  /** The only other steps that touch them. */
  predicate SetsFlag(e: Action, s: Sid) {
    (e.SetCancelState? || e.Cancel?) && e.s == s
  }

  lemma TearStepGoes(l: Life, s: Sid, stage: Stage, y: Sid)
    ensures Goes(l, TearStep(l, s, stage), y) && SameFlags(l, TearStep(l, s, stage), y)
    ensures SameAsked(l, TearStep(l, s, stage), y)
  {
  }

  lemma EndingGoes(l: Life, e: Action, s: Sid)
    requires Enabled(l, e) && IsEnding(e)
    ensures St(Apply(l, e), s).fair == St(l, s).fair
    ensures (e.Exit? ==> e.s != s) ==> Goes(l, Apply(l, e), s)
    ensures !SetsFlag(e, s) ==> SameFlags(l, Apply(l, e), s)
    ensures SameAsked(l, Apply(l, e), s)
  {
    match e
    case TearDown(a) => TearStepGoes(l, PcOf(l, a).s, PcOf(l, a).stage, s);
    case Leave(y) => TearStepGoes(l, y, St(l, y).own.stage, s);
    case _ =>
  }

  lemma RecycleGoes(l: Life, a: Aid, s: Sid)
    ensures Goes(l, DoRecycle(l, a), s) && SameFlags(l, DoRecycle(l, a), s)
    ensures SameAsked(l, DoRecycle(l, a), s)
  {
    var r := T.FirstDead(l.free, set y | y in l.free && St(l, y).state == Terminated);
    if r.Some? { HandedOut(l, a, r.value); }
  }

  lemma EnlargeGoes(l: Life, a: Aid, spare: Option<seq<Option<Sid>>>, s: Sid)
    requires Sound(l) && Enabled(l, Enlarge(a, spare))
    ensures var l' := DoEnlarge(l, a, PcOf(l, a).s, PcOf(l, a).saved, spare); Goes(l, l', s) && SameFlags(l, l', s)
    ensures SameAsked(l, DoEnlarge(l, a, PcOf(l, a).s, PcOf(l, a).saved, spare), s)
  {
    assert ActOk(l, a) && StrOk(l, PcOf(l, a).s);
    EnlargeKeepsFlags(l, a, PcOf(l, a).s, PcOf(l, a).saved, spare, s);
  }

  lemma EnlargeKeepsFlags(l: Life, a: Aid, y: Sid, saved: nat, spare: Option<seq<Option<Sid>>>, s: Sid)
    requires l.num <= |l.slots| && (spare.Some? ==> |spare.value| == T.NewSize(saved))
    requires St(l, y).enabled && !St(l, y).pending && !St(l, y).asked
    ensures SameFlags(l, DoEnlarge(l, a, y, saved, spare), s) && SameAsked(l, DoEnlarge(l, a, y, saved, spare), s)
  {
  }

  lemma TakeSlotGoes(l: Life, a: Aid, y: Sid, s: Sid)
    ensures Goes(l, DoTakeSlot(l, a, y), s) && SameFlags(l, DoTakeSlot(l, a, y), s)
    ensures SameAsked(l, DoTakeSlot(l, a, y), s)
  {
  }

  lemma InitializeGoes(l: Life, a: Aid, ok: bool, s: Sid)
    requires Sound(l) && Enabled(l, Initialize(a, ok))
    ensures var l' := DoInitialize(l, a, PcOf(l, a).s, ok);
      Goes(l, l', s) && (!Refreshes(l, Initialize(a, ok), s) ==> SameFlags(l, l', s))
    ensures SameAsked(l, DoInitialize(l, a, PcOf(l, a).s, ok), s)
  {
    assert ActOk(l, a) && StrOk(l, PcOf(l, a).s);
  }

  lemma CreationGoes(l: Life, e: Action, s: Sid)
    requires Sound(l) && Enabled(l, e) && IsCreation(e)
    ensures Goes(l, Apply(l, e), s) && (!Refreshes(l, e, s) ==> SameFlags(l, Apply(l, e), s))
    ensures SameAsked(l, Apply(l, e), s)
  {
    match e
    case Recycle(a) => RecycleGoes(l, a, s);
    case Initialize(a, ok) => InitializeGoes(l, a, ok, s);
    case TakeSlot(a) => TakeSlotGoes(l, a, PcOf(l, a).s, s);
    case Enlarge(a, spare) => EnlargeGoes(l, a, spare, s);
    case _ =>
  }

  lemma ProvideGoes(l: Life, a: Aid, y: Sid, stackOk: bool, restOk: bool, s: Sid)
    ensures Goes(l, DoProvide(l, a, y, stackOk, restOk), s) && SameFlags(l, DoProvide(l, a, y, stackOk, restOk), s)
    ensures SameAsked(l, DoProvide(l, a, y, stackOk, restOk), s)
  {
  }

  lemma UnpostGoes(l: Life, a: Aid, y: Sid, s: Sid)
    ensures Goes(l, DoUnpost(l, a, y), s) && SameFlags(l, DoUnpost(l, a, y), s)
    ensures SameAsked(l, DoUnpost(l, a, y), s)
  {
  }

  lemma SetUpGoes(l: Life, a: Aid, detached: bool, s: Sid)
    requires Enabled(l, SetUp(a, detached))
    ensures var l' := Apply(l, SetUp(a, detached));
      Goes(l, l', s) && SameFlags(l, l', s) && (!Decides(l, SetUp(a, detached), s) ==> SameAsked(l, l', s))
  {
  }

  lemma StartGoes(l: Life, e: Action, s: Sid)
    requires Enabled(l, e) && IsStart(e)
    ensures Goes(l, Apply(l, e), s) && SameFlags(l, Apply(l, e), s)
    ensures !Decides(l, e, s) ==> SameAsked(l, Apply(l, e), s)
  {
    match e
    case SetUp(a, detached) => SetUpGoes(l, a, detached, s);
    case Provide(a, stackOk, restOk) => ProvideGoes(l, a, PcOf(l, a).s, stackOk, restOk, s);
    case Unpost(a) => UnpostGoes(l, a, PcOf(l, a).s, s);
    case _ =>
  }

  lemma DetachCheckGoes(l: Life, a: Aid, y: Sid, u: nat, s: Sid)
    ensures Goes(l, DoDetachCheck(l, a, y, u), s) && SameFlags(l, DoDetachCheck(l, a, y, u), s)
    ensures (St(l, y).state == Joinable && s == y) || SameAsked(l, DoDetachCheck(l, a, y, u), s)
  {
    match St(l, y).state
    case Joinable => DetachGoes(l, a, y, u, s);
    case Exited => assert DoDetachCheck(l, a, y, u) == SeeExit(l, a, y, DetachReap(y, u));
    case _ => FailedDetachGoes(l, a, y, u, s);
  }

  lemma DetachGoes(l: Life, a: Aid, y: Sid, u: nat, s: Sid)
    requires St(l, y).state == Joinable
    ensures Goes(l, DoDetachCheck(l, a, y, u), s) && SameFlags(l, DoDetachCheck(l, a, y, u), s)
    ensures s == y || SameAsked(l, DoDetachCheck(l, a, y, u), s)
  {
  }

  lemma FailedDetachGoes(l: Life, a: Aid, y: Sid, u: nat, s: Sid)
    requires St(l, y).state == Detached || St(l, y).state == Terminated
    ensures Goes(l, DoDetachCheck(l, a, y, u), s) && SameFlags(l, DoDetachCheck(l, a, y, u), s)
    ensures SameAsked(l, DoDetachCheck(l, a, y, u), s)
  {
  }

  lemma JoinCheckGoes(l: Life, a: Aid, y: Sid, u: nat, s: Sid)
    ensures Goes(l, DoJoinCheck(l, a, y, u), s) && SameFlags(l, DoJoinCheck(l, a, y, u), s)
    ensures SameAsked(l, DoJoinCheck(l, a, y, u), s)
  {
  }

  // ---------------------------------------------------------------- the table

  predicate InSlot(l: Life, s: Sid) {
    0 < St(l, s).id <= |l.slots| && l.slots[St(l, s).id - 1] == Some(s)
  }

  /** IDs are distinct, positive and within the table; a slot is empty or holds the structure with its ID. */
  lemma IdsDistinct(l: Life, s: Sid, r: Sid)
    requires Reachable(l) && !l.doubled && St(l, s).id > 0 && St(l, r).id > 0
    ensures St(l, s).id == St(l, r).id ==> s == r
    ensures St(l, s).id <= l.num <= |l.slots|
    ensures forall i :: 0 <= i < l.num && l.slots[i] == Some(s) ==> St(l, s).id == i + 1
    ensures forall i :: 0 <= i < l.num ==> l.slots[i].None? || St(l, l.slots[i].value).id == i + 1
  {
    ReachableHolds(l);
    assert StrOk(l, s) && StrOk(l, r);
    forall i | 0 <= i < l.num
      ensures (l.slots[i] == Some(s) ==> St(l, s).id == i + 1) && (l.slots[i].None? || St(l, l.slots[i].value).id == i + 1)
    {
      assert St(l, l.owners[i]).id == i + 1;
    }
  }

  /** A caller that finds the table's size unchanged after reallocating finds it still full: the copy it
      installs loses nothing, and its new ID is the first one past the old table. */
  lemma UnchangedMeansFull(l: Life, a: Aid)
    requires Reachable(l) && !l.doubled && PcOf(l, a).Grow?
    ensures PcOf(l, a).saved <= l.num
    ensures PcOf(l, a).saved == |l.slots| ==> l.num == |l.slots|
  {
    ReachableHolds(l);
    assert ActOk(l, a);
    assert StrOk(l, PcOf(l, a).s);
  }

  predicate TakesId(e: Action) {
    e.TakeSlot? || e.Enlarge?
  }

  /** The steps that set a slot. */
  predicate SetsSlot(e: Action) {
    e.Post? || e.Unpost? || e.TearDown? || e.Leave?
  }

  lemma IdsGrow(l: Life, e: Action)
    requires Enabled(l, e) && TakesId(e)
    ensures Apply(l, e).num >= l.num && |Apply(l, e).slots| >= |l.slots| && l.owners <= Apply(l, e).owners
    ensures l.num <= |l.slots| ==> forall i :: 0 <= i < l.num ==> Apply(l, e).slots[i] == l.slots[i]
  {
  }

  lemma SlotsKeepIds(l: Life, e: Action)
    requires Enabled(l, e) && SetsSlot(e)
    ensures Apply(l, e).num == l.num && |Apply(l, e).slots| == |l.slots| && Apply(l, e).owners == l.owners
  {
  }

  lemma OthersKeepTable(l: Life, e: Action)
    requires Enabled(l, e) && !TakesId(e) && !SetsSlot(e)
    ensures SameTable(l, Apply(l, e))
  {
    if IsCreation(e) || IsStart(e) {
      SomeKeepTable(l, e);
    }
  }

  lemma SomeKeepTable(l: Life, e: Action)
    requires Enabled(l, e) && !TakesId(e) && !SetsSlot(e) && (IsCreation(e) || IsStart(e))
    ensures SameTable(l, Apply(l, e))
  {
  }

  /** The table and the number of IDs never shrink, and only two steps of an allocation make them grow. */
  lemma TableSteps(l: Life, e: Action)
    requires Enabled(l, e)
    ensures Apply(l, e).num >= l.num && |Apply(l, e).slots| >= |l.slots| && l.owners <= Apply(l, e).owners
    ensures e.TakeSlot? || e.Enlarge? || (Apply(l, e).num == l.num && |Apply(l, e).slots| == |l.slots|)
  {
    if TakesId(e) {
      IdsGrow(l, e);
    } else if SetsSlot(e) {
      SlotsKeepIds(l, e);
    } else {
      OthersKeepTable(l, e);
    }
  }

  lemma JoinChecksKeepIds(l: Life, a: Aid, s: Sid)
    requires PcOf(l, a).JoinLock?
    ensures St(DoJoinCheck(l, a, PcOf(l, a).s, PcOf(l, a).use), s).id == St(l, s).id
  {
  }

  lemma DetachKeepsIds(l: Life, a: Aid, y: Sid, u: nat, s: Sid)
    requires St(l, y).state == Joinable
    ensures St(DoDetachCheck(l, a, y, u), s).id == St(l, s).id
  {
  }

  lemma FailedDetachKeepsIds(l: Life, a: Aid, y: Sid, u: nat, s: Sid)
    requires St(l, y).state == Detached || St(l, y).state == Terminated
    ensures St(DoDetachCheck(l, a, y, u), s).id == St(l, s).id
  {
  }

  lemma DetachChecksKeepIds(l: Life, a: Aid, y: Sid, u: nat, s: Sid)
    ensures St(DoDetachCheck(l, a, y, u), s).id == St(l, s).id
  {
    match St(l, y).state
    case Joinable => DetachKeepsIds(l, a, y, u, s);
    case Exited => assert DoDetachCheck(l, a, y, u) == SeeExit(l, a, y, DetachReap(y, u));
    case _ => FailedDetachKeepsIds(l, a, y, u, s);
  }

  /** An ID is for good: no step takes it away, changes it or gives its structure back to malloc. */
  lemma IdIsPermanent(l: Life, e: Action, s: Sid)
    requires Reachable(l) && !l.doubled && Enabled(l, e) && St(l, s).id > 0
    ensures St(Apply(l, e), s).id == St(l, s).id
  {
    ReachableHolds(l);
    if e.JoinCheck? {
      JoinChecksKeepIds(l, e.a, s);
    } else if e.DetachCheck? {
      DetachChecksKeepIds(l, e.a, PcOf(l, e.a).s, PcOf(l, e.a).use, s);
    } else {
      StepKeeps(l, e);
      ReapersStay(l, e);
      TableSteps(l, e);
      OwnerStays(l, Apply(l, e), s);
    }
  }

  lemma OwnerStays(l: Life, l': Life, s: Sid)
    requires Sound(l) && Sound(l') && l.owners <= l'.owners && St(l, s).id > 0
    ensures St(l', s).id == St(l, s).id
  {
    assert StrOk(l, s);
    OwnerHasId(l', St(l, s).id - 1);
  }

  lemma OwnerHasId(l: Life, i: nat)
    requires TableOk(l) && i < l.num
    ensures St(l, l.owners[i]).id == i + 1
  {
  }

  lemma TableHas(l: Life, s: Sid)
    requires Sound(l)
    ensures InSlot(l, s) <==> St(l, s).custody == InTable
  {
    assert StrOk(l, s);
  }

  function SlotOwner(l: Life, e: Action): Sid
    requires Enabled(l, e) && SetsSlot(e)
  {
    if e.Leave? then e.s else PcOf(l, e.a).s
  }

  /** A step that sets a slot sets the one of its own structure. */
  lemma OtherSlotsStay(l: Life, e: Action, i: nat)
    requires Enabled(l, e) && SetsSlot(e) && i < |l.slots| && i + 1 != St(l, SlotOwner(l, e)).id
    ensures Apply(l, e).slots[i] == l.slots[i]
  {
  }

  /** Of the steps of a teardown only the first takes the structure out of the table. */
  lemma OnlyWithdrawClears(l: Life, e: Action)
    requires Enabled(l, e)
    requires (e.TearDown? && PcOf(l, e.a).stage != Withdraw) || (e.Leave? && St(l, e.s).own.stage != Withdraw)
    ensures Apply(l, e).slots == l.slots
  {
  }

  lemma OtherEntriesStay(l: Life, e: Action, s: Sid)
    requires Sound(l) && Enabled(l, e) && SetsSlot(e) && InSlot(l, s) && s != SlotOwner(l, e)
    ensures Apply(l, e).slots[St(l, s).id - 1] == l.slots[St(l, s).id - 1]
  {
    assert StrOk(l, s) && StrOk(l, SlotOwner(l, e));
    OtherSlotsStay(l, e, St(l, s).id - 1);
  }

  /** A published entry disappears only when its own thread is withdrawn; resizing loses none. */
  lemma LostOnlyByWithdrawal(l: Life, e: Action, s: Sid)
    requires Reachable(l) && !l.doubled && Enabled(l, e) && InSlot(l, s) && !InSlot(Apply(l, e), s)
    ensures
      || (e.Unpost? && PcOf(l, e.a) == Retract(s))
      || (e.TearDown? && PcOf(l, e.a).Tear? && PcOf(l, e.a).s == s && PcOf(l, e.a).stage == Withdraw)
      || (e == Leave(s) && St(l, s).own == Leaving(Withdraw))
  {
    ReachableHolds(l);
    TableHas(l, s);
    IdIsPermanent(l, e, s);
    assert StrOk(l, s);
    if TakesId(e) {
      IdsGrow(l, e);
    } else if !SetsSlot(e) {
      OthersKeepTable(l, e);
    } else if s != SlotOwner(l, e) {
      OtherEntriesStay(l, e, s);
    } else if (e.TearDown? && PcOf(l, e.a).stage != Withdraw) || (e.Leave? && St(l, e.s).own.stage != Withdraw) {
      OnlyWithdrawClears(l, e);
    }
  }

  // ---------------------------------------------------------------- custody

  predicate OnFreeList(l: Life, s: Sid) {
    s in l.free && St(l, s).state == Terminated
  }

  /** Between getting it and publishing it. */
  predicate Creator(pc: Pc, s: Sid) {
    Makes(pc) == Some(s) && !pc.Start? && !pc.Retract? && !pc.Tear?
  }

  ghost predicate BeingCreated(l: Life, s: Sid) {
    exists a: Aid :: Creator(PcOf(l, a), s)
  }

  predicate Dismantler(pc: Pc, s: Sid) {
    pc.Tear? && pc.s == s
  }

  ghost predicate BeingTorn(l: Life, s: Sid) {
    !InSlot(l, s) && (St(l, s).own.Leaving? || exists a: Aid :: Dismantler(PcOf(l, a), s))
  }

  /** Every structure is being created, in the table, being torn down or free for reuse, and only one of
      these; unless a creation took it from the free list and gave up before it was initialized. */
  lemma OneCustodian(l: Life, s: Sid)
    requires Reachable(l) && !l.doubled
    ensures !(InSlot(l, s) && OnFreeList(l, s)) && !(InSlot(l, s) && BeingCreated(l, s)) && !(InSlot(l, s) && BeingTorn(l, s))
    ensures !(OnFreeList(l, s) && BeingCreated(l, s)) && !(OnFreeList(l, s) && BeingTorn(l, s))
    ensures !(BeingCreated(l, s) && BeingTorn(l, s))
    ensures s in l.strs && St(l, s).custody != Lost && St(l, s) != ABSENT ==>
      InSlot(l, s) || OnFreeList(l, s) || BeingCreated(l, s) || BeingTorn(l, s)
  {
    ReachableHolds(l);
    TableHas(l, s);
    assert StrOk(l, s);
    if BeingCreated(l, s) { CreatorsAgree(l, s); }
    DismantlersAgree(l, s);
    var x := St(l, s);
    if x.maker.Some? {
      assert ActOk(l, x.maker.value);
    }
    if (s, x.use) in l.reapers {
      assert ActOk(l, l.reapers[(s, x.use)]);
    }
  }

  lemma CreatorsAgree(l: Life, s: Sid)
    requires Sound(l) && BeingCreated(l, s)
    ensures St(l, s).custody == Raw || St(l, s).custody == Creating
    ensures forall a: Aid :: !Dismantler(PcOf(l, a), s)
    ensures !St(l, s).own.Leaving?
  {
    var a: Aid :| Creator(PcOf(l, a), s);
    assert ActOk(l, a) && StrOk(l, s);
    Alone(l, s, a);
  }

  lemma DismantlersAgree(l: Life, s: Sid)
    requires Sound(l)
    ensures forall a: Aid :: Dismantler(PcOf(l, a), s) ==>
      !St(l, s).custody.Reusable? && St(l, s).state != Terminated && (St(l, s).custody == Tearing(true) <==> s in l.free)
  {
    forall a: Aid | Dismantler(PcOf(l, a), s)
      ensures !St(l, s).custody.Reusable? && St(l, s).state != Terminated && (St(l, s).custody == Tearing(true) <==> s in l.free)
    {
      assert ActOk(l, a) && StrOk(l, s);
    }
  }

  /** A structure an allocation takes off the free list is one nobody works on any more: its last thread has no
      step left to take, and no caller makes or reaps it; if all calls on it kept the rule, none refers to it.
      (A pthread_cancel that looked it up earlier may still set `pending`, whenever it gets to it.) */
  lemma RecycledIsUnused(l: Life, a: Aid, s: Sid)
    requires Reachable(l) && !l.doubled && Enabled(l, Recycle(a)) && PcOf(Apply(l, Recycle(a)), a) == Prepare(s)
    ensures s in l.free && St(l, s).state == Terminated && s !in Apply(l, Recycle(a)).free
    ensures forall b: Aid :: Works(PcOf(l, b)) != Some(s)
    ensures St(l, s).fair ==> forall b: Aid :: Refers(PcOf(l, b)) != Some(s)
    ensures forall v :: !Enabled(l, Exit(s, v))
    ensures !Enabled(l, Leave(s)) && !InSlot(l, s)
  {
    ReachableHolds(l);
    PickedFromFree(l, a, s);
    FreeIsUnused(l, s);
  }

  lemma FreeIsUnused(l: Life, s: Sid)
    requires Sound(l) && s in l.free && St(l, s).state == Terminated
    ensures forall b: Aid :: Works(PcOf(l, b)) != Some(s)
    ensures St(l, s).fair ==> forall b: Aid :: Refers(PcOf(l, b)) != Some(s)
    ensures !St(l, s).own.Running? && !St(l, s).own.Leaving? && !InSlot(l, s)
  {
    assert StrOk(l, s);
    Nobody(l, s);
    if St(l, s).fair { LookersClaim(l, s); }
  }

  /** Under the rule only the claimant looks at a structure, and only in the table. */
  lemma LookersClaim(l: Life, s: Sid)
    requires Sound(l) && St(l, s).fair
    ensures forall b: Aid :: Looks(PcOf(l, b)) == Some(s) ==> St(l, s).claim == By(b) && St(l, s).custody == InTable
  {
    forall b: Aid | Looks(PcOf(l, b)) == Some(s)
      ensures St(l, s).claim == By(b) && St(l, s).custody == InTable
    {
      assert ActOk(l, b);
    }
  }

  lemma PickedFromFree(l: Life, a: Aid, s: Sid)
    requires Distinct(l.free) && PcOf(DoRecycle(l, a), a) == Prepare(s)
    ensures s in l.free && St(l, s).state == Terminated && s !in DoRecycle(l, a).free
  {
    WithoutDistinct(l.free, s);
  }

  /** From then until it starts its thread the creator has it to itself, but for callers that only look at it
      against the rule. */
  lemma CreatorIsAlone(l: Life, a: Aid, s: Sid)
    requires Reachable(l) && !l.doubled && Makes(PcOf(l, a)) == Some(s)
    ensures forall b: Aid :: b != a ==> Works(PcOf(l, b)) != Some(s)
    ensures St(l, s).fair ==> forall b: Aid :: b != a ==> Refers(PcOf(l, b)) != Some(s)
    ensures forall v :: !Enabled(l, Exit(s, v))
    ensures !Enabled(l, Leave(s))
    ensures Creator(PcOf(l, a), s) ==> !InSlot(l, s) && s !in l.free
  {
    ReachableHolds(l);
    assert StrOk(l, s) && ActOk(l, a);
    Alone(l, s, a);
    if St(l, s).fair { LookersClaim(l, s); }
  }

  // ---------------------------------------------------------------- the source's assertions

  /** Nothing the code asserts about stacks, states and list links can fail; under the rule a join or detach never
      finds its thread detached or terminated. */
  lemma AssertionsNeverFail(l: Life, a: Aid, s: Sid)
    requires Reachable(l) && !l.doubled
    ensures (PcOf(l, a).JoinReap? || PcOf(l, a).DetachReap?) && PcOf(l, a).s == s ==> St(l, s).stack && St(l, s).own == Stopped
    ensures PcOf(l, a) == Publish(s) ==> 0 < St(l, s).id <= l.num <= |l.slots| && l.slots[St(l, s).id - 1] == None
    ensures Dismantler(PcOf(l, a), s) || St(l, s).own.Leaving? ==> St(l, s).state != Terminated && 0 < St(l, s).id <= l.num
    ensures (Dismantler(PcOf(l, a), s) && PcOf(l, a).stage == Enlist) || St(l, s).own == Leaving(Enlist) ==> s !in l.free
    ensures St(l, s).own.Running? ==> St(l, s).state == Joinable || St(l, s).state == Detached
    ensures (PcOf(l, a).JoinLock? || PcOf(l, a).DetachLock?) && PcOf(l, a).s == s && St(l, s).fair ==>
      St(l, s).state == Joinable || St(l, s).state == Exited
  {
    ReachableHolds(l);
    assert StrOk(l, s) && ActOk(l, a);
    if PcOf(l, a) == Publish(s) {
      assert St(l, l.owners[St(l, s).id - 1]).id == St(l, s).id;
    }
  }

  // ---------------------------------------------------------------- what a creation does

  /** A creation goes on to publish its thread exactly if it has a stack, an old one or a new one, and everything else
      it needs; otherwise it takes the structure down again, and nobody has seen the thread. */
  lemma ProvideEffect(l: Life, a: Aid, s: Sid, stackOk: bool, restOk: bool)
    requires Reachable(l) && !l.doubled && PcOf(l, a) == Equip(s)
    ensures var l' := Apply(l, Provide(a, stackOk, restOk));
      && (PcOf(l', a) == Publish(s) <==> (St(l, s).stack || stackOk) && restOk)
      && (PcOf(l', a) == Publish(s) ==> St(l', s).stack)
      && (PcOf(l', a) == Publish(s) || PcOf(l', a) == Tear(s, Withdraw, Failed))
      && !InSlot(l', s)
  {
    CreatorHasNoSlot(l, a, s);
  }

  lemma CreatorHasNoSlot(l: Life, a: Aid, s: Sid)
    requires Reachable(l) && !l.doubled && PcOf(l, a) == Equip(s)
    ensures !InSlot(l, s)
  {
    ReachableHolds(l);
    assert ActOk(l, a) && StrOk(l, s);
  }

  /** The thread runs exactly if the kernel starts it; otherwise the creation retracts it, which takes it out of the
      table. */
  lemma LaunchEffect(l: Life, a: Aid, s: Sid, ok: bool)
    requires Reachable(l) && !l.doubled && PcOf(l, a) == Start(s)
    ensures var l' := Apply(l, Launch(a, ok));
      && InSlot(l, s) && InSlot(l', s)
      && (St(l', s).own.Running? <==> ok) && PcOf(l', a) == (if ok then Idle else Retract(s))
      && (!ok ==> !InSlot(DoUnpost(l', a, s), s) && !St(DoUnpost(l', a, s), s).stack)
  {
    ReachableHolds(l);
    assert ActOk(l, a) && StrOk(l, s);
  }
}
