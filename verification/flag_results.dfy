/** Where a thread's cancellation flags and its detached state come from, in every run: from the requests and settings
    of this use of its structure, and from nothing an earlier use left behind. */
module FlagResults {
  import opened Links
  import opened Lifecycle
  import opened LifecycleResults

  lemma CallKeepsFlags(l: Life, e: Action, s: Sid)
    requires Enabled(l, e) && !IsCreation(e) && !IsStart(e) && !IsEnding(e)
    ensures SameFlags(l, Apply(l, e), s) && (!Decides(l, e, s) ==> SameAsked(l, Apply(l, e), s))
  {
    match e
    case JoinCheck(a) => JoinCheckGoes(l, a, PcOf(l, a).s, PcOf(l, a).use, s);
    case DetachCheck(a) => DetachCheckGoes(l, a, PcOf(l, a).s, PcOf(l, a).use, s);
    case Join(a, id) => NameKeepsFlags(l, a, id, true, s);
    case Detach(a, id) => NameKeepsFlags(l, a, id, false, s);
    case _ =>
  }

  lemma NameKeepsFlags(l: Life, a: Aid, id: nat, join: bool, s: Sid)
    requires 0 < id <= |l.slots|
    ensures SameFlags(l, DoName(l, a, id, join), s) && SameAsked(l, DoName(l, a, id, join), s)
  {
  }

  lemma OthersKeepFlags(l: Life, e: Action, s: Sid)
    requires Sound(l) && Enabled(l, e) && !SetsFlag(e, s) && !Refreshes(l, e, s)
    ensures SameFlags(l, Apply(l, e), s)
  {
    if IsCreation(e) {
      CreationGoes(l, e, s);
    } else if IsStart(e) {
      StartGoes(l, e, s);
    } else if IsEnding(e) {
      EndingGoes(l, e, s);
    } else {
      CallKeepsFlags(l, e, s);
    }
  }

  lemma Refreshed(l: Life, e: Action, s: Sid)
    requires Enabled(l, e) && Refreshes(l, e, s)
    ensures St(Apply(l, e), s).enabled && !St(Apply(l, e), s).pending
  {
  }

  lemma FlagSet(l: Life, e: Action, s: Sid)
    requires Enabled(l, e) && SetsFlag(e, s)
    ensures var y := St(Apply(l, e), s);
      y == if e.Cancel? then St(l, s).(pending := true) else St(l, s).(enabled := e.on)
  {
  }

  lemma FlagStep(l: Life, e: Action, s: Sid)
    requires Sound(l) && Enabled(l, e)
    ensures St(Apply(l, e), s).pending <==> e == Cancel(s) || (St(l, s).pending && !Refreshes(l, e, s))
    ensures !St(Apply(l, e), s).enabled <==>
      e == SetCancelState(s, false) || (!St(l, s).enabled && !Refreshes(l, e, s) && e != SetCancelState(s, true))
  {
    if Refreshes(l, e, s) {
      Refreshed(l, e, s);
    } else if SetsFlag(e, s) {
      FlagSet(l, e, s);
    } else {
      OthersKeepFlags(l, e, s);
    }
  }

  /** The step at `r` undoes what `e` did to the flags of `s`: it hands the structure out again, or enables
      cancellation if `e` disabled it. */
  predicate Undoes(states: seq<Life>, actions: seq<Action>, r: nat, s: Sid, e: Action) {
    && r < |states| && r < |actions|
    && (Refreshes(states[r], actions[r], s) || (e == SetCancelState(s, false) && actions[r] == SetCancelState(s, true)))
  }

  predicate LastsFrom(states: seq<Life>, actions: seq<Action>, n: nat, i: nat, s: Sid, e: Action) {
    n < i <= |actions| && actions[n] == e && forall r: nat :: n < r < i ==> !Undoes(states, actions, r, s, e)
  }

  /** Some step before `i` was `e`, and none has undone it since. */
  ghost predicate Lasts(states: seq<Life>, actions: seq<Action>, i: nat, s: Sid, e: Action) {
    exists n: nat :: LastsFrom(states, actions, n, i, s, e)
  }

  lemma LastsNext(states: seq<Life>, actions: seq<Action>, i: nat, s: Sid, e: Action)
    requires i < |actions| && i < |states|
    ensures Lasts(states, actions, i + 1, s, e) <==>
      actions[i] == e || (Lasts(states, actions, i, s, e) && !Undoes(states, actions, i, s, e))
  {
    if Lasts(states, actions, i + 1, s, e) && actions[i] != e {
      var n: nat :| LastsFrom(states, actions, n, i + 1, s, e);
      assert LastsFrom(states, actions, n, i, s, e);
      assert !Undoes(states, actions, i, s, e);
    }
    if actions[i] == e {
      assert LastsFrom(states, actions, i, i + 1, s, e);
    }
    if Lasts(states, actions, i, s, e) && !Undoes(states, actions, i, s, e) {
      var n: nat :| LastsFrom(states, actions, n, i, s, e);
      assert LastsFrom(states, actions, n, i + 1, s, e);
    }
  }

  lemma FlagsAt(states: seq<Life>, actions: seq<Action>, i: nat, s: Sid)
    requires IsRun(states, actions) && i < |actions| && !states[i].doubled
    ensures var e, x, y := actions[i], St(states[i], s), St(states[i + 1], s);
      && (y.pending <==> e == Cancel(s) || (x.pending && !Undoes(states, actions, i, s, Cancel(s))))
      && (!y.enabled <==>
            e == SetCancelState(s, false) || (!x.enabled && !Undoes(states, actions, i, s, SetCancelState(s, false))))
  {
    RunKeeps(states, actions, i);
    StepAt(states, actions, i);
    FlagStep(states[i], actions[i], s);
  }

  /** A request is pending exactly if one was made since the structure was last handed out, and cancellation disabled
      exactly if the thread disabled it since, and has not enabled it again: nothing is inherited from an earlier use. */
  lemma {:induction false} FlagsIff(states: seq<Life>, actions: seq<Action>, i: nat, s: Sid)
    requires IsRun(states, actions) && i < |states| && !states[i].doubled
    ensures St(states[i], s).pending <==> Lasts(states, actions, i, s, Cancel(s))
    ensures !St(states[i], s).enabled <==> Lasts(states, actions, i, s, SetCancelState(s, false))
  {
    if i > 0 {
      NotDoubledBefore(states, actions, i - 1, i);
      FlagsIff(states, actions, i - 1, s);
      FlagsAt(states, actions, i - 1, s);
      LastsNext(states, actions, i - 1, s, Cancel(s));
      LastsNext(states, actions, i - 1, s, SetCancelState(s, false));
    }
  }

  // ---------------------------------------------------------------- detached or joinable

  lemma OthersKeepAsked(l: Life, e: Action, s: Sid)
    requires Sound(l) && Enabled(l, e) && !Decides(l, e, s)
    ensures SameAsked(l, Apply(l, e), s)
  {
    if IsCreation(e) {
      CreationGoes(l, e, s);
    } else if IsStart(e) {
      StartGoes(l, e, s);
    } else if IsEnding(e) {
      EndingGoes(l, e, s);
    } else {
      CallKeepsFlags(l, e, s);
    }
  }

  lemma DecidedSo(l: Life, e: Action, s: Sid)
    requires Enabled(l, e) && Decides(l, e, s)
    ensures St(Apply(l, e), s).asked == (e.SetUp? ==> e.detached)
  {
  }

  predicate DecidedAt(states: seq<Life>, actions: seq<Action>, n: nat, s: Sid) {
    n < |states| && n < |actions| && Decides(states[n], actions[n], s)
  }

  /** The last step before `i` that decided about `s` is the one at `n`. */
  predicate LastDecision(states: seq<Life>, actions: seq<Action>, n: nat, i: nat, s: Sid) {
    n < i && DecidedAt(states, actions, n, s) && forall r: nat :: n < r < i ==> !DecidedAt(states, actions, r, s)
  }

  lemma AskedAt(states: seq<Life>, actions: seq<Action>, i: nat, s: Sid)
    requires IsRun(states, actions) && i < |actions| && !states[i].doubled
    ensures St(states[i + 1], s).asked ==
      if DecidedAt(states, actions, i, s) then (actions[i].SetUp? ==> actions[i].detached) else St(states[i], s).asked
  {
    RunKeeps(states, actions, i);
    StepAt(states, actions, i);
    if Decides(states[i], actions[i], s) {
      DecidedSo(states[i], actions[i], s);
    } else {
      OthersKeepAsked(states[i], actions[i], s);
    }
  }

  lemma {:induction false} AskedIff(states: seq<Life>, actions: seq<Action>, i: nat, s: Sid)
    requires IsRun(states, actions) && i < |states| && !states[i].doubled
    ensures St(states[i], s).asked <==>
      exists n: nat :: LastDecision(states, actions, n, i, s) && (actions[n].SetUp? ==> actions[n].detached)
  {
    if i > 0 {
      NotDoubledBefore(states, actions, i - 1, i);
      AskedIff(states, actions, i - 1, s);
      AskedAt(states, actions, i - 1, s);
      DecisionNext(states, actions, i - 1, i, s);
    }
  }

  lemma DecisionNext(states: seq<Life>, actions: seq<Action>, i: nat, j: nat, s: Sid)
    requires i < |actions| && i < |states| && j == i + 1
    ensures DecidedAt(states, actions, i, s) ==> forall n: nat :: LastDecision(states, actions, n, j, s) <==> n == i
    ensures !DecidedAt(states, actions, i, s) ==>
      forall n: nat :: LastDecision(states, actions, n, j, s) <==> LastDecision(states, actions, n, i, s)
  {
  }

  /** A thread that can still be joined or detached is detached exactly if the last decision says so: its creation
      asked for it, or a call of pthread_detach since. */
  lemma DetachedIff(states: seq<Life>, actions: seq<Action>, i: nat, s: Sid)
    requires IsRun(states, actions) && i < |states| && !states[i].doubled
    requires InSlot(states[i], s) && Alive(St(states[i], s))
    ensures St(states[i], s).state == Detached <==>
      exists n: nat :: LastDecision(states, actions, n, i, s) && (actions[n].SetUp? ==> actions[n].detached)
  {
    RunKeeps(states, actions, i);
    TableHas(states[i], s);
    assert StrOk(states[i], s);
    AskedIff(states, actions, i, s);
  }
}
