/** Keys, thread-specific values and the lifecycle of threads together: any number of threads create, delete
    and use keys while threads come and go. */
module SpecificWorld {
  import opened Base
  import K = Keys
  import L = Lifecycle
  import LR = LifecycleResults
  import V = Specific

  /** `specifics` holds the maps of the threads that have one; a thread not in it has a NULL pointer. */
  datatype World = World(life: L.Life, keys: K.Table, specifics: map<L.Sid, map<nat, int>>)

  ghost predicate Init(w: World) {
    L.Init(w.life) && w.keys == K.FRESH && w.specifics == map[]
  }

  function Own(w: World, s: L.Sid): Option<map<nat, int>> {
    if s in w.specifics then Some(w.specifics[s]) else None
  }

  /** Remove and Free are the steps of __pthread_destroy_specific. */
  datatype Action =
    | Thread(e: L.Action)
    | CreateKey(d: K.Slot, memory: bool) | DeleteKey(key: int)
    | Set(s: L.Sid, key: int, value: int, createOk: bool, addOk: bool)
    | Remove(s: L.Sid, at: nat) | Free(s: L.Sid)

  /** A thread works on its own values, while it runs, and destroys them before the last part of its exit. */
  predicate Enabled(w: World, a: Action) {
    match a
    case Thread(e) => L.Enabled(w.life, e) && (e.Exit? ==> e.s !in w.specifics)
    case CreateKey(d, _) => d != K.Invalid && w.keys.hint <= |w.keys.slots|
    case DeleteKey(_) => true
    case Set(s, _, _, _, _) => L.St(w.life, s).own.Running?
    case Remove(s, _) => L.St(w.life, s).own.Running?
    case Free(s) => L.St(w.life, s).own.Running?
  }

  function Get(w: World, s: L.Sid, key: nat): int {
    if K.Live(w.keys, key) then V.Lookup(Own(w, s), key) else 0
  }

  /** The sweep visits the threads in the table, and no others. */
  function Swept(w: World, key: nat): map<L.Sid, map<nat, int>> {
    map s | s in w.specifics :: if LR.InSlot(w.life, s) then w.specifics[s] - {key} else w.specifics[s]
  }

  function DoSet(w: World, s: L.Sid, key: int, value: int, createOk: bool, addOk: bool): World {
    if !K.Live(w.keys, key) || (s !in w.specifics && !createOk) then w
    else
      var m := if s in w.specifics then w.specifics[s] else map[];
      w.(specifics := w.specifics[s := if addOk then m[key := value] else m])
  }

  /** A structure that is handed out, new or recycled, starts without values. */
  function Reset(w: World, e: L.Action): map<L.Sid, map<nat, int>> {
    match e
    case Initialize(a, _) =>
      if L.PcOf(w.life, a).Prepare? then w.specifics - {L.PcOf(w.life, a).s} else w.specifics
    case NewStr(_, Some(s), _) => w.specifics - {s}
    case _ => w.specifics
  }

  function Apply(w: World, a: Action): World
    requires Enabled(w, a)
  {
    match a
    case Thread(e) => w.(life := L.Apply(w.life, e), specifics := Reset(w, e))
    case CreateKey(d, memory) => w.(keys := K.CreateStep(w.keys, d, memory).0)
    case DeleteKey(key) =>
      var (k, ok) := K.DeleteStep(w.keys, key);
      if ok then w.(keys := k, specifics := Swept(w, key)) else w
    case Set(s, key, value, createOk, addOk) => DoSet(w, s, key, value, createOk, addOk)
    case Remove(s, key) => if s in w.specifics then w.(specifics := w.specifics[s := w.specifics[s] - {key}]) else w
    case Free(s) => w.(specifics := w.specifics - {s})
  }

  // ---------------------------------------------------------------- invariant

  /** Whoever has values is running, and so in the table; values are stored under live keys only. */
  ghost predicate ValuesOk(w: World) {
    && (forall s :: s in w.specifics ==> L.St(w.life, s).own.Running?)
    && (forall s, key :: s in w.specifics && key in w.specifics[s] ==> K.Live(w.keys, key))
  }

  /** All this until two callers take the same thread down. */
  ghost predicate Inv(w: World) {
    L.Inv(w.life) && K.Ok(w.keys) && (w.life.doubled || ValuesOk(w))
  }

  lemma RunningIsInTable(l: L.Life, s: L.Sid)
    requires L.Sound(l) && L.St(l, s).own.Running?
    ensures LR.InSlot(l, s) && L.St(l, s).id <= l.num
  {
    LR.TableHas(l, s);
    assert L.StrOk(l, s);
  }

  lemma NameKeepsRunning(l: L.Life, a: L.Aid, id: nat, join: bool, s: L.Sid)
    requires 0 < id <= |l.slots| && L.St(l, s).own.Running?
    ensures L.St(L.DoName(l, a, id, join), s).own.Running?
  {
  }

  lemma CallKeepsRunning(l: L.Life, e: L.Action, s: L.Sid)
    requires L.Enabled(l, e) && L.St(l, s).own.Running?
    requires !LR.IsCreation(e) && !LR.IsStart(e) && !LR.IsEnding(e)
    ensures L.St(L.Apply(l, e), s).own.Running?
  {
    match e
    case Join(a, id) => NameKeepsRunning(l, a, id, true, s);
    case Detach(a, id) => NameKeepsRunning(l, a, id, false, s);
    case JoinCheck(a) => LR.JoinCheckGoes(l, a, L.PcOf(l, a).s, L.PcOf(l, a).use, s);
    case DetachCheck(a) => LR.DetachCheckGoes(l, a, L.PcOf(l, a).s, L.PcOf(l, a).use, s);
    case _ =>
  }

  lemma RunsUntilExit(l: L.Life, e: L.Action, s: L.Sid)
    requires L.Sound(l) && L.Enabled(l, e) && L.St(l, s).own.Running? && !(e.Exit? && e.s == s)
    ensures L.St(L.Apply(l, e), s).own.Running?
  {
    if LR.IsCreation(e) {
      LR.CreationGoes(l, e, s);
    } else if LR.IsStart(e) {
      LR.StartGoes(l, e, s);
    } else if LR.IsEnding(e) {
      LR.EndingGoes(l, e, s);
    } else {
      CallKeepsRunning(l, e, s);
    }
  }

  lemma ThreadStep(w: World, e: L.Action)
    requires Inv(w) && Enabled(w, Thread(e))
    ensures Inv(Apply(w, Thread(e)))
  {
    LR.StepKeeps(w.life, e);
    if w.life.doubled {
      LR.DoubledStays(w.life, e);
    } else {
      forall s | s in Reset(w, e) ensures L.St(L.Apply(w.life, e), s).own.Running? {
        RunsUntilExit(w.life, e, s);
      }
    }
  }

  lemma KeyStep(w: World, a: Action)
    requires Inv(w) && Enabled(w, a) && (a.CreateKey? || a.DeleteKey?)
    ensures Inv(Apply(w, a))
  {
    match a
    case CreateKey(d, memory) => CreateLeavesOthers(w, d, memory);
    case DeleteKey(key) =>
      K.DeleteKeeps(w.keys, key);
      if !w.life.doubled {
        forall s | s in w.specifics ensures LR.InSlot(w.life, s) {
          RunningIsInTable(w.life, s);
        }
      }
  }

  lemma CreateLeavesOthers(w: World, d: K.Slot, memory: bool)
    requires Inv(w) && Enabled(w, CreateKey(d, memory))
    ensures Inv(Apply(w, CreateKey(d, memory)))
  {
    K.CreateKeeps(w.keys, d, memory);
    var k := K.CreateStep(w.keys, d, memory).0;
    forall key | K.Live(w.keys, key) ensures K.Live(k, key) {
    }
  }

  lemma StepKeeps(w: World, a: Action)
    requires Inv(w) && Enabled(w, a)
    ensures Inv(Apply(w, a))
  {
    match a
    case Thread(e) => ThreadStep(w, e);
    case CreateKey(_, _) => KeyStep(w, a);
    case DeleteKey(_) => KeyStep(w, a);
    case _ =>
  }

  // ---------------------------------------------------------------- runs

  ghost predicate Step(w: World, a: Action, w': World) {
    Enabled(w, a) && w' == Apply(w, a)
  }

  ghost predicate IsRun(states: seq<World>, actions: seq<Action>) {
    && |states| == |actions| + 1 && Init(states[0])
    && forall i {:trigger Step(states[i], actions[i], states[i + 1])} :: 0 <= i < |actions| ==> Step(states[i], actions[i], states[i + 1])
  }

  lemma StepAt(states: seq<World>, actions: seq<Action>, i: nat)
    requires IsRun(states, actions) && i < |actions|
    ensures Step(states[i], actions[i], states[i + 1])
  {
  }

  lemma {:induction false} RunKeeps(states: seq<World>, actions: seq<Action>, i: nat)
    requires IsRun(states, actions) && i < |states|
    ensures Inv(states[i])
  {
    if i == 0 {
      LR.InitHolds(states[0].life);
    } else {
      RunKeeps(states, actions, i - 1);
      StepAt(states, actions, i - 1);
      StepKeeps(states[i - 1], actions[i - 1]);
    }
  }

  /** Nothing undoes it. */
  lemma {:induction false} NotDoubledBefore(states: seq<World>, actions: seq<Action>, i: nat, j: nat)
    requires IsRun(states, actions) && i <= j < |states| && !states[j].life.doubled
    ensures !states[i].life.doubled
    decreases j
  {
    if i < j {
      StepAt(states, actions, j - 1);
      if states[j - 1].life.doubled && actions[j - 1].Thread? { LR.DoubledStays(states[j - 1].life, actions[j - 1].e); }
      NotDoubledBefore(states, actions, i, j - 1);
    }
  }

  // ---------------------------------------------------------------- results

  /** A thread that has values is in the table, where a deletion finds it, and its keys are live. */
  lemma ValuesAreSwept(states: seq<World>, actions: seq<Action>, i: nat, s: L.Sid)
    requires IsRun(states, actions) && i < |states| && !states[i].life.doubled && s in states[i].specifics
    ensures var w := states[i];
      LR.InSlot(w.life, s) && L.St(w.life, s).id <= w.life.num && V.StoredLive(Own(w, s), w.keys)
  {
    RunKeeps(states, actions, i);
    RunningIsInTable(states[i].life, s);
  }

  /** The step creates `key`. */
  predicate Creates(w: World, a: Action, key: nat) {
    a.CreateKey? && Enabled(w, a) && K.CreateStep(w.keys, a.d, a.memory).1 == Some(key)
  }

  /** A new key was not live before, and reads NULL in every thread: nothing of an earlier use of its slot shows. */
  lemma NewKeyReadsNull(states: seq<World>, actions: seq<Action>, i: nat, key: nat, s: L.Sid)
    requires IsRun(states, actions) && i < |actions| && !states[i].life.doubled && Creates(states[i], actions[i], key)
    ensures !K.Live(states[i].keys, key) && K.Live(states[i + 1].keys, key)
    ensures Get(states[i + 1], s, key) == 0
  {
    RunKeeps(states, actions, i);
    assert Step(states[i], actions[i], states[i + 1]);
    K.CreateKeeps(states[i].keys, actions[i].d, actions[i].memory);
  }

  /** Only a thread itself can make its value for a key anything but NULL. */
  lemma OnlySetChangesNull(w: World, a: Action, s: L.Sid, key: nat)
    requires Inv(w) && !w.life.doubled && Enabled(w, a) && Get(w, s, key) == 0 && !(a.Set? && a.s == s && a.key == key)
    ensures Get(Apply(w, a), s, key) == 0
  {
    match a
    case CreateKey(d, memory) => K.CreateKeeps(w.keys, d, memory);
    case DeleteKey(other) => K.DeleteKeeps(w.keys, other);
    case Thread(e) => ResetKeepsNull(w, e, s, key);
    case _ =>
  }

  lemma ResetKeepsNull(w: World, e: L.Action, s: L.Sid, key: nat)
    requires V.Lookup(Own(w, s), key) == 0
    ensures var m := Reset(w, e); V.Lookup(if s in m then Some(m[s]) else None, key) == 0
  {
  }

  /** In a run, from a key's creation on it reads NULL in a thread until that thread sets it. */
  lemma {:induction false} ReadsNullUntilSet(states: seq<World>, actions: seq<Action>, i: nat, j: nat, key: nat, s: L.Sid)
    requires IsRun(states, actions) && i < j <= |actions| && !states[j - 1].life.doubled
    requires Creates(states[i], actions[i], key)
    requires forall n :: i < n < j ==> !(actions[n].Set? && actions[n].s == s && actions[n].key == key)
    ensures Get(states[j], s, key) == 0
    decreases j
  {
    if j == i + 1 {
      NewKeyReadsNull(states, actions, i, key, s);
    } else {
      NotDoubledBefore(states, actions, j - 2, j - 1);
      ReadsNullUntilSet(states, actions, i, j - 1, key, s);
      RunKeeps(states, actions, j - 1);
      StepAt(states, actions, j - 1);
      OnlySetChangesNull(states[j - 1], actions[j - 1], s, key);
    }
  }

  /** Setting a live key is seen by the setter alone, under that key alone. */
  lemma SetIsLocal(w: World, s: L.Sid, key: nat, value: int, t: L.Sid, other: nat)
    requires Enabled(w, Set(s, key, value, true, true)) && K.Live(w.keys, key)
    ensures Get(Apply(w, Set(s, key, value, true, true)), s, key) == value
    ensures t != s || other != key ==> Get(Apply(w, Set(s, key, value, true, true)), t, other) == Get(w, t, other)
  {
  }

  /** A deletion leaves no value behind in any thread. */
  lemma DeleteLeavesNothing(states: seq<World>, actions: seq<Action>, i: nat, key: nat, s: L.Sid)
    requires IsRun(states, actions) && i < |actions| && actions[i] == DeleteKey(key) && K.Live(states[i].keys, key)
    requires !states[i].life.doubled
    ensures s in states[i + 1].specifics ==> key !in states[i + 1].specifics[s]
    ensures Get(states[i + 1], s, key) == 0
    ensures forall other: nat :: other != key ==> Get(states[i + 1], s, other) == Get(states[i], s, other)
  {
    RunKeeps(states, actions, i);
    assert Step(states[i], actions[i], states[i + 1]);
    if s in states[i].specifics { RunningIsInTable(states[i].life, s); }
  }

  /** Destroying a value makes it NULL and touches no other; once the map is freed nothing is left of the thread's. */
  lemma DestroyingForgets(w: World, s: L.Sid, at: nat, t: L.Sid, other: nat)
    requires L.St(w.life, s).own.Running?
    ensures Get(Apply(w, Remove(s, at)), s, at) == 0
    ensures t != s || other != at ==> Get(Apply(w, Remove(s, at)), t, other) == Get(w, t, other)
    ensures Get(Apply(w, Free(s)), s, other) == 0 && s !in Apply(w, Free(s)).specifics
    ensures t != s ==> Get(Apply(w, Free(s)), t, other) == Get(w, t, other)
  {
  }
}
