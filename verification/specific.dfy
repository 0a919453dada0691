/** Thread-specific data, as code on the heap.  NULL is 0; hurd_ihash is a map. */
module Specific {
  import opened Base
  import opened Links
  import K = Keys
  import T = ThreadTable

  function Lookup(specifics: Option<map<nat, int>>, key: nat): int {
    if specifics.Some? && key in specifics.value then specifics.value[key] else 0
  }

  function WithoutKey(specifics: Option<map<nat, int>>, key: nat): Option<map<nat, int>> {
    if specifics.Some? then Some(specifics.value - {key}) else None
  }

  /** Values are stored under live keys only. */
  predicate StoredLive(specifics: Option<map<nat, int>>, k: K.Table) {
    specifics.Some? ==> forall key :: key in specifics.value ==> K.Live(k, key)
  }

  datatype SetResult = Stored | EINVAL | ENOMEM

  method SetSpecific(k: K.KeyTable, self: Pthread, key: int, value: int, createOk: bool, addOk: bool) returns (r: SetResult)
    requires k.Valid()
    modifies self`threadSpecifics
    ensures r == EINVAL <==> !K.Live(k.Value(), key)
    ensures r == Stored <==> K.Live(k.Value(), key) && (old(self.threadSpecifics).Some? || createOk) && addOk
    ensures r == Stored ==> Lookup(self.threadSpecifics, key) == value
    ensures forall other: nat :: r != Stored || other != key ==>
      Lookup(self.threadSpecifics, other) == old(Lookup(self.threadSpecifics, other))
    ensures old(StoredLive(self.threadSpecifics, k.Value())) ==> StoredLive(self.threadSpecifics, k.Value())
  {
    if !k.IsLive(key) {
      return EINVAL;
    }
    if self.threadSpecifics.None? {
      if !createOk {
        return ENOMEM;
      }
      self.threadSpecifics := Some(map[]);
    }
    if !addOk {
      return ENOMEM;
    }
    self.threadSpecifics := Some(self.threadSpecifics.value[key := value]);
    return Stored;
  }

  method GetSpecific(k: K.KeyTable, self: Pthread, key: int) returns (value: int)
    requires k.Valid()
    ensures value == if K.Live(k.Value(), key) then Lookup(self.threadSpecifics, key) else 0
  {
    if !k.IsLive(key) {
      return 0;
    }
    if self.threadSpecifics.None? {
      return 0;
    }
    return if key in self.threadSpecifics.value then self.threadSpecifics.value[key] else 0;
  }

  ghost function Published(threads: T.Table): set<Pthread>
    requires threads.Valid()
    reads threads, threads.threads
  {
    set t: Pthread | t in threads.threads[..threads.numThreads]
  }

  /** The loop of pthread_key_delete over the thread table. */
  method Sweep(key: nat, threads: T.Table)
    requires threads.Valid()
    modifies Published(threads)`threadSpecifics
    ensures forall t :: t in Published(threads) ==> t.threadSpecifics == WithoutKey(old(t.threadSpecifics), key)
  {
    ghost var s := threads.threads[..threads.numThreads];
    for i := 0 to threads.numThreads
      invariant forall t: Pthread :: t in s ==>
        t.threadSpecifics == if t in s[..i] then WithoutKey(old(t.threadSpecifics), key) else old(t.threadSpecifics)
    {
      assert forall t: Pthread :: t in s[..i + 1] <==> t in s[..i] || t == s[i];
      var t := threads.threads[i];
      if t == null {
        continue;
      }
      assert t in s;
      if t.threadSpecifics.Some? {
        assert key !in t.threadSpecifics.value ==> t.threadSpecifics.value - {key} == t.threadSpecifics.value;
        t.threadSpecifics := Some(t.threadSpecifics.value - {key});
      }
    }
    assert s[..threads.numThreads] == s;
  }

  /** pthread_key_delete: the slot, then every thread in the table. */
  method Delete(k: K.KeyTable, key: int, threads: T.Table) returns (ok: bool)
    requires k.Valid() && threads.Valid()
    modifies k`invalidCount, k.destructors, Published(threads)`threadSpecifics
    ensures k.Valid() && (k.Value(), ok) == K.DeleteStep(old(k.Value()), key)
    ensures forall t :: t in Published(threads) ==>
      t.threadSpecifics == if ok then WithoutKey(old(t.threadSpecifics), key) else old(t.threadSpecifics)
  {
    ok := k.Invalidate(key);
    if ok {
      Sweep(key, threads);
    }
  }

  // ---------------------------------------------------------------- destruction

  datatype Call = Call(key: nat, f: nat, value: int)

  /** What a pass that finds `specifics` has to call for the key `i`. */
  function CallFor(slots: seq<K.Slot>, specifics: Option<map<nat, int>>, i: nat): seq<Call>
    requires i < |slots|
  {
    var v := Lookup(specifics, i);
    if slots[i].Destructor? && v != 0 then [Call(i, slots[i].f, v)] else []
  }

  /** What one pass over unchanging keys and values calls: every non-NULL value with a destructor. */
  function Calls(slots: seq<K.Slot>, specifics: Option<map<nat, int>>, from: nat): seq<Call>
    decreases |slots| - from
  {
    if from >= |slots| then []
    else CallFor(slots, specifics, from) + Calls(slots, specifics, from + 1)
  }

  /** Each value with a destructor is passed to it once, in increasing order of keys, and nothing else is. */
  lemma {:induction false} CallsAreExact(slots: seq<K.Slot>, specifics: Option<map<nat, int>>, from: nat)
    ensures var c := Calls(slots, specifics, from);
      && (forall i, j :: 0 <= i < j < |c| ==> c[i].key < c[j].key)
      && (forall i :: 0 <= i < |c| ==> c[i].key >= from)
      && (forall x :: x in c <==>
            from <= x.key < |slots| && slots[x.key] == K.Destructor(x.f) && x.value == Lookup(specifics, x.key) != 0)
    decreases |slots| - from
  {
    if from < |slots| {
      CallsAreExact(slots, specifics, from + 1);
      var rest := Calls(slots, specifics, from + 1);
      assert forall i :: 0 <= i < |rest| ==> rest[i] in rest;
    }
  }

  /** The user's destructor.  It may set values, and create and delete keys; a quiet one does neither. */
  method CallDestructor(k: K.KeyTable, self: Pthread, f: nat, value: int, ghost quiet: bool)
    requires k.Valid() && self.threadSpecifics.Some? && StoredLive(self.threadSpecifics, k.Value())
    modifies k, k.destructors, self`threadSpecifics
    ensures k.Valid() && self.threadSpecifics.Some? && StoredLive(self.threadSpecifics, k.Value())
    ensures fresh(k.destructors) || k.destructors == old(k.destructors)
    ensures quiet ==> k.Value() == old(k.Value()) && self.threadSpecifics == old(self.threadSpecifics)
  {
  }

  /** What other threads do while the key lock is free between two passes: create and delete keys. */
  method OtherThreads(k: K.KeyTable, self: Pthread)
    requires k.Valid() && self.threadSpecifics.Some? && StoredLive(self.threadSpecifics, k.Value())
    modifies k, k.destructors, self`threadSpecifics
    ensures k.Valid() && self.threadSpecifics.Some? && StoredLive(self.threadSpecifics, k.Value())
    ensures fresh(k.destructors) || k.destructors == old(k.destructors)
    ensures forall key :: key in self.threadSpecifics.value ==>
      key in old(self.threadSpecifics.value) && self.threadSpecifics.value[key] == old(self.threadSpecifics.value)[key]
  {
  }

  ghost predicate NothingLeft(specifics: Option<map<nat, int>>, k: K.Table) {
    forall key: nat :: K.Live(k, key) ==> Lookup(specifics, key) == 0
  }

  /** Of `before`, what is stored under the live keys from `from` up to `to` is gone. */
  ghost predicate Cleared(before: Option<map<nat, int>>, now: Option<map<nat, int>>, k: K.Table, from: nat, to: nat) {
    forall key: nat :: Lookup(now, key) == (if from <= key < to && K.Live(k, key) then 0 else Lookup(before, key))
  }

  lemma ClearedNext(before: Option<map<nat, int>>, mid: Option<map<nat, int>>, now: Option<map<nat, int>>, k: K.Table, i: nat)
    requires Cleared(before, mid, k, 0, i) && Cleared(mid, now, k, i, i + 1)
    ensures Cleared(before, now, k, 0, i + 1)
  {
  }

  lemma AllCleared(before: Option<map<nat, int>>, now: Option<map<nat, int>>, k: K.Table)
    requires Cleared(before, now, k, 0, |k.slots|)
    ensures NothingLeft(now, k)
  {
  }

  lemma NextCall(slots: seq<K.Slot>, before: Option<map<nat, int>>, now: Option<map<nat, int>>, calls: seq<Call>, i: nat)
    requires i < |slots| && Lookup(now, i) == Lookup(before, i)
    ensures calls + Calls(slots, before, i) == (calls + CallFor(slots, now, i)) + Calls(slots, before, i + 1)
  {
  }

  /** The body of the inner loop. */
  method Visit(k: K.KeyTable, self: Pthread, i: nat, budget: nat, ghost quiet: bool) returns (calls: seq<Call>, stuck: bool)
    requires k.Valid() && self.threadSpecifics.Some? && StoredLive(self.threadSpecifics, k.Value()) && i < k.count
    modifies k, k.destructors, self`threadSpecifics
    ensures k.Valid() && self.threadSpecifics.Some? && StoredLive(self.threadSpecifics, k.Value())
    ensures fresh(k.destructors) || k.destructors == old(k.destructors)
    ensures !stuck ==> calls == CallFor(old(k.Value().slots), old(self.threadSpecifics), i)
    ensures stuck <==> budget == 0 && CallFor(old(k.Value().slots), old(self.threadSpecifics), i) != []
    ensures stuck ==> calls == []
    ensures calls == [] || quiet ==> k.Value() == old(k.Value())
    ensures calls == [] || quiet ==> Cleared(old(self.threadSpecifics), self.threadSpecifics, k.Value(), i, i + 1)
  {
    calls, stuck := [], false;
    if k.destructors[i] != K.Invalid {
      var value := if i in self.threadSpecifics.value then self.threadSpecifics.value[i] else 0;
      if value != 0 {
        self.threadSpecifics := Some(self.threadSpecifics.value - {i});
        if k.destructors[i].Destructor? {
          if budget == 0 {
            return calls, true;
          }
          calls := [Call(i, k.destructors[i].f, value)];
          CallDestructor(k, self, k.destructors[i].f, value, quiet);
        }
      }
    }
  }

  /** One pass.  A destructor may keep the pass going by creating keys, so the number of calls is bounded by
      `budget`; `stuck` says that it ran out. */
  method Pass(k: K.KeyTable, self: Pthread, budget: nat, ghost quiet: bool) returns (stuck: bool, calls: seq<Call>)
    requires k.Valid() && self.threadSpecifics.Some? && StoredLive(self.threadSpecifics, k.Value())
    modifies k, k.destructors, self`threadSpecifics
    ensures k.Valid() && self.threadSpecifics.Some? && StoredLive(self.threadSpecifics, k.Value())
    ensures fresh(k.destructors) || k.destructors == old(k.destructors)
    ensures |calls| <= budget && (stuck ==> |calls| == budget)
    ensures !stuck && (calls == [] || quiet) ==> NothingLeft(self.threadSpecifics, k.Value())
    ensures quiet && !stuck ==> calls == Calls(old(k.Value().slots), old(self.threadSpecifics), 0)
    ensures quiet && stuck ==> |Calls(old(k.Value().slots), old(self.threadSpecifics), 0)| > budget
  {
    stuck, calls := false, [];
    ghost var table, before := k.Value(), self.threadSpecifics;
    ghost var slots := table.slots;
    var i := 0;
    while i < k.count
      invariant k.Valid() && self.threadSpecifics.Some? && StoredLive(self.threadSpecifics, k.Value())
      invariant fresh(k.destructors) || k.destructors == old(k.destructors)
      invariant |calls| <= budget
      invariant calls == [] || quiet ==> k.Value() == table && i <= k.count
      invariant calls == [] || quiet ==> Cleared(before, self.threadSpecifics, table, 0, i)
      invariant quiet ==> calls + Calls(slots, before, i) == Calls(slots, before, 0)
      decreases budget - |calls|, k.count - i
    {
      ghost var current := self.threadSpecifics;
      var more;
      more, stuck := Visit(k, self, i, budget - |calls|, quiet);
      if quiet { NextCall(slots, before, current, calls, i); }
      if stuck {
        return;
      }
      if (calls == [] && more == []) || quiet { ClearedNext(before, current, self.threadSpecifics, table, i); }
      calls := calls + more;
      i := i + 1;
    }
    if calls == [] || quiet { AllCleared(before, self.threadSpecifics, table); }
  }

  /** __pthread_destroy_specific.  `dropped` is what the final hurd_ihash_free throws away: nothing of value,
      whatever the destructors did.  Quiet destructors are all called in the first pass, and a second finds
      nothing left to do. */
  method DestroySpecific(k: K.KeyTable, self: Pthread, budget: nat, ghost quiet: bool)
    returns (done: bool, passes: nat, calls: seq<Call>, ghost dropped: Option<map<nat, int>>)
    requires k.Valid() && StoredLive(self.threadSpecifics, k.Value())
    modifies k, k.destructors, self`threadSpecifics
    ensures k.Valid()
    ensures done ==> self.threadSpecifics == None && NothingLeft(dropped, k.Value())
    ensures |calls| <= budget && (!done ==> |calls| == budget)
    ensures quiet && |Calls(old(k.Value().slots), old(self.threadSpecifics), 0)| <= budget ==>
      done && passes <= 2 && calls == Calls(old(k.Value().slots), old(self.threadSpecifics), 0)
  {
    passes, calls, dropped := 0, [], self.threadSpecifics;
    if self.threadSpecifics.None? {
      NothingToCall(k.Value().slots, 0);
      return true, passes, calls, dropped;
    }
    ghost var expected := Calls(k.Value().slots, self.threadSpecifics, 0);
    while true
      invariant k.Valid() && self.threadSpecifics.Some? && StoredLive(self.threadSpecifics, k.Value())
      invariant fresh(k.destructors) || k.destructors == old(k.destructors)
      invariant |calls| <= budget
      invariant passes == 0 ==> calls == [] && expected == Calls(k.Value().slots, self.threadSpecifics, 0)
      invariant quiet && |expected| <= budget && passes > 0 ==>
        passes == 1 && calls == expected && NothingLeft(self.threadSpecifics, k.Value())
      decreases budget - |calls|
    {
      ghost var slots, before := k.Value().slots, self.threadSpecifics;
      if NothingLeft(before, k.Value()) { NothingLeftToCall(slots, before, 0); }
      var stuck, more := Pass(k, self, budget - |calls|, quiet);
      passes, calls := passes + 1, calls + more;
      if stuck {
        return false, passes, calls, dropped;
      }
      if more == [] {
        break;
      }
      OtherThreads(k, self);
    }
    OtherThreads(k, self);
    dropped := self.threadSpecifics;
    self.threadSpecifics := None;
    done := true;
  }

  lemma {:induction false} NothingLeftToCall(slots: seq<K.Slot>, specifics: Option<map<nat, int>>, from: nat)
    requires forall key: nat :: from <= key < |slots| && slots[key] != K.Invalid ==> Lookup(specifics, key) == 0
    ensures Calls(slots, specifics, from) == []
    decreases |slots| - from
  {
    if from < |slots| { NothingLeftToCall(slots, specifics, from + 1); }
  }

  lemma NothingToCall(slots: seq<K.Slot>, from: nat)
    ensures Calls(slots, None, from) == []
  {
    NothingLeftToCall(slots, None, from);
  }
}
