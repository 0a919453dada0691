/** Keys for thread-specific data: the table of destructors, its reuse and its growth. */
module Keys {
  import opened Base

  /** An element of the destructor array.  A key may have no destructor; `Invalid` marks a deleted one. */
  datatype Slot = Invalid | NoDestructor | Destructor(f: nat)

  /** `slots` is the used part of the array; `hint` is the static variable from which a creation searches. */
  datatype Table = Table(slots: seq<Slot>, size: nat, invalid: int, hint: nat)

  const FRESH := Table([], 0, 0, 0)

  predicate Live(k: Table, key: int) {
    0 <= key < |k.slots| && k.slots[key] != Invalid
  }

  function CountInvalid(s: seq<Slot>): nat {
    if s == [] then 0 else (if s[0] == Invalid then 1 else 0) + CountInvalid(s[1..])
  }

  /** The first invalid slot at or after `from`, or the end. */
  function Search(s: seq<Slot>, from: nat): (r: nat)
    requires from <= |s|
    ensures from <= r <= |s| && (r < |s| ==> s[r] == Invalid)
    ensures forall j :: from <= j < r ==> s[j] != Invalid
    decreases |s| - from
  {
    if from == |s| || s[from] == Invalid then from else Search(s, from + 1)
  }

  /** Full, with enough holes to be worth another search from the start. */
  predicate WorthRescan(k: Table) {
    k.size == |k.slots| && k.invalid > 4 && k.invalid > k.size / 8
  }

  function Grown(size: nat): nat {
    if size == 0 then 8 else 2 * size
  }

  /** Where a creation ends up: at a hole, or at the end. */
  function Place(k: Table): (r: nat)
    requires k.hint <= |k.slots|
    ensures r <= |k.slots| && (r < |k.slots| ==> k.slots[r] == Invalid)
  {
    var i := Search(k.slots, k.hint);
    if i == |k.slots| && WorthRescan(k) then Search(k.slots, 0) else i
  }

  /** pthread_key_create; `memory` says whether realloc succeeds.  None: ENOMEM. */
  function CreateStep(k: Table, d: Slot, memory: bool): (Table, Option<nat>)
    requires k.hint <= |k.slots|
  {
    var j := Place(k);
    if j < |k.slots| then (k.(slots := k.slots[j := d], invalid := k.invalid - 1, hint := j + 1), Some(j))
    else if k.size == |k.slots| && !memory then (k.(hint := j), None)
    else
      var size := if k.size == |k.slots| then Grown(k.size) else k.size;
      (Table(k.slots + [d], size, k.invalid, j + 1), Some(j))
  }

  /** pthread_key_delete on the table alone; false is EINVAL. */
  function DeleteStep(k: Table, key: int): (Table, bool) {
    if Live(k, key) then (k.(slots := k.slots[key := Invalid], invalid := k.invalid + 1), true) else (k, false)
  }

  // ---------------------------------------------------------------- invariant

  predicate Ok(k: Table) {
    k.hint <= |k.slots| <= k.size && k.invalid == CountInvalid(k.slots) && (k.size == 0 || k.size >= 8)
  }

  function LiveCount(k: Table): int {
    |k.slots| - CountInvalid(k.slots)
  }

  lemma {:induction false} CountConcat(a: seq<Slot>, b: seq<Slot>)
    ensures CountInvalid(a + b) == CountInvalid(a) + CountInvalid(b)
  {
    if a == [] {
      assert a + b == b;
    } else {
      CountConcat(a[1..], b);
      assert (a + b)[1..] == a[1..] + b;
    }
  }

  lemma CountUpdate(s: seq<Slot>, i: nat, x: Slot)
    requires i < |s|
    ensures CountInvalid(s[i := x]) ==
      CountInvalid(s) - (if s[i] == Invalid then 1 else 0) + (if x == Invalid then 1 else 0)
  {
    assert s == s[..i] + ([s[i]] + s[i + 1..]);
    assert s[i := x] == s[..i] + ([x] + s[i + 1..]);
    CountConcat(s[..i], [s[i]] + s[i + 1..]);
    CountConcat(s[..i], [x] + s[i + 1..]);
  }

  lemma {:induction false} NoneInvalid(s: seq<Slot>)
    requires forall i :: 0 <= i < |s| ==> s[i] != Invalid
    ensures CountInvalid(s) == 0
  {
    if s != [] { NoneInvalid(s[1..]); }
  }

  /** A rescan finds a hole, so it is not followed by another. */
  lemma RescanSucceeds(k: Table)
    requires Ok(k) && WorthRescan(k)
    ensures Search(k.slots, 0) < |k.slots|
  {
    if Search(k.slots, 0) == |k.slots| { NoneInvalid(k.slots); }
  }

  /** A creation keeps the counts exact, never hands out a live key, and touches no other key. */
  lemma CreateKeeps(k: Table, d: Slot, memory: bool)
    requires Ok(k) && d != Invalid
    ensures var (k', r) := CreateStep(k, d, memory);
      && Ok(k')
      && (r.None? ==> k'.slots == k.slots && k'.size == k.size && !memory)
      && (r.Some? ==> !Live(k, r.value) && Live(k', r.value) && k'.slots[r.value] == d && LiveCount(k') == LiveCount(k) + 1)
      && (forall key :: r != Some(key) ==> (Live(k', key) <==> Live(k, key)))
      && (forall key :: Live(k, key) ==> k'.slots[key] == k.slots[key])
      && (k'.size != k.size ==> k'.size == Grown(k.size) && |k.slots| == k.size && !WorthRescan(k))
  {
    if WorthRescan(k) { RescanSucceeds(k); }
    var j := Place(k);
    if j < |k.slots| {
      CountUpdate(k.slots, j, d);
    } else {
      CountConcat(k.slots, [d]);
      assert CountInvalid([d]) == 0;
    }
  }

  /** Next fit: a new key is the first hole at or after the hint, or new at the end, or, when that is worth a rescan,
      the first hole of all; the next search starts right behind it, so a hole that was passed by waits for a rescan. */
  lemma NextFit(k: Table, d: Slot, memory: bool)
    requires Ok(k) && d != Invalid
    ensures var (k', r) := CreateStep(k, d, memory);
      r.Some? ==>
        && k'.hint == r.value + 1
        && (k.hint <= r.value ==> forall j :: k.hint <= j < r.value ==> Live(k, j))
        && (r.value < k.hint ==> WorthRescan(k) && (forall j :: 0 <= j < r.value || k.hint <= j < |k.slots| ==> Live(k, j)))
        && (r.value == |k.slots| ==> !WorthRescan(k))
  {
    if WorthRescan(k) { RescanSucceeds(k); }
  }

  lemma DeleteKeeps(k: Table, key: int)
    requires Ok(k)
    ensures var (k', ok) := DeleteStep(k, key);
      && Ok(k') && (ok <==> Live(k, key)) && !Live(k', key)
      && (forall other :: other != key ==> (Live(k', other) <==> Live(k, other)))
      && (forall other :: Live(k', other) ==> k'.slots[other] == k.slots[other])
      && LiveCount(k') == LiveCount(k) - (if ok then 1 else 0)
  {
    if Live(k, key) { CountUpdate(k.slots, key, Invalid); }
  }

  // ---------------------------------------------------------------- any sequence of creations and deletions

  datatype Op = Create(destructor: Slot, memory: bool) | Delete(key: int)

  predicate ValidOps(ops: seq<Op>) {
    forall i :: 0 <= i < |ops| && ops[i].Create? ==> ops[i].destructor != Invalid
  }

  function After(k: Table, op: Op): Table
    requires k.hint <= |k.slots|
  {
    match op
    case Create(d, memory) => CreateStep(k, d, memory).0
    case Delete(key) => DeleteStep(k, key).0
  }

  /** The table after `ops`, and the largest number of keys alive at any point on the way. */
  function Run(ops: seq<Op>): (r: (Table, int))
    ensures r.0.hint <= |r.0.slots|
  {
    if ops == [] then (FRESH, 0)
    else
      var (k, peak) := Run(ops[..|ops| - 1]);
      var k' := After(k, ops[|ops| - 1]);
      (k', if LiveCount(k') > peak then LiveCount(k') else peak)
  }

  function Max(a: int, b: int): int {
    if a < b then b else a
  }

  /** Counts stay exact, and the array never gets bigger than eight slots or four times the peak. */
  lemma {:induction false} SizeBound(ops: seq<Op>)
    requires ValidOps(ops)
    ensures var (k, peak) := Run(ops); Ok(k) && LiveCount(k) <= peak && k.size <= Max(8, 4 * peak)
  {
    if ops != [] {
      var front, op := ops[..|ops| - 1], ops[|ops| - 1];
      SizeBound(front);
      var (k, peak) := Run(front);
      match op
      case Create(d, memory) => CreateKeeps(k, d, memory);
      case Delete(key) => DeleteKeeps(k, key);
    }
  }

  /** The peak is one: at no point on the way are more keys alive. */
  lemma PeakIsNotExceeded(ops: seq<Op>, i: nat)
    requires ValidOps(ops) && i <= |ops|
    ensures LiveCount(Run(ops[..i]).0) <= Run(ops).1
    decreases |ops| - i
  {
    if i == |ops| {
      assert ops[..i] == ops;
      SizeBound(ops);
    } else {
      PeakGrows(ops, i);
      SizeBound(ops[..i]);
    }
  }

  lemma {:induction false} PeakGrows(ops: seq<Op>, i: nat)
    requires i <= |ops|
    ensures Run(ops[..i]).1 <= Run(ops).1
    decreases |ops|
  {
    if i < |ops| {
      PeakGrows(ops[..|ops| - 1], i);
      assert ops[..|ops| - 1][..i] == ops[..i];
    } else {
      assert ops[..i] == ops;
    }
  }

  // ---------------------------------------------------------------- the code

  class KeyTable {
    var destructors: array<Slot>
    var size: nat
    var count: nat
    var invalidCount: int
    var index: nat

    constructor ()
      ensures Valid() && Value() == FRESH && fresh(destructors)
    {
      destructors := new Slot[0](i => Invalid);
      size, count, invalidCount, index := 0, 0, 0, 0;
    }

    ghost predicate Valid()
      reads this, destructors
    {
      count <= size == destructors.Length && Ok(Value())
    }

    ghost function Value(): Table
      reads this, destructors
    {
      Table(if count <= destructors.Length then destructors[..count] else [], size, invalidCount, index)
    }

    /** No hole from the hint on, and no room at the end. */
    ghost predicate Full()
      reads this, destructors
    {
      size == count == destructors.Length && forall i :: index <= i < count && 0 <= i ==> destructors[i] != Invalid
    }

    /** Enough holes before the hint: more than four, and more than an eighth of the array. */
    ghost predicate WorthIt()
      reads this
    {
      invalidCount > 4 && invalidCount > size / 8
    }

    /** The search loop.  It leaves its result in the hint. */
    method Advance()
      requires Valid()
      modifies this`index
      ensures Valid() && index == Search(Value().slots, old(index))
      ensures Value() == old(Value()).(hint := index)
    {
      while index < count && destructors[index] != Invalid
        invariant index <= count
        invariant Search(destructors[..count], index) == Search(destructors[..count], old(index))
      {
        index := index + 1;
      }
    }

    /** The search of pthread_key_create, up to the point where it has a place.  `rescans` counts the jumps
        back to its start. */
    method Find() returns (ghost rescans: nat)
      requires Valid()
      modifies this`index
      ensures Valid() && Value() == old(Value()).(hint := Place(old(Value())))
      ensures index == count && size == count ==> !WorthRescan(Value())
      ensures rescans <= 1 && (rescans == 1 ==> index < count)
      ensures rescans == 1 <==> old(Full()) && old(WorthIt())
      ensures index == count && size == count <==> old(Full()) && !old(WorthIt())
    {
      rescans := 0;
      ghost var was := Value();
      while true
        invariant Valid() && rescans <= 1
        invariant Value() == was.(hint := if rescans == 0 then was.hint else 0)
        invariant rescans == 1 ==> Search(was.slots, was.hint) == count && WorthRescan(was)
        decreases 1 - rescans
      {
        Advance();
        if rescans == 1 { RescanSucceeds(was); }
        if index < count || size != count || !(invalidCount > 4 && invalidCount > size / 8) {
          return;
        }
        index := 0;
        rescans := rescans + 1;
      }
    }

    /** pthread_key_create. */
    method Create(destructor: Slot, memory: bool) returns (key: Option<nat>, ghost rescans: nat)
      requires Valid() && destructor != Invalid
      modifies this, destructors
      ensures Valid() && (Value(), key) == CreateStep(old(Value()), destructor, memory)
      ensures key.None? <==> old(Full()) && !old(WorthIt()) && !memory
      ensures old(Full()) ==> (rescans == 1 <==> old(WorthIt()))
      ensures size == if key.Some? && old(Full()) && !old(WorthIt()) then (if old(size) == 0 then 8 else 2 * old(size)) else old(size)
      ensures key.Some? ==> !old(Live(Value(), key.value)) && count > key.value && destructors[key.value] == destructor
      ensures key.Some? ==> index == key.value + 1
      ensures rescans <= 1 && (rescans == 1 ==> key.Some? && size == old(size))
      ensures fresh(destructors) || destructors == old(destructors)
    {
      rescans := Find();
      if index < count {
        key := Some(index);
        Reuse(destructor);
      } else {
        key := Append(destructor, memory);
      }
    }

    /** The hint is at a hole: fill it. */
    method Reuse(destructor: Slot)
      requires Valid() && index < count && destructors[index] == Invalid && destructor != Invalid
      modifies this, destructors
      ensures Valid() && destructors == old(destructors)
      ensures var was := old(Value());
        Value() == was.(slots := was.slots[was.hint := destructor], invalid := was.invalid - 1, hint := was.hint + 1)
    {
      ghost var was := Value();
      CountUpdate(was.slots, was.hint, destructor);
      assert invalidCount > 0;
      invalidCount := invalidCount - 1;
      destructors[index] := destructor;
      index := index + 1;
      assert destructors[..count] == was.slots[was.hint := destructor];
    }

    /** The hint is at the end: take the next slot, after making room. */
    method Append(destructor: Slot, memory: bool) returns (key: Option<nat>)
      requires Valid() && index == count && destructor != Invalid
      modifies this, destructors
      ensures Valid() && (fresh(destructors) || destructors == old(destructors))
      ensures var was := old(Value());
        (Value(), key) == if was.size == |was.slots| && !memory then (was, None) else
          (Table(was.slots + [destructor], if was.size == |was.slots| then Grown(was.size) else was.size,
                 was.invalid, was.hint + 1), Some(was.hint))
    {
      ghost var was := Value();
      if size == count {
        if !memory {
          return None;
        }
        Resize(if size == 0 then 8 else size * 2);
      }
      CountConcat(was.slots, [destructor]);
      assert CountInvalid([destructor]) == 0;
      destructors[index] := destructor;
      key := Some(index);
      index := index + 1;
      count := count + 1;
      assert destructors[..count] == was.slots + [destructor];
    }

    /** realloc: what was there is kept, the rest is arbitrary. */
    method Resize(newsize: nat)
      requires Valid() && newsize > size
      modifies this`destructors, this`size
      ensures count <= size == newsize == destructors.Length && fresh(destructors)
      ensures Value() == old(Value()).(size := newsize)
    {
      var t := new Slot[newsize](i => NoDestructor);
      forall i | 0 <= i < destructors.Length {
        t[i] := destructors[i];
      }
      assert t[..count] == destructors[..count];
      destructors, size := t, newsize;
    }

    /** The part of pthread_key_delete that works on the table. */
    method Invalidate(key: int) returns (ok: bool)
      requires Valid()
      modifies this`invalidCount, destructors
      ensures Valid() && (Value(), ok) == DeleteStep(old(Value()), key)
    {
      DeleteKeeps(Value(), key);
      if key < 0 || key >= count || destructors[key] == Invalid {
        return false;
      }
      ghost var was := Value();
      destructors[key] := Invalid;
      invalidCount := invalidCount + 1;
      assert destructors[..count] == was.slots[key := Invalid];
      return true;
    }

    /** The check that pthread_setspecific and pthread_getspecific start with. */
    predicate IsLive(key: int)
      requires Valid()
      reads this, destructors
      ensures IsLive(key) <==> Live(Value(), key)
    {
      !(key < 0 || key >= count || destructors[key] == Invalid)
    }
  }
}
