/** Fork handlers: a doubly linked list, walked without its lock while other threads go on registering. */
module AtFork {
  import opened Base

  datatype Kind = Prepare | Parent | Child

  /** A registration; None is a null function pointer. */
  class Handler {
    const prepare: Option<nat>
    const parent: Option<nat>
    const child: Option<nat>
    var prev: Handler?
    var next: Handler?

    constructor (prepare: Option<nat>, parent: Option<nat>, child: Option<nat>)
      ensures this.prepare == prepare && this.parent == parent && this.child == child && prev == null
    {
      this.prepare, this.parent, this.child := prepare, parent, child;
      prev := null;
    }
  }

  function FunctionOf(h: Handler, kind: Kind): Option<nat> {
    match kind
    case Prepare => h.prepare
    case Parent => h.parent
    case Child => h.child
  }

  predicate Has(h: Handler, kind: Kind) {
    FunctionOf(h, kind).Some?
  }

  function Reverse<T>(s: seq<T>): (r: seq<T>)
    ensures |r| == |s|
  {
    if s == [] then [] else Reverse(s[1..]) + [s[0]]
  }

  /** Those of `s` that have a handler of this kind, in the same order. */
  function Having(s: seq<Handler>, kind: Kind): seq<Handler> {
    if s == [] then [] else (if Has(s[0], kind) then [s[0]] else []) + Having(s[1..], kind)
  }

  // ---------------------------------------------------------------- order

  lemma {:induction false} ReverseAt<T>(s: seq<T>, k: nat)
    requires k < |s|
    ensures Reverse(s)[k] == s[|s| - 1 - k]
  {
    if k < |s| - 1 { ReverseAt(s[1..], k); }
  }

  lemma {:induction false} HavingConcat(a: seq<Handler>, b: seq<Handler>, kind: Kind)
    ensures Having(a + b, kind) == Having(a, kind) + Having(b, kind)
  {
    if a == [] {
      assert a + b == b;
    } else {
      var x := if Has(a[0], kind) then [a[0]] else [];
      calc {
        Having(a + b, kind);
        { assert (a + b)[1..] == a[1..] + b; }
        x + Having(a[1..] + b, kind);
        { HavingConcat(a[1..], b, kind); }
        x + (Having(a[1..], kind) + Having(b, kind));
        (x + Having(a[1..], kind)) + Having(b, kind);
      }
    }
  }

  lemma {:induction false} ReverseConcat<T>(a: seq<T>, b: seq<T>)
    ensures Reverse(a + b) == Reverse(b) + Reverse(a)
  {
    if a == [] {
      assert a + b == b;
    } else {
      ReverseConcat(a[1..], b);
      assert (a + b)[1..] == a[1..] + b;
    }
  }

  lemma {:induction false} HavingReverse(s: seq<Handler>, kind: Kind)
    ensures Having(Reverse(s), kind) == Reverse(Having(s, kind))
  {
    if s != [] {
      HavingReverse(s[1..], kind);
      HavingConcat(Reverse(s[1..]), [s[0]], kind);
      ReverseConcat(if Has(s[0], kind) then [s[0]] else [], Having(s[1..], kind));
    }
  }

  lemma {:induction false} HavingDistinct(s: seq<Handler>, kind: Kind)
    requires Distinct(s)
    ensures Distinct(Having(s, kind)) && forall h :: h in Having(s, kind) <==> h in s && Has(h, kind)
  {
    if s != [] {
      HavingDistinct(s[1..], kind);
      assert s[0] !in s[1..];
    }
  }

  /** A duplicate-free sequence is its own reverse only if it is hardly one. */
  lemma OwnReverseIff<T>(s: seq<T>)
    requires Distinct(s)
    ensures Reverse(s) == s <==> |s| <= 1
  {
    if |s| > 1 { ReverseAt(s, 0); }
  }

  /** `registered`, oldest first, is run by a fork as `Run`: the prepare handlers in that order, the others in
      the opposite one.  The header promises the reverse of each. */
  function Run(registered: seq<Handler>, kind: Kind): seq<Handler> {
    if kind == Prepare then Having(registered, kind) else Having(Reverse(registered), kind)
  }

  function Promised(registered: seq<Handler>, kind: Kind): seq<Handler> {
    if kind == Prepare then Having(Reverse(registered), kind) else Having(registered, kind)
  }

  function Singleton(f: Option<nat>): seq<nat> {
    if f.Some? then [f.value] else []
  }

  /** The functions that running the handlers of this kind of `s`, in order, calls. */
  function Functions(s: seq<Handler>, kind: Kind): seq<nat> {
    if s == [] then [] else Singleton(FunctionOf(s[0], kind)) + Functions(s[1..], kind)
  }

  lemma {:induction false} FunctionsConcat(a: seq<Handler>, b: seq<Handler>, kind: Kind)
    ensures Functions(a + b, kind) == Functions(a, kind) + Functions(b, kind)
  {
    if a == [] {
      assert a + b == b;
    } else {
      var x := Singleton(FunctionOf(a[0], kind));
      calc {
        Functions(a + b, kind);
        { assert (a + b)[1..] == a[1..] + b; }
        x + Functions(a[1..] + b, kind);
        { FunctionsConcat(a[1..], b, kind); }
        x + (Functions(a[1..], kind) + Functions(b, kind));
        (x + Functions(a[1..], kind)) + Functions(b, kind);
      }
    }
  }

  lemma {:induction false} FunctionsReverse(s: seq<Handler>, kind: Kind)
    ensures Functions(Reverse(s), kind) == Reverse(Functions(s, kind))
  {
    if s != [] {
      FunctionsReverse(s[1..], kind);
      FunctionsConcat(Reverse(s[1..]), [s[0]], kind);
      ReverseConcat(Functions([s[0]], kind), Functions(s[1..], kind));
      FunctionsConcat([s[0]], s[1..], kind);
      assert s == [s[0]] + s[1..];
    }
  }

  /** Handlers of another kind make no difference. */
  lemma {:induction false} FunctionsHaving(s: seq<Handler>, kind: Kind)
    ensures Functions(Having(s, kind), kind) == Functions(s, kind)
  {
    if s != [] {
      FunctionsHaving(s[1..], kind);
      FunctionsConcat(if Has(s[0], kind) then [s[0]] else [], Having(s[1..], kind), kind);
    }
  }

  /** A fork calls the functions it promises to call, in the opposite order; so the promise is kept exactly when
      their sequence reads the same both ways. */
  lemma PromiseKeptIff(registered: seq<Handler>, kind: Kind)
    ensures var run, promised := Functions(Run(registered, kind), kind), Functions(Promised(registered, kind), kind);
      && run == Reverse(promised)
      && (run == promised <==> Functions(registered, kind) == Reverse(Functions(registered, kind)))
  {
    FunctionsHaving(registered, kind);
    FunctionsHaving(Reverse(registered), kind);
    FunctionsReverse(registered, kind);
    ReverseTwice(Functions(registered, kind));
  }

  /** As for the registrations themselves, which differ from each other whatever their functions are, it is kept
      exactly when at most one has a handler of the kind. */
  lemma OrderKeptIff(registered: seq<Handler>, kind: Kind)
    requires Distinct(registered)
    ensures Run(registered, kind) == Promised(registered, kind) <==> |Having(registered, kind)| <= 1
    ensures Run(registered, kind) == Reverse(Promised(registered, kind))
  {
    HavingReverse(registered, kind);
    HavingDistinct(registered, kind);
    OwnReverseIff(Having(registered, kind));
    ReverseTwice(Having(registered, kind));
  }

  lemma ReverseTwice<T>(s: seq<T>)
    ensures Reverse(Reverse(s)) == s
  {
    forall k | 0 <= k < |s| ensures Reverse(Reverse(s))[k] == s[k] {
      ReverseAt(Reverse(s), k);
      ReverseAt(s, |s| - 1 - k);
    }
  }

  // ---------------------------------------------------------------- the code

  /** `calls` are the prepare functions of `called`, the parent functions, the child functions. */
  ghost predicate PreparesOf(called: seq<Handler>, calls: seq<nat>) {
    |calls| == |called| && forall i {:trigger calls[i]} :: 0 <= i < |calls| ==> called[i].prepare == Some(calls[i])
  }

  /** The function is called if there is one. */
  method CallPrepare(h: Handler, called: seq<Handler>, calls: seq<nat>) returns (called': seq<Handler>, calls': seq<nat>)
    requires PreparesOf(called, calls)
    ensures PreparesOf(called', calls') && called' == called + if Has(h, Prepare) then [h] else []
  {
    called', calls' := called, calls;
    if h.prepare.Some? {
      called', calls' := called + [h], calls + [h.prepare.value];
    }
  }

  ghost predicate ParentsOf(called: seq<Handler>, calls: seq<nat>) {
    |calls| == |called| && forall i {:trigger calls[i]} :: 0 <= i < |calls| ==> called[i].parent == Some(calls[i])
  }

  /** The function is called if there is one. */
  method CallParent(h: Handler, called: seq<Handler>, calls: seq<nat>) returns (called': seq<Handler>, calls': seq<nat>)
    requires ParentsOf(called, calls)
    ensures ParentsOf(called', calls') && called' == called + if Has(h, Parent) then [h] else []
  {
    called', calls' := called, calls;
    if h.parent.Some? {
      called', calls' := called + [h], calls + [h.parent.value];
    }
  }

  ghost predicate ChildrenOf(called: seq<Handler>, calls: seq<nat>) {
    |calls| == |called| && forall i {:trigger calls[i]} :: 0 <= i < |calls| ==> called[i].child == Some(calls[i])
  }

  /** The function is called if there is one. */
  method CallChild(h: Handler, called: seq<Handler>, calls: seq<nat>) returns (called': seq<Handler>, calls': seq<nat>)
    requires ChildrenOf(called, calls)
    ensures ChildrenOf(called', calls') && called' == called + if Has(h, Child) then [h] else []
  {
    called', calls' := called, calls;
    if h.child.Some? {
      called', calls' := called + [h], calls + [h.child.value];
    }
  }


  /** `now` is `s` with handlers registered since. */
  ghost predicate Since(s: seq<Handler>, now: seq<Handler>) {
    |s| <= |now| && forall k {:trigger s[k]} :: 0 <= k < |s| ==> s[k] == now[|now| - |s| + k]
  }

  lemma SinceTwice(r: seq<Handler>, s: seq<Handler>, t: seq<Handler>)
    requires Since(r, s) && Since(s, t)
    ensures Since(r, t)
  {
  }

  /** Registration leaves the links of an older handler as they were, but for the head's `prev`. */
  lemma OldLinks(q: ForkHandlers, s: seq<Handler>, k: nat)
    requires q.Valid() && Since(s, q.list) && k < |s|
    ensures s[k].next == if k + 1 < |s| then s[k + 1] else null
    ensures k > 0 ==> s[k].prev == s[k - 1]
  {
    var d := |q.list| - |s|;
    assert q.list[d + k] == s[k] && (k + 1 < |s| ==> q.list[d + k + 1] == s[k + 1]) && (k > 0 ==> q.list[d + k - 1] == s[k - 1]);
    assert q.list[d + k].next == s[k].next && q.list[d + k].prev == s[k].prev;
  }

  class ForkHandlers {
    var first: Handler?  // the newest
    var last: Handler?   // the oldest
    ghost var list: seq<Handler>  // newest first
    ghost var nodes: set<Handler>

    ghost predicate Valid()
      reads this, nodes
    {
      && Distinct(list)
      && (forall i {:trigger list[i]} :: 0 <= i < |list| ==> list[i] in nodes)
      && first == (if list == [] then null else list[0])
      && last == (if list == [] then null else list[|list| - 1])
      && (forall i {:trigger list[i].next} :: 0 <= i < |list| ==> list[i].next == if i + 1 < |list| then list[i + 1] else null)
      && (forall i {:trigger list[i].prev} :: 0 <= i < |list| ==> list[i].prev == if i > 0 then list[i - 1] else null)
    }

    constructor ()
      ensures Valid() && list == []
    {
      first, last, list, nodes := null, null, [], {};
    }

    /** __register_atfork; false is ENOMEM. */
    method Register(prepare: Option<nat>, parent: Option<nat>, child: Option<nat>, memory: bool) returns (ok: bool)
      requires Valid()
      modifies this, nodes`prev
      ensures Valid() && ok == memory
      ensures fresh(nodes - old(nodes))
      ensures !ok ==> list == old(list)
      ensures ok ==> |list| == |old(list)| + 1 && list[1..] == old(list) && fresh(list[0])
      ensures ok ==> list[0].prepare == prepare && list[0].parent == parent && list[0].child == child
    {
      if !memory {
        return false;
      }
      var new_ := new Handler(prepare, parent, child);
      new_.next := first;
      if first != null {
        first.prev := new_;
      }
      first := new_;
      if last == null {
        last := new_;
      }
      list, nodes := [new_] + list, nodes + {new_};
      return true;
    }

    /** Other threads register any number of handlers, and so may a handler while it runs. */
    method Registrations(n: nat)
      requires Valid()
      modifies this, nodes`prev
      ensures Valid() && Since(old(list), list)
      ensures fresh(nodes - old(nodes))
    {
      for i := 0 to n
        invariant Valid() && Since(old(list), list)
        invariant fresh(nodes - old(nodes))
      {
        var memory: bool, prepare, parent, child := *, *, *, *;
        ghost var was := list;
        var ok := Register(prepare, parent, child, memory);
        if ok {
          assert list == [list[0]] + was;
        }
        SinceTwice(old(list), was, list);
      }
    }

    /** One step of a walk over the list as it was, `s`: others register, then the link is followed. */
    method Advance(h: Handler, back: bool, ghost s: seq<Handler>, ghost k: nat) returns (n: Handler?)
      requires Valid() && Since(s, list) && k < |s| && h == s[k] && (back ==> k > 0)
      modifies this, nodes`prev
      ensures Valid() && Since(s, list) && fresh(nodes - old(nodes))
      ensures n == if back then s[k - 1] else if k + 1 < |s| then s[k + 1] else null
    {
      var m: nat := *;
      Registrations(m);
      SinceTwice(s, old(list), list);
      OldLinks(this, s, k);
      n := if back then h.prev else h.next;
    }

    /** atfork_pthread_prepare: the head and the tail are read under the lock, the rest without it. */
    method RunPrepare() returns (called: seq<Handler>, calls: seq<nat>)
      requires Valid()
      modifies this, nodes`prev
      ensures Valid() && Since(old(list), list)
      ensures called == Run(Reverse(old(list)), Prepare)
      ensures PreparesOf(called, calls)
    {
      called, calls := [], [];
      var handlers, lastHandler := first, last;
      if lastHandler == null {
        return;
      }
      ghost var s, visited := list, [];
      while true
        invariant Valid() && Since(s, list) && fresh(nodes - old(nodes)) && Distinct(s)
        invariant |visited| < |s| && lastHandler == s[|s| - 1 - |visited|] && handlers == s[0]
        invariant Backwards(s, visited) && called == Having(visited, Prepare)
        invariant PreparesOf(called, calls)
        decreases |s| - |visited|
      {
        var h: Handler := lastHandler;
        HavingSnoc(visited, h, Prepare);
        ghost var longer := visited + [h];
        BackwardsSnoc(s, visited, h);
        visited := longer;
        called, calls := CallPrepare(h, called, calls);
        if h == handlers {
          break;
        }
        lastHandler := Advance(h, true, s, |s| - |visited|);
      }
      BackwardsAll(s, visited);
    }

    /** atfork_pthread_parent. */
    method RunParent() returns (called: seq<Handler>, calls: seq<nat>)
      requires Valid()
      modifies this, nodes`prev
      ensures Valid() && Since(old(list), list)
      ensures called == Run(Reverse(old(list)), Parent) && ParentsOf(called, calls)
    {
      called, calls := [], [];
      var handlers := first;
      ghost var s := list;
      ghost var k := 0;
      assert s[0..] == s;
      while handlers != null
        invariant Valid() && Since(s, list) && fresh(nodes - old(nodes))
        invariant 0 <= k <= |s| && handlers == if k < |s| then s[k] else null
        invariant called + Having(s[k..], Parent) == Having(s, Parent) && ParentsOf(called, calls)
        decreases |s| - k
      {
        var h: Handler := handlers;
        NextCalled(s, k, Parent, called);
        called, calls := CallParent(h, called, calls);
        handlers := Advance(h, false, s, k);
        k := k + 1;
      }
      RunOfOthers(s, Parent);
    }

    /** atfork_pthread_child. */
    method RunChild() returns (called: seq<Handler>, calls: seq<nat>)
      requires Valid()
      modifies this, nodes`prev
      ensures Valid() && Since(old(list), list)
      ensures called == Run(Reverse(old(list)), Child) && ChildrenOf(called, calls)
    {
      called, calls := [], [];
      var handlers := first;
      ghost var s := list;
      ghost var k := 0;
      assert s[0..] == s;
      while handlers != null
        invariant Valid() && Since(s, list) && fresh(nodes - old(nodes))
        invariant 0 <= k <= |s| && handlers == if k < |s| then s[k] else null
        invariant called + Having(s[k..], Child) == Having(s, Child) && ChildrenOf(called, calls)
        decreases |s| - k
      {
        var h: Handler := handlers;
        NextCalled(s, k, Child, called);
        called, calls := CallChild(h, called, calls);
        handlers := Advance(h, false, s, k);
        k := k + 1;
      }
      RunOfOthers(s, Child);
    }
  }

  /** What is run is exactly the handlers of the kind asked for, each once: prepare functions before a fork, parent
      functions in the parent, child functions in the child. */
  lemma RunsTheRightOnes(registered: seq<Handler>, kind: Kind, h: Handler)
    requires Distinct(registered)
    ensures Distinct(Run(registered, kind))
    ensures kind == Prepare ==> (h in Run(registered, kind) <==> h in registered && h.prepare.Some?)
    ensures kind == Parent ==> (h in Run(registered, kind) <==> h in registered && h.parent.Some?)
    ensures kind == Child ==> (h in Run(registered, kind) <==> h in registered && h.child.Some?)
  {
    HavingDistinct(registered, kind);
    HavingReverse(registered, kind);
    ReverseDistinct(Having(registered, kind));
    ReverseHas(Having(registered, kind), h);
  }

  lemma ReverseDistinct<T>(s: seq<T>)
    requires Distinct(s)
    ensures Distinct(Reverse(s))
  {
    forall i, j | 0 <= i < j < |s| ensures Reverse(s)[i] != Reverse(s)[j] {
      ReverseAt(s, i);
      ReverseAt(s, j);
    }
  }

  lemma {:induction false} ReverseHas<T>(s: seq<T>, x: T)
    ensures x in Reverse(s) <==> x in s
  {
    if s != [] { ReverseHas(s[1..], x); }
  }

  lemma RunOfOthers(s: seq<Handler>, kind: Kind)
    requires kind != Prepare
    ensures Run(Reverse(s), kind) == Having(s, kind)
  {
    ReverseTwice(s);
  }

  /** `r` is the end of `s`, last element first. */
  ghost predicate Backwards(s: seq<Handler>, r: seq<Handler>) {
    |r| <= |s| && forall i {:trigger r[i]} :: 0 <= i < |r| ==> r[i] == s[|s| - 1 - i]
  }

  lemma BackwardsAll(s: seq<Handler>, r: seq<Handler>)
    requires Backwards(s, r) && |r| == |s|
    ensures r == Reverse(s)
  {
    forall i | 0 <= i < |s| ensures r[i] == Reverse(s)[i] {
      ReverseAt(s, i);
    }
  }

  lemma BackwardsSnoc(s: seq<Handler>, r: seq<Handler>, h: Handler)
    requires Backwards(s, r) && |r| < |s| && h == s[|s| - 1 - |r|]
    ensures Backwards(s, r + [h])
  {
  }

  lemma HavingSnoc(s: seq<Handler>, h: Handler, kind: Kind)
    ensures Having(s + [h], kind) == Having(s, kind) + (if Has(h, kind) then [h] else [])
  {
    HavingConcat(s, [h], kind);
  }

  lemma NextCalled(s: seq<Handler>, k: nat, kind: Kind, called: seq<Handler>)
    requires k < |s|
    ensures (called + (if Has(s[k], kind) then [s[k]] else [])) + Having(s[k + 1..], kind) == called + Having(s[k..], kind)
  {
    assert s[k..][1..] == s[k + 1..];
  }
}
