/** Every step of every caller and of every thread keeps the lifecycle invariant. */
module LifecycleProof {
  import opened Base
  import opened Links
  import opened Lifecycle
  import T = ThreadTable

  /** What a step on structure `s` by caller `a` leaves alone; `woken` says that it wakes whoever waits for `s`. */
  ghost predicate Untouched(l: Life, l': Life, s: Sid, a: Option<Aid>, woken: bool) {
    && (forall y {:trigger St(l', y)} :: y != s ==> St(l', y) == St(l, y))
    && (forall b: Aid {:trigger PcOf(l', b)} :: a != Some(b) ==>
          PcOf(l', b) == if woken && PcOf(l, b).JoinWait? && PcOf(l, b).s == s then JoinLock(s, PcOf(l, b).use) else PcOf(l, b))
    && (forall y {:trigger y in l'.free} :: y != s ==> (y in l'.free <==> y in l.free))
    && (forall y, u {:trigger (y, u) in l'.exits} :: y != s ==>
          ((y, u) in l'.exits <==> (y, u) in l.exits) && ((y, u) in l.exits ==> l'.exits[(y, u)] == l.exits[(y, u)]))
    && (forall y, u {:trigger (y, u) in l'.reapers} :: y != s ==>
          ((y, u) in l'.reapers <==> (y, u) in l.reapers) && ((y, u) in l.reapers ==> l'.reapers[(y, u)] == l.reapers[(y, u)]))
  }

  /** How the table may change: IDs are only added, the last one to `s`; old slots keep what they hold, except
      the one that belongs to `s`. */
  ghost predicate TableMove(l: Life, l': Life, s: Sid) {
    && |l.owners| == l.num <= |l.slots| && |l'.owners| == l'.num <= |l'.slots|
    && l.num <= l'.num && |l.slots| <= |l'.slots|
    && (forall i {:trigger l'.owners[i]} :: 0 <= i < l'.num ==>
          if i < l.num then l'.owners[i] == l.owners[i] else l'.owners[i] == s && l'.slots[i] == None)
    && (forall i {:trigger l'.slots[i]} :: 0 <= i < l.num ==>
          l'.slots[i] == l.slots[i] || (l.owners[i] == s && (l'.slots[i] == None || l'.slots[i] == Some(s))))
  }

  /** A claim by another caller than `a` that keeps the rule. */
  predicate Heeded(x: Str, a: Option<Aid>) {
    && x.fair && x.claim.By? && a != Some(x.claim.a) && x.custody == InTable && !x.reaped
    && (x.state == Joinable || x.state == Exited)
  }

  /** What callers that have only looked `x` up may rely on while it becomes `x'`. */
  predicate Smooth(x: Str, x': Str, a: Option<Aid>, woken: bool) {
    && (x.id > 0 ==> x'.id > 0) && (x'.fair ==> x.fair)
    && (x.use < x'.use || (x.use == x'.use && (x'.custody.Creating? ==> x.id == 0 || x.custody.Creating?)))
    && (Heeded(x, a) ==> !x'.fair || (Heeded(x', a) && x'.claim == x.claim && x'.use == x.use))
    && (!woken && Pending(x) ==> x'.use == x.use && Pending(x'))
    && (!woken && Missed(x) && x'.use == x.use ==> Missed(x'))
  }

  /** A step does right by its own structure and caller... */
  ghost predicate Kept(l: Life, l': Life, s: Sid, a: Option<Aid>, woken: bool) {
    StrOk(l', s) && (a.Some? ==> ActOk(l', a.value)) && Smooth(St(l, s), St(l', s), a, woken)
  }

  /** ...and changes nothing else. */
  ghost predicate Framed(l: Life, l': Life, s: Sid, a: Option<Aid>, woken: bool) {
    && Untouched(l, l', s, a, woken) && TableMove(l, l', s) && Distinct(l'.free)
    && (St(l, s).id > 0 ==> St(l', s).id == St(l, s).id)
    && (l'.num == l.num || St(l', s).id == l'.num == l.num + 1)
  }

  lemma LookersKeep(l: Life, l': Life, s: Sid, a: Option<Aid>, woken: bool, b: Aid)
    requires Sound(l) && Untouched(l, l', s, a, woken) && Smooth(St(l, s), St(l', s), a, woken)
    requires a != Some(b) && Looks(PcOf(l, b)) == Some(s)
    ensures ActOk(l', b)
  {
    assert ActOk(l, b);
    assert PcOf(l', b) == PcOf(l, b) || PcOf(l', b) == JoinLock(s, PcOf(l, b).use);
  }

  lemma OthersKeep(l: Life, l': Life, s: Sid, a: Option<Aid>, woken: bool, y: Sid)
    requires Sound(l) && Untouched(l, l', s, a, woken) && TableMove(l, l', s) && y != s
    requires a.Some? ==> Refers(PcOf(l, a.value)) in {None, Some(s)}
    ensures StrOk(l', y)
  {
    assert StrOk(l, y);
    assert St(l', y) == St(l, y);
    var x := St(l, y);
    if x.maker.Some? {
      assert PcOf(l', x.maker.value) == PcOf(l, x.maker.value);
    }
    if x.fair && x.claim.By? {
      assert PcOf(l', x.claim.a) == PcOf(l, x.claim.a);
    }
    OthersHistory(l, l', s, a, woken, y);
  }

  lemma OthersHistory(l: Life, l': Life, s: Sid, a: Option<Aid>, woken: bool, y: Sid)
    requires StrOk(l, y) && Untouched(l, l', s, a, woken) && y != s
    requires a.Some? ==> Refers(PcOf(l, a.value)) in {None, Some(s)}
    ensures ExitsOk(l', y, St(l, y)) && ReapersOk(l', y, St(l, y))
  {
    var x := St(l, y);
    if (y, x.use) in l.reapers && (x.custody.InTable? || x.custody.Tearing?) {
      assert PcOf(l', l.reapers[(y, x.use)]) == PcOf(l, l.reapers[(y, x.use)]);
    }
  }

  lemma OtherCallersKeep(l: Life, l': Life, s: Sid, a: Option<Aid>, woken: bool, b: Aid)
    requires Sound(l) && Untouched(l, l', s, a, woken) && TableMove(l, l', s) && a != Some(b)
    requires Refers(PcOf(l, b)) != Some(s)
    ensures ActOk(l', b)
  {
    assert ActOk(l, b);
    assert PcOf(l', b) == PcOf(l, b);
  }

  /** A step on `s` keeps the invariant if it does so for `s`, for its caller, for those that work on `s`, for
      those that only look at it and for the table. */
  lemma Combine(l: Life, l': Life, s: Sid, a: Option<Aid>, woken: bool)
    requires Sound(l) && Framed(l, l', s, a, woken) && Kept(l, l', s, a, woken)
    requires a.Some? ==> Refers(PcOf(l, a.value)) in {None, Some(s)}
    requires forall b: Aid :: a != Some(b) && Works(PcOf(l, b)) == Some(s) ==> ActOk(l', b)
    ensures Sound(l')
  {
    forall y ensures StrOk(l', y) {
      if y != s { OthersKeep(l, l', s, a, woken, y); }
    }
    forall b: Aid ensures ActOk(l', b) {
      if a != Some(b) {
        if Looks(PcOf(l, b)) == Some(s) {
          LookersKeep(l, l', s, a, woken, b);
        } else if Works(PcOf(l, b)) != Some(s) {
          OtherCallersKeep(l, l', s, a, woken, b);
        }
      }
    }
    forall i | 0 <= i < l'.num
      ensures St(l', l'.owners[i]).id == i + 1 && (l'.slots[i].Some? ==> l'.slots[i].value == l'.owners[i])
    {
      assert StrOk(l', l'.owners[i]);
      if i < l.num { assert StrOk(l, l.owners[i]); }
    }
  }

  /** Whoever works on `s` is its maker or the first that saw its thread exit. */
  lemma WhoElse(l: Life, s: Sid, b: Aid)
    requires Sound(l) && Works(PcOf(l, b)) == Some(s)
    ensures var x := St(l, s);
      x.maker == Some(b) || (x.maker.None? && (s, x.use) in l.reapers && l.reapers[(s, x.use)] == b && x.state == Exited)
  {
    assert ActOk(l, b) && StrOk(l, s);
  }

  /** A structure has at most one caller that works on it. */
  lemma Alone(l: Life, s: Sid, a: Aid)
    requires Sound(l) && Works(PcOf(l, a)) == Some(s)
    ensures forall b: Aid :: b != a ==> Works(PcOf(l, b)) != Some(s)
  {
    WhoElse(l, s, a);
    forall b: Aid | b != a ensures Works(PcOf(l, b)) != Some(s) {
      if Works(PcOf(l, b)) == Some(s) { WhoElse(l, s, b); }
    }
  }

  lemma Nobody(l: Life, s: Sid)
    requires Sound(l) && St(l, s).maker.None?
    requires St(l, s).state != Exited || (s, St(l, s).use) !in l.reapers
    ensures forall b: Aid :: Works(PcOf(l, b)) != Some(s)
  {
    forall b: Aid ensures Works(PcOf(l, b)) != Some(s) {
      if Works(PcOf(l, b)) == Some(s) { WhoElse(l, s, b); }
    }
  }

  /** A step by the caller that works on `s`. */
  lemma WorkerStep(l: Life, l': Life, s: Sid, a: Aid, woken: bool)
    requires Sound(l) && Works(PcOf(l, a)) == Some(s)
    requires Framed(l, l', s, Some(a), woken) && Kept(l, l', s, Some(a), woken)
    ensures Sound(l')
  {
    Alone(l, s, a);
    Combine(l, l', s, Some(a), woken);
  }

  /** A step on a structure that nobody works on. */
  lemma LoneStep(l: Life, l': Life, s: Sid, a: Option<Aid>, woken: bool)
    requires Sound(l) && St(l, s).maker.None? && (St(l, s).state != Exited || (s, St(l, s).use) !in l.reapers)
    requires a.Some? ==> Refers(PcOf(l, a.value)) in {None, Some(s)}
    requires Framed(l, l', s, a, woken) && Kept(l, l', s, a, woken)
    ensures Sound(l')
  {
    Nobody(l, s);
    Combine(l, l', s, a, woken);
  }

  lemma SetFrame(l: Life, s: Sid, x: Str, a: Aid, pc: Pc)
    requires TableOk(l) && (St(l, s).id > 0 ==> x.id == St(l, s).id)
    ensures Framed(l, SetPc(SetSt(l, s, x), a, pc), s, Some(a), false)
    ensures Framed(l, Wake(SetPc(SetSt(l, s, x), a, pc), s), s, Some(a), true)
  {
  }

  /** No caller so much as looks at a structure that never had an ID. */
  lemma NobodyLooks(l: Life, s: Sid)
    requires Sound(l) && (St(l, s).id == 0 || (St(l, s).use == 0 && St(l, s).custody.Creating?))
    ensures forall b: Aid :: Looks(PcOf(l, b)) != Some(s)
  {
    forall b: Aid ensures Looks(PcOf(l, b)) != Some(s) {
      assert ActOk(l, b);
    }
  }

  // ---------------------------------------------------------------- creation

  /** A step of `a` that touches its program counter only. */
  lemma PcStep(l: Life, a: Aid, pc: Pc)
    requires Sound(l) && Makes(PcOf(l, a)) == Makes(pc) && Looks(PcOf(l, a)) == Looks(pc) && Reaps(PcOf(l, a)) == Reaps(pc)
    requires ActOk(SetPc(l, a, pc), a)
    ensures Sound(SetPc(l, a, pc))
  {
    var l' := SetPc(l, a, pc);
    forall y ensures StrOk(l', y) {
      PcKeepsStr(l, a, pc, y);
    }
    forall b: Aid ensures ActOk(l', b) {
      if b != a { PcKeepsAct(l, a, pc, b); }
    }
  }

  lemma PcKeepsStr(l: Life, a: Aid, pc: Pc, y: Sid)
    requires StrOk(l, y)
    requires Makes(PcOf(l, a)) == Makes(pc) && Looks(PcOf(l, a)) == Looks(pc) && Reaps(PcOf(l, a)) == Reaps(pc)
    ensures StrOk(SetPc(l, a, pc), y)
  {
  }

  lemma PcKeepsAct(l: Life, a: Aid, pc: Pc, b: Aid)
    requires ActOk(l, b) && b != a
    ensures ActOk(SetPc(l, a, pc), b)
  {
  }

  lemma RecycleStep(l: Life, a: Aid)
    requires Sound(l) && PcOf(l, a).Scan?
    ensures Sound(DoRecycle(l, a))
  {
    var dead := set s | s in l.free && St(l, s).state == Terminated;
    match T.FirstDead(l.free, dead)
    case None => PcStep(l, a, Malloc);
    case Some(s) =>
      HandedOut(l, a, s);
      HandOutStep(l, a, s, DoRecycle(l, a));
  }

  function HandOut(x: Str, a: Aid): Str {
    x.(custody := Creating, use := x.use + 1, maker := Some(a), announced := false, reaped := false, claim := Open)
  }

  lemma HandedOut(l: Life, a: Aid, s: Sid)
    requires T.FirstDead(l.free, set y | y in l.free && St(l, y).state == Terminated) == Some(s)
    ensures DoRecycle(l, a) == SetPc(SetSt(l, s, HandOut(St(l, s), a)), a, Prepare(s)).(free := Without(l.free, s))
  {
  }

  lemma HandOutLocal(l: Life, a: Aid, s: Sid, l': Life)
    requires Distinct(l.free) && StrOk(l, s) && ActOk(l, a) && PcOf(l, a).Scan? && s in l.free && St(l, s).state == Terminated
    requires l' == SetPc(SetSt(l, s, HandOut(St(l, s), a)), a, Prepare(s)).(free := Without(l.free, s))
    ensures Kept(l, l', s, Some(a), false)
  {
    WithoutDistinct(l.free, s);
  }

  lemma HandOutStep(l: Life, a: Aid, s: Sid, l': Life)
    requires Sound(l) && PcOf(l, a).Scan? && s in l.free && St(l, s).state == Terminated
    requires l' == SetPc(SetSt(l, s, HandOut(St(l, s), a)), a, Prepare(s)).(free := Without(l.free, s))
    ensures Sound(l')
  {
    assert StrOk(l, s);
    WithoutDistinct(l.free, s);
    HandOutLocal(l, a, s, l');
    LoneStep(l, l', s, Some(a), false);
  }

  lemma InitializeLocal(l: Life, a: Aid, s: Sid, ok: bool)
    requires StrOk(l, s) && ActOk(l, a) && PcOf(l, a) == Prepare(s)
    ensures var l' := DoInitialize(l, a, s, ok);
      Kept(l, l', s, Some(a), false)
  {
  }

  lemma InitializeStep(l: Life, a: Aid, s: Sid, ok: bool)
    requires Sound(l) && PcOf(l, a) == Prepare(s)
    ensures Sound(DoInitialize(l, a, s, ok))
  {
    var l' := DoInitialize(l, a, s, ok);
    assert StrOk(l, s) && ActOk(l, a);
    InitializeLocal(l, a, s, ok);
    SetFrame(l, s, St(l', s), a, PcOf(l', a));
    WorkerStep(l, l', s, a, false);
  }

  lemma NewStrStep(l: Life, a: Aid, s: Sid, junk: ThreadState)
    requires Sound(l) && PcOf(l, a).Malloc? && s !in l.strs
    ensures Sound(SetPc(SetSt(l, s, ABSENT.(state := junk, custody := Raw, maker := Some(a))), a, Slot(s)))
  {
    var x := ABSENT.(state := junk, custody := Raw, maker := Some(a));
    var l' := SetPc(SetSt(l, s, x), a, Slot(s));
    assert StrOk(l, s);
    SetFrame(l, s, x, a, Slot(s));
    assert Kept(l, l', s, Some(a), false);
    LoneStep(l, l', s, Some(a), false);
  }

  /** The new ID's slot is fresh, whether or not the table was enlarged. */
  lemma GiveIdLocal(l: Life, a: Aid, s: Sid, r: (seq<Option<Sid>>, nat, Option<nat>))
    requires StrOk(l, s) && ActOk(l, a) && (PcOf(l, a).Slot? || PcOf(l, a).Grow?) && PcOf(l, a).s == s
    requires r.2 == Some(l.num + 1) && r.1 == l.num + 1 <= |r.0| && |l.slots| <= |r.0|
    requires r.0[l.num] == None && forall i {:trigger r.0[i]} :: 0 <= i < l.num ==> r.0[i] == l.slots[i]
    ensures var l' := GiveId(l, a, s, r);
      Kept(l, l', s, Some(a), false)
  {
  }

  lemma GiveIdStep(l: Life, a: Aid, s: Sid, r: (seq<Option<Sid>>, nat, Option<nat>))
    requires Sound(l) && (PcOf(l, a).Slot? || PcOf(l, a).Grow?) && PcOf(l, a).s == s
    requires r.2 == Some(l.num + 1) && r.1 == l.num + 1 <= |r.0| && |l.slots| <= |r.0|
    requires r.0[l.num] == None && forall i {:trigger r.0[i]} :: 0 <= i < l.num ==> r.0[i] == l.slots[i]
    ensures Sound(GiveId(l, a, s, r))
  {
    assert StrOk(l, s) && ActOk(l, a);
    GiveIdLocal(l, a, s, r);
    WorkerStep(l, GiveId(l, a, s, r), s, a, false);
  }

  lemma TakeSlotStep(l: Life, a: Aid, s: Sid)
    requires Sound(l) && PcOf(l, a) == Slot(s)
    ensures Sound(DoTakeSlot(l, a, s))
  {
    assert ActOk(l, a);
    if l.num < |l.slots| {
      GiveIdStep(l, a, s, T.SlotSection(l.slots, l.num, None));
    } else {
      PcStep(l, a, Grow(s, |l.slots|));
    }
  }

  lemma ForgetStep(l: Life, a: Aid, s: Sid)
    requires Sound(l) && PcOf(l, a).Grow? && PcOf(l, a).s == s
    ensures Sound(SetPc(Forget(l, s), a, Idle))
  {
    var l' := SetPc(Forget(l, s), a, Idle);
    assert StrOk(l, s) && ActOk(l, a);
    assert Kept(l, l', s, Some(a), false);
    WorkerStep(l, l', s, a, false);
  }

  lemma EnlargeStep(l: Life, a: Aid, s: Sid, saved: nat, spare: Option<seq<Option<Sid>>>)
    requires Sound(l) && PcOf(l, a) == Grow(s, saved) && (spare.Some? ==> |spare.value| == T.NewSize(saved))
    ensures Sound(DoEnlarge(l, a, s, saved, spare))
  {
    assert ActOk(l, a);
    if spare.None? {
      ForgetStep(l, a, s);
    } else if saved != |l.slots| {
      PcStep(l, a, Slot(s));
    } else {
      GiveIdStep(l, a, s, T.GrowSection(l.slots, l.num, None, saved, spare.value));
    }
  }

  lemma SetUpLocal(l: Life, a: Aid, s: Sid, detached: bool)
    requires StrOk(l, s) && ActOk(l, a) && PcOf(l, a) == Setup(s)
    ensures var l' := Apply(l, SetUp(a, detached));
      Kept(l, l', s, Some(a), false)
  {
  }

  lemma SetUpStep(l: Life, a: Aid, s: Sid, detached: bool)
    requires Sound(l) && PcOf(l, a) == Setup(s)
    ensures Sound(Apply(l, SetUp(a, detached)))
  {
    var l' := Apply(l, SetUp(a, detached));
    assert StrOk(l, s) && ActOk(l, a);
    SetUpLocal(l, a, s, detached);
    SetFrame(l, s, St(l', s), a, PcOf(l', a));
    WorkerStep(l, l', s, a, false);
  }

  lemma ProvideStep(l: Life, a: Aid, s: Sid, stackOk: bool, restOk: bool)
    requires Sound(l) && PcOf(l, a) == Equip(s)
    ensures Sound(DoProvide(l, a, s, stackOk, restOk))
  {
    assert ActOk(l, a);
    if (St(l, s).stack || stackOk) && restOk {
      EquippedStep(l, a, s, true, Publish(s));
    } else {
      EquippedStep(l, a, s, false, Tear(s, Withdraw, Failed));
    }
  }

  lemma EquippedLocal(l: Life, a: Aid, s: Sid, stack: bool, pc: Pc)
    requires StrOk(l, s) && ActOk(l, a) && PcOf(l, a) == Equip(s) && pc == if stack then Publish(s) else Tear(s, Withdraw, Failed)
    ensures var l' := SetPc(SetSt(l, s, St(l, s).(stack := stack)), a, pc);
      Kept(l, l', s, Some(a), false)
  {
  }

  lemma EquippedStep(l: Life, a: Aid, s: Sid, stack: bool, pc: Pc)
    requires Sound(l) && PcOf(l, a) == Equip(s) && pc == if stack then Publish(s) else Tear(s, Withdraw, Failed)
    ensures Sound(SetPc(SetSt(l, s, St(l, s).(stack := stack)), a, pc))
    ensures St(l, s).stack == stack ==> Sound(SetPc(l, a, pc))
  {
    var x := St(l, s).(stack := stack);
    assert StrOk(l, s) && ActOk(l, a);
    EquippedLocal(l, a, s, stack, pc);
    SetFrame(l, s, x, a, pc);
    WorkerStep(l, SetPc(SetSt(l, s, x), a, pc), s, a, false);
    if St(l, s).stack == stack { EquippedUnchanged(l, a, s, pc); }
  }

  lemma EquippedUnchanged(l: Life, a: Aid, s: Sid, pc: Pc)
    requires Sound(l) && PcOf(l, a) == Equip(s) && pc == if St(l, s).stack then Publish(s) else Tear(s, Withdraw, Failed)
    ensures Sound(SetPc(l, a, pc))
  {
    assert StrOk(l, s) && ActOk(l, a);
    PcStep(l, a, pc);
  }

  lemma PostLocal(l: Life, a: Aid, s: Sid)
    requires StrOk(l, s) && ActOk(l, a) && PcOf(l, a) == Publish(s)
    ensures var l' := Apply(l, Post(a));
      Kept(l, l', s, Some(a), false)
  {
  }

  lemma PostFrame(l: Life, a: Aid, s: Sid)
    requires TableOk(l) && StrOk(l, s) && 0 < St(l, s).id
    requires PcOf(l, a) == Publish(s)
    ensures Framed(l, Apply(l, Post(a)), s, Some(a), false)
  {
  }

  lemma PostStep(l: Life, a: Aid, s: Sid)
    requires Sound(l) && PcOf(l, a) == Publish(s)
    ensures Sound(Apply(l, Post(a)))
  {
    var l' := Apply(l, Post(a));
    assert StrOk(l, s) && ActOk(l, a);
    PostLocal(l, a, s);
    PostFrame(l, a, s);
    WorkerStep(l, l', s, a, false);
  }

  lemma LaunchLocal(l: Life, a: Aid, s: Sid, ok: bool)
    requires StrOk(l, s) && ActOk(l, a) && PcOf(l, a) == Start(s)
    ensures var l' := DoLaunch(l, a, s, ok);
      Kept(l, l', s, Some(a), false)
  {
  }

  lemma LaunchStep(l: Life, a: Aid, s: Sid, ok: bool)
    requires Sound(l) && PcOf(l, a) == Start(s)
    ensures Sound(DoLaunch(l, a, s, ok))
  {
    var l' := DoLaunch(l, a, s, ok);
    assert StrOk(l, s) && ActOk(l, a);
    LaunchLocal(l, a, s, ok);
    if ok {
      SetFrame(l, s, St(l', s), a, PcOf(l', a));
    }
    WorkerStep(l, l', s, a, false);
  }

  lemma UnpostLocal(l: Life, a: Aid, s: Sid)
    requires StrOk(l, s) && ActOk(l, a) && PcOf(l, a) == Retract(s)
    ensures var l' := DoUnpost(l, a, s);
      Kept(l, l', s, Some(a), false)
  {
  }

  lemma UnpostFrame(l: Life, a: Aid, s: Sid)
    requires TableOk(l) && StrOk(l, s) && 0 < St(l, s).id
    requires PcOf(l, a) == Retract(s)
    ensures Framed(l, DoUnpost(l, a, s), s, Some(a), false)
  {
  }

  lemma UnpostStep(l: Life, a: Aid, s: Sid)
    requires Sound(l) && PcOf(l, a) == Retract(s)
    ensures Sound(DoUnpost(l, a, s))
  {
    var l' := DoUnpost(l, a, s);
    assert StrOk(l, s) && ActOk(l, a);
    UnpostLocal(l, a, s);
    UnpostFrame(l, a, s);
    WorkerStep(l, l', s, a, false);
  }

  // ---------------------------------------------------------------- join, detach and cancel

  predicate Noticed(x: Str, x': Str) {
    && x' == x.(claim := x'.claim, fair := x'.fair, enabled := x'.enabled, pending := x'.pending)
    && (x'.fair ==> x.fair && (x'.claim == x.claim || x.maker.None?))
  }

  /** Whoever creates or reaps `s` does not notice that somebody names it, asks it to cancel or changes whether
      it can be cancelled. */
  lemma NoticeStep(l: Life, l': Life, s: Sid, a: Option<Aid>)
    requires Sound(l) && Framed(l, l', s, a, false) && Kept(l, l', s, a, false)
    requires a.Some? ==> Works(PcOf(l, a.value)).None? && Refers(PcOf(l, a.value)) in {None, Some(s)}
    requires Noticed(St(l, s), St(l', s)) && l'.num == l.num && l'.reapers == l.reapers
    ensures Sound(l')
  {
    forall b: Aid | a != Some(b) && Works(PcOf(l, b)) == Some(s) ensures ActOk(l', b) {
      WorkerKeeps(l, l', s, b);
    }
    Combine(l, l', s, a, false);
  }

  lemma WorkerKeeps(l: Life, l': Life, s: Sid, b: Aid)
    requires ActOk(l, b) && Works(PcOf(l, b)) == Some(s) && PcOf(l', b) == PcOf(l, b)
    requires Noticed(St(l, s), St(l', s)) && l'.num == l.num && |l'.slots| >= |l.slots| && l'.reapers == l.reapers
    ensures ActOk(l', b)
  {
  }

  lemma NameStep(l: Life, a: Aid, id: nat, join: bool)
    requires Sound(l) && PcOf(l, a).Idle? && 0 < id <= l.num <= |l.slots|
    ensures Sound(DoName(l, a, id, join))
  {
    if l.slots[id - 1].Some? {
      var s := l.slots[id - 1].value;
      assert l.owners[id - 1] == s;
      assert StrOk(l, s);
      NamedStep(l, a, s, join, DoName(l, a, id, join));
    }
  }

  function Named(x: Str, a: Aid): Str {
    if MayName(x) then x.(claim := By(a)) else x.(fair := false)
  }

  lemma NamedStep(l: Life, a: Aid, s: Sid, join: bool, l': Life)
    requires Sound(l) && PcOf(l, a).Idle? && St(l, s).custody == InTable
    requires var x := St(l, s);
      l' == SetPc(SetSt(l, s, Named(x, a)), a, if join then JoinLock(s, x.use) else DetachLock(s, x.use))
    ensures Sound(l')
  {
    NamedStr(l, a, s, join, l');
    NamedAct(l, a, s, join, l');
    SetFrame(l, s, Named(St(l, s), a), a, PcOf(l', a));
    NamedNoticed(l, a, s);
    NoticeStep(l, l', s, Some(a));
  }

  lemma NamedNoticed(l: Life, a: Aid, s: Sid)
    requires StrOk(l, s) && St(l, s).custody == InTable
    ensures Noticed(St(l, s), Named(St(l, s), a)) && Smooth(St(l, s), Named(St(l, s), a), Some(a), false)
  {
  }

  lemma NamedStr(l: Life, a: Aid, s: Sid, join: bool, l': Life)
    requires Sound(l) && PcOf(l, a).Idle? && St(l, s).custody == InTable
    requires var x := St(l, s);
      l' == SetPc(SetSt(l, s, Named(x, a)), a, if join then JoinLock(s, x.use) else DetachLock(s, x.use))
    ensures StrOk(l', s)
  {
    assert StrOk(l, s);
    NamedShape(St(l, s), a);
    NamedReaper(l, a, s, join, l');
    NamedMaker(l, a, s, join, l');
    NamedClaim(l, a, s, join, l');
    OnlyClaimed(l, l', s);
  }

  lemma OnlyClaimed(l: Life, l': Life, s: Sid)
    requires StrOk(l, s) && SameTable(l, l') && SameLedger(l, l') && l'.free == l.free
    requires var x, x' := St(l, s), St(l', s);
      && x' == x.(claim := x'.claim, fair := x'.fair) && Shape(x') && (x'.fair ==> FairShape(x')) && ReapersOk(l', s, x')
      && (x.maker.Some? ==> Makes(PcOf(l', x.maker.value)) == Some(s))
      && (x'.fair && x'.claim.By? ==> Refers(PcOf(l', x'.claim.a)) == Some(s))
    ensures StrOk(l', s)
  {
  }

  lemma NamedClaim(l: Life, a: Aid, s: Sid, join: bool, l': Life)
    requires Sound(l) && PcOf(l, a).Idle? && St(l, s).custody == InTable
    requires var x := St(l, s);
      l' == SetPc(SetSt(l, s, Named(x, a)), a, if join then JoinLock(s, x.use) else DetachLock(s, x.use))
    ensures var x' := St(l', s);
      x'.fair && x'.claim.By? ==> Refers(PcOf(l', x'.claim.a)) == Some(s)
  {
    assert StrOk(l, s);
  }

  lemma NamedMaker(l: Life, a: Aid, s: Sid, join: bool, l': Life)
    requires Sound(l) && PcOf(l, a).Idle?
    requires var x := St(l, s);
      l' == SetPc(SetSt(l, s, Named(x, a)), a, if join then JoinLock(s, x.use) else DetachLock(s, x.use))
    ensures var x := St(l, s);
      x.maker.Some? ==> Makes(PcOf(l', x.maker.value)) == Some(s)
  {
    assert StrOk(l, s);
  }

  lemma NamedReaper(l: Life, a: Aid, s: Sid, join: bool, l': Life)
    requires Sound(l) && PcOf(l, a).Idle? && St(l, s).custody == InTable
    requires var x := St(l, s);
      l' == SetPc(SetSt(l, s, Named(x, a)), a, if join then JoinLock(s, x.use) else DetachLock(s, x.use))
    ensures ReapersOk(l', s, St(l', s))
  {
    assert StrOk(l, s);
    var x := St(l, s);
    if (s, x.use) in l.reapers {
      assert PcOf(l', l.reapers[(s, x.use)]) == PcOf(l, l.reapers[(s, x.use)]);
    }
  }

  lemma NamedAct(l: Life, a: Aid, s: Sid, join: bool, l': Life)
    requires Sound(l) && PcOf(l, a).Idle? && St(l, s).custody == InTable
    requires var x := St(l, s);
      l' == SetPc(SetSt(l, s, Named(x, a)), a, if join then JoinLock(s, x.use) else DetachLock(s, x.use))
    ensures ActOk(l', a)
  {
    assert StrOk(l, s);
    NamedShape(St(l, s), a);
    NamedLooks(l', a, s, Named(St(l, s), a), St(l, s).use);
  }

  lemma NamedLooks(l: Life, a: Aid, s: Sid, x: Str, u: nat)
    requires St(l, s) == x && (PcOf(l, a) == JoinLock(s, u) || PcOf(l, a) == DetachLock(s, u))
    requires LookOk(x, u) && (x.fair ==> Heeds(x, a, u))
    ensures ActOk(l, a)
  {
  }

  lemma NamedShape(x: Str, a: Aid)
    requires Shape(x) && x.custody == InTable && (x.fair ==> FairShape(x))
    ensures Shape(Named(x, a)) && (Named(x, a).fair ==> FairShape(Named(x, a)))
    ensures Named(x, a).fair ==> x.fair && Heeds(Named(x, a), a, x.use)
  {
  }

  /** The first caller to see the exit; nobody else works on `s`. */
  lemma SeeExitStep(l: Life, a: Aid, s: Sid, pc: Pc)
    requires Sound(l) && Looks(PcOf(l, a)) == Some(s) && !PcOf(l, a).JoinWait? && St(l, s).state == Exited
    requires (s, St(l, s).use) !in l.reapers
    requires pc == if PcOf(l, a).JoinLock? then JoinRead(s, PcOf(l, a).use) else DetachReap(s, PcOf(l, a).use)
    ensures Sound(SeeExit(l, a, s, pc))
  {
    var l' := SeeExit(l, a, s, pc);
    assert StrOk(l, s) && ActOk(l, a);
    ExitedIsInTable(l, a, s);
    assert Kept(l, l', s, Some(a), false);
    LoneStep(l, l', s, Some(a), false);
  }

  /** An exit that nobody has seen yet is one of a thread in the table. */
  lemma ExitedIsInTable(l: Life, a: Aid, s: Sid)
    requires Sound(l) && Looks(PcOf(l, a)) == Some(s) && St(l, s).state == Exited && (s, St(l, s).use) !in l.reapers
    ensures St(l, s).custody == InTable && St(l, s).maker.None? && !St(l, s).reaped
  {
    assert StrOk(l, s) && ActOk(l, a);
  }

  lemma JoinCheckStep(l: Life, a: Aid, s: Sid, use: nat)
    requires Sound(l) && PcOf(l, a) == JoinLock(s, use) && !DoJoinCheck(l, a, s, use).doubled
    ensures Sound(DoJoinCheck(l, a, s, use))
  {
    assert ActOk(l, a);
    match T.JoinSection(St(l, s).state)
    case Wait => JoinWaitStep(l, a, s, use);
    case Reap => SeeExitStep(l, a, s, JoinRead(s, use));
    case _ => ForgetClaimStep(l, a, s, Spent);
  }

  lemma JoinWaitStep(l: Life, a: Aid, s: Sid, use: nat)
    requires Sound(l) && PcOf(l, a) == JoinLock(s, use) && St(l, s).state == Joinable
    ensures Sound(SetPc(l, a, JoinWait(s, use, St(l, s).use, St(l, s).announced)))
  {
    assert StrOk(l, s) && ActOk(l, a);
    JoinableWaits(St(l, s), use);
    PcStep(l, a, JoinWait(s, use, St(l, s).use, St(l, s).announced));
  }

  lemma JoinableWaits(x: Str, u: nat)
    requires Shape(x) && LookOk(x, u) && x.state == Joinable
    ensures if x.announced then Missed(x) else Pending(x)
  {
  }

  /** A call that ends without having done anything to the structure. */
  lemma ForgetClaimStep(l: Life, a: Aid, s: Sid, claim: Claim)
    requires Sound(l) && Looks(PcOf(l, a)) == Some(s)
    requires St(l, s).fair ==> claim == Open && !PcOf(l, a).DetachLock?
    ensures Sound(SetPc(SetSt(l, s, St(l, s).(claim := claim)), a, Idle))
  {
    var l' := SetPc(SetSt(l, s, St(l, s).(claim := claim)), a, Idle);
    assert StrOk(l, s) && ActOk(l, a);
    ForgottenStr(l, a, s, claim, l');
    SetFrame(l, s, St(l', s), a, Idle);
    NoticeStep(l, l', s, Some(a));
  }

  lemma ForgottenStr(l: Life, a: Aid, s: Sid, claim: Claim, l': Life)
    requires Sound(l) && Looks(PcOf(l, a)) == Some(s)
    requires St(l, s).fair ==> claim == Open && !PcOf(l, a).DetachLock?
    requires l' == SetPc(SetSt(l, s, St(l, s).(claim := claim)), a, Idle)
    ensures Kept(l, l', s, Some(a), false) && Noticed(St(l, s), St(l', s))
  {
    assert StrOk(l, s) && ActOk(l, a);
  }

  lemma AbandonStep(l: Life, a: Aid, s: Sid)
    requires Sound(l) && (PcOf(l, a).JoinLock? || PcOf(l, a).JoinWait?) && PcOf(l, a).s == s
    ensures Sound(SetPc(SetSt(l, s, St(l, s).(claim := Open)), a, Idle))
  {
    ForgetClaimStep(l, a, s, Open);
  }

  lemma DetachCheckStep(l: Life, a: Aid, s: Sid, use: nat)
    requires Sound(l) && PcOf(l, a) == DetachLock(s, use) && !DoDetachCheck(l, a, s, use).doubled
    ensures Sound(DoDetachCheck(l, a, s, use))
  {
    assert ActOk(l, a);
    match St(l, s).state
    case Exited => SeeExitStep(l, a, s, DetachReap(s, use));
    case Joinable => DetachedStep(l, a, s);
    case _ => ForgetClaimStep(l, a, s, Spent);
  }

  lemma DetachedLocal(l: Life, a: Aid, s: Sid)
    requires StrOk(l, s) && ActOk(l, a) && PcOf(l, a).DetachLock? && PcOf(l, a).s == s && St(l, s).state == Joinable
    ensures var l' := Wake(SetPc(SetSt(l, s, St(l, s).(state := Detached, claim := Spent, asked := true)), a, Idle), s);
      Kept(l, l', s, Some(a), true)
  {
  }

  /** The maker of a thread that is detached under its hands. */
  lemma DetachedWorker(l: Life, a: Aid, s: Sid, b: Aid)
    requires Sound(l) && PcOf(l, a).DetachLock? && PcOf(l, a).s == s && St(l, s).state == Joinable
    requires b != a && Works(PcOf(l, b)) == Some(s)
    ensures ActOk(Wake(SetPc(SetSt(l, s, St(l, s).(state := Detached, claim := Spent, asked := true)), a, Idle), s), b)
  {
    assert ActOk(l, a) && ActOk(l, b);
  }

  lemma DetachedStep(l: Life, a: Aid, s: Sid)
    requires Sound(l) && PcOf(l, a).DetachLock? && PcOf(l, a).s == s && St(l, s).state == Joinable
    ensures Sound(Wake(SetPc(SetSt(l, s, St(l, s).(state := Detached, claim := Spent, asked := true)), a, Idle), s))
  {
    var x := St(l, s).(state := Detached, claim := Spent, asked := true);
    var l' := Wake(SetPc(SetSt(l, s, x), a, Idle), s);
    assert StrOk(l, s) && ActOk(l, a);
    DetachedLocal(l, a, s);
    SetFrame(l, s, x, a, Idle);
    forall b: Aid | b != a && Works(PcOf(l, b)) == Some(s) ensures ActOk(l', b) {
      DetachedWorker(l, a, s, b);
    }
    Combine(l, l', s, Some(a), true);
  }

  lemma CancelFrame(l: Life, s: Sid, x: Str)
    requires TableOk(l) && x.id == St(l, s).id
    ensures Framed(l, SetSt(l, s, x), s, None, false)
  {
  }

  lemma CancelLocal(l: Life, s: Sid, x: Str)
    requires StrOk(l, s) && x == St(l, s).(enabled := x.enabled, pending := x.pending) && x.id > 0
    ensures Kept(l, SetSt(l, s, x), s, None, false)
  {
  }

  lemma CancelStep(l: Life, s: Sid, x: Str)
    requires Sound(l) && x == St(l, s).(enabled := x.enabled, pending := x.pending) && x.id > 0
    ensures Sound(SetSt(l, s, x))
  {
    assert StrOk(l, s);
    CancelFrame(l, s, x);
    CancelLocal(l, s, x);
    NoticeStep(l, SetSt(l, s, x), s, None);
  }

  lemma ReapLocal(l: Life, a: Aid, s: Sid, why: Purpose)
    requires StrOk(l, s) && ActOk(l, a) && (PcOf(l, a).JoinReap? || PcOf(l, a).DetachReap?) && PcOf(l, a).s == s
    requires why == if PcOf(l, a).JoinReap? then Joined(PcOf(l, a).use, PcOf(l, a).value) else Detaching(PcOf(l, a).use)
    ensures var l' := DoReap(l, a, s, why);
      Kept(l, l', s, Some(a), false)
  {
  }

  lemma ReapStep(l: Life, a: Aid, s: Sid, why: Purpose)
    requires Sound(l) && (PcOf(l, a).JoinReap? || PcOf(l, a).DetachReap?) && PcOf(l, a).s == s
    requires why == if PcOf(l, a).JoinReap? then Joined(PcOf(l, a).use, PcOf(l, a).value) else Detaching(PcOf(l, a).use)
    ensures Sound(DoReap(l, a, s, why))
  {
    var l' := DoReap(l, a, s, why);
    assert StrOk(l, s) && ActOk(l, a);
    ReapLocal(l, a, s, why);
    SetFrame(l, s, St(l', s), a, PcOf(l', a));
    WorkerStep(l, l', s, a, false);
  }

  // ---------------------------------------------------------------- teardown and exit

  predicate Broadcasts(x: Str, stage: Stage) {
    stage == Announce && x.state != Exited
  }

  /** What the first three steps of a teardown do: `s` is out of the table, and in the end on the free list. */
  ghost predicate Torn(l: Life, l': Life, s: Sid, stage: Stage, a: Option<Aid>) {
    && Framed(l, l', s, a, Broadcasts(St(l, s), stage)) && l'.num == l.num && l'.exits == l.exits && l'.reapers == l.reapers
    && St(l', s) == St(l, s).(custody := Tearing(stage == Enlist), announced := St(l, s).announced || Broadcasts(St(l, s), stage))
    && (s in l'.free <==> stage == Enlist)
    && 0 < St(l, s).id <= |l'.slots| && l'.slots[St(l, s).id - 1] == None
  }

  lemma TornByCaller(l: Life, l': Life, a: Aid, s: Sid, stage: Stage, why: Purpose)
    requires Sound(l) && PcOf(l, a) == Tear(s, stage, why) && PcOf(l', a) == Tear(s, NextStage(stage), why) && stage != Mark
    requires Torn(l, l', s, stage, Some(a))
    ensures Sound(l')
  {
    assert StrOk(l, s) && ActOk(l, a);
    TornStr(l, l', a, s);
    TornAct(l, l', a, s);
    TornSmooth(l, l', a, s);
    WorkerStep(l, l', s, a, Broadcasts(St(l, s), stage));
  }

  lemma TornStr(l: Life, l': Life, a: Aid, s: Sid)
    requires StrOk(l, s) && ActOk(l, a) && PcOf(l, a).Tear? && PcOf(l, a).s == s && PcOf(l, a).stage != Mark
    requires PcOf(l', a) == Tear(s, NextStage(PcOf(l, a).stage), PcOf(l, a).why)
    requires Torn(l, l', s, PcOf(l, a).stage, Some(a))
    ensures StrOk(l', s)
  {
    assert Makes(PcOf(l', a)) == Makes(PcOf(l, a)) && Reaps(PcOf(l', a)) == Reaps(PcOf(l, a));
  }

  lemma TornAct(l: Life, l': Life, a: Aid, s: Sid)
    requires StrOk(l, s) && ActOk(l, a) && PcOf(l, a).Tear? && PcOf(l, a).s == s && PcOf(l, a).stage != Mark
    requires PcOf(l', a) == Tear(s, NextStage(PcOf(l, a).stage), PcOf(l, a).why)
    requires Torn(l, l', s, PcOf(l, a).stage, Some(a))
    ensures ActOk(l', a)
  {
  }

  lemma TornSmooth(l: Life, l': Life, a: Aid, s: Sid)
    requires StrOk(l, s) && ActOk(l, a) && PcOf(l, a).Tear? && PcOf(l, a).s == s && PcOf(l, a).stage != Mark
    requires Torn(l, l', s, PcOf(l, a).stage, Some(a))
    ensures Smooth(St(l, s), St(l', s), Some(a), Broadcasts(St(l, s), PcOf(l, a).stage))
  {
  }

  lemma TearDownStep(l: Life, a: Aid, s: Sid, stage: Stage, why: Purpose)
    requires Sound(l) && PcOf(l, a) == Tear(s, stage, why)
    ensures Sound(DoTearDown(l, a, PcOf(l, a)))
  {
    match stage
    case Withdraw => TearDownWithdraw(l, a, s, why);
    case Announce => TearDownAnnounce(l, a, s, why);
    case Enlist => TearDownEnlist(l, a, s, why);
    case Mark => TearDownMark(l, a, s, why);
  }

  lemma TearDownWithdraw(l: Life, a: Aid, s: Sid, why: Purpose)
    requires Sound(l) && PcOf(l, a) == Tear(s, Withdraw, why)
    ensures Sound(SetPc(TearStep(l, s, Withdraw), a, Tear(s, Announce, why)))
  {
    assert StrOk(l, s) && ActOk(l, a);
    WithdrawTears(l, a, s, Tear(s, Announce, why));
    TornByCaller(l, SetPc(TearStep(l, s, Withdraw), a, Tear(s, Announce, why)), a, s, Withdraw, why);
  }

  lemma WithdrawTears(l: Life, a: Aid, s: Sid, pc: Pc)
    requires TableOk(l) && StrOk(l, s) && 0 < St(l, s).id && s !in l.free
    ensures Torn(l, SetPc(TearStep(l, s, Withdraw), a, pc), s, Withdraw, Some(a))
  {
  }

  lemma AnnounceTears(l: Life, a: Aid, s: Sid, why: Purpose)
    requires TableOk(l) && StrOk(l, s) && St(l, s).custody == Tearing(false)
    ensures Torn(l, SetPc(TearStep(l, s, Announce), a, Tear(s, Enlist, why)), s, Announce, Some(a))
  {
    assert l.owners[St(l, s).id - 1] == s;
    if St(l, s).state != Exited { BroadcastTears(l, a, s, why); }
  }

  lemma BroadcastTears(l: Life, a: Aid, s: Sid, why: Purpose)
    requires TableOk(l) && StrOk(l, s) && St(l, s).custody == Tearing(false) && St(l, s).state != Exited
    ensures Torn(l, SetPc(TearStep(l, s, Announce), a, Tear(s, Enlist, why)), s, Announce, Some(a))
  {
    assert l.owners[St(l, s).id - 1] == s;
  }

  lemma EnlistTears(l: Life, a: Aid, s: Sid, why: Purpose)
    requires TableOk(l) && StrOk(l, s) && St(l, s).custody == Tearing(false)
    ensures Torn(l, SetPc(TearStep(l, s, Enlist), a, Tear(s, Mark, why)), s, Enlist, Some(a))
  {
    assert l.owners[St(l, s).id - 1] == s;
  }

  lemma TearDownAnnounce(l: Life, a: Aid, s: Sid, why: Purpose)
    requires Sound(l) && PcOf(l, a) == Tear(s, Announce, why)
    ensures Sound(SetPc(TearStep(l, s, Announce), a, Tear(s, Enlist, why)))
  {
    assert StrOk(l, s) && ActOk(l, a);
    AnnounceTears(l, a, s, why);
    TornByCaller(l, SetPc(TearStep(l, s, Announce), a, Tear(s, Enlist, why)), a, s, Announce, why);
  }

  lemma TearDownEnlist(l: Life, a: Aid, s: Sid, why: Purpose)
    requires Sound(l) && PcOf(l, a) == Tear(s, Enlist, why)
    ensures Sound(SetPc(TearStep(l, s, Enlist), a, Tear(s, Mark, why)))
  {
    assert StrOk(l, s) && ActOk(l, a);
    EnlistTears(l, a, s, why);
    TornByCaller(l, SetPc(TearStep(l, s, Enlist), a, Tear(s, Mark, why)), a, s, Enlist, why);
  }

  lemma TearDownMarkLocal(l: Life, a: Aid, s: Sid, why: Purpose)
    requires StrOk(l, s) && ActOk(l, a) && PcOf(l, a) == Tear(s, Mark, why)
    ensures var l' := SetPc(TearStep(l, s, Mark), a, Idle);
      Kept(l, l', s, Some(a), false)
  {
  }

  lemma TearDownMark(l: Life, a: Aid, s: Sid, why: Purpose)
    requires Sound(l) && PcOf(l, a) == Tear(s, Mark, why)
    ensures Sound(SetPc(TearStep(l, s, Mark), a, Idle))
  {
    var l' := SetPc(TearStep(l, s, Mark), a, Idle);
    assert StrOk(l, s) && ActOk(l, a);
    TearDownMarkLocal(l, a, s, why);
    SetFrame(l, s, St(l', s), a, Idle);
    WorkerStep(l, l', s, a, false);
  }

  lemma LeaveStep(l: Life, s: Sid)
    requires Sound(l) && St(l, s).own.Leaving?
    ensures Sound(DoLeave(l, s, St(l, s).own.stage))
  {
    match St(l, s).own.stage
    case Withdraw => LeaveWithdraw(l, s);
    case Announce => LeaveAnnounce(l, s);
    case Enlist => LeaveEnlist(l, s);
    case Mark => LeaveMark(l, s);
  }

  lemma LeaveWithdrawLocal(l: Life, s: Sid)
    requires StrOk(l, s) && St(l, s).own == Leaving(Withdraw)
    ensures var l' := DoLeave(l, s, Withdraw);
      Kept(l, l', s, None, false)
  {
  }

  lemma LeaveWithdrawFrame(l: Life, s: Sid)
    requires TableOk(l) && StrOk(l, s) && St(l, s).own == Leaving(Withdraw)
    ensures Framed(l, DoLeave(l, s, Withdraw), s, None, false)
  {
  }

  lemma LeaveWithdraw(l: Life, s: Sid)
    requires Sound(l) && St(l, s).own == Leaving(Withdraw)
    ensures Sound(DoLeave(l, s, Withdraw))
  {
    assert StrOk(l, s);
    LeaveWithdrawLocal(l, s);
    LeaveWithdrawFrame(l, s);
    LoneStep(l, DoLeave(l, s, Withdraw), s, None, false);
  }

  lemma LeaveAnnounceStr(l: Life, s: Sid)
    requires StrOk(l, s) && St(l, s).own == Leaving(Announce)
    ensures StrOk(DoLeave(l, s, Announce), s)
  {
  }

  lemma LeavingSmooth(x: Str, x': Str)
    requires Shape(x) && x.own.Leaving? && (x.fair ==> FairShape(x))
    requires x' == x.(announced := x'.announced, own := x'.own)
    ensures Smooth(x, x', None, true)
  {
  }

  lemma LeaveAnnounceSmooth(l: Life, s: Sid)
    requires StrOk(l, s) && St(l, s).own == Leaving(Announce)
    ensures Smooth(St(l, s), St(DoLeave(l, s, Announce), s), None, true)
  {
    LeavingSmooth(St(l, s), St(l, s).(announced := true, own := Leaving(Enlist)));
  }

  lemma LeaveAnnounceLocal(l: Life, s: Sid)
    requires StrOk(l, s) && St(l, s).own == Leaving(Announce)
    ensures Kept(l, DoLeave(l, s, Announce), s, None, true)
  {
    LeaveAnnounceStr(l, s);
    LeaveAnnounceSmooth(l, s);
  }

  lemma LeaveAnnounceFrame(l: Life, s: Sid)
    requires TableOk(l) && StrOk(l, s) && St(l, s).own == Leaving(Announce)
    ensures Framed(l, DoLeave(l, s, Announce), s, None, true)
  {
  }

  lemma LeaveAnnounce(l: Life, s: Sid)
    requires Sound(l) && St(l, s).own == Leaving(Announce)
    ensures Sound(DoLeave(l, s, Announce))
  {
    assert StrOk(l, s);
    LeaveAnnounceLocal(l, s);
    LeaveAnnounceFrame(l, s);
    LoneStep(l, DoLeave(l, s, Announce), s, None, true);
  }

  lemma LeaveEnlistLocal(l: Life, s: Sid)
    requires StrOk(l, s) && St(l, s).own == Leaving(Enlist)
    ensures var l' := DoLeave(l, s, Enlist);
      Kept(l, l', s, None, false)
  {
  }

  lemma LeaveEnlistFrame(l: Life, s: Sid)
    requires TableOk(l) && StrOk(l, s) && St(l, s).own == Leaving(Enlist)
    ensures Framed(l, DoLeave(l, s, Enlist), s, None, false)
  {
  }

  lemma LeaveEnlist(l: Life, s: Sid)
    requires Sound(l) && St(l, s).own == Leaving(Enlist)
    ensures Sound(DoLeave(l, s, Enlist))
  {
    assert StrOk(l, s);
    LeaveEnlistLocal(l, s);
    LeaveEnlistFrame(l, s);
    LoneStep(l, DoLeave(l, s, Enlist), s, None, false);
  }

  lemma LeaveMarkLocal(l: Life, s: Sid)
    requires StrOk(l, s) && St(l, s).own == Leaving(Mark)
    ensures var l' := DoLeave(l, s, Mark);
      Kept(l, l', s, None, false)
  {
  }

  lemma LeaveMarkFrame(l: Life, s: Sid)
    requires TableOk(l) && StrOk(l, s) && St(l, s).own == Leaving(Mark)
    ensures Framed(l, DoLeave(l, s, Mark), s, None, false)
  {
  }

  lemma LeaveMark(l: Life, s: Sid)
    requires Sound(l) && St(l, s).own == Leaving(Mark)
    ensures Sound(DoLeave(l, s, Mark))
  {
    assert StrOk(l, s);
    LeaveMarkLocal(l, s);
    LeaveMarkFrame(l, s);
    LoneStep(l, DoLeave(l, s, Mark), s, None, false);
  }

  /** Nobody has seen the exit of a thread that is still running. */
  lemma RunningUnseen(l: Life, s: Sid)
    requires StrOk(l, s) && St(l, s).own.Running?
    ensures (s, St(l, s).use) !in l.reapers && St(l, s).custody == InTable && Alive(St(l, s))
  {
  }

  lemma ExitStrDetached(l: Life, s: Sid, value: int)
    requires StrOk(l, s) && St(l, s).own.Running? && St(l, s).state == Detached
    ensures StrOk(DoExit(l, s, value), s)
  {
    RunningUnseen(l, s);
  }

  lemma ExitStrJoinable(l: Life, s: Sid, value: int)
    requires StrOk(l, s) && St(l, s).own.Running? && St(l, s).state == Joinable
    ensures StrOk(DoExit(l, s, value), s)
  {
    RunningUnseen(l, s);
  }

  lemma ExitFrame(l: Life, s: Sid, value: int)
    requires TableOk(l) && StrOk(l, s) && St(l, s).own.Running?
    ensures Framed(l, DoExit(l, s, value), s, None, St(l, s).state != Detached)
  {
  }

  lemma ExitSmooth(l: Life, s: Sid, value: int)
    requires StrOk(l, s) && St(l, s).own.Running?
    ensures Smooth(St(l, s), St(DoExit(l, s, value), s), None, St(l, s).state != Detached)
  {
    RunningUnseen(l, s);
  }

  lemma ExitLocal(l: Life, s: Sid, value: int)
    requires StrOk(l, s) && St(l, s).own.Running?
    ensures var l' := DoExit(l, s, value);
      Kept(l, l', s, None, St(l, s).state != Detached)
  {
    RunningUnseen(l, s);
    if St(l, s).state == Detached {
      ExitStrDetached(l, s, value);
    } else {
      ExitStrJoinable(l, s, value);
    }
    ExitSmooth(l, s, value);
  }

  lemma ExitStep(l: Life, s: Sid, value: int)
    requires Sound(l) && St(l, s).own.Running?
    ensures Sound(DoExit(l, s, value))
  {
    assert StrOk(l, s);
    ExitLocal(l, s, value);
    ExitFrame(l, s, value);
    LoneStep(l, DoExit(l, s, value), s, None, St(l, s).state != Detached);
  }
}
