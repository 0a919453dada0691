/** Every primitive, any number of threads: the state of the whole library and its atomic steps. */
module System {
  import opened Base
  import opened Blocking
  import M = Mutex
  import C = Condition
  import MP = MutexProtocol
  import RP = RwLockProtocol
  import SP = SemaphoreProtocol
  import BP = BarrierProtocol

  datatype Setting = State(enabled: bool) | Type(async: bool)

  /** Where a thread is inside a call made of several locked sections.
      W*: a condition wait on `c` with mutex `m`.  C*: cancelling `p`.  S*: pthread_setcancelstate and -type. */
  datatype Pc =
    | Run
    | WEnter(c: nat, m: Mid, timed: bool)               // wants its own cancel_lock
    | WHook(c: nat, m: Mid, timed: bool)                // has it
    | WAbort(m: Mid)                                    // acts on a pending request; releases cancel_lock
    | WArmed(c: nat, m: Mid, oldAsync: bool)            // hooked and queued; releases cancel_lock
    | WRelease(c: nat, m: Mid, oldAsync: bool)          // queued; releases the mutex
    | WBlock(c: nat, m: Mid, oldAsync: bool)            // blocks
    | WWoken(c: nat, m: Mid, err: bool, oldAsync: bool) // off the queue; wants its own cancel_lock
    | WClear(c: nat, m: Mid, err: bool, oldAsync: bool) // has it
    | WDisarmed(m: Mid, err: bool, cancelled: bool)     // unhooked; releases cancel_lock
    | WRelock(m: Mid, err: bool, cancelled: bool)       // wants the mutex
    | WDone(m: Mid, err: bool, cancelled: bool)         // leaves the call
    | CEnter(p: Tid)                                    // wants p's cancel_lock
    | CGot(p: Tid)
    | CHook(p: Tid, hookCond: nat)                      // request recorded; runs the hook
    | CUnlock(p: Tid)
    | SEnter(setting: Setting)
    | SGot(setting: Setting)
    | SUnlock

  datatype State = State(
    net: Net,
    mutexes: map<Mid, MP.Rec>,
    rws: map<nat, RP.Rec>,
    sems: map<nat, SP.Rec>,
    bars: map<nat, BP.Rec>,
    cancels: map<Tid, C.Cancel<nat>>,
    pcs: map<Tid, Pc>)

  function Mx(s: State, m: Mid): MP.Rec {
    if m in s.mutexes then s.mutexes[m] else MP.Fresh(M.Normal)
  }

  function Rw(s: State, r: nat): RP.Rec {
    if r in s.rws then s.rws[r] else RP.FRESH
  }

  function Se(s: State, i: nat): SP.Rec {
    if i in s.sems then s.sems[i] else SP.Fresh(0)
  }

  function Ba(s: State, b: nat): BP.Rec {
    if b in s.bars then s.bars[b] else BP.Fresh(1)
  }

  function Cn(s: State, t: Tid): C.Cancel<nat> {
    if t in s.cancels then s.cancels[t] else C.FreshCancel()
  }

  function PcOf(s: State, t: Tid): Pc {
    if t in s.pcs then s.pcs[t] else Run
  }

  ghost predicate Init(s: State) {
    && s.net == Net(map[], map[])
    && (forall m :: m in s.mutexes ==> s.mutexes[m] == MP.Fresh(s.mutexes[m].v.kind) && (m.CancelLock? ==> s.mutexes[m].v.kind == M.Normal))
    && (forall r :: r in s.rws ==> s.rws[r] == RP.FRESH)
    && (forall i :: i in s.sems ==> s.sems[i] == SP.Fresh(s.sems[i].initial))
    && (forall b :: b in s.bars ==> s.bars[b] == BP.Fresh(s.bars[b].v.count) && s.bars[b].v.count > 0)
    && s.cancels == map[] && s.pcs == map[]
  }

  // ---------------------------------------------------------------- program order

  /** The mutex the thread must lock next. */
  function Wants(pc: Pc, t: Tid): Option<Mid> {
    match pc
    case WEnter(_, _, _) => Some(CancelLock(t))
    case WWoken(_, _, _, _) => Some(CancelLock(t))
    case WRelock(m, _, _) => Some(m)
    case CEnter(p) => Some(CancelLock(p))
    case SEnter(_) => Some(CancelLock(t))
    case _ => None
  }

  function AfterLock(pc: Pc): Pc {
    match pc
    case WEnter(c, m, timed) => WHook(c, m, timed)
    case WWoken(c, m, err, prior) => WClear(c, m, err, prior)
    case WRelock(m, err, cancelled) => WDone(m, err, cancelled)
    case CEnter(p) => CGot(p)
    case SEnter(x) => SGot(x)
    case _ => pc
  }

  /** The mutex the thread must unlock next. */
  function Releases(pc: Pc, t: Tid): Option<Mid> {
    match pc
    case WAbort(_) => Some(CancelLock(t))
    case WArmed(_, _, _) => Some(CancelLock(t))
    case WRelease(_, m, _) => Some(m)
    case WDisarmed(_, _, _) => Some(CancelLock(t))
    case CUnlock(p) => Some(CancelLock(p))
    case SUnlock => Some(CancelLock(t))
    case _ => None
  }

  function AfterUnlock(pc: Pc): Pc {
    match pc
    case WAbort(m) => WDone(m, false, true)
    case WArmed(c, m, prior) => WRelease(c, m, prior)
    case WRelease(c, m, prior) => WBlock(c, m, prior)
    case WDisarmed(m, err, cancelled) => WRelock(m, err, cancelled)
    case CUnlock(_) => Run
    case SUnlock => Run
    case _ => pc
  }

  /** Between queueing on the condition and being taken off it. */
  predicate OnCond(pc: Pc) {
    pc.WArmed? || pc.WRelease? || pc.WBlock?
  }

  function AfterWait(pc: Pc, err: bool): Pc {
    if OnCond(pc) then WWoken(pc.c, pc.m, err, pc.oldAsync) else pc
  }

  predicate Ready(s: State, t: Tid) {
    Th(s.net, t).wait.Out? && Th(s.net, t).sends == []
  }

  /** In user code, or at the point of a composite call that locks exactly this mutex. */
  predicate MayLock(s: State, t: Tid, m: Mid, timed: bool) {
    if PcOf(s, t).Run? then m.User? else Wants(PcOf(s, t), t) == Some(m) && !timed
  }

  predicate MayUnlock(s: State, t: Tid, m: Mid) {
    if PcOf(s, t).Run? then m.User? && Th(s.net, t).wait.Out? else Releases(PcOf(s, t), t) == Some(m)
  }

  /** The thread is inside the receive of a blocking call. */
  predicate Receiving(s: State, t: Tid) {
    && AtStage(s.net, t, Blocking) && Th(s.net, t).sends == []
    && (Th(s.net, t).wait.q.CondQ? ==> PcOf(s, t).WBlock?)
  }

  /** The spin lock of the primitive that owns `q` was leaked. */
  predicate Wedged(s: State, q: Qid) {
    match q
    case MutexQ(m) => Mx(s, m).v.lock
    case ReaderQ(r) => Rw(s, r).v.lock
    case WriterQ(r) => Rw(s, r).v.lock
    case SemQ(i) => Se(s, i).v.lock
    case CondQ(_) => false
    case BarrierQ(b) => Ba(s, b).v.lock
  }

  // ---------------------------------------------------------------- actions

  datatype Action =
    | Send | Receive | TimeOut | Recheck | Finish | GiveUp
    | Lock(m: Mid, timed: bool, valid: bool) | TryLock(m: Mid) | Unlock(m: Mid) | Transfer(m: Mid, to: Option<Tid>)
    | Read(r: nat, timed: bool, valid: bool) | Write(r: nat, timed: bool, valid: bool)
    | TryRead(r: nat) | TryWrite(r: nat) | RwUnlock(r: nat)
    | Down(i: nat, timed: bool, valid: bool) | TryDown(i: nat) | Post(i: nat)
    | BarrierWait(b: nat)
    | Signal(c: nat) | Broadcast(c: nat) | CondWait(c: nat, m: Mid, timed: bool, valid: bool)
    | CancelThread(p: Tid) | Set(setting: Setting) | Advance

  predicate InUser(s: State, t: Tid) {
    PcOf(s, t).Run? && Ready(s, t)
  }

  /** Off the queue with its message received; from a barrier, once its round is complete. */
  predicate CanFinish(s: State, t: Tid) {
    var w := Th(s.net, t).wait;
    if w.In? && w.q.BarrierQ? then
      AtStage(s.net, t, Taken) && t in Ba(s, w.q.b).ticket && Ba(s, w.q.b).ticket[t] < |Ba(s, w.q.b).past|
    else AtStage(s.net, t, Finishing)
  }

  predicate CanGiveUp(s: State, t: Tid) {
    AtStage(s.net, t, Draining) && Th(s.net, t).port > 0
  }

  /** At a section between two locks.  An asynchronous cancellation is not taken further. */
  predicate CanAdvance(s: State, t: Tid) {
    var pc := PcOf(s, t);
    Ready(s, t) &&
    (pc.WHook? || pc.WClear? || pc.CHook? || pc.SGot? || pc.WDone?
     || (pc.CGot? && C.RequestSection(Cn(s, pc.p)).1 != C.Kernel))
  }

  predicate Enabled(s: State, t: Tid, a: Action) {
    var w := Th(s.net, t).wait;
    match a
    case Send => Th(s.net, t).sends != []
    case Receive => Receiving(s, t) && Th(s.net, t).port > 0
    case TimeOut => Receiving(s, t) && w.timed
    case Recheck =>
      (AtStage(s.net, t, TimedOut) || AtStage(s.net, t, Taken)) && !w.q.BarrierQ? && !Wedged(s, w.q)
    case Finish => CanFinish(s, t)
    case GiveUp => CanGiveUp(s, t)
    case Lock(m, timed, _) => Ready(s, t) && MayLock(s, t, m, timed) && !Mx(s, m).v.lock
    case TryLock(m) => InUser(s, t) && m.User? && !Mx(s, m).v.lock
    case Unlock(m) =>
      && Th(s.net, t).sends == [] && MayUnlock(s, t, m) && !Mx(s, m).v.lock
      && (PcOf(s, t).Run? && Mx(s, m).v.kind == M.Normal ==> MP.IsHeldBy(Mx(s, m), t))
    case Transfer(m, _) => InUser(s, t) && m.User? && Mx(s, m).v.owner == Some(t)
    case Read(r, _, _) => InUser(s, t) && !Rw(s, r).v.lock
    case Write(r, _, _) => InUser(s, t) && !Rw(s, r).v.lock
    case TryRead(r) => InUser(s, t) && !Rw(s, r).v.lock
    case TryWrite(r) => InUser(s, t) && !Rw(s, r).v.lock
    case RwUnlock(r) => InUser(s, t) && !Rw(s, r).v.lock && RP.Holds(Rw(s, r), t)
    case Down(i, _, _) => InUser(s, t) && !Se(s, i).v.lock
    case TryDown(i) => InUser(s, t) && !Se(s, i).v.lock
    case Post(i) => InUser(s, t) && !Se(s, i).v.lock
    case BarrierWait(b) => InUser(s, t) && !Ba(s, b).v.lock && Ba(s, b).v.pending > 0
    case Signal(_) => InUser(s, t)
    case Broadcast(_) => InUser(s, t)
    case CondWait(_, m, _, _) => InUser(s, t) && m.User? && MP.IsHeldBy(Mx(s, m), t)
    case CancelThread(_) => InUser(s, t)
    case Set(_) => InUser(s, t)
    case Advance => CanAdvance(s, t)
  }

  function DoFinish(s: State, t: Tid): State
    requires CanFinish(s, t)
  {
    var q := Th(s.net, t).wait.q;
    s.(net := Blocking.Finish(s.net, t),
       mutexes := if q.MutexQ? then s.mutexes[q.m := MP.Epilogue(s.net, Mx(s, q.m), t).1] else s.mutexes,
       rws := if q.ReaderQ? then s.rws[q.r := RP.ReadEpilogue(s.net, Rw(s, q.r), t).1]
              else if q.WriterQ? then s.rws[q.w := RP.WriteEpilogue(s.net, Rw(s, q.w), t).1] else s.rws,
       sems := if q.SemQ? then s.sems[q.s := SP.Epilogue(s.net, Se(s, q.s), t).1] else s.sems,
       bars := if q.BarrierQ? then s.bars[q.b := BP.Leave(s.net, Ba(s, q.b), t).1] else s.bars,
       pcs := if q.MutexQ? then s.pcs[t := AfterLock(PcOf(s, t))]
              else if q.CondQ? then s.pcs[t := AfterWait(PcOf(s, t), false)] else s.pcs)
  }

  function DoGiveUp(s: State, t: Tid): State
    requires CanGiveUp(s, t)
  {
    var q := Th(s.net, t).wait.q;
    s.(net := Drain(s.net, t),
       mutexes := if q.MutexQ? then s.mutexes[q.m := MP.GiveUp(s.net, Mx(s, q.m), t).1] else s.mutexes,
       rws := if q.ReaderQ? then s.rws[q.r := RP.ReadGiveUp(s.net, Rw(s, q.r), t).1]
              else if q.WriterQ? then s.rws[q.w := RP.WriteGiveUp(s.net, Rw(s, q.w), t).1] else s.rws,
       sems := if q.SemQ? then s.sems[q.s := SP.GiveUp(s.net, Se(s, q.s), t).1] else s.sems,
       pcs := if q.CondQ? then s.pcs[t := AfterWait(PcOf(s, t), true)] else s.pcs)
  }

  function DoLock(s: State, t: Tid, m: Mid, timed: bool, valid: bool): State {
    var (g, x, r) := MP.Lock(s.net, m, Mx(s, m), t, timed, valid);
    s.(net := g, mutexes := s.mutexes[m := x],
       pcs := s.pcs[t := if r == M.Acquired || r == M.Deadlock then AfterLock(PcOf(s, t)) else PcOf(s, t)])
  }

  function DoUnlock(s: State, t: Tid, m: Mid): State {
    var (g, x, r) := MP.Unlock(s.net, m, Mx(s, m), t);
    s.(net := g, mutexes := s.mutexes[m := x], pcs := s.pcs[t := AfterUnlock(PcOf(s, t))])
  }

  function DoSet(c: C.Cancel<nat>, x: Setting): C.Cancel<nat> {
    match x
    case State(b) => c.(enabled := b)
    case Type(b) => c.(async := b)
  }

  /** cancel_hook: if `p` is on a queue, any queue, it is taken off and woken. */
  function DoHook(s: State, t: Tid, p: Tid): State {
    var q := if Th(s.net, p).wait.In? then Th(s.net, p).wait.q else CondQ(0);
    s.(net := if Queued(s.net, p) then TakeOff(s.net, t, p, q) else s.net,
       mutexes := if Queued(s.net, p) && q.MutexQ? then s.mutexes[q.m := MP.Snatch(s.net, q.m, Mx(s, q.m), t, p).1] else s.mutexes,
       pcs := s.pcs[t := CUnlock(p)])
  }

  function DoAdvance(s: State, t: Tid): (s': State)
    requires CanAdvance(s, t)
    ensures s'.rws == s.rws && s'.sems == s.sems && s'.bars == s.bars
    ensures !PcOf(s, t).CHook? ==> s'.mutexes == s.mutexes
  {
    match PcOf(s, t)
    case WHook(c, m, timed) =>
      var (cn, q, cancelled, prior) := C.ArmSection(Cn(s, t), Qu(s.net, CondQ(c)), t, c);
      if cancelled then s.(pcs := s.pcs[t := WAbort(m)])
      else s.(net := Enqueue(s.net, t, CondQ(c), timed), cancels := s.cancels[t := cn], pcs := s.pcs[t := WArmed(c, m, prior)])
    case WClear(c, m, err, prior) =>
      var (cn, cancelled) := C.DisarmSection(Cn(s, t), prior);
      s.(cancels := s.cancels[t := cn], pcs := s.pcs[t := WDisarmed(m, err, cancelled)])
    case CGot(p) =>
      var (cn, r) := C.RequestSection(Cn(s, p));
      s.(cancels := s.cancels[p := cn], pcs := s.pcs[t := if r.Hook? then CHook(p, r.cond) else CUnlock(p)])
    case CHook(p, _) => DoHook(s, t, p)
    case SGot(x) => s.(cancels := s.cancels[t := DoSet(Cn(s, t), x)], pcs := s.pcs[t := SUnlock])
    case _ => s.(pcs := s.pcs[t := Run])
  }

  function Apply(s: State, t: Tid, a: Action): State
    requires Enabled(s, t, a)
  {
    match a
    case Send => s.(net := Blocking.Send(s.net, t))
    case Receive => s.(net := Blocking.Receive(s.net, t))
    case TimeOut => s.(net := Blocking.TimeOut(s.net, t))
    case Recheck =>
      s.(net := Blocking.Recheck(s.net, t),
         pcs := s.pcs[t := if Queued(s.net, t) then AfterWait(PcOf(s, t), true) else PcOf(s, t)])
    case Finish => DoFinish(s, t)
    case GiveUp => DoGiveUp(s, t)
    case Lock(m, timed, valid) => DoLock(s, t, m, timed, valid)
    case TryLock(m) => s.(mutexes := s.mutexes[m := MP.TryLock(Mx(s, m), t).0])
    case Unlock(m) => DoUnlock(s, t, m)
    case Transfer(m, to) => s.(mutexes := s.mutexes[m := MP.Transfer(Mx(s, m), t, to).0])
    case Read(r, timed, valid) =>
      var (g, x, _) := RP.Read(s.net, r, Rw(s, r), t, timed, valid); s.(net := g, rws := s.rws[r := x])
    case Write(r, timed, valid) =>
      var (g, x, _) := RP.Write(s.net, r, Rw(s, r), t, timed, valid); s.(net := g, rws := s.rws[r := x])
    case TryRead(r) => s.(rws := s.rws[r := RP.TryRead(Rw(s, r), t).0])
    case TryWrite(r) => s.(rws := s.rws[r := RP.TryWrite(Rw(s, r), t).0])
    case RwUnlock(r) => var (g, x, _) := RP.Unlock(s.net, r, Rw(s, r), t); s.(net := g, rws := s.rws[r := x])
    case Down(i, timed, valid) =>
      var (g, x, _) := SP.Down(s.net, i, Se(s, i), t, timed, valid); s.(net := g, sems := s.sems[i := x])
    case TryDown(i) => s.(sems := s.sems[i := SP.TryDown(Se(s, i)).0])
    case Post(i) => var (g, x, _) := SP.Post(s.net, i, Se(s, i), t); s.(net := g, sems := s.sems[i := x])
    case BarrierWait(b) => var (g, x, _) := BP.Enter(s.net, b, Ba(s, b), t); s.(net := g, bars := s.bars[b := x])
    case Signal(c) =>
      var (_, w) := C.SignalSection(Qu(s.net, CondQ(c)));
      if w.Some? then s.(net := TakeOff(s.net, t, w.value, CondQ(c))) else s
    case Broadcast(c) => s.(net := TakeAll(s.net, t, CondQ(c)))
    case CondWait(c, m, timed, valid) =>
      if timed && !valid then s.(pcs := s.pcs[t := WDone(m, true, false)]) else s.(pcs := s.pcs[t := WEnter(c, m, timed)])
    case CancelThread(p) => s.(pcs := s.pcs[t := CEnter(p)])
    case Set(x) => s.(pcs := s.pcs[t := SEnter(x)])
    case Advance => DoAdvance(s, t)
  }

  // ---------------------------------------------------------------- invariant

  /** The primitive that owns queue `q` keeps its own invariant. */
  ghost predicate PrimOk(s: State, q: Qid) {
    match q
    case MutexQ(m) => MP.Inv(s.net, m, Mx(s, m))
    case ReaderQ(r) => RP.Inv(s.net, r, Rw(s, r))
    case WriterQ(r) => RP.Inv(s.net, r, Rw(s, r))
    case SemQ(i) => SP.Inv(s.net, i, Se(s, i))
    case BarrierQ(b) => BP.Inv(s.net, b, Ba(s, b))
    case CondQ(_) => true
  }

  function HookOf(pc: Pc): Option<nat> {
    if OnCond(pc) || pc.WWoken? || pc.WClear? then Some(pc.c) else None
  }

  /** Whose cancel_lock a thread at `pc` holds. */
  function CancelHeld(pc: Pc, t: Tid): Option<Tid> {
    match pc
    case WHook(_, _, _) => Some(t)
    case WAbort(_) => Some(t)
    case WArmed(_, _, _) => Some(t)
    case WClear(_, _, _, _) => Some(t)
    case WDisarmed(_, _, _) => Some(t)
    case CGot(p) => Some(p)
    case CHook(p, _) => Some(p)
    case CUnlock(p) => Some(p)
    case SGot(_) => Some(t)
    case SUnlock => Some(t)
    case _ => None
  }

  predicate NamesMutex(pc: Pc) {
    pc.WEnter? || pc.WHook? || pc.WAbort? || OnCond(pc) || pc.WWoken? || pc.WClear? || pc.WDisarmed? || pc.WRelock? || pc.WDone?
  }

  predicate MutexHeld(pc: Pc) {
    pc.WEnter? || pc.WHook? || pc.WAbort? || pc.WArmed? || pc.WRelease?
  }

  /** What a thread waits for agrees with where it is in its program. */
  ghost predicate WaitOk(s: State, t: Tid) {
    var pc, w := PcOf(s, t), Th(s.net, t).wait;
    && (OnCond(pc) ==> w.In? && w.q == CondQ(pc.c) && (!pc.WBlock? ==> w.stage == Blocking))
    && (w.In? && w.q.CondQ? ==> OnCond(pc))
    && (w.In? && w.q.BarrierQ? ==> !w.timed && w.stage != Finishing)
    && (w.In? && pc.Run? ==> w.q.MutexQ? ==> w.q.m.User?)
    && (w.In? && !pc.Run? && !OnCond(pc) ==> w.q.MutexQ? && Wants(pc, t) == Some(w.q.m) && !w.timed)
  }

  /** A hook has let a second thread into the sections under this cancel_lock. */
  predicate Breached(s: State, p: Tid) {
    Mx(s, CancelLock(p)).breached
  }

  ghost predicate HooksOk(s: State, t: Tid) {
    var pc := PcOf(s, t);
    && Cn(s, t).hook == HookOf(pc)
    && (HookOf(pc).Some? ==> !Cn(s, t).async)
    && (pc.CHook? ==> Cn(s, pc.p).hook == Some(pc.hookCond) && C.Acts(Cn(s, pc.p)) && !Breached(s, pc.p))
  }

  ghost predicate LocksOk(s: State, t: Tid) {
    var pc := PcOf(s, t);
    && (CancelHeld(pc, t).Some? && !Breached(s, CancelHeld(pc, t).value) ==>
          Mx(s, CancelLock(CancelHeld(pc, t).value)).holder == MP.Held(t, 1))
    && (NamesMutex(pc) ==> pc.m.User? && !Mx(s, pc.m).breached)
    && (MutexHeld(pc) ==> MP.IsHeldBy(Mx(s, pc.m), t))
    && (pc.WDone? ==> MP.Owns(Mx(s, pc.m), t))
  }

  /** A request that an enabled, queued waiter should act on is in the hands of its canceller. */
  ghost predicate RequestOk(s: State, t: Tid) {
    C.Acts(Cn(s, t)) && OnCond(PcOf(s, t)) && t in Qu(s.net, CondQ(PcOf(s, t).c)) ==>
      var h := Mx(s, CancelLock(t)).holder;
      h.Held? && PcOf(s, h.t) == CHook(t, PcOf(s, t).c)
  }

  ghost predicate CancelLockOk(s: State, p: Tid) {
    var x := Mx(s, CancelLock(p));
    && x.v.kind == M.Normal && !x.v.lock && !x.tainted
    && (!x.breached && x.holder.Held? ==> CancelHeld(PcOf(s, x.holder.t), x.holder.t) == Some(p))
    && BreachOk(s, p)
  }

  /** A breach comes after a request, so a later wait is queued with cancellation disabled or not at all. */
  ghost predicate BreachOk(s: State, p: Tid) {
    Breached(s, p) ==> Cn(s, p).pending && (OnCond(PcOf(s, p)) ==> !Cn(s, p).enabled)
  }

  ghost predicate ThreadOk(s: State, t: Tid) {
    WaitOk(s, t) && HooksOk(s, t) && LocksOk(s, t) && RequestOk(s, t) && CancelLockOk(s, t)
  }

  ghost predicate Inv(s: State) {
    && NetInv(s.net)
    && (forall q :: PrimOk(s, q))
    && (forall t :: ThreadOk(s, t))
  }
}
