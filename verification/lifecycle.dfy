/** Creating, exiting, joining, detaching and recycling threads: any number of callers, each locked section and
    each unlocked store one atomic step. */
module Lifecycle {
  import opened Base
  import opened Links
  import T = ThreadTable

  /** Structures and callers.  A caller is any thread inside pthread_create, pthread_join or pthread_detach. */
  type Sid = nat
  type Aid = nat

  /** What a structure is for at the moment.
      Raw: allocated, no ID yet.  Creating: has an ID, not published.  InTable: published.
      Tearing: withdrawn, not reusable yet; `listed` once it is on the free list.
      Reusable: on the free list for the taking.  Lost: taken from it by a creation that failed at once. */
  datatype Custody = Nowhere | Raw | Creating | InTable | Tearing(listed: bool) | Reusable | Lost

  /** The steps of __pthread_dealloc. */
  datatype Stage = Withdraw | Announce | Enlist | Mark

  /** How far the thread that runs on the structure is itself. */
  datatype Own = NotStarted | Running | Leaving(stage: Stage) | Stopped

  /** The one call that may join or detach this use of the structure.  Spent: detached, or none is allowed. */
  datatype Claim = Open | By(a: Aid) | Spent

  /** `enabled` and `pending` are the cancellation fields.  The others from `custody` on are history: no step's
      outcome depends on them.  `use` counts how often the structure was handed out again; `announced` says that
      the teardown of this use has sent its broadcast; `fair` that no call ever named the structure against the
      rule (`MayName`); `asked` that the thread is to be detached, since its creation or a call of pthread_detach. */
  datatype Str = Str(id: nat, state: ThreadState, status: int, stack: bool, own: Own, enabled: bool, pending: bool,
                     custody: Custody, use: nat, maker: Option<Aid>, announced: bool, reaped: bool,
                     claim: Claim, fair: bool, asked: bool)

  const ABSENT := Str(0, Joinable, 0, false, NotStarted, true, false, Nowhere, 0, None, false, false, Open, true, false)

  /** `use` is the use of the structure a caller named; in a wait `seen` is the one it last looked at, and `late`
      says that the teardown of that one had sent its broadcast by then. */
  datatype Purpose = Failed | Joined(use: nat, value: int) | Detaching(use: nat)

  datatype Pc =
    | Idle
    | Scan                           // __pthread_alloc: wants the free list
    | Prepare(s: Sid)                   // took a structure off it; halts its old thread and initializes it
    | Malloc
    | Slot(s: Sid)                   // wants a slot
    | Grow(s: Sid, saved: nat)       // found the table full, dropped the lock to allocate a bigger one
    | Setup(s: Sid)                  // __pthread_create_internal: has a structure with an ID
    | Equip(s: Sid)
    | Publish(s: Sid)
    | Start(s: Sid)
    | Retract(s: Sid)                // could not start the thread
    | JoinLock(s: Sid, use: nat)     // wants state_lock
    | JoinWait(s: Sid, use: nat, seen: nat, late: bool)  // waits on state_cond
    | JoinRead(s: Sid, use: nat)     // saw EXITED, dropped state_lock
    | JoinReap(s: Sid, use: nat, value: int)
    | DetachLock(s: Sid, use: nat)
    | DetachReap(s: Sid, use: nat)
    | Tear(s: Sid, stage: Stage, why: Purpose)

  /** The last four fields are history: which structure got which ID, what each use passed to pthread_exit once
      cancellation was taken into account, which caller was the first to see that it had exited, and whether a
      second one saw it too. */
  datatype Life = Life(slots: seq<Option<Sid>>, num: nat, free: seq<Sid>, strs: map<Sid, Str>, pcs: map<Aid, Pc>,
                       owners: seq<Sid>, exits: map<(Sid, nat), int>, reapers: map<(Sid, nat), Aid>, doubled: bool)

  function St(l: Life, s: Sid): Str {
    if s in l.strs then l.strs[s] else ABSENT
  }

  function PcOf(l: Life, a: Aid): Pc {
    if a in l.pcs then l.pcs[a] else Idle
  }

  /** The record of exits and of who saw them is left alone... */
  predicate SameLedger(l: Life, l': Life) {
    l'.exits == l.exits && l'.reapers == l.reapers && l'.doubled == l.doubled
  }

  /** ...and so is the table. */
  predicate SameTable(l: Life, l': Life) {
    l'.slots == l.slots && l'.num == l.num && l'.owners == l.owners
  }

  function SetSt(l: Life, s: Sid, x: Str): (l': Life)
    ensures SameLedger(l, l') && SameTable(l, l') && l'.free == l.free
    ensures forall y {:trigger St(l', y)} :: St(l', y) == if y == s then x else St(l, y)
    ensures forall b {:trigger PcOf(l', b)} :: PcOf(l', b) == PcOf(l, b)
  {
    l.(strs := l.strs[s := x])
  }

  function SetPc(l: Life, a: Aid, pc: Pc): (l': Life)
    ensures SameLedger(l, l') && SameTable(l, l') && l'.free == l.free
    ensures forall y {:trigger St(l', y)} :: St(l', y) == St(l, y)
    ensures forall b {:trigger PcOf(l', b)} :: PcOf(l', b) == if b == a then pc else PcOf(l, b)
  {
    l.(pcs := l.pcs[a := pc])
  }

  function Forget(l: Life, s: Sid): (l': Life)
    ensures SameLedger(l, l') && SameTable(l, l') && l'.free == l.free
    ensures forall y {:trigger St(l', y)} :: St(l', y) == if y == s then ABSENT else St(l, y)
    ensures forall b {:trigger PcOf(l', b)} :: PcOf(l', b) == PcOf(l, b)
  {
    l.(strs := l.strs - {s})
  }

  /** A broadcast on the state_cond of `s`. */
  function Wake(l: Life, s: Sid): (l': Life)
    ensures SameLedger(l, l') && SameTable(l, l') && l'.free == l.free
    ensures forall y {:trigger St(l', y)} :: St(l', y) == St(l, y)
    ensures forall b {:trigger PcOf(l', b)} ::
      PcOf(l', b) == if PcOf(l, b).JoinWait? && PcOf(l, b).s == s then JoinLock(s, PcOf(l, b).use) else PcOf(l, b)
  {
    l.(pcs := map a | a in l.pcs ::
                if l.pcs[a].JoinWait? && l.pcs[a].s == s then JoinLock(s, l.pcs[a].use) else l.pcs[a])
  }

  ghost predicate Init(l: Life) {
    l == Life([], 0, [], map[], map[], [], map[], map[], false)
  }

  // ---------------------------------------------------------------- steps

  /** `Malloc` takes whatever state malloc left in the memory, `Enlarge` whatever it left in the table. */
  datatype Action =
    | Create(a: Aid) | Recycle(a: Aid) | Initialize(a: Aid, ok: bool)
    | NewStr(a: Aid, got: Option<Sid>, junk: ThreadState) | TakeSlot(a: Aid)
    | Enlarge(a: Aid, spare: Option<seq<Option<Sid>>>)
    | SetUp(a: Aid, detached: bool) | Provide(a: Aid, stackOk: bool, restOk: bool) | Post(a: Aid)
    | Launch(a: Aid, ok: bool) | Unpost(a: Aid)
    | Join(a: Aid, id: nat) | JoinCheck(a: Aid) | Abandon(a: Aid) | ReadStatus(a: Aid) | Reap(a: Aid)
    | Detach(a: Aid, id: nat) | DetachCheck(a: Aid) | TearDown(a: Aid)
    | SetCancelState(s: Sid, on: bool) | Cancel(s: Sid)
    | Exit(s: Sid, value: int) | Leave(s: Sid)

  /** The rule for callers: name a thread only if it has been started and no other call may join or detach it. */
  predicate MayName(x: Str) {
    !x.own.NotStarted? && x.claim == Open
  }

  /** Has been in the table, so that a caller of pthread_cancel may have looked it up, however long ago. */
  predicate Known(x: Str) {
    x.id > 0 && (x.use > 0 || !x.custody.Creating?)
  }

  predicate Enabled(l: Life, e: Action) {
    match e
    case Create(a) => PcOf(l, a).Idle?
    case Recycle(a) => PcOf(l, a).Scan?
    case Initialize(a, _) => PcOf(l, a).Prepare?
    case NewStr(a, got, _) => PcOf(l, a).Malloc? && (got.Some? ==> got.value !in l.strs)
    case TakeSlot(a) => PcOf(l, a).Slot?
    case Enlarge(a, spare) =>
      && PcOf(l, a).Grow? && l.num <= |l.slots|
      && (spare.Some? ==> |spare.value| == T.NewSize(PcOf(l, a).saved))
    case SetUp(a, _) => PcOf(l, a).Setup?
    case Provide(a, _, _) => PcOf(l, a).Equip?
    case Post(a) => PcOf(l, a).Publish?
    case Launch(a, _) => PcOf(l, a).Start?
    case Unpost(a) => PcOf(l, a).Retract?
    case Join(a, id) => PcOf(l, a).Idle? && 0 < id <= l.num <= |l.slots|
    case JoinCheck(a) => PcOf(l, a).JoinLock?
    case Abandon(a) => PcOf(l, a).JoinWait? || PcOf(l, a).JoinLock?
    case ReadStatus(a) => PcOf(l, a).JoinRead?
    case Reap(a) => PcOf(l, a).JoinReap? || PcOf(l, a).DetachReap?
    case Detach(a, id) => PcOf(l, a).Idle? && 0 < id <= l.num <= |l.slots|
    case DetachCheck(a) => PcOf(l, a).DetachLock?
    case TearDown(a) => PcOf(l, a).Tear?
    case SetCancelState(s, _) => St(l, s).own.Running?
    case Cancel(s) => Known(St(l, s))
    case Exit(s, _) => St(l, s).own.Running?
    case Leave(s) => St(l, s).own.Leaving?
  }

  /** Slot `id - 1` of the table is set under the table lock. */
  function SetId(l: Life, id: nat, p: Option<Sid>): (l': Life)
    ensures SameLedger(l, l') && l'.num == l.num && l'.owners == l.owners && |l'.slots| == |l.slots|
  {
    if 0 < id <= |l.slots| then l.(slots := l.slots[id - 1 := p]) else l
  }

  function GiveId(l: Life, a: Aid, s: Sid, r: (seq<Option<Sid>>, nat, Option<nat>)): (l': Life)
    requires r.2.Some?
    ensures SameLedger(l, l')
  {
    var l1 := SetPc(SetSt(l, s, St(l, s).(id := r.2.value, custody := Creating)), a, Setup(s));
    l1.(slots := r.0, num := r.1, owners := l.owners + [s])
  }

  function DoRecycle(l: Life, a: Aid): (l': Life)
    ensures SameLedger(l, l') && SameTable(l, l')
  {
    match T.FirstDead(l.free, set s | s in l.free && St(l, s).state == Terminated)
    case None => SetPc(l, a, Malloc)
    case Some(s) =>
      var x := St(l, s).(custody := Creating, use := St(l, s).use + 1, maker := Some(a), announced := false,
                             reaped := false, claim := Open);
      SetPc(SetSt(l, s, x), a, Prepare(s)).(free := Without(l.free, s))
  }

  function DoInitialize(l: Life, a: Aid, s: Sid, ok: bool): (l': Life)
    ensures SameLedger(l, l') && SameTable(l, l')
  {
    var x := St(l, s).(own := NotStarted);
    if ok then SetPc(SetSt(l, s, x.(enabled := true, pending := false)), a, Setup(s))
    else SetPc(SetSt(l, s, x.(custody := Lost, maker := None)), a, Idle)
  }

  function DoTakeSlot(l: Life, a: Aid, s: Sid): (l': Life)
    ensures SameLedger(l, l')
  {
    var r := T.SlotSection(l.slots, l.num, None);
    if r.2.Some? then GiveId(l, a, s, r) else SetPc(l, a, Grow(s, |l.slots|))
  }

  function DoEnlarge(l: Life, a: Aid, s: Sid, saved: nat, spare: Option<seq<Option<Sid>>>): (l': Life)
    requires l.num <= |l.slots| && (spare.Some? ==> |spare.value| == T.NewSize(saved))
    ensures SameLedger(l, l')
  {
    if spare.None? then SetPc(Forget(l, s), a, Idle)
    else
      var r := T.GrowSection(l.slots, l.num, None, saved, spare.value);
      if r.2.Some? then GiveId(l, a, s, r) else SetPc(l, a, Slot(s))
  }

  function DoProvide(l: Life, a: Aid, s: Sid, stackOk: bool, restOk: bool): (l': Life)
    ensures SameLedger(l, l') && SameTable(l, l')
  {
    var x := St(l, s);
    if !x.stack && !stackOk then SetPc(l, a, Tear(s, Withdraw, Failed))
    else if !restOk then SetPc(SetSt(l, s, x.(stack := false)), a, Tear(s, Withdraw, Failed))
    else SetPc(SetSt(l, s, x.(stack := true)), a, Publish(s))
  }

  function DoLaunch(l: Life, a: Aid, s: Sid, ok: bool): (l': Life)
    ensures SameLedger(l, l') && SameTable(l, l')
  {
    if ok then SetPc(SetSt(l, s, St(l, s).(own := Running, maker := None)), a, Idle) else SetPc(l, a, Retract(s))
  }

  function DoUnpost(l: Life, a: Aid, s: Sid): (l': Life)
    ensures SameLedger(l, l') && l'.num == l.num && l'.owners == l.owners && |l'.slots| == |l.slots|
  {
    var x := St(l, s).(stack := false, custody := Tearing(false));
    SetId(SetPc(SetSt(l, s, x), a, Tear(s, Withdraw, Failed)), x.id, None)
  }

  /** The lookup that starts a join or a detach. */
  function DoName(l: Life, a: Aid, id: nat, join: bool): (l': Life)
    requires 0 < id <= |l.slots|
    ensures SameLedger(l, l') && SameTable(l, l')
  {
    match l.slots[id - 1]
    case None => l
    case Some(s) =>
      var x := St(l, s);
      var y := if MayName(x) then x.(claim := By(a)) else x.(fair := false);
      SetPc(SetSt(l, s, y), a, if join then JoinLock(s, x.use) else DetachLock(s, x.use))
  }

  /** A caller sees that the thread has exited and drops the lock: it is going to take the structure down. */
  function SeeExit(l: Life, a: Aid, s: Sid, pc: Pc): (l': Life)
    ensures l'.exits == l.exits && SameTable(l, l')
  {
    var use := St(l, s).use;
    SetPc(l, a, pc).(
      reapers := if (s, use) in l.reapers then l.reapers else l.reapers[(s, use) := a],
      doubled := l.doubled || (s, use) in l.reapers)
  }

  function DoJoinCheck(l: Life, a: Aid, s: Sid, use: nat): (l': Life)
    ensures l'.exits == l.exits && SameTable(l, l')
  {
    match T.JoinSection(St(l, s).state)
    case Wait => SetPc(l, a, JoinWait(s, use, St(l, s).use, St(l, s).announced))
    case Reap => SeeExit(l, a, s, JoinRead(s, use))
    case _ => SetPc(SetSt(l, s, St(l, s).(claim := Spent)), a, Idle)
  }

  function DoDetachCheck(l: Life, a: Aid, s: Sid, use: nat): (l': Life)
    ensures l'.exits == l.exits && SameTable(l, l')
  {
    match T.DetachSection(St(l, s).state).1
    case Reap => SeeExit(l, a, s, DetachReap(s, use))
    case Done =>
      var x := St(l, s).(state := T.DetachSection(St(l, s).state).0, claim := Spent, asked := true);
      Wake(SetPc(SetSt(l, s, x), a, Idle), s)
    case _ => SetPc(SetSt(l, s, St(l, s).(claim := Spent)), a, Idle)
  }

  function DoReap(l: Life, a: Aid, s: Sid, why: Purpose): (l': Life)
    ensures SameLedger(l, l') && SameTable(l, l')
  {
    SetPc(SetSt(l, s, St(l, s).(stack := false, reaped := true)), a, Tear(s, Withdraw, why))
  }

  /** One step of __pthread_dealloc on `s`, whoever takes it. */
  function TearStep(l: Life, s: Sid, stage: Stage): (l': Life)
    ensures forall y {:trigger St(l', y)} :: y != s ==> St(l', y) == St(l, y)
    ensures SameLedger(l, l') && l'.num == l.num && l'.owners == l.owners && |l'.slots| == |l.slots|
  {
    var x := St(l, s);
    match stage
    case Withdraw => SetId(SetSt(l, s, x.(custody := Tearing(false))), x.id, None)
    case Announce => if x.state != Exited then Wake(SetSt(l, s, x.(announced := true)), s) else l
    case Enlist => SetSt(l, s, x.(custody := Tearing(true))).(free := [s] + l.free)
    case Mark => SetSt(l, s, x.(state := Terminated, custody := Reusable, maker := None, claim := Spent))
  }

  function NextStage(stage: Stage): Stage {
    match stage
    case Withdraw => Announce
    case Announce => Enlist
    case _ => Mark
  }

  function DoTearDown(l: Life, a: Aid, pc: Pc): (l': Life)
    requires pc.Tear?
    ensures SameLedger(l, l') && l'.num == l.num && l'.owners == l.owners && |l'.slots| == |l.slots|
  {
    SetPc(TearStep(l, pc.s, pc.stage), a,
      if pc.stage == Mark then Idle else Tear(pc.s, NextStage(pc.stage), pc.why))
  }

  function DoLeave(l: Life, s: Sid, stage: Stage): (l': Life)
    ensures SameLedger(l, l') && l'.num == l.num && l'.owners == l.owners && |l'.slots| == |l.slots|
  {
    var l1 := TearStep(l, s, stage);
    SetSt(l1, s, St(l1, s).(own := if stage == Mark then Stopped else Leaving(NextStage(stage))))
  }

  /** What a thread that exits with `value` leaves for whoever joins it. */
  function Leaves(x: Str, value: int): int {
    if x.enabled && x.pending then T.PTHREAD_CANCELED else value
  }

  function DoExit(l: Life, s: Sid, value: int): (l': Life)
    ensures l'.reapers == l.reapers && l'.doubled == l.doubled && SameTable(l, l')
  {
    var x := St(l, s);
    var (state, status, leaves) := T.ExitSection(x.state, x.status, value, x.enabled && x.pending);
    var y := x.(state := state, status := status, own := if leaves then Leaving(Withdraw) else Stopped);
    var l1 := SetSt(l, s, y).(exits := l.exits[(s, x.use) := Leaves(x, value)]);
    if leaves then l1 else Wake(l1, s)
  }

  function Apply(l: Life, e: Action): Life
    requires Enabled(l, e)
  {
    match e
    case Create(a) => SetPc(l, a, Scan)
    case Recycle(a) => DoRecycle(l, a)
    case Initialize(a, ok) => DoInitialize(l, a, PcOf(l, a).s, ok)
    case NewStr(a, got, junk) =>
      if got.None? then SetPc(l, a, Idle)
      else SetPc(SetSt(l, got.value, ABSENT.(state := junk, custody := Raw, maker := Some(a))), a, Slot(got.value))
    case TakeSlot(a) => DoTakeSlot(l, a, PcOf(l, a).s)
    case Enlarge(a, spare) => DoEnlarge(l, a, PcOf(l, a).s, PcOf(l, a).saved, spare)
    case SetUp(a, detached) =>
      var s := PcOf(l, a).s;
      var x := St(l, s).(state := if detached then Detached else Joinable,
                             claim := if detached then Spent else Open, asked := detached);
      SetPc(SetSt(l, s, x), a, Equip(s))
    case Provide(a, stackOk, restOk) => DoProvide(l, a, PcOf(l, a).s, stackOk, restOk)
    case Post(a) =>
      var s := PcOf(l, a).s;
      SetId(SetPc(SetSt(l, s, St(l, s).(custody := InTable)), a, Start(s)), St(l, s).id, Some(s))
    case Launch(a, ok) => DoLaunch(l, a, PcOf(l, a).s, ok)
    case Unpost(a) => DoUnpost(l, a, PcOf(l, a).s)
    case Join(a, id) => DoName(l, a, id, true)
    case JoinCheck(a) => DoJoinCheck(l, a, PcOf(l, a).s, PcOf(l, a).use)
    case Abandon(a) => SetPc(SetSt(l, PcOf(l, a).s, St(l, PcOf(l, a).s).(claim := Open)), a, Idle)
    case ReadStatus(a) => var pc := PcOf(l, a); SetPc(l, a, JoinReap(pc.s, pc.use, St(l, pc.s).status))
    case Reap(a) =>
      var pc := PcOf(l, a);
      DoReap(l, a, pc.s, if pc.JoinReap? then Joined(pc.use, pc.value) else Detaching(pc.use))
    case Detach(a, id) => DoName(l, a, id, false)
    case DetachCheck(a) => DoDetachCheck(l, a, PcOf(l, a).s, PcOf(l, a).use)
    case TearDown(a) => DoTearDown(l, a, PcOf(l, a))
    case SetCancelState(s, on) => SetSt(l, s, St(l, s).(enabled := on))
    case Cancel(s) => SetSt(l, s, St(l, s).(pending := true))
    case Exit(s, value) => DoExit(l, s, value)
    case Leave(s) => DoLeave(l, s, St(l, s).own.stage)
  }

  // ---------------------------------------------------------------- invariant

  /** The structure a caller works on, if any: `Makes` while it creates, `Looks` while it has only looked the
      structure up, `Reaps` from the moment it has seen that the thread exited. */
  function Makes(pc: Pc): Option<Sid> {
    match pc
    case Prepare(s) => Some(s)
    case Slot(s) => Some(s)
    case Grow(s, _) => Some(s)
    case Setup(s) => Some(s)
    case Equip(s) => Some(s)
    case Publish(s) => Some(s)
    case Start(s) => Some(s)
    case Retract(s) => Some(s)
    case Tear(s, _, Failed) => Some(s)
    case _ => None
  }

  function Looks(pc: Pc): Option<Sid> {
    match pc
    case JoinLock(s, _) => Some(s)
    case JoinWait(s, _, _, _) => Some(s)
    case DetachLock(s, _) => Some(s)
    case _ => None
  }

  function Reaps(pc: Pc): Option<Sid> {
    match pc
    case JoinRead(s, _) => Some(s)
    case JoinReap(s, _, _) => Some(s)
    case DetachReap(s, _) => Some(s)
    case Tear(s, _, Joined(_, _)) => Some(s)
    case Tear(s, _, Detaching(_)) => Some(s)
    case _ => None
  }

  /** Works on `s` for good, not only looking. */
  function Works(pc: Pc): Option<Sid> {
    if Makes(pc).Some? then Makes(pc) else Reaps(pc)
  }

  function Refers(pc: Pc): Option<Sid> {
    if Looks(pc).Some? then Looks(pc) else Works(pc)
  }

  predicate Alive(x: Str) {
    x.state == Joinable || x.state == Detached
  }

  /** A thread that has not exited is detached exactly if that was asked for. */
  predicate AsAsked(x: Str) {
    Alive(x) ==> (x.state == Detached <==> x.asked)
  }

  predicate Undecided(x: Str) {
    (x.state == Joinable && x.claim == Open) || (x.state == Detached && x.claim == Spent)
  }

  predicate Announced(stage: Stage) {
    stage == Enlist || stage == Mark
  }

  /** The combinations of state and progress that occur. */
  predicate Shape(x: Str) {
    match x.custody
    case Nowhere => x == ABSENT
    case Raw => x.id == 0 && x.maker.Some? && x.own == NotStarted && !x.announced && !x.reaped && x.use == 0 && x.fair && x.enabled && !x.pending && !x.asked
    case Creating =>
      && x.id > 0 && x.maker.Some? && !x.announced && !x.reaped && (x.state == Exited ==> x.use == 0)
      && (x.own == NotStarted || (x.own == Stopped && x.state == Terminated))
    case InTable =>
      x.id > 0 && !x.announced && (x.stack || x.reaped) && AsAsked(x) &&
      (match x.own
       case NotStarted => x.maker.Some? && Alive(x) && !x.reaped
       case Running => x.maker.None? && Alive(x) && !x.reaped
       case Leaving(stage) => x.maker.None? && stage == Withdraw && x.state == Detached
       case Stopped => x.maker.None? && x.state == Exited)
    case Tearing(listed) =>
      x.id > 0 && AsAsked(x) &&
      (match x.own
       case NotStarted => x.maker.Some? && Alive(x) && (listed ==> x.announced)
       case Running => false
       case Leaving(stage) =>
         && x.maker.None? && x.state == Detached && stage != Withdraw && (listed <==> stage == Mark)
         && (x.announced <==> Announced(stage))
       case Stopped => x.maker.None? && x.state == Exited && x.reaped && !x.announced)
    case Reusable => x.id > 0 && x.maker.None? && x.state == Terminated && (x.own == NotStarted || x.own == Stopped)
    case Lost => x.id > 0 && x.maker.None? && x.state == Terminated && x.own == NotStarted
  }

  /** The same for the claim, of a structure that was named by the rule only. */
  predicate FairShape(x: Str) {
    match x.custody
    case Nowhere => true
    case Raw => x.claim == Open
    case InTable =>
      (match x.own
       case NotStarted => Undecided(x)
       case Running => if x.state == Detached then x.claim == Spent else x.claim != Spent
       case Leaving(_) => x.claim == Spent
       case Stopped => x.claim != Spent && (x.reaped ==> x.claim.By?))
    case Tearing(_) =>
      (match x.own
       case NotStarted => Undecided(x)
       case Stopped => x.claim.By?
       case _ => x.claim == Spent)
    case _ => !x.claim.By?
  }

  ghost predicate ExitsOk(l: Life, s: Sid, x: Str) {
    && (forall u {:trigger (s, u) in l.exits} :: (s, u) in l.exits ==> u <= x.use && x.id > 0)
    && ((s, x.use) in l.exits ==> (x.own.Leaving? || x.own.Stopped?) && !x.custody.Creating?)
    && (x.own.Stopped? && (x.custody.InTable? || x.custody.Tearing?) ==> (s, x.use) in l.exits && l.exits[(s, x.use)] == x.status)
  }

  /** The first caller that saw the exit is the one that takes the structure down. */
  ghost predicate ReapersOk(l: Life, s: Sid, x: Str) {
    && (forall u {:trigger (s, u) in l.reapers} :: (s, u) in l.reapers ==> u <= x.use && x.id > 0)
    && ((s, x.use) in l.reapers ==> x.own.Stopped? && !x.custody.Creating?)
    && (x.reaped && (x.custody.InTable? || x.custody.Tearing?) ==> (s, x.use) in l.reapers)
    && ((x.custody.InTable? || x.custody.Tearing?) && (s, x.use) in l.reapers ==>
          var a := l.reapers[(s, x.use)]; Reaps(PcOf(l, a)) == Some(s) && (x.fair ==> x.claim == By(a)))
  }

  ghost predicate StrOk(l: Life, s: Sid) {
    var x := St(l, s);
    && Shape(x) && (x.fair ==> FairShape(x)) && ExitsOk(l, s, x) && ReapersOk(l, s, x)
    && x.id <= l.num == |l.owners| <= |l.slots|
    && (x.id > 0 ==> l.owners[x.id - 1] == s)
    && (x.custody.InTable? <==> x.id > 0 && l.slots[x.id - 1] == Some(s))
    && (s in l.free <==> x.custody.Reusable? || x.custody == Tearing(true))
    && (x.maker.Some? ==> Makes(PcOf(l, x.maker.value)) == Some(s))
    && (x.fair && x.claim.By? ==> Refers(PcOf(l, x.claim.a)) == Some(s))
  }

  /** At `stage` of a teardown by somebody other than the thread itself. */
  predicate StageOk(stage: Stage, c: Custody, first: Custody) {
    match stage
    case Withdraw => c == first || c == Tearing(false)
    case Mark => c == Tearing(true)
    case _ => c == Tearing(false)
  }

  predicate MakerOk(l: Life, a: Aid, x: Str, pc: Pc) {
    && x.maker == Some(a)
    && match pc
       case Prepare(_) => x.custody == Creating && x.state == Terminated
       case Slot(_) => x.custody == Raw
       case Grow(_, saved) => x.custody == Raw && saved <= |l.slots| && saved <= l.num
       case Setup(_) => x.custody == Creating && x.own == NotStarted && (x.use > 0 ==> x.state == Terminated)
       case Start(_) => x.custody == InTable
       case Retract(_) => x.custody == InTable
       case _ =>
         && x.own == NotStarted && Alive(x) && AsAsked(x) && (x.fair ==> Undecided(x))
         && match pc
            case Equip(_) => x.custody == Creating
            case Publish(_) => x.custody == Creating && x.stack
            case Tear(_, stage, _) => StageOk(stage, x.custody, Creating) && (x.announced <==> Announced(stage))
            case _ => true
  }

  /** A caller that has looked up use `u` of the structure `x`; it is not being handed out for that use any more. */
  predicate LookOk(x: Str, u: nat) {
    x.id > 0 && (u < x.use || (u == x.use && !x.custody.Creating?))
  }

  /** The call by `a` is the one the rule allows. */
  predicate Heeds(x: Str, a: Aid, u: nat) {
    x.claim == By(a) && x.use == u && x.custody == InTable && !x.reaped && (x.state == Joinable || x.state == Exited)
  }

  /** A use whose end is still to come, and will wake whoever waits for it. */
  predicate Pending(x: Str) {
    && x.state == Joinable && !x.announced && (x.own == NotStarted || x.own == Running)
    && ((x.custody.Creating? && x.use > 0) || x.custody.InTable? || x.custody == Tearing(false))
  }

  /** A use that failed before it started, and whose broadcast has been sent. */
  predicate Missed(x: Str) {
    x.announced && x.own == NotStarted && (x.state == Joinable || x.state == Terminated)
  }

  predicate WaitOk(x: Str, seen: nat, late: bool) {
    && seen <= x.use
    && (!late ==> seen == x.use && Pending(x))
    && (late && seen == x.use ==> Missed(x))
  }

  predicate LookerOk(a: Aid, x: Str, pc: Pc) {
    match pc
    case JoinLock(_, u) => LookOk(x, u) && (x.fair ==> Heeds(x, a, u))
    case DetachLock(_, u) => LookOk(x, u) && (x.fair ==> Heeds(x, a, u))
    case JoinWait(_, u, seen, late) => LookOk(x, u) && (x.fair ==> Heeds(x, a, u)) && u <= seen && WaitOk(x, seen, late)
    case _ => true
  }

  predicate ReaperOk(l: Life, a: Aid, s: Sid, x: Str, pc: Pc) {
    && (s, x.use) in l.reapers && l.reapers[(s, x.use)] == a && x.state == Exited
    && match pc
       case JoinRead(_, u) => x.custody == InTable && !x.reaped && u <= x.use && (x.fair ==> u == x.use)
       case JoinReap(_, u, v) => x.custody == InTable && !x.reaped && x.status == v && u <= x.use && (x.fair ==> u == x.use)
       case DetachReap(_, u) => x.custody == InTable && !x.reaped && u <= x.use && (x.fair ==> u == x.use)
       case Tear(_, stage, Joined(u, v)) =>
         StageOk(stage, x.custody, InTable) && x.reaped && x.status == v && u <= x.use && (x.fair ==> u == x.use)
       case Tear(_, stage, Detaching(u)) =>
         StageOk(stage, x.custody, InTable) && x.reaped && u <= x.use && (x.fair ==> u == x.use)
       case _ => true
  }

  ghost predicate ActOk(l: Life, a: Aid) {
    var pc := PcOf(l, a);
    && (Makes(pc).Some? ==> MakerOk(l, a, St(l, Makes(pc).value), pc))
    && (Looks(pc).Some? ==> LookerOk(a, St(l, Looks(pc).value), pc))
    && (Reaps(pc).Some? ==> ReaperOk(l, a, Reaps(pc).value, St(l, Reaps(pc).value), pc))
  }

  ghost predicate TableOk(l: Life) {
    && |l.owners| == l.num <= |l.slots|
    && (forall i {:trigger l.owners[i]} :: 0 <= i < l.num ==>
          St(l, l.owners[i]).id == i + 1 && (l.slots[i].Some? ==> l.slots[i].value == l.owners[i]))
    && Distinct(l.free)
  }

  ghost predicate Sound(l: Life) {
    && TableOk(l)
    && (forall s :: StrOk(l, s))
    && (forall a :: ActOk(l, a))
  }

  /** Two callers that both take a structure down break everything; up to then all is sound. */
  ghost predicate Inv(l: Life) {
    l.doubled || Sound(l)
  }
}
