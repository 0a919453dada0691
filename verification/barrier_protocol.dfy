/** One barrier among any number of threads, over any number of rounds. */
module BarrierProtocol {
  import opened Base
  import opened Blocking
  import B = Barrier

  /** A completed round: who entered it, who got the serial value, who has left with zero so far. */
  datatype Round = Round(members: set<Tid>, serial: Tid, zeros: set<Tid>)

  /** `past` and `ticket` are history: the completed rounds, and the round each waiting thread entered. */
  datatype Rec = Rec(v: B.Val, past: seq<Round>, ticket: map<Tid, nat>)

  function Fresh(count: nat): Rec {
    Rec(B.Fresh(count), [], map[])
  }

  ghost predicate RoundOk(x: Rec, k: nat)
    requires k < |x.past|
  {
    var r := x.past[k];
    && |r.members| == x.v.count
    && r.serial in r.members && r.serial !in r.zeros && r.zeros <= r.members
    && (forall t :: t in r.members && t != r.serial && t !in r.zeros <==> t in x.ticket && x.ticket[t] == k)
  }

  ghost predicate Inv(g: Net, b: nat, x: Rec) {
    && 0 < x.v.pending <= x.v.count
    && |Qu(g, BarrierQ(b))| + x.v.pending == x.v.count
    && (forall t :: Waits(g, t, BarrierQ(b)) <==> t in x.ticket)
    && (forall t :: t in x.ticket ==> x.ticket[t] <= |x.past|)
    && (forall t :: t in x.ticket ==> (t in Qu(g, BarrierQ(b)) <==> x.ticket[t] == |x.past|))
    && (forall k :: 0 <= k < |x.past| ==> RoundOk(x, k))
  }

  lemma Frame(g: Net, g': Net, b: nat, x: Rec)
    requires Inv(g, b, x) && SameView(g, g', BarrierQ(b))
    ensures Inv(g', b, x)
  {
  }

  // ---------------------------------------------------------------- steps

  function Enter(g: Net, b: nat, x: Rec, t: Tid): (Net, Rec, B.EnterResult<Tid>)
    requires x.v.pending > 0
  {
    var (v, q, r) := B.EnterSection(x.v, Qu(g, BarrierQ(b)), t);
    match r
    case MustWait => (Enqueue(g, t, BarrierQ(b), false), x.(v := v, ticket := x.ticket[t := |x.past|]), r)
    case Serial(chain) =>
      (TakeAll(g, t, BarrierQ(b)), x.(v := v, past := x.past + [Round(Elements(chain) + {t}, t, {})]), r)
    case SerialAlone => (g, x.(v := v, past := x.past + [Round({t}, t, {})]), r)
  }

  /** A woken thread returns zero. */
  function Leave(g: Net, x: Rec, t: Tid): (Net, Rec)
    requires t in x.ticket && x.ticket[t] < |x.past|
  {
    var k := x.ticket[t];
    (Finish(g, t),
     x.(past := x.past[k := x.past[k].(zeros := x.past[k].zeros + {t})], ticket := x.ticket - {t}))
  }

  // ---------------------------------------------------------------- preservation

  lemma QueueIsCurrentRound(g: Net, b: nat, x: Rec, t: Tid)
    requires NetInv(g) && Inv(g, b, x) && Th(g, t).wait.Out?
    ensures t !in x.ticket && t !in Qu(g, BarrierQ(b))
    ensures forall u :: u in Qu(g, BarrierQ(b)) <==> u in x.ticket && x.ticket[u] == |x.past|
  {
    assert !Waits(g, t, BarrierQ(b));
    assert forall u :: u in Qu(g, BarrierQ(b)) ==> Waits(g, u, BarrierQ(b));
  }

  lemma EnterToWaitKeeps(g: Net, b: nat, x: Rec, t: Tid)
    requires NetInv(g) && Inv(g, b, x) && Th(g, t).wait.Out? && x.v.pending > 1
    ensures var (g', x', r) := Enter(g, b, x, t); Inv(g', b, x')
  {
    var (g', x', r) := Enter(g, b, x, t);
    QueueIsCurrentRound(g, b, x, t);
    forall k | 0 <= k < |x'.past| ensures RoundOk(x', k) {
      assert RoundOk(x, k);
    }
  }

  lemma EnterToSerialKeeps(g: Net, b: nat, x: Rec, t: Tid)
    requires NetInv(g) && Inv(g, b, x) && Th(g, t).wait.Out? && x.v.pending == 1
    ensures var (g', x', r) := Enter(g, b, x, t); Inv(g', b, x')
  {
    var (g', x', r) := Enter(g, b, x, t);
    var q := Qu(g, BarrierQ(b));
    QueueIsCurrentRound(g, b, x, t);
    ElementsCount(q);
    forall k | 0 <= k < |x'.past| ensures RoundOk(x', k) {
      if k < |x.past| {
        assert RoundOk(x, k);
      } else {
        assert forall u :: u in x'.past[k].members && u != t <==> u in q;
      }
    }
  }

  lemma EnterKeeps(g: Net, b: nat, x: Rec, t: Tid)
    requires NetInv(g) && Inv(g, b, x) && Th(g, t).wait.Out?
    ensures var (g', x', r) := Enter(g, b, x, t); Inv(g', b, x')
  {
    if x.v.pending > 1 {
      EnterToWaitKeeps(g, b, x, t);
    } else {
      EnterToSerialKeeps(g, b, x, t);
    }
  }

  /** Whoever leaves has a completed round behind it. */
  lemma LeaveKeeps(g: Net, b: nat, x: Rec, t: Tid)
    requires NetInv(g) && Inv(g, b, x) && Waits(g, t, BarrierQ(b)) && AtStage(g, t, Taken)
    ensures t in x.ticket && x.ticket[t] < |x.past|
    ensures var (g', x') := Leave(g, x, t); Inv(g', b, x')
  {
    assert t !in Qu(g, BarrierQ(b));
    var (g', x') := Leave(g, x, t);
    forall k | 0 <= k < |x'.past| ensures RoundOk(x', k) {
      assert RoundOk(x, k);
    }
  }

  lemma SplitCount(members: set<Tid>, serial: Tid, zeros: set<Tid>, rest: set<Tid>)
    requires serial in members && serial !in zeros && zeros <= members
    requires forall t :: t in members && t != serial && t !in zeros <==> t in rest
    ensures |zeros| + |rest| == |members| - 1
  {
    assert members - {serial} == zeros + rest;
    assert zeros !! rest;
  }

  /** No thread leaves a round before `count` threads have entered it; of these exactly one gets the serial
      value, and every other one has either left with zero or is still on its way out. */
  lemma RoundsAreExact(g: Net, b: nat, x: Rec, k: nat, inFlight: set<Tid>)
    requires Inv(g, b, x) && k < |x.past|
    requires forall t :: t in inFlight <==> t in x.ticket && x.ticket[t] == k
    ensures |x.past[k].members| == x.v.count
    ensures x.past[k].serial in x.past[k].members && x.past[k].serial !in x.past[k].zeros
    ensures |x.past[k].zeros| + |inFlight| == x.v.count - 1
  {
    assert RoundOk(x, k);
    var r := x.past[k];
    SplitCount(r.members, r.serial, r.zeros, inFlight);
  }

  /** The queue of the transition system is the one the section computes, and its record too. */
  lemma QueuesAgree(g: Net, b: nat, x: Rec, t: Tid)
    requires Inv(g, b, x)
    ensures var (v, q, r) := B.EnterSection(x.v, Qu(g, BarrierQ(b)), t);
      Qu(Enter(g, b, x, t).0, BarrierQ(b)) == q && Enter(g, b, x, t).1.v == v
  {
    if x.v.pending == 1 && x.v.count == 1 {
      assert |Qu(g, BarrierQ(b))| == 0;
    }
  }
}
