/**
 * Where the lifecycle's promises stop: for each promise that needs a condition, runs
 * that break it without the condition, and the exact statement.
 */
module LifecycleLimits {
  import opened Options
  import opened Positions
  import opened Lifecycle
  import opened LifecycleSafety
  import opened LifecycleTheorems
  import opened LifecycleLevels

  // ---- building runs ---------------------------------------------------

  /** A run under `r` that ends in `s`. */
  ghost predicate Ends(r: Rules, trace: seq<State>, acts: seq<Action>, s: State) {
    IsRun(r, trace, acts) && trace[|acts|] == s
  }

  lemma Then(r: Rules, trace: seq<State>, acts: seq<Action>, s: State, a: Action, s': State)
    requires Ends(r, trace, acts, s) && Next(r, s, a, s')
    ensures Ends(r, trace + [s'], acts + [a], s')
  {
    var trace', acts' := trace + [s'], acts + [a];
    forall i | 0 <= i < |acts'| ensures Next(r, trace'[i], acts'[i], trace'[i + 1]) {
      if i < |acts| {
        assert Next(r, trace[i], acts[i], trace[i + 1]);
      }
    }
  }

  function Start(ps: Book): State {
    State(ps, {}, map[], Idle, [], Waiting,
          Ledger(map m | m in ps :: ps[m].amount, map[], map[], map[]))
  }

  predicate CanSell(s: State) { s.exec.Waiting? && s.queue != [] && s.queue[0].mint in s.positions }

  function Taken(s: State): State
    requires CanSell(s)
  {
    s.(queue := s.queue[1..], exec := Dequeued(s.queue[0]))
  }

  function Executing(s: State): State
    requires CanSell(s)
  {
    s.(queue := s.queue[1..], exec := Selling(s.queue[0]))
  }

  /** The first queued order has been sold. */
  function Sold(s: State): State
    requires CanSell(s)
  {
    var o := s.queue[0];
    s.(queue := s.queue[1..], positions := AfterSell(s.positions, o.mint, o.amount, o.reason, o.level),
       ledger := s.ledger.(sold := Plus(s.ledger.sold, o.mint, o.amount)))
  }

  lemma TakeNext(r: Rules, trace: seq<State>, acts: seq<Action>, s: State)
    requires Ends(r, trace, acts, s) && CanSell(s)
    ensures Ends(r, trace + [Taken(s), Executing(s)], acts + [Dequeue, CheckHeld], Executing(s))
  {
    Then(r, trace, acts, s, Dequeue, Taken(s));
    Then(r, trace + [Taken(s)], acts + [Dequeue], Taken(s), CheckHeld, Executing(s));
    assert trace + [Taken(s)] + [Executing(s)] == trace + [Taken(s), Executing(s)];
    assert acts + [Dequeue] + [CheckHeld] == acts + [Dequeue, CheckHeld];
  }

  lemma SellNext(r: Rules, trace: seq<State>, acts: seq<Action>, s: State)
    requires Ends(r, trace, acts, s) && CanSell(s)
    ensures Ends(r, trace + [Taken(s), Executing(s), Sold(s)], acts + [Dequeue, CheckHeld, SellOk], Sold(s))
    ensures ExecNext(Executing(s), SellOk, Sold(s))
  {
    TakeNext(r, trace, acts, s);
    Then(r, trace + [Taken(s), Executing(s)], acts + [Dequeue, CheckHeld], Executing(s), SellOk, Sold(s));
    assert trace + [Taken(s), Executing(s)] + [Sold(s)] == trace + [Taken(s), Executing(s), Sold(s)];
    assert acts + [Dequeue, CheckHeld] + [SellOk] == acts + [Dequeue, CheckHeld, SellOk];
  }

  predicate CanBuy(r: Rules, s: State, t: nat, m: Mint, allow: bool, cap: nat) {
    && t !in s.tasks && (allow ==> r.allowAccumulate)
    && AcquireOutcome(s.positions, s.pending, m, allow) == Acquired
    && (m in s.positions || |s.positions| < cap)
  }

  function AtBuyStage(s: State, t: nat, m: Mint, stage: BuyStage): State {
    s.(pending := s.pending + {m}, tasks := s.tasks[t := BuyTask(m, stage)])
  }

  /** A buy task has reserved `m` and passed the count check. */
  function Counted(s: State, t: nat, m: Mint): State { AtBuyStage(s, t, m, Buying(m in s.positions)) }

  lemma BuySteps(r: Rules, s: State, t: nat, m: Mint, allow: bool, cap: nat)
    requires CanBuy(r, s, t, m, allow, cap)
    ensures BuyNext(r, s, BuyAcquire(t, m, allow), AtBuyStage(s, t, m, Reserved))
    ensures BuyNext(r, AtBuyStage(s, t, m, Reserved), BuyLook(t), AtBuyStage(s, t, m, Looked(m in s.positions)))
    ensures BuyNext(r, AtBuyStage(s, t, m, Looked(m in s.positions)), BuyCount(t, cap), Counted(s, t, m))
  {
    var s1, s2 := AtBuyStage(s, t, m, Reserved), AtBuyStage(s, t, m, Looked(m in s.positions));
    assert s2.tasks == WithStage(s1, t, Looked(m in s.positions));
    assert Counted(s, t, m).tasks == WithStage(s2, t, Buying(m in s.positions));
  }

  function BuyActs(t: nat, m: Mint, allow: bool, cap: nat): seq<Action> {
    [BuyAcquire(t, m, allow), BuyLook(t), BuyCount(t, cap)]
  }

  lemma CountBuy(r: Rules, trace: seq<State>, acts: seq<Action>, s: State, t: nat, m: Mint, allow: bool, cap: nat)
    returns (trace': seq<State>)
    requires Ends(r, trace, acts, s) && CanBuy(r, s, t, m, allow, cap)
    ensures Ends(r, trace', acts + BuyActs(t, m, allow, cap), Counted(s, t, m))
    ensures trace <= trace'
    ensures forall k | |trace| <= k < |trace'| :: trace'[k].tasks.Keys == s.tasks.Keys + {t}
  {
    BuySteps(r, s, t, m, allow, cap);
    var s1, s2 := AtBuyStage(s, t, m, Reserved), AtBuyStage(s, t, m, Looked(m in s.positions));
    var a1, a2, a3 := BuyAcquire(t, m, allow), BuyLook(t), BuyCount(t, cap);
    Then(r, trace, acts, s, a1, s1);
    Then(r, trace + [s1], acts + [a1], s1, a2, s2);
    Then(r, trace + [s1] + [s2], acts + [a1] + [a2], s2, a3, Counted(s, t, m));
    trace' := trace + [s1] + [s2] + [Counted(s, t, m)];
    assert acts + [a1] + [a2] + [a3] == acts + BuyActs(t, m, allow, cap);
  }

  // ---- mirror sells ----------------------------------------------------

  const COIN: Mint := "coin"
  /** Ten tokens of a mint of which the target bought two. */
  const HELD := Holding(10, 10, 1.0, 0, None, None, [], [], false, false, Some(2))
  const HALF := SellOrder(COIN, 5, MirrorSell, 0, false)

  lemma HalfIsMirrored()
    ensures MirrorOrder(COIN, HELD, Some(1)) == HALF
    ensures MirrorOrder(COIN, HELD, None) == SellOrder(COIN, 10, MirrorSell, 0, true)
  {
    assert 1.0 / 2.0 == 0.5 && (10.0 * 0.5).Floor == 5;
  }

  /** The target was seen selling half, then selling again. */
  function Mirrored(again: Option<nat>): State {
    Start(map[COIN := HELD]).(queue := [HALF, MirrorOrder(COIN, HELD, again)])
  }

  lemma ReachMirrored(r: Rules, again: Option<nat>) returns (trace: seq<State>, acts: seq<Action>)
    requires r.mirrorSells
    ensures Ends(r, trace, acts, Mirrored(again))
  {
    var s0 := Start(map[COIN := HELD]);
    var s1 := s0.(queue := [HALF]);
    HalfIsMirrored();
    assert MirrorNext(r, s0, MirrorDetect(COIN, Some(1)), s1);
    Then(r, [s0], [], s0, MirrorDetect(COIN, Some(1)), s1);
    assert MirrorNext(r, s1, MirrorDetect(COIN, again), Mirrored(again));
    trace, acts := [s0] + [s1], [] + [MirrorDetect(COIN, Some(1))];
    Then(r, trace, acts, s1, MirrorDetect(COIN, again), Mirrored(again));
    trace, acts := trace + [Mirrored(again)], acts + [MirrorDetect(COIN, again)];
  }

  /** Both orders executed, one after the other. */
  lemma SellBoth(r: Rules, again: Option<nat>) returns (trace: seq<State>, acts: seq<Action>)
    requires r.mirrorSells
    ensures CanSell(Mirrored(again)) && CanSell(Sold(Mirrored(again)))
    ensures Ends(r, trace, acts, Sold(Sold(Mirrored(again))))
    ensures |acts| > 0 && trace[|acts| - 1] == Executing(Sold(Mirrored(again)))
    ensures ExecNext(trace[|acts| - 1], SellOk, trace[|acts|])
  {
    trace, acts := ReachMirrored(r, again);
    var s := Mirrored(again);
    SellNext(r, trace, acts, s);
    var t := Sold(s);
    trace, acts := trace + [Taken(s), Executing(s), t], acts + [Dequeue, CheckHeld, SellOk];
    SellNext(r, trace, acts, t);
    trace, acts := trace + [Taken(t), Executing(t), Sold(t)], acts + [Dequeue, CheckHeld, SellOk];
  }

  /** Two mirror detections of one mint queue two orders for it. */
  lemma MirrorSellsOverlap(r: Rules) returns (trace: seq<State>, acts: seq<Action>)
    requires r.mirrorSells
    ensures IsRun(r, trace, acts) && !Exclusive(trace[|acts|])
  {
    trace, acts := ReachMirrored(r, None);
    assert Outstanding(Mirrored(None))[0].mint == Outstanding(Mirrored(None))[1].mint;
  }

  /** Exclusivity holds in every state of every run exactly when mirror sells are off. */
  lemma ExclusivityIffNoMirrorSells(r: Rules)
    ensures (forall trace, acts, i: nat | IsRun(r, trace, acts) && i < |trace| :: Exclusive(trace[i]))
            <==> !r.mirrorSells
  {
    if r.mirrorSells {
      var trace, acts := MirrorSellsOverlap(r);
    } else {
      forall trace, acts, i: nat | IsRun(r, trace, acts) && i < |trace| ensures Exclusive(trace[i]) {
        OrderExclusivity(r, trace, acts, i);
      }
    }
  }

  /** A half and a full order for one holding of ten: fifteen count as sold, and the second sell truncates. */
  lemma MirrorSellsOversell(r: Rules) returns (trace: seq<State>, acts: seq<Action>)
    requires r.mirrorSells
    ensures |acts| > 0 && IsRun(r, trace, acts) && !LedgerInv(trace[|acts|])
    ensures ExecNext(trace[|acts| - 1], SellOk, trace[|acts|]) && !SaleExact(trace[|acts| - 1], trace[|acts|])
  {
    trace, acts := SellBoth(r, None);
    HalfIsMirrored();
    var s := trace[|acts|];
    assert Of(s.ledger.added, COIN) == 10 && Of(s.ledger.sold, COIN) == 15;
  }

  /** The ledger balances in every state of every run exactly when mirror sells are off. */
  lemma ConservationIffNoMirrorSells(r: Rules)
    ensures (forall trace, acts, i: nat | IsRun(r, trace, acts) && i < |trace| :: LedgerInv(trace[i]))
            <==> !r.mirrorSells
  {
    if r.mirrorSells {
      var trace, acts := MirrorSellsOversell(r);
    } else {
      forall trace, acts, i: nat | IsRun(r, trace, acts) && i < |trace| ensures LedgerInv(trace[i]) {
        RunInv(r, trace, acts, i);
      }
    }
  }

  /** A completed sell takes exactly its amount from the position. */
  predicate SaleExact(s: State, s': State)
    requires s.exec.Selling?
  {
    var o := s.exec.order;
    o.mint in s.positions && Held(s'.positions, o.mint) == Held(s.positions, o.mint) - o.amount
  }

  /** The saturating subtraction never truncates in any run exactly when mirror sells are off. */
  lemma NoTruncationIffNoMirrorSells(r: Rules)
    ensures (forall trace, acts, i: nat |
               IsRun(r, trace, acts) && i < |acts| && ExecNext(trace[i], SellOk, trace[i + 1]) ::
               SaleExact(trace[i], trace[i + 1]))
            <==> !r.mirrorSells
  {
    if r.mirrorSells {
      var trace, acts := MirrorSellsOversell(r);
      assert ExecNext(trace[|acts| - 1], SellOk, trace[|acts| - 1 + 1]);
    } else {
      forall trace, acts, i: nat | IsRun(r, trace, acts) && i < |acts| && ExecNext(trace[i], SellOk, trace[i + 1])
        ensures SaleExact(trace[i], trace[i + 1])
      {
        SellNeverTruncates(r, trace, acts, i);
      }
    }
  }

  // ---- finality --------------------------------------------------------

  /** Two half orders close a position, neither marked final. */
  lemma MirrorSellsDefeatFinality(r: Rules) returns (trace: seq<State>, acts: seq<Action>)
    requires r.mirrorSells
    ensures |acts| > 0 && IsRun(r, trace, acts)
    ensures ExecNext(trace[|acts| - 1], SellOk, trace[|acts|])
    ensures !FinalityRight(trace[|acts| - 1], trace[|acts|])
  {
    trace, acts := SellBoth(r, Some(1));
    HalfIsMirrored();
  }

  const PEAKED := HELD.(watermark := Some(2.0))
  const EXIT := FullExit(COIN, PEAKED, TrailingStop)
  const TRAILING := Settings([Level(50.0, 100.0)], [Level(-50.0, 100.0)], 1000, false, 0, 0, 0)

  /** The monitor has sent a trailing-stop order for all of it, and not yet set the flag. */
  const ORDERED := Start(map[COIN := PEAKED]).(
    queue := [EXIT], monitor := Entry(TRAILING, map[], COIN, PEAKED, 1.5, Sent(TrailingStop)))

  const ORDERING := [TickStart(TRAILING), EntryPrice(COIN, 1.5), TrailingSend(true)]

  lemma ReachOrdered(r: Rules) returns (trace: seq<State>)
    ensures Ends(r, trace, ORDERING, ORDERED) && trace[0] == Start(map[COIN := PEAKED])
  {
    var s0 := Start(map[COIN := PEAKED]);
    var s1 := s0.(monitor := Ticking(TRAILING, map[COIN := PEAKED]));
    var s2 := s0.(monitor := Entry(TRAILING, map[], COIN, PEAKED, 1.5, Fresh));
    assert PctSum(TRAILING.tp, 1) == 100.0 && PctSum(TRAILING.sl, 1) == 100.0;
    assert COIN in s0.positions && TickNext(s0, TickStart(TRAILING), s1);
    Then(r, [s0], [], s0, TickStart(TRAILING), s1);
    assert TickNext(s1, EntryPrice(COIN, 1.5), s2) by {
      assert WithWatermark(map[COIN := PEAKED], COIN, 2.0) == map[COIN := PEAKED];
      assert map[COIN := PEAKED] - {COIN} == map[];
    }
    Then(r, [s0] + [s1], [] + [TickStart(TRAILING)], s1, EntryPrice(COIN, 1.5), s2);
    assert EntryNext(s2, TrailingSend(true), ORDERED);
    Then(r, [s0] + [s1] + [s2], [] + [TickStart(TRAILING)] + [EntryPrice(COIN, 1.5)], s2, TrailingSend(true), ORDERED);
    trace := [s0] + [s1] + [s2] + [ORDERED];
    assert ORDERING == [] + [TickStart(TRAILING)] + [EntryPrice(COIN, 1.5)] + [TrailingSend(true)];
  }

  const FIVE := Fill(5, 1.0, 0, None)
  const LAND := BuyLand(0, FIVE)

  /** An accumulating buy has landed before the order executes. */
  const LANDED := ORDERED.(
    pending := {COIN}, tasks := map[0 := BuyTask(COIN, Finished)],
    positions := Accumulated(ORDERED.positions, COIN, 5, 1.0),
    ledger := ORDERED.ledger.(added := Plus(ORDERED.ledger.added, COIN, 5)))

  lemma ReachLanded(r: Rules) returns (trace: seq<State>, acts: seq<Action>)
    requires r.allowAccumulate
    ensures Ends(r, trace, acts, LANDED)
  {
    trace := ReachOrdered(r);
    trace := CountBuy(r, trace, ORDERING, ORDERED, 0, COIN, true, 1);
    acts := ORDERING + BuyActs(0, COIN, true, 1);
    var s := Counted(ORDERED, 0, COIN);
    assert BuyNext(r, s, LAND, LANDED) by {
      assert WithStage(s, 0, Finished) == map[0 := BuyTask(COIN, Finished)];
    }
    Then(r, trace, acts, s, LAND, LANDED);
    trace, acts := trace + [LANDED], acts + [LAND];
  }

  /**
   * A buy lands while a trailing-stop order for the whole holding is queued: the
   * order is marked final and leaves tokens behind.
   */
  lemma AccumulationDefeatsFinality(r: Rules) returns (trace: seq<State>, acts: seq<Action>)
    requires r.allowAccumulate
    ensures |acts| > 0 && IsRun(r, trace, acts)
    ensures ExecNext(trace[|acts| - 1], SellOk, trace[|acts|])
    ensures !FinalityRight(trace[|acts| - 1], trace[|acts|])
  {
    trace, acts := ReachLanded(r);
    SellNext(r, trace, acts, LANDED);
    trace, acts := trace + [Taken(LANDED), Executing(LANDED), Sold(LANDED)], acts + [Dequeue, CheckHeld, SellOk];
  }

  /** Finality is right at every completed sell of every run exactly when neither mirror sells nor accumulation are on. */
  lemma FinalityIffPlain(r: Rules)
    ensures (forall trace, acts, i: nat |
               IsRun(r, trace, acts) && i < |acts| && ExecNext(trace[i], SellOk, trace[i + 1]) ::
               FinalityRight(trace[i], trace[i + 1]))
            <==> !r.mirrorSells && !r.allowAccumulate
  {
    if r.mirrorSells {
      var trace, acts := MirrorSellsDefeatFinality(r);
      assert ExecNext(trace[|acts| - 1], SellOk, trace[|acts| - 1 + 1]);
    } else if r.allowAccumulate {
      var trace, acts := AccumulationDefeatsFinality(r);
      assert ExecNext(trace[|acts| - 1], SellOk, trace[|acts| - 1 + 1]);
    } else {
      forall trace, acts, i: nat | IsRun(r, trace, acts) && i < |acts| && ExecNext(trace[i], SellOk, trace[i + 1])
        ensures FinalityRight(trace[i], trace[i + 1])
      {
        Finality(r, trace, acts, i);
      }
    }
  }

  // ---- abandoned positions without a dropped order ---------------------

  const FAILED := Executing(ORDERED).(exec := Waiting)
  const FLAGGED := FAILED.(
    positions := map[COIN := PEAKED.(pendingSell := true)], monitor := Ticking(TRAILING, map[]))

  /** The sell fails before the monitor sets its flag: the position is flagged for good and nothing is queued. */
  lemma LateFlagAbandons(r: Rules) returns (trace: seq<State>, acts: seq<Action>)
    ensures IsRun(r, trace, acts) && SellDrop !in acts
    ensures !Abandoned(trace[0], COIN, 0) && Abandoned(trace[|acts|], COIN, 10)
    ensures trace[|acts|].positions[COIN].pendingSell
  {
    trace := ReachOrdered(r);
    TakeNext(r, trace, ORDERING, ORDERED);
    var s := Executing(ORDERED);
    trace, acts := trace + [Taken(ORDERED), s], ORDERING + [Dequeue, CheckHeld];
    assert WithFlag(s.positions, COIN, false) == s.positions;
    Then(r, trace, acts, s, SellErr, FAILED);
    trace, acts := trace + [FAILED], acts + [SellErr];
    assert WithFlag(FAILED.positions, COIN, true) == FLAGGED.positions;
    assert EntryNext(FAILED, SetPending, FLAGGED);
    Then(r, trace, acts, FAILED, SetPending, FLAGGED);
    trace, acts := trace + [FLAGGED], acts + [SetPending];
  }

  /** Sold out; the monitor is still to set the flag. */
  const SOLD_OUT := Start(map[COIN := PEAKED]).(
    positions := map[], monitor := ORDERED.monitor,
    ledger := Ledger(map[COIN := 10], map[COIN := 10], map[], map[]))

  lemma ReachSoldOut(r: Rules) returns (trace: seq<State>, acts: seq<Action>)
    ensures Ends(r, trace, acts, SOLD_OUT) && trace[0] == Start(map[COIN := PEAKED])
    ensures acts == ORDERING + [Dequeue, CheckHeld, SellOk]
  {
    trace := ReachOrdered(r);
    SellNext(r, trace, ORDERING, ORDERED);
    assert Sold(ORDERED) == SOLD_OUT;
    trace, acts := trace + [Taken(ORDERED), Executing(ORDERED), SOLD_OUT], ORDERING + [Dequeue, CheckHeld, SellOk];
  }

  const REBUYING := Counted(SOLD_OUT, 0, COIN)

  lemma ReachRebuying(r: Rules) returns (trace: seq<State>, acts: seq<Action>)
    ensures Ends(r, trace, acts, REBUYING) && trace[0] == Start(map[COIN := PEAKED])
    ensures acts == ORDERING + [Dequeue, CheckHeld, SellOk] + BuyActs(0, COIN, false, 1)
  {
    trace, acts := ReachSoldOut(r);
    trace := CountBuy(r, trace, acts, SOLD_OUT, 0, COIN, false, 1);
    acts := acts + BuyActs(0, COIN, false, 1);
  }

  /** The position is sold out, and a fresh buy of its mint lands, before the monitor sets the flag. */
  lemma FreshBuyAbandoned(r: Rules) returns (trace: seq<State>, acts: seq<Action>)
    ensures IsRun(r, trace, acts) && SellDrop !in acts && SellErr !in acts
    ensures !Abandoned(trace[0], COIN, 0) && Abandoned(trace[|acts|], COIN, 5)
  {
    trace, acts := ReachRebuying(r);
    var s := REBUYING.(
      positions := map[COIN := NewHolding(FIVE)], tasks := WithStage(REBUYING, 0, Finished),
      ledger := REBUYING.ledger.(added := Plus(REBUYING.ledger.added, COIN, 5)));
    assert BuyNext(r, REBUYING, LAND, s);
    Then(r, trace, acts, REBUYING, LAND, s);
    trace, acts := trace + [s], acts + [LAND];
  }

  // ---- levels ----------------------------------------------------------

  const TENTH := Settings([Level(50.0, 10.0)], [Level(-50.0, 100.0)], 0, false, 0, 0, 0)

  /** One level-0 take-profit order for a tenth of ten tokens. */
  const SLICE := SellOrder(COIN, 1, TakeProfit, 0, false)

  predicate Sliceable(h: Holding) {
    && h.original == 10 && h.amount > 1 && h.buyPrice == 1.0 && Peak(h, 2.0) == 2.0
    && h.tpDone == [] && h.slDone == [] && !h.migrated && !h.pendingSell
  }

  /** A whole tick that sends the level-0 order of the only position and flags it. */
  function Sliced(s: State, h: Holding): State {
    s.(positions := map[COIN := h.(watermark := Some(2.0), pendingSell := true)], queue := s.queue + [SLICE])
  }

  function InEntry(s: State, h: Holding, stage: EntryStage): State {
    s.(positions := map[COIN := h.(watermark := Some(2.0))],
       monitor := Entry(TENTH, map[], COIN, h, 2.0, stage))
  }

  lemma SliceOrder(h: Holding)
    requires Sliceable(h)
    ensures FirstToFire(TENTH.tp, 0, [], Pnl(h.buyPrice, 2.0), h.original, true)
    ensures LevelOrder(COIN, h, TENTH.tp, 0, TakeProfit) == SLICE
    ensures NoneFires(TENTH.sl, [], Pnl(h.buyPrice, 2.0), h.original, false)
  {
    assert (10.0 / 100.0 * 10.0).Floor == 1;
    assert Pnl(1.0, 2.0) == 100.0;
  }

  lemma TickToSend(r: Rules, trace: seq<State>, acts: seq<Action>, s: State, h: Holding)
    returns (trace': seq<State>, acts': seq<Action>)
    requires Ends(r, trace, acts, s) && s.monitor.Idle? && s.positions == map[COIN := h] && Sliceable(h)
    ensures Ends(r, trace', acts', InEntry(s, h, TakeProfits))
  {
    var s1 := s.(monitor := Ticking(TENTH, s.positions));
    var s2 := InEntry(s, h, Fresh);
    var s3 := InEntry(s, h, TakeProfits);
    assert PctSum(TENTH.tp, 1) == 10.0 && PctSum(TENTH.sl, 1) == 100.0;
    assert COIN in s.positions && TickNext(s, TickStart(TENTH), s1);
    Then(r, trace, acts, s, TickStart(TENTH), s1);
    assert TickNext(s1, EntryPrice(COIN, 2.0), s2) by {
      assert map[COIN := h] - {COIN} == map[];
    }
    Then(r, trace + [s1], acts + [TickStart(TENTH)], s1, EntryPrice(COIN, 2.0), s2);
    assert EntryNext(s2, RugObserve(0, None), s3);
    Then(r, trace + [s1] + [s2], acts + [TickStart(TENTH)] + [EntryPrice(COIN, 2.0)], s2, RugObserve(0, None), s3);
    trace', acts' := trace + [s1] + [s2] + [s3],
      acts + [TickStart(TENTH)] + [EntryPrice(COIN, 2.0)] + [RugObserve(0, None)];
  }

  function Flagged(s: State, h: Holding, m: Monitor): State { Sliced(s, h).(monitor := m) }

  lemma SendAndFlag(r: Rules, trace: seq<State>, acts: seq<Action>, s: State, h: Holding)
    returns (trace': seq<State>, acts': seq<Action>)
    requires Ends(r, trace, acts, s) && s.monitor.Idle? && s.positions == map[COIN := h] && Sliceable(h)
    ensures Ends(r, trace', acts', Flagged(s, h, Entry(TENTH, map[], COIN, h, 2.0, StopLosses(true))))
  {
    trace', acts' := TickToSend(r, trace, acts, s, h);
    SliceOrder(h);
    var s3 := InEntry(s, h, TakeProfits);
    var s4 := InEntry(s, h, Sent(TakeProfit)).(queue := s.queue + [SLICE]);
    var s5 := Flagged(s, h, s3.monitor.(stage := StopLosses(true)));
    assert EntryNext(s3, TpSend(0, true), s4);
    Then(r, trace', acts', s3, TpSend(0, true), s4);
    trace', acts' := trace' + [s4], acts' + [TpSend(0, true)];
    assert EntryNext(s4, SetPending, s5);
    Then(r, trace', acts', s4, SetPending, s5);
    trace', acts' := trace' + [s5], acts' + [SetPending];
  }

  lemma SliceTick(r: Rules, trace: seq<State>, acts: seq<Action>, s: State, h: Holding)
    returns (trace': seq<State>, acts': seq<Action>)
    requires Ends(r, trace, acts, s) && s.monitor.Idle? && s.positions == map[COIN := h] && Sliceable(h)
    ensures Ends(r, trace', acts', Sliced(s, h))
  {
    trace', acts' := SendAndFlag(r, trace, acts, s, h);
    SliceOrder(h);
    var s5 := Flagged(s, h, Entry(TENTH, map[], COIN, h, 2.0, StopLosses(true)));
    var s6 := Flagged(s, h, Ticking(TENTH, map[]));
    assert EntryNext(s5, SlPass, s6);
    Then(r, trace', acts', s5, SlPass, s6);
    trace', acts' := trace' + [s6], acts' + [SlPass];
    assert TickNext(s6, TickEnd, Sliced(s, h));
    Then(r, trace', acts', s6, TickEnd, Sliced(s, h));
    trace', acts' := trace' + [Sliced(s, h)], acts' + [TickEnd];
  }

  const HALVED := HELD.(amount := 5, watermark := Some(2.0))

  /** A mirror sell clears the flag of a queued level order, and the next tick sends that level again. */
  lemma ReachTwoSlices(r: Rules) returns (trace: seq<State>, acts: seq<Action>, s: State)
    requires r.mirrorSells
    ensures Ends(r, trace, acts, s) && s.queue == [SLICE, SLICE] && s.exec.Waiting?
    ensures s.positions == map[COIN := HALVED.(pendingSell := true)]
  {
    var s0 := Start(map[COIN := HELD]);
    var s1 := s0.(queue := [HALF]);
    HalfIsMirrored();
    assert MirrorNext(r, s0, MirrorDetect(COIN, Some(1)), s1);
    Then(r, [s0], [], s0, MirrorDetect(COIN, Some(1)), s1);
    trace, acts := SliceTick(r, [s0] + [s1], [] + [MirrorDetect(COIN, Some(1))], s1, HELD);
    var s2 := Sliced(s1, HELD);
    SellNext(r, trace, acts, s2);
    trace, acts := trace + [Taken(s2), Executing(s2), Sold(s2)], acts + [Dequeue, CheckHeld, SellOk];
    assert Sold(s2).positions == map[COIN := HALVED];
    assert Sold(s2).queue == [SLICE];
    trace, acts := SliceTick(r, trace, acts, Sold(s2), HALVED);
    s := Sliced(Sold(s2), HALVED);
  }

  /** One level completes at both steps, and its position lives all the time between. */
  ghost predicate CompletesTwice(trace: seq<State>, i: nat, j: nat, m: Mint, reason: SellReason, level: nat)
    requires i < j < |trace| - 1
  {
    && (reason == TakeProfit || reason == StopLoss)
    && Completes(trace[i], trace[i + 1], m, reason, level)
    && Completes(trace[j], trace[j + 1], m, reason, level)
    && forall k | i < k <= j :: m in trace[k].positions
  }

  /** Each level completes at most once while its position lives. */
  ghost predicate LevelsOnce(trace: seq<State>) {
    forall i: nat, j: nat, m, reason, level | i < j < |trace| - 1 :: !CompletesTwice(trace, i, j, m, reason, level)
  }

  lemma MirrorSellsRepeatLevel(r: Rules) returns (trace: seq<State>, acts: seq<Action>)
    requires r.mirrorSells
    ensures IsRun(r, trace, acts) && !LevelsOnce(trace)
  {
    var s;
    trace, acts, s := ReachTwoSlices(r);
    var i := |acts| + 2;
    SellNext(r, trace, acts, s);
    var t := Sold(s);
    trace, acts := trace + [Taken(s), Executing(s), t], acts + [Dequeue, CheckHeld, SellOk];
    SellNext(r, trace, acts, t);
    trace, acts := trace + [Taken(t), Executing(t), Sold(t)], acts + [Dequeue, CheckHeld, SellOk];
    assert CompletesTwice(trace, i, i + 3, COIN, TakeProfit, 0);
  }

  /** Every run completes each level at most once per position lifetime exactly when mirror sells are off. */
  lemma LevelsOnceIffNoMirrorSells(r: Rules)
    ensures (forall trace, acts | IsRun(r, trace, acts) :: LevelsOnce(trace)) <==> !r.mirrorSells
  {
    if r.mirrorSells {
      var trace, acts := MirrorSellsRepeatLevel(r);
    } else {
      forall trace: seq<State>, acts, i: nat, j: nat, m, reason, level | IsRun(r, trace, acts) && i < j < |trace| - 1
        ensures !CompletesTwice(trace, i, j, m, reason, level)
      {
        if CompletesTwice(trace, i, j, m, reason, level) {
          LevelOncePerLifetime(r, trace, acts, i, j, m, reason, level);
          assert false;
        }
      }
    }
  }

  // ---- position cap ----------------------------------------------------

  /** Pairwise different mints. */
  function Name(k: nat): (m: Mint)
    ensures |m| == k
  {
    seq(k, _ => 'x')
  }

  /** `k` positions, in the mints named 1 to `k`. */
  function Crowd(k: nat): Book { if k == 0 then map[] else Crowd(k - 1)[Name(k) := HELD] }

  lemma {:induction false} CrowdSize(k: nat)
    ensures |Crowd(k)| == k
    ensures forall m | m in Crowd(k) :: Crowd(k)[m] == HELD
    ensures forall i: nat | i > k :: Name(i) !in Crowd(k)
  {
    if k > 0 {
      CrowdSize(k - 1);
      assert forall i: nat | i > k :: Name(i) != Name(k);
      OneMore(Crowd(k - 1), Name(k), HELD);
    }
  }

  /** `j` buys passed the count check with `cap - 1` positions open, and the first `landed` have been added. */
  ghost predicate Fleet(s: State, cap: nat, j: nat, landed: nat) {
    && cap >= 1 && landed <= j
    && (forall t: nat :: t in s.tasks <==> t < j)
    && (forall t | t in s.tasks ::
          s.tasks[t] == BuyTask(Name(cap + t), if t < landed then Finished else Buying(false)))
    && (forall k: nat | k >= cap + j :: Name(k) !in s.pending)
    && |s.positions| == cap - 1 + landed
    && (forall k: nat | k >= cap + landed :: Name(k) !in s.positions)
  }

  ghost predicate TasksBelow(trace: seq<State>, n: nat) {
    forall k | 0 <= k < |trace| :: forall t | t in trace[k].tasks :: t < n
  }

  lemma CountOne(r: Rules, s: State, cap: nat, j: nat)
    requires Fleet(s, cap, j, 0)
    ensures CanBuy(r, s, j, Name(cap + j), false, cap) && Fleet(Counted(s, j, Name(cap + j)), cap, j + 1, 0)
  {
    assert forall k: nat | k > cap + j :: Name(k) != Name(cap + j);
  }

  lemma FleetStarts(cap: nat)
    requires cap >= 1
    ensures Fleet(Start(Crowd(cap - 1)), cap, 0, 0)
  {
    CrowdSize(cap - 1);
    var s := Start(Crowd(cap - 1));
    assert s.positions == Crowd(cap - 1) && s.tasks == map[] && s.pending == {};
    forall k: nat | k >= cap ensures Name(k) !in s.positions {
    }
  }

  lemma InitCrowd(r: Rules, k: nat)
    ensures IsRun(r, [Start(Crowd(k))], [])
  {
    CrowdSize(k);
  }

  lemma {:induction false} CountFleet(r: Rules, cap: nat, n: nat, j: nat) returns (trace: seq<State>, acts: seq<Action>)
    requires cap >= 1 && j <= n
    ensures IsRun(r, trace, acts) && trace[0] == Start(Crowd(cap - 1))
    ensures Fleet(trace[|acts|], cap, j, 0) && CapsWithin(acts, cap) && TasksBelow(trace, n)
  {
    if j == 0 {
      FleetStarts(cap);
      InitCrowd(r, cap - 1);
      trace, acts := [Start(Crowd(cap - 1))], [];
    } else {
      trace, acts := CountFleet(r, cap, n, j - 1);
      trace, acts := CountNext(r, trace, acts, trace[|acts|], cap, n, j - 1);
    }
  }

  lemma CountNext(r: Rules, trace: seq<State>, acts: seq<Action>, s: State, cap: nat, n: nat, j: nat)
    returns (trace': seq<State>, acts': seq<Action>)
    requires Ends(r, trace, acts, s) && Fleet(s, cap, j, 0) && CapsWithin(acts, cap) && TasksBelow(trace, n) && j < n
    ensures IsRun(r, trace', acts') && trace'[0] == trace[0]
    ensures Fleet(trace'[|acts'|], cap, j + 1, 0) && CapsWithin(acts', cap) && TasksBelow(trace', n)
  {
    var m := Name(cap + j);
    CountOne(r, s, cap, j);
    trace' := CountBuy(r, trace, acts, s, j, m, false, cap);
    acts' := acts + BuyActs(j, m, false, cap);
    TasksStayBelow(trace, trace', n, j, s);
  }

  lemma TasksStayBelow(trace: seq<State>, trace': seq<State>, n: nat, t: nat, s: State)
    requires TasksBelow(trace, n) && trace <= trace' && t < n && s in trace
    requires forall k | |trace| <= k < |trace'| :: trace'[k].tasks.Keys == s.tasks.Keys + {t}
    ensures TasksBelow(trace', n)
  {
    forall k, u | 0 <= k < |trace'| && u in trace'[k].tasks ensures u < n {
      if k < |trace| {
        assert trace'[k] == trace[k];
      } else {
        assert u in trace'[k].tasks.Keys;
      }
    }
  }

  function Landed(s: State, j: nat, m: Mint): State
    requires j in s.tasks
  {
    s.(positions := s.positions[m := NewHolding(FIVE)], tasks := WithStage(s, j, Finished),
       ledger := s.ledger.(added := Plus(s.ledger.added, m, 5)))
  }

  lemma LandOne(s: State, cap: nat, n: nat, j: nat)
    requires Fleet(s, cap, n, j) && j < n
    ensures j in s.tasks && s.tasks[j] == BuyTask(Name(cap + j), Buying(false))
    ensures Fleet(Landed(s, j, Name(cap + j)), cap, n, j + 1)
  {
    var m := Name(cap + j);
    var s' := Landed(s, j, m);
    assert forall k: nat | k > cap + j :: Name(k) != m;
    OneMore(s.positions, m, NewHolding(FIVE));
  }

  lemma OneMore(ps: Book, m: Mint, h: Holding)
    requires m !in ps
    ensures |ps[m := h]| == |ps| + 1
  {
    assert ps[m := h].Keys == ps.Keys + {m};
    assert |ps[m := h].Keys| == |ps.Keys| + 1;
  }

  lemma {:induction false} LandFleet(r: Rules, cap: nat, n: nat, j: nat) returns (trace: seq<State>, acts: seq<Action>)
    requires cap >= 1 && j <= n
    ensures IsRun(r, trace, acts) && trace[0] == Start(Crowd(cap - 1))
    ensures Fleet(trace[|acts|], cap, n, j) && CapsWithin(acts, cap) && TasksBelow(trace, n)
  {
    if j == 0 {
      trace, acts := CountFleet(r, cap, n, n);
    } else {
      trace, acts := LandFleet(r, cap, n, j - 1);
      var s := trace[|acts|];
      LandOne(s, cap, n, j - 1);
      var s' := Landed(s, j - 1, Name(cap + j - 1));
      Then(r, trace, acts, s, BuyLand(j - 1, FIVE), s');
      trace, acts := trace + [s'], acts + [BuyLand(j - 1, FIVE)];
    }
  }

  function NatsBelow(n: nat): (r: set<nat>)
    ensures |r| == n && forall t: nat :: t in r <==> t < n
  {
    if n == 0 then {} else NatsBelow(n - 1) + {n - 1}
  }

  lemma FewTasksFewBuys(trace: seq<State>, n: nat)
    requires TasksBelow(trace, n)
    ensures BuysWithin(trace, n)
  {
    forall k | 0 <= k < |trace| ensures |InFlight(trace[k])| <= n {
      SmallerBook(NatsBelow(n), InFlight(trace[k]));
    }
  }

  /** A run that obeys the cap at every count check and never has more than `n` buys past it. */
  ghost predicate IsCapRun(r: Rules, trace: seq<State>, acts: seq<Action>, cap: nat, n: nat) {
    && IsRun(r, trace, acts) && CapsWithin(acts, cap) && BuysWithin(trace, n)
    && |trace[0].positions| <= cap
  }

  ghost predicate StaysWithin(trace: seq<State>, bound: nat) {
    forall k | 0 <= k < |trace| :: |trace[k].positions| <= bound
  }

  /** From `cap - 1` positions, `n` overlapping buys open `cap + n - 1`. */
  lemma CapIsOvershot(r: Rules, cap: nat, n: nat) returns (trace: seq<State>, acts: seq<Action>)
    requires cap >= 1
    ensures IsCapRun(r, trace, acts, cap, n)
    ensures |trace[0].positions| == cap - 1 && |trace[|acts|].positions| == cap + n - 1
  {
    trace, acts := LandFleet(r, cap, n, n);
    CrowdSize(cap - 1);
    FewTasksFewBuys(trace, n);
  }

  /** The bound of `CapOvershoot` is the least: with `n >= 1` buys past the check, no run exceeds `bound` iff it is `cap + n - 1` or more. */
  lemma CapBoundIsExact(r: Rules, cap: nat, n: nat, bound: nat)
    requires cap >= 1 && n >= 1
    ensures (forall trace, acts | IsCapRun(r, trace, acts, cap, n) :: StaysWithin(trace, bound))
            <==> cap + n - 1 <= bound
  {
    if cap + n - 1 <= bound {
      forall trace: seq<State>, acts | IsCapRun(r, trace, acts, cap, n) ensures StaysWithin(trace, bound) {
        forall i | 0 <= i < |trace| ensures |trace[i].positions| <= bound {
          CapOvershoot(r, trace, acts, cap, n, i);
        }
      }
    } else {
      var trace, acts := CapIsOvershot(r, cap, n);
      assert |trace[|acts|].positions| > bound;
      assert !StaysWithin(trace, bound);
    }
  }

  /** A cap of zero is kept by every run. */
  lemma ZeroCapHeld(r: Rules, trace: seq<State>, acts: seq<Action>, n: nat)
    requires IsCapRun(r, trace, acts, 0, n)
    ensures StaysWithin(trace, 0)
  {
    forall i | 0 <= i < |trace| ensures |InFlight(trace[i])| <= 0 {
      ZeroCapNoBuys(r, trace, acts, i);
    }
    forall i | 0 <= i < |trace| ensures |trace[i].positions| <= 0 {
      CapOvershoot(r, trace, acts, 0, 0, i);
    }
  }

  /** `max_holded_coins` is a hard cap in every run exactly when it is zero or buys never overlap past the count check. */
  lemma CapHeldIff(r: Rules, cap: nat, n: nat)
    ensures (forall trace, acts | IsCapRun(r, trace, acts, cap, n) :: StaysWithin(trace, cap))
            <==> cap == 0 || n <= 1
  {
    if cap == 0 {
      forall trace, acts | IsCapRun(r, trace, acts, cap, n) ensures StaysWithin(trace, cap) {
        ZeroCapHeld(r, trace, acts, n);
      }
    } else if n >= 1 {
      CapBoundIsExact(r, cap, n, cap);
    } else {
      forall trace: seq<State>, acts | IsCapRun(r, trace, acts, cap, n) ensures StaysWithin(trace, cap) {
        forall i | 0 <= i < |trace| ensures |trace[i].positions| <= cap {
          CapOvershoot(r, trace, acts, cap, n, i);
        }
      }
    }
  }
}
