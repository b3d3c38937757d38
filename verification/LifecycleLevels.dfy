/**
 * Finality of orders and the arithmetic of take-profit levels, over every run
 * without mirror sells and without accumulation.
 */
module LifecycleLevels {
  import opened Options
  import opened Positions
  import opened Lifecycle
  import opened LifecycleSafety
  import opened LifecycleTheorems

  // ---- level arithmetic ------------------------------------------------

  /** Tokens sold by the levels in `done`, among the first `n`. */
  function SoldBy(levels: seq<Level>, done: seq<nat>, original: nat, n: nat): nat
    requires n <= |levels|
  {
    if n == 0 then 0
    else SoldBy(levels, done, original, n - 1)
         + if n - 1 in done then LevelAmount(levels[n - 1].sellPct, original) else 0
  }

  /** Tokens sold by the first `n` levels together. */
  function AllLevels(levels: seq<Level>, original: nat, n: nat): nat
    requires n <= |levels|
  {
    if n == 0 then 0 else AllLevels(levels, original, n - 1) + LevelAmount(levels[n - 1].sellPct, original)
  }

  /** A percentage of a token amount, before it is floored. */
  function Share(pct: real, whole: nat): real { pct / 100.0 * whole as real }

  lemma ShareAdds(a: real, b: real, whole: nat)
    ensures Share(a + b, whole) == Share(a, whole) + Share(b, whole) && Share(0.0, whole) == 0.0
  {
  }

  lemma LevelAmountFloors(pct: real, original: nat)
    requires pct >= 0.0
    ensures LevelAmount(pct, original) as real <= Share(pct, original) < LevelAmount(pct, original) as real + 1.0
  {
    assert Share(pct, original) >= 0.0;
  }

  /** The floored amounts lose less than one token per level. */
  lemma {:induction false} AllLevelsBounds(levels: seq<Level>, original: nat, n: nat)
    requires n <= |levels| && forall i | 0 <= i < |levels| :: levels[i].sellPct >= 0.0
    ensures AllLevels(levels, original, n) as real <= Share(PctSum(levels, n), original)
    ensures n > 0 ==> Share(PctSum(levels, n), original) < AllLevels(levels, original, n) as real + n as real
  {
    if n > 0 {
      AllLevelsBounds(levels, original, n - 1);
      var pct, before := levels[n - 1].sellPct, PctSum(levels, n - 1);
      LevelAmountFloors(pct, original);
      ShareAdds(before, pct, original);
      FloorsAdd(AllLevels(levels, original, n - 1), LevelAmount(pct, original),
                Share(before, original), Share(pct, original), n - 1);
    }
  }

  lemma FloorsAdd(a: nat, b: nat, x: real, y: real, n: nat)
    requires a as real <= x && (n > 0 ==> x < a as real + n as real) && (n == 0 ==> x == 0.0)
    requires b as real <= y < b as real + 1.0
    ensures (a + b) as real <= x + y < (a + b) as real + (n + 1) as real
  {
  }

  lemma {:induction false} SoldByPush(levels: seq<Level>, done: seq<nat>, original: nat, n: nat, i: nat)
    requires n <= |levels| && i !in done
    ensures SoldBy(levels, done + [i], original, n)
         == SoldBy(levels, done, original, n) + if i < n then LevelAmount(levels[i].sellPct, original) else 0
  {
    if n > 0 {
      SoldByPush(levels, done, original, n - 1, i);
    }
  }

  lemma {:induction false} SoldByWithin(levels: seq<Level>, done: seq<nat>, original: nat, n: nat)
    requires n <= |levels|
    ensures SoldBy(levels, done, original, n) <= AllLevels(levels, original, n)
    ensures (forall i | 0 <= i < n && i !in done :: LevelAmount(levels[i].sellPct, original) == 0)
            ==> SoldBy(levels, done, original, n) == AllLevels(levels, original, n)
  {
    if n > 0 {
      SoldByWithin(levels, done, original, n - 1);
    }
  }

  /** Valid take-profit levels never ask for more than the original amount. */
  lemma LevelsWithinOriginal(levels: seq<Level>, original: nat, up: bool)
    requires ValidLevels(levels, up)
    ensures AllLevels(levels, original, |levels|) <= original
  {
    AllLevelsBounds(levels, original, |levels|);
    ShareWithin(AllLevels(levels, original, |levels|), PctSum(levels, |levels|), original);
  }

  lemma ShareWithin(part: nat, pct: real, whole: nat)
    requires part as real <= Share(pct, whole) && pct <= 100.0
    ensures part <= whole
  {
    ShareMonotone(pct / 100.0, whole as real);
  }

  lemma ShareMonotone(a: real, x: real)
    requires a <= 1.0 && x >= 0.0
    ensures a * x <= x
  {
    assert (1.0 - a) * x >= 0.0;
  }

  /** A level not yet done still has its whole amount left. */
  lemma UndoneLevelFits(levels: seq<Level>, done: seq<nat>, original: nat, i: nat)
    requires ValidLevels(levels, true) && i < |levels| && i !in done
    ensures SoldBy(levels, done, original, |levels|) + LevelAmount(levels[i].sellPct, original) <= original
  {
    SoldByPush(levels, done, original, |levels|, i);
    SoldByWithin(levels, done + [i], original, |levels|);
    LevelsWithinOriginal(levels, original, true);
  }

  // ---- finality --------------------------------------------------------

  ghost predicate Same(s: State, m: Mint, snap: Holding) {
    m in s.positions && s.positions[m].amount == snap.amount && s.positions[m].original == snap.original
  }

  /** The entry in hand has not sent an order this tick. */
  predicate Unsent(stage: EntryStage) { !stage.Sent? && stage != StopLosses(true) }

  /** Snapshots are exact, and a final order is for exactly what is held. */
  ghost predicate ExactInv(s: State) {
    && (forall o | o in Outstanding(s) && o.isFinal :: o.amount == Held(s.positions, o.mint))
    && (!s.monitor.Idle? ==>
          forall m | m in s.monitor.work && !s.monitor.work[m].pendingSell :: Same(s, m, s.monitor.work[m]))
    && (s.monitor.Entry? && Unsent(s.monitor.stage) ==> Same(s, s.monitor.mint, s.monitor.snap))
  }

  /** Every position survives with its amounts and its completed levels. */
  ghost predicate Kept(ps: Book, ps': Book) {
    forall m | m in ps ::
      && m in ps'
      && ps'[m].amount == ps[m].amount && ps'[m].original == ps[m].original
      && ps'[m].tpDone == ps[m].tpDone && ps'[m].slDone == ps[m].slDone
  }

  lemma BuyKeepsBook(r: Rules, s: State, a: Action, s': State)
    requires TasksInv(s) && NeverHolding(s) && BuyNext(r, s, a, s')
    ensures Kept(s.positions, s'.positions)
  {
  }

  lemma TickKeepsBook(s: State, a: Action, s': State)
    requires TickNext(s, a, s') || (s.monitor.Entry? && s.monitor.snap.buyPrice > 0.0 && EntryNext(s, a, s'))
    ensures Kept(s.positions, s'.positions) && s'.positions.Keys == s.positions.Keys
  {
  }

  lemma HeldOrdersStayExact(s: State, s': State)
    requires OrdersInv(s) && ExactInv(s) && Kept(s.positions, s'.positions)
    ensures forall o | o in Outstanding(s) && o.isFinal :: o.amount == Held(s'.positions, o.mint)
  {
    forall o | o in Outstanding(s) && o.isFinal ensures o.amount == Held(s'.positions, o.mint) {
      assert OrderOk(s, o);
    }
  }

  lemma KeptBookKeepsExact(s: State, s': State)
    requires Inv(s) && ExactInv(s) && Kept(s.positions, s'.positions)
    requires Outstanding(s') == Outstanding(s) && s'.monitor == s.monitor
    ensures ExactInv(s')
  {
    HeldOrdersStayExact(s, s');
  }

  lemma TickKeepsExact(s: State, a: Action, s': State)
    requires Inv(s) && ExactInv(s) && TickNext(s, a, s')
    ensures ExactInv(s')
  {
    TickKeepsBook(s, a, s');
    assert Outstanding(s') == Outstanding(s);
    HeldOrdersStayExact(s, s');
  }

  /** An entry step queues at most one order, about the mint in hand, and keeps its settings. */
  lemma EntryQueue(s: State, a: Action, s': State)
    requires s.monitor.Entry? && s.monitor.snap.buyPrice > 0.0 && EntryNext(s, a, s')
    ensures s'.queue != s.queue ==>
              |s'.queue| == |s.queue| + 1 && Outstanding(s') == Outstanding(s) + [s'.queue[|s.queue|]]
    ensures s'.queue == s.queue ==> Outstanding(s') == Outstanding(s)
    ensures (s'.monitor.Ticking? || s'.monitor.Entry?) && s'.monitor.cfg == s.monitor.cfg
    ensures s'.monitor.work == s.monitor.work
    ensures s'.monitor.Entry? && Unsent(s'.monitor.stage) ==>
              Unsent(s.monitor.stage) && s'.monitor.mint == s.monitor.mint && s'.monitor.snap == s.monitor.snap
  {
  }

  lemma SentOrderExact(s: State, a: Action, s': State)
    requires MonitorInv(s) && s.monitor.Entry? && ExactInv(s) && EntryNext(s, a, s')
    requires s'.queue != s.queue
    ensures var o := s'.queue[|s.queue|]; o.isFinal ==> o.amount == Held(s'.positions, o.mint)
  {
  }

  lemma EntryKeepsExact(s: State, a: Action, s': State)
    requires Inv(s) && ExactInv(s) && s.monitor.Entry? && EntryNext(s, a, s')
    ensures ExactInv(s')
  {
    TickKeepsBook(s, a, s');
    EntryQueue(s, a, s');
    if s'.queue != s.queue {
      SentOrderExact(s, a, s');
    }
    HeldOrdersStayExact(s, s');
  }

  lemma RevalKeepsExact(s: State, a: Action, s': State)
    requires Inv(s) && ExactInv(s) && RevalNext(s, a, s')
    ensures ExactInv(s')
  {
    assert Outstanding(s') == Outstanding(s);
    forall o | o in Outstanding(s') && o.isFinal ensures o.amount == Held(s'.positions, o.mint) {
      assert OrderOk(s, o);
    }
  }

  lemma ExecKeepsExact(s: State, a: Action, s': State)
    requires Inv(s) && ExactInv(s) && ExecNext(s, a, s')
    ensures ExactInv(s')
  {
    if a.Dequeue? || a.CheckHeld? {
      if a.CheckHeld? {
        assert OrderOk(s, Outstanding(s)[0]);
      }
      assert Outstanding(s') == Outstanding(s);
    } else {
      FinishFrame(s, s');
      FinishKeepsOrders(s, s');
      assert s.exec.order in Outstanding(s) by {
        assert Outstanding(s)[0] == s.exec.order;
      }
    }
  }

  lemma NextKeepsExact(r: Rules, s: State, a: Action, s': State)
    requires !r.mirrorSells && Inv(s) && NeverHolding(s) && ExactInv(s) && Next(r, s, a, s')
    ensures ExactInv(s')
  {
    if BuyNext(r, s, a, s') {
      BuyKeepsBook(r, s, a, s');
      BuyGrows(r, s, a, s');
      KeptBookKeepsExact(s, s');
    } else if TickNext(s, a, s') {
      TickKeepsExact(s, a, s');
    } else if RevalNext(s, a, s') {
      RevalKeepsExact(s, a, s');
    } else if ExecNext(s, a, s') {
      ExecKeepsExact(s, a, s');
    } else {
      EntryKeepsExact(s, a, s');
    }
  }

  /** Neither mirror sells nor accumulating buys. */
  predicate Plain(r: Rules) { !r.mirrorSells && !r.allowAccumulate }

  lemma {:induction false} RunExact(r: Rules, trace: seq<State>, acts: seq<Action>, i: nat)
    requires Plain(r) && IsRun(r, trace, acts) && i < |trace|
    ensures ExactInv(trace[i])
  {
    if i > 0 {
      RunExact(r, trace, acts, i - 1);
      RunInv(r, trace, acts, i - 1);
      NoAccumulation(r, trace, acts, i - 1);
      NextKeepsExact(r, trace[i - 1], acts[i - 1], trace[i]);
    }
  }

  /** `is_final` says whether this completed sell closed the position. */
  predicate FinalityRight(s: State, s': State)
    requires s.exec.Selling?
  {
    s.exec.order.isFinal <==> s.exec.order.mint !in s'.positions
  }

  lemma Finality(r: Rules, trace: seq<State>, acts: seq<Action>, i: nat)
    requires Plain(r) && IsRun(r, trace, acts) && i < |acts|
    requires ExecNext(trace[i], SellOk, trace[i + 1])
    ensures FinalityRight(trace[i], trace[i + 1])
  {
    RunInv(r, trace, acts, i);
    RunExact(r, trace, acts, i);
    var s := trace[i];
    assert Outstanding(s)[0] == s.exec.order;
    assert OrderOk(s, s.exec.order);
  }

  // ---- take-profit levels ----------------------------------------------

  /** Until a stop-loss level completes, a position has sold exactly its completed take-profit levels. */
  ghost predicate Balanced(tp: seq<Level>, h: Holding) {
    && (forall i | i in h.tpDone :: i < |tp|)
    && (h.slDone == [] ==>
          h.amount == h.original - SoldBy(tp, h.tpDone, h.original, |tp|))
  }

  ghost predicate OrderLevels(tp: seq<Level>, o: SellOrder, h: Holding) {
    && (o.reason.TakeProfit? ==>
          && o.level < |tp|
          && (h.slDone == [] ==> o.amount == LevelAmount(tp[o.level].sellPct, h.original)))
    && (o.reason.TrailingStop? || o.reason.RugDetected? ==> o.isFinal)
  }

  ghost predicate LevelsInv(s: State, tp: seq<Level>) {
    && (forall m | m in s.positions :: Balanced(tp, s.positions[m]))
    && (forall o | o in Outstanding(s) && o.mint in s.positions :: OrderLevels(tp, o, s.positions[o.mint]))
    && (s.monitor.Ticking? || s.monitor.Entry? ==> s.monitor.cfg.tp == tp)
  }

  lemma FreshBalanced(tp: seq<Level>, h: Holding)
    requires h.tpDone == [] && h.amount == h.original
    ensures Balanced(tp, h)
  {
    NothingSold(tp, h.original, |tp|);
  }

  lemma {:induction false} NothingSold(levels: seq<Level>, original: nat, n: nat)
    requires n <= |levels|
    ensures SoldBy(levels, [], original, n) == 0
  {
    if n > 0 {
      NothingSold(levels, original, n - 1);
    }
  }

  lemma KeptBookKeepsLevels(s: State, s': State, tp: seq<Level>)
    requires LevelsInv(s, tp) && Kept(s.positions, s'.positions)
    requires forall m | m in s'.positions && m !in s.positions :: Balanced(tp, s'.positions[m])
    requires forall o | o in Outstanding(s') ::
               || (o in Outstanding(s) && o.mint in s.positions)
               || (o.mint in s'.positions && OrderLevels(tp, o, s'.positions[o.mint]))
    requires s'.monitor.Ticking? || s'.monitor.Entry? ==> s'.monitor.cfg.tp == tp
    ensures LevelsInv(s', tp)
  {
    forall m | m in s'.positions ensures Balanced(tp, s'.positions[m]) {
      if m in s.positions {
        assert Balanced(tp, s.positions[m]);
      }
    }
  }

  lemma BuyKeepsLevels(r: Rules, s: State, a: Action, s': State, tp: seq<Level>)
    requires Inv(s) && NeverHolding(s) && LevelsInv(s, tp) && BuyNext(r, s, a, s')
    ensures LevelsInv(s', tp)
  {
    BuyKeepsBook(r, s, a, s');
    BuyGrows(r, s, a, s');
    forall m | m in s'.positions && m !in s.positions ensures Balanced(tp, s'.positions[m]) {
      FreshBalanced(tp, s'.positions[m]);
    }
    forall o | o in Outstanding(s') ensures o in Outstanding(s) && o.mint in s.positions {
      assert OrderOk(s, o);
    }
    KeptBookKeepsLevels(s, s', tp);
  }

  lemma TpSendUnclamped(s: State, a: Action, s': State, tp: seq<Level>)
    requires Inv(s) && ExactInv(s) && LevelsInv(s, tp) && s.monitor.Entry? && EntryNext(s, a, s') && a.TpSend?
    requires s.monitor.snap.slDone == []
    ensures a.level < |tp|
    ensures LevelOrder(s.monitor.mint, s.monitor.snap, tp, a.level, TakeProfit).amount
         == LevelAmount(tp[a.level].sellPct, s.monitor.snap.original)
  {
    var h := s.positions[s.monitor.mint];
    assert Balanced(tp, h);
    UndoneLevelFits(tp, h.tpDone, h.original, a.level);
  }

  lemma SentOrderLevels(s: State, a: Action, s': State, tp: seq<Level>)
    requires Inv(s) && ExactInv(s) && LevelsInv(s, tp) && s.monitor.Entry? && EntryNext(s, a, s')
    requires |s'.queue| == |s.queue| + 1
    ensures s.monitor.mint in s'.positions && s'.queue == s.queue + [s'.queue[|s.queue|]]
    ensures OrderLevels(tp, s'.queue[|s.queue|], s'.positions[s.monitor.mint])
    ensures s'.queue[|s.queue|].mint == s.monitor.mint
  {
    if a.TpSend? && s.monitor.snap.slDone == [] {
      TpSendUnclamped(s, a, s', tp);
    }
  }

  lemma EntryKeepsLevels(s: State, a: Action, s': State, tp: seq<Level>)
    requires Inv(s) && ExactInv(s) && LevelsInv(s, tp) && s.monitor.Entry? && EntryNext(s, a, s')
    ensures LevelsInv(s', tp)
  {
    TickKeepsBook(s, a, s');
    EntryQueue(s, a, s');
    if s'.queue != s.queue {
      SentOrderLevels(s, a, s', tp);
    }
    forall o | o in Outstanding(s) ensures o.mint in s.positions {
      assert OrderOk(s, o);
    }
    KeptBookKeepsLevels(s, s', tp);
  }

  lemma TickKeepsLevels(s: State, a: Action, s': State, tp: seq<Level>)
    requires Inv(s) && LevelsInv(s, tp) && TickNext(s, a, s') && (a.TickStart? ==> a.cfg.tp == tp)
    ensures LevelsInv(s', tp)
  {
    TickKeepsBook(s, a, s');
    assert Outstanding(s') == Outstanding(s);
    forall o | o in Outstanding(s') ensures o in Outstanding(s) && o.mint in s.positions {
      assert OrderOk(s, o);
    }
    KeptBookKeepsLevels(s, s', tp);
  }

  lemma RevalKeepsLevels(s: State, a: Action, s': State, tp: seq<Level>)
    requires LevelsInv(s, tp) && RevalNext(s, a, s')
    ensures LevelsInv(s', tp)
  {
    assert Outstanding(s') == Outstanding(s);
  }

  lemma ReducedBalanced(tp: seq<Level>, h: Holding, o: SellOrder)
    requires Balanced(tp, h) && OrderLevels(tp, o, h)
    requires o.reason.TakeProfit? && o.amount <= h.amount && o.level !in h.tpDone
    ensures Balanced(tp, Reduced(h, o.amount, o.reason, o.level))
  {
    SoldByPush(tp, h.tpDone, h.original, |tp|, o.level);
  }

  lemma SoldKeepsBalance(s: State, s': State, tp: seq<Level>)
    requires Inv(s) && ExactInv(s) && LevelsInv(s, tp) && s.exec.Selling? && ExecNext(s, SellOk, s')
    requires s.exec.order.mint in s'.positions
    ensures Balanced(tp, s'.positions[s.exec.order.mint])
  {
    var o := s.exec.order;
    assert Outstanding(s)[0] == o;
    assert OrderOk(s, o) && OrderLevels(tp, o, s.positions[o.mint]);
    assert Balanced(tp, s.positions[o.mint]);
    if o.reason.TakeProfit? {
      ReducedBalanced(tp, s.positions[o.mint], o);
    }
  }

  lemma ExecKeepsLevels(s: State, a: Action, s': State, tp: seq<Level>)
    requires Inv(s) && ExactInv(s) && LevelsInv(s, tp) && ExecNext(s, a, s')
    ensures LevelsInv(s', tp)
  {
    if a.Dequeue? || a.CheckHeld? {
      if a.CheckHeld? {
        assert OrderOk(s, Outstanding(s)[0]);
      }
      assert Outstanding(s') == Outstanding(s);
    } else {
      FinishFrame(s, s');
      FinishKeepsOrders(s, s');
      var m := s.exec.order.mint;
      if m in s'.positions {
        if a.SellOk? {
          SoldKeepsBalance(s, s', tp);
        } else {
          assert Balanced(tp, s.positions[m]);
          assert Kept(s.positions, s'.positions);
        }
      }
    }
  }

  lemma NextKeepsLevels(r: Rules, s: State, a: Action, s': State, tp: seq<Level>)
    requires !r.mirrorSells && Inv(s) && NeverHolding(s) && ExactInv(s) && LevelsInv(s, tp) && Next(r, s, a, s')
    requires a.TickStart? ==> a.cfg.tp == tp
    ensures LevelsInv(s', tp)
  {
    if BuyNext(r, s, a, s') {
      BuyKeepsLevels(r, s, a, s', tp);
    } else if TickNext(s, a, s') {
      TickKeepsLevels(s, a, s', tp);
    } else if RevalNext(s, a, s') {
      RevalKeepsLevels(s, a, s', tp);
    } else if ExecNext(s, a, s') {
      ExecKeepsLevels(s, a, s', tp);
    } else {
      EntryKeepsLevels(s, a, s', tp);
    }
  }

  /** Every tick sees the take-profit levels `tp`, and the loaded positions were traded under them. */
  ghost predicate Under(tp: seq<Level>, trace: seq<State>, acts: seq<Action>) {
    && (forall k | 0 <= k < |acts| && acts[k].TickStart? :: acts[k].cfg.tp == tp)
    && |trace| > 0 && forall m | m in trace[0].positions :: Balanced(tp, trace[0].positions[m])
  }

  lemma {:induction false} RunLevels(r: Rules, trace: seq<State>, acts: seq<Action>, tp: seq<Level>, i: nat)
    requires Plain(r) && IsRun(r, trace, acts) && Under(tp, trace, acts) && i < |trace|
    ensures LevelsInv(trace[i], tp)
  {
    if i > 0 {
      RunLevels(r, trace, acts, tp, i - 1);
      RunInv(r, trace, acts, i - 1);
      RunExact(r, trace, acts, i - 1);
      NoAccumulation(r, trace, acts, i - 1);
      NextKeepsLevels(r, trace[i - 1], acts[i - 1], trace[i], tp);
    }
  }

  /** Until a stop-loss completes, no take-profit order of any run is clamped. */
  lemma TpOrderUnclamped(r: Rules, trace: seq<State>, acts: seq<Action>, tp: seq<Level>, i: nat)
    requires Plain(r) && IsRun(r, trace, acts) && Under(tp, trace, acts) && i < |acts|
    requires acts[i].TpSend? && trace[i].monitor.Entry? && trace[i].monitor.snap.slDone == []
    ensures var e := trace[i].monitor;
            && acts[i].level < |tp|
            && LevelOrder(e.mint, e.snap, tp, acts[i].level, TakeProfit).amount
               == LevelAmount(tp[acts[i].level].sellPct, e.snap.original)
  {
    RunInv(r, trace, acts, i);
    RunExact(r, trace, acts, i);
    RunLevels(r, trace, acts, tp, i);
    TpSendUnclamped(trace[i], acts[i], trace[i + 1], tp);
  }

  /**
   * Take-profit levels add up: before any stop-loss completes, the position has
   * sold exactly its completed levels, each order is its level's full floored
   * amount, and the levels still open never ask for more than is left.
   */
  lemma TpLevelsAddUp(r: Rules, trace: seq<State>, acts: seq<Action>, tp: seq<Level>, i: nat, m: Mint)
    requires Plain(r) && IsRun(r, trace, acts) && Under(tp, trace, acts) && i < |trace|
    requires ValidLevels(tp, true) && m in trace[i].positions && trace[i].positions[m].slDone == []
    ensures var h := trace[i].positions[m];
            && h.amount == h.original - SoldBy(tp, h.tpDone, h.original, |tp|)
            && (forall k: nat | k < |tp| && k !in h.tpDone :: LevelAmount(tp[k].sellPct, h.original) <= h.amount)
            && (forall o | o in Outstanding(trace[i]) && o.mint == m && o.reason.TakeProfit? ::
                  o.level < |tp| && o.amount == LevelAmount(tp[o.level].sellPct, h.original))
  {
    RunLevels(r, trace, acts, tp, i);
    var h := trace[i].positions[m];
    assert Balanced(tp, h);
    forall k: nat | k < |tp| && k !in h.tpDone
      ensures LevelAmount(tp[k].sellPct, h.original) <= h.amount
    {
      UndoneLevelFits(tp, h.tpDone, h.original, k);
    }
  }

  /** When the percentages sum to 100, what is left after every non-zero level is less than one token per level. */
  lemma TpDust(r: Rules, trace: seq<State>, acts: seq<Action>, tp: seq<Level>, i: nat, m: Mint)
    requires Plain(r) && IsRun(r, trace, acts) && Under(tp, trace, acts) && i < |trace|
    requires ValidLevels(tp, true) && m in trace[i].positions && trace[i].positions[m].slDone == []
    requires PctSum(tp, |tp|) == 100.0
    requires var h := trace[i].positions[m];
             forall k: nat | k < |tp| && k !in h.tpDone :: LevelAmount(tp[k].sellPct, h.original) == 0
    ensures trace[i].positions[m].amount < |tp|
  {
    RunLevels(r, trace, acts, tp, i);
    var h := trace[i].positions[m];
    assert Balanced(tp, h);
    SoldByWithin(tp, h.tpDone, h.original, |tp|);
    AllLevelsBounds(tp, h.original, |tp|);
  }
}
