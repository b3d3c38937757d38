/**
 * What a position remembers and why: every field of a live position is traced to the
 * step of the run that wrote it, whatever the settings.
 */
module LifecycleFacts {
  import opened Options
  import opened Positions
  import opened Lifecycle
  import opened LifecycleSafety
  import opened LifecycleTheorems

  // ---- one step --------------------------------------------------------

  /** The step is a fresh buy of `m`: its task had found `m` not held. */
  predicate Opens(s: State, a: Action, m: Mint) {
    a.BuyLand? && a.task in s.tasks && s.tasks[a.task] == BuyTask(m, Buying(false))
  }

  /** The step is a buy into a held position of `m`. */
  predicate Adds(s: State, a: Action, m: Mint) {
    a.BuyLand? && a.task in s.tasks && s.tasks[a.task] == BuyTask(m, Buying(true))
  }

  /** A position as a buy opens it: all bought tokens at the bought price, nothing observed or done yet. */
  predicate Fresh(h: Holding, f: Fill) {
    && h.amount == f.amount && h.original == f.amount && h.buyPrice == f.price
    && h.buyTime == f.time && h.targetTokens == f.targetTokens
    && h.watermark == None && h.entryLiquidity == None && h.tpDone == [] && h.slDone == []
    && !h.migrated && !h.pendingSell
  }

  /** How a position that lives through a step may change, field by field. */
  ghost predicate Evolves(s: State, a: Action, s': State, m: Mint)
    requires m in s.positions && m in s'.positions
  {
    var h, h' := s.positions[m], s'.positions[m];
    && h'.buyTime == h.buyTime && h'.targetTokens == h.targetTokens
    && (if Adds(s, a, m)
        then && h'.amount == h.amount + a.fill.amount && h'.original == h'.amount
             && h'.amount as real * h'.buyPrice
                == h.amount as real * h.buyPrice + a.fill.amount as real * a.fill.price
        else h'.buyPrice == h.buyPrice && h'.original == h.original)
    && (h'.migrated <==> h.migrated || a == EntryMigrate(m))
    && (h'.entryLiquidity == h.entryLiquidity
        || (a.RugObserve? && s.monitor.Entry? && s.monitor.mint == m && a.liquidity.Some?
            && h'.entryLiquidity == a.liquidity))
    && (forall i :: i in h'.tpDone <==> i in h.tpDone || Completes(s, s', m, TakeProfit, i))
    && (forall i :: i in h'.slDone <==> i in h.slDone || Completes(s, s', m, StopLoss, i))
    && (!a.EntryPrice? || a.mint != m ==> h'.watermark == h.watermark)
  }

  /** Nothing completes while the executor stands still. */
  lemma NothingCompletes(s: State, s': State)
    requires s'.exec == s.exec
    ensures forall m, reason, level :: !Completes(s, s', m, reason, level)
  {
  }

  lemma BuyEvolves(r: Rules, s: State, a: Action, s': State, m: Mint)
    requires AbsentInv(s) && BuyNext(r, s, a, s') && m in s'.positions
    ensures m in s.positions ==> Evolves(s, a, s', m)
    ensures m !in s.positions ==> Opens(s, a, m) && Fresh(s'.positions[m], a.fill)
  {
    BuyFrame(r, s, a, s');
    NothingCompletes(s, s');
    if Adds(s, a, m) && m in s.positions {
      AccumulatedCost(s.positions, m, a.fill.amount, a.fill.price);
    }
  }

  lemma TickEvolves(s: State, a: Action, s': State, m: Mint)
    requires (TickNext(s, a, s') || RevalNext(s, a, s')) && m in s'.positions
    ensures m in s.positions && Evolves(s, a, s', m)
  {
    NothingCompletes(s, s');
  }

  lemma EntryEvolves(s: State, a: Action, s': State, m: Mint)
    requires s.monitor.Entry? && s.monitor.snap.buyPrice > 0.0 && EntryNext(s, a, s') && m in s'.positions
    ensures m in s.positions && Evolves(s, a, s', m)
  {
    NothingCompletes(s, s');
  }

  lemma ExecEvolves(r: Rules, s: State, a: Action, s': State, m: Mint)
    requires (ExecNext(s, a, s') || MirrorNext(r, s, a, s')) && m in s'.positions
    ensures m in s.positions && Evolves(s, a, s', m)
  {
  }

  lemma NextEvolves(r: Rules, s: State, a: Action, s': State, m: Mint)
    requires AbsentInv(s) && Next(r, s, a, s') && m in s'.positions
    ensures m in s.positions ==> Evolves(s, a, s', m)
    ensures m !in s.positions ==> Opens(s, a, m) && Fresh(s'.positions[m], a.fill)
  {
    if BuyNext(r, s, a, s') {
      BuyEvolves(r, s, a, s', m);
    } else if TickNext(s, a, s') || RevalNext(s, a, s') {
      TickEvolves(s, a, s', m);
    } else if ExecNext(s, a, s') || MirrorNext(r, s, a, s') {
      ExecEvolves(r, s, a, s', m);
    } else {
      EntryEvolves(s, a, s', m);
    }
  }

  // ---- watermarks ------------------------------------------------------

  /** Loaded with the position, or the price of an entry of `m` among the first `n` steps. */
  ghost predicate Observed(trace: seq<State>, acts: seq<Action>, n: nat, m: Mint, price: real)
    requires n <= |acts| < |trace|
  {
    || (m in trace[0].positions && trace[0].positions[m].watermark == Some(price))
    || exists k: nat {:trigger acts[k]} :: k < n && acts[k] == EntryPrice(m, price)
  }

  ghost predicate WatermarksObserved(trace: seq<State>, acts: seq<Action>, n: nat, ps: Book)
    requires n <= |acts| < |trace|
  {
    forall m | m in ps && ps[m].watermark.Some? :: Observed(trace, acts, n, m, ps[m].watermark.value)
  }

  lemma ObservedStays(trace: seq<State>, acts: seq<Action>, n: nat, ps: Book)
    requires n < |acts| < |trace| && WatermarksObserved(trace, acts, n, ps)
    ensures WatermarksObserved(trace, acts, n + 1, ps)
  {
  }

  /** What the monitor still has to visit. */
  function Work(s: State): Book { if s.monitor.Idle? then map[] else s.monitor.work }

  /** Snapshots are taken whole and only shrink; a watermark is only written from a price or a snapshot. */
  lemma StepWatermarks(r: Rules, s: State, a: Action, s': State, m: Mint)
    requires AbsentInv(s) && Next(r, s, a, s')
    ensures m in Work(s') ==>
              || (m in Work(s) && Work(s')[m] == Work(s)[m])
              || (m in s.positions && Work(s')[m] == s.positions[m])
    ensures m in s'.positions && s'.positions[m].watermark.Some? ==>
              || (m in s.positions && s'.positions[m].watermark == s.positions[m].watermark)
              || (m in Work(s) && s'.positions[m].watermark == Work(s)[m].watermark)
              || a == EntryPrice(m, s'.positions[m].watermark.value)
  {
    if m in Work(s') {
      WorkShrinks(r, s, a, s', m);
    }
    if m in s'.positions {
      NextEvolves(r, s, a, s', m);
      if a.EntryPrice? && a.mint == m {
        PriceWrites(r, s, a, s');
      }
    }
  }

  lemma WorkShrinks(r: Rules, s: State, a: Action, s': State, m: Mint)
    requires Next(r, s, a, s') && m in Work(s')
    ensures || (m in Work(s) && Work(s')[m] == Work(s)[m])
            || (m in s.positions && Work(s')[m] == s.positions[m])
  {
    if BuyNext(r, s, a, s') {
      BuyFrame(r, s, a, s');
    } else if TickNext(s, a, s') || RevalNext(s, a, s') {
      TickShrinks(s, a, s', m);
    } else if ExecNext(s, a, s') || MirrorNext(r, s, a, s') {
      ExecShrinks(r, s, a, s');
    } else {
      EntryShrinks(s, a, s');
    }
  }

  lemma TickShrinks(s: State, a: Action, s': State, m: Mint)
    requires (TickNext(s, a, s') || RevalNext(s, a, s')) && m in Work(s')
    ensures || (m in Work(s) && Work(s')[m] == Work(s)[m])
            || (m in s.positions && Work(s')[m] == s.positions[m])
  {
  }

  lemma ExecShrinks(r: Rules, s: State, a: Action, s': State)
    requires ExecNext(s, a, s') || MirrorNext(r, s, a, s')
    ensures s'.monitor == s.monitor
  {
  }

  lemma EntryShrinks(s: State, a: Action, s': State)
    requires s.monitor.Entry? && s.monitor.snap.buyPrice > 0.0 && EntryNext(s, a, s')
    ensures Work(s') == Work(s)
  {
  }

  /** A priced entry of a held position writes the higher of the price and the snapshot's watermark. */
  lemma PriceWrites(r: Rules, s: State, a: Action, s': State)
    requires Next(r, s, a, s') && a.EntryPrice? && a.mint in s.positions
    ensures a.mint in Work(s) && a.mint in s'.positions
    ensures var seen, w := Work(s)[a.mint].watermark, s'.positions[a.mint].watermark;
            && w.Some? && w.value >= a.price && (seen.Some? ==> w.value >= seen.value)
            && (w.value == a.price || w == seen)
  {
    PeakIs(Work(s)[a.mint], a.price);
  }

  lemma PositionsObserved(
    r: Rules, trace: seq<State>, acts: seq<Action>, n: nat, s: State, a: Action, s': State, m: Mint)
    requires n < |acts| < |trace| && acts[n] == a && AbsentInv(s) && Next(r, s, a, s')
    requires WatermarksObserved(trace, acts, n + 1, s.positions) && WatermarksObserved(trace, acts, n + 1, Work(s))
    requires m in s'.positions && s'.positions[m].watermark.Some?
    ensures Observed(trace, acts, n + 1, m, s'.positions[m].watermark.value)
  {
    StepWatermarks(r, s, a, s', m);
  }

  lemma ObservedStep(r: Rules, trace: seq<State>, acts: seq<Action>, n: nat, s: State, a: Action, s': State)
    requires n < |acts| < |trace| && acts[n] == a && AbsentInv(s) && Next(r, s, a, s')
    requires WatermarksObserved(trace, acts, n, s.positions) && WatermarksObserved(trace, acts, n, Work(s))
    ensures WatermarksObserved(trace, acts, n + 1, s'.positions) && WatermarksObserved(trace, acts, n + 1, Work(s'))
  {
    ObservedStays(trace, acts, n, s.positions);
    ObservedStays(trace, acts, n, Work(s));
    forall m | m in s'.positions && s'.positions[m].watermark.Some?
      ensures Observed(trace, acts, n + 1, m, s'.positions[m].watermark.value)
    {
      PositionsObserved(r, trace, acts, n, s, a, s', m);
    }
    forall m | m in Work(s') && Work(s')[m].watermark.Some?
      ensures Observed(trace, acts, n + 1, m, Work(s')[m].watermark.value)
    {
      WorkShrinks(r, s, a, s', m);
    }
  }

  lemma {:induction false} RunObserved(r: Rules, trace: seq<State>, acts: seq<Action>, i: nat)
    requires IsRun(r, trace, acts) && i < |trace|
    ensures WatermarksObserved(trace, acts, i, trace[i].positions)
    ensures WatermarksObserved(trace, acts, i, Work(trace[i]))
  {
    if i > 0 {
      RunObserved(r, trace, acts, i - 1);
      RunTasks(r, trace, acts, i - 1);
      ObservedStep(r, trace, acts, i - 1, trace[i - 1], acts[i - 1], trace[i]);
    }
  }

  /** In every run each high-watermark is one loaded with the position or a price observed for its mint. */
  lemma WatermarkObserved(r: Rules, trace: seq<State>, acts: seq<Action>, i: nat, m: Mint)
    requires IsRun(r, trace, acts) && i < |trace|
    requires m in trace[i].positions && trace[i].positions[m].watermark.Some?
    ensures Observed(trace, acts, i, m, trace[i].positions[m].watermark.value)
  {
    RunObserved(r, trace, acts, i);
  }

  /** From a priced entry on, while the position lives, its high-watermark is at least that price. */
  lemma WatermarkCoversPrices(r: Rules, trace: seq<State>, acts: seq<Action>, i: nat, j: nat, m: Mint, price: real)
    requires IsRun(r, trace, acts) && i < j < |trace| && acts[i] == EntryPrice(m, price) && Lives(trace, i, j, m)
    ensures trace[j].positions[m].watermark.Some? && trace[j].positions[m].watermark.value >= price
  {
    assert Next(r, trace[i], acts[i], trace[i + 1]);
    PriceWrites(r, trace[i], acts[i], trace[i + 1]);
    LifetimeMonotone(r, trace, acts, i + 1, j, m);
  }

  // ---- the other fields ------------------------------------------------

  /** At `k` the position is one loaded from the file, or one that a fresh buy has just opened. */
  ghost predicate Begins(trace: seq<State>, acts: seq<Action>, k: nat, m: Mint)
    requires k <= |acts| && |trace| == |acts| + 1
  {
    m in trace[k].positions && (k == 0 || (Opens(trace[k - 1], acts[k - 1], m) && m !in trace[k - 1].positions
                                          && Fresh(trace[k].positions[m], acts[k - 1].fill)))
  }

  /** The last beginning of the life of `m` that reaches index `i`. */
  ghost predicate LivesSince(trace: seq<State>, acts: seq<Action>, k: nat, i: nat, m: Mint)
    requires k <= i <= |acts| && |trace| == |acts| + 1
  {
    Begins(trace, acts, k, m) && Lives(trace, k, i, m)
  }

  /** Every position in every run was loaded or opened by a fresh buy, and has been held since. */
  lemma {:induction false} LifeBegins(r: Rules, trace: seq<State>, acts: seq<Action>, i: nat, m: Mint) returns (k: nat)
    requires IsRun(r, trace, acts) && i < |trace| && m in trace[i].positions
    ensures k <= i && LivesSince(trace, acts, k, i, m)
  {
    if i == 0 {
      k := 0;
    } else if m in trace[i - 1].positions {
      k := LifeBegins(r, trace, acts, i - 1, m);
    } else {
      RunTasks(r, trace, acts, i - 1);
      NextEvolves(r, trace[i - 1], acts[i - 1], trace[i], m);
      k := i;
    }
  }

  /** The same position has been held from `k` to `i`. */
  ghost predicate Lives(trace: seq<State>, k: nat, i: nat, m: Mint)
    requires i < |trace|
  {
    forall x | k <= x <= i :: m in trace[x].positions
  }

  /** It has, and each step in between changed it only as such a step may. */
  ghost predicate Evolving(trace: seq<State>, acts: seq<Action>, k: nat, i: nat, m: Mint)
    requires i <= |acts| < |trace|
  {
    && Lives(trace, k, i, m)
    && forall x {:trigger acts[x]} | k <= x < i :: Evolves(trace[x], acts[x], trace[x + 1], m)
  }

  lemma LifeEvolves(r: Rules, trace: seq<State>, acts: seq<Action>, k: nat, i: nat, m: Mint)
    requires IsRun(r, trace, acts) && k <= i < |trace| && Lives(trace, k, i, m)
    ensures Evolving(trace, acts, k, i, m)
  {
    forall x | k <= x < i ensures Evolves(trace[x], acts[x], trace[x + 1], m) {
      RunTasks(r, trace, acts, x);
      NextEvolves(r, trace[x], acts[x], trace[x + 1], m);
    }
  }

  /** No buy is added to `m` by the steps from `k` up to `i`. */
  ghost predicate NoneAdded(trace: seq<State>, acts: seq<Action>, k: nat, i: nat, m: Mint)
    requires i <= |acts| < |trace|
  {
    forall x {:trigger acts[x]} | k <= x < i :: !Adds(trace[x], acts[x], m)
  }

  lemma {:induction false} PurchaseEvolves(trace: seq<State>, acts: seq<Action>, k: nat, i: nat, m: Mint)
    requires k <= i <= |acts| < |trace| && Evolving(trace, acts, k, i, m)
    ensures var h, h' := trace[k].positions[m], trace[i].positions[m];
            && h'.buyTime == h.buyTime && h'.targetTokens == h.targetTokens
            && (NoneAdded(trace, acts, k, i, m) ==> h'.buyPrice == h.buyPrice && h'.original == h.original)
  {
    if k < i {
      PurchaseEvolves(trace, acts, k, i - 1, m);
      assert Evolves(trace[i - 1], acts[i - 1], trace[i], m);
    }
  }

  /**
   * Through its life a position keeps the time of its buy and the amount the target
   * bought, and until a buy is added also its price and its original amount.
   */
  lemma PurchaseKept(r: Rules, trace: seq<State>, acts: seq<Action>, k: nat, i: nat, m: Mint)
    requires IsRun(r, trace, acts) && k <= i < |trace| && Lives(trace, k, i, m)
    ensures var h, h' := trace[k].positions[m], trace[i].positions[m];
            && h'.buyTime == h.buyTime && h'.targetTokens == h.targetTokens
            && (NoneAdded(trace, acts, k, i, m) ==> h'.buyPrice == h.buyPrice && h'.original == h.original)
  {
    LifeEvolves(r, trace, acts, k, i, m);
    PurchaseEvolves(trace, acts, k, i, m);
  }

  lemma {:induction false} MigrationEvolves(trace: seq<State>, acts: seq<Action>, k: nat, i: nat, m: Mint)
    requires k <= i <= |acts| < |trace| && Evolving(trace, acts, k, i, m)
    ensures trace[i].positions[m].migrated <==> trace[k].positions[m].migrated || EntryMigrate(m) in acts[k..i]
  {
    if k < i {
      MigrationEvolves(trace, acts, k, i - 1, m);
      assert Evolves(trace[i - 1], acts[i - 1], trace[i], m);
      assert acts[k..i] == acts[k..i - 1] + [acts[i - 1]];
    }
  }

  /** A position is migrated exactly when it began so or an entry since saw a migration signal or a drained curve. */
  lemma MigratedIff(r: Rules, trace: seq<State>, acts: seq<Action>, k: nat, i: nat, m: Mint)
    requires IsRun(r, trace, acts) && k <= i < |trace| && Lives(trace, k, i, m)
    ensures trace[i].positions[m].migrated <==> trace[k].positions[m].migrated || EntryMigrate(m) in acts[k..i]
  {
    LifeEvolves(r, trace, acts, k, i, m);
    MigrationEvolves(trace, acts, k, i, m);
  }

  /** An order for the level completed at one of the steps from `k` up to `i`. */
  ghost predicate CompletedSince(trace: seq<State>, k: nat, i: nat, m: Mint, reason: SellReason, level: nat)
    requires i < |trace|
  {
    exists x: nat :: k <= x < i && Completes(trace[x], trace[x + 1], m, reason, level)
  }

  lemma {:induction false} LevelsEvolve(
    trace: seq<State>, acts: seq<Action>, k: nat, i: nat, m: Mint, reason: SellReason, level: nat)
    requires k <= i <= |acts| < |trace| && Evolving(trace, acts, k, i, m) && (reason == TakeProfit || reason == StopLoss)
    ensures level in LevelsDone(trace[i].positions[m], reason)
            <==> level in LevelsDone(trace[k].positions[m], reason) || CompletedSince(trace, k, i, m, reason, level)
  {
    if k < i {
      LevelsEvolve(trace, acts, k, i - 1, m, reason, level);
      assert Evolves(trace[i - 1], acts[i - 1], trace[i], m);
      assert CompletedSince(trace, k, i, m, reason, level)
        <==> CompletedSince(trace, k, i - 1, m, reason, level) || Completes(trace[i - 1], trace[i - 1 + 1], m, reason, level);
    }
  }

  /** A level is marked done exactly when it began so or an order for it completed since. */
  lemma DoneIff(
    r: Rules, trace: seq<State>, acts: seq<Action>, k: nat, i: nat, m: Mint, reason: SellReason, level: nat)
    requires IsRun(r, trace, acts) && k <= i < |trace| && (reason == TakeProfit || reason == StopLoss)
    requires Lives(trace, k, i, m)
    ensures level in LevelsDone(trace[i].positions[m], reason)
            <==> level in LevelsDone(trace[k].positions[m], reason) || CompletedSince(trace, k, i, m, reason, level)
  {
    LifeEvolves(r, trace, acts, k, i, m);
    LevelsEvolve(trace, acts, k, i, m, reason, level);
  }

  /** The entry of `m` read a pool liquidity. */
  predicate Reads(s: State, a: Action, m: Mint, liquidity: Option<real>) {
    a.RugObserve? && s.monitor.Entry? && s.monitor.mint == m && a.liquidity.Some? && a.liquidity == liquidity
  }

  /** The entry liquidity is the one the position had at `k`, or one read for its mint since. */
  ghost predicate LiquidityKnown(trace: seq<State>, acts: seq<Action>, k: nat, i: nat, m: Mint, liquidity: Option<real>)
    requires k <= i <= |acts| < |trace| && m in trace[k].positions
  {
    || liquidity == trace[k].positions[m].entryLiquidity
    || exists x: nat {:trigger acts[x]} :: k <= x < i && Reads(trace[x], acts[x], m, liquidity)
  }

  lemma {:induction false} LiquidityEvolves(trace: seq<State>, acts: seq<Action>, k: nat, i: nat, m: Mint)
    requires k <= i <= |acts| < |trace| && Evolving(trace, acts, k, i, m)
    ensures LiquidityKnown(trace, acts, k, i, m, trace[i].positions[m].entryLiquidity)
  {
    if k < i {
      LiquidityEvolves(trace, acts, k, i - 1, m);
      assert Evolves(trace[i - 1], acts[i - 1], trace[i], m);
      if trace[i].positions[m].entryLiquidity != trace[i - 1].positions[m].entryLiquidity {
        assert Reads(trace[i - 1], acts[i - 1], m, trace[i].positions[m].entryLiquidity);
      }
    }
  }

  /** A position's entry liquidity is the one it began with or one read for its mint since. */
  lemma EntryLiquidityRead(r: Rules, trace: seq<State>, acts: seq<Action>, k: nat, i: nat, m: Mint)
    requires IsRun(r, trace, acts) && k <= i < |trace| && Lives(trace, k, i, m)
    ensures LiquidityKnown(trace, acts, k, i, m, trace[i].positions[m].entryLiquidity)
  {
    LifeEvolves(r, trace, acts, k, i, m);
    LiquidityEvolves(trace, acts, k, i, m);
  }
}
