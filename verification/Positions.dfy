/**
 * Open positions, sell orders and the monitor that guards them
 * (src/position_monitor.rs). Prices and percentages are exact reals, token
 * amounts are naturals.
 */
module Positions {
  import opened Options
  import opened Arithmetic

  type Mint = string
  type Book = map<Mint, Holding>

  datatype Level = Level(trigger: real, sellPct: real)

  datatype Settings = Settings(
    tp: seq<Level>, sl: seq<Level>,
    trailingStopBps: nat,
    rugEnabled: bool, rugWindowSecs: nat, rugPriceDropBps: nat, rugLiquidityDropBps: nat)

  datatype Holding = Holding(
    amount: nat, original: nat, buyPrice: real, buyTime: int,
    watermark: Option<real>, entryLiquidity: Option<real>,
    tpDone: seq<nat>, slDone: seq<nat>,
    migrated: bool, pendingSell: bool,
    targetTokens: Option<nat>)

  datatype SellReason = TakeProfit | StopLoss | TrailingStop | RugDetected | MirrorSell

  datatype SellOrder = SellOrder(mint: Mint, amount: nat, reason: SellReason, level: nat, isFinal: bool)

  datatype AcquireResult = AlreadyHolding | Acquired | Busy

  // ---- settings --------------------------------------------------------

  /** Sum of the sell percentages of the first `n` levels. */
  function PctSum(levels: seq<Level>, n: nat): real
    requires n <= |levels|
  {
    if n == 0 then 0.0 else PctSum(levels, n - 1) + levels[n - 1].sellPct
  }

  /** One half of `Settings::validate`: `up` for take-profit, otherwise stop-loss levels. */
  predicate ValidLevels(levels: seq<Level>, up: bool) {
    && 1 <= |levels| <= 4
    && (forall i | 0 <= i < |levels| ::
          && (if up then levels[i].trigger > 0.0 else levels[i].trigger < 0.0)
          && 0.0 < levels[i].sellPct <= 100.0)
    && PctSum(levels, |levels|) <= 100.0
  }

  predicate ValidSettings(cfg: Settings) {
    ValidLevels(cfg.tp, true) && ValidLevels(cfg.sl, false)
  }

  /** The check of one list of levels, as it runs: the first fault rejects it. */
  method ValidateLevels(levels: seq<Level>, up: bool) returns (ok: bool)
    ensures ok <==> ValidLevels(levels, up)
    ensures ok ==> 1 <= |levels| <= 4 && forall i | 0 <= i < |levels| ::
              0.0 < levels[i].sellPct <= 100.0 && (if up then levels[i].trigger > 0.0 else levels[i].trigger < 0.0)
  {
    if |levels| == 0 || |levels| > 4 {
      return false;
    }
    var sum := 0.0;
    for i := 0 to |levels|
      invariant sum == PctSum(levels, i)
      invariant forall j | 0 <= j < i ::
        0.0 < levels[j].sellPct <= 100.0 && (if up then levels[j].trigger > 0.0 else levels[j].trigger < 0.0)
    {
      if (if up then levels[i].trigger <= 0.0 else levels[i].trigger >= 0.0) {
        return false;
      }
      if levels[i].sellPct <= 0.0 || levels[i].sellPct > 100.0 {
        return false;
      }
      sum := sum + levels[i].sellPct;
    }
    ok := sum <= 100.0;
  }

  // ---- price tests -----------------------------------------------------

  function Pnl(buyPrice: real, price: real): real
    requires buyPrice > 0.0
  {
    (price - buyPrice) / buyPrice * 100.0
  }

  predicate TrailingStopTriggered(watermark: real, buyPrice: real, price: real, bps: nat) {
    !(bps == 0 || watermark <= buyPrice || watermark <= 0.0) &&
    price <= watermark * (1.0 - bps as real / 10000.0)
  }

  function DrawdownBps(reference: real, current: real): real {
    if reference <= 0.0 || current >= reference then 0.0
    else (reference - current) / reference * 10000.0
  }

  predicate WithinRugWindow(age: int, window: nat) { 0 <= age <= window }

  /** The high-watermark written for a priced entry: the snapshot's peak or the new price. */
  function Peak(h: Holding, price: real): real {
    if h.watermark.Some? && h.watermark.value > price then h.watermark.value else price
  }

  /** The rug test of one entry; `liquidity` is the pool liquidity just read, if any. */
  predicate RugTriggered(cfg: Settings, h: Holding, price: real, age: int, liquidity: Option<real>) {
    var reference := if Peak(h, price) > h.buyPrice then Peak(h, price) else h.buyPrice;
    var entry := if h.entryLiquidity.Some? then h.entryLiquidity else liquidity;
    var liquidityDrop :=
      if entry.Some? && liquidity.Some? then DrawdownBps(entry.value, liquidity.value) else 0.0;
    && cfg.rugEnabled
    && WithinRugWindow(age, cfg.rugWindowSecs)
    && (|| DrawdownBps(reference, price) >= cfg.rugPriceDropBps as real
        || (&& liquidityDrop >= cfg.rugLiquidityDropBps as real
            && entry.Some? && entry.value > 0.0))
  }

  // ---- the price tests, multiplied out ---------------------------------

  /** A profit or loss of `t` percent is a price of `100 + t` hundredths of the buy price. */
  lemma PnlIff(buyPrice: real, price: real, t: real)
    requires buyPrice > 0.0
    ensures Pnl(buyPrice, price) >= t <==> 100.0 * price >= (100.0 + t) * buyPrice
    ensures Pnl(buyPrice, price) <= t <==> 100.0 * price <= (100.0 + t) * buyPrice
  {
    var pnl := Pnl(buyPrice, price);
    Rescale(price - buyPrice, buyPrice, 100.0);
    assert pnl * buyPrice == (price - buyPrice) * 100.0;
    Ordered(pnl, t, buyPrice);
  }

  lemma Rescale(a: real, b: real, k: real)
    requires b > 0.0
    ensures a / b * k * b == a * k
  {
    assert a / b * b == a;
    var q := a / b;
    assert q * k * b == q * b * k;
  }

  lemma Ordered(a: real, b: real, k: real)
    requires k > 0.0
    ensures a >= b <==> a * k >= b * k
    ensures a <= b <==> a * k <= b * k
  {
    assert (a - b) * k == a * k - b * k;
    if a > b {
      assert (a - b) * k > 0.0;
    } else if a < b {
      assert (b - a) * k > 0.0;
    }
  }

  /** Ten-thousandths: armed above the buy price, met at `bps` below the watermark. */
  lemma TrailingStopIff(watermark: real, buyPrice: real, price: real, bps: nat)
    ensures TrailingStopTriggered(watermark, buyPrice, price, bps)
            <==> && bps > 0 && watermark > buyPrice && watermark > 0.0
                 && 10000.0 * price <= (10000.0 - bps as real) * watermark
  {
    assert watermark * (1.0 - bps as real / 10000.0) * 10000.0 == (10000.0 - bps as real) * watermark;
  }

  /** `current` is at least `bps` ten-thousandths below a positive `reference`; zero asks for no fall at all. */
  predicate Fell(reference: real, current: real, bps: nat) {
    bps == 0 || (reference > 0.0 && 10000.0 * current <= (10000.0 - bps as real) * reference)
  }

  lemma DrawdownIff(reference: real, current: real, bps: nat)
    ensures DrawdownBps(reference, current) >= bps as real <==> Fell(reference, current, bps)
  {
    if reference > 0.0 {
      if current < reference {
        Rescale(reference - current, reference, 10000.0);
        Ordered(DrawdownBps(reference, current), bps as real, reference);
      } else if bps > 0 {
        assert bps as real * reference > 0.0;
      }
    }
  }

  /** The highest of the price, the buy price and the snapshot's watermark. */
  predicate IsHighest(x: real, h: Holding, price: real) {
    && x >= price && x >= h.buyPrice && (h.watermark.Some? ==> x >= h.watermark.value)
    && (x == price || x == h.buyPrice || h.watermark == Some(x))
  }

  /** The watermark a priced entry writes is the higher of the old one and the price. */
  lemma PeakIs(h: Holding, price: real)
    ensures Peak(h, price) >= price && (h.watermark.Some? ==> Peak(h, price) >= h.watermark.value)
    ensures Peak(h, price) == price || h.watermark == Some(Peak(h, price))
  {
  }

  /**
   * A rug is detected exactly inside the window, when the price fell far enough from
   * the highest price known, or the pool from a positive entry liquidity.
   */
  lemma RugIff(cfg: Settings, h: Holding, price: real, age: int, liquidity: Option<real>, highest: real)
    requires IsHighest(highest, h, price)
    ensures RugTriggered(cfg, h, price, age, liquidity)
            <==> && cfg.rugEnabled && 0 <= age <= cfg.rugWindowSecs
                 && (|| Fell(highest, price, cfg.rugPriceDropBps)
                     || (var entry := if h.entryLiquidity.Some? then h.entryLiquidity else liquidity;
                         && entry.Some? && entry.value > 0.0
                         && (cfg.rugLiquidityDropBps == 0
                             || (liquidity.Some? && Fell(entry.value, liquidity.value, cfg.rugLiquidityDropBps)))))
  {
    DrawdownIff(highest, price, cfg.rugPriceDropBps);
    var entry := if h.entryLiquidity.Some? then h.entryLiquidity else liquidity;
    if entry.Some? && liquidity.Some? {
      DrawdownIff(entry.value, liquidity.value, cfg.rugLiquidityDropBps);
    }
  }

  // ---- orders ----------------------------------------------------------

  /** `(pct / 100 * original) as u64`: floors, and saturates at zero. */
  function LevelAmount(pct: real, original: nat): nat {
    var tokens := (pct / 100.0 * original as real).Floor;
    if tokens < 0 then 0 else tokens
  }

  predicate Fires(levels: seq<Level>, i: nat, done: seq<nat>, pnl: real, original: nat, up: bool) {
    && i < |levels|
    && i !in done
    && (if up then pnl >= levels[i].trigger else pnl <= levels[i].trigger)
    && LevelAmount(levels[i].sellPct, original) > 0
  }

  predicate FirstToFire(levels: seq<Level>, i: nat, done: seq<nat>, pnl: real, original: nat, up: bool) {
    && Fires(levels, i, done, pnl, original, up)
    && forall j: nat | j < i :: !Fires(levels, j, done, pnl, original, up)
  }

  predicate NoneFires(levels: seq<Level>, done: seq<nat>, pnl: real, original: nat, up: bool) {
    forall j: nat | j < |levels| :: !Fires(levels, j, done, pnl, original, up)
  }

  /** Order for a level that fired: clamped to what the snapshot holds. */
  function LevelOrder(m: Mint, h: Holding, levels: seq<Level>, i: nat, reason: SellReason): SellOrder
    requires i < |levels|
  {
    var wanted := LevelAmount(levels[i].sellPct, h.original);
    var amount := if wanted < h.amount then wanted else h.amount;
    SellOrder(m, amount, reason, i, h.amount - amount == 0)
  }

  /** Trailing-stop and rug orders sell everything the snapshot holds. */
  function FullExit(m: Mint, h: Holding, reason: SellReason): SellOrder {
    SellOrder(m, h.amount, reason, 0, true)
  }

  /** Mirror order: the target's sold/bought ratio applied to the current holding. */
  function MirrorOrder(m: Mint, h: Holding, targetSold: Option<nat>): SellOrder {
    var amount :=
      if targetSold.Some? && h.targetTokens.Some? && h.targetTokens.value > 0 then
        var ratio := targetSold.value as real / h.targetTokens.value as real;
        var capped := if ratio < 1.0 then ratio else 1.0;
        var tokens := (h.amount as real * capped).Floor;
        var atLeastOne := if tokens < 1 then 1 else tokens;
        if atLeastOne < h.amount then atLeastOne else h.amount
      else h.amount;
    SellOrder(m, amount, MirrorSell, 0, amount >= h.amount)
  }

  /** Level `i` is due: not done, its trigger met by the price, its share at least one token. */
  predicate Due(levels: seq<Level>, i: nat, done: seq<nat>, buyPrice: real, price: real, original: nat, up: bool) {
    && i < |levels| && i !in done
    && (if up then 100.0 * price >= (100.0 + levels[i].trigger) * buyPrice
        else 100.0 * price <= (100.0 + levels[i].trigger) * buyPrice)
    && levels[i].sellPct * original as real >= 100.0
  }

  lemma FiresIff(levels: seq<Level>, i: nat, done: seq<nat>, buyPrice: real, price: real, original: nat, up: bool)
    requires buyPrice > 0.0
    ensures Fires(levels, i, done, Pnl(buyPrice, price), original, up)
            <==> Due(levels, i, done, buyPrice, price, original, up)
  {
    if i < |levels| {
      PnlIff(buyPrice, price, levels[i].trigger);
      assert levels[i].sellPct / 100.0 * original as real * 100.0 == levels[i].sellPct * original as real;
    }
  }

  /** The level that fires is the first one due, and none fires exactly when none is due. */
  lemma FirstToFireIff(levels: seq<Level>, done: seq<nat>, buyPrice: real, price: real, original: nat, up: bool)
    requires buyPrice > 0.0
    ensures forall i: nat ::
              (FirstToFire(levels, i, done, Pnl(buyPrice, price), original, up)
               <==> && Due(levels, i, done, buyPrice, price, original, up)
                    && (forall j: nat | j < i :: !Due(levels, j, done, buyPrice, price, original, up)))
    ensures NoneFires(levels, done, Pnl(buyPrice, price), original, up)
            <==> forall j: nat :: !Due(levels, j, done, buyPrice, price, original, up)
  {
    forall i: nat
      ensures Fires(levels, i, done, Pnl(buyPrice, price), original, up)
              <==> Due(levels, i, done, buyPrice, price, original, up)
    {
      FiresIff(levels, i, done, buyPrice, price, original, up);
    }
  }

  /**
   * An order for a level, take-profit or stop-loss: all that is held when its share of
   * the original is no less, otherwise that share floored; final exactly when it is all.
   */
  lemma LevelOrderIs(m: Mint, h: Holding, levels: seq<Level>, i: nat, reason: SellReason)
    requires i < |levels| && levels[i].sellPct >= 0.0
    ensures var o := LevelOrder(m, h, levels, i, reason);
            var share := levels[i].sellPct * h.original as real;
            && o.mint == m && o.reason == reason && o.level == i
            && (100.0 * h.amount as real <= share ==> o.amount == h.amount)
            && (share < 100.0 * h.amount as real ==>
                  100.0 * o.amount as real <= share < 100.0 * (o.amount as real + 1.0))
            && (o.isFinal <==> o.amount == h.amount)
  {
    assert levels[i].sellPct / 100.0 * h.original as real * 100.0 == levels[i].sellPct * h.original as real;
    assert levels[i].sellPct * h.original as real >= 0.0;
  }

  /**
   * A mirror order sells everything when the target sold all it bought or either figure
   * is missing; otherwise the same proportion of the holding, floored, but at least one.
   */
  lemma MirrorOrderIs(m: Mint, h: Holding, targetSold: Option<nat>)
    requires h.amount > 0
    ensures var o := MirrorOrder(m, h, targetSold);
            && o.mint == m && 1 <= o.amount <= h.amount && (o.isFinal <==> o.amount == h.amount)
            && (if targetSold.None? || h.targetTokens.None? || h.targetTokens.value <= targetSold.value
                then o.amount == h.amount
                else var tokens := h.amount * targetSold.value / h.targetTokens.value;
                     o.amount == if tokens == 0 then 1 else tokens)
  {
    if targetSold.Some? && h.targetTokens.Some? && h.targetTokens.value > targetSold.value {
      MirrorAmount(m, h, targetSold);
      QuotientBelow(h.amount, targetSold.value, h.targetTokens.value);
    } else {
      MirrorAll(m, h, targetSold);
    }
  }

  lemma MirrorAll(m: Mint, h: Holding, targetSold: Option<nat>)
    requires h.amount > 0
    requires targetSold.None? || h.targetTokens.None? || h.targetTokens.value <= targetSold.value
    ensures MirrorOrder(m, h, targetSold).amount == h.amount
  {
    if targetSold.Some? && h.targetTokens.Some? && h.targetTokens.value > 0 {
      RatioBelowOne(targetSold.value, h.targetTokens.value);
      assert (h.amount as real * 1.0).Floor == h.amount;
    }
  }

  lemma MirrorAmount(m: Mint, h: Holding, targetSold: Option<nat>)
    requires targetSold.Some? && h.targetTokens.Some? && h.targetTokens.value > targetSold.value
    ensures var tokens := h.amount * targetSold.value / h.targetTokens.value;
            var wanted := if tokens < 1 then 1 else tokens;
            MirrorOrder(m, h, targetSold).amount == if wanted < h.amount then wanted else h.amount
  {
    RatioBelowOne(targetSold.value, h.targetTokens.value);
    FloorOfRatio(h.amount, targetSold.value, h.targetTokens.value);
  }

  lemma QuotientBelow(amount: nat, sold: nat, bought: nat)
    requires sold < bought && amount > 0
    ensures 0 <= amount * sold / bought < amount
  {
    DivFloors(amount * sold, bought);
    MulMonotone(sold, bought - 1, amount);
    if amount * sold / bought >= amount {
      MulMonotone(amount, amount * sold / bought, bought);
      Distributes(amount, bought - 1, 1);
    }
  }

  lemma RatioBelowOne(sold: nat, bought: nat)
    requires bought > 0
    ensures sold as real / bought as real < 1.0 <==> sold < bought
  {
    var q := sold as real / bought as real;
    assert q * bought as real == sold as real;
    Ordered(q, 1.0, bought as real);
  }

  /** The floored product with a ratio is the quotient of integers. */
  lemma FloorOfRatio(amount: nat, sold: nat, bought: nat)
    requires bought > 0
    ensures (amount as real * (sold as real / bought as real)).Floor == amount * sold / bought
  {
    var b, k := bought as real, amount * sold / bought;
    var x := amount as real * (sold as real / b);
    assert sold as real / b * b == sold as real;
    assert x * b == amount as real * (sold as real / b * b);
    DivFloors(amount * sold, bought);
    RealProduct(amount, sold);
    RealProduct(k, bought);
    RealProduct(k + 1, bought);
    Ordered(x, k as real, b);
    Ordered(x, (k + 1) as real, b);
  }

  lemma RealProduct(a: nat, b: nat)
    ensures (a * b) as real == a as real * b as real
  {
  }

  /** The level loop: the first untriggered level whose trigger is met and whose amount is not zero. */
  method FindLevel(levels: seq<Level>, done: seq<nat>, pnl: real, original: nat, up: bool)
    returns (r: Option<nat>)
    ensures r.Some? ==> FirstToFire(levels, r.value, done, pnl, original, up)
    ensures r.None? ==> NoneFires(levels, done, pnl, original, up)
  {
    for i := 0 to |levels|
      invariant forall j: nat | j < i :: !Fires(levels, j, done, pnl, original, up)
    {
      if i in done {
        continue;
      }
      if (if up then pnl >= levels[i].trigger else pnl <= levels[i].trigger) {
        var amount := LevelAmount(levels[i].sellPct, original);
        if amount == 0 {
          continue;
        }
        return Some(i);
      }
    }
    return None;
  }

  // ---- what each locked section does to the book -----------------------

  function Pushed(levels: seq<nat>, i: nat): seq<nat> {
    if i in levels then levels else levels + [i]
  }

  function Reduced(h: Holding, sold: nat, reason: SellReason, level: nat): Holding {
    h.(pendingSell := false,
       amount := if sold <= h.amount then h.amount - sold else 0,
       tpDone := if reason.TakeProfit? then Pushed(h.tpDone, level) else h.tpDone,
       slDone := if reason.StopLoss? then Pushed(h.slDone, level) else h.slDone)
  }

  function AfterSell(ps: Book, m: Mint, sold: nat, reason: SellReason, level: nat): Book {
    if m !in ps then ps
    else
      var h := Reduced(ps[m], sold, reason, level);
      if h.amount == 0 then ps - {m} else ps[m := h]
  }

  function WithFlag(ps: Book, m: Mint, flag: bool): Book {
    if m in ps then ps[m := ps[m].(pendingSell := flag)] else ps
  }

  function WithMigrated(ps: Book, m: Mint): Book {
    if m in ps then ps[m := ps[m].(migrated := true)] else ps
  }

  function WithWatermark(ps: Book, m: Mint, w: real): Book {
    if m in ps then ps[m := ps[m].(watermark := Some(w))] else ps
  }

  function WithEntryLiquidity(ps: Book, m: Mint, liquidity: real): Book {
    if m in ps then ps[m := ps[m].(entryLiquidity := Some(liquidity))] else ps
  }

  /** Buy price weighted by the tokens bought at each price. */
  function AveragePrice(amount: nat, price: real, extra: nat, newPrice: real): real
    requires amount + extra > 0
  {
    (amount as real * price + extra as real * newPrice) / (amount + extra) as real
  }

  /** Accumulating keeps the cost basis: tokens times average price is the sum of both purchases. */
  lemma CostBasisKept(amount: nat, price: real, extra: nat, newPrice: real)
    requires amount + extra > 0
    ensures (amount + extra) as real * AveragePrice(amount, price, extra, newPrice)
         == amount as real * price + extra as real * newPrice
  {
    var total, cost := (amount + extra) as real, amount as real * price + extra as real * newPrice;
    assert total * (cost / total) == cost;
  }

  function Accumulated(ps: Book, m: Mint, extra: nat, price: real): Book {
    if m !in ps then ps
    else
      var h := ps[m];
      var total := h.amount + extra;
      ps[m := h.(
        buyPrice := if total > 0 then AveragePrice(h.amount, h.buyPrice, extra, price) else h.buyPrice,
        amount := total,
        original := total)]
  }

  lemma ZeroTimes(x: real, y: real)
    requires x == 0.0
    ensures x * y == 0.0
  {
  }

  /** On the books before and after: the cost of what is held grows by exactly the cost of what is added. */
  lemma AccumulatedCost(ps: Book, m: Mint, extra: nat, price: real)
    requires m in ps
    ensures var ps' := Accumulated(ps, m, extra, price);
            && m in ps'
            && ps'[m].amount as real * ps'[m].buyPrice == ps[m].amount as real * ps[m].buyPrice + extra as real * price
  {
    if ps[m].amount + extra == 0 {
      ZeroTimes(ps[m].amount as real, ps[m].buyPrice);
      ZeroTimes(extra as real, price);
      ZeroTimes((ps[m].amount + extra) as real, ps[m].buyPrice);
    } else {
      CostBasisKept(ps[m].amount, ps[m].buyPrice, extra, price);
    }
  }

  /** A completed buy; `targetTokens` is what the copied wallet bought. */
  datatype Fill = Fill(amount: nat, price: real, time: int, targetTokens: Option<nat>)

  function NewHolding(f: Fill): Holding {
    Holding(f.amount, f.amount, f.price, f.time, None, None, [], [], false, false, f.targetTokens)
  }

  /** The book once a buy is filled, accumulating if its mint was found held. */
  function Filled(ps: Book, m: Mint, holding: bool, f: Fill): Book {
    if holding then Accumulated(ps, m, f.amount, f.price) else ps[m := NewHolding(f)]
  }

  function AcquireOutcome(ps: Book, pending: set<Mint>, m: Mint, allowAccumulate: bool): AcquireResult {
    if m in ps && !allowAccumulate then AlreadyHolding
    else if m in pending then Busy
    else Acquired
  }

  /** Shared monitor state; each method is one section under the source's locks. */
  class PositionMonitor {
    var positions: Book
    var pendingBuys: set<Mint>

    constructor (loaded: Book)
      ensures positions == loaded && pendingBuys == {}
    {
      positions, pendingBuys := loaded, {};
    }

    method TryAcquireBuy(m: Mint, allowAccumulate: bool) returns (r: AcquireResult)
      modifies this`pendingBuys
      ensures r == AcquireOutcome(positions, old(pendingBuys), m, allowAccumulate)
      ensures pendingBuys == if r == Acquired then old(pendingBuys) + {m} else old(pendingBuys)
    {
      var alreadyHolding := m in positions;
      if alreadyHolding && !allowAccumulate {
        return AlreadyHolding;
      }
      if m in pendingBuys {
        return Busy;
      }
      pendingBuys := pendingBuys + {m};
      return Acquired;
    }

    method ReleaseBuy(m: Mint)
      modifies this`pendingBuys
      ensures pendingBuys == old(pendingBuys) - {m}
    {
      pendingBuys := pendingBuys - {m};
    }

    method AddPosition(m: Mint, h: Holding)
      modifies this`positions
      ensures positions == old(positions)[m := h]
    {
      positions := positions[m := h];
    }

    method AccumulatePosition(m: Mint, extra: nat, price: real)
      modifies this`positions
      ensures positions == Accumulated(old(positions), m, extra, price)
      ensures positions.Keys == old(positions).Keys
      ensures forall x | x in positions && x != m :: positions[x] == old(positions)[x]
      ensures m in positions ==>
                var h, h' := old(positions)[m], positions[m];
                && h'.amount == h.amount + extra && h'.original == h.amount + extra
                && h'.amount as real * h'.buyPrice
                   == h.amount as real * h.buyPrice + extra as real * price
                && h' == h.(amount := h'.amount, original := h'.original, buyPrice := h'.buyPrice)
    {
      if m in positions {
        AccumulatedCost(positions, m, extra, price);
        var h := positions[m];
        var combined := h.amount + extra;
        if combined > 0 {
          h := h.(buyPrice := AveragePrice(h.amount, h.buyPrice, extra, price));
        }
        h := h.(amount := combined);
        h := h.(original := combined);
        positions := positions[m := h];
      }
    }

    method UpdateAfterSell(m: Mint, sold: nat, reason: SellReason, level: nat)
      modifies this`positions
      ensures positions == AfterSell(old(positions), m, sold, reason, level)
    {
      if m in positions {
        var h := positions[m].(pendingSell := false);
        h := h.(amount := if h.amount >= sold then h.amount - sold else 0);
        match reason {
          case TakeProfit =>
            if level !in h.tpDone {
              h := h.(tpDone := h.tpDone + [level]);
            }
          case StopLoss =>
            if level !in h.slDone {
              h := h.(slDone := h.slDone + [level]);
            }
          case _ =>
        }
        if h.amount == 0 {
          positions := positions - {m};
        } else {
          positions := positions[m := h];
        }
      }
    }

    method SetPendingSell(m: Mint, flag: bool)
      modifies this`positions
      ensures positions == WithFlag(old(positions), m, flag)
    {
      if m in positions {
        positions := positions[m := positions[m].(pendingSell := flag)];
      }
    }

    method MarkMigrated(m: Mint)
      modifies this`positions
      ensures positions == WithMigrated(old(positions), m)
    {
      if m in positions && !positions[m].migrated {
        positions := positions[m := positions[m].(migrated := true)];
      }
    }
  }
}
