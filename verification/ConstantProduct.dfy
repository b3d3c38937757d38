/**
 * Constant-product quotes of Raydium V4 (src/raydium_v4.rs:180-208) and CPMM
 * (src/raydium_cpmm.rs:137-161). `u64` products and differences wrap, as in a
 * release build; `u128` intermediates cannot overflow.
 */
module ConstantProduct {
  import opened Arithmetic

  const U64: nat := 0x1_0000_0000_0000_0000
  type u64 = x: nat | x < 0x1_0000_0000_0000_0000

  function Wrap(x: int): u64 { x % U64 }

  function Minus(a: nat, b: nat): nat { if b <= a then a - b else 0 }

  /** The 0.25% fee as computed, and what is left of the input. */
  function Fee(amountIn: u64): nat { Wrap(amountIn * 25) / 10000 }
  function AfterFee(amountIn: u64): nat { Minus(amountIn, Fee(amountIn)) }

  function Share(reserveIn: nat, reserveOut: nat, a: nat): nat
    requires reserveIn + a > 0
  {
    reserveOut * a / (reserveIn + a)
  }

  function MinOut(out: nat, slippageBps: u64): nat { Wrap(out * Wrap(10000 - slippageBps)) / 10000 }

  function QuoteV4(coin: u64, pc: u64, baseIn: bool, amountIn: u64, slippageBps: u64): (nat, nat) {
    var a := AfterFee(amountIn);
    var (reserveIn, reserveOut) := if baseIn then (coin, pc) else (pc, coin);
    var out := if reserveIn > 0 then Wrap(Share(reserveIn, reserveOut, a)) else 0;
    (out, MinOut(out, slippageBps))
  }

  function QuoteCpmm(reserve0: u64, reserve1: u64, baseIn: bool, amountIn: u64, slippageBps: u64): (nat, nat) {
    var a := AfterFee(amountIn);
    var (reserveIn, reserveOut) := if baseIn then (reserve0, reserve1) else (reserve1, reserve0);
    var out := if reserveIn + a > 0 then Wrap(Share(reserveIn, reserveOut, a)) else 0;
    (out, MinOut(out, slippageBps))
  }

  // ---- against unbounded arithmetic ------------------------------------

  lemma WrapExactIff(x: nat)
    ensures Wrap(x) / 10000 == x / 10000 <==> x < U64
  {
    if x >= U64 {
      assert Wrap(x) + U64 <= x;
    }
  }

  /** The computed fee is the real 0.25% exactly when `amount_in * 25` fits in 64 bits. */
  lemma FeeExactIff(amountIn: u64)
    ensures Fee(amountIn) == amountIn * 25 / 10000 <==> amountIn * 25 < 0x1_0000_0000_0000_0000
  {
    WrapExactIff(amountIn * 25);
  }

  /** With a slippage of at most 100%, the minimum is exact exactly when its product fits in 64 bits. */
  lemma MinOutExactIff(out: nat, slippageBps: u64)
    requires slippageBps <= 10000
    ensures MinOut(out, slippageBps) == out * (10000 - slippageBps) / 10000 
            <==> out * (10000 - slippageBps) < 0x1_0000_0000_0000_0000
  {
    assert Wrap(10000 - slippageBps) == 10000 - slippageBps;
    WrapExactIff(out * (10000 - slippageBps));
  }

  /** The fee is what the rest lacks; while it is exact it is 25 of 10000, floored. */
  lemma FeeLeavesRest(amountIn: u64)
    ensures AfterFee(amountIn) + Fee(amountIn) == amountIn
    ensures amountIn * 25 < 0x1_0000_0000_0000_0000 ==>
              var fee := amountIn - AfterFee(amountIn); 10000 * fee <= 25 * amountIn < 10000 * (fee + 1)
  {
    WrapWithin(amountIn * 25);
  }

  /** Paying out `x` for `a` keeps the product of the reserves. */
  predicate KeepsProduct(reserveIn: nat, reserveOut: nat, a: nat, x: int) {
    (reserveIn + a) * (reserveOut - x) >= reserveIn * reserveOut
  }

  predicate IsLargest(reserveIn: nat, reserveOut: nat, a: nat, x: nat) {
    KeepsProduct(reserveIn, reserveOut, a, x) && !KeepsProduct(reserveIn, reserveOut, a, x + 1)
  }

  lemma LargestIsLargest(reserveIn: nat, reserveOut: nat, a: nat, x: nat)
    requires reserveIn + a > 0 && IsLargest(reserveIn, reserveOut, a, x)
    ensures forall y: int | KeepsProduct(reserveIn, reserveOut, a, y) :: y <= x
  {
    forall y: int | KeepsProduct(reserveIn, reserveOut, a, y) ensures y <= x {
      if y > x {
        MulMonotone(reserveOut - y, reserveOut - (x + 1), reserveIn + a);
      }
    }
  }

  lemma ShareIsLargest(reserveIn: nat, reserveOut: nat, a: nat)
    requires reserveIn + a > 0
    ensures IsLargest(reserveIn, reserveOut, a, Share(reserveIn, reserveOut, a))
  {
    var x, total := Share(reserveIn, reserveOut, a), reserveIn + a;
    DivFloors(reserveOut * a, total);
    assert total * (reserveOut - x) == reserveIn * reserveOut + reserveOut * a - x * total;
    assert total * (reserveOut - (x + 1)) == reserveIn * reserveOut + reserveOut * a - (x + 1) * total;
  }

  /**
   * Both copies quote, on an input side above zero, the largest output that keeps the
   * product of the reserves once the amount after fee is paid in.
   */
  lemma QuotesAreLargest(r0: u64, r1: u64, baseIn: bool, amountIn: u64, slippageBps: u64)
    requires (if baseIn then r0 else r1) > 0
    ensures var (reserveIn, reserveOut) := if baseIn then (r0, r1) else (r1, r0);
            var a := AfterFee(amountIn);
            && IsLargest(reserveIn, reserveOut, a, QuoteV4(r0, r1, baseIn, amountIn, slippageBps).0)
            && IsLargest(reserveIn, reserveOut, a, QuoteCpmm(r0, r1, baseIn, amountIn, slippageBps).0)
            && (forall y: int | KeepsProduct(reserveIn, reserveOut, a, y) ::
                  y <= QuoteV4(r0, r1, baseIn, amountIn, slippageBps).0)
  {
    var (reserveIn, reserveOut) := if baseIn then (r0, r1) else (r1, r0);
    var a := AfterFee(amountIn);
    ShareIsLargest(reserveIn, reserveOut, a);
    ShareBounds(reserveIn, reserveOut, a);
    WrapSmall(Share(reserveIn, reserveOut, a));
    LargestIsLargest(reserveIn, reserveOut, a, Share(reserveIn, reserveOut, a));
  }

  /** An empty input side quotes nothing under V4. */
  lemma EmptySideQuotesNothing(r0: u64, r1: u64, baseIn: bool, amountIn: u64, slippageBps: u64)
    requires (if baseIn then r0 else r1) == 0
    ensures QuoteV4(r0, r1, baseIn, amountIn, slippageBps) == (0, 0)
  {
  }

  /** The quote in unbounded arithmetic. */
  function ExactQuote(coin: nat, pc: nat, baseIn: bool, amountIn: nat, slippageBps: nat): (nat, nat)
    requires slippageBps <= 10000
  {
    var a := Minus(amountIn, amountIn * 25 / 10000);
    var (reserveIn, reserveOut) := if baseIn then (coin, pc) else (pc, coin);
    var out := if reserveIn > 0 then Share(reserveIn, reserveOut, a) else 0;
    (out, out * (10000 - slippageBps) / 10000)
  }

  /** Once the fee product fits in 64 bits, the whole quote is the unbounded one exactly when the minimum's product fits. */
  lemma QuoteExactIff(coin: u64, pc: u64, baseIn: bool, amountIn: u64, slippageBps: u64)
    requires slippageBps <= 10000 && amountIn * 25 < 0x1_0000_0000_0000_0000
    ensures var exact := ExactQuote(coin, pc, baseIn, amountIn, slippageBps);
            && QuoteV4(coin, pc, baseIn, amountIn, slippageBps).0 == exact.0
            && (QuoteV4(coin, pc, baseIn, amountIn, slippageBps) == exact
                <==> exact.0 * (10000 - slippageBps) < 0x1_0000_0000_0000_0000)
  {
    FeeExactIff(amountIn);
    var (reserveIn, reserveOut) := if baseIn then (coin, pc) else (pc, coin);
    var a := AfterFee(amountIn);
    if reserveIn > 0 {
      ShareBounds(reserveIn, reserveOut, a);
      WrapSmall(Share(reserveIn, reserveOut, a));
    }
    MinOutExactIff(ExactQuote(coin, pc, baseIn, amountIn, slippageBps).0, slippageBps);
  }

  // ---- slippage above 100% ---------------------------------------------

  /** What `out * (slippage - 10000)` leaves of the last 64-bit lap. */
  function Excess(out: u64, slippageBps: u64): nat
    requires slippageBps > 10000
  {
    out * (slippageBps - 10000) % U64
  }

  /** Above 100% the wrapped product counts down from 2^64. */
  lemma ExcessWraps(out: u64, slippageBps: u64)
    requires slippageBps > 10000
    ensures var e := Excess(out, slippageBps);
            Wrap(out * Wrap(10000 - slippageBps)) == if e == 0 then 0 else U64 - e
  {
    var x := slippageBps - 10000;
    assert Wrap(10000 - slippageBps) == U64 - x;
    var q, e := out * x / U64, Excess(out, slippageBps);
    assert out * x == q * U64 + e;
    assert out * (U64 - x) == (out - q) * U64 - e;
    Laps(out - q, e);
  }

  lemma Laps(n: int, e: nat)
    requires e < U64
    ensures Wrap(n * U64 - e) == if e == 0 then 0 else U64 - e
  {
    var r := if e == 0 then 0 else U64 - e;
    var k := if e == 0 then n else n - 1;
    assert n * U64 - e == k * U64 + r;
  }

  /**
   * The minimum is above the quoted output, which no swap can meet, exactly when the
   * slippage is above 100% and its excess stops short of 2^64 by at least 10000 times
   * one more than the output.
   */
  lemma MinOutUnmeetableIff(out: u64, slippageBps: u64)
    ensures MinOut(out, slippageBps) > out
            <==> && slippageBps > 10000
                 && var e := out * (slippageBps - 10000) % 0x1_0000_0000_0000_0000;
                    0 < e && e + 10000 * (out + 1) <= 0x1_0000_0000_0000_0000
  {
    if slippageBps > 10000 {
      ExcessWraps(out, slippageBps);
    } else {
      MinOutWithin(out, slippageBps);
    }
  }

  /** Up to 100% the minimum never exceeds the output. */
  lemma MinOutWithin(out: u64, slippageBps: u64)
    requires slippageBps <= 10000
    ensures MinOut(out, slippageBps) <= out
  {
    assert Wrap(10000 - slippageBps) == 10000 - slippageBps;
    MulMonotone(10000 - slippageBps, 10000, out);
    WrapWithin(out * (10000 - slippageBps));
  }

  lemma WrapWithin(x: nat)
    ensures Wrap(x) <= x
  {
  }

  /** As long as the product wraps only once, the minimum is unmeetable exactly while it fits with a margin of 10000. */
  lemma OneLapUnmeetableIff(out: u64, slippageBps: u64)
    requires slippageBps > 10000 && out > 0 && out * (slippageBps - 10000) <= 0x1_0000_0000_0000_0000
    ensures MinOut(out, slippageBps) > out <==> out * slippageBps + 10000 <= 0x1_0000_0000_0000_0000
  {
    MinOutUnmeetableIff(out, slippageBps);
    MulPositive(out, slippageBps - 10000);
    Distributes(out, slippageBps - 10000, 10000);
    var p := out * (slippageBps - 10000);
    assert Excess(out, slippageBps) == if p == U64 then 0 else p;
  }

  /** Above 100% there is no minimum at all exactly when the excess is zero or in the last 10000 of its lap. */
  lemma MinOutZeroIff(out: u64, slippageBps: u64)
    requires slippageBps > 10000
    ensures MinOut(out, slippageBps) == 0
            <==> var e := out * (slippageBps - 10000) % 0x1_0000_0000_0000_0000;
                 e == 0 || e > 0x1_0000_0000_0000_0000 - 10000
  {
    ExcessWraps(out, slippageBps);
  }

  lemma ShareBounds(reserveIn: nat, reserveOut: nat, a: nat)
    requires reserveIn + a > 0
    ensures Share(reserveIn, reserveOut, a) * (reserveIn + a) <= reserveOut * a
    ensures Share(reserveIn, reserveOut, a) <= reserveOut
    ensures reserveIn > 0 && reserveOut > 0 ==> Share(reserveIn, reserveOut, a) < reserveOut
  {
    var out, total := Share(reserveIn, reserveOut, a), reserveIn + a;
    DivFloors(reserveOut * a, total);
    assert reserveOut * a == reserveOut * total - reserveOut * reserveIn;
    if out > reserveOut {
      MulMonotone(reserveOut + 1, out, total);
    }
    if reserveIn > 0 && reserveOut > 0 {
      MulPositive(reserveOut, reserveIn);
      if out >= reserveOut {
        MulMonotone(reserveOut, out, total);
      }
    }
  }

  /** The two copies agree unless CPMM is asked about an empty input side: then it quotes the whole other side. */
  lemma CpmmAgreesIff(r0: u64, r1: u64, baseIn: bool, amountIn: u64, slippageBps: u64)
    ensures var reserveIn := if baseIn then r0 else r1;
            var reserveOut := if baseIn then r1 else r0;
            && (QuoteCpmm(r0, r1, baseIn, amountIn, slippageBps) == QuoteV4(r0, r1, baseIn, amountIn, slippageBps)
                <==> reserveIn > 0 || AfterFee(amountIn) == 0 || reserveOut == 0)
            && (reserveIn == 0 && AfterFee(amountIn) > 0 ==>
                  QuoteCpmm(r0, r1, baseIn, amountIn, slippageBps).0 == reserveOut)
  {
    var reserveIn := if baseIn then r0 else r1;
    var reserveOut := if baseIn then r1 else r0;
    var a := AfterFee(amountIn);
    var cpmm, v4 := QuoteCpmm(r0, r1, baseIn, amountIn, slippageBps), QuoteV4(r0, r1, baseIn, amountIn, slippageBps);
    if reserveIn > 0 || a == 0 {
      assert cpmm == v4;
    } else {
      EmptySide(reserveOut, a);
      assert v4.0 == 0 && cpmm.0 == reserveOut;
    }
  }

  lemma EmptySide(reserveOut: u64, a: nat)
    requires a > 0
    ensures Wrap(Share(0, reserveOut, a)) == reserveOut
  {
    ProductDividesBack(reserveOut, a);
  }

  // ---- trade sequences -------------------------------------------------

  datatype Pool = Pool(coin: u64, pc: u64)

  /** One swap; `kept` is the part of the input the pool keeps, from the amount after fee up to all of it. */
  datatype Swap = Swap(baseIn: bool, amountIn: u64, kept: nat)

  predicate Feasible(p: Pool, t: Swap) {
    && AfterFee(t.amountIn) <= t.kept <= t.amountIn
    && (if t.baseIn then p.coin else p.pc) + t.kept < U64
  }

  predicate Live(p: Pool) { p.coin > 0 && p.pc > 0 }

  /** On a live pool the truncating casts are exact: the quote is the share, below the reserve. */
  lemma QuoteIsShare(p: Pool, baseIn: bool, amountIn: u64)
    requires Live(p)
    ensures var reserveIn := if baseIn then p.coin else p.pc;
            var reserveOut := if baseIn then p.pc else p.coin;
            var out := QuoteV4(p.coin, p.pc, baseIn, amountIn, 0).0;
            out == Share(reserveIn, reserveOut, AfterFee(amountIn)) && out < reserveOut
  {
    var reserveIn := if baseIn then p.coin else p.pc;
    var reserveOut := if baseIn then p.pc else p.coin;
    ShareBounds(reserveIn, reserveOut, AfterFee(amountIn));
    WrapSmall(Share(reserveIn, reserveOut, AfterFee(amountIn)));
  }

  lemma WrapSmall(x: nat)
    requires x < U64
    ensures Wrap(x) == x
  {
  }

  function AfterSwap(p: Pool, t: Swap): (r: Pool)
    requires Live(p) && Feasible(p, t)
    ensures Live(r)
  {
    var out := QuoteV4(p.coin, p.pc, t.baseIn, t.amountIn, 0).0;
    QuoteIsShare(p, t.baseIn, t.amountIn);
    if t.baseIn then Pool(p.coin + t.kept, p.pc - out) else Pool(p.coin - out, p.pc + t.kept)
  }

  predicate AllFeasible(p: Pool, ts: seq<Swap>)
    requires Live(p)
    decreases |ts|
  {
    ts == [] || (Feasible(p, ts[0]) && AllFeasible(AfterSwap(p, ts[0]), ts[1..]))
  }

  function AfterAll(p: Pool, ts: seq<Swap>): (r: Pool)
    requires Live(p) && AllFeasible(p, ts)
    ensures Live(r)
    decreases |ts|
  {
    if ts == [] then p else AfterAll(AfterSwap(p, ts[0]), ts[1..])
  }

  lemma ShareKeepsProduct(reserveIn: nat, reserveOut: nat, a: nat, kept: nat)
    requires reserveIn > 0 && reserveOut > 0 && a <= kept
    ensures var out := Share(reserveIn, reserveOut, a);
            out < reserveOut && (reserveIn + kept) * (reserveOut - out) >= reserveIn * reserveOut
  {
    var out := Share(reserveIn, reserveOut, a);
    ShareBounds(reserveIn, reserveOut, a);
    assert (reserveIn + a) * (reserveOut - out) == reserveIn * reserveOut + (reserveOut * a - out * (reserveIn + a));
    MulMonotone(reserveIn + a, reserveIn + kept, reserveOut - out);
  }

  lemma SwapKeepsProduct(p: Pool, t: Swap)
    requires Live(p) && Feasible(p, t)
    ensures AfterSwap(p, t).coin * AfterSwap(p, t).pc >= p.coin * p.pc
  {
    QuoteIsShare(p, t.baseIn, t.amountIn);
    var q := AfterSwap(p, t);
    if t.baseIn {
      ShareKeepsProduct(p.coin, p.pc, AfterFee(t.amountIn), t.kept);
    } else {
      ShareKeepsProduct(p.pc, p.coin, AfterFee(t.amountIn), t.kept);
      assert q.pc * q.coin >= p.pc * p.coin;
      Commutes(q.pc, q.coin);
      Commutes(p.pc, p.coin);
    }
  }

  /** No sequence of V4 quotes, in any direction or order, lowers the product or empties a side. */
  lemma {:induction false} ProductNeverFalls(p: Pool, ts: seq<Swap>)
    requires Live(p) && AllFeasible(p, ts)
    ensures Live(AfterAll(p, ts)) && AfterAll(p, ts).coin * AfterAll(p, ts).pc >= p.coin * p.pc
    decreases |ts|
  {
    if ts != [] {
      SwapKeepsProduct(p, ts[0]);
      ProductNeverFalls(AfterSwap(p, ts[0]), ts[1..]);
    }
  }

  /** No round trip profits: when one side is back where it started or lower, the other has not shrunk. */
  lemma NoRoundTripProfit(p: Pool, ts: seq<Swap>)
    requires Live(p) && AllFeasible(p, ts)
    ensures AfterAll(p, ts).coin <= p.coin ==> AfterAll(p, ts).pc >= p.pc
    ensures AfterAll(p, ts).pc <= p.pc ==> AfterAll(p, ts).coin >= p.coin
  {
    ProductNeverFalls(p, ts);
    NotBothShrink(p, AfterAll(p, ts));
  }

  lemma NotBothShrink(p: Pool, q: Pool)
    requires Live(p) && q.coin * q.pc >= p.coin * p.pc
    ensures q.coin <= p.coin ==> q.pc >= p.pc
    ensures q.pc <= p.pc ==> q.coin >= p.coin
  {
    if q.coin <= p.coin && q.pc < p.pc {
      MulMonotone(q.coin, p.coin, q.pc);
      MulMonotone(q.pc + 1, p.pc, p.coin);
    }
    if q.pc <= p.pc && q.coin < p.coin {
      MulMonotone(q.pc, p.pc, q.coin);
      MulMonotone(q.coin + 1, p.coin, p.pc);
    }
  }
}
