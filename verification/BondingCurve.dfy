/** The bonding-curve quote of a buy (src/buyer.rs:130-141). */
module BondingCurve {
  import opened Arithmetic

  datatype Curve = Curve(sol: nat, tokens: nat, available: nat)

  /** Tokens for `pay` lamports before the cap: the curve rounds against the buyer and saturates at zero. */
  function Quote(c: Curve, pay: nat): nat
    requires c.sol + pay > 0
  {
    var r := c.sol * c.tokens / (c.sol + pay) + 1;
    if r <= c.tokens then c.tokens - r else 0
  }

  /** Capped by the tokens the curve really has left. */
  function ExactTokens(c: Curve, pay: nat): nat
    requires c.sol + pay > 0
  {
    if Quote(c, pay) < c.available then Quote(c, pay) else c.available
  }

  /** Buying `s` tokens leaves the curve's product above where it was. */
  predicate Affordable(c: Curve, pay: nat, s: int) {
    (c.tokens - s) * (c.sol + pay) > c.sol * c.tokens
  }

  lemma QuotientBelow(sol: nat, tokens: nat, pay: nat)
    requires pay >= 1 && tokens >= 1
    ensures sol * tokens / (sol + pay) < tokens
  {
    var q := sol * tokens / (sol + pay);
    DivFloors(sol * tokens, sol + pay);
    assert tokens * (sol + pay) == sol * tokens + tokens * pay;
    MulMonotone(1, tokens, pay);
    if q >= tokens {
      MulMonotone(tokens, q, sol + pay);
    }
  }

  /** The quote is the largest number of tokens that leaves the product above where it was. */
  lemma QuoteIsOptimal(c: Curve, pay: nat)
    requires pay >= 1 && c.tokens >= 1
    ensures Affordable(c, pay, Quote(c, pay))
    ensures (c.tokens - Quote(c, pay)) * (c.sol + pay) > c.sol * c.tokens
    ensures (c.tokens - Quote(c, pay) - 1) * (c.sol + pay) <= c.sol * c.tokens
    ensures forall s: int | Affordable(c, pay, s) :: s <= Quote(c, pay)
  {
    var d, n := c.sol + pay, c.sol * c.tokens;
    var r := n / d + 1;
    DivFloors(n, d);
    QuotientBelow(c.sol, c.tokens, pay);
    forall s: int | Affordable(c, pay, s) ensures s <= Quote(c, pay) {
      if s > Quote(c, pay) {
        MulMonotone(c.tokens - s, r - 1, d);
      }
    }
  }

  /** What is bought is the largest affordable amount the curve has left. */
  lemma TokensAreOptimal(c: Curve, pay: nat)
    requires pay >= 1 && c.tokens >= 1
    ensures var t := ExactTokens(c, pay);
            && t <= c.available && Affordable(c, pay, t)
            && forall s: nat | s <= c.available && Affordable(c, pay, s) :: s <= t
  {
    QuoteIsOptimal(c, pay);
    FewerAffordable(c, pay, ExactTokens(c, pay), Quote(c, pay));
  }

  lemma FewerAffordable(c: Curve, pay: nat, fewer: nat, s: nat)
    requires fewer <= s && Affordable(c, pay, s)
    ensures Affordable(c, pay, fewer)
  {
    MulMonotone(c.tokens - s, c.tokens - fewer, c.sol + pay);
  }

  /** A payment of nothing buys nothing. */
  lemma NoPaymentNoTokens(c: Curve)
    requires c.sol > 0
    ensures Quote(c, 0) == 0
  {
    Commutes(c.sol, c.tokens);
    ProductDividesBack(c.tokens, c.sol);
  }

  // ---- splitting a buy -------------------------------------------------

  function AfterBuy(c: Curve, pay: nat): Curve
    requires pay >= 1
  {
    var t := ExactTokens(c, pay);
    Curve(c.sol + pay, c.tokens - t, c.available - t)
  }

  function Paid(pays: seq<nat>): nat { if pays == [] then 0 else pays[0] + Paid(pays[1..]) }

  predicate AllPositive(pays: seq<nat>) { forall i | 0 <= i < |pays| :: pays[i] >= 1 }

  /** Tokens bought by paying the pieces one after another on the updated curve. */
  function Bought(c: Curve, pays: seq<nat>): nat
    requires AllPositive(pays)
    decreases |pays|
  {
    if pays == [] then 0 else ExactTokens(c, pays[0]) + Bought(AfterBuy(c, pays[0]), pays[1..])
  }

  lemma BuyKeepsProduct(c: Curve, pay: nat)
    requires pay >= 1 && c.tokens >= 1
    ensures ExactTokens(c, pay) < c.tokens
    ensures AfterBuy(c, pay).sol * AfterBuy(c, pay).tokens > c.sol * c.tokens
  {
    QuoteIsOptimal(c, pay);
    MulMonotone(c.tokens - Quote(c, pay), c.tokens - ExactTokens(c, pay), c.sol + pay);
    assert (c.tokens - Quote(c, pay)) * (c.sol + pay) > 0;
  }

  lemma {:induction false} SplitIsAffordable(c: Curve, pays: seq<nat>)
    requires c.tokens >= 1 && AllPositive(pays) && pays != []
    ensures Bought(c, pays) <= c.available
    ensures Affordable(c, Paid(pays), Bought(c, pays))
    decreases |pays|
  {
    BuyKeepsProduct(c, pays[0]);
    var next := AfterBuy(c, pays[0]);
    if |pays| > 1 {
      SplitIsAffordable(next, pays[1..]);
      assert c.sol + Paid(pays) == next.sol + Paid(pays[1..]);
    } else {
      assert Paid(pays) == pays[0] && Bought(c, pays) == ExactTokens(c, pays[0]);
    }
  }

  /** Splitting a buy into consecutive smaller ones never yields more tokens, capped or not. */
  lemma SplittingNeverPays(c: Curve, pays: seq<nat>)
    requires c.tokens >= 1 && AllPositive(pays) && pays != []
    ensures Paid(pays) >= 1 && Bought(c, pays) <= ExactTokens(c, Paid(pays))
  {
    SplitIsAffordable(c, pays);
    QuoteIsOptimal(c, Paid(pays));
  }

  // ---- the haircut -----------------------------------------------------

  /** 90% of the exact amount, but at least 1000 base units. */
  function SafeAmount(exact: nat): nat { if exact * 9 / 10 > 1000 then exact * 9 / 10 else 1000 }

  /** The order is nine tenths of the exact amount, floored, unless that is below 1000. */
  lemma SafeAmountIsNineTenths(exact: nat)
    ensures 10 * 1000 <= 9 * exact ==> 10 * SafeAmount(exact) <= 9 * exact < 10 * (SafeAmount(exact) + 1)
    ensures 9 * exact < 10 * 1000 ==> SafeAmount(exact) == 1000
  {
  }

  /** The floor of 1000 overrides the safety margin: the order stays within the quote only from 1000 units up. */
  lemma HaircutWithinQuoteIff(exact: nat)
    ensures SafeAmount(exact) <= exact <==> exact >= 1000
  {
  }
}
