/**
 * The market overview card (src/components/MarketInfo.tsx): the dollar totals
 * supplied and borrowed over the market table and the utilization rate.
 */
module MarketInfo {
  import opened Reduce
  import opened EthereumUtils

  /** "Total Supply": each row's supplied amount at its price, summed from 0. */
  function TotalDeposited(tokens: seq<Token>): (total: real)
    ensures tokens == [] ==> total == 0.0
    ensures |tokens| == 1 ==> total == tokens[0].totalDeposited * tokens[0].price
  {
    SumOf(tokens, (t: Token) => t.totalDeposited * t.price)
  }

  /** "Total Borrowed": each row's borrowed amount at its price, summed from 0. */
  function TotalBorrowed(tokens: seq<Token>): (total: real)
    ensures tokens == [] ==> total == 0.0
    ensures |tokens| == 1 ==> total == tokens[0].totalBorrowed * tokens[0].price
  {
    SumOf(tokens, (t: Token) => t.totalBorrowed * t.price)
  }

  /** Borrowed over supplied, as a percentage; the source has no guard against an empty market. */
  function UtilizationRate(tokens: seq<Token>): (rate: real)
    requires TotalDeposited(tokens) > 0.0
    ensures rate * TotalDeposited(tokens) == TotalBorrowed(tokens) * 100.0
  {
    (TotalBorrowed(tokens) / TotalDeposited(tokens)) * 100.0
  }

  /** Whether every row has a non-negative price and borrows no more than is supplied. */
  predicate WellFormedMarket(tokens: seq<Token>) {
    forall i :: 0 <= i < |tokens| ==>
      tokens[i].price >= 0.0 && 0.0 <= tokens[i].totalBorrowed <= tokens[i].totalDeposited
  }

  /** The totals of a market where no row borrows more than it supplies satisfy 0 <= borrowed <= supplied. */
  lemma TotalsOrdered(tokens: seq<Token>)
    requires WellFormedMarket(tokens)
    ensures 0.0 <= TotalBorrowed(tokens) <= TotalDeposited(tokens)
  {
    var borrowed := (t: Token) => t.totalBorrowed * t.price;
    var deposited := (t: Token) => t.totalDeposited * t.price;
    forall i | 0 <= i < |tokens|
      ensures 0.0 <= borrowed(tokens[i]) <= deposited(tokens[i])
    {
      var t := tokens[i];
      assert t.totalBorrowed * t.price <= t.totalDeposited * t.price;
    }
    SumOfNonNegative(tokens, borrowed);
    SumOfMonotone(tokens, borrowed, deposited);
  }

  /** In such a market the utilization rate is a percentage in [0, 100]. */
  lemma UtilizationIsPercentage(tokens: seq<Token>)
    requires WellFormedMarket(tokens)
    requires TotalDeposited(tokens) > 0.0
    ensures 0.0 <= UtilizationRate(tokens) <= 100.0
  {
    TotalsOrdered(tokens);
    ShareOfWholeIsPercentage(TotalBorrowed(tokens), TotalDeposited(tokens));
  }

  /** A part between 0 and the whole, as a percentage of the whole, lies in [0, 100]. */
  lemma ShareOfWholeIsPercentage(part: real, whole: real)
    requires 0.0 <= part <= whole && whole > 0.0
    ensures 0.0 <= (part / whole) * 100.0 <= 100.0
  {
    assert part / whole <= 1.0 by {
      assert part / whole * whole == part;
    }
  }

  /** The card's figures for the hard-coded table: $16,750,000 supplied, $11,750,000 borrowed. */
  lemma MockMarketTotals()
    ensures TotalDeposited(Tokens) == 16750000.0
    ensures TotalBorrowed(Tokens) == 11750000.0
    ensures UtilizationRate(Tokens) == 11.75 / 16.75 * 100.0
  {
    var deposited := (t: Token) => t.totalDeposited * t.price;
    var borrowed := (t: Token) => t.totalBorrowed * t.price;
    assert Tokens[..2][..1] == Tokens[..1];
    assert Tokens[..1][..0] == [];
    assert SumOf(Tokens[..1], deposited) == 3750000.0;
    assert SumOf(Tokens[..2], deposited) == 8750000.0;
    assert SumOf(Tokens[..1], borrowed) == 2250000.0;
    assert SumOf(Tokens[..2], borrowed) == 5750000.0;
  }
}
