/**
 * The shared market data and the health-factor helpers of the lending front end
 * (src/utils/ethereumUtils.ts). Prices and amounts are exact reals; rates and
 * the collateral factor are percentages, as in the token table.
 */
module EthereumUtils {
  import opened Wrappers

  /** One row of the market table. `collateralFactor`, `depositRate` and `borrowRate` are percentages. */
  datatype Token = Token(
    symbol: string,
    name: string,
    address: string,
    price: real,
    depositRate: real,
    borrowRate: real,
    totalDeposited: real,
    totalBorrowed: real,
    liquidityAvailable: real,
    collateralFactor: real)

  /** The hard-coded market table. */
  const Tokens: seq<Token> := [
    Token("ETH", "Ethereum", "0xEeeeeEeeeEeEeeEeEeEeeEEEeeeeEeeeeeeeEEeE",
          3000.0, 1.5, 3.5, 1250.0, 750.0, 500.0, 80.0),
    Token("DAI", "Dai Stablecoin", "0x6B175474E89094C44Da98b954EedeAC495271d0F",
          1.0, 2.8, 4.2, 5000000.0, 3500000.0, 1500000.0, 75.0),
    Token("USDC", "USD Coin", "0xA0b86991c6218b36c1d19D4a2e9Eb0cE3606eB48",
          1.0, 3.0, 4.5, 8000000.0, 6000000.0, 2000000.0, 75.0)
  ]

  /** A supplied asset; `value` is stored, not derived from `amount`. */
  datatype DepositPosition = DepositPosition(token: string, amount: real, value: real, interestEarned: real)

  /** A borrowed asset; `healthFactor` is stored scaled by 100. */
  datatype BorrowPosition = BorrowPosition(
    token: string, amount: real, value: real, interest: real,
    collateral: string, collateralAmount: real, healthFactor: real)

  datatype UserPositions = UserPositions(deposits: seq<DepositPosition>, borrows: seq<BorrowPosition>)

  /** The hard-coded positions shown on the dashboard. */
  const MockUserPositions: UserPositions := UserPositions(
    [ DepositPosition("ETH", 5.0, 15000.0, 0.12),
      DepositPosition("DAI", 10000.0, 10000.0, 45.21) ],
    [ BorrowPosition("USDC", 5000.0, 5000.0, 12.5, "ETH", 2.5, 150.0) ])

  /** Array `find` by symbol: the first row with that symbol, if any. */
  function FindToken(tokens: seq<Token>, symbol: string): (r: Option<Token>)
    ensures r.None? <==> forall i :: 0 <= i < |tokens| ==> tokens[i].symbol != symbol
    ensures r.Some? ==> exists i :: 0 <= i < |tokens| && tokens[i] == r.value && tokens[i].symbol == symbol &&
                                    forall j :: 0 <= j < i ==> tokens[j].symbol != symbol
  {
    if tokens == [] then None
    else if tokens[0].symbol == symbol then
      assert tokens[0].symbol == symbol;
      Some(tokens[0])
    else
      var r := FindToken(tokens[1..], symbol);
      assert r.Some? ==> exists i :: 0 <= i < |tokens[1..]| && tokens[1..][i] == r.value && tokens[1..][i].symbol == symbol &&
                                     forall j :: 0 <= j < i ==> tokens[1..][j].symbol != symbol;
      assert forall i :: 1 <= i < |tokens| ==> tokens[i] == tokens[1..][i - 1];
      r
  }

  /**
   * A health factor as JavaScript computes it: a finite number, or `Infinity`
   * when nothing is borrowed.
   */
  datatype Health = Finite(value: real) | Inf {

    /** `healthFactor < bound` in JavaScript, which is false for `Infinity`. */
    predicate Below(bound: real) {
      Finite? && value < bound
    }

    /** The numeric order on health factors, with `Infinity` above every finite value. */
    predicate AtMost(other: Health) {
      other.Inf? || (Finite? && value <= other.value)
    }
  }

  /**
   * `calculateHealthFactor(collateralValue, borrowValue, collateralFactor)`:
   * `Infinity` for a zero borrow value, otherwise the collateral value discounted
   * by the collateral factor (a percentage) per unit of borrow value.
   */
  function CalculateHealthFactor(collateralValue: real, borrowValue: real, collateralFactor: real): (h: Health)
    ensures h.Inf? <==> borrowValue == 0.0
    ensures h.Finite? ==> h.value * borrowValue * 100.0 == collateralValue * collateralFactor
  {
    if borrowValue == 0.0 then Inf
    else Finite((collateralValue * collateralFactor / 100.0) / borrowValue)
  }

  /** With a nonzero borrow value the factor is a percentage: `c * f / (100 * b)`. */
  lemma HealthFactorAsSingleRatio(collateralValue: real, borrowValue: real, collateralFactor: real)
    requires borrowValue != 0.0
    ensures CalculateHealthFactor(collateralValue, borrowValue, collateralFactor)
         == Finite(collateralValue * collateralFactor / (100.0 * borrowValue))
  {
  }

  /** Borrowing more never raises the health factor. */
  lemma HealthFactorAntitoneInBorrow(collateralValue: real, collateralFactor: real, smaller: real, larger: real)
    requires collateralValue >= 0.0 && collateralFactor >= 0.0
    requires 0.0 < smaller <= larger
    ensures CalculateHealthFactor(collateralValue, larger, collateralFactor).value
         <= CalculateHealthFactor(collateralValue, smaller, collateralFactor).value
  {
    var p := collateralValue * collateralFactor / 100.0;
    assert p >= 0.0 by {
      assert collateralValue * collateralFactor >= 0.0;
    }
    assert p / larger <= p / smaller by {
      assert p / larger * larger == p;
      assert p / smaller * smaller == p;
      assert p / larger * smaller <= p / larger * larger;
    }
  }

  /** More collateral value never lowers the health factor. */
  lemma HealthFactorMonotoneInCollateral(smaller: real, larger: real, borrowValue: real, collateralFactor: real)
    requires smaller <= larger && collateralFactor >= 0.0 && borrowValue > 0.0
    ensures CalculateHealthFactor(smaller, borrowValue, collateralFactor).value
         <= CalculateHealthFactor(larger, borrowValue, collateralFactor).value
  {
  }

  /** A larger collateral factor never lowers the health factor. */
  lemma HealthFactorMonotoneInFactor(collateralValue: real, borrowValue: real, smaller: real, larger: real)
    requires collateralValue >= 0.0 && smaller <= larger && borrowValue > 0.0
    ensures CalculateHealthFactor(collateralValue, borrowValue, smaller).value
         <= CalculateHealthFactor(collateralValue, borrowValue, larger).value
  {
  }

  /** Scaling collateral and borrow value by the same positive factor leaves the health factor unchanged. */
  lemma HealthFactorScaleInvariant(collateralValue: real, borrowValue: real, collateralFactor: real, k: real)
    requires k > 0.0
    ensures CalculateHealthFactor(k * collateralValue, k * borrowValue, collateralFactor)
         == CalculateHealthFactor(collateralValue, borrowValue, collateralFactor)
  {
  }

  /** The four risk classes the UI colours a health factor with. */
  datatype Color = Green | Yellow | Orange | Red {

    /** The CSS class `getHealthFactorColor` returns for this class. */
    function ClassName(): string {
      match this
      case Green => "text-green-500"
      case Yellow => "text-yellow-500"
      case Orange => "text-orange-500"
      case Red => "text-red-500"
    }

    /** How safe the class is: Red 0 up to Green 3. */
    function Rank(): nat {
      match this
      case Red => 0
      case Orange => 1
      case Yellow => 2
      case Green => 3
    }
  }

  /**
   * `getHealthFactorColor`: green for `Infinity` or at least 2, yellow from 1.5,
   * orange from 1.2, red below; each threshold falls in the upper bucket.
   */
  function HealthFactorColor(h: Health): (c: Color)
    ensures c == Green <==> h.Inf? || h.value >= 2.0
    ensures c == Yellow <==> h.Finite? && 1.5 <= h.value < 2.0
    ensures c == Orange <==> h.Finite? && 1.2 <= h.value < 1.5
    ensures c == Red <==> h.Below(1.2)
  {
    if h.Inf? || h.value >= 2.0 then Green
    else if h.value >= 1.5 then Yellow
    else if h.value >= 1.2 then Orange
    else Red
  }

  /** The four classes are told apart by their CSS class names. */
  lemma ClassNamesDistinct(c: Color, d: Color)
    ensures c.ClassName() == d.ClassName() <==> c == d
  {
  }

  /** A larger health factor never gets a less safe colour. */
  lemma HealthFactorColorMonotone(lower: Health, higher: Health)
    requires lower.AtMost(higher)
    ensures HealthFactorColor(lower).Rank() <= HealthFactorColor(higher).Rank()
  {
  }

  /**
   * `formatHealthFactor`: the infinity sign for `Infinity`, otherwise the
   * number printed with two decimals by `toFixed2`.
   */
  function FormatHealthFactor(h: Health, toFixed2: real -> string): (s: string)
    ensures h.Inf? ==> s == "∞"
  {
    if h.Inf? then "∞" else toFixed2(h.value)
  }

  /**
   * Text made only of the characters `toFixed` prints for a finite number: a
   * sign, digits and a point, or for a magnitude of at least 10^21 the
   * exponent form such as "1e+21".
   */
  predicate IsDecimalText(s: string) {
    forall i :: 0 <= i < |s| ==> s[i] in "-+.0123456789e"
  }

  /** As long as the finite formatting prints numerals, "∞" appears exactly for `Infinity`. */
  lemma FormatHealthFactorInfinityIff(h: Health, toFixed2: real -> string)
    requires forall x :: IsDecimalText(toFixed2(x))
    ensures FormatHealthFactor(h, toFixed2) == "∞" <==> h.Inf?
  {
    if h.Finite? {
      assert IsDecimalText(toFixed2(h.value));
      assert "∞"[0] !in "-+.0123456789e";
    }
  }

  /**
   * The mock borrow stores 150, which the position card shows as 1.5, while the
   * formula applied to the same data (2.5 ETH at 3000, factor 80, 5000 USDC at 1)
   * gives 1.2: the stored figure does not follow from the formula.
   */
  lemma MockBorrowHealthFactor()
    ensures var b := MockUserPositions.borrows[0];
            var collateral := FindToken(Tokens, b.collateral);
            var borrowed := FindToken(Tokens, b.token);
            && collateral.Some? && borrowed.Some?
            && CalculateHealthFactor(b.collateralAmount * collateral.value.price,
                                     b.amount * borrowed.value.price,
                                     collateral.value.collateralFactor) == Finite(1.2)
            && b.healthFactor / 100.0 == 1.5
  {
  }
}
