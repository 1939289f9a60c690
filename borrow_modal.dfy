/**
 * The borrow dialog (src/components/BorrowModal.tsx): the values it derives
 * from its inputs, the guard chain of its submit handler and the state that
 * handler updates.
 */
module BorrowModal {
  import opened Wrappers
  import opened EthereumUtils
  import opened ModalForm

  /** The collateral the dialog starts with, whichever token is being borrowed. */
  const InitialCollateral: string := "ETH"

  /** The health factor below which a borrow is turned away. */
  const MinHealthFactor: real := 1.2

  /** The dollar value of the borrow input (empty counts as 0) at the borrowed token's price. */
  function BorrowValue(borrowAmount: Amount, token: Token): (v: real)
    ensures borrowAmount.Empty? ==> v == 0.0
  {
    borrowAmount.OrZero() * token.price
  }

  /** The dollar value of the collateral input at the collateral's price; 0 for a symbol not in the table. */
  function CollateralValue(collateralAmount: Amount, collateral: Option<Token>): (v: real)
    ensures collateral.None? ==> v == 0.0
  {
    collateralAmount.OrZero() * (if collateral.Some? then collateral.value.price else 0.0)
  }

  /** The collateral's factor (a percentage); 0 for a symbol not in the table. */
  function CollateralFactorOf(collateral: Option<Token>): (f: real)
    ensures collateral.None? ==> f == 0.0
  {
    if collateral.Some? then collateral.value.collateralFactor else 0.0
  }

  /** The health factor the dialog shows and checks, for the collateral symbol looked up in the market table. */
  function HealthFactorOf(token: Token, borrowAmount: Amount, collateralToken: string, collateralAmount: Amount): (h: Health)
    ensures h.Inf? <==> borrowAmount.OrZero() * token.price == 0.0
    ensures h.Finite? && FindToken(Tokens, collateralToken).None? ==> h.value == 0.0
  {
    var collateral := FindToken(Tokens, collateralToken);
    CalculateHealthFactor(CollateralValue(collateralAmount, collateral),
                          BorrowValue(borrowAmount, token),
                          CollateralFactorOf(collateral))
  }

  /**
   * A collateral symbol missing from the market table is worth nothing, so any
   * borrow of a priced token gets health factor 0 and is turned away.
   */
  lemma UnknownCollateralIsWorthless(token: Token, borrowAmount: Amount, collateralToken: string, collateralAmount: Amount)
    requires forall i :: 0 <= i < |Tokens| ==> Tokens[i].symbol != collateralToken
    requires BorrowValue(borrowAmount, token) != 0.0
    ensures HealthFactorOf(token, borrowAmount, collateralToken, collateralAmount) == Finite(0.0)
    ensures HealthFactorOf(token, borrowAmount, collateralToken, collateralAmount).Below(MinHealthFactor)
  {
  }

  /** Why a submit is turned away, in the order the handler checks. */
  datatype Rejection = WalletDisconnected | InvalidBorrowAmount | InvalidCollateralAmount | HealthFactorTooLow

  /** The first check of `handleSubmit` that fails, if any. */
  function FirstRejection(isConnected: bool, borrowAmount: Amount, collateralAmount: Amount, healthFactor: Health): (r: Option<Rejection>)
    ensures r == Some(WalletDisconnected) <==> !isConnected
    ensures r == Some(InvalidBorrowAmount) <==> isConnected && borrowAmount.IsInvalid()
    ensures r == Some(InvalidCollateralAmount) <==>
              isConnected && !borrowAmount.IsInvalid() && collateralAmount.IsInvalid()
    ensures r == Some(HealthFactorTooLow) <==>
              isConnected && !borrowAmount.IsInvalid() && !collateralAmount.IsInvalid() && healthFactor.Below(MinHealthFactor)
  {
    if !isConnected then Some(WalletDisconnected)
    else if borrowAmount.IsInvalid() then Some(InvalidBorrowAmount)
    else if collateralAmount.IsInvalid() then Some(InvalidCollateralAmount)
    else if healthFactor.Below(MinHealthFactor) then Some(HealthFactorTooLow)
    else None
  }

  /** The `disabled` expression of the Borrow button. */
  function SubmitDisabled(isSubmitting: bool, borrowAmount: Amount, collateralAmount: Amount, healthFactor: Health): (disabled: bool)
    ensures isSubmitting ==> disabled
    ensures !isSubmitting ==> (disabled <==> FirstRejection(true, borrowAmount, collateralAmount, healthFactor).Some?)
  {
    isSubmitting || borrowAmount.IsInvalid() || collateralAmount.IsInvalid() || healthFactor.Below(MinHealthFactor)
  }

  /**
   * The button and the handler agree: with a connected wallet and nothing in
   * flight, the button is enabled exactly when the handler would send the
   * transaction, and it is always disabled while a submit is in flight.
   */
  lemma SubmitEnabledIffAccepted(borrowAmount: Amount, collateralAmount: Amount, healthFactor: Health)
    ensures !SubmitDisabled(false, borrowAmount, collateralAmount, healthFactor)
            <==> FirstRejection(true, borrowAmount, collateralAmount, healthFactor).None?
    ensures SubmitDisabled(true, borrowAmount, collateralAmount, healthFactor)
  {
  }

  /** The health-factor floor of the handler is the red bucket of the colour scale. */
  lemma TooLowIffRed(borrowAmount: Amount, collateralAmount: Amount, healthFactor: Health)
    requires !borrowAmount.IsInvalid() && !collateralAmount.IsInvalid()
    ensures FirstRejection(true, borrowAmount, collateralAmount, healthFactor) == Some(HealthFactorTooLow)
            <==> HealthFactorColor(healthFactor) == Red
  {
  }

  /** The "Max Borrow" figure: discounted collateral value in units of the borrowed token. */
  function MaxBorrow(collateralValue: real, collateralFactor: real, price: real): (m: real)
    requires price != 0.0
    ensures m * price * 100.0 == collateralValue * collateralFactor
  {
    (collateralValue * collateralFactor / 100.0) / price
  }

  /**
   * Borrowing exactly the displayed "Max Borrow" gives health factor 1, which
   * is below the 1.2 floor: the displayed maximum is always turned away.
   */
  lemma MaxBorrowIsRejected(token: Token, collateralToken: string, collateralAmount: Amount)
    requires token.price > 0.0
    requires FindToken(Tokens, collateralToken).Some?
    requires CollateralValue(collateralAmount, FindToken(Tokens, collateralToken)) > 0.0
    requires CollateralFactorOf(FindToken(Tokens, collateralToken)) > 0.0
    ensures var collateral := FindToken(Tokens, collateralToken);
            var max := MaxBorrow(CollateralValue(collateralAmount, collateral), CollateralFactorOf(collateral), token.price);
            && HealthFactorOf(token, Number(max), collateralToken, collateralAmount) == Finite(1.0)
            && FirstRejection(true, Number(max), collateralAmount,
                              HealthFactorOf(token, Number(max), collateralToken, collateralAmount)) == Some(HealthFactorTooLow)
  {
    var collateral := FindToken(Tokens, collateralToken);
    var cv := CollateralValue(collateralAmount, collateral);
    var cf := CollateralFactorOf(collateral);
    var max := MaxBorrow(cv, cf, token.price);
    var p := cv * cf / 100.0;
    assert p > 0.0;
    assert max * token.price == p;
    assert BorrowValue(Number(max), token) == p;
    assert p / p == 1.0;
  }

  /** The "Yearly interest" line: `borrowAmount * borrowRate / 100`. */
  function YearlyInterest(borrowAmount: Amount, token: Token): (y: real)
    ensures y * 100.0 == borrowAmount.OrZero() * token.borrowRate
  {
    YearlyYield(borrowAmount, token.borrowRate)
  }

  /** The collateral choices offered: every market row except the borrowed token, in table order. */
  function CollateralOptions(tokens: seq<Token>, borrowed: string): (options: seq<Token>)
    ensures forall t :: t in options <==> t in tokens && t.symbol != borrowed
    ensures |options| <= |tokens|
  {
    if tokens == [] then []
    else if tokens[0].symbol == borrowed then CollateralOptions(tokens[1..], borrowed)
    else [tokens[0]] + CollateralOptions(tokens[1..], borrowed)
  }

  /**
   * When ETH is borrowed, the dialog's initial collateral ETH is not among the
   * offered choices, yet it is still priced from the table and used.
   */
  lemma InitialCollateralNotOfferedForEth()
    ensures FindToken(CollateralOptions(Tokens, "ETH"), InitialCollateral).None?
    ensures FindToken(Tokens, InitialCollateral) == Some(Tokens[0])
  {
  }

  /** The dialog's state: its three inputs and whether a transaction is in flight. */
  class BorrowForm {
    const token: Token
    var borrowAmount: Amount
    var collateralToken: string
    var collateralAmount: Amount
    var isSubmitting: bool

    constructor (token: Token)
      ensures this.token == token
      ensures borrowAmount == Empty && collateralAmount == Empty
      ensures collateralToken == InitialCollateral && !isSubmitting
    {
      this.token := token;
      borrowAmount := Empty;
      collateralToken := InitialCollateral;
      collateralAmount := Empty;
      isSubmitting := false;
    }

    /** The health factor for the current inputs. */
    function HealthFactor(): Health
      reads this
    {
      HealthFactorOf(token, borrowAmount, collateralToken, collateralAmount)
    }

    /** Whether the Borrow button is disabled right now. */
    function IsSubmitDisabled(): bool
      reads this
    {
      SubmitDisabled(isSubmitting, borrowAmount, collateralAmount, HealthFactor())
    }

    /** The `onChange` of the borrow amount input. */
    method SetBorrowAmount(a: Amount)
      modifies this`borrowAmount
      ensures borrowAmount == a
    {
      borrowAmount := a;
    }

    /** The `onValueChange` of the collateral selector. */
    method SetCollateralToken(symbol: string)
      modifies this`collateralToken
      ensures collateralToken == symbol
    {
      collateralToken := symbol;
    }

    /** The `onChange` of the collateral amount input. */
    method SetCollateralAmount(a: Amount)
      modifies this`collateralAmount
      ensures collateralAmount == a
    {
      collateralAmount := a;
    }

    /**
     * `handleSubmit`, with the wallet's connection state and the transaction's
     * outcome as parameters. A rejected submit changes nothing (the caller asks
     * the wallet to connect on `WalletDisconnected`); a sent one ends with
     * nothing in flight, and clears both amounts only when confirmed.
     */
    method HandleSubmit(isConnected: bool, tx: TxOutcome) returns (result: SubmitResult<Rejection>)
      modifies this`borrowAmount, this`collateralAmount, this`isSubmitting
      ensures var rejection := FirstRejection(isConnected, old(borrowAmount), old(collateralAmount), old(HealthFactor()));
              && (rejection.Some? ==> result == Rejected(rejection.value) && unchanged(this))
              && (rejection.None? ==> result == Submitted(tx) && !isSubmitting)
      ensures isConnected && !old(IsSubmitDisabled()) ==> result == Submitted(tx)
      ensures result.ClosesModal() ==> borrowAmount == Empty && collateralAmount == Empty
      ensures !result.ClosesModal() ==>
                borrowAmount == old(borrowAmount) && collateralAmount == old(collateralAmount)
    {
      if !isConnected {
        return Rejected(WalletDisconnected);
      }
      if borrowAmount.IsInvalid() {
        return Rejected(InvalidBorrowAmount);
      }
      if collateralAmount.IsInvalid() {
        return Rejected(InvalidCollateralAmount);
      }
      if HealthFactor().Below(MinHealthFactor) {
        return Rejected(HealthFactorTooLow);
      }
      isSubmitting := true;
      if tx == Confirmed {
        borrowAmount := Empty;
        collateralAmount := Empty;
      }
      isSubmitting := false;
      result := Submitted(tx);
    }
  }
}
