/**
 * The deposit dialog (src/components/DepositModal.tsx): one amount input, the
 * guard chain of its submit handler and the state that handler updates.
 */
module DepositModal {
  import opened Wrappers
  import opened EthereumUtils
  import opened ModalForm

  /** Why a deposit submit is turned away, in the order the handler checks. */
  datatype Rejection = WalletDisconnected | InvalidAmount

  /** The first check of `handleSubmit` that fails, if any. */
  function FirstRejection(isConnected: bool, amount: Amount): (r: Option<Rejection>)
    ensures r == Some(WalletDisconnected) <==> !isConnected
    ensures r == Some(InvalidAmount) <==> isConnected && amount.IsInvalid()
    ensures r.None? <==> isConnected && amount.OrZero() > 0.0
  {
    if !isConnected then Some(WalletDisconnected)
    else if amount.IsInvalid() then Some(InvalidAmount)
    else None
  }

  /** The `disabled` expression of the Deposit button. */
  function SubmitDisabled(isSubmitting: bool, amount: Amount): (disabled: bool)
    ensures isSubmitting ==> disabled
    ensures !isSubmitting ==> (disabled <==> FirstRejection(true, amount).Some?)
  {
    isSubmitting || amount.IsInvalid()
  }

  /**
   * With a connected wallet and nothing in flight, the button is enabled
   * exactly when the handler would send the transaction.
   */
  lemma SubmitEnabledIffAccepted(amount: Amount)
    ensures !SubmitDisabled(false, amount) <==> FirstRejection(true, amount).None?
    ensures SubmitDisabled(true, amount)
  {
  }

  /** The "Estimated yearly earnings" line: `amount * depositRate / 100`. */
  function YearlyEarnings(amount: Amount, token: Token): (y: real)
    ensures y * 100.0 == amount.OrZero() * token.depositRate
  {
    YearlyYield(amount, token.depositRate)
  }

  /** The dialog's state: its amount input and whether a transaction is in flight. */
  class DepositForm {
    const token: Token
    var amount: Amount
    var isSubmitting: bool

    constructor (token: Token)
      ensures this.token == token && amount == Empty && !isSubmitting
    {
      this.token := token;
      amount := Empty;
      isSubmitting := false;
    }

    /** Whether the Deposit button is disabled right now. */
    function IsSubmitDisabled(): bool
      reads this
    {
      SubmitDisabled(isSubmitting, amount)
    }

    /** The `onChange` of the amount input. */
    method SetAmount(a: Amount)
      modifies this`amount
      ensures amount == a
    {
      amount := a;
    }

    /**
     * `handleSubmit`, with the wallet's connection state and the transaction's
     * outcome as parameters. A rejected submit changes nothing; a sent one ends
     * with nothing in flight, and clears the amount only when confirmed.
     */
    method HandleSubmit(isConnected: bool, tx: TxOutcome) returns (result: SubmitResult<Rejection>)
      modifies this`amount, this`isSubmitting
      ensures var rejection := FirstRejection(isConnected, old(amount));
              && (rejection.Some? ==> result == Rejected(rejection.value) && unchanged(this))
              && (rejection.None? ==> result == Submitted(tx) && !isSubmitting)
      ensures isConnected && !old(IsSubmitDisabled()) ==> result == Submitted(tx)
      ensures amount == if result.ClosesModal() then Empty else old(amount)
    {
      if !isConnected {
        return Rejected(WalletDisconnected);
      }
      if amount.IsInvalid() {
        return Rejected(InvalidAmount);
      }
      isSubmitting := true;
      if tx == Confirmed {
        amount := Empty;
      }
      isSubmitting := false;
      result := Submitted(tx);
    }
  }
}
