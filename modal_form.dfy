/**
 * What the deposit and borrow modals share: a numeric input field and the
 * outcome of a submitted transaction.
 */
module ModalForm {

  /**
   * The text of a `type="number"` input: empty, or a parsed number.
   * `parseFloat` yielding `NaN` is not modelled.
   */
  datatype Amount = Empty | Number(value: real) {

    /** `parseFloat(amount || '0')`. */
    function OrZero(): (x: real)
      ensures Empty? ==> x == 0.0
      ensures Number? ==> x == value
    {
      if Empty? then 0.0 else value
    }

    /** `!amount || parseFloat(amount) <= 0`: the modals' rejection test for an input. */
    predicate IsInvalid()
      ensures IsInvalid() <==> OrZero() <= 0.0
    {
      Empty? || value <= 0.0
    }
  }

  /** An input that passes the modals' test has a positive value. */
  lemma ValidAmountIsPositive(a: Amount)
    ensures !a.IsInvalid() <==> a.OrZero() > 0.0
  {
  }

  /**
   * What `simulateTransaction` did: resolved `true`, resolved `false`, or threw
   * (the `catch` branch).
   */
  datatype TxOutcome = Confirmed | Declined | Threw

  /**
   * How a submit ended: turned away by the guard chain with a reason, or sent
   * as a transaction with the given outcome.
   */
  datatype SubmitResult<Reason> = Rejected(reason: Reason) | Submitted(outcome: TxOutcome) {

    /** The modal calls `onClose()` only after a confirmed transaction. */
    predicate ClosesModal() {
      this == Submitted(Confirmed)
    }
  }

  /** Percentage `rate` of `amount` per year: `parseFloat(amount || '0') * rate / 100`. */
  function YearlyYield(amount: Amount, rate: real): (y: real)
    ensures y * 100.0 == amount.OrZero() * rate
    ensures amount.Empty? ==> y == 0.0
  {
    amount.OrZero() * rate / 100.0
  }

  /** The yearly yield grows with the amount entered when the rate is non-negative. */
  lemma YearlyYieldMonotone(smaller: Amount, larger: Amount, rate: real)
    requires smaller.OrZero() <= larger.OrZero() && rate >= 0.0
    ensures YearlyYield(smaller, rate) <= YearlyYield(larger, rate)
  {
    assert smaller.OrZero() * rate <= larger.OrZero() * rate;
  }
}
