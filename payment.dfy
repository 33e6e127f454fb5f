/** A requested movement of funds. */
module Payments {
  import opened SharedKernel

  /** A payment names a currency of its own and carries an amount, which has
      its own currency too. The two are not required to agree: debit checks
      `currency`, credit checks `amount.currency`. */
  datatype Payment = Payment(currency: Currency, amount: Money)
}
