/** Value types shared by every part of the payment domain: a currency
    identified by its code, and an amount of money in minor units. */
module SharedKernel {

  /** A currency, identified by its code (for example "USD"). The code is
      fixed when the value is built: a datatype value never changes. */
  datatype Currency = Currency(code: string) {

    /** Currencies are compared by code; since the code is the only thing a
        currency holds, this is the same as value equality. */
    function Equals(other: Currency): (same: bool)
      ensures same <==> this == other
    {
      code == other.code
    }
  }

  /** An amount in minor units (cents) together with its currency. Money has
      no arithmetic of its own: callers compute on `value` and build a new
      Money. */
  datatype Money = Money(currency: Currency, value: int)

  lemma EqualsReflexive(c: Currency)
    ensures c.Equals(c)
  {
  }

  lemma EqualsSymmetric(a: Currency, b: Currency)
    ensures a.Equals(b) == b.Equals(a)
  {
  }

  lemma EqualsTransitive(a: Currency, b: Currency, c: Currency)
    requires a.Equals(b) && b.Equals(c)
    ensures a.Equals(c)
  {
  }
}
