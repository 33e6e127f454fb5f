/** The fee charged on a debit: 0.5 percent of the amount, rounded up to a
    whole minor unit, in the amount's own currency. */
module TransactionCost {
  import opened SharedKernel

  /** 0.5 percent, written as 5 per mille so that the rule stays in integers. */
  const CostPerMille: int := 5

  /** The fee is the least whole number of minor units that is not below
      value * 0.5 / 100 (at this rate, the ceiling of value / 200), and it
      carries the currency of the amount. */
  function Calculate(amount: Money): (cost: Money)
    ensures cost.currency == amount.currency
    ensures 1000 * cost.value >= CostPerMille * amount.value
    ensures 1000 * (cost.value - 1) < CostPerMille * amount.value
    ensures 200 * cost.value >= amount.value > 200 * (cost.value - 1)
  {
    Money(amount.currency, -((-(CostPerMille * amount.value)) / 1000))
  }

  /** The two cases the calculator's unit test pins down. */
  lemma CalculateExamples(c: Currency)
    ensures Calculate(Money(c, 1000)) == Money(c, 5)
    ensures Calculate(Money(c, 1)) == Money(c, 1)
  {
  }

  /** Rounding up: nothing is charged on zero, at least one minor unit on any
      positive amount, and never anything positive on a negative amount. */
  lemma CalculateSign(amount: Money)
    ensures amount.value == 0 ==> Calculate(amount).value == 0
    ensures amount.value > 0 ==> Calculate(amount).value >= 1
    ensures amount.value < 0 ==> Calculate(amount).value <= 0
  {
  }

  /** A larger amount never costs less. */
  lemma CalculateMonotone(a: Money, b: Money)
    requires a.value <= b.value
    ensures Calculate(a).value <= Calculate(b).value
  {
  }
}
