/** What the account rules guarantee over any sequence of debits and credits
    on one account: a balance that starts non-negative never goes negative,
    the daily counter never passes its ceiling, and the counter grows by
    exactly the number of debits that went through. */
module AccountHistory {
  import opened SharedKernel
  import opened Payments
  import opened DailyLimits
  import opened Accounts

  datatype Operation = DebitOp(payment: Payment) | CreditOp(payment: Payment)

  /** The stored state after one operation; a refused operation changes
      nothing. */
  function Step(accountCurrency: Currency, costCalculator: Money -> Money, op: Operation, s: AccountState): AccountState {
    match op
    case DebitOp(p) =>
      var r := DebitRule(accountCurrency, p, costCalculator(p.amount), s);
      if r.Ok? then r.value else s
    case CreditOp(p) =>
      var r := CreditRule(accountCurrency, p, s.balance);
      if r.Ok? then s.(balance := r.value) else s
  }

  /** The stored state after the operations, one after another. */
  function Run(accountCurrency: Currency, costCalculator: Money -> Money, ops: seq<Operation>, s: AccountState): AccountState
    decreases |ops|
  {
    if ops == [] then s
    else Run(accountCurrency, costCalculator, ops[1..], Step(accountCurrency, costCalculator, ops[0], s))
  }

  /** How many of the operations are debits that go through. */
  function DebitsMade(accountCurrency: Currency, costCalculator: Money -> Money, ops: seq<Operation>, s: AccountState): nat
    decreases |ops|
  {
    if ops == [] then 0
    else
      var made := if ops[0].DebitOp? && DebitRule(accountCurrency, ops[0].payment, costCalculator(ops[0].payment.amount), s).Ok?
                  then 1 else 0;
      made + DebitsMade(accountCurrency, costCalculator, ops[1..], Step(accountCurrency, costCalculator, ops[0], s))
  }

  lemma StepKeepsInvariants(accountCurrency: Currency, costCalculator: Money -> Money, op: Operation, s: AccountState)
    ensures var t := Step(accountCurrency, costCalculator, op, s);
            && (s.balance.value >= 0 ==> t.balance.value >= 0)
            && t.daily.limit == s.daily.limit
            && (s.daily.counter <= s.daily.limit ==> t.daily.counter <= t.daily.limit)
  {
    if op.DebitOp? {
      DebitSuccess(accountCurrency, op.payment, costCalculator(op.payment.amount), s);
    }
  }

  /** A balance that starts non-negative is never driven below zero. */
  lemma {:induction false} RunKeepsBalanceNonNegative(accountCurrency: Currency, costCalculator: Money -> Money,
                                                     ops: seq<Operation>, s: AccountState)
    requires s.balance.value >= 0
    ensures Run(accountCurrency, costCalculator, ops, s).balance.value >= 0
    decreases |ops|
  {
    if ops != [] {
      StepKeepsInvariants(accountCurrency, costCalculator, ops[0], s);
      RunKeepsBalanceNonNegative(accountCurrency, costCalculator, ops[1..], Step(accountCurrency, costCalculator, ops[0], s));
    }
  }

  /** The ceiling never moves, and the counter grows by exactly the number of
      debits that went through. */
  lemma {:induction false} RunCountsDebits(accountCurrency: Currency, costCalculator: Money -> Money,
                                          ops: seq<Operation>, s: AccountState)
    ensures Run(accountCurrency, costCalculator, ops, s).daily
         == LimitRecord(s.daily.counter + DebitsMade(accountCurrency, costCalculator, ops, s), s.daily.limit)
    decreases |ops|
  {
    if ops != [] {
      var t := Step(accountCurrency, costCalculator, ops[0], s);
      if ops[0].DebitOp? {
        DebitSuccess(accountCurrency, ops[0].payment, costCalculator(ops[0].payment.amount), s);
      }
      RunCountsDebits(accountCurrency, costCalculator, ops[1..], t);
    }
  }

  /** A counter that starts within its ceiling stays within it. */
  lemma {:induction false} RunKeepsCounterWithinLimit(accountCurrency: Currency, costCalculator: Money -> Money,
                                                     ops: seq<Operation>, s: AccountState)
    requires s.daily.counter <= s.daily.limit
    ensures Run(accountCurrency, costCalculator, ops, s).daily.counter <= s.daily.limit
    decreases |ops|
  {
    if ops != [] {
      var t := Step(accountCurrency, costCalculator, ops[0], s);
      StepKeepsInvariants(accountCurrency, costCalculator, ops[0], s);
      RunKeepsCounterWithinLimit(accountCurrency, costCalculator, ops[1..], t);
    }
  }

  /** So no sequence of operations gets more debits through than the day's
      remaining allowance. */
  lemma DebitsBoundedByLimit(accountCurrency: Currency, costCalculator: Money -> Money,
                             ops: seq<Operation>, s: AccountState)
    requires s.daily.counter <= s.daily.limit
    ensures DebitsMade(accountCurrency, costCalculator, ops, s) <= s.daily.limit - s.daily.counter
  {
    RunCountsDebits(accountCurrency, costCalculator, ops, s);
    RunKeepsCounterWithinLimit(accountCurrency, costCalculator, ops, s);
  }
}
