# Account mutation rules of a small payment domain, in Dafny

This project models the core of a PHP payment application: how one account
is debited and credited. It covers:

- Currency and Money: value types. A currency is compared by its code.
- The transaction cost calculator. It charges 0.5 percent of the amount,
  rounded up to a whole minor unit, in the amount's own currency.
- The daily limit. It is a per-account counter of debits with a ceiling, a
  reached check and a guarded increment.
- The account aggregate. Debit checks, in this order, the payment's
  currency, funds for amount plus fee, the daily limit and a positive total.
  Only then does it write the new balance and the incremented limit. Credit
  checks the currency of the payment's amount and a positive amount, then
  writes the increased balance.

Layout, one module per source component:

| file | module | models |
|---|---|---|
| `shared_kernel.dfy` | `SharedKernel` | `Currency` (with `Equals`), `Money` |
| `payment.dfy` | `Payments` | `Payment`: a currency plus an amount that has its own currency |
| `account_id.dfy` | `AccountIds` | `AccountId` |
| `account_errors.dfy` | `AccountErrors` | the four exception kinds, and the `Outcome`/`Result` values that report them |
| `transaction_cost.dfy` | `TransactionCost` | `Calculate` and its properties |
| `daily_limit.dfy` | `DailyLimits` | `LimitRecord` (the stored value) and the mutable `DailyLimit` class |
| `account_stores.dfy` | `AccountStores` | the balance and daily-limit store ports, as classes |
| `account.dfy` | `Accounts` | `DebitRule`/`CreditRule` as pure functions, and the `Account` class proved against them |
| `account_history.dfy` | `AccountHistory` | invariants over any sequence of debits and credits |

`Payment` keeps both of its currency fields. Debit checks
`payment.currency` and credit checks `payment.amount.currency`, and the
lemma `Accounts.CurrencyFieldsChecked` states this difference. The fee rate
is 0.5 percent, the constant in
src/Account/TransactionCost/TransactionCostCalculator.php:11.

A thrown exception becomes a returned `Failure(error)` (or `Err(error)` in
the pure rules). The PHP void success becomes `Success`.

The two store ports are classes. Each holds a total function from account
to stored value, because the ports return a value for every account. Each
also keeps a ghost list of the calls made through it. That list lets the
contracts state what the unit tests observe with mocks: which store calls an
operation makes, in what order, and that a failed operation persists nothing.

`Account` takes its fee calculator as any function from amount to fee, as
the injected interface allows. The unit tests stub it with a constant fee.
`TransactionCost.Calculate` is the concrete calculator.

## Model

| member | source | states |
|---|---|---|
| SharedKernel.Currency.Equals | src/SharedKernel/Currency.php:15-18 | true exactly when the two currencies are the same value; a currency holds only its code, so this means the same code string |
| SharedKernel.EqualsReflexive | src/SharedKernel/Currency.php:15-18 | every currency equals itself |
| SharedKernel.EqualsSymmetric | src/SharedKernel/Currency.php:15-18 | a.equals(b) and b.equals(a) agree |
| SharedKernel.EqualsTransitive | src/SharedKernel/Currency.php:15-18 | a equals b and b equals c imply a equals c |
| TransactionCost.Calculate | src/Account/TransactionCost/TransactionCostCalculator.php:11-21 | the fee is the least integer not below value × 0.5 / 100, which at this rate is the ceiling of value / 200, and it carries the input amount's currency |
| TransactionCost.CalculateExamples | tests/Unit/TransactionCost/TransactionCostCalculatorTest.php:26-30 | the fee on 1000 is 5 and the fee on 1 is 1, in the same currency |
| TransactionCost.CalculateSign | src/Account/TransactionCost/TransactionCostCalculator.php:15 | rounding up: fee 0 on amount 0, at least 1 on any positive amount, never positive on a negative amount |
| TransactionCost.CalculateMonotone | src/Account/TransactionCost/TransactionCostCalculator.php:15 | a ≤ b implies fee(a) ≤ fee(b) |
| DailyLimits.LimitRecord.Reached | src/Account/Model/DailyLimit.php:19-22 | the limit is reached once the counter is at or past the ceiling; while counter ≤ limit holds, that means exactly counter = limit |
| DailyLimits.LimitRecord.Increased | src/Account/Model/DailyLimit.php:24-31 | a refused increment is DailyLimitReached and only happens when the limit is reached; an accepted one adds exactly 1 under the same ceiling and stays within it |
| DailyLimits.IncreasedEffect | src/Account/Model/DailyLimit.php:24-31 | on the stored value, the increment is refused with DailyLimitReached exactly when the limit is reached; otherwise the counter rises by 1 under the same ceiling, and counter ≤ limit is preserved |
| DailyLimits.DailyLimit.constructor | src/Account/Model/DailyLimit.php:11-17 | the object holds the given account, counter and ceiling; account and ceiling are constants, so only the counter can ever change |
| DailyLimits.DailyLimit.IsLimitReached | src/Account/Model/DailyLimit.php:19-22 | true exactly when counter ≥ limit |
| DailyLimits.DailyLimit.IncreaseCounter | src/Account/Model/DailyLimit.php:24-31 | when the limit is reached: fails with DailyLimitReached and leaves the counter unchanged; otherwise: succeeds and adds exactly 1. It changes only the counter, and counter ≤ limit holds afterwards if it held before, either way |
| DailyLimits.LimitReachedAfterIncreasingCounter | tests/Unit/Model/DailyLimitTest.php:34-42 | with counter 2 and limit 3: not reached before one increment, reached after it |
| DailyLimits.IncreaseRefusedAtLimit | tests/Unit/Model/DailyLimitTest.php:44-51 | with counter 3 and limit 3: the increment fails with DailyLimitReached and the counter stays 3 |
| AccountStores.BalanceStore.GetBalanceForAccount | src/Account/BalanceManagerInterface.php:10 | returns the stored balance for the account, writes nothing, and records the read |
| AccountStores.BalanceStore.PersistBalanceForAccount | src/Account/BalanceManagerInterface.php:12 | replaces that account's stored balance and leaves every other account's balance unchanged |
| AccountStores.DailyLimitStore.ProvideDailyLimitForAccount | src/Account/DailyLimitManagerInterface.php:12 | returns a new in-memory daily limit for that account holding the stored counter and ceiling |
| AccountStores.DailyLimitStore.PersistDailyLimit | src/Account/DailyLimitManagerInterface.php:14 | stores the daily limit's current counter and ceiling under its own account and leaves every other account unchanged |
| Accounts.DebitRule | src/Account/Model/Account.php:31-67 | a debit that goes through had a matching payment currency and 0 < amount + fee ≤ balance; it leaves balance − (amount + fee) ≥ 0 in the account currency and a counter 1 higher under the same ceiling, still within it |
| Accounts.CreditRule | src/Account/Model/Account.php:69-83 | a credit that goes through had a matching amount currency; it yields balance + amount in the account currency, strictly above the old balance; a refused credit is CurrencyMismatch or InvalidAmount |
| Accounts.DebitErrors | src/Account/Model/Account.php:33-55 | each debit error occurs exactly when its check is the first to fail: CurrencyMismatch iff payment.currency differs; InsufficientFunds iff the currency matches and balance < amount + fee; DailyLimitReached iff both pass and counter ≥ limit; InvalidAmount iff all three pass and amount + fee ≤ 0 |
| Accounts.DebitSuccess | src/Account/Model/Account.php:37-63 | a debit succeeds iff every check passes; it then leaves balance − (amount + fee), which is ≥ 0, in the account currency, and a counter 1 higher under the same ceiling |
| Accounts.CreditOutcomes | src/Account/Model/Account.php:69-83 | credit fails with CurrencyMismatch iff amount.currency differs, with InvalidAmount iff the currency matches and amount ≤ 0, and otherwise yields balance + amount in the account currency, strictly above the old balance |
| Accounts.CurrencyFieldsChecked | src/Account/Model/Account.php:31-77 | debit's result does not depend on payment.amount.currency, and credit's result does not depend on payment.currency |
| Accounts.CreditThenDebit | src/Account/Model/Account.php:37-82 | crediting a payment and then debiting the same payment, both successfully, returns the starting balance less the fee and counts one debit |
| Accounts.DebitIgnoresStoredCurrency | src/Account/Model/Account.php:42-57 | debit's outcome is the same whatever currency the stored balance carries, and a written balance is in the account's currency |
| Accounts.UnitTestCases | tests/Unit/Model/AccountTest.php:48-170 | the unit-test cases on the rules: 10000 − 1000 − 5 = 8995 with counter + 1; other currency, 10001 with fee 0, limit 3 of 3 and amount −1000 each give their error; credit of 1000 gives 11000; credit in another currency or of −1000 fails |
| Accounts.Account.constructor | src/Account/Model/Account.php:20-29 | the account keeps its id, currency, two stores and calculator, all constants |
| Accounts.Account.Debit | src/Account/Model/Account.php:31-67 | the outcome is DebitRule's verdict on the stored state. Both stores change only on success: the new balance and the incremented limit, each under this account. The balance is read only after the currency check. The limit is loaded only after the funds check. A failed debit persists nothing |
| Accounts.Account.Credit | src/Account/Model/Account.php:69-83 | the outcome is CreditRule's verdict. A failed credit neither reads nor writes the balance store. A successful one reads it and then writes balance + amount. The daily-limit store is untouched |
| Accounts.DebitSuccessfulScenario | tests/Unit/Model/AccountTest.php:48-65 | run through the class, with balance 10000, fee 5 and limit 0 of 3, a debit of 1000 succeeds and leaves 8995 and a counter of 1 |
| AccountHistory.StepKeepsInvariants | src/Account/Model/Account.php:31-83 | one debit or credit keeps a non-negative balance non-negative, never moves the ceiling and keeps counter ≤ limit |
| AccountHistory.RunKeepsBalanceNonNegative | src/Account/Model/Account.php:43-57 | over any sequence of debits and credits, a balance that starts ≥ 0 stays ≥ 0 |
| AccountHistory.RunCountsDebits | src/Account/Model/Account.php:47-63 | over any sequence, the ceiling is unchanged and the counter grows by exactly the number of debits that went through |
| AccountHistory.RunKeepsCounterWithinLimit | src/Account/Model/Account.php:47-58 | over any sequence, a counter that starts ≤ limit stays ≤ limit |
| AccountHistory.DebitsBoundedByLimit | src/Account/Model/Account.php:47-58 | no sequence gets more debits through than limit − counter |

## Left out

- Persistence failure. The debit wraps its two writes in a try/catch that
  swallows any error. Its transaction and rollback exist only as comments.
  The credit's single write is outside any try, so a failing balance store's
  exception reaches the credit's caller. The model treats every write as
  total and infallible, so it captures neither the swallowed debit failure
  nor the propagated credit failure. Atomicity and rollback are not
  modelled.
- Accounts.Account.Debit: the contract does not fix the order of its two
  writes (balance, then daily limit). Each store keeps its own call record,
  so the contract states which calls each store receives but not how calls
  to the two stores interleave.
- Concurrency. Nothing in the code serialises the read-modify-write of one
  account, and the model is sequential.
- TransactionCost.Calculate: the model computes the exact integer ceiling of
  value × 5 / 1000. The source computes `value * 0.5 / 100` in floating
  point, then applies `ceil` and an `(int)` cast. The two differ only at
  magnitudes where the float product loses precision. That float rounding is
  not modelled.
- Integer width. PHP integers are 64-bit and overflow into floats. The
  model's integers are unbounded, so an overflowing balance or total is not
  modelled.
- The store adapters themselves (the dummy balance and daily-limit
  providers, with their fixed values and no-op writes) and the integration
  test. The stores are abstract here. A store holds a value for every
  account, and a write replaces exactly that account's value. The model
  assumes that the daily limit a store provides belongs to the account it
  was asked for. The port's signature does not promise this. Debit's claim
  that it updates the limit stored under its own account rests on it,
  because a persisted limit is stored under its own account id.
- The `Money`, `Payment` and `AccountId` records have no behaviour beyond
  their fields, and neither does the `Currency` constructor. As datatypes,
  their values never change after construction.
- DailyLimits.DailyLimit.constructor: any counter and ceiling are accepted,
  as in the source, which does not check that the ceiling is positive
  (src/Account/Model/DailyLimit.php:11-17). Nothing here promises a
  positive ceiling.
