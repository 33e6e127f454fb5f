/** The account aggregate: debit and credit over the two stores. The rules
    are first stated as pure functions of the account's stored state
    (DebitRule, CreditRule); the Account class performs the same steps
    through the store ports and is proved to agree with them. */
module Accounts {
  import opened SharedKernel
  import opened Payments
  import opened AccountIds
  import opened AccountErrors
  import opened DailyLimits
  import opened AccountStores

  /** What the stores hold for one account. */
  datatype AccountState = AccountState(balance: Money, daily: LimitRecord)

  /** What a debit takes from the balance: the amount plus its fee. */
  function DebitTotal(payment: Payment, fee: Money): int {
    payment.amount.value + fee.value
  }

  /** Debit's guards, in the order the aggregate runs them: the payment's own
      currency, then the funds for amount plus fee, then the daily limit, then
      a positive total. On success the total is taken from the balance, which
      is written in the account's currency, and one more debit is counted. */
  function DebitRule(accountCurrency: Currency, payment: Payment, fee: Money, s: AccountState): (r: Result<AccountState>)
    ensures r.Ok? ==> && payment.currency == accountCurrency
                      && 0 < DebitTotal(payment, fee) <= s.balance.value
                      && r.value.balance == Money(accountCurrency, s.balance.value - DebitTotal(payment, fee))
                      && r.value.balance.value >= 0
                      && r.value.daily == LimitRecord(s.daily.counter + 1, s.daily.limit)
                      && r.value.daily.counter <= r.value.daily.limit
  {
    var total := DebitTotal(payment, fee);
    if !payment.currency.Equals(accountCurrency) then Err(CurrencyMismatch)
    else if s.balance.value < total then Err(InsufficientFunds)
    else if s.daily.Reached() then Err(DailyLimitReached)
    else if total <= 0 then Err(InvalidAmount)
    else match s.daily.Increased()
      // the counter's own guard repeats the limit check just passed
      case Err(e) => Err(e)
      case Ok(daily) => Ok(AccountState(Money(accountCurrency, s.balance.value - total), daily))
  }

  /** Credit's guards: the currency of the payment's amount, then a positive
      amount. On success the amount is added to the balance, written in the
      account's currency. */
  function CreditRule(accountCurrency: Currency, payment: Payment, balance: Money): (r: Result<Money>)
    ensures r.Ok? ==> && payment.amount.currency == accountCurrency
                      && r.value.currency == accountCurrency
                      && r.value.value == balance.value + payment.amount.value > balance.value
    ensures r.Err? ==> r.error in {CurrencyMismatch, InvalidAmount}
  {
    if !payment.amount.currency.Equals(accountCurrency) then Err(CurrencyMismatch)
    else if payment.amount.value <= 0 then Err(InvalidAmount)
    else Ok(Money(accountCurrency, balance.value + payment.amount.value))
  }

  /** Each debit error occurs exactly when its check is the first to fail. */
  lemma DebitErrors(accountCurrency: Currency, payment: Payment, fee: Money, s: AccountState)
    ensures var r := DebitRule(accountCurrency, payment, fee, s);
            var total := payment.amount.value + fee.value;
            && (r == Err(CurrencyMismatch) <==> payment.currency != accountCurrency)
            && (r == Err(InsufficientFunds) <==> payment.currency == accountCurrency && s.balance.value < total)
            && (r == Err(DailyLimitReached) <==>
                  payment.currency == accountCurrency && s.balance.value >= total && s.daily.counter >= s.daily.limit)
            && (r == Err(InvalidAmount) <==>
                  payment.currency == accountCurrency && s.balance.value >= total && s.daily.counter < s.daily.limit
                  && total <= 0)
  {
  }

  /** A debit succeeds exactly when every check passes; it then leaves
      balance - (amount + fee), never negative, in the account's currency,
      and the counter one higher under the same ceiling. */
  lemma DebitSuccess(accountCurrency: Currency, payment: Payment, fee: Money, s: AccountState)
    ensures var r := DebitRule(accountCurrency, payment, fee, s);
            var total := payment.amount.value + fee.value;
            && (r.Ok? <==> payment.currency == accountCurrency && total <= s.balance.value
                           && s.daily.counter < s.daily.limit && 0 < total)
            && (r.Ok? ==> r.value.balance == Money(accountCurrency, s.balance.value - total)
                          && r.value.balance.value >= 0
                          && r.value.daily == LimitRecord(s.daily.counter + 1, s.daily.limit))
  {
  }

  /** A credit fails with CurrencyMismatch exactly when the amount's currency
      differs, with InvalidAmount exactly when the currency matches and the
      amount is not positive, and otherwise adds the amount to the balance. */
  lemma CreditOutcomes(accountCurrency: Currency, payment: Payment, balance: Money)
    ensures var r := CreditRule(accountCurrency, payment, balance);
            && (r == Err(CurrencyMismatch) <==> payment.amount.currency != accountCurrency)
            && (r == Err(InvalidAmount) <==> payment.amount.currency == accountCurrency && payment.amount.value <= 0)
            && (r.Ok? <==> payment.amount.currency == accountCurrency && payment.amount.value > 0)
            && (r.Ok? ==> r.value == Money(accountCurrency, balance.value + payment.amount.value)
                          && r.value.value > balance.value)
  {
  }

  /** Debit looks only at the payment's own currency, credit only at the
      currency of its amount. */
  lemma CurrencyFieldsChecked(accountCurrency: Currency, payment: Payment, other: Currency, fee: Money,
                              s: AccountState)
    ensures DebitRule(accountCurrency, payment, fee, s)
         == DebitRule(accountCurrency, payment.(amount := payment.amount.(currency := other)), fee, s)
    ensures CreditRule(accountCurrency, payment, s.balance)
         == CreditRule(accountCurrency, payment.(currency := other), s.balance)
  {
  }

  /** Crediting a payment and then debiting the same payment gives back the
      starting balance less the fee, in the account's currency, and counts
      one debit. */
  lemma CreditThenDebit(accountCurrency: Currency, payment: Payment, fee: Money, s: AccountState)
    requires CreditRule(accountCurrency, payment, s.balance).Ok?
    requires DebitRule(accountCurrency, payment, fee, s.(balance := CreditRule(accountCurrency, payment, s.balance).value)).Ok?
    ensures DebitRule(accountCurrency, payment, fee, s.(balance := CreditRule(accountCurrency, payment, s.balance).value)).value
         == AccountState(Money(accountCurrency, s.balance.value - fee.value), LimitRecord(s.daily.counter + 1, s.daily.limit))
  {
  }

  /** Debit never compares the stored balance's currency with the account's:
      the outcome is the same whatever currency the store holds, and a
      written balance is always in the account's currency. */
  lemma DebitIgnoresStoredCurrency(accountCurrency: Currency, payment: Payment, fee: Money, s: AccountState,
                                   stored: Currency)
    ensures var r := DebitRule(accountCurrency, payment, fee, s);
            && r == DebitRule(accountCurrency, payment, fee, s.(balance := s.balance.(currency := stored)))
            && (r.Ok? ==> r.value.balance.currency == accountCurrency)
  {
  }

  /** The cases of the aggregate's unit tests: balance 10000 in USD, a fee of
      5 (0 in the insufficient-funds case), and a payment of 1000 unless
      stated. */
  lemma UnitTestCases(daily: LimitRecord)
    requires daily.counter < daily.limit
    ensures var usd := Currency("USD");
            var other := Currency("DIFFERENT-CURRENCY");
            var s := AccountState(Money(usd, 10000), daily);
            && DebitRule(usd, Payment(usd, Money(usd, 1000)), Money(usd, 5), s)
               == Ok(AccountState(Money(usd, 8995), LimitRecord(daily.counter + 1, daily.limit)))
            && DebitRule(usd, Payment(other, Money(other, 1000)), Money(usd, 5), s) == Err(CurrencyMismatch)
            && DebitRule(usd, Payment(usd, Money(usd, 10001)), Money(usd, 0), s) == Err(InsufficientFunds)
            && DebitRule(usd, Payment(usd, Money(usd, 1000)), Money(usd, 5), s.(daily := LimitRecord(3, 3)))
               == Err(DailyLimitReached)
            && DebitRule(usd, Payment(usd, Money(usd, -1000)), Money(usd, 5), s) == Err(InvalidAmount)
            && CreditRule(usd, Payment(usd, Money(usd, 1000)), s.balance) == Ok(Money(usd, 11000))
            && CreditRule(usd, Payment(other, Money(other, 1000)), s.balance) == Err(CurrencyMismatch)
            && CreditRule(usd, Payment(usd, Money(usd, -1000)), s.balance) == Err(InvalidAmount)
  {
  }

  /** The account aggregate. It holds no balance of its own: everything it
      changes lives in the two stores. The fee calculator is any function
      from amount to fee. */
  class Account {
    const accountId: AccountId
    const currency: Currency
    const balanceManager: BalanceStore
    const dailyLimitManager: DailyLimitStore
    const costCalculator: Money -> Money

    constructor (accountId: AccountId, currency: Currency, balanceManager: BalanceStore,
                 dailyLimitManager: DailyLimitStore, costCalculator: Money -> Money)
      ensures this.accountId == accountId && this.currency == currency
      ensures this.balanceManager == balanceManager && this.dailyLimitManager == dailyLimitManager
      ensures this.costCalculator == costCalculator
    {
      this.accountId := accountId;
      this.currency := currency;
      this.balanceManager := balanceManager;
      this.dailyLimitManager := dailyLimitManager;
      this.costCalculator := costCalculator;
    }

    /** What the stores currently hold for this account. */
    ghost function State(): AccountState
      reads this, balanceManager, dailyLimitManager
    {
      AccountState(balanceManager.balances(accountId), dailyLimitManager.limits(accountId))
    }

    /** What debiting `payment` now should do, by the rule. */
    ghost function DebitNow(payment: Payment): Result<AccountState>
      reads this, balanceManager, dailyLimitManager
    {
      DebitRule(currency, payment, costCalculator(payment.amount), State())
    }

    /** Runs the debit guards in order, reading the balance only after the
        currency check and the daily limit only after the funds check. Only
        when every check passes does it write the new balance and the
        incremented limit; a failed debit writes nothing. */
    method Debit(payment: Payment) returns (outcome: Outcome)
      modifies balanceManager, dailyLimitManager
      ensures var rule := old(DebitNow(payment));
              outcome == (if rule.Ok? then Success else Failure(rule.error))
      ensures var rule := old(DebitNow(payment));
              && balanceManager.balances
                 == (if rule.Ok? then Updated(old(balanceManager.balances), accountId, rule.value.balance)
                     else old(balanceManager.balances))
              && dailyLimitManager.limits
                 == (if rule.Ok? then Updated(old(dailyLimitManager.limits), accountId, rule.value.daily)
                     else old(dailyLimitManager.limits))
      ensures var rule := old(DebitNow(payment));
              var currencyMatches := payment.currency.Equals(currency);
              var fundsSuffice := old(balanceManager.balances(accountId)).value
                                  >= DebitTotal(payment, costCalculator(payment.amount));
              && balanceManager.calls
                 == old(balanceManager.calls)
                    + (if currencyMatches then [GetBalance(accountId)] else [])
                    + (if rule.Ok? then [PersistBalance(accountId, rule.value.balance)] else [])
              && dailyLimitManager.calls
                 == old(dailyLimitManager.calls)
                    + (if currencyMatches && fundsSuffice then [ProvideDailyLimit(accountId)] else [])
                    + (if rule.Ok? then [DailyLimitCall.PersistDailyLimit(accountId, rule.value.daily)] else [])
    {
      if !payment.currency.Equals(currency) {
        return Failure(CurrencyMismatch);
      }

      var finalAmount := Money(currency, payment.amount.value + costCalculator(payment.amount).value);

      var balance := balanceManager.GetBalanceForAccount(accountId);
      if balance.value < finalAmount.value {
        return Failure(InsufficientFunds);
      }

      var dailyLimit := dailyLimitManager.ProvideDailyLimitForAccount(accountId);
      if dailyLimit.IsLimitReached() {
        return Failure(DailyLimitReached);
      }

      if finalAmount.value <= 0 {
        return Failure(InvalidAmount);
      }

      balance := Money(currency, balance.value - finalAmount.value);
      var increased := dailyLimit.IncreaseCounter();
      // the limit was checked above, so the counter's own guard lets it through
      assert increased == Success;

      balanceManager.PersistBalanceForAccount(accountId, balance);
      dailyLimitManager.PersistDailyLimit(dailyLimit);
      outcome := Success;
    }

    /** Checks the amount's currency, then that the amount is positive, before
        touching the store; only then reads the balance and writes it back
        increased by the amount. The daily-limit store is never used. */
    method Credit(payment: Payment) returns (outcome: Outcome)
      modifies balanceManager
      ensures var rule := CreditRule(currency, payment, old(balanceManager.balances(accountId)));
              && outcome == (if rule.Ok? then Success else Failure(rule.error))
              && balanceManager.balances
                 == (if rule.Ok? then Updated(old(balanceManager.balances), accountId, rule.value)
                     else old(balanceManager.balances))
              && balanceManager.calls
                 == old(balanceManager.calls)
                    + (if rule.Ok? then [GetBalance(accountId), PersistBalance(accountId, rule.value)] else [])
      ensures unchanged(dailyLimitManager)
    {
      if !payment.amount.currency.Equals(currency) {
        return Failure(CurrencyMismatch);
      }

      if payment.amount.value <= 0 {
        return Failure(InvalidAmount);
      }

      var balance := balanceManager.GetBalanceForAccount(accountId);
      var updatedBalance := Money(currency, balance.value + payment.amount.value);

      balanceManager.PersistBalanceForAccount(accountId, updatedBalance);
      outcome := Success;
    }
  }

  /** The successful debit of the unit tests, run through the class: an
      account in USD with 10000 stored, a calculator that charges 5, and a
      fresh daily limit of 0 out of 3. A payment of 1000 leaves 8995 and a
      counter of 1. */
  method DebitSuccessfulScenario(accountId: AccountId) returns (outcome: Outcome, balance: Money, daily: LimitRecord)
    ensures outcome == Success
    ensures balance == Money(Currency("USD"), 8995) && daily == LimitRecord(1, 3)
  {
    var usd := Currency("USD");
    var balances := new BalanceStore(_ => Money(usd, 10000));
    var limits := new DailyLimitStore(_ => LimitRecord(0, 3));
    var account := new Account(accountId, usd, balances, limits, _ => Money(usd, 5));
    outcome := account.Debit(Payment(usd, Money(usd, 1000)));
    balance := balances.balances(accountId);
    daily := limits.limits(accountId);
  }
}
