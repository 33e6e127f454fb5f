/** The two stores an account reads from and writes to. Each is modelled as a
    total map from account to stored value (the ports return a value for any
    account) together with a ghost record of the calls made through the port,
    so that contracts can say which calls an operation makes and in what
    order. */
module AccountStores {
  import opened SharedKernel
  import opened AccountIds
  import opened DailyLimits

  /** The store function `f` with the entry for `id` replaced by `v`. */
  function Updated<V>(f: AccountId -> V, id: AccountId, v: V): (g: AccountId -> V)
    ensures g(id) == v
    ensures forall other :: other != id ==> g(other) == f(other)
  {
    a => if a == id then v else f(a)
  }

  datatype BalanceCall =
    | GetBalance(accountId: AccountId)
    | PersistBalance(accountId: AccountId, balance: Money)

  class BalanceStore {
    var balances: AccountId -> Money
    ghost var calls: seq<BalanceCall>

    constructor (balances: AccountId -> Money)
      ensures this.balances == balances && calls == []
    {
      this.balances := balances;
      calls := [];
    }

    method GetBalanceForAccount(accountId: AccountId) returns (balance: Money)
      modifies this`calls
      ensures balance == balances(accountId)
      ensures calls == old(calls) + [GetBalance(accountId)]
    {
      balance := balances(accountId);
      calls := calls + [GetBalance(accountId)];
    }

    method PersistBalanceForAccount(accountId: AccountId, balance: Money)
      modifies this
      ensures balances == Updated(old(balances), accountId, balance)
      ensures calls == old(calls) + [PersistBalance(accountId, balance)]
    {
      balances := Updated(balances, accountId, balance);
      calls := calls + [PersistBalance(accountId, balance)];
    }
  }

  datatype DailyLimitCall =
    | ProvideDailyLimit(accountId: AccountId)
    | PersistDailyLimit(accountId: AccountId, record: LimitRecord)

  class DailyLimitStore {
    var limits: AccountId -> LimitRecord
    ghost var calls: seq<DailyLimitCall>

    constructor (limits: AccountId -> LimitRecord)
      ensures this.limits == limits && calls == []
    {
      this.limits := limits;
      calls := [];
    }

    /** Loads a fresh in-memory daily limit for the account. */
    method ProvideDailyLimitForAccount(accountId: AccountId) returns (dailyLimit: DailyLimit)
      modifies this`calls
      ensures fresh(dailyLimit)
      ensures dailyLimit.accountId == accountId && dailyLimit.Value() == limits(accountId)
      ensures calls == old(calls) + [ProvideDailyLimit(accountId)]
    {
      var stored := limits(accountId);
      dailyLimit := new DailyLimit(accountId, stored.counter, stored.limit);
      calls := calls + [ProvideDailyLimit(accountId)];
    }

    /** Stores the daily limit's current value under its own account. */
    method PersistDailyLimit(dailyLimit: DailyLimit)
      modifies this
      ensures limits == Updated(old(limits), dailyLimit.accountId, dailyLimit.Value())
      ensures calls == old(calls) + [DailyLimitCall.PersistDailyLimit(dailyLimit.accountId, dailyLimit.Value())]
    {
      limits := Updated(limits, dailyLimit.accountId, dailyLimit.Value());
      calls := calls + [DailyLimitCall.PersistDailyLimit(dailyLimit.accountId, dailyLimit.Value())];
    }
  }
}
