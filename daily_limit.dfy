/** The per-account daily debit counter and its ceiling. */
module DailyLimits {
  import opened AccountIds
  import opened AccountErrors

  /** What a daily limit holds apart from its account: how many debits were
      made today and how many are allowed. This is the value a store keeps. */
  datatype LimitRecord = LimitRecord(counter: int, limit: int) {

    /** Reached once the counter is at or past the ceiling; for a counter
        kept within its ceiling, that is exactly at the ceiling. */
    predicate Reached()
      ensures counter <= limit ==> (Reached() <==> counter == limit)
    {
      counter >= limit
    }

    /** The guarded increment: refused once the ceiling is reached, one more
        debit counted otherwise. */
    function Increased(): (r: Result<LimitRecord>)
      ensures r.Err? ==> r.error == DailyLimitReached && Reached()
      ensures r.Ok? ==> r.value.counter == counter + 1 && r.value.limit == limit && r.value.counter <= limit
    {
      if Reached() then Err(DailyLimitReached) else Ok(LimitRecord(counter + 1, limit))
    }
  }

  /** An increment either succeeds with the counter one higher, or is refused
      with the counter unchanged; the ceiling never moves, and a counter that
      was within the ceiling stays within it. */
  lemma IncreasedEffect(r: LimitRecord)
    ensures r.Increased().Err? <==> r.Reached()
    ensures r.Increased().Err? ==> r.Increased().error == DailyLimitReached
    ensures r.Increased().Ok? ==> r.Increased().value == LimitRecord(r.counter + 1, r.limit)
    ensures r.counter <= r.limit && r.Increased().Ok? ==> r.Increased().value.counter <= r.limit
  {
  }

  /** The day's counter for one account. Only the counter changes after
      construction; the account and the ceiling are constants. */
  class DailyLimit {
    const accountId: AccountId
    var counter: int
    const limit: int

    constructor (accountId: AccountId, counter: int, limit: int)
      ensures this.accountId == accountId
      ensures this.counter == counter && this.limit == limit
    {
      this.accountId := accountId;
      this.counter := counter;
      this.limit := limit;
    }

    /** The counter and ceiling as a value, as a store persists them. */
    function Value(): LimitRecord
      reads this
    {
      LimitRecord(counter, limit)
    }

    function IsLimitReached(): (reached: bool)
      reads this
      ensures reached <==> counter >= limit
    {
      Value().Reached()
    }

    /** Refuses with DailyLimitReached, changing nothing, when the ceiling is
        already reached; otherwise counts one more debit. */
    method IncreaseCounter() returns (outcome: Outcome)
      modifies this`counter
      ensures outcome == (if old(counter) >= limit then Failure(DailyLimitReached) else Success)
      ensures counter == (if old(counter) >= limit then old(counter) else old(counter) + 1)
      ensures old(counter) <= limit ==> counter <= limit
      ensures outcome.Success? <==> old(Value()).Increased().Ok?
      ensures outcome.Success? ==> Value() == old(Value()).Increased().value
    {
      if IsLimitReached() {
        return Failure(DailyLimitReached);
      }
      counter := counter + 1;
      outcome := Success;
    }
  }

  /** With counter 2 and ceiling 3 the limit is not reached; after one
      increment it is. */
  method LimitReachedAfterIncreasingCounter(accountId: AccountId) returns (before: bool, after: bool)
    ensures !before && after
  {
    var dailyLimit := new DailyLimit(accountId, 2, 3);
    before := dailyLimit.IsLimitReached();
    var _ := dailyLimit.IncreaseCounter();
    after := dailyLimit.IsLimitReached();
  }

  /** With counter 3 and ceiling 3 the increment is refused. */
  method IncreaseRefusedAtLimit(accountId: AccountId) returns (outcome: Outcome, counter: int)
    ensures outcome == Failure(DailyLimitReached) && counter == 3
  {
    var dailyLimit := new DailyLimit(accountId, 3, 3);
    outcome := dailyLimit.IncreaseCounter();
    counter := dailyLimit.counter;
  }
}
