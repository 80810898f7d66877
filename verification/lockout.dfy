/** The retry lockout (src/handlers.rs, `check_error_count` and the counter
    writes of `check_password` and `auth`). Its state is the account's
    `login_error_count` and `last_error_at`; the configuration is the retry
    limit and the retry interval in seconds. */
module Lockout {
  import opened Wrappers
  import opened Model

  /** What `check_error_count` decides for an attempt. */
  datatype Decision = Proceed | Locked | ProceedAfterReset

  /** `last_error_at` is unwrapped once the limit is reached, so it must be
      present then. */
  predicate CanUnwrap(acct: Account, limit: int) {
    acct.loginErrorCount >= limit ==> acct.lastErrorAt.Some?
  }

  /** Locked only while `last_error_at + interval` is still after `now`; from
      that instant on the attempt proceeds after a reset. */
  function Decide(acct: Account, limit: int, interval: int, now: int): (d: Decision)
    requires CanUnwrap(acct, limit)
    ensures d == Proceed <==> acct.loginErrorCount < limit
    ensures d == Locked <==> acct.loginErrorCount >= limit && now < acct.lastErrorAt.value + interval
    ensures d == ProceedAfterReset <==> acct.loginErrorCount >= limit && acct.lastErrorAt.value + interval <= now
  {
    if acct.loginErrorCount < limit then Proceed
    else if acct.lastErrorAt.value + interval > now then Locked
    else ProceedAfterReset
  }

  /** The lazy reset: `login_error_count := 0` and nothing else. It sets a
      column, so it is never refused as an empty changeset, and it leaves the
      password alone. */
  function ResetUpdate(): (u: AccountUpdate)
    ensures u != DefaultUpdate() && u.password.None?
  {
    AccountUpdate(None, Some(0), None, None)
  }

  /** A failed password check: the counter one past the value read, and the
      time of the failure; never empty, never the password. */
  function FailureUpdate(count: int, now: int): (u: AccountUpdate)
    ensures u != DefaultUpdate() && u.password.None?
  {
    AccountUpdate(None, Some(count + 1), None, Some(now))
  }

  /** A successful login: counter cleared, login time recorded; never
      empty, never the password. */
  function SuccessUpdate(now: int): (u: AccountUpdate)
    ensures u != DefaultUpdate() && u.password.None?
  {
    AccountUpdate(None, Some(0), Some(now), None)
  }

  /** What each counter write does to a row: exactly the columns named, and
      every other column as it was. */
  lemma CounterWritesEffect(a: Account, count: int, now: int)
    ensures Apply(ResetUpdate(), a) == a.(loginErrorCount := 0)
    ensures Apply(FailureUpdate(count, now), a) == a.(loginErrorCount := count + 1, lastErrorAt := Some(now))
    ensures Apply(SuccessUpdate(now), a) == a.(loginErrorCount := 0, lastLoginAt := Some(now))
  {
  }

  /** The per-account invariant of the lockout state machine: the counter
      lies in `0..limit`, and a positive counter comes with an error time. */
  predicate WithinLimit(acct: Account, limit: int) {
    && 0 <= acct.loginErrorCount <= limit
    && (acct.loginErrorCount > 0 ==> acct.lastErrorAt.Some?)
  }

  /** At exactly `now == last_error_at + interval` the account is not locked. */
  lemma UnlockedAtBoundary(acct: Account, limit: int, interval: int)
    requires acct.loginErrorCount >= limit && acct.lastErrorAt.Some?
    ensures Decide(acct, limit, interval, acct.lastErrorAt.value + interval) == ProceedAfterReset
    ensures Decide(acct, limit, interval, acct.lastErrorAt.value + interval - 1) == Locked
  {
  }

  /** Time only ever unlocks: a lock seen at `now` was also in force at every
      earlier time, and a reset allowed at `now` is allowed at every later
      time. */
  lemma LockMonotoneInTime(acct: Account, limit: int, interval: int, now: int, later: int)
    requires CanUnwrap(acct, limit) && now <= later
    ensures Decide(acct, limit, interval, later) == Locked ==> Decide(acct, limit, interval, now) == Locked
    ensures Decide(acct, limit, interval, now) == ProceedAfterReset ==> Decide(acct, limit, interval, later) == ProceedAfterReset
  {
  }

  /** A row inside the limit never needs an unwrap it cannot do, once the
      limit is at least 1. */
  lemma WithinLimitCanUnwrap(acct: Account, limit: int)
    requires limit >= 1 && WithinLimit(acct, limit)
    ensures CanUnwrap(acct, limit)
  {
  }

  /** Each of the three writes keeps any row inside the limit: the reset and
      the success clear the counter, and a failure recorded from a counter
      below the limit leaves it at most at the limit with an error time. */
  lemma CounterWritesKeepLimit(acct: Account, limit: int, count: int, now: int)
    requires WithinLimit(acct, limit)
    ensures WithinLimit(Apply(ResetUpdate(), acct), limit)
    ensures WithinLimit(Apply(SuccessUpdate(now), acct), limit)
    ensures 0 <= count < limit ==> WithinLimit(Apply(FailureUpdate(count, now), acct), limit)
  {
  }

  /** A freshly inserted row starts inside the limit. */
  lemma NewAccountWithinLimit(ins: AccountInsert, limit: int)
    requires limit >= 0
    ensures WithinLimit(NewAccount(ins), limit)
  {
  }
}
