/** Properties of sign-in as a state machine over the account table
    (src/handlers.rs, `auth` and the checks it sequences): what a single
    call writes in each case, the bound on the failure counter over any
    sequence of calls, and the round trip from sign-up to sign-in. */
module AuthProperties {
  import opened Wrappers
  import opened Model
  import opened Dao
  import opened Credentials
  import opened Tokens
  import opened Lockout
  import opened Handlers

  /** The row the lookup returns is the first row with the phone, so it is
      the one `FoundCanUnwrap` speaks of. */
  lemma FoundRow(rows: seq<Account>, phone: string, limit: int)
    requires FoundCanUnwrap(rows, phone, limit) && Lookup(rows, PhoneQuery(phone)).Ok?
    ensures FirstMatch(rows, PhoneQuery(phone)).Some?
    ensures Lookup(rows, PhoneQuery(phone)).value == rows[FirstMatch(rows, PhoneQuery(phone)).value]
    ensures Lookup(rows, PhoneQuery(phone)).value.phone == phone
    ensures CanUnwrap(Lookup(rows, PhoneQuery(phone)).value, limit)
  {
  }

  /** An unknown phone is rejected with 422 and nothing is written. */
  lemma AuthUnknownPhone(rows: seq<Account>, crypto: Crypto, cfg: Config, phone: string, password: string, now: int)
    requires forall i :: 0 <= i < |rows| ==> rows[i].phone != phone
    ensures AuthStep(rows, Acquired(Healthy), crypto, cfg, phone, password, now)
              == AuthOutcome(Err(AuthError(UnprocessableEntity)), rows)
  {
  }

  /** A lookup that fails for any reason other than a missing row surfaces
      as that database error, and nothing is written. */
  lemma AuthLookupFailurePropagates(rows: seq<Account>, crypto: Crypto, cfg: Config, phone: string, password: string, now: int)
    requires FoundCanUnwrap(rows, phone, cfg.retryLimit)
    ensures AuthStep(rows, Acquired(Broken), crypto, cfg, phone, password, now)
              == AuthOutcome(Err(DBError(ConnectionFailed)), rows)
    ensures RespondTo(DBError(ConnectionFailed)).Code() == 500
  {
  }

  /** While the account is locked, sign-in is rejected with 429 before the
      password is looked at: even the right password writes nothing, neither
      the counters nor `last_login_at`. */
  lemma AuthLockedWritesNothing(rows: seq<Account>, crypto: Crypto, cfg: Config, phone: string, password: string, now: int)
    requires FoundCanUnwrap(rows, phone, cfg.retryLimit) && Lookup(rows, PhoneQuery(phone)).Ok?
    requires FirstMatch(rows, PhoneQuery(phone)).Some?
    requires Decide(rows[FirstMatch(rows, PhoneQuery(phone)).value], cfg.retryLimit, cfg.retryInterval, now) == Locked
    ensures AuthStep(rows, Acquired(Healthy), crypto, cfg, phone, password, now)
              == AuthOutcome(Err(AuthError(TooManyRequests)), rows)
  {
  }

  /** A wrong password on an unlocked account is rejected with 422, and the
      account then shows one more failure than it had — exactly 1 when the
      attempt came after a lazy reset — stamped with the time of the attempt;
      its password, salt and last login are untouched. */
  lemma AuthWrongPassword(rows: seq<Account>, crypto: Crypto, cfg: Config, phone: string, password: string, now: int)
    requires FoundCanUnwrap(rows, phone, cfg.retryLimit) && Lookup(rows, PhoneQuery(phone)).Ok?
    requires var a := Lookup(rows, PhoneQuery(phone)).value;
      && Decide(a, cfg.retryLimit, cfg.retryInterval, now) != Locked
      && !PasswordMatches(crypto.sha256, password, a.salt, a.password)
    ensures var o := AuthStep(rows, Acquired(Healthy), crypto, cfg, phone, password, now);
      var a := Lookup(rows, PhoneQuery(phone)).value;
      && o.result == Err(AuthError(UnprocessableEntity))
      && Lookup(o.rows, PhoneQuery(phone)).Ok?
      && var a' := Lookup(o.rows, PhoneQuery(phone)).value;
      && a'.loginErrorCount == (if Decide(a, cfg.retryLimit, cfg.retryInterval, now) == ProceedAfterReset then 1
                                else a.loginErrorCount + 1)
      && a'.lastErrorAt == Some(now)
      && a'.password == a.password && a'.salt == a.salt && a'.lastLoginAt == a.lastLoginAt
  {
    FoundRow(rows, phone, cfg.retryLimit);
    var q := PhoneQuery(phone);
    var a := Lookup(rows, q).value;
    var d := Decide(a, cfg.retryLimit, cfg.retryInterval, now);
    var rows1 := if d == ProceedAfterReset then UpdateRows(rows, q, ResetUpdate()) else rows;
    var a1 := if d == ProceedAfterReset then a.(loginErrorCount := 0) else a;
    if d == ProceedAfterReset {
      UpdateThenGet(rows, q, ResetUpdate());
    }
    assert Lookup(rows1, q) == Ok(a1);
    UpdateThenGet(rows1, q, FailureUpdate(a1.loginErrorCount, now));
    CounterWritesEffect(a1, a1.loginErrorCount, now);
    var o := AuthStep(rows, Acquired(Healthy), crypto, cfg, phone, password, now);
    assert o == AuthOutcome(Err(AuthError(UnprocessableEntity)),
                            UpdateRows(rows1, q, FailureUpdate(a1.loginErrorCount, now)));
    assert Lookup(o.rows, q) == Ok(a1.(loginErrorCount := a1.loginErrorCount + 1, lastErrorAt := Some(now)));
  }

  /** The right password on an unlocked account signs in: the token is the
      one `sign_jwt` makes for the account's id and phone at this moment (so
      it verifies until `now + exp`), and the account shows a cleared counter
      and the login time. */
  lemma AuthSuccess(rows: seq<Account>, crypto: Crypto, cfg: Config, phone: string, password: string, now: int)
    requires FoundCanUnwrap(rows, phone, cfg.retryLimit) && Lookup(rows, PhoneQuery(phone)).Ok?
    requires var a := Lookup(rows, PhoneQuery(phone)).value;
      && Decide(a, cfg.retryLimit, cfg.retryInterval, now) != Locked
      && PasswordMatches(crypto.sha256, password, a.salt, a.password)
    ensures var o := AuthStep(rows, Acquired(Healthy), crypto, cfg, phone, password, now);
      var a := Lookup(rows, PhoneQuery(phone)).value;
      && o.result == Ok(SignJwt(crypto.mac, a.id, phone, cfg.exp, cfg.key, now))
      && Lookup(o.rows, PhoneQuery(phone)).Ok?
      && var a' := Lookup(o.rows, PhoneQuery(phone)).value;
      && a'.loginErrorCount == 0 && a'.lastLoginAt == Some(now)
      && a'.lastErrorAt == a.lastErrorAt && a'.password == a.password
  {
    FoundRow(rows, phone, cfg.retryLimit);
    var q := PhoneQuery(phone);
    var a := Lookup(rows, q).value;
    var d := Decide(a, cfg.retryLimit, cfg.retryInterval, now);
    var rows1 := if d == ProceedAfterReset then UpdateRows(rows, q, ResetUpdate()) else rows;
    var a1 := if d == ProceedAfterReset then a.(loginErrorCount := 0) else a;
    if d == ProceedAfterReset {
      UpdateThenGet(rows, q, ResetUpdate());
    }
    assert Lookup(rows1, q) == Ok(a1);
    UpdateThenGet(rows1, q, SuccessUpdate(now));
    CounterWritesEffect(a1, 0, now);
    var o := AuthStep(rows, Acquired(Healthy), crypto, cfg, phone, password, now);
    assert o == AuthOutcome(Ok(SignJwt(crypto.mac, a.id, phone, cfg.exp, cfg.key, now)),
                            UpdateRows(rows1, q, SuccessUpdate(now)));
    assert Lookup(o.rows, q) == Ok(a1.(loginErrorCount := 0, lastLoginAt := Some(now)));
  }

  /** Every row of the table is inside the lockout limit. */
  ghost predicate AllWithinLimit(rows: seq<Account>, limit: int) {
    forall i :: 0 <= i < |rows| ==> WithinLimit(rows[i], limit)
  }

  /** In a table inside the limit, the row found for any phone can be
      unwrapped. */
  lemma AllWithinLimitCanUnwrap(rows: seq<Account>, phone: string, limit: int)
    requires limit >= 1 && AllWithinLimit(rows, limit)
    ensures FoundCanUnwrap(rows, phone, limit)
  {
    var k := FirstMatch(rows, PhoneQuery(phone));
    if k.Some? {
      WithinLimitCanUnwrap(rows[k.value], limit);
    }
  }

  /** Applying one of the counter writes to the rows of a phone keeps a
      table inside the limit. */
  lemma UpdateKeepsLimit(rows: seq<Account>, q: AccountQuery, u: AccountUpdate, limit: int)
    requires AllWithinLimit(rows, limit)
    requires forall a :: WithinLimit(a, limit) ==> WithinLimit(Apply(u, a), limit)
    ensures AllWithinLimit(UpdateRows(rows, q, u), limit)
  {
  }

  /** One sign-in keeps every counter in `0..limit` (with an error time when
      positive): a failure is recorded only from a counter below the limit,
      so after a lazy reset it stores 1, never `limit + 1`. */
  lemma AuthKeepsCounterBound(rows: seq<Account>, pool: PoolResult, crypto: Crypto, cfg: Config,
                              phone: string, password: string, now: int)
    requires cfg.retryLimit >= 1 && AllWithinLimit(rows, cfg.retryLimit)
    ensures FoundCanUnwrap(rows, phone, cfg.retryLimit)
    ensures AllWithinLimit(AuthStep(rows, pool, crypto, cfg, phone, password, now).rows, cfg.retryLimit)
  {
    var limit := cfg.retryLimit;
    AllWithinLimitCanUnwrap(rows, phone, limit);
    if pool == Acquired(Healthy) && FirstMatch(rows, PhoneQuery(phone)).Some? {
      var a := rows[FirstMatch(rows, PhoneQuery(phone)).value];
      var d := Decide(a, limit, cfg.retryInterval, now);
      if d != Locked {
        var q := PhoneQuery(a.phone);
        var rows1 := if d == ProceedAfterReset then UpdateRows(rows, q, ResetUpdate()) else rows;
        var a1 := if d == ProceedAfterReset then a.(loginErrorCount := 0) else a;
        if d == ProceedAfterReset {
          UpdateKeepsLimit(rows, q, ResetUpdate(), limit);
        }
        assert 0 <= a1.loginErrorCount < limit;
        var u := if PasswordMatches(crypto.sha256, password, a1.salt, a1.password) then SuccessUpdate(now)
                 else FailureUpdate(a1.loginErrorCount, now);
        UpdateKeepsLimit(rows1, q, u, limit);
      }
    }
  }

  /** One sign-in request: where it got its connection, what it sent, when. */
  datatype Attempt = Attempt(pool: PoolResult, phone: string, password: string, now: int)

  /** The table after a sequence of sign-in requests, run one after another;
      every counter stays in `0..limit` throughout. */
  function AuthRun(rows: seq<Account>, crypto: Crypto, cfg: Config, attempts: seq<Attempt>): (r: seq<Account>)
    requires cfg.retryLimit >= 1 && AllWithinLimit(rows, cfg.retryLimit)
    ensures AllWithinLimit(r, cfg.retryLimit)
    decreases |attempts|
  {
    if attempts == [] then rows
    else
      var t := attempts[0];
      AuthKeepsCounterBound(rows, t.pool, crypto, cfg, t.phone, t.password, t.now);
      AuthRun(AuthStep(rows, t.pool, crypto, cfg, t.phone, t.password, t.now).rows, crypto, cfg, attempts[1..])
  }

  /** The password given at sign-up signs in afterwards: a table holding no
      account for the phone gets the sign-up row, and a later sign-in with the
      same phone and password succeeds with a token that verifies at the time
      of sign-in when the validity is positive. */
  lemma SignUpThenSignIn(rows: seq<Account>, crypto: Crypto, cfg: Config, phone: string, password: string,
                         salt: string, id: string, signedUpAt: int, now: int)
    requires cfg.retryLimit >= 1 && AllWithinLimit(rows, cfg.retryLimit)
    requires forall i :: 0 <= i < |rows| ==> rows[i].phone != phone
    ensures var rows' := rows + [NewAccount(SignUpInsert(crypto.sha256, phone, password, salt, id, signedUpAt))];
      && AllWithinLimit(rows', cfg.retryLimit)
      && FoundCanUnwrap(rows', phone, cfg.retryLimit)
      && var o := AuthStep(rows', Acquired(Healthy), crypto, cfg, phone, password, now);
      && o.result.Ok?
      && VerifyWithKey(crypto.mac, o.result.value, cfg.key) == Some(Claim(id, phone, now + cfg.exp))
      && (cfg.exp > 0 ==> VerifyJwt(crypto.mac, o.result.value, cfg.key, now))
  {
    var a := NewAccount(SignUpInsert(crypto.sha256, phone, password, salt, id, signedUpAt));
    var rows' := rows + [a];
    NewAccountWithinLimit(SignUpInsert(crypto.sha256, phone, password, salt, id, signedUpAt), cfg.retryLimit);
    AllWithinLimitCanUnwrap(rows', phone, cfg.retryLimit);
    var q := PhoneQuery(phone);
    assert Selects(q, rows'[|rows|]);
    assert FirstMatch(rows', q) == Some(|rows|);
    PasswordRoundTrip(crypto.sha256, password, password, salt);
    AuthSuccess(rows', crypto, cfg, phone, password, now);
  }

  /** On a one-row table, a wrong password below the limit bumps the counter
      and stamps the error time. */
  lemma OneRowFailure(a: Account, crypto: Crypto, cfg: Config, password: string, now: int)
    requires a.loginErrorCount < cfg.retryLimit
    requires !PasswordMatches(crypto.sha256, password, a.salt, a.password)
    ensures FoundCanUnwrap([a], a.phone, cfg.retryLimit)
    ensures AuthStep([a], Acquired(Healthy), crypto, cfg, a.phone, password, now)
              == AuthOutcome(Err(AuthError(UnprocessableEntity)),
                             [a.(loginErrorCount := a.loginErrorCount + 1, lastErrorAt := Some(now))])
  {
    var q := PhoneQuery(a.phone);
    assert FirstMatch([a], q) == Some(0);
    assert UpdateRows([a], q, FailureUpdate(a.loginErrorCount, now))
             == [a.(loginErrorCount := a.loginErrorCount + 1, lastErrorAt := Some(now))];
  }

  /** On a one-row table, the right password once the interval has elapsed
      resets the counter and records the login. */
  lemma OneRowResetThenSuccess(a: Account, crypto: Crypto, cfg: Config, password: string, now: int)
    requires CanUnwrap(a, cfg.retryLimit)
    requires Decide(a, cfg.retryLimit, cfg.retryInterval, now) == ProceedAfterReset
    requires PasswordMatches(crypto.sha256, password, a.salt, a.password)
    ensures FoundCanUnwrap([a], a.phone, cfg.retryLimit)
    ensures AuthStep([a], Acquired(Healthy), crypto, cfg, a.phone, password, now)
              == AuthOutcome(Ok(SignJwt(crypto.mac, a.id, a.phone, cfg.exp, cfg.key, now)),
                             [a.(loginErrorCount := 0, lastLoginAt := Some(now))])
  {
    var q := PhoneQuery(a.phone);
    var a' := a.(loginErrorCount := 0);
    assert FirstMatch([a], q) == Some(0);
    assert UpdateRows([a], q, ResetUpdate()) == [a'];
    assert UpdateRows([a'], q, SuccessUpdate(now)) == [a.(loginErrorCount := 0, lastLoginAt := Some(now))];
  }

  /** On a one-row table, a locked account answers 429 and writes nothing. */
  lemma OneRowLocked(a: Account, crypto: Crypto, cfg: Config, password: string, now: int)
    requires CanUnwrap(a, cfg.retryLimit)
    requires Decide(a, cfg.retryLimit, cfg.retryInterval, now) == Locked
    ensures FoundCanUnwrap([a], a.phone, cfg.retryLimit)
    ensures AuthStep([a], Acquired(Healthy), crypto, cfg, a.phone, password, now)
              == AuthOutcome(Err(AuthError(TooManyRequests)), [a])
  {
    assert FirstMatch([a], PhoneQuery(a.phone)) == Some(0);
  }

  /** The account of the walk-through after `n` failures at time `t`. */
  function FailedAt(a0: Account, n: int, t: int): Account {
    a0.(loginErrorCount := n, lastErrorAt := Some(t))
  }

  /** The lockout walk-through with a limit of 3 and an interval of 60
      seconds: three wrong passwords at `t` each get 422 and take the counter
      to 3; the right password at `t + 1` gets 429 and writes nothing; at
      `t + 60`, the first instant the lock no longer holds, the right
      password resets the counter, signs in and records the login. */
  lemma LockoutScenario(crypto: Crypto, key: string, exp: int, salt: string, right: string, wrong: string, t: int)
    requires PasswordHash(crypto.sha256, wrong, salt) != PasswordHash(crypto.sha256, right, salt)
    ensures var a0 := Account("u1", "123", PasswordHash(crypto.sha256, right, salt), salt, 0, None, None, 0, None);
      && AuthStep([a0], Acquired(Healthy), crypto, Config(key, exp, 3, 60), "123", wrong, t)
           == AuthOutcome(Err(AuthError(UnprocessableEntity)), [FailedAt(a0, 1, t)])
      && AuthStep([FailedAt(a0, 1, t)], Acquired(Healthy), crypto, Config(key, exp, 3, 60), "123", wrong, t)
           == AuthOutcome(Err(AuthError(UnprocessableEntity)), [FailedAt(a0, 2, t)])
      && AuthStep([FailedAt(a0, 2, t)], Acquired(Healthy), crypto, Config(key, exp, 3, 60), "123", wrong, t)
           == AuthOutcome(Err(AuthError(UnprocessableEntity)), [FailedAt(a0, 3, t)])
      && AuthStep([FailedAt(a0, 3, t)], Acquired(Healthy), crypto, Config(key, exp, 3, 60), "123", right, t + 1)
           == AuthOutcome(Err(AuthError(TooManyRequests)), [FailedAt(a0, 3, t)])
      && AuthStep([FailedAt(a0, 3, t)], Acquired(Healthy), crypto, Config(key, exp, 3, 60), "123", right, t + 60)
           == AuthOutcome(Ok(SignJwt(crypto.mac, "u1", "123", exp, key, t + 60)),
                          [a0.(lastErrorAt := Some(t), lastLoginAt := Some(t + 60))])
  {
    var cfg := Config(key, exp, 3, 60);
    var a0 := Account("u1", "123", PasswordHash(crypto.sha256, right, salt), salt, 0, None, None, 0, None);
    OneRowFailure(a0, crypto, cfg, wrong, t);
    OneRowFailure(FailedAt(a0, 1, t), crypto, cfg, wrong, t);
    OneRowFailure(FailedAt(a0, 2, t), crypto, cfg, wrong, t);
    OneRowLocked(FailedAt(a0, 3, t), crypto, cfg, right, t + 1);
    PasswordRoundTrip(crypto.sha256, right, right, salt);
    OneRowResetThenSuccess(FailedAt(a0, 3, t), crypto, cfg, right, t + 60);
  }
}
