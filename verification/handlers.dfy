/** The request handlers (src/handlers.rs): sign-up, sign-in (`auth`) with its
    lockout and password checks, and token verification, run against the
    account table of the dao. The clock, the random salt, the new account id
    and the pool's connection are parameters; a request reads one `now`. */
module Handlers {
  import opened Wrappers
  import opened Model
  import opened Dao
  import opened Credentials
  import opened Tokens
  import opened Lockout

  /** The HTTP statuses the handlers can end with. */
  datatype Status = NotFound | UnprocessableEntity | TooManyRequests | InternalServerError {
    function Code(): int {
      match this
      case NotFound => 404
      case UnprocessableEntity => 422
      case TooManyRequests => 429
      case InternalServerError => 500
    }
  }

  /** The handlers' error: a query failure, a pool failure, or a rejection
      that already carries its status. */
  datatype Error = DBError(e: DbError) | PoolError | AuthError(status: Status)

  /** `respond_to`: a missing row is 404, any other query or pool failure is
      500, and a rejection answers with its own status. */
  function RespondTo(err: Error): (s: Status)
    ensures err.AuthError? ==> s == err.status
    ensures err.DBError? ==> (s == Status.NotFound <==> err.e == DbError.NotFound)
    ensures err.DBError? && err.e != DbError.NotFound ==> s.Code() == 500
    ensures err.PoolError? ==> s.Code() == 500
  {
    match err
    case DBError(e) => if e == DbError.NotFound then Status.NotFound else InternalServerError
    case AuthError(s) => s
    case PoolError => InternalServerError
  }

  /** The two foreign primitives: SHA-256 and HMAC-SHA256. */
  datatype Crypto = Crypto(sha256: Hasher, mac: Mac)

  /** Process-wide settings, all in seconds where they are durations: the
      signing key, the token validity, the retry limit and the retry interval. */
  datatype Config = Config(key: string, exp: int, retryLimit: int, retryInterval: int)

  /** The row `sign_up` inserts: the given id, phone and salt, created now,
      with a password column that accepts exactly the candidates whose salted
      digest is that of the password given, the password itself among them. */
  function SignUpInsert(sha256: Hasher, phone: string, password: string, salt: string, id: string, now: int): (ins: AccountInsert)
    ensures ins.id == id && ins.phone == phone && ins.salt == salt && ins.createAt == now
    ensures PasswordMatches(sha256, password, salt, ins.password)
    ensures forall c :: PasswordMatches(sha256, c, salt, ins.password) <==> sha256(c + salt) == sha256(password + salt)
  {
    UnHexHex(sha256(password + salt));
    AccountInsert(id, phone, PasswordHash(sha256, password, salt), salt, now)
  }

  /** `sign_up`: stores the salted hash under a new id and issues a token for
      it; a pool timeout or a failed insert leaves the table as it was. */
  method SignUp(db: Database, pool: PoolResult, crypto: Crypto, cfg: Config,
                phone: string, password: string, salt: string, id: string, now: int)
    returns (r: Result<Token, Error>)
    requires db.Valid() && IsSalt(salt) && IsSimpleUuid(id)
    modifies db
    ensures db.Valid()
    ensures pool.PoolTimeout? ==> r == Err(PoolError) && db.rows == old(db.rows)
    ensures pool == Acquired(Broken) ==> r == Err(DBError(ConnectionFailed)) && db.rows == old(db.rows)
    ensures pool == Acquired(Healthy) && HasId(old(db.rows), id) ==>
              r == Err(DBError(UniqueViolation)) && db.rows == old(db.rows)
    ensures pool == Acquired(Healthy) && !HasId(old(db.rows), id) ==>
              && r == Ok(SignJwt(crypto.mac, id, phone, cfg.exp, cfg.key, now))
              && db.rows == old(db.rows) + [NewAccount(SignUpInsert(crypto.sha256, phone, password, salt, id, now))]
  {
    var hash := Hex(crypto.sha256(password + salt));
    var acct := AccountInsert(id, phone, hash, salt, now);
    if pool.PoolTimeout? {
      return Err(PoolError);
    }
    var inserted := db.InsertAccount(pool.conn, acct);
    if inserted.Err? {
      return Err(DBError(inserted.error));
    }
    r := Ok(SignJwt(crypto.mac, id, phone, cfg.exp, cfg.key, now));
  }

  /** `check_error_count`: rejects with 429 while locked, lets the attempt
      through below the limit, and past the interval writes the reset for the
      account's phone and clears the caller's copy of the counter. */
  method CheckErrorCount(db: Database, conn: Connection, acct: Account, limit: int, interval: int, now: int)
    returns (r: Result<(), Error>, acct': Account)
    requires db.Valid() && CanUnwrap(acct, limit)
    modifies db
    ensures db.Valid()
    ensures Decide(acct, limit, interval, now) == Proceed ==>
              r == Ok(()) && acct' == acct && db.rows == old(db.rows)
    ensures Decide(acct, limit, interval, now) == Locked ==>
              r == Err(AuthError(TooManyRequests)) && acct' == acct && db.rows == old(db.rows)
    ensures Decide(acct, limit, interval, now) == ProceedAfterReset && conn.Broken? ==>
              r == Err(DBError(ConnectionFailed)) && acct' == acct && db.rows == old(db.rows)
    ensures Decide(acct, limit, interval, now) == ProceedAfterReset && conn.Healthy? ==>
              && r == Ok(())
              && acct' == acct.(loginErrorCount := 0)
              && db.rows == UpdateRows(old(db.rows), PhoneQuery(acct.phone), ResetUpdate())
  {
    acct' := acct;
    if acct.loginErrorCount >= limit {
      if acct.lastErrorAt.value + interval > now {
        return Err(AuthError(TooManyRequests)), acct';
      } else {
        var updated := db.UpdateAccount(conn, PhoneQuery(acct.phone), ResetUpdate());
        if updated.Err? {
          return Err(DBError(updated.error)), acct';
        }
        acct' := acct'.(loginErrorCount := 0);
        return Ok(()), acct';
      }
    }
    r := Ok(());
  }

  /** `check_password`: a match writes nothing; a mismatch records
      `count + 1` and the time of the failure for the account's phone and
      rejects with 422. */
  method CheckPassword(db: Database, conn: Connection, sha256: Hasher, acct: Account, pass: string, now: int)
    returns (r: Result<(), Error>)
    requires db.Valid()
    modifies db
    ensures db.Valid()
    ensures PasswordMatches(sha256, pass, acct.salt, acct.password) ==>
              r == Ok(()) && db.rows == old(db.rows)
    ensures !PasswordMatches(sha256, pass, acct.salt, acct.password) && conn.Broken? ==>
              r == Err(DBError(ConnectionFailed)) && db.rows == old(db.rows)
    ensures !PasswordMatches(sha256, pass, acct.salt, acct.password) && conn.Healthy? ==>
              && r == Err(AuthError(UnprocessableEntity))
              && db.rows == UpdateRows(old(db.rows), PhoneQuery(acct.phone), FailureUpdate(acct.loginErrorCount, now))
  {
    var h := Hex(sha256(pass + acct.salt));
    if h != acct.password {
      var updated := db.UpdateAccount(conn, PhoneQuery(acct.phone), FailureUpdate(acct.loginErrorCount, now));
      if updated.Err? {
        return Err(DBError(updated.error));
      }
      return Err(AuthError(UnprocessableEntity));
    }
    r := Ok(());
  }

  /** The row `auth` finds for the phone, if there is one, can be unwrapped
      by `check_error_count`. */
  predicate FoundCanUnwrap(rows: seq<Account>, phone: string, limit: int) {
    match FirstMatch(rows, PhoneQuery(phone))
    case None => true
    case Some(k) => CanUnwrap(rows[k], limit)
  }

  /** Two versions of a row that agree on everything but the counters and
      the times. */
  predicate SameCredentials(a: Account, b: Account) {
    a.id == b.id && a.phone == b.phone && a.password == b.password && a.salt == b.salt
  }

  /** A write that leaves the password column out keeps every row's
      credentials. */
  lemma CounterWriteKeepsCredentials(rows: seq<Account>, q: AccountQuery, u: AccountUpdate)
    requires u.password.None?
    ensures forall i :: 0 <= i < |rows| ==> SameCredentials(UpdateRows(rows, q, u)[i], rows[i])
  {
    var rows' := UpdateRows(rows, q, u);
    forall i | 0 <= i < |rows|
      ensures SameCredentials(rows'[i], rows[i])
    {
      ApplyOverwritesExactlySome(u, rows[i]);
    }
  }

  /** The result of an `auth` call and the table it leaves behind. */
  datatype AuthOutcome = AuthOutcome(result: Result<Token, Error>, rows: seq<Account>)

  /** What one `auth` call does, as a function of the table before it: look
      the phone up, run the lockout check, then the password check, then
      record the success and sign a token. Only the counters and times of
      existing rows change; a token is issued only for the first account with
      the phone, when it is not locked and the password matches, and it
      carries that account's id; 429 means exactly that the account is locked;
      every rejection other than 422 leaves the table as it was. */
  function AuthStep(rows: seq<Account>, pool: PoolResult, crypto: Crypto, cfg: Config,
                    phone: string, password: string, now: int): (o: AuthOutcome)
    requires FoundCanUnwrap(rows, phone, cfg.retryLimit)
    ensures |o.rows| == |rows|
    ensures forall i :: 0 <= i < |rows| ==> SameCredentials(o.rows[i], rows[i])
    ensures pool != Acquired(Healthy) ==> o.rows == rows
    ensures o.result.Ok? ==>
              && pool == Acquired(Healthy)
              && FirstMatch(rows, PhoneQuery(phone)).Some?
              && var a := rows[FirstMatch(rows, PhoneQuery(phone)).value];
              && Decide(a, cfg.retryLimit, cfg.retryInterval, now) != Locked
              && PasswordMatches(crypto.sha256, password, a.salt, a.password)
              && o.result.value == SignJwt(crypto.mac, a.id, phone, cfg.exp, cfg.key, now)
    ensures o.result == Err(AuthError(TooManyRequests)) <==>
              && pool == Acquired(Healthy)
              && FirstMatch(rows, PhoneQuery(phone)).Some?
              && Decide(rows[FirstMatch(rows, PhoneQuery(phone)).value], cfg.retryLimit, cfg.retryInterval, now) == Locked
    ensures o.result.Err? && o.result.error != AuthError(UnprocessableEntity) ==> o.rows == rows
  {
    match pool
    case PoolTimeout => AuthOutcome(Err(PoolError), rows)
    case Acquired(Broken) => AuthOutcome(Err(DBError(ConnectionFailed)), rows)
    case Acquired(Healthy) =>
      match FirstMatch(rows, PhoneQuery(phone))
      case None => AuthOutcome(Err(AuthError(UnprocessableEntity)), rows)
      case Some(k) =>
        var acct := rows[k];
        var decision := Decide(acct, cfg.retryLimit, cfg.retryInterval, now);
        if decision == Locked then AuthOutcome(Err(AuthError(TooManyRequests)), rows)
        else
          var q := PhoneQuery(acct.phone);
          var rows1 := if decision == ProceedAfterReset then UpdateRows(rows, q, ResetUpdate()) else rows;
          var acct1 := if decision == ProceedAfterReset then acct.(loginErrorCount := 0) else acct;
          var matches := PasswordMatches(crypto.sha256, password, acct1.salt, acct1.password);
          var u := if matches then SuccessUpdate(now) else FailureUpdate(acct1.loginErrorCount, now);
          CounterWriteKeepsCredentials(rows, q, ResetUpdate());
          CounterWriteKeepsCredentials(rows1, q, u);
          AuthOutcome(if matches then Ok(SignJwt(crypto.mac, acct1.id, acct1.phone, cfg.exp, cfg.key, now))
                      else Err(AuthError(UnprocessableEntity)),
                      UpdateRows(rows1, q, u))
  }

  /** `auth`: runs the steps in the source's order against the table; its
      result and the new table are those `AuthStep` describes. */
  method Auth(db: Database, pool: PoolResult, crypto: Crypto, cfg: Config,
              phone: string, password: string, now: int)
    returns (r: Result<Token, Error>)
    requires db.Valid() && FoundCanUnwrap(db.rows, phone, cfg.retryLimit)
    modifies db
    ensures db.Valid()
    ensures AuthOutcome(r, db.rows) == AuthStep(old(db.rows), pool, crypto, cfg, phone, password, now)
  {
    if pool.PoolTimeout? {
      return Err(PoolError);
    }
    var conn := pool.conn;
    var found := db.GetAccount(conn, PhoneQuery(phone));
    if found.Err? {
      if found.error == DbError.NotFound {
        return Err(AuthError(UnprocessableEntity));
      }
      return Err(DBError(found.error));
    }
    var acct := found.value;
    var unlocked;
    unlocked, acct := CheckErrorCount(db, conn, acct, cfg.retryLimit, cfg.retryInterval, now);
    if unlocked.Err? {
      return Err(unlocked.error);
    }
    var passed := CheckPassword(db, conn, crypto.sha256, acct, password, now);
    if passed.Err? {
      return Err(passed.error);
    }
    var updated := db.UpdateAccount(conn, PhoneQuery(acct.phone), SuccessUpdate(now));
    if updated.Err? {
      // the lookup succeeded on this connection, so it is healthy, and the
      // success write is not an empty changeset
      assert false;
    }
    r := Ok(SignJwt(crypto.mac, acct.id, acct.phone, cfg.exp, cfg.key, now));
  }

  /** `verify_jwt_token`: 422 unless the token verifies now. */
  function VerifyJwtToken(mac: Mac, token: Token, key: string, now: int): (r: Result<(), Error>)
    ensures r.Ok? <==> token.tag == mac(key, token.claim) && now < token.claim.expiration
    ensures r.Err? ==> r.error == AuthError(UnprocessableEntity)
  {
    if VerifyJwt(mac, token, key, now) then Ok(()) else Err(AuthError(UnprocessableEntity))
  }
}
