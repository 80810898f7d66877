/** The account record and the three value types the store is driven with
    (src/model.rs): a stored `Account`, the `AccountInsert` that creates one,
    the `AccountQuery` filter and the `AccountUpdate` changeset. */
module Model {
  import opened Wrappers

  /** One row of the `account` table. Times are epoch seconds. */
  datatype Account = Account(
    id: string,
    phone: string,
    password: string,          // hex digest of password ++ salt
    salt: string,
    loginErrorCount: int,
    lastLoginAt: Option<int>,
    lastErrorAt: Option<int>,
    createAt: int,
    updateAt: Option<int>)

  /** The columns written when an account is created. */
  datatype AccountInsert = AccountInsert(
    id: string,
    phone: string,
    password: string,
    salt: string,
    createAt: int)

  /** Optional filters on `id` and `phone`. */
  datatype AccountQuery = AccountQuery(id: Option<string>, phone: Option<string>)

  /** A changeset: only the `Some` columns are written. `id`, `phone`, `salt`,
      `create_at` and `update_at` have no column here, so no update can touch them. */
  datatype AccountUpdate = AccountUpdate(
    password: Option<string>,
    loginErrorCount: Option<int>,
    lastLoginAt: Option<int>,
    lastErrorAt: Option<int>)

  /** `AccountQuery::default()`: both filters absent. */
  function DefaultQuery(): AccountQuery {
    AccountQuery(None, None)
  }

  /** `AccountUpdate::default()`: every column absent. */
  function DefaultUpdate(): AccountUpdate {
    AccountUpdate(None, None, None, None)
  }

  /** A query on the phone column only, as every handler builds it. */
  function PhoneQuery(phone: string): AccountQuery {
    AccountQuery(None, Some(phone))
  }

  /** A query on the primary key only. */
  function IdQuery(id: string): AccountQuery {
    AccountQuery(Some(id), None)
  }

  /** One optional filter against one column: an absent filter matches any
      value. */
  predicate ColumnMatches(filter: Option<string>, value: string) {
    filter.None? || filter.value == value
  }

  /** Reference meaning of a query, case by case on which filters are
      supplied: the row is selected exactly when both columns match (logical
      AND), and the empty query selects every row. */
  predicate Selects(q: AccountQuery, a: Account): (r: bool)
    ensures q.id.None? && q.phone.None? ==> r
    ensures r <==> ColumnMatches(q.id, a.id) && ColumnMatches(q.phone, a.phone)
  {
    match q
    case AccountQuery(None, None) => true
    case AccountQuery(Some(id), None) => a.id == id
    case AccountQuery(None, Some(phone)) => a.phone == phone
    case AccountQuery(Some(id), Some(phone)) => a.id == id && a.phone == phone
  }

  /** The row a fresh insert creates. `login_error_count` takes the column's
      database default, taken here to be 0; the nullable columns start NULL. */
  function NewAccount(ins: AccountInsert): (a: Account)
    ensures a.id == ins.id && a.phone == ins.phone && a.password == ins.password
    ensures a.salt == ins.salt && a.createAt == ins.createAt
    ensures a.loginErrorCount == 0
    ensures a.lastLoginAt.None? && a.lastErrorAt.None? && a.updateAt.None?
  {
    Account(ins.id, ins.phone, ins.password, ins.salt, 0, None, None, ins.createAt, None)
  }

  /** Applying a changeset to one row: the `Some` columns are overwritten,
      every other column keeps its value. */
  function Apply(u: AccountUpdate, a: Account): (r: Account)
    ensures r.id == a.id && r.phone == a.phone && r.salt == a.salt
    ensures r.createAt == a.createAt && r.updateAt == a.updateAt
  {
    a.(password := u.password.GetOr(a.password),
       loginErrorCount := u.loginErrorCount.GetOr(a.loginErrorCount),
       lastLoginAt := if u.lastLoginAt.Some? then u.lastLoginAt else a.lastLoginAt,
       lastErrorAt := if u.lastErrorAt.Some? then u.lastErrorAt else a.lastErrorAt)
  }

  /** Every `Some` column of `u` is observed in the updated row, every `None`
      column still has its old value, and the columns outside the changeset
      are untouched. */
  lemma ApplyOverwritesExactlySome(u: AccountUpdate, a: Account)
    ensures u.password.Some? ==> Apply(u, a).password == u.password.value
    ensures u.password.None? ==> Apply(u, a).password == a.password
    ensures u.loginErrorCount.Some? ==> Apply(u, a).loginErrorCount == u.loginErrorCount.value
    ensures u.loginErrorCount.None? ==> Apply(u, a).loginErrorCount == a.loginErrorCount
    ensures u.lastLoginAt.Some? ==> Apply(u, a).lastLoginAt == u.lastLoginAt
    ensures u.lastLoginAt.None? ==> Apply(u, a).lastLoginAt == a.lastLoginAt
    ensures u.lastErrorAt.Some? ==> Apply(u, a).lastErrorAt == u.lastErrorAt
    ensures u.lastErrorAt.None? ==> Apply(u, a).lastErrorAt == a.lastErrorAt
  {
  }

  /** The default changeset writes nothing. */
  lemma DefaultUpdateIsNoOp(a: Account)
    ensures Apply(DefaultUpdate(), a) == a
  {
  }

  /** Applying the same changeset twice is the same as applying it once. */
  lemma ApplyIdempotent(u: AccountUpdate, a: Account)
    ensures Apply(u, Apply(u, a)) == Apply(u, a)
  {
  }

  /** The default query selects every row. */
  lemma DefaultQuerySelectsAll(a: Account)
    ensures Selects(DefaultQuery(), a)
  {
  }

  /** Since no changeset touches `id` or `phone`, whether a query selects a
      row does not change when the row is updated. */
  lemma SelectsStableUnderApply(q: AccountQuery, u: AccountUpdate, a: Account)
    ensures Selects(q, Apply(u, a)) == Selects(q, a)
  {
  }
}
