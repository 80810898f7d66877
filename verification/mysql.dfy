/** `MysqlStore` (src/store/mysql.rs): the same three queries as the dao,
    reached through the connection pool and with every failure mapped onto
    the two-valued `StoreError`. */
module Mysql {
  import opened Wrappers
  import opened Model
  import opened Dao

  /** A pool that hands out no connection is a network failure; every
      failure of the query itself is an internal failure. */
  datatype StoreError = NetworkError | InternalError

  class MysqlStore {
    /** The database behind the store's connection pool. */
    const db: Database

    ghost predicate Valid()
      reads this, db
    {
      db.Valid()
    }

    constructor (db: Database)
      requires db.Valid()
      ensures this.db == db && Valid()
    {
      this.db := db;
    }

    /** `insert_account`: one new row and a count of 1, `NetworkError` when
        the pool yields no connection, `InternalError` for any failure of the
        insert (a duplicate primary key among them). */
    method InsertAccount(pool: PoolResult, ins: AccountInsert) returns (r: Result<nat, StoreError>)
      requires Valid()
      modifies db
      ensures Valid()
      ensures pool.PoolTimeout? ==> r == Err(NetworkError) && db.rows == old(db.rows)
      ensures pool == Acquired(Broken) ==> r == Err(InternalError) && db.rows == old(db.rows)
      ensures pool == Acquired(Healthy) && HasId(old(db.rows), ins.id) ==>
                r == Err(InternalError) && db.rows == old(db.rows)
      ensures pool == Acquired(Healthy) && !HasId(old(db.rows), ins.id) ==>
                r == Ok(1) && db.rows == old(db.rows) + [NewAccount(ins)]
    {
      if pool.PoolTimeout? {
        return Err(NetworkError);
      }
      var res := db.InsertAccount(pool.conn, ins);
      if res.Err? {
        return Err(InternalError);
      }
      r := Ok(1);
    }

    /** `update_account`: the dao's AND-combined filters; any failure of the
        statement, an empty changeset among them, is `InternalError`. */
    method UpdateAccount(pool: PoolResult, q: AccountQuery, u: AccountUpdate) returns (r: Result<nat, StoreError>)
      requires Valid()
      modifies db
      ensures Valid()
      ensures pool.PoolTimeout? ==> r == Err(NetworkError) && db.rows == old(db.rows)
      ensures pool.Acquired? && u == DefaultUpdate() ==> r == Err(InternalError) && db.rows == old(db.rows)
      ensures pool == Acquired(Broken) ==> r == Err(InternalError) && db.rows == old(db.rows)
      ensures pool == Acquired(Healthy) && u != DefaultUpdate() ==>
                r == Ok(CountSelected(old(db.rows), q)) && db.rows == UpdateRows(old(db.rows), q, u)
    {
      if pool.PoolTimeout? {
        return Err(NetworkError);
      }
      var res := db.UpdateAccount(pool.conn, q, u);
      if res.Err? {
        return Err(InternalError);
      }
      r := Ok(res.value);
    }

    /** `get_account`: the first selected row; "no row" is not told apart
        from other failures and comes back as `InternalError`. */
    method GetAccount(pool: PoolResult, q: AccountQuery) returns (r: Result<Account, StoreError>)
      ensures pool.PoolTimeout? ==> r == Err(NetworkError)
      ensures pool == Acquired(Broken) ==> r == Err(InternalError)
      ensures pool == Acquired(Healthy) && (exists k :: 0 <= k < |db.rows| && Selects(q, db.rows[k])) ==>
                r == Ok(Lookup(db.rows, q).value)
      ensures pool == Acquired(Healthy) && (forall k :: 0 <= k < |db.rows| ==> !Selects(q, db.rows[k])) ==>
                r == Err(InternalError)
    {
      if pool.PoolTimeout? {
        return Err(NetworkError);
      }
      var res := db.GetAccount(pool.conn, q);
      if res.Err? {
        return Err(InternalError);
      }
      r := Ok(res.value);
    }
  }
}
