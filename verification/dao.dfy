/** The account table and the three queries run against it (src/dao.rs).
    The table is held in memory as a sequence of rows in table order; the
    loops in `UpdateAccount` and `GetAccount` stand for the database engine
    scanning the table for the rows the filters select. */
module Dao {
  import opened Wrappers
  import opened Model

  /** The failures a query can report: no row for `.first()`, a primary-key
      clash on insert, an update whose changeset sets no column (the query
      builder refuses to build it), or a connection that fails while
      executing. */
  datatype DbError = NotFound | UniqueViolation | EmptyChangeset | ConnectionFailed

  /** The state of the connection a query runs on. */
  datatype Connection = Healthy | Broken

  /** What `pool.get()` hands out: a connection, or a timeout. */
  datatype PoolResult = PoolTimeout | Acquired(conn: Connection)

  /** One `.filter(column.eq(value))` of the boxed query builder. */
  datatype Filter = IdEq(id: string) | PhoneEq(phone: string)

  predicate Holds(f: Filter, a: Account) {
    match f
    case IdEq(v) => a.id == v
    case PhoneEq(v) => a.phone == v
  }

  /** A row passes a chain of filters when it passes every one. */
  predicate HoldsAll(fs: seq<Filter>, a: Account) {
    forall i :: 0 <= i < |fs| ==> Holds(fs[i], a)
  }

  /** Builds the filter chain of the query step by step, as the handlers'
      `let mut query` / `let mut update` builders do; the chain holds of a row
      exactly when the query selects it. */
  method BuildFilters(q: AccountQuery) returns (fs: seq<Filter>)
    ensures |fs| == (if q.id.Some? then 1 else 0) + (if q.phone.Some? then 1 else 0)
    ensures forall a :: HoldsAll(fs, a) <==> Selects(q, a)
  {
    fs := [];
    if q.id.Some? {
      fs := fs + [IdEq(q.id.value)];
    }
    if q.phone.Some? {
      fs := fs + [PhoneEq(q.phone.value)];
    }
    forall a
      ensures HoldsAll(fs, a) <==> Selects(q, a)
    {
      if q.id.Some? {
        assert fs[0] == IdEq(q.id.value);
      }
      if q.phone.Some? {
        assert fs[|fs| - 1] == PhoneEq(q.phone.value);
      }
    }
  }

  /** No two rows share a primary key. */
  ghost predicate UniqueIds(rows: seq<Account>) {
    forall i, j :: 0 <= i < j < |rows| ==> rows[i].id != rows[j].id
  }

  predicate HasId(rows: seq<Account>, id: string) {
    exists i :: 0 <= i < |rows| && rows[i].id == id
  }

  /** The index of the first row at or after `from` that the query selects. */
  function FirstMatchFrom(rows: seq<Account>, q: AccountQuery, from: nat): (r: Option<nat>)
    requires from <= |rows|
    ensures r.Some? ==> from <= r.value < |rows| && Selects(q, rows[r.value])
    ensures r.Some? ==> forall j :: from <= j < r.value ==> !Selects(q, rows[j])
    ensures r.None? ==> forall j :: from <= j < |rows| ==> !Selects(q, rows[j])
    decreases |rows| - from
  {
    if from == |rows| then None
    else if Selects(q, rows[from]) then Some(from)
    else FirstMatchFrom(rows, q, from + 1)
  }

  function FirstMatch(rows: seq<Account>, q: AccountQuery): Option<nat>
  {
    FirstMatchFrom(rows, q, 0)
  }

  /** The result of `query.first(conn)` on a healthy connection: the first row
      in table order the query selects, or `NotFound`. */
  function Lookup(rows: seq<Account>, q: AccountQuery): (r: Result<Account, DbError>)
    ensures r.Ok? <==> exists k :: 0 <= k < |rows| && Selects(q, rows[k])
    ensures r.Ok? ==> exists k :: 0 <= k < |rows| && r.value == rows[k] && Selects(q, rows[k])
                                  && forall j :: 0 <= j < k ==> !Selects(q, rows[j])
    ensures r.Err? ==> r.error == NotFound
  {
    match FirstMatch(rows, q)
    case Some(k) => Ok(rows[k])
    case None => Err(NotFound)
  }

  /** One row after `UPDATE … SET u WHERE q`. */
  function UpdateRow(q: AccountQuery, u: AccountUpdate, a: Account): Account {
    if Selects(q, a) then Apply(u, a) else a
  }

  /** The table after `UPDATE … SET u WHERE q`: every selected row has the
      changeset applied, every other row is unchanged, the order is kept. */
  function UpdateRows(rows: seq<Account>, q: AccountQuery, u: AccountUpdate): (r: seq<Account>)
    ensures |r| == |rows|
    ensures forall i {:trigger r[i]} :: 0 <= i < |rows| && Selects(q, rows[i]) ==> r[i] == Apply(u, rows[i])
    ensures forall i {:trigger r[i]} :: 0 <= i < |rows| && !Selects(q, rows[i]) ==> r[i] == rows[i]
  {
    if rows == [] then []
    else UpdateRows(rows[..|rows| - 1], q, u) + [UpdateRow(q, u, rows[|rows| - 1])]
  }

  /** The number of rows the query selects: what `execute` reports. */
  function CountSelected(rows: seq<Account>, q: AccountQuery): (n: nat)
    ensures n == |SelectedIndices(rows, q)|
    ensures n <= |rows|
    ensures n == 0 <==> forall i :: 0 <= i < |rows| ==> !Selects(q, rows[i])
  {
    if rows == [] then 0
    else
      var init := rows[..|rows| - 1];
      assert forall i :: 0 <= i < |init| ==> init[i] == rows[i];
      var last := |rows| - 1;
      assert SelectedIndices(rows, q)
        == SelectedIndices(init, q) + (if Selects(q, rows[last]) then {last} else {});
      CountSelected(init, q) + (if Selects(q, rows[last]) then 1 else 0)
  }

  /** Extending the prefix of a table by one row extends the updated rows by
      that row's update and the count by whether it is selected. */
  lemma UpdateStep(rows: seq<Account>, i: nat, q: AccountQuery, u: AccountUpdate)
    requires i < |rows|
    ensures UpdateRows(rows[..i + 1], q, u) == UpdateRows(rows[..i], q, u) + [UpdateRow(q, u, rows[i])]
    ensures CountSelected(rows[..i + 1], q) == CountSelected(rows[..i], q) + (if Selects(q, rows[i]) then 1 else 0)
  {
    assert rows[..i + 1][..i] == rows[..i];
  }

  /** The positions of the rows the query selects. */
  ghost function SelectedIndices(rows: seq<Account>, q: AccountQuery): set<nat> {
    set i: nat | i < |rows| && Selects(q, rows[i])
  }

  /** The database behind the connection pool. */
  class Database {
    var rows: seq<Account>

    ghost predicate Valid()
      reads this
    {
      UniqueIds(rows)
    }

    /** An empty table. */
    constructor ()
      ensures Valid() && rows == []
    {
      rows := [];
    }

    /** `insert_account`: appends exactly the new row, or fails without a
        change when the connection fails or the primary key is taken. */
    method InsertAccount(conn: Connection, ins: AccountInsert) returns (r: Result<(), DbError>)
      requires Valid()
      modifies this
      ensures Valid()
      ensures conn.Broken? ==> r == Err(ConnectionFailed) && rows == old(rows)
      ensures conn.Healthy? && HasId(old(rows), ins.id) ==> r == Err(UniqueViolation) && rows == old(rows)
      ensures conn.Healthy? && !HasId(old(rows), ins.id) ==> r == Ok(()) && rows == old(rows) + [NewAccount(ins)]
    {
      if conn.Broken? {
        return Err(ConnectionFailed);
      }
      if exists i :: 0 <= i < |rows| && rows[i].id == ins.id {
        return Err(UniqueViolation);
      }
      rows := rows + [NewAccount(ins)];
      r := Ok(());
    }

    /** `update_account`: applies `u` to every row `q` selects and reports
        how many that were. A changeset with no `Some` column is refused
        before anything is sent, as the query builder does. */
    method UpdateAccount(conn: Connection, q: AccountQuery, u: AccountUpdate) returns (r: Result<nat, DbError>)
      requires Valid()
      modifies this
      ensures Valid()
      ensures u == DefaultUpdate() ==> r == Err(EmptyChangeset) && rows == old(rows)
      ensures u != DefaultUpdate() && conn.Broken? ==> r == Err(ConnectionFailed) && rows == old(rows)
      ensures u != DefaultUpdate() && conn.Healthy? ==>
                r == Ok(CountSelected(old(rows), q)) && rows == UpdateRows(old(rows), q, u)
    {
      if u == DefaultUpdate() {
        return Err(EmptyChangeset);
      }
      if conn.Broken? {
        return Err(ConnectionFailed);
      }
      var fs := BuildFilters(q);
      var table := rows;
      var updated: seq<Account> := [];
      var n: nat := 0;
      var i := 0;
      while i < |table|
        invariant 0 <= i <= |table|
        invariant updated == UpdateRows(table[..i], q, u)
        invariant n == CountSelected(table[..i], q)
      {
        UpdateStep(table, i, q, u);
        assert HoldsAll(fs, table[i]) <==> Selects(q, table[i]);
        if HoldsAll(fs, table[i]) {
          updated := updated + [Apply(u, table[i])];
          n := n + 1;
        } else {
          updated := updated + [table[i]];
        }
        i := i + 1;
      }
      assert table[..i] == table;
      UpdateRowsKeepsIds(table, q, u);
      rows := updated;
      r := Ok(n);
    }

    /** `get_account`: the first row in table order that `q` selects. */
    method GetAccount(conn: Connection, q: AccountQuery) returns (r: Result<Account, DbError>)
      ensures conn.Broken? ==> r == Err(ConnectionFailed)
      ensures conn.Healthy? ==> r == Lookup(rows, q)
    {
      if conn.Broken? {
        return Err(ConnectionFailed);
      }
      var fs := BuildFilters(q);
      var i := 0;
      while i < |rows|
        invariant 0 <= i <= |rows|
        invariant forall j :: 0 <= j < i ==> !Selects(q, rows[j])
      {
        if HoldsAll(fs, rows[i]) {
          return Ok(rows[i]);
        }
        i := i + 1;
      }
      return Err(NotFound);
    }
  }

  /** An update never changes a primary key, so it keeps them unique. */
  lemma UpdateRowsKeepsIds(rows: seq<Account>, q: AccountQuery, u: AccountUpdate)
    ensures forall i :: 0 <= i < |rows| ==> UpdateRows(rows, q, u)[i].id == rows[i].id
    ensures UniqueIds(rows) ==> UniqueIds(UpdateRows(rows, q, u))
  {
  }

  /** An update selects the same rows before and after it runs, so the first
      row a query finds is at the same place afterwards. */
  lemma {:induction false} FirstMatchStableUnderUpdate(rows: seq<Account>, q: AccountQuery, p: AccountQuery, u: AccountUpdate)
    ensures FirstMatch(UpdateRows(rows, p, u), q) == FirstMatch(rows, q)
  {
    var rows' := UpdateRows(rows, p, u);
    forall j | 0 <= j < |rows|
      ensures Selects(q, rows'[j]) == Selects(q, rows[j])
    {
      SelectsStableUnderApply(q, u, rows[j]);
    }
    var m, m' := FirstMatch(rows, q), FirstMatch(rows', q);
    if m.Some? && m'.Some? {
      assert m.value == m'.value;
    }
  }

  /** After `update_account(q, u)`, a `get_account(q)` that finds a row sees
      every `Some` column of `u`, and the row it finds is the updated form of
      the row the same query found before. */
  lemma UpdateThenGet(rows: seq<Account>, q: AccountQuery, u: AccountUpdate)
    ensures Lookup(UpdateRows(rows, q, u), q).Ok? == Lookup(rows, q).Ok?
    ensures Lookup(rows, q).Ok? ==> Lookup(UpdateRows(rows, q, u), q).value == Apply(u, Lookup(rows, q).value)
    ensures Lookup(UpdateRows(rows, q, u), q).Ok? ==>
      var a := Lookup(UpdateRows(rows, q, u), q).value;
      && (u.password.Some? ==> a.password == u.password.value)
      && (u.loginErrorCount.Some? ==> a.loginErrorCount == u.loginErrorCount.value)
      && (u.lastLoginAt.Some? ==> a.lastLoginAt == u.lastLoginAt)
      && (u.lastErrorAt.Some? ==> a.lastErrorAt == u.lastErrorAt)
  {
    FirstMatchStableUnderUpdate(rows, q, q, u);
  }

  /** An empty query updates every row. */
  lemma UpdateAllWithDefaultQuery(rows: seq<Account>, u: AccountUpdate)
    ensures forall i :: 0 <= i < |rows| ==> UpdateRows(rows, DefaultQuery(), u)[i] == Apply(u, rows[i])
    ensures CountSelected(rows, DefaultQuery()) == |rows|
  {
    if rows != [] {
      UpdateAllWithDefaultQuery(rows[..|rows| - 1], u);
    }
  }

  /** A row just inserted under a fresh primary key is what a lookup by that
      key returns, with the inserted id, phone, password, salt and creation
      time, a zero error count and no login, error or update time. */
  lemma InsertThenGetById(rows: seq<Account>, ins: AccountInsert)
    requires UniqueIds(rows) && !HasId(rows, ins.id)
    ensures UniqueIds(rows + [NewAccount(ins)])
    ensures Lookup(rows + [NewAccount(ins)], IdQuery(ins.id)) == Ok(NewAccount(ins))
    ensures var a := NewAccount(ins);
      && a.id == ins.id && a.phone == ins.phone && a.password == ins.password
      && a.salt == ins.salt && a.createAt == ins.createAt
      && a.loginErrorCount == 0
      && a.lastLoginAt.None? && a.lastErrorAt.None? && a.updateAt.None?
  {
    var rows' := rows + [NewAccount(ins)];
    assert Selects(IdQuery(ins.id), rows'[|rows|]);
    var m := FirstMatch(rows', IdQuery(ins.id));
    assert m.value == |rows|;
  }
}
