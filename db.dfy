/** The Postgres store behind `db::get_userdata` and `db::update_userdata`, as a map from
    token to row, and the pool that hands out clients. */
module Db {
  import opened Wrappers
  import opened Models

  class Store {
    /** Whether the pool can hand out a client. */
    const online: bool
    /** Whether the update statement goes through; a query can fail (a lost connection, a
        refused write) even after the read before it succeeded. */
    const writable: bool
    var rows: map<string, UserData>

    constructor(online: bool, writable: bool, rows: map<string, UserData>)
      ensures this.online == online && this.writable == writable && this.rows == rows
    {
      this.online := online;
      this.writable := writable;
      this.rows := rows;
    }

    /** `db_pool.get()`: fails exactly when the pool is unavailable. */
    method Connect() returns (r: Result<(), string>)
      ensures r.Ok? <==> online
    {
      if online {
        r := Ok(());
      } else {
        r := Err("pool unavailable");
      }
    }

    /** `get_userdata(token)`: the row of the token; an error (`ColumnNotFound`) when the
        query returns no row. */
    method GetUserdata(token: string) returns (r: Result<UserData, string>)
      ensures token in rows <==> r.Ok?
      ensures r.Ok? ==> r.value == rows[token]
    {
      if token in rows {
        r := Ok(rows[token]);
      } else {
        r := Err("ColumnNotFound");
      }
    }

    /** `update_userdata(token, beta, data)` at time `now`: rewrites the token's row and
        returns the new row; leaves the store alone when there is no such row or the query
        fails. */
    method UpdateUserdata(token: string, beta: bool, data: UpdateUserData, now: int) returns (r: Result<UserData, string>)
      modifies this
      ensures r.Ok? <==> writable && token in old(rows)
      ensures r.Ok? ==> r.value == Updated(old(rows)[token], beta, data, now)
                        && rows == old(rows)[token := r.value]
      ensures r.Err? ==> rows == old(rows)
    {
      if !writable {
        r := Err("query failed");
      } else if token in rows {
        var row := Updated(rows[token], beta, data, now);
        rows := rows[token := row];
        r := Ok(row);
      } else {
        r := Err("ColumnNotFound");
      }
    }
  }
}
