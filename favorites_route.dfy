/**
 * The `/api/favorites` handlers over the `favorites` table. Each handler
 * runs after the authentication middleware, so the caller's `userId` is
 * known. Whether a query throws is a parameter.
 */
module FavoritesRoute {
  import opened JsValues
  import opened Seqs
  import opened Http

  /** One row of `favorites (user_id, coin_symbol)`. */
  datatype FavoriteRow = FavoriteRow(userId: int, symbol: string)

  /** How the database behaves during one POST. */
  datatype InsertFault = Healthy | SelectFails | InsertFails(duplicateEntry: bool)

  /** `SELECT coin_symbol FROM favorites WHERE user_id = ?`, in table order. */
  function SymbolsOf(rows: seq<FavoriteRow>, userId: int): (r: seq<string>)
    ensures forall s :: s in r <==> FavoriteRow(userId, s) in rows
  {
    if rows == [] then []
    else (if rows[0].userId == userId then [rows[0].symbol] else []) + SymbolsOf(rows[1..], userId)
  }

  /** The rows a `DELETE ... WHERE user_id = ? AND coin_symbol = ?` keeps. */
  function KeepsRow(userId: int, symbol: string): FavoriteRow -> bool
  {
    (r: FavoriteRow) => !(r.userId == userId && r.symbol == symbol)
  }

  /** The table after that DELETE. */
  function Remaining(rows: seq<FavoriteRow>, userId: int, symbol: string): (r: seq<FavoriteRow>)
    ensures FavoriteRow(userId, symbol) !in r
    ensures forall x :: x in r <==> x in rows && x != FavoriteRow(userId, symbol)
  {
    Filter(rows, KeepsRow(userId, symbol))
  }

  /** Adding a row for one user appends its symbol to that user's list and leaves other lists alone. */
  lemma {:induction false} SymbolsOfAppend(rows: seq<FavoriteRow>, row: FavoriteRow, userId: int)
    ensures SymbolsOf(rows + [row], userId) ==
              SymbolsOf(rows, userId) + (if row.userId == userId then [row.symbol] else [])
  {
    if rows == [] {
      assert rows + [row] == [row];
    } else {
      assert (rows + [row])[1..] == rows[1..] + [row];
      SymbolsOfAppend(rows[1..], row, userId);
    }
  }

  /** Removing one user's symbol never changes another user's list. */
  lemma {:induction false} RemoveKeepsOtherUsers(rows: seq<FavoriteRow>, userId: int, symbol: string, other: int)
    requires other != userId
    ensures SymbolsOf(Remaining(rows, userId, symbol), other) == SymbolsOf(rows, other)
  {
    if rows != [] {
      var p := KeepsRow(userId, symbol);
      var x, tail := rows[0], rows[1..];
      RemoveKeepsOtherUsers(tail, userId, symbol, other);
      assert rows == [x] + tail;
      FilterConcat([x], tail, p);
      var head := Filter([x], p);
      assert [x][1..] == [];
      assert head == (if p(x) then [x] else []);
      // A row the DELETE drops belongs to `userId`, so `other`'s list never had it.
      assert SymbolsOf(head, other) == SymbolsOf([x], other);
      SymbolsOfConcat(head, Remaining(tail, userId, symbol), other);
      SymbolsOfConcat([x], tail, other);
    }
  }

  /** The list of a user over a concatenation of tables. */
  lemma {:induction false} SymbolsOfConcat(a: seq<FavoriteRow>, b: seq<FavoriteRow>, userId: int)
    ensures SymbolsOf(a + b, userId) == SymbolsOf(a, userId) + SymbolsOf(b, userId)
  {
    if a == [] {
      assert a + b == b;
    } else {
      assert (a + b)[1..] == a[1..] + b;
      SymbolsOfConcat(a[1..], b, userId);
    }
  }

  /** The `favorites` table. */
  class FavoritesTable {
    var rows: seq<FavoriteRow>

    constructor ()
      ensures rows == []
    {
      rows := [];
    }

    /** Each (user, symbol) pair at most once. */
    predicate Valid()
      reads this
    {
      Distinct(rows)
    }

    /** GET /: the symbols of the rows belonging to `userId`, or 500 when the query throws. */
    method List(userId: int, dbFails: bool) returns (resp: Response<seq<string>>)
      ensures dbFails ==> resp == Error(500, "Server Error")
      ensures !dbFails ==> resp == Json(200, SymbolsOf(rows, userId))
      ensures !dbFails ==> forall s :: s in resp.body <==> FavoriteRow(userId, s) in rows
    {
      if dbFails {
        return Error(500, "Server Error");
      }
      resp := Json(200, SymbolsOf(rows, userId));
    }

    /** POST /: adds `symbol` to the user's favorites unless it is missing or already there. */
    method Add(userId: int, symbol: Option<string>, fault: InsertFault) returns (resp: Response<string>)
      modifies this
      ensures !TruthyStr(symbol) ==> resp == Error(400, "Coin symbol is required") && rows == old(rows)
      ensures TruthyStr(symbol) && fault.SelectFails? ==> resp == Error(500, "Server Error") && rows == old(rows)
      ensures TruthyStr(symbol) && !fault.SelectFails? && FavoriteRow(userId, symbol.value) in old(rows) ==>
                resp == Error(400, "Coin already in favorites") && rows == old(rows)
      ensures TruthyStr(symbol) && fault.InsertFails? && FavoriteRow(userId, symbol.value) !in old(rows) ==>
                rows == old(rows)
                && resp == (if fault.duplicateEntry then Error(400, "Coin already in favorites (concurrent request?)")
                            else Error(500, "Server Error"))
      ensures TruthyStr(symbol) && fault.Healthy? && FavoriteRow(userId, symbol.value) !in old(rows) ==>
                resp == Json(201, "Coin added to favorites") && rows == old(rows) + [FavoriteRow(userId, symbol.value)]
      ensures old(Valid()) ==> Valid()
    {
      if !TruthyStr(symbol) {
        return Error(400, "Coin symbol is required");
      }
      if fault.SelectFails? {
        return Error(500, "Server Error");
      }
      var row := FavoriteRow(userId, symbol.value);
      if row in rows {
        return Error(400, "Coin already in favorites");
      }
      if fault.InsertFails? {
        if fault.duplicateEntry {
          return Error(400, "Coin already in favorites (concurrent request?)");
        }
        return Error(500, "Server Error");
      }
      rows := rows + [row];
      resp := Json(201, "Coin added to favorites");
    }

    /** DELETE /:symbol: removes the user's row for `symbol`; 404 when there is none. */
    method Remove(userId: int, symbol: string, dbFails: bool) returns (resp: Response<string>)
      modifies this
      ensures dbFails ==> resp == Error(500, "Server Error") && rows == old(rows)
      ensures !dbFails && FavoriteRow(userId, symbol) !in old(rows) ==>
                resp == Error(404, "Favorite coin not found") && rows == old(rows)
      ensures !dbFails && FavoriteRow(userId, symbol) in old(rows) ==>
                resp == Json(200, "Coin removed from favorites") && rows == Remaining(old(rows), userId, symbol)
      ensures old(Valid()) ==> Valid()
    {
      if dbFails {
        return Error(500, "Server Error");
      }
      // `affectedRows` is 0 exactly when the user has no row for `symbol`
      if FavoriteRow(userId, symbol) !in rows {
        return Error(404, "Favorite coin not found");
      }
      if Distinct(rows) {
        FilterDistinct(rows, KeepsRow(userId, symbol));
      }
      rows := Remaining(rows, userId, symbol);
      resp := Json(200, "Coin removed from favorites");
    }
  }
}
