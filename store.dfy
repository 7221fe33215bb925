/** The Postgres table behind each REST service, seen as a map from id to
    row, and the HTTP responses the Express handlers send. */
module Store {
  import opened Json

  /** A text column as Postgres holds it: SQL NULL or a string. */
  datatype Cell = SqlNull | Txt(t: string)

  /** How node-postgres binds a query parameter: `undefined` and `null`
      both become NULL, a string is sent as text. */
  function Param(v: Value): (c: Cell)
    ensures c.SqlNull? <==> !v.Str?
    ensures v.Str? ==> c == Txt(v.s)
  {
    match v
    case Str(s) => Txt(s)
    case _ => SqlNull
  }

  /** `COALESCE(p, current)`: the first argument unless it is NULL. */
  function Coalesce(p: Cell, current: Cell): Cell {
    if p.SqlNull? then current else p
  }

  /** A cell as it appears in the JSON a handler sends. */
  function ToJson(c: Cell): (v: Value)
    ensures c.SqlNull? ==> v == Null
    ensures c.Txt? ==> v == Str(c.t)
  {
    match c
    case SqlNull => Null
    case Txt(t) => Str(t)
  }

  /** A row of a table together with its id, as SELECT and RETURNING give it. */
  datatype Row<R> = Row(id: nat, data: R)

  /** A table: at most one row per id. */
  type Table<R> = map<nat, R>

  /** Some least element of a non-empty set, found by removing one element
      at a time. */
  ghost function MinOf(ids: set<nat>): (m: nat)
    requires ids != {}
    ensures m in ids
    ensures forall k :: k in ids ==> m <= k
    decreases |ids|
  {
    var x :| x in ids;
    if ids == {x} then x
    else
      var rest := MinOf(ids - {x});
      assert forall k :: k in ids ==> k == x || k in ids - {x};
      if x < rest then x else rest
  }

  lemma HasLeast(ids: set<nat>)
    requires ids != {}
    ensures exists m :: m in ids && forall k :: k in ids ==> m <= k
  {
    var m := MinOf(ids);
  }

  /** The least id of a non-empty set. */
  function Least(ids: set<nat>): (m: nat)
    requires ids != {}
    ensures m in ids && forall k :: k in ids ==> m <= k
  {
    HasLeast(ids);
    var m :| m in ids && forall k :: k in ids ==> m <= k;
    m
  }

  /** The ids of a set, least first. */
  function SortedIds(ids: set<nat>): (r: seq<nat>)
    ensures |r| == |ids|
    ensures forall k :: k in r <==> k in ids
    decreases |ids|
  {
    if ids == {} then []
    else
      var m := Least(ids);
      [m] + SortedIds(ids - {m})
  }

  /** The ids come in strictly ascending order. */
  lemma {:induction false} SortedIdsAscending(ids: set<nat>)
    ensures forall i, j :: 0 <= i < j < |SortedIds(ids)| ==> SortedIds(ids)[i] < SortedIds(ids)[j]
    decreases |ids|
  {
    if ids != {} {
      var m := Least(ids);
      var rest := SortedIds(ids - {m});
      SortedIdsAscending(ids - {m});
      var r := SortedIds(ids);
      assert r == [m] + rest;
      forall i, j | 0 <= i < j < |r|
        ensures r[i] < r[j]
      {
        assert r[j] == rest[j - 1] && r[j] in ids - {m};
        if i > 0 {
          assert r[i] == rest[i - 1];
        } else {
          assert r[i] == m;
        }
      }
    }
  }

  /** Ids strictly increase along the sequence. */
  predicate StrictlyAscending<R>(rows: seq<Row<R>>) {
    forall i, j :: 0 <= i < j < |rows| ==> rows[i].id < rows[j].id
  }

  /** `SELECT ... ORDER BY id ASC`: every row of the table exactly once,
      by ascending id. */
  function OrderedRows<R>(t: Table<R>): (r: seq<Row<R>>)
    ensures |r| == |t|
    ensures StrictlyAscending(r)
    ensures forall i :: 0 <= i < |r| ==> r[i].id in t && r[i].data == t[r[i].id]
    ensures forall id :: id in t ==> Row(id, t[id]) in r
  {
    var ids := SortedIds(t.Keys);
    SortedIdsAscending(t.Keys);
    RowsAtAscending(t, ids);
    RowsAtCovers(t, ids);
    RowsAtFromTable(t, ids);
    RowsAt(t, ids)
  }

  /** Each row taken is the table's row of its id. */
  lemma RowsAtFromTable<R>(t: Table<R>, ids: seq<nat>)
    requires forall k :: k in ids ==> k in t
    ensures forall i :: 0 <= i < |RowsAt(t, ids)| ==> RowsAt(t, ids)[i].id in t && RowsAt(t, ids)[i].data == t[RowsAt(t, ids)[i].id]
  {
  }

  /** Rows taken at ascending ids are by ascending id. */
  lemma RowsAtAscending<R>(t: Table<R>, ids: seq<nat>)
    requires forall k :: k in ids ==> k in t
    requires forall i, j :: 0 <= i < j < |ids| ==> ids[i] < ids[j]
    ensures StrictlyAscending(RowsAt(t, ids))
  {
    var r := RowsAt(t, ids);
    assert forall i :: 0 <= i < |r| ==> r[i].id == ids[i];
  }

  /** Every row of the table whose id is listed is among the rows taken. */
  lemma RowsAtCovers<R>(t: Table<R>, ids: seq<nat>)
    requires forall k :: k in ids <==> k in t
    ensures forall id :: id in t ==> Row(id, t[id]) in RowsAt(t, ids)
  {
    var r := RowsAt(t, ids);
    forall id | id in t
      ensures Row(id, t[id]) in r
    {
      var i :| 0 <= i < |ids| && ids[i] == id;
      assert r[i] == Row(id, t[id]);
    }
  }

  /** The rows of the given ids, in the order of the ids. */
  function RowsAt<R>(t: Table<R>, ids: seq<nat>): (r: seq<Row<R>>)
    requires forall k :: k in ids ==> k in t
    ensures |r| == |ids|
    ensures forall i :: 0 <= i < |r| ==> r[i] == Row(ids[i], t[ids[i]])
  {
    if ids == [] then [] else [Row(ids[0], t[ids[0]])] + RowsAt(t, ids[1..])
  }

  /** The HTTP responses of the handlers, one constructor per status code;
      an error response carries the `error` string of its JSON body. */
  datatype Response<T> =
    | Ok(body: T)                // 200
    | Created(body: T)           // 201
    | BadRequest(error: string)  // 400
    | NotFound(error: string)    // 404
    | ServerError(error: string) // 500
  {
    function Status(): nat {
      match this
      case Ok(_) => 200
      case Created(_) => 201
      case BadRequest(_) => 400
      case NotFound(_) => 404
      case ServerError(_) => 500
    }
  }

  /** The `{deletedId}` body of a successful DELETE. */
  datatype Deleted = Deleted(deletedId: nat)

  /** A GET of the whole collection: `SELECT ... ORDER BY id ASC`, or a 500
      when the store fails. */
  function ListRows<R>(t: Table<R>, storeFails: bool): (r: Response<seq<Row<R>>>)
    ensures storeFails <==> r == ServerError("query failed")
    ensures !storeFails ==> r.Ok? && r.body == OrderedRows(t)
  {
    if storeFails then ServerError("query failed") else Ok(OrderedRows(t))
  }

  /** A GET by id: the row, a 404 with the given message when no row has that
      id, or a 500 when the store fails. */
  function GetRow<R>(t: Table<R>, id: nat, notFound: string, storeFails: bool): (r: Response<Row<R>>)
    ensures r.ServerError? <==> storeFails
    ensures storeFails ==> r == ServerError("query failed")
    ensures r.NotFound? <==> !storeFails && id !in t
    ensures r.Ok? <==> !storeFails && id in t
    ensures r.Ok? ==> r.body == Row(id, t[id])
    ensures r.NotFound? ==> r.error == notFound
  {
    if storeFails then ServerError("query failed")
    else if id !in t then NotFound(notFound)
    else Ok(Row(id, t[id]))
  }
}
