/**
 * The bookmark store: named pointers to (thread, checkpoint) pairs, kept in
 * the table `conversation_bookmarks`. The relational table is modelled as a
 * `Table` object holding its rows; each manager operation is one statement
 * against it.
 */
module Bookmarks {
  import opened Common

  const TableName: string := "conversation_bookmarks"

  /** One row of the table; `createdAt` is a timestamp. */
  datatype Bookmark = Bookmark(
    id: string,
    threadId: string,
    checkpointId: string,
    name: Option<string>,
    description: Option<string>,
    createdAt: int)
  {
    /** `to_dict`: one key per column. */
    function ToDict(): (d: map<string, Value>)
      ensures d.Keys == {"id", "thread_id", "checkpoint_id", "name", "description", "created_at"}
      ensures d["name"].Null? <==> name.None?
    {
      map[
        "id" := Str(id),
        "thread_id" := Str(threadId),
        "checkpoint_id" := Str(checkpointId),
        "name" := OptionalStr(name),
        "description" := OptionalStr(description),
        "created_at" := Time(createdAt)
      ]
    }
  }

  /** The inverse of `ToDict`, for dictionaries of the right shape. */
  function BookmarkFromDict(d: map<string, Value>): Option<Bookmark> {
    if "id" in d && "thread_id" in d && "checkpoint_id" in d && "name" in d && "description" in d && "created_at" in d
       && d["id"].Str? && d["thread_id"].Str? && d["checkpoint_id"].Str? && d["created_at"].Time?
       && AsOptionalStr(d["name"]).Some? && AsOptionalStr(d["description"]).Some?
    then
      Some(Bookmark(d["id"].s, d["thread_id"].s, d["checkpoint_id"].s,
                    AsOptionalStr(d["name"]).value, AsOptionalStr(d["description"]).value, d["created_at"].t))
    else None
  }

  /** Serialising a bookmark loses nothing. */
  lemma BookmarkDictRoundTrip(b: Bookmark)
    ensures BookmarkFromDict(b.ToDict()) == Some(b)
  {
  }

  /** A result row as the driver returns it: the six selected columns in order. */
  type Row = (string, string, string, Option<string>, Option<string>, int)

  /** The `SELECT id, thread_id, checkpoint_id, name, description, created_at` projection. */
  function RowOf(b: Bookmark): Row {
    (b.id, b.threadId, b.checkpointId, b.name, b.description, b.createdAt)
  }

  /** The `Bookmark(...)` built from a result row. */
  function FromRow(row: Row): (b: Bookmark)
    ensures RowOf(b) == row
  {
    Bookmark(row.0, row.1, row.2, row.3, row.4, row.5)
  }

  /** Errors: the unique-violation `ValueError`, and the driver error for a table not yet created. */
  datatype DbError = NameConflict(name: Option<string>) | UndefinedTable

  // ---------------------------------------------------------------------------
  // Table constraints and query predicates
  // ---------------------------------------------------------------------------

  /** The primary key. */
  ghost predicate UniqueIds(rows: seq<Bookmark>) {
    forall i, j :: 0 <= i < j < |rows| ==> rows[i].id != rows[j].id
  }

  /** `UNIQUE (name)`: non-null names are distinct; any number of rows may have a null name. */
  ghost predicate UniqueNames(rows: seq<Bookmark>) {
    forall i, j :: 0 <= i < j < |rows| && rows[i].name.Some? ==> rows[i].name != rows[j].name
  }

  ghost predicate TableConstraints(rows: seq<Bookmark>) {
    UniqueIds(rows) && UniqueNames(rows)
  }

  /** `WHERE name = %s OR id = %s`; a null name equals nothing. */
  function Matches(b: Bookmark, identifier: string): (r: bool)
    ensures b.name.None? ==> (r <==> b.id == identifier)
    ensures b.id != identifier ==> (r <==> b.name == Some(identifier))
  {
    b.name == Some(identifier) || b.id == identifier
  }

  /** The thread filter of `list`: applied only when the argument is truthy. */
  function Selects(threadId: Option<string>, b: Bookmark): (r: bool)
    ensures threadId == None || threadId == Some("") ==> r
    ensures threadId.Some? && threadId.value != "" ==> (r <==> b.threadId == threadId.value)
  {
    Truthy(threadId) ==> b.threadId == threadId.value
  }

  /** Inserting a row with this id and name violates a unique constraint. */
  function Conflicts(rows: seq<Bookmark>, id: string, name: Option<string>): (r: bool)
    ensures rows == [] ==> !r
    ensures name.None? ==> (r <==> exists b :: b in rows && b.id == id)
  {
    (exists b :: b in rows && b.id == id) || (name.Some? && exists b :: b in rows && b.name == name)
  }

  /** `ORDER BY created_at DESC`. */
  ghost predicate NewestFirst(s: seq<Bookmark>) {
    forall i, j :: 0 <= i < j < |s| ==> s[i].createdAt >= s[j].createdAt
  }

  // ---------------------------------------------------------------------------
  // Query functions
  // ---------------------------------------------------------------------------

  /** The first row in storage order that matches `identifier` (`LIMIT 1`). */
  function FirstMatch(rows: seq<Bookmark>, identifier: string): (r: Option<Bookmark>)
    ensures r.Some? ==> r.value in rows && Matches(r.value, identifier)
    ensures r.None? <==> forall b :: b in rows ==> !Matches(b, identifier)
  {
    if rows == [] then None
    else if Matches(rows[0], identifier) then Some(rows[0])
    else FirstMatch(rows[1..], identifier)
  }

  /** The rows the thread filter keeps, in storage order. */
  function Select(rows: seq<Bookmark>, threadId: Option<string>): (r: seq<Bookmark>)
    ensures forall b :: b in r <==> b in rows && Selects(threadId, b)
    ensures multiset(r) <= multiset(rows)
  {
    if rows == [] then []
    else
      assert rows == [rows[0]] + rows[1..];
      (if Selects(threadId, rows[0]) then [rows[0]] else []) + Select(rows[1..], threadId)
  }

  /** The rows left after `DELETE ... WHERE name = x OR id = x`, in storage order. */
  function Remove(rows: seq<Bookmark>, identifier: string): (r: seq<Bookmark>)
    ensures forall b :: b in r <==> b in rows && !Matches(b, identifier)
    ensures |r| <= |rows|
  {
    if rows == [] then []
    else (if Matches(rows[0], identifier) then [] else [rows[0]]) + Remove(rows[1..], identifier)
  }

  /** Prepending a row at least as new as the head keeps a list newest first. */
  lemma NewestFirstCons(x: Bookmark, s: seq<Bookmark>)
    requires NewestFirst(s)
    requires s != [] ==> x.createdAt >= s[0].createdAt
    ensures NewestFirst([x] + s)
  {
    var r := [x] + s;
    forall i, j | 0 <= i < j < |r| ensures r[i].createdAt >= r[j].createdAt {
      assert r[j] == s[j - 1];
      if i > 0 {
        assert r[i] == s[i - 1];
      }
    }
  }

  /** Places `b` into a newest-first list. */
  function InsertNewestFirst(b: Bookmark, s: seq<Bookmark>): (r: seq<Bookmark>)
    requires NewestFirst(s)
    ensures NewestFirst(r)
    ensures multiset(r) == multiset(s) + multiset{b}
    ensures |r| == |s| + 1 && (r[0] == b || (s != [] && r[0] == s[0]))
  {
    if s == [] then [b]
    else if b.createdAt >= s[0].createdAt then
      NewestFirstCons(b, s);
      [b] + s
    else
      assert s == [s[0]] + s[1..];
      var rest := InsertNewestFirst(b, s[1..]);
      NewestFirstCons(s[0], rest);
      [s[0]] + rest
  }

  /** The result order of `list`: newest first, the same rows. */
  function SortNewestFirst(s: seq<Bookmark>): (r: seq<Bookmark>)
    ensures NewestFirst(r)
    ensures multiset(r) == multiset(s)
  {
    if s == [] then []
    else
      assert s == [s[0]] + s[1..];
      InsertNewestFirst(s[0], SortNewestFirst(s[1..]))
  }

  /** Sorting the selection keeps exactly the selected rows. */
  lemma ListedRows(rows: seq<Bookmark>, threadId: Option<string>)
    ensures forall b :: b in SortNewestFirst(Select(rows, threadId)) <==> b in rows && Selects(threadId, b)
  {
    var chosen := Select(rows, threadId);
    var sorted := SortNewestFirst(chosen);
    forall b
      ensures b in sorted <==> b in chosen
    {
      assert b in sorted <==> b in multiset(sorted);
      assert b in chosen <==> b in multiset(chosen);
    }
  }

  // ---------------------------------------------------------------------------
  // Properties of the table
  // ---------------------------------------------------------------------------

  /** An insert that violates no unique constraint keeps both constraints. */
  lemma AppendKeepsConstraints(rows: seq<Bookmark>, b: Bookmark)
    requires TableConstraints(rows)
    requires !Conflicts(rows, b.id, b.name)
    ensures TableConstraints(rows + [b])
  {
    var rows' := rows + [b];
    forall i, j | 0 <= i < j < |rows'|
      ensures rows'[i].id != rows'[j].id
      ensures rows'[i].name.Some? ==> rows'[i].name != rows'[j].name
    {
      if j == |rows| {
        assert rows'[i] in rows;
      }
    }
  }

  /** Deleting rows keeps both constraints. */
  lemma {:induction false} RemoveKeepsConstraints(rows: seq<Bookmark>, identifier: string)
    requires TableConstraints(rows)
    ensures TableConstraints(Remove(rows, identifier))
    decreases |rows|
  {
    if rows != [] {
      var tail := rows[1..];
      assert TableConstraints(tail) by {
        forall i, j | 0 <= i < j < |tail|
          ensures tail[i].id != tail[j].id
          ensures tail[i].name.Some? ==> tail[i].name != tail[j].name
        {
          assert tail[i] == rows[i + 1] && tail[j] == rows[j + 1];
        }
      }
      RemoveKeepsConstraints(tail, identifier);
      var rest := Remove(tail, identifier);
      if !Matches(rows[0], identifier) {
        var r := [rows[0]] + rest;
        forall i, j | 0 <= i < j < |r|
          ensures r[i].id != r[j].id
          ensures r[i].name.Some? ==> r[i].name != r[j].name
        {
          if i == 0 {
            assert r[j] in tail;
            var k :| 0 <= k < |tail| && tail[k] == r[j];
            assert rows[k + 1] == r[j];
          } else {
            assert r[i] == rest[i - 1] && r[j] == rest[j - 1];
          }
        }
      }
    }
  }

  /** A second delete of the same identifier finds nothing and removes nothing. */
  lemma {:induction false} RemoveIdempotent(rows: seq<Bookmark>, identifier: string)
    ensures Remove(Remove(rows, identifier), identifier) == Remove(rows, identifier)
    ensures forall b :: b in Remove(rows, identifier) ==> !Matches(b, identifier)
    decreases |rows|
  {
    if rows != [] {
      var rest := Remove(rows[1..], identifier);
      RemoveIdempotent(rows[1..], identifier);
      if Matches(rows[0], identifier) {
        assert Remove(rows, identifier) == rest;
      } else {
        var r := Remove(rows, identifier);
        assert r == [rows[0]] + rest;
        assert r[0] == rows[0] && r[1..] == rest;
        assert Remove(r, identifier) == [rows[0]] + Remove(rest, identifier);
      }
    }
  }

  /** Delete removes a row exactly when some row matches. */
  lemma {:induction false} RemoveShrinksIffMatch(rows: seq<Bookmark>, identifier: string)
    ensures |Remove(rows, identifier)| < |rows| <==> exists b :: b in rows && Matches(b, identifier)
    decreases |rows|
  {
    if rows != [] {
      RemoveShrinksIffMatch(rows[1..], identifier);
      assert forall b :: b in rows <==> b == rows[0] || b in rows[1..];
    }
  }

  /** After saving a named bookmark, `get` by that name finds it (given no id spells the same string). */
  lemma {:induction false} SaveThenGetByName(rows: seq<Bookmark>, b: Bookmark, n: string)
    requires b.name == Some(n)
    requires !Conflicts(rows, b.id, b.name)
    requires forall r :: r in rows ==> r.id != n
    ensures FirstMatch(rows + [b], n) == Some(b)
    decreases |rows|
  {
    if rows != [] {
      assert (rows + [b])[1..] == rows[1..] + [b];
      assert !Matches(rows[0], n);
      SaveThenGetByName(rows[1..], b, n);
    }
  }

  /** Once a name is in the table, any further save with that name conflicts. */
  lemma SecondSaveConflicts(rows: seq<Bookmark>, b: Bookmark, otherId: string)
    requires b.name.Some?
    ensures Conflicts(rows + [b], otherId, b.name)
  {
    assert b in rows + [b];
  }

  /** The OR lookup gives a name match no precedence: an id match may be returned ahead of it. */
  lemma GetNoNamePrecedence(x: Bookmark, y: Bookmark)
    requires x.id == "k" && x.name == None
    requires y.name == Some("k")
    ensures FirstMatch([x, y], "k") == Some(x)
  {
  }

  // ---------------------------------------------------------------------------
  // The table and the manager
  // ---------------------------------------------------------------------------

  /** The loop of `list` that builds one `Bookmark` per result row, in row order. */
  method BookmarksFromRows(rows: seq<Row>) returns (bookmarks: seq<Bookmark>)
    ensures |bookmarks| == |rows|
    ensures forall k :: 0 <= k < |rows| ==> RowOf(bookmarks[k]) == rows[k]
  {
    bookmarks := [];
    for i := 0 to |rows|
      invariant |bookmarks| == i
      invariant forall k :: 0 <= k < i ==> RowOf(bookmarks[k]) == rows[k]
    {
      bookmarks := bookmarks + [FromRow(rows[i])];
    }
  }

  /** The database table: whether it has been created, and its rows in storage order. */
  class Table {
    var created: bool
    var rows: seq<Bookmark>

    ghost predicate Valid()
      reads this
    {
      (created || rows == []) && TableConstraints(rows)
    }

    /** A database in which the table does not exist yet. */
    constructor Empty()
      ensures Valid() && !created && rows == []
    {
      created := false;
      rows := [];
    }
  }

  /** `BookmarkManager`: every method is one statement against `table`, the database `postgresUri` names. */
  class BookmarkManager {
    const postgresUri: string
    const table: Table

    constructor(postgresUri: string, table: Table)
      ensures this.postgresUri == postgresUri && this.table == table
    {
      this.postgresUri := postgresUri;
      this.table := table;
    }

    /** `initialize`: `CREATE TABLE IF NOT EXISTS` plus its indexes; existing rows are kept. */
    method Initialize()
      requires table.Valid()
      modifies table
      ensures table.Valid()
      ensures table.created && table.rows == old(table.rows)
      ensures old(table.created) ==> unchanged(table)
    {
      if !table.created {
        table.created := true;
      }
    }

    /**
     * `save`: inserts one row with the generated `newId` and timestamp `now`.
     * Any unique violation, on the name or on the id, is reported as the name conflict.
     */
    method Save(threadId: string, checkpointId: string, name: Option<string> := None,
                description: Option<string> := None, newId: string, now: int)
      returns (r: Result<Bookmark, DbError>)
      requires table.Valid()
      modifies table
      ensures table.Valid()
      ensures !old(table.created) ==> r == Failure(UndefinedTable) && unchanged(table)
      ensures old(table.created) && Conflicts(old(table.rows), newId, name) ==>
                r == Failure(NameConflict(name)) && unchanged(table)
      ensures old(table.created) && !Conflicts(old(table.rows), newId, name) ==>
                r == Success(Bookmark(newId, threadId, checkpointId, name, description, now))
                && table.created && table.rows == old(table.rows) + [r.value]
    {
      if !table.created {
        return Failure(UndefinedTable);
      }
      if Conflicts(table.rows, newId, name) {
        return Failure(NameConflict(name));
      }
      var b := Bookmark(newId, threadId, checkpointId, name, description, now);
      AppendKeepsConstraints(table.rows, b);
      table.rows := table.rows + [b];
      r := Success(b);
    }

    /** `get`: some row whose name or id equals `identifier`, or none when no row does. */
    method Get(identifier: string) returns (r: Result<Option<Bookmark>, DbError>)
      requires table.Valid()
      ensures !table.created ==> r == Failure(UndefinedTable)
      ensures table.created ==> r.Success?
      ensures r.Success? && r.value.Some? ==> r.value.value in table.rows && Matches(r.value.value, identifier)
      ensures r.Success? && r.value.None? ==> forall b :: b in table.rows ==> !Matches(b, identifier)
    {
      if !table.created {
        return Failure(UndefinedTable);
      }
      var found := FirstMatch(table.rows, identifier);
      if found.None? {
        return Success(None);
      }
      var row := RowOf(found.value);
      r := Success(Some(FromRow(row)));
    }

    /** `list`: the selected rows, newest first, built one result row at a time. */
    method List(threadId: Option<string> := None) returns (r: Result<seq<Bookmark>, DbError>)
      requires table.Valid()
      ensures !table.created ==> r == Failure(UndefinedTable)
      ensures table.created ==> r.Success?
      ensures r.Success? ==> NewestFirst(r.value)
      ensures r.Success? ==> multiset(r.value) == multiset(Select(table.rows, threadId))
      ensures r.Success? ==> forall b :: b in r.value <==> b in table.rows && Selects(threadId, b)
    {
      if !table.created {
        return Failure(UndefinedTable);
      }
      var selected := SortNewestFirst(Select(table.rows, threadId));
      var rows := seq(|selected|, k requires 0 <= k < |selected| => RowOf(selected[k]));
      var bookmarks := BookmarksFromRows(rows);
      assert bookmarks == selected by {
        forall k | 0 <= k < |selected|
          ensures bookmarks[k] == selected[k]
        {
          assert RowOf(bookmarks[k]) == RowOf(selected[k]);
        }
      }
      ListedRows(table.rows, threadId);
      r := Success(bookmarks);
    }

    /** `delete`: removes every row matching `identifier`; reports whether any row went. */
    method Delete(identifier: string) returns (r: Result<bool, DbError>)
      requires table.Valid()
      modifies table
      ensures table.Valid()
      ensures !old(table.created) ==> r == Failure(UndefinedTable) && unchanged(table)
      ensures old(table.created) ==>
                table.created && table.rows == Remove(old(table.rows), identifier)
                && r == Success(exists b :: b in old(table.rows) && Matches(b, identifier))
    {
      if !table.created {
        return Failure(UndefinedTable);
      }
      var kept := Remove(table.rows, identifier);
      var rowcount := |table.rows| - |kept|;
      RemoveShrinksIffMatch(table.rows, identifier);
      RemoveKeepsConstraints(table.rows, identifier);
      table.rows := kept;
      r := Success(rowcount > 0);
    }
  }
}
