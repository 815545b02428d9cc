/**
 * doxygen_whiner/db.py: the ledger of warnings already reported, kept in a
 * `warnings` table of five columns (file, line, text, name, email). The
 * SQLite connection is modelled as the table's contents, or `None` while the
 * table does not exist.
 */
module Db {
  import opened Wrappers
  import opened Utils
  import opened Warnings
  import opened Git

  /** One row of the `warnings` table. */
  datatype Row = Row(file: string, line: int, text: string, name: string, email: string)

  /** The database behind a connection: the `warnings` table, if it has been created. */
  class Connection {
    var warnings: Option<seq<Row>>

    /** A new, empty database (such as `sqlite3.connect(':memory:')`). */
    constructor ()
      ensures warnings == None
    {
      warnings := None;
    }
  }

  /** The INTEGER that SQLite stores for a Python `int`; a `bool` is bound as 0 or 1. */
  function SqlInteger(v: Value): (n: int)
    requires IsInstance(v, IntType)
  {
    if v.Int? then v.i else if v.b then 1 else 0
  }

  /** The bounds of an SQLite INTEGER, a signed 64-bit integer. */
  const MinInteger: int := -0x8000_0000_0000_0000
  const MaxInteger: int := 0x7FFF_FFFF_FFFF_FFFF

  /** The row's values can be bound as statement parameters: its line fits an INTEGER. */
  predicate Bindable(row: Row)
  {
    MinInteger <= row.line <= MaxInteger
  }

  /** The `OverflowError` that `sqlite3` raises for an `int` parameter outside the INTEGER range. */
  datatype BindError = OverflowError(value: int)

  /**
   * `_convert_warning_to_tuple`: the five column values of a warning with a
   * culprit, each read through its attribute.
   */
  function ConvertWarningToTuple(w: Instance): (row: Row)
    reads w, CulpritOf(w)
    requires IsWarningWithCulprit(w)
    ensures Get(FileAttr, w) == Stored(Str(row.file)) && Get(TextAttr, w) == Stored(Str(row.text))
    ensures Get(LineAttr, w) == Stored(Int(row.line))
            || (Get(LineAttr, w) == Stored(Bool(row.line == 1)) && 0 <= row.line <= 1)
    ensures var culprit := w.attrs[CulpritKey].ref;
      Get(NameAttr, culprit) == Stored(Str(row.name)) && Get(EmailAttr, culprit) == Stored(Str(row.email))
  {
    var culprit := w.attrs[CulpritKey].ref;
    Row(w.attrs["file"].s, SqlInteger(w.attrs["line"]), w.attrs["text"].s,
        culprit.attrs["name"].s, culprit.attrs["email"].s)
  }

  /** The WHERE clause of `has_warning`: all five columns equal, compared exactly. */
  predicate Matches(row: Row, key: Row)
  {
    row.file == key.file && row.line == key.line && row.text == key.text
    && row.name == key.name && row.email == key.email
  }

  /** Some row of `rows` satisfies the WHERE clause for `key`. */
  predicate Contains(rows: seq<Row>, key: Row)
  {
    exists i :: 0 <= i < |rows| && Matches(rows[i], key)
  }

  class Database {
    const conn: Connection

    ghost predicate Valid()
      reads conn
    {
      conn.warnings.Some?
    }

    /** The rows of the `warnings` table, oldest first. */
    function Rows(): (rows: seq<Row>)
      reads conn
      requires Valid()
    {
      conn.warnings.value
    }

    /** `Database(conn)`: creates the table if it is missing, keeping any rows it already has. */
    constructor (conn: Connection)
      modifies conn
      ensures this.conn == conn && Valid()
      ensures old(conn.warnings).None? ==> Rows() == []
      ensures old(conn.warnings).Some? ==> Rows() == old(conn.warnings).value
      ensures old(conn.warnings).None? ==> forall key :: !Contains(Rows(), key)
    {
      this.conn := conn;
      new;
      InitializeTable();
    }

    /** `_initialize_table`: `CREATE TABLE IF NOT EXISTS warnings (...)`. */
    method InitializeTable()
      modifies conn
      ensures Valid()
      ensures old(conn.warnings).None? ==> Rows() == []
      ensures old(conn.warnings).Some? ==> Rows() == old(conn.warnings).value
    {
      if conn.warnings.None? {
        conn.warnings := Some([]);
      }
    }

    /**
     * `insert_warning`: appends one row; earlier rows stay, and duplicates
     * are allowed. A line outside the INTEGER range raises `OverflowError`
     * while binding, before anything is written.
     */
    method InsertWarning(w: Instance) returns (r: Outcome<BindError>)
      requires Valid() && IsWarningWithCulprit(w)
      modifies conn
      ensures Valid()
      ensures r.Pass? <==> Bindable(ConvertWarningToTuple(w))
      ensures r.Fail? ==> r.error == OverflowError(ConvertWarningToTuple(w).line) && Rows() == old(Rows())
      ensures r.Pass? ==> Rows() == old(Rows()) + [ConvertWarningToTuple(w)]
      ensures r.Pass? ==> Contains(Rows(), ConvertWarningToTuple(w))
      ensures forall key :: Contains(old(Rows()), key) ==> Contains(Rows(), key)
    {
      var row := ConvertWarningToTuple(w);
      if !Bindable(row) {
        return Fail(OverflowError(row.line));
      }
      ghost var before := Rows();
      conn.warnings := Some(conn.warnings.value + [row]);
      ContainsAfterAppend(before, row, row);
      forall key | Contains(before, key) ensures Contains(Rows(), key) {
        ContainsAfterAppend(before, row, key);
      }
      return Pass;
    }

    /**
     * `has_warning`: whether some row equals the warning's five values; the
     * table is only read. A line outside the INTEGER range raises
     * `OverflowError` while binding.
     */
    method HasWarning(w: Instance) returns (r: Result<bool, BindError>)
      requires Valid() && IsWarningWithCulprit(w)
      ensures r.Success? <==> Bindable(ConvertWarningToTuple(w))
      ensures r.Failure? ==> r.error == OverflowError(ConvertWarningToTuple(w).line)
      ensures r.Success? ==> (r.value <==> Contains(Rows(), ConvertWarningToTuple(w)))
    {
      var key := ConvertWarningToTuple(w);
      if !Bindable(key) {
        return Failure(OverflowError(key.line));
      }
      var found := key in conn.warnings.value;
      if found {
        var i :| 0 <= i < |Rows()| && Rows()[i] == key;
        assert Matches(Rows()[i], key);
      }
      return Success(found);
    }

    /** `reset`: `DELETE FROM warnings`; the table itself remains. */
    method Reset()
      requires Valid()
      modifies conn
      ensures Valid() && Rows() == []
      ensures forall key :: !Contains(Rows(), key)
    {
      conn.warnings := Some([]);
    }
  }

  /** The WHERE clause is row equality: no column is normalised or ignored. */
  lemma MatchesIsEquality(row: Row, key: Row)
    ensures Matches(row, key) <==> row == key
  {
  }

  /**
   * After appending `row`, a key is found exactly when it was found before
   * or it is `row` itself: so an inserted warning is found, and a warning
   * once found stays found whatever is inserted later.
   */
  lemma {:induction false} ContainsAfterAppend(rows: seq<Row>, row: Row, key: Row)
    ensures Contains(rows + [row], key) <==> Contains(rows, key) || row == key
  {
    var extended := rows + [row];
    if Contains(rows, key) {
      var i :| 0 <= i < |rows| && Matches(rows[i], key);
      assert Matches(extended[i], key);
    }
    if row == key {
      assert Matches(extended[|rows|], key);
    }
    if Contains(extended, key) {
      var i :| 0 <= i < |extended| && Matches(extended[i], key);
      if i < |rows| {
        assert Matches(rows[i], key);
      }
    }
  }

  /**
   * A table holding one warning finds another warning only when all five
   * values are identical: a warning whose line moved, or whose text quotes a
   * different line number, is a different warning.
   */
  lemma LineNumbersAreCompared(row: Row, key: Row)
    ensures Contains([row], key) <==> row == key
    ensures key.line != row.line ==> !Contains([row], key)
  {
    ContainsAfterAppend([], row, key);
  }

  /**
   * Two warnings have the same row, and so find each other, exactly when
   * their file, line, text, culprit name and culprit e-mail are equal.
   */
  lemma SameRowIff(v: Instance, w: Instance)
    requires IsWarningWithCulprit(v) && IsWarningWithCulprit(w)
    ensures ConvertWarningToTuple(v) == ConvertWarningToTuple(w) <==>
      var cv, cw := v.attrs[CulpritKey].ref, w.attrs[CulpritKey].ref;
      && v.attrs["file"] == w.attrs["file"]
      && SqlInteger(v.attrs["line"]) == SqlInteger(w.attrs["line"])
      && v.attrs["text"] == w.attrs["text"]
      && cv.attrs["name"] == cw.attrs["name"]
      && cv.attrs["email"] == cw.attrs["email"]
  {
  }
}
