/**
 * `DataReaderExtensions`: draining a reader into one string (column 0 of
 * every remaining row, in order) and binding that string to a value.
 */
module DataReaders {
  import opened Wrappers

  /** What `GetString(0)` throws on a result set without columns. */
  const NoColumn: Exception := Exception(IndexOutOfRange, "0")

  /**
   * A forward-only reader over the text in column 0 of a result set.
   * `cursor` counts the rows `Read` has consumed; while it is positive the
   * current row is `rows[cursor - 1]`.
   */
  class DataReader {
    const fieldCount: nat
    const rows: seq<string>
    var cursor: nat

    constructor(fieldCount: nat, rows: seq<string>)
      ensures this.fieldCount == fieldCount && this.rows == rows && cursor == 0
    {
      this.fieldCount := fieldCount;
      this.rows := rows;
      cursor := 0;
    }

    /** The rows `Read` has not consumed yet. */
    function Remaining(): seq<string>
      reads this
      requires cursor <= |rows|
    {
      rows[cursor..]
    }

    /** `Read`: moves to the next row, answering whether there was one. */
    method Read() returns (more: bool)
      requires cursor <= |rows|
      modifies this
      ensures more <==> old(cursor) < |rows|
      ensures cursor == if more then old(cursor) + 1 else old(cursor)
    {
      if cursor < |rows| {
        cursor := cursor + 1;
        return true;
      }
      return false;
    }

    /**
     * `GetString(0)`: the text of the current row; before the first row
     * there is none, and a result set without columns has no column 0.
     */
    function GetString(): (r: Outcome<string>)
      reads this
      requires cursor <= |rows|
      ensures r.Return? <==> cursor > 0 && fieldCount > 0
      ensures r.Return? ==> r.value == rows[cursor - 1]
    {
      if cursor == 0 then Throw(Exception(InvalidOperation, "No current row"))
      else if fieldCount == 0 then Throw(NoColumn)
      else Return(rows[cursor - 1])
    }
  }

  /** The in-order concatenation of some rows. */
  function Concat(rows: seq<string>): string {
    if |rows| == 0 then "" else Concat(rows[..|rows| - 1]) + rows[|rows| - 1]
  }

  /** Concatenation distributes over appending rows. */
  lemma {:induction false} ConcatAppend(a: seq<string>, b: seq<string>)
    ensures Concat(a + b) == Concat(a) + Concat(b)
    decreases |b|
  {
    if |b| == 0 {
      assert a + b == a;
    } else {
      var b' := b[..|b| - 1];
      assert (a + b)[..|a + b| - 1] == a + b';
      ConcatAppend(a, b');
    }
  }

  /** The concatenation is empty exactly when every row is empty. */
  lemma {:induction false} ConcatEmptyIff(rows: seq<string>)
    ensures Concat(rows) == "" <==> forall i :: 0 <= i < |rows| ==> rows[i] == ""
  {
    if |rows| > 0 {
      var init := rows[..|rows| - 1];
      ConcatEmptyIff(init);
      assert forall i :: 0 <= i < |init| ==> init[i] == rows[i];
    }
  }

  /**
   * `ReadString`: reads every remaining row, appending its column 0. It
   * returns the concatenation of the remaining rows and leaves the reader
   * exhausted; with rows left but no column, `GetString` throws after the
   * first `Read`.
   */
  method ReadString(reader: DataReader) returns (r: Outcome<string>)
    requires reader.cursor <= |reader.rows|
    modifies reader
    ensures r.Return? <==> reader.fieldCount > 0 || old(reader.cursor) == |reader.rows|
    ensures r.Return? ==> r.value == Concat(old(reader.Remaining())) && reader.cursor == |reader.rows|
    ensures r.Throw? ==> r.exception == NoColumn && reader.cursor == old(reader.cursor) + 1
  {
    var start := reader.cursor;
    var builder := "";
    while true
      invariant start <= reader.cursor <= |reader.rows|
      invariant builder == Concat(reader.rows[start..reader.cursor])
      invariant reader.fieldCount == 0 ==> reader.cursor == start
      decreases |reader.rows| - reader.cursor
    {
      var more := reader.Read();
      if !more {
        break;
      }
      var text := reader.GetString();
      if text.Throw? {
        return Throw(text.exception);
      }
      assert reader.rows[start..reader.cursor][..reader.cursor - 1 - start] == reader.rows[start..reader.cursor - 1];
      builder := builder + text.value;
    }
    assert reader.rows[start..reader.cursor] == old(reader.Remaining());
    return Return(builder);
  }

  /**
   * What `Build<T>` makes of a payload: null for the empty string, otherwise
   * whatever the JSON decoder gives (which may itself be null or throw).
   */
  function BuildOf<T>(payload: string, decode: string -> Outcome<Option<T>>): (r: Outcome<Option<T>>)
    ensures |payload| == 0 ==> r == Return(None)
    ensures |payload| > 0 ==> r == decode(payload)
  {
    if |payload| == 0 then Return(None) else decode(payload)
  }

  /**
   * What `Build` makes of a reader with these columns and remaining rows:
   * a reader without columns fails on its first row, otherwise the rows'
   * concatenation is bound.
   */
  function BuildRows<T>(fieldCount: nat, rows: seq<string>, decode: string -> Outcome<Option<T>>): (r: Outcome<Option<T>>)
    ensures fieldCount == 0 && |rows| > 0 ==> r == Throw(NoColumn)
    ensures fieldCount > 0 || |rows| == 0 ==> r == BuildOf(Concat(rows), decode)
  {
    if fieldCount == 0 && |rows| > 0 then Throw(NoColumn) else BuildOf(Concat(rows), decode)
  }

  /** `Build<T>`: drains the reader and binds the concatenated payload. */
  method Build<T>(reader: DataReader, decode: string -> Outcome<Option<T>>) returns (r: Outcome<Option<T>>)
    requires reader.cursor <= |reader.rows|
    modifies reader
    ensures reader.fieldCount > 0 || old(reader.cursor) == |reader.rows| ==>
      r == BuildOf(Concat(old(reader.Remaining())), decode) && reader.cursor == |reader.rows|
    ensures reader.fieldCount == 0 && old(reader.cursor) < |reader.rows| ==> r == Throw(NoColumn)
    ensures r == BuildRows(reader.fieldCount, old(reader.Remaining()), decode)
  {
    var payload := ReadString(reader);
    if payload.Throw? {
      return Throw(payload.exception);
    }
    r := BuildOf(payload.value, decode);
  }

  /** A payload of empty rows binds to null without consulting the decoder. */
  lemma EmptyRowsBuildNull<T>(rows: seq<string>, decode: string -> Outcome<Option<T>>)
    requires forall i :: 0 <= i < |rows| ==> rows[i] == ""
    ensures BuildOf(Concat(rows), decode) == Return(None)
  {
    ConcatEmptyIff(rows);
  }

  /** A payload with some non-empty row is always handed to the decoder. */
  lemma NonEmptyRowDecodes<T>(rows: seq<string>, i: nat, decode: string -> Outcome<Option<T>>)
    requires i < |rows| && rows[i] != ""
    ensures BuildOf(Concat(rows), decode) == decode(Concat(rows))
  {
    ConcatEmptyIff(rows);
  }
}
