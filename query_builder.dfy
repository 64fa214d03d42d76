/**
 * `DatabaseQueryBuilder`: a fluent builder around one provider command, and
 * the row loop of `ExecuteAsync<T>`.
 */
module QueryBuilders {
  import opened Wrappers
  import opened DatabaseConnections
  import opened DataReaders

  datatype CommandType = Text | StoredProcedure | TableDirect

  /** The parameter values the core passes: keys, aliases and JSON documents. */
  datatype DbValue = DbNull | DbInt(i: int) | DbText(s: string) | DbJson(json: string)

  datatype Parameter = Parameter(name: Option<string>, value: DbValue)

  /** A result set as the server returns it: its column count and the text in column 0 of each row. */
  datatype ResultSet = ResultSet(fieldCount: nat, rows: seq<string>)

  /**
   * The server behind a connection: what it answers to a command executed
   * as a reader and to one executed as a non-query, given the command's
   * type, text and parameters.
   */
  datatype Database = Database(
    reader: (CommandType, Option<string>, seq<Parameter>) -> Outcome<ResultSet>,
    nonQuery: (CommandType, Option<string>, seq<Parameter>) -> Outcome<int>)

  /** A provider transaction; only its identity matters here. */
  class Transaction {
    constructor() {}
  }

  /** The timeout, in seconds, a new provider command starts with. */
  const DefaultTimeout: int := 30

  /** The exception a parameterless `new InvalidOperationException()` carries. */
  const InvalidState: Exception :=
    Exception(InvalidOperation, "Operation is not valid due to the current state of the object.")

  /** The provider `DbCommand`: the state the builder edits. */
  class Command {
    var commandText: Option<string>
    var commandType: CommandType
    var parameters: seq<Parameter>
    var timeout: int
    var transaction: Transaction?

    constructor()
      ensures commandText.None? && commandType == Text && parameters == []
      ensures timeout == DefaultTimeout && transaction == null
    {
      commandText := None;
      commandType := Text;
      parameters := [];
      timeout := DefaultTimeout;
      transaction := null;
    }
  }

  /**
   * Why the constructor fails, if it does: a null connection is dereferenced;
   * `CreateCommand` may throw; a command that is not a `DbCommand`, or a
   * connection that is not a `DbConnection`, gives `InvalidOperationException`.
   */
  function BuilderError(connection: Connection?): (r: Option<Exception>)
    ensures r.None? <==> connection != null && connection.command == DbCommand && connection.isDbConnection
    ensures connection == null ==> r.value.kind == NullReference
    ensures connection != null && connection.command.CommandThrows? ==> r == Some(connection.command.error)
    ensures connection != null && !connection.command.CommandThrows? && r.Some? ==> r == Some(InvalidState)
  {
    if connection == null then Some(NullDereference)
    else match connection.command
      case CommandThrows(e) => Some(e)
      case ForeignCommand => Some(InvalidState)
      case DbCommand => if connection.isDbConnection then None else Some(InvalidState)
  }

  class DatabaseQueryBuilder {
    const command: Command
    const connection: Connection

    constructor(command: Command, connection: Connection)
      ensures this.command == command && this.connection == connection
    {
      this.command := command;
      this.connection := connection;
    }

    /**
     * The public constructor: creates the command, checks both casts and
     * sets the command text and type as given (the type defaults to Text).
     */
    static method New(connection: Connection?, commandText: Option<string>, commandType: CommandType := Text)
      returns (r: Outcome<DatabaseQueryBuilder>)
      ensures BuilderError(connection).Some? ==> r == Throw(BuilderError(connection).value)
      ensures BuilderError(connection).None? ==>
        && r.Return? && fresh(r.value) && fresh(r.value.command) && r.value.connection == connection
        && r.value.command.commandText == commandText && r.value.command.commandType == commandType
        && r.value.command.parameters == [] && r.value.command.timeout == DefaultTimeout
        && r.value.command.transaction == null
    {
      var error := BuilderError(connection);
      if error.Some? {
        return Throw(error.value);
      }
      var command := new Command();
      command.commandText := commandText;
      command.commandType := commandType;
      var builder := new DatabaseQueryBuilder(command, connection);
      return Return(builder);
    }

    /** `AddParameter(name, value)`: one more parameter after the existing ones; same builder. */
    method AddParameter(name: Option<string>, value: DbValue) returns (b: DatabaseQueryBuilder)
      modifies command
      ensures b == this
      ensures command.parameters == old(command.parameters) + [Parameter(name, value)]
      ensures command.commandText == old(command.commandText) && command.commandType == old(command.commandType)
      ensures command.timeout == old(command.timeout) && command.transaction == old(command.transaction)
    {
      command.parameters := command.parameters + [Parameter(name, value)];
      return this;
    }

    /** `Timeout(seconds)`: sets only the command timeout; same builder. */
    method Timeout(seconds: int) returns (b: DatabaseQueryBuilder)
      modifies command
      ensures b == this && command.timeout == seconds
      ensures command.commandText == old(command.commandText) && command.commandType == old(command.commandType)
      ensures command.parameters == old(command.parameters) && command.transaction == old(command.transaction)
    {
      command.timeout := seconds;
      return this;
    }

    /** `RunAsync()`: the affected-row count the server reports for the command as built. */
    method Run(db: Database) returns (r: Outcome<int>)
      ensures r == db.nonQuery(command.commandType, command.commandText, command.parameters)
    {
      r := db.nonQuery(command.commandType, command.commandText, command.parameters);
    }

    /** `ExecuteAsync()`: a new reader, before its first row, over the server's result set. */
    method Execute(db: Database) returns (r: Outcome<DataReader>)
      ensures db.reader(command.commandType, command.commandText, command.parameters).Throw? ==>
        r == Throw(db.reader(command.commandType, command.commandText, command.parameters).exception)
      ensures db.reader(command.commandType, command.commandText, command.parameters).Return? ==>
        && r.Return? && fresh(r.value) && r.value.cursor == 0
        && r.value.fieldCount == db.reader(command.commandType, command.commandText, command.parameters).value.fieldCount
        && r.value.rows == db.reader(command.commandType, command.commandText, command.parameters).value.rows
    {
      var answer := db.reader(command.commandType, command.commandText, command.parameters);
      if answer.Throw? {
        return Throw(answer.exception);
      }
      var reader := new DataReader(answer.value.fieldCount, answer.value.rows);
      return Return(reader);
    }

    /** `Transaction(t)`: sets only the command's transaction; same builder. */
    method Transaction(t: Transaction?) returns (b: DatabaseQueryBuilder)
      modifies command
      ensures b == this && command.transaction == t
      ensures command.commandText == old(command.commandText) && command.commandType == old(command.commandType)
      ensures command.parameters == old(command.parameters) && command.timeout == old(command.timeout)
    {
      command.transaction := t;
      return this;
    }
  }

  /**
   * The elements `ExecuteAsync<T>` yields, as written: nothing without
   * columns or rows; otherwise the first `ReadAsync` moves onto the first
   * row and `Build` then drains all the others, so exactly one element is
   * built, from rows 2..n, and the loop ends.
   */
  function ExecuteAsWritten<T>(fieldCount: nat, remaining: seq<string>, decode: string -> Outcome<Option<T>>)
    : (r: Outcome<seq<Option<T>>>)
  {
    if fieldCount == 0 || |remaining| == 0 then Return([])
    else match BuildOf(Concat(remaining[1..]), decode)
      case Throw(e) => Throw(e)
      case Return(x) => Return([x])
  }

  /** The intended reading: one element per row, each built from that row's own text. */
  function ExecutePerRow<T>(fieldCount: nat, remaining: seq<string>, decode: string -> Outcome<Option<T>>)
    : (r: Outcome<seq<Option<T>>>)
  {
    if fieldCount == 0 || |remaining| == 0 then Return([])
    else match ExecutePerRow(fieldCount, remaining[..|remaining| - 1], decode)
      case Throw(e) => Throw(e)
      case Return(xs) =>
        match BuildOf(remaining[|remaining| - 1], decode)
        case Throw(e) => Throw(e)
        case Return(x) => Return(xs + [x])
  }

  /** Once a row fails to bind, later rows do not change the outcome. */
  lemma {:induction false} PerRowThrowPersists<T>(fieldCount: nat, done: seq<string>, later: seq<string>,
                                                  decode: string -> Outcome<Option<T>>)
    requires ExecutePerRow(fieldCount, done, decode).Throw?
    ensures ExecutePerRow(fieldCount, done + later, decode) == ExecutePerRow(fieldCount, done, decode)
    decreases |later|
  {
    if |later| == 0 {
      assert done + later == done;
    } else {
      var all := done + later;
      var init := later[..|later| - 1];
      assert all[..|all| - 1] == done + init;
      PerRowThrowPersists(fieldCount, done, init, decode);
    }
  }

  /**
   * As written, `ExecuteAsync<T>` never yields more than one element, and
   * yields one exactly when there is a column and at least one row (and the
   * decoder does not throw).
   */
  lemma ExecuteAsWrittenYieldsAtMostOne<T>(fieldCount: nat, remaining: seq<string>, decode: string -> Outcome<Option<T>>)
    ensures ExecuteAsWritten(fieldCount, remaining, decode).Return? ==>
      |ExecuteAsWritten(fieldCount, remaining, decode).value| <= 1
    ensures ExecuteAsWritten(fieldCount, remaining, decode).Return? ==>
      (|ExecuteAsWritten(fieldCount, remaining, decode).value| == 1 <==> fieldCount > 0 && |remaining| > 0)
  {
  }

  /**
   * With a decoder that never throws, the per-row reading yields one element
   * per row, the i-th built from row i alone.
   */
  lemma {:induction false} ExecutePerRowIsOnePerRow<T>(fieldCount: nat, remaining: seq<string>, decode: string -> Outcome<Option<T>>)
    requires fieldCount > 0
    requires forall s: string :: decode(s).Return?
    ensures ExecutePerRow(fieldCount, remaining, decode).Return?
    ensures |ExecutePerRow(fieldCount, remaining, decode).value| == |remaining|
    ensures forall i :: 0 <= i < |remaining| ==>
      ExecutePerRow(fieldCount, remaining, decode).value[i] == BuildOf(remaining[i], decode).value
  {
    if |remaining| > 0 {
      var init := remaining[..|remaining| - 1];
      ExecutePerRowIsOnePerRow(fieldCount, init, decode);
      var xs := ExecutePerRow(fieldCount, init, decode).value;
      var x := BuildOf(remaining[|remaining| - 1], decode).value;
      assert ExecutePerRow(fieldCount, remaining, decode) == Return(xs + [x]);
      forall i | 0 <= i < |remaining|
        ensures ExecutePerRow(fieldCount, remaining, decode).value[i] == BuildOf(remaining[i], decode).value
      {
        if i < |init| {
          assert init[i] == remaining[i];
        }
      }
    }
  }

  /** The decoder that binds a payload to itself, for exhibiting which rows are read. */
  function Identity(s: string): Outcome<Option<string>> {
    Return(Some(s))
  }

  /**
   * Two rows "a" and "b": as written, `ExecuteAsync<T>` yields one element,
   * built from "b" alone; the first row's text is lost. The per-row reading
   * yields "a" and then "b".
   */
  lemma ExecuteSkipsFirstRow()
    ensures ExecuteAsWritten(1, ["a", "b"], Identity) == Return([Some("b")])
    ensures ExecutePerRow(1, ["a", "b"], Identity) == Return([Some("a"), Some("b")])
  {
    assert ["a", "b"][1..] == ["b"];
    assert Concat(["b"]) == "b" by {
      assert ["b"][..0] == [];
    }
    assert ["a", "b"][..1] == ["a"];
    assert ["a"][..0] == [];
    var one: seq<string> := ["a"];
    var two: seq<string> := ["a", "b"];
    assert two[..1] == one && one[..0] == [];
    assert BuildOf("a", Identity) == Return(Some("a"));
    assert BuildOf("b", Identity) == Return(Some("b"));
    var first := ExecutePerRow(1, one, Identity);
    assert first.value == ExecutePerRow(1, one[..0], Identity).value + [Some("a")];
    assert [] + [Some("a")] == [Some("a")];
    assert first == Return([Some("a")]);
    var both := ExecutePerRow(1, two, Identity);
    assert both.Return? && both.value == first.value + [Some("b")];
    assert [Some("a")] + [Some("b")] == [Some("a"), Some("b")];
    assert both == Return([Some("a"), Some("b")]);
  }

  /**
   * `ExecuteAsync<T>` as written. `executed` is what `ExecuteReaderAsync`
   * gave. Each `ReadAsync` advances one row and each `Build` drains the rest.
   */
  method ExecuteAs<T>(executed: Outcome<DataReader>, decode: string -> Outcome<Option<T>>)
    returns (r: Outcome<seq<Option<T>>>)
    requires executed.Return? ==> executed.value.cursor <= |executed.value.rows|
    modifies if executed.Return? then {executed.value} else {}
    ensures executed.Throw? ==> r == Throw(executed.exception)
    ensures executed.Return? ==>
      r == ExecuteAsWritten(executed.value.fieldCount, old(executed.value.Remaining()), decode)
  {
    if executed.Throw? {
      return Throw(executed.exception);
    }
    var reader := executed.value;
    if reader.fieldCount == 0 {
      return Return([]);
    }
    var start := reader.cursor;
    var items: seq<Option<T>> := [];
    while true
      invariant start <= reader.cursor <= |reader.rows|
      invariant reader.cursor == start ==> items == []
      invariant reader.cursor != start ==>
        && reader.cursor == |reader.rows| && |items| == 1
        && BuildOf(Concat(reader.rows[start + 1..]), decode) == Return(items[0])
        && items == [items[0]]
      decreases |reader.rows| - reader.cursor
    {
      var more := reader.Read();
      if !more {
        break;
      }
      assert reader.cursor == start + 1;
      var item := Build(reader, decode);
      if item.Throw? {
        return Throw(item.exception);
      }
      items := items + [item.value];
    }
    return Return(items);
  }

  /**
   * The per-row loop that `ExecuteAsync<T>` evidently intends: after each
   * `ReadAsync`, the current row alone is bound.
   */
  method ExecuteEachRow<T>(executed: Outcome<DataReader>, decode: string -> Outcome<Option<T>>)
    returns (r: Outcome<seq<Option<T>>>)
    requires executed.Return? ==> executed.value.cursor <= |executed.value.rows|
    modifies if executed.Return? then {executed.value} else {}
    ensures executed.Throw? ==> r == Throw(executed.exception)
    ensures executed.Return? ==>
      r == ExecutePerRow(executed.value.fieldCount, old(executed.value.Remaining()), decode)
  {
    if executed.Throw? {
      return Throw(executed.exception);
    }
    var reader := executed.value;
    if reader.fieldCount == 0 {
      return Return([]);
    }
    var start := reader.cursor;
    var items: seq<Option<T>> := [];
    while true
      invariant start <= reader.cursor <= |reader.rows|
      invariant ExecutePerRow(reader.fieldCount, reader.rows[start..reader.cursor], decode) == Return(items)
      decreases |reader.rows| - reader.cursor
    {
      var more := reader.Read();
      if !more {
        break;
      }
      var text := reader.GetString();
      var done := reader.rows[start..reader.cursor];
      assert |done| >= 1;
      assert done[..|done| - 1] == reader.rows[start..reader.cursor - 1];
      assert done[|done| - 1] == text.value;
      var item := BuildOf(text.value, decode);
      if item.Throw? {
        assert ExecutePerRow(reader.fieldCount, done, decode) == Throw(item.exception);
        PerRowThrowPersists(reader.fieldCount, done, reader.rows[reader.cursor..], decode);
        assert done + reader.rows[reader.cursor..] == old(reader.Remaining());
        return Throw(item.exception);
      }
      items := items + [item.value];
    }
    assert reader.rows[start..reader.cursor] == old(reader.Remaining());
    return Return(items);
  }
}
