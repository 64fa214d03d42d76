/**
 * `DatabaseConnector`: validates a connection string, hands out connections
 * made by the driver hook and tracks every one of them so that disposing the
 * connector disposes them all.
 */
module DatabaseConnections {
  import opened Wrappers

  datatype ConnectionState = Closed | Open

  /**
   * What `connection.CreateCommand()` gives: a provider `DbCommand`, some
   * other `IDbCommand`, or an exception.
   */
  datatype CommandSupport = DbCommand | ForeignCommand | CommandThrows(error: Exception)

  /**
   * The driver connection behind an `IDbConnection`. `disposals` counts the
   * calls to `Dispose`, so that "disposed once" can be stated.
   */
  class Connection {
    var state: ConnectionState
    var disposed: bool
    ghost var disposals: nat
    /** Whether the object is a `System.Data.Common.DbConnection`. */
    const isDbConnection: bool
    const command: CommandSupport
    /** What `Open` throws, if it throws. */
    const openError: Option<Exception>

    constructor(isDbConnection: bool, command: CommandSupport, openError: Option<Exception>)
      ensures state == Closed && !disposed && disposals == 0
      ensures this.isDbConnection == isDbConnection && this.command == command && this.openError == openError
    {
      state := Closed;
      disposed := false;
      disposals := 0;
      this.isDbConnection := isDbConnection;
      this.command := command;
      this.openError := openError;
    }

    method Open() returns (r: Outcome<Unit>)
      modifies this
      ensures openError.Some? ==> r == Throw(openError.value) && state == old(state)
      ensures openError.None? ==> r == Return(Unit) && state == ConnectionState.Open
      ensures disposed == old(disposed) && disposals == old(disposals)
    {
      if openError.Some? {
        return Throw(openError.value);
      }
      state := ConnectionState.Open;
      return Return(Unit);
    }

    /** `Dispose`, as the test connection does it: the state is left as it was. */
    method Dispose()
      modifies this
      ensures disposed && disposals == old(disposals) + 1 && state == old(state)
    {
      disposed := true;
      disposals := disposals + 1;
    }
  }

  /**
   * The provider subclass: its type name and what its
   * `InitializeConnectionAsync` hook does (fail, or make a new connection
   * with these properties).
   */
  datatype Driver = Driver(
    typeName: string,
    initError: Option<Exception>,
    isDbConnection: bool,
    command: CommandSupport,
    openError: Option<Exception>)

  /** `char.IsWhiteSpace`: the Unicode space separators, line and paragraph separators, and the control characters U+0009..U+000D, U+0085. */
  predicate IsWhiteSpace(c: char) {
    || c == ' ' || '\t' <= c <= '\r' || c == '\U{0085}' || c == '\U{00A0}' || c == '\U{1680}'
    || '\U{2000}' <= c <= '\U{200A}' || c == '\U{2028}' || c == '\U{2029}' || c == '\U{202F}'
    || c == '\U{205F}' || c == '\U{3000}'
  }

  /** `string.IsNullOrWhiteSpace`. */
  predicate IsNullOrWhiteSpace(s: Option<string>) {
    s.None? || forall i :: 0 <= i < |s.value| ==> IsWhiteSpace(s.value[i])
  }

  /** The constructor's argument checks: null first, then blank. */
  function ConnectionStringError(connectionString: Option<string>): (r: Option<Exception>)
    ensures connectionString.None? ==> r == Some(Exception(ArgumentNull, "connectionString"))
    ensures connectionString.Some? ==>
      (r.Some? <==> IsNullOrWhiteSpace(connectionString)) &&
      (r.Some? ==> r.value == Exception(Argument, "connectionString"))
  {
    if connectionString.None? then Some(Exception(ArgumentNull, "connectionString"))
    else if IsNullOrWhiteSpace(connectionString) then Some(Exception(Argument, "connectionString"))
    else None
  }

  /** The empty string and a string of spaces are rejected; any string with a visible character is accepted. */
  lemma ConnectionStringExamples()
    ensures ConnectionStringError(Some("")) == Some(Exception(Argument, "connectionString"))
    ensures ConnectionStringError(Some("  \t")) == Some(Exception(Argument, "connectionString"))
    ensures ConnectionStringError(Some("Host=db")).None?
  {
    assert !IsWhiteSpace("Host=db"[0]);
  }

  class DatabaseConnector {
    const connectionString: string
    const driver: Driver
    /** The tracked connections, in creation order. */
    var connections: seq<Connection>
    var disposed: bool

    /** Every tracked connection is a distinct object. */
    predicate Valid()
      reads this
    {
      forall i, j :: 0 <= i < j < |connections| ==> connections[i] != connections[j]
    }

    /** The constructor body, once the checks of `New` have passed. */
    constructor(connectionString: string, driver: Driver)
      requires ConnectionStringError(Some(connectionString)).None?
      ensures this.connectionString == connectionString && this.driver == driver
      ensures connections == [] && !disposed && Valid()
    {
      this.connectionString := connectionString;
      this.driver := driver;
      connections := [];
      disposed := false;
    }

    /**
     * The public constructor: a null or blank connection string throws;
     * otherwise the string is stored verbatim and nothing is tracked yet.
     */
    static method New(connectionString: Option<string>, driver: Driver) returns (r: Outcome<DatabaseConnector>)
      ensures ConnectionStringError(connectionString).Some? ==>
        r == Throw(ConnectionStringError(connectionString).value)
      ensures ConnectionStringError(connectionString).None? ==>
        && r.Return? && fresh(r.value) && r.value.Valid()
        && r.value.connectionString == connectionString.value && r.value.driver == driver
        && r.value.Count() == 0 && !r.value.disposed
    {
      var error := ConnectionStringError(connectionString);
      if error.Some? {
        return Throw(error.value);
      }
      var connector := new DatabaseConnector(connectionString.value, driver);
      return Return(connector);
    }

    function Count(): (n: nat)
      reads this
      ensures n == |connections|
    {
      |connections|
    }

    /** `ThrowIfDisposed`: throws, naming the provider type, exactly when disposed. */
    function ThrowIfDisposed(): (r: Outcome<Unit>)
      reads this
      ensures r.Throw? <==> disposed
      ensures r.Throw? ==> r.exception == Exception(ObjectDisposed, driver.typeName)
    {
      if disposed then Throw(Exception(ObjectDisposed, driver.typeName)) else Return(Unit)
    }

    /** The driver hook `InitializeConnectionAsync`. */
    method InitializeConnection() returns (r: Outcome<Connection>)
      ensures driver.initError.Some? ==> r == Throw(driver.initError.value)
      ensures driver.initError.None? ==>
        && r.Return? && fresh(r.value) && r.value.state == Closed
        && !r.value.disposed && r.value.disposals == 0
        && r.value.isDbConnection == driver.isDbConnection
        && r.value.command == driver.command && r.value.openError == driver.openError
    {
      if driver.initError.Some? {
        return Throw(driver.initError.value);
      }
      var c := new Connection(driver.isDbConnection, driver.command, driver.openError);
      return Return(c);
    }

    /**
     * `CreateConnectionAsync(open)`: a new connection is appended to the
     * tracked list before it is opened, so it stays tracked when opening
     * throws; with `open` false it is returned unopened. There is no
     * disposed check.
     */
    method CreateConnection(open: bool := true) returns (r: Outcome<Connection>)
      requires Valid()
      modifies this
      ensures Valid() && disposed == old(disposed)
      ensures driver.initError.Some? ==> r == Throw(driver.initError.value) && connections == old(connections)
      ensures driver.initError.None? ==>
        && |connections| == |old(connections)| + 1
        && connections[..|old(connections)|] == old(connections)
        && var c := connections[|old(connections)|];
        && fresh(c) && !c.disposed && c.disposals == 0
        && (open && driver.openError.Some? ==> r == Throw(driver.openError.value) && c.state == Closed)
        && (!(open && driver.openError.Some?) ==> r == Return(c))
        && (c.state == ConnectionState.Open <==> open && driver.openError.None?)
    {
      var init := InitializeConnection();
      if init.Throw? {
        return Throw(init.exception);
      }
      var c := init.value;
      connections := connections + [c];
      if open {
        var openResult := c.Open();
        if openResult.Throw? {
          return Throw(openResult.exception);
        }
      }
      return Return(c);
    }

    /**
     * `Dispose`: the first call disposes each tracked connection once and
     * sets the flag; later calls change nothing. The list is kept, so
     * `Count` is unchanged.
     */
    method Dispose()
      requires Valid()
      modifies this, connections
      ensures Valid() && disposed && connections == old(connections)
      ensures !old(disposed) ==> forall c :: c in connections ==>
        c.disposed && c.disposals == old(c.disposals) + 1 && c.state == old(c.state)
      ensures old(disposed) ==> forall c :: c in connections ==>
        c.disposed == old(c.disposed) && c.disposals == old(c.disposals) && c.state == old(c.state)
    {
      if disposed {
        return;
      }
      var i := 0;
      while i < |connections|
        invariant 0 <= i <= |connections|
        invariant connections == old(connections) && !disposed
        invariant forall j :: 0 <= j < i ==>
          connections[j].disposed && connections[j].disposals == old(connections[j].disposals) + 1
          && connections[j].state == old(connections[j].state)
        invariant forall j :: i <= j < |connections| ==>
          connections[j].disposed == old(connections[j].disposed)
          && connections[j].disposals == old(connections[j].disposals)
          && connections[j].state == old(connections[j].state)
      {
        connections[i].Dispose();
        i := i + 1;
      }
      disposed := true;
    }
  }
}
