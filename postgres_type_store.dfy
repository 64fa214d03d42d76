/**
 * `PostgresTypeStore`: the PostgreSQL implementation of the type store. Each
 * operation opens a connection through the connector, runs one stored
 * procedure (or one text command) and binds the JSON it returns; every
 * exception raised after the connection exists is caught and turned into a
 * failed result. Creating a type writes the database keys back into the
 * caller's type and its attributes, matching attributes by alias.
 */
module PostgresTypeStores {
  import opened Wrappers
  import opened WarehouseResults
  import opened AttributeKinds
  import opened Attributes
  import opened Records
  import opened DatabaseConnections
  import opened DataReaders
  import opened QueryBuilders
  import ConnectionExtensions
  import opened Stores

  /** A warehouse attribute as the JSON documents carry it. */
  datatype AttributeRecord = AttributeRecord(
    key: int, attributeType: AttributeType, alias: Option<string>, name: Option<string>,
    summary: Option<string>, defaultValue: Option<string>, required: bool, unique: bool)

  /** A warehouse type as the JSON documents carry it; a null attribute array is `None`. */
  datatype TypeRecord = TypeRecord(
    key: Option<int>, alias: Option<string>, display: Option<string>, className: Option<string>,
    summary: Option<string>, attributes: Option<seq<AttributeRecord>>)

  function AttributeRecordOf(a: Attribute): AttributeRecord
    reads a
  {
    AttributeRecord(a.key, a.attributeType, a.alias, a.name, a.summary, a.defaultValue, a.required, a.unique)
  }

  function AttributeRecords(s: seq<Attribute>): (r: seq<AttributeRecord>)
    reads set a | a in s
    ensures |r| == |s| && forall i :: 0 <= i < |s| ==> r[i] == AttributeRecordOf(s[i])
  {
    if |s| == 0 then [] else AttributeRecords(s[..|s| - 1]) + [AttributeRecordOf(s[|s| - 1])]
  }

  /** What the serializer sees of a type: its fields and, in order, its attributes. */
  function Snapshot(t: WarehouseType<int>): TypeRecord
    reads t, t.attributes, set a | a in t.attributes.list
  {
    TypeRecord(t.key, t.alias, t.display, t.className, t.summary, Some(AttributeRecords(t.attributes.list)))
  }

  /** What `First` throws when its source is null. */
  const NullSource: Exception := Exception(ArgumentNull, "source")

  const CreateOrUpdate: string := "warehouse.create_or_update_entity_type"

  /** The position of the first returned attribute with this alias. */
  function FirstWithAlias(records: seq<AttributeRecord>, alias: Option<string>): (r: Option<nat>)
    ensures r.None? <==> forall j :: 0 <= j < |records| ==> records[j].alias != alias
    ensures r.Some? ==> r.value < |records| && records[r.value].alias == alias
    ensures r.Some? ==> forall j :: 0 <= j < r.value ==> records[j].alias != alias
  {
    if |records| == 0 then None
    else if records[0].alias == alias then Some(0)
    else
      var rest := FirstWithAlias(records[1..], alias);
      if rest.None? then None else Some(rest.value + 1)
  }

  /** The position of the first submitted attribute whose alias is not among the returned ones. */
  function FirstUnmatched(list: seq<Attribute>, records: seq<AttributeRecord>): (r: Option<nat>)
    ensures r.None? <==> forall j :: 0 <= j < |list| ==> FirstWithAlias(records, list[j].alias).Some?
    ensures r.Some? ==> r.value < |list| && FirstWithAlias(records, list[r.value].alias).None?
    ensures r.Some? ==> forall j :: 0 <= j < r.value ==> FirstWithAlias(records, list[j].alias).Some?
  {
    if |list| == 0 then None
    else if FirstWithAlias(records, list[0].alias).None? then Some(0)
    else
      var rest := FirstUnmatched(list[1..], records);
      if rest.None? then None else Some(rest.value + 1)
  }

  /** How far the key merge gets, and the exception that stops it. */
  datatype Merge = Merge(merged: nat, error: Option<Exception>)

  /**
   * The key merge of `CreateAsync`: every submitted attribute, in order, takes
   * the key of the first returned attribute with its alias. A null returned
   * array fails at the first attribute; a missing alias fails at that
   * attribute, after the earlier ones were assigned.
   */
  function MergeOf(list: seq<Attribute>, records: Option<seq<AttributeRecord>>): (m: Merge)
    ensures m.merged <= |list|
    ensures m.error.None? <==> m.merged == |list| && (|list| == 0 || records.Some?)
    ensures records.None? ==> m.merged == 0 && (m.error.Some? ==> m.error == Some(NullSource))
    ensures records.Some? ==> forall j :: 0 <= j < m.merged ==> FirstWithAlias(records.value, list[j].alias).Some?
    ensures records.Some? && m.error.Some? ==>
      m.error == Some(NoMatch) && FirstWithAlias(records.value, list[m.merged].alias).None?
  {
    if |list| == 0 then Merge(0, None)
    else if records.None? then Merge(0, Some(NullSource))
    else match FirstUnmatched(list, records.value)
      case None => Merge(|list|, None)
      case Some(k) => Merge(k, Some(NoMatch))
  }

  /** The key an attribute with this alias takes from the returned attributes. */
  function MatchedKey(records: seq<AttributeRecord>, alias: Option<string>): int
    requires FirstWithAlias(records, alias).Some?
  {
    records[FirstWithAlias(records, alias).value].key
  }

  /** The returned attributes have pairwise distinct aliases. */
  predicate DistinctRecordAliases(records: seq<AttributeRecord>) {
    forall i, j :: 0 <= i < j < |records| ==> records[i].alias != records[j].alias
  }

  /**
   * With distinct returned aliases, the record an alias finds does not
   * depend on the order in which the database returns the attributes.
   */
  lemma {:induction false} FindIgnoresOrder(records: seq<AttributeRecord>, shuffled: seq<AttributeRecord>, alias: Option<string>)
    requires DistinctRecordAliases(records) && multiset(records) == multiset(shuffled)
    ensures FirstWithAlias(records, alias).Some? <==> FirstWithAlias(shuffled, alias).Some?
    ensures FirstWithAlias(records, alias).Some? ==> MatchedKey(records, alias) == MatchedKey(shuffled, alias)
  {
    var found := FirstWithAlias(records, alias);
    if found.Some? {
      var rec := records[found.value];
      assert rec in multiset(shuffled);
      var k :| 0 <= k < |shuffled| && shuffled[k] == rec;
      var first := FirstWithAlias(shuffled, alias).value;
      assert shuffled[first] in multiset(records);
      var m :| 0 <= m < |records| && records[m] == shuffled[first];
      assert m == found.value;
    } else {
      forall j | 0 <= j < |shuffled|
        ensures shuffled[j].alias != alias
      {
        assert shuffled[j] in multiset(records);
      }
    }
  }

  /** `FirstUnmatched` only asks, per alias, whether some returned attribute has it. */
  lemma {:induction false} UnmatchedIgnoresOrder(list: seq<Attribute>, records: seq<AttributeRecord>, shuffled: seq<AttributeRecord>)
    requires DistinctRecordAliases(records) && multiset(records) == multiset(shuffled)
    ensures FirstUnmatched(list, records) == FirstUnmatched(list, shuffled)
  {
    if |list| > 0 {
      FindIgnoresOrder(records, shuffled, list[0].alias);
      UnmatchedIgnoresOrder(list[1..], records, shuffled);
    }
  }

  /**
   * Matching is by alias, not by position: when the returned aliases are
   * distinct, any reordering of the returned attributes gives the same
   * merge outcome and the same key for every assigned attribute.
   */
  lemma MergeIgnoresOrder(list: seq<Attribute>, records: seq<AttributeRecord>, shuffled: seq<AttributeRecord>)
    requires DistinctRecordAliases(records) && multiset(records) == multiset(shuffled)
    ensures MergeOf(list, Some(records)) == MergeOf(list, Some(shuffled))
    ensures forall j :: 0 <= j < MergeOf(list, Some(records)).merged ==>
      MatchedKey(records, list[j].alias) == MatchedKey(shuffled, list[j].alias)
  {
    UnmatchedIgnoresOrder(list, records, shuffled);
    forall j | 0 <= j < MergeOf(list, Some(records)).merged
      ensures MatchedKey(records, list[j].alias) == MatchedKey(shuffled, list[j].alias)
    {
      FindIgnoresOrder(records, shuffled, list[j].alias);
    }
  }

  /**
   * The `foreach` of `CreateAsync`: assigns each attribute, in order, the key
   * of its match. It stops at the first attribute `First` throws on,
   * leaving the attributes from there on as they were.
   */
  method AssignKeys(list: seq<Attribute>, records: Option<seq<AttributeRecord>>) returns (error: Option<Exception>)
    requires DistinctAliases(list)
    modifies set a | a in list
    ensures error == MergeOf(list, records).error
    ensures forall j :: 0 <= j < MergeOf(list, records).merged ==>
      list[j].key == MatchedKey(records.value, list[j].alias)
    ensures forall j :: MergeOf(list, records).merged <= j < |list| ==> list[j].key == old(list[j].key)
  {
    var i := 0;
    while i < |list|
      invariant 0 <= i <= |list|
      invariant records.None? ==> i == 0
      invariant forall j :: 0 <= j < i ==>
        FirstWithAlias(records.value, list[j].alias).Some? && list[j].key == MatchedKey(records.value, list[j].alias)
      invariant forall j :: i <= j < |list| ==> list[j].key == old(list[j].key)
    {
      if records.None? {
        return Some(NullSource);
      }
      var found := FirstWithAlias(records.value, list[i].alias);
      if found.None? {
        assert FirstUnmatched(list, records.value) == Some(i);
        return Some(NoMatch);
      }
      list[i].key := records.value[found.value].key;
      i := i + 1;
    }
    return None;
  }

  /** The text parameter for a string that may be null. */
  function TextValue(s: Option<string>): DbValue {
    if s.None? then DbNull else DbText(s.value)
  }

  /**
   * What one command on a new builder over `c` binds to: the builder's own
   * checks, then the server's result set, then `Build`.
   */
  function Fetched<T>(c: Connection, db: Database, commandType: CommandType, text: string,
                      parameters: seq<Parameter>, decode: string -> Outcome<Option<T>>): Outcome<Option<T>>
  {
    if BuilderError(c).Some? then Throw(BuilderError(c).value)
    else match db.reader(commandType, Some(text), parameters)
      case Throw(e) => Throw(e)
      case Return(rs) => BuildRows(rs.fieldCount, rs.rows, decode)
  }

  /** What the connector's `CreateConnectionAsync()` throws, if it throws. */
  function ConnectionError(d: Driver): Option<Exception> {
    if d.initError.Some? then d.initError else d.openError
  }

  /** One connection more is tracked, after the earlier ones, which are kept. */
  predicate OneMoreTracked(before: seq<Connection>, after: seq<Connection>) {
    |after| == |before| + 1 && after[..|before|] == before
  }

  /**
   * What a failing `CreateConnectionAsync()` leaves tracked: nothing new when
   * the driver cannot create a connection; otherwise the new connection, added
   * before it was opened, stays tracked, closed and undisposed.
   */
  predicate FailedOpenTracked(before: seq<Connection>, after: seq<Connection>, d: Driver)
    reads set c | c in after
  {
    if d.initError.Some? then after == before
    else
      && OneMoreTracked(before, after)
      && after[|before|].state == ConnectionState.Closed && !after[|before|].disposed
  }

  class PostgresTypeStore {
    const connector: DatabaseConnector
    const errorDescriber: ErrorDescriber
    /** The server the connections reach. */
    const database: Database
    /** The JSON serializer and deserializers. */
    const encode: TypeRecord -> string
    const decodeType: string -> Outcome<Option<TypeRecord>>
    const decodeTypes: string -> Outcome<Option<seq<TypeRecord>>>

    constructor(connector: DatabaseConnector, errorDescriber: ErrorDescriber, database: Database,
                encode: TypeRecord -> string, decodeType: string -> Outcome<Option<TypeRecord>>,
                decodeTypes: string -> Outcome<Option<seq<TypeRecord>>>)
      ensures this.connector == connector && this.errorDescriber == errorDescriber && this.database == database
      ensures this.encode == encode && this.decodeType == decodeType && this.decodeTypes == decodeTypes
    {
      this.connector := connector;
      this.errorDescriber := errorDescriber;
      this.database := database;
      this.encode := encode;
      this.decodeType := decodeType;
      this.decodeTypes := decodeTypes;
    }

    /** The public constructor: the base class's argument checks. */
    static method New(connector: DatabaseConnector?, errorDescriber: Option<ErrorDescriber>, database: Database,
                      encode: TypeRecord -> string, decodeType: string -> Outcome<Option<TypeRecord>>,
                      decodeTypes: string -> Outcome<Option<seq<TypeRecord>>>) returns (r: Outcome<PostgresTypeStore>)
      ensures StoreArgumentError(connector, errorDescriber).Some? ==>
        r == Throw(StoreArgumentError(connector, errorDescriber).value)
      ensures StoreArgumentError(connector, errorDescriber).None? ==>
        && r.Return? && fresh(r.value) && r.value.connector == connector
        && r.value.errorDescriber == errorDescriber.value && r.value.database == database
        && r.value.encode == encode && r.value.decodeType == decodeType && r.value.decodeTypes == decodeTypes
    {
      var error := StoreArgumentError(connector, errorDescriber);
      if error.Some? {
        return Throw(error.value);
      }
      var store := new PostgresTypeStore(connector, errorDescriber.value, database, encode, decodeType, decodeTypes);
      return Return(store);
    }

    /**
     * One command on a connection: the builder (a stored procedure, or a
     * text command), at most one parameter, the server's reader, `Build`.
     */
    method Read<T>(c: Connection, commandType: CommandType, text: string, parameter: Option<Parameter>,
                   decode: string -> Outcome<Option<T>>) returns (r: Outcome<Option<T>>)
      ensures r == Fetched(c, database, commandType, text, if parameter.Some? then [parameter.value] else [], decode)
    {
      var query;
      if commandType == CommandType.StoredProcedure {
        query := ConnectionExtensions.StoredProcedure(c, Some(text));
      } else {
        query := ConnectionExtensions.Query(c, Some(text), commandType);
      }
      if query.Throw? {
        return Throw(query.exception);
      }
      var builder := query.value;
      if parameter.Some? {
        builder := builder.AddParameter(parameter.value.name, parameter.value.value);
        assert builder.command.parameters == [] + [parameter.value];
      }
      assert builder.command.parameters == (if parameter.Some? then [parameter.value] else []);
      var reader := builder.Execute(database);
      if reader.Throw? {
        return Throw(reader.exception);
      }
      r := Build(reader.value, decode);
    }

    /**
     * The try block of `CreateAsync` on an open connection: serialize, save,
     * bind the returned type, then write its key and its attributes' keys
     * back. A failure before the type key is written leaves the caller's
     * type as it was; a failed merge leaves the type key and the earlier
     * attributes' keys written.
     */
    method CreateOn(c: Connection, t: WarehouseType<int>) returns (r: WarehouseResult)
      requires t.attributes.Valid()
      modifies t, set a | a in t.attributes.list
      ensures var fetched := Fetched(c, database, CommandType.StoredProcedure, CreateOrUpdate,
                                     [Parameter(Some("item"), DbJson(old(encode(Snapshot(t)))))], decodeType);
        && (fetched.Throw? ==>
              && r == FailedWith(fetched.exception) && t.key == old(t.key)
              && forall a :: a in t.attributes.list ==> a.key == old(a.key))
        && (fetched == Return(None) ==>
              && r == FailedWith(NullDereference) && t.key == old(t.key)
              && forall a :: a in t.attributes.list ==> a.key == old(a.key))
        && (fetched.Return? && fetched.value.Some? ==>
              var m := MergeOf(t.attributes.list, fetched.value.value.attributes);
              && t.key == fetched.value.value.key
              && r == (if m.error.Some? then FailedWith(m.error.value) else Success())
              && (forall j :: 0 <= j < m.merged ==>
                    t.attributes.list[j].key == MatchedKey(fetched.value.value.attributes.value, t.attributes.list[j].alias))
              && (forall j :: m.merged <= j < |t.attributes.list| ==>
                    t.attributes.list[j].key == old(t.attributes.list[j].key)))
    {
      var json := encode(Snapshot(t));
      var saved := Read(c, CommandType.StoredProcedure, CreateOrUpdate, Some(Parameter(Some("item"), DbJson(json))), decodeType);
      if saved.Throw? {
        return FailedWith(saved.exception);
      }
      if saved.value.None? {
        return FailedWith(NullDereference);
      }
      var record := saved.value.value;
      t.key := record.key;
      var error := AssignKeys(t.attributes.list, record.attributes);
      if error.Some? {
        return FailedWith(error.value);
      }
      return Success();
    }

    /**
     * `CreateAsync(warehouseType)`: a null type, then a key other than 0,
     * are rejected before any connection exists; a connection failure
     * propagates; otherwise the try block's result, and the connection is
     * disposed at the end (`using`).
     */
    method Create(warehouseType: WarehouseType?<int>) returns (r: Outcome<WarehouseResult>)
      requires connector.Valid()
      requires warehouseType != null ==> warehouseType.attributes.Valid()
      modifies connector, warehouseType, if warehouseType != null then set a | a in warehouseType.attributes.list else {}
      ensures connector.Valid() && connector.disposed == old(connector.disposed)
      ensures warehouseType == null ==>
        r == Throw(Exception(ArgumentNull, "warehouseType")) && connector.connections == old(connector.connections)
      ensures warehouseType != null && old(warehouseType.key) != Some(0) ==>
        r == Throw(Exception(Argument, "Key")) && connector.connections == old(connector.connections)
        && warehouseType.key == old(warehouseType.key)
        && forall a :: a in warehouseType.attributes.list ==> a.key == old(a.key)
      ensures warehouseType != null && old(warehouseType.key) == Some(0) && ConnectionError(connector.driver).Some? ==>
        && r == Throw(ConnectionError(connector.driver).value) && warehouseType.key == old(warehouseType.key)
        && FailedOpenTracked(old(connector.connections), connector.connections, connector.driver)
        && forall a :: a in warehouseType.attributes.list ==> a.key == old(a.key)
      ensures warehouseType != null && old(warehouseType.key) == Some(0) && ConnectionError(connector.driver).None? ==>
        && OneMoreTracked(old(connector.connections), connector.connections)
        && var c := connector.connections[|old(connector.connections)|];
        && c.state == ConnectionState.Open && c.disposed
        && r.Return?
        && var fetched := Fetched(c, database, CommandType.StoredProcedure, CreateOrUpdate,
                                  [Parameter(Some("item"), DbJson(old(encode(Snapshot(warehouseType)))))], decodeType);
        && (fetched.Throw? ==>
              && r.value == FailedWith(fetched.exception) && warehouseType.key == Some(0)
              && forall a :: a in warehouseType.attributes.list ==> a.key == old(a.key))
        && (fetched == Return(None) ==>
              && r.value == FailedWith(NullDereference) && warehouseType.key == Some(0)
              && forall a :: a in warehouseType.attributes.list ==> a.key == old(a.key))
        && (fetched.Return? && fetched.value.Some? ==>
              var m := MergeOf(warehouseType.attributes.list, fetched.value.value.attributes);
              && warehouseType.key == fetched.value.value.key
              && r.value == (if m.error.Some? then FailedWith(m.error.value) else Success())
              && (forall j :: 0 <= j < m.merged ==>
                    warehouseType.attributes.list[j].key
                    == MatchedKey(fetched.value.value.attributes.value, warehouseType.attributes.list[j].alias))
              && (forall j :: m.merged <= j < |warehouseType.attributes.list| ==>
                    warehouseType.attributes.list[j].key == old(warehouseType.attributes.list[j].key)))
    {
      if warehouseType == null {
        return Throw(Exception(ArgumentNull, "warehouseType"));
      }
      if warehouseType.key != Some(0) {
        return Throw(Exception(Argument, "Key"));
      }
      var connection := connector.CreateConnection();
      if connection.Throw? {
        return Throw(connection.exception);
      }
      var c := connection.value;
      var result := CreateOn(c, warehouseType);
      c.Dispose();
      return Return(result);
    }

    /**
     * `UpdateAsync(warehouseType)`: a null type, then key 0, are rejected;
     * the bound result only replaces the local parameter, so the caller's
     * type is never changed. The connection is not disposed.
     */
    method Update(warehouseType: WarehouseType?<int>) returns (r: Outcome<WarehouseResult>)
      requires connector.Valid()
      modifies connector
      ensures connector.Valid() && connector.disposed == old(connector.disposed)
      ensures warehouseType != null ==> warehouseType.key == old(warehouseType.key)
      ensures warehouseType == null ==>
        r == Throw(Exception(ArgumentNull, "warehouseType")) && connector.connections == old(connector.connections)
      ensures warehouseType != null && warehouseType.key == Some(0) ==>
        r == Throw(Exception(Argument, "Key")) && connector.connections == old(connector.connections)
      ensures warehouseType != null && warehouseType.key != Some(0) && ConnectionError(connector.driver).Some? ==>
        && r == Throw(ConnectionError(connector.driver).value)
        && FailedOpenTracked(old(connector.connections), connector.connections, connector.driver)
      ensures warehouseType != null && warehouseType.key != Some(0) && ConnectionError(connector.driver).None? ==>
        && OneMoreTracked(old(connector.connections), connector.connections)
        && var c := connector.connections[|old(connector.connections)|];
        && c.state == ConnectionState.Open && !c.disposed
        && var fetched := Fetched(c, database, CommandType.StoredProcedure, CreateOrUpdate,
                                  [Parameter(Some("item"), DbJson(encode(Snapshot(warehouseType))))], decodeType);
        && r == Return(if fetched.Throw? then FailedWith(fetched.exception) else Success())
    {
      if warehouseType == null {
        return Throw(Exception(ArgumentNull, "warehouseType"));
      }
      if warehouseType.key == Some(0) {
        return Throw(Exception(Argument, "Key"));
      }
      var connection := connector.CreateConnection();
      if connection.Throw? {
        return Throw(connection.exception);
      }
      var json := encode(Snapshot(warehouseType));
      var saved := Read(connection.value, CommandType.StoredProcedure, CreateOrUpdate,
                        Some(Parameter(Some("item"), DbJson(json))), decodeType);
      if saved.Throw? {
        return Return(FailedWith(saved.exception));
      }
      return Return(Success());
    }

    /**
     * `DeleteAsync(key)`: the delete runs as a text command; any affected-row
     * count is a success, any exception a failed result.
     */
    method Delete(key: int) returns (r: Outcome<WarehouseResult>)
      requires connector.Valid()
      modifies connector
      ensures connector.Valid() && connector.disposed == old(connector.disposed)
      ensures ConnectionError(connector.driver).Some? ==>
        && r == Throw(ConnectionError(connector.driver).value)
        && FailedOpenTracked(old(connector.connections), connector.connections, connector.driver)
      ensures ConnectionError(connector.driver).None? ==>
        && OneMoreTracked(old(connector.connections), connector.connections)
        && var c := connector.connections[|old(connector.connections)|];
        && c.state == ConnectionState.Open && !c.disposed
        && (BuilderError(c).Some? ==> r == Return(FailedWith(BuilderError(c).value)))
        && (BuilderError(c).None? ==>
              var answer := database.nonQuery(CommandType.Text, Some("warehouse.delete_entity_type"), [Parameter(Some("key"), DbInt(key))]);
              r == Return(if answer.Throw? then FailedWith(answer.exception) else Success()))
    {
      var connection := connector.CreateConnection();
      if connection.Throw? {
        return Throw(connection.exception);
      }
      var query := ConnectionExtensions.Query(connection.value, Some("warehouse.delete_entity_type"));
      if query.Throw? {
        return Return(FailedWith(query.exception));
      }
      var builder := query.value.AddParameter(Some("key"), DbInt(key));
      assert builder.command.parameters == [] + [Parameter(Some("key"), DbInt(key))];
      assert builder.command.parameters == [Parameter(Some("key"), DbInt(key))];
      var rowsAffected := builder.Run(database);
      if rowsAffected.Throw? {
        return Return(FailedWith(rowsAffected.exception));
      }
      return Return(Success());
    }

    /**
     * The shape of the Find and GetAll operations: a connection failure
     * propagates; after that, the bound value (possibly null) is a success
     * and any exception a failed result carrying it.
     */
    method Find<T>(text: string, parameter: Option<Parameter>, decode: string -> Outcome<Option<T>>)
      returns (r: Outcome<ValueResult<T>>)
      requires connector.Valid()
      modifies connector
      ensures connector.Valid() && connector.disposed == old(connector.disposed)
      ensures ConnectionError(connector.driver).Some? ==>
        && r == Throw(ConnectionError(connector.driver).value)
        && FailedOpenTracked(old(connector.connections), connector.connections, connector.driver)
      ensures ConnectionError(connector.driver).None? ==>
        && OneMoreTracked(old(connector.connections), connector.connections)
        && var c := connector.connections[|old(connector.connections)|];
        && c.state == ConnectionState.Open && !c.disposed
        && var fetched := Fetched(c, database, CommandType.StoredProcedure, text,
                                  if parameter.Some? then [parameter.value] else [], decode);
        && r == Return(if fetched.Throw? then WithException(fetched.exception) else WithValue(fetched.value))
    {
      var connection := connector.CreateConnection();
      if connection.Throw? {
        return Throw(connection.exception);
      }
      var found := Read(connection.value, CommandType.StoredProcedure, text, parameter, decode);
      if found.Throw? {
        return Return(WithException(found.exception));
      }
      return Return(WithValue(found.value));
    }

    /** `FindByAliasAsync(alias)`. */
    method FindByAlias(alias: Option<string>) returns (r: Outcome<ValueResult<TypeRecord>>)
      requires connector.Valid()
      modifies connector
      ensures connector.Valid() && connector.disposed == old(connector.disposed)
      ensures ConnectionError(connector.driver).Some? ==>
        && r == Throw(ConnectionError(connector.driver).value)
        && FailedOpenTracked(old(connector.connections), connector.connections, connector.driver)
      ensures ConnectionError(connector.driver).None? ==>
        && OneMoreTracked(old(connector.connections), connector.connections)
        && var c := connector.connections[|old(connector.connections)|];
        && c.state == ConnectionState.Open && !c.disposed
        && var fetched := Fetched(c, database, CommandType.StoredProcedure, "warehouse.find_entity_type_by_alias",
                                  [Parameter(Some("alias"), TextValue(alias))], decodeType);
        && r == Return(if fetched.Throw? then WithException(fetched.exception) else WithValue(fetched.value))
    {
      r := Find("warehouse.find_entity_type_by_alias", Some(Parameter(Some("alias"), TextValue(alias))), decodeType);
    }

    /** `FindByClassAsync(className)`. */
    method FindByClass(className: Option<string>) returns (r: Outcome<ValueResult<TypeRecord>>)
      requires connector.Valid()
      modifies connector
      ensures connector.Valid() && connector.disposed == old(connector.disposed)
      ensures ConnectionError(connector.driver).Some? ==>
        && r == Throw(ConnectionError(connector.driver).value)
        && FailedOpenTracked(old(connector.connections), connector.connections, connector.driver)
      ensures ConnectionError(connector.driver).None? ==>
        && OneMoreTracked(old(connector.connections), connector.connections)
        && var c := connector.connections[|old(connector.connections)|];
        && c.state == ConnectionState.Open && !c.disposed
        && var fetched := Fetched(c, database, CommandType.StoredProcedure, "warehouse.find_entity_type_by_class",
                                  [Parameter(Some("class"), TextValue(className))], decodeType);
        && r == Return(if fetched.Throw? then WithException(fetched.exception) else WithValue(fetched.value))
    {
      r := Find("warehouse.find_entity_type_by_class", Some(Parameter(Some("class"), TextValue(className))), decodeType);
    }

    /** `FindByIdAsync(key)`. */
    method FindById(key: int) returns (r: Outcome<ValueResult<TypeRecord>>)
      requires connector.Valid()
      modifies connector
      ensures connector.Valid() && connector.disposed == old(connector.disposed)
      ensures ConnectionError(connector.driver).Some? ==>
        && r == Throw(ConnectionError(connector.driver).value)
        && FailedOpenTracked(old(connector.connections), connector.connections, connector.driver)
      ensures ConnectionError(connector.driver).None? ==>
        && OneMoreTracked(old(connector.connections), connector.connections)
        && var c := connector.connections[|old(connector.connections)|];
        && c.state == ConnectionState.Open && !c.disposed
        && var fetched := Fetched(c, database, CommandType.StoredProcedure, "warehouse.find_entity_type_by_id",
                                  [Parameter(Some("entity_type_id"), DbInt(key))], decodeType);
        && r == Return(if fetched.Throw? then WithException(fetched.exception) else WithValue(fetched.value))
    {
      r := Find("warehouse.find_entity_type_by_id", Some(Parameter(Some("entity_type_id"), DbInt(key))), decodeType);
    }

    /** `GetAllAsync()`. */
    method GetAll() returns (r: Outcome<ValueResult<seq<TypeRecord>>>)
      requires connector.Valid()
      modifies connector
      ensures connector.Valid() && connector.disposed == old(connector.disposed)
      ensures ConnectionError(connector.driver).Some? ==>
        && r == Throw(ConnectionError(connector.driver).value)
        && FailedOpenTracked(old(connector.connections), connector.connections, connector.driver)
      ensures ConnectionError(connector.driver).None? ==>
        && OneMoreTracked(old(connector.connections), connector.connections)
        && var c := connector.connections[|old(connector.connections)|];
        && c.state == ConnectionState.Open && !c.disposed
        && var fetched := Fetched(c, database, CommandType.StoredProcedure, "warehouse.get_all_entity_types", [], decodeTypes);
        && r == Return(if fetched.Throw? then WithException(fetched.exception) else WithValue(fetched.value))
    {
      r := Find("warehouse.get_all_entity_types", None, decodeTypes);
    }
  }
}
