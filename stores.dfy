/**
 * The three store base classes, `EntityStore`, `TypeStoreBase` and
 * `DictionaryStoreBase`. What they implement themselves is the same in all
 * three: the constructor's null checks, a disposed flag that `Dispose` sets
 * once, `ThrowIfDisposed`, and (for entities and types) delete-by-value as a
 * delete by the value's key. Their abstract members are left to a provider
 * subclass; here they are the subclass's `replies`, and every call is
 * recorded in the ghost `calls` log so that a manager's use of its store can
 * be stated.
 */
module Stores {
  import opened Wrappers
  import opened WarehouseResults
  import opened DatabaseConnections
  import opened Paging
  import opened Records
  import opened Dictionaries

  /** A call a store has received, with its argument. */
  datatype StoreCall<K, V> =
    | DeleteCall(key: Option<K>)
    | SaveCall(item: V)
    | GetCall(key: Option<K>)
    | FindByAliasCall(alias: Option<string>)
    | FindByClassCall(className: Option<string>)
    | GetAllCall
    | FindCall
    | DisposeCall

  /**
   * The constructor checks of all three bases: a null connector is reported
   * first, then a null error describer.
   */
  function StoreArgumentError(connector: DatabaseConnector?, errorDescriber: Option<ErrorDescriber>): (r: Option<Exception>)
    ensures r.None? <==> connector != null && errorDescriber.Some?
    ensures connector == null ==> r == Some(Exception(ArgumentNull, "connector"))
    ensures connector != null && r.Some? ==> r == Some(Exception(ArgumentNull, "errorDescriber"))
  {
    if connector == null then Some(Exception(ArgumentNull, "connector"))
    else if errorDescriber.None? then Some(Exception(ArgumentNull, "errorDescriber"))
    else None
  }

  /** How a provider's `EntityStore` subclass answers the abstract members. */
  datatype EntityReplies<!K> = EntityReplies(
    delete: Option<K> -> Outcome<WarehouseResult>,
    save: Entity<K> -> Outcome<WarehouseResult>,
    find: Outcome<ValueResult<Pagination<Entity<K>>>>,
    findById: Option<K> -> Outcome<ValueResult<Entity<K>>>)

  /** `EntityStore<TEntity, TKey>`. */
  class EntityStore<K> {
    const connector: DatabaseConnector
    const errorDescriber: ErrorDescriber
    /** `GetType().Name` of the concrete store. */
    const typeName: string
    const replies: EntityReplies<K>
    var disposed: bool
    ghost var calls: seq<StoreCall<K, Entity<K>>>

    constructor(connector: DatabaseConnector, errorDescriber: ErrorDescriber, typeName: string, replies: EntityReplies<K>)
      ensures this.connector == connector && this.errorDescriber == errorDescriber
      ensures this.typeName == typeName && this.replies == replies
      ensures !disposed && calls == []
    {
      this.connector := connector;
      this.errorDescriber := errorDescriber;
      this.typeName := typeName;
      this.replies := replies;
      disposed := false;
      calls := [];
    }

    /** The public constructor: the checks of `StoreArgumentError`, then both arguments stored unchanged. */
    static method New(connector: DatabaseConnector?, errorDescriber: Option<ErrorDescriber>, typeName: string,
                      replies: EntityReplies<K>) returns (r: Outcome<EntityStore<K>>)
      ensures StoreArgumentError(connector, errorDescriber).Some? ==>
        r == Throw(StoreArgumentError(connector, errorDescriber).value)
      ensures StoreArgumentError(connector, errorDescriber).None? ==>
        && r.Return? && fresh(r.value)
        && r.value.connector == connector && r.value.errorDescriber == errorDescriber.value
        && r.value.typeName == typeName && r.value.replies == replies
        && !r.value.disposed && r.value.calls == []
    {
      var error := StoreArgumentError(connector, errorDescriber);
      if error.Some? {
        return Throw(error.value);
      }
      var store := new EntityStore(connector, errorDescriber.value, typeName, replies);
      return Return(store);
    }

    /** `DeleteAsync(key)`, abstract. */
    method Delete(key: Option<K>) returns (r: Outcome<WarehouseResult>)
      modifies this
      ensures r == replies.delete(key)
      ensures calls == old(calls) + [DeleteCall(key)] && disposed == old(disposed)
    {
      calls := calls + [DeleteCall(key)];
      r := replies.delete(key);
    }

    /**
     * `DeleteAsync(entity)`: a delete by the entity's key; a null entity is
     * dereferenced before the store is called.
     */
    method DeleteEntity(entity: Entity?<K>) returns (r: Outcome<WarehouseResult>)
      modifies this
      ensures entity == null ==> r == Throw(NullDereference) && calls == old(calls)
      ensures entity != null ==>
        r == replies.delete(entity.key) && calls == old(calls) + [DeleteCall(entity.key)]
      ensures disposed == old(disposed)
    {
      if entity == null {
        return Throw(NullDereference);
      }
      r := Delete(entity.key);
    }

    /** `FindAsync<T>`, abstract. */
    method Find() returns (r: Outcome<ValueResult<Pagination<Entity<K>>>>)
      modifies this
      ensures r == replies.find
      ensures calls == old(calls) + [FindCall] && disposed == old(disposed)
    {
      calls := calls + [FindCall];
      r := replies.find;
    }

    /** `FindByIdAsync<T>(key)`, abstract. */
    method FindById(key: Option<K>) returns (r: Outcome<ValueResult<Entity<K>>>)
      modifies this
      ensures r == replies.findById(key)
      ensures calls == old(calls) + [GetCall(key)] && disposed == old(disposed)
    {
      calls := calls + [GetCall(key)];
      r := replies.findById(key);
    }

    /** `SaveAsync(entity)`, abstract. */
    method Save(entity: Entity<K>) returns (r: Outcome<WarehouseResult>)
      modifies this
      ensures r == replies.save(entity)
      ensures calls == old(calls) + [SaveCall(entity)] && disposed == old(disposed)
    {
      calls := calls + [SaveCall(entity)];
      r := replies.save(entity);
    }

    /** `Dispose`: sets the flag; once set, a further call changes nothing but the log. */
    method Dispose()
      modifies this
      ensures disposed && calls == old(calls) + [DisposeCall]
    {
      calls := calls + [DisposeCall];
      if !disposed {
        disposed := true;
      }
    }

    /** `ThrowIfDisposed`: throws, naming the concrete store, exactly when disposed. */
    function ThrowIfDisposed(): (r: Outcome<Unit>)
      reads this
      ensures r.Throw? <==> disposed
      ensures r.Throw? ==> r.exception == Exception(ObjectDisposed, typeName)
    {
      if disposed then Throw(Exception(ObjectDisposed, typeName)) else Return(Unit)
    }
  }

  /** How a provider's `TypeStoreBase` subclass answers the abstract members. */
  datatype TypeReplies<!K> = TypeReplies(
    delete: Option<K> -> Outcome<WarehouseResult>,
    findByAlias: Option<string> -> Outcome<ValueResult<WarehouseType<K>>>,
    findByClass: Option<string> -> Outcome<ValueResult<WarehouseType<K>>>,
    getAll: Outcome<ValueResult<seq<WarehouseType<K>>>>,
    get: Option<K> -> Outcome<ValueResult<WarehouseType<K>>>,
    save: WarehouseType<K> -> Outcome<WarehouseResult>)

  /** `TypeStoreBase<TWarehouseType, TKey>`. */
  class TypeStoreBase<K> {
    const connector: DatabaseConnector
    const errorDescriber: ErrorDescriber
    const typeName: string
    const replies: TypeReplies<K>
    var disposed: bool
    ghost var calls: seq<StoreCall<K, WarehouseType<K>>>

    constructor(connector: DatabaseConnector, errorDescriber: ErrorDescriber, typeName: string, replies: TypeReplies<K>)
      ensures this.connector == connector && this.errorDescriber == errorDescriber
      ensures this.typeName == typeName && this.replies == replies
      ensures !disposed && calls == []
    {
      this.connector := connector;
      this.errorDescriber := errorDescriber;
      this.typeName := typeName;
      this.replies := replies;
      disposed := false;
      calls := [];
    }

    static method New(connector: DatabaseConnector?, errorDescriber: Option<ErrorDescriber>, typeName: string,
                      replies: TypeReplies<K>) returns (r: Outcome<TypeStoreBase<K>>)
      ensures StoreArgumentError(connector, errorDescriber).Some? ==>
        r == Throw(StoreArgumentError(connector, errorDescriber).value)
      ensures StoreArgumentError(connector, errorDescriber).None? ==>
        && r.Return? && fresh(r.value)
        && r.value.connector == connector && r.value.errorDescriber == errorDescriber.value
        && r.value.typeName == typeName && r.value.replies == replies
        && !r.value.disposed && r.value.calls == []
    {
      var error := StoreArgumentError(connector, errorDescriber);
      if error.Some? {
        return Throw(error.value);
      }
      var store := new TypeStoreBase(connector, errorDescriber.value, typeName, replies);
      return Return(store);
    }

    method Delete(key: Option<K>) returns (r: Outcome<WarehouseResult>)
      modifies this
      ensures r == replies.delete(key)
      ensures calls == old(calls) + [DeleteCall(key)] && disposed == old(disposed)
    {
      calls := calls + [DeleteCall(key)];
      r := replies.delete(key);
    }

    /** `DeleteAsync(warehouseType)`: a delete by the type's current key. */
    method DeleteType(warehouseType: WarehouseType?<K>) returns (r: Outcome<WarehouseResult>)
      modifies this
      ensures warehouseType == null ==> r == Throw(NullDereference) && calls == old(calls)
      ensures warehouseType != null ==>
        r == replies.delete(warehouseType.key) && calls == old(calls) + [DeleteCall(warehouseType.key)]
      ensures disposed == old(disposed)
    {
      if warehouseType == null {
        return Throw(NullDereference);
      }
      r := Delete(warehouseType.key);
    }

    method FindByAlias(alias: Option<string>) returns (r: Outcome<ValueResult<WarehouseType<K>>>)
      modifies this
      ensures r == replies.findByAlias(alias)
      ensures calls == old(calls) + [FindByAliasCall(alias)] && disposed == old(disposed)
    {
      calls := calls + [FindByAliasCall(alias)];
      r := replies.findByAlias(alias);
    }

    method FindByClass(className: Option<string>) returns (r: Outcome<ValueResult<WarehouseType<K>>>)
      modifies this
      ensures r == replies.findByClass(className)
      ensures calls == old(calls) + [FindByClassCall(className)] && disposed == old(disposed)
    {
      calls := calls + [FindByClassCall(className)];
      r := replies.findByClass(className);
    }

    method GetAll() returns (r: Outcome<ValueResult<seq<WarehouseType<K>>>>)
      modifies this
      ensures r == replies.getAll
      ensures calls == old(calls) + [GetAllCall] && disposed == old(disposed)
    {
      calls := calls + [GetAllCall];
      r := replies.getAll;
    }

    method Get(key: Option<K>) returns (r: Outcome<ValueResult<WarehouseType<K>>>)
      modifies this
      ensures r == replies.get(key)
      ensures calls == old(calls) + [GetCall(key)] && disposed == old(disposed)
    {
      calls := calls + [GetCall(key)];
      r := replies.get(key);
    }

    method Save(warehouseType: WarehouseType<K>) returns (r: Outcome<WarehouseResult>)
      modifies this
      ensures r == replies.save(warehouseType)
      ensures calls == old(calls) + [SaveCall(warehouseType)] && disposed == old(disposed)
    {
      calls := calls + [SaveCall(warehouseType)];
      r := replies.save(warehouseType);
    }

    method Dispose()
      modifies this
      ensures disposed && calls == old(calls) + [DisposeCall]
    {
      calls := calls + [DisposeCall];
      if !disposed {
        disposed := true;
      }
    }

    function ThrowIfDisposed(): (r: Outcome<Unit>)
      reads this
      ensures r.Throw? <==> disposed
      ensures r.Throw? ==> r.exception == Exception(ObjectDisposed, typeName)
    {
      if disposed then Throw(Exception(ObjectDisposed, typeName)) else Return(Unit)
    }
  }

  /** How a provider's `DictionaryStoreBase` subclass answers the abstract members. */
  datatype DictionaryReplies<!K> = DictionaryReplies(
    delete: Option<K> -> Outcome<WarehouseResult>,
    findByAlias: Option<string> -> Outcome<ValueResult<WarehouseDictionary<K>>>,
    get: Option<K> -> Outcome<ValueResult<WarehouseDictionary<K>>>,
    save: WarehouseDictionary<K> -> Outcome<WarehouseResult>)

  /** `DictionaryStoreBase<TDictionary, TKey>`: it has no delete-by-value of its own. */
  class DictionaryStoreBase<K> {
    const connector: DatabaseConnector
    const errorDescriber: ErrorDescriber
    const typeName: string
    const replies: DictionaryReplies<K>
    var disposed: bool
    ghost var calls: seq<StoreCall<K, WarehouseDictionary<K>>>

    constructor(connector: DatabaseConnector, errorDescriber: ErrorDescriber, typeName: string,
                replies: DictionaryReplies<K>)
      ensures this.connector == connector && this.errorDescriber == errorDescriber
      ensures this.typeName == typeName && this.replies == replies
      ensures !disposed && calls == []
    {
      this.connector := connector;
      this.errorDescriber := errorDescriber;
      this.typeName := typeName;
      this.replies := replies;
      disposed := false;
      calls := [];
    }

    static method New(connector: DatabaseConnector?, errorDescriber: Option<ErrorDescriber>, typeName: string,
                      replies: DictionaryReplies<K>) returns (r: Outcome<DictionaryStoreBase<K>>)
      ensures StoreArgumentError(connector, errorDescriber).Some? ==>
        r == Throw(StoreArgumentError(connector, errorDescriber).value)
      ensures StoreArgumentError(connector, errorDescriber).None? ==>
        && r.Return? && fresh(r.value)
        && r.value.connector == connector && r.value.errorDescriber == errorDescriber.value
        && r.value.typeName == typeName && r.value.replies == replies
        && !r.value.disposed && r.value.calls == []
    {
      var error := StoreArgumentError(connector, errorDescriber);
      if error.Some? {
        return Throw(error.value);
      }
      var store := new DictionaryStoreBase(connector, errorDescriber.value, typeName, replies);
      return Return(store);
    }

    method Delete(key: Option<K>) returns (r: Outcome<WarehouseResult>)
      modifies this
      ensures r == replies.delete(key)
      ensures calls == old(calls) + [DeleteCall(key)] && disposed == old(disposed)
    {
      calls := calls + [DeleteCall(key)];
      r := replies.delete(key);
    }

    method FindByAlias(alias: Option<string>) returns (r: Outcome<ValueResult<WarehouseDictionary<K>>>)
      modifies this
      ensures r == replies.findByAlias(alias)
      ensures calls == old(calls) + [FindByAliasCall(alias)] && disposed == old(disposed)
    {
      calls := calls + [FindByAliasCall(alias)];
      r := replies.findByAlias(alias);
    }

    method Get(key: Option<K>) returns (r: Outcome<ValueResult<WarehouseDictionary<K>>>)
      modifies this
      ensures r == replies.get(key)
      ensures calls == old(calls) + [GetCall(key)] && disposed == old(disposed)
    {
      calls := calls + [GetCall(key)];
      r := replies.get(key);
    }

    method Save(dictionary: WarehouseDictionary<K>) returns (r: Outcome<WarehouseResult>)
      modifies this
      ensures r == replies.save(dictionary)
      ensures calls == old(calls) + [SaveCall(dictionary)] && disposed == old(disposed)
    {
      calls := calls + [SaveCall(dictionary)];
      r := replies.save(dictionary);
    }

    method Dispose()
      modifies this
      ensures disposed && calls == old(calls) + [DisposeCall]
    {
      calls := calls + [DisposeCall];
      if !disposed {
        disposed := true;
      }
    }

    function ThrowIfDisposed(): (r: Outcome<Unit>)
      reads this
      ensures r.Throw? <==> disposed
      ensures r.Throw? ==> r.exception == Exception(ObjectDisposed, typeName)
    {
      if disposed then Throw(Exception(ObjectDisposed, typeName)) else Return(Unit)
    }
  }
}
