/**
 * `TypeManager<TWarehouseType, TKey>`: the entry point for entity types. It
 * follows the pattern of `WarehouseManager`: disposed check, argument check,
 * then the store; saving is gated by the validation pass; lookups unwrap
 * the store's envelope.
 */
module TypeManagers {
  import opened Wrappers
  import opened WarehouseResults
  import opened Records
  import opened Validation
  import opened Stores

  class TypeManager<K> {
    const store: TypeStoreBase<K>
    const options: WarehouseOptions
    const validators: Option<seq<Validator<WarehouseType<K>>>>
    const errorDescriber: ErrorDescriber
    const typeName: string
    var disposed: bool

    constructor(store: TypeStoreBase<K>, options: Option<WarehouseOptions>,
                validators: Option<seq<Validator<WarehouseType<K>>>>, errorDescriber: Option<ErrorDescriber>,
                typeName: string)
      ensures this.store == store && this.validators == validators && this.typeName == typeName
      ensures this.options == if options.Some? then options.value else DefaultOptions()
      ensures this.errorDescriber == if errorDescriber.Some? then errorDescriber.value else BaseDescriber()
      ensures !disposed
    {
      this.store := store;
      this.options := if options.Some? then options.value else DefaultOptions();
      this.validators := validators;
      this.errorDescriber := if errorDescriber.Some? then errorDescriber.value else BaseDescriber();
      this.typeName := typeName;
      disposed := false;
    }

    /** The public constructor: a null store is rejected; options and describer default. */
    static method New(store: TypeStoreBase?<K>, options: Option<WarehouseOptions>,
                      validators: Option<seq<Validator<WarehouseType<K>>>>, errorDescriber: Option<ErrorDescriber>,
                      typeName: string) returns (r: Outcome<TypeManager<K>>)
      ensures store == null ==> r == Throw(Exception(ArgumentNull, "store"))
      ensures store != null ==>
        && r.Return? && fresh(r.value) && r.value.store == store && r.value.validators == validators
        && r.value.options == (if options.Some? then options.value else DefaultOptions())
        && r.value.errorDescriber == (if errorDescriber.Some? then errorDescriber.value else BaseDescriber())
        && r.value.typeName == typeName && !r.value.disposed
    {
      if store == null {
        return Throw(Exception(ArgumentNull, "store"));
      }
      var manager := new TypeManager(store, options, validators, errorDescriber, typeName);
      return Return(manager);
    }

    function DisposedError(): Exception {
      Exception(ObjectDisposed, typeName)
    }

    function ThrowIfDisposed(): (r: Outcome<Unit>)
      reads this
      ensures r.Throw? <==> disposed
      ensures r.Throw? ==> r.exception == DisposedError()
    {
      if disposed then Throw(DisposedError()) else Return(Unit)
    }

    /** `DeleteAsync(warehouseTypeKey)`. */
    method DeleteKey(warehouseTypeKey: Option<K>) returns (r: Outcome<WarehouseResult>)
      modifies store
      ensures store.disposed == old(store.disposed)
      ensures disposed ==> r == Throw(DisposedError()) && store.calls == old(store.calls)
      ensures !disposed && warehouseTypeKey.None? ==>
        r == Throw(Exception(ArgumentNull, "warehouseTypeKey")) && store.calls == old(store.calls)
      ensures !disposed && warehouseTypeKey.Some? ==>
        r == store.replies.delete(warehouseTypeKey)
        && store.calls == old(store.calls) + [DeleteCall(warehouseTypeKey)]
    {
      var guard := ThrowIfDisposed();
      if guard.Throw? {
        return Throw(guard.exception);
      }
      if warehouseTypeKey.None? {
        return Throw(Exception(ArgumentNull, "warehouseTypeKey"));
      }
      r := store.Delete(warehouseTypeKey);
    }

    /** `DeleteAsync(warehouseType)`: a null type is rejected; otherwise exactly `DeleteKey(warehouseType.key)`. */
    method Delete(warehouseType: WarehouseType?<K>) returns (r: Outcome<WarehouseResult>)
      modifies store
      ensures store.disposed == old(store.disposed)
      ensures disposed ==> r == Throw(DisposedError()) && store.calls == old(store.calls)
      ensures !disposed && warehouseType == null ==>
        r == Throw(Exception(ArgumentNull, "warehouseType")) && store.calls == old(store.calls)
      ensures !disposed && warehouseType != null && warehouseType.key.None? ==>
        r == Throw(Exception(ArgumentNull, "warehouseTypeKey")) && store.calls == old(store.calls)
      ensures !disposed && warehouseType != null && warehouseType.key.Some? ==>
        r == store.replies.delete(warehouseType.key)
        && store.calls == old(store.calls) + [DeleteCall(warehouseType.key)]
    {
      var guard := ThrowIfDisposed();
      if guard.Throw? {
        return Throw(guard.exception);
      }
      if warehouseType == null {
        return Throw(Exception(ArgumentNull, "warehouseType"));
      }
      r := DeleteKey(warehouseType.key);
    }

    /** `GetAllAsync`: every type, unwrapped. */
    method GetAll() returns (r: Outcome<Option<seq<WarehouseType<K>>>>)
      modifies store
      ensures store.disposed == old(store.disposed)
      ensures disposed ==> r == Throw(DisposedError()) && store.calls == old(store.calls)
      ensures !disposed ==> r == UnwrapReply(store.replies.getAll) && store.calls == old(store.calls) + [GetAllCall]
    {
      var guard := ThrowIfDisposed();
      if guard.Throw? {
        return Throw(guard.exception);
      }
      var reply := store.GetAll();
      r := UnwrapReply(reply);
    }

    /** `GetAsync(warehouseTypeKey)`: a null key is rejected; otherwise the store's type, unwrapped. */
    method Get(warehouseTypeKey: Option<K>) returns (r: Outcome<Option<WarehouseType<K>>>)
      modifies store
      ensures store.disposed == old(store.disposed)
      ensures disposed ==> r == Throw(DisposedError()) && store.calls == old(store.calls)
      ensures !disposed && warehouseTypeKey.None? ==>
        r == Throw(Exception(ArgumentNull, "warehouseTypeKey")) && store.calls == old(store.calls)
      ensures !disposed && warehouseTypeKey.Some? ==>
        r == UnwrapReply(store.replies.get(warehouseTypeKey))
        && store.calls == old(store.calls) + [GetCall(warehouseTypeKey)]
    {
      var guard := ThrowIfDisposed();
      if guard.Throw? {
        return Throw(guard.exception);
      }
      if warehouseTypeKey.None? {
        return Throw(Exception(ArgumentNull, "warehouseTypeKey"));
      }
      var reply := store.Get(warehouseTypeKey);
      r := UnwrapReply(reply);
    }

    /** `FindByAliasAsync(alias)`: a null alias is rejected; otherwise the store's type, unwrapped. */
    method FindByAlias(alias: Option<string>) returns (r: Outcome<Option<WarehouseType<K>>>)
      modifies store
      ensures store.disposed == old(store.disposed)
      ensures disposed ==> r == Throw(DisposedError()) && store.calls == old(store.calls)
      ensures !disposed && alias.None? ==>
        r == Throw(Exception(ArgumentNull, "alias")) && store.calls == old(store.calls)
      ensures !disposed && alias.Some? ==>
        r == UnwrapReply(store.replies.findByAlias(alias)) && store.calls == old(store.calls) + [FindByAliasCall(alias)]
    {
      var guard := ThrowIfDisposed();
      if guard.Throw? {
        return Throw(guard.exception);
      }
      if alias.None? {
        return Throw(Exception(ArgumentNull, "alias"));
      }
      var reply := store.FindByAlias(alias);
      r := UnwrapReply(reply);
    }

    /**
     * `FindByTypeAsync(type)`: a null type is rejected; otherwise the store is
     * asked for the type's full name (itself possibly null) and its answer
     * unwrapped.
     */
    method FindByType(clrType: Option<ClrType>) returns (r: Outcome<Option<WarehouseType<K>>>)
      modifies store
      ensures store.disposed == old(store.disposed)
      ensures disposed ==> r == Throw(DisposedError()) && store.calls == old(store.calls)
      ensures !disposed && clrType.None? ==>
        r == Throw(Exception(ArgumentNull, "type")) && store.calls == old(store.calls)
      ensures !disposed && clrType.Some? ==>
        r == UnwrapReply(store.replies.findByClass(clrType.value.fullName))
        && store.calls == old(store.calls) + [FindByClassCall(clrType.value.fullName)]
    {
      var guard := ThrowIfDisposed();
      if guard.Throw? {
        return Throw(guard.exception);
      }
      if clrType.None? {
        return Throw(Exception(ArgumentNull, "type"));
      }
      var reply := store.FindByClass(clrType.value.fullName);
      r := UnwrapReply(reply);
    }

    /** `FindByTypeAsync<T>()`: `FindByType` applied to `typeof(T)`, which is never null. */
    method FindByTypeOf(t: ClrType) returns (r: Outcome<Option<WarehouseType<K>>>)
      modifies store
      ensures store.disposed == old(store.disposed)
      ensures disposed ==> r == Throw(DisposedError()) && store.calls == old(store.calls)
      ensures !disposed ==>
        r == UnwrapReply(store.replies.findByClass(t.fullName))
        && store.calls == old(store.calls) + [FindByClassCall(t.fullName)]
    {
      var guard := ThrowIfDisposed();
      if guard.Throw? {
        return Throw(guard.exception);
      }
      r := FindByType(Some(t));
    }

    /** `ValidateAsync(warehouseType)`. */
    method Validate(warehouseType: WarehouseType<K>) returns (r: Outcome<WarehouseResult>)
      ensures r == Verdict<WarehouseType<K>>(validators, warehouseType)
    {
      r := Validation.Validate(validators, warehouseType);
    }

    /** `SaveAsync(warehouseType)`: the store is asked to save exactly when validation succeeds. */
    method Save(warehouseType: WarehouseType?<K>) returns (r: Outcome<WarehouseResult>)
      modifies store
      ensures store.disposed == old(store.disposed)
      ensures disposed ==> r == Throw(DisposedError()) && store.calls == old(store.calls)
      ensures !disposed && warehouseType == null ==>
        r == Throw(Exception(ArgumentNull, "warehouseType")) && store.calls == old(store.calls)
      ensures !disposed && warehouseType != null && Verdict<WarehouseType<K>>(validators, warehouseType).Return?
              && Verdict<WarehouseType<K>>(validators, warehouseType).value.succeeded ==>
        r == store.replies.save(warehouseType) && store.calls == old(store.calls) + [SaveCall(warehouseType)]
      ensures !disposed && warehouseType != null && !(Verdict<WarehouseType<K>>(validators, warehouseType).Return?
              && Verdict<WarehouseType<K>>(validators, warehouseType).value.succeeded) ==>
        r == Verdict<WarehouseType<K>>(validators, warehouseType) && store.calls == old(store.calls)
    {
      var guard := ThrowIfDisposed();
      if guard.Throw? {
        return Throw(guard.exception);
      }
      if warehouseType == null {
        return Throw(Exception(ArgumentNull, "warehouseType"));
      }
      var result := Validate(warehouseType);
      if result.Throw? || !result.value.succeeded {
        return result;
      }
      r := store.Save(warehouseType);
    }

    /** `Dispose`: the first call disposes the store and sets the flag; later calls do nothing. */
    method Dispose()
      modifies this, store
      ensures disposed
      ensures !old(disposed) ==> store.disposed && store.calls == old(store.calls) + [DisposeCall]
      ensures old(disposed) ==> store.disposed == old(store.disposed) && store.calls == old(store.calls)
    {
      if !disposed {
        store.Dispose();
        disposed := true;
      }
    }
  }
}
