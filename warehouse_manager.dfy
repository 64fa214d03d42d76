/**
 * `WarehouseManager<TKey>`: the entry point for entities. Every operation
 * first checks the disposed flag, then its argument, and only then reaches
 * the store; saving runs the validation pass first and reaches the store
 * only when it succeeds.
 */
module WarehouseManagers {
  import opened Wrappers
  import opened WarehouseResults
  import opened Paging
  import opened Records
  import opened Validation
  import opened Stores

  class WarehouseManager<K> {
    const store: EntityStore<K>
    const options: WarehouseOptions
    /** `None` is a null validator enumerable. */
    const validators: Option<seq<Validator<Entity<K>>>>
    const errorDescriber: ErrorDescriber
    /** `GetType().Name` of the manager. */
    const typeName: string
    var disposed: bool

    /**
     * The constructor once the store is known to be non-null: missing options
     * and a missing describer are replaced by fresh defaults.
     */
    constructor(store: EntityStore<K>, options: Option<WarehouseOptions>, validators: Option<seq<Validator<Entity<K>>>>,
                errorDescriber: Option<ErrorDescriber>, typeName: string)
      ensures this.store == store && this.validators == validators && this.typeName == typeName
      ensures this.options == if options.Some? then options.value else DefaultOptions()
      ensures this.errorDescriber == if errorDescriber.Some? then errorDescriber.value else BaseDescriber()
      ensures !disposed
    {
      this.store := store;
      this.options := if options.Some? then options.value else DefaultOptions();
      this.validators := validators;
      this.errorDescriber := if errorDescriber.Some? then errorDescriber.value else BaseDescriber();
      this.typeName := typeName;
      disposed := false;
    }

    /** The public constructor: a null store is rejected. */
    static method New(store: EntityStore?<K>, options: Option<WarehouseOptions>,
                      validators: Option<seq<Validator<Entity<K>>>>, errorDescriber: Option<ErrorDescriber>,
                      typeName: string) returns (r: Outcome<WarehouseManager<K>>)
      ensures store == null ==> r == Throw(Exception(ArgumentNull, "store"))
      ensures store != null ==>
        && r.Return? && fresh(r.value) && r.value.store == store && r.value.validators == validators
        && r.value.options == (if options.Some? then options.value else DefaultOptions())
        && r.value.errorDescriber == (if errorDescriber.Some? then errorDescriber.value else BaseDescriber())
        && r.value.typeName == typeName && !r.value.disposed
    {
      if store == null {
        return Throw(Exception(ArgumentNull, "store"));
      }
      var manager := new WarehouseManager(store, options, validators, errorDescriber, typeName);
      return Return(manager);
    }

    /** What every operation throws once the manager is disposed. */
    function DisposedError(): Exception {
      Exception(ObjectDisposed, typeName)
    }

    /** `ThrowIfDisposed`: throws exactly when disposed. */
    function ThrowIfDisposed(): (r: Outcome<Unit>)
      reads this
      ensures r.Throw? <==> disposed
      ensures r.Throw? ==> r.exception == DisposedError()
    {
      if disposed then Throw(DisposedError()) else Return(Unit)
    }

    /** `DeleteAsync(entityId)`: a null key is rejected; otherwise the store's answer. */
    method DeleteKey(entityId: Option<K>) returns (r: Outcome<WarehouseResult>)
      modifies store
      ensures store.disposed == old(store.disposed)
      ensures disposed ==> r == Throw(DisposedError()) && store.calls == old(store.calls)
      ensures !disposed && entityId.None? ==>
        r == Throw(Exception(ArgumentNull, "entityId")) && store.calls == old(store.calls)
      ensures !disposed && entityId.Some? ==>
        r == store.replies.delete(entityId) && store.calls == old(store.calls) + [DeleteCall(entityId)]
    {
      var guard := ThrowIfDisposed();
      if guard.Throw? {
        return Throw(guard.exception);
      }
      if entityId.None? {
        return Throw(Exception(ArgumentNull, "entityId"));
      }
      r := store.Delete(entityId);
    }

    /**
     * `DeleteAsync(entity)`: a null entity is rejected; otherwise exactly
     * `DeleteKey(entity.key)`, including its rejection of a null key.
     */
    method Delete(entity: Entity?<K>) returns (r: Outcome<WarehouseResult>)
      modifies store
      ensures store.disposed == old(store.disposed)
      ensures disposed ==> r == Throw(DisposedError()) && store.calls == old(store.calls)
      ensures !disposed && entity == null ==>
        r == Throw(Exception(ArgumentNull, "entity")) && store.calls == old(store.calls)
      ensures !disposed && entity != null && entity.key.None? ==>
        r == Throw(Exception(ArgumentNull, "entityId")) && store.calls == old(store.calls)
      ensures !disposed && entity != null && entity.key.Some? ==>
        r == store.replies.delete(entity.key) && store.calls == old(store.calls) + [DeleteCall(entity.key)]
    {
      var guard := ThrowIfDisposed();
      if guard.Throw? {
        return Throw(guard.exception);
      }
      if entity == null {
        return Throw(Exception(ArgumentNull, "entity"));
      }
      r := DeleteKey(entity.key);
    }

    /** `FindAsync<TEntity>`: the store's page, unwrapped. */
    method Find() returns (r: Outcome<Option<Pagination<Entity<K>>>>)
      modifies store
      ensures store.disposed == old(store.disposed)
      ensures disposed ==> r == Throw(DisposedError()) && store.calls == old(store.calls)
      ensures !disposed ==> r == UnwrapReply(store.replies.find) && store.calls == old(store.calls) + [FindCall]
    {
      var guard := ThrowIfDisposed();
      if guard.Throw? {
        return Throw(guard.exception);
      }
      var reply := store.Find();
      r := UnwrapReply(reply);
    }

    /** `FindByIdAsync<TEntity>(entityId)`: the key is passed on unchecked; the store's entity, unwrapped. */
    method FindById(entityId: Option<K>) returns (r: Outcome<Option<Entity<K>>>)
      modifies store
      ensures store.disposed == old(store.disposed)
      ensures disposed ==> r == Throw(DisposedError()) && store.calls == old(store.calls)
      ensures !disposed ==>
        r == UnwrapReply(store.replies.findById(entityId)) && store.calls == old(store.calls) + [GetCall(entityId)]
    {
      var guard := ThrowIfDisposed();
      if guard.Throw? {
        return Throw(guard.exception);
      }
      var reply := store.FindById(entityId);
      r := UnwrapReply(reply);
    }

    /** `ValidateAsync(entity)`: the validation pass over the registered validators. */
    method Validate(entity: Entity<K>) returns (r: Outcome<WarehouseResult>)
      ensures r == Verdict<Entity<K>>(validators, entity)
    {
      r := Validation.Validate(validators, entity);
    }

    /**
     * `SaveAsync(entity)`: the store is asked to save exactly when the
     * validation pass succeeds, and its answer is returned verbatim;
     * otherwise the pass's failure (or exception) is the answer and the
     * store is not touched.
     */
    method Save(entity: Entity?<K>) returns (r: Outcome<WarehouseResult>)
      modifies store
      ensures store.disposed == old(store.disposed)
      ensures disposed ==> r == Throw(DisposedError()) && store.calls == old(store.calls)
      ensures !disposed && entity == null ==>
        r == Throw(Exception(ArgumentNull, "entity")) && store.calls == old(store.calls)
      ensures !disposed && entity != null && Verdict<Entity<K>>(validators, entity).Return?
              && Verdict<Entity<K>>(validators, entity).value.succeeded ==>
        r == store.replies.save(entity) && store.calls == old(store.calls) + [SaveCall(entity)]
      ensures !disposed && entity != null && !(Verdict<Entity<K>>(validators, entity).Return?
              && Verdict<Entity<K>>(validators, entity).value.succeeded) ==>
        r == Verdict<Entity<K>>(validators, entity) && store.calls == old(store.calls)
    {
      var guard := ThrowIfDisposed();
      if guard.Throw? {
        return Throw(guard.exception);
      }
      if entity == null {
        return Throw(Exception(ArgumentNull, "entity"));
      }
      var result := Validate(entity);
      if result.Throw? || !result.value.succeeded {
        return result;
      }
      r := store.Save(entity);
    }

    /** `Dispose`: the first call disposes the store and sets the flag; later calls do nothing. */
    method Dispose()
      modifies this, store
      ensures disposed
      ensures !old(disposed) ==> store.disposed && store.calls == old(store.calls) + [DisposeCall]
      ensures old(disposed) ==> store.disposed == old(store.disposed) && store.calls == old(store.calls)
    {
      if !disposed {
        store.Dispose();
        disposed := true;
      }
    }
  }
}
