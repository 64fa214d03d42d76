/**
 * `DictionaryManager<TKey>`: the entry point for dictionaries. It has no
 * validation pass: saving goes straight to the store once the argument is
 * checked.
 */
module DictionaryManagers {
  import opened Wrappers
  import opened WarehouseResults
  import opened Dictionaries
  import opened Stores

  class DictionaryManager<K> {
    const store: DictionaryStoreBase<K>
    const typeName: string
    var disposed: bool

    /** The class declares no constructor and never assigns its store; here the store is given. */
    constructor(store: DictionaryStoreBase<K>, typeName: string)
      ensures this.store == store && this.typeName == typeName && !disposed
    {
      this.store := store;
      this.typeName := typeName;
      disposed := false;
    }

    function DisposedError(): Exception {
      Exception(ObjectDisposed, typeName)
    }

    function ThrowIfDisposed(): (r: Outcome<Unit>)
      reads this
      ensures r.Throw? <==> disposed
      ensures r.Throw? ==> r.exception == DisposedError()
    {
      if disposed then Throw(DisposedError()) else Return(Unit)
    }

    /** `DeleteAsync(dictionaryKey)`. */
    method DeleteKey(dictionaryKey: Option<K>) returns (r: Outcome<WarehouseResult>)
      modifies store
      ensures store.disposed == old(store.disposed)
      ensures disposed ==> r == Throw(DisposedError()) && store.calls == old(store.calls)
      ensures !disposed && dictionaryKey.None? ==>
        r == Throw(Exception(ArgumentNull, "dictionaryKey")) && store.calls == old(store.calls)
      ensures !disposed && dictionaryKey.Some? ==>
        r == store.replies.delete(dictionaryKey) && store.calls == old(store.calls) + [DeleteCall(dictionaryKey)]
    {
      var guard := ThrowIfDisposed();
      if guard.Throw? {
        return Throw(guard.exception);
      }
      if dictionaryKey.None? {
        return Throw(Exception(ArgumentNull, "dictionaryKey"));
      }
      r := store.Delete(dictionaryKey);
    }

    /** `DeleteAsync(dictionary)`: a null dictionary is rejected; otherwise exactly `DeleteKey(dictionary.key)`. */
    method Delete(dictionary: WarehouseDictionary?<K>) returns (r: Outcome<WarehouseResult>)
      modifies store
      ensures store.disposed == old(store.disposed)
      ensures disposed ==> r == Throw(DisposedError()) && store.calls == old(store.calls)
      ensures !disposed && dictionary == null ==>
        r == Throw(Exception(ArgumentNull, "dictionary")) && store.calls == old(store.calls)
      ensures !disposed && dictionary != null && dictionary.key.None? ==>
        r == Throw(Exception(ArgumentNull, "dictionaryKey")) && store.calls == old(store.calls)
      ensures !disposed && dictionary != null && dictionary.key.Some? ==>
        r == store.replies.delete(dictionary.key) && store.calls == old(store.calls) + [DeleteCall(dictionary.key)]
    {
      var guard := ThrowIfDisposed();
      if guard.Throw? {
        return Throw(guard.exception);
      }
      if dictionary == null {
        return Throw(Exception(ArgumentNull, "dictionary"));
      }
      r := DeleteKey(dictionary.key);
    }

    /** `GetAsync(dictionaryKey)`: a null key is rejected; otherwise the store's dictionary, unwrapped. */
    method Get(dictionaryKey: Option<K>) returns (r: Outcome<Option<WarehouseDictionary<K>>>)
      modifies store
      ensures store.disposed == old(store.disposed)
      ensures disposed ==> r == Throw(DisposedError()) && store.calls == old(store.calls)
      ensures !disposed && dictionaryKey.None? ==>
        r == Throw(Exception(ArgumentNull, "dictionaryKey")) && store.calls == old(store.calls)
      ensures !disposed && dictionaryKey.Some? ==>
        r == UnwrapReply(store.replies.get(dictionaryKey)) && store.calls == old(store.calls) + [GetCall(dictionaryKey)]
    {
      var guard := ThrowIfDisposed();
      if guard.Throw? {
        return Throw(guard.exception);
      }
      if dictionaryKey.None? {
        return Throw(Exception(ArgumentNull, "dictionaryKey"));
      }
      var reply := store.Get(dictionaryKey);
      r := UnwrapReply(reply);
    }

    /** `FindByAliasAsync(alias)`: a null alias is rejected; otherwise the store's dictionary, unwrapped. */
    method FindByAlias(alias: Option<string>) returns (r: Outcome<Option<WarehouseDictionary<K>>>)
      modifies store
      ensures store.disposed == old(store.disposed)
      ensures disposed ==> r == Throw(DisposedError()) && store.calls == old(store.calls)
      ensures !disposed && alias.None? ==>
        r == Throw(Exception(ArgumentNull, "alias")) && store.calls == old(store.calls)
      ensures !disposed && alias.Some? ==>
        r == UnwrapReply(store.replies.findByAlias(alias)) && store.calls == old(store.calls) + [FindByAliasCall(alias)]
    {
      var guard := ThrowIfDisposed();
      if guard.Throw? {
        return Throw(guard.exception);
      }
      if alias.None? {
        return Throw(Exception(ArgumentNull, "alias"));
      }
      var reply := store.FindByAlias(alias);
      r := UnwrapReply(reply);
    }

    /** `SaveAsync(dictionary)`: a null dictionary is rejected; otherwise the store's answer, with no validation. */
    method Save(dictionary: WarehouseDictionary?<K>) returns (r: Outcome<WarehouseResult>)
      modifies store
      ensures store.disposed == old(store.disposed)
      ensures disposed ==> r == Throw(DisposedError()) && store.calls == old(store.calls)
      ensures !disposed && dictionary == null ==>
        r == Throw(Exception(ArgumentNull, "dictionary")) && store.calls == old(store.calls)
      ensures !disposed && dictionary != null ==>
        r == store.replies.save(dictionary) && store.calls == old(store.calls) + [SaveCall(dictionary)]
    {
      var guard := ThrowIfDisposed();
      if guard.Throw? {
        return Throw(guard.exception);
      }
      if dictionary == null {
        return Throw(Exception(ArgumentNull, "dictionary"));
      }
      r := store.Save(dictionary);
    }

    /** `Dispose`: the first call disposes the store and sets the flag; later calls do nothing. */
    method Dispose()
      modifies this, store
      ensures disposed
      ensures !old(disposed) ==> store.disposed && store.calls == old(store.calls) + [DisposeCall]
      ensures old(disposed) ==> store.disposed == old(store.disposed) && store.calls == old(store.calls)
    {
      if !disposed {
        store.Dispose();
        disposed := true;
      }
    }
  }
}
