/**
 * `DictionaryValue` and `WarehouseDictionary`: a named collection of
 * dictionary values. Most of its mutators are not implemented: only `Clear`
 * changes anything, and only when the values live in a list.
 */
module Dictionaries {
  import opened Wrappers

  /** `DictionaryValue<TKey>`: compared by reference, as the class defines no equality. */
  class DictionaryValue<K> {
    const key: Option<K>
    const alias: Option<string>
    const display: Option<string>
    const summary: Option<string>
    const items: DictionaryValue?<K>

    constructor(key: Option<K>, alias: Option<string>, display: Option<string>,
                summary: Option<string>, items: DictionaryValue?<K>)
      ensures this.key == key && this.alias == alias && this.display == display
      ensures this.summary == summary && this.items == items
    {
      this.key := key;
      this.alias := alias;
      this.display := display;
      this.summary := summary;
      this.items := items;
    }
  }

  /** The exception LINQ's `First` throws on an empty sequence. */
  const NoElements: Exception := Exception(InvalidOperation, "Sequence contains no elements")

  /** What a parameterless `new NotImplementedException()` carries. */
  const NotImplementedYet: Exception := Exception(NotImplemented, "The method or operation is not implemented.")

  /** What `Clear` on an array seen as an `IList<T>` throws. */
  const FixedSize: Exception := Exception(NotSupported, "Collection was of a fixed size.")

  class WarehouseDictionary<K> {
    /** `_items`, and whether it is a `List<T>` (default constructor) or a wrapped array. */
    var items: seq<DictionaryValue<K>>
    const listBacked: bool
    /** `Key` has a protected setter that nothing in the core calls; it keeps `default(TKey)`. */
    const key: Option<K>
    var alias: Option<string>
    var display: Option<string>
    var enumName: Option<string>
    var summary: Option<string>

    /**
     * `new WarehouseDictionary()`: an empty list. `defaultKey` stands for
     * `default(TKey)`.
     */
    constructor(defaultKey: Option<K>)
      ensures items == [] && listBacked && key == defaultKey
      ensures alias.None? && display.None? && enumName.None? && summary.None?
    {
      items := [];
      listBacked := true;
      key := defaultKey;
      alias, display, enumName, summary := None, None, None, None;
    }

    /** `new WarehouseDictionary(values)`: wraps the array, so its elements are the items. */
    constructor FromArray(defaultKey: Option<K>, values: seq<DictionaryValue<K>>)
      ensures items == values && !listBacked && key == defaultKey
      ensures alias.None? && display.None? && enumName.None? && summary.None?
    {
      items := values;
      listBacked := false;
      key := defaultKey;
      alias, display, enumName, summary := None, None, None, None;
    }

    function Count(): (n: nat)
      reads this
      ensures n == |items|
    {
      |items|
    }

    function IsReadOnly(): (b: bool)
      ensures !b
    {
      false
    }

    /**
     * The indexer `this[key]`: the key is ignored and the first value is
     * returned; an empty dictionary throws.
     */
    function Get(key: Option<K>): (r: Outcome<DictionaryValue<K>>)
      reads this
      ensures r.Return? <==> |items| > 0
      ensures r.Return? ==> r.value == items[0]
      ensures r.Throw? ==> r.exception == NoElements
    {
      if |items| == 0 then Throw(NoElements) else Return(items[0])
    }

    /** `Contains`: reference membership. */
    function Contains(item: DictionaryValue<K>): (b: bool)
      reads this
      ensures b <==> exists i :: 0 <= i < |items| && items[i] == item
    {
      item in items
    }

    /** `Add`: never read-only, so it always reaches the `NotImplementedException`. */
    function Add(item: DictionaryValue<K>): (r: Outcome<Unit>)
      ensures r == Throw(NotImplementedYet)
    {
      if IsReadOnly() then Throw(Exception(NotSupported, "")) else Throw(NotImplementedYet)
    }

    /** `Remove`: always throws. */
    function Remove(item: DictionaryValue<K>): (r: Outcome<bool>)
      ensures r == Throw(NotImplementedYet)
    {
      Throw(NotImplementedYet)
    }

    /** The enumerator: the items in order. */
    function Elements(): seq<DictionaryValue<K>>
      reads this
    {
      items
    }

    /**
     * `Clear`: empties a list-backed dictionary; a wrapped array cannot be
     * cleared and nothing changes.
     */
    method Clear() returns (r: Outcome<Unit>)
      modifies this
      ensures listBacked ==> r == Return(Unit) && items == []
      ensures !listBacked ==> r == Throw(FixedSize) && items == old(items)
      ensures alias == old(alias) && display == old(display)
      ensures enumName == old(enumName) && summary == old(summary)
    {
      if !listBacked {
        return Throw(FixedSize);
      }
      items := [];
      return Return(Unit);
    }
  }

  /** The indexer answers the same whatever key it is given. */
  lemma IndexerIgnoresKey<K>(d: WarehouseDictionary<K>, k1: Option<K>, k2: Option<K>)
    ensures d.Get(k1) == d.Get(k2)
  {
  }

  /** Nothing but `Clear` can change the items: `Add` and `Remove` throw before any change. */
  lemma AddRemoveAlwaysThrow<K>(d: WarehouseDictionary<K>, item: DictionaryValue<K>)
    ensures d.Add(item).Throw? && d.Remove(item).Throw?
    ensures d.Add(item).exception.kind == NotImplemented && d.Remove(item).exception.kind == NotImplemented
  {
  }
}
