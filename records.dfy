/**
 * The records the managers and stores pass around: entities, entity types,
 * the error describer and the options.
 */
module Records {
  import opened Wrappers
  import opened WarehouseResults
  import opened Attributes

  /**
   * `WarehouseErrorDescriber`: the localisable source of error values. A
   * subclass may override `DefaultError`, so the describer is the error it
   * produces.
   */
  datatype ErrorDescriber = ErrorDescriber(defaultError: WarehouseError)

  /** `new WarehouseErrorDescriber()`: its default error is named after its own method. */
  function BaseDescriber(): (d: ErrorDescriber)
    ensures d.defaultError.code == "DefaultError" && d.defaultError.description == "DefaultError"
  {
    ErrorDescriber(WarehouseError("DefaultError", "DefaultError"))
  }

  /**
   * `WarehouseOptions`, as named settings; `WarehouseOptions.cs` is not part of
   * this model, so `new WarehouseOptions()` is the empty set of settings.
   */
  datatype WarehouseOptions = WarehouseOptions(settings: map<string, string>)

  function DefaultOptions(): (o: WarehouseOptions)
    ensures o.settings == map[]
  {
    WarehouseOptions(map[])
  }

  /** `Entity<TKey>`: what the managers need of an entity is its key (`None` is a null key). */
  class Entity<K> {
    const key: Option<K>

    constructor(key: Option<K>)
      ensures this.key == key
    {
      this.key := key;
    }
  }

  /**
   * `WarehouseType<TKey>` in the shape the type store uses: a settable key
   * and an attribute collection.
   */
  class WarehouseType<K> {
    var key: Option<K>
    const alias: Option<string>
    const display: Option<string>
    const className: Option<string>
    const summary: Option<string>
    const attributes: AttributeCollection

    constructor(key: Option<K>, alias: Option<string>, display: Option<string>, className: Option<string>,
                summary: Option<string>, attributes: AttributeCollection)
      ensures this.key == key && this.alias == alias && this.display == display
      ensures this.className == className && this.summary == summary && this.attributes == attributes
    {
      this.key := key;
      this.alias := alias;
      this.display := display;
      this.className := className;
      this.summary := summary;
      this.attributes := attributes;
    }
  }

  /** A `System.Type`: what `FindByTypeAsync` reads of it is `FullName`, which may be null. */
  datatype ClrType = ClrType(fullName: Option<string>)
}
