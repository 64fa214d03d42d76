/**
 * `WarehouseAttribute` and `AttributeCollection`: the attributes of an entity
 * type, kept in a list whose aliases are unique.
 */
module Attributes {
  import opened Wrappers
  import opened AttributeKinds

  /**
   * `WarehouseAttribute` (integer key). The key is the one field the core
   * assigns after construction (the type store writes the database key back),
   * so it is the one mutable field; `None` strings are null references.
   */
  class Attribute {
    var key: int
    const attributeType: AttributeType
    const alias: Option<string>
    const name: Option<string>
    const summary: Option<string>
    const defaultValue: Option<string>
    const required: bool
    const unique: bool

    constructor(key: int, attributeType: AttributeType, alias: Option<string>, name: Option<string>,
                summary: Option<string>, defaultValue: Option<string>, required: bool, unique: bool)
      ensures this.key == key && this.attributeType == attributeType && this.alias == alias
      ensures this.name == name && this.summary == summary && this.defaultValue == defaultValue
      ensures this.required == required && this.unique == unique
    {
      this.key := key;
      this.attributeType := attributeType;
      this.alias := alias;
      this.name := name;
      this.summary := summary;
      this.defaultValue := defaultValue;
      this.required := required;
      this.unique := unique;
    }
  }

  /** The exception LINQ's `First` throws when no element matches. */
  const NoMatch: Exception := Exception(InvalidOperation, "Sequence contains no matching element")

  /** No two attributes of `s` share an alias (null aliases compare equal, as C# strings do). */
  predicate DistinctAliases(s: seq<Attribute>) {
    forall i, j :: 0 <= i < j < |s| ==> s[i].alias != s[j].alias
  }

  /** The position of the first attribute of `s` with alias `alias`: what `First(a => a.Alias == alias)` finds. */
  function FindAlias(s: seq<Attribute>, alias: Option<string>): (r: Option<nat>)
    ensures r.None? <==> forall i :: 0 <= i < |s| ==> s[i].alias != alias
    ensures r.Some? ==> r.value < |s| && s[r.value].alias == alias
    ensures r.Some? ==> forall i :: 0 <= i < r.value ==> s[i].alias != alias
  {
    if |s| == 0 then None
    else if s[0].alias == alias then Some(0)
    else
      var rest := FindAlias(s[1..], alias);
      if rest.None? then None else Some(rest.value + 1)
  }

  /** The position of the first occurrence of `x` in `s`, by reference. */
  function IndexOf(s: seq<Attribute>, x: Attribute): (r: Option<nat>)
    ensures r.None? <==> x !in s
    ensures r.Some? ==> r.value < |s| && s[r.value] == x && x !in s[..r.value]
  {
    if |s| == 0 then None
    else if s[0] == x then Some(0)
    else
      var rest := IndexOf(s[1..], x);
      assert s == [s[0]] + s[1..];
      if rest.None? then None
      else
        assert s[..rest.value + 1] == [s[0]] + s[1..][..rest.value];
        Some(rest.value + 1)
  }

  /** `List.Remove`: `s` without the first occurrence of `x`, or `s` itself when `x` is absent. */
  function RemoveFirst(s: seq<Attribute>, x: Attribute): (r: seq<Attribute>)
    ensures x !in s ==> r == s
    ensures x in s ==> |r| == |s| - 1 && multiset(r) + multiset{x} == multiset(s)
  {
    var i := IndexOf(s, x);
    if i.None? then s
    else
      assert s == s[..i.value] + [x] + s[i.value + 1..];
      s[..i.value] + s[i.value + 1..]
  }

  /** Removing one element keeps the aliases distinct. */
  lemma {:induction false} RemoveFirstKeepsDistinct(s: seq<Attribute>, x: Attribute)
    requires DistinctAliases(s)
    ensures DistinctAliases(RemoveFirst(s, x))
  {
    var i := IndexOf(s, x);
    if i.Some? {
      var r := RemoveFirst(s, x);
      forall a, b | 0 <= a < b < |r| ensures r[a].alias != r[b].alias {
        var a' := if a < i.value then a else a + 1;
        var b' := if b < i.value then b else b + 1;
        assert r[a] == s[a'] && r[b] == s[b'];
      }
    }
  }

  /** Appending an attribute whose alias is new keeps the aliases distinct. */
  lemma AppendNewAliasKeepsDistinct(s: seq<Attribute>, x: Attribute)
    requires DistinctAliases(s) && FindAlias(s, x.alias).None?
    ensures DistinctAliases(s + [x])
  {
    var t := s + [x];
    forall a, b | 0 <= a < b < |t| ensures t[a].alias != t[b].alias {
      if b == |s| {
        assert t[a] == s[a];
      } else {
        assert t[a] == s[a] && t[b] == s[b];
      }
    }
  }

  /** `AttributeCollection`: a list of attributes with unique aliases. */
  class AttributeCollection {
    var list: seq<Attribute>

    /** The collection invariant: the aliases are pairwise distinct. */
    predicate Valid()
      reads this
    {
      DistinctAliases(list)
    }

    constructor()
      ensures list == [] && Valid()
    {
      list := [];
    }

    function Count(): (n: nat)
      reads this
      ensures n == |list|
    {
      |list|
    }

    /** The backing `List<T>` is never read-only. */
    function IsReadOnly(): (b: bool)
      ensures !b
    {
      false
    }

    /** Reference membership, as `List.Contains` on a class without `Equals`. */
    function Contains(item: Attribute): (b: bool)
      reads this
      ensures b <==> exists i :: 0 <= i < |list| && list[i] == item
    {
      item in list
    }

    /**
     * The indexer `this[alias]`: the attribute with that alias, or the
     * exception of `First` when there is none (the source's later null check
     * can never fire).
     */
    function Get(alias: Option<string>): (r: Outcome<Attribute>)
      reads this
      ensures r.Return? <==> exists i :: 0 <= i < |list| && list[i].alias == alias
      ensures r.Return? ==> r.value in list && r.value.alias == alias
      ensures r.Throw? ==> r.exception == NoMatch
    {
      var i := FindAlias(list, alias);
      if i.Some? then Return(list[i.value]) else Throw(NoMatch)
    }

    /** The enumerator: the attributes in insertion order. */
    function Elements(): seq<Attribute>
      reads this
    {
      list
    }

    /**
     * `Add(item)`: an attribute whose alias is already present is refused
     * with an `AggregateException` and the list is unchanged; otherwise it is
     * appended at the end.
     */
    method Add(item: Attribute) returns (r: Outcome<Unit>)
      requires Valid()
      modifies this
      ensures Valid()
      ensures FindAlias(old(list), item.alias).Some? ==>
        r == Throw(Exception(Aggregate, "item")) && list == old(list)
      ensures FindAlias(old(list), item.alias).None? ==>
        r == Return(Unit) && list == old(list) + [item]
    {
      if FindAlias(list, item.alias).Some? {
        return Throw(Exception(Aggregate, "item"));
      }
      AppendNewAliasKeepsDistinct(list, item);
      list := list + [item];
      return Return(Unit);
    }

    /**
     * `Add(name, alias, attributeType, summary)`: a null name or alias is
     * refused; otherwise a new attribute with key 0, those fields, no default
     * and both flags false goes through the checked `Add`.
     */
    method AddNew(name: Option<string>, alias: Option<string>, attributeType: AttributeType,
                  summary: Option<string> := None) returns (r: Outcome<Unit>)
      requires Valid()
      modifies this
      ensures Valid()
      ensures name.None? ==> r == Throw(Exception(ArgumentNull, "name")) && list == old(list)
      ensures name.Some? && alias.None? ==> r == Throw(Exception(ArgumentNull, "alias")) && list == old(list)
      ensures name.Some? && alias.Some? && FindAlias(old(list), alias).Some? ==>
        r == Throw(Exception(Aggregate, "item")) && list == old(list)
      ensures name.Some? && alias.Some? && FindAlias(old(list), alias).None? ==>
        && r == Return(Unit) && |list| == |old(list)| + 1 && list[..|old(list)|] == old(list)
        && var a := list[|old(list)|];
        && fresh(a) && a.key == 0 && a.alias == alias && a.name == name
        && a.attributeType == attributeType && a.summary == summary
        && a.defaultValue.None? && !a.required && !a.unique
    {
      if name.None? {
        return Throw(Exception(ArgumentNull, "name"));
      }
      if alias.None? {
        return Throw(Exception(ArgumentNull, "alias"));
      }
      var a := new Attribute(0, attributeType, alias, name, summary, None, false, false);
      r := Add(a);
    }

    /** `Clear`: the collection becomes empty. */
    method Clear()
      modifies this
      ensures list == [] && Valid()
    {
      list := [];
    }

    /**
     * `Remove(item)`: drops the first occurrence of `item` and answers
     * whether there was one.
     */
    method Remove(item: Attribute) returns (removed: bool)
      requires Valid()
      modifies this
      ensures Valid()
      ensures removed <==> item in old(list)
      ensures list == RemoveFirst(old(list), item)
    {
      removed := item in list;
      RemoveFirstKeepsDistinct(list, item);
      list := RemoveFirst(list, item);
    }

    /**
     * `Remove(alias)`: removes the attribute with that alias and answers
     * true; with no such attribute `First` throws and nothing changes.
     */
    method RemoveAlias(alias: Option<string>) returns (r: Outcome<bool>)
      requires Valid()
      modifies this
      ensures Valid()
      ensures FindAlias(old(list), alias).None? ==> r == Throw(NoMatch) && list == old(list)
      ensures FindAlias(old(list), alias).Some? ==>
        var i := FindAlias(old(list), alias).value;
        r == Return(true) && list == old(list)[..i] + old(list)[i + 1..]
    {
      var found := Get(alias);
      if found.Throw? {
        return Throw(found.exception);
      }
      var removed := Remove(found.value);
      RemoveAliasIsPositional(old(list), alias);
      return Return(removed);
    }
  }

  /**
   * With distinct aliases, removing the attribute found by alias removes
   * exactly the entry at its position, and no attribute with that alias is
   * left.
   */
  lemma RemoveAliasIsPositional(s: seq<Attribute>, alias: Option<string>)
    requires DistinctAliases(s) && FindAlias(s, alias).Some?
    ensures var i := FindAlias(s, alias).value;
      && IndexOf(s, s[i]) == Some(i)
      && RemoveFirst(s, s[i]) == s[..i] + s[i + 1..]
      && FindAlias(RemoveFirst(s, s[i]), alias).None?
  {
    var i := FindAlias(s, alias).value;
    var j := IndexOf(s, s[i]).value;
    assert s[j].alias == alias;
    assert j == i;
    var r := s[..i] + s[i + 1..];
    forall k | 0 <= k < |r| ensures r[k].alias != alias {
      if k < i {
        assert r[k] == s[k];
      } else {
        assert r[k] == s[k + 1];
      }
    }
  }
}
