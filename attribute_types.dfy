/** `AttributeTypes`: the kinds of value an attribute holds, and their wire codes (`attribute_type_id`). */
module AttributeKinds {
  import opened Wrappers

  datatype AttributeType =
    | Boolean | Integer | Decimal | Money | String | Text
    | DateTime | Json | Dictionary | DictionarySet | Entity | EntitySet

  /** Every kind, in the order of its code. */
  const AllKinds: seq<AttributeType> :=
    [Boolean, Integer, Decimal, Money, String, Text,
     DateTime, Json, Dictionary, DictionarySet, Entity, EntitySet]

  /** The integer the enumeration assigns to a kind. */
  function Code(t: AttributeType): (c: int)
    ensures 1 <= c <= 12
  {
    match t
    case Boolean => 1
    case Integer => 2
    case Decimal => 3
    case Money => 4
    case String => 5
    case Text => 6
    case DateTime => 7
    case Json => 8
    case Dictionary => 9
    case DictionarySet => 10
    case Entity => 11
    case EntitySet => 12
  }

  /** Reading a wire code back: a code no member carries is `None`. */
  function FromCode(c: int): (r: Option<AttributeType>)
    ensures r.Some? <==> 1 <= c <= 12
  {
    if 1 <= c <= 12 then Some(AllKinds[c - 1]) else None
  }

  /** `AllKinds` lists each kind once, at the position of its code. */
  lemma AllKindsIndexedByCode()
    ensures |AllKinds| == 12
    ensures forall i :: 0 <= i < |AllKinds| ==> Code(AllKinds[i]) == i + 1
    ensures forall t: AttributeType :: t in AllKinds
  {
    forall t: AttributeType ensures t in AllKinds {
      assert AllKinds[Code(t) - 1] == t;
    }
  }

  /** Decoding an encoded kind recovers it. */
  lemma DecodeEncode(t: AttributeType)
    ensures FromCode(Code(t)) == Some(t)
  {
  }

  /** Encoding a decoded code gives the code back. */
  lemma EncodeDecode(c: int)
    requires FromCode(c).Some?
    ensures Code(FromCode(c).value) == c
  {
    AllKindsIndexedByCode();
  }

  /** The codes are pairwise distinct. */
  lemma CodeInjective(s: AttributeType, t: AttributeType)
    requires Code(s) == Code(t)
    ensures s == t
  {
    DecodeEncode(s);
    DecodeEncode(t);
  }

  /** The codes cover 1..12 with no gaps: there are exactly twelve kinds. */
  lemma CodesCoverOneToTwelve(c: int)
    requires 1 <= c <= 12
    ensures exists t: AttributeType :: Code(t) == c
  {
    EncodeDecode(c);
  }
}
