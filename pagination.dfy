/**
 * `WarehousePagination<T>`: a read-only page of items with the page number,
 * the page size and the total item count, validated at construction.
 */
module Paging {
  import opened Wrappers

  const IntMin: int := -0x8000_0000
  const IntMax: int := 0x7fff_ffff

  /** A C# `int`. */
  type Int32 = x: int | -0x8000_0000 <= x <= 0x7fff_ffff

  /** C#'s unchecked `int` arithmetic: two's-complement wrap-around. */
  function Wrap32(x: int): (r: Int32)
    ensures IntMin <= x <= IntMax ==> r == x
    ensures (r - x) % 0x1_0000_0000 == 0
  {
    (x - IntMin) % 0x1_0000_0000 + IntMin
  }

  /** C#'s integer division, which truncates toward zero. */
  function DivTrunc(a: int, b: int): int
    requires b > 0
  {
    if a >= 0 then a / b else -((-a) / b)
  }

  /**
   * `Pages` exactly as the source computes it: the sum `Count + Size - 1` is
   * 32-bit and wraps around for large counts.
   */
  function PagesAsWritten(count: Int32, size: Int32): (r: int)
    requires size >= 1
  {
    if size == IntMax || count == 0 then 1 else DivTrunc(Wrap32(count + size - 1), size)
  }

  /**
   * `Pages` without the overflow: one page for an empty collection, otherwise
   * the number of pages of `size` items needed to hold `count` items.
   */
  function Pages(count: Int32, size: Int32): (r: Int32)
    requires count >= 0 && size >= 1
    ensures r >= 1
    ensures count == 0 ==> r == 1
    ensures count > 0 ==> (r - 1) * size < count <= r * size
  {
    if size == IntMax || count == 0 then 1
    else
      CeilingDivision(count, size);
      count / size + (if count % size == 0 then 0 else 1)
  }

  /** `a <= b` scales by a non-negative factor. */
  lemma MulMonotonic(a: int, b: int, c: int)
    requires a <= b && c >= 0
    ensures a * c <= b * c
  {
    assert b * c - a * c == (b - a) * c;
  }

  /**
   * The source's `(count + size - 1) / size` is the rounded-up quotient: it
   * brackets the dividend and never exceeds it.
   */
  lemma CeilingDivision(count: int, size: int)
    requires count > 0 && size > 0
    ensures var r := count / size + (if count % size == 0 then 0 else 1);
      && (count + size - 1) / size == r
      && (r - 1) * size < count <= r * size && 1 <= r <= count
  {
    var q, m := count / size, count % size;
    var n := count + size - 1;
    assert count == q * size + m;
    assert q >= 0;
    MulMonotonic(1, size, q);
    if m == 0 {
      assert (q - 1) * size == q * size - size;
      assert n == q * size + (size - 1);
      LemmaDivUnique(n, size, q, size - 1);
    } else {
      assert (q + 1) * size == q * size + size;
      MulMonotonic(2, size, q);
      assert n == (q + 1) * size + (m - 1);
      LemmaDivUnique(n, size, q + 1, m - 1);
    }
  }

  datatype Pagination<T> = Pagination(items: seq<T>, count: Int32, size: Int32, page: Int32) {

    /** What a successful construction guarantees about the page. */
    predicate Valid() {
      && 1 <= size && 0 <= count
      && 1 <= page <= Pages(count, size)
      && |items| <= size && |items| <= count
    }

    /** Whether there is a page before this one. */
    predicate HasPrevious() {
      page > 1
    }

    /** Whether there is a page after this one. */
    predicate HasNext()
      requires Valid()
    {
      page < Pages(count, size)
    }
  }

  /**
   * The argument checks of the constructor, in the order the source makes
   * them, before any field is assigned.
   */
  function ArgumentError<T>(items: Option<seq<T>>, count: Int32, size: Int32, page: Int32): Option<Exception> {
    if items.None? then Some(Exception(ArgumentNull, "items"))
    else if size < 1 then Some(Exception(ArgumentOutOfRange, "size"))
    else if page < 1 then Some(Exception(ArgumentOutOfRange, "page"))
    else if |items.value| > size then Some(Exception(ArgumentOutOfRange, "items"))
    else if |items.value| > count then Some(Exception(ArgumentOutOfRange, "items"))
    else None
  }

  /**
   * The constructor: it succeeds exactly when every guard holds, stores the
   * items as given, and otherwise throws the exception of the first failing
   * guard; the page bound is checked last, against `Pages`.
   */
  function New<T>(items: Option<seq<T>>, count: Int32, size: Int32, page: Int32): (r: Outcome<Pagination<T>>)
    ensures r.Return? <==>
      && items.Some? && 1 <= size && 1 <= page
      && |items.value| <= size && |items.value| <= count
      && page <= Pages(count, size)
    ensures r.Return? ==> r.value == Pagination(items.value, count, size, page) && r.value.Valid()
    ensures ArgumentError(items, count, size, page).Some? ==> r == Throw(ArgumentError(items, count, size, page).value)
    ensures ArgumentError(items, count, size, page).None? && r.Throw? ==>
      r.exception == Exception(ArgumentOutOfRange, "page")
  {
    var error := ArgumentError(items, count, size, page);
    if error.Some? then Throw(error.value)
    else
      var p := Pagination(items.value, count, size, page);
      if page > Pages(count, size) then Throw(Exception(ArgumentOutOfRange, "page"))
      else Return(p)
  }

  /** The constructor as written: the last guard compares against the wrapping `PagesAsWritten`. */
  function NewAsWritten<T>(items: Option<seq<T>>, count: Int32, size: Int32, page: Int32): (r: Outcome<Pagination<T>>)
    ensures r.Return? <==> ArgumentError(items, count, size, page).None? && page <= PagesAsWritten(count, size)
    ensures ArgumentError(items, count, size, page).Some? ==> r == Throw(ArgumentError(items, count, size, page).value)
    ensures r.Return? ==> r.value == Pagination(items.value, count, size, page)
  {
    var error := ArgumentError(items, count, size, page);
    if error.Some? then Throw(error.value)
    else if page > PagesAsWritten(count, size) then Throw(Exception(ArgumentOutOfRange, "page"))
    else Return(Pagination(items.value, count, size, page))
  }

  /** A negative count is always rejected, because no item array is shorter than zero. */
  lemma NegativeCountRejected<T>(items: Option<seq<T>>, count: Int32, size: Int32, page: Int32)
    requires count < 0
    ensures New(items, count, size, page).Throw?
    ensures New(items, count, size, page).exception.kind in {ArgumentNull, ArgumentOutOfRange}
  {
  }

  /** When `Count + Size - 1` fits in 32 bits, the source's `Pages` is the intended ceiling. */
  lemma PagesAsWrittenAgrees(count: Int32, size: Int32)
    requires count >= 0 && size >= 1
    requires count + size - 1 <= IntMax
    ensures PagesAsWritten(count, size) == Pages(count, size)
  {
    if size != IntMax && count != 0 {
      assert Wrap32(count + size - 1) == count + size - 1;
      CeilingDivision(count, size);
    }
  }

  /** Euclidean division is determined by any quotient/remainder pair in range. */
  lemma LemmaDivUnique(n: int, d: int, q: int, m: int)
    requires d > 0 && 0 <= m < d && n == q * d + m
    ensures n / d == q
  {
    var q' := n / d;
    assert n == q' * d + n % d;
    assert (q + 1) * d == q * d + d && (q' + 1) * d == q' * d + d;
    if q' != q {
      if q' > q {
        MulMonotonic(q + 1, q', d);
      } else {
        MulMonotonic(q' + 1, q, d);
      }
    }
  }

  /**
   * With `int.MaxValue` items and two items per page the 32-bit sum wraps to
   * a negative number, so the source's `Pages` is negative and the valid first
   * page is rejected; the corrected count is 2^30 pages and accepts it.
   */
  lemma PagesOverflowRejectsFirstPage<T>(x: T)
    ensures PagesAsWritten(IntMax, 2) == -0x4000_0000
    ensures Pages(IntMax, 2) == 0x4000_0000
    ensures NewAsWritten(Some([x]), IntMax, 2, 1) == Throw(Exception(ArgumentOutOfRange, "page"))
    ensures New(Some([x]), IntMax, 2, 1) == Return(Pagination([x], IntMax, 2, 1))
  {
    assert Wrap32(IntMax + 2 - 1) == IntMin;
  }

  /**
   * On a valid page, `HasNext` holds exactly when some of the `count` items
   * lie beyond this page.
   */
  lemma {:induction false} HasNextIffItemsRemain<T>(p: Pagination<T>)
    requires p.Valid()
    ensures p.HasNext() <==> p.page * p.size < p.count
  {
    var r := Pages(p.count, p.size);
    if p.count == 0 {
      assert p.page == 1;
    } else if p.page < r {
      MulMonotonic(p.page, r - 1, p.size);
    } else {
      assert p.page == r;
    }
  }

  /** `HasPrevious` holds exactly when this page does not start at the first item. */
  lemma HasPreviousIffItemsBefore<T>(p: Pagination<T>)
    requires p.Valid()
    ensures p.HasPrevious() <==> (p.page - 1) * p.size > 0
  {
  }

  /** The indexer: the item at `index`, or the out-of-range exception of the array behind it. */
  function At<T>(p: Pagination<T>, index: Int32): (r: Outcome<T>)
    ensures r.Return? <==> 0 <= index < |p.items|
    ensures r.Return? ==> r.value == p.items[index]
  {
    if 0 <= index < |p.items| then Return(p.items[index])
    else Throw(Exception(ArgumentOutOfRange, "index"))
  }

  /** The enumerator: the items in the order they were given. */
  function Elements<T>(p: Pagination<T>): seq<T> {
    p.items
  }

  /**
   * The enumerator and the indexer agree: the i-th enumerated element is the
   * one at index i, and a page built by `New` enumerates the given items.
   */
  lemma ElementsAgreeWithIndexer<T>(p: Pagination<T>, items: seq<T>, count: Int32, size: Int32, page: Int32)
    requires |p.items| <= IntMax
    requires New(Some(items), count, size, page) == Return(p)
    ensures Elements(p) == items
    ensures forall i: Int32 :: 0 <= i < |Elements(p)| ==> At(p, i) == Return(Elements(p)[i])
  {
  }
}
