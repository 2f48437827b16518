/** Pagination of the filtered stories (line 56):
    `Skip((pageNumber - 1) * pageSize).Take(pageSize)`.

    `Skip` and `Take` follow LINQ: a count at or below zero skips nothing or
    takes nothing, a count past the end skips everything or takes everything.
    The skip count is computed in C# `int` arithmetic, which wraps around
    silently; `PaginateAsWritten` models that, and `Paginate` computes the
    offset the code evidently intends. */
module Paging {

  const Int32Min: int := -0x8000_0000
  const Int32Max: int := 0x7FFF_FFFF

  type int32 = x: int | Int32Min <= x <= Int32Max

  function Min(a: int, b: int): int {
    if a <= b then a else b
  }

  function Skip<T>(s: seq<T>, count: int): seq<T> {
    if count <= 0 then s else if count >= |s| then [] else s[count..]
  }

  function Take<T>(s: seq<T>, count: int): seq<T> {
    if count <= 0 then [] else if count >= |s| then s else s[..count]
  }

  /** The page with 1-based number `pageNumber`, the offset computed exactly. */
  function Paginate<T>(s: seq<T>, pageNumber: int, pageSize: int): seq<T> {
    Take(Skip(s, (pageNumber - 1) * pageSize), pageSize)
  }

  /** A page is the contiguous slice of `s` that starts at the page's offset
      and holds at most `pageSize` items; past the end it is empty. */
  lemma PageIsSlice<T>(s: seq<T>, pageNumber: int, pageSize: int)
    requires pageNumber >= 1 && pageSize >= 1
    ensures var offset := (pageNumber - 1) * pageSize;
            var page := Paginate(s, pageNumber, pageSize);
            && offset >= 0
            && |page| <= pageSize
            && (offset >= |s| ==> page == [])
            && (offset < |s| ==> page == s[offset..Min(offset + pageSize, |s|)])
  {
  }

  /** Whatever the arguments, a page never holds more than `pageSize` items
      and its items are items of `s`. */
  lemma PageBounded<T>(s: seq<T>, pageNumber: int, pageSize: int)
    ensures |Paginate(s, pageNumber, pageSize)| <= if pageSize < 0 then 0 else pageSize
    ensures forall x :: x in Paginate(s, pageNumber, pageSize) ==> x in s
  {
    var rest := Skip(s, (pageNumber - 1) * pageSize);
    assert forall x :: x in rest ==> x in s;
  }

  /** The first `pages` pages of size `pageSize`, one after the other. */
  function Pages<T>(s: seq<T>, pageSize: int, pages: nat): seq<T> {
    if pages == 0 then [] else Pages(s, pageSize, pages - 1) + Paginate(s, pages, pageSize)
  }

  /** Helper for `PagesTile`: taking `a` items and then `b` of the rest is taking `a + b`. */
  lemma TakeThenRest<T>(s: seq<T>, a: nat, b: nat)
    ensures Take(s, a) + Take(Skip(s, a), b) == Take(s, a + b)
  {
  }

  /** Walking the pages in order visits the items of `s` in order, each once:
      the first `pages` pages together are the first `pages * pageSize` items. */
  lemma {:induction false} PagesTile<T>(s: seq<T>, pageSize: nat, pages: nat)
    ensures Pages(s, pageSize, pages) == Take(s, pages * pageSize)
    decreases pages
  {
    if pages > 0 {
      PagesTile(s, pageSize, pages - 1);
      var before := (pages - 1) * pageSize;
      assert before >= 0;
      assert pages * pageSize == before + pageSize;
      TakeThenRest(s, before, pageSize);
    }
  }

  /** C# `unchecked` int arithmetic: keep the low 32 bits as two's complement. */
  function Wrap32(x: int): (r: int32)
    ensures Int32Min <= x <= Int32Max ==> r == x
    ensures (x - r) % 0x1_0000_0000 == 0
  {
    (x - Int32Min) % 0x1_0000_0000 + Int32Min
  }

  /** The skip count as line 56 computes it, in 32-bit arithmetic. */
  function SkipCountAsWritten(pageNumber: int32, pageSize: int32): int32 {
    Wrap32(Wrap32(pageNumber - 1) * pageSize)
  }

  /** Line 56 as written, with the skip count wrapping around. */
  function PaginateAsWritten<T>(s: seq<T>, pageNumber: int32, pageSize: int32): seq<T> {
    Take(Skip(s, SkipCountAsWritten(pageNumber, pageSize)), pageSize)
  }

  /** Whenever the offset fits in an `int`, the code as written returns the
      intended page. */
  lemma AsWrittenAgreesWithoutOverflow<T>(s: seq<T>, pageNumber: int32, pageSize: int32)
    requires Int32Min <= (pageNumber - 1) * pageSize <= Int32Max
    ensures PaginateAsWritten(s, pageNumber, pageSize) == Paginate(s, pageNumber, pageSize)
  {
  }

  /** Page 65537 of size 65536 asks for the items from offset 2^32 on, which
      is past the end of any list; the 32-bit product wraps to 0 and the code
      as written returns the first page instead. */
  lemma OffsetOverflowServesFirstPage<T>(s: seq<T>)
    requires 1 <= |s| <= Int32Max
    ensures Paginate(s, 65537, 65536) == []
    ensures PaginateAsWritten(s, 65537, 65536) == Take(s, 65536)
    ensures PaginateAsWritten(s, 65537, 65536) != []
  {
    assert SkipCountAsWritten(65537, 65536) == 0;
  }
}
