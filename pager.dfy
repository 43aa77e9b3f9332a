/**
 * The client-side pager shared by the posts screen (8 per page) and the photos screen
 * (20 per page): a 1-based current page, `pageCount = Math.ceil(length / pageSize)`,
 * the visible slice `list.slice((page - 1) * pageSize, page * pageSize)`, and guarded
 * previous/next moves.
 */
module Pager {
  import opened Basics

  /** `Math.ceil(length / pageSize)`: the fewest pages of `pageSize` that hold `length` items. */
  function PageCount(length: nat, pageSize: nat): (count: nat)
    requires pageSize > 0
    ensures count * pageSize >= length
    ensures (count - 1) * pageSize < length
    ensures count == 0 <==> length == 0
  {
    var q := (length + pageSize - 1) / pageSize;
    var r := (length + pageSize - 1) % pageSize;
    assert q * pageSize + r == length + pageSize - 1;
    assert (q - 1) * pageSize == q * pageSize - pageSize;
    q
  }

  /** `(currentPage - 1) * pageSize` */
  function StartIndex(page: int, pageSize: nat): int
  {
    (page - 1) * pageSize
  }

  /** `startIndex + pageSize` */
  function EndIndex(page: int, pageSize: nat): int
  {
    StartIndex(page, pageSize) + pageSize
  }

  /** How Array.prototype.slice turns an index argument into a position in a list of `length`. */
  function Clip(i: int, length: nat): (p: nat)
    ensures p <= length
    ensures 0 <= i <= length ==> p == i
    ensures i > length ==> p == length
    ensures i < 0 ==> p == Max(0, length + i)
  {
    if i < 0 then (if length + i < 0 then 0 else length + i)
    else if i > length then length
    else i
  }

  /** `xs.slice(start, end)` */
  function Slice<T>(xs: seq<T>, start: int, end: int): (r: seq<T>)
    ensures 0 <= start <= end ==> r == xs[Min(start, |xs|)..Min(end, |xs|)]
    ensures Clip(end, |xs|) <= Clip(start, |xs|) ==> r == []
    ensures |r| <= |xs|
  {
    var s, e := Clip(start, |xs|), Clip(end, |xs|);
    if s < e then xs[s..e] else []
  }

  /** The items shown on page `page`. */
  function Page<T>(xs: seq<T>, page: int, pageSize: nat): (shown: seq<T>)
    requires pageSize > 0
    ensures page >= 1 ==> |shown| <= pageSize
    ensures page >= 1 ==> shown == xs[Min(StartIndex(page, pageSize), |xs|)..Min(EndIndex(page, pageSize), |xs|)]
  {
    Slice(xs, StartIndex(page, pageSize), EndIndex(page, pageSize))
  }

  /** Pages 1..n of `xs`, one after the other. */
  function PagesThrough<T>(xs: seq<T>, pageSize: nat, n: nat): seq<T>
    requires pageSize > 0
  {
    if n == 0 then [] else PagesThrough(xs, pageSize, n - 1) + Page(xs, n, pageSize)
  }

  lemma {:induction false} PagesThroughIsPrefix<T>(xs: seq<T>, pageSize: nat, n: nat)
    requires pageSize > 0
    ensures PagesThrough(xs, pageSize, n) == xs[..Min(n * pageSize, |xs|)]
  {
    if n > 0 {
      PagesThroughIsPrefix(xs, pageSize, n - 1);
      var lo, hi := (n - 1) * pageSize, n * pageSize;
      assert StartIndex(n, pageSize) == lo && EndIndex(n, pageSize) == hi by {
        assert hi == lo + pageSize;
      }
      var a, b := Min(lo, |xs|), Min(hi, |xs|);
      assert Page(xs, n, pageSize) == xs[a..b];
      assert xs[..a] + xs[a..b] == xs[..b];
    }
  }

  /** Pages 1..pageCount, concatenated in order, give back the whole list. */
  lemma PagesPartitionList<T>(xs: seq<T>, pageSize: nat)
    requires pageSize > 0
    ensures PagesThrough(xs, pageSize, PageCount(|xs|, pageSize)) == xs
  {
    PagesThroughIsPrefix(xs, pageSize, PageCount(|xs|, pageSize));
  }

  /** Every page from 1 to pageCount shows something; every page after it shows nothing. */
  lemma PagesInRangeAreFilled<T>(xs: seq<T>, pageSize: nat, page: int)
    requires pageSize > 0 && page >= 1
    ensures |Page(xs, page, pageSize)| > 0 <==> page <= PageCount(|xs|, pageSize)
  {
    var count := PageCount(|xs|, pageSize);
    var start := StartIndex(page, pageSize);
    assert |Page(xs, page, pageSize)| > 0 <==> start < |xs|;
    if page <= count {
      MulMonotone(page - 1, count - 1, pageSize);
    } else {
      MulMonotone(count, page - 1, pageSize);
    }
  }

  lemma MulMonotone(a: int, b: int, k: nat)
    requires a <= b
    ensures a * k <= b * k
  {
  }

  /** A press of the "previous" or the "next" button. */
  datatype Move = Prev | Next

  /** `handlePrevPage` / `handleNextPage`: each moves one page, unless its guard says no. */
  function Step(page: int, pageCount: nat, m: Move): (next: int)
    ensures next == page <==> (m == Prev && page <= 1) || (m == Next && page >= pageCount)
    ensures next != page ==> (m == Prev && next == page - 1 >= 1) || (m == Next && next == page + 1 <= pageCount)
  {
    match m
    case Prev => if page > 1 then page - 1 else page
    case Next => if page < pageCount then page + 1 else page
  }

  /** The pager invariant: `1 <= currentPage <= max(1, pageCount)`. */
  predicate InRange(page: int, pageCount: nat)
  {
    1 <= page <= Max(1, pageCount)
  }

  /** The page after a run of button presses over a list that does not change. */
  function Walk(page: int, pageCount: nat, moves: seq<Move>): int
    decreases |moves|
  {
    if moves == [] then page else Walk(Step(page, pageCount, moves[0]), pageCount, moves[1..])
  }

  /** No run of presses takes the page out of range: a screen that opens on page 1 stays in range. */
  lemma {:induction false} WalkStaysInRange(page: int, pageCount: nat, moves: seq<Move>)
    requires InRange(page, pageCount)
    ensures InRange(Walk(page, pageCount, moves), pageCount)
    decreases |moves|
  {
    if moves != [] {
      WalkStaysInRange(Step(page, pageCount, moves[0]), pageCount, moves[1..]);
    }
  }

  /** From page 1, k presses of "next" reach page min(1 + k, max(1, pageCount)): every page can be reached. */
  lemma {:induction false} NextReachesEveryPage(pageCount: nat, k: nat)
    ensures Walk(1, pageCount, seq(k, _ => Next)) == Min(1 + k, Max(1, pageCount))
  {
    WalkNexts(1, pageCount, k);
  }

  lemma {:induction false} WalkNexts(page: int, pageCount: nat, k: nat)
    requires InRange(page, pageCount)
    ensures Walk(page, pageCount, seq(k, _ => Next)) == Min(page + k, Max(1, pageCount))
    decreases k
  {
    var moves := seq(k, _ => Next);
    if k > 0 {
      assert moves[0] == Next;
      assert moves[1..] == seq(k - 1, _ => Next);
      WalkNexts(Step(page, pageCount, Next), pageCount, k - 1);
    }
  }

  /** What the pagination bar shows: "page X of Y" and which buttons are disabled. */
  datatype Bar = Bar(page: int, pageCount: nat, prevDisabled: bool, nextDisabled: bool)

  /**
   * The posts screen's bar: "previous" disabled on page 1, "next" on page `pageCount`. With the
   * page in range, a disabled button is exactly one whose press would change nothing; the one
   * exception is "next" over an empty list (pageCount 0), left enabled although inert.
   */
  function PaginationBar(page: int, pageCount: nat): (bar: Bar)
    ensures bar.page == page && bar.pageCount == pageCount
    ensures InRange(page, pageCount) ==> (bar.prevDisabled <==> Step(page, pageCount, Prev) == page)
    ensures InRange(page, pageCount) ==>
      (bar.nextDisabled <==> Step(page, pageCount, Next) == page && pageCount >= 1)
  {
    Bar(page, pageCount, page == 1, page == pageCount)
  }

  /**
   * The photos screen's bar as components/Photos.tsx writes it: both buttons use the test
   * `currentPage === pageCount`, so they are always disabled together.
   */
  function PhotosPaginationBarAsWritten(page: int, pageCount: nat): (bar: Bar)
    ensures bar.page == page && bar.pageCount == pageCount
    ensures bar.prevDisabled == bar.nextDisabled
    ensures InRange(page, pageCount) ==>
      (bar.nextDisabled <==> Step(page, pageCount, Next) == page && pageCount >= 1)
  {
    Bar(page, pageCount, page == pageCount, page == pageCount)
  }

  /**
   * The written "previous" test is wrong for every list of two pages or more: on page 1 the
   * button is enabled though pressing it does nothing, and on the last page it is disabled
   * though pressing it would go back one page. Only a single page makes it agree.
   */
  lemma PhotosPrevDisabledAsWrittenIsWrong(pageCount: nat)
    ensures Step(1, pageCount, Prev) == 1
    ensures PhotosPaginationBarAsWritten(1, pageCount).prevDisabled <==> pageCount == 1
    ensures pageCount >= 2 ==>
      PhotosPaginationBarAsWritten(pageCount, pageCount).prevDisabled &&
      Step(pageCount, pageCount, Prev) == pageCount - 1
  {
  }
}
