/** The verse pagination protocol: request pages 0, 1, 2, ... of at most PageLimit verses,
    with the running verse count as offset, until a page holds fewer than PageLimit. */
module Pagination {
  import opened Results
  import opened Records
  import opened Remote

  /** The page size sent as `limit` (the API's maximum). */
  const PageLimit: nat := 50

  /** The server's answer to page `k`: past the recorded answers, an empty page. */
  function PageAt(pages: seq<PageResult>, k: nat): PageResult
  {
    if k < |pages| then pages[k] else Ok([])
  }

  /** A page after which the loop asks for another one. */
  predicate IsFull(p: PageResult)
  {
    p.Ok? && |p.value| >= PageLimit
  }

  /** The first page at or after `from` that is not full: an error, a short or an empty page. */
  function FirstNotFull(pages: seq<PageResult>, from: nat): (n: nat)
    ensures from <= n
    ensures n <= |pages| || n == from
    ensures !IsFull(PageAt(pages, n))
    ensures forall j :: from <= j < n ==> IsFull(PageAt(pages, j))
    decreases |pages| - from
  {
    if from >= |pages| || !IsFull(pages[from]) then from else FirstNotFull(pages, from + 1)
  }

  /** The page whose answer ends the loop; all pages before it are full. */
  function LastPage(pages: seq<PageResult>): (n: nat)
    ensures n <= |pages|
    ensures !IsFull(PageAt(pages, n))
    ensures forall j :: 0 <= j < n ==> IsFull(PageAt(pages, j))
  {
    FirstNotFull(pages, 0)
  }

  /** The in-order concatenation of the verses of pages 0 .. n-1. */
  function Received(pages: seq<PageResult>, n: nat): seq<Verse>
    requires forall j :: 0 <= j < n ==> PageAt(pages, j).Ok?
  {
    if n == 0 then [] else Received(pages, n - 1) + PageAt(pages, n - 1).value
  }

  /** The requests the loop sends: one per page up to and including the last, each with
      page j, offset the verses received before it, and limit PageLimit. */
  function Requests(id: int, pages: seq<PageResult>): (rs: seq<Request>)
    ensures |rs| == LastPage(pages) + 1
  {
    var n := LastPage(pages);
    seq(n + 1, j requires 0 <= j <= n => VersesRequest(id, j, |Received(pages, j)|, PageLimit))
  }

  /** The verses the loop collects, or the error of the page that failed. */
  function Collected(pages: seq<PageResult>): Result<seq<Verse>>
  {
    var n := LastPage(pages);
    if PageAt(pages, n).Err? then Err(PageAt(pages, n).error) else Ok(Received(pages, n + 1))
  }

  /** Everything the loop does for chapter `id` against the answers `pages`. */
  function Paginate(id: int, pages: seq<PageResult>): Fetched<seq<Verse>>
  {
    Fetched(Collected(pages), Requests(id, pages))
  }

  /** The verses received before a page are a prefix of those received before a later one. */
  lemma {:induction false} ReceivedPrefix(pages: seq<PageResult>, m: nat, n: nat)
    requires m <= n
    requires forall j :: 0 <= j < n ==> PageAt(pages, j).Ok?
    ensures Received(pages, m) <= Received(pages, n)
    decreases n - m
  {
    if m < n {
      ReceivedPrefix(pages, m, n - 1);
    }
  }

  /** Each full page contributes at least PageLimit verses, so a request for page j
      carries an offset of at least j * PageLimit. */
  lemma {:induction false} OffsetCoversFullPages(pages: seq<PageResult>, j: nat)
    requires j <= LastPage(pages)
    ensures |Received(pages, j)| >= j * PageLimit
  {
    if j > 0 {
      OffsetCoversFullPages(pages, j - 1);
    }
  }

  /** Successive requests advance page by one and offset by the size of the page just received. */
  lemma RequestsAdvance(id: int, pages: seq<PageResult>, j: nat)
    requires j < LastPage(pages)
    ensures Requests(id, pages)[j].page == j && Requests(id, pages)[j + 1].page == j + 1
    ensures Requests(id, pages)[j + 1].offset == Requests(id, pages)[j].offset + |PageAt(pages, j).value|
    ensures Requests(id, pages)[0].offset == 0
  {
  }

  /** The request count is the number of full pages plus one; a successful result is the
      concatenation of every page received, the last one short (possibly empty). */
  lemma StopRule(id: int, pages: seq<PageResult>)
    ensures var n := LastPage(pages);
      && |Requests(id, pages)| == n + 1
      && (forall j :: 0 <= j < n ==> IsFull(PageAt(pages, j)))
      && (Collected(pages).Ok? <==> PageAt(pages, n).Ok?)
      && (Collected(pages).Ok? ==>
            && |PageAt(pages, n).value| < PageLimit
            && Collected(pages).value == Received(pages, n) + PageAt(pages, n).value)
  {
  }

  /** An empty page always ends the loop. */
  lemma EmptyPageStops(pages: seq<PageResult>, k: nat)
    requires PageAt(pages, k) == Ok([])
    ensures LastPage(pages) <= k
  {
  }

  /** Pages of 50, 50 and 23 verses: three requests and 123 verses. */
  lemma ThreePages(id: int, full1: seq<Verse>, full2: seq<Verse>, last: seq<Verse>)
    requires |full1| == 50 && |full2| == 50 && |last| == 23
    ensures var pages := [Ok(full1), Ok(full2), Ok(last)];
      && Requests(id, pages) == [VersesRequest(id, 0, 0, 50), VersesRequest(id, 1, 50, 50), VersesRequest(id, 2, 100, 50)]
      && Collected(pages) == Ok(full1 + full2 + last)
      && |Collected(pages).value| == 123
  {
    var pages: seq<PageResult> := [Ok(full1), Ok(full2), Ok(last)];
    assert FirstNotFull(pages, 2) == 2;
    assert FirstNotFull(pages, 1) == 2;
    assert LastPage(pages) == 2;
    assert Received(pages, 1) == full1;
    assert Received(pages, 2) == full1 + full2;
    assert Received(pages, 3) == full1 + full2 + last;
  }
}
