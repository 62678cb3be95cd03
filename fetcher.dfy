/**
 * Retrieval of the corpus from the documentation service: one count request,
 * then the paginated listing of page ids (`fetch_all_page_ids`), then one
 * content request per id (`fetch_all_pages`). The service is given as its
 * answers: the reported count, the listing batch for every `start` offset, and
 * the page (or a failure) for every id.
 */
module Fetcher {
  import opened Wrappers
  import opened Text

  /** `limit` of every listing request. */
  const PageLimit: nat := 500

  /** One element of a listing batch's `results`; `id` is `None` when the element has no `id` key. */
  datatype Entry = Entry(id: Option<string>)

  /** The answer to one listing request: the batch's `results`, or a failure (error status, network error, malformed body) that raises. */
  datatype Response = Batch(results: seq<Entry>) | RequestFailed

  /** `body.storage` of a fetched page: absent, or present with or without its `value` key. */
  datatype Body = NoStorage | Storage(value: Option<string>)

  /** A fetched page; `id` and `title` are `None` when their key is absent. */
  datatype Page = Page(id: Option<string>, title: Option<string>, body: Body)

  /**
   * The documentation service as seen by one ingestion run: the `size` reported by
   * the count request (`None` when that request raises), the listing answer for every
   * `start`, and the content answer for every id (`None` when that request raises).
   */
  datatype Source = Source(reportedCount: Option<int>, listing: nat -> Response, fetch: string -> Option<Page>)

  /** `page.get("id")` is truthy: present and not the empty string. */
  predicate HasId(e: Entry) {
    e.id.Some? && e.id.value != ""
  }

  /** `[page.get("id") for page in batch if page.get("id")]`. */
  function BatchIds(batch: seq<Entry>): (ids: seq<string>)
    ensures |ids| <= |batch|
    ensures forall k :: 0 <= k < |ids| ==> ids[k] != ""
  {
    if batch == [] then []
    else (if HasId(batch[0]) then [batch[0].id.value] else []) + BatchIds(batch[1..])
  }

  /** The answer to the listing request number `r`, issued at `start = r * PageLimit`. */
  function BatchAt(listing: nat -> Response, r: nat): Response {
    listing(r * PageLimit)
  }

  /** The loop ends after this answer: it raised, or the batch is shorter than the limit. */
  predicate Stops(response: Response) {
    response.RequestFailed? || |response.results| < PageLimit
  }

  /** Some request of the sequence 0, 500, 1000, ... ends the loop; otherwise the source's `while True` never ends. */
  ghost predicate ListingEnds(listing: nat -> Response) {
    exists k: nat :: Stops(BatchAt(listing, k))
  }

  /** The first request number at or after `r` that ends the loop, given that `bound` does. */
  function FirstStopFrom(listing: nat -> Response, r: nat, bound: nat): (n: nat)
    requires r <= bound && Stops(BatchAt(listing, bound))
    ensures r <= n <= bound && Stops(BatchAt(listing, n))
    ensures forall k :: r <= k < n ==> !Stops(BatchAt(listing, k))
    decreases bound - r
  {
    if Stops(BatchAt(listing, r)) then r else FirstStopFrom(listing, r + 1, bound)
  }

  /** The number of the request that ends the loop: every earlier batch was full. */
  ghost function FirstStop(listing: nat -> Response): (n: nat)
    requires ListingEnds(listing)
    ensures Stops(BatchAt(listing, n))
    ensures forall k :: 0 <= k < n ==> !Stops(BatchAt(listing, k))
  {
    var bound: nat :| Stops(BatchAt(listing, bound));
    FirstStopFrom(listing, 0, bound)
  }

  lemma FirstStopUnique(listing: nat -> Response, n: nat)
    requires Stops(BatchAt(listing, n))
    requires forall k :: 0 <= k < n ==> !Stops(BatchAt(listing, k))
    ensures ListingEnds(listing) && FirstStop(listing) == n
  {
  }

  /** The ids of the first `n` batches, in request order. */
  function IdsOfFirst(listing: nat -> Response, n: nat): seq<string> {
    if n == 0 then []
    else
      var response := BatchAt(listing, n - 1);
      IdsOfFirst(listing, n - 1) + (if response.Batch? then BatchIds(response.results) else [])
  }

  /** What `fetch_all_page_ids` returns: `None` when a request raises, else the ids of every batch up to the short one. */
  ghost function ListedIds(listing: nat -> Response): Option<seq<string>>
    requires ListingEnds(listing)
  {
    var n := FirstStop(listing);
    if BatchAt(listing, n).RequestFailed? then None else Some(IdsOfFirst(listing, n + 1))
  }

  /**
   * `fetch_all_page_ids`: requests batches at `start` = 0, 500, 1000, ... and stops at
   * the first batch shorter than 500; `requests` records the `start` of each request.
   */
  method FetchAllPageIds(listing: nat -> Response) returns (ids: Option<seq<string>>, requests: seq<nat>)
    requires ListingEnds(listing)
    ensures |requests| == FirstStop(listing) + 1
    ensures forall r :: 0 <= r < |requests| ==> requests[r] == r * PageLimit
    ensures ids == ListedIds(listing)
  {
    var collected: seq<string> := [];
    var start: nat := 0;
    requests := [];
    ghost var bound: nat :| Stops(BatchAt(listing, bound));
    while true
      invariant start == |requests| * PageLimit
      invariant |requests| <= bound
      invariant forall r :: 0 <= r < |requests| ==> requests[r] == r * PageLimit
      invariant forall r :: 0 <= r < |requests| ==> !Stops(BatchAt(listing, r))
      invariant collected == IdsOfFirst(listing, |requests|)
      decreases bound - |requests|
    {
      ghost var n := |requests|;
      var response := listing(start);
      assert response == BatchAt(listing, n);
      requests := requests + [start];
      if response.RequestFailed? {
        FirstStopUnique(listing, n);
        ids := None;
        return;
      }
      collected := collected + BatchIds(response.results);
      assert collected == IdsOfFirst(listing, n + 1);
      if |response.results| < PageLimit {
        FirstStopUnique(listing, n);
        ids := Some(collected);
        return;
      }
      start := start + PageLimit;
    }
  }

  /** The pages whose fetch succeeded, in id order. */
  function FetchedPages(ids: seq<string>, fetch: string -> Option<Page>): seq<Page> {
    if ids == [] then []
    else
      var last := fetch(ids[|ids| - 1]);
      FetchedPages(ids[..|ids| - 1], fetch) + (if last.Some? then [last.value] else [])
  }

  /** The ids whose fetch raised, in id order. */
  function FailedIds(ids: seq<string>, fetch: string -> Option<Page>): seq<string> {
    if ids == [] then []
    else
      var last := ids[|ids| - 1];
      FailedIds(ids[..|ids| - 1], fetch) + (if fetch(last).None? then [last] else [])
  }

  /** The run needs the listing to end only when it gets past the count short-circuit. */
  ghost predicate ListingEndsIfReached(src: Source) {
    src.reportedCount.Some? && src.reportedCount.value != 0 ==> ListingEnds(src.listing)
  }

  /** What `fetch_all_pages` returns, `None` standing for an exception it lets escape. */
  ghost function FetchResult(src: Source): Option<seq<Page>>
    requires ListingEndsIfReached(src)
  {
    match src.reportedCount
    case None => None
    case Some(total) =>
      if total == 0 then Some([])
      else
        match ListedIds(src.listing)
        case None => None
        case Some(ids) => Some(FetchedPages(ids, src.fetch))
  }

  /** Every listed id either contributes its page or is recorded as failed, never both. */
  lemma {:induction false} FetchAccounting(ids: seq<string>, fetch: string -> Option<Page>)
    ensures |FetchedPages(ids, fetch)| + |FailedIds(ids, fetch)| == |ids|
    ensures forall k :: 0 <= k < |FailedIds(ids, fetch)| ==> fetch(FailedIds(ids, fetch)[k]).None?
    decreases |ids|
  {
    if ids != [] {
      FetchAccounting(ids[..|ids| - 1], fetch);
    }
  }

  /**
   * The loop of `fetch_all_pages` over the listed ids: each page is fetched in id order;
   * a failed fetch is recorded in `failed` and skipped.
   */
  method FetchEach(ids: seq<string>, fetch: string -> Option<Page>) returns (fetched: seq<Page>, failed: seq<string>)
    ensures fetched == FetchedPages(ids, fetch)
    ensures failed == FailedIds(ids, fetch)
    ensures |fetched| + |failed| == |ids|
  {
    fetched, failed := [], [];
    for i := 0 to |ids|
      invariant fetched == FetchedPages(ids[..i], fetch)
      invariant failed == FailedIds(ids[..i], fetch)
    {
      assert ids[..i + 1][..i] == ids[..i];
      var page := fetch(ids[i]);
      if page.Some? {
        fetched := fetched + [page.value];
      } else {
        failed := failed + [ids[i]];
      }
    }
    assert ids[..|ids|] == ids;
    FetchAccounting(ids, fetch);
  }

  /**
   * `fetch_all_pages`: a reported count of 0 returns `[]` without listing; otherwise the ids
   * are listed, a count/id mismatch only sets `warned`, and each id is fetched in order,
   * a failed fetch being recorded in `failed` and skipped. `pages` is `None` when the
   * count or the listing raised.
   */
  method FetchAllPages(src: Source) returns (pages: Option<seq<Page>>, failed: seq<string>, requests: seq<nat>, warned: bool)
    requires ListingEndsIfReached(src)
    ensures pages == FetchResult(src)
    ensures src.reportedCount.None? ==> requests == []
    ensures src.reportedCount == Some(0) ==> pages == Some([]) && requests == [] && failed == [] && !warned
    ensures src.reportedCount.Some? && src.reportedCount.value != 0 ==>
      && |requests| == FirstStop(src.listing) + 1
      && (forall r :: 0 <= r < |requests| ==> requests[r] == r * PageLimit)
      && (ListedIds(src.listing).Some? ==>
            var ids := ListedIds(src.listing).value;
            && failed == FailedIds(ids, src.fetch)
            && |pages.value| + |failed| == |ids|
            && warned == (|ids| != src.reportedCount.value))
  {
    failed, requests, warned := [], [], false;
    if src.reportedCount.None? {
      pages := None;
      return;
    }
    var total := src.reportedCount.value;
    if total == 0 {
      pages := Some([]);
      return;
    }
    var listed;
    listed, requests := FetchAllPageIds(src.listing);
    if listed.None? {
      pages := None;
      return;
    }
    var ids := listed.value;
    warned := |ids| != total;
    var fetched;
    fetched, failed := FetchEach(ids, src.fetch);
    pages := Some(fetched);
  }

  /** A well-behaved service holding `items` in order: each batch is the slice `items[start:start + limit]`. */
  function InOrder(items: seq<Entry>): nat -> Response {
    (start: nat) => Batch(items[Min(start, |items|) .. Min(start + PageLimit, |items|)])
  }

  lemma {:induction false} BatchIdsAppend(a: seq<Entry>, b: seq<Entry>)
    ensures BatchIds(a + b) == BatchIds(a) + BatchIds(b)
    decreases |a|
  {
    if a == [] {
      assert a + b == b;
    } else {
      assert (a + b)[1..] == a[1..] + b;
      BatchIdsAppend(a[1..], b);
    }
  }

  lemma {:induction false} InOrderPrefix(items: seq<Entry>, n: nat)
    requires (n - 1) * PageLimit <= |items|
    ensures IdsOfFirst(InOrder(items), n) == BatchIds(items[..Min(n * PageLimit, |items|)])
  {
    if n > 0 {
      InOrderPrefix(items, n - 1);
      var lo, hi := (n - 1) * PageLimit, Min(n * PageLimit, |items|);
      assert BatchAt(InOrder(items), n - 1) == Batch(items[lo..hi]);
      assert items[..hi] == items[..lo] + items[lo..hi];
      BatchIdsAppend(items[..lo], items[lo..hi]);
    }
  }

  lemma InOrderFullBatch(items: seq<Entry>, k: nat)
    requires k < |items| / PageLimit
    ensures !Stops(BatchAt(InOrder(items), k))
  {
    assert k * PageLimit + PageLimit <= |items|;
  }

  lemma InOrderShortBatch(items: seq<Entry>)
    ensures Stops(BatchAt(InOrder(items), |items| / PageLimit))
  {
  }

  /**
   * For a service holding N pages in order, the listing makes N div 500 + 1 requests
   * (an extra, empty one when N is a multiple of 500) and returns the ids of all N
   * entries in order, entries without an id dropped.
   */
  lemma InOrderListing(items: seq<Entry>)
    ensures ListingEnds(InOrder(items))
    ensures FirstStop(InOrder(items)) == |items| / PageLimit
    ensures ListedIds(InOrder(items)) == Some(BatchIds(items))
  {
    var listing, n := InOrder(items), |items| / PageLimit;
    forall k | 0 <= k < n ensures !Stops(BatchAt(listing, k)) {
      InOrderFullBatch(items, k);
    }
    InOrderShortBatch(items);
    FirstStopUnique(listing, n);
    InOrderPrefix(items, n + 1);
    assert Min((n + 1) * PageLimit, |items|) == |items|;
    assert items[..|items|] == items;
  }

  lemma {:induction false} ThreeIds(items: seq<Entry>)
    requires items == [Entry(Some("10")), Entry(Some("11")), Entry(Some("12"))]
    ensures BatchIds(items) == ["10", "11", "12"]
  {
    assert HasId(items[0]) && HasId(items[1]) && HasId(items[2]);
    assert items[2..][1..] == [] && items[1..][1..] == items[2..];
    assert BatchIds(items[2..]) == ["12"];
    assert BatchIds(items[1..]) == ["11", "12"];
  }

  /** Fetching ids 10, 11 and 12 when only 12 fails. */
  lemma {:induction false} ThreeFetches(fetch: string -> Option<Page>)
    requires fetch("10").Some? && fetch("11").Some? && fetch("12").None?
    ensures FetchedPages(["10", "11", "12"], fetch) == [fetch("10").value, fetch("11").value]
    ensures FailedIds(["10", "11", "12"], fetch) == ["12"]
  {
    var ids: seq<string> := ["10", "11", "12"];
    assert ids[..2] == ["10", "11"] && ids[..2][..1] == ["10"] && ids[..2][..1][..0] == [];
    assert FetchedPages(["10"], fetch) == [fetch("10").value];
    assert FetchedPages(["10", "11"], fetch) == [fetch("10").value, fetch("11").value];
    assert FailedIds(["10", "11"], fetch) == [];
  }

  /**
   * The count reports 3, the listing gives ids 10, 11 and 12, and fetching 12 fails:
   * two pages come back, 12 is recorded as failed, and no mismatch is reported,
   * because the count is compared with the number of listed ids, not of fetched pages.
   */
  method ThreeIdsOneFailure(fetch: string -> Option<Page>) returns (pages: Option<seq<Page>>, failed: seq<string>, warned: bool)
    requires fetch("10").Some? && fetch("11").Some? && fetch("12").None?
    ensures pages == Some([fetch("10").value, fetch("11").value])
    ensures failed == ["12"]
    ensures !warned
  {
    var items := [Entry(Some("10")), Entry(Some("11")), Entry(Some("12"))];
    var listing := InOrder(items);
    assert BatchAt(listing, 0) == Batch(items);
    FirstStopUnique(listing, 0);
    ThreeIds(items);
    assert IdsOfFirst(listing, 1) == ["10", "11", "12"];
    ThreeFetches(fetch);
    var requests;
    pages, failed, requests, warned := FetchAllPages(Source(Some(3), listing, fetch));
  }
}
