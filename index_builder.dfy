/**
 * `embed_and_store_pages` and `ensure_data_loaded`: fetch every page, clean its
 * body, cut it into chunks and store each chunk under the id
 * `"{pageId}_{chunk_count}"`, where `chunk_count` counts the chunks stored so far
 * in this run. Embedding and storing one chunk is one step that may fail; the
 * outcome of the step for chunk `c` of page `i` is `stepOk(i, c)`.
 */
module IndexBuilder {
  import opened Wrappers
  import opened Text
  import opened Markup
  import opened Chunker
  import opened Fetcher
  import opened VectorStore

  /** `page.get('id', 'unknown')`. */
  function PageKey(page: Page): string {
    page.id.GetOr("unknown")
  }

  /** `page.get("title", "")`. */
  function PageTitle(page: Page): string {
    page.title.GetOr("")
  }

  /** `f"{pageId}_{ordinal}"`. */
  function ChunkId(pageId: string, ordinal: nat): string {
    pageId + "_" + Decimal(ordinal)
  }

  /** What the build makes of one page. */
  datatype PageContent =
    | NoBody                     // no `body.storage`: skipped
    | MissingValue               // `body.storage` without `value`: the lookup raises and ends the run
    | BlankText                  // nothing but whitespace once tags are stripped: skipped
    | Chunks(chunks: seq<string>)

  function Classify(page: Page): PageContent {
    match page.body
    case NoStorage => NoBody
    case Storage(None) => MissingValue
    case Storage(Some(raw)) =>
      var clean := StripTags(raw);
      if IsBlank(clean) then BlankText else Chunks(ChunkText(clean, ChunkSize))
  }

  /** One embed-and-add step: chunk `chunk` of page number `page`, with the id prefix, title and text it is stored with. */
  datatype Attempt = Attempt(page: nat, chunk: nat, pageId: string, title: string, text: string)

  /** The steps for the first `n` chunks of page number `i`; a blank chunk is skipped. */
  function PageAttempts(i: nat, page: Page, chunks: seq<string>, n: nat): seq<Attempt>
    requires n <= |chunks|
  {
    if n == 0 then []
    else
      PageAttempts(i, page, chunks, n - 1)
      + (if IsBlank(chunks[n - 1]) then [] else [Attempt(i, n - 1, PageKey(page), PageTitle(page), chunks[n - 1])])
  }

  /** The steps of a run over `pages`, in order, and whether the run ended on a page whose lookup raised. */
  datatype Plan = Plan(attempts: seq<Attempt>, aborted: bool)

  /** A fetched page together with what the build makes of it. */
  datatype Prepared = Prepared(page: Page, content: PageContent)

  function PrepareAll(pages: seq<Page>): (prepared: seq<Prepared>)
    ensures |prepared| == |pages|
    ensures forall k :: 0 <= k < |pages| ==> prepared[k] == Prepared(pages[k], Classify(pages[k]))
  {
    seq(|pages|, k requires 0 <= k < |pages| => Prepared(pages[k], Classify(pages[k])))
  }

  /** The steps of page number `i`: one per non-blank chunk, none for a page without chunks. */
  function PageSteps(i: nat, p: Prepared): seq<Attempt> {
    match p.content
    case Chunks(cs) => PageAttempts(i, p.page, cs, |cs|)
    case _ => []
  }

  function BuildPlan(prepared: seq<Prepared>): Plan {
    if prepared == [] then Plan([], false)
    else
      var i := |prepared| - 1;
      var before := BuildPlan(prepared[..i]);
      if before.aborted then before
      else if prepared[i].content.MissingValue? then Plan(before.attempts, true)
      else Plan(before.attempts + PageSteps(i, prepared[i]), false)
  }

  /** The steps that succeeded, in order; the `k`-th of them is stored with ordinal `k`. */
  function Succeeded(attempts: seq<Attempt>, stepOk: (nat, nat) -> bool): seq<Attempt> {
    if attempts == [] then []
    else
      var last := attempts[|attempts| - 1];
      Succeeded(attempts[..|attempts| - 1], stepOk) + (if stepOk(last.page, last.chunk) then [last] else [])
  }

  /** The store `m` after adding the chunks of `added` in order, the `k`-th under ordinal `k`. */
  function Stored(m: map<string, StoredChunk>, added: seq<Attempt>): map<string, StoredChunk> {
    if added == [] then m
    else
      var k := |added| - 1;
      Stored(m, added[..k])[ChunkId(added[k].pageId, k) := StoredChunk(added[k].text, added[k].title)]
  }

  /** The chunks one run stores: none when fetching raised, else the successful steps of the plan. */
  ghost function BuildAdds(src: Source, stepOk: (nat, nat) -> bool): seq<Attempt>
    requires ListingEndsIfReached(src)
  {
    match FetchResult(src)
    case None => []
    case Some(pages) => Succeeded(BuildPlan(PrepareAll(pages)).attempts, stepOk)
  }

  datatype BuildStatus = Completed | NoPages | Aborted

  ghost function BuildStatusOf(src: Source): BuildStatus
    requires ListingEndsIfReached(src)
  {
    match FetchResult(src)
    case None => Aborted
    case Some(pages) => if pages == [] then NoPages else if BuildPlan(PrepareAll(pages)).aborted then Aborted else Completed
  }

  lemma {:induction false} AbortSticks(pages: seq<Prepared>, n: nat)
    requires n <= |pages| && BuildPlan(pages[..n]).aborted
    ensures BuildPlan(pages) == BuildPlan(pages[..n])
    decreases |pages|
  {
    if n < |pages| {
      var i := |pages| - 1;
      assert pages[..i][..n] == pages[..n];
      AbortSticks(pages[..i], n);
    } else {
      assert pages[..n] == pages;
    }
  }

  lemma PageAttemptsStep(before: seq<Attempt>, i: nat, page: Page, chunks: seq<string>, c: nat)
    requires c < |chunks|
    ensures IsBlank(chunks[c]) ==> before + PageAttempts(i, page, chunks, c + 1) == before + PageAttempts(i, page, chunks, c)
    ensures !IsBlank(chunks[c]) ==>
      before + PageAttempts(i, page, chunks, c + 1)
        == before + PageAttempts(i, page, chunks, c) + [Attempt(i, c, PageKey(page), PageTitle(page), chunks[c])]
  {
    assert PageAttempts(i, page, chunks, c) + [] == PageAttempts(i, page, chunks, c);
  }

  /** The plan of the first `i + 1` pages extends the plan of the first `i` by page `i`. */
  lemma PlanSnoc(pages: seq<Prepared>, i: nat)
    requires i < |pages|
    ensures var before := BuildPlan(pages[..i]);
      BuildPlan(pages[..i + 1]) ==
        if before.aborted then before
        else if pages[i].content.MissingValue? then Plan(before.attempts, true)
        else Plan(before.attempts + PageSteps(i, pages[i]), false)
  {
    assert pages[..i + 1][..i] == pages[..i] && pages[..i + 1][i] == pages[i];
  }

  lemma SucceededSnoc(done: seq<Attempt>, a: Attempt, stepOk: (nat, nat) -> bool)
    ensures Succeeded(done + [a], stepOk) == Succeeded(done, stepOk) + (if stepOk(a.page, a.chunk) then [a] else [])
  {
    assert (done + [a])[..|done|] == done;
  }

  lemma StoredSnoc(m: map<string, StoredChunk>, added: seq<Attempt>, a: Attempt)
    ensures Stored(m, added + [a]) == Stored(m, added)[ChunkId(a.pageId, |added|) := StoredChunk(a.text, a.title)]
  {
    assert (added + [a])[..|added|] == added;
  }

  /** One step: on success the chunk is stored under the next ordinal, on failure nothing changes. */
  lemma StepEffect(m0: map<string, StoredChunk>, done: seq<Attempt>, a: Attempt, stepOk: (nat, nat) -> bool)
    ensures var ok, after := Succeeded(done, stepOk), Succeeded(done + [a], stepOk);
      && |after| == |ok| + (if stepOk(a.page, a.chunk) then 1 else 0)
      && Stored(m0, after) ==
           if stepOk(a.page, a.chunk) then Stored(m0, ok)[ChunkId(a.pageId, |ok|) := StoredChunk(a.text, a.title)]
           else Stored(m0, ok)
  {
    var ok := Succeeded(done, stepOk);
    SucceededSnoc(done, a, stepOk);
    if stepOk(a.page, a.chunk) {
      assert Succeeded(done + [a], stepOk) == ok + [a];
      StoredSnoc(m0, ok, a);
    } else {
      assert Succeeded(done + [a], stepOk) == ok + [];
      assert ok + [] == ok;
    }
  }

  /**
   * One chunk: it is embedded and added under `"{pageId}_{chunk_count}"`; when that step
   * succeeds `chunk_count` grows by one, and when it raises the chunk is skipped.
   */
  method StoreChunk(store: Collection, attempt: Attempt, stepOk: (nat, nat) -> bool,
                    ghost m0: map<string, StoredChunk>, ghost done: seq<Attempt>, countBefore: nat)
    returns (chunkCount: nat)
    requires countBefore == |Succeeded(done, stepOk)|
    requires store.entries == Stored(m0, Succeeded(done, stepOk))
    modifies store
    ensures chunkCount == |Succeeded(done + [attempt], stepOk)|
    ensures store.entries == Stored(m0, Succeeded(done + [attempt], stepOk))
  {
    chunkCount := countBefore;
    StepEffect(m0, done, attempt, stepOk);
    if stepOk(attempt.page, attempt.chunk) {
      store.Add(ChunkId(attempt.pageId, chunkCount), StoredChunk(attempt.text, attempt.title));
      chunkCount := chunkCount + 1;
    }
  }

  /**
   * The inner loop of `embed_and_store_pages` over one page's chunks: a blank chunk is
   * skipped, each other chunk is embedded and added under `"{pageId}_{chunk_count}"` when
   * its step succeeds, and `chunk_count` then grows by one.
   */
  method StorePageChunks(store: Collection, i: nat, page: Page, chunks: seq<string>, stepOk: (nat, nat) -> bool,
                         ghost m0: map<string, StoredChunk>, ghost before: seq<Attempt>, countBefore: nat)
    returns (chunkCount: nat)
    requires countBefore == |Succeeded(before, stepOk)|
    requires store.entries == Stored(m0, Succeeded(before, stepOk))
    modifies store
    ensures chunkCount == |Succeeded(before + PageAttempts(i, page, chunks, |chunks|), stepOk)|
    ensures store.entries == Stored(m0, Succeeded(before + PageAttempts(i, page, chunks, |chunks|), stepOk))
  {
    chunkCount := countBefore;
    ghost var done := before;
    assert before + PageAttempts(i, page, chunks, 0) == before;
    for c := 0 to |chunks|
      invariant done == before + PageAttempts(i, page, chunks, c)
      invariant chunkCount == |Succeeded(done, stepOk)|
      invariant store.entries == Stored(m0, Succeeded(done, stepOk))
    {
      PageAttemptsStep(before, i, page, chunks, c);
      if IsBlank(chunks[c]) {
        continue;
      }
      var attempt := Attempt(i, c, PageKey(page), PageTitle(page), chunks[c]);
      chunkCount := StoreChunk(store, attempt, stepOk, m0, done, chunkCount);
      done := done + [attempt];
    }
  }

  /**
   * One page of `embed_and_store_pages`: a page without `body.storage`, or whose cleaned
   * text is blank, adds nothing; a page whose `value` lookup raises reports `abort`; every
   * other page's chunks go through `StorePageChunks`.
   */
  method StorePage(store: Collection, i: nat, page: Page, stepOk: (nat, nat) -> bool,
                   ghost m0: map<string, StoredChunk>, ghost before: seq<Attempt>, countBefore: nat)
    returns (chunkCount: nat, abort: bool)
    requires countBefore == |Succeeded(before, stepOk)|
    requires store.entries == Stored(m0, Succeeded(before, stepOk))
    modifies store
    ensures abort == Classify(page).MissingValue?
    ensures chunkCount == |Succeeded(before + PageSteps(i, Prepared(page, Classify(page))), stepOk)|
    ensures store.entries == Stored(m0, Succeeded(before + PageSteps(i, Prepared(page, Classify(page))), stepOk))
  {
    chunkCount, abort := countBefore, false;
    assert before + [] == before;
    if page.body.NoStorage? {
      return;
    }
    if page.body.value.None? {
      abort := true;
      return;
    }
    var clean := StripTags(page.body.value.value);
    if IsBlank(clean) {
      return;
    }
    var chunks := ChunkText(clean, ChunkSize);
    chunkCount := StorePageChunks(store, i, page, chunks, stepOk, m0, before, countBefore);
  }

  /**
   * The loop of `embed_and_store_pages` over the fetched pages: a page without
   * `body.storage` or with blank cleaned text is skipped, a page whose `value` lookup
   * raises ends the run, and every other page's chunks go through `StorePageChunks`.
   */
  method StorePages(store: Collection, pages: seq<Page>, stepOk: (nat, nat) -> bool) returns (chunkCount: nat, aborted: bool)
    modifies store
    ensures store.entries == Stored(old(store.entries), Succeeded(BuildPlan(PrepareAll(pages)).attempts, stepOk))
    ensures chunkCount == |Succeeded(BuildPlan(PrepareAll(pages)).attempts, stepOk)|
    ensures aborted == BuildPlan(PrepareAll(pages)).aborted
  {
    chunkCount, aborted := 0, false;
    ghost var m0 := store.entries;
    ghost var prepared := PrepareAll(pages);
    ghost var steps: seq<Attempt> := [];
    for i := 0 to |pages|
      invariant !BuildPlan(prepared[..i]).aborted && steps == BuildPlan(prepared[..i]).attempts
      invariant chunkCount == |Succeeded(steps, stepOk)|
      invariant store.entries == Stored(m0, Succeeded(steps, stepOk))
    {
      PlanSnoc(prepared, i);
      assert prepared[i] == Prepared(pages[i], Classify(pages[i]));
      var abort;
      chunkCount, abort := StorePage(store, i, pages[i], stepOk, m0, steps, chunkCount);
      if abort {
        assert steps + PageSteps(i, prepared[i]) == steps;
        AbortSticks(prepared, i + 1);
        aborted := true;
        return;
      }
      steps := steps + PageSteps(i, prepared[i]);
    }
    assert prepared[..|pages|] == prepared;
  }

  /**
   * `embed_and_store_pages`: an exception while fetching ends the run with nothing stored,
   * no fetched page returns at once, and otherwise the pages are processed by `StorePages`.
   * From an empty store, the count afterwards is `chunk_count`.
   */
  method EmbedAndStorePages(store: Collection, src: Source, stepOk: (nat, nat) -> bool) returns (chunkCount: nat, status: BuildStatus)
    requires ListingEndsIfReached(src)
    modifies store
    ensures store.entries == Stored(old(store.entries), BuildAdds(src, stepOk))
    ensures chunkCount == |BuildAdds(src, stepOk)|
    ensures status == BuildStatusOf(src)
    ensures old(store.entries) == map[] ==> store.Count() == chunkCount
  {
    chunkCount := 0;
    var pages, failed, requests, warned := FetchAllPages(src);
    if pages.None? {
      status := Aborted;
      return;
    }
    if |pages.value| == 0 {
      status := NoPages;
      return;
    }
    var aborted;
    chunkCount, aborted := StorePages(store, pages.value, stepOk);
    status := if aborted then Aborted else Completed;
    StoredFromEmpty(BuildAdds(src, stepOk));
  }

  /**
   * `ensure_data_loaded`: the build runs only when the store is empty; a store that
   * already holds chunks is left as it is.
   */
  method EnsureDataLoaded(store: Collection, src: Source, stepOk: (nat, nat) -> bool)
    requires store.Count() == 0 ==> ListingEndsIfReached(src)
    modifies store
    ensures old(store.Count()) != 0 ==> store.entries == old(store.entries)
    ensures old(store.Count()) == 0 ==> store.entries == Stored(map[], BuildAdds(src, stepOk))
  {
    if store.Count() == 0 {
      assert store.entries == map[];
      var chunkCount, status := EmbedAndStorePages(store, src, stepOk);
    }
  }

  lemma UnderscoreBeforeDigits(p: string, d: string)
    ensures var s := p + "_" + d; |s| == |p| + 1 + |d| && s[|p|] == '_' && s[..|p|] == p && s[|p| + 1..] == d
  {
  }

  /** Two chunk ids are equal only when their ordinals are, since `str(n)` holds no `_` and reads back as `n`. */
  lemma ChunkIdOrdinal(p: string, n: nat, q: string, m: nat)
    requires ChunkId(p, n) == ChunkId(q, m)
    ensures n == m && p == q
  {
    var s, dn, dm := ChunkId(p, n), Decimal(n), Decimal(m);
    UnderscoreBeforeDigits(p, dn);
    UnderscoreBeforeDigits(q, dm);
    assert p == s[..|p|] == q;
    assert dn == s[|p| + 1..] == dm;
    DecimalRoundTrip(n);
    DecimalRoundTrip(m);
  }

  /** Every id stored by a run from an empty store is `"{pageId}_{k}"` for the `k`-th added chunk. */
  lemma {:induction false} StoredKeys(added: seq<Attempt>)
    ensures forall id :: id in Stored(map[], added) ==> exists k :: 0 <= k < |added| && id == ChunkId(added[k].pageId, k)
    decreases |added|
  {
    if added != [] {
      var k := |added| - 1;
      StoredKeys(added[..k]);
      forall id | id in Stored(map[], added) ensures exists j :: 0 <= j < |added| && id == ChunkId(added[j].pageId, j) {
        if id != ChunkId(added[k].pageId, k) {
          assert id in Stored(map[], added[..k]);
          var j :| 0 <= j < k && id == ChunkId(added[..k][j].pageId, j);
          assert added[..k][j] == added[j];
        }
      }
    }
  }

  /** The id of the next chunk is not yet in the store: ordinals are never reused within a run. */
  lemma NextIdFresh(added: seq<Attempt>, a: Attempt)
    ensures ChunkId(a.pageId, |added|) !in Stored(map[], added)
  {
    StoredKeys(added);
    if ChunkId(a.pageId, |added|) in Stored(map[], added) {
      var j :| 0 <= j < |added| && ChunkId(a.pageId, |added|) == ChunkId(added[j].pageId, j);
      ChunkIdOrdinal(a.pageId, |added|, added[j].pageId, j);
    }
  }

  /**
   * Built from an empty store, the ids `"{pageId}_{k}"` of one run are pairwise distinct:
   * the store holds exactly one entry per added chunk (so its count is `chunk_count`), and
   * chunk `k` is found under its id with its own text and title.
   */
  lemma {:induction false} StoredFromEmpty(added: seq<Attempt>)
    ensures |Stored(map[], added)| == |added|
    ensures forall k :: 0 <= k < |added| ==>
      && ChunkId(added[k].pageId, k) in Stored(map[], added)
      && Stored(map[], added)[ChunkId(added[k].pageId, k)] == StoredChunk(added[k].text, added[k].title)
    decreases |added|
  {
    if added != [] {
      var k := |added| - 1;
      var prefix := added[..k];
      StoredFromEmpty(prefix);
      NextIdFresh(prefix, added[k]);
      assert added == prefix + [added[k]];
      StoredSnoc(map[], prefix, added[k]);
      forall j | 0 <= j < k ensures ChunkId(added[j].pageId, j) != ChunkId(added[k].pageId, k) {
        if ChunkId(added[j].pageId, j) == ChunkId(added[k].pageId, k) {
          ChunkIdOrdinal(added[j].pageId, j, added[k].pageId, k);
        }
      }
    }
  }

  predicate Precedes(a: Attempt, b: Attempt) {
    a.page < b.page || (a.page == b.page && a.chunk < b.chunk)
  }

  predicate InStepOrder(attempts: seq<Attempt>) {
    forall j, k :: 0 <= j < k < |attempts| ==> Precedes(attempts[j], attempts[k])
  }

  lemma {:induction false} PageAttemptsShape(i: nat, page: Page, chunks: seq<string>, n: nat)
    requires n <= |chunks|
    ensures InStepOrder(PageAttempts(i, page, chunks, n))
    ensures forall a :: a in PageAttempts(i, page, chunks, n) ==>
      a.page == i && a.chunk < n && a.text == chunks[a.chunk] && !IsBlank(a.text)
      && a.pageId == PageKey(page) && a.title == PageTitle(page)
  {
    if n > 0 {
      PageAttemptsShape(i, page, chunks, n - 1);
    }
  }

  /** Where a step comes from: a page of the run that has chunks, one of its non-blank chunks, with that page's id and title. */
  predicate FromPrepared(prepared: seq<Prepared>, a: Attempt) {
    && a.page < |prepared|
    && prepared[a.page].content.Chunks?
    && a.chunk < |prepared[a.page].content.chunks|
    && a.text == prepared[a.page].content.chunks[a.chunk]
    && !IsBlank(a.text)
    && a.pageId == PageKey(prepared[a.page].page)
    && a.title == PageTitle(prepared[a.page].page)
  }

  /** `FromPrepared`, read on the fetched pages. */
  predicate FromPage(pages: seq<Page>, a: Attempt) {
    FromPrepared(PrepareAll(pages), a)
  }

  lemma {:induction false} PlanShapeOf(prepared: seq<Prepared>)
    ensures InStepOrder(BuildPlan(prepared).attempts)
    ensures forall a :: a in BuildPlan(prepared).attempts ==> FromPrepared(prepared, a)
    decreases |prepared|
  {
    if prepared != [] {
      var i := |prepared| - 1;
      var prefix := prepared[..i];
      PlanShapeOf(prefix);
      var before := BuildPlan(prefix);
      forall a | a in before.attempts ensures FromPrepared(prepared, a) {
        assert FromPrepared(prefix, a);
        assert prepared[a.page] == prefix[a.page];
      }
      if !before.aborted && prepared[i].content.Chunks? {
        var cs := prepared[i].content.chunks;
        var mine := PageAttempts(i, prepared[i].page, cs, |cs|);
        PageAttemptsShape(i, prepared[i].page, cs, |cs|);
        var all := before.attempts + mine;
        forall j, k | 0 <= j < k < |all| ensures Precedes(all[j], all[k]) {
          if k >= |before.attempts| {
            assert all[k] in mine;
            if j < |before.attempts| {
              assert all[j] in before.attempts;
            } else {
              assert all[j] == mine[j - |before.attempts|] && all[k] == mine[k - |before.attempts|];
            }
          }
        }
      }
    }
  }

  /**
   * Skip rules and order: every step of a run belongs to a page that has chunks (never to a
   * page without `body.storage` or with blank cleaned text), carries that page's chunk text,
   * id and title, and the steps run page by page and, within a page, in chunk order.
   */
  lemma PlanShape(pages: seq<Page>)
    ensures InStepOrder(BuildPlan(PrepareAll(pages)).attempts)
    ensures forall a :: a in BuildPlan(PrepareAll(pages)).attempts ==> FromPage(pages, a)
  {
    PlanShapeOf(PrepareAll(pages));
  }

  /** A page with chunks contributes one step per chunk, chunk `k` as its `k`-th step, since no chunk is blank. */
  lemma {:induction false} PageAttemptsComplete(i: nat, page: Page, clean: string, n: nat)
    requires n <= |ChunkText(clean, ChunkSize)|
    ensures var chunks := ChunkText(clean, ChunkSize);
      && |PageAttempts(i, page, chunks, n)| == n
      && forall k :: 0 <= k < n ==> PageAttempts(i, page, chunks, n)[k] == Attempt(i, k, PageKey(page), PageTitle(page), chunks[k])
  {
    if n > 0 {
      ChunksNotBlank(clean, ChunkSize);
      PageAttemptsComplete(i, page, clean, n - 1);
    }
  }

  /** The successful steps keep their order and are exactly the steps whose outcome is success. */
  lemma {:induction false} SucceededShape(attempts: seq<Attempt>, stepOk: (nat, nat) -> bool)
    ensures forall a :: a in Succeeded(attempts, stepOk) <==> a in attempts && stepOk(a.page, a.chunk)
    ensures InStepOrder(attempts) ==> InStepOrder(Succeeded(attempts, stepOk))
    decreases |attempts|
  {
    if attempts != [] {
      var k := |attempts| - 1;
      SucceededShape(attempts[..k], stepOk);
      assert attempts == attempts[..k] + [attempts[k]];
      if InStepOrder(attempts) {
        var before := Succeeded(attempts[..k], stepOk);
        var all := Succeeded(attempts, stepOk);
        forall j, l | 0 <= j < l < |all| ensures Precedes(all[j], all[l]) {
          if l == |before| {
            assert all[j] in attempts[..k];
            var p :| 0 <= p < k && attempts[..k][p] == all[j];
          }
        }
      }
    }
  }

  /** Within one run the ids `"{pageId}_{k}"` are pairwise distinct, whatever the page ids. */
  lemma RunIdsDistinct(added: seq<Attempt>)
    ensures forall j, k :: 0 <= j < k < |added| ==> ChunkId(added[j].pageId, j) != ChunkId(added[k].pageId, k)
  {
    forall j, k | 0 <= j < k < |added| ensures ChunkId(added[j].pageId, j) != ChunkId(added[k].pageId, k) {
      if ChunkId(added[j].pageId, j) == ChunkId(added[k].pageId, k) {
        ChunkIdOrdinal(added[j].pageId, j, added[k].pageId, k);
      }
    }
  }

  /**
   * What one run stores: nothing when fetching raised or no page was fetched; otherwise
   * only successful steps on non-blank chunks of fetched pages that have chunks, with
   * their page's id and title, page by page and in chunk order within a page.
   */
  lemma BuildAddsShape(src: Source, stepOk: (nat, nat) -> bool)
    requires ListingEndsIfReached(src)
    ensures FetchResult(src).None? ==> BuildAdds(src, stepOk) == [] && BuildStatusOf(src) == Aborted
    ensures FetchResult(src) == Some([]) ==> BuildAdds(src, stepOk) == [] && BuildStatusOf(src) == NoPages
    ensures src.reportedCount == Some(0) ==> BuildAdds(src, stepOk) == [] && BuildStatusOf(src) == NoPages
    ensures FetchResult(src).Some? ==>
      && InStepOrder(BuildAdds(src, stepOk))
      && forall a :: a in BuildAdds(src, stepOk) ==> FromPage(FetchResult(src).value, a) && stepOk(a.page, a.chunk)
  {
    if FetchResult(src).Some? {
      var pages := FetchResult(src).value;
      PlanShape(pages);
      SucceededShape(BuildPlan(PrepareAll(pages)).attempts, stepOk);
    }
  }
}
