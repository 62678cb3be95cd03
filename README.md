# Confluence question-answering bot: a verified model of its pipeline

The bot ingests every page of a Confluence space into a vector store and answers
questions from it. On the first question it lists the page ids, fetches each page,
strips markup tags from the body, cuts the text into 500-word chunks and stores each
chunk under the id `"{pageId}_{n}"`. After that, each question retrieves the closest
chunks and builds a context of at most 1500 characters from them. The context and the
question go into a prompt for a local chat model.

This project models that pipeline in Dafny, module by module:

- `Text`: Python's `str.split()` (with the whitespace set of `str.isspace`), `sep.join`,
  a blank test (`s.strip() == ""`) and `str(n)` for natural numbers.
- `Markup`: the tag remover `re.sub(r'<[^>]+>', '', content)`, as a left-to-right scanner.
- `Chunker`: `chunk_text`.
- `Fetcher`: `fetch_all_page_ids` and `fetch_all_pages`.
  - They are imperative methods over the service's answers, which are given as functions.
- `VectorStore`: the collection, as a class holding a map from id to (text, title).
- `IndexBuilder`: `embed_and_store_pages` and `ensure_data_loaded`.
  - These are imperative methods on the collection.
  - They are proved against specification functions: `BuildPlan`, `Succeeded` and `Stored`.
- `Query`: the decision logic of the `/` route.
  - It is a function over the store's count, the retrieval outcome and the chat outcome.
  - `Ask` is the method that loads the index first.

Each network or model answer is an input to the model:

| answer | how the model receives it |
|---|---|
| count request | an optional number (`None` when the request raises) |
| listing | a function from the `start` offset to a batch or a failure |
| page fetch | a function from id to an optional page |
| encode-and-add step | a function from (page number, chunk number) to success |
| question retrieval | a given list of document lists, or a failure |
| chat call | a function from prompt to reply |

## Model

| member | source | states |
|---|---|---|
| Text.Split | app.py:187 | `text.split()` yields only non-empty words free of whitespace |
| Text.SplitKeepsNonSpace | app.py:187 | the words of `text.split()`, concatenated, are exactly the non-whitespace characters of the text, in order |
| Text.SplitEmptyIffBlank | app.py:187 | `text.split()` is empty exactly when the text is whitespace only |
| Text.Join | app.py:189 | the body is the model of `sep.join(words)` (also used at app.py:338): the words with `sep` between consecutive ones; `SplitJoin`, `JoinEach` and `ContextIsBudgetedPrefix` state its properties |
| Text.IsBlank | app.py:227 | the body is the model of `len(s.strip()) == 0` (also at app.py:235): every character is Python whitespace; `SplitEmptyIffBlank` and `BlankTextNoChunks` relate it to `split()`, and `ChunksNotBlank` shows the chunk test never holds |
| Text.Decimal | app.py:246 | the body is the model of `str(n)` for a natural number, most significant digit first; `DecimalRoundTrip` reads it back |
| Text.SplitJoin | app.py:187-190 | re-splitting `" ".join(words)` gives back `words` when every word is a non-empty run of non-whitespace |
| Text.DecimalRoundTrip | app.py:246 | `str(n)` is a non-empty digit string that reads back as `n` |
| Chunker.Windows | app.py:188-191 | the body is the model of the comprehension's windows `words[i:i+size]` for `i` in `range(0, len(words), size)`; its properties are `WindowSizes`, `WindowAt` and `WindowsConcat` |
| Chunker.ChunkText | app.py:186-191 | the body is the model of `chunk_text`: split the text, cut it into windows, space-join each; its properties are `ChunkTextRoundTrip`, `ChunkWordsAt`, `ChunkCounts`, `BlankTextNoChunks` and `ChunksNotBlank` |
| Chunker.JoinEach | app.py:188-191 | there is one chunk per word window |
| Chunker.WindowSizes | app.py:188-191 | every window but the last holds exactly `size` words, the last holds 1..`size`, and there are ceil(W / size) of them |
| Chunker.WindowAt | app.py:188-191 | window `j` is `words[j*size : (j+1)*size]` |
| Chunker.WindowsConcat | app.py:188-191 | concatenating the windows gives back the word list |
| Chunker.ChunkTextRoundTrip | app.py:186-191 | re-splitting the chunks and concatenating their words gives exactly `text.split()` |
| Chunker.ChunkWordsAt | app.py:186-191 | chunk `j`, re-split, is words `[j*size, (j+1)*size)` of the text |
| Chunker.ChunkCounts | app.py:186-191 | with size 500 there are ceil(W/500) chunks; all but the last have 500 words, and the last has 1..500 |
| Chunker.BlankTextNoChunks | app.py:186-191 | the chunk list is empty exactly when the text is whitespace only |
| Chunker.ChunksNotBlank | app.py:186-191 | no chunk is blank, so the per-chunk `strip()` test never skips one |
| Chunker.TwelveHundredWords | app.py:186-191 | 1200 words give three chunks of 500, 500 and 200 words |
| Markup.TagAt | app.py:224 | the body is the test for `<[^>]+>` matching at a position: `<` there and the first `>` after it at least two places later; `ContainsTagIffTagAt` proves it agrees with the pattern read as a set of substrings |
| Markup.StripTags | app.py:224 | the body is the model of `re.sub(r'<[^>]+>', '', text)`, a left-to-right scan that deletes each match; its properties are `StripTagsSubsequence`, `StripTagsTagFree`, `NoTagSurvives`, `TagFreeUnchanged` and `StripTagsIdempotent` |
| Markup.FindClose | app.py:224 | the index of the first `>` at or after a position, or the end |
| Markup.ContainsTagIffTagAt | app.py:224 | the scanner's match test agrees with the pattern `<[^>]+>` read as a set of substrings |
| Markup.StripTagsSubsequence | app.py:224 | the cleaned text is the input with characters deleted, nothing added or reordered |
| Markup.StripTagsTagFree | app.py:224 | the scanner leaves no match in what it keeps |
| Markup.TagFreeUnchanged | app.py:224 | text with no match is returned unchanged |
| Markup.NoTagSurvives | app.py:224 | no substring `<`, one or more non-`>` characters, `>` remains after cleaning |
| Markup.StripTagsIdempotent | app.py:224 | cleaning twice is the same as cleaning once |
| Markup.NoOpenBracketUnchanged | app.py:224 | text without `<` is returned unchanged |
| Fetcher.BatchIds | app.py:108 | the kept ids are non-empty and no more than the batch's entries |
| Fetcher.FirstStop | app.py:113-116 | the loop's last request is the first one whose batch is short or whose request raises |
| Fetcher.ListedIds | app.py:84-121 | the body is the reference result of `fetch_all_page_ids`: `None` when a request raises, else the kept ids of every batch up to the first short one; `FetchAllPageIds` is proved to return it and `InOrderListing` evaluates it |
| Fetcher.FetchAllPageIds | app.py:79-121 | requests go out at `start` = 0, 500, 1000, … up to the first short batch; the result is the ids of every batch in order, or an exception |
| Fetcher.InOrderListing | app.py:84-118 | a service holding N pages in order gets N div 500 + 1 requests and yields all N truthy ids in order |
| Fetcher.FetchResult | app.py:145-183 | the body is the reference result of `fetch_all_pages`: `None` when counting or listing raises, `[]` for a count of 0, else the fetched pages of the listed ids; `FetchAllPages` is proved to return it and `FetchAccounting` relates it to the ids |
| Fetcher.FetchedPages | app.py:161-177 | the body is the reference list of pages the per-id loop appends, those whose fetch succeeds, in id order; `FetchEach` is proved to return it and `FetchAccounting` relates it to the ids |
| Fetcher.FailedIds | app.py:161-177 | the body is the reference list of ids the per-id loop records as failed, those whose fetch raises, in id order; `FetchEach` is proved to return it and `FetchAccounting` states that each of their fetches raised |
| Fetcher.FetchAllPages | app.py:145-183 | a count of 0 returns `[]` with no listing; the failed ids are recorded; pages + failed = listed ids; the warning fires exactly when the count differs from the number of listed ids |
| Fetcher.FetchAccounting | app.py:161-177 | every listed id either adds its page or is recorded as failed |
| Fetcher.FetchEach | app.py:161-177 | the per-id loop: the fetched pages and the failed ids, each in id order, together as many as the listed ids |
| Fetcher.ThreeIdsOneFailure | app.py:145-183 | count 3, ids 10, 11 and 12, and the fetch of 12 fails: the pages of 10 and 11 come back in that order, `["12"]` is recorded as failed, and there is no warning |
| VectorStore.Collection.Count | app.py:294 | the body is the model of `collection.count()` (also at app.py:313): the number of stored ids; `EnsureDataLoaded`, `EmbedAndStorePages` and `Ask` state their effect through it |
| VectorStore.Collection.Add | app.py:249-254 | `collection.add` stores the chunk under its id |
| IndexBuilder.PageKey | app.py:246 | the body is the model of `page.get('id', 'unknown')`; `PageAttemptsShape` states that every step of a page carries it |
| IndexBuilder.PageTitle | app.py:214 | the body is the model of `page.get("title", "")`; `PageAttemptsShape` states that every step of a page carries it, and `StoredFromEmpty` that it is stored as the chunk's title |
| IndexBuilder.PageAttempts | app.py:234-236 | the body is the reference list of one page's embed-and-add steps, in chunk order, skipping a blank chunk; `PageAttemptsShape` and `PageAttemptsComplete` state its properties and `StorePageChunks` is proved against it |
| IndexBuilder.Classify | app.py:217-231 | the body is the model of the per-page rules: no `body.storage` skips, a missing `value` aborts, blank cleaned text skips, else the cleaned text's chunks; `StorePage` and `PlanShape` state their effect |
| IndexBuilder.BuildPlan | app.py:211-236 | the body is the reference page loop: the steps of each page in order, stopping at the first page whose `value` lookup raises; its properties are `AbortSticks`, `PlanShape` and `PageAttemptsComplete`, and `StorePages` is proved against it |
| IndexBuilder.Succeeded | app.py:238-265 | the body is the reference filter of the steps whose embed-and-add succeeds, in order; its property is `SucceededShape`, and `StorePages` is proved against it |
| IndexBuilder.BuildAdds | app.py:193-285 | the body is the reference list of chunks one run stores: none when fetching raises, else the successful steps of the plan; `EmbedAndStorePages` is proved against it and `BuildAddsShape` states its shape |
| IndexBuilder.BuildStatusOf | app.py:193-285 | the body is the reference outcome of one run: aborted when fetching raises or a page's `value` lookup raises, no pages when none were fetched, else completed; `EmbedAndStorePages` is proved against it and `BuildAddsShape` states its value on a fetch exception and on no pages |
| IndexBuilder.Stored | app.py:246-255 | the body is the reference store after the successful steps are added in order, the k-th under ordinal k; its properties are `StoredKeys`, `StoredFromEmpty`, `NextIdFresh` and `RunIdsDistinct` |
| IndexBuilder.StorePageChunks | app.py:234-265 | one page's chunks: blank ones are skipped, each successful step adds under the next ordinal, and a failed step consumes none |
| IndexBuilder.StorePage | app.py:212-236 | one page: no `body.storage` or blank cleaned text adds nothing; a missing `value` aborts; otherwise the page's chunks are stored |
| IndexBuilder.StoreChunk | app.py:238-265 | one chunk: a successful embed-and-add stores it under `"{pageId}_{chunk_count}"` and grows the count; a failed one leaves store and count as they were |
| IndexBuilder.StepEffect | app.py:238-265 | one step: on success the chunk is stored under the next ordinal and the count grows by one; on failure nothing changes |
| IndexBuilder.StorePages | app.py:211-236 | the page loop stores exactly the successful steps of the run's plan, and stops at the first page whose `value` lookup raises |
| IndexBuilder.EmbedAndStorePages | app.py:193-285 | the store afterwards is the store before plus the run's successful steps under ordinals 0, 1, …; `chunk_count` is their number; from an empty store the count equals `chunk_count` |
| IndexBuilder.EnsureDataLoaded | app.py:292-298 | the build runs only on an empty store; a non-empty store is left unchanged |
| IndexBuilder.AbortSticks | app.py:212-236 | after the page whose lookup raises, no later page is processed |
| IndexBuilder.ChunkId | app.py:246 | the body is the model of `f"{page_id}_{chunk_count}"`; its property is `ChunkIdOrdinal` |
| IndexBuilder.ChunkIdOrdinal | app.py:246 | two chunk ids are equal only when their page ids and ordinals are |
| IndexBuilder.RunIdsDistinct | app.py:246-255 | the ids of one run are pairwise distinct |
| IndexBuilder.StoredKeys | app.py:246-255 | every id stored in a run is `"{pageId}_{k}"` for the k-th added chunk |
| IndexBuilder.NextIdFresh | app.py:246-255 | in a store built from empty in this run, the next ordinal's id is not yet present |
| IndexBuilder.StoredFromEmpty | app.py:246-255 | from an empty store, one entry per added chunk, and chunk k is found under its id with its text and title |
| IndexBuilder.PageAttemptsShape | app.py:234-246 | one page's steps are in chunk order, and each has a non-blank chunk text, the page's id and the page's title |
| IndexBuilder.PlanShape | app.py:212-236 | every step belongs to a fetched page that has chunks; steps go page by page, in chunk order within a page |
| IndexBuilder.PageAttemptsComplete | app.py:231-236 | a page with chunks gets one step per chunk, chunk k as its k-th step |
| IndexBuilder.SucceededShape | app.py:238-265 | the successful steps are exactly the steps whose outcome is success, in the same order |
| IndexBuilder.BuildAddsShape | app.py:193-236 | zero fetched pages, or a count of 0, stores nothing; a fetch exception stores nothing; what is stored comes from fetched pages with chunks, in step order |
| Query.QuestionOf | app.py:303-306 | a GET, or a POST without the field, gives the question `""`; a POST with the field gives its value |
| Query.Respond | app.py:307-374 | empty question → `""`; empty store → the no-data answer, no encoding; retrieval error → error text; no chunk → no-match answer; chat exception → model-error text; malformed reply → error text; otherwise the reply |
| Query.Context | app.py:338 | the body is the model of `"\n".join(chunks)[:1500]`; its property is `ContextIsBudgetedPrefix` |
| Query.Prompt | app.py:343-356 | the body is the model of the prompt f-string, with the source's fixed text; its property is `PromptEmbeds` |
| Query.ContextIsBudgetedPrefix | app.py:338 | the context is a prefix of the newline join, of length min(1500, length of join), and it starts with the first chunk |
| Query.PromptEmbeds | app.py:343-356 | the prompt holds the context and the question in full, at fixed positions |
| Query.ModelCalledIff | app.py:307-370 | the chat model is called exactly when the question is non-empty, the store is not empty, and retrieval returned a chunk; the prompt carries the budgeted context |
| Query.Ask | app.py:302-377 | the store changes only through the load; from an empty store the question is encoded iff the build stored a chunk, and otherwise the answer is the no-data answer |

## Left out

- Flask routing, templating and the diagnostic routes (`/debug`, `/test-auth`, `/spaces`, `/debug-chromadb`, `/test-fetch-strategy`, `/test-space`, `/docs`, `/health`): these are user interface and introspection.
- Environment and configuration loading, and construction of the HTTP, ChromaDB and Ollama clients, including the HTTP-to-embedded fallback: this is library setup.
- HTTP requests, status checks and JSON decoding are not modelled. The model takes each answer as an input (see the table above).
  - A non-JSON body, a missing `results` key, or an error status is the listing's `RequestFailed`.
  - Any failure of a content fetch is `None`.
- `get_space_page_count` is taken as the number it returns. `None` stands for an exception.
  - Its request uses `limit=1` and reads the `size` field, which the model does not interpret.
- Embedding vectors, the sentence-transformer model and `.tolist()`: these are float vectors from a foreign model.
  - Encoding and adding a chunk is one step that may fail.
  - A failure of the model load at the start of `embed_and_store_pages` is not modelled.
- ChromaDB's nearest-neighbour ranking and `n_results=2`: the retrieved documents are an input, and the model does not relate them to the store's contents.
- The Ollama call's model name and sampling options: these are foreign-call parameters.
  - The prompt text is modelled, but the reply is an input.
- `print` logging, the progress counters every 10 pages or chunks, the extra `collection.count()` calls made only for logging, and traceback formatting: these are side effects only.
- The race between two first requests that both find the store empty: concurrency is not modelled.
- `Fetcher.FetchAllPageIds` requires that some request at 0, 500, 1000, … returns a short batch or raises. Otherwise the source's `while True` loop never ends.
- The fetch answer depends only on the id, so an id listed twice is fetched with the same outcome both times.
- The encode-and-add outcome depends only on the page number and the chunk number.
- `VectorStore.Collection.Add` treats an add under an id that is already stored as an overwrite; ChromaDB's own handling of a duplicate id is not modelled. Within one run no id is reused (`IndexBuilder.RunIdsDistinct`), and `ensure_data_loaded` builds only on an empty store. The `/refresh` route (app.py:432-436), however, runs `embed_and_store_pages` on a store that already holds `"{pageId}_0"`, `"{pageId}_1"`, … and issues the same ids again. For a non-empty store, `IndexBuilder.EmbedAndStorePages`'s statement of the resulting store holds only if `add` overwrites.
- `IndexBuilder.EmbedAndStorePages`: on a store that is not empty, its statement of the new store rests on the overwrite reading of `add` above. Only its empty-store case is used by `IndexBuilder.EnsureDataLoaded` and `Query.Ask`.
- An exception from `collection.count()` itself is not modelled, and neither is a `value` that is not a string.
- `"body" not in page` and `"storage" not in page["body"]` are modelled as one case, `NoStorage`.
- In `Query.Respond`, an exception from encoding the question or from `collection.query` is one case, `RetrievalFailed`. A reply without `message.content` is `Malformed`. Both lead to the generic error answer.

`fetch_all_pages` compares the reported count with the number of listed ids (app.py:157), not with the number of fetched pages. With a count of 3, ids 10, 11 and 12, and a failed fetch of 12, no warning is issued (`Fetcher.ThreeIdsOneFailure`).
