# WaniKani known words, modelled in Dafny

This project models the data handling of `WanikaniKnownWordsProvider`, the class that
fetches a learner's known vocabulary from the WaniKani API and caches it in a local JSON
file. It covers four pieces:

- The pagination loop of `_import_wk_known_words`. It requests the assignments listing,
  appends every record's `subject_id` in order, and follows `pages.next_url` until that is
  falsy.
- `_chunked`, which slices the collected ids into chunks of at most 1000.
- `_resolve_vocab_meanings`, which requests the subjects of each chunk. It keeps the
  `characters` of the records whose `object` is `"vocabulary"`.
- `get_known_words`. With `use_cache` on and a cache file present, it returns the file's
  words as a set. Otherwise it imports and then overwrites the cache file.

The WaniKani server is an input of the model:

- The assignments endpoint is the sequence of replies it gives to successive requests. The
  k-th reply answers the k-th request.
- The subjects endpoint is a function from the requested ids to its reply.
- A reply is either a body that passes `raise_for_status()` or an error status.
- `while url:` uses Python truthiness, so both a null and an empty `next_url` end the
  pagination.
- The source has no guard against a server that never ends the pagination. The model
  therefore requires that the given replies reach one that ends it (`PaginationEnds`).

Every method also returns the requests it sent. This is how the model states "one request
per page", "no subjects request for an empty id list" and "no request on a cache hit".

The file at the cache path is a `CacheFile` object. Its `contents` is `None` while no file
exists there. Otherwise it is the JSON array of strings the file holds. Its `writable` says
whether `open(cache_path, "w")` succeeds.

Files:
- `chunking.dfy`: module `Chunking`. It holds `_chunked` and its properties.
- `wanikani_provider.dfy`: module `WanikaniProvider`. It holds the rest: the two loops as
  methods proved against specification functions, the cache, and the provider class.

Two facts about the source shape the model:

- `_import_wk_known_words` does not create the cache file's parent directory. When the
  file cannot be opened for writing (the default `../output` missing, for one), line 46
  raises after every request has been sent. The model returns `CacheWriteFailed` and
  leaves the cache as it was.
- A reply fails when `raise_for_status()` raises. The model keeps the classification of
  status codes abstract: a reply is `Ok` or `HttpError(status)`.

## Model

| member | source | states |
|---|---|---|
| `Chunking.ChunksFrom` | known_words/wanikani_provider.py:64-66 | the slices from offset `i` are empty exactly when `i` is past the end; each slice is non-empty with at most `size` elements; all but the last have exactly `size`; their number is the least `k` with `k * size >= len - i` |
| `Chunking.Chunked` | known_words/wanikani_provider.py:64-66 | `_chunked(xs, size)` gives `ceil(len(xs)/size)` chunks; no chunks exactly when `xs` is empty; every chunk is non-empty and at most `size` long; every chunk but the last is exactly `size` long |
| `Chunking.FlattenChunked` | known_words/wanikani_provider.py:64-66 | concatenating all chunks in order yields exactly `xs` |
| `Chunking.ChunkedAt` | known_words/wanikani_provider.py:65-66 | the k-th chunk is the slice `xs[k*size : k*size+size]`, cut at the end of `xs`, for the k-th offset of `range(0, len(xs), size)` |
| `WanikaniProvider.LastRequest` | known_words/wanikani_provider.py:33-39 | the last assignments request is the first reply that fails or whose `next_url` is falsy; no earlier reply does either |
| `WanikaniProvider.CollectSubjectIds` | known_words/wanikani_provider.py:29-41 | the accumulated `known_item_ids` is the in-order concatenation of every page's `subject_id`s, duplicates kept, or the status of the failing reply; one request per page, the first to the fixed listing URL and each later one to the previous page's `next_url` |
| `WanikaniProvider.StopsAtFirstFalsyNextUrl` | known_words/wanikani_provider.py:33-39 | pagination stops exactly at the first failing reply or falsy `next_url`: replies after it change neither the ids nor the requests |
| `WanikaniProvider.TwoPagesExample` | known_words/wanikani_provider.py:33-39 | pages of 3 ids with a next URL and of 2 ids with a null `next_url` give exactly 2 requests and the 5 ids in order, a repeated id kept |
| `WanikaniProvider.FirstFailure` | known_words/wanikani_provider.py:53-56 | every chunk before the returned position gets a passing reply; the chunk at it, if any, gets a failing one |
| `WanikaniProvider.ResolveVocabMeanings` | known_words/wanikani_provider.py:51-62 | the result is the status of the first chunk whose reply fails, or else the set of `characters` of the records of kind "vocabulary" in the replies to all chunks; the requests are the chunks in order, up to and including a failing one |
| `WanikaniProvider.SubjectRequestsCoverIds` | known_words/wanikani_provider.py:53-55 | when resolution succeeds there are `ceil(len(ids)/1000)` subjects requests; the j-th asks for `ids[1000*j : 1000*j+1000]`; together they name every collected id once, in order |
| `WanikaniProvider.NoIdsNoSubjectRequests` | known_words/wanikani_provider.py:52-53 | an empty id list sends no subjects request and resolves to the empty set |
| `WanikaniProvider.FifteenHundredIdsExample` | known_words/wanikani_provider.py:53-55 | 1500 ids are requested in two chunks, the first 1000 ids and the last 500 |
| `WanikaniProvider.VocabularyOnlyExample` | known_words/wanikani_provider.py:58-60 | when the single chunk of up to 1000 ids gets a reply with a vocabulary record "犬" and a kanji record, the resolution yields just {"犬"}; other kinds contribute nothing |
| `WanikaniProvider.ElementsOfNoLarger` | known_words/wanikani_provider.py:24 | reading the cached list into a set never gives more words than the list holds |
| `WanikaniProvider.CachedDuplicatesCollapseExample` | known_words/wanikani_provider.py:22-24 | a cache file holding ["a","a","b"] is read as {"a","b"} |
| `WanikaniProvider.ListOf` | known_words/wanikani_provider.py:47 | `list(known_vocab)` holds exactly the words of the set, each once |
| `WanikaniProvider.WanikaniKnownWordsProvider.constructor` | known_words/wanikani_provider.py:16-18 | stores the API key and the cache path, by default `../output/wanikani_known_words.json` |
| `WanikaniProvider.WanikaniKnownWordsProvider.GetKnownWords` | known_words/wanikani_provider.py:20-26 | with caching on and a cache file present: the set of the file's words, no request, cache unchanged; otherwise exactly the import's outcome, requests and cache effect: on any failure the cache is unchanged, on success it holds exactly the resolved words, each once |
| `WanikaniProvider.WanikaniKnownWordsProvider.ImportKnownWords` | known_words/wanikani_provider.py:28-49 | the outcome is the collected ids resolved to vocabulary; a failing reply in either loop aborts with its status, and a cache file that cannot be opened for writing aborts after both loops; either way the cache is untouched; on success the cache afterwards holds exactly the resolved words, each once |
| `WanikaniProvider.ImportThenReadCache` | known_words/wanikani_provider.py:20-49 | the first call returns the import's result; if it succeeds, a following cached call sends no request and returns the same set |

## Left out

- HTTP: the URLs of the subjects requests, the comma-joined `ids` query string, and the
  `Authorization` and `Wanikani-Revision` headers (lines 30, 34, 54-55). A subjects request
  is modelled by the ids it asks for. The API key is stored but plays no part.
- Which status codes make `raise_for_status()` raise. This belongs to the HTTP library,
  which is not part of this model. Replies are given as passing or failing.
- `sleep` and `time.sleep` rate limiting (lines 11-13, 41, 61). These are wall-clock side
  effects.
- JSON parsing and serialisation, `ensure_ascii=False` and the UTF-8 encoding (lines 23-24,
  36, 46-47). Bodies are given already parsed. A malformed body or cache file is not
  modelled, and neither is a vocabulary record without `characters`.
- Filesystem I/O (lines 22-23, 46). The cache file is the `contents` of a `CacheFile`.
  The existence check reads whether `contents` is present. The write replaces `contents`.
  Of the ways the write can fail, only a failing `open` is modelled (`writable`); a write
  that fails part-way, leaving a truncated file, is not.
- Chunking.Chunked: requires `size > 0`. Python's `range` raises for a step of 0 and yields
  nothing for a negative step. Neither case is modelled, because the only caller passes
  1000.
- Pagination that never ends (a server whose `next_url` chain is infinite) is excluded by
  `PaginationEnds`. The source loops forever on it and has no guard.
- `known_words/__main__.py`, which reads an environment variable and prints the result.
  It is plumbing.
- `known_words/known_words_provider.py`, the abstract base class. It has no behaviour.
