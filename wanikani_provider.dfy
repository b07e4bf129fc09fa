/** The data handling of `WanikaniKnownWordsProvider`: paging through the
    assignments listing, resolving the collected subject ids to vocabulary in
    chunks of 1000, and the cache file that short-cuts both. The WaniKani server
    is an input of the model: the assignment pages as the sequence of replies it
    gives to successive requests, the subjects endpoint as a function from the
    requested ids to its reply. */
module WanikaniProvider {
  import opened Chunking

  datatype Option<T> = None | Some(value: T)

  /** The outcome of an import: its value, the status of the reply on which
      `raise_for_status()` raised, or the error raised by opening the cache file
      for writing. */
  datatype Result<T> = Success(value: T) | Failure(status: int) | CacheWriteFailed

  /** An HTTP reply: a body that passes `raise_for_status()`, or an error status. */
  datatype Reply<T> = Ok(body: T) | HttpError(status: int)

  /** One record of the assignments listing, reduced to `data.subject_id`. */
  datatype Assignment = Assignment(subjectId: int)

  /** One page of the assignments listing: its records and `pages.next_url`. */
  datatype AssignmentPage = AssignmentPage(data: seq<Assignment>, nextUrl: Option<string>)

  /** One record of the subjects listing: its `object` kind and `data.characters`. */
  datatype Subject = Subject(objectKind: string, characters: string)

  /** An HTTP GET the provider issues. */
  datatype Request = GetAssignments(url: string) | GetSubjects(ids: seq<int>)

  const AssignmentsUrl := "https://api.wanikani.com/v2/assignments?subject_types=vocabulary&started=true"
  const SubjectChunkSize: nat := 1000
  const VocabularyKind := "vocabulary"
  const DefaultCachePath := "../output/wanikani_known_words.json"

  // ---------------------------------------------------------------------------
  // Phase A: the pagination loop of `_import_wk_known_words`

  /** Python truthiness of `url`: `None` and the empty string are false. */
  predicate Truthy(url: Option<string>)
  {
    url.Some? && url.value != ""
  }

  /** After this reply the `while url:` loop issues no further request: either
      `raise_for_status()` raised, or the page's `next_url` is falsy. */
  predicate EndsPagination(reply: Reply<AssignmentPage>)
  {
    reply.HttpError? || !Truthy(reply.body.nextUrl)
  }

  /** The server's successive replies reach one that ends the pagination. */
  predicate PaginationEnds(replies: seq<Reply<AssignmentPage>>)
  {
    exists k :: 0 <= k < |replies| && EndsPagination(replies[k])
  }

  /** Position of the reply that ends the pagination, that is, of the last
      assignments request. */
  function LastRequest(replies: seq<Reply<AssignmentPage>>): (k: nat)
    requires PaginationEnds(replies)
    ensures k < |replies| && EndsPagination(replies[k])
    ensures forall j :: 0 <= j < k ==> !EndsPagination(replies[j])
  {
    if EndsPagination(replies[0]) then 0
    else
      assert PaginationEnds(replies[1..]) by {
        var k :| 0 <= k < |replies| && EndsPagination(replies[k]);
        assert replies[1..][k - 1] == replies[k];
      }
      LastRequest(replies[1..]) + 1
  }

  /** The URL of the `j`-th assignments request: the fixed listing URL, then
      each page's `next_url`. */
  ghost function RequestedUrl(replies: seq<Reply<AssignmentPage>>, j: nat): string
    requires PaginationEnds(replies) && j <= LastRequest(replies)
  {
    if j == 0 then AssignmentsUrl else replies[j - 1].body.nextUrl.value
  }

  /** The assignments requests the loop issues: one per page, up to the one
      that ends the pagination. */
  ghost function AssignmentRequests(replies: seq<Reply<AssignmentPage>>): seq<Request>
    requires PaginationEnds(replies)
  {
    var n := LastRequest(replies) + 1;
    seq(n, j requires 0 <= j < n => GetAssignments(RequestedUrl(replies, j)))
  }

  /** The subject ids of one page, in record order. */
  function PageIds(page: AssignmentPage): seq<int>
  {
    seq(|page.data|, j requires 0 <= j < |page.data| => page.data[j].subjectId)
  }

  /** The subject ids of the pages in the first `n` replies, page by page. */
  ghost function PagesIds(replies: seq<Reply<AssignmentPage>>, n: nat): seq<seq<int>>
    requires n <= |replies| && forall j :: 0 <= j < n ==> replies[j].Ok?
  {
    if n == 0 then [] else PagesIds(replies, n - 1) + [PageIds(replies[n - 1].body)]
  }

  /** What the pagination loop produces: the status of the reply that failed,
      or the subject ids of every page in order, duplicates kept. */
  ghost function CollectedIds(replies: seq<Reply<AssignmentPage>>): Result<seq<int>>
    requires PaginationEnds(replies)
  {
    var k := LastRequest(replies);
    if replies[k].HttpError? then Failure(replies[k].status)
    else Success(Flatten(PagesIds(replies, k + 1)))
  }

  /** The `while url:` loop of `_import_wk_known_words`, fed by the server's
      successive `replies`: the ids collected (or the failing status) and the
      requests sent. */
  method CollectSubjectIds(replies: seq<Reply<AssignmentPage>>)
    returns (ids: Result<seq<int>>, sent: seq<Request>)
    requires PaginationEnds(replies)
    ensures ids == CollectedIds(replies)
    ensures sent == AssignmentRequests(replies)
  {
    ghost var last := LastRequest(replies);
    var knownItemIds: seq<int> := [];
    var url: Option<string> := Some(AssignmentsUrl);
    var i := 0;
    sent := [];
    while Truthy(url)
      invariant i <= last + 1
      invariant Truthy(url) <==> i <= last
      invariant forall j :: 0 <= j < i ==> replies[j].Ok?
      invariant Truthy(url) ==> url.value == RequestedUrl(replies, i)
      invariant sent == AssignmentRequests(replies)[..i]
      invariant knownItemIds == Flatten(PagesIds(replies, i))
      decreases last + 1 - i
    {
      sent := sent + [GetAssignments(url.value)];
      var reply := replies[i];
      if reply.HttpError? {
        return Failure(reply.status), sent;
      }
      var page := reply.body;
      var j := 0;
      while j < |page.data|
        invariant j <= |page.data|
        invariant knownItemIds == Flatten(PagesIds(replies, i)) + PageIds(page)[..j]
      {
        knownItemIds := knownItemIds + [page.data[j].subjectId];
        j := j + 1;
      }
      assert PageIds(page)[..j] == PageIds(page);
      FlattenAppend(PagesIds(replies, i), PageIds(page));
      url := page.nextUrl;
      i := i + 1;
    }
    ids := Success(knownItemIds);
  }

  // ---------------------------------------------------------------------------
  // Phase B: `_resolve_vocab_meanings`

  /** The written forms of the vocabulary records among `records`. */
  function VocabIn(records: seq<Subject>): set<string>
  {
    set s | s in records && s.objectKind == VocabularyKind :: s.characters
  }

  /** Position of the first chunk whose reply fails, or `|chunks|` when none does. */
  function FirstFailure(chunks: seq<seq<int>>, subjects: seq<int> -> Reply<seq<Subject>>): (f: nat)
    ensures f <= |chunks|
    ensures forall j :: 0 <= j < f ==> subjects(chunks[j]).Ok?
    ensures f < |chunks| ==> subjects(chunks[f]).HttpError?
  {
    if chunks == [] || subjects(chunks[0]).HttpError? then 0
    else 1 + FirstFailure(chunks[1..], subjects)
  }

  /** Every written form of a vocabulary record in the replies to `chunks`. */
  ghost function VocabOf(chunks: seq<seq<int>>, subjects: seq<int> -> Reply<seq<Subject>>): set<string>
  {
    set c, s | c in chunks && subjects(c).Ok? && s in subjects(c).body && s.objectKind == VocabularyKind
      :: s.characters
  }

  /** One subjects request per chunk, in order. */
  function ChunkRequests(chunks: seq<seq<int>>): seq<Request>
  {
    seq(|chunks|, j requires 0 <= j < |chunks| => GetSubjects(chunks[j]))
  }

  /** What `_resolve_vocab_meanings` returns: the status of the first chunk
      whose reply fails, or the vocabulary of the replies to all chunks. */
  ghost function ResolvedVocab(ids: seq<int>, subjects: seq<int> -> Reply<seq<Subject>>): Result<set<string>>
  {
    var chunks := Chunked(ids, SubjectChunkSize);
    var f := FirstFailure(chunks, subjects);
    if f < |chunks| then Failure(subjects(chunks[f]).status) else Success(VocabOf(chunks, subjects))
  }

  /** The subjects requests sent: every chunk up to and including the first
      whose reply fails. */
  ghost function SubjectRequests(ids: seq<int>, subjects: seq<int> -> Reply<seq<Subject>>): seq<Request>
  {
    var chunks := Chunked(ids, SubjectChunkSize);
    ChunkRequests(chunks[..Min(FirstFailure(chunks, subjects) + 1, |chunks|)])
  }

  lemma VocabOfAppend(chunks: seq<seq<int>>, c: seq<int>, subjects: seq<int> -> Reply<seq<Subject>>)
    requires subjects(c).Ok?
    ensures VocabOf(chunks + [c], subjects) == VocabOf(chunks, subjects) + VocabIn(subjects(c).body)
  {
  }

  /** `_resolve_vocab_meanings(subject_ids)`: the loop over the chunks of 1000
      ids and, per reply, over its records. */
  method ResolveVocabMeanings(subjectIds: seq<int>, subjects: seq<int> -> Reply<seq<Subject>>)
    returns (vocab: Result<set<string>>, sent: seq<Request>)
    ensures vocab == ResolvedVocab(subjectIds, subjects)
    ensures sent == SubjectRequests(subjectIds, subjects)
  {
    var chunks := Chunked(subjectIds, SubjectChunkSize);
    ghost var f := FirstFailure(chunks, subjects);
    var knownVocab: set<string> := {};
    sent := [];
    var i := 0;
    while i < |chunks|
      invariant i <= |chunks| && i <= f
      invariant sent == ChunkRequests(chunks[..i])
      invariant knownVocab == VocabOf(chunks[..i], subjects)
    {
      var chunk := chunks[i];
      sent := sent + [GetSubjects(chunk)];
      assert chunks[..i + 1] == chunks[..i] + [chunk];
      var reply := subjects(chunk);
      if reply.HttpError? {
        return Failure(reply.status), sent;
      }
      var records := reply.body;
      ghost var before := knownVocab;
      var j := 0;
      while j < |records|
        invariant j <= |records|
        invariant knownVocab == before + VocabIn(records[..j])
      {
        assert records[..j + 1] == records[..j] + [records[j]];
        if records[j].objectKind == VocabularyKind {
          knownVocab := knownVocab + {records[j].characters};
        }
        j := j + 1;
      }
      assert records[..j] == records;
      VocabOfAppend(chunks[..i], chunk, subjects);
      i := i + 1;
    }
    assert chunks[..i] == chunks;
    vocab := Success(knownVocab);
  }

  /** The subjects requests of a successful resolution are the chunks of
      `_chunked(ids, 1000)`: together they name every collected id once, in
      order, and there are `ceil(|ids| / 1000)` of them. */
  lemma SubjectRequestsCoverIds(ids: seq<int>, subjects: seq<int> -> Reply<seq<Subject>>)
    requires ResolvedVocab(ids, subjects).Success?
    ensures var sent := SubjectRequests(ids, subjects);
      && |sent| == (|ids| + SubjectChunkSize - 1) / SubjectChunkSize
      && Flatten(seq(|sent|, j requires 0 <= j < |sent| => sent[j].ids)) == ids
      && forall j :: 0 <= j < |sent| ==> sent[j].ids == ids[j * SubjectChunkSize..Min(j * SubjectChunkSize + SubjectChunkSize, |ids|)]
  {
    var chunks := Chunked(ids, SubjectChunkSize);
    var sent := SubjectRequests(ids, subjects);
    assert chunks[..|chunks|] == chunks;
    assert seq(|sent|, j requires 0 <= j < |sent| => sent[j].ids) == chunks;
    FlattenChunked(ids, SubjectChunkSize);
    forall j | 0 <= j < |sent|
      ensures sent[j].ids == ids[j * SubjectChunkSize..Min(j * SubjectChunkSize + SubjectChunkSize, |ids|)]
    {
      ChunkedAt(ids, SubjectChunkSize, j);
    }
  }

  /** An empty id list yields no chunk, hence no subjects request, and an
      empty vocabulary. */
  lemma NoIdsNoSubjectRequests(subjects: seq<int> -> Reply<seq<Subject>>)
    ensures SubjectRequests([], subjects) == []
    ensures ResolvedVocab([], subjects) == Success({})
  {
    var chunks: seq<seq<int>> := [];
    assert Chunked([], SubjectChunkSize) == chunks;
    assert VocabOf(chunks, subjects) == {};
  }

  // ---------------------------------------------------------------------------
  // The cache file and the provider

  /** `set(json.load(f))`: the distinct strings of a cached list. */
  function ElementsOf(xs: seq<string>): set<string>
  {
    set x | x in xs
  }

  predicate Distinct(xs: seq<string>)
  {
    forall i, j :: 0 <= i < j < |xs| ==> xs[i] != xs[j]
  }

  /** Reading a list back into a set never yields more words than the list holds. */
  lemma {:induction false} ElementsOfNoLarger(xs: seq<string>)
    ensures |ElementsOf(xs)| <= |xs|
  {
    if xs != [] {
      ElementsOfNoLarger(xs[1..]);
      assert ElementsOf(xs) == {xs[0]} + ElementsOf(xs[1..]);
    }
  }

  /** `list(known_vocab)`: the words of the set, each once, in some order. */
  method ListOf(words: set<string>) returns (xs: seq<string>)
    ensures ElementsOf(xs) == words
    ensures Distinct(xs) && |xs| == |words|
  {
    xs := [];
    var rest := words;
    while rest != {}
      invariant ElementsOf(xs) + rest == words
      invariant ElementsOf(xs) !! rest
      invariant Distinct(xs) && |xs| + |rest| == |words|
      decreases |rest|
    {
      var w :| w in rest;
      assert ElementsOf(xs + [w]) == ElementsOf(xs) + {w};
      xs := xs + [w];
      rest := rest - {w};
    }
  }

  /** What `_import_wk_known_words` returns: a failure of either loop, or the
      vocabulary resolved from the collected ids. */
  ghost function ImportOutcome(assignments: seq<Reply<AssignmentPage>>, subjects: seq<int> -> Reply<seq<Subject>>): Result<set<string>>
    requires PaginationEnds(assignments)
  {
    match CollectedIds(assignments)
    case Success(ids) => ResolvedVocab(ids, subjects)
    case Failure(status) => Failure(status)
    case CacheWriteFailed => CacheWriteFailed
  }

  /** What `_import_wk_known_words` returns: the outcome of the two loops, unless
      both succeed and the cache file cannot be opened for writing. */
  ghost function ImportResult(assignments: seq<Reply<AssignmentPage>>, subjects: seq<int> -> Reply<seq<Subject>>,
                              writable: bool): Result<set<string>>
    requires PaginationEnds(assignments)
  {
    var outcome := ImportOutcome(assignments, subjects);
    if outcome.Success? && !writable then CacheWriteFailed else outcome
  }

  /** The requests of an import: the assignment pages, then, only if all of
      them passed, the subject chunks. */
  ghost function ImportRequests(assignments: seq<Reply<AssignmentPage>>, subjects: seq<int> -> Reply<seq<Subject>>): seq<Request>
    requires PaginationEnds(assignments)
  {
    AssignmentRequests(assignments) +
      match CollectedIds(assignments)
      case Success(ids) => SubjectRequests(ids, subjects)
      case _ => []
  }

  /** The file at the provider's cache path: `None` while no file exists there,
      otherwise the JSON array of strings it holds. */
  class CacheFile {
    var contents: Option<seq<string>>
    /** Whether `open(cache_path, "w")` succeeds; it fails, for one, while the
        parent directory is missing, and the provider never creates it. */
    const writable: bool

    constructor (contents: Option<seq<string>>, writable: bool)
      ensures this.contents == contents && this.writable == writable
    {
      this.contents := contents;
      this.writable := writable;
    }
  }

  class WanikaniKnownWordsProvider {
    const apiKey: string
    const cachePath: string
    /** The file found at `cachePath`. */
    const cache: CacheFile

    constructor (apiKey: string, cache: CacheFile, cachePath: string := DefaultCachePath)
      ensures this.apiKey == apiKey && this.cachePath == cachePath && this.cache == cache
    {
      this.apiKey := apiKey;
      this.cachePath := cachePath;
      this.cache := cache;
    }

    /** `get_known_words(use_cache)`: the cached words when caching is on and
        the file exists, without any request; otherwise a full import. */
    method GetKnownWords(assignments: seq<Reply<AssignmentPage>>, subjects: seq<int> -> Reply<seq<Subject>>,
                         useCache: bool := true)
      returns (words: Result<set<string>>, sent: seq<Request>)
      requires !(useCache && cache.contents.Some?) ==> PaginationEnds(assignments)
      modifies cache
      ensures useCache && old(cache.contents).Some? ==>
        && words == Success(ElementsOf(old(cache.contents).value))
        && sent == []
        && cache.contents == old(cache.contents)
      ensures !(useCache && old(cache.contents).Some?) ==>
        && words == ImportResult(assignments, subjects, cache.writable)
        && sent == ImportRequests(assignments, subjects)
        && (!words.Success? ==> cache.contents == old(cache.contents))
        && (words.Success? ==>
              && cache.contents.Some?
              && ElementsOf(cache.contents.value) == words.value
              && Distinct(cache.contents.value))
    {
      if useCache && cache.contents.Some? {
        words, sent := Success(ElementsOf(cache.contents.value)), [];
        return;
      }
      words, sent := ImportKnownWords(assignments, subjects);
    }

    /** `_import_wk_known_words()`: both loops, then the cache write. A failing
        reply in either loop, or a cache file that cannot be opened for writing,
        leaves the cache as it was; a successful import overwrites it with the
        resolved words, each once, so that the next cached read returns the
        same set. */
    method ImportKnownWords(assignments: seq<Reply<AssignmentPage>>, subjects: seq<int> -> Reply<seq<Subject>>)
      returns (words: Result<set<string>>, sent: seq<Request>)
      requires PaginationEnds(assignments)
      modifies cache
      ensures words == ImportResult(assignments, subjects, cache.writable)
      ensures sent == ImportRequests(assignments, subjects)
      ensures !words.Success? ==> cache.contents == old(cache.contents)
      ensures words.Success? ==>
        && cache.contents.Some?
        && ElementsOf(cache.contents.value) == words.value
        && Distinct(cache.contents.value)
    {
      var ids, pagesSent := CollectSubjectIds(assignments);
      if ids.Failure? {
        return Failure(ids.status), pagesSent;
      }
      var vocab, chunksSent := ResolveVocabMeanings(ids.value, subjects);
      sent := pagesSent + chunksSent;
      if vocab.Failure? {
        return vocab, sent;
      }
      if !cache.writable {
        return CacheWriteFailed, sent;
      }
      var listed := ListOf(vocab.value);
      cache.contents := Some(listed);
      words := vocab;
    }
  }

  /** Cache round trip: after an import that bypasses the cache and succeeds,
      a cached call sends no request and returns the same words. */
  method ImportThenReadCache(provider: WanikaniKnownWordsProvider,
                             assignments: seq<Reply<AssignmentPage>>, subjects: seq<int> -> Reply<seq<Subject>>)
    returns (imported: Result<set<string>>, cached: Result<set<string>>, sent: seq<Request>)
    requires PaginationEnds(assignments)
    modifies provider.cache
    ensures imported == ImportResult(assignments, subjects, provider.cache.writable)
    ensures imported.Success? ==> cached == imported && sent == []
  {
    var importSent;
    imported, importSent := provider.GetKnownWords(assignments, subjects, false);
    cached, sent := provider.GetKnownWords(assignments, subjects);
  }

  // ---------------------------------------------------------------------------
  // Properties of the pagination and worked examples

  lemma {:induction false} PagesIdsAgree(a: seq<Reply<AssignmentPage>>, b: seq<Reply<AssignmentPage>>, n: nat)
    requires n <= |a| && n <= |b| && a[..n] == b[..n]
    requires forall j :: 0 <= j < n ==> a[j].Ok?
    ensures PagesIds(a, n) == PagesIds(b, n)
  {
    if n > 0 {
      assert a[..n - 1] == a[..n][..n - 1] && b[..n - 1] == b[..n][..n - 1];
      assert a[n - 1] == a[..n][n - 1] && b[n - 1] == b[..n][n - 1];
      PagesIdsAgree(a, b, n - 1);
    }
  }

  /** Pagination stops exactly at the first reply that fails or whose `next_url`
      is falsy: whatever the server would have answered afterwards changes
      neither the ids collected nor the requests sent. */
  lemma StopsAtFirstFalsyNextUrl(replies: seq<Reply<AssignmentPage>>, later: seq<Reply<AssignmentPage>>)
    requires PaginationEnds(replies)
    ensures var k := LastRequest(replies);
      && PaginationEnds(replies[..k + 1] + later)
      && LastRequest(replies[..k + 1] + later) == k
      && CollectedIds(replies[..k + 1] + later) == CollectedIds(replies)
      && AssignmentRequests(replies[..k + 1] + later) == AssignmentRequests(replies)
  {
    var k := LastRequest(replies);
    var other := replies[..k + 1] + later;
    assert other[k] == replies[k];
    assert PaginationEnds(other);
    var k' := LastRequest(other);
    assert forall j :: 0 <= j <= k ==> other[j] == replies[j];
    assert k' == k;
    if replies[k].Ok? {
      assert other[..k + 1] == replies[..k + 1];
      PagesIdsAgree(other, replies, k + 1);
    }
  }

  /** Two pages, of three ids with a next page and of two ids with a null
      `next_url`: two requests, and the five ids in order. */
  lemma TwoPagesExample()
    ensures var replies := [
        Ok(AssignmentPage([Assignment(11), Assignment(12), Assignment(13)], Some("page-2"))),
        Ok(AssignmentPage([Assignment(14), Assignment(11)], None))];
      && PaginationEnds(replies)
      && AssignmentRequests(replies) == [GetAssignments(AssignmentsUrl), GetAssignments("page-2")]
      && CollectedIds(replies) == Success([11, 12, 13, 14, 11])
  {
    var replies := [
        Ok(AssignmentPage([Assignment(11), Assignment(12), Assignment(13)], Some("page-2"))),
        Ok(AssignmentPage([Assignment(14), Assignment(11)], None))];
    assert EndsPagination(replies[1]);
    assert LastRequest(replies) == 1;
    assert PageIds(replies[0].body) == [11, 12, 13];
    assert PageIds(replies[1].body) == [14, 11];
    assert PagesIds(replies, 2) == [[11, 12, 13], [14, 11]];
    assert PagesIds(replies, 1) == [[11, 12, 13]];
    var pages: seq<seq<int>> := [[11, 12, 13], [14, 11]];
    assert pages[1..] == [[14, 11]] && pages[1..][1..] == [];
    assert Flatten(pages[1..]) == [14, 11];
    assert Flatten(pages) == [11, 12, 13] + [14, 11] == [11, 12, 13, 14, 11];
    assert CollectedIds(replies) == Success(Flatten(PagesIds(replies, 2)));
  }

  /** 1500 ids whose chunks all resolve are requested in two chunks, of 1000
      and of 500 ids. */
  lemma FifteenHundredIdsExample(ids: seq<int>, subjects: seq<int> -> Reply<seq<Subject>>)
    requires |ids| == 1500 && forall c :: subjects(c).Ok?
    ensures var sent := SubjectRequests(ids, subjects);
      |sent| == 2 && sent[0] == GetSubjects(ids[..1000]) && sent[1] == GetSubjects(ids[1000..])
  {
    var chunks := Chunked(ids, SubjectChunkSize);
    assert |chunks| == 2;
    assert FirstFailure(chunks, subjects) == 2;
    ChunkedAt(ids, SubjectChunkSize, 0);
    ChunkedAt(ids, SubjectChunkSize, 1);
  }

  /** Records of another kind contribute nothing: when the one chunk of up to
      1000 ids gets a reply with a vocabulary record "犬" and a kanji record,
      the resolution yields just {"犬"}. */
  lemma VocabularyOnlyExample(ids: seq<int>, subjects: seq<int> -> Reply<seq<Subject>>)
    requires 0 < |ids| <= SubjectChunkSize
    requires subjects(ids) == Ok([Subject(VocabularyKind, "犬"), Subject("kanji", "大")])
    ensures ResolvedVocab(ids, subjects) == Success({"犬"})
  {
    var chunks := Chunked(ids, SubjectChunkSize);
    assert |chunks| == 1;
    ChunkedAt(ids, SubjectChunkSize, 0);
    assert Min(0 * SubjectChunkSize + SubjectChunkSize, |ids|) == |ids|;
    assert ids[0 * SubjectChunkSize..|ids|] == ids;
    assert chunks == [ids];
    assert FirstFailure(chunks, subjects) == 1;
    var records := subjects(ids).body;
    assert records[0] in records;
    assert VocabOf(chunks, subjects) == VocabIn(records);
    assert VocabIn(records) == {"犬"};
  }

  /** A cache file holding ["a", "a", "b"] is read as {"a", "b"}. */
  lemma CachedDuplicatesCollapseExample()
    ensures ElementsOf(["a", "a", "b"]) == {"a", "b"}
  {
  }
}
