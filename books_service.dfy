/** The wired BooksService: cache-aside external search (OpenLibrary results are
    normalised, upserted and cached) and cache-aside local search over the
    repository, each publishing one search event per uncached request. The pure
    functions state each request as a transition of the service's observable
    state; the class runs the same steps through the repository, the cache and
    the publisher. */
module BooksService {
  import opened Common
  import opened Books
  import opened BookStore
  import opened BookQuery
  import opened Pagination
  import opened SearchDto
  import opened KeyValue
  import opened BooksCache
  import opened Events
  import Repo = BooksRepository
  import opened Json

  const ProcessFailedMessage: string := "Failed to process books from OpenLibrary"
  const SaveFailedMessage: string := "Failed to save book"

  /** What the service's collaborators hold: the books collection, the cache
      entries and the messages handed to the broker. */
  datatype State = State(docs: seq<Book>, nextId: nat, cache: map<string, Entry>, emits: seq<Emission>)

  /** The state after a request and what the request returns or throws. */
  datatype Step<T> = Step(state: State, result: Result<T>)

  /** `searchAndSaveBooks(query)` as a transition. `fetch` is what OpenLibrary
      answers, `saveFailures` the positions of the records whose upsert the store
      rejects, `elapsed` the measured duration, `now` the publish time and
      `brokerUp` whether the broker accepts the event. */
  function SearchAndSave(st: State, query: string, fetch: FetchResponse, saveFailures: set<nat>,
                         elapsed: int, now: int, brokerUp: bool): (s: Step<seq<Book>>)
    requires Wellformed(st.docs, st.nextId)
  {
    match SearchIn(st.cache, query)
    case Some(cached) => Step(st, Ok(cached.items))
    case None =>
      match fetch
      case FetchFailed(_) =>
        var e := SearchOutcomeEvent(ExternalSearch, query, 0, elapsed, now, Some(ProcessFailedMessage));
        Step(st.(emits := Published(st.emits, e, now, brokerUp)), Err(BadRequest(ProcessFailedMessage)))
      case Fetched(docs) =>
        var b := UpsertBatch(st.docs, st.nextId, NormalizeDocs(docs), saveFailures);
        if b.failed then
          var e := SearchOutcomeEvent(ExternalSearch, query, 0, elapsed, now, Some(SaveFailedMessage));
          Step(State(b.docs, b.nextId, st.cache, Published(st.emits, e, now, brokerUp)), Err(BadRequest(SaveFailedMessage)))
        else
          var e := SearchOutcomeEvent(ExternalSearch, query, |b.books|, elapsed, now, None);
          var results := SearchResponse(b.books, |b.books|, 1, 1, |b.books|);
          Step(State(b.docs, b.nextId, WithSearch(st.cache, query, results), Published(st.emits, e, now, brokerUp)), Ok(b.books))
  }

  /** A cache hit returns the cached items and touches nothing: no fetch, no
      upsert, no cache write, no event, whatever OpenLibrary or the stores would do. */
  lemma ExternalHitChangesNothing(st: State, query: string, fetch: FetchResponse, saveFailures: set<nat>,
                                  elapsed: int, now: int, brokerUp: bool,
                                  fetch2: FetchResponse, saveFailures2: set<nat>, elapsed2: int, now2: int, brokerUp2: bool)
    requires Wellformed(st.docs, st.nextId) && SearchIn(st.cache, query).Some?
    ensures SearchAndSave(st, query, fetch, saveFailures, elapsed, now, brokerUp)
         == Step(st, Ok(SearchIn(st.cache, query).value.items))
    ensures SearchAndSave(st, query, fetch, saveFailures, elapsed, now, brokerUp)
         == SearchAndSave(st, query, fetch2, saveFailures2, elapsed2, now2, brokerUp2)
  {
  }

  /** Every uncached request publishes exactly one EXTERNAL_SEARCH event: on
      success with the number of books, on failure with 0 and the error's message. */
  lemma ExternalMissPublishesOnce(st: State, query: string, fetch: FetchResponse, saveFailures: set<nat>,
                                  elapsed: int, now: int, brokerUp: bool)
    requires Wellformed(st.docs, st.nextId) && SearchIn(st.cache, query).None?
    ensures var s := SearchAndSave(st, query, fetch, saveFailures, elapsed, now, brokerUp);
      var n := if s.result.Ok? then |s.result.value| else 0;
      var err := if s.result.Err? then Some(s.result.error.message) else None;
      s.state.emits == Published(st.emits, SearchOutcomeEvent(ExternalSearch, query, n, elapsed, now, err), now, brokerUp)
  {
  }

  /** A successful miss caches `{ items: books, total, page: 1, pages: 1, limit }`
      under the query with TTL 3600, stores a document for every record and
      returns, per OpenLibrary document, the stored book carrying its fields. */
  lemma ExternalSuccessCachesResults(st: State, query: string, fetch: FetchResponse, saveFailures: set<nat>,
                                     elapsed: int, now: int, brokerUp: bool)
    requires Wellformed(st.docs, st.nextId) && SearchIn(st.cache, query).None?
    requires SearchAndSave(st, query, fetch, saveFailures, elapsed, now, brokerUp).result.Ok?
    ensures var s := SearchAndSave(st, query, fetch, saveFailures, elapsed, now, brokerUp);
      var books := s.result.value;
      && fetch.Fetched?
      && |books| == |fetch.docs|
      && s.state.cache == WithSearch(st.cache, query, SearchResponse(books, |books|, 1, 1, |books|))
      && SearchIn(s.state.cache, query) == Some(SearchResponse(books, |books|, 1, 1, |books|))
      && Wellformed(s.state.docs, s.state.nextId)
      && (forall i :: 0 <= i < |books| ==> Carries(books[i], ToCreateBookDto(fetch.docs[i])))
      && (forall i :: 0 <= i < |fetch.docs| ==> Stored(s.state.docs, fetch.docs[i].key))
  {
    var dtos := NormalizeDocs(fetch.docs);
    BatchReturnsEveryRecord(st.docs, st.nextId, dtos, saveFailures);
    BatchStoresEveryRecord(st.docs, st.nextId, dtos, saveFailures);
    BatchFailsIffSomeRecordFails(st.docs, st.nextId, dtos, saveFailures);
  }

  /** An OpenLibrary failure ends as "Failed to process books from OpenLibrary"
      with the collection and the cache untouched; a rejected upsert ends as
      "Failed to save book" with the cache untouched, while every other record of
      the batch is still written. */
  lemma ExternalFailures(st: State, query: string, fetch: FetchResponse, saveFailures: set<nat>,
                         elapsed: int, now: int, brokerUp: bool)
    requires Wellformed(st.docs, st.nextId) && SearchIn(st.cache, query).None?
    ensures var s := SearchAndSave(st, query, fetch, saveFailures, elapsed, now, brokerUp);
      && (fetch.FetchFailed? ==>
            s.result == Err(BadRequest(ProcessFailedMessage)) && s.state.docs == st.docs && s.state.cache == st.cache)
      && (fetch.Fetched? && (exists i :: 0 <= i < |fetch.docs| && i in saveFailures) ==>
            && s.result == Err(BadRequest(SaveFailedMessage))
            && s.state.cache == st.cache
            && forall i :: 0 <= i < |fetch.docs| && i !in saveFailures ==> Stored(s.state.docs, fetch.docs[i].key))
  {
    if fetch.Fetched? {
      var dtos := NormalizeDocs(fetch.docs);
      BatchFailsIffSomeRecordFails(st.docs, st.nextId, dtos, saveFailures);
      BatchStoresEveryRecord(st.docs, st.nextId, dtos, saveFailures);
    }
  }

  /** Whether the broker takes the event changes neither the result, nor the
      collection, nor the cache. */
  lemma ExternalIgnoresBroker(st: State, query: string, fetch: FetchResponse, saveFailures: set<nat>,
                              elapsed: int, now: int)
    requires Wellformed(st.docs, st.nextId)
    ensures var up := SearchAndSave(st, query, fetch, saveFailures, elapsed, now, true);
      var down := SearchAndSave(st, query, fetch, saveFailures, elapsed, now, false);
      && up.result == down.result
      && up.state.docs == down.state.docs && up.state.nextId == down.state.nextId
      && up.state.cache == down.state.cache
  {
  }

  /** `JSON.stringify(value)` for each property of a SearchBooksDto. */
  function OptionalMember(key: string, value: Option<string>): seq<string> {
    if value.Some? then [Member(key, value.value)] else []
  }

  /** The members of `JSON.stringify(searchDto)`: the properties present on the
      validated DTO instance, the initialised `page` and `limit` first. */
  function DtoMembers(dto: SearchBooksDto): seq<string> {
    OptionalMember("page", if dto.page.Some? then Some(IntText(dto.page.value)) else None)
    + OptionalMember("limit", if dto.limit.Some? then Some(IntText(dto.limit.value)) else None)
    + OptionalMember("q", if dto.q.Some? then Some(Quote(dto.q.value)) else None)
    + OptionalMember("author", if dto.author.Some? then Some(Quote(dto.author.value)) else None)
    + OptionalMember("year", if dto.year.Some? then Some(IntText(dto.year.value)) else None)
    + OptionalMember("isbn", if dto.isbn.Some? then Some(Quote(dto.isbn.value)) else None)
    + OptionalMember("sortBy", if dto.sortBy.Some? then Some(Quote(dto.sortBy.value)) else None)
    + OptionalMember("order", if dto.order.Some? then Some(Quote(if dto.order.value == Asc then "asc" else "desc")) else None)
  }

  /** `JSON.stringify(searchDto)`, the local search's cache key. */
  function DtoKey(dto: SearchBooksDto): (key: string)
    ensures |key| >= 2 && key[0] == '{' && key[|key| - 1] == '}'
  {
    Object(DtoMembers(dto))
  }

  /** External and local results share the `search:` key space: a local key is a
      JSON object, so only an external query that itself starts with `{` can
      meet one. */
  lemma LocalKeysMeetOnlyBraceQueries(query: string, dto: SearchBooksDto)
    requires query == [] || query[0] != '{'
    ensures SearchKey(query) != SearchKey(DtoKey(dto))
  {
    var k := DtoKey(dto);
    if query == [] {
      assert |SearchKey(query)| < |SearchKey(k)|;
    } else {
      assert SearchKey(query)[|SearchKeyPrefix|] == query[0];
      assert SearchKey(k)[|SearchKeyPrefix|] == k[0];
    }
  }

  /** `searchStoredBooks(searchDto)` as a transition. `readFailure` is an error the
      repository's query raises. */
  function SearchStored(st: State, dto: SearchBooksDto, engine: TextEngine, readFailure: Option<string>,
                        elapsed: int, now: int, brokerUp: bool): (s: Step<SearchResponse<Book>>)
    requires dto.Valid()
  {
    match SearchIn(st.cache, DtoKey(dto))
    case Some(cached) => Step(st, Ok(cached))
    case None => StoredMiss(st, dto, engine, readFailure, elapsed, now, brokerUp)
  }

  /** The uncached part of `searchStoredBooks`: query, cache, publish. */
  function StoredMiss(st: State, dto: SearchBooksDto, engine: TextEngine, readFailure: Option<string>,
                      elapsed: int, now: int, brokerUp: bool): (s: Step<SearchResponse<Book>>)
    requires dto.Valid()
  {
    if readFailure.Some? then
      var e := SearchOutcomeEvent(LocalSearch, OrEmpty(dto.q), 0, elapsed, now, readFailure);
      Step(st.(emits := Published(st.emits, e, now, brokerUp)), Err(Rejected(readFailure.value)))
    else
      var results := Repo.SearchDocs(st.docs, dto, engine);
      var e := SearchOutcomeEvent(LocalSearch, OrEmpty(dto.q), results.total, elapsed, now, None);
      Step(st.(cache := WithSearch(st.cache, DtoKey(dto), results), emits := Published(st.emits, e, now, brokerUp)), Ok(results))
  }

  /** A local cache hit returns the cached response and touches nothing. */
  lemma LocalHitChangesNothing(st: State, dto: SearchBooksDto, engine: TextEngine, readFailure: Option<string>,
                               elapsed: int, now: int, brokerUp: bool)
    requires dto.Valid() && SearchIn(st.cache, DtoKey(dto)).Some?
    ensures SearchStored(st, dto, engine, readFailure, elapsed, now, brokerUp) == Step(st, Ok(SearchIn(st.cache, DtoKey(dto)).value))
  {
  }

  /** A local miss returns the repository's result unchanged and caches it under
      the DTO's key, publishing one LOCAL_SEARCH event with `resultsCount = total`;
      a read error is published and rethrown as it was, with the cache untouched.
      The collection never changes. */
  lemma LocalMissOutcome(st: State, dto: SearchBooksDto, engine: TextEngine, readFailure: Option<string>,
                         elapsed: int, now: int, brokerUp: bool)
    requires dto.Valid() && SearchIn(st.cache, DtoKey(dto)).None?
    ensures var s := SearchStored(st, dto, engine, readFailure, elapsed, now, brokerUp);
      var results := Repo.SearchDocs(st.docs, dto, engine);
      && s.state.docs == st.docs && s.state.nextId == st.nextId
      && (readFailure.None? ==>
            && s.result == Ok(results)
            && s.state.cache == WithSearch(st.cache, DtoKey(dto), results)
            && s.state.emits == Published(st.emits, SearchOutcomeEvent(LocalSearch, OrEmpty(dto.q), results.total, elapsed, now, None), now, brokerUp))
      && (readFailure.Some? ==>
            && s.result == Err(Rejected(readFailure.value))
            && s.state.cache == st.cache
            && s.state.emits == Published(st.emits, SearchOutcomeEvent(LocalSearch, OrEmpty(dto.q), 0, elapsed, now, readFailure), now, brokerUp))
  {
  }

  class BooksService {
    const repository: Repo.BooksRepository
    const cache: BooksCacheService
    const events: BooksEventsService

    constructor (repository: Repo.BooksRepository, cache: BooksCacheService, events: BooksEventsService)
      ensures this.repository == repository && this.cache == cache && this.events == events
    {
      this.repository := repository;
      this.cache := cache;
      this.events := events;
    }

    ghost predicate Valid()
      reads this, repository, repository.collection, cache, cache.store
    {
      repository.collection.Valid() && cache.Valid()
    }

    ghost function Snapshot(): State
      reads this, repository, repository.collection, cache, cache.store, events, events.channel
    {
      State(repository.collection.docs, repository.collection.nextId, cache.store.entries, events.channel.emits)
    }

    /** `processAndSaveBook(dto)`: the repository's upsert, a failure rethrown as
        "Failed to save book". */
    method ProcessAndSaveBook(dto: CreateBookDto, fails: bool) returns (r: Result<Book>)
      requires repository.collection.Valid()
      modifies repository.collection
      ensures repository.collection.Valid()
      ensures fails ==> (r == Err(BadRequest(SaveFailedMessage))
        && repository.collection.docs == old(repository.collection.docs)
        && repository.collection.nextId == old(repository.collection.nextId))
      ensures !fails ==>
        var u := BookStore.Upsert(old(repository.collection.docs), old(repository.collection.nextId), dto);
        r == Ok(u.book) && repository.collection.docs == u.docs && repository.collection.nextId == u.nextId
    {
      r := repository.Upsert(dto, fails);
      if r.Err? {
        r := Err(BadRequest(SaveFailedMessage));
      }
    }

    /** `fetchAndProcessBooks(query)`: every normalised record is upserted; any
        rejected write fails the whole call after the others are written. */
    method FetchAndProcessBooks(fetch: FetchResponse, saveFailures: set<nat>) returns (r: Result<seq<Book>>)
      requires repository.collection.Valid()
      modifies repository.collection
      ensures repository.collection.Valid()
      ensures fetch.FetchFailed? ==> (r == Err(BadRequest(ProcessFailedMessage))
        && repository.collection.docs == old(repository.collection.docs)
        && repository.collection.nextId == old(repository.collection.nextId))
      ensures fetch.Fetched? ==>
        var b := UpsertBatch(old(repository.collection.docs), old(repository.collection.nextId), NormalizeDocs(fetch.docs), saveFailures);
        && repository.collection.docs == b.docs && repository.collection.nextId == b.nextId
        && r == (if b.failed then Err(BadRequest(SaveFailedMessage)) else Ok(b.books))
    {
      if fetch.FetchFailed? {
        return Err(BadRequest(ProcessFailedMessage));
      }
      var dtos := NormalizeDocs(fetch.docs);
      ghost var docs0, nextId0 := repository.collection.docs, repository.collection.nextId;
      var books: seq<Book> := [];
      var failed := false;
      var i := 0;
      while i < |dtos|
        invariant 0 <= i <= |dtos|
        invariant repository.collection.Valid()
        invariant Batch(repository.collection.docs, repository.collection.nextId, books, failed)
               == UpsertBatch(docs0, nextId0, dtos[..i], saveFailures)
      {
        BatchExtends(docs0, nextId0, dtos, i, saveFailures);
        var saved := ProcessAndSaveBook(dtos[i], i in saveFailures);
        if saved.Ok? {
          books := books + [saved.value];
        } else {
          failed := true;
        }
        i := i + 1;
      }
      assert dtos[..i] == dtos;
      if failed {
        return Err(BadRequest(SaveFailedMessage));
      }
      r := Ok(books);
    }

    /** `searchAndSaveBooks(query)` */
    method SearchAndSaveBooks(query: string, fetch: FetchResponse, saveFailures: set<nat>,
                              elapsed: int, now: int, brokerUp: bool) returns (r: Result<seq<Book>>)
      requires Valid()
      modifies repository.collection, cache.store, events.channel
      ensures Valid()
      ensures Snapshot() == SearchAndSave(old(Snapshot()), query, fetch, saveFailures, elapsed, now, brokerUp).state
      ensures r == SearchAndSave(old(Snapshot()), query, fetch, saveFailures, elapsed, now, brokerUp).result
    {
      var cached := cache.GetSearchResults(query);
      if cached.Some? {
        return Ok(cached.value.items);
      }
      var books := FetchAndProcessBooks(fetch, saveFailures);
      if books.Err? {
        var e := SearchOutcomeEvent(ExternalSearch, query, 0, elapsed, now, Some(books.error.message));
        events.PublishSearchEvent(e, now, brokerUp);
        return books;
      }
      cache.SetSearchResults(query, SearchResponse(books.value, |books.value|, 1, 1, |books.value|));
      var e := SearchOutcomeEvent(ExternalSearch, query, |books.value|, elapsed, now, None);
      events.PublishSearchEvent(e, now, brokerUp);
      r := books;
    }

    /** `searchStoredBooks(searchDto)` */
    method SearchStoredBooks(dto: SearchBooksDto, engine: TextEngine, readFailure: Option<string>,
                             elapsed: int, now: int, brokerUp: bool) returns (r: Result<SearchResponse<Book>>)
      requires Valid() && dto.Valid()
      modifies cache.store, events.channel
      ensures Valid()
      ensures Snapshot() == SearchStored(old(Snapshot()), dto, engine, readFailure, elapsed, now, brokerUp).state
      ensures r == SearchStored(old(Snapshot()), dto, engine, readFailure, elapsed, now, brokerUp).result
    {
      var cached := cache.GetSearchResults(DtoKey(dto));
      if cached.Some? {
        return Ok(cached.value);
      }
      r := QueryCacheAndPublish(dto, engine, readFailure, elapsed, now, brokerUp);
    }

    /** The uncached part of `searchStoredBooks`. */
    method QueryCacheAndPublish(dto: SearchBooksDto, engine: TextEngine, readFailure: Option<string>,
                                elapsed: int, now: int, brokerUp: bool) returns (r: Result<SearchResponse<Book>>)
      requires Valid() && dto.Valid()
      modifies cache.store, events.channel
      ensures Valid()
      ensures Snapshot() == StoredMiss(old(Snapshot()), dto, engine, readFailure, elapsed, now, brokerUp).state
      ensures r == StoredMiss(old(Snapshot()), dto, engine, readFailure, elapsed, now, brokerUp).result
    {
      if readFailure.Some? {
        var e := SearchOutcomeEvent(LocalSearch, OrEmpty(dto.q), 0, elapsed, now, readFailure);
        events.PublishSearchEvent(e, now, brokerUp);
        return Err(Rejected(readFailure.value));
      }
      var results := Repo.SearchDocs(repository.collection.docs, dto, engine);
      cache.SetSearchResults(DtoKey(dto), results);
      var e := SearchOutcomeEvent(LocalSearch, OrEmpty(dto.q), results.total, elapsed, now, None);
      events.PublishSearchEvent(e, now, brokerUp);
      r := Ok(results);
    }
  }
}
