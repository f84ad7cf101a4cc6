/** The legacy BooksService: the same cache-aside external import and local search
    written directly against the book model, the cache manager, the metrics
    recorder and the pass-through publisher, plus `getAllBooks` and
    `getBookById`. Every value it returns may come out of the cache, whose entries
    are untyped, so each request answers with a cached value. */
module LegacyBooksService {
  import opened Common
  import opened Books
  import opened BookStore
  import opened BookQuery
  import opened Pagination
  import opened Sorting
  import opened SearchDto
  import opened KeyValue
  import opened BooksCache
  import opened Events
  import opened Metrics
  import opened Json

  const FetchFailedMessage: string := "Failed to fetch data from OpenLibrary"
  const ProcessFailedMessage: string := "Failed to process and save books"
  const SaveToDatabaseFailedMessage: string := "Failed to save book to database"
  const FetchBooksFailedMessage: string := "Failed to fetch books"
  const FetchBookFailedMessage: string := "Failed to fetch book"
  const BookNotFoundMessage: string := "Book not found"
  const SearchFailedMessage: string := "Failed to search books"

  const AllBooksKey: string := "all-books"
  /** TTL of the external results, the book list and single books. */
  const LongTtl: nat := 3600
  /** TTL of local search results. */
  const ShortTtl: nat := 300

  /** What the service's collaborators hold: the books collection, the cache
      manager's entries, the messages handed to the broker and the metric series. */
  datatype State = State(docs: seq<Book>, nextId: nat, cache: map<string, Entry>,
                         emits: seq<Emission>, series: map<string, Series>)

  /** The state after a request and what it returns or throws. */
  datatype Step = Step(state: State, result: Result<CachedValue>)

  /** The three key spaces of the cache manager never meet. */
  lemma LegacyKeySpacesDisjoint(id: string, query: string)
    ensures AllBooksKey != BookKey(id) && AllBooksKey != SearchKey(query) && BookKey(id) != SearchKey(query)
  {
    PrefixesDisagree(AllBooksKey, BookKeyPrefix, 0, [], id);
    PrefixesDisagree(AllBooksKey, SearchKeyPrefix, 0, [], query);
    KeySpacesDisjoint(id, query);
  }

  /** `Promise.all([recordSearchDuration(op, elapsed), publishSearchEvent(event)])`:
      one point at `now` unless the metric store fails, and one message on
      `book.search.executed` carrying the event unchanged. */
  function Record(st: State, metric: MetricOperation, event: SearchEvent,
                  elapsed: int, now: int, metricFailure: Option<string>, brokerUp: bool): (s: State)
    ensures s.docs == st.docs && s.nextId == st.nextId && s.cache == st.cache
  {
    st.(series := if metricFailure.None? then WithPoint(st.series, SeriesKey(metric), Point(now, elapsed)) else st.series,
        emits := st.emits + [Emission(LegacySearchPattern, event, brokerUp)])
  }

  /** A `catch` block: record the failure with the error's message, then throw
      `thrown`, unless recording itself rejects, whose error then escapes instead. */
  function Caught(st: State, metric: MetricOperation, op: Operation, query: string, elapsed: int, now: int,
                  metricFailure: Option<string>, brokerUp: bool, message: string, thrown: Error): (s: Step)
    ensures s.result.Err?
  {
    var e := SearchOutcomeEvent(op, query, 0, elapsed, now, Some(message));
    Step(Record(st, metric, e, elapsed, now, metricFailure, brokerUp),
         Err(if metricFailure.Some? then Rejected(metricFailure.value) else thrown))
  }

  /** The end of a successful request: record the success, then return `value`;
      a rejected metric falls into the `catch` with the metric's own error. */
  function Succeeded(st: State, metric: MetricOperation, op: Operation, query: string, count: int, elapsed: int, now: int,
                     metricFailure: Option<string>, brokerUp: bool, value: CachedValue, thrown: Error): Step
  {
    var recorded := Record(st, metric, SearchOutcomeEvent(op, query, count, elapsed, now, None), elapsed, now, metricFailure, brokerUp);
    if metricFailure.None? then Step(recorded, Ok(value))
    else Caught(recorded, metric, op, query, elapsed, now, metricFailure, brokerUp, metricFailure.value, thrown)
  }

  /** `searchAndSaveBooks(query)` as a transition. `fetch` is what OpenLibrary
      answers, `saveFailures` the positions of the records whose upsert the model
      rejects and `metricFailure` an error every metric write raises. */
  function SearchAndSave(st: State, query: string, fetch: FetchResponse, saveFailures: set<nat>,
                         metricFailure: Option<string>, elapsed: int, now: int, brokerUp: bool): Step
    requires Wellformed(st.docs, st.nextId)
  {
    var key := SearchKey(query);
    if key in st.cache then Step(st, Ok(st.cache[key].value))
    else
      match fetch
      case FetchFailed(_) =>
        Caught(st, ExternalSearchMetric, ExternalSearch, query, elapsed, now, metricFailure, brokerUp,
               FetchFailedMessage, BadRequest(FetchFailedMessage))
      case Fetched(docs) =>
        var b := UpsertBatch(st.docs, st.nextId, NormalizeDocs(docs), saveFailures);
        var saved := st.(docs := b.docs, nextId := b.nextId);
        if b.failed then
          Caught(saved, ExternalSearchMetric, ExternalSearch, query, elapsed, now, metricFailure, brokerUp,
                 ProcessFailedMessage, BadRequest(ProcessFailedMessage))
        else
          Succeeded(saved.(cache := saved.cache[key := Entry(BookList(b.books), LongTtl)]),
                    ExternalSearchMetric, ExternalSearch, query, |b.books|, elapsed, now, metricFailure, brokerUp,
                    BookList(b.books), Rejected(OrEmpty(metricFailure)))
  }

  /** Whatever is cached under `search:<query>` is returned as it is, and nothing
      is fetched, upserted, cached, measured or published. */
  lemma ExternalHitChangesNothing(st: State, query: string, fetch: FetchResponse, saveFailures: set<nat>,
                                  metricFailure: Option<string>, elapsed: int, now: int, brokerUp: bool)
    requires Wellformed(st.docs, st.nextId) && SearchKey(query) in st.cache
    ensures SearchAndSave(st, query, fetch, saveFailures, metricFailure, elapsed, now, brokerUp)
         == Step(st, Ok(st.cache[SearchKey(query)].value))
  {
  }

  /** A successful miss caches the returned list under `search:<query>` for 3600,
      appends one `external_search` point and publishes one EXTERNAL_SEARCH success
      event with `resultsCount = books.length`; the list holds, per OpenLibrary
      document, the stored book carrying its fields. */
  lemma ExternalSuccess(st: State, query: string, fetch: FetchResponse, saveFailures: set<nat>,
                        elapsed: int, now: int, brokerUp: bool)
    requires Wellformed(st.docs, st.nextId) && SearchKey(query) !in st.cache
    requires SearchAndSave(st, query, fetch, saveFailures, None, elapsed, now, brokerUp).result.Ok?
    ensures var s := SearchAndSave(st, query, fetch, saveFailures, None, elapsed, now, brokerUp);
      && fetch.Fetched? && s.result.value.BookList?
      && var books := s.result.value.books;
      && |books| == |fetch.docs|
      && s.state.cache == st.cache[SearchKey(query) := Entry(BookList(books), LongTtl)]
      && s.state.series == WithPoint(st.series, SeriesKey(ExternalSearchMetric), Point(now, elapsed))
      && s.state.emits == st.emits + [Emission(LegacySearchPattern, SearchOutcomeEvent(ExternalSearch, query, |books|, elapsed, now, None), brokerUp)]
      && (forall i :: 0 <= i < |books| ==> Carries(books[i], ToCreateBookDto(fetch.docs[i])))
      && (forall i :: 0 <= i < |fetch.docs| ==> Stored(s.state.docs, fetch.docs[i].key))
  {
    var dtos := NormalizeDocs(fetch.docs);
    BatchReturnsEveryRecord(st.docs, st.nextId, dtos, saveFailures);
    BatchStoresEveryRecord(st.docs, st.nextId, dtos, saveFailures);
    BatchFailsIffSomeRecordFails(st.docs, st.nextId, dtos, saveFailures);
  }

  /** With the metric store up, a failed miss records one point, publishes one
      failure event with `resultsCount = 0` and the error's message, leaves the
      cache alone and rethrows: "Failed to fetch data from OpenLibrary" when the
      request fails, "Failed to process and save books" when any upsert fails. */
  lemma ExternalFailure(st: State, query: string, fetch: FetchResponse, saveFailures: set<nat>,
                        elapsed: int, now: int, brokerUp: bool)
    requires Wellformed(st.docs, st.nextId) && SearchKey(query) !in st.cache
    requires SearchAndSave(st, query, fetch, saveFailures, None, elapsed, now, brokerUp).result.Err?
    ensures var s := SearchAndSave(st, query, fetch, saveFailures, None, elapsed, now, brokerUp);
      && s.state.cache == st.cache
      && s.state.series == WithPoint(st.series, SeriesKey(ExternalSearchMetric), Point(now, elapsed))
      && s.state.emits == st.emits + [Emission(LegacySearchPattern, SearchOutcomeEvent(ExternalSearch, query, 0, elapsed, now, Some(s.result.error.message)), brokerUp)]
      && (fetch.FetchFailed? ==> s.result.error == BadRequest(FetchFailedMessage))
      && (fetch.Fetched? ==>
            s.result.error == BadRequest(ProcessFailedMessage) && exists i :: 0 <= i < |fetch.docs| && i in saveFailures)
  {
    if fetch.Fetched? {
      BatchFailsIffSomeRecordFails(st.docs, st.nextId, NormalizeDocs(fetch.docs), saveFailures);
    }
  }

  /** When the metric store rejects, the miss ends with the metric's error and no
      point is recorded. A request that otherwise succeeds has already published
      its success event and the `catch` publishes a failure event after it; a
      request that fails publishes its failure event only. */
  lemma ExternalMetricFailure(st: State, query: string, fetch: FetchResponse, saveFailures: set<nat>,
                              metricError: string, elapsed: int, now: int, brokerUp: bool)
    requires Wellformed(st.docs, st.nextId) && SearchKey(query) !in st.cache
    ensures var s := SearchAndSave(st, query, fetch, saveFailures, Some(metricError), elapsed, now, brokerUp);
      var clean := SearchAndSave(st, query, fetch, saveFailures, None, elapsed, now, brokerUp);
      && s.result == Err(Rejected(metricError))
      && s.state.series == st.series
      && s.state.docs == clean.state.docs && s.state.cache == clean.state.cache
      && (clean.result.Ok? ==>
            s.state.emits == clean.state.emits
              + [Emission(LegacySearchPattern, SearchOutcomeEvent(ExternalSearch, query, 0, elapsed, now, Some(metricError)), brokerUp)])
      && (clean.result.Err? ==>
            s.state.emits == st.emits
              + [Emission(LegacySearchPattern, SearchOutcomeEvent(ExternalSearch, query, 0, elapsed, now, Some(clean.result.error.message)), brokerUp)])
  {
    if fetch.Fetched? {
      var b := UpsertBatch(st.docs, st.nextId, NormalizeDocs(fetch.docs), saveFailures);
      var saved := st.(docs := b.docs, nextId := b.nextId);
      if !b.failed {
        var cached := saved.(cache := saved.cache[SearchKey(query) := Entry(BookList(b.books), LongTtl)]);
        var success := SearchOutcomeEvent(ExternalSearch, query, |b.books|, elapsed, now, None);
        assert Record(cached, ExternalSearchMetric, success, elapsed, now, Some(metricError), brokerUp).series == st.series;
      }
    }
  }

  /** `getAllBooks()` as a transition; `readFailure` says whether `find()` fails. */
  function GetAll(st: State, readFailure: bool): Step {
    if AllBooksKey in st.cache then Step(st, Ok(st.cache[AllBooksKey].value))
    else if readFailure then Step(st, Err(BadRequest(FetchBooksFailedMessage)))
    else Step(st.(cache := st.cache[AllBooksKey := Entry(BookList(st.docs), LongTtl)]), Ok(BookList(st.docs)))
  }

  /** A cached list is returned as it is; otherwise every stored book is returned
      and cached under `all-books` for 3600; a failed read caches nothing and ends
      as "Failed to fetch books". Nothing else changes. */
  lemma GetAllOutcome(st: State, readFailure: bool)
    ensures var s := GetAll(st, readFailure);
      && s.state.docs == st.docs && s.state.emits == st.emits && s.state.series == st.series
      && (AllBooksKey in st.cache ==> s == Step(st, Ok(st.cache[AllBooksKey].value)))
      && (AllBooksKey !in st.cache && !readFailure ==>
            s.result == Ok(BookList(st.docs)) && s.state.cache == st.cache[AllBooksKey := Entry(BookList(st.docs), LongTtl)])
      && (AllBooksKey !in st.cache && readFailure ==>
            s.result == Err(BadRequest(FetchBooksFailedMessage)) && s.state.cache == st.cache)
  {
  }

  /** `getBookById(id)` as a transition. `cast` is the ObjectId cast of a string
      (None where `findById` raises a cast error) and `readFailure` says whether
      the read fails. */
  function GetById(st: State, id: string, cast: string -> Option<nat>, readFailure: bool): Step {
    var key := BookKey(id);
    if key in st.cache then Step(st, Ok(st.cache[key].value))
    else if cast(id).None? || readFailure then Step(st, Err(BadRequest(FetchBookFailedMessage)))
    else
      match FindByIdIn(st.docs, cast(id).value)
      case None => Step(st, Err(NotFound(BookNotFoundMessage)))
      case Some(book) => Step(st.(cache := st.cache[key := Entry(BookValue(book), LongTtl)]), Ok(BookValue(book)))
  }

  /** An unknown id ends as NotFound "Book not found", rethrown unchanged and not
      cached; a found book is returned and cached under `book:<id>` for 3600; a
      bad id or a failed read ends as "Failed to fetch book". Only the cache changes. */
  lemma GetByIdOutcome(st: State, id: string, cast: string -> Option<nat>, readFailure: bool)
    requires BookKey(id) !in st.cache
    ensures var s := GetById(st, id, cast, readFailure);
      && s.state.docs == st.docs && s.state.emits == st.emits && s.state.series == st.series
      && ((cast(id).None? || readFailure) ==> s == Step(st, Err(BadRequest(FetchBookFailedMessage))))
      && (cast(id).Some? && !readFailure ==>
            && (s.result == Err(NotFound(BookNotFoundMessage)) <==> forall i :: 0 <= i < |st.docs| ==> st.docs[i].id != cast(id).value)
            && (s.result.Err? ==> s.state.cache == st.cache)
            && (s.result.Ok? ==>
                  && s.result.value.BookValue?
                  && s.result.value.book in st.docs && s.result.value.book.id == cast(id).value
                  && s.state.cache == st.cache[BookKey(id) := Entry(s.result.value, LongTtl)]))
  {
  }

  /** The filter document `searchStoredBooks` builds: one clause per truthy field,
      so an empty `q`, `author` or `isbn` and a `year` of 0 add nothing. */
  function LegacyFilter(dto: SearchBooksDto): BookFilter {
    BookFilter(
      if Truthy(dto.q) then dto.q else None,
      if Truthy(dto.author) then dto.author else None,
      if TruthyNumber(dto.year) then dto.year else None,
      if Truthy(dto.isbn) then dto.isbn else None)
  }

  /** The documents the legacy filter selects: a text match on a truthy `q`, a
      case-insensitive pattern match on some author for a truthy `author`, the
      exact year for a non-zero `year`, and a truthy `isbn` among the isbns. */
  lemma LegacyFilterMeaning(dto: SearchBooksDto, b: Book, engine: TextEngine)
    ensures Matches(LegacyFilter(dto), b, engine) <==>
      && (Truthy(dto.q) ==> engine.textMatch(dto.q.value, b))
      && (Truthy(dto.author) ==> exists a :: a in b.authors && engine.regexMatchesCI(dto.author.value, a))
      && (TruthyNumber(dto.year) ==> b.firstPublishYear == dto.year)
      && (Truthy(dto.isbn) ==> dto.isbn.value in b.isbns)
    ensures !Truthy(dto.q) && !Truthy(dto.author) && !TruthyNumber(dto.year) && !Truthy(dto.isbn) ==> LegacyFilter(dto) == MatchAll
  {
  }

  /** `order === 'asc' ? 1 : -1` */
  function Direction(order: Option<SortOrder>): SortOrder {
    if order == Some(Asc) then Asc else Desc
  }

  /** The sort document `searchStoredBooks` builds. */
  function LegacySort(dto: SearchBooksDto): SortSpec {
    if Truthy(dto.q) && dto.sortBy == Some("relevance") then ByTextScore(dto.q.value)
    else if dto.sortBy == Some("title") then ByTitle(Direction(dto.order))
    else if dto.sortBy == Some("year") then ByYear(Direction(dto.order))
    else Unsorted
  }

  /** Relevance order needs a truthy `q`; `title` and `year` sort descending unless
      `order` is `asc`; any other `sortBy`, `author` included, sorts nothing. */
  lemma LegacySortSelection(dto: SearchBooksDto)
    ensures LegacySort(dto).ByTextScore? <==> Truthy(dto.q) && dto.sortBy == Some("relevance")
    ensures LegacySort(dto).ByTitle? <==> dto.sortBy == Some("title")
    ensures LegacySort(dto).ByYear? <==> dto.sortBy == Some("year")
    ensures (LegacySort(dto).ByTitle? || LegacySort(dto).ByYear?) ==> (LegacySort(dto).order == Asc <==> dto.order == Some(Asc))
    ensures !LegacySort(dto).ByIdDescending?
  {
  }

  /** `JSON.stringify(query)`: the clauses in the order they are added. */
  function FilterJson(f: BookFilter): string {
    Object(
      (if f.text.Some? then [Member("$text", Object([Member("$search", Quote(f.text.value))]))] else [])
      + (if f.authorPattern.Some? then [Member("authors", Object([Member("$regex", Quote(f.authorPattern.value)), Member("$options", Quote("i"))]))] else [])
      + (if f.year.Some? then [Member("firstPublishYear", IntText(f.year.value))] else [])
      + (if f.isbn.Some? then [Member("isbns", Quote(f.isbn.value))] else []))
  }

  function DirectionJson(o: SortOrder): string {
    if o == Asc then "1" else "-1"
  }

  /** `JSON.stringify(sortOptions)` */
  function SortJson(s: SortSpec): string {
    match s
    case Unsorted => Object([])
    case ByTextScore(_) => Object([Member("score", Object([Member("$meta", Quote("textScore"))]))])
    case ByTitle(o) => Object([Member("title", DirectionJson(o))])
    case ByYear(o) => Object([Member("firstPublishYear", DirectionJson(o))])
    case ByIdDescending => Object([Member("_id", "-1")])
  }

  /** `search:${JSON.stringify({ query, sortOptions, page, limit })}` */
  function LocalKey(f: BookFilter, s: SortSpec, page: int, limit: int): (key: string)
    ensures HasPrefix(key, SearchKeyPrefix)
  {
    PrefixedHasPrefix(SearchKeyPrefix, Object([Member("query", FilterJson(f)), Member("sortOptions", SortJson(s)),
                                               Member("page", IntText(page)), Member("limit", IntText(limit))]));
    SearchKey(Object([Member("query", FilterJson(f)), Member("sortOptions", SortJson(s)),
                      Member("page", IntText(page)), Member("limit", IntText(limit))]))
  }

  /** What a validated DTO always carries: `page` and `limit` have initialisers. */
  predicate Paged(dto: SearchBooksDto) {
    dto.Valid() && dto.page.Some? && dto.limit.Some?
  }

  /** The response of an uncached local search: one page of the documents the
      filter selects in the sort's order, their count and the page arithmetic. */
  function LegacyResponse(docs: seq<Book>, dto: SearchBooksDto, engine: TextEngine): (r: SearchResponse<Book>)
    requires Paged(dto)
    ensures r.page == dto.page.value && r.limit == dto.limit.value
    ensures 0 <= r.total <= |docs| && |r.items| <= r.limit
  {
    var page := dto.page.value;
    var limit := dto.limit.value;
    var f := LegacyFilter(dto);
    var total := CountDocs(docs, f, engine);
    SearchResponse(FindDocs(docs, f, LegacySort(dto), Skip(page, limit), limit, engine), total, page, Pages(total, limit), limit)
  }

  /** A page holds at most `limit` selected documents in the sort's order, taken
      from position `(page - 1) * limit`; `total` counts every selected document
      and `pages` is `ceil(total / limit)`. */
  lemma LegacyResponseContents(docs: seq<Book>, dto: SearchBooksDto, engine: TextEngine)
    requires Paged(dto)
    ensures var r := LegacyResponse(docs, dto, engine);
      var selected := FilterDocs(docs, LegacyFilter(dto), engine);
      && r.items == Window(Ordered(selected, LegacySort(dto), engine), Skip(r.page, r.limit), r.limit)
      && (forall b :: b in r.items ==> b in docs && Matches(LegacyFilter(dto), b, engine))
      && SortedBy(r.items, Comparator(LegacySort(dto), engine))
      && r.total == |selected|
      && r.pages * r.limit >= r.total && (r.pages == 0 <==> r.total == 0)
      && (r.pages > 0 ==> (r.pages - 1) * r.limit < r.total)
  {
    var r := LegacyResponse(docs, dto, engine);
    var f := LegacyFilter(dto);
    var skip := Skip(r.page, r.limit);
    assert r.items == FindDocs(docs, f, LegacySort(dto), skip, r.limit, engine);
    assert r.total == CountDocs(docs, f, engine);
    assert r.pages == Pages(r.total, r.limit);
  }

  /** `searchStoredBooks(searchDto)` as a transition. `readFailure` is an error the
      book model's query raises and `metricFailure` an error every metric write raises. */
  function SearchStored(st: State, dto: SearchBooksDto, engine: TextEngine, readFailure: Option<string>,
                        metricFailure: Option<string>, elapsed: int, now: int, brokerUp: bool): Step
    requires Paged(dto)
  {
    var key := LocalKey(LegacyFilter(dto), LegacySort(dto), dto.page.value, dto.limit.value);
    if key in st.cache then Step(st, Ok(st.cache[key].value))
    else LocalMiss(st, key, dto, engine, readFailure, metricFailure, elapsed, now, brokerUp)
  }

  /** The uncached part of `searchStoredBooks`: query, cache for 300, record. */
  function LocalMiss(st: State, key: string, dto: SearchBooksDto, engine: TextEngine, readFailure: Option<string>,
                     metricFailure: Option<string>, elapsed: int, now: int, brokerUp: bool): Step
    requires Paged(dto)
  {
    if readFailure.Some? then
      Caught(st, LocalSearchMetric, LocalSearch, OrEmpty(dto.q), elapsed, now, metricFailure, brokerUp,
             readFailure.value, BadRequest(SearchFailedMessage))
    else
      var r := LegacyResponse(st.docs, dto, engine);
      Succeeded(st.(cache := st.cache[key := Entry(SearchValue(r), ShortTtl)]),
                LocalSearchMetric, LocalSearch, OrEmpty(dto.q), r.total, elapsed, now, metricFailure, brokerUp,
                SearchValue(r), BadRequest(SearchFailedMessage))
  }

  /** A local miss with the metric store up returns the response and caches it for
      300 under the key of its filter, sort, page and limit, records one
      `local_search` point and publishes one LOCAL_SEARCH event with
      `resultsCount = total`; a failed read publishes the read's message and ends
      as "Failed to search books", caching nothing. The collection never changes. */
  lemma LocalMissOutcome(st: State, dto: SearchBooksDto, engine: TextEngine, readFailure: Option<string>,
                         elapsed: int, now: int, brokerUp: bool)
    requires Paged(dto)
    requires LocalKey(LegacyFilter(dto), LegacySort(dto), dto.page.value, dto.limit.value) !in st.cache
    ensures var s := SearchStored(st, dto, engine, readFailure, None, elapsed, now, brokerUp);
      var key := LocalKey(LegacyFilter(dto), LegacySort(dto), dto.page.value, dto.limit.value);
      var r := LegacyResponse(st.docs, dto, engine);
      && s.state.docs == st.docs && s.state.nextId == st.nextId
      && s.state.series == WithPoint(st.series, SeriesKey(LocalSearchMetric), Point(now, elapsed))
      && (readFailure.None? ==>
            && s.result == Ok(SearchValue(r))
            && s.state.cache == st.cache[key := Entry(SearchValue(r), ShortTtl)]
            && s.state.emits == st.emits + [Emission(LegacySearchPattern, SearchOutcomeEvent(LocalSearch, OrEmpty(dto.q), r.total, elapsed, now, None), brokerUp)])
      && (readFailure.Some? ==>
            && s.result == Err(BadRequest(SearchFailedMessage))
            && s.state.cache == st.cache
            && s.state.emits == st.emits + [Emission(LegacySearchPattern, SearchOutcomeEvent(LocalSearch, OrEmpty(dto.q), 0, elapsed, now, readFailure), brokerUp)])
  {
  }

  /** When the metric store rejects, a local miss ends with the metric's error and
      no point is recorded; the cache and the collection end as with the store up.
      A query that succeeds has already published its success event and the
      `catch` publishes a failure event carrying the metric's message after it; a
      failed read publishes its failure event only. */
  lemma LocalMetricFailure(st: State, dto: SearchBooksDto, engine: TextEngine, readFailure: Option<string>,
                           metricError: string, elapsed: int, now: int, brokerUp: bool)
    requires Paged(dto)
    requires LocalKey(LegacyFilter(dto), LegacySort(dto), dto.page.value, dto.limit.value) !in st.cache
    ensures var s := SearchStored(st, dto, engine, readFailure, Some(metricError), elapsed, now, brokerUp);
      var clean := SearchStored(st, dto, engine, readFailure, None, elapsed, now, brokerUp);
      && s.result == Err(Rejected(metricError))
      && s.state.series == st.series
      && s.state.docs == st.docs && s.state.cache == clean.state.cache
      && (readFailure.None? ==>
            s.state.emits == clean.state.emits
              + [Emission(LegacySearchPattern, SearchOutcomeEvent(LocalSearch, OrEmpty(dto.q), 0, elapsed, now, Some(metricError)), brokerUp)])
      && (readFailure.Some? ==> s.state.emits == clean.state.emits)
  {
  }

  /** A cached local search is returned as it is and nothing else happens. */
  lemma LocalHitChangesNothing(st: State, dto: SearchBooksDto, engine: TextEngine, readFailure: Option<string>,
                               metricFailure: Option<string>, elapsed: int, now: int, brokerUp: bool)
    requires Paged(dto)
    requires LocalKey(LegacyFilter(dto), LegacySort(dto), dto.page.value, dto.limit.value) in st.cache
    ensures SearchStored(st, dto, engine, readFailure, metricFailure, elapsed, now, brokerUp)
         == Step(st, Ok(st.cache[LocalKey(LegacyFilter(dto), LegacySort(dto), dto.page.value, dto.limit.value)].value))
  {
  }

  /** Without a sort field `order` decides nothing: it changes neither the key nor
      the response. */
  lemma OrderIgnoredWithoutSort(dto: SearchBooksDto, order: Option<SortOrder>, docs: seq<Book>, engine: TextEngine)
    requires Paged(dto) && dto.sortBy != Some("title") && dto.sortBy != Some("year")
    ensures LegacySort(dto.(order := order)) == LegacySort(dto)
    ensures LegacyResponse(docs, dto.(order := order), engine) == LegacyResponse(docs, dto, engine)
  {
  }

  class LegacyBooksService {
    const collection: BookCollection
    const cacheManager: KeyValueStore
    const events: LegacyBooksEventsService
    const metrics: BooksMetricsService

    constructor (collection: BookCollection, cacheManager: KeyValueStore, events: LegacyBooksEventsService, metrics: BooksMetricsService)
      ensures this.collection == collection && this.cacheManager == cacheManager
      ensures this.events == events && this.metrics == metrics
    {
      this.collection := collection;
      this.cacheManager := cacheManager;
      this.events := events;
      this.metrics := metrics;
    }

    ghost function Snapshot(): State
      reads this, collection, cacheManager, events, events.channel, metrics, metrics.ts
    {
      State(collection.docs, collection.nextId, cacheManager.entries, events.channel.emits, metrics.ts.series)
    }

    /** The `Promise.all` of a metric and an event. */
    method RecordOutcome(metric: MetricOperation, event: SearchEvent, elapsed: int, now: int,
                         metricFailure: Option<string>, brokerUp: bool) returns (o: Outcome)
      modifies metrics.ts, events.channel
      ensures Snapshot() == Record(old(Snapshot()), metric, event, elapsed, now, metricFailure, brokerUp)
      ensures o == if metricFailure.Some? then Fail(Rejected(metricFailure.value)) else Pass
    {
      o := metrics.RecordSearchDuration(metric, elapsed, now, metricFailure);
      events.PublishSearchEvent(event, brokerUp);
    }

    /** A `catch` block that records the failure and rethrows. */
    method Rethrow(metric: MetricOperation, op: Operation, query: string, elapsed: int, now: int,
                   metricFailure: Option<string>, brokerUp: bool, message: string, thrown: Error) returns (r: Result<CachedValue>)
      modifies metrics.ts, events.channel
      ensures Snapshot() == Caught(old(Snapshot()), metric, op, query, elapsed, now, metricFailure, brokerUp, message, thrown).state
      ensures r == Caught(old(Snapshot()), metric, op, query, elapsed, now, metricFailure, brokerUp, message, thrown).result
    {
      var o := RecordOutcome(metric, SearchOutcomeEvent(op, query, 0, elapsed, now, Some(message)), elapsed, now, metricFailure, brokerUp);
      if o.Fail? {
        return Err(o.error);
      }
      r := Err(thrown);
    }

    /** Record a success; a rejected metric goes through the `catch`. */
    method Succeed(metric: MetricOperation, op: Operation, query: string, count: int, elapsed: int, now: int,
                   metricFailure: Option<string>, brokerUp: bool, value: CachedValue, thrown: Error) returns (r: Result<CachedValue>)
      modifies metrics.ts, events.channel
      ensures Snapshot() == Succeeded(old(Snapshot()), metric, op, query, count, elapsed, now, metricFailure, brokerUp, value, thrown).state
      ensures r == Succeeded(old(Snapshot()), metric, op, query, count, elapsed, now, metricFailure, brokerUp, value, thrown).result
    {
      var o := RecordOutcome(metric, SearchOutcomeEvent(op, query, count, elapsed, now, None), elapsed, now, metricFailure, brokerUp);
      if o.Pass? {
        return Ok(value);
      }
      r := Rethrow(metric, op, query, elapsed, now, metricFailure, brokerUp, o.error.message, thrown);
    }

    /** `upsertBook(dto)`: `findOneAndUpdate` with `upsert` and the updated
        document; a failure is rethrown as "Failed to save book to database". */
    method UpsertBook(dto: CreateBookDto, fails: bool) returns (r: Result<Book>)
      requires collection.Valid()
      modifies collection
      ensures collection.Valid()
      ensures fails ==> (r == Err(BadRequest(SaveToDatabaseFailedMessage))
        && collection.docs == old(collection.docs) && collection.nextId == old(collection.nextId))
      ensures !fails ==>
        var u := BookStore.Upsert(old(collection.docs), old(collection.nextId), dto);
        r == Ok(u.book) && collection.docs == u.docs && collection.nextId == u.nextId
    {
      r := collection.FindOneAndUpsert(dto, fails);
      if r.Err? {
        r := Err(BadRequest(SaveToDatabaseFailedMessage));
      }
    }

    /** `processAndSaveBooks(docs)`: every normalised record is upserted; any
        rejected write fails the call as "Failed to process and save books" after
        the others are written. */
    method ProcessAndSaveBooks(docs: seq<OpenLibraryDoc>, saveFailures: set<nat>) returns (r: Result<seq<Book>>)
      requires collection.Valid()
      modifies collection
      ensures collection.Valid()
      ensures var b := UpsertBatch(old(collection.docs), old(collection.nextId), NormalizeDocs(docs), saveFailures);
        && collection.docs == b.docs && collection.nextId == b.nextId
        && r == (if b.failed then Err(BadRequest(ProcessFailedMessage)) else Ok(b.books))
    {
      var dtos := NormalizeDocs(docs);
      ghost var docs0, nextId0 := collection.docs, collection.nextId;
      var books: seq<Book> := [];
      var failed := false;
      var i := 0;
      while i < |dtos|
        invariant 0 <= i <= |dtos|
        invariant collection.Valid()
        invariant Batch(collection.docs, collection.nextId, books, failed) == UpsertBatch(docs0, nextId0, dtos[..i], saveFailures)
      {
        BatchExtends(docs0, nextId0, dtos, i, saveFailures);
        var saved := UpsertBook(dtos[i], i in saveFailures);
        if saved.Ok? {
          books := books + [saved.value];
        } else {
          failed := true;
        }
        i := i + 1;
      }
      assert dtos[..i] == dtos;
      if failed {
        return Err(BadRequest(ProcessFailedMessage));
      }
      r := Ok(books);
    }

    /** `searchAndSaveBooks(query)` */
    method SearchAndSaveBooks(query: string, fetch: FetchResponse, saveFailures: set<nat>,
                              metricFailure: Option<string>, elapsed: int, now: int, brokerUp: bool) returns (r: Result<CachedValue>)
      requires collection.Valid()
      modifies collection, cacheManager, metrics.ts, events.channel
      ensures collection.Valid()
      ensures Snapshot() == SearchAndSave(old(Snapshot()), query, fetch, saveFailures, metricFailure, elapsed, now, brokerUp).state
      ensures r == SearchAndSave(old(Snapshot()), query, fetch, saveFailures, metricFailure, elapsed, now, brokerUp).result
    {
      var key := SearchKey(query);
      var cached := cacheManager.Get(key);
      if cached.Some? {
        return Ok(cached.value);
      }
      if fetch.FetchFailed? {
        r := Rethrow(ExternalSearchMetric, ExternalSearch, query, elapsed, now, metricFailure, brokerUp,
                     FetchFailedMessage, BadRequest(FetchFailedMessage));
        return;
      }
      var books := ProcessAndSaveBooks(fetch.docs, saveFailures);
      if books.Err? {
        r := Rethrow(ExternalSearchMetric, ExternalSearch, query, elapsed, now, metricFailure, brokerUp,
                     books.error.message, books.error);
        return;
      }
      cacheManager.Set(key, BookList(books.value), LongTtl);
      r := Succeed(ExternalSearchMetric, ExternalSearch, query, |books.value|, elapsed, now, metricFailure, brokerUp,
                   BookList(books.value), Rejected(OrEmpty(metricFailure)));
    }

    /** `getAllBooks()` */
    method GetAllBooks(readFailure: bool) returns (r: Result<CachedValue>)
      modifies cacheManager
      ensures Snapshot() == GetAll(old(Snapshot()), readFailure).state
      ensures r == GetAll(old(Snapshot()), readFailure).result
    {
      var cached := cacheManager.Get(AllBooksKey);
      if cached.Some? {
        return Ok(cached.value);
      }
      if readFailure {
        return Err(BadRequest(FetchBooksFailedMessage));
      }
      var books := collection.docs;
      cacheManager.Set(AllBooksKey, BookList(books), LongTtl);
      r := Ok(BookList(books));
    }

    /** `getBookById(id)` */
    method GetBookById(id: string, cast: string -> Option<nat>, readFailure: bool) returns (r: Result<CachedValue>)
      modifies cacheManager
      ensures Snapshot() == GetById(old(Snapshot()), id, cast, readFailure).state
      ensures r == GetById(old(Snapshot()), id, cast, readFailure).result
    {
      var key := BookKey(id);
      var cached := cacheManager.Get(key);
      if cached.Some? {
        return Ok(cached.value);
      }
      var objectId := cast(id);
      if objectId.None? || readFailure {
        return Err(BadRequest(FetchBookFailedMessage));
      }
      var book := collection.FindById(objectId.value);
      if book.None? {
        return Err(NotFound(BookNotFoundMessage));
      }
      cacheManager.Set(key, BookValue(book.value), LongTtl);
      r := Ok(BookValue(book.value));
    }

    /** The `query` object, one clause per truthy field. */
    method BuildQuery(dto: SearchBooksDto) returns (f: BookFilter)
      ensures f == LegacyFilter(dto)
    {
      f := MatchAll;
      if Truthy(dto.q) {
        f := f.(text := dto.q);
      }
      if Truthy(dto.author) {
        f := f.(authorPattern := dto.author);
      }
      if TruthyNumber(dto.year) {
        f := f.(year := dto.year);
      }
      if Truthy(dto.isbn) {
        f := f.(isbn := dto.isbn);
      }
    }

    /** The `sortOptions` object. */
    method BuildSort(dto: SearchBooksDto) returns (s: SortSpec)
      ensures s == LegacySort(dto)
    {
      s := Unsorted;
      if Truthy(dto.q) && dto.sortBy == Some("relevance") {
        s := ByTextScore(dto.q.value);
      } else if dto.sortBy == Some("title") {
        s := ByTitle(if dto.order == Some(Asc) then Asc else Desc);
      } else if dto.sortBy == Some("year") {
        s := ByYear(if dto.order == Some(Asc) then Asc else Desc);
      }
    }

    /** `searchStoredBooks(searchDto)` */
    method SearchStoredBooks(dto: SearchBooksDto, engine: TextEngine, readFailure: Option<string>,
                             metricFailure: Option<string>, elapsed: int, now: int, brokerUp: bool) returns (r: Result<CachedValue>)
      requires Paged(dto)
      modifies cacheManager, metrics.ts, events.channel
      ensures Snapshot() == SearchStored(old(Snapshot()), dto, engine, readFailure, metricFailure, elapsed, now, brokerUp).state
      ensures r == SearchStored(old(Snapshot()), dto, engine, readFailure, metricFailure, elapsed, now, brokerUp).result
    {
      var f := BuildQuery(dto);
      var s := BuildSort(dto);
      var key := LocalKey(f, s, dto.page.value, dto.limit.value);
      var cached := cacheManager.Get(key);
      if cached.Some? {
        return Ok(cached.value);
      }
      r := SearchUncached(key, dto, engine, readFailure, metricFailure, elapsed, now, brokerUp);
    }

    /** The uncached part of `searchStoredBooks`. */
    method SearchUncached(key: string, dto: SearchBooksDto, engine: TextEngine, readFailure: Option<string>,
                          metricFailure: Option<string>, elapsed: int, now: int, brokerUp: bool) returns (r: Result<CachedValue>)
      requires Paged(dto)
      modifies cacheManager, metrics.ts, events.channel
      ensures Snapshot() == LocalMiss(old(Snapshot()), key, dto, engine, readFailure, metricFailure, elapsed, now, brokerUp).state
      ensures r == LocalMiss(old(Snapshot()), key, dto, engine, readFailure, metricFailure, elapsed, now, brokerUp).result
    {
      if readFailure.Some? {
        r := Rethrow(LocalSearchMetric, LocalSearch, OrEmpty(dto.q), elapsed, now, metricFailure, brokerUp,
                     readFailure.value, BadRequest(SearchFailedMessage));
        return;
      }
      var response := LegacyResponse(collection.docs, dto, engine);
      cacheManager.Set(key, SearchValue(response), ShortTtl);
      r := Succeed(LocalSearchMetric, LocalSearch, OrEmpty(dto.q), response.total, elapsed, now, metricFailure, brokerUp,
                   SearchValue(response), BadRequest(SearchFailedMessage));
    }
  }
}
