# book-search in Dafny

This project models the logic layer of the book-search system. It has two services.

- **service-a** imports books from OpenLibrary into a document collection and answers local book searches. It does both cache-aside and publishes one search event per uncached request. Its metrics recorder keeps search durations in a time-series store, but only the older, unwired books service calls it: in the wired application no request appends a metric point.
- **service-b** stores those events as search logs and answers paginated log queries.

The model keeps each store abstract:

- **Book collection**: a sequence of documents in insertion order (the store's natural order). Each document gets a counter-assigned `_id`. The unique index on `openLibraryId` is the invariant `BookStore.Wellformed`.
- **Cache**: a map from string keys to (value, TTL) entries.
- **Time-series store**: a map from series keys to sequences of (timestamp, value) points.
- **Broker**: the sequence of messages handed to it, each marked with whether the broker accepted it.
- **Log collection**: a sequence of log records.

Code that changes state step by step is modelled as classes: `BookCollection`, `KeyValueStore`, `TimeSeriesStore`, `EventChannel`, `LogCollection` and the services over them. Each service request is also stated as a pure transition function over a `State` value that holds what its collaborators store. Each service method is proved to perform exactly that transition, and the properties of the requests are proved as lemmas about the transition functions.

Foreign behaviour enters as parameters:

- failures of the stores and of the broker (`saveFailures`, `readFailure`, `metricFailure`, `brokerUp`);
- the OpenLibrary answer (`fetch`);
- the clock (`now`, `elapsed`);
- date parsing and the ObjectId cast (`parseDate`, `cast`);
- the text-search engine (`TextEngine`: text match, relevance score and case-insensitive pattern match, left uninterpreted).

Both versions of the books service are modelled:

- module `BooksService` is the one `service-a/src/modules/books/books.module.ts` wires (services/books.service.ts);
- module `LegacyBooksService` is the older books.service.ts, which works directly against the book model, the cache manager, the metrics recorder and the pass-through publisher.

Facts about the code that the model keeps:

- In the legacy service a failing metric write rejects the `Promise.all`. On the success path this runs the `catch` block too, publishing a second, failure event, and the metric's own error replaces the one being thrown (`LegacyBooksService.ExternalMetricFailure`).
- The code has no cache-failure handling: a failing cache read or write would surface as the request's error. Cache failures are not modelled.
- `sortBy` is validated only as a string (`SearchDto.SortByIsUnconstrained`), although its Swagger enum (service-a/src/modules/books/dto/search.dto.ts:42) lists `title`, `year` and `author`. The legacy service sorts on `relevance`, `title` and `year`; the wired repository ignores every field but `q`, `page` and `limit` (`BooksRepository.SearchIgnoresOtherFields`).
- In the wired service a save failure is not rewrapped by the processing step. `fetchAndProcessBooks` returns its `Promise.all` without awaiting it, so a rejected upsert escapes the surrounding `catch` as "Failed to save book". Only an OpenLibrary failure is rewrapped as "Failed to process books from OpenLibrary" (`BooksService.ExternalFailures`).

Two facts about the deployment topology are recorded here but not modelled:

- The producer's queue `books_queue` (service-a/src/modules/books/books.module.ts:26) is not the consumer's queue `books_events_queue` (service-b/src/main.ts:31).
- The wired publisher emits on `book.search`, while the log listener subscribes to `book.search.executed` (service-b/src/modules/search-logs/search-logs.controller.ts:25). The legacy pass-through publisher is the one that emits on `book.search.executed`.

A further fact is proved: external and local search results share the `search:` key space. `BooksService.LocalKeysMeetOnlyBraceQueries` shows that they can meet only for an external query that starts with `{`.

## Model

| member | source | states |
|---|---|---|
| Books.ToCreateBookDto | service-a/src/modules/books/services/books.service.ts:86-93 | `key` becomes `openLibraryId`; title and first publish year are copied; a missing author, isbn or publisher list becomes `[]`; no search keywords are written |
| Books.NormalizeDocs | service-a/src/modules/books/books.service.ts:113-124 | one creation record per OpenLibrary document, same length and order, each the document's record |
| BookStore.IndexOf | service-a/src/modules/books/repositories/books.repository.ts:21-22 | the position found holds a document with the given `openLibraryId`; None exactly when no document has it |
| BookStore.IndexOfUnique | service-a/src/modules/books/schemas/book.schema.ts:21 | under the unique index, the document with a given `openLibraryId` is the one `IndexOf` finds |
| BookStore.Upsert | service-a/src/modules/books/repositories/books.repository.ts:20-27 | keeps the unique index and the id counter's invariant; the counter never decreases and the collection never shrinks |
| BookStore.UpsertStoresRecord | service-a/src/modules/books/repositories/books.repository.ts:20-26 | afterwards the `openLibraryId` is stored and the returned document is the stored one, carrying every field of the record |
| BookStore.UpsertUpdatesInPlace | service-a/src/modules/books/repositories/books.repository.ts:21-24 | an existing document is replaced in its place by the returned one, which keeps its `_id` and, when the record has none, its search keywords; the size and counter are unchanged |
| BookStore.UpsertInsertsFresh | service-a/src/modules/books/repositories/books.repository.ts:21-24 | a new `openLibraryId` appends one document with a fresh `_id` |
| BookStore.UpsertLeavesOthers | service-a/src/modules/books/repositories/books.repository.ts:21-26 | every document with another `openLibraryId` is unchanged |
| BookStore.UpsertLeavesExactlyOne | service-a/src/modules/books/repositories/books.repository.ts:20-24 | exactly one document holds the record's `openLibraryId` afterwards |
| BookStore.UpsertIdempotent | service-a/src/modules/books/books.service.ts:135-145 | upserting the same record twice leaves the same collection and returns the same document as once |
| BookStore.LaterUpsertWins | service-a/src/modules/books/repositories/books.repository.ts:20-26 | of two upserts of one `openLibraryId`, the second keeps the size and the first one's `_id`, carries the later record's fields and leaves exactly one holder |
| BookStore.UpsertBatch | service-a/src/modules/books/services/books.service.ts:85-94 | the records are upserted in order, skipping the rejected ones; the unique index is kept, the collection never shrinks and a batch without rejections returns one document per record |
| BookStore.BatchExtends | service-a/src/modules/books/services/books.service.ts:85-94 | the batch of the first i+1 records is the batch of the first i followed by record i's upsert, or by its rejection |
| BookStore.BatchFailsIffSomeRecordFails | service-a/src/modules/books/services/books.service.ts:85-94 | the batch fails if and only if some record's upsert is rejected |
| BookStore.UpsertKeepsKeys | service-a/src/modules/books/repositories/books.repository.ts:21-25 | a stored `openLibraryId` stays stored after any upsert |
| BookStore.BatchStoresEveryRecord | service-a/src/modules/books/services/books.service.ts:85-94 | every record whose upsert is not rejected is stored afterwards |
| BookStore.StoredAfterUpsert | service-a/src/modules/books/repositories/books.repository.ts:21-25 | when every earlier accepted record is stored, upserting the last one leaves every accepted record stored |
| BookStore.BatchLeavesOtherKeys | service-a/src/modules/books/services/books.service.ts:85-94 | documents whose `openLibraryId` no record of the batch carries are unchanged |
| BookStore.BatchReturnsEveryRecord | service-a/src/modules/books/services/books.service.ts:85-94 | a batch without rejections returns, per record, a stored document carrying that record's fields |
| BookStore.BookCollection.FindById | service-a/src/modules/books/books.service.ts:180 | a stored document with that `_id`, found exactly when one exists |
| BookStore.BookCollection.FindOneAndUpsert | service-a/src/modules/books/repositories/books.repository.ts:21-25 | the collection becomes the `Upsert` of the old one, returning its document, or is unchanged on a rejection; the index invariant is kept |
| BookStore.FindByIdIn | service-a/src/modules/books/books.service.ts:180 | finds the document with that `_id` if and only if one is stored |
| BookQuery.FilterDocs | service-a/src/modules/books/repositories/books.repository.ts:38-39 | keeps exactly the documents the filter matches, and no more documents than the collection has |
| BookQuery.FilterDocsKeepsOrder | service-a/src/modules/books/repositories/books.repository.ts:38-39 | filtering keeps storage order: the matches of `a + b` are the matches of `a` followed by those of `b` |
| BookQuery.Matches | service-a/src/modules/books/books.service.ts:204-220 | no contract; a document satisfies each clause present (text match, case-insensitive author pattern on some author, year equality, isbn membership); its meaning is stated by `FilterDocs` and `LegacyBooksService.LegacyFilterMeaning` |
| BookQuery.Comparator | service-a/src/modules/books/books.service.ts:223-230 | no contract; the order each sort document induces; its meaning is stated by `ComparatorIsTotalPreorder`, `Ordered` and `YearAscendingIsNonDecreasing` |
| BookQuery.MatchAllKeepsAll | service-a/src/modules/books/repositories/books.repository.ts:34 | the empty filter `{}` selects the whole collection |
| BookQuery.StrLeTotal | service-a/src/modules/books/books.service.ts:226-227 | the string order used for title sorts is total |
| BookQuery.StrLeTransitive | service-a/src/modules/books/books.service.ts:226-227 | the string order used for title sorts is transitive |
| BookQuery.ComparatorIsTotalPreorder | service-a/src/modules/books/books.service.ts:223-230 | every sort document (text score, title, year, `_id` descending or none) orders documents by a total preorder |
| BookQuery.Ordered | service-a/src/modules/books/books.service.ts:248 | `.sort(sortOptions)` returns a permutation of the documents, sorted by the sort's order |
| BookQuery.FindDocs | service-a/src/modules/books/repositories/books.repository.ts:38-43 | the window at `skip` of the sorted selection: at most `limit` documents, each matching the filter, sorted |
| BookQuery.WindowKeepsOrderAndMatches | service-a/src/modules/books/books.service.ts:246-250 | the page is the window at `skip` of the sorted selection, is itself sorted, and holds only matching documents |
| BookQuery.CountDocs | service-a/src/modules/books/repositories/books.repository.ts:44 | `countDocuments` is at most the collection size |
| BookQuery.YearAscendingIsNonDecreasing | service-a/src/modules/books/books.service.ts:228-229 | an ascending year sort yields non-decreasing publish years |
| BookQuery.PagesListEveryMatchOnce | service-a/src/modules/books/repositories/books.repository.ts:37-51 | walking pages 1 to `pages` lists the sorted selection exactly once, and `total` is its size |
| Pagination.Skip | service-a/src/modules/books/repositories/books.repository.ts:31 | `(page - 1) * limit` is a natural number, and 0 on the first page |
| Pagination.Pages | service-a/src/modules/books/repositories/books.repository.ts:51 | `ceil(total / limit)`: zero exactly when total is zero, `pages * limit >= total` and `(pages - 1) * limit < total` |
| Pagination.CeilingBounds | service-b/src/modules/search-logs/search-logs.service.ts:51 | the integer form of the ceiling division satisfies the ceiling's bounds |
| Pagination.Window | service-a/src/modules/books/repositories/books.repository.ts:41-42 | `.skip(skip).limit(limit)` holds `min(limit, n - skip)` items, item i being item `skip + i` |
| Pagination.PaginatePrefix | service-a/src/modules/books/repositories/books.repository.ts:41-42 | the first `count` pages together are exactly the first `count * limit` items |
| Pagination.PagesCoverResult | service-a/src/modules/books/repositories/books.repository.ts:41-51 | the pages 1 to `pages`, concatenated, are the whole sorted selection |
| Pagination.PastLastPageIsEmpty | service-a/src/modules/books/repositories/books.repository.ts:41-51 | a page beyond `pages` is empty |
| Sorting.Insert | service-a/src/modules/books/books.service.ts:248 | inserting an item adds exactly it to the multiset |
| Sorting.SortWith | service-a/src/modules/books/books.service.ts:248 | sorting returns a permutation of its input |
| Sorting.InsertSorted | service-a/src/modules/books/books.service.ts:248 | inserting into a sorted sequence under a total preorder keeps it sorted |
| Sorting.SortWithSorted | service-a/src/modules/books/books.service.ts:248 | under a total preorder, the result is sorted |
| Sorting.SliceSorted | service-a/src/modules/books/books.service.ts:249-250 | every slice of a sorted sequence is sorted |
| Sorting.WindowSorted | service-a/src/modules/books/books.service.ts:249-250 | every skip/limit window of a sorted sequence is sorted |
| SearchDto.ValidateSearchBooks | service-a/src/modules/books/dto/search.dto.ts:20-66 | accepts exactly when `year` is an integer, `order` is `asc` or `desc`, `page` is an integer >= 1 and `limit` an integer in 1..100 (each when present); refusals name the failing properties in order; accepted DTOs carry `page` default 1 and `limit` default 20 and copy the strings |
| SearchDto.SortByIsUnconstrained | service-a/src/modules/books/dto/search.dto.ts:42-45 | any string for `sortBy` passes validation and is kept as is |
| SearchDto.ParseOrderExact | service-a/src/modules/books/dto/search.dto.ts:15-18 | the two orders are exactly the strings `asc` and `desc` |
| GetLogsDto.ParseOperation | service-b/src/modules/search-logs/dto/get-logs.dto.ts:24-27 | a parsed operation is the one whose name the string is |
| GetLogsDto.ParseOperationRoundTrip | service-b/src/modules/search-logs/dto/get-logs.dto.ts:24-27 | both operation names parse back to their operation |
| GetLogsDto.ValidateGetLogs | service-b/src/modules/search-logs/dto/get-logs.dto.ts:13-43 | accepts exactly when the dates parse, the operation is one of the two and `page` >= 1 and `limit` in 1..100 are integers (each when present); refusals name the failing properties; accepted parameters default `page` to 1 and `limit` to 20 |
| Json.Object | service-a/src/modules/books/services/books.service.ts:113 | `JSON.stringify` of an object starts with `{` and ends with `}` |
| BooksCache.KeySpacesDisjoint | service-a/src/modules/books/services/books-cache.service.ts:8-9 | no `book:` key equals a `search:` key |
| BooksCache.KeysInjective | service-a/src/modules/books/services/books-cache.service.ts:14-38 | distinct ids give distinct book keys and distinct queries distinct search keys |
| BooksCache.BookIn | service-a/src/modules/books/services/books-cache.service.ts:14-16 | a book read back is the value stored under `book:<id>`; in a well-typed cache one is read exactly when the key is present, and it carries that id |
| BooksCache.SearchIn | service-a/src/modules/books/services/books-cache.service.ts:26-30 | a response read back is the value stored under `search:<query>`; in a well-typed cache one is read exactly when the key is present |
| BooksCache.WritesKeepWellTyped | service-a/src/modules/books/services/books-cache.service.ts:18-46 | every write and delete keeps book keys holding books and search keys holding responses |
| BooksCache.SetThenGet | service-a/src/modules/books/services/books-cache.service.ts:14-38 | `setBook` then `getBook` returns the book; `setSearchResults` then `getSearchResults` returns the response; TTL 3600 |
| BooksCache.InvalidateThenGet | service-a/src/modules/books/services/books-cache.service.ts:40-46 | after an invalidation the get returns null |
| BooksCache.WritesTouchOneKey | service-a/src/modules/books/services/books-cache.service.ts:18-46 | a set or delete leaves every other key's entry unchanged |
| BooksCache.KeySpacesIndependent | service-a/src/modules/books/services/books-cache.service.ts:8-46 | book writes never change a search read, and search writes never change a book read |
| BooksCache.BooksCacheService.GetBook | service-a/src/modules/books/services/books-cache.service.ts:14-16 | the book stored under `book:<id>`, or None |
| BooksCache.BooksCacheService.SetBook | service-a/src/modules/books/services/books-cache.service.ts:18-24 | stores the book under `book:<openLibraryId>` for 3600 and nothing else changes |
| BooksCache.BooksCacheService.GetSearchResults | service-a/src/modules/books/services/books-cache.service.ts:26-30 | the response stored under `search:<query>`, or None |
| BooksCache.BooksCacheService.SetSearchResults | service-a/src/modules/books/services/books-cache.service.ts:32-38 | stores the response under `search:<query>` for 3600 and nothing else changes |
| BooksCache.BooksCacheService.InvalidateBook | service-a/src/modules/books/services/books-cache.service.ts:40-42 | deletes only `book:<id>` |
| BooksCache.BooksCacheService.InvalidateSearch | service-a/src/modules/books/services/books-cache.service.ts:44-46 | deletes only `search:<query>` |
| KeyValue.KeyValueStore.Get | service-a/src/modules/books/books.service.ts:42 | the entry's value under the key, or None when absent |
| KeyValue.KeyValueStore.Set | service-a/src/modules/books/books.service.ts:72 | the entries become the old ones with the key mapped to (value, ttl) |
| KeyValue.KeyValueStore.Del | service-a/src/modules/books/services/books-cache.service.ts:40-46 | the entries become the old ones without the key |
| BooksRepository.BooksRepository.FindByOpenLibraryId | service-a/src/modules/books/repositories/books.repository.ts:16-18 | the unique document with that `openLibraryId`, or None exactly when none is stored |
| BooksRepository.BooksRepository.Upsert | service-a/src/modules/books/repositories/books.repository.ts:20-27 | the collection becomes the `Upsert` of the old one and the post-update document is returned; a rejection changes nothing |
| BooksRepository.SearchDocs | service-a/src/modules/books/repositories/books.repository.ts:29-54 | `page` defaults to 1 and `limit` to 20 and both are echoed; `total` is at most the collection size and `items` holds at most `limit` |
| BooksRepository.SearchPageCount | service-a/src/modules/books/repositories/books.repository.ts:47-53 | `pages = ceil(total / limit)` |
| BooksRepository.SearchFilter | service-a/src/modules/books/repositories/books.repository.ts:34 | no contract; `$text` on a truthy `q`, else `{}`; its meaning is stated by `SearchMatchesQuery` |
| BooksRepository.SearchSort | service-a/src/modules/books/repositories/books.repository.ts:35 | no contract; text score on a truthy `q`, else `_id` descending; its meaning is stated by `SearchOrder` |
| BooksRepository.SearchMatchesQuery | service-a/src/modules/books/repositories/books.repository.ts:34-44 | a truthy `q` selects the text matches and anything else selects every document; `total` counts the selection and every item is in it |
| BooksRepository.SearchOrder | service-a/src/modules/books/repositories/books.repository.ts:35 | items are ordered by text score for a truthy `q`, else by `_id` descending |
| BooksRepository.SearchIgnoresOtherFields | service-a/src/modules/books/repositories/books.repository.ts:30-35 | `author`, `year`, `isbn`, `sortBy` and `order` do not change the response |
| BooksRepository.SearchPagesCoverMatches | service-a/src/modules/books/repositories/books.repository.ts:37-53 | walking pages 1 to `pages` lists the sorted selection exactly once |
| BooksRepository.SearchPageIsWindow | service-a/src/modules/books/repositories/books.repository.ts:30-43 | the items are the window at `(page - 1) * limit` of the sorted selection |
| Events.SearchOutcomeEvent | service-a/src/modules/books/services/books.service.ts:46-65 | the event carries the operation, query and duration; success exactly when there is no error; failures report 0 results and the error's message |
| Events.EventChannel.Emit | service-a/src/modules/books/services/books-events.service.ts:26-31 | records exactly one message, delivered or not, and reports the broker's refusal |
| Events.Stamped | service-a/src/modules/books/services/books-events.service.ts:27-30 | the payload's timestamp is the publish time and every other field is the event's |
| Events.StampedIdempotent | service-a/src/modules/books/services/books-events.service.ts:28-29 | stamping twice equals stamping once; stamping with the event's own time changes nothing |
| Events.PublishEmitsOnce | service-a/src/modules/books/services/books-events.service.ts:26-31 | each publish appends exactly one message, on `book.search`, with the stamped event, and keeps the earlier ones |
| Events.PublishIgnoresBroker | service-a/src/modules/books/services/books-events.service.ts:24-44 | the messages recorded are the same whether or not the broker accepts |
| Events.BooksEventsService.PublishSearchEvent | service-a/src/modules/books/services/books-events.service.ts:24-44 | emits once and returns normally whether or not the broker took the message |
| Events.LegacyBooksEventsService.PublishSearchEvent | service-a/src/modules/books/books-events.service.ts:9-11 | emits once on `book.search.executed` with the event unchanged and never fails |
| Metrics.SeriesKeysDistinct | service-a/src/modules/books/services/books-metrics.service.ts:34 | `api:<operation>:duration` is distinct for the two operations |
| Metrics.WithPoint | service-a/src/modules/books/services/books-metrics.service.ts:53-54 | after an add the key has a series |
| Metrics.WithPointAppendsOne | service-a/src/modules/books/services/books-metrics.service.ts:53-54 | an add appends exactly one point, with the given value, to its own series; every other series is unchanged |
| Metrics.InWindow | service-a/src/modules/books/services/books-metrics.service.ts:66 | exactly the points with `from <= timestamp <= to` |
| Metrics.TimeSeriesStore.Create | service-a/src/modules/books/services/books-metrics.service.ts:36-39 | an existing key fails with the "key already exists" message and changes nothing; a new key gets an empty series with the retention and labels |
| Metrics.TimeSeriesStore.Add | service-a/src/modules/books/services/books-metrics.service.ts:54 | the series become the old ones with one point appended, or unchanged when the store rejects |
| Metrics.TimeSeriesStore.Range | service-a/src/modules/books/services/books-metrics.service.ts:66 | exactly the points of the series within the inclusive window; an error when the key does not exist |
| Metrics.KeyExistsMessageSaysSo | service-a/src/modules/books/services/books-metrics.service.ts:42 | the store's own error for an existing key contains `key already exists` |
| Metrics.InitSeriesStep | service-a/src/modules/books/services/books-metrics.service.ts:33-46 | one loop step creates the series, ignores an "already exists" failure, or stops and rethrows any other failure |
| Metrics.InitCreatesBothSeries | service-a/src/modules/books/services/books-metrics.service.ts:33-46 | without server errors, both series exist afterwards, existing series are kept and start-up succeeds |
| Metrics.InitIdempotent | service-a/src/modules/books/services/books-metrics.service.ts:40-45 | running start-up a second time changes nothing and succeeds |
| Metrics.InitRethrowsOtherErrors | service-a/src/modules/books/services/books-metrics.service.ts:42-44 | an error on the first key (`api:external_search:duration`) that does not say the key already exists is the outcome, and the store is left as it was |
| Metrics.InitRethrowsLaterErrors | service-a/src/modules/books/services/books-metrics.service.ts:33-46 | such an error on the second key (`api:local_search:duration`) is the outcome once the first iteration ran: the store keeps the first series if that iteration created it, and is otherwise unchanged |
| Metrics.InitSeries | service-a/src/modules/books/services/books-metrics.service.ts:33-46 | no contract; start-up over the remaining operations; its meaning is stated by `InitSeriesStep`, `InitCreatesBothSeries`, `InitIdempotent`, `InitRethrowsOtherErrors`, `InitRethrowsLaterErrors` and `InitIgnoresAlreadyExists` |
| Metrics.InitIgnoresAlreadyExists | service-a/src/modules/books/services/books-metrics.service.ts:41-44 | errors that say the key already exists never stop start-up |
| Metrics.Minimum | service-a/src/modules/books/services/books-metrics.service.ts:82 | `Math.min(...values)` is a value and at most every value |
| Metrics.Maximum | service-a/src/modules/books/services/books-metrics.service.ts:83 | `Math.max(...values)` is a value and at least every value |
| Metrics.SumAtLeast | service-a/src/modules/books/services/books-metrics.service.ts:80 | `count * lower bound <= sum` |
| Metrics.SumAtMost | service-a/src/modules/books/services/books-metrics.service.ts:80 | `sum <= count * upper bound` |
| Metrics.Values | service-a/src/modules/books/services/books-metrics.service.ts:75 | the values of the points, one for one and in order |
| Metrics.Summarize | service-a/src/modules/books/services/books-metrics.service.ts:77-89 | echoes the operation and the bucketed series; `totalRequests` is the count; an empty window gives 0 for avg, min and max; otherwise avg is `Sum(values) / count`, and min and max are values bounding every value |
| Metrics.AverageBetweenMinAndMax | service-a/src/modules/books/services/books-metrics.service.ts:79-83 | in a non-empty window, `min <= avg <= max` |
| Metrics.AverageIsMean | service-a/src/modules/books/services/books-metrics.service.ts:79-81 | in a non-empty window, avg times the count is the sum of the values |
| Metrics.MeanBetween | service-a/src/modules/books/services/books-metrics.service.ts:79-81 | a sum between `count * lo` and `count * hi`, divided by the count, lies in `[lo, hi]` |
| Metrics.SummarizeExample | service-a/src/modules/books/services/books-metrics.service.ts:77-89 | durations 10, 20 and 30 give avg 20, min 10, max 30 and 3 requests |
| Metrics.BooksMetricsService.OnModuleInit | service-a/src/modules/books/services/books-metrics.service.ts:33-46 | the loop over `external_search` and `local_search` leaves the store and the outcome that `InitSeries` specifies |
| Metrics.BooksMetricsService.RecordSearchDuration | service-a/src/modules/books/services/books-metrics.service.ts:49-55 | appends one point at `now` with the duration to the operation's series, or fails and changes nothing |
| Metrics.BooksMetricsService.GetMetrics | service-a/src/modules/books/services/books-metrics.service.ts:57-90 | succeeds exactly when the series exists; then the summary of the values in `[now - timeRange, now]`, `timeRange` defaulting to 3600000 |
| SearchLogs.Selected | service-b/src/modules/search-logs/search-logs.service.ts:20-32 | no contract; the per-log test of the built query; its meaning is stated by `SelectedLogs` and `FilterFindsSelected` |
| SearchLogs.SelectedLogs | service-b/src/modules/search-logs/search-logs.service.ts:20-32 | exactly the stored logs within the inclusive date bounds and with the given operation; an absent bound asks nothing |
| SearchLogs.FilterFindsSelected | service-b/src/modules/search-logs/search-logs.service.ts:20-39 | `find` with a filter that matches the selection finds exactly the selected logs, in storage order |
| SearchLogs.NewestFirstIsTotalPreorder | service-b/src/modules/search-logs/search-logs.service.ts:41 | timestamp descending is a total preorder |
| SearchLogs.Newest | service-b/src/modules/search-logs/search-logs.service.ts:41 | a permutation of the selected logs, newest first |
| SearchLogs.LogsPage | service-b/src/modules/search-logs/search-logs.service.ts:36-55 | echoes `page` and `limit`; `total` is the selection's size; at most `limit` items, all selected, newest first |
| SearchLogs.LogsPageContents | service-b/src/modules/search-logs/search-logs.service.ts:36-55 | the page's items are selected logs with non-increasing timestamps; `total` counts the selection and `pages = ceil(total / limit)` |
| SearchLogs.PageOfSelectionOrder | service-b/src/modules/search-logs/search-logs.service.ts:41-51 | a page of any selection has non-increasing timestamps and `pages = ceil(total / limit)` |
| SearchLogs.LogsPagesCoverSelection | service-b/src/modules/search-logs/search-logs.service.ts:36-54 | for any selection, the items are the window at `(page - 1) * limit` of its newest-first order, and pages 1 to `pages` together list every selected log once |
| SearchLogs.LogsTotalIgnoresPage | service-b/src/modules/search-logs/search-logs.service.ts:46 | the selection, and so `total`, is the same whatever page is asked for |
| SearchLogs.LogCollection.Save | service-b/src/modules/search-logs/search-logs.service.ts:64-65 | appends the log with a fresh id, or fails and changes nothing |
| SearchLogs.LogOf | service-b/src/modules/search-logs/search-logs.service.ts:64 | the log carries every field of the event |
| SearchLogs.BuildLogFilter | service-b/src/modules/search-logs/search-logs.service.ts:20-32 | the filter matches a log exactly when the query selects it; bounds appear only for truthy dates |
| SearchLogs.SearchLogsService.GetLogs | service-b/src/modules/search-logs/search-logs.service.ts:16-60 | the page of the selected logs with `page` defaulting to 1 and `limit` to 20, or the store's error |
| SearchLogs.SearchLogsService.LogSearchEvent | service-b/src/modules/search-logs/search-logs.service.ts:62-76 | appends exactly one log built from the event, or rethrows the store's failure with the logs unchanged |
| BooksService.ExternalHitChangesNothing | service-a/src/modules/books/services/books.service.ts:27-31 | a cache hit returns `cachedResult.items` and changes nothing, whatever OpenLibrary, the store, the clock or the broker would do |
| BooksService.ExternalMissPublishesOnce | service-a/src/modules/books/services/books.service.ts:46-66 | every uncached request publishes exactly one EXTERNAL_SEARCH event: success with the number of books, or failure with 0 and the error's message |
| BooksService.ExternalSuccessCachesResults | service-a/src/modules/books/services/books.service.ts:34-55 | a successful miss caches `{items, total: n, page: 1, pages: 1, limit: n}` under the query, stores every record and returns per document the stored book carrying its fields |
| BooksService.ExternalFailures | service-a/src/modules/books/services/books.service.ts:70-107 | an OpenLibrary failure ends as "Failed to process books from OpenLibrary" with nothing stored or cached; a rejected upsert ends as "Failed to save book" with the cache untouched and the other records stored |
| BooksService.ExternalIgnoresBroker | service-a/src/modules/books/services/books.service.ts:23-68 | the broker's acceptance changes neither the result nor the collection nor the cache |
| BooksService.DtoMembers | service-a/src/modules/books/services/books.service.ts:113 | no contract; the members of `JSON.stringify(searchDto)` in the assumed order; its meaning is stated by `DtoKey` and `LocalKeysMeetOnlyBraceQueries` |
| BooksService.DtoKey | service-a/src/modules/books/services/books.service.ts:113 | the key `JSON.stringify(searchDto)` is enclosed in braces: it starts with `{` and ends with `}` |
| BooksService.LocalKeysMeetOnlyBraceQueries | service-a/src/modules/books/services/books.service.ts:113-114 | an external query that does not start with `{` never shares its cache key with a local search |
| BooksService.LocalHitChangesNothing | service-a/src/modules/books/services/books.service.ts:113-117 | a local cache hit returns the cached response and changes nothing |
| BooksService.LocalMissOutcome | service-a/src/modules/books/services/books.service.ts:119-143 | a miss returns and caches the repository's result and publishes one LOCAL_SEARCH event with `resultsCount = total`; a read error is published and rethrown unchanged with the cache untouched; the collection never changes |
| BooksService.BooksService.ProcessAndSaveBook | service-a/src/modules/books/services/books.service.ts:101-108 | the repository upsert's document, or "Failed to save book" with the collection unchanged |
| BooksService.BooksService.FetchAndProcessBooks | service-a/src/modules/books/services/books.service.ts:70-99 | the loop over the mapped records yields exactly `UpsertBatch` of the old collection: its books, or "Failed to save book"; an OpenLibrary failure is "Failed to process books from OpenLibrary" |
| BooksService.SearchAndSave | service-a/src/modules/books/services/books.service.ts:23-68 | no contract; `searchAndSaveBooks` as a transition; its meaning is stated by `ExternalHitChangesNothing`, `ExternalMissPublishesOnce`, `ExternalSuccessCachesResults`, `ExternalFailures` and `ExternalIgnoresBroker` |
| BooksService.SearchStored | service-a/src/modules/books/services/books.service.ts:110-144 | no contract; `searchStoredBooks` as a transition; its meaning is stated by `LocalHitChangesNothing` and `LocalMissOutcome` |
| BooksService.StoredMiss | service-a/src/modules/books/services/books.service.ts:119-143 | no contract; query, cache and publish on a miss; its meaning is stated by `LocalMissOutcome` |
| BooksService.BooksService.SearchAndSaveBooks | service-a/src/modules/books/services/books.service.ts:23-68 | the collection, cache and broker end as `SearchAndSave` specifies, and the result is its result |
| BooksService.BooksService.SearchStoredBooks | service-a/src/modules/books/services/books.service.ts:110-144 | the collection, cache and broker end as `SearchStored` specifies, and the result is its result |
| BooksService.BooksService.QueryCacheAndPublish | service-a/src/modules/books/services/books.service.ts:119-143 | the uncached part ends as `StoredMiss` specifies |
| LegacyBooksService.LegacyKeySpacesDisjoint | service-a/src/modules/books/books.service.ts:41-173 | `all-books`, `book:<id>` and `search:<query>` never coincide |
| LegacyBooksService.Record | service-a/src/modules/books/books.service.ts:74-87 | recording a metric point and an event never changes the collection or the cache |
| LegacyBooksService.Caught | service-a/src/modules/books/books.service.ts:90-107 | a `catch` block always ends in an error |
| LegacyBooksService.ExternalHitChangesNothing | service-a/src/modules/books/books.service.ts:41-47 | any cached value under `search:<query>` is returned as is; nothing is fetched, upserted, cached, measured or published |
| LegacyBooksService.ExternalSuccess | service-a/src/modules/books/books.service.ts:69-89 | a successful miss caches the list for 3600, appends one `external_search` point and one EXTERNAL_SEARCH success event with `resultsCount = books.length`, and returns per document the stored book carrying its fields |
| LegacyBooksService.ExternalFailure | service-a/src/modules/books/books.service.ts:90-108 | with the metric store up, a failed miss records one point and one failure event with 0 results and the message, caches nothing and rethrows "Failed to fetch data from OpenLibrary" or, when some upsert fails, "Failed to process and save books" |
| LegacyBooksService.ExternalMetricFailure | service-a/src/modules/books/books.service.ts:74-107 | a rejected metric write ends with the metric's error and records no point; an otherwise successful request publishes its success event and then a failure event |
| LegacyBooksService.GetAllOutcome | service-a/src/modules/books/books.service.ts:152-169 | a cached list is returned as is; otherwise all stored books are returned and cached under `all-books` for 3600; a failed read is "Failed to fetch books" with nothing cached |
| LegacyBooksService.GetByIdOutcome | service-a/src/modules/books/books.service.ts:171-194 | NotFound "Book not found" exactly when no stored book has the id, rethrown and not cached; a found book is returned and cached under `book:<id>` for 3600; a bad id or failed read is "Failed to fetch book" |
| LegacyBooksService.Succeeded | service-a/src/modules/books/books.service.ts:74-89 | no contract; the success path's caching, recording and result; its meaning is stated by `ExternalSuccess` and `ExternalMetricFailure` |
| LegacyBooksService.SearchAndSave | service-a/src/modules/books/books.service.ts:37-109 | no contract; the legacy `searchAndSaveBooks` as a transition; its meaning is stated by `ExternalHitChangesNothing`, `ExternalSuccess`, `ExternalFailure` and `ExternalMetricFailure` |
| LegacyBooksService.GetAll | service-a/src/modules/books/books.service.ts:152-169 | no contract; `getAllBooks` as a transition; its meaning is stated by `GetAllOutcome` |
| LegacyBooksService.GetById | service-a/src/modules/books/books.service.ts:171-194 | no contract; `getBookById` as a transition; its meaning is stated by `GetByIdOutcome` |
| LegacyBooksService.LegacyFilter | service-a/src/modules/books/books.service.ts:204-220 | no contract; the field-by-field query; its meaning is stated by `LegacyFilterMeaning` |
| LegacyBooksService.LegacySort | service-a/src/modules/books/books.service.ts:223-230 | no contract; the if/else-if sort choice; its meaning is stated by `LegacySortSelection` and `OrderIgnoredWithoutSort` |
| LegacyBooksService.FilterJson | service-a/src/modules/books/books.service.ts:233 | no contract; `JSON.stringify(query)` with the clauses in the order they are added; its meaning is stated by `LocalKey` |
| LegacyBooksService.SortJson | service-a/src/modules/books/books.service.ts:233 | no contract; `JSON.stringify(sortOptions)`; its meaning is stated by `LocalKey` |
| LegacyBooksService.SearchStored | service-a/src/modules/books/books.service.ts:196-302 | no contract; the legacy `searchStoredBooks` as a transition; its meaning is stated by `LocalHitChangesNothing`, `LocalMissOutcome` and `LocalMetricFailure` |
| LegacyBooksService.LocalMiss | service-a/src/modules/books/books.service.ts:242-301 | no contract; query, cache, record and publish on a miss; its meaning is stated by `LocalMissOutcome` and `LocalMetricFailure` |
| LegacyBooksService.LegacyFilterMeaning | service-a/src/modules/books/books.service.ts:204-220 | a document matches exactly when it text-matches a truthy `q`, has an author matching a truthy `author` case-insensitively, has `firstPublishYear` equal to the query's `year` when that year is non-zero, and contains a truthy `isbn` among its isbns; with no truthy field the filter is `{}` |
| LegacyBooksService.LegacySortSelection | service-a/src/modules/books/books.service.ts:223-230 | relevance exactly when `q` is truthy and `sortBy` is `relevance`; `title` and `year` sort ascending exactly when `order` is `asc`; anything else sorts nothing |
| LegacyBooksService.LocalKey | service-a/src/modules/books/books.service.ts:233 | the local key lies in the `search:` key space |
| LegacyBooksService.LegacyResponse | service-a/src/modules/books/books.service.ts:243-262 | echoes `page` and `limit`; `total` is at most the collection size and at most `limit` items |
| LegacyBooksService.LegacyResponseContents | service-a/src/modules/books/books.service.ts:243-262 | the items are the window at `(page - 1) * limit` of the sorted selection, all matching and sorted; `total` counts the selection; `pages = ceil(total / limit)` |
| LegacyBooksService.LocalMissOutcome | service-a/src/modules/books/books.service.ts:242-301 | with the metric store up, a miss returns the response, caches it for 300, records one `local_search` point and one event with `resultsCount = total`; a failed read publishes its message and ends as "Failed to search books" |
| LegacyBooksService.LocalMetricFailure | service-a/src/modules/books/books.service.ts:264-300 | when the metric store rejects, a local miss ends with the metric's error and records no point; cache and collection end as with the store up; after a successful query the `catch` publishes a failure event with the metric's message after the success event, and a failed read publishes its failure event only |
| LegacyBooksService.LocalHitChangesNothing | service-a/src/modules/books/books.service.ts:233-240 | a cached local result is returned as is and nothing else happens |
| LegacyBooksService.OrderIgnoredWithoutSort | service-a/src/modules/books/books.service.ts:222-233 | without a `title` or `year` sort, `order` changes neither the key nor the response |
| LegacyBooksService.LegacyBooksService.RecordOutcome | service-a/src/modules/books/books.service.ts:74-87 | the series and broker end as `Record` specifies: one point unless the metric fails, one legacy message |
| LegacyBooksService.LegacyBooksService.Rethrow | service-a/src/modules/books/books.service.ts:90-107 | the state and error end as `Caught` specifies |
| LegacyBooksService.LegacyBooksService.Succeed | service-a/src/modules/books/books.service.ts:74-89 | the state and result end as `Succeeded` specifies |
| LegacyBooksService.LegacyBooksService.UpsertBook | service-a/src/modules/books/books.service.ts:133-150 | `findOneAndUpdate(..., {upsert, new})` returns the `Upsert` document, or "Failed to save book to database" with nothing changed |
| LegacyBooksService.LegacyBooksService.ProcessAndSaveBooks | service-a/src/modules/books/books.service.ts:111-131 | the loop yields exactly `UpsertBatch` of the normalised documents; any rejection becomes "Failed to process and save books" |
| LegacyBooksService.LegacyBooksService.SearchAndSaveBooks | service-a/src/modules/books/books.service.ts:37-109 | the collection, cache, broker and series end as `SearchAndSave` specifies, and the result is its result |
| LegacyBooksService.LegacyBooksService.GetAllBooks | service-a/src/modules/books/books.service.ts:152-169 | the state and result are those of `GetAll` |
| LegacyBooksService.LegacyBooksService.GetBookById | service-a/src/modules/books/books.service.ts:171-194 | the state and result are those of `GetById` |
| LegacyBooksService.LegacyBooksService.BuildQuery | service-a/src/modules/books/books.service.ts:204-220 | the field-by-field built filter is `LegacyFilter` of the DTO |
| LegacyBooksService.LegacyBooksService.BuildSort | service-a/src/modules/books/books.service.ts:223-230 | the built sort is `LegacySort` of the DTO |
| LegacyBooksService.LegacyBooksService.SearchStoredBooks | service-a/src/modules/books/books.service.ts:196-302 | the collection, cache, broker and series end as `SearchStored` specifies, and the result is its result |
| LegacyBooksService.LegacyBooksService.SearchUncached | service-a/src/modules/books/books.service.ts:242-301 | the uncached part ends as `LocalMiss` specifies |

## Left out

- Store, broker and time-series client mechanics: MongoDB, Mongoose, Redis, cache-manager, RedisTimeSeries and RabbitMQ are foreign libraries. Their observable effects are stated over maps and sequences, and their failures are parameters. RedisService and the module and bootstrap files are not part of this model.
- Cache backend failures: the code has no handling for them, and the model never lets a cache read or write fail.
- Text search, relevance scores and `$regex` matching: foreign engines, left uninterpreted (`TextEngine`).
- The order of ties under a sort: Mongo does not define it. The model sorts stably from storage order.
- ObjectId order: the model equates `_id` order with insertion order through a counter. Real ObjectIds are only roughly insertion-ordered (one-second timestamps, a per-process random part, a wrapping counter), so `_id: -1` is modelled as exact reverse insertion order.
- Wall-clock time and TTL expiry: times are inputs and a TTL is recorded as data without expiring anything. Whether cache-manager reads the TTLs 3600 and 300 as seconds or milliseconds depends on its version; the model keeps the number.
- `Promise.all` concurrency: fan-out is modelled in sequence, in array order. A rejected batch still writes every record the store accepts.
- Floating point: `avgDuration` is a real quotient, not an IEEE double. `Math.min`/`Math.max` over a spread array have no argument-count limit in the model.
- Server-side bucketing: the 60-second average buckets of `ts.range` are an input. Retention trimming and the `TS.ADD` duplicate policy are not modelled.
- ISO date parsing and the ObjectId cast: parameters (`parseDate`, `cast`).
- The HTTP request to OpenLibrary: its answer is an input, with the `limit: 10` parameter not modelled. A response without a `docs` array is not modelled.
- JSON text: `JSON.stringify` escapes are modelled for the characters the keys can hold. Lone surrogates are not distinguished, because Dafny strings are sequences of code points.
- Member order in `JSON.stringify(searchDto)`: `BooksService.DtoKey` assumes the initialised `page` and `limit` come first, then the other properties in declaration order. The real order depends on the class-field and query-string order. It also assumes service-a's `ValidationPipe` runs with `transform: true`, so that the handler receives the DTO instance with its initialised `page` and `limit`; service-a's bootstrap is not part of this model.
- `onApplicationBootstrap`/`onApplicationShutdown` of the publisher: connection management only.
- Logging: not observable.
- The legacy service's own books-metrics.service.ts is not part of this model. The legacy service is modelled against the recorder of services/books-metrics.service.ts.
- LegacyBooksService.SearchStored: requires `page` and `limit` present. This assumes service-a's `ValidationPipe` runs with `transform: true` (the option service-b/src/main.ts:15 sets for service-b); only then does the handler receive the class instance, whose field initialisers supply them. service-a's bootstrap is not part of this model. `BooksService.DtoKey` and the numeric `page` and `limit` in both local cache keys rest on the same assumption.
- The legacy upsert uses Mongoose `findOneAndUpdate` with the record as a plain update. The model uses the same `$set` semantics as the repository, including for an absent `firstPublishYear`.
