/** BooksCacheService: books under `book:<openLibraryId>` and search results under
    `search:<query>`, every write with a TTL of 3600. The map-level functions state
    each operation; the class applies them to the shared store. */
module BooksCache {
  import opened Common
  import opened Books
  import opened SearchDto
  import opened KeyValue

  const BookKeyPrefix: string := "book:"
  const SearchKeyPrefix: string := "search:"
  const DefaultTtl: nat := 3600

  function BookKey(openLibraryId: string): string {
    BookKeyPrefix + openLibraryId
  }

  function SearchKey(query: string): string {
    SearchKeyPrefix + query
  }

  /** A book key never equals a search key: the prefixes differ in their first character. */
  lemma KeySpacesDisjoint(openLibraryId: string, query: string)
    ensures BookKey(openLibraryId) != SearchKey(query)
  {
    PrefixesDisagree(BookKeyPrefix, SearchKeyPrefix, 0, openLibraryId, query);
  }

  /** Distinct ids and distinct queries get distinct keys. */
  lemma KeysInjective(a: string, b: string)
    ensures BookKey(a) == BookKey(b) <==> a == b
    ensures SearchKey(a) == SearchKey(b) <==> a == b
  {
    if BookKey(a) == BookKey(b) {
      PrefixCancels(BookKeyPrefix, a, b);
    }
    if SearchKey(a) == SearchKey(b) {
      PrefixCancels(SearchKeyPrefix, a, b);
    }
  }

  /** What the service's writes maintain: a book key holds that book, a search key
      holds a page of results. */
  ghost predicate WellTyped(entries: map<string, Entry>) {
    && (forall id :: BookKey(id) in entries ==>
          entries[BookKey(id)].value.BookValue? && entries[BookKey(id)].value.book.openLibraryId == id)
    && (forall q :: SearchKey(q) in entries ==> entries[SearchKey(q)].value.SearchValue?)
  }

  /** `getBook(openLibraryId)` on a map of entries. */
  function BookIn(entries: map<string, Entry>, openLibraryId: string): (r: Option<Book>)
    ensures r.Some? ==> BookKey(openLibraryId) in entries && entries[BookKey(openLibraryId)].value == BookValue(r.value)
    ensures WellTyped(entries) ==> (r.Some? <==> BookKey(openLibraryId) in entries)
    ensures WellTyped(entries) && r.Some? ==> r.value.openLibraryId == openLibraryId
  {
    var key := BookKey(openLibraryId);
    if key in entries && entries[key].value.BookValue? then Some(entries[key].value.book) else None
  }

  /** `getSearchResults(query)` on a map of entries. */
  function SearchIn(entries: map<string, Entry>, query: string): (r: Option<SearchResponse<Book>>)
    ensures r.Some? ==> SearchKey(query) in entries && entries[SearchKey(query)].value == SearchValue(r.value)
    ensures WellTyped(entries) ==> (r.Some? <==> SearchKey(query) in entries)
  {
    var key := SearchKey(query);
    if key in entries && entries[key].value.SearchValue? then Some(entries[key].value.response) else None
  }

  /** `setBook(book)` on a map of entries. */
  function WithBook(entries: map<string, Entry>, book: Book): map<string, Entry> {
    entries[BookKey(book.openLibraryId) := Entry(BookValue(book), DefaultTtl)]
  }

  /** `setSearchResults(query, results)` on a map of entries. */
  function WithSearch(entries: map<string, Entry>, query: string, results: SearchResponse<Book>): map<string, Entry> {
    entries[SearchKey(query) := Entry(SearchValue(results), DefaultTtl)]
  }

  /** `invalidateBook(openLibraryId)` on a map of entries. */
  function WithoutBook(entries: map<string, Entry>, openLibraryId: string): map<string, Entry> {
    entries - {BookKey(openLibraryId)}
  }

  /** `invalidateSearch(query)` on a map of entries. */
  function WithoutSearch(entries: map<string, Entry>, query: string): map<string, Entry> {
    entries - {SearchKey(query)}
  }

  /** Every write and delete keeps the cache well typed. */
  lemma WritesKeepWellTyped(entries: map<string, Entry>, book: Book, query: string, results: SearchResponse<Book>, id: string)
    requires WellTyped(entries)
    ensures WellTyped(WithBook(entries, book))
    ensures WellTyped(WithSearch(entries, query, results))
    ensures WellTyped(WithoutBook(entries, id))
    ensures WellTyped(WithoutSearch(entries, query))
  {
    forall q ensures BookKey(book.openLibraryId) != SearchKey(q) {
      KeySpacesDisjoint(book.openLibraryId, q);
    }
    forall i ensures SearchKey(query) != BookKey(i) {
      KeySpacesDisjoint(i, query);
    }
    forall i | BookKey(i) == BookKey(book.openLibraryId) ensures i == book.openLibraryId {
      KeysInjective(i, book.openLibraryId);
    }
  }

  /** `setBook` then `getBook` with the same id returns the book; `setSearchResults`
      then `getSearchResults` with the same query returns the results; both write TTL 3600. */
  lemma SetThenGet(entries: map<string, Entry>, book: Book, query: string, results: SearchResponse<Book>)
    ensures BookIn(WithBook(entries, book), book.openLibraryId) == Some(book)
    ensures SearchIn(WithSearch(entries, query, results), query) == Some(results)
    ensures WithBook(entries, book)[BookKey(book.openLibraryId)].ttl == DefaultTtl
    ensures WithSearch(entries, query, results)[SearchKey(query)].ttl == DefaultTtl
  {
  }

  /** After an invalidation the matching get returns null. */
  lemma InvalidateThenGet(entries: map<string, Entry>, openLibraryId: string, query: string)
    ensures BookIn(WithoutBook(entries, openLibraryId), openLibraryId) == None
    ensures SearchIn(WithoutSearch(entries, query), query) == None
  {
  }

  /** A write or delete touches its own key only. */
  lemma WritesTouchOneKey(entries: map<string, Entry>, book: Book, query: string, results: SearchResponse<Book>, id: string, k: string)
    ensures k != BookKey(book.openLibraryId) ==>
      (k in WithBook(entries, book) <==> k in entries) && (k in entries ==> WithBook(entries, book)[k] == entries[k])
    ensures k != SearchKey(query) ==>
      (k in WithSearch(entries, query, results) <==> k in entries) && (k in entries ==> WithSearch(entries, query, results)[k] == entries[k])
    ensures k != BookKey(id) ==>
      (k in WithoutBook(entries, id) <==> k in entries) && (k in entries ==> WithoutBook(entries, id)[k] == entries[k])
    ensures k != SearchKey(query) ==>
      (k in WithoutSearch(entries, query) <==> k in entries) && (k in entries ==> WithoutSearch(entries, query)[k] == entries[k])
  {
  }

  /** Book writes never disturb search results and search writes never disturb books. */
  lemma KeySpacesIndependent(entries: map<string, Entry>, book: Book, query: string, results: SearchResponse<Book>, id: string, q: string)
    ensures SearchIn(WithBook(entries, book), q) == SearchIn(entries, q)
    ensures SearchIn(WithoutBook(entries, id), q) == SearchIn(entries, q)
    ensures BookIn(WithSearch(entries, query, results), id) == BookIn(entries, id)
    ensures BookIn(WithoutSearch(entries, query), id) == BookIn(entries, id)
  {
    KeySpacesDisjoint(book.openLibraryId, q);
    KeySpacesDisjoint(id, q);
    KeySpacesDisjoint(id, query);
  }

  class BooksCacheService {
    const store: KeyValueStore

    constructor (store: KeyValueStore)
      requires WellTyped(store.entries)
      ensures this.store == store && Valid()
    {
      this.store := store;
    }

    ghost predicate Valid()
      reads this, store
    {
      WellTyped(store.entries)
    }

    function GetBook(openLibraryId: string): (r: Option<Book>)
      reads this, store
      ensures r == BookIn(store.entries, openLibraryId)
    {
      match store.Get(BookKey(openLibraryId))
      case Some(BookValue(b)) => Some(b)
      case _ => None
    }

    method SetBook(book: Book)
      requires Valid()
      modifies store
      ensures Valid() && store.entries == WithBook(old(store.entries), book)
    {
      WritesKeepWellTyped(store.entries, book, "", SearchResponse([], 0, 0, 0, 0), "");
      store.Set(BookKey(book.openLibraryId), BookValue(book), DefaultTtl);
    }

    function GetSearchResults(query: string): (r: Option<SearchResponse<Book>>)
      reads this, store
      ensures r == SearchIn(store.entries, query)
    {
      match store.Get(SearchKey(query))
      case Some(SearchValue(resp)) => Some(resp)
      case _ => None
    }

    method SetSearchResults(query: string, results: SearchResponse<Book>)
      requires Valid()
      modifies store
      ensures Valid() && store.entries == WithSearch(old(store.entries), query, results)
    {
      WritesKeepWellTyped(store.entries, Book(0, "", [], None, [], [], "", None), query, results, "");
      store.Set(SearchKey(query), SearchValue(results), DefaultTtl);
    }

    method InvalidateBook(openLibraryId: string)
      requires Valid()
      modifies store
      ensures Valid() && store.entries == WithoutBook(old(store.entries), openLibraryId)
    {
      WritesKeepWellTyped(store.entries, Book(0, "", [], None, [], [], "", None), "", SearchResponse([], 0, 0, 0, 0), openLibraryId);
      store.Del(BookKey(openLibraryId));
    }

    method InvalidateSearch(query: string)
      requires Valid()
      modifies store
      ensures Valid() && store.entries == WithoutSearch(old(store.entries), query)
    {
      WritesKeepWellTyped(store.entries, Book(0, "", [], None, [], [], "", None), query, SearchResponse([], 0, 0, 0, 0), "");
      store.Del(SearchKey(query));
    }
  }
}
