/** BooksRepository: the books collection behind the wired service. Lookups and
    the paginated search are reads of the collection; `upsert` writes through the
    collection's atomic create-or-update. */
module BooksRepository {
  import opened Common
  import opened Books
  import opened BookStore
  import opened BookQuery
  import opened Pagination
  import opened Sorting
  import opened SearchDto

  /** The filter `search` builds: a text clause when `q` is truthy, otherwise none. */
  function SearchFilter(q: Option<string>): BookFilter {
    if Truthy(q) then BookFilter(q, None, None, None) else MatchAll
  }

  /** The sort `search` builds: relevance when `q` is truthy, otherwise newest `_id` first. */
  function SearchSort(q: Option<string>): SortSpec {
    if Truthy(q) then ByTextScore(q.value) else ByIdDescending
  }

  class BooksRepository {
    const collection: BookCollection

    constructor (collection: BookCollection)
      ensures this.collection == collection
    {
      this.collection := collection;
    }

    /** `findByOpenLibraryId(id)`: the unique document with that id, or null. */
    function FindByOpenLibraryId(id: string): (r: Option<Book>)
      reads collection
      requires collection.Valid()
      ensures r.Some? <==> exists i :: 0 <= i < |collection.docs| && collection.docs[i].openLibraryId == id
      ensures r.Some? ==> r.value in collection.docs && r.value.openLibraryId == id
      ensures r.Some? ==> forall i :: 0 <= i < |collection.docs| && collection.docs[i].openLibraryId == id ==> collection.docs[i] == r.value
    {
      match IndexOf(collection.docs, id)
      case Some(i) =>
        assert forall j :: 0 <= j < |collection.docs| && collection.docs[j].openLibraryId == id ==> j == i;
        Some(collection.docs[i])
      case None => None
    }

    /** `upsert(book)`: `findOneAndUpdate` with `$set`, `upsert` and the document after the write. */
    method Upsert(dto: CreateBookDto, fails: bool) returns (r: Result<Book>)
      requires collection.Valid()
      modifies collection
      ensures collection.Valid()
      ensures fails ==> r.Err? && collection.docs == old(collection.docs) && collection.nextId == old(collection.nextId)
      ensures !fails ==>
        var u := BookStore.Upsert(old(collection.docs), old(collection.nextId), dto);
        r == Ok(u.book) && collection.docs == u.docs && collection.nextId == u.nextId
    {
      r := collection.FindOneAndUpsert(dto, fails);
    }
  }

  /** `search(params)` on the collection's documents: one page of the documents
      matching `q`, the count of all of them, and the page arithmetic, with `page`
      defaulting to 1 and `limit` to 20. */
  function SearchDocs(docs: seq<Book>, params: SearchBooksDto, engine: TextEngine): (r: SearchResponse<Book>)
    requires params.Valid()
    ensures r.page == params.page.GetOr(DefaultPage) && r.limit == params.limit.GetOr(DefaultLimit)
    ensures 0 <= r.total <= |docs|
    ensures |r.items| <= r.limit
  {
    var page := params.page.GetOr(DefaultPage);
    var limit := params.limit.GetOr(DefaultLimit);
    var f := SearchFilter(params.q);
    var items := FindDocs(docs, f, SearchSort(params.q), Skip(page, limit), limit, engine);
    var total := CountDocs(docs, f, engine);
    SearchResponse(items, total, page, Pages(total, limit), limit)
  }

  /** `pages` is the least number of `limit`-sized pages that hold `total` items. */
  lemma SearchPageCount(docs: seq<Book>, params: SearchBooksDto, engine: TextEngine)
    requires params.Valid()
    ensures var r := SearchDocs(docs, params, engine);
      && r.pages * r.limit >= r.total
      && (r.pages == 0 <==> r.total == 0)
      && (r.pages > 0 ==> (r.pages - 1) * r.limit < r.total)
  {
  }

  /** Every item is a stored document; with a truthy `q` it matches the text
      search, and without one every document counts. */
  lemma SearchMatchesQuery(docs: seq<Book>, params: SearchBooksDto, engine: TextEngine)
    requires params.Valid()
    ensures var r := SearchDocs(docs, params, engine);
      && (forall b :: b in r.items ==> b in docs)
      && (Truthy(params.q) ==> forall b :: b in r.items ==> engine.textMatch(params.q.value, b))
      && (!Truthy(params.q) ==> r.total == |docs|)
  {
    MatchAllKeepsAll(docs, engine);
  }

  /** With a truthy `q` items come by decreasing relevance; without one, newest `_id` first. */
  lemma SearchOrder(docs: seq<Book>, params: SearchBooksDto, engine: TextEngine)
    requires params.Valid()
    ensures var r := SearchDocs(docs, params, engine);
      && (Truthy(params.q) ==> forall i, j :: 0 <= i < j < |r.items| ==>
            engine.textScore(params.q.value, r.items[i]) >= engine.textScore(params.q.value, r.items[j]))
      && (!Truthy(params.q) ==> forall i, j :: 0 <= i < j < |r.items| ==> r.items[i].id >= r.items[j].id)
  {
    var r := SearchDocs(docs, params, engine);
    assert SortedBy(r.items, Comparator(SearchSort(params.q), engine));
  }

  /** Only `q`, `page` and `limit` reach the query: `author`, `year`, `isbn`,
      `sortBy` and `order` change nothing. */
  lemma SearchIgnoresOtherFields(docs: seq<Book>, params: SearchBooksDto, other: SearchBooksDto, engine: TextEngine)
    requires params.Valid() && other.Valid()
    requires params.q == other.q && params.page == other.page && params.limit == other.limit
    ensures SearchDocs(docs, params, engine) == SearchDocs(docs, other, engine)
  {
  }

  /** `total` counts every match whatever page is asked for, and walking the pages
      `1..pages` lists every match exactly once, in the query's order. */
  lemma SearchPagesCoverMatches(docs: seq<Book>, params: SearchBooksDto, engine: TextEngine)
    requires params.Valid()
    ensures var r := SearchDocs(docs, params, engine);
      var ordered := Ordered(FilterDocs(docs, SearchFilter(params.q), engine), SearchSort(params.q), engine);
      && r.total == |ordered|
      && Paginate(ordered, r.limit, r.pages) == ordered
      && (forall page: int :: page >= 1 ==> SearchDocs(docs, params.(page := Some(page)), engine).total == r.total)
  {
    var limit := params.limit.GetOr(DefaultLimit);
    PagesListEveryMatchOnce(docs, SearchFilter(params.q), SearchSort(params.q), limit, engine);
    var filtered := FilterDocs(docs, SearchFilter(params.q), engine);
    var ordered := Ordered(filtered, SearchSort(params.q), engine);
    assert |ordered| == |multiset(ordered)| == |multiset(filtered)| == |filtered|;
  }

  /** A page is the stretch of at most `limit` ordered matches that starts at
      `(page - 1) * limit`; past the last match it is empty. */
  lemma SearchPageIsWindow(docs: seq<Book>, params: SearchBooksDto, engine: TextEngine)
    requires params.Valid()
    ensures var page := params.page.GetOr(DefaultPage);
      var limit := params.limit.GetOr(DefaultLimit);
      var ordered := Ordered(FilterDocs(docs, SearchFilter(params.q), engine), SearchSort(params.q), engine);
      SearchDocs(docs, params, engine).items == Window(ordered, Skip(page, limit), limit)
  {
  }
}
