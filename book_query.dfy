/** What a `find(filter).sort(order).skip(skip).limit(limit)` query and a
    `countDocuments(filter)` on the books collection return. The text engine
    (`$text` matching and its relevance score) and the case-insensitive `$regex`
    test are the store's own and stay uninterpreted. */
module BookQuery {
  import opened Common
  import opened Books
  import opened Sorting
  import opened Pagination
  import opened SearchDto

  /** The store's text engine: `$text: { $search: q }` matching, the `textScore`
      of a document for a query, and `{ $regex: pattern, $options: 'i' }` on a string. */
  datatype TextEngine = TextEngine(
    textMatch: (string, Book) -> bool,
    textScore: (string, Book) -> int,
    regexMatchesCI: (string, string) -> bool)

  /** A filter document on the books collection; each clause is optional. */
  datatype BookFilter = BookFilter(
    text: Option<string>,          // $text: { $search: text }
    authorPattern: Option<string>, // authors: { $regex: pattern, $options: 'i' }
    year: Option<int>,             // firstPublishYear: year
    isbn: Option<string>)          // isbns: isbn

  const MatchAll: BookFilter := BookFilter(None, None, None, None)

  /** A document satisfies every clause the filter has. An array field matches an
      equality or pattern clause when one of its elements does. */
  predicate Matches(f: BookFilter, b: Book, engine: TextEngine) {
    && (f.text.Some? ==> engine.textMatch(f.text.value, b))
    && (f.authorPattern.Some? ==> exists a :: a in b.authors && engine.regexMatchesCI(f.authorPattern.value, a))
    && (f.year.Some? ==> b.firstPublishYear == f.year)
    && (f.isbn.Some? ==> f.isbn.value in b.isbns)
  }

  /** The matching documents, in natural (storage) order. */
  function FilterDocs(docs: seq<Book>, f: BookFilter, engine: TextEngine): (r: seq<Book>)
    ensures |r| <= |docs|
    ensures forall b :: b in r <==> b in docs && Matches(f, b, engine)
    decreases |docs|
  {
    if docs == [] then []
    else (if Matches(f, docs[0], engine) then [docs[0]] else []) + FilterDocs(docs[1..], f, engine)
  }

  /** Filtering keeps storage order: the matches of a concatenation are the
      matches of its first part followed by those of its second. */
  lemma {:induction false} FilterDocsKeepsOrder(a: seq<Book>, b: seq<Book>, f: BookFilter, engine: TextEngine)
    ensures FilterDocs(a + b, f, engine) == FilterDocs(a, f, engine) + FilterDocs(b, f, engine)
    decreases |a|
  {
    if a == [] {
      assert a + b == b;
    } else {
      FilterDocsKeepsOrder(a[1..], b, f, engine);
      assert (a + b)[0] == a[0];
      assert (a + b)[1..] == a[1..] + b;
    }
  }

  /** The empty filter matches every document, in storage order. */
  lemma {:induction false} MatchAllKeepsAll(docs: seq<Book>, engine: TextEngine)
    ensures FilterDocs(docs, MatchAll, engine) == docs
    decreases |docs|
  {
    if docs != [] {
      MatchAllKeepsAll(docs[1..], engine);
      assert docs == [docs[0]] + docs[1..];
    }
  }

  /** A sort document: none, `{ score: { $meta: 'textScore' } }`, `{ title: ±1 }`,
      `{ firstPublishYear: ±1 }` or `{ _id: -1 }`. */
  datatype SortSpec = Unsorted | ByTextScore(query: string) | ByTitle(order: SortOrder) | ByYear(order: SortOrder) | ByIdDescending

  /** Binary (code point) order on strings. */
  predicate StrLe(a: string, b: string)
    decreases |a|
  {
    a == [] || (b != [] && (a[0] < b[0] || (a[0] == b[0] && StrLe(a[1..], b[1..]))))
  }

  lemma {:induction false} StrLeTotal(a: string, b: string)
    ensures StrLe(a, b) || StrLe(b, a)
    decreases |a|
  {
    if a != [] && b != [] && a[0] == b[0] {
      StrLeTotal(a[1..], b[1..]);
    }
  }

  lemma {:induction false} StrLeTransitive(a: string, b: string, c: string)
    requires StrLe(a, b) && StrLe(b, c)
    ensures StrLe(a, c)
    decreases |a|
  {
    if a != [] && b != [] && c != [] && a[0] == b[0] && b[0] == c[0] {
      StrLeTransitive(a[1..], b[1..], c[1..]);
    }
  }

  /** Ascending order on an optional year: a missing (null) year sorts first. */
  predicate YearLe(a: Option<int>, b: Option<int>) {
    a.None? || (b.Some? && a.value <= b.value)
  }

  /** "a may come before b" under a sort document. */
  function Comparator(s: SortSpec, engine: TextEngine): (Book, Book) -> bool {
    match s
    case Unsorted => (a: Book, b: Book) => true
    case ByTextScore(q) => (a: Book, b: Book) => engine.textScore(q, a) >= engine.textScore(q, b)
    case ByTitle(o) =>
      if o == Asc then (a: Book, b: Book) => StrLe(a.title, b.title)
      else (a: Book, b: Book) => StrLe(b.title, a.title)
    case ByYear(o) =>
      if o == Asc then (a: Book, b: Book) => YearLe(a.firstPublishYear, b.firstPublishYear)
      else (a: Book, b: Book) => YearLe(b.firstPublishYear, a.firstPublishYear)
    case ByIdDescending => (a: Book, b: Book) => a.id >= b.id
  }

  /** Every sort document orders documents by a total preorder. */
  lemma ComparatorIsTotalPreorder(s: SortSpec, engine: TextEngine)
    ensures TotalPreorder(Comparator(s, engine))
  {
    var le := Comparator(s, engine);
    if s.ByTitle? {
      forall a: Book, b: Book
        ensures le(a, b) || le(b, a)
      {
        StrLeTotal(a.title, b.title);
      }
      forall a: Book, b: Book, c: Book | le(a, b) && le(b, c)
        ensures le(a, c)
      {
        if s.order == Asc {
          StrLeTransitive(a.title, b.title, c.title);
        } else {
          StrLeTransitive(c.title, b.title, a.title);
        }
      }
    }
  }

  /** The matching documents in the order the sort document asks for; without a
      sort document, in storage order. */
  function Ordered(docs: seq<Book>, s: SortSpec, engine: TextEngine): (r: seq<Book>)
    ensures multiset(r) == multiset(docs)
    ensures SortedBy(r, Comparator(s, engine))
  {
    ComparatorIsTotalPreorder(s, engine);
    if s.Unsorted? then docs
    else
      SortWithSorted(docs, Comparator(s, engine));
      SortWith(docs, Comparator(s, engine))
  }

  /** `find(f).sort(s).skip(skip).limit(limit)` */
  function FindDocs(docs: seq<Book>, f: BookFilter, s: SortSpec, skip: nat, limit: nat, engine: TextEngine): (r: seq<Book>)
    ensures |r| <= limit
    ensures forall b :: b in r ==> b in docs && Matches(f, b, engine)
    ensures SortedBy(r, Comparator(s, engine))
    ensures r == Window(Ordered(FilterDocs(docs, f, engine), s, engine), skip, limit)
  {
    var ordered := Ordered(FilterDocs(docs, f, engine), s, engine);
    WindowKeepsOrderAndMatches(docs, f, ordered, skip, limit, Comparator(s, engine), engine);
    Window(ordered, skip, limit)
  }

  lemma WindowKeepsOrderAndMatches(docs: seq<Book>, f: BookFilter, ordered: seq<Book>, skip: nat, limit: nat,
                                   le: (Book, Book) -> bool, engine: TextEngine)
    requires multiset(ordered) == multiset(FilterDocs(docs, f, engine))
    requires SortedBy(ordered, le)
    ensures forall b :: b in Window(ordered, skip, limit) ==> b in docs && Matches(f, b, engine)
    ensures SortedBy(Window(ordered, skip, limit), le)
  {
    var r := Window(ordered, skip, limit);
    if skip < |ordered| {
      SliceSorted(ordered, skip, Min(skip + limit, |ordered|), le);
      forall b | b in r
        ensures b in docs && Matches(f, b, engine)
      {
        assert b in multiset(ordered);
      }
    }
  }

  /** `countDocuments(f)`: every match, whatever page is asked for. That `total`
      is the size of the selection a page is cut from is stated by
      `BooksRepository.SearchMatchesQuery` and `LegacyBooksService.LegacyResponseContents`. */
  function CountDocs(docs: seq<Book>, f: BookFilter, engine: TextEngine): (n: nat)
    ensures n <= |docs|
  {
    |FilterDocs(docs, f, engine)|
  }

  /** Sorting by year ascending returns non-decreasing years, a missing year first. */
  lemma YearAscendingIsNonDecreasing(docs: seq<Book>, f: BookFilter, skip: nat, limit: nat, engine: TextEngine)
    ensures var r := FindDocs(docs, f, ByYear(Asc), skip, limit, engine);
      forall i, j :: 0 <= i < j < |r| ==> YearLe(r[i].firstPublishYear, r[j].firstPublishYear)
  {
    var r := FindDocs(docs, f, ByYear(Asc), skip, limit, engine);
    assert SortedBy(r, Comparator(ByYear(Asc), engine));
  }

  /** A book's page of results holds only matches, and walking the pages in order
      lists every match exactly once. */
  lemma PagesListEveryMatchOnce(docs: seq<Book>, f: BookFilter, s: SortSpec, limit: int, engine: TextEngine)
    requires limit >= 1
    ensures var ordered := Ordered(FilterDocs(docs, f, engine), s, engine);
      Paginate(ordered, limit, Pages(CountDocs(docs, f, engine), limit)) == ordered
  {
    var filtered := FilterDocs(docs, f, engine);
    var ordered := Ordered(filtered, s, engine);
    assert |ordered| == |multiset(ordered)| == |multiset(filtered)| == |filtered|;
    PagesCoverResult(ordered, limit);
  }
}
