/** The book entities: the stored document, the creation record written by an
    upsert, and the OpenLibrary search document it is normalised from. */
module Books {
  import opened Common

  /** A stored book document. `id` is the store-assigned `_id` (increasing with
      insertion); `searchKeywords` is None while the stored document lacks it. */
  datatype Book = Book(
    id: nat,
    title: string,
    authors: seq<string>,
    firstPublishYear: Option<int>,
    isbns: seq<string>,
    publishers: seq<string>,
    openLibraryId: string,
    searchKeywords: Option<seq<string>>)

  /** CreateBookDto: the fields an upsert writes. `firstPublishYear` None is an
      undefined value, written as null; `searchKeywords` None is an absent key,
      which leaves the stored field alone. */
  datatype CreateBookDto = CreateBookDto(
    title: string,
    authors: seq<string>,
    firstPublishYear: Option<int>,
    isbns: seq<string>,
    publishers: seq<string>,
    openLibraryId: string,
    searchKeywords: Option<seq<string>>)

  /** One entry of the OpenLibrary `docs` array. */
  datatype OpenLibraryDoc = OpenLibraryDoc(
    key: string,
    title: string,
    authorName: Option<seq<string>>,
    firstPublishYear: Option<int>,
    isbn: Option<seq<string>>,
    publisher: Option<seq<string>>)

  /** The outcome of `GET /search.json?q=...&limit=10` on OpenLibrary. */
  datatype FetchResponse = Fetched(docs: seq<OpenLibraryDoc>) | FetchFailed(message: string)

  /** The creation record built from an OpenLibrary document: `key` becomes the
      `openLibraryId`, and missing author, ISBN and publisher lists become []. */
  function ToCreateBookDto(doc: OpenLibraryDoc): (dto: CreateBookDto)
    ensures dto.openLibraryId == doc.key && dto.title == doc.title
    ensures dto.firstPublishYear == doc.firstPublishYear
    ensures doc.authorName.None? ==> dto.authors == []
    ensures doc.authorName.Some? ==> dto.authors == doc.authorName.value
    ensures doc.isbn.None? ==> dto.isbns == []
    ensures doc.isbn.Some? ==> dto.isbns == doc.isbn.value
    ensures doc.publisher.None? ==> dto.publishers == []
    ensures doc.publisher.Some? ==> dto.publishers == doc.publisher.value
    ensures dto.searchKeywords.None?
  {
    CreateBookDto(
      doc.title,
      doc.authorName.GetOr([]),
      doc.firstPublishYear,
      doc.isbn.GetOr([]),
      doc.publisher.GetOr([]),
      doc.key,
      None)
  }

  /** `docs.map(...)`: one creation record per document, same length and order. */
  function NormalizeDocs(docs: seq<OpenLibraryDoc>): (dtos: seq<CreateBookDto>)
    ensures |dtos| == |docs|
    ensures forall i :: 0 <= i < |docs| ==> dtos[i] == ToCreateBookDto(docs[i])
    decreases |docs|
  {
    if docs == [] then [] else [ToCreateBookDto(docs[0])] + NormalizeDocs(docs[1..])
  }

  /** The ids the records of a batch carry. */
  function Keys(dtos: seq<CreateBookDto>): set<string> {
    set i | 0 <= i < |dtos| :: dtos[i].openLibraryId
  }
}
