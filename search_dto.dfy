/** The request and event shapes of the book service (dto/search.dto.ts): the
    constraints and defaults of SearchBooksDto, the paginated SearchResponse, and
    SearchEventDto with its operation domain. */
module SearchDto {
  import opened Common

  datatype SortOrder = Asc | Desc

  const DefaultPage: int := 1
  const DefaultLimit: int := 20
  const MaxLimit: int := 100

  /** The query-string parameters of a local search as the validation pipe sees
      them, numbers already converted by `@Type(() => Number)`. */
  datatype SearchBooksQuery = SearchBooksQuery(
    q: Option<string>,
    author: Option<string>,
    year: Option<JsNumber>,
    isbn: Option<string>,
    sortBy: Option<string>,
    order: Option<string>,
    page: Option<JsNumber>,
    limit: Option<JsNumber>)

  /** SearchBooksDto as handed to the services. `page` and `limit` are optional in
      its type; the validation pipe's instance always carries them. */
  datatype SearchBooksDto = SearchBooksDto(
    q: Option<string>,
    author: Option<string>,
    year: Option<int>,
    isbn: Option<string>,
    sortBy: Option<string>,
    order: Option<SortOrder>,
    page: Option<int>,
    limit: Option<int>)
  {
    /** Every present paging property respects its declared bounds. */
    predicate Valid() {
      && (page.Some? ==> page.value >= 1)
      && (limit.Some? ==> 1 <= limit.value <= MaxLimit)
    }
  }

  /** `@IsEnum(SortOrder)` */
  function ParseOrder(s: string): Option<SortOrder> {
    if s == "asc" then Some(Asc) else if s == "desc" then Some(Desc) else None
  }

  /** `@IsOptional() @IsInt()` for `year`. */
  predicate YearOk(n: Option<JsNumber>) {
    n.None? || IsInteger(n.value)
  }

  /** `@IsOptional() @IsEnum(SortOrder)` for `order`. */
  predicate OrderOk(s: Option<string>) {
    s.None? || ParseOrder(s.value).Some?
  }

  /** `@IsOptional() @IsInt() @Min(1)`, and `@Max(max)` when `max` is given, for a paging number. */
  predicate PagingOk(n: Option<JsNumber>, max: Option<int>) {
    n.None? || (IsInteger(n.value) && 1 <= n.value.value.Floor && (max.Some? ==> n.value.value.Floor <= max.value))
  }

  /** An optional integral number with the field initialiser's default. */
  function IntegerOr(n: Option<JsNumber>, default: int): int
    requires n.Some? ==> n.value.Finite?
  {
    if n.Some? then n.value.value.Floor else default
  }

  /** The properties whose constraints fail, in declaration order. */
  function FailingSearchProperties(raw: SearchBooksQuery): seq<string> {
    (if YearOk(raw.year) then [] else ["year"])
    + (if OrderOk(raw.order) then [] else ["order"])
    + (if PagingOk(raw.page, None) then [] else ["page"])
    + (if PagingOk(raw.limit, Some(MaxLimit)) then [] else ["limit"])
  }

  /** The validation pipe on SearchBooksDto: `q`, `author`, `isbn` and `sortBy` are
      any strings; `year` an integer; `order` "asc" or "desc"; `page` an integer
      >= 1 defaulting to 1; `limit` an integer in 1..100 defaulting to 20. */
  function ValidateSearchBooks(raw: SearchBooksQuery): (r: Validation<SearchBooksDto>)
    ensures r.Accepted? <==>
      YearOk(raw.year) && OrderOk(raw.order) && PagingOk(raw.page, None) && PagingOk(raw.limit, Some(MaxLimit))
    ensures r.Refused? ==> r.properties == FailingSearchProperties(raw) && r.properties != []
    ensures r.Accepted? ==> r.value.Valid() && r.value.page.Some? && r.value.limit.Some?
    ensures r.Accepted? ==>
      && r.value.q == raw.q && r.value.author == raw.author && r.value.isbn == raw.isbn
      && r.value.sortBy == raw.sortBy
      && (raw.year.None? <==> r.value.year.None?)
      && (raw.year.Some? ==> r.value.year.value as real == raw.year.value.value)
      && (raw.order.None? <==> r.value.order.None?)
      && (raw.order.Some? ==> r.value.order == ParseOrder(raw.order.value))
      && (raw.page.None? ==> r.value.page == Some(DefaultPage))
      && (raw.page.Some? ==> r.value.page.value as real == raw.page.value.value)
      && (raw.limit.None? ==> r.value.limit == Some(DefaultLimit))
      && (raw.limit.Some? ==> r.value.limit.value as real == raw.limit.value.value)
  {
    var failing := FailingSearchProperties(raw);
    if failing != [] then Refused(failing)
    else
      Accepted(SearchBooksDto(
        raw.q, raw.author,
        if raw.year.Some? then Some(raw.year.value.value.Floor) else None,
        raw.isbn, raw.sortBy,
        if raw.order.Some? then ParseOrder(raw.order.value) else None,
        Some(IntegerOr(raw.page, DefaultPage)),
        Some(IntegerOr(raw.limit, DefaultLimit))))
  }

  /** `sortBy` is checked only to be a string: the Swagger enum of title, year
      or author is not enforced, so any value is accepted unchanged. */
  lemma SortByIsUnconstrained(raw: SearchBooksQuery, sortBy: string)
    requires ValidateSearchBooks(raw).Accepted?
    ensures ValidateSearchBooks(raw.(sortBy := Some(sortBy))).Accepted?
    ensures ValidateSearchBooks(raw.(sortBy := Some(sortBy))).value.sortBy == Some(sortBy)
  {
  }

  /** The two orders are exactly the strings "asc" and "desc". */
  lemma ParseOrderExact(s: string, o: SortOrder)
    ensures ParseOrder(s) == Some(o) <==> s == (if o == Asc then "asc" else "desc")
  {
  }

  /** A page of matches: `{ items, total, page, pages, limit }`. */
  datatype SearchResponse<T> = SearchResponse(items: seq<T>, total: int, page: int, pages: int, limit: int)

  /** SearchEventDto.operation */
  datatype Operation = ExternalSearch | LocalSearch {
    function Name(): string {
      match this
      case ExternalSearch => "EXTERNAL_SEARCH"
      case LocalSearch => "LOCAL_SEARCH"
    }
  }

  /** SearchEventDto: one search outcome. `error` is present on failures. */
  datatype SearchEvent = SearchEvent(
    operation: Operation,
    timestamp: int,
    query: string,
    resultsCount: int,
    duration: int,
    success: bool,
    error: Option<string>)
}
