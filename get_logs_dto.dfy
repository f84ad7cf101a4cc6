/** The request shape of the log query (service-b dto/get-logs.dto.ts). */
module GetLogsDto {
  import opened Common
  import opened SearchDto

  /** The query-string parameters of `GET /logs`, numbers converted by `@Type(() => Number)`. */
  datatype GetLogsQuery = GetLogsQuery(
    startDate: Option<string>,
    endDate: Option<string>,
    operation: Option<string>,
    page: Option<JsNumber>,
    limit: Option<JsNumber>)

  /** GetLogsDto as handed to the service. */
  datatype GetLogsParams = GetLogsParams(
    startDate: Option<string>,
    endDate: Option<string>,
    operation: Option<Operation>,
    page: Option<int>,
    limit: Option<int>)
  {
    /** Every present property respects its constraint; `parseDate` is the date
        reading used by both `@IsDateString()` and `new Date(...)`. */
    predicate Valid(parseDate: string -> Option<int>) {
      && (startDate.Some? ==> parseDate(startDate.value).Some?)
      && (endDate.Some? ==> parseDate(endDate.value).Some?)
      && (page.Some? ==> page.value >= 1)
      && (limit.Some? ==> 1 <= limit.value <= MaxLimit)
    }
  }

  /** `@IsEnum(['EXTERNAL_SEARCH', 'LOCAL_SEARCH'])` */
  function ParseOperation(s: string): (r: Option<Operation>)
    ensures r.Some? ==> r.value.Name() == s
  {
    if s == "EXTERNAL_SEARCH" then Some(ExternalSearch)
    else if s == "LOCAL_SEARCH" then Some(LocalSearch)
    else None
  }

  /** Every operation name is accepted and read back as that operation. */
  lemma ParseOperationRoundTrip(op: Operation)
    ensures ParseOperation(op.Name()) == Some(op)
  {
  }

  predicate DateOk(s: Option<string>, parseDate: string -> Option<int>) {
    s.None? || parseDate(s.value).Some?
  }

  predicate OperationOk(s: Option<string>) {
    s.None? || ParseOperation(s.value).Some?
  }

  function FailingLogsProperties(raw: GetLogsQuery, parseDate: string -> Option<int>): seq<string> {
    (if DateOk(raw.startDate, parseDate) then [] else ["startDate"])
    + (if DateOk(raw.endDate, parseDate) then [] else ["endDate"])
    + (if OperationOk(raw.operation) then [] else ["operation"])
    + (if PagingOk(raw.page, None) then [] else ["page"])
    + (if PagingOk(raw.limit, Some(MaxLimit)) then [] else ["limit"])
  }

  /** The validation pipe on GetLogsDto: optional date strings, an optional
      operation name, `page` an integer >= 1 defaulting to 1, `limit` an integer in
      1..100 defaulting to 20. */
  function ValidateGetLogs(raw: GetLogsQuery, parseDate: string -> Option<int>): (r: Validation<GetLogsParams>)
    ensures r.Accepted? <==>
      && DateOk(raw.startDate, parseDate) && DateOk(raw.endDate, parseDate)
      && OperationOk(raw.operation)
      && PagingOk(raw.page, None) && PagingOk(raw.limit, Some(MaxLimit))
    ensures r.Refused? ==> r.properties == FailingLogsProperties(raw, parseDate) && r.properties != []
    ensures r.Accepted? ==> r.value.Valid(parseDate) && r.value.page.Some? && r.value.limit.Some?
    ensures r.Accepted? ==>
      && r.value.startDate == raw.startDate && r.value.endDate == raw.endDate
      && (raw.operation.None? <==> r.value.operation.None?)
      && (raw.operation.Some? ==> r.value.operation.value.Name() == raw.operation.value)
      && (raw.page.None? ==> r.value.page == Some(DefaultPage))
      && (raw.page.Some? ==> r.value.page.value as real == raw.page.value.value)
      && (raw.limit.None? ==> r.value.limit == Some(DefaultLimit))
      && (raw.limit.Some? ==> r.value.limit.value as real == raw.limit.value.value)
  {
    var failing := FailingLogsProperties(raw, parseDate);
    if failing != [] then Refused(failing)
    else
      Accepted(GetLogsParams(
        raw.startDate, raw.endDate,
        if raw.operation.Some? then ParseOperation(raw.operation.value) else None,
        Some(IntegerOr(raw.page, DefaultPage)),
        Some(IntegerOr(raw.limit, DefaultLimit))))
  }
}
