/** SearchLogsService (service-b): stores every search event it receives as a log
    record and answers paginated log queries, newest first. The log collection is
    a sequence of records in insertion order. */
module SearchLogs {
  import opened Common
  import opened SearchDto
  import opened GetLogsDto
  import opened Pagination
  import opened Sorting

  /** A stored search log: the event's fields and the identity the store gave it. */
  datatype SearchLog = SearchLog(
    id: nat,
    operation: Operation,
    timestamp: int,
    query: string,
    resultsCount: int,
    duration: int,
    success: bool,
    error: Option<string>)

  /** The filter document `getLogs` builds: optional `$gte`/`$lte` bounds on
      `timestamp` and an optional `operation` equality. */
  datatype LogFilter = LogFilter(from: Option<int>, to: Option<int>, operation: Option<Operation>)

  predicate LogMatches(f: LogFilter, log: SearchLog) {
    && (f.from.Some? ==> log.timestamp >= f.from.value)
    && (f.to.Some? ==> log.timestamp <= f.to.value)
    && (f.operation.Some? ==> log.operation == f.operation.value)
  }

  /** What a log query asks for: a truthy `startDate` is an inclusive lower bound,
      a truthy `endDate` an inclusive upper bound, and a given `operation` must be
      the log's; an absent bound asks nothing. */
  predicate Selected(params: GetLogsParams, parseDate: string -> Option<int>, log: SearchLog)
    requires params.Valid(parseDate)
  {
    && (Truthy(params.startDate) ==> log.timestamp >= parseDate(params.startDate.value).value)
    && (Truthy(params.endDate) ==> log.timestamp <= parseDate(params.endDate.value).value)
    && (params.operation.Some? ==> log.operation == params.operation.value)
  }

  /** The logs a query selects, in storage order. */
  function SelectedLogs(logs: seq<SearchLog>, params: GetLogsParams, parseDate: string -> Option<int>): (r: seq<SearchLog>)
    requires params.Valid(parseDate)
    ensures |r| <= |logs|
    ensures forall l :: l in r <==> l in logs && Selected(params, parseDate, l)
    decreases |logs|
  {
    if logs == [] then []
    else (if Selected(params, parseDate, logs[0]) then [logs[0]] else []) + SelectedLogs(logs[1..], params, parseDate)
  }

  /** `find(filter)` in storage order. */
  function FilterLogs(logs: seq<SearchLog>, f: LogFilter): (r: seq<SearchLog>)
    decreases |logs|
  {
    if logs == [] then []
    else (if LogMatches(f, logs[0]) then [logs[0]] else []) + FilterLogs(logs[1..], f)
  }

  /** A filter that matches exactly what the query selects finds exactly the selected logs. */
  lemma {:induction false} FilterFindsSelected(logs: seq<SearchLog>, f: LogFilter, params: GetLogsParams, parseDate: string -> Option<int>)
    requires params.Valid(parseDate)
    requires forall l :: LogMatches(f, l) <==> Selected(params, parseDate, l)
    ensures FilterLogs(logs, f) == SelectedLogs(logs, params, parseDate)
    decreases |logs|
  {
    if logs != [] {
      FilterFindsSelected(logs[1..], f, params, parseDate);
    }
  }

  /** `{ timestamp: -1 }`: newest first. */
  function NewestFirst(): (SearchLog, SearchLog) -> bool {
    (a: SearchLog, b: SearchLog) => a.timestamp >= b.timestamp
  }

  lemma NewestFirstIsTotalPreorder()
    ensures TotalPreorder(NewestFirst())
  {
  }

  /** The selected logs, newest first. */
  function Newest(matching: seq<SearchLog>): (r: seq<SearchLog>)
    ensures multiset(r) == multiset(matching)
    ensures SortedBy(r, NewestFirst())
  {
    NewestFirstIsTotalPreorder();
    SortWithSorted(matching, NewestFirst());
    SortWith(matching, NewestFirst())
  }

  /** `find(query).sort({ timestamp: -1 }).skip(skip).limit(limit)` with the count
      and the page arithmetic, over the logs the query selects. */
  function LogsPage(matching: seq<SearchLog>, page: int, limit: int): (r: SearchResponse<SearchLog>)
    requires page >= 1 && 1 <= limit
    ensures r.page == page && r.limit == limit && r.total == |matching|
    ensures |r.items| <= limit
    ensures forall l :: l in r.items ==> l in matching
    ensures SortedBy(r.items, NewestFirst())
  {
    var ordered := Newest(matching);
    WindowSorted(ordered, Skip(page, limit), limit, NewestFirst());
    assert forall l :: l in ordered ==> l in multiset(matching);
    SearchResponse(Window(ordered, Skip(page, limit), limit), |matching|, page, Pages(|matching|, limit), limit)
  }

  function PageOf(params: GetLogsParams): int { params.page.GetOr(DefaultPage) }
  function LimitOf(params: GetLogsParams): int { params.limit.GetOr(DefaultLimit) }

  /** The page of a selection holds logs with non-increasing timestamps, and
      `pages` is `ceil(total / limit)`. */
  lemma PageOfSelectionOrder(matching: seq<SearchLog>, page: int, limit: int)
    requires page >= 1 && 1 <= limit
    ensures var r := LogsPage(matching, page, limit);
      && (forall i, j :: 0 <= i < j < |r.items| ==> r.items[i].timestamp >= r.items[j].timestamp)
      && r.pages * r.limit >= r.total && (r.pages == 0 <==> r.total == 0)
      && (r.pages > 0 ==> (r.pages - 1) * r.limit < r.total)
  {
    var r := LogsPage(matching, page, limit);
    assert r.pages == Pages(|matching|, limit);
    assert SortedBy(r.items, NewestFirst());
  }

  /** Whatever logs a query selects, its page is taken from position
      `(page - 1) * limit` of their newest-first order, and walking the pages
      `1..pages` lists every selected log exactly once, newest first. */
  lemma LogsPagesCoverSelection(matching: seq<SearchLog>, page: int, limit: int)
    requires page >= 1 && 1 <= limit
    ensures var r := LogsPage(matching, page, limit);
      && Paginate(Newest(matching), r.limit, r.pages) == Newest(matching)
      && forall i :: 0 <= i < |r.items| ==> r.items[i] == Newest(matching)[Skip(r.page, r.limit) + i]
  {
    var ordered := Newest(matching);
    var r := LogsPage(matching, page, limit);
    assert Paginate(ordered, r.limit, r.pages) == ordered by {
      assert r.limit == limit && r.pages == Pages(|ordered|, limit) by {
        assert |ordered| == |multiset(ordered)| == |multiset(matching)| == |matching|;
      }
      PagesCoverResult(ordered, limit);
    }
    assert r.items == Window(ordered, Skip(r.page, r.limit), r.limit);
  }

  /** A page holds at most `limit` selected logs, newest first; `total` counts every
      selected log whatever the page; `pages` is `ceil(total / limit)`. */
  lemma LogsPageContents(logs: seq<SearchLog>, params: GetLogsParams, parseDate: string -> Option<int>)
    requires params.Valid(parseDate)
    ensures var matching := SelectedLogs(logs, params, parseDate);
      var r := LogsPage(matching, PageOf(params), LimitOf(params));
      && |r.items| <= r.limit
      && (forall l :: l in r.items ==> l in logs && Selected(params, parseDate, l))
      && (forall i, j :: 0 <= i < j < |r.items| ==> r.items[i].timestamp >= r.items[j].timestamp)
      && r.total == |matching|
      && r.pages * r.limit >= r.total && (r.pages == 0 <==> r.total == 0)
      && (r.pages > 0 ==> (r.pages - 1) * r.limit < r.total)
  {
    PageOfSelectionOrder(SelectedLogs(logs, params, parseDate), PageOf(params), LimitOf(params));
  }

  /** Which page is asked for does not change the selection, so `total` is the
      same on every page. */
  lemma {:induction false} LogsTotalIgnoresPage(logs: seq<SearchLog>, params: GetLogsParams, parseDate: string -> Option<int>, page: int)
    requires params.Valid(parseDate) && page >= 1
    ensures SelectedLogs(logs, params.(page := Some(page)), parseDate) == SelectedLogs(logs, params, parseDate)
    decreases |logs|
  {
    if logs != [] {
      LogsTotalIgnoresPage(logs[1..], params, parseDate, page);
    }
  }

  /** The log collection. */
  class LogCollection {
    var logs: seq<SearchLog>
    var nextId: nat

    constructor ()
      ensures logs == [] && nextId == 0
    {
      logs := [];
      nextId := 0;
    }

    /** `new searchLogModel(event).save()`; `failure` is an error the store raises instead. */
    method Save(log: SearchLog, failure: Option<string>) returns (o: Outcome)
      modifies this
      ensures failure.Some? ==> o == Fail(Rejected(failure.value)) && logs == old(logs) && nextId == old(nextId)
      ensures failure.None? ==> o == Pass && logs == old(logs) + [log.(id := old(nextId))] && nextId == old(nextId) + 1
    {
      if failure.Some? {
        o := Fail(Rejected(failure.value));
      } else {
        logs := logs + [log.(id := nextId)];
        nextId := nextId + 1;
        o := Pass;
      }
    }
  }

  /** The log record of a received event; the store assigns its id. */
  function LogOf(event: SearchEvent): (l: SearchLog)
    ensures l.operation == event.operation && l.timestamp == event.timestamp && l.query == event.query
    ensures l.resultsCount == event.resultsCount && l.duration == event.duration
    ensures l.success == event.success && l.error == event.error
  {
    SearchLog(0, event.operation, event.timestamp, event.query, event.resultsCount, event.duration, event.success, event.error)
  }

  /** The query's filter document, built clause by clause. */
  method BuildLogFilter(params: GetLogsParams, parseDate: string -> Option<int>) returns (f: LogFilter)
    requires params.Valid(parseDate)
    ensures forall l :: LogMatches(f, l) <==> Selected(params, parseDate, l)
    ensures f.from.Some? <==> Truthy(params.startDate)
    ensures f.to.Some? <==> Truthy(params.endDate)
  {
    f := LogFilter(None, None, None);
    if Truthy(params.startDate) || Truthy(params.endDate) {
      if Truthy(params.startDate) {
        f := f.(from := parseDate(params.startDate.value));
      }
      if Truthy(params.endDate) {
        f := f.(to := parseDate(params.endDate.value));
      }
    }
    if params.operation.Some? {
      f := f.(operation := params.operation);
    }
  }

  class SearchLogsService {
    const collection: LogCollection

    constructor (collection: LogCollection)
      ensures this.collection == collection
    {
      this.collection := collection;
    }

    /** `getLogs(params)`: the page of selected logs, with `page` defaulting to 1 and
        `limit` to 20; `readFailure` is an error the store raises, passed on as is. */
    method GetLogs(params: GetLogsParams, parseDate: string -> Option<int>, readFailure: Option<string>)
      returns (r: Result<SearchResponse<SearchLog>>)
      requires params.Valid(parseDate)
      ensures readFailure.Some? ==> r == Err(Rejected(readFailure.value))
      ensures readFailure.None? ==>
        r == Ok(LogsPage(SelectedLogs(collection.logs, params, parseDate), PageOf(params), LimitOf(params)))
    {
      var f := BuildLogFilter(params, parseDate);
      if readFailure.Some? {
        return Err(Rejected(readFailure.value));
      }
      var matching := FilterLogs(collection.logs, f);
      FilterFindsSelected(collection.logs, f, params, parseDate);
      r := Ok(LogsPage(matching, PageOf(params), LimitOf(params)));
    }

    /** `logSearchEvent(event)`: appends one log built from the event; a store
        failure is rethrown. */
    method LogSearchEvent(event: SearchEvent, failure: Option<string>) returns (o: Outcome)
      modifies collection
      ensures failure.Some? ==> o == Fail(Rejected(failure.value)) && collection.logs == old(collection.logs)
      ensures failure.None? ==> o == Pass && collection.logs == old(collection.logs) + [LogOf(event).(id := old(collection.nextId))]
      ensures collection.nextId >= old(collection.nextId)
    {
      o := collection.Save(LogOf(event), failure);
    }
  }
}
