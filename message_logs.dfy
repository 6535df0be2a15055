/** The message-log page of src/pages/message-logs/index.tsx: which row
    actions are offered, the labels of types and statuses, the filter record
    the selectors and the date-range picker edit, the list query, and the page
    state whose changes reload the list. */
module MessageLogs {
  import opened Js
  import opened Http
  import opened ApiTypes
  import MessageLogApi

  // ---------------------------------------------------------------------------
  // Row actions and labels

  /** The retry action is offered for a failed message. */
  predicate CanRetry(item: MessageLogItem) {
    item.status == Failed
  }

  /** The cancel action is offered for a pending message. */
  predicate CanCancel(item: MessageLogItem) {
    item.status == Pending
  }

  /** No row offers both actions, and a message that is being sent or was
      cancelled offers neither. */
  lemma ActionsExclusive(item: MessageLogItem)
    ensures !(CanRetry(item) && CanCancel(item))
    ensures item.status == Sending || item.status == Cancelled ==> !CanRetry(item) && !CanCancel(item)
  {
  }

  const UnknownLabel := "未知"

  /** `statusMap[status] || 未知`. */
  function StatusLabel(s: MessageStatus): (text: string)
    ensures s.UnlistedMessageStatus? <==> text == UnknownLabel
  {
    match s
    case Pending => "待发送"
    case Sending => "已发送"
    case Failed => "失败"
    case Cancelled => "已取消"
    case UnlistedMessageStatus(_) => UnknownLabel
  }

  /** The four named statuses have four different labels. */
  lemma StatusLabelsDistinct(s: MessageStatus, t: MessageStatus)
    requires !s.UnlistedMessageStatus? && !t.UnlistedMessageStatus?
    ensures StatusLabel(s) == StatusLabel(t) <==> s == t
  {
  }

  /** The type column: e-mail, and `Webhook` for every other type. */
  function TypeLabel(t: MessageType): (text: string)
    ensures text == "邮件" <==> t == Email
  {
    if t == Email then "邮件" else "Webhook"
  }

  // ---------------------------------------------------------------------------
  // The filter record

  const StartKey := "startAtUnix"
  const EndKey := "endAtUnix"

  /** `setFilters({ ...filters, [key]: value })`: only that key changes. */
  function WithFilter(filters: Object, key: string, value: JsValue): (f: Object)
    ensures key in f && f[key] == value
    ensures forall k :: k != key ==> (k in f <==> k in filters) && (k in filters ==> f[k] == filters[k])
  {
    filters[key := value]
  }

  /** `date.unix().toString()` for a date given in milliseconds since the
      epoch: whole seconds, rounded down. */
  function UnixSeconds(ms: int): string {
    IntToString(ms / 1000)
  }

  /** The seconds can be read back from the string, and they are the whole
      seconds of the moment. */
  lemma UnixSecondsRoundTrip(ms: int)
    ensures ParseInt(UnixSeconds(ms)) * 1000 <= ms < ParseInt(UnixSeconds(ms)) * 1000 + 1000
  {
    IntToStringRoundTrip(ms / 1000);
  }

  /** `dates[i]?.unix().toString()`: `undefined` for a missing end. */
  function RangeEnd(date: Option<int>): JsValue {
    if date.Some? then Str(UnixSeconds(date.value)) else Undefined
  }

  /** Choosing a range sets both ends and keeps every other filter. */
  function WithRange(filters: Object, start: Option<int>, end: Option<int>): (f: Object)
    ensures StartKey in f && f[StartKey] == RangeEnd(start)
    ensures EndKey in f && f[EndKey] == RangeEnd(end)
    ensures forall k :: k != StartKey && k != EndKey ==> (k in f <==> k in filters) && (k in filters ==> f[k] == filters[k])
  {
    filters + map[StartKey := RangeEnd(start), EndKey := RangeEnd(end)]
  }

  /** Clearing the range as written: `const { ...rest } = filters` copies
      every key, so the old range stays in the filters. */
  function ClearRangeAsWritten(filters: Object): (f: Object) {
    var rest := map k | k in filters :: filters[k];
    rest
  }

  /** As written, picking a range and clearing it leaves the range in the
      list query. */
  lemma ClearRangeAsWrittenKeepsRange(filters: Object, start: int, end: int)
    ensures var f := ClearRangeAsWritten(WithRange(filters, Some(start), Some(end)));
      StartKey in f && f[StartKey] == Str(UnixSeconds(start)) && f[EndKey] == Str(UnixSeconds(end))
  {
  }

  /** Clearing the range as evidently intended: both ends are dropped and
      every other filter is kept. */
  function ClearRange(filters: Object): (f: Object)
    ensures StartKey !in f && EndKey !in f
    ensures forall k :: k != StartKey && k != EndKey ==> (k in f <==> k in filters) && (k in filters ==> f[k] == filters[k])
  {
    filters - {StartKey, EndKey}
  }

  /** Clearing undoes choosing: the filters come back as they were before the
      range was picked, when they had no range then. */
  lemma ClearUndoesRange(filters: Object, start: Option<int>, end: Option<int>)
    requires StartKey !in filters && EndKey !in filters
    ensures ClearRange(WithRange(filters, start, end)) == filters
  {
    var f := ClearRange(WithRange(filters, start, end));
    assert f.Keys == filters.Keys;
  }

  /** The range picker's change handler as written; `None` is a cleared
      picker, which keeps the filters as they are. */
  function OnRangeChange(filters: Object, dates: Option<(Option<int>, Option<int>)>): (f: Object)
    ensures dates.None? ==> f == filters
    ensures dates.Some? ==> f == WithRange(filters, dates.value.0, dates.value.1)
  {
    if dates.Some? then WithRange(filters, dates.value.0, dates.value.1) else ClearRangeAsWritten(filters)
  }

  // ---------------------------------------------------------------------------
  // The list query

  /** `{ page, pageSize, ...filters }`. */
  function ListParams(page: int, pageSize: int, filters: Object): (p: Object)
    ensures p.Keys == filters.Keys + {"page", "pageSize"}
    ensures forall k :: k in filters ==> k in p && p[k] == filters[k]
    ensures "page" !in filters ==> p["page"] == Num(page)
    ensures "pageSize" !in filters ==> p["pageSize"] == Num(pageSize)
  {
    map["page" := Num(page), "pageSize" := Num(pageSize)] + filters
  }

  /** A filter change is seen by the next list query and changes nothing else
      in it. */
  lemma FilterReachesQuery(page: int, pageSize: int, filters: Object, key: string, value: JsValue)
    requires key != "page" && key != "pageSize"
    ensures var p := ListParams(page, pageSize, WithFilter(filters, key, value));
      && p[key] == value
      && forall k :: k != key ==> (k in p <==> k in ListParams(page, pageSize, filters))
                                  && (k in p ==> p[k] == ListParams(page, pageSize, filters)[k])
  {
  }

  // ---------------------------------------------------------------------------
  // The page

  /** What the loading effect depends on: the page, the page size, the
      filters object (each `setFilters` installs a new one) and the selected
      namespace. */
  datatype Deps = Deps(page: int, pageSize: int, filtersId: nat, namespace: Option<string>)

  class MessageLogsPage {
    var data: seq<MessageLogItem>
    var loading: bool
    var total: int
    var page: int
    var pageSize: int
    var filters: Object
    /** The identity of the current filters object. */
    var filtersId: nat
    var currentNamespace: Option<string>
    var selectedItem: Option<MessageLogItem>
    var drawerVisible: bool

    constructor (currentNamespace: Option<string>)
      ensures data == [] && !loading && total == 0 && page == 1 && pageSize == 10
      ensures filters == map[] && filtersId == 0
      ensures this.currentNamespace == currentNamespace
      ensures selectedItem == None && !drawerVisible
    {
      data := [];
      loading := false;
      total := 0;
      page := 1;
      pageSize := 10;
      filters := map[];
      filtersId := 0;
      this.currentNamespace := currentNamespace;
      selectedItem := None;
      drawerVisible := false;
    }

    function CurrentDeps(): Deps
      reads this
    {
      Deps(page, pageSize, filtersId, currentNamespace)
    }

    /** The list request `loadData` issues now. */
    function ListRequest(): Request
      reads this
    {
      MessageLogApi.List(ListParams(page, pageSize, filters))
    }

    /** `setFilters(next)`: a new filters object, so the list reloads. */
    method SetFilters(next: Object)
      modifies this
      ensures filters == next && filtersId == old(filtersId) + 1
      ensures page == old(page) && pageSize == old(pageSize) && currentNamespace == old(currentNamespace)
      ensures data == old(data) && total == old(total) && loading == old(loading)
      ensures selectedItem == old(selectedItem) && drawerVisible == old(drawerVisible)
      ensures CurrentDeps() != old(CurrentDeps())
    {
      filters := next;
      filtersId := filtersId + 1;
    }

    /** The type selector. */
    method OnTypeChange(value: JsValue)
      modifies this
      ensures filters == WithFilter(old(filters), "type", value)
      ensures CurrentDeps() != old(CurrentDeps())
      ensures page == old(page) && pageSize == old(pageSize) && data == old(data) && total == old(total)
      ensures loading == old(loading) && currentNamespace == old(currentNamespace)
      ensures selectedItem == old(selectedItem) && drawerVisible == old(drawerVisible)
    {
      SetFilters(filters["type" := value]);
    }

    /** The status selector. */
    method OnStatusChange(value: JsValue)
      modifies this
      ensures filters == WithFilter(old(filters), "status", value)
      ensures CurrentDeps() != old(CurrentDeps())
      ensures page == old(page) && pageSize == old(pageSize) && data == old(data) && total == old(total)
      ensures loading == old(loading) && currentNamespace == old(currentNamespace)
      ensures selectedItem == old(selectedItem) && drawerVisible == old(drawerVisible)
    {
      SetFilters(filters["status" := value]);
    }

    /** The date-range picker. */
    method OnDatesChange(dates: Option<(Option<int>, Option<int>)>)
      modifies this
      ensures filters == OnRangeChange(old(filters), dates)
      ensures dates.None? ==> filters == old(filters)
      ensures CurrentDeps() != old(CurrentDeps())
      ensures page == old(page) && pageSize == old(pageSize) && data == old(data) && total == old(total)
      ensures loading == old(loading) && currentNamespace == old(currentNamespace)
      ensures selectedItem == old(selectedItem) && drawerVisible == old(drawerVisible)
    {
      if dates.Some? {
        SetFilters(filters + map[StartKey := RangeEnd(dates.value.0), EndKey := RangeEnd(dates.value.1)]);
      } else {
        var rest := map k | k in filters :: filters[k];
        SetFilters(rest);
      }
    }

    /** The table's page change: the list reloads exactly when the page or
        the page size is different. */
    method OnPageChange(p: int, ps: int)
      modifies this
      ensures page == p && pageSize == ps
      ensures filters == old(filters) && filtersId == old(filtersId) && currentNamespace == old(currentNamespace)
      ensures data == old(data) && total == old(total) && loading == old(loading)
      ensures selectedItem == old(selectedItem) && drawerVisible == old(drawerVisible)
      ensures CurrentDeps() != old(CurrentDeps()) <==> p != old(page) || ps != old(pageSize)
    {
      page := p;
      pageSize := ps;
    }

    /** A new selected namespace from the namespace provider. */
    method OnNamespaceChange(ns: Option<string>)
      modifies this
      ensures currentNamespace == ns
      ensures page == old(page) && pageSize == old(pageSize) && filters == old(filters) && filtersId == old(filtersId)
      ensures data == old(data) && total == old(total) && loading == old(loading)
      ensures selectedItem == old(selectedItem) && drawerVisible == old(drawerVisible)
      ensures CurrentDeps() != old(CurrentDeps()) <==> ns != old(currentNamespace)
    {
      currentNamespace := ns;
    }

    /** `loadData()`: the list request for the current page and filters, and
        its `outcome`. A failure keeps the old rows. */
    method LoadData(outcome: Outcome<Page<MessageLogItem>>) returns (request: Request)
      modifies this
      ensures request == old(ListRequest())
      ensures request.params == ListParams(page, pageSize, filters)
      ensures outcome.Success? ==> data == outcome.data.items && total == outcome.data.total
      ensures outcome.Failure? ==> data == old(data) && total == old(total)
      ensures !loading
      ensures page == old(page) && pageSize == old(pageSize) && filters == old(filters) && filtersId == old(filtersId)
      ensures currentNamespace == old(currentNamespace)
      ensures selectedItem == old(selectedItem) && drawerVisible == old(drawerVisible)
    {
      loading := true;
      request := MessageLogApi.List(map["page" := Num(page), "pageSize" := Num(pageSize)] + filters);
      if outcome.Success? {
        data := outcome.data.items;
        total := outcome.data.total;
      }
      loading := false;
    }

    /** `handleRetry(record)`: the retry request, and a reload when it
        succeeded. */
    method HandleRetry(record: MessageLogItem, retried: Outcome<JsValue>) returns (requests: seq<Request>)
      ensures requests == [MessageLogApi.Retry(record.uid)] + (if retried.Success? then [ListRequest()] else [])
    {
      requests := [MessageLogApi.Retry(record.uid)];
      if retried.Success? {
        requests := requests + [ListRequest()];
      }
    }

    /** `handleCancel(record)`: the cancel request, and a reload when it
        succeeded. */
    method HandleCancel(record: MessageLogItem, cancelled: Outcome<JsValue>) returns (requests: seq<Request>)
      ensures requests == [MessageLogApi.Cancel(record.uid)] + (if cancelled.Success? then [ListRequest()] else [])
    {
      requests := [MessageLogApi.Cancel(record.uid)];
      if cancelled.Success? {
        requests := requests + [ListRequest()];
      }
    }

    /** `handleViewDetail(record)`: the detail request; a loaded detail is
        shown in the drawer. */
    method HandleViewDetail(record: MessageLogItem, got: Outcome<MessageLogItem>) returns (request: Request)
      modifies this
      ensures request == MessageLogApi.Get(record.uid)
      ensures got.Success? ==> selectedItem == Some(got.data) && drawerVisible
      ensures got.Failure? ==> selectedItem == old(selectedItem) && drawerVisible == old(drawerVisible)
      ensures data == old(data) && filters == old(filters) && CurrentDeps() == old(CurrentDeps())
      ensures loading == old(loading) && total == old(total) && filtersId == old(filtersId)
    {
      request := MessageLogApi.Get(record.uid);
      if got.Success? {
        selectedItem := Some(got.data);
        drawerVisible := true;
      }
    }
  }
}
