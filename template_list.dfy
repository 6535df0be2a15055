/** The template list page of src/pages/templates/index.tsx: its own copy of
    the app-to-send-type mapping, the conversion of listed templates into
    table rows, the normalisation of the list query in `getTemplateList`, the
    query the page's effect builds, and the search state the page keeps. */
module TemplateList {
  import opened Js
  import opened Http
  import opened ApiEnum
  import opened ApiTypes
  import TemplateApi
  import TemplateEdit

  // ---------------------------------------------------------------------------
  // Table rows

  /** This file's `mapTemplateAPPToAlarmSendType`. */
  function ToSendType(a: TemplateApp): AlarmSendType {
    match a
    case TEMPLATE_APP_EMAIL => AlarmSendTypeEmail
    case TEMPLATE_APP_WEBHOOK_DINGTALK => AlarmSendTypeDingTalk
    case TEMPLATE_APP_WEBHOOK_WECHAT => AlarmSendTypeWeChat
    case TEMPLATE_APP_WEBHOOK_FEISHU => AlarmSendTypeFeiShu
    case TEMPLATE_APP_WEBHOOK_OTHER => AlarmSendTypeCustom
    case _ => AlarmSendTypeEmail
  }

  /** The two copies of the mapping agree everywhere. */
  lemma MappingCopiesAgree(a: TemplateApp)
    ensures ToSendType(a) == TemplateEdit.ToSendType(a)
  {
  }

  /** `SendTemplateItem`, the row the table shows. */
  datatype SendTemplateItem = SendTemplateItem(
    id: JsValue,
    name: string,
    sendType: AlarmSendType,
    status: Status,
    content: string,
    updatedAt: string,
    createdAt: string)

  /** `convertTemplateItemToSendTemplateItem(item, index)`. */
  function ConvertItem(item: TemplateItem, index: nat): (row: SendTemplateItem)
    ensures item.uid != "" ==> row.id == Str(item.uid)
    ensures item.uid == "" ==> row.id == Num(index + 1)
    ensures row.status == StatusEnable <==> item.status == ENABLED
    ensures row.status != StatusAll
    ensures row.name == item.name && row.content == item.jsonData
    ensures row.createdAt == item.createdAt && row.updatedAt == item.updatedAt
  {
    SendTemplateItem(
      if item.uid != "" then Str(item.uid) else Num(index + 1),
      item.name,
      ToSendType(item.app),
      if item.status == ENABLED then StatusEnable else StatusDisable,
      item.jsonData,
      item.updatedAt,
      item.createdAt)
  }

  /** `items.map(convertTemplateItemToSendTemplateItem)`: one row per item, in
      order, each converted with its own index. */
  function ConvertList(items: seq<TemplateItem>): (rows: seq<SendTemplateItem>)
    ensures |rows| == |items|
    ensures forall i :: 0 <= i < |items| ==> rows[i] == ConvertItem(items[i], i)
  {
    seq(|items|, i requires 0 <= i < |items| => ConvertItem(items[i], i))
  }

  /** The rows have distinct ids when the non-empty uids are distinct: an
      empty uid falls back to a number, which differs from every uid and from
      every other row's number. */
  lemma ConvertedIdsDistinct(items: seq<TemplateItem>, i: int, j: int)
    requires forall p, q :: 0 <= p < q < |items| && items[p].uid != "" ==> items[p].uid != items[q].uid
    requires 0 <= i < |items| && 0 <= j < |items| && i != j
    ensures ConvertList(items)[i].id != ConvertList(items)[j].id
  {
    var rows := ConvertList(items);
    assert rows[i] == ConvertItem(items[i], i);
    assert rows[j] == ConvertItem(items[j], j);
    if items[i].uid != "" && items[j].uid != "" {
      if i < j {
        assert items[i].uid != items[j].uid;
      } else {
        assert items[j].uid != items[i].uid;
      }
    }
  }

  /** What `getTemplateList` resolves to. */
  datatype TemplateListResult = TemplateListResult(list: seq<SendTemplateItem>, total: int, page: int, pageSize: int)

  /** The result for a listed page: the converted rows, with total, page and
      page size copied. */
  function ListResult(page: Page<TemplateItem>): (res: TemplateListResult)
    ensures res.list == ConvertList(page.items)
    ensures res.total == page.total && res.page == page.page && res.pageSize == page.pageSize
  {
    TemplateListResult(ConvertList(page.items), page.total, page.page, page.pageSize)
  }

  // ---------------------------------------------------------------------------
  // The list query

  /** The status filter of a query: `StatusEnable` is `ENABLED`, every other
      truthy value `DISABLED`. */
  function ConvertStatus(status: JsValue): (g: JsValue)
    ensures g == GlobalStatusValue(ENABLED) <==> status == StatusValue(StatusEnable)
    ensures g == GlobalStatusValue(ENABLED) || g == GlobalStatusValue(DISABLED)
  {
    if status == StatusValue(StatusEnable) then GlobalStatusValue(ENABLED) else GlobalStatusValue(DISABLED)
  }

  /** `if ('status' in params && params.status) apiParams.status = ...`. */
  function WithStatusFilter(base: Object, params: Object): (o: Object)
    ensures "status" in o <==> "status" in base || Truthy(Prop(params, "status"))
    ensures Truthy(Prop(params, "status")) ==> o["status"] == ConvertStatus(params["status"])
    ensures forall k :: k != "status" ==> (k in o <==> k in base) && (k in base ==> o[k] == base[k])
  {
    if "status" in params && Truthy(params["status"]) then base["status" := ConvertStatus(params["status"])] else base
  }

  /** The query `getTemplateList` sends for `params`: with `pagination`, its
      `pageNum || page` and `pageSize`; without it, `page || 1` and
      `pageSize || 50`; always the keyword, and the status converted when it is
      truthy. `None` when `pagination` is present but `null` or `undefined`,
      where reading its fields throws. */
  function ListParams(params: Object): (p: Option<Object>)
    ensures p.None? <==> "pagination" in params && (params["pagination"] == Null || params["pagination"] == Undefined)
  {
    if "pagination" in params then
      var pagination := params["pagination"];
      if pagination == Null || pagination == Undefined then None
      else Some(WithStatusFilter(map[
        "page" := Or(Member(pagination, "pageNum"), Member(pagination, "page")),
        "pageSize" := Member(pagination, "pageSize"),
        "keyword" := Prop(params, "keyword")], params))
    else
      Some(WithStatusFilter(map[
        "page" := Or(Prop(params, "page"), Num(1)),
        "pageSize" := Or(Prop(params, "pageSize"), Num(50)),
        "keyword" := Prop(params, "keyword")], params))
  }

  /** The listed properties of the normalised query. */
  lemma ListParamsFacts(params: Object)
    requires ListParams(params).Some?
    ensures var p := ListParams(params).value;
      && p.Keys == {"page", "pageSize", "keyword"} + (if Truthy(Prop(params, "status")) then {"status"} else {})
      && p["keyword"] == Prop(params, "keyword")
      && ("pagination" !in params ==>
           && (!Truthy(Prop(params, "page")) ==> p["page"] == Num(1))
           && (!Truthy(Prop(params, "pageSize")) ==> p["pageSize"] == Num(50))
           && (Truthy(Prop(params, "page")) ==> p["page"] == params["page"]))
      && ("pagination" in params ==>
           var pagination := params["pagination"];
           && p["page"] == Or(Member(pagination, "pageNum"), Member(pagination, "page"))
           && p["pageSize"] == Member(pagination, "pageSize"))
      && (Truthy(Prop(params, "status")) ==>
           (p["status"] == Str("ENABLED") <==> params["status"] == StatusValue(StatusEnable)))
  {
  }

  /** The url and parameters of the list call for `params`. */
  function ListRequest(params: Object): (r: Option<Request>)
    ensures r.Some? <==> ListParams(params).Some?
    ensures r.Some? ==> r.value.verb == GET && r.value.params == ListParams(params).value
  {
    if ListParams(params).Some? then Some(TemplateApi.List(ListParams(params).value)) else None
  }

  // ---------------------------------------------------------------------------
  // The query the page's effect builds

  /** The common part of the effect's query: `pageNum || page`, `pageSize`
      and the keyword. */
  function EffectBase(pagination: JsValue, searchParams: Object): Object {
    map[
      "page" := Or(Member(pagination, "pageNum"), Member(pagination, "page")),
      "pageSize" := Member(pagination, "pageSize"),
      "keyword" := Prop(searchParams, "keyword")]
  }

  /** The effect as written: it already converts a truthy status to a
      `GlobalStatus` before handing the query to `getTemplateList`. */
  function EffectParamsAsWritten(searchParams: Object): (p: Option<Object>)
    ensures p.None? <==> Prop(searchParams, "pagination") == Null || Prop(searchParams, "pagination") == Undefined
  {
    var pagination := Prop(searchParams, "pagination");
    if pagination == Null || pagination == Undefined then None
    else
      var base := EffectBase(pagination, searchParams);
      Some(if Truthy(Prop(searchParams, "status")) then base["status" := ConvertStatus(searchParams["status"])] else base)
  }

  /** As written, `getTemplateList` converts the converted status again and
      compares the string `'ENABLED'` with the number of `StatusEnable`: every
      status filter, the enabled one included, asks for disabled templates. */
  lemma EffectAsWrittenAlwaysAsksDisabled(searchParams: Object)
    requires Prop(searchParams, "pagination").Obj?
    requires Truthy(Prop(searchParams, "status"))
    ensures ListParams(EffectParamsAsWritten(searchParams).value).Some?
    ensures ListParams(EffectParamsAsWritten(searchParams).value).value["status"] == Str("DISABLED")
  {
    var p := EffectParamsAsWritten(searchParams).value;
    assert Truthy(Prop(p, "status"));
    StatusValueFacts(StatusEnable, StatusEnable);
    assert p["status"] != StatusValue(StatusEnable);
  }

  /** A concrete case: the enabled filter on the first page. */
  lemma EffectAsWrittenEnabledExample()
    ensures var sp := map["pagination" := Obj(map["page" := Num(1), "pageSize" := Num(50), "pageNum" := Num(1)]),
                          "status" := StatusValue(StatusEnable)];
      ListParams(EffectParamsAsWritten(sp).value).value["status"] == Str("DISABLED")
  {
    var sp := map["pagination" := Obj(map["page" := Num(1), "pageSize" := Num(50), "pageNum" := Num(1)]),
                  "status" := StatusValue(StatusEnable)];
    EffectAsWrittenAlwaysAsksDisabled(sp);
  }

  /** The effect as evidently intended: it passes the status on unconverted,
      so that `getTemplateList` converts it once. */
  function EffectParams(searchParams: Object): (p: Option<Object>)
    ensures p.None? <==> Prop(searchParams, "pagination") == Null || Prop(searchParams, "pagination") == Undefined
  {
    var pagination := Prop(searchParams, "pagination");
    if pagination == Null || pagination == Undefined then None
    else
      var base := EffectBase(pagination, searchParams);
      Some(if Truthy(Prop(searchParams, "status")) then base["status" := searchParams["status"]] else base)
  }

  /** With the status passed on unconverted, the enabled filter asks for
      enabled templates, and the effect's query is the one the refresh button
      sends for the same search state, whenever the page and page size are set. */
  lemma EffectAgreesWithRefresh(searchParams: Object)
    requires "pagination" in searchParams && searchParams["pagination"].Obj?
    requires Truthy(Or(Member(searchParams["pagination"], "pageNum"), Member(searchParams["pagination"], "page")))
    requires Truthy(Member(searchParams["pagination"], "pageSize"))
    ensures ListParams(EffectParams(searchParams).value) == ListParams(searchParams)
    ensures Prop(searchParams, "status") == StatusValue(StatusEnable) ==>
      ListParams(EffectParams(searchParams).value).value["status"] == Str("ENABLED")
  {
    var p := EffectParams(searchParams).value;
    var l := ListParams(p).value;
    var d := ListParams(searchParams).value;
    assert l.Keys == d.Keys;
    assert forall k :: k in l ==> l[k] == d[k];
  }

  // ---------------------------------------------------------------------------
  // The page's search state

  /** The search state on load. */
  const InitialSearch: Object :=
    map["pagination" := Obj(map["page" := Num(1), "pageSize" := Num(50), "pageNum" := Num(1)])]

  /** The search state `onReset` installs. */
  const ResetSearch: Object := map["pagination" := Obj(map["page" := Num(1), "pageSize" := Num(50)])]

  /** `handleTurnPage(pageNum, pageSize)`: `page` and `pageNum` become the new
      page and `pageSize` the new size; every other pagination field and every
      other search field is kept. */
  function TurnPage(searchParams: Object, pageNum: int, pageSize: int): (s: Object)
    ensures "pagination" in s && s["pagination"].Obj?
    ensures var p := s["pagination"].fields;
      && Prop(p, "page") == Num(pageNum) && Prop(p, "pageNum") == Num(pageNum) && Prop(p, "pageSize") == Num(pageSize)
      && forall k :: k !in {"page", "pageNum", "pageSize"} ==> Prop(p, k) == Member(Prop(searchParams, "pagination"), k)
    ensures forall k :: k != "pagination" ==> Prop(s, k) == Prop(searchParams, k)
  {
    var pagination := SpreadOf(Prop(searchParams, "pagination"));
    searchParams["pagination" := Obj(pagination + map["page" := Num(pageNum), "pageNum" := Num(pageNum), "pageSize" := Num(pageSize)])]
  }

  /** After a page turn to a non-zero page, the list query asks for that page
      and size and keeps the keyword and status filter. */
  lemma TurnPageQuery(searchParams: Object, pageNum: int, pageSize: int)
    requires pageNum != 0
    ensures var p := ListParams(TurnPage(searchParams, pageNum, pageSize));
      && p.Some?
      && p.value["page"] == Num(pageNum) && p.value["pageSize"] == Num(pageSize)
      && p.value["keyword"] == Prop(searchParams, "keyword")
      && ("status" in p.value <==> Truthy(Prop(searchParams, "status")))
  {
    var s := TurnPage(searchParams, pageNum, pageSize);
    assert Prop(s, "status") == Prop(searchParams, "status");
    assert Prop(s, "keyword") == Prop(searchParams, "keyword");
  }

  /** After a reset the query is the first page of 50, with no keyword and no
      status filter. */
  lemma ResetQuery()
    ensures ListParams(ResetSearch) == Some(map["page" := Num(1), "pageSize" := Num(50), "keyword" := Undefined])
    ensures EffectParams(ResetSearch) == Some(map["page" := Num(1), "pageSize" := Num(50), "keyword" := Undefined])
  {
  }

  /** The template list page. */
  class TemplatePage {
    var searchParams: Object
    var datasource: seq<SendTemplateItem>
    var total: int

    constructor ()
      ensures searchParams == InitialSearch && datasource == [] && total == 0
    {
      searchParams := InitialSearch;
      datasource := [];
      total := 0;
    }

    /** `onSearch(values)`: the submitted values override the search state. */
    method OnSearch(values: Object)
      modifies this
      ensures searchParams == old(searchParams) + values
      ensures datasource == old(datasource) && total == old(total)
    {
      searchParams := searchParams + values;
    }

    /** `onReset()`. */
    method OnReset()
      modifies this
      ensures searchParams == ResetSearch
      ensures datasource == old(datasource) && total == old(total)
    {
      searchParams := ResetSearch;
    }

    /** `handleTurnPage(pageNum, pageSize)`. */
    method HandleTurnPage(pageNum: int, pageSize: int)
      modifies this
      ensures searchParams == TurnPage(old(searchParams), pageNum, pageSize)
      ensures datasource == old(datasource) && total == old(total)
    {
      var pagination := SpreadOf(Prop(searchParams, "pagination"));
      searchParams := searchParams["pagination" := Obj(pagination + map["page" := Num(pageNum), "pageNum" := Num(pageNum), "pageSize" := Num(pageSize)])];
    }

    /** `onRefresh()`: `getTemplateList(searchParams)`. */
    method OnRefresh() returns (request: Option<Request>)
      ensures request == ListRequest(searchParams)
    {
      request := ListRequest(searchParams);
    }

    /** The effect that runs when the search state changes, as written: it
        converts the status, and `getTemplateList` converts it again, so any
        status filter lists the disabled templates. */
    method SearchEffect() returns (request: Option<Request>)
      ensures request == if EffectParamsAsWritten(searchParams).Some? then ListRequest(EffectParamsAsWritten(searchParams).value) else None
      ensures Prop(searchParams, "pagination").Obj? && Truthy(Prop(searchParams, "status")) ==>
        request.Some? && request.value.params["status"] == Str("DISABLED")
    {
      var pagination := Prop(searchParams, "pagination");
      if pagination == Null || pagination == Undefined {
        return None;
      }
      var params := EffectBase(pagination, searchParams);
      if Truthy(Prop(searchParams, "status")) {
        params := params["status" := ConvertStatus(searchParams["status"])];
        if pagination.Obj? {
          EffectAsWrittenAlwaysAsksDisabled(searchParams);
        }
      }
      request := ListRequest(params);
    }

    /** `onSuccess(res)` for the result of a list call: the rows and the total. */
    method OnSuccess(page: Page<TemplateItem>)
      modifies this
      ensures datasource == ListResult(page).list && total == ListResult(page).total
      ensures |datasource| == |page.items|
      ensures searchParams == old(searchParams)
    {
      var res := ListResult(page);
      datasource := res.list;
      total := res.total;
    }
  }
}
