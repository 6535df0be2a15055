# rabbit-web admin console: a verified model of the client-side logic

The admin console is a React front end for a message-sending service. It holds
namespaces, e-mail and webhook configurations, templates and message logs, and
it sends messages. This project models the parts of the console that make real
decisions, and proves what each one does:

- **The API client** (`client.dfy`). The request interceptor adds
  `Authorization: Bearer <token>` when a token is stored. It adds `X-Namespace`
  for every url the `isNamespaceApi` test does not exempt. The 401 response
  interceptor logs the user out (the token is removed and the page goes to
  `/login`) except in development builds.
- **The namespace context** (`namespace_context.dfy`). A provider object holds
  the current namespace, the list of namespaces and a loading flag, and mirrors
  the selection in browser storage under `current_namespace`.
- **The request descriptors** of `services.ts`, `namespace.ts`, `template.ts`
  and `messagelog.ts` (`services.dfy`, `namespace_api.dfy`, `template_api.dfy`,
  `messagelog_api.dfy`). Each call is a pure function to a
  `Request(verb, url, params, body)`. Together with the client model, the
  lemmas show which calls carry the namespace header, and that every
  identifier sent in a body is the one in the path.
- **The template pages** (`template_edit.dfy`, `template_list.dfy`). This
  covers the two enum mappings between send types and template apps,
  converting loaded templates, the JSON-validation gate of the edit dialog,
  normalising list queries, and the search state of the list page.
- **The message-log page** (`message_logs.dfy`). This covers which actions a
  log offers, its labels, the filter record and its updates, and the
  dependencies that trigger a reload.
- **The sender page** (`sender.dfy`). This covers splitting the recipients,
  partitioning templates by app, and the direct and template send bodies.
- **`handleFormError`** (`form_errors.dfy`). It copies the per-field messages
  of a 400 response onto an antd form.

Shared modules:

- `js.dfy` models JavaScript values as a dynamic `JsValue`: truthiness, `||`,
  property access, spread, `split`/`join`, `trim`, and integer-to-string
  conversion.
- `http.dfy` holds the request and response shapes.
- `browser.dfy` models `localStorage` and `window.location` as a `Window`
  object.
- `enum.dfy` and `types.dfy` hold the enums and records of the API.

The network is a parameter. Each operation that awaits a call takes the
call's outcome, `Success(data)` or `Failure(error)`, and returns the request
it issues.

Two enums are defined in files that are not part of this model: the `Status`
and `AlarmSendType` of `@/api/enum`, and `GlobalStatus` and `TemplateAPP` from
a revision of `types.ts` that is not part of this model. They are datatypes
here. Their runtime values are modelled as follows:

- `Status` values are the numbers 0, 1 and 2, of which only `StatusAll` is
  falsy.
- `GlobalStatus` values are the strings `"ENABLED"` and `"DISABLED"`. The page
  compares `item.status === 'ENABLED'` at
  `src/pages/templates/modal-edit.tsx:89`.
- The other enums' values are opaque tags, `Enum(memberName)`.

The message-log record's `type` field is named `messageType`, because `type`
is a Dafny keyword.

Where the code and its two revisions of a service disagree, the model keeps
both revisions:

- `services.ts` sends a namespace's `updateStatus` body as `{name, status}`;
  `namespace.ts` sends it as `{uid, status}`.
- `services.ts` makes message-log retry and cancel POSTs; `messagelog.ts`
  makes them PUTs of `{uid}`. `services.ts` also sends `sendAtUnix`, but only
  when it is given: an `undefined` value is dropped on the wire.

The lemmas `Services.NamespaceRevisionsDiffer` and
`Services.MessageLogRevisionsDiffer` state exactly how the revisions differ.
Each page uses the revision it imports.

## Model

| member | source | states |
|---|---|---|
| Client.NamespacesPrefixRedundant | src/api/client.ts:21-22 | a url starting with `/v1/namespaces` also starts with `/v1/namespace`, so the second disjunct adds nothing |
| Client.IsNamespaceApiExactly | src/api/client.ts:20-23 | a url is exempt exactly when it is defined and starts with `/v1/namespace` or equals `/health` |
| Client.IsNamespaceApiEdges | src/api/client.ts:20-23 | `/v1/namespacefoo` is exempt; `/health?x`, `/healthz` and an undefined url are not |
| Client.NotNamespaceApi | src/api/client.ts:20-23 | any `/v1/` url whose next character is not `n` is not exempt |
| Client.OutgoingHeaders | src/api/client.ts:14-29 | a stored non-empty token gives `Authorization = "Bearer " + token`, otherwise Authorization is left as it was; a non-exempt url with a non-empty stored namespace gets `X-Namespace` equal to it, otherwise `X-Namespace` is left as it was |
| Client.OtherHeadersUnchanged | src/api/client.ts:12-32 | every header other than Authorization and `X-Namespace` is passed through untouched |
| Client.RequestConfig.constructor | src/api/client.ts:3-10 | a new config carries the request's url, method, params and body with the default headers |
| Client.InterceptRequest | src/api/client.ts:12-32 | the interceptor returns the same config, with its headers replaced by the outgoing headers for the stored token and namespace, and url, method, params and body unchanged |
| Client.ScopeOfRequest | src/api/client.ts:20-29 | a request carries the selected namespace iff its url is not exempt and a namespace is stored; it carries no namespace header iff the url is exempt or none is stored |
| Client.ScopedOutsideNamespaces | src/api/client.ts:20-29 | every url under a `/v1/` prefix that does not continue with `n` carries the stored namespace |
| Client.UnscopedUnderNamespace | src/api/client.ts:20-29 | every url under a `/v1/namespace` prefix never carries a namespace header |
| Client.Prepare | src/api/client.ts:12-32 | an issued request leaves with exactly the headers the interceptor derives from storage |
| Client.StorageAfterError | src/api/client.ts:41-46 | a 401 outside development removes `auth_token`; anything else leaves storage as it was; no other key ever changes |
| Client.OnResponseError | src/api/client.ts:40-49 | the error is rejected unchanged; storage becomes the storage after the error, and the location becomes `/login` exactly when the user is logged out |
| Client.LogoutKeepsNamespace | src/api/client.ts:41-46 | the logout keeps `current_namespace`; in development the token survives a 401 |
| Client.NoTokenAfterLogout | src/api/client.ts:41-46 | after a 401 logout no request carries an Authorization header |
| ApiEnum.StatusValueFacts | src/api/global.tsx:20-24 | the three `Status` members have distinct numeric values, and only `StatusAll` is falsy |
| NamespaceApi.List | src/api/namespace.ts:30-33 | a GET of `/v1/namespaces` with the params passed unchanged |
| NamespaceApi.Get | src/api/namespace.ts:34-35 | a GET of `/v1/namespace/{uid}` with no params |
| NamespaceApi.Create | src/api/namespace.ts:36-37 | a POST of the data verbatim to `/v1/namespace`, with no uid added |
| NamespaceApi.Update | src/api/namespace.ts:38-39 | a PUT whose body is the data plus `uid`, to the path of that same uid |
| NamespaceApi.UpdateStatus | src/api/namespace.ts:40-41 | a PUT of exactly `{uid, status}` to `/v1/namespace/{uid}/status` |
| NamespaceApi.Delete | src/api/namespace.ts:42 | a DELETE of `/v1/namespace/{uid}` |
| NamespaceApi.EveryCallUnscoped | src/api/namespace.ts:30-42 | no namespace call ever carries `X-Namespace` |
| TemplateApi.List | src/api/template.ts:34-37 | a GET of `/v1/templates` with the params passed through |
| TemplateApi.Get | src/api/template.ts:38 | a GET of `/v1/template/{uid}` |
| TemplateApi.Create | src/api/template.ts:39 | a POST of the data unchanged to `/v1/template`, with no uid |
| TemplateApi.Update | src/api/template.ts:40-41 | a PUT whose body is the data plus `uid`, to the path of that same uid |
| TemplateApi.UpdateStatus | src/api/template.ts:42-43 | a PUT of exactly `{uid, status}` to `/v1/template/{uid}/status` |
| TemplateApi.Delete | src/api/template.ts:44 | a DELETE of `/v1/template/{uid}` |
| TemplateApi.EveryCallScoped | src/api/template.ts:34-44 | every template call carries the selected namespace |
| MessageLogApi.List | src/api/messagelog.ts:27-30 | a GET of `/v1/message-logs` with the filter params passed through |
| MessageLogApi.Get | src/api/messagelog.ts:31-32 | a GET of `/v1/message-log/{uid}` with no query params |
| MessageLogApi.Retry | src/api/messagelog.ts:33-34 | a PUT of exactly `{uid}` to `/v1/message-log/{uid}/retry` |
| MessageLogApi.Cancel | src/api/messagelog.ts:35-36 | a PUT of exactly `{uid}` to `/v1/message-log/{uid}/cancel` |
| MessageLogApi.RetryAndCancelDifferInActionOnly | src/api/messagelog.ts:33-36 | retry and cancel of one log are the same request except for the url, and the urls differ |
| MessageLogApi.EveryCallScoped | src/api/messagelog.ts:27-36 | every message-log call carries the selected namespace |
| Services.NamespaceList | src/api/services.ts:20-23 | a GET of `/v1/namespaces` with the params unchanged |
| Services.NamespaceGet | src/api/services.ts:24 | a GET of `/v1/namespace/{name}` |
| Services.NamespaceSave | src/api/services.ts:25-26 | a POST of the data verbatim to `/v1/namespace`, with no uid |
| Services.NamespaceUpdateStatus | src/api/services.ts:27-28 | a PUT of exactly `{name, status}` to the status path of that name |
| Services.NamespaceDelete | src/api/services.ts:29 | a DELETE of `/v1/namespace/{name}` |
| Services.EmailList | src/api/services.ts:33-36 | a GET of `/v1/email/configs` with the params unchanged |
| Services.EmailGet | src/api/services.ts:37-38 | a GET of `/v1/email/config/{uid}` |
| Services.EmailCreate | src/api/services.ts:39-45 | a POST of the data verbatim to `/v1/email/config`, with no uid |
| Services.EmailUpdate | src/api/services.ts:46-55 | a PUT whose body is the data plus `uid`, to the path of that uid |
| Services.EmailUpdateStatus | src/api/services.ts:56-57 | a PUT of exactly `{uid, status}` to the status path of that uid |
| Services.EmailDelete | src/api/services.ts:58 | a DELETE of `/v1/email/config/{uid}` |
| Services.WebhookList | src/api/services.ts:62-65 | a GET of `/v1/webhook/configs` with the params unchanged |
| Services.WebhookGet | src/api/services.ts:66 | a GET of `/v1/webhook/config/{uid}` |
| Services.WebhookCreate | src/api/services.ts:67-74 | a POST of the data verbatim to `/v1/webhook/config`, with no uid |
| Services.WebhookUpdate | src/api/services.ts:75-85 | a PUT whose body is the data plus `uid`, to the path of that uid |
| Services.WebhookUpdateStatus | src/api/services.ts:86-87 | a PUT of exactly `{uid, status}` to the status path of that uid |
| Services.WebhookDelete | src/api/services.ts:88 | a DELETE of `/v1/webhook/config/{uid}` |
| Services.TemplateList | src/api/services.ts:92-93 | a GET of `/v1/templates` with the params unchanged |
| Services.TemplateGet | src/api/services.ts:94 | a GET of `/v1/template/{uid}` |
| Services.TemplateCreate | src/api/services.ts:95-96 | a POST of the data verbatim to `/v1/template`, with no uid |
| Services.TemplateUpdate | src/api/services.ts:97-100 | a PUT whose body is the data plus `uid`, to the path of that uid |
| Services.TemplateUpdateStatus | src/api/services.ts:101-102 | a PUT of exactly `{uid, status}` to the status path of that uid |
| Services.TemplateDelete | src/api/services.ts:103 | a DELETE of `/v1/template/{uid}` |
| Services.SendEmail | src/api/services.ts:107-117 | a POST to `/v1/sender/email/{uid}` whose body is the send data plus that `uid` |
| Services.SendEmailWithTemplate | src/api/services.ts:118-121 | a POST to `/v1/sender/email/{uid}/template` whose body is the template data plus that `uid` |
| Services.SendWebhook | src/api/services.ts:122-123 | a POST to `/v1/sender/webhook/{uid}` whose body is the data plus that `uid` |
| Services.SendWebhookWithTemplate | src/api/services.ts:124-127 | a POST to `/v1/sender/webhook/{uid}/template` whose body is the template data plus that `uid` |
| Services.MessageLogList | src/api/services.ts:139-142 | a GET of `/v1/message-logs` with the params unchanged |
| Services.MessageLogGet | src/api/services.ts:143-146 | a GET of `/v1/message-log/{uid}` whose only query parameter is `sendAtUnix`, undefined when absent |
| Services.MessageLogRetry | src/api/services.ts:147-148 | a POST of exactly `{uid, sendAtUnix}` to the retry path of that uid |
| Services.MessageLogCancel | src/api/services.ts:149-150 | a POST of exactly `{uid, sendAtUnix}` to the cancel path of that uid |
| Services.HealthCheck | src/api/services.ts:154 | a GET of exactly `/health` |
| Services.NamespaceAndHealthUnscoped | src/api/services.ts:19-30 | no namespace call and no health check carries `X-Namespace` |
| Services.EmailCallsScoped | src/api/services.ts:32-59 | every e-mail configuration call carries the selected namespace |
| Services.WebhookCallsScoped | src/api/services.ts:61-89 | every webhook configuration call carries the selected namespace |
| Services.TemplateCallsScoped | src/api/services.ts:91-104 | every template call carries the selected namespace |
| Services.SendEmailCallsScoped | src/api/services.ts:107-121 | both e-mail sends carry the selected namespace |
| Services.SendWebhookCallsScoped | src/api/services.ts:122-127 | both webhook sends carry the selected namespace |
| Services.MessageLogCallsScoped | src/api/services.ts:139-150 | every message-log call carries the selected namespace |
| Services.TemplateRevisionsAgree | src/api/services.ts:91-104 | the template calls here and in `template.ts` are the same requests |
| Services.NamespaceRevisionsDiffer | src/api/services.ts:19-30 | the namespace calls equal those of `namespace.ts` except `updateStatus`, whose body names the namespace by `name` here and by `uid` there |
| Services.MessageLogRevisionsDiffer | src/api/services.ts:139-150 | retry and cancel are POSTs here and PUTs in `messagelog.ts`; a given `sendAtUnix` reaches the retry and cancel bodies and the `get` query, and without it the bodies and queries on the wire are the same in both revisions |
| NamespaceContext.AnyNamedExactly | src/contexts/NamespaceContext.tsx:39 | `items.some(ns => ns.name === current)` holds iff some listed item has that name |
| NamespaceContext.StorageAfterSelect | src/contexts/NamespaceContext.tsx:53-60 | a non-empty name is stored under `current_namespace`; null or empty removes the key; no other key changes |
| NamespaceContext.CurrentAfterRefresh | src/contexts/NamespaceContext.tsx:37-50 | a failure keeps the selection; after a success, a remaining selection names a fetched namespace; the selection is either kept or cleared |
| NamespaceContext.NamespacesAfterRefresh | src/contexts/NamespaceContext.tsx:35-50 | a success replaces the list with the fetched items; a failure keeps it |
| NamespaceContext.StorageAfterRefresh | src/contexts/NamespaceContext.tsx:37-44 | the key is removed exactly when a fetch succeeds without the selected name; otherwise storage is unchanged |
| NamespaceContext.SelectRoundTrip | src/contexts/NamespaceContext.tsx:25-27 | after selecting a non-empty name (line 56), initialising from storage gives that name back |
| NamespaceContext.TransitionsKeepInSync | src/contexts/NamespaceContext.tsx:25-60 | initialisation, selection, refresh and a 401 logout all keep the state and the stored key in agreement |
| NamespaceContext.FailedRefreshKeepsState | src/contexts/NamespaceContext.tsx:45-50 | a failed refresh changes neither the selection, the list nor storage |
| NamespaceContext.RefreshKeepsListedSelection | src/contexts/NamespaceContext.tsx:38-44 | a selection that is among the fetched names survives with storage untouched |
| NamespaceContext.SelectionScopesRequests | src/contexts/NamespaceContext.tsx:53-60 | after a selection, every non-exempt request carries the selected name; after clearing it, no request carries a namespace header |
| NamespaceContext.NamespaceProvider.constructor | src/contexts/NamespaceContext.tsx:25-29 | the initial selection is the stored `current_namespace` or null; the list is empty and nothing is loading |
| NamespaceContext.NamespaceProvider.SetCurrentNamespace | src/contexts/NamespaceContext.tsx:53-60 | the state becomes the argument, and storage the storage after the selection; the provider's state and storage agree afterwards |
| NamespaceContext.NamespaceProvider.RefreshNamespaces | src/contexts/NamespaceContext.tsx:31-51 | it requests page 1 of size 100; the list, selection and storage become their values after the outcome; loading ends false; agreement of state and storage is preserved |
| TemplateEdit.MappingsAreInverse | src/pages/templates/modal-edit.tsx:22-57 | the two mappings are inverse bijections on the five named members; any other send type maps to the e-mail app and any other app to the e-mail send type |
| TemplateEdit.MappingsInjective | src/pages/templates/modal-edit.tsx:22-57 | no two named members map to the same member |
| TemplateEdit.DetailToForm | src/pages/templates/modal-edit.tsx:81-92 | a loaded `'ENABLED'` becomes `StatusEnable` and any other status `StatusDisable`; the name and content are copied; a named app maps back to itself |
| TemplateEdit.LoadDetail | src/pages/templates/modal-edit.tsx:94-102 | the detail is requested by uid; on success the form values are merged with the converted detail; on failure the form is untouched |
| TemplateEdit.OkRequest | src/pages/templates/modal-edit.tsx:108-133 | no request is issued exactly when the watched send type is neither e-mail nor custom and the content is not valid JSON |
| TemplateEdit.EmailAndCustomSkipCheck | src/pages/templates/modal-edit.tsx:109-112 | e-mail and custom templates always reach a request, whatever the content |
| TemplateEdit.OkRequestShape | src/pages/templates/modal-edit.tsx:121-133 | the body is exactly name, `app` from the send type and `jsonData` from the content, plus the uid on update, and never a status; a present id gives an update of that id, otherwise a create |
| TemplateEdit.HandleOnOk | src/pages/templates/modal-edit.tsx:104-138 | a failed validation or save goes to `handleFormError`; a failed JSON check leaves the form; a successful save resets the form and closes the dialog |
| TemplateList.MappingCopiesAgree | src/pages/templates/index.tsx:22-37 | this file's copy of the app-to-send-type mapping agrees with the one in the edit dialog |
| TemplateList.ConvertItem | src/pages/templates/index.tsx:40-56 | the id is the uid when it is non-empty and `index + 1` otherwise; the status is `StatusEnable` iff the item is `ENABLED`; content, name and timestamps are copied |
| TemplateList.ConvertList | src/pages/templates/index.tsx:93 | the rows have the items' length and order, each row converted with its own index |
| TemplateList.ConvertedIdsDistinct | src/pages/templates/index.tsx:45 | with distinct non-empty uids, all converted ids are distinct |
| TemplateList.ListResult | src/pages/templates/index.tsx:91-99 | the list is the converted items, and total, page and pageSize are copied |
| TemplateList.ConvertStatus | src/pages/templates/index.tsx:86-89 | `StatusEnable` gives ENABLED and every other value gives DISABLED |
| TemplateList.WithStatusFilter | src/pages/templates/index.tsx:85-90 | the status key is set exactly for a truthy status, to its converted value; no other key changes |
| TemplateList.ListParams | src/pages/templates/index.tsx:71-90 | the query cannot be built exactly when `pagination` is present but null or undefined, because that access throws |
| TemplateList.ListParamsFacts | src/pages/templates/index.tsx:74-90 | without `pagination`: page defaults to 1 and pageSize to 50; with it: page is `pageNum \|\| page`; the keyword is copied; the status is as `WithStatusFilter` says |
| TemplateList.ListRequest | src/pages/templates/index.tsx:71-91 | a GET of the normalised query, issued exactly when the query can be built |
| TemplateList.EffectParamsAsWritten | src/pages/templates/index.tsx:251-262 | the effect's query, with the status already converted to a GlobalStatus string |
| TemplateList.EffectAsWrittenAlwaysAsksDisabled | src/pages/templates/index.tsx:257-262 | any truthy status filter, converted here and again by `getTemplateList` at lines 85-90, ends up requesting DISABLED |
| TemplateList.EffectAsWrittenEnabledExample | src/pages/templates/index.tsx:257-262 | a search for enabled templates requests DISABLED ones |
| TemplateList.EffectParams | src/pages/templates/index.tsx:251-262 | the corrected effect query: page and size from the pagination, the keyword, and the status left for `getTemplateList` to convert |
| TemplateList.EffectAgreesWithRefresh | src/pages/templates/index.tsx:251-264 | the corrected effect and a refresh ask for the same query, and an enabled filter requests ENABLED |
| TemplateList.TurnPage | src/pages/templates/index.tsx:224-234 | `page` and `pageNum` both become the new page and `pageSize` the new size; other pagination fields and other search fields are kept |
| TemplateList.TurnPageQuery | src/pages/templates/index.tsx:224-234 | after turning to a non-zero page, the query asks for that page and size |
| TemplateList.ResetQuery | src/pages/templates/index.tsx:174-181 | a reset asks for page 1 of size 50 with no filters |
| TemplateList.TemplatePage.constructor | src/pages/templates/index.tsx:125-131 | the search starts on page 1 (both `page` and `pageNum`) of size 50, with no rows and total 0 |
| TemplateList.TemplatePage.OnSearch | src/pages/templates/index.tsx:154-159 | the search values are spread over the current search parameters |
| TemplateList.TemplatePage.OnReset | src/pages/templates/index.tsx:174-181 | the search becomes the reset search |
| TemplateList.TemplatePage.HandleTurnPage | src/pages/templates/index.tsx:224-234 | the search becomes `TurnPage` of the old search |
| TemplateList.TemplatePage.OnRefresh | src/pages/templates/index.tsx:188-190 | a refresh lists with the current search parameters |
| TemplateList.TemplatePage.SearchEffect | src/pages/templates/index.tsx:251-264 | the effect lists with the query as written, so any truthy status filter, `StatusEnable` included, asks for `DISABLED` templates |
| TemplateList.TemplatePage.OnSuccess | src/pages/templates/index.tsx:164-171 | the rows become the converted list, one per item, and the total is copied |
| MessageLogs.ActionsExclusive | src/pages/message-logs/index.tsx:124-136 | retry (only for failed logs) and cancel (only for pending logs) are never both offered; sending and cancelled logs offer neither |
| MessageLogs.StatusLabel | src/pages/message-logs/index.tsx:98-106 | the label is "未知" exactly for a status outside the four listed |
| MessageLogs.StatusLabelsDistinct | src/pages/message-logs/index.tsx:98-106 | the four listed statuses have four different labels |
| MessageLogs.TypeLabel | src/pages/message-logs/index.tsx:86-91 | the label is 邮件 exactly for e-mail |
| MessageLogs.WithFilter | src/pages/message-logs/index.tsx:162-171 | changing the type or status filter overwrites that key only |
| MessageLogs.UnixSecondsRoundTrip | src/pages/message-logs/index.tsx:184-185 | the unix-second string parses back to the second containing the chosen instant |
| MessageLogs.WithRange | src/pages/message-logs/index.tsx:180-186 | a range sets `startAtUnix` and `endAtUnix` to the unix-second strings of its two ends, or undefined for a missing end, and keeps every other filter |
| MessageLogs.ClearRangeAsWrittenKeepsRange | src/pages/message-logs/index.tsx:187-190 | clearing a range with the rest-copy leaves both range keys in the filters |
| MessageLogs.ClearRange | src/pages/message-logs/index.tsx:187-190 | the corrected clear removes both range keys and keeps every other filter |
| MessageLogs.OnRangeChange | src/pages/message-logs/index.tsx:180-190 | the picker handler as written: a picked range is `WithRange`, and a cleared picker returns the filters unchanged |
| MessageLogs.ClearUndoesRange | src/pages/message-logs/index.tsx:180-190 | clearing after setting a range restores the filters exactly |
| MessageLogs.ListParams | src/pages/message-logs/index.tsx:39 | the query has the filter keys plus page and pageSize; the filters win on a clash |
| MessageLogs.FilterReachesQuery | src/pages/message-logs/index.tsx:39 | a filter value that is set is what the next list request sends |
| MessageLogs.MessageLogsPage.constructor | src/pages/message-logs/index.tsx:22-30 | the page starts empty, on page 1 of size 10, with no filters and a closed drawer |
| MessageLogs.MessageLogsPage.SetFilters | src/pages/message-logs/index.tsx:32-34 | setting filters always changes the reload dependencies, because a new object is never identical to the old one |
| MessageLogs.MessageLogsPage.OnTypeChange | src/pages/message-logs/index.tsx:162 | the type filter is overwritten and a reload is triggered; the page, rows, loading flag, namespace and drawer are kept |
| MessageLogs.MessageLogsPage.OnStatusChange | src/pages/message-logs/index.tsx:171 | the status filter is overwritten and a reload is triggered; the page, rows, loading flag, namespace and drawer are kept |
| MessageLogs.MessageLogsPage.OnDatesChange | src/pages/message-logs/index.tsx:180-190 | a picked range sets both range keys; a cleared picker keeps the filters as they are, the old range included; a reload is triggered and every other field is kept |
| MessageLogs.MessageLogsPage.OnPageChange | src/pages/message-logs/index.tsx:204-207 | the page and size are set; a reload is triggered iff either differs; filters, rows, loading flag and drawer are kept |
| MessageLogs.MessageLogsPage.OnNamespaceChange | src/pages/message-logs/index.tsx:30-34 | a reload is triggered iff the namespace differs; paging, filters, rows, loading flag and drawer are kept |
| MessageLogs.MessageLogsPage.LoadData | src/pages/message-logs/index.tsx:36-47 | it lists with the paging merged under the filters; on success the rows and total are replaced, on failure kept; loading ends false; paging, filters, namespace and drawer are kept |
| MessageLogs.MessageLogsPage.HandleRetry | src/pages/message-logs/index.tsx:49-57 | the retry request, followed by a reload only when it succeeds |
| MessageLogs.MessageLogsPage.HandleCancel | src/pages/message-logs/index.tsx:59-67 | the cancel request, followed by a reload only when it succeeds |
| MessageLogs.MessageLogsPage.HandleViewDetail | src/pages/message-logs/index.tsx:69-77 | the log is fetched by uid; on success it is shown in the opened drawer, on failure nothing changes; rows, total, loading flag, filters and paging are kept |
| Sender.Recipients | src/pages/Sender.tsx:47 | one recipient per comma-separated piece, in order, each trimmed |
| Sender.RecipientsArePieces | src/pages/Sender.tsx:47 | there is at least one recipient; the pieces join back to the input, contain no comma, and empty pieces are kept as empty recipients |
| Sender.RecipientsRoundTrip | src/pages/Sender.tsx:47 | joining trimmed, comma-free addresses with commas and splitting again gives them back |
| Sender.RecipientsTrimmed | src/pages/Sender.tsx:47 | no recipient starts or ends with white space |
| Sender.WithAppExactly | src/pages/Sender.tsx:31-32 | a template is in the filtered list iff it is in the list and has that app |
| Sender.WithAppConcat | src/pages/Sender.tsx:31-32 | filtering distributes over concatenation, so the order is kept |
| Sender.TemplateListsDisjoint | src/pages/Sender.tsx:31-32 | no template is both an e-mail template and a webhook template |
| Sender.LookupRequests | src/pages/Sender.tsx:24-28 | the three lookups are GETs of page 1, size 100 and status ENABLED |
| Sender.DirectEmailBody | src/pages/Sender.tsx:44-49 | a direct e-mail sends the uid, subject, body, the split recipients and `contentType 'text/html'`, and nothing else |
| Sender.TemplateModeBodies | src/pages/Sender.tsx:51-54 | template mode sends only the uid, `templateUID` and `jsonData`, for e-mail here and for webhook at lines 76-79 alike |
| Sender.DirectWebhookBody | src/pages/Sender.tsx:72-74 | a direct webhook sends only the uid and `data` |
| Sender.SenderPage.constructor | src/pages/Sender.tsx:8-16 | both modes start as direct, with empty lists and nothing loading |
| Sender.SenderPage.SetEmailMode | src/pages/Sender.tsx:97-102 | only the e-mail mode changes: configurations, templates, the webhook mode and the loading flag are kept |
| Sender.SenderPage.SetWebhookMode | src/pages/Sender.tsx:162-167 | only the webhook mode changes: configurations, templates, the e-mail mode and the loading flag are kept |
| Sender.SenderPage.LoadConfigs | src/pages/Sender.tsx:22-36 | the three lookups are issued; on success the configuration lists are the fetched items and the template lists the fetched templates filtered by app; on failure all lists are kept |
| Sender.SenderPage.HandleEmailSend | src/pages/Sender.tsx:38-64 | a validated form sends the request of the current mode; a successful send resets the form, anything else leaves it; loading ends false; modes, configurations and templates are kept |
| Sender.SenderPage.HandleWebhookSend | src/pages/Sender.tsx:66-89 | a validated form sends the request of the current mode; a successful send resets the form, anything else leaves it; loading ends false; modes, configurations and templates are kept |
| FormErrors.Form.constructor | src/pages/templates/modal-edit.tsx:78 | a form starts at its initial values with no errors |
| FormErrors.Form.SetFieldsValue | src/pages/templates/modal-edit.tsx:100 | the given fields take the given values, and the errors are kept |
| FormErrors.Form.SetFields | src/utils/index.ts:15-19 | one field's errors are replaced, and the values are kept |
| FormErrors.Form.ResetFields | src/pages/templates/modal-edit.tsx:135 | the values return to the initial values and the errors are cleared |
| FormErrors.ErrorsWithMetadata | src/utils/index.ts:13-22 | each field named in the metadata has exactly its one message; every other field keeps its errors |
| FormErrors.ErrorsAfterFormError | src/utils/index.ts:10-22 | an error without the 400 shape leaves the errors as they were |
| FormErrors.FormErrorActsOnlyOnFieldErrors | src/utils/index.ts:10-22 | null and primitives are no-ops; with the 400 shape a named field gets `[metadata[k]]` and every field not named keeps its errors |
| FormErrors.SameLookups | src/utils/index.ts:13-22 | two error maps that agree on every field are equal |
| FormErrors.HandleFormError | src/utils/index.ts:5-25 | it throws exactly when the metadata of a 400 error is null or undefined; the errors become the errors after the form error; the values are never touched |

## Left out

- axios itself, the 30-second timeout and the environment-based base URL
  (`src/api/client.ts:3-10`). A request is its verb, url, params and body.
- The request interceptor's error handler (`src/api/client.ts:33-35`) only
  rejects the error. The model has no rejected-request path.
- `import.meta.env.DEV` is the parameter `dev`.
- `Promise.all` in `src/pages/Sender.tsx:24-28` returns one combined outcome.
  The model does not model the three calls failing separately.
- `await` interleaving, and the stale closure of `currentNamespace` in
  `refreshNamespaces` are not modelled. Each handler runs to completion with
  the outcomes it is given.
- `validateJson`: its body is in a file that is not part of this model. It is
  the function parameter `validJson`.
- The `message.*` toasts, `console` output and the error-message branch of
  `handleOnOk` (`src/pages/templates/modal-edit.tsx:139-144`) are not modelled.
  They only show text.
- JSX, antd rendering, routing and the CRUD pages are not modelled. Neither is
  the template-detail modal, which hard-codes its send type.
- `src/api/email.ts`, `src/api/webhook.ts`, `src/api/sender.ts` and
  `src/api/health.ts` send the same requests as `services.ts`.
- The templates page's `handleDelete` and `onChangeStatus`
  (`src/pages/templates/index.tsx:192-198`) call helpers defined in a file that
  is not part of this model.
- FormErrors.MetadataEntries: metadata that is a string or an array has index
  keys under `Object.keys`. The model gives it no keys.
- Bodies and query parameters keep keys whose value is `undefined`, as the
  object literals write them; `JSON.stringify` and axios drop such keys, which
  the function `Js.OnTheWire` states and the message-log revision lemma uses.
- Each enum value whose runtime value is unknown is an opaque tag. Only the
  facts the code relies on are fixed: `Status` truthiness, and the
  `GlobalStatus` strings.
- Dates from the range picker are milliseconds since the epoch. The model
  assumes no dayjs time zone or formatting.
- MessageLogs.MessageLogsPage.HandleRetry and
  MessageLogs.MessageLogsPage.HandleCancel return the follow-up list request
  but do not apply its outcome. `LoadData` does that when it is given the
  outcome.
- MessageLogs.MessageLogsPage.SetFilters: React's reload-on-change is modelled
  by a counter that every `setFilters` call bumps, because a new filter object
  is never identical to the old one.
- Sender.WithApp states only a length bound itself. Its membership meaning is
  the lemma `Sender.WithAppExactly`.

## Findings

The page classes run the code as written (`TemplatePage.SearchEffect`,
`MessageLogsPage.OnDatesChange`). The corrected definitions stand beside them
with their properties proved.

| source | as written | input that shows it | evidently intended | confidence | as-written member | corrected member |
|---|---|---|---|---|---|---|
| src/pages/templates/index.tsx:257-262 with 85-90 | the effect converts the `Status` filter to a GlobalStatus string, then `getTemplateList` compares that string with the number `StatusEnable`, which never matches | search params `{pagination: {page 1, pageSize 50}, status: StatusEnable}` request `status: "DISABLED"` | an enabled filter requests ENABLED: the status is converted once | not executed | TemplateList.EffectAsWrittenAlwaysAsksDisabled | TemplateList.EffectAgreesWithRefresh |
| src/pages/message-logs/index.tsx:187-190 | clearing the date range copies the whole filter record with `const { ...rest } = filters`, so `startAtUnix` and `endAtUnix` stay | filters with a range set, then the range cleared: both keys remain in the next list request | clearing removes both range keys | not executed | MessageLogs.ClearRangeAsWrittenKeepsRange | MessageLogs.ClearUndoesRange |
