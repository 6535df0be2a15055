/** The request descriptors of src/api/services.ts, the combined service module
    the sender page and the older pages use. */
module Services {
  import opened Js
  import opened Http
  import opened ApiTypes
  import opened Browser
  import opened Client
  import NamespaceApi
  import TemplateApi
  import MessageLogApi

  // ---------------------------------------------------------------------------
  // Request data

  /** The data of the e-mail `create` and `update` calls (the password is
      required by `create` and optional for `update`). */
  datatype EmailConfigData = EmailConfigData(
    name: string, host: string, port: int, username: string, password: Option<string>)
  {
    function Fields(): (o: Object)
      ensures "uid" !in o
      ensures "password" in o <==> password.Some?
    {
      WithOptional(
        map["name" := Str(name), "host" := Str(host), "port" := Num(port), "username" := Str(username)],
        "password", if password.Some? then Some(Str(password.value)) else None)
    }
  }

  /** The data of the webhook `create` and `update` calls. `WebhookAPP` and
      `HTTPMethod` are enums whose values are not part of this model. */
  datatype WebhookConfigData = WebhookConfigData(
    app: JsValue, name: string, url: string, httpMethod: JsValue,
    headers: Option<map<string, string>>, secret: Option<string>)
  {
    function Fields(): (o: Object)
      ensures "uid" !in o
    {
      var base := map["app" := app, "name" := Str(name), "url" := Str(url), "method" := httpMethod];
      WithOptional(
        WithOptional(base, "headers", if headers.Some? then Some(StringRecord(headers.value)) else None),
        "secret", if secret.Some? then Some(Str(secret.value)) else None)
    }
  }

  /** The data of `sendEmail`. */
  datatype SendEmailData = SendEmailData(
    subject: string, body: string, to: seq<string>,
    cc: Option<seq<string>>, contentType: Option<string>, headers: Option<map<string, string>>)
  {
    function Fields(): (o: Object)
      ensures "uid" !in o
      ensures Prop(o, "to") == StrArray(to)
      ensures "contentType" in o <==> contentType.Some?
    {
      var base := map["subject" := Str(subject), "body" := Str(body), "to" := StrArray(to)];
      WithOptional(
        WithOptional(
          WithOptional(base, "cc", if cc.Some? then Some(StrArray(cc.value)) else None),
          "contentType", if contentType.Some? then Some(Str(contentType.value)) else None),
        "headers", if headers.Some? then Some(StringRecord(headers.value)) else None)
    }
  }

  /** The data of `sendEmailWithTemplate` and `sendWebhookWithTemplate`. */
  datatype SendTemplateData = SendTemplateData(templateUID: string, jsonData: string) {
    function Fields(): (o: Object)
      ensures "uid" !in o
      ensures o.Keys == {"templateUID", "jsonData"}
    {
      map["templateUID" := Str(templateUID), "jsonData" := Str(jsonData)]
    }
  }

  /** The data of `sendWebhook`. */
  datatype SendWebhookData = SendWebhookData(data: string) {
    function Fields(): (o: Object)
      ensures "uid" !in o
      ensures o.Keys == {"data"}
    {
      map["data" := Str(data)]
    }
  }

  // ---------------------------------------------------------------------------
  // namespaceService

  function NamespaceList(params: Object): (r: Request)
    ensures r.verb == GET && r.params == params && r.body == None
    ensures r.url == "/v1/namespaces"
  {
    GetRequest("/v1/namespaces", params)
  }

  function NamespaceGet(name: string): (r: Request)
    ensures r.verb == GET && r.params == map[] && r.body == None
    ensures r.url == "/v1/namespace/" + name
  {
    GetRequest("/v1/namespace/" + name, map[])
  }

  /** `save(data)`: the data verbatim, to the singular path. */
  function NamespaceSave(data: NamespaceApi.NamespaceData): (r: Request)
    ensures r.verb == POST && r.body == Some(data.Fields()) && "uid" !in r.body.value
    ensures r.url == "/v1/namespace"
  {
    PostRequest("/v1/namespace", data.Fields())
  }

  /** `updateStatus(name, status)`: exactly `{ name, status }`. */
  function NamespaceUpdateStatus(name: string, status: GlobalStatus): (r: Request)
    ensures r.verb == PUT
    ensures r.body == Some(map["name" := Str(name), "status" := GlobalStatusValue(status)])
    ensures BodyIdInPath(r, "name", "/v1/namespace/", "/status")
  {
    PutRequest("/v1/namespace/" + name + "/status", map["name" := Str(name), "status" := GlobalStatusValue(status)])
  }

  function NamespaceDelete(name: string): (r: Request)
    ensures r.verb == DELETE && r.body == None
    ensures r.url == "/v1/namespace/" + name
  {
    DeleteRequest("/v1/namespace/" + name)
  }

  // ---------------------------------------------------------------------------
  // emailService

  function EmailList(params: Object): (r: Request)
    ensures r.verb == GET && r.params == params && r.body == None
    ensures r.url == "/v1/email/configs"
  {
    GetRequest("/v1/email/configs", params)
  }

  function EmailGet(uid: string): (r: Request)
    ensures r.verb == GET && r.params == map[] && r.body == None
    ensures r.url == "/v1/email/config/" + uid
  {
    GetRequest("/v1/email/config/" + uid, map[])
  }

  function EmailCreate(data: EmailConfigData): (r: Request)
    ensures r.verb == POST && r.body == Some(data.Fields()) && "uid" !in r.body.value
    ensures r.url == "/v1/email/config"
  {
    PostRequest("/v1/email/config", data.Fields())
  }

  function EmailUpdate(uid: string, data: EmailConfigData): (r: Request)
    ensures r.verb == PUT
    ensures BodyIsDataWithId(r, "uid", uid, data.Fields())
    ensures BodyIdInPath(r, "uid", "/v1/email/config/", "")
  {
    PutRequest("/v1/email/config/" + uid, map["uid" := Str(uid)] + data.Fields())
  }

  function EmailUpdateStatus(uid: string, status: GlobalStatus): (r: Request)
    ensures r.verb == PUT
    ensures r.body == Some(map["uid" := Str(uid), "status" := GlobalStatusValue(status)])
    ensures BodyIdInPath(r, "uid", "/v1/email/config/", "/status")
  {
    PutRequest("/v1/email/config/" + uid + "/status", map["uid" := Str(uid), "status" := GlobalStatusValue(status)])
  }

  function EmailDelete(uid: string): (r: Request)
    ensures r.verb == DELETE && r.body == None
    ensures r.url == "/v1/email/config/" + uid
  {
    DeleteRequest("/v1/email/config/" + uid)
  }

  // ---------------------------------------------------------------------------
  // webhookService

  function WebhookList(params: Object): (r: Request)
    ensures r.verb == GET && r.params == params && r.body == None
    ensures r.url == "/v1/webhook/configs"
  {
    GetRequest("/v1/webhook/configs", params)
  }

  function WebhookGet(uid: string): (r: Request)
    ensures r.verb == GET && r.params == map[] && r.body == None
    ensures r.url == "/v1/webhook/config/" + uid
  {
    GetRequest("/v1/webhook/config/" + uid, map[])
  }

  function WebhookCreate(data: WebhookConfigData): (r: Request)
    ensures r.verb == POST && r.body == Some(data.Fields()) && "uid" !in r.body.value
    ensures r.url == "/v1/webhook/config"
  {
    PostRequest("/v1/webhook/config", data.Fields())
  }

  function WebhookUpdate(uid: string, data: WebhookConfigData): (r: Request)
    ensures r.verb == PUT
    ensures BodyIsDataWithId(r, "uid", uid, data.Fields())
    ensures BodyIdInPath(r, "uid", "/v1/webhook/config/", "")
  {
    PutRequest("/v1/webhook/config/" + uid, map["uid" := Str(uid)] + data.Fields())
  }

  function WebhookUpdateStatus(uid: string, status: GlobalStatus): (r: Request)
    ensures r.verb == PUT
    ensures r.body == Some(map["uid" := Str(uid), "status" := GlobalStatusValue(status)])
    ensures BodyIdInPath(r, "uid", "/v1/webhook/config/", "/status")
  {
    PutRequest("/v1/webhook/config/" + uid + "/status", map["uid" := Str(uid), "status" := GlobalStatusValue(status)])
  }

  function WebhookDelete(uid: string): (r: Request)
    ensures r.verb == DELETE && r.body == None
    ensures r.url == "/v1/webhook/config/" + uid
  {
    DeleteRequest("/v1/webhook/config/" + uid)
  }

  // ---------------------------------------------------------------------------
  // templateService

  function TemplateList(params: Object): (r: Request)
    ensures r.verb == GET && r.params == params && r.body == None
    ensures r.url == "/v1/templates"
  {
    GetRequest("/v1/templates", params)
  }

  function TemplateGet(uid: string): (r: Request)
    ensures r.verb == GET && r.params == map[] && r.body == None
    ensures r.url == "/v1/template/" + uid
  {
    GetRequest("/v1/template/" + uid, map[])
  }

  function TemplateCreate(data: TemplateApi.TemplateData): (r: Request)
    ensures r.verb == POST && r.body == Some(data.Fields()) && "uid" !in r.body.value
    ensures r.url == "/v1/template"
  {
    PostRequest("/v1/template", data.Fields())
  }

  function TemplateUpdate(uid: string, data: TemplateApi.TemplateData): (r: Request)
    ensures r.verb == PUT
    ensures BodyIsDataWithId(r, "uid", uid, data.Fields())
    ensures BodyIdInPath(r, "uid", "/v1/template/", "")
  {
    PutRequest("/v1/template/" + uid, map["uid" := Str(uid)] + data.Fields())
  }

  function TemplateUpdateStatus(uid: string, status: GlobalStatus): (r: Request)
    ensures r.verb == PUT
    ensures r.body == Some(map["uid" := Str(uid), "status" := GlobalStatusValue(status)])
    ensures BodyIdInPath(r, "uid", "/v1/template/", "/status")
  {
    PutRequest("/v1/template/" + uid + "/status", map["uid" := Str(uid), "status" := GlobalStatusValue(status)])
  }

  function TemplateDelete(uid: string): (r: Request)
    ensures r.verb == DELETE && r.body == None
    ensures r.url == "/v1/template/" + uid
  {
    DeleteRequest("/v1/template/" + uid)
  }

  // ---------------------------------------------------------------------------
  // senderService: every call is a POST of `{ uid, ...data }`

  function SendEmail(uid: string, data: SendEmailData): (r: Request)
    ensures r.verb == POST
    ensures BodyIsDataWithId(r, "uid", uid, data.Fields())
    ensures BodyIdInPath(r, "uid", "/v1/sender/email/", "")
  {
    PostRequest("/v1/sender/email/" + uid, map["uid" := Str(uid)] + data.Fields())
  }

  function SendEmailWithTemplate(uid: string, data: SendTemplateData): (r: Request)
    ensures r.verb == POST
    ensures BodyIsDataWithId(r, "uid", uid, data.Fields())
    ensures BodyIdInPath(r, "uid", "/v1/sender/email/", "/template")
  {
    PostRequest("/v1/sender/email/" + uid + "/template", map["uid" := Str(uid)] + data.Fields())
  }

  function SendWebhook(uid: string, data: SendWebhookData): (r: Request)
    ensures r.verb == POST
    ensures BodyIsDataWithId(r, "uid", uid, data.Fields())
    ensures BodyIdInPath(r, "uid", "/v1/sender/webhook/", "")
  {
    PostRequest("/v1/sender/webhook/" + uid, map["uid" := Str(uid)] + data.Fields())
  }

  function SendWebhookWithTemplate(uid: string, data: SendTemplateData): (r: Request)
    ensures r.verb == POST
    ensures BodyIsDataWithId(r, "uid", uid, data.Fields())
    ensures BodyIdInPath(r, "uid", "/v1/sender/webhook/", "/template")
  {
    PostRequest("/v1/sender/webhook/" + uid + "/template", map["uid" := Str(uid)] + data.Fields())
  }

  // ---------------------------------------------------------------------------
  // messageLogService (the POST revision)

  function MessageLogList(params: Object): (r: Request)
    ensures r.verb == GET && r.params == params && r.body == None
    ensures r.url == "/v1/message-logs"
  {
    GetRequest("/v1/message-logs", params)
  }

  /** `get(uid, sendAtUnix?)`: `sendAtUnix` goes in the query, `undefined` when absent. */
  function MessageLogGet(uid: string, sendAtUnix: Option<string>): (r: Request)
    ensures r.verb == GET && r.body == None
    ensures r.params == map["sendAtUnix" := FromOptional(sendAtUnix)]
    ensures r.url == "/v1/message-log/" + uid
  {
    GetRequest("/v1/message-log/" + uid, map["sendAtUnix" := FromOptional(sendAtUnix)])
  }

  /** `retry(uid, sendAtUnix?)`: exactly `{ uid, sendAtUnix }`. */
  function MessageLogRetry(uid: string, sendAtUnix: Option<string>): (r: Request)
    ensures r.verb == POST
    ensures BodyIsDataWithId(r, "uid", uid, map["sendAtUnix" := FromOptional(sendAtUnix)])
    ensures BodyIdInPath(r, "uid", "/v1/message-log/", "/retry")
  {
    PostRequest("/v1/message-log/" + uid + "/retry", map["uid" := Str(uid), "sendAtUnix" := FromOptional(sendAtUnix)])
  }

  /** `cancel(uid, sendAtUnix?)`: exactly `{ uid, sendAtUnix }`. */
  function MessageLogCancel(uid: string, sendAtUnix: Option<string>): (r: Request)
    ensures r.verb == POST
    ensures BodyIsDataWithId(r, "uid", uid, map["sendAtUnix" := FromOptional(sendAtUnix)])
    ensures BodyIdInPath(r, "uid", "/v1/message-log/", "/cancel")
  {
    PostRequest("/v1/message-log/" + uid + "/cancel", map["uid" := Str(uid), "sendAtUnix" := FromOptional(sendAtUnix)])
  }

  // ---------------------------------------------------------------------------
  // healthService

  function HealthCheck(): (r: Request)
    ensures r.verb == GET && r.url == "/health" && r.params == map[]
  {
    GetRequest("/health", map[])
  }

  // ---------------------------------------------------------------------------
  // Which calls carry the namespace header

  /** No namespace call and no health check carries a namespace header. */
  lemma NamespaceAndHealthUnscoped(storage: Storage, params: Object, name: string, data: NamespaceApi.NamespaceData, status: GlobalStatus)
    ensures Unscoped(NamespaceList(params), storage)
    ensures Unscoped(NamespaceGet(name), storage)
    ensures Unscoped(NamespaceSave(data), storage)
    ensures Unscoped(NamespaceUpdateStatus(name, status), storage)
    ensures Unscoped(NamespaceDelete(name), storage)
    ensures Unscoped(HealthCheck(), storage)
  {
    var item := "/v1/namespace/";
    assert item[..13] == "/v1/namespace";
    NamespacesPrefixRedundant("/v1/namespaces");
    StartsWithConcat(item, name);
    StartsWithConcat(item, name + "/status");
    assert item + name + "/status" == item + (name + "/status");
    UnscopedUnderNamespace(NamespaceList(params), storage, "/v1/namespaces");
    UnscopedUnderNamespace(NamespaceSave(data), storage, "/v1/namespace");
    UnscopedUnderNamespace(NamespaceGet(name), storage, item);
    UnscopedUnderNamespace(NamespaceUpdateStatus(name, status), storage, item);
    UnscopedUnderNamespace(NamespaceDelete(name), storage, item);
    ScopeOfRequest(HealthCheck(), storage);
  }

  /** Every e-mail configuration call carries the selected namespace. */
  lemma EmailCallsScoped(storage: Storage, params: Object, uid: string, data: EmailConfigData, status: GlobalStatus)
    ensures ScopedToNamespace(EmailList(params), storage)
    ensures ScopedToNamespace(EmailGet(uid), storage)
    ensures ScopedToNamespace(EmailCreate(data), storage)
    ensures ScopedToNamespace(EmailUpdate(uid, data), storage)
    ensures ScopedToNamespace(EmailUpdateStatus(uid, status), storage)
    ensures ScopedToNamespace(EmailDelete(uid), storage)
  {
    var item := "/v1/email/config/";
    StartsWithConcat(item, uid);
    StartsWithConcat(item, uid + "/status");
    assert item + uid + "/status" == item + (uid + "/status");
    ScopedOutsideNamespaces(EmailList(params), storage, "/v1/email/configs");
    ScopedOutsideNamespaces(EmailCreate(data), storage, "/v1/email/config");
    ScopedOutsideNamespaces(EmailGet(uid), storage, item);
    ScopedOutsideNamespaces(EmailUpdate(uid, data), storage, item);
    ScopedOutsideNamespaces(EmailUpdateStatus(uid, status), storage, item);
    ScopedOutsideNamespaces(EmailDelete(uid), storage, item);
  }

  /** Every webhook configuration call carries the selected namespace. */
  lemma WebhookCallsScoped(storage: Storage, params: Object, uid: string, data: WebhookConfigData, status: GlobalStatus)
    ensures ScopedToNamespace(WebhookList(params), storage)
    ensures ScopedToNamespace(WebhookGet(uid), storage)
    ensures ScopedToNamespace(WebhookCreate(data), storage)
    ensures ScopedToNamespace(WebhookUpdate(uid, data), storage)
    ensures ScopedToNamespace(WebhookUpdateStatus(uid, status), storage)
    ensures ScopedToNamespace(WebhookDelete(uid), storage)
  {
    var item := "/v1/webhook/config/";
    StartsWithConcat(item, uid);
    StartsWithConcat(item, uid + "/status");
    assert item + uid + "/status" == item + (uid + "/status");
    ScopedOutsideNamespaces(WebhookList(params), storage, "/v1/webhook/configs");
    ScopedOutsideNamespaces(WebhookCreate(data), storage, "/v1/webhook/config");
    ScopedOutsideNamespaces(WebhookGet(uid), storage, item);
    ScopedOutsideNamespaces(WebhookUpdate(uid, data), storage, item);
    ScopedOutsideNamespaces(WebhookUpdateStatus(uid, status), storage, item);
    ScopedOutsideNamespaces(WebhookDelete(uid), storage, item);
  }

  /** Every e-mail send carries the selected namespace. */
  lemma SendEmailCallsScoped(storage: Storage, uid: string, email: SendEmailData, template: SendTemplateData)
    ensures ScopedToNamespace(SendEmail(uid, email), storage)
    ensures ScopedToNamespace(SendEmailWithTemplate(uid, template), storage)
  {
    var mail := "/v1/sender/email/";
    StartsWithConcat(mail, uid);
    StartsWithConcat(mail, uid + "/template");
    assert mail + uid + "/template" == mail + (uid + "/template");
    ScopedOutsideNamespaces(SendEmail(uid, email), storage, mail);
    ScopedOutsideNamespaces(SendEmailWithTemplate(uid, template), storage, mail);
  }

  /** Every webhook send carries the selected namespace. */
  lemma SendWebhookCallsScoped(storage: Storage, uid: string, webhook: SendWebhookData, template: SendTemplateData)
    ensures ScopedToNamespace(SendWebhook(uid, webhook), storage)
    ensures ScopedToNamespace(SendWebhookWithTemplate(uid, template), storage)
  {
    var hook := "/v1/sender/webhook/";
    StartsWithConcat(hook, uid);
    StartsWithConcat(hook, uid + "/template");
    assert hook + uid + "/template" == hook + (uid + "/template");
    ScopedOutsideNamespaces(SendWebhook(uid, webhook), storage, hook);
    ScopedOutsideNamespaces(SendWebhookWithTemplate(uid, template), storage, hook);
  }

  /** Every template call carries the selected namespace. */
  lemma TemplateCallsScoped(storage: Storage, params: Object, uid: string, data: TemplateApi.TemplateData, status: GlobalStatus)
    ensures ScopedToNamespace(TemplateList(params), storage)
    ensures ScopedToNamespace(TemplateGet(uid), storage)
    ensures ScopedToNamespace(TemplateCreate(data), storage)
    ensures ScopedToNamespace(TemplateUpdate(uid, data), storage)
    ensures ScopedToNamespace(TemplateUpdateStatus(uid, status), storage)
    ensures ScopedToNamespace(TemplateDelete(uid), storage)
  {
    TemplateRevisionsAgree(params, uid, data, status);
    TemplateApi.EveryCallScoped(storage, params, uid, data, status);
  }

  /** Every message-log call carries the selected namespace. */
  lemma MessageLogCallsScoped(storage: Storage, params: Object, uid: string, sendAtUnix: Option<string>)
    ensures ScopedToNamespace(MessageLogList(params), storage)
    ensures ScopedToNamespace(MessageLogGet(uid, sendAtUnix), storage)
    ensures ScopedToNamespace(MessageLogRetry(uid, sendAtUnix), storage)
    ensures ScopedToNamespace(MessageLogCancel(uid, sendAtUnix), storage)
  {
    var item := "/v1/message-log/";
    StartsWithConcat(item, uid);
    StartsWithConcat(item, uid + "/retry");
    StartsWithConcat(item, uid + "/cancel");
    assert item + uid + "/retry" == item + (uid + "/retry");
    assert item + uid + "/cancel" == item + (uid + "/cancel");
    ScopedOutsideNamespaces(MessageLogList(params), storage, "/v1/message-logs");
    ScopedOutsideNamespaces(MessageLogGet(uid, sendAtUnix), storage, item);
    ScopedOutsideNamespaces(MessageLogRetry(uid, sendAtUnix), storage, item);
    ScopedOutsideNamespaces(MessageLogCancel(uid, sendAtUnix), storage, item);
  }

  // ---------------------------------------------------------------------------
  // The two revisions of each service

  /** The template calls of this module and of src/api/template.ts are the same
      requests. */
  lemma TemplateRevisionsAgree(params: Object, uid: string, data: TemplateApi.TemplateData, status: GlobalStatus)
    ensures TemplateList(params) == TemplateApi.List(params)
    ensures TemplateGet(uid) == TemplateApi.Get(uid)
    ensures TemplateCreate(data) == TemplateApi.Create(data)
    ensures TemplateUpdate(uid, data) == TemplateApi.Update(uid, data)
    ensures TemplateUpdateStatus(uid, status) == TemplateApi.UpdateStatus(uid, status)
    ensures TemplateDelete(uid) == TemplateApi.Delete(uid)
  {
  }

  /** The namespace calls agree with src/api/namespace.ts except `updateStatus`:
      the same url and method, but the identifier travels as `name` here and as
      `uid` there. */
  lemma NamespaceRevisionsDiffer(params: Object, id: string, data: NamespaceApi.NamespaceData, status: GlobalStatus)
    ensures NamespaceList(params) == NamespaceApi.List(params)
    ensures NamespaceGet(id) == NamespaceApi.Get(id)
    ensures NamespaceSave(data) == NamespaceApi.Create(data)
    ensures NamespaceDelete(id) == NamespaceApi.Delete(id)
    ensures NamespaceUpdateStatus(id, status).url == NamespaceApi.UpdateStatus(id, status).url
    ensures "name" in NamespaceUpdateStatus(id, status).body.value && "uid" !in NamespaceUpdateStatus(id, status).body.value
    ensures "uid" in NamespaceApi.UpdateStatus(id, status).body.value && "name" !in NamespaceApi.UpdateStatus(id, status).body.value
  {
  }

  /** The message-log calls differ from src/api/messagelog.ts: retry and cancel
      are POSTs here and PUTs there. Only when `sendAtUnix` is given do they
      also send it, in the body of retry and cancel and in the query of `get`;
      without it, `{ sendAtUnix: undefined }` is dropped on the wire and the
      bodies and queries agree with the other revision. */
  lemma MessageLogRevisionsDiffer(uid: string, sendAtUnix: Option<string>)
    ensures MessageLogRetry(uid, sendAtUnix).url == MessageLogApi.Retry(uid).url
    ensures MessageLogRetry(uid, sendAtUnix).verb == POST && MessageLogApi.Retry(uid).verb == PUT
    ensures MessageLogCancel(uid, sendAtUnix).url == MessageLogApi.Cancel(uid).url
    ensures MessageLogCancel(uid, sendAtUnix).verb == POST && MessageLogApi.Cancel(uid).verb == PUT
    ensures MessageLogGet(uid, sendAtUnix).url == MessageLogApi.Get(uid).url
    ensures sendAtUnix.Some? ==>
      && OnTheWire(MessageLogRetry(uid, sendAtUnix).body.value)["sendAtUnix"] == Str(sendAtUnix.value)
      && OnTheWire(MessageLogCancel(uid, sendAtUnix).body.value)["sendAtUnix"] == Str(sendAtUnix.value)
      && "sendAtUnix" !in MessageLogApi.Retry(uid).body.value
      && OnTheWire(MessageLogGet(uid, sendAtUnix).params) == map["sendAtUnix" := Str(sendAtUnix.value)]
      && MessageLogApi.Get(uid).params == map[]
    ensures sendAtUnix.None? ==>
      && OnTheWire(MessageLogRetry(uid, sendAtUnix).body.value) == OnTheWire(MessageLogApi.Retry(uid).body.value)
      && OnTheWire(MessageLogCancel(uid, sendAtUnix).body.value) == OnTheWire(MessageLogApi.Cancel(uid).body.value)
      && OnTheWire(MessageLogGet(uid, sendAtUnix).params) == OnTheWire(MessageLogApi.Get(uid).params)
  {
  }
}
