/** The request descriptors of src/api/template.ts, the template service the
    template pages use. */
module TemplateApi {
  import opened Js
  import opened Http
  import opened ApiTypes
  import opened Browser
  import opened Client

  /** `CreateTemplateRequest`, which is also the data of `update`
      (`Omit<UpdateTemplateRequest, 'uid'>`). */
  datatype TemplateData = TemplateData(name: string, app: TemplateApp, jsonData: string) {
    /** The object literal; it has no `uid`, so `{ uid, ...data }` keeps the
        path's uid. */
    function Fields(): (o: Object)
      ensures "uid" !in o
      ensures Prop(o, "name") == Str(name) && Prop(o, "jsonData") == Str(jsonData)
    {
      map["name" := Str(name), "app" := TemplateAppValue(app), "jsonData" := Str(jsonData)]
    }
  }

  /** `list(params)`: params are passed through unchanged. */
  function List(params: Object): (r: Request)
    ensures r.verb == GET && r.params == params && r.body == None
    ensures r.url == "/v1/templates"
  {
    GetRequest("/v1/templates", params)
  }

  /** `get(uid)`. */
  function Get(uid: string): (r: Request)
    ensures r.verb == GET && r.params == map[] && r.body == None
    ensures r.url == "/v1/template/" + uid
  {
    GetRequest("/v1/template/" + uid, map[])
  }

  /** `create(data)`: the data verbatim, with no uid, to the singular path. */
  function Create(data: TemplateData): (r: Request)
    ensures r.verb == POST && r.body == Some(data.Fields()) && "uid" !in r.body.value
    ensures r.url == "/v1/template"
  {
    PostRequest("/v1/template", data.Fields())
  }

  /** `update(uid, data)`: `{ uid, ...data }`, to the path of that uid. */
  function Update(uid: string, data: TemplateData): (r: Request)
    ensures r.verb == PUT
    ensures BodyIsDataWithId(r, "uid", uid, data.Fields())
    ensures BodyIdInPath(r, "uid", "/v1/template/", "")
  {
    PutRequest("/v1/template/" + uid, map["uid" := Str(uid)] + data.Fields())
  }

  /** `updateStatus(uid, status)`: `{ uid, status }`, to the status path of that uid. */
  function UpdateStatus(uid: string, status: GlobalStatus): (r: Request)
    ensures r.verb == PUT
    ensures BodyIsDataWithId(r, "uid", uid, map["status" := GlobalStatusValue(status)])
    ensures BodyIdInPath(r, "uid", "/v1/template/", "/status")
  {
    PutRequest("/v1/template/" + uid + "/status", map["uid" := Str(uid), "status" := GlobalStatusValue(status)])
  }

  /** `delete(uid)`. */
  function Delete(uid: string): (r: Request)
    ensures r.verb == DELETE && r.body == None
    ensures r.url == "/v1/template/" + uid
  {
    DeleteRequest("/v1/template/" + uid)
  }

  /** No template url is exempt, so every call carries the selected namespace
      when one is selected. */
  lemma EveryCallScoped(storage: Storage, params: Object, uid: string, data: TemplateData, status: GlobalStatus)
    ensures ScopedToNamespace(List(params), storage)
    ensures ScopedToNamespace(Get(uid), storage)
    ensures ScopedToNamespace(Create(data), storage)
    ensures ScopedToNamespace(Update(uid, data), storage)
    ensures ScopedToNamespace(UpdateStatus(uid, status), storage)
    ensures ScopedToNamespace(Delete(uid), storage)
  {
    var item := "/v1/template/";
    StartsWithConcat(item, uid);
    StartsWithConcat(item, uid + "/status");
    assert item + uid + "/status" == item + (uid + "/status");
    ScopedOutsideNamespaces(List(params), storage, "/v1/templates");
    ScopedOutsideNamespaces(Create(data), storage, "/v1/template");
    ScopedOutsideNamespaces(Get(uid), storage, item);
    ScopedOutsideNamespaces(Update(uid, data), storage, item);
    ScopedOutsideNamespaces(UpdateStatus(uid, status), storage, item);
    ScopedOutsideNamespaces(Delete(uid), storage, item);
  }
}
