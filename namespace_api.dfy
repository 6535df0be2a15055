/** The request descriptors of src/api/namespace.ts, the namespace service the
    namespace provider uses. */
module NamespaceApi {
  import opened Js
  import opened Http
  import opened ApiTypes
  import opened Browser
  import opened Client

  /** `CreateNamespaceRequest`, which is also the data of `update`
      (`Omit<UpdateNamespaceRequest, 'uid'>`); an absent `metadata` is left
      out of the object. */
  datatype NamespaceData = NamespaceData(name: string, metadata: Option<map<string, string>>) {
    function Fields(): (o: Object)
      ensures "uid" !in o
      ensures Prop(o, "name") == Str(name)
      ensures "metadata" in o <==> metadata.Some?
    {
      var base := map["name" := Str(name)];
      if metadata.Some? then base["metadata" := StringRecord(metadata.value)] else base
    }
  }

  /** `list(params)`: params are passed through unchanged. */
  function List(params: Object): (r: Request)
    ensures r.verb == GET && r.params == params && r.body == None
    ensures r.url == "/v1/namespaces"
  {
    GetRequest("/v1/namespaces", params)
  }

  /** `get(uid)`. */
  function Get(uid: string): (r: Request)
    ensures r.verb == GET && r.params == map[] && r.body == None
    ensures r.url == "/v1/namespace/" + uid
  {
    GetRequest("/v1/namespace/" + uid, map[])
  }

  /** `create(data)`: the data verbatim, with no uid, to the singular path. */
  function Create(data: NamespaceData): (r: Request)
    ensures r.verb == POST && r.body == Some(data.Fields()) && "uid" !in r.body.value
    ensures r.url == "/v1/namespace"
  {
    PostRequest("/v1/namespace", data.Fields())
  }

  /** `update(uid, data)`: `{ uid, ...data }`, to the path of that uid. */
  function Update(uid: string, data: NamespaceData): (r: Request)
    ensures r.verb == PUT
    ensures BodyIsDataWithId(r, "uid", uid, data.Fields())
    ensures BodyIdInPath(r, "uid", "/v1/namespace/", "")
  {
    PutRequest("/v1/namespace/" + uid, map["uid" := Str(uid)] + data.Fields())
  }

  /** `updateStatus(uid, status)`: exactly `{ uid, status }`. */
  function UpdateStatus(uid: string, status: GlobalStatus): (r: Request)
    ensures r.verb == PUT
    ensures r.body == Some(map["uid" := Str(uid), "status" := GlobalStatusValue(status)])
    ensures BodyIdInPath(r, "uid", "/v1/namespace/", "/status")
  {
    PutRequest("/v1/namespace/" + uid + "/status", map["uid" := Str(uid), "status" := GlobalStatusValue(status)])
  }

  /** `delete(uid)`. */
  function Delete(uid: string): (r: Request)
    ensures r.verb == DELETE && r.body == None
    ensures r.url == "/v1/namespace/" + uid
  {
    DeleteRequest("/v1/namespace/" + uid)
  }

  /** Every namespace url starts with `/v1/namespace`, so no call carries a
      namespace header, whatever is stored. */
  lemma EveryCallUnscoped(storage: Storage, params: Object, uid: string, data: NamespaceData, status: GlobalStatus)
    ensures Unscoped(List(params), storage)
    ensures Unscoped(Get(uid), storage)
    ensures Unscoped(Create(data), storage)
    ensures Unscoped(Update(uid, data), storage)
    ensures Unscoped(UpdateStatus(uid, status), storage)
    ensures Unscoped(Delete(uid), storage)
  {
    var item := "/v1/namespace/";
    assert item[..13] == "/v1/namespace";
    NamespacesPrefixRedundant("/v1/namespaces");
    StartsWithConcat(item, uid);
    StartsWithConcat(item, uid + "/status");
    assert item + uid + "/status" == item + (uid + "/status");
    UnscopedUnderNamespace(List(params), storage, "/v1/namespaces");
    UnscopedUnderNamespace(Create(data), storage, "/v1/namespace");
    UnscopedUnderNamespace(Get(uid), storage, item);
    UnscopedUnderNamespace(Update(uid, data), storage, item);
    UnscopedUnderNamespace(UpdateStatus(uid, status), storage, item);
    UnscopedUnderNamespace(Delete(uid), storage, item);
  }
}
