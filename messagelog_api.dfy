/** The request descriptors of src/api/messagelog.ts, the message-log service
    the message-log page uses (the revision whose retry and cancel are PUTs). */
module MessageLogApi {
  import opened Js
  import opened Http
  import opened Browser
  import opened Client

  /** `list(params)`: the filter params are passed through unchanged. */
  function List(params: Object): (r: Request)
    ensures r.verb == GET && r.params == params && r.body == None
    ensures r.url == "/v1/message-logs"
  {
    GetRequest("/v1/message-logs", params)
  }

  /** `get(uid)`: no query parameters. */
  function Get(uid: string): (r: Request)
    ensures r.verb == GET && r.params == map[] && r.body == None
    ensures r.url == "/v1/message-log/" + uid
  {
    GetRequest("/v1/message-log/" + uid, map[])
  }

  /** `retry(uid)`: exactly `{ uid }`, to the retry path of that uid. */
  function Retry(uid: string): (r: Request)
    ensures r.verb == PUT && r.body == Some(map["uid" := Str(uid)])
    ensures BodyIdInPath(r, "uid", "/v1/message-log/", "/retry")
  {
    PutRequest("/v1/message-log/" + uid + "/retry", map["uid" := Str(uid)])
  }

  /** `cancel(uid)`: exactly `{ uid }`, to the cancel path of that uid. */
  function Cancel(uid: string): (r: Request)
    ensures r.verb == PUT && r.body == Some(map["uid" := Str(uid)])
    ensures BodyIdInPath(r, "uid", "/v1/message-log/", "/cancel")
  {
    PutRequest("/v1/message-log/" + uid + "/cancel", map["uid" := Str(uid)])
  }

  /** Retry and cancel of the same log differ only in their url, which differ
      only in the last segment. */
  lemma RetryAndCancelDifferInActionOnly(uid: string)
    ensures Retry(uid).(url := Cancel(uid).url) == Cancel(uid)
    ensures Retry(uid).url != Cancel(uid).url
  {
    var p := "/v1/message-log/" + uid;
    assert Retry(uid).url[|p| + 1] == 'r' && Cancel(uid).url[|p| + 1] == 'c';
  }

  /** No message-log url is exempt, so every call carries the selected namespace
      when one is selected. */
  lemma EveryCallScoped(storage: Storage, params: Object, uid: string)
    ensures ScopedToNamespace(List(params), storage)
    ensures ScopedToNamespace(Get(uid), storage)
    ensures ScopedToNamespace(Retry(uid), storage)
    ensures ScopedToNamespace(Cancel(uid), storage)
  {
    var item := "/v1/message-log/";
    StartsWithConcat(item, uid);
    StartsWithConcat(item, uid + "/retry");
    StartsWithConcat(item, uid + "/cancel");
    assert item + uid + "/retry" == item + (uid + "/retry");
    assert item + uid + "/cancel" == item + (uid + "/cancel");
    ScopedOutsideNamespaces(List(params), storage, "/v1/message-logs");
    ScopedOutsideNamespaces(Get(uid), storage, item);
    ScopedOutsideNamespaces(Retry(uid), storage, item);
    ScopedOutsideNamespaces(Cancel(uid), storage, item);
  }
}
