/** The shared API client of src/api/client.ts: a request interceptor that adds
    the `Authorization` and `X-Namespace` headers from browser storage, and a
    response interceptor that logs the user out on a 401 outside development. */
module Client {
  import opened Js
  import opened Http
  import opened Browser

  type Headers = map<string, string>

  /** The headers every request starts with (`axios.create({ headers })`). */
  const DefaultHeaders: Headers := map["Content-Type" := "application/json"]

  const AuthorizationHeader := "Authorization"
  const NamespaceHeader := "X-Namespace"

  // ---------------------------------------------------------------------------
  // Which calls are exempt from the namespace header

  /** `isNamespaceApi`, written as the client writes it: `url?.startsWith(..)`
      is `undefined` (falsy) when there is no url. */
  predicate IsNamespaceApi(url: Option<string>) {
    || (url.Some? && StartsWith(url.value, "/v1/namespace"))
    || (url.Some? && StartsWith(url.value, "/v1/namespaces"))
    || url == Some("/health")
  }

  /** Every url starting with `/v1/namespaces` already starts with `/v1/namespace`. */
  lemma NamespacesPrefixRedundant(s: string)
    requires StartsWith(s, "/v1/namespaces")
    ensures StartsWith(s, "/v1/namespace")
  {
    StartsWithConcat("/v1/namespace", "s");
    assert "/v1/namespace" + "s" == "/v1/namespaces";
    StartsWithTrans(s, "/v1/namespaces", "/v1/namespace");
  }

  /** A url is exempt exactly when it has the prefix `/v1/namespace` or is
      `/health`; a missing url is never exempt. */
  lemma IsNamespaceApiExactly(url: Option<string>)
    ensures IsNamespaceApi(url) <==>
      url.Some? && (StartsWith(url.value, "/v1/namespace") || url.value == "/health")
  {
    if url.Some? && StartsWith(url.value, "/v1/namespaces") {
      NamespacesPrefixRedundant(url.value);
    }
  }

  /** The prefix test is wider than the namespace resource and the health test
      is an exact match. */
  lemma IsNamespaceApiEdges()
    ensures IsNamespaceApi(Some("/v1/namespacefoo"))
    ensures !IsNamespaceApi(Some("/health?x"))
    ensures !IsNamespaceApi(Some("/healthz"))
    ensures !IsNamespaceApi(None)
  {
    assert "/v1/namespacefoo"[..13] == "/v1/namespace";
  }

  /** A url under `/v1/` whose next character is not `n` is never exempt: the
      template, e-mail, webhook, sender and message-log resources. */
  lemma NotNamespaceApi(url: string)
    requires |url| > 4 && url[..4] == "/v1/" && url[4] != 'n'
    ensures !IsNamespaceApi(Some(url))
  {
    if |url| >= 13 {
      assert url[..13][4] == url[4] != "/v1/namespace"[4];
    }
    if |url| >= 14 {
      assert url[..14][4] == url[4] != "/v1/namespaces"[4];
    }
    assert url != "/health" by {
      assert url[1] == url[..4][1] == 'v';
    }
  }

  // ---------------------------------------------------------------------------
  // The request interceptor

  /** The headers the request interceptor leaves on a request that had
      `headers`, given the stored token and the stored namespace. */
  function OutgoingHeaders(headers: Headers, url: Option<string>, token: Option<string>, ns: Option<string>): (h: Headers)
    ensures Present(token) ==> AuthorizationHeader in h && h[AuthorizationHeader] == "Bearer " + token.value
    ensures !Present(token) ==>
      (AuthorizationHeader in h <==> AuthorizationHeader in headers) &&
      (AuthorizationHeader in headers ==> h[AuthorizationHeader] == headers[AuthorizationHeader])
    ensures !IsNamespaceApi(url) && Present(ns) ==> NamespaceHeader in h && h[NamespaceHeader] == ns.value
    ensures IsNamespaceApi(url) || !Present(ns) ==>
      (NamespaceHeader in h <==> NamespaceHeader in headers) &&
      (NamespaceHeader in headers ==> h[NamespaceHeader] == headers[NamespaceHeader])
  {
    var withToken := if Present(token) then headers[AuthorizationHeader := "Bearer " + token.value] else headers;
    if !IsNamespaceApi(url) && Present(ns) then withToken[NamespaceHeader := ns.value] else withToken
  }

  /** The interceptor touches no header but `Authorization` and `X-Namespace`. */
  lemma OtherHeadersUnchanged(headers: Headers, url: Option<string>, token: Option<string>, ns: Option<string>, k: string)
    requires k != AuthorizationHeader && k != NamespaceHeader
    ensures k in OutgoingHeaders(headers, url, token, ns) <==> k in headers
    ensures k in headers ==> OutgoingHeaders(headers, url, token, ns)[k] == headers[k]
  {
  }

  /** The mutable request config the interceptor receives. */
  class RequestConfig {
    var url: Option<string>
    var verb: HttpMethod
    var headers: Headers
    var params: Object
    var data: Option<Object>

    /** The config axios builds for `r` from the client's defaults. */
    constructor (r: Request)
      ensures url == Some(r.url) && verb == r.verb && headers == DefaultHeaders
      ensures params == r.params && data == r.body
    {
      url := Some(r.url);
      verb := r.verb;
      headers := DefaultHeaders;
      params := r.params;
      data := r.body;
    }
  }

  /** The request interceptor: it changes `config.headers` in place and returns
      the same config object. */
  method InterceptRequest(config: RequestConfig, window: Window) returns (result: RequestConfig)
    modifies config`headers
    ensures result == config
    ensures config.headers ==
      OutgoingHeaders(old(config.headers), config.url, window.GetItem(AuthTokenKey), window.GetItem(CurrentNamespaceKey))
    ensures config.url == old(config.url) && config.verb == old(config.verb)
    ensures config.params == old(config.params) && config.data == old(config.data)
  {
    var token := window.GetItem(AuthTokenKey);
    if Present(token) {
      config.headers := config.headers[AuthorizationHeader := "Bearer " + token.value];
    }
    if !IsNamespaceApi(config.url) {
      var currentNamespace := window.GetItem(CurrentNamespaceKey);
      if Present(currentNamespace) {
        config.headers := config.headers[NamespaceHeader := currentNamespace.value];
      }
    }
    result := config;
  }

  /** The headers a request `r` goes out with when the storage is `storage`. */
  function SentHeaders(r: Request, storage: Storage): Headers {
    OutgoingHeaders(DefaultHeaders, Some(r.url), Lookup(storage, AuthTokenKey), Lookup(storage, CurrentNamespaceKey))
  }

  /** `r` carries the selected namespace when one is selected, and no
      namespace header otherwise. */
  predicate ScopedToNamespace(r: Request, storage: Storage) {
    var h := SentHeaders(r, storage);
    var ns := Lookup(storage, CurrentNamespaceKey);
    if Present(ns) then NamespaceHeader in h && h[NamespaceHeader] == ns.value
    else NamespaceHeader !in h
  }

  /** `r` never carries a namespace header. */
  predicate Unscoped(r: Request, storage: Storage) {
    NamespaceHeader !in SentHeaders(r, storage)
  }

  /** A request is scoped to the selected namespace unless its url is exempt
      and a namespace is selected; it is unscoped exactly when its url is
      exempt or nothing is selected. */
  lemma ScopeOfRequest(r: Request, storage: Storage)
    ensures ScopedToNamespace(r, storage) <==>
      !IsNamespaceApi(Some(r.url)) || !Present(Lookup(storage, CurrentNamespaceKey))
    ensures Unscoped(r, storage) <==>
      IsNamespaceApi(Some(r.url)) || !Present(Lookup(storage, CurrentNamespaceKey))
  {
  }

  /** A request under `/v1/` whose next character is not `n` (the template,
      e-mail, webhook, sender and message-log resources) is scoped. */
  lemma ScopedOutsideNamespaces(r: Request, storage: Storage, prefix: string)
    requires StartsWith(r.url, prefix)
    requires |prefix| > 4 && prefix[..4] == "/v1/" && prefix[4] != 'n'
    ensures ScopedToNamespace(r, storage)
  {
    assert r.url[..4] == prefix[..4] && r.url[4] == prefix[4] by {
      assert r.url[..|prefix|] == prefix;
    }
    NotNamespaceApi(r.url);
    ScopeOfRequest(r, storage);
  }

  /** A request under a prefix that starts with `/v1/namespace` is never scoped. */
  lemma UnscopedUnderNamespace(r: Request, storage: Storage, prefix: string)
    requires StartsWith(r.url, prefix) && StartsWith(prefix, "/v1/namespace")
    ensures Unscoped(r, storage)
  {
    StartsWithTrans(r.url, prefix, "/v1/namespace");
    ScopeOfRequest(r, storage);
  }

  /** Issuing `r`: axios builds the config and runs the request interceptor. */
  method Prepare(r: Request, window: Window) returns (config: RequestConfig)
    ensures fresh(config)
    ensures config.url == Some(r.url) && config.verb == r.verb
    ensures config.params == r.params && config.data == r.body
    ensures config.headers == SentHeaders(r, window.localStorage)
  {
    config := new RequestConfig(r);
    config := InterceptRequest(config, window);
  }

  // ---------------------------------------------------------------------------
  // The response interceptor

  /** `error.response?.status === 401`. */
  predicate IsUnauthorized(error: JsValue) {
    Member(Member(error, "response"), "status") == Num(401)
  }

  /** Whether the response interceptor logs the user out. */
  predicate LogsOut(error: JsValue, dev: bool) {
    IsUnauthorized(error) && !dev
  }

  /** The storage after the response interceptor handled `error`. */
  function StorageAfterError(storage: Storage, error: JsValue, dev: bool): (s: Storage)
    ensures LogsOut(error, dev) ==> AuthTokenKey !in s
    ensures !LogsOut(error, dev) ==> s == storage
    ensures forall k :: k != AuthTokenKey ==> (k in s <==> k in storage) && (k in s ==> s[k] == storage[k])
  {
    if LogsOut(error, dev) then storage - {AuthTokenKey} else storage
  }

  /** The response interceptor's error handler: it returns the error the
      promise is rejected with. */
  method OnResponseError(error: JsValue, dev: bool, window: Window) returns (rejected: JsValue)
    modifies window
    ensures rejected == error
    ensures window.localStorage == StorageAfterError(old(window.localStorage), error, dev)
    ensures window.locationHref == if LogsOut(error, dev) then "/login" else old(window.locationHref)
  {
    if IsUnauthorized(error) {
      if !dev {
        window.RemoveItem(AuthTokenKey);
        window.Navigate("/login");
      }
    }
    rejected := error;
  }

  /** A 401 outside development ends the session but keeps the selected
      namespace; in development, or for any other error, storage is unchanged. */
  lemma LogoutKeepsNamespace(storage: Storage, error: JsValue, dev: bool)
    ensures Lookup(StorageAfterError(storage, error, dev), CurrentNamespaceKey) == Lookup(storage, CurrentNamespaceKey)
    ensures LogsOut(error, dev) ==> Lookup(StorageAfterError(storage, error, dev), AuthTokenKey) == None
    ensures Lookup(StorageAfterError(storage, error, true), AuthTokenKey) == Lookup(storage, AuthTokenKey)
  {
  }

  /** After a logout, the next request goes out without `Authorization`. */
  lemma NoTokenAfterLogout(storage: Storage, error: JsValue, r: Request)
    requires IsUnauthorized(error)
    ensures AuthorizationHeader !in SentHeaders(r, StorageAfterError(storage, error, false))
  {
  }
}
