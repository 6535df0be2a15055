/** Outgoing HTTP requests as the API client sees them: a method, a url, the
    query parameters and an optional JSON body. The network itself is not part
    of the model; a call's result is handed to the code that needs it as an
    `Outcome`. */
module Http {
  import opened Js

  datatype HttpMethod = GET | POST | PUT | DELETE

  datatype Request = Request(verb: HttpMethod, url: string, params: Object, body: Option<Object>)

  /** The result of an awaited call: the response payload, or the error the
      promise was rejected with. */
  datatype Outcome<T> = Success(data: T) | Failure(error: JsValue)

  /** `GET /v1/...` list responses. */
  datatype Page<T> = Page(items: seq<T>, total: int, page: int, pageSize: int)

  /** `apiClient.get(url, { params })`; `apiClient.get(url)` has no params. */
  function GetRequest(url: string, params: Object): Request {
    Request(GET, url, params, None)
  }

  /** `apiClient.post(url, data)`. */
  function PostRequest(url: string, data: Object): Request {
    Request(POST, url, map[], Some(data))
  }

  /** `apiClient.put(url, data)`. */
  function PutRequest(url: string, data: Object): Request {
    Request(PUT, url, map[], Some(data))
  }

  /** `apiClient.delete(url)`. */
  function DeleteRequest(url: string): Request {
    Request(DELETE, url, map[], None)
  }

  /** The body is `{ [key]: id, ...data }` for a `data` without `key`: it names
      the identifier and otherwise carries exactly the fields of `data`. */
  predicate BodyIsDataWithId(r: Request, key: string, id: string, data: Object) {
    && r.body.Some?
    && key in r.body.value && r.body.value[key] == Str(id)
    && r.body.value - {key} == data
  }

  /** The identifier in the body's `key` field is the part of the path between
      `prefix` and `suffix`. */
  predicate BodyIdInPath(r: Request, key: string, prefix: string, suffix: string) {
    && r.body.Some?
    && key in r.body.value && r.body.value[key].Str?
    && r.url == prefix + r.body.value[key].s + suffix
  }
}
