/**
 * What the server's key checks read from an HTTP request, and the Python
 * truthiness they rely on (`not key`, `a or b`).
 */
module Http {

  datatype Option<T> = None | Some(value: T)

  /** Python truthiness of an optional string: `None` and `""` are false. */
  predicate Truthy(x: Option<string>)
  {
    x.Some? && x.value != ""
  }

  /**
   * A request: its URL path, the `x-api-key` header and the `api_key` query
   * parameter (each possibly absent), and the client host.
   */
  datatype Request = Request(path: string, headerKey: Option<string>, queryKey: Option<string>, host: string)

  /** `headers.get('x-api-key') or query_params.get('api_key')`: the query key only when the header is missing or empty. */
  function PresentedKey(req: Request): Option<string>
  {
    if Truthy(req.headerKey) then req.headerKey else req.queryKey
  }
}
