/**
 * The PSR-7 request as far as the handler reads it, and the JSON response
 * every branch of the handler builds.
 */
module Http {
  import opened Wrappers
  import opened Json

  /**
   * One request. `headers` maps a header name to its header line (the values
   * joined, as `getHeaderLine` gives them); `query` holds the query
   * parameters; `server` the server parameters; `verb` the HTTP method; `routeTree` the tree
   * argument the router extracted from the path.
   */
  datatype Request = Request(
    verb: string,
    uri: string,
    path: string,
    headers: map<string, string>,
    query: map<string, string>,
    server: map<string, string>,
    routeTree: string)

  /** `$request->getHeaderLine($name)`: "" when the header is absent. */
  function HeaderLine(req: Request, name: string): string
  {
    if name in req.headers then req.headers[name] else ""
  }

  const ContentType: string := "application/json; charset=utf-8"
  const AllowOrigin: string := "*"
  const AllowMethods: string := "GET, OPTIONS"
  const AllowHeaders: string := "Content-Type, Authorization"

  datatype Response = Response(status: int, headers: map<string, string>, body: Json)

  /** The four headers every JSON response carries, whatever its status. */
  predicate HasJsonHeaders(r: Response)
  {
    r.headers.Keys == {"Content-Type", "Access-Control-Allow-Origin",
                       "Access-Control-Allow-Methods", "Access-Control-Allow-Headers"} &&
    r.headers["Content-Type"] == ContentType &&
    r.headers["Access-Control-Allow-Origin"] == AllowOrigin &&
    r.headers["Access-Control-Allow-Methods"] == AllowMethods &&
    r.headers["Access-Control-Allow-Headers"] == AllowHeaders
  }

  /** `createJsonResponse($data, $status)`: the caller's status and payload, the fixed headers. */
  function CreateJsonResponse(data: Json, status: int): (r: Response)
    ensures r.status == status && r.body == data
    ensures HasJsonHeaders(r)
  {
    Response(status,
             map["Content-Type" := ContentType,
                 "Access-Control-Allow-Origin" := AllowOrigin,
                 "Access-Control-Allow-Methods" := AllowMethods,
                 "Access-Control-Allow-Headers" := AllowHeaders],
             data)
  }

  /** The body `['error' => $message]` of every error response. */
  function ErrorBody(message: string): (j: Json)
    ensures IsObject(j, ["error"]) && Get(j, "error") == Some(JString(message))
  {
    JObject(["error"], map["error" := JString(message)])
  }

  function ErrorResponse(message: string, status: int): Response
  {
    CreateJsonResponse(ErrorBody(message), status)
  }
}
