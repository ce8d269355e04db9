/** The requests the portfolio resource sends to the server's api/views endpoints, and, for each
    operation, the requests it sends in order, the error it returns and the resource data it
    leaves, given how the server answers each request. */
module PortfolioApi {
  import opened GoStrings
  import opened PortfolioSchema

  datatype Option<T> = None | Some(value: T)

  datatype Verb = Get | Post

  /** A URL: `path` and `query` are the parts the resource rewrites; everything else (scheme,
      host, credentials) is `origin`.  Each query parameter has exactly one value. */
  datatype Url = Url(origin: string, path: string, query: map<string, string>)

  /** A call of the HTTP helper: method, URL, the status expected back (`status`), and the caller's name,
      which the helper puts into its error messages. */
  datatype Request = Request(verb: Verb, url: Url, status: int, caller: string)

  /** A response body as the JSON decoder sees it. */
  datatype Body = Json(portfolio: Portfolio) | Malformed

  /** What the HTTP helper returns: an error (transport failure or unexpected status), or the body. */
  datatype Reply = Failed(reason: string) | Answered(body: Body)

  /** The errors an operation returns. */
  datatype Error =
    | UnknownSelectionMode               // no valid selection_mode
    | RequestFailed(reason: string)      // the helper's error, returned as it is
    | ReadFailed(reason: string)         // Read's wrapping of the helper's error
    | DecodeFailed(caller: string)       // the body is not a portfolio object
    | RenameFailed(reason: string)       // Update's wrapping of the name/description call's error
    | SelectionModeFailed(cause: Error)  // Update's wrapping of the dispatcher's error

  /** One operation: the requests it sent, in order; the error it returned; the data it left. */
  datatype Run = Run(sent: seq<Request>, err: Option<Error>, data: Data)

  /** What the selection-mode dispatcher decides: the mode is unknown, nothing needs sending, or this request. */
  datatype ModeCall = Unknown | Skipped | Issued(request: Request)

  const STATUS_OK := 200
  const STATUS_NO_CONTENT := 204

  const CREATE_ENDPOINT := "/api/views/create"
  const SHOW_ENDPOINT := "/api/views/show"
  const UPDATE_ENDPOINT := "/api/views/update"
  const DELETE_ENDPOINT := "/api/views/delete"
  const SET_NONE_ENDPOINT := "/api/views/set_none_mode"
  const SET_MANUAL_ENDPOINT := "/api/views/set_manual_mode"
  const SET_TAGS_ENDPOINT := "/api/views/set_tags_mode"
  const SET_REGEXP_ENDPOINT := "/api/views/set_regexp_mode"
  const SET_REST_ENDPOINT := "/api/views/set_remaining_projects_mode"

  const CREATE_CALLER := "resourceSonarqubePortfolioCreate"
  const READ_CALLER := "resourceSonarqubePortfolioRead"
  const UPDATE_CALLER := "resourceSonarqubePortfolioUpdate"
  const DELETE_CALLER := "resourceSonarqubePortfolioDelete"

  /** `url` with one trailing "/" of its path removed, `endpoint` appended, and `query` as its query. */
  function At(url: Url, endpoint: string, query: map<string, string>): Url
  {
    url.(path := TrimSuffix(url.path, "/") + endpoint, query := query)
  }

  /** The tags parameter: the list printed as "[t1 t2 ...]", split into fields at white space,
      the fields joined with ",", and every leading and trailing bracket trimmed. */
  function TagsCsv(tags: seq<string>): string
  {
    Trim(Join(Fields(Sprint(tags)), ","), "[]")
  }

  /** The endpoint of each accepted selection mode ("" for any other string). */
  function ModeEndpoint(mode: string): string
  {
    if mode == "NONE" then SET_NONE_ENDPOINT
    else if mode == "MANUAL" then SET_MANUAL_ENDPOINT
    else if mode == "TAGS" then SET_TAGS_ENDPOINT
    else if mode == "REGEXP" then SET_REGEXP_ENDPOINT
    else if mode == "REST" then SET_REST_ENDPOINT
    else ""
  }

  /** The guard of each mode: NONE and MANUAL always send; TAGS only when branch or tags changed,
      REGEXP only when branch or regexp changed, REST only when branch changed. */
  predicate ModeGuard(d: Data)
  {
    var mode := d.config.selectionMode;
    if mode == "TAGS" then HasChange(d, BranchField) || HasChange(d, TagsField)
    else if mode == "REGEXP" then HasChange(d, BranchField) || HasChange(d, RegexpField)
    else if mode == "REST" then HasChange(d, BranchField)
    else true
  }

  /** The query parameters of each mode's request. */
  function ModeQuery(c: Attributes): map<string, string>
  {
    if c.selectionMode == "TAGS" then map["branch" := c.branch, "portfolio" := c.key, "tags" := TagsCsv(c.tags)]
    else if c.selectionMode == "REGEXP" then map["branch" := c.branch, "portfolio" := c.key, "regexp" := c.regexp]
    else if c.selectionMode == "REST" then map["branch" := c.branch, "portfolio" := c.key]
    else map["portfolio" := c.key]
  }

  /** The decision of portfolioSetSelectionMode for the data `d`, building on `url`. */
  function SelectionModeCall(d: Data, url: Url): ModeCall
  {
    var mode := d.config.selectionMode;
    if mode !in SELECTION_MODE_OPTIONS then Unknown
    else if !ModeGuard(d) then Skipped
    else Issued(Request(Post, At(url, ModeEndpoint(mode), ModeQuery(d.config)), STATUS_NO_CONTENT, CREATE_CALLER))
  }

  /** portfolioSetSelectionMode run against `server`; it never changes the data. */
  function DispatchRun(d: Data, url: Url, server: Request -> Reply): Run
  {
    match SelectionModeCall(d, url)
    case Unknown => Run([], Some(UnknownSelectionMode), d)
    case Skipped => Run([], None, d)
    case Issued(req) =>
      match server(req)
      case Failed(reason) => Run([req], Some(RequestFailed(reason)), d)
      case Answered(_) => Run([req], None, d)
  }

  function CreateRequest(base: Url, c: Attributes): Request
  {
    Request(Post, At(base, CREATE_ENDPOINT,
                     map["description" := c.description, "key" := c.key, "name" := c.name, "visibility" := c.visibility]),
            STATUS_OK, CREATE_CALLER)
  }

  function ShowRequest(base: Url, id: string): Request
  {
    Request(Get, At(base, SHOW_ENDPOINT, map["key" := id]), STATUS_OK, READ_CALLER)
  }

  /** The URL of the name/description call; Update goes on using it for the selection mode. */
  function RenameUrl(base: Url, id: string, c: Attributes): Url
  {
    At(base, UPDATE_ENDPOINT, map["key" := id, "description" := c.description, "name" := c.name])
  }

  function RenameRequest(base: Url, id: string, c: Attributes): Request
  {
    Request(Post, RenameUrl(base, id, c), STATUS_OK, UPDATE_CALLER)
  }

  function DeleteRequest(base: Url, id: string): Request
  {
    Request(Post, At(base, DELETE_ENDPOINT, map["key" := id]), STATUS_NO_CONTENT, DELETE_CALLER)
  }

  /** resourceSonarqubePortfolioRead */
  function ReadRun(d: Data, base: Url, server: Request -> Reply): Run
  {
    var req := ShowRequest(base, d.id);
    match server(req)
    case Failed(reason) => Run([req], Some(ReadFailed(reason)), d)
    case Answered(Malformed) => Run([req], Some(DecodeFailed(READ_CALLER)), d)
    case Answered(Json(p)) => Run([req], None, d.(id := p.key, config := FromResponse(p)))
  }

  /** resourceSonarqubePortfolioCreate: create, then the selection mode on the base URL, then the
      id from the create response, then Read. */
  function CreateRun(d: Data, base: Url, server: Request -> Reply): Run
  {
    var req := CreateRequest(base, d.config);
    match server(req)
    case Failed(reason) => Run([req], Some(RequestFailed(reason)), d)
    case Answered(body) =>
      var mode := DispatchRun(d, base, server);
      if mode.err.Some? then Run([req] + mode.sent, mode.err, d)
      else match body
        case Malformed => Run([req] + mode.sent, Some(DecodeFailed(CREATE_CALLER)), d)
        case Json(p) =>
          var read := ReadRun(d.(id := p.key), base, server);
          Run([req] + mode.sent + read.sent, read.err, read.data)
  }

  predicate NameChanged(d: Data)
  {
    HasChange(d, NameField) || HasChange(d, DescriptionField)
  }

  predicate SelectionChanged(d: Data)
  {
    HasChange(d, SelectionModeField) || HasChange(d, BranchField) || HasChange(d, TagsField) || HasChange(d, RegexpField)
  }

  /** The part of Update after the name/description call: the selection mode on `url`, then Read. */
  function UpdateTail(d: Data, url: Url, base: Url, server: Request -> Reply): Run
  {
    var mode := if SelectionChanged(d) then DispatchRun(d, url, server) else Run([], None, d);
    if mode.err.Some? then Run(mode.sent, Some(SelectionModeFailed(mode.err.value)), d)
    else
      var read := ReadRun(d, base, server);
      Run(mode.sent + read.sent, read.err, read.data)
  }

  /** resourceSonarqubePortfolioUpdate */
  function UpdateRun(d: Data, base: Url, server: Request -> Reply): Run
  {
    if NameChanged(d) then
      var req := RenameRequest(base, d.id, d.config);
      match server(req)
      case Failed(reason) => Run([req], Some(RenameFailed(reason)), d)
      case Answered(_) =>
        var tail := UpdateTail(d, req.url, base, server);
        Run([req] + tail.sent, tail.err, tail.data)
    else
      UpdateTail(d, base, base, server)
  }

  /** resourceSonarqubePortfolioDelete */
  function DeleteRun(d: Data, base: Url, server: Request -> Reply): Run
  {
    var req := DeleteRequest(base, d.id);
    match server(req)
    case Failed(reason) => Run([req], Some(RequestFailed(reason)), d)
    case Answered(_) => Run([req], None, d)
  }
}
