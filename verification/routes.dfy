/** The request dispatcher: route selection, the five handlers and the two
    uniform error constructors. Each handler is a pure function of the
    request, the store's answers and the JSON codec; it reports the store
    call it made (if any) together with the response. */
module Routes {

  import opened Results
  import opened Strings
  import opened Http
  import opened Gateway
  import opened Todos

  const TaskPath: string := "/api/task"
  const DonePrefix: string := "/api/task/"
  const UndoPrefix: string := "/api/undoTask/"
  const DeletePrefix: string := "/api/deleteTask/"

  /** The path parameter that carries a task identifier. */
  const IdParam: string := "id"

  const LocationHeader: string := "Location"

  /** The two CORS headers every handled response carries. */
  const CorsHeaders: map<string, string> :=
    map["Access-Control-Allow-Headers" := "Content-Type", "Access-Control-Allow-Origin" := "*"]

  /** The answer to a request no route matches: no headers at all. */
  const Unmatched: Response := Response(404, map[], "Not Found")

  /** The one response every server-side failure turns into. */
  const GenericServerError: Response :=
    Response(InternalServerError.Code(), CorsHeaders, InternalServerError.Text())

  /** Which handler the router's switch hands a request to. */
  datatype Handler = Get | Post | Put | Delete | NoRoute

  /** What handling one request amounts to: the store call made, if any, and
      the response. (The Go functions also return an error, which is nil on
      every path.) */
  datatype Exchange = Exchange(call: Option<StoreCall>, response: Response)

  /** Whether `r` carries both CORS headers with their fixed values. */
  predicate CarriesCors(r: Response)
  {
    forall k | k in CorsHeaders :: k in r.headers && r.headers[k] == CorsHeaders[k]
  }

  /** The headers of a success that names its resource: the CORS headers and
      `Location: /todo/<id>`. */
  function WithLocation(id: string): (h: map<string, string>)
    ensures h.Keys == CorsHeaders.Keys + {LocationHeader}
    ensures h[LocationHeader] == "/todo/" + id
    ensures forall k | k in CorsHeaders :: h[k] == CorsHeaders[k]
  {
    CorsHeaders[LocationHeader := "/todo/" + id]
  }

  /** `clientError`: the status, its reason phrase as the body, and exactly
      the CORS headers. */
  function ClientError(s: Status): (r: Response)
    ensures r.statusCode == s.Code() && r.body == s.Text()
    ensures r.headers == CorsHeaders
  {
    Response(s.Code(), CorsHeaders, s.Text())
  }

  /** Two client errors with the same body are the same error: the reason
      phrase identifies the status it was built from. */
  lemma ClientErrorBodyIdentifiesStatus(s: Status, t: Status)
    ensures ClientError(s).body == ClientError(t).body <==> s == t
  {
  }

  /** `serverError`: always 500 with the fixed body; the cause `err` is only
      logged and never reaches the caller. */
  function ServerError(err: string): (r: Response)
    ensures r.statusCode == 500 && r.body == "Internal Server Error"
    ensures r.headers == CorsHeaders
  {
    GenericServerError
  }

  /** The router's switch: first match wins, and the GET and POST routes need
      the exact path while PUT and DELETE match on a prefix. */
  function SelectHandler(httpMethod: string, path: string): (h: Handler)
    ensures h == Get <==> httpMethod == "GET" && path == TaskPath
    ensures h == Post <==> httpMethod == "POST" && path == TaskPath
    ensures h == Put <==>
      httpMethod == "PUT" && (HasPrefix(path, DonePrefix) || HasPrefix(path, UndoPrefix))
    ensures h == Delete <==> httpMethod == "DELETE" && HasPrefix(path, DeletePrefix)
  {
    if httpMethod == "GET" && path == TaskPath then Get
    else if httpMethod == "POST" && path == TaskPath then Post
    else if httpMethod == "PUT" && HasPrefix(path, DonePrefix) then Put
    else if httpMethod == "PUT" && HasPrefix(path, UndoPrefix) then Put
    else if httpMethod == "DELETE" && HasPrefix(path, DeletePrefix) then Delete
    else NoRoute
  }

  /** `router`: dispatch to the selected handler, or the bare 404. */
  function Router(req: Request, store: Store, codec: Codec): (x: Exchange)
    ensures SelectHandler(req.httpMethod, req.path) == NoRoute ==> x == Exchange(None, Unmatched)
    ensures SelectHandler(req.httpMethod, req.path) != NoRoute ==> CarriesCors(x.response)
    ensures x.response.statusCode in {200, 201, 400, 404, 422, 500}
    ensures SelectHandler(req.httpMethod, req.path) == Get ==> x == ProcessGet(req, store, codec)
    ensures SelectHandler(req.httpMethod, req.path) == Post ==> x == ProcessPost(req, store, codec)
    ensures SelectHandler(req.httpMethod, req.path) == Put ==> x == ProcessPut(req, store, codec)
    ensures SelectHandler(req.httpMethod, req.path) == Delete ==> x == ProcessDelete(req, store, codec)
  {
    match SelectHandler(req.httpMethod, req.path)
    case Get => ProcessGet(req, store, codec)
    case Post => ProcessPost(req, store, codec)
    case Put => ProcessPut(req, store, codec)
    case Delete => ProcessDelete(req, store, codec)
    case NoRoute => Exchange(None, Unmatched)
  }

  /** `processGet`: list when there is no `id` path parameter, fetch one
      otherwise. */
  function ProcessGet(req: Request, store: Store, codec: Codec): (x: Exchange)
    ensures x.call == Some(ListItems) <==> IdParam !in req.pathParameters
    ensures IdParam in req.pathParameters ==> x.call == Some(GetItem(req.pathParameters[IdParam]))
    ensures IdParam !in req.pathParameters ==> x == ProcessGetTodos(store, codec)
    ensures IdParam in req.pathParameters ==> x == ProcessGetTodo(req.pathParameters[IdParam], store, codec)
    ensures x.response.statusCode in {200, 404} || x.response == GenericServerError
    ensures CarriesCors(x.response) && LocationHeader !in x.response.headers
  {
    if IdParam !in req.pathParameters then ProcessGetTodos(store, codec)
    else ProcessGetTodo(req.pathParameters[IdParam], store, codec)
  }

  /** `processGetTodo`: store error, then absent item, then marshalling. */
  function ProcessGetTodo(id: string, store: Store, codec: Codec): (x: Exchange)
    ensures x.call == Some(GetItem(id))
    ensures store.getItem(id).StoreErr? ==> x.response == GenericServerError
    ensures store.getItem(id).Absent? ==> x.response == ClientError(NotFound)
    ensures store.getItem(id).Found? && codec.marshalTask(store.getItem(id).item).Failure? ==>
      x.response == GenericServerError
    ensures x.response.statusCode == 200 <==>
      store.getItem(id).Found? && codec.marshalTask(store.getItem(id).item).Success?
    ensures x.response.statusCode == 200 ==>
      x.response.headers == CorsHeaders &&
      x.response.body == codec.marshalTask(store.getItem(id).item).value
    ensures x.response.statusCode in {200, 404} || x.response == GenericServerError
    ensures CarriesCors(x.response) && LocationHeader !in x.response.headers
  {
    var call := Some(GetItem(id));
    match store.getItem(id)
    case StoreErr(e) => Exchange(call, ServerError(e))
    case Absent => Exchange(call, ClientError(NotFound))
    case Found(todo) =>
      match codec.marshalTask(todo)
      case Failure(e) => Exchange(call, ServerError(e))
      case Success(json) => Exchange(call, Response(OK.Code(), CorsHeaders, json))
  }

  /** `processGetTodos`: store error, then marshalling; an empty list is a
      success like any other. */
  function ProcessGetTodos(store: Store, codec: Codec): (x: Exchange)
    ensures x.call == Some(ListItems)
    ensures x.response.statusCode == 200 <==>
      store.listItems.Success? && codec.marshalTasks(store.listItems.value).Success?
    ensures x.response.statusCode == 200 ==>
      x.response.headers == CorsHeaders &&
      x.response.body == codec.marshalTasks(store.listItems.value).value
    ensures x.response.statusCode != 200 ==> x.response == GenericServerError
    ensures CarriesCors(x.response) && LocationHeader !in x.response.headers
  {
    var call := Some(ListItems);
    match store.listItems
    case Failure(e) => Exchange(call, ServerError(e))
    case Success(todos) =>
      match codec.marshalTasks(todos)
      case Failure(e) => Exchange(call, ServerError(e))
      case Success(json) => Exchange(call, Response(OK.Code(), CorsHeaders, json))
  }

  /** `processPost`: decode (422 on failure), validate (400 on failure), and
      only then insert; success is 201 with the new item's `Location`. */
  function ProcessPost(req: Request, store: Store, codec: Codec): (x: Exchange)
    ensures codec.unmarshalCreate(req.body).None? ==>
      x == Exchange(None, ClientError(UnprocessableEntity))
    ensures codec.unmarshalCreate(req.body).Some? && !PassesRequired(codec.unmarshalCreate(req.body).value) ==>
      x == Exchange(None, ClientError(BadRequest))
    ensures x.call.Some? <==>
      codec.unmarshalCreate(req.body).Some? && PassesRequired(codec.unmarshalCreate(req.body).value)
    ensures x.call.Some? ==> x.call.value == InsertItem(codec.unmarshalCreate(req.body).value)
    ensures x.response.statusCode == 201 <==>
      x.call.Some? && store.insertItem(x.call.value.create).Success? &&
      codec.marshalTask(store.insertItem(x.call.value.create).value).Success?
    ensures x.response.statusCode == 201 ==>
      var todo := store.insertItem(x.call.value.create).value;
      x.response.headers == WithLocation(todo.id) &&
      x.response.body == codec.marshalTask(todo).value
    ensures x.call.Some? && x.response.statusCode != 201 ==> x.response == GenericServerError
    ensures x.response.statusCode in {201, 400, 422} || x.response == GenericServerError
    ensures CarriesCors(x.response)
    ensures LocationHeader in x.response.headers <==> x.response.statusCode == 201
  {
    match codec.unmarshalCreate(req.body)
    case None => Exchange(None, ClientError(UnprocessableEntity))
    case Some(createTodo) =>
      if !PassesRequired(createTodo) then Exchange(None, ClientError(BadRequest))
      else
        var call := Some(InsertItem(createTodo));
        match store.insertItem(createTodo)
        case Failure(e) => Exchange(call, ServerError(e))
        case Success(res) =>
          match codec.marshalTask(res)
          case Failure(e) => Exchange(call, ServerError(e))
          case Success(json) => Exchange(call, Response(Created.Code(), WithLocation(res.id), json))
  }

  /** The switch inside `processPut`: the new status comes from the path
      prefix alone. With neither prefix the Go zero value `false` stays. */
  function TargetStatus(path: string): (u: UpdateTodo)
    ensures u.status <==> HasPrefix(path, DonePrefix)
  {
    if HasPrefix(path, DonePrefix) then UpdateTodo(true)
    else if HasPrefix(path, UndoPrefix) then UpdateTodo(false)
    else UpdateTodo(false)
  }

  /** `processPut`: missing `id` first (400, no store call), then the update
      with the status the path prefix selects; the body is never read. */
  function ProcessPut(req: Request, store: Store, codec: Codec): (x: Exchange)
    ensures x.call.None? <==> IdParam !in req.pathParameters
    ensures x.call.None? ==> x.response == ClientError(BadRequest)
    ensures IdParam in req.pathParameters ==>
      x.call == Some(UpdateItem(req.pathParameters[IdParam], TargetStatus(req.path)))
    ensures IdParam in req.pathParameters ==>
      var res := store.updateItem(req.pathParameters[IdParam], TargetStatus(req.path));
      && (res.StoreErr? ==> x.response == GenericServerError)
      && (res.Absent? ==> x.response == ClientError(NotFound))
      && (res.Found? && codec.marshalTask(res.item).Failure? ==> x.response == GenericServerError)
      && (x.response.statusCode == 200 <==> res.Found? && codec.marshalTask(res.item).Success?)
      && (x.response.statusCode == 200 ==>
            x.response.headers == WithLocation(res.item.id) &&
            x.response.body == codec.marshalTask(res.item).value)
    ensures x.response.statusCode in {200, 400, 404} || x.response == GenericServerError
    ensures CarriesCors(x.response)
    ensures LocationHeader in x.response.headers <==> x.response.statusCode == 200
  {
    if IdParam !in req.pathParameters then Exchange(None, ClientError(BadRequest))
    else
      var id := req.pathParameters[IdParam];
      var updateTodo := TargetStatus(req.path);
      var call := Some(UpdateItem(id, updateTodo));
      match store.updateItem(id, updateTodo)
      case StoreErr(e) => Exchange(call, ServerError(e))
      case Absent => Exchange(call, ClientError(NotFound))
      case Found(res) =>
        match codec.marshalTask(res)
        case Failure(e) => Exchange(call, ServerError(e))
        case Success(json) => Exchange(call, Response(OK.Code(), WithLocation(res.id), json))
  }

  /** `processDelete`: missing `id` first (400, no store call), then store
      error, absent item and marshalling. */
  function ProcessDelete(req: Request, store: Store, codec: Codec): (x: Exchange)
    ensures x.call.None? <==> IdParam !in req.pathParameters
    ensures x.call.None? ==> x.response == ClientError(BadRequest)
    ensures IdParam in req.pathParameters ==> x.call == Some(DeleteItem(req.pathParameters[IdParam]))
    ensures IdParam in req.pathParameters ==>
      var res := store.deleteItem(req.pathParameters[IdParam]);
      && (res.StoreErr? ==> x.response == GenericServerError)
      && (res.Absent? ==> x.response == ClientError(NotFound))
      && (res.Found? && codec.marshalTask(res.item).Failure? ==> x.response == GenericServerError)
      && (x.response.statusCode == 200 <==> res.Found? && codec.marshalTask(res.item).Success?)
      && (x.response.statusCode == 200 ==>
            x.response.headers == CorsHeaders &&
            x.response.body == codec.marshalTask(res.item).value)
    ensures x.response.statusCode in {200, 400, 404} || x.response == GenericServerError
    ensures CarriesCors(x.response) && LocationHeader !in x.response.headers
  {
    if IdParam !in req.pathParameters then Exchange(None, ClientError(BadRequest))
    else
      var id := req.pathParameters[IdParam];
      var call := Some(DeleteItem(id));
      match store.deleteItem(id)
      case StoreErr(e) => Exchange(call, ServerError(e))
      case Absent => Exchange(call, ClientError(NotFound))
      case Found(todo) =>
        match codec.marshalTask(todo)
        case Failure(e) => Exchange(call, ServerError(e))
        case Success(json) => Exchange(call, Response(OK.Code(), CorsHeaders, json))
  }
}
