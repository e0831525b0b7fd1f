/** Properties of the whole dispatcher, stated over every request, every
    store behaviour and every codec behaviour. */
module RouterProperties {

  import opened Results
  import opened Strings
  import opened Http
  import opened Gateway
  import opened Todos
  import opened Routes

  /** A request no route accepts gets the bare 404, and only such a request
      gets a response without headers. */
  lemma UnmatchedIsBare404(req: Request, store: Store, codec: Codec)
    ensures Router(req, store, codec).response.headers == map[] <==>
      SelectHandler(req.httpMethod, req.path) == NoRoute
    ensures SelectHandler(req.httpMethod, req.path) == NoRoute ==>
      Router(req, store, codec) == Exchange(None, Response(404, map[], "Not Found"))
  {
    if SelectHandler(req.httpMethod, req.path) != NoRoute {
      var r := Router(req, store, codec).response;
      assert "Access-Control-Allow-Origin" in CorsHeaders;
      assert "Access-Control-Allow-Origin" in r.headers;
    }
  }

  /** A GET of the task collection lists exactly when there is no `id` path
      parameter, and otherwise fetches the task it names. */
  lemma GetSplitsOnId(req: Request, store: Store, codec: Codec)
    requires req.httpMethod == "GET" && req.path == TaskPath
    ensures Router(req, store, codec).call == Some(ListItems) <==> IdParam !in req.pathParameters
    ensures IdParam in req.pathParameters ==>
      Router(req, store, codec).call == Some(GetItem(req.pathParameters[IdParam]))
  {
  }

  /** A PUT or DELETE without an `id` path parameter is a 400 decided before
      the store is consulted: no call, and any two stores give the same answer. */
  lemma MissingIdSkipsStore(req: Request, store: Store, other: Store, codec: Codec)
    requires SelectHandler(req.httpMethod, req.path) in {Put, Delete}
    requires IdParam !in req.pathParameters
    ensures Router(req, store, codec) == Exchange(None, Response(400, CorsHeaders, "Bad Request"))
    ensures Router(req, store, codec) == Router(req, other, codec)
  {
  }

  /** The status a PUT asks the store to set comes from the path prefix
      alone: `/api/task/` sets done and `/api/undoTask/` sets not done. */
  lemma PutStatusFromPrefix(req: Request, store: Store, codec: Codec)
    requires req.httpMethod == "PUT" && IdParam in req.pathParameters
    ensures HasPrefix(req.path, DonePrefix) ==>
      Router(req, store, codec).call == Some(UpdateItem(req.pathParameters[IdParam], UpdateTodo(true)))
    ensures HasPrefix(req.path, UndoPrefix) ==>
      Router(req, store, codec).call == Some(UpdateItem(req.pathParameters[IdParam], UpdateTodo(false)))
  {
    DivergentPrefixes(req.path, DonePrefix, UndoPrefix, 5);
  }

  /** Only a create reads the request body: for every other request the
      whole exchange is the same whatever the body, so in particular a PUT's
      target status never comes from its payload. */
  lemma OnlyCreateReadsBody(req: Request, body: string, store: Store, codec: Codec)
    requires SelectHandler(req.httpMethod, req.path) != Post
    ensures Router(req.(body := body), store, codec) == Router(req, store, codec)
  {
  }

  /** Every failure of the store call a request led to becomes the generic
      500, whatever the operation and whatever the error said. */
  lemma StoreFailureIsServerError(req: Request, store: Store, codec: Codec)
    requires Router(req, store, codec).call.Some?
    requires Fails(store, Router(req, store, codec).call.value)
    ensures Router(req, store, codec).response == Response(500, CorsHeaders, "Internal Server Error")
  {
  }

  /** A value the store returned but that cannot be encoded as JSON also
      becomes the generic 500, for every operation. */
  lemma MarshalFailureIsServerError(req: Request, store: Store, codec: Codec)
    requires Router(req, store, codec).call.Some?
    requires EncodingFails(store, codec, Router(req, store, codec).call.value)
    ensures Router(req, store, codec).response == Response(500, CorsHeaders, "Internal Server Error")
  {
  }

  /** An identifier the store does not know yields 404 from fetch, update and
      delete, never 500. */
  lemma MissingItemIsNotFound(req: Request, store: Store, codec: Codec)
    requires Router(req, store, codec).call.Some?
    requires FindsNothing(store, Router(req, store, codec).call.value)
    ensures Router(req, store, codec).response == Response(404, CorsHeaders, "Not Found")
  {
  }

  /** Every 500 is the same response: the cause never reaches the body. */
  lemma ServerErrorsAreGeneric(req: Request, store: Store, codec: Codec)
    requires Router(req, store, codec).response.statusCode == 500
    ensures Router(req, store, codec).response.body == "Internal Server Error"
    ensures Router(req, store, codec).response.headers == CorsHeaders
  {
  }

  /** The store is consulted only for well-formed work: a create only with a
      decoded, valid body, an update or delete only with an `id` parameter. */
  lemma StoreCallsAreValidated(req: Request, store: Store, codec: Codec)
    requires Router(req, store, codec).call.Some?
    ensures Router(req, store, codec).call.value.InsertItem? ==>
      codec.unmarshalCreate(req.body) == Some(Router(req, store, codec).call.value.create) &&
      PassesRequired(Router(req, store, codec).call.value.create)
    ensures Router(req, store, codec).call.value.UpdateItem? || Router(req, store, codec).call.value.DeleteItem? ==>
      IdParam in req.pathParameters &&
      Router(req, store, codec).call.value.id == req.pathParameters[IdParam]
  {
  }

  /** Only a successful create (201) or update (200) names a `Location`, and
      it points at `/todo/` plus the identifier of the item the store returned. */
  lemma LocationOnlyOnCreateAndUpdate(req: Request, store: Store, codec: Codec)
    ensures var x := Router(req, store, codec);
      LocationHeader in x.response.headers <==>
        x.call.Some? &&
        ((x.call.value.InsertItem? && x.response.statusCode == 201) ||
         (x.call.value.UpdateItem? && x.response.statusCode == 200))
    ensures var x := Router(req, store, codec);
      x.call.Some? && x.call.value.InsertItem? && x.response.statusCode == 201 ==>
        x.response.headers[LocationHeader] == "/todo/" + store.insertItem(x.call.value.create).value.id
    ensures var x := Router(req, store, codec);
      x.call.Some? && x.call.value.UpdateItem? && x.response.statusCode == 200 ==>
        x.response.headers[LocationHeader] ==
          "/todo/" + store.updateItem(x.call.value.id, x.call.value.update).item.id
  {
  }
}
