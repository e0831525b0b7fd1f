# Task API dispatcher

A model of the request dispatcher of a small serverless task-tracking API
(`routes.go`). A gateway event (method, path, path parameters, body) is routed
to one of five handlers: list tasks, fetch one task, create a task, mark a task
done or not done, and delete a task. Each handler makes at most one call to an
external item store and turns the outcome into a response record (status code,
headers, body). Two shared constructors build the error responses.

The model is functional. Every handler is a pure function of three things:

- the request;
- a `Store` value, which gives the answer of each store function for any arguments;
- a `Codec` value, which gives the answer of JSON decoding and encoding.

A handler returns an `Exchange`: the store call it made (`None` when it
answered before reaching the store) and the response. The Go functions also
return an `error`, but it is `nil` on every path, so the model leaves it out.

Files:

- `results.dfy`: `Option` and Go's `(T, error)` as `Result`.
- `strings.dfy`: `strings.HasPrefix`, with Go's definition (length check, then slice comparison) applied to characters.
- `http.dfy`: the six status codes the router uses and their `net/http` reason phrases.
- `gateway.dfy`: the request and response records.
- `todos.dfy`: `Task`, `CreateTodo`, `UpdateTodo`, the `required` validation, and the store and codec oracles.
- `routes.dfy`: the router, the handlers, `ClientError` and `ServerError`.
- `route_table.dfy`: an explicit first-match route table, used as a reference definition of the router's switch.
- `properties.dfy`: properties of the whole dispatcher over all requests, stores and codecs.

Two behaviours of the code are worth stating up front:

- The unmatched-route 404 carries no headers, unlike every other response
  (routes.go:42-46). `Routes.Router` and `RouterProperties.UnmatchedIsBare404`
  state this.
- Create and update both set `Location` to `/todo/<id>`, where `<id>` is the
  identifier of the item the store returned (routes.go:142, routes.go:221).

## Model

| member | source | states |
|---|---|---|
| Strings.DivergentPrefixes | routes.go:36-38 | two prefixes that differ at some position never both match one path, so `/api/task/` and `/api/undoTask/` are exclusive |
| Routes.ClientErrorBodyIdentifiesStatus | routes.go:226-236 | two client-error responses have the same body exactly when they were built from the same status, so the reason-phrase body determines the status |
| Routes.WithLocation | routes.go:141-145 | the success headers of create and update are the two CORS headers plus `Location: /todo/<id>`, and nothing else |
| Routes.ClientError | routes.go:226-236 | status `s`, body equal to the reason phrase of `s`, and exactly the two CORS headers |
| Routes.ServerError | routes.go:238-249 | always 500 with body `Internal Server Error` and exactly the CORS headers, whatever the error was |
| Routes.SelectHandler | routes.go:31-47 | GET and POST match only the exact path `/api/task`; PUT matches either prefix `/api/task/` or `/api/undoTask/`; DELETE matches prefix `/api/deleteTask/`; each as an if-and-only-if |
| Routes.Router | routes.go:25-49 | an unmatched request gets 404 `Not Found` with no headers and no store call; every matched request's response carries both CORS headers and is the selected handler's exchange unchanged; the status is one of 200, 201, 400, 404, 422, 500 |
| Routes.ProcessGet | routes.go:51-58 | list exactly when the `id` path parameter is absent, otherwise fetch the task with that id; in both cases the answer is the delegate's exchange unchanged |
| Routes.ProcessGetTodo | routes.go:60-86 | store error gives the generic 500; absent item gives 404; a found item that fails to marshal gives the generic 500; 200 exactly when an item was found and marshalled, with the CORS headers only and the JSON as body |
| Routes.ProcessGetTodos | routes.go:88-110 | 200 exactly when the list came back and was marshalled, with the JSON as body; every other outcome is the generic 500 |
| Routes.ProcessPost | routes.go:112-147 | undecodable body gives 422, empty task text gives 400, and in both cases insert is not called; insert is called exactly with a decoded, valid body; 201 exactly when insert and marshalling succeed, with `Location: /todo/<new id>`; otherwise the generic 500 |
| Routes.TargetStatus | routes.go:187-197 | the new status is true exactly when the path starts with `/api/task/`; under `/api/undoTask/`, and for Go's zero value when neither case matches, it is false |
| Routes.ProcessPut | routes.go:181-224 | missing `id` gives 400 with no store call; otherwise update is called with that id and the prefix-derived status; then a store error gives the generic 500, an absent item 404, a found item that fails to marshal the generic 500, and otherwise 200 with the JSON and `Location: /todo/<returned id>` |
| Routes.ProcessDelete | routes.go:149-179 | missing `id` gives 400 with no store call; otherwise delete is called with that id; then a store error gives the generic 500, an absent item 404, a found item that fails to marshal the generic 500, and otherwise 200 with the JSON and only the CORS headers |
| RouteTable.FirstMatch | routes.go:31-47 | the index returned is the first table entry that accepts the request, or the table length when none does |
| RouteTable.Lookup | routes.go:31-47 | the handler is `NoRoute` exactly when no entry accepts the request |
| RouteTable.SwitchIsFirstMatch | routes.go:31-47 | the router's switch equals first-match lookup in the five-entry route table |
| RouterProperties.UnmatchedIsBare404 | routes.go:42-46 | a response has no headers exactly when no route matched, and then it is 404 `Not Found` with no store call |
| RouterProperties.GetSplitsOnId | routes.go:51-58 | a GET of `/api/task` lists exactly when there is no `id` parameter, and otherwise fetches that id |
| RouterProperties.MissingIdSkipsStore | routes.go:150-153 | a routed DELETE without `id` (this check) or PUT without `id` (the same check at routes.go:182-185) is 400 `Bad Request` with no store call, and two different stores give the same answer |
| RouterProperties.PutStatusFromPrefix | routes.go:191-199 | a PUT under `/api/task/` asks the store to set true, and one under `/api/undoTask/` asks it to set false |
| RouterProperties.OnlyCreateReadsBody | routes.go:181-199 | for every request that is not a create, including both PUT routes, the whole exchange is the same whatever the body |
| RouterProperties.StoreFailureIsServerError | routes.go:63-66 | for every operation, a failing store call yields exactly 500 `Internal Server Error` with the CORS headers |
| RouterProperties.MarshalFailureIsServerError | routes.go:72-75 | for every operation (this check and its copies at routes.go:96-99, 133-136, 165-168, 210-213), a store value that fails to encode as JSON yields exactly 500 `Internal Server Error` with the CORS headers |
| RouterProperties.MissingItemIsNotFound | routes.go:68-70 | when fetch, update or delete find nothing, the answer is 404 `Not Found` and never 500 |
| RouterProperties.ServerErrorsAreGeneric | routes.go:238-249 | every 500 the dispatcher produces has the fixed body and only the CORS headers |
| RouterProperties.StoreCallsAreValidated | routes.go:112-127 | insert is only called with the decoded, valid body; update and delete only with the `id` path parameter |
| RouterProperties.LocationOnlyOnCreateAndUpdate | routes.go:138-146 | a response has `Location` exactly when it is a create 201 or an update 200, and it points at `/todo/` plus the returned item's id |

## Left out

- Logging (`log.Printf`, `log.Println`) and the `context.Context` argument: they have no effect on the response.
- The store functions `getItem`, `listItems`, `insertItem`, `updateItem`, `deleteItem` are not part of this model. They are external persistence and appear only as the answers held in a `Store` value. Store state is not modelled, so repeat-delete idempotence is not stated.
- `encoding/json` and the `go-playground/validator` library are foreign code. Decoding is an oracle returning `Option`, encoding is an oracle returning `Result`, and the `required` tag is modelled as "the task text is non-empty". Properties about the JSON text itself, such as "the created body's task field equals the input", are therefore not stated.
- The AWS Lambda event types and process start-up: requests and responses are plain records.
- Routes.ClientError: takes one of the six statuses the router uses rather than any `int`, because the full `net/http` reason-phrase table is not part of this model.
- Strings are modelled as sequences of characters, while Go's `strings.HasPrefix` compares bytes. Nothing observable changes: every prefix and path literal the router compares is ASCII, and UTF-8 encoding is injective, so a byte prefix of one of these literals is exactly a character prefix.
- The Go `error` result of every handler is always `nil`, so the model returns only the exchange and does not carry it.
