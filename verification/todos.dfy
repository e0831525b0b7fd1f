/** The records the router exchanges with its collaborators, and those
    collaborators as oracles: the item store, JSON (un)marshalling and the
    `required` validator. */
module Todos {

  import opened Results

  /** A stored to-do item. */
  datatype Task = Task(id: string, task: string, status: bool)

  /** The body of a create request. */
  datatype CreateTodo = CreateTodo(task: string)

  /** The change an update applies: the new done/not-done flag. */
  datatype UpdateTodo = UpdateTodo(status: bool)

  /** The `validate:"required"` tag on `CreateTodo.Task`: a string field is
      present exactly when it is not the empty string. */
  predicate PassesRequired(c: CreateTodo)
  {
    c.task != ""
  }

  /** What a lookup-style store call returns: an error, no item (a nil
      pointer with a nil error), or the item. */
  datatype StoreResult<+T> = StoreErr(message: string) | Absent | Found(item: T)

  /** The external item store. Each field is the answer of one store function
      for the given arguments; the store's own state is not modelled. */
  datatype Store = Store(
    listItems: Result<seq<Task>>,
    getItem: string -> StoreResult<Task>,
    insertItem: CreateTodo -> Result<Task>,
    updateItem: (string, UpdateTodo) -> StoreResult<Task>,
    deleteItem: string -> StoreResult<Task>)

  /** The store call a request led to, with its arguments. */
  datatype StoreCall =
    | ListItems
    | GetItem(id: string)
    | InsertItem(create: CreateTodo)
    | UpdateItem(id: string, update: UpdateTodo)
    | DeleteItem(id: string)

  /** Whether `call`, made against `store`, returns an error. */
  predicate Fails(store: Store, call: StoreCall)
  {
    match call
    case ListItems => store.listItems.Failure?
    case GetItem(id) => store.getItem(id).StoreErr?
    case InsertItem(c) => store.insertItem(c).Failure?
    case UpdateItem(id, u) => store.updateItem(id, u).StoreErr?
    case DeleteItem(id) => store.deleteItem(id).StoreErr?
  }

  /** Whether `call`, made against `store`, returns neither an error nor an
      item (only the lookups by identifier can). */
  predicate FindsNothing(store: Store, call: StoreCall)
  {
    match call
    case ListItems => false
    case GetItem(id) => store.getItem(id).Absent?
    case InsertItem(_) => false
    case UpdateItem(id, u) => store.updateItem(id, u).Absent?
    case DeleteItem(id) => store.deleteItem(id).Absent?
  }

  /** Whether the store call succeeded with a value but encoding that value
      as JSON failed. */
  predicate EncodingFails(store: Store, codec: Codec, call: StoreCall)
  {
    match call
    case ListItems =>
      store.listItems.Success? && codec.marshalTasks(store.listItems.value).Failure?
    case GetItem(id) =>
      store.getItem(id).Found? && codec.marshalTask(store.getItem(id).item).Failure?
    case InsertItem(c) =>
      store.insertItem(c).Success? && codec.marshalTask(store.insertItem(c).value).Failure?
    case UpdateItem(id, u) =>
      store.updateItem(id, u).Found? && codec.marshalTask(store.updateItem(id, u).item).Failure?
    case DeleteItem(id) =>
      store.deleteItem(id).Found? && codec.marshalTask(store.deleteItem(id).item).Failure?
  }

  /** JSON decoding and encoding: `json.Unmarshal` into a `CreateTodo`
      (None when the body is not valid JSON for it) and `json.Marshal` of one
      item or of a list of items. */
  datatype Codec = Codec(
    unmarshalCreate: string -> Option<CreateTodo>,
    marshalTask: Task -> Result<string>,
    marshalTasks: seq<Task> -> Result<string>)
}
