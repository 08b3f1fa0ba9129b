/**
 * Shared vocabulary of the to-do application: the stored rows (a list and
 * its items), the inputs of the five mutations, and the errors a procedure
 * can report. Both the server router and the client components use it.
 */
module Api {

  /** Caller identity, as resolved by the authentication layer. */
  type UserId = string

  /** Row identifiers. The database issues them; here they come from a counter. */
  type ListId = nat
  type ItemId = nat

  /** An abstract creation stamp supplied by the store; larger means later. */
  type Stamp = nat

  datatype Option<+T> = None | Some(value: T)

  /** A to-do list row: `TodoList` without its nested items. */
  datatype TodoList = TodoList(
    id: ListId,
    title: string,
    description: Option<string>,
    createdById: UserId,
    createdAt: Stamp)

  /** A to-do item row. */
  datatype TodoItem = TodoItem(
    id: ItemId,
    title: string,
    completed: bool,
    todoListId: ListId,
    createdAt: Stamp)

  /** A list as the query returns it: the row with its items nested. */
  datatype ListWithItems = ListWithItems(list: TodoList, todoItems: seq<TodoItem>)

  /** Inputs of the mutations, as the client sends them. */
  datatype Request =
    | CreateList(title: string, description: Option<string>)
    | DeleteList(listId: ListId)
    | AddItem(listId: ListId, title: string)
    | ToggleItem(itemId: ItemId)
    | DeleteItem(itemId: ItemId)

  /**
   * Input validation messages per field, the shape of a flattened schema
   * error: a field appears only when it has at least one message.
   */
  type FieldErrors = map<string, seq<string>>

  /** Why a procedure failed. */
  datatype ApiError =
    | BadInput(fieldErrors: FieldErrors)   // input schema rejected the request
    | Failed(message: string)              // the handler threw an Error

  datatype Outcome<+T> = Ok(value: T) | Err(error: ApiError)

  /** The messages of field `name`, empty when the field has none. */
  function MessagesOf(errors: FieldErrors, name: string): seq<string>
  {
    if name in errors then errors[name] else []
  }

  /**
   * A failed procedure as the client's mutation hook reports it: a message,
   * and the field errors when the input schema rejected the request.
   */
  datatype ClientError = ClientError(message: string, zodError: Option<FieldErrors>)

  /**
   * How a server error reaches the client. `rendered` stands for the text
   * the transport makes of a schema rejection; a thrown Error keeps its
   * message.
   */
  function ToClientError(e: ApiError, rendered: string): ClientError
  {
    match e
    case BadInput(fieldErrors) => ClientError(rendered, Some(fieldErrors))
    case Failed(message) => ClientError(message, None)
  }

  /** What a component does besides updating its own state. */
  datatype Effect =
    | InvalidateAllLists      // mark the `getAllLists` result stale and refetch it
    | NotifyCreated           // call the parent's `onSuccess` callback after a create
}
