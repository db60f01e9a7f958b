/**
 * The value types shared by the list view, the form, the root controller and
 * the fetch hook (src/types/item.ts), plus the two wrappers the model needs:
 * an optional value (a TypeScript `?` field or `| null`) and the outcome of an
 * awaited call into the HTTP client.
 */
module ItemTypes {

  /** An optional value: `None` stands for `undefined`, `null` or an absent key. */
  datatype Option<+T> = None | Some(value: T) {
    function GetOr(default: T): T {
      match this
      case Some(v) => v
      case None => default
    }
  }

  /**
   * What an awaited service call produced: its payload, or a thrown value.
   * `Failure(Some(m))` is an `Error` whose `message` is `m`; `Failure(None)`
   * is a thrown value that is not an `Error` (so it carries no message).
   */
  datatype Outcome<+T> = Success(value: T) | Failure(message: Option<string>)

  /**
   * The text shown for a thrown value: an `Error`'s own message, even an empty
   * one, and the fallback only for a value that is not an `Error`.
   */
  function ErrorText(message: Option<string>, fallback: string): (r: string)
    ensures message.Some? ==> r == message.value
    ensures message.None? ==> r == fallback
  {
    message.GetOr(fallback)
  }

  /** The three states of an item; no other value inhabits the type. */
  datatype ItemStatus = Todo | Doing | Done

  /** The wire spelling of a status, as the server and the form's select use it. */
  function StatusName(status: ItemStatus): string {
    match status
    case Todo => "todo"
    case Doing => "doing"
    case Done => "done"
  }

  /** Reads a wire string as a status; exactly the three spellings are statuses. */
  function ParseStatus(s: string): (r: Option<ItemStatus>)
    ensures r.Some? <==> s == "todo" || s == "doing" || s == "done"
    ensures r.Some? ==> StatusName(r.value) == s
  {
    if s == "todo" then Some(Todo)
    else if s == "doing" then Some(Doing)
    else if s == "done" then Some(Done)
    else None
  }

  /** Every status survives the trip to its wire spelling and back. */
  lemma StatusRoundTrip(status: ItemStatus)
    ensures ParseStatus(StatusName(status)) == Some(status)
  {
  }

  /** Sort direction, in the query and in the response metadata alike. */
  datatype Order = Asc | Desc

  /** An item as the server returns it; id and timestamps are server-assigned. */
  datatype Item = Item(
    id: string,
    name: string,
    status: ItemStatus,
    description: Option<string>,
    createdAt: string,
    updatedAt: string)

  /** The editable subset of an item sent on create and update: no id, no timestamps. */
  datatype ItemFormData = ItemFormData(
    name: string,
    status: Option<ItemStatus>,
    description: Option<string>)

  /** The list query; every parameter is optional. */
  datatype QueryParams = QueryParams(
    search: Option<string>,
    page: Option<int>,
    limit: Option<int>,
    sort: Option<string>,
    order: Option<Order>)

  /** The pagination envelope of a list response; only nextPage/previousPage may be null. */
  datatype Metadata = Metadata(
    page: int,
    limit: int,
    totalItems: int,
    totalPages: int,
    nextPage: Option<int>,
    previousPage: Option<int>,
    sort: string,
    order: Order)

  datatype ItemsResponse = ItemsResponse(data: seq<Item>, metadata: Metadata)
}
