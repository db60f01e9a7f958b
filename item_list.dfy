/**
 * The pure logic of the item table (src/components/ItemList.tsx): the sort
 * indicator of a header, the status label of a row, the truncated description,
 * which screen is shown, and which clicks reach the parent.
 */
module ItemList {
  import opened ItemTypes

  const NeutralIcon := "\U{2195}\U{FE0F}"
  const UpIcon := "\U{2191}"
  const DownIcon := "\U{2193}"

  /**
   * `getSortIcon`: a neutral arrow on every column that is not the active sort
   * field; on the active one, up for ascending and down for descending.
   */
  function SortIcon(sortField: string, sortOrder: Order, field: string): (r: string)
    ensures r == NeutralIcon <==> sortField != field
    ensures r == UpIcon <==> sortField == field && sortOrder == Asc
    ensures r == DownIcon <==> sortField == field && sortOrder == Desc
  {
    assert |NeutralIcon| == 2 && |UpIcon| == |DownIcon| == 1 && UpIcon[0] != DownIcon[0];
    if sortField != field then NeutralIcon
    else match sortOrder
      case Asc => UpIcon
      case Desc => DownIcon
  }

  /** The display label of each status. */
  function Label(status: ItemStatus): string {
    match status
    case Todo => "Todo"
    case Doing => "Doing"
    case Done => "Done"
  }

  /**
   * `getStatusLabel`: each status spelling gets its label; any other string is
   * shown as it is. The label of a status always differs from its spelling.
   */
  function StatusLabel(status: string): (r: string)
    ensures forall st :: status == StatusName(st) ==> r == Label(st)
    ensures r == status <==> ParseStatus(status).None?
  {
    match ParseStatus(status)
    case Some(st) => Label(st)
    case None => status
  }

  /**
   * `truncateText`: a missing or empty text gives the empty string; a text
   * that fits is kept; a longer one is cut to its first `maxLength` characters
   * (none when `maxLength` is negative, as `substring` clamps) and followed by
   * an ellipsis.
   */
  function TruncateText(text: Option<string>, maxLength: int): (r: string)
    ensures text.None? ==> r == ""
    ensures text.Some? && (text.value == "" || |text.value| <= maxLength) ==> r == text.value
    ensures text.Some? && text.value != "" && |text.value| > maxLength ==>
      && |r| == (if maxLength < 0 then 0 else maxLength) + 3
      && r[|r| - 3..] == "..."
      && r[..|r| - 3] == text.value[..|r| - 3]
  {
    match text
    case None => ""
    case Some(s) =>
      if s == "" then ""
      else if |s| <= maxLength then s
      else s[..if maxLength < 0 then 0 else maxLength] + "..."
  }

  /**
   * Truncating twice is truncating once: a cut text is `maxLength` characters
   * plus the ellipsis, whose first `maxLength` characters are the same cut.
   */
  lemma TruncateIdempotent(text: Option<string>, maxLength: int)
    ensures TruncateText(Some(TruncateText(text, maxLength)), maxLength) == TruncateText(text, maxLength)
  {
    var r := TruncateText(text, maxLength);
    if text.Some? && text.value != "" && |text.value| > maxLength {
      var m := if maxLength < 0 then 0 else maxLength;
      assert r[..m] == text.value[..m];
    }
  }

  /** The description cell never exceeds 53 characters. */
  lemma DescriptionCellBound(description: Option<string>)
    ensures |TruncateText(description, 50)| <= 53
  {
  }

  /** What the list shows. */
  datatype Screen = LoadingScreen | ErrorScreen(message: string) | EmptyScreen | TableScreen(rows: seq<Item>)

  /**
   * The render chain: loading wins over an error, an error (a non-empty
   * message, as `if (error)` tests truthiness) over an empty list, and an empty
   * list over the table.
   */
  function ScreenFor(loading: bool, error: Option<string>, items: seq<Item>): (r: Screen)
    ensures r.LoadingScreen? <==> loading
    ensures r.ErrorScreen? <==> !loading && error.Some? && error.value != ""
    ensures r.ErrorScreen? ==> r.message == error.value
    ensures r.EmptyScreen? <==> !loading && (error.None? || error.value == "") && items == []
    ensures r.TableScreen? ==> r.rows == items && items != []
  {
    if loading then LoadingScreen
    else if error.Some? && error.value != "" then ErrorScreen(error.value)
    else if items == [] then EmptyScreen
    else TableScreen(items)
  }

  datatype Column = NameColumn | StatusColumn | DescriptionColumn | CreatedAtColumn | UpdatedAtColumn | ActionsColumn

  /**
   * The field a header click passes to `onSort`: only the name, createdAt and
   * updatedAt headers are sortable, each under its own field name.
   */
  function HeaderSortField(c: Column): (r: Option<string>)
    ensures r.Some? <==> c == NameColumn || c == CreatedAtColumn || c == UpdatedAtColumn
    ensures r == Some("name") <==> c == NameColumn
    ensures r == Some("createdAt") <==> c == CreatedAtColumn
    ensures r == Some("updatedAt") <==> c == UpdatedAtColumn
  {
    match c
    case NameColumn => Some("name")
    case CreatedAtColumn => Some("createdAt")
    case UpdatedAtColumn => Some("updatedAt")
    case _ => None
  }

  /** Distinct sortable headers sort by distinct fields. */
  lemma HeaderSortFieldInjective(c: Column, d: Column)
    requires HeaderSortField(c).Some? && HeaderSortField(c) == HeaderSortField(d)
    ensures c == d
  {
  }

  datatype RowButton = EditButton | DeleteButton

  /** What a row's action button passes to the parent. */
  datatype ListEvent = EditRequested(item: Item) | DeleteRequested(id: string)

  /** Edit hands over the whole item, delete only its id. */
  function RowClick(item: Item, button: RowButton): (r: ListEvent)
    ensures r.EditRequested? <==> button == EditButton
    ensures r.EditRequested? ==> r.item == item
    ensures r.DeleteRequested? ==> r.id == item.id
  {
    match button
    case EditButton => EditRequested(item)
    case DeleteButton => DeleteRequested(item.id)
  }
}
