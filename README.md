# Items manager front end: query, fetch and dialog logic in Dafny

This project models the logic of a small single-page front end for managing
"items". Each item has a name, a status (todo, doing or done), an optional
description and server-assigned timestamps. The front end lists items in a
searchable, sortable, paginated table and creates, edits and deletes them
through a REST service. The model covers the parts of the front end that make
decisions:

- **Value types** (`types.dfy`, module `ItemTypes`): the item, form data,
  query and list-response records. Item status and sort order are closed
  enumerations. Optional fields are `Option`s. An awaited service call is an
  `Outcome`: a payload, or a thrown value with an optional message.
- **Query state** (`query.dfy`, module `Query`): the root component's pure
  updaters for search, sort and page changes. Also the page count
  `ceil(total / limit)` as integer ceiling division, and the pagination bar's
  visibility and disable rules.
- **Fetch hook** (`use_items.dfy`, module `UseItems`): the `useItems` hook as
  a class with the hook's six state fields. A fetch has a begin step and a
  completion step that receives the list call's outcome. A fetch begins when
  the query changes value, and on an explicit refetch. Pure step functions on
  a snapshot of the fields specify the class's methods, and lemmas describe
  runs of fetches.
- **List view** (`item_list.dfy`, module `ItemList`): the sort arrow, status
  label and description truncation helpers. Also the choice between spinner,
  error, empty message and table, and which header and row clicks reach the
  parent.
- **Form** (`item_form.dfy`, module `ItemForm`, with `js_text.dfy`, module
  `JsText`, for `String.prototype.trim`): the name validator on trimmed text,
  the initial and edit population of the form, and a class holding the form's
  data, errors, loading flag and submission error. The class has the submit
  and change handlers.
- **Root controller** (`app.dfy`, module `App`): a class owning the query and
  the dialog state, with one method per event handler, and the hook instance
  it renders with. A service call is represented by the outcome passed to the
  handler. The handler returns the call it made (create, update by id, or
  delete by id). `SubmitForm` wires the form's submit to the controller's
  submit handler.

The source's `JSON.stringify(params)` dependency is modelled as structural
equality of the query datatype. A `None` field stands for a key that is absent
or `undefined`, which the serialisation omits. The controller always builds
queries with the same key order, so the two comparisons agree.

Three behaviours of the code that the model keeps:

- After a failed deletion the code keeps the pending item, so the confirmation
  stays open (`src/App.tsx:76-89`).
- A failed list fetch whose error has an empty message records `""` as the
  error. The list treats that as no error (`if (error)`) and shows the empty
  message or the table. `ItemList.ScreenFor` states this.
- The form submits its whole data, including the empty description
  (`src/components/ItemForm.tsx:54`).

## Model

| member | source | states |
|---|---|---|
| `ItemTypes.ParseStatus` | src/types/item.ts:1 | a string is a status exactly when it is `todo`, `doing` or `done`, and a parsed status spells back to the same string |
| `ItemTypes.StatusRoundTrip` | src/types/item.ts:1 | every status parses back from its wire spelling |
| `ItemTypes.ErrorText` | src/hooks/useItems.ts:33 | an `Error`'s own message is shown, even an empty one; the fallback only for a thrown value that is not an `Error` (also src/components/ItemForm.tsx:58) |
| `JsText.Trim` | src/components/ItemForm.tsx:34-36 | the trimmed text is empty iff the input is all ECMAScript white space; otherwise it neither starts nor ends with white space |
| `JsText.TrimStartSkipsPrefix` | src/components/ItemForm.tsx:34 | leading white space never survives trimming |
| `JsText.TrimIgnoresPadding` | src/components/ItemForm.tsx:34-36 | white space added around a text does not change its trimmed form |
| `JsText.TrimIdempotent` | src/components/ItemForm.tsx:34-36 | trimming twice equals trimming once |
| `JsText.TrimIsSlice` | src/components/ItemForm.tsx:34-36 | the trimmed text is a slice of the input with only white space before and after it |
| `JsText.PaddedSliceUnique` | src/components/ItemForm.tsx:34-36 | an input has at most one such slice that neither starts nor ends with white space |
| `JsText.TrimDetermined` | src/components/ItemForm.tsx:34-36 | any such slice is the trimmed text, so the facts above determine `trim` |
| `JsText.TrimOfUnpadded` | src/components/ItemForm.tsx:34-36 | a text that neither starts nor ends with white space is its own trimmed form |
| `Query.WithSearch` | src/App.tsx:27-29 | search sets the text and page 1 and keeps limit, sort and order |
| `Query.WithSort` | src/App.tsx:31-37 | sort sets the field; order is DESC iff the same field was sorted ASC, else ASC; search, page and limit kept (page not reset) |
| `Query.SortToggles` | src/App.tsx:31-37 | a second click on the same field flips the order, and a third click returns to the first click's query |
| `Query.WithPage` | src/App.tsx:39-41 | a page change sets only the page |
| `Query.RunKeepsLimit` | src/App.tsx:27-41 | any sequence of search, sort and page changes keeps every query field present and the limit unchanged |
| `Query.ReachableQuery` | src/App.tsx:12-18 | every query reachable from the initial one has limit 10, so `limit!` is always defined |
| `Query.TotalPages` | src/App.tsx:95 | the page count `r` satisfies `(r-1)*limit < total <= r*limit`, the defining bracket of the ceiling of `total/limit` |
| `Query.TotalPagesUnique` | src/App.tsx:95 | any count satisfying that bracket is the page count |
| `Query.TotalPagesExamples` | src/App.tsx:95 | 25 items at 10 per page give 3 pages; 0 items give 0 pages |
| `Query.Pagination` | src/App.tsx:130-148 | the bar shows iff not loading and items are listed; previous is disabled iff page is 1, next iff page equals the page count |
| `Query.Navigate` | src/App.tsx:132-147 | previous goes to page minus 1 unless on page 1, next to page plus 1 unless on the last page; a disabled button keeps the page |
| `Query.NavigationStaysInRange` | src/App.tsx:132-147 | starting within pages 1..count, any run of previous/next clicks under the disable rules stays within 1..count |
| `UseItems.InitialView` | src/hooks/useItems.ts:16-21 | initially no items, loading, no error, total 0; page and limit from the query when given and non-zero, else 1 and 10 |
| `UseItems.OrFallback` | src/hooks/useItems.ts:20-21 | a given non-zero page or limit is kept; an absent or zero one gives the fallback |
| `UseItems.Started` | src/hooks/useItems.ts:25-26 | beginning a fetch sets loading, clears the error and keeps the data |
| `UseItems.Settled` | src/hooks/useItems.ts:27-36 | loading ends on both paths; success adopts data, totalItems, page and limit; failure records the message or `Erro ao carregar items` and keeps items, total, page and limit |
| `UseItems.CyclesShowLastSuccess` | src/hooks/useItems.ts:23-37 | after any run of fetches the data shown is that of the latest successful response, or the prior data if none succeeded |
| `UseItems.CyclesErrorIsLatest` | src/hooks/useItems.ts:23-37 | after a run of fetches nothing is loading, and no error is recorded iff the latest fetch succeeded |
| `UseItems.FirstLoadFailure` | src/hooks/useItems.ts:16-37 | a failed first load leaves the list empty, shows the error and stops loading |
| `UseItems.ItemsHook.constructor` | src/hooks/useItems.ts:15-21 | the hook starts in the initial view for its query, before any list call |
| `UseItems.ItemsHook.Refetch` | src/hooks/useItems.ts:23-27 | a refetch begins a fetch unconditionally and issues exactly one list call with the current query |
| `UseItems.ItemsHook.Complete` | src/hooks/useItems.ts:27-36 | completion moves the state to the settled state for the call's outcome and issues no call |
| `UseItems.ItemsHook.Render` | src/hooks/useItems.ts:39-41 | a render begins a fetch with its query exactly when the query's value differs from the one last seen, and otherwise changes nothing |
| `ItemList.SortIcon` | src/components/ItemList.tsx:26-29 | neutral arrow iff the column is not the sort field; up iff it is and the order is ASC; down iff it is and the order is DESC |
| `ItemList.StatusLabel` | src/components/ItemList.tsx:35-42 | each status spelling maps to its label; a string is returned unchanged iff it is not a status spelling |
| `ItemList.TruncateText` | src/components/ItemList.tsx:44-48 | missing text gives `""`; empty or fitting text is kept; longer text becomes its first `maxLength` characters plus `...` |
| `ItemList.TruncateIdempotent` | src/components/ItemList.tsx:44-48 | truncating a truncated text changes nothing |
| `ItemList.DescriptionCellBound` | src/components/ItemList.tsx:104 | a description cell holds at most 53 characters |
| `ItemList.ScreenFor` | src/components/ItemList.tsx:50-73 | loading shows the spinner; otherwise a non-empty error shows the error; otherwise an empty list shows the empty message; otherwise the table of the items |
| `ItemList.HeaderSortField` | src/components/ItemList.tsx:80-88 | only the name, createdAt and updatedAt headers call `onSort`, with `"name"`, `"createdAt"` and `"updatedAt"` respectively |
| `ItemList.HeaderSortFieldInjective` | src/components/ItemList.tsx:80-88 | two sortable headers with the same field are the same header |
| `ItemList.RowClick` | src/components/ItemList.tsx:111-118 | edit passes the whole item, delete passes only its id |
| `ItemForm.NameError` | src/components/ItemForm.tsx:31-42 | `Name is required` iff the name is all white space; `Name must be at least 3 characters` iff the trimmed name has 1 or 2 characters; no error iff it has 3 or more |
| `ItemForm.NameErrorIgnoresPadding` | src/components/ItemForm.tsx:34-37 | surrounding white space never changes the validation result |
| `ItemForm.EmptyNameRequired` | src/components/ItemForm.tsx:34-35 | the empty name is rejected as missing |
| `ItemForm.TwoLetterNameTooShort` | src/components/ItemForm.tsx:36-37 | `"ab"` is rejected as too short |
| `ItemForm.WordsNameAccepted` | src/components/ItemForm.tsx:31-42 | `"Teste Item"` passes validation |
| `ItemForm.DataFor` | src/components/ItemForm.tsx:12-29 | a new item's form is blank with status todo; an edited item's form copies name and status, with its description or `""` |
| `ItemForm.Form.constructor` | src/components/ItemForm.tsx:12-29 | a mounted form holds the data for its item, no errors, not loading, no submission error |
| `ItemForm.Form.ItemPropChanged` | src/components/ItemForm.tsx:21-29 | a new item prop replaces the data; a null one keeps it |
| `ItemForm.Form.BeginSubmit` | src/components/ItemForm.tsx:44-54 | the submission error is cleared and the name error recorded; `onSubmit` receives the form data iff the name is valid, and the form is then loading |
| `ItemForm.Form.FinishSubmit` | src/components/ItemForm.tsx:54-61 | loading ends; success resets the data to blank and clears errors; failure keeps the data and shows the message or `Error saving item` |
| `ItemForm.Form.Change` | src/components/ItemForm.tsx:64-70 | only the named field changes; a name change clears a set name error; nothing else changes |
| `App.FindById` | src/App.tsx:70 | returns nothing iff no listed item has the id; otherwise the first listed item with that id |
| `App.FindRowItem` | src/App.tsx:69-74 | with unique ids, the id from a row's delete button finds that row's item |
| `App.HeaderIcon` | src/App.tsx:125-127 | the arrow each header shows for the query: neutral unless the header is the sort field, then down iff the order is DESC, up otherwise (an absent order counts as ASC, an absent field as `""`) |
| `App.HeaderIconAfterSort` | src/App.tsx:125-127 | after a header click the clicked column shows up, or down if it showed up before; all other columns show the neutral arrow |
| `App.EmptyResponseShowsEmptyScreen` | src/hooks/useItems.ts:27-36 | a fetch that returns no items ends on the empty message, not the spinner or an error |
| `App.FailedFetchShowsError` | src/hooks/useItems.ts:32-35 | a fetch that fails with a message ends on that message |
| `App.Controller.constructor` | src/App.tsx:12-25 | initial query (search `""`, page 1, limit 10, createdAt DESC), all dialogs closed, and the first fetch begun with that query |
| `App.Controller.SetQuery` | src/App.tsx:20 | a new query reaches the hook, which fetches iff its value changed; dialogs untouched |
| `App.Controller.Search` | src/App.tsx:27-29 | the query becomes the search update of the old one; a fetch begins iff that changed its value |
| `App.Controller.Sort` | src/App.tsx:31-37 | the query becomes the sort update of the old one, which always changes it, so a fetch always begins |
| `App.Controller.PageButtonClicked` | src/App.tsx:130-148 | with the bar shown, the page moves as the disable rules allow (page minus or plus 1); with it hidden nothing changes |
| `App.Controller.Create` | src/App.tsx:43-46 | the form opens with no item being edited |
| `App.Controller.Edit` | src/App.tsx:48-51 | the form opens on the given item |
| `App.Controller.FormSubmit` | src/App.tsx:53-62 | updates the edited item by id, else creates; only on success closes the form, clears the edited item and begins one refetch; a failure is passed back and changes nothing |
| `App.Controller.FormCancel` | src/App.tsx:64-67 | the form closes and the edited item is cleared |
| `App.Controller.DeleteClick` | src/App.tsx:69-74 | the pending item becomes the first listed item with the id; an unknown id changes nothing |
| `App.Controller.DeleteConfirm` | src/App.tsx:76-89 | with no pending item nothing happens; otherwise deletes it by id; success clears it and refetches, failure alerts and keeps it; deletion is no longer in progress afterwards |
| `App.Controller.DeleteCancel` | src/App.tsx:91-93 | the pending item is cleared |
| `App.Controller.RowButtonClicked` | src/App.tsx:119-128 | a row's edit button opens the form on that item; its delete button asks to confirm the first item with that id |
| `App.SubmitForm` | src/App.tsx:153-159 | an invalid name shows the name error, makes no service call and leaves controller and hook alone; a valid one sends the form data; success resets the form, closes it, clears the edited item and refetches once; failure keeps the form data, shows the error and leaves controller and hook alone |

## Left out

- The item service (`src/services/itemsService.ts`) is not part of this model. It wraps HTTP calls and reads its base URL and credential from the environment. Each call is a service outcome passed into the handler that awaits it.
- `src/components/DeleteConfirmation.tsx` is not part of this model. It is markup whose buttons reflect the controller's `deleteLoading` flag.
- Overlapping fetches are not modelled. Two fetches in flight can complete in either order, and the last to complete wins. Each fetch is modelled as a begin step followed by its own completion.
- `App.Controller.DeleteConfirm`: `deleteLoading` is true only while the delete call is awaited. The model runs the handler to completion, so the flag is never seen true.
- `App.Controller.FormSubmit`: the refetch it starts completes later through `UseItems.ItemsHook.Complete`, not inside the handler.
- Rendering, CSS, the emoji in labels, and `alert()` are not modelled. The alert is only the returned `alerted` flag.
- `formatDate` is not modelled. It depends on JavaScript `Date` parsing and `toISOString`.
- `ItemList.StatusLabel`: keys inherited from `Object.prototype` (such as `"constructor"`) find a value in the source's lookup table and do not return the key. The model treats every non-status string as unknown.
- `ItemList.TruncateText`, `ItemForm.NameError`: JavaScript counts string length in UTF-16 code units. The model counts Unicode scalar values, so the two differ on characters outside the Basic Multilingual Plane.
- `Query.TotalPages`: the model uses integer ceiling division, not `Math.ceil` on a floating-point quotient. The two agree for the integer totals and the positive limit the controller uses.
- `UseItems.InitialView`: `NaN`, which is also falsy, is not modelled among the page and limit values that fall back to 1 and 10.
- Item ids are unique on a page because the server assigns them. `App.FindRowItem` assumes this rather than deriving it.
