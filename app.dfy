/**
 * The root controller (src/App.tsx): it owns the list query and the dialog
 * state (form open, item being edited, item pending deletion, deletion in
 * progress), drives the fetch hook with its query, and dispatches form
 * submissions and confirmed deletions to the item service.
 *
 * Each service call is represented by the outcome it produced, passed in by
 * the caller; the call a handler makes is returned so that its target and
 * payload can be stated.
 */
module App {
  import opened ItemTypes
  import opened Query
  import ItemList
  import UseItems
  import ItemForm

  /** A mutating call to the item service. */
  datatype Mutation = CreateCall(data: ItemFormData) | UpdateCall(id: string, data: ItemFormData)

  /**
   * `items.find(i => i.id === id)`: the first item with that id, if there is
   * one.
   */
  function FindById(items: seq<Item>, id: string): (r: Option<Item>)
    ensures r.None? <==> forall i :: 0 <= i < |items| ==> items[i].id != id
    ensures r.Some? ==> r.value.id == id
    ensures r.Some? ==> exists i :: (0 <= i < |items| && items[i] == r.value
                                    && forall j :: 0 <= j < i ==> items[j].id != id)
    decreases |items|
  {
    if items == [] then None
    else if items[0].id == id then Some(items[0])
    else
      var r := FindById(items[1..], id);
      assert forall i :: 1 <= i < |items| ==> items[i] == items[1..][i - 1];
      r
  }

  /** No two items on the page share an id, as the server assigns them. */
  ghost predicate UniqueIds(items: seq<Item>) {
    forall i, j :: 0 <= i < j < |items| ==> items[i].id != items[j].id
  }

  /** With unique ids, a row's delete button finds exactly that row's item. */
  lemma FindRowItem(items: seq<Item>, k: int)
    requires UniqueIds(items) && 0 <= k < |items|
    ensures FindById(items, items[k].id) == Some(items[k])
  {
  }

  /**
   * The header arrow for `field` under query `q`, with the props App passes
   * down: a missing sort field reads as the empty string and a missing order as
   * ascending.
   */
  function HeaderIcon(q: QueryParams, field: string): (r: string)
    ensures r == ItemList.NeutralIcon <==> (q.sort.None? && field != "") || (q.sort.Some? && q.sort.value != field)
    ensures r == ItemList.UpIcon <==> (q.sort == Some(field) || (q.sort.None? && field == "")) && q.order != Some(Desc)
    ensures r == ItemList.DownIcon <==> (q.sort == Some(field) || (q.sort.None? && field == "")) && q.order == Some(Desc)
  {
    ItemList.SortIcon(q.sort.GetOr(""), q.order.GetOr(Asc), field)
  }

  /**
   * A click on a header shows up in the arrows: the clicked column turns to
   * "up", unless it already showed "up", when it turns to "down"; every other
   * column shows the neutral arrow.
   */
  lemma HeaderIconAfterSort(q: QueryParams, field: string, other: string)
    requires Complete(q) && other != field
    ensures HeaderIcon(WithSort(q, field), field)
      == if HeaderIcon(q, field) == ItemList.UpIcon then ItemList.DownIcon else ItemList.UpIcon
    ensures HeaderIcon(WithSort(q, field), other) == ItemList.NeutralIcon
  {
  }

  /** An empty page from the server shows the empty-list message, not a spinner or an error. */
  lemma EmptyResponseShowsEmptyScreen(v: UseItems.HookState, response: ItemsResponse)
    requires response.data == []
    ensures var r := UseItems.Cycle(v, Success(response));
      ItemList.ScreenFor(r.loading, r.error, r.items) == ItemList.EmptyScreen
  {
  }

  /** A failed fetch with a message shows that message. */
  lemma FailedFetchShowsError(v: UseItems.HookState, message: string)
    requires message != ""
    ensures var r := UseItems.Cycle(v, Failure(Some(message)));
      ItemList.ScreenFor(r.loading, r.error, r.items) == ItemList.ErrorScreen(message)
  {
  }

  class Controller {
    var query: QueryParams
    var showForm: bool
    var editingItem: Option<Item>
    var deletingItem: Option<Item>
    var deleteLoading: bool
    /** The `useItems` instance this component renders with. */
    const hook: UseItems.ItemsHook

    /**
     * The query is complete and pages by ten, and the hook has seen it: its
     * latest props and its effect's dependency are this query.
     */
    ghost predicate Valid()
      reads this, hook
    {
      && Complete(query) && query.limit == Some(DefaultLimit)
      && hook.params == query && hook.deps == Some(query)
    }

    /** The last-seen state of everything the handlers below leave alone. */
    twostate predicate DialogsUnchanged()
      reads this
    {
      && showForm == old(showForm) && editingItem == old(editingItem)
      && deletingItem == old(deletingItem) && deleteLoading == old(deleteLoading)
    }

    twostate predicate HookUnchanged()
      reads this, hook
    {
      && hook.State() == old(hook.State()) && hook.requests == old(hook.requests)
      && hook.params == old(hook.params) && hook.deps == old(hook.deps)
    }

    /** The hook began one fetch with the current query. */
    twostate predicate Refetched()
      reads this, hook
    {
      && hook.State() == UseItems.Started(old(hook.State()))
      && hook.requests == old(hook.requests) + [query]
    }

    /** Mounting: the initial query, no dialog open, and the hook's first fetch begun. */
    constructor ()
      ensures Valid() && fresh(hook)
      ensures query == InitialQuery
      ensures !showForm && editingItem == None && deletingItem == None && !deleteLoading
      ensures hook.State() == UseItems.InitialView(InitialQuery) && hook.requests == [InitialQuery]
    {
      query := InitialQuery;
      showForm := false;
      editingItem := None;
      deletingItem := None;
      deleteLoading := false;
      hook := new UseItems.ItemsHook(InitialQuery);
      new;
      hook.Render(query);
    }

    /** Re-render with `q`: the hook fetches again exactly when the query's value changed. */
    method SetQuery(q: QueryParams)
      requires Valid() && Complete(q) && q.limit == Some(DefaultLimit)
      modifies this, hook
      ensures Valid() && query == q && DialogsUnchanged()
      ensures q != old(query) ==> Refetched()
      ensures q == old(query) ==> HookUnchanged()
    {
      query := q;
      hook.Render(q);
    }

    /** `handleSearch`. */
    method Search(text: string)
      requires Valid()
      modifies this, hook
      ensures Valid() && query == WithSearch(old(query), text) && DialogsUnchanged()
      ensures query != old(query) ==> Refetched()
      ensures query == old(query) ==> HookUnchanged()
    {
      SetQuery(WithSearch(query, text));
    }

    /** `handleSort`, reached from a sortable header. */
    method Sort(field: string)
      requires Valid()
      modifies this, hook
      ensures Valid() && query == WithSort(old(query), field) && DialogsUnchanged()
      ensures Refetched()
    {
      SetQuery(WithSort(query, field));
    }

    /**
     * A click on a pagination button. The bar exists only when the list is not
     * loading and has items, and a disabled button does nothing; otherwise
     * `handlePageChange` moves to the previous or next page.
     */
    method PageButtonClicked(button: PageButton)
      requires Valid()
      modifies this, hook
      ensures Valid() && DialogsUnchanged()
      ensures var pager := Pagination(old(hook.loading), |old(hook.items)|, old(query).page.value, old(hook.total), DefaultLimit);
        query == if pager.Some? then WithPage(old(query), Navigate(old(query).page.value, pager.value.totalPages, button)) else old(query)
      ensures query != old(query) ==> Refetched()
      ensures query == old(query) ==> HookUnchanged()
    {
      var pager := Pagination(hook.loading, |hook.items|, query.page.value, hook.total, query.limit.value);
      if pager.Some? {
        var p := query.page.value;
        match button {
          case Previous =>
            if !pager.value.prevDisabled {
              SetQuery(WithPage(query, p - 1));
            }
          case Next =>
            if !pager.value.nextDisabled {
              SetQuery(WithPage(query, p + 1));
            }
        }
      }
    }

    /** `handleCreate`: open the form blank. */
    method Create()
      modifies this
      ensures showForm && editingItem == None
      ensures query == old(query) && deletingItem == old(deletingItem) && deleteLoading == old(deleteLoading)
    {
      editingItem := None;
      showForm := true;
    }

    /** `handleEdit`: open the form on `item`. */
    method Edit(item: Item)
      modifies this
      ensures showForm && editingItem == Some(item)
      ensures query == old(query) && deletingItem == old(deletingItem) && deleteLoading == old(deleteLoading)
    {
      editingItem := Some(item);
      showForm := true;
    }

    /**
     * `handleFormSubmit`. It updates the edited item by id, or creates one when
     * nothing is being edited. Only once that call has succeeded does it close
     * the form, forget the edited item and refetch; a failed call is passed
     * back to the form and changes nothing here.
     */
    method FormSubmit(data: ItemFormData, outcome: Outcome<Item>) returns (call: Mutation, result: Outcome<()>)
      requires Valid()
      modifies this, hook
      ensures Valid() && query == old(query)
      ensures call == if old(editingItem).Some? then UpdateCall(old(editingItem).value.id, data) else CreateCall(data)
      ensures result == if outcome.Success? then Success(()) else Failure(outcome.message)
      ensures outcome.Success? ==>
        && !showForm && editingItem == None
        && deletingItem == old(deletingItem) && deleteLoading == old(deleteLoading)
        && Refetched()
      ensures outcome.Failure? ==> DialogsUnchanged() && HookUnchanged()
    {
      if editingItem.Some? {
        call := UpdateCall(editingItem.value.id, data);
      } else {
        call := CreateCall(data);
      }
      if outcome.Failure? {
        result := Failure(outcome.message);
        return;
      }
      showForm := false;
      editingItem := None;
      hook.Refetch();
      result := Success(());
    }

    /** `handleFormCancel`: close the form and forget the edited item. */
    method FormCancel()
      modifies this
      ensures !showForm && editingItem == None
      ensures query == old(query) && deletingItem == old(deletingItem) && deleteLoading == old(deleteLoading)
    {
      showForm := false;
      editingItem := None;
    }

    /**
     * `handleDeleteClick`: ask for confirmation on the first listed item with
     * that id; an id not on the page changes nothing.
     */
    method DeleteClick(id: string)
      modifies this
      ensures var found := FindById(old(hook.items), id);
        deletingItem == if found.Some? then found else old(deletingItem)
      ensures query == old(query) && showForm == old(showForm) && editingItem == old(editingItem)
      ensures deleteLoading == old(deleteLoading)
    {
      var found := FindById(hook.items, id);
      if found.Some? {
        deletingItem := found;
      }
    }

    /**
     * `handleDeleteConfirm`. With nothing pending it does nothing. Otherwise it
     * deletes the pending item by id; on success the confirmation closes and
     * the list is refetched, on failure an alert is raised and the
     * confirmation stays. Either way the deletion is no longer in progress.
     */
    method DeleteConfirm(outcome: Outcome<()>) returns (call: Option<string>, alerted: bool)
      requires Valid()
      modifies this, hook
      ensures Valid() && query == old(query)
      ensures showForm == old(showForm) && editingItem == old(editingItem)
      ensures call == if old(deletingItem).Some? then Some(old(deletingItem).value.id) else None
      ensures old(deletingItem).None? ==> !alerted && DialogsUnchanged() && HookUnchanged()
      ensures old(deletingItem).Some? ==> !deleteLoading
      ensures old(deletingItem).Some? && outcome.Success? ==> deletingItem == None && !alerted && Refetched()
      ensures old(deletingItem).Some? && outcome.Failure? ==>
        deletingItem == old(deletingItem) && alerted && HookUnchanged()
    {
      alerted := false;
      if deletingItem.None? {
        return None, false;
      }
      deleteLoading := true;
      call := Some(deletingItem.value.id);
      if outcome.Success? {
        deletingItem := None;
        hook.Refetch();
      } else {
        alerted := true;
      }
      deleteLoading := false;
    }

    /** `handleDeleteCancel`: close the confirmation. */
    method DeleteCancel()
      modifies this
      ensures deletingItem == None
      ensures query == old(query) && showForm == old(showForm) && editingItem == old(editingItem)
      ensures deleteLoading == old(deleteLoading)
    {
      deletingItem := None;
    }

    /** A list row's edit or delete button, wired to `handleEdit` and `handleDeleteClick`. */
    method RowButtonClicked(item: Item, button: ItemList.RowButton)
      modifies this
      ensures button == ItemList.EditButton ==> showForm && editingItem == Some(item) && deletingItem == old(deletingItem)
      ensures button == ItemList.DeleteButton ==>
        && showForm == old(showForm) && editingItem == old(editingItem)
        && var found := FindById(old(hook.items), item.id);
           deletingItem == if found.Some? then found else old(deletingItem)
      ensures query == old(query) && deleteLoading == old(deleteLoading)
    {
      match ItemList.RowClick(item, button) {
        case EditRequested(it) => Edit(it);
        case DeleteRequested(id) => DeleteClick(id);
      }
    }
  }

  /**
   * The form's submit wired to `handleFormSubmit`. An invalid name stops the
   * submission before any service call, shows the name error and leaves the
   * controller and the hook as they were. A valid one sends the form's data.
   * If the service call succeeds, the form is reset, the controller closes it
   * and the list is refetched once; if it fails, the form keeps its data and
   * shows the error, and the controller and the hook are left as they were.
   */
  method SubmitForm(form: ItemForm.Form, ctrl: Controller, outcome: Outcome<Item>) returns (call: Option<Mutation>)
    requires ctrl.Valid()
    modifies form, ctrl, ctrl.hook
    ensures ctrl.Valid() && ctrl.query == old(ctrl.query)
    ensures call.Some? <==> ItemForm.NameError(old(form.formData).name).None?
    ensures call.None? ==>
      && ctrl.DialogsUnchanged() && ctrl.HookUnchanged()
      && form.formData == old(form.formData) && form.loading == old(form.loading)
      && form.errors == ItemForm.FormErrors(ItemForm.NameError(old(form.formData).name))
      && form.submitError == None
    ensures call.Some? ==>
      && call.value == (if old(ctrl.editingItem).Some?
                         then UpdateCall(old(ctrl.editingItem).value.id, old(form.formData))
                         else CreateCall(old(form.formData)))
      && !form.loading
    ensures call.Some? && outcome.Success? ==>
      && !ctrl.showForm && ctrl.editingItem == None
      && ctrl.deletingItem == old(ctrl.deletingItem) && ctrl.deleteLoading == old(ctrl.deleteLoading)
      && ctrl.Refetched()
      && form.formData == ItemForm.BlankData && form.errors == ItemForm.NoErrors && form.submitError == None
    ensures call.Some? && outcome.Failure? ==>
      && ctrl.DialogsUnchanged() && ctrl.HookUnchanged()
      && form.formData == old(form.formData) && form.errors == ItemForm.NoErrors
      && form.submitError == Some(ErrorText(outcome.message, ItemForm.SaveErrorFallback))
  {
    var submitted := form.BeginSubmit();
    if submitted.None? {
      return None;
    }
    var mutation, result := ctrl.FormSubmit(submitted.value, outcome);
    form.FinishSubmit(result);
    call := Some(mutation);
  }
}
