/**
 * The root component's query state and its pure updaters (src/App.tsx):
 * search, sort and page changes map the previous query to the next one, and
 * the pagination bar is computed from the total item count and the page size.
 */
module Query {
  import opened ItemTypes

  /** The page size the controller starts with; no handler changes it. */
  const DefaultLimit: int := 10

  const InitialQuery: QueryParams :=
    QueryParams(Some(""), Some(1), Some(DefaultLimit), Some("createdAt"), Some(Desc))

  /** Every parameter present, as in every query the controller holds. */
  predicate Complete(q: QueryParams) {
    q.search.Some? && q.page.Some? && q.limit.Some? && q.sort.Some? && q.order.Some?
  }

  /** `handleSearch`: the new text, back to page 1, everything else kept. */
  function WithSearch(q: QueryParams, text: string): (r: QueryParams)
    ensures r.search == Some(text) && r.page == Some(1)
    ensures r.limit == q.limit && r.sort == q.sort && r.order == q.order
  {
    q.(search := Some(text), page := Some(1))
  }

  /**
   * `handleSort`: the clicked field becomes the sort field; the order turns
   * DESC only when that field was already sorted ascending, and is ASC in every
   * other case. The page is not reset.
   */
  function WithSort(q: QueryParams, field: string): (r: QueryParams)
    ensures r.sort == Some(field) && r.order.Some?
    ensures r.order == Some(Desc) <==> q.sort == Some(field) && q.order == Some(Asc)
    ensures r.search == q.search && r.page == q.page && r.limit == q.limit
  {
    q.(sort := Some(field),
       order := if q.sort == Some(field) && q.order == Some(Asc) then Some(Desc) else Some(Asc))
  }

  /** `handlePageChange`: only the page changes. */
  function WithPage(q: QueryParams, newPage: int): (r: QueryParams)
    ensures r.page == Some(newPage)
    ensures r.search == q.search && r.limit == q.limit && r.sort == q.sort && r.order == q.order
  {
    q.(page := Some(newPage))
  }

  /** Clicking the same header again flips ASC and DESC; a third click undoes the second. */
  lemma SortToggles(q: QueryParams, field: string)
    ensures WithSort(WithSort(q, field), field).order != WithSort(q, field).order
    ensures WithSort(WithSort(WithSort(q, field), field), field) == WithSort(q, field)
  {
  }

  /** The user actions that produce a new query. */
  datatype QueryAction = Search(text: string) | Sort(field: string) | PageChange(page: int)

  function Step(q: QueryParams, a: QueryAction): QueryParams {
    match a
    case Search(text) => WithSearch(q, text)
    case Sort(field) => WithSort(q, field)
    case PageChange(page) => WithPage(q, page)
  }

  function Run(q: QueryParams, actions: seq<QueryAction>): QueryParams
    decreases |actions|
  {
    if actions == [] then q else Run(Step(q, actions[0]), actions[1..])
  }

  /**
   * Whatever the user does, the query stays complete and keeps the page size
   * it started with: the controller never changes `limit`.
   */
  lemma {:induction false} RunKeepsLimit(q: QueryParams, actions: seq<QueryAction>)
    requires Complete(q)
    ensures Complete(Run(q, actions)) && Run(q, actions).limit == q.limit
    decreases |actions|
  {
    if actions != [] {
      RunKeepsLimit(Step(q, actions[0]), actions[1..]);
    }
  }

  /** Every query reachable from the initial one is complete and pages by ten. */
  lemma ReachableQuery(actions: seq<QueryAction>)
    ensures Complete(Run(InitialQuery, actions))
    ensures Run(InitialQuery, actions).limit == Some(DefaultLimit)
  {
    RunKeepsLimit(InitialQuery, actions);
  }

  /**
   * `Math.ceil(total / limit)` for a positive limit, as integer ceiling
   * division: the least page count whose pages hold `total` items.
   */
  function TotalPages(total: int, limit: int): (r: int)
    requires limit > 0
    ensures (r - 1) * limit < total <= r * limit
  {
    var q := (-total) / limit;
    assert q * limit <= -total < q * limit + limit;
    -q
  }

  /** The bracketing in TotalPages' contract pins the page count down. */
  lemma TotalPagesUnique(total: int, limit: int, pages: int)
    requires limit > 0
    requires (pages - 1) * limit < total <= pages * limit
    ensures TotalPages(total, limit) == pages
  {
  }

  /** 25 items at 10 per page make 3 pages; no items make no pages. */
  lemma TotalPagesExamples()
    ensures TotalPages(25, 10) == 3
    ensures TotalPages(0, 10) == 0
    ensures TotalPages(30, 10) == 3
  {
    TotalPagesUnique(25, 10, 3);
    TotalPagesUnique(0, 10, 0);
    TotalPagesUnique(30, 10, 3);
  }

  /** The pagination bar: which buttons are disabled, and the page count it shows. */
  datatype Pager = Pager(prevDisabled: bool, nextDisabled: bool, totalPages: int)

  /**
   * The bar appears only when the list is not loading and holds items.
   * Previous is disabled exactly on page 1, next exactly on the last page.
   */
  function Pagination(loading: bool, itemCount: nat, page: int, total: int, limit: int): (r: Option<Pager>)
    requires limit > 0
    ensures r.Some? <==> !loading && itemCount > 0
    ensures r.Some? ==> r.value.totalPages == TotalPages(total, limit)
    ensures r.Some? ==> (r.value.prevDisabled <==> page == 1)
    ensures r.Some? ==> (r.value.nextDisabled <==> page == TotalPages(total, limit))
  {
    if !loading && itemCount > 0 then
      var pages := TotalPages(total, limit);
      Some(Pager(page == 1, page == pages, pages))
    else
      None
  }

  datatype PageButton = Previous | Next

  /**
   * The page a click on a pagination button leads to: previous goes back one
   * page and next forward one, unless the button is disabled (previous on page
   * 1, next on the last page), when the page stays.
   */
  function Navigate(page: int, totalPages: int, button: PageButton): (r: int)
    ensures button == Previous ==> (r == page <==> page == 1) && (r != page ==> r == page - 1)
    ensures button == Next ==> (r == page <==> page == totalPages) && (r != page ==> r == page + 1)
  {
    match button
    case Previous => if page == 1 then page else page - 1
    case Next => if page == totalPages then page else page + 1
  }

  function NavigateAll(page: int, totalPages: int, buttons: seq<PageButton>): int
    decreases |buttons|
  {
    if buttons == [] then page else NavigateAll(Navigate(page, totalPages, buttons[0]), totalPages, buttons[1..])
  }

  /**
   * The disable rules keep the user within the pages that exist: starting on
   * one of pages 1..totalPages, any run of clicks stays there.
   */
  lemma {:induction false} NavigationStaysInRange(page: int, totalPages: int, buttons: seq<PageButton>)
    requires 1 <= page <= totalPages
    ensures 1 <= NavigateAll(page, totalPages, buttons) <= totalPages
    decreases |buttons|
  {
    if buttons != [] {
      NavigationStaysInRange(Navigate(page, totalPages, buttons[0]), totalPages, buttons[1..]);
    }
  }
}
