/**
 * The fetch coordinator (src/hooks/useItems.ts): it holds the fetched page of
 * items with its loading flag, error message, total count, page and page size,
 * starts a fetch whenever the query it is given changes value, and offers an
 * unconditional refetch.
 *
 * Each fetch is a begin step (`Refetch`, or `Render` with a changed query) and
 * a later completion step (`Complete`) that receives what the list call
 * produced. Fetches that overlap and complete out of order are not modelled.
 */
module UseItems {
  import opened ItemTypes

  /** The message shown when a failed list call carries none. */
  const FetchErrorFallback := "Erro ao carregar items"

  /** What the hook hands back to its caller, apart from `refetch`. */
  datatype HookState = HookState(
    items: seq<Item>,
    loading: bool,
    error: Option<string>,
    total: int,
    page: int,
    limit: int)

  /**
   * `x || fallback` on an optional number: a given non-zero value is kept;
   * `undefined` and `0`, both falsy, give the fallback.
   */
  function OrFallback(x: Option<int>, fallback: int): (r: int)
    ensures x.Some? && x.value != 0 ==> r == x.value
    ensures x.None? || x == Some(0) ==> r == fallback
  {
    if x.Some? && x.value != 0 then x.value else fallback
  }

  /**
   * The state before the first fetch settles: no items, loading, no error, a
   * zero total; page and size are taken from the query when it gives a
   * non-zero value, else 1 and 10.
   */
  function InitialView(params: QueryParams): (v: HookState)
    ensures v.items == [] && v.loading && v.error == None && v.total == 0
    ensures params.page.Some? && params.page.value != 0 ==> v.page == params.page.value
    ensures params.page.None? || params.page == Some(0) ==> v.page == 1
    ensures params.limit.Some? && params.limit.value != 0 ==> v.limit == params.limit.value
    ensures params.limit.None? || params.limit == Some(0) ==> v.limit == 10
  {
    HookState([], true, None, 0, OrFallback(params.page, 1), OrFallback(params.limit, 10))
  }

  /** Beginning a fetch: loading, the old error cleared, the old data still shown. */
  function Started(v: HookState): (r: HookState)
    ensures r.loading && r.error == None
    ensures r.items == v.items && r.total == v.total && r.page == v.page && r.limit == v.limit
  {
    v.(loading := true, error := None)
  }

  /**
   * A fetch settling. Loading ends on both paths. A response replaces items,
   * total, page and size with what the server sent; a failure records the
   * error's message (or the fallback) and keeps the data that was there.
   */
  function Settled(v: HookState, outcome: Outcome<ItemsResponse>): (r: HookState)
    ensures !r.loading
    ensures outcome.Success? ==>
      && r.items == outcome.value.data
      && r.total == outcome.value.metadata.totalItems
      && r.page == outcome.value.metadata.page
      && r.limit == outcome.value.metadata.limit
      && r.error == v.error
    ensures outcome.Failure? ==>
      && r.error == Some(ErrorText(outcome.message, FetchErrorFallback))
      && r.items == v.items && r.total == v.total && r.page == v.page && r.limit == v.limit
  {
    match outcome
    case Success(response) =>
      v.(items := response.data,
         total := response.metadata.totalItems,
         page := response.metadata.page,
         limit := response.metadata.limit,
         loading := false)
    case Failure(message) =>
      v.(error := Some(ErrorText(message, FetchErrorFallback)), loading := false)
  }

  /** One whole fetch: begin, then settle with the given outcome. */
  function Cycle(v: HookState, outcome: Outcome<ItemsResponse>): HookState {
    Settled(Started(v), outcome)
  }

  /** A run of whole fetches, oldest first. */
  function Cycles(v: HookState, outcomes: seq<Outcome<ItemsResponse>>): HookState
    decreases |outcomes|
  {
    if outcomes == [] then v
    else Cycle(Cycles(v, outcomes[..|outcomes| - 1]), outcomes[|outcomes| - 1])
  }

  /** The most recent successful response in a run, if any. */
  function LastSuccess(outcomes: seq<Outcome<ItemsResponse>>): Option<ItemsResponse>
    decreases |outcomes|
  {
    if outcomes == [] then None
    else if outcomes[|outcomes| - 1].Success? then Some(outcomes[|outcomes| - 1].value)
    else LastSuccess(outcomes[..|outcomes| - 1])
  }

  /**
   * After any run of fetches, the data on show is that of the latest response
   * that succeeded, or the data from before the run when none did: failures
   * never discard or alter it.
   */
  lemma {:induction false} CyclesShowLastSuccess(v: HookState, outcomes: seq<Outcome<ItemsResponse>>)
    ensures var r := Cycles(v, outcomes);
      match LastSuccess(outcomes)
      case None =>
        r.items == v.items && r.total == v.total && r.page == v.page && r.limit == v.limit
      case Some(response) =>
        && r.items == response.data
        && r.total == response.metadata.totalItems
        && r.page == response.metadata.page
        && r.limit == response.metadata.limit
    decreases |outcomes|
  {
    if outcomes != [] {
      CyclesShowLastSuccess(v, outcomes[..|outcomes| - 1]);
    }
  }

  /**
   * After a non-empty run of fetches nothing is loading, and an error is shown
   * exactly when the latest fetch failed.
   */
  lemma CyclesErrorIsLatest(v: HookState, outcomes: seq<Outcome<ItemsResponse>>)
    requires outcomes != []
    ensures !Cycles(v, outcomes).loading
    ensures Cycles(v, outcomes).error.None? <==> outcomes[|outcomes| - 1].Success?
  {
  }

  /** A failed first load leaves the list empty and shows the error. */
  lemma FirstLoadFailure(params: QueryParams, message: Option<string>)
    ensures Cycle(InitialView(params), Failure(message)).items == []
    ensures Cycle(InitialView(params), Failure(message)).error == Some(ErrorText(message, FetchErrorFallback))
    ensures !Cycle(InitialView(params), Failure(message)).loading
  {
  }

  /** One instance of the hook inside a rendering component. */
  class ItemsHook {
    var items: seq<Item>
    var loading: bool
    var error: Option<string>
    var total: int
    var page: int
    var limit: int
    /** The query of the latest render, which `refetch` sends. */
    var params: QueryParams
    /** The dependency the effect last ran with; `None` before mounting. */
    var deps: Option<QueryParams>
    /** Every list call issued to the service so far, with its query. */
    var requests: seq<QueryParams>

    function State(): HookState
      reads this
    {
      HookState(items, loading, error, total, page, limit)
    }

    /** The state hooks' initial values, before the mount effect has run. */
    constructor (params: QueryParams)
      ensures State() == InitialView(params)
      ensures this.params == params && deps == None && requests == []
    {
      items := [];
      loading := true;
      error := None;
      total := 0;
      page := OrFallback(params.page, 1);
      limit := OrFallback(params.limit, 10);
      this.params := params;
      deps := None;
      requests := [];
    }

    /**
     * `fetchItems` up to its await: loading on, error cleared, one list call
     * issued with the current query.
     */
    method Refetch()
      modifies this
      ensures State() == Started(old(State()))
      ensures requests == old(requests) + [params]
      ensures params == old(params) && deps == old(deps)
    {
      loading := true;
      error := None;
      requests := requests + [params];
    }

    /**
     * The rest of `fetchItems`, once the list call has produced `outcome`.
     */
    method Complete(outcome: Outcome<ItemsResponse>)
      modifies this
      ensures State() == Settled(old(State()), outcome)
      ensures params == old(params) && deps == old(deps) && requests == old(requests)
    {
      match outcome {
        case Success(response) =>
          items := response.data;
          total := response.metadata.totalItems;
          page := response.metadata.page;
          limit := response.metadata.limit;
        case Failure(message) =>
          error := Some(ErrorText(message, FetchErrorFallback));
      }
      loading := false;
    }

    /**
     * A render with query `p`, followed by the effect keyed on the query's
     * serialised value: a fetch begins exactly when the value differs from the
     * one the effect last saw (always on the first render).
     */
    method Render(p: QueryParams)
      modifies this
      ensures params == p && deps == Some(p)
      ensures old(deps) != Some(p) ==> State() == Started(old(State())) && requests == old(requests) + [p]
      ensures old(deps) == Some(p) ==> State() == old(State()) && requests == old(requests)
    {
      params := p;
      if deps != Some(p) {
        deps := Some(p);
        Refetch();
      }
    }
  }
}
