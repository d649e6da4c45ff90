/** The clients list page (`app/clients/page.tsx`) as a state machine. The React state
    and refs are the fields of `Page`; every event the page reacts to is a method: its
    first mount, a keystroke in the search box, the 500 ms debounce timer firing, a click
    on a pager button, a confirmed delete, and a request settling. A request that has been
    sent and not answered is kept with the arguments it was sent with; answers are applied
    in whatever order they arrive, since the page does not number its requests. */
module ClientsPage {
  import opened Base
  import opened Api
  import opened Ui
  import Models
  import Paging

  /** `const limit = 20` of `fetchClients`. */
  const PageSize := 20

  /** The `setTimeout` delay of the debounce effect, in milliseconds. */
  const DebounceDelay := 500

  /** The fallback texts of the two `catch` clauses. */
  const FetchFailed := "An error occurred"
  const DeleteFailed := "Failed to delete client"

  /** The arguments of one `fetchClients(searchQuery, page)` call. */
  datatype FetchCall = FetchCall(search: string, page: int)

  /** A confirmed `handleDelete(clientId)`, with the search text and the `meta` that its
      closure captured in the render where the button was clicked. */
  datatype DeleteCall = DeleteCall(clientId: int, search: string, meta: Option<Paging.Meta>)

  /** How a `clientsApi.getAll` call settled: the `data` and `meta` of the body, or the
      value it threw (an API error, a network error, or the TypeError of reading `data`
      from a null body). */
  datatype FetchOutcome = Loaded(rows: seq<Models.Client>, meta: Option<Paging.Meta>) | Failed(thrown: Thrown)

  /** The parameters `fetchClients` hands to `clientsApi.getAll`: `skip` and `limit`
      always, `search` only when the text is non-empty. */
  function FetchParams(c: FetchCall): ClientsParams {
    ClientsParams(Some((c.page - 1) * PageSize), Some(PageSize),
                  if c.search != "" then Some(c.search) else None, None)
  }

  /** Everything the page holds, as one value. */
  datatype View = View(
    clients: seq<Models.Client>, loading: bool, search: string, meta: Option<Paging.Meta>,
    error: Option<string>, hadFocus: bool, initialMount: bool, timer: Option<string>,
    inFlight: seq<FetchCall>, deletes: seq<DeleteCall>, focusRequests: nat)

  /** The first render: loading, empty, no error, nothing scheduled. */
  const FirstRender := View([], true, "", None, None, false, true, None, [], [], 0)

  class Page {
    var clients: seq<Models.Client>
    var loading: bool
    var search: string
    var meta: Option<Paging.Meta>
    var error: Option<string>
    /** `hadFocusRef`: the search box was focused when the latest fetch began. */
    var hadFocus: bool
    /** `isInitialMount`. */
    var initialMount: bool
    /** The pending debounce timeout, with the search text it will fetch. */
    var timer: Option<string>
    /** Requests sent and not yet answered, oldest first. */
    var inFlight: seq<FetchCall>
    /** Deletes sent and not yet answered. */
    var deletes: seq<DeleteCall>
    /** How many times `searchInputRef.current.focus()` has been scheduled. */
    var focusRequests: nat

    function State(): View
      reads this
    {
      View(clients, loading, search, meta, error, hadFocus, initialMount, timer, inFlight, deletes, focusRequests)
    }

    /** Neither the loading text nor the error text is rendered: the search box, the
        list, the delete buttons and the pager are on screen. */
    predicate Interactive()
      reads this
    {
      !loading && !Truthy(error)
    }

    /** `meta && meta.total_pages > 1`, on the interactive view. */
    predicate PagerShown()
      reads this
    {
      Interactive() && meta.Some? && meta.value.totalPages > 1
    }

    /** Loading, with no timer and no request that could ever end it. */
    predicate Stuck()
      reads this
    {
      loading && timer.None? && inFlight == [] && deletes == []
    }

    constructor()
      ensures State() == FirstRender
    {
      clients, loading, search, meta, error := [], true, "", None, None;
      hadFocus, initialMount, timer, inFlight, deletes, focusRequests := false, true, None, [], [], 0;
    }

    /** The effects of the first commit, each run once as in a production build. The focus
        effect sees `loading` true and does nothing; the debounce effect only clears
        `isInitialMount`; the mount fetch is commented out. So the page is left loading
        with nothing to wake it: the search box is not rendered, no timer is set and no
        request is out. */
    method Mount()
      requires initialMount
      modifies this
      ensures State() == old(State()).(initialMount := false)
      ensures old(State()) == FirstRender ==> Stuck() && !Interactive()
    {
      initialMount := false;
    }

    /** `handleSearch(query)`: the text changes, and when it differs from the last one
        the debounce effect replaces the pending timeout by one for the new text. */
    method EditSearch(query: string)
      requires !initialMount && Interactive()
      modifies this
      ensures State() == old(State()).(search := query, timer := if query == old(search) then old(timer) else Some(query))
      ensures inFlight == old(inFlight) && loading == old(loading)
    {
      if query != search {
        timer := Some(query);
      }
      search := query;
    }

    /** `fetchClients(searchQuery, page)` up to its `await`: `hadFocusRef` records whether
        the rendered search box is the focused element, loading is set and the request goes out. */
    method StartFetch(call: FetchCall, focused: bool)
      modifies this
      ensures State() == old(State()).(hadFocus := focused && old(Interactive()), loading := true,
                                        inFlight := old(inFlight) + [call])
    {
      hadFocus := focused && Interactive();
      loading := true;
      inFlight := inFlight + [call];
    }

    /** The debounce timeout elapses: page 1 of the text it was set for is fetched. */
    method TimerFires(focused: bool)
      requires timer.Some?
      modifies this
      ensures State() == old(State()).(timer := None, hadFocus := focused && old(Interactive()), loading := true,
                                        inFlight := old(inFlight) + [FetchCall(old(timer).value, 1)])
    {
      var query := timer.value;
      timer := None;
      StartFetch(FetchCall(query, 1), focused);
    }

    /** A pager button: one of pages 1 to `total_pages` of the current search. */
    method ClickPage(page: int, focused: bool)
      requires PagerShown() && 1 <= page <= meta.value.totalPages
      modifies this
      ensures State() == old(State()).(hadFocus := focused, loading := true,
                                        inFlight := old(inFlight) + [FetchCall(old(search), page)])
    {
      StartFetch(FetchCall(search, page), focused);
    }

    /** The confirm button of a row's delete dialog: `clientsApi.delete(id)` goes out. */
    method ClickDelete(clientId: int)
      requires Interactive() && exists i :: 0 <= i < |clients| && clients[i].id == clientId
      modifies this
      ensures State() == old(State()).(deletes := old(deletes) + [DeleteCall(clientId, old(search), old(meta))])
    {
      deletes := deletes + [DeleteCall(clientId, search, meta)];
    }

    /** The `k`th pending delete settles. On success the page its closure saw is fetched
        again with the search text its closure saw; on failure the error is shown. */
    method DeleteSettles(k: nat, outcome: Option<Thrown>, focused: bool)
      requires k < |deletes|
      modifies this
      ensures var d := old(deletes[k]);
              var rest := old(State()).(deletes := RemoveAt(old(deletes), k));
              State() == match outcome
                case None => rest.(hadFocus := focused && old(Interactive()), loading := true,
                                   inFlight := old(inFlight) + [FetchCall(d.search, Paging.ReloadPage(d.meta))])
                case Some(t) => rest.(error := Some(CaughtMessage(t, DeleteFailed)))
      ensures Truthy(old(error)) && outcome != Some(ErrorThrown("")) ==> Truthy(error)
    {
      var d := deletes[k];
      deletes := RemoveAt(deletes, k);
      match outcome
      case None =>
        StartFetch(FetchCall(d.search, Paging.ReloadPage(d.meta)), focused);
      case Some(t) =>
        error := Some(CaughtMessage(t, DeleteFailed));
    }

    /** The `k`th request in flight settles. Rows and meta are replaced by the body's, or
        the error is set; loading ends either way. The focus effect then schedules a
        focus exactly when loading really changed, the latest fetch began with the box
        focused and the box is rendered again. */
    method FetchSettles(k: nat, outcome: FetchOutcome)
      requires k < |inFlight|
      modifies this
      ensures var after := match outcome
                case Loaded(rows, m) => old(State()).(clients := rows, meta := m)
                case Failed(t) => old(State()).(error := Some(CaughtMessage(t, FetchFailed)));
              State() == after.(inFlight := RemoveAt(old(inFlight), k), loading := false,
                                focusRequests := old(focusRequests)
                                  + if old(loading) && old(hadFocus) && !Truthy(after.error) then 1 else 0)
      ensures !loading
      ensures outcome.Loaded? ==> clients == outcome.rows && meta == outcome.meta && error == old(error)
      ensures Truthy(old(error)) && !(outcome.Failed? && outcome.thrown == ErrorThrown("")) ==> Truthy(error)
    {
      var wasLoading := loading;
      inFlight := RemoveAt(inFlight, k);
      match outcome {
        case Loaded(rows, m) =>
          clients, meta := rows, m;
        case Failed(t) =>
          error := Some(CaughtMessage(t, FetchFailed));
      }
      loading := false;
      if wasLoading && hadFocus && !Truthy(error) {
        focusRequests := focusRequests + 1;
      }
    }
  }

  /** The request for page `p`: `skip` = (p - 1) * 20, `limit` = 20, `search` exactly when
      the text is non-empty, never a branch; and the backend labels its answer page `p`. */
  lemma {:induction false} FetchSends(c: FetchCall)
    requires c.page >= 1
    ensures ClientsQuery(FetchParams(c)) ==
              [Param("skip", IntText((c.page - 1) * PageSize)), Param("limit", IntText(PageSize))]
              + (if c.search != "" then [Param("search", c.search)] else [])
    ensures Paging.PageOf((c.page - 1) * PageSize, PageSize) == c.page
  {
    Paging.PageRoundTrip(c.page, PageSize);
  }

  /** The pager appears exactly when the result holds more than one page of rows, and
      every button it shows asks for a page that starts inside the result. */
  lemma {:induction false} PagerRule(total: nat, p: nat)
    ensures Paging.TotalPages(total, PageSize) > 1 <==> total > PageSize
    ensures 1 <= p <= Paging.TotalPages(total, PageSize) ==> (p - 1) * PageSize < total
  {
    var t := Paging.TotalPages(total, PageSize);
    if t > 1 {
      Paging.MulMonotone(1, t - 1, PageSize);
    }
    if p >= 1 {
      Paging.PageWithinTotal(p, PageSize, total);
    }
  }
}
