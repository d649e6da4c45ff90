/** The policies list page (`app/policies/page.tsx`). Its state machine is the one of the
    clients page with a status filter added: the debounce effect watches both the search
    text and the filter, and every fetch carries both. The search text reaches
    `policiesApi.getAll`, which has no parameter for it, so it is never sent. */
module PoliciesPage {
  import opened Base
  import opened Api
  import opened Ui
  import Models
  import Paging

  const PageSize := 20
  const DebounceDelay := 500
  const FetchFailed := "An error occurred"
  const DeleteFailed := "Failed to delete policy"

  /** The value of the filter that sends no status. */
  const AllStatuses := "all"

  /** The items of the status `Select`. */
  const StatusOptions := [AllStatuses, Models.StatusActive, Models.StatusPending,
                          Models.StatusCancelled, Models.StatusExpired]

  /** The search text and status filter the debounce effect was last set up with. */
  datatype Filters = Filters(search: string, status: string)

  /** The arguments of one `fetchPolicies(searchQuery, status, page)` call. */
  datatype FetchCall = FetchCall(search: string, status: string, page: int)

  datatype DeleteCall = DeleteCall(policyId: int, search: string, status: string, meta: Option<Paging.Meta>)

  datatype FetchOutcome = Loaded(rows: seq<Models.Policy>, meta: Option<Paging.Meta>) | Failed(thrown: Thrown)

  /** The object `fetchPolicies` builds: `status` unless the filter is "all", `search`
      when the text is non-empty. */
  datatype PageRequest = PageRequest(skip: int, limit: int, status: Option<string>, search: Option<string>)

  function PageRequestOf(c: FetchCall): (r: PageRequest)
    ensures r.status.None? <==> c.status == AllStatuses
    ensures r.search.None? <==> c.search == ""
  {
    PageRequest((c.page - 1) * PageSize, PageSize,
                if c.status != AllStatuses then Some(c.status) else None,
                if c.search != "" then Some(c.search) else None)
  }

  /** The fields of that object `policiesApi.getAll` reads: not `search`. */
  function ApiParams(r: PageRequest): PoliciesParams {
    PoliciesParams(Some(r.skip), Some(r.limit), None, r.status, None)
  }

  /** `getStatusBadgeVariant`. */
  function StatusBadge(status: string): (r: Variant)
    ensures r == Outline <==> status !in Models.PolicyStatuses
    ensures r == Destructive <==> status == Models.StatusCancelled || status == Models.StatusExpired
    ensures r == Default <==> status == Models.StatusActive
  {
    match status
    case "active" => Default
    case "pending" => Secondary
    case "cancelled" => Destructive
    case "expired" => Destructive
    case _ => Outline
  }

  datatype View = View(
    policies: seq<Models.Policy>, loading: bool, search: string, statusFilter: string,
    meta: Option<Paging.Meta>, error: Option<string>, hadFocus: bool, initialMount: bool,
    timer: Option<Filters>, inFlight: seq<FetchCall>, deletes: seq<DeleteCall>, focusRequests: nat)

  const FirstRender := View([], true, "", AllStatuses, None, None, false, true, None, [], [], 0)

  class Page {
    var policies: seq<Models.Policy>
    var loading: bool
    var search: string
    var statusFilter: string
    var meta: Option<Paging.Meta>
    var error: Option<string>
    var hadFocus: bool
    var initialMount: bool
    /** The pending debounce timeout, with the filters it will fetch. */
    var timer: Option<Filters>
    var inFlight: seq<FetchCall>
    var deletes: seq<DeleteCall>
    var focusRequests: nat

    function State(): View
      reads this
    {
      View(policies, loading, search, statusFilter, meta, error, hadFocus, initialMount, timer,
           inFlight, deletes, focusRequests)
    }

    predicate Interactive()
      reads this
    {
      !loading && !Truthy(error)
    }

    predicate PagerShown()
      reads this
    {
      Interactive() && meta.Some? && meta.value.totalPages > 1
    }

    predicate Stuck()
      reads this
    {
      loading && timer.None? && inFlight == [] && deletes == []
    }

    constructor()
      ensures State() == FirstRender
    {
      policies, loading, search, statusFilter, meta, error := [], true, "", AllStatuses, None, None;
      hadFocus, initialMount, timer, inFlight, deletes, focusRequests := false, true, None, [], [], 0;
    }

    /** As on the clients page, the first commit of a production build, which runs each
        effect once, leaves the page loading for good. */
    method Mount()
      requires initialMount
      modifies this
      ensures State() == old(State()).(initialMount := false)
      ensures old(State()) == FirstRender ==> Stuck() && !Interactive()
    {
      initialMount := false;
    }

    /** `handleSearch(query)`; a changed text re-arms the timeout with both filters. */
    method EditSearch(query: string)
      requires !initialMount && Interactive()
      modifies this
      ensures State() == old(State()).(search := query,
                timer := if query == old(search) then old(timer) else Some(Filters(query, old(statusFilter))))
    {
      if query != search {
        timer := Some(Filters(query, statusFilter));
      }
      search := query;
    }

    /** `handleStatusFilter(status)`, from one of the `Select`'s items. */
    method ChooseStatus(status: string)
      requires !initialMount && Interactive() && status in StatusOptions
      modifies this
      ensures State() == old(State()).(statusFilter := status,
                timer := if status == old(statusFilter) then old(timer) else Some(Filters(old(search), status)))
    {
      if status != statusFilter {
        timer := Some(Filters(search, status));
      }
      statusFilter := status;
    }

    method StartFetch(call: FetchCall, focused: bool)
      modifies this
      ensures State() == old(State()).(hadFocus := focused && old(Interactive()), loading := true,
                                        inFlight := old(inFlight) + [call])
    {
      hadFocus := focused && Interactive();
      loading := true;
      inFlight := inFlight + [call];
    }

    /** The timeout elapses: page 1 under the filters it captured. */
    method TimerFires(focused: bool)
      requires timer.Some?
      modifies this
      ensures State() == old(State()).(timer := None, hadFocus := focused && old(Interactive()), loading := true,
                  inFlight := old(inFlight) + [FetchCall(old(timer).value.search, old(timer).value.status, 1)])
    {
      var f := timer.value;
      timer := None;
      StartFetch(FetchCall(f.search, f.status, 1), focused);
    }

    method ClickPage(page: int, focused: bool)
      requires PagerShown() && 1 <= page <= meta.value.totalPages
      modifies this
      ensures State() == old(State()).(hadFocus := focused, loading := true,
                  inFlight := old(inFlight) + [FetchCall(old(search), old(statusFilter), page)])
    {
      StartFetch(FetchCall(search, statusFilter, page), focused);
    }

    method ClickDelete(policyId: int)
      requires Interactive() && exists i :: 0 <= i < |policies| && policies[i].id == policyId
      modifies this
      ensures State() == old(State()).(deletes := old(deletes) + [DeleteCall(policyId, old(search), old(statusFilter), old(meta))])
    {
      deletes := deletes + [DeleteCall(policyId, search, statusFilter, meta)];
    }

    method DeleteSettles(k: nat, outcome: Option<Thrown>, focused: bool)
      requires k < |deletes|
      modifies this
      ensures var d := old(deletes[k]);
              var rest := old(State()).(deletes := RemoveAt(old(deletes), k));
              State() == match outcome
                case None => rest.(hadFocus := focused && old(Interactive()), loading := true,
                                   inFlight := old(inFlight) + [FetchCall(d.search, d.status, Paging.ReloadPage(d.meta))])
                case Some(t) => rest.(error := Some(CaughtMessage(t, DeleteFailed)))
      ensures Truthy(old(error)) && outcome != Some(ErrorThrown("")) ==> Truthy(error)
    {
      var d := deletes[k];
      deletes := RemoveAt(deletes, k);
      match outcome {
        case None =>
          StartFetch(FetchCall(d.search, d.status, Paging.ReloadPage(d.meta)), focused);
        case Some(t) =>
          error := Some(CaughtMessage(t, DeleteFailed));
      }
    }

    method FetchSettles(k: nat, outcome: FetchOutcome)
      requires k < |inFlight|
      modifies this
      ensures var after := match outcome
                case Loaded(rows, m) => old(State()).(policies := rows, meta := m)
                case Failed(t) => old(State()).(error := Some(CaughtMessage(t, FetchFailed)));
              State() == after.(inFlight := RemoveAt(old(inFlight), k), loading := false,
                                focusRequests := old(focusRequests)
                                  + if old(loading) && old(hadFocus) && !Truthy(after.error) then 1 else 0)
      ensures !loading
      ensures Truthy(old(error)) && !(outcome.Failed? && outcome.thrown == ErrorThrown("")) ==> Truthy(error)
    {
      var wasLoading := loading;
      inFlight := RemoveAt(inFlight, k);
      match outcome {
        case Loaded(rows, m) =>
          policies, meta := rows, m;
        case Failed(t) =>
          error := Some(CaughtMessage(t, FetchFailed));
      }
      loading := false;
      if wasLoading && hadFocus && !Truthy(error) {
        focusRequests := focusRequests + 1;
      }
    }
  }

  /** What a fetch sends: `skip` and `limit` of page `p`, the status unless the filter is
      "all" (a status the database admits, for every other item of the `Select`) and
      never the search text, whatever the box holds. */
  lemma {:induction false} FetchSends(c: FetchCall)
    requires c.page >= 1 && c.status in StatusOptions
    ensures var q := PoliciesQuery(ApiParams(PageRequestOf(c)));
            q == [Param("skip", IntText((c.page - 1) * PageSize)), Param("limit", IntText(PageSize))]
                 + (if c.status != AllStatuses then [Param("status", c.status)] else [])
            && "search" !in Keys(q)
    ensures c.status != AllStatuses ==> c.status in Models.PolicyStatuses
    ensures Paging.PageOf((c.page - 1) * PageSize, PageSize) == c.page
  {
    PoliciesNeverSearch(ApiParams(PageRequestOf(c)));
    Paging.PageRoundTrip(c.page, PageSize);
  }

  /** The search text changes what is sent only through the timer: two fetches that
      differ only in it send the same query. */
  lemma SearchIgnored(c: FetchCall, other: string)
    ensures PoliciesQuery(ApiParams(PageRequestOf(c))) == PoliciesQuery(ApiParams(PageRequestOf(c.(search := other))))
  {
  }
}
