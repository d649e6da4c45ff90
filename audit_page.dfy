/** The audit journal page (`app/admin/audit/page.tsx`): its mount effect fetches the
    first 50 entries unfiltered, and each change of one of its two filters fetches again
    with both. A failed request is only logged to the console: the rows already shown stay. */
module AuditPage {
  import opened Base
  import opened Api
  import opened Ui
  import Audit

  const Limit := 50
  const AllValues := "all"

  /** The items of the action `Select` and of the resource `Select`. */
  const ActionOptions := [AllValues, Audit.ActionCreate, Audit.ActionRead, Audit.ActionUpdate,
                          Audit.ActionDelete, Audit.ActionLogin, Audit.ActionLogout]
  const ResourceOptions := [AllValues, Audit.ResourceClient, Audit.ResourcePolicy,
                            Audit.ResourceUser, Audit.ResourceBranch]

  /** The arguments of one `fetchAuditLogs(action, resource)` call. */
  datatype FetchCall = FetchCall(action: string, resource: string)

  /** How `auditApi.getAll` settled: the body's `data` (absent or null counts as None), or a throw. */
  datatype FetchOutcome = Loaded(data: Option<seq<Audit.AuditLog>>) | Failed(thrown: Thrown)

  /** The parameters `fetchAuditLogs` passes: skip 0, limit 50, and each filter unless "all". */
  function FetchParams(c: FetchCall): AuditParams {
    AuditParams(Some(0), Some(Limit), None,
                if c.action != AllValues then Some(c.action) else None,
                if c.resource != AllValues then Some(c.resource) else None)
  }

  /** `getActionBadgeVariant`. */
  function ActionBadge(action: string): (r: Variant)
    ensures r == Default <==> action == Audit.ActionCreate || action == Audit.ActionLogin
    ensures r == Secondary <==> action == Audit.ActionUpdate
    ensures r == Destructive <==> action == Audit.ActionDelete || action == Audit.ActionLogout
  {
    match action
    case "CREATE" => Default
    case "LOGIN" => Default
    case "UPDATE" => Secondary
    case "DELETE" => Destructive
    case "LOGOUT" => Destructive
    case _ => Outline
  }

  datatype View = View(logs: seq<Audit.AuditLog>, loading: bool, actionFilter: string,
                       resourceFilter: string, inFlight: seq<FetchCall>)

  class Page {
    var logs: seq<Audit.AuditLog>
    var loading: bool
    var actionFilter: string
    var resourceFilter: string
    /** Requests sent and not yet answered. */
    var inFlight: seq<FetchCall>

    function State(): View
      reads this
    {
      View(logs, loading, actionFilter, resourceFilter, inFlight)
    }

    /** The first render followed by the mount effect: one unfiltered fetch is out. */
    constructor()
      ensures State() == View([], true, AllValues, AllValues, [FetchCall(AllValues, AllValues)])
    {
      logs, loading, actionFilter, resourceFilter := [], true, AllValues, AllValues;
      inFlight := [FetchCall(AllValues, AllValues)];
    }

    /** `handleFilterChange(action, resource)`: both filters are set and fetched at once. */
    method FilterChange(action: string, resource: string)
      requires !loading
      requires (action in ActionOptions && resource == resourceFilter)
               || (action == actionFilter && resource in ResourceOptions)
      modifies this
      ensures State() == old(State()).(actionFilter := action, resourceFilter := resource, loading := true,
                                        inFlight := old(inFlight) + [FetchCall(action, resource)])
    {
      actionFilter, resourceFilter := action, resource;
      loading := true;
      inFlight := inFlight + [FetchCall(action, resource)];
    }

    /** The `k`th request settles: `data || []` replaces the rows on success, a failure
        keeps them; loading ends either way. */
    method FetchSettles(k: nat, outcome: FetchOutcome)
      requires k < |inFlight|
      modifies this
      ensures State() == old(State()).(inFlight := RemoveAt(old(inFlight), k), loading := false,
                logs := match outcome
                  case Loaded(Some(rows)) => rows
                  case Loaded(None) => []
                  case Failed(_) => old(logs))
      ensures outcome.Failed? ==> logs == old(logs)
    {
      inFlight := RemoveAt(inFlight, k);
      match outcome {
        case Loaded(data) =>
          logs := if data.Some? then data.value else [];
        case Failed(_) =>
      }
      loading := false;
    }
  }

  /** The request of every filter combination the two `Select`s offer: skip 0 and limit
      50 first, then the action and the resource unless "all". Every other item is a word
      the audit log records, and the journal's first page is what comes back. */
  lemma {:induction false} FetchSends(c: FetchCall)
    requires c.action in ActionOptions && c.resource in ResourceOptions
    ensures AuditQuery(FetchParams(c)) ==
              [Param("skip", IntText(0)), Param("limit", IntText(Limit))]
              + (if c.action != AllValues then [Param("action", c.action)] else [])
              + (if c.resource != AllValues then [Param("resource_type", c.resource)] else [])
    ensures ValueOf(AuditQuery(FetchParams(c)), "action") == if c.action != AllValues then Some(c.action) else None
    ensures ValueOf(AuditQuery(FetchParams(c)), "resource_type") == if c.resource != AllValues then Some(c.resource) else None
  {
    AuditQueryValues(FetchParams(c));
  }

  /** Of the six actions the backend records, READ is the one shown with the plain
      outline badge, like any word the page does not know. */
  lemma ReadIsOutlined(action: string)
    requires action in ActionOptions && action != AllValues
    ensures ActionBadge(action) == Outline <==> action == Audit.ActionRead
  {
  }
}
