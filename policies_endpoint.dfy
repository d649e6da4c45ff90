/** The `/policies` routes, after authentication (see `ClientsEndpoint`). Every
    response goes through `PolicyResponse`, which re-runs the date validator. */
module PoliciesEndpoint {
  import opened Base
  import opened Dates
  import opened Models
  import opened Schemas
  import opened Database
  import opened Paging
  import PolicyService
  import ClientService

  const CreatedStatus := 201
  const OkStatus := 200
  const NoContentStatus := 204

  /** `Query(None, regex="^(active|pending|cancelled|expired)$")`: absent, or exactly one
      of the four words (the empty string does not match). */
  predicate StatusParamOk(status: Option<string>) {
    status.None? || status.value in PolicyStatuses
  }

  datatype PolicyList = PolicyList(data: seq<Policy>, meta: Meta)

  /** Each listed policy passes `PolicyResponse` validation. */
  predicate AllRespond(ps: seq<Policy>) {
    forall i :: 0 <= i < |ps| ==> PolicyResponseOf(ps[i]).Ok?
  }

  /** `read_policies`. */
  function ReadPolicies(ps: seq<Policy>, user: User, skip: int, limit: int, clientId: Option<int>,
                        status: Option<string>, branchId: Option<int>): (r: Result<PolicyList>)
    ensures r.Err? <==> !BoundsOk(skip, limit) || !StatusParamOk(status) || !AllRespond(PolicyService.GetPolicies(ps, user, skip, limit, clientId, status, branchId))
    ensures r.Err? && (!BoundsOk(skip, limit) || !StatusParamOk(status)) ==> r.error == QueryInvalid
    ensures r.Ok? ==>
              var total := PolicyService.GetPolicyCount(ps, user, clientId, status, branchId);
              |r.value.data| <= limit && |r.value.data| <= total
              && (forall i :: 0 <= i < |r.value.data| ==>
                    r.value.data[i] in ps && PolicyService.PolicyListed(r.value.data[i], user, clientId, status, branchId))
              && r.value.meta == ListMeta(skip, limit, total)
    ensures r.Ok? ==>
              var total := PolicyService.GetPolicyCount(ps, user, clientId, status, branchId);
              var q := PolicyService.PolicyQuery(ps, user, clientId, status, branchId);
              |r.value.data| == (if skip >= total then 0 else Min(limit, total - skip))
              && forall i :: 0 <= i < |r.value.data| ==> skip + i < |q| && r.value.data[i] == q[skip + i]
  {
    if !BoundsOk(skip, limit) || !StatusParamOk(status) then Err(QueryInvalid)
    else
      var data := PolicyService.GetPolicies(ps, user, skip, limit, clientId, status, branchId);
      if !AllRespond(data) then Err(HttpError(ServerError, "Internal Server Error"))
      else Ok(PolicyList(data, ListMeta(skip, limit, PolicyService.GetPolicyCount(ps, user, clientId, status, branchId))))
  }

  /** Over stored policies the response validation never fails, and an accepted status
      filter is applied exactly when it is given. */
  lemma ReadPoliciesOk(ps: seq<Policy>, next: int, user: User, skip: int, limit: int, clientId: Option<int>,
                       status: Option<string>, branchId: Option<int>)
    requires PoliciesOk(ps, next)
    ensures ReadPolicies(ps, user, skip, limit, clientId, status, branchId).Ok? <==> BoundsOk(skip, limit) && StatusParamOk(status)
    ensures StatusParamOk(status) ==> (Truthy(status) <==> status.Some?)
  {
    if BoundsOk(skip, limit) {
      var data := PolicyService.GetPolicies(ps, user, skip, limit, clientId, status, branchId);
      forall i | 0 <= i < |data| ensures PolicyResponseOf(data[i]).Ok? {
        var j :| 0 <= j < |ps| && ps[j] == data[i];
      }
    }
  }

  /** The frontend's request for page `p` of 20 is answered as page `p`. */
  lemma ReadPoliciesPage(ps: seq<Policy>, next: int, user: User, p: nat, clientId: Option<int>,
                         status: Option<string>, branchId: Option<int>)
    requires PoliciesOk(ps, next) && p >= 1 && StatusParamOk(status)
    ensures var r := ReadPolicies(ps, user, (p - 1) * 20, 20, clientId, status, branchId);
            r.Ok? && r.value.meta.page == p && r.value.meta.perPage == 20
  {
    ReadPoliciesOk(ps, next, user, (p - 1) * 20, 20, clientId, status, branchId);
    PageRoundTrip(p, 20);
  }

  /** `read_policy`. */
  function ReadPolicy(ps: seq<Policy>, policyId: int, user: User): (r: Result<Policy>)
    ensures PolicyService.GetPolicyById(ps, policyId, user).Err? ==> r == PolicyService.GetPolicyById(ps, policyId, user)
    ensures r.Ok? ==> r == PolicyService.GetPolicyById(ps, policyId, user) && Before(r.value.startDate, r.value.endDate)
  {
    match PolicyService.GetPolicyById(ps, policyId, user)
    case Err(e) => Err(e)
    case Ok(p) => PolicyResponseOf(p)
  }

  /** Over stored policies `read_policy` answers exactly what the lookup answers. */
  lemma ReadPolicyStored(ps: seq<Policy>, next: int, policyId: int, user: User)
    requires PoliciesOk(ps, next)
    ensures ReadPolicy(ps, policyId, user) == PolicyService.GetPolicyById(ps, policyId, user)
  {
    var g := PolicyService.GetPolicyById(ps, policyId, user);
    if g.Ok? {
      var j :| 0 <= j < |ps| && ps[j] == g.value;
    }
  }

  /** `POST /policies/`: 201 with the created policy, which is `pending` in its client's branch. */
  method CreatePolicy(db: Db, data: PolicyCreate, user: User, now: int) returns (code: int, r: Result<Policy>)
    requires db.Valid()
    modifies db
    ensures db.Valid()
    ensures r.Ok? ==> code == CreatedStatus && db.policies == old(db.policies) + [r.value]
    ensures r.Ok? ==> r.value.status == StatusPending && r.value.policyNumber == data.policyNumber
    ensures r.Ok? ==> exists i :: 0 <= i < |db.clients| && db.clients[i].id == data.clientId && db.clients[i].branchId == r.value.branchId
    ensures r.Err? ==> code == r.error.status && unchanged(db)
  {
    ghost var ci := ClientService.ClientIndex(db.clients, data.clientId);
    r := PolicyService.CreatePolicy(db, data, user, now);
    if r.Ok? {
      assert db.clients[ci.value].id == data.clientId;
      code := CreatedStatus;
    } else {
      code := r.error.status;
    }
  }

  /** `PUT /policies/{id}`: 200 with the updated policy. */
  method UpdatePolicy(db: Db, policyId: int, data: PolicyUpdate, user: User, now: int) returns (code: int, r: Result<Policy>)
    requires db.Valid()
    modifies db
    ensures db.Valid()
    ensures r.Ok? ==> code == OkStatus && r.value.id == policyId && PolicyChecksHold(r.value)
    ensures r.Err? ==> code == r.error.status && unchanged(db)
  {
    r := PolicyService.UpdatePolicy(db, policyId, data, user, now);
    code := if r.Ok? then OkStatus else r.error.status;
  }

  /** `DELETE /policies/{id}`: 204, whose response carries no body. */
  method DeletePolicy(db: Db, policyId: int, user: User, now: int) returns (code: int, err: Option<HttpError>)
    requires db.Valid()
    modifies db
    ensures db.Valid()
    ensures err.None? ==> code == NoContentStatus && |db.policies| == |old(db.policies)| - 1
    ensures err.Some? ==> code == err.value.status && unchanged(db)
  {
    var r := PolicyService.DeletePolicy(db, policyId, user, now);
    if r.Ok? {
      code, err := NoContentStatus, None;
    } else {
      code, err := r.error.status, Some(r.error);
    }
  }
}
