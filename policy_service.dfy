/** `PolicyService`: the scoped policy listing and its count, lookup by id, and
    create/update/delete with their guards and audit entries. */
module PolicyService {
  import opened Base
  import opened Dates
  import opened Models
  import opened Security
  import opened Audit
  import opened Schemas
  import opened Database
  import ClientService

  const PolicyNotFound := HttpError(NotFound, "Policy not found")
  const PolicyAccessDenied := HttpError(Forbidden, "Access denied to this policy")
  const PolicyClientMissing := HttpError(BadRequest, "Client not found")
  const CreateForbidden := HttpError(Forbidden, "Cannot create policies for this branch")
  const DuplicateNumber := HttpError(BadRequest, "Policy number already exists")
  const IntegrityFailure := HttpError(ServerError, "Internal Server Error")

  /** Branch scope, then `client_id` and `status` when each is truthy. */
  predicate PolicyListed(p: Policy, user: User, clientId: Option<int>, status: Option<string>, branchId: Option<int>) {
    InScope(user, p.branchId, branchId)
    && (!TruthyId(clientId) || p.clientId == clientId.value)
    && (!Truthy(status) || p.status == status.value)
  }

  function PolicyQuery(ps: seq<Policy>, user: User, clientId: Option<int>, status: Option<string>,
                       branchId: Option<int>): seq<Policy> {
    Filter(ps, (p: Policy) => PolicyListed(p, user, clientId, status, branchId))
  }

  /** `get_policy_count`. */
  function GetPolicyCount(ps: seq<Policy>, user: User, clientId: Option<int>, status: Option<string>,
                          branchId: Option<int>): (n: nat)
    ensures n <= |ps|
  {
    |PolicyQuery(ps, user, clientId, status, branchId)|
  }

  /** `get_policies`: one OFFSET/LIMIT page of the filtered query. */
  function GetPolicies(ps: seq<Policy>, user: User, skip: nat, limit: nat, clientId: Option<int>,
                       status: Option<string>, branchId: Option<int>): (r: seq<Policy>)
    ensures |r| <= limit && |r| <= GetPolicyCount(ps, user, clientId, status, branchId)
    ensures var n := GetPolicyCount(ps, user, clientId, status, branchId);
            |r| == if skip >= n then 0 else Min(limit, n - skip)
    ensures var q := PolicyQuery(ps, user, clientId, status, branchId);
            forall i :: 0 <= i < |r| ==> skip + i < |q| && r[i] == q[skip + i]
    ensures forall i :: 0 <= i < |r| ==> r[i] in ps && PolicyListed(r[i], user, clientId, status, branchId)
  {
    Window(PolicyQuery(ps, user, clientId, status, branchId), skip, limit)
  }

  /** Every policy the filters admit is counted. */
  lemma ListedPoliciesCounted(ps: seq<Policy>, user: User, clientId: Option<int>, status: Option<string>,
                              branchId: Option<int>, i: nat)
    requires i < |ps| && PolicyListed(ps[i], user, clientId, status, branchId)
    ensures ps[i] in PolicyQuery(ps, user, clientId, status, branchId)
    ensures GetPolicyCount(ps, user, clientId, status, branchId) >= 1
  {
  }

  /** For a non-admin the `branch_id` argument is ignored and every policy listed is in
      the user's branch; a truthy client id or status is matched exactly. */
  lemma PolicyFilters(ps: seq<Policy>, user: User, skip: nat, limit: nat, clientId: Option<int>,
                      status: Option<string>, b1: Option<int>, b2: Option<int>)
    requires user.role != RoleAdmin
    ensures GetPolicies(ps, user, skip, limit, clientId, status, b1) == GetPolicies(ps, user, skip, limit, clientId, status, b2)
    ensures GetPolicyCount(ps, user, clientId, status, b1) == GetPolicyCount(ps, user, clientId, status, b2)
    ensures var r := GetPolicies(ps, user, skip, limit, clientId, status, b1);
            forall i :: 0 <= i < |r| ==>
              user.branchId == Some(r[i].branchId)
              && (TruthyId(clientId) ==> r[i].clientId == clientId.value)
              && (Truthy(status) ==> r[i].status == status.value)
  {
    FilterSame(ps, (p: Policy) => PolicyListed(p, user, clientId, status, b1),
                   (p: Policy) => PolicyListed(p, user, clientId, status, b2));
  }

  /** A client id of 0 and an empty status filter nothing: they are falsy. */
  lemma FalsyFiltersIgnored(ps: seq<Policy>, user: User, branchId: Option<int>)
    ensures PolicyQuery(ps, user, Some(0), Some(""), branchId) == PolicyQuery(ps, user, None, None, branchId)
  {
    FilterSame(ps, (p: Policy) => PolicyListed(p, user, Some(0), Some(""), branchId),
                   (p: Policy) => PolicyListed(p, user, None, None, branchId));
  }

  function PolicyIndex(ps: seq<Policy>, id: int): Option<nat> {
    FindFirst(ps, (p: Policy) => p.id == id)
  }

  /** `get_policy_by_id`: 404 for a missing id before any access check, then 403. */
  function GetPolicyById(ps: seq<Policy>, id: int, user: User): (r: Result<Policy>)
    ensures r == Err(PolicyNotFound) <==> forall i :: 0 <= i < |ps| ==> ps[i].id != id
    ensures r.Ok? ==> r.value in ps && r.value.id == id && CheckUserAccess(user, Some(r.value.branchId))
    ensures r.Err? ==> r.error in {PolicyNotFound, PolicyAccessDenied}
    ensures r == Err(PolicyAccessDenied) ==>
              exists i :: 0 <= i < |ps| && ps[i].id == id && !CheckUserAccess(user, Some(ps[i].branchId))
  {
    match PolicyIndex(ps, id)
    case None => Err(PolicyNotFound)
    case Some(k) =>
      if !CheckUserAccess(user, Some(ps[k].branchId)) then Err(PolicyAccessDenied) else Ok(ps[k])
  }

  predicate NumberTaken(ps: seq<Policy>, number: string) {
    FindFirst(ps, (p: Policy) => p.policyNumber == number).Some?
  }

  /** The object `InsurancePolicy(**policy_dict)`: the body, the client's branch, status `pending`. */
  function NewPolicyDraft(id: int, data: PolicyCreate, branchId: int): (d: PolicyDraft)
    ensures d.id == id && d.policyNumber == data.policyNumber && d.clientId == data.clientId
    ensures d.branchId == branchId && d.status == Some(StatusPending)
  {
    PolicyDraft(id, data.policyNumber, data.clientId, branchId, Some(data.policyType), Some(data.coverage),
                Some(data.premium), Some(data.startDate), Some(data.endDate), Some(StatusPending))
  }

  /** A validated body fails at commit exactly when its premium breaks `check_positive_premium`:
      the validator already ordered the dates and `pending` is an admitted status. */
  lemma CreateCommitFails(id: int, data: PolicyCreate, branchId: int)
    ensures CommitPolicy(NewPolicyDraft(id, data, branchId)).None? <==> data.premium <= 0
  {
  }

  /** A policy with a fresh id and number, whose CHECK constraints hold and whose client
      is stored, keeps the policy table's constraints and foreign keys. */
  lemma PolicyAppendOk(ps: seq<Policy>, next: int, cs: seq<Client>, p: Policy)
    requires PoliciesOk(ps, next) && PolicyClientsExist(ps, cs)
    requires p.id == next && PolicyChecksHold(p) && ClientExists(cs, p.clientId)
    requires !NumberTaken(ps, p.policyNumber)
    ensures PoliciesOk(ps + [p], next + 1) && PolicyClientsExist(ps + [p], cs)
  {
    var r := ps + [p];
    forall i | 0 <= i < |r| ensures ClientExists(cs, r[i].clientId) {
      if i < |ps| { assert r[i] == ps[i]; }
    }
  }

  /** `create_policy`. */
  method CreatePolicy(db: Db, data: PolicyCreate, user: User, now: int) returns (r: Result<Policy>)
    requires db.Valid()
    modifies db
    ensures db.Valid()
    ensures ClientService.ClientIndex(old(db.clients), data.clientId).None? ==>
              r == Err(PolicyClientMissing) && unchanged(db)
    ensures ClientService.ClientIndex(old(db.clients), data.clientId).Some? ==>
              var client := old(db.clients)[ClientService.ClientIndex(old(db.clients), data.clientId).value];
              var row := CommitPolicy(NewPolicyDraft(old(db.nextPolicyId), data, client.branchId));
              if !CheckUserAccess(user, Some(client.branchId)) then
                r == Err(CreateForbidden) && unchanged(db)
              else if NumberTaken(old(db.policies), data.policyNumber) then
                r == Err(DuplicateNumber) && unchanged(db)
              else if row.None? then
                r == Err(IntegrityFailure) && unchanged(db)
              else
                r == Ok(row.value)
                && db.policies == old(db.policies) + [row.value]
                && db.auditLogs == old(db.auditLogs) + [AuditLog(old(db.nextAuditId), user.id, ActionCreate,
                     ResourcePolicy, row.value.id, None,
                     StoredValues(Some(PolicyCreateEntries(data, client.branchId, StatusPending))), now, None, None)]
                && db.clients == old(db.clients) && db.users == old(db.users) && db.branches == old(db.branches)
  {
    var ci := ClientService.ClientIndex(db.clients, data.clientId);
    if ci.None? {
      return Err(PolicyClientMissing);
    }
    var client := db.clients[ci.value];
    if !CheckUserAccess(user, Some(client.branchId)) {
      return Err(CreateForbidden);
    }
    if NumberTaken(db.policies, data.policyNumber) {
      return Err(DuplicateNumber);
    }
    var row := CommitPolicy(NewPolicyDraft(db.nextPolicyId, data, client.branchId));
    if row.None? {
      return Err(IntegrityFailure);
    }
    var policy := row.value;
    assert ClientExists(db.clients, policy.clientId);
    PolicyAppendOk(db.policies, db.nextPolicyId, db.clients, policy);
    db.policies := db.policies + [policy];
    db.nextPolicyId := db.nextPolicyId + 1;
    var _ := db.LogAction(user.id, ActionCreate, ResourcePolicy, policy.id, None,
                          Some(PolicyCreateEntries(data, client.branchId, StatusPending)), None, None, now);
    r := Ok(policy);
  }

  /** `setattr(policy, field, value)` for one item of the update dictionary. */
  function SetAttr(d: PolicyDraft, a: PolicyAssign): PolicyDraft {
    match a
    case AssignType(s) => d.(policyType := s)
    case AssignCoverage(s) => d.(coverage := s)
    case AssignPremium(p) => d.(premium := p)
    case AssignStartDate(s) => d.(startDate := s)
    case AssignEndDate(e) => d.(endDate := e)
    case AssignStatus(s) => d.(status := s)
  }

  function ApplyAll(d: PolicyDraft, items: seq<PolicyAssign>): PolicyDraft
    decreases |items|
  {
    if items == [] then d else ApplyAll(SetAttr(d, items[0]), items[1..])
  }

  /** The object after the update: each supplied field takes its value (None for an
      explicit null); the number, the client, the branch and the id are never touched. */
  function Updated(d: PolicyDraft, u: PolicyUpdate): (r: PolicyDraft)
    ensures r.id == d.id && r.policyNumber == d.policyNumber
    ensures r.clientId == d.clientId && r.branchId == d.branchId
  {
    d.(policyType := FieldOr(u.policyType, d.policyType), coverage := FieldOr(u.coverage, d.coverage),
       premium := FieldOr(u.premium, d.premium), startDate := FieldOr(u.startDate, d.startDate),
       endDate := FieldOr(u.endDate, d.endDate), status := FieldOr(u.status, d.status))
  }

  lemma {:induction false} ApplyAllConcat(d: PolicyDraft, a: seq<PolicyAssign>, b: seq<PolicyAssign>)
    ensures ApplyAll(d, a + b) == ApplyAll(ApplyAll(d, a), b)
    decreases |a|
  {
    if a != [] {
      assert (a + b)[0] == a[0] && (a + b)[1..] == a[1..] + b;
      ApplyAllConcat(SetAttr(d, a[0]), a[1..], b);
    } else {
      assert a + b == b;
    }
  }

  lemma ApplyStep(d: PolicyDraft, prefix: seq<PolicyAssign>, part: seq<PolicyAssign>, mid: PolicyDraft, next: PolicyDraft)
    requires ApplyAll(d, prefix) == mid
    requires part == [] ==> next == mid
    requires |part| == 1 ==> next == SetAttr(mid, part[0])
    requires |part| <= 1
    ensures ApplyAll(d, prefix + part) == next
  {
    ApplyAllConcat(d, prefix, part);
    if |part| == 1 {
      assert part == [part[0]];
      assert [part[0]][1..] == [];
    }
  }

  /** The dump's item for field `n` (in declaration order), if that field was supplied. */
  function Piece(u: PolicyUpdate, n: nat): seq<PolicyAssign>
    requires n < 6
  {
    if n == 0 then (if u.policyType.Unset? then [] else [AssignType(Assigned(u.policyType))])
    else if n == 1 then (if u.coverage.Unset? then [] else [AssignCoverage(Assigned(u.coverage))])
    else if n == 2 then (if u.premium.Unset? then [] else [AssignPremium(Assigned(u.premium))])
    else if n == 3 then (if u.startDate.Unset? then [] else [AssignStartDate(Assigned(u.startDate))])
    else if n == 4 then (if u.endDate.Unset? then [] else [AssignEndDate(Assigned(u.endDate))])
    else (if u.status.Unset? then [] else [AssignStatus(Assigned(u.status))])
  }

  /** The dump's items for the first `n` fields. */
  function Prefix(u: PolicyUpdate, n: nat): seq<PolicyAssign>
    requires n <= 6
  {
    if n == 0 then [] else Prefix(u, n - 1) + Piece(u, n - 1)
  }

  /** The object once the first `n` fields of the update have been applied. */
  function Partial(d: PolicyDraft, u: PolicyUpdate, n: nat): PolicyDraft {
    PolicyDraft(d.id, d.policyNumber, d.clientId, d.branchId,
                if n > 0 then FieldOr(u.policyType, d.policyType) else d.policyType,
                if n > 1 then FieldOr(u.coverage, d.coverage) else d.coverage,
                if n > 2 then FieldOr(u.premium, d.premium) else d.premium,
                if n > 3 then FieldOr(u.startDate, d.startDate) else d.startDate,
                if n > 4 then FieldOr(u.endDate, d.endDate) else d.endDate,
                if n > 5 then FieldOr(u.status, d.status) else d.status)
  }

  /** Field `n`'s item, if any, takes the object from `n` applied fields to `n + 1`. */
  lemma PieceStep(d: PolicyDraft, u: PolicyUpdate, n: nat)
    requires n < 6
    ensures |Piece(u, n)| <= 1
    ensures Piece(u, n) == [] ==> Partial(d, u, n + 1) == Partial(d, u, n)
    ensures |Piece(u, n)| == 1 ==> Partial(d, u, n + 1) == SetAttr(Partial(d, u, n), Piece(u, n)[0])
  {
  }

  lemma {:induction false} ApplyPrefix(d: PolicyDraft, u: PolicyUpdate, n: nat)
    requires n <= 6
    ensures ApplyAll(d, Prefix(u, n)) == Partial(d, u, n)
  {
    if n > 0 {
      ApplyPrefix(d, u, n - 1);
      PieceStep(d, u, n - 1);
      ApplyStep(d, Prefix(u, n - 1), Piece(u, n - 1), Partial(d, u, n - 1), Partial(d, u, n));
    }
  }

  /** All six pieces, in order, make the dump. */
  lemma PrefixAll(u: PolicyUpdate)
    ensures PolicyUpdateData(u) == Prefix(u, 6)
  {
    assert Prefix(u, 1) == Piece(u, 0) by { assert [] + Piece(u, 0) == Piece(u, 0); }
    assert Prefix(u, 2) == Piece(u, 0) + Piece(u, 1);
    assert Prefix(u, 3) == Piece(u, 0) + Piece(u, 1) + Piece(u, 2);
    assert Prefix(u, 4) == Piece(u, 0) + Piece(u, 1) + Piece(u, 2) + Piece(u, 3);
    assert Prefix(u, 5) == Piece(u, 0) + Piece(u, 1) + Piece(u, 2) + Piece(u, 3) + Piece(u, 4);
  }

  /** The `setattr` loop over the exclude-unset dump changes exactly the supplied fields. */
  lemma ApplyUpdateData(d: PolicyDraft, u: PolicyUpdate)
    ensures ApplyAll(d, PolicyUpdateData(u)) == Updated(d, u)
  {
    ApplyPrefix(d, u, 6);
    PrefixAll(u);
  }

  /** The update's validator only compares dates supplied together: moving the end date
      alone to or before the stored start date passes it and is rejected at commit. */
  lemma EndDateAloneCanFail(p: Policy, e: Date)
    requires !Before(p.startDate, e)
    ensures var u: PolicyUpdate := PolicyUpdateInput(Unset, Unset, Unset, Unset, SetTo(e), Unset);
            CommitPolicy(Updated(DraftOfPolicy(p), u)).None?
  {
  }

  /** A committed update keeps the row's identity: id, number, client and branch. */
  lemma UpdateKeepsIdentity(p: Policy, u: PolicyUpdate)
    ensures var row := CommitPolicy(Updated(DraftOfPolicy(p), u));
            row.Some? ==> row.value.id == p.id && row.value.policyNumber == p.policyNumber
                          && row.value.clientId == p.clientId && row.value.branchId == p.branchId
                          && PolicyChecksHold(row.value)
  {
  }

  lemma PoliciesOkReplace(ps: seq<Policy>, k: nat, row: Policy, next: int)
    requires PoliciesOk(ps, next) && k < |ps|
    requires row.id == ps[k].id && row.policyNumber == ps[k].policyNumber && PolicyChecksHold(row)
    ensures PoliciesOk(ps[k := row], next)
  {
  }

  lemma ClientsStillExist(ps: seq<Policy>, cs: seq<Client>, k: nat, row: Policy)
    requires PolicyClientsExist(ps, cs) && k < |ps| && row.clientId == ps[k].clientId
    ensures PolicyClientsExist(ps[k := row], cs)
  {
  }

  lemma PoliciesOkRemove(ps: seq<Policy>, k: nat, next: int)
    requires PoliciesOk(ps, next) && k < |ps|
    ensures PoliciesOk(RemoveAt(ps, k), next)
  {
    var r := RemoveAt(ps, k);
    forall i, j | 0 <= i < j < |r| ensures r[i].id != r[j].id && r[i].policyNumber != r[j].policyNumber {
      var i' := if i < k then i else i + 1;
      var j' := if j < k then j else j + 1;
      assert r[i] == ps[i'] && r[j] == ps[j'];
    }
  }

  /** `for field, value in update_data.items(): setattr(policy, field, value)`. */
  method SetAttrs(d: PolicyDraft, items: seq<PolicyAssign>) returns (draft: PolicyDraft)
    ensures draft == ApplyAll(d, items)
  {
    draft := d;
    var i := 0;
    while i < |items|
      invariant 0 <= i <= |items|
      invariant ApplyAll(draft, items[i..]) == ApplyAll(d, items)
    {
      assert items[i..] == [items[i]] + items[i + 1..];
      draft := SetAttr(draft, items[i]);
      i := i + 1;
    }
    assert items[i..] == [];
  }

  /** Stores `row` in place of the policy at `k`, which has the same id, number and client. */
  method ReplacePolicy(db: Db, k: nat, row: Policy)
    requires db.Valid() && k < |db.policies|
    requires row.id == db.policies[k].id && row.policyNumber == db.policies[k].policyNumber
    requires row.clientId == db.policies[k].clientId && PolicyChecksHold(row)
    modifies db`policies
    ensures db.Valid() && db.policies == old(db.policies)[k := row]
  {
    PoliciesOkReplace(db.policies, k, row, db.nextPolicyId);
    ClientsStillExist(db.policies, db.clients, k, row);
    db.policies := db.policies[k := row];
  }

  /** `update_policy`. Its second access check repeats the one `get_policy_by_id` made on
      the same branch and can never fire. */
  method UpdatePolicy(db: Db, policyId: int, data: PolicyUpdate, user: User, now: int) returns (r: Result<Policy>)
    requires db.Valid()
    modifies db
    ensures db.Valid()
    ensures GetPolicyById(old(db.policies), policyId, user).Err? ==>
              r == Err(GetPolicyById(old(db.policies), policyId, user).error) && unchanged(db)
    ensures GetPolicyById(old(db.policies), policyId, user).Ok? ==>
              var p := GetPolicyById(old(db.policies), policyId, user).value;
              var k := PolicyIndex(old(db.policies), policyId).value;
              var row := CommitPolicy(Updated(DraftOfPolicy(p), data));
              if row.None? then
                r == Err(IntegrityFailure) && unchanged(db)
              else
                r == Ok(row.value)
                && k < |old(db.policies)| && db.policies == old(db.policies)[k := row.value]
                && db.auditLogs == old(db.auditLogs) + [AuditLog(old(db.nextAuditId), user.id, ActionUpdate,
                     ResourcePolicy, policyId, StoredValues(Some(PolicyOldEntries(p))),
                     StoredValues(Some(PolicyUpdateEntries(data))), now, None, None)]
                && db.clients == old(db.clients) && db.users == old(db.users)
                && db.branches == old(db.branches)
  {
    var found := GetPolicyById(db.policies, policyId, user);
    if found.Err? {
      return Err(found.error);
    }
    var policy := found.value;
    var k := PolicyIndex(db.policies, policyId).value;
    assert CheckUserAccess(user, Some(policy.branchId));
    var oldValues := PolicyOldEntries(policy);
    var updateData := PolicyUpdateData(data);
    var draft := SetAttrs(DraftOfPolicy(policy), updateData);
    ApplyUpdateData(DraftOfPolicy(policy), data);
    var row := CommitPolicy(draft);
    if row.None? {
      return Err(IntegrityFailure);
    }
    var updated := row.value;
    ReplacePolicy(db, k, updated);
    var _ := db.LogAction(user.id, ActionUpdate, ResourcePolicy, updated.id, Some(oldValues),
                          Some(PolicyUpdateEntries(data)), None, None, now);
    r := Ok(updated);
  }

  /** `delete_policy`: any status may be deleted. Its second access check, like the
      update's, can never fire. */
  method DeletePolicy(db: Db, policyId: int, user: User, now: int) returns (r: Result<bool>)
    requires db.Valid()
    modifies db
    ensures db.Valid()
    ensures GetPolicyById(old(db.policies), policyId, user).Err? ==>
              r == Err(GetPolicyById(old(db.policies), policyId, user).error) && unchanged(db)
    ensures GetPolicyById(old(db.policies), policyId, user).Ok? ==>
              var p := GetPolicyById(old(db.policies), policyId, user).value;
              var k := PolicyIndex(old(db.policies), policyId).value;
              r == Ok(true)
              && k < |old(db.policies)| && db.policies == RemoveAt(old(db.policies), k)
              && db.auditLogs == old(db.auditLogs) + [AuditLog(old(db.nextAuditId), user.id, ActionDelete,
                   ResourcePolicy, policyId, StoredValues(Some(PolicyOldEntries(p))), None, now, None, None)]
              && db.clients == old(db.clients) && db.users == old(db.users)
              && db.branches == old(db.branches)
  {
    var found := GetPolicyById(db.policies, policyId, user);
    if found.Err? {
      return Err(found.error);
    }
    var policy := found.value;
    var k := PolicyIndex(db.policies, policyId).value;
    assert CheckUserAccess(user, Some(policy.branchId));
    var oldValues := PolicyOldEntries(policy);
    PoliciesOkRemove(db.policies, k, db.nextPolicyId);
    db.policies := RemoveAt(db.policies, k);
    var _ := db.LogAction(user.id, ActionDelete, ResourcePolicy, policyId, Some(oldValues), None, None, None, now);
    r := Ok(true);
  }
}
