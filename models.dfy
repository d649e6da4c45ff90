/** The rows of the four business tables and the constraints the database keeps
    on them: the UNIQUE columns, the NOT NULL columns, and the three CHECK
    constraints of `insurance_policies`. Premiums are integer cents. */
module Models {
  import opened Base
  import opened Dates
  import opened Text

  datatype Branch = Branch(id: int, name: string, code: string, address: string, phone: string)

  datatype User = User(
    id: int, username: string, email: string, passwordHash: string,
    role: string, branchId: Option<int>, isActive: bool)

  datatype Client = Client(
    id: int, branchId: int, firstName: string, lastName: string, email: string,
    phone: string, address: string, dateOfBirth: Option<Date>)

  datatype Policy = Policy(
    id: int, policyNumber: string, clientId: int, branchId: int, policyType: string,
    coverage: string, premium: int, startDate: Date, endDate: Date, status: string)

  const StatusActive := "active"
  const StatusPending := "pending"
  const StatusCancelled := "cancelled"
  const StatusExpired := "expired"

  /** The words `check_valid_status` admits. */
  const PolicyStatuses := [StatusActive, StatusPending, StatusCancelled, StatusExpired]

  /** The column default of `status`. */
  const DefaultStatus := StatusPending

  /** `check_end_date_after_start`, `check_valid_status` and `check_positive_premium`. */
  predicate PolicyChecksHold(p: Policy) {
    Before(p.startDate, p.endDate) && p.status in PolicyStatuses && p.premium > 0
  }

  /** An ORM `Client` object between `setattr` and commit: a NOT NULL column may hold None. */
  datatype ClientDraft = ClientDraft(
    id: int, branchId: Option<int>, firstName: Option<string>, lastName: Option<string>,
    email: Option<string>, phone: Option<string>, address: Option<string>,
    dateOfBirth: Option<Date>)

  /** An ORM `InsurancePolicy` object between `setattr` and commit. The number, the client
      and the branch are never assigned by an update, so they cannot be None. */
  datatype PolicyDraft = PolicyDraft(
    id: int, policyNumber: string, clientId: int, branchId: int,
    policyType: Option<string>, coverage: Option<string>, premium: Option<int>,
    startDate: Option<Date>, endDate: Option<Date>, status: Option<string>)

  function DraftOfClient(c: Client): ClientDraft {
    ClientDraft(c.id, Some(c.branchId), Some(c.firstName), Some(c.lastName), Some(c.email),
                Some(c.phone), Some(c.address), c.dateOfBirth)
  }

  function DraftOfPolicy(p: Policy): PolicyDraft {
    PolicyDraft(p.id, p.policyNumber, p.clientId, p.branchId, Some(p.policyType), Some(p.coverage),
                Some(p.premium), Some(p.startDate), Some(p.endDate), Some(p.status))
  }

  /** The row the database accepts for a client object, or None when a NOT NULL column is None. */
  function CommitClient(d: ClientDraft): (r: Option<Client>)
    ensures r.Some? <==> d.branchId.Some? && d.firstName.Some? && d.lastName.Some?
                         && d.email.Some? && d.phone.Some? && d.address.Some?
    ensures r.Some? ==> DraftOfClient(r.value) == d
  {
    if d.branchId.Some? && d.firstName.Some? && d.lastName.Some? && d.email.Some?
       && d.phone.Some? && d.address.Some?
    then Some(Client(d.id, d.branchId.value, d.firstName.value, d.lastName.value, d.email.value,
                     d.phone.value, d.address.value, d.dateOfBirth))
    else None
  }

  /** The row the database accepts for a policy object: every NOT NULL column set and
      every CHECK constraint satisfied; None otherwise (an IntegrityError). */
  function CommitPolicy(d: PolicyDraft): (r: Option<Policy>)
    ensures r.Some? <==> d.policyType.Some? && d.coverage.Some? && d.premium.Some?
                         && d.startDate.Some? && d.endDate.Some? && d.status.Some?
                         && Before(d.startDate.value, d.endDate.value)
                         && d.status.value in PolicyStatuses && d.premium.value > 0
    ensures r.Some? ==> DraftOfPolicy(r.value) == d && PolicyChecksHold(r.value)
  {
    if d.policyType.Some? && d.coverage.Some? && d.premium.Some? && d.startDate.Some?
       && d.endDate.Some? && d.status.Some?
    then
      var p := Policy(d.id, d.policyNumber, d.clientId, d.branchId, d.policyType.value,
                      d.coverage.value, d.premium.value, d.startDate.value, d.endDate.value,
                      d.status.value);
      if PolicyChecksHold(p) then Some(p) else None
    else None
  }

  /** A stored row committed again unchanged is accepted as it is. */
  lemma CommitUnchanged(c: Client, p: Policy)
    ensures CommitClient(DraftOfClient(c)) == Some(c)
    ensures PolicyChecksHold(p) ==> CommitPolicy(DraftOfPolicy(p)) == Some(p)
  {
  }

  /** `str(premium)` for a Numeric(10, 2) value held as cents. */
  function PremiumText(cents: nat): (r: string)
    ensures |r| >= 4 && r[|r| - 3] == '.'
  {
    NatToString(cents / 100) + "." + Pad(cents % 100, 2)
  }

  /** A client with this id is stored. */
  predicate ClientExists(cs: seq<Client>, id: int) {
    exists j :: 0 <= j < |cs| && cs[j].id == id
  }

  /** Ids below the next id the table hands out, ids and emails unique. */
  ghost predicate ClientsOk(cs: seq<Client>, next: int) {
    (forall i :: 0 <= i < |cs| ==> cs[i].id < next)
    && (forall i, j :: 0 <= i < j < |cs| ==> cs[i].id != cs[j].id && cs[i].email != cs[j].email)
  }

  /** Ids below the next id, ids and policy numbers unique, every CHECK constraint holding. */
  ghost predicate PoliciesOk(ps: seq<Policy>, next: int) {
    (forall i :: 0 <= i < |ps| ==> ps[i].id < next && PolicyChecksHold(ps[i]))
    && (forall i, j :: 0 <= i < j < |ps| ==> ps[i].id != ps[j].id && ps[i].policyNumber != ps[j].policyNumber)
  }

  /** The NOT NULL foreign key `client_id` names a stored client. */
  ghost predicate PolicyClientsExist(ps: seq<Policy>, cs: seq<Client>) {
    forall i :: 0 <= i < |ps| ==> ClientExists(cs, ps[i].clientId)
  }

  ghost predicate UsersOk(us: seq<User>, next: int) {
    (forall i :: 0 <= i < |us| ==> us[i].id < next)
    && (forall i, j :: 0 <= i < j < |us| ==>
          us[i].id != us[j].id && us[i].username != us[j].username && us[i].email != us[j].email)
  }

  ghost predicate BranchesOk(bs: seq<Branch>, next: int) {
    (forall i :: 0 <= i < |bs| ==> bs[i].id < next)
    && (forall i, j :: 0 <= i < j < |bs| ==> bs[i].id != bs[j].id && bs[i].code != bs[j].code)
  }

  lemma ClientExistsAppend(cs: seq<Client>, c: Client, id: int)
    requires ClientExists(cs, id)
    ensures ClientExists(cs + [c], id)
  {
    var j :| 0 <= j < |cs| && cs[j].id == id;
    assert (cs + [c])[j].id == id;
  }
}
