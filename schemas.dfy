/** The request bodies: `ClientCreate`/`ClientUpdate` and `PolicyCreate`/`PolicyUpdate`
    with their date-order validators, the partial-update dictionaries
    `model_dump(exclude_unset=True)` produces, and the dictionaries the services
    hand to the audit log. */
module Schemas {
  import opened Base
  import opened Dates
  import opened Audit
  import opened Models

  /** An optional pydantic field: left out of the body, sent as null, or sent with a value. */
  datatype Field<T> = Unset | SetNull | SetTo(value: T)

  /** The value a field assigns: None for an explicit null. */
  function Assigned<T>(f: Field<T>): Option<T>
    requires !f.Unset?
  {
    if f.SetTo? then Some(f.value) else None
  }

  /** What `dict.get(key, current)` gives on the exclude-unset dump. */
  function FieldOr<T>(f: Field<T>, current: Option<T>): (r: Option<T>)
    ensures f.Unset? ==> r == current
    ensures f.SetNull? ==> r == None
    ensures f.SetTo? ==> r == Some(f.value)
  {
    if f.Unset? then current else Assigned(f)
  }

  function IntValue(o: Option<int>): Value { if o.Some? then Int(o.value) else Null }
  function StrValue(o: Option<string>): Value { if o.Some? then Str(o.value) else Null }
  function DateValue(o: Option<Date>): Value { if o.Some? then DateV(o.value) else Null }
  /** A premium in cents as the Decimal pydantic parsed. */
  function PremiumValue(o: Option<int>): Value { if o.Some? then DecimalV(o.value, 2) else Null }

  // ---- clients ---------------------------------------------------------------

  datatype ClientCreate = ClientCreate(
    branchId: int, firstName: string, lastName: string, email: string,
    phone: string, address: string, dateOfBirth: Option<Date>)

  datatype ClientUpdate = ClientUpdate(
    branchId: Field<int>, firstName: Field<string>, lastName: Field<string>, email: Field<string>,
    phone: Field<string>, address: Field<string>, dateOfBirth: Field<Date>)

  /** One `(field, value)` item of a client update dictionary. */
  datatype ClientAssign =
    | AssignBranchId(branchId: Option<int>)
    | AssignFirstName(firstName: Option<string>)
    | AssignLastName(lastName: Option<string>)
    | AssignEmail(email: Option<string>)
    | AssignPhone(phone: Option<string>)
    | AssignAddress(address: Option<string>)
    | AssignDateOfBirth(dateOfBirth: Option<Date>)

  /** `client_data.model_dump(exclude_unset=True)`: the supplied fields, in declaration order. */
  function ClientUpdateData(u: ClientUpdate): (r: seq<ClientAssign>)
    ensures |r| <= 7
  {
    (if u.branchId.Unset? then [] else [AssignBranchId(Assigned(u.branchId))])
    + (if u.firstName.Unset? then [] else [AssignFirstName(Assigned(u.firstName))])
    + (if u.lastName.Unset? then [] else [AssignLastName(Assigned(u.lastName))])
    + (if u.email.Unset? then [] else [AssignEmail(Assigned(u.email))])
    + (if u.phone.Unset? then [] else [AssignPhone(Assigned(u.phone))])
    + (if u.address.Unset? then [] else [AssignAddress(Assigned(u.address))])
    + (if u.dateOfBirth.Unset? then [] else [AssignDateOfBirth(Assigned(u.dateOfBirth))])
  }

  function ClientAssignEntry(a: ClientAssign): Entry {
    match a
    case AssignBranchId(b) => Entry("branch_id", IntValue(b))
    case AssignFirstName(s) => Entry("first_name", StrValue(s))
    case AssignLastName(s) => Entry("last_name", StrValue(s))
    case AssignEmail(s) => Entry("email", StrValue(s))
    case AssignPhone(s) => Entry("phone", StrValue(s))
    case AssignAddress(s) => Entry("address", StrValue(s))
    case AssignDateOfBirth(d) => Entry("date_of_birth", DateValue(d))
  }

  /** The update dictionary as the audit log receives it. */
  function ClientUpdateEntries(u: ClientUpdate): (r: seq<Entry>)
    ensures |r| == |ClientUpdateData(u)|
    ensures forall i :: 0 <= i < |r| ==> r[i] == ClientAssignEntry(ClientUpdateData(u)[i])
  {
    var data := ClientUpdateData(u);
    seq(|data|, i requires 0 <= i < |data| => ClientAssignEntry(data[i]))
  }

  /** `client_data.model_dump()`. */
  function ClientCreateEntries(c: ClientCreate): seq<Entry> {
    [Entry("branch_id", Int(c.branchId)), Entry("first_name", Str(c.firstName)),
     Entry("last_name", Str(c.lastName)), Entry("email", Str(c.email)),
     Entry("phone", Str(c.phone)), Entry("address", Str(c.address)),
     Entry("date_of_birth", DateValue(c.dateOfBirth))]
  }

  /** The seven `old_values` of a client, with the birth date already in ISO form. */
  function ClientOldEntries(c: Client): seq<Entry> {
    [Entry("branch_id", Int(c.branchId)), Entry("first_name", Str(c.firstName)),
     Entry("last_name", Str(c.lastName)), Entry("email", Str(c.email)),
     Entry("phone", Str(c.phone)), Entry("address", Str(c.address)),
     Entry("date_of_birth", if c.dateOfBirth.Some? then Str(IsoDate(c.dateOfBirth.value)) else Null)]
  }

  // ---- policies --------------------------------------------------------------

  /** A policy body as parsed, before `PolicyBase`'s validator runs. */
  datatype PolicyInput = PolicyInput(
    policyNumber: string, clientId: int, policyType: string, coverage: string,
    premium: int, startDate: Date, endDate: Date)

  /** A `PolicyCreate` that passed the validator: the end date is after the start date. */
  type PolicyCreate = p: PolicyInput | Before(p.startDate, p.endDate)
    witness PolicyInput("", 0, "", "", 1, CalendarDate(2000, 1, 1), CalendarDate(2000, 1, 2))

  const ValidationError := HttpError(Unprocessable, "end_date must be after start_date")

  /** `PolicyBase.end_date_must_be_after_start_date`. */
  function ValidatePolicyCreate(x: PolicyInput): (r: Result<PolicyCreate>)
    ensures r.Ok? <==> Before(x.startDate, x.endDate)
    ensures r.Ok? ==> r.value == x
    ensures r.Err? ==> r.error == ValidationError
  {
    if !Before(x.startDate, x.endDate) then Err(ValidationError) else var p: PolicyCreate := x; Ok(p)
  }

  /** A policy update body as parsed; it has no field for the number or the client. */
  datatype PolicyUpdateInput = PolicyUpdateInput(
    policyType: Field<string>, coverage: Field<string>, premium: Field<int>,
    startDate: Field<Date>, endDate: Field<Date>, status: Field<string>)

  /** The update's dates are ordered, when both are supplied with a value. */
  predicate UpdateDatesOk(u: PolicyUpdateInput) {
    !(u.startDate.SetTo? && u.endDate.SetTo?) || Before(u.startDate.value, u.endDate.value)
  }

  type PolicyUpdate = u: PolicyUpdateInput | UpdateDatesOk(u)
    witness PolicyUpdateInput(Unset, Unset, Unset, Unset, Unset, Unset)

  /** `PolicyUpdate.end_date_must_be_after_start_date`. */
  function ValidatePolicyUpdate(x: PolicyUpdateInput): (r: Result<PolicyUpdate>)
    ensures r.Ok? <==> !(x.startDate.SetTo? && x.endDate.SetTo?) || Before(x.startDate.value, x.endDate.value)
    ensures r.Ok? ==> r.value == x
    ensures r.Err? ==> r.error == ValidationError
  {
    if x.startDate.SetTo? && x.endDate.SetTo? && !Before(x.startDate.value, x.endDate.value)
    then Err(ValidationError) else var v: PolicyUpdate := x; Ok(v)
  }

  /** Equal dates are rejected on create; an update that supplies only one date, or
      nothing at all, is never rejected by the validator. */
  lemma ValidatorEdges(x: PolicyInput, u: PolicyUpdateInput)
    ensures x.startDate == x.endDate ==> ValidatePolicyCreate(x).Err?
    ensures !u.startDate.SetTo? || !u.endDate.SetTo? ==> ValidatePolicyUpdate(u).Ok?
    ensures ValidatePolicyUpdate(PolicyUpdateInput(Unset, Unset, Unset, Unset, Unset, Unset)).Ok?
  {
  }

  /** `PolicyResponse.model_validate(policy)`: the response model re-runs `PolicyBase`'s validator. */
  function PolicyResponseOf(p: Policy): (r: Result<Policy>)
    ensures r.Ok? <==> Before(p.startDate, p.endDate)
  {
    if !Before(p.startDate, p.endDate) then Err(HttpError(ServerError, "Internal Server Error")) else Ok(p)
  }

  /** One `(field, value)` item of a policy update dictionary. */
  datatype PolicyAssign =
    | AssignType(policyType: Option<string>)
    | AssignCoverage(coverage: Option<string>)
    | AssignPremium(premium: Option<int>)
    | AssignStartDate(startDate: Option<Date>)
    | AssignEndDate(endDate: Option<Date>)
    | AssignStatus(status: Option<string>)

  /** `policy_data.model_dump(exclude_unset=True)`. */
  function PolicyUpdateData(u: PolicyUpdate): (r: seq<PolicyAssign>)
    ensures |r| <= 6
  {
    (if u.policyType.Unset? then [] else [AssignType(Assigned(u.policyType))])
    + (if u.coverage.Unset? then [] else [AssignCoverage(Assigned(u.coverage))])
    + (if u.premium.Unset? then [] else [AssignPremium(Assigned(u.premium))])
    + (if u.startDate.Unset? then [] else [AssignStartDate(Assigned(u.startDate))])
    + (if u.endDate.Unset? then [] else [AssignEndDate(Assigned(u.endDate))])
    + (if u.status.Unset? then [] else [AssignStatus(Assigned(u.status))])
  }

  function PolicyAssignEntry(a: PolicyAssign): Entry {
    match a
    case AssignType(s) => Entry("type", StrValue(s))
    case AssignCoverage(s) => Entry("coverage", StrValue(s))
    case AssignPremium(p) => Entry("premium", PremiumValue(p))
    case AssignStartDate(d) => Entry("start_date", DateValue(d))
    case AssignEndDate(d) => Entry("end_date", DateValue(d))
    case AssignStatus(s) => Entry("status", StrValue(s))
  }

  function PolicyUpdateEntries(u: PolicyUpdate): (r: seq<Entry>)
    ensures |r| == |PolicyUpdateData(u)|
    ensures forall i :: 0 <= i < |r| ==> r[i] == PolicyAssignEntry(PolicyUpdateData(u)[i])
  {
    var data := PolicyUpdateData(u);
    seq(|data|, i requires 0 <= i < |data| => PolicyAssignEntry(data[i]))
  }

  /** `policy_dict` of `create_policy`: the dump of the body, then `branch_id` and `status`. */
  function PolicyCreateEntries(p: PolicyCreate, branchId: int, status: string): seq<Entry> {
    [Entry("policy_number", Str(p.policyNumber)), Entry("client_id", Int(p.clientId)),
     Entry("type", Str(p.policyType)), Entry("coverage", Str(p.coverage)),
     Entry("premium", DecimalV(p.premium, 2)), Entry("start_date", DateV(p.startDate)),
     Entry("end_date", DateV(p.endDate)), Entry("branch_id", Int(branchId)),
     Entry("status", Str(status))]
  }

  /** The eight `old_values` of a policy: premium as its decimal text, dates in ISO form. */
  function PolicyOldEntries(p: Policy): seq<Entry> {
    [Entry("policy_number", Str(p.policyNumber)), Entry("client_id", Int(p.clientId)),
     Entry("type", Str(p.policyType)), Entry("coverage", Str(p.coverage)),
     Entry("premium", Str(if p.premium >= 0 then PremiumText(p.premium) else "-" + PremiumText(-p.premium))),
     Entry("start_date", Str(IsoDate(p.startDate))), Entry("end_date", Str(IsoDate(p.endDate))),
     Entry("status", Str(p.status))]
  }
}
