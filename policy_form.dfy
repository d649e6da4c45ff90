/** The policy form (`components/forms/PolicyForm.tsx`): its initial state, the field
    change handler, `validate` and the payload `handleSubmit` hands to `onSubmit`.
    `parseFloat` is a parameter of the form, returning a JavaScript number. */
module PolicyForm {
  import opened Base
  import opened Text
  import opened Dates
  import Models
  import Schemas

  /** A JavaScript number, as far as the form's comparison `<= 0` can tell them apart. */
  datatype JsNumber = NaN | PosInf | NegInf | Finite(value: real)

  /** `x <= 0` in JavaScript: false for NaN. */
  predicate AtMostZero(x: JsNumber) {
    x.NegInf? || (x.Finite? && x.value <= 0.0)
  }

  /** The `initialData` prop: a stored policy as the edit page passes it, the premium
      already turned into its `toString()` text. */
  datatype InitialPolicy = InitialPolicy(
    policyNumber: Option<string>, clientId: int, policyType: string, coverage: string,
    premiumText: string, startDate: string, endDate: string, status: Option<string>)

  /** `formData`. */
  datatype FormData = FormData(
    policyNumber: string, clientId: int, policyType: string, coverage: string,
    premium: string, startDate: string, endDate: string, status: string)

  /** One `handleChange(field, value)` call, from the input that names the field. */
  datatype Change =
    | SetPolicyNumber(s: string) | SetClientId(n: int) | SetType(s: string) | SetCoverage(s: string)
    | SetPremium(s: string) | SetStartDate(s: string) | SetEndDate(s: string) | SetStatus(s: string)

  /** The keys of `formData`, which are also the keys of `errors`. */
  datatype Key = PolicyNumberKey | ClientIdKey | TypeKey | CoverageKey | PremiumKey
               | StartDateKey | EndDateKey | StatusKey

  /** The key as written in the object. */
  function Name(k: Key): string {
    match k
    case PolicyNumberKey => "policy_number"
    case ClientIdKey => "client_id"
    case TypeKey => "type"
    case CoverageKey => "coverage"
    case PremiumKey => "premium"
    case StartDateKey => "start_date"
    case EndDateKey => "end_date"
    case StatusKey => "status"
  }

  /** A value of `formData`, as it appears under its key. */
  datatype FieldValue = TextValue(s: string) | IntValue(n: int)

  /** The keys `validate` checks, in its order. */
  const ErrorKeys := [PolicyNumberKey, ClientIdKey, TypeKey, CoverageKey, PremiumKey, StartDateKey, EndDateKey]

  const PolicyNumberRequired := "Policy number is required"
  const ClientRequired := "Client is required"
  const TypeRequired := "Type is required"
  const CoverageRequired := "Coverage is required"
  const PremiumInvalid := "Valid premium amount is required"
  const StartRequired := "Start date is required"
  const EndRequired := "End date is required"
  const EndNotAfterStart := "End date must be after start date"

  /** `(x || '')`, the fallback of an optional string prop. */
  function OrEmpty(x: Option<string>): string {
    if x.Some? then x.value else ""
  }

  /** `useState({...})` of the form: the prop's values with the date part of each date
      (the text before the first `T`), or empty fields, client 0 and status "pending". */
  function InitialForm(initial: Option<InitialPolicy>): (r: FormData)
    ensures initial.None? ==> r == FormData("", 0, "", "", "", "", "", Models.StatusPending)
    ensures initial.Some? ==>
              r.startDate <= initial.value.startDate && 'T' !in r.startDate
              && r.endDate <= initial.value.endDate && 'T' !in r.endDate
    ensures initial.Some? && (initial.value.status.None? || initial.value.status == Some("")) ==> r.status == Models.StatusPending
    ensures initial.Some? ==>
              r.startDate == TakeUntil(initial.value.startDate, 'T')
              && r.endDate == TakeUntil(initial.value.endDate, 'T')
    ensures initial.Some? ==>
              r.policyNumber == OrEmpty(initial.value.policyNumber)
              && r.clientId == initial.value.clientId && r.policyType == initial.value.policyType
              && r.coverage == initial.value.coverage && r.premium == initial.value.premiumText
              && (initial.value.status.Some? && initial.value.status.value != "" ==> r.status == initial.value.status.value)
  {
    match initial
    case None => FormData("", 0, "", "", "", "", "", Models.StatusPending)
    case Some(p) =>
      FormData(OrEmpty(p.policyNumber), p.clientId, p.policyType, p.coverage, p.premiumText,
               TakeUntil(p.startDate, 'T'), TakeUntil(p.endDate, 'T'),
               if p.status.Some? && p.status.value != "" then p.status.value else Models.StatusPending)
  }

  function KeyOf(c: Change): Key {
    match c
    case SetPolicyNumber(_) => PolicyNumberKey
    case SetClientId(_) => ClientIdKey
    case SetType(_) => TypeKey
    case SetCoverage(_) => CoverageKey
    case SetPremium(_) => PremiumKey
    case SetStartDate(_) => StartDateKey
    case SetEndDate(_) => EndDateKey
    case SetStatus(_) => StatusKey
  }

  function NewValue(c: Change): FieldValue {
    if c.SetClientId? then IntValue(c.n) else TextValue(c.s)
  }

  /** `formData[key]`. */
  function Get(d: FormData, key: Key): FieldValue {
    match key
    case PolicyNumberKey => TextValue(d.policyNumber)
    case ClientIdKey => IntValue(d.clientId)
    case TypeKey => TextValue(d.policyType)
    case CoverageKey => TextValue(d.coverage)
    case PremiumKey => TextValue(d.premium)
    case StartDateKey => TextValue(d.startDate)
    case EndDateKey => TextValue(d.endDate)
    case StatusKey => TextValue(d.status)
  }

  /** `{ ...prev, [field]: value }`. */
  function Apply(d: FormData, c: Change): FormData {
    match c
    case SetPolicyNumber(s) => d.(policyNumber := s)
    case SetClientId(n) => d.(clientId := n)
    case SetType(s) => d.(policyType := s)
    case SetCoverage(s) => d.(coverage := s)
    case SetPremium(s) => d.(premium := s)
    case SetStartDate(s) => d.(startDate := s)
    case SetEndDate(s) => d.(endDate := s)
    case SetStatus(s) => d.(status := s)
  }

  /** The outcome of each test `validate` makes on the form. */
  datatype Verdict = Verdict(
    numberMissing: bool, clientMissing: bool, typeMissing: bool, coverageMissing: bool,
    premiumInvalid: bool, startMissing: bool, endMissing: bool, endNotAfterStart: bool)

  /** The tests: blank after `trim()`, a falsy client id, an empty or non-positive premium,
      empty dates, and an end date that does not sort after the start date. */
  function Judge(d: FormData, editing: bool, parse: string -> JsNumber): Verdict {
    Verdict(!editing && IsBlank(d.policyNumber), d.clientId == 0, IsBlank(d.policyType), IsBlank(d.coverage),
            d.premium == "" || AtMostZero(parse(d.premium)), d.startDate == "", d.endDate == "",
            d.startDate != "" && d.endDate != "" && LexLessEq(d.endDate, d.startDate))
  }

  /** The check behind each key of `newErrors`. */
  predicate Fails(key: Key, v: Verdict) {
    match key
    case PolicyNumberKey => v.numberMissing
    case ClientIdKey => v.clientMissing
    case TypeKey => v.typeMissing
    case CoverageKey => v.coverageMissing
    case PremiumKey => v.premiumInvalid
    case StartDateKey => v.startMissing
    case EndDateKey => v.endMissing || v.endNotAfterStart
    case StatusKey => false
  }

  /** The message recorded under each key; for the end date, the ordering message wins. */
  function Message(key: Key, v: Verdict): string {
    match key
    case PolicyNumberKey => PolicyNumberRequired
    case ClientIdKey => ClientRequired
    case TypeKey => TypeRequired
    case CoverageKey => CoverageRequired
    case PremiumKey => PremiumInvalid
    case StartDateKey => StartRequired
    case _ => if v.endNotAfterStart then EndNotAfterStart else EndRequired
  }

  /** One message for every failing check. */
  function ErrorsOf(v: Verdict): map<Key, string> {
    map k | k in ErrorKeys && Fails(k, v) :: Message(k, v)
  }

  /** The errors `validate` records for a form. */
  function PolicyErrors(d: FormData, editing: bool, parse: string -> JsNumber): map<Key, string> {
    ErrorsOf(Judge(d, editing, parse))
  }

  /** The checks of the first `n` keys of `ErrorKeys` recorded one after the other into
      an empty object. */
  function Collect(n: nat, v: Verdict): map<Key, string>
    requires n <= |ErrorKeys|
  {
    if n == 0 then map[]
    else
      var k := ErrorKeys[n - 1];
      var m := Collect(n - 1, v);
      if Fails(k, v) then m[k := Message(k, v)] else m
  }

  /** Recording the checks one after the other gives one message per failing check. */
  lemma {:induction false} CollectIsErrors(n: nat, v: Verdict)
    requires n <= |ErrorKeys|
    ensures Collect(n, v) == map k | k in ErrorKeys[..n] && Fails(k, v) :: Message(k, v)
  {
    if n > 0 {
      CollectIsErrors(n - 1, v);
      PrefixSnoc(ErrorKeys, n);
      RecordStep(ErrorKeys[..n - 1], ErrorKeys[n - 1], k => Fails(k, v), k => Message(k, v));
    }
  }

  /** All seven checks recorded give `ErrorsOf`. */
  lemma CollectAll(v: Verdict)
    ensures Collect(|ErrorKeys|, v) == ErrorsOf(v)
  {
    CollectIsErrors(|ErrorKeys|, v);
    assert ErrorKeys[..|ErrorKeys|] == ErrorKeys;
  }

  predicate Passes(v: Verdict) {
    !v.numberMissing && !v.clientMissing && !v.typeMissing && !v.coverageMissing
    && !v.premiumInvalid && !v.startMissing && !v.endMissing && !v.endNotAfterStart
  }

  /** The form with every field filled in acceptably. */
  predicate Complete(d: FormData, editing: bool, parse: string -> JsNumber) {
    (editing || !IsBlank(d.policyNumber)) && d.clientId != 0 && !IsBlank(d.policyType)
    && !IsBlank(d.coverage) && d.premium != "" && !AtMostZero(parse(d.premium))
    && d.startDate != "" && d.endDate != "" && !LexLessEq(d.endDate, d.startDate)
  }

  /** A JSON value of the submitted object. */
  datatype Json = JText(s: string) | JInt(n: int) | JNumber(x: JsNumber)

  /** `submitData`: the number only when creating, the status only when editing. */
  function Payload(d: FormData, editing: bool, parse: string -> JsNumber): (r: seq<(string, Json)>)
    ensures |r| == 7
    ensures editing <==> r[6] == ("status", JText(d.status))
    ensures !editing <==> r[0] == ("policy_number", JText(d.policyNumber))
  {
    (if editing then [] else [("policy_number", JText(d.policyNumber))])
    + [("client_id", JInt(d.clientId)), ("type", JText(d.policyType)), ("coverage", JText(d.coverage)),
       ("premium", JNumber(parse(d.premium))), ("start_date", JText(d.startDate)), ("end_date", JText(d.endDate))]
    + (if editing then [("status", JText(d.status))] else [])
  }

  /** `if (test) newErrors.key = message` for the `n`-th key of `ErrorKeys`. */
  method Record(newErrors: map<Key, string>, n: nat, v: Verdict) returns (r: map<Key, string>)
    requires n < |ErrorKeys| && newErrors == Collect(n, v)
    ensures r == Collect(n + 1, v)
  {
    var key := ErrorKeys[n];
    r := newErrors;
    if Fails(key, v) {
      r := r[key := Message(key, v)];
    }
  }

  /** The two end-date tests; the ordering message overwrites the "required" one. */
  method RecordEndDate(newErrors: map<Key, string>, v: Verdict) returns (r: map<Key, string>)
    requires newErrors == Collect(6, v)
    ensures r == Collect(7, v)
  {
    r := newErrors;
    if v.endMissing {
      r := r[EndDateKey := EndRequired];
    }
    if v.endNotAfterStart {
      r := r[EndDateKey := EndNotAfterStart];
    }
  }

  /** The body of `validate` between `const newErrors = {}` and `setErrors`: one
      assignment per failing test, in the order of the source. */
  method RecordErrors(v: Verdict) returns (newErrors: map<Key, string>)
    ensures newErrors == ErrorsOf(v)
  {
    newErrors := map[];
    newErrors := Record(newErrors, 0, v);  // policy number, when creating
    newErrors := Record(newErrors, 1, v);  // client
    newErrors := Record(newErrors, 2, v);  // type
    newErrors := Record(newErrors, 3, v);  // coverage
    newErrors := Record(newErrors, 4, v);  // premium
    newErrors := Record(newErrors, 5, v);  // start date
    newErrors := RecordEndDate(newErrors, v);
    CollectAll(v);
  }

  class Form {
    /** `initialData` was given: the form edits a stored policy. */
    const editing: bool
    const parseFloat: string -> JsNumber
    var data: FormData
    var errors: map<Key, string>

    constructor(initial: Option<InitialPolicy>, parseFloat: string -> JsNumber)
      ensures editing == initial.Some? && this.parseFloat == parseFloat
      ensures data == InitialForm(initial) && errors == map[]
    {
      editing := initial.Some?;
      this.parseFloat := parseFloat;
      data := InitialForm(initial);
      errors := map[];
    }

    /** `handleChange`: the named field takes the value; a shown error of that field is
        blanked, and every other error is left as it was. */
    method HandleChange(c: Change)
      modifies this
      ensures data == Apply(old(data), c)
      ensures errors == if KeyOf(c) in old(errors) && old(errors)[KeyOf(c)] != "" then old(errors)[KeyOf(c) := ""] else old(errors)
    {
      var key := KeyOf(c);
      data := Apply(data, c);
      if key in errors && errors[key] != "" {
        errors := errors[key := ""];
      }
    }

    /** `validate`: the tests are made, `newErrors` is filled from them, becomes the
        shown errors, and the form is valid when it stayed empty. */
    method Validate() returns (ok: bool)
      modifies this`errors
      ensures errors == PolicyErrors(data, editing, parseFloat)
      ensures ok <==> errors == map[]
      ensures ok <==> Complete(data, editing, parseFloat)
    {
      var v := Judge(data, editing, parseFloat);
      var newErrors := RecordErrors(v);
      errors := newErrors;
      ok := |newErrors| == 0;
      NoErrorsIff(v);
    }

    /** `handleSubmit`: an invalid form stops after `validate` and `onSubmit` is not
        called; a valid one calls `onSubmit` once, with the payload returned here. */
    method Submit() returns (sent: Option<seq<(string, Json)>>)
      modifies this`errors
      ensures errors == PolicyErrors(data, editing, parseFloat)
      ensures sent.Some? <==> Complete(data, editing, parseFloat)
      ensures sent.Some? ==> sent.value == Payload(data, editing, parseFloat)
    {
      var ok := Validate();
      if !ok {
        return None;
      }
      sent := Some(Payload(data, editing, parseFloat));
    }
  }

  /** No error is recorded exactly when every field is acceptable. */
  lemma ValidIff(d: FormData, editing: bool, parse: string -> JsNumber)
    ensures PolicyErrors(d, editing, parse) == map[] <==> Complete(d, editing, parse)
  {
    NoErrorsIff(Judge(d, editing, parse));
  }

  /** No message is recorded exactly when no test fails. */
  lemma NoErrorsIff(v: Verdict)
    ensures ErrorsOf(v) == map[] <==> Passes(v)
  {
    var m := ErrorsOf(v);
    if m == map[] {
      assert PolicyNumberKey !in m && ClientIdKey !in m && TypeKey !in m && CoverageKey !in m;
      assert PremiumKey !in m && StartDateKey !in m && EndDateKey !in m;
    }
  }

  /** The entry of the errors under one key, read off the verdict. */
  lemma EntryOf(v: Verdict, k: Key)
    requires k != StatusKey
    ensures k in ErrorsOf(v) <==> Fails(k, v)
    ensures k in ErrorsOf(v) ==> ErrorsOf(v)[k] == Message(k, v)
  {
    assert k in ErrorKeys by {
      assert ErrorKeys[0] == PolicyNumberKey && ErrorKeys[1] == ClientIdKey && ErrorKeys[2] == TypeKey;
      assert ErrorKeys[3] == CoverageKey && ErrorKeys[4] == PremiumKey;
      assert ErrorKeys[5] == StartDateKey && ErrorKeys[6] == EndDateKey;
    }
  }

  /** An end date that is not after the start date is reported as such even though it
      is present; an empty one is reported as missing. */
  lemma EndDateMessage(d: FormData, editing: bool, parse: string -> JsNumber)
    ensures var m := PolicyErrors(d, editing, parse);
            (EndDateKey in m && m[EndDateKey] == EndNotAfterStart)
              <==> d.startDate != "" && d.endDate != "" && LexLessEq(d.endDate, d.startDate)
    ensures var m := PolicyErrors(d, editing, parse);
            (EndDateKey in m && m[EndDateKey] == EndRequired) <==> d.endDate == ""
  {
    var v := Judge(d, editing, parse);
    assert v.endMissing == (d.endDate == "");
    assert v.endNotAfterStart == (d.startDate != "" && d.endDate != "" && LexLessEq(d.endDate, d.startDate));
    EndDateEntry(v);
  }

  /** The end-date entry on the verdict: the ordering message exactly when the order test
      fails, the "required" message exactly when only the presence test does. */
  lemma EndDateEntry(v: Verdict)
    ensures (EndDateKey in ErrorsOf(v) && ErrorsOf(v)[EndDateKey] == EndNotAfterStart) <==> v.endNotAfterStart
    ensures (EndDateKey in ErrorsOf(v) && ErrorsOf(v)[EndDateKey] == EndRequired)
              <==> v.endMissing && !v.endNotAfterStart
  {
    EntryOf(v, EndDateKey);
    assert |EndNotAfterStart| != |EndRequired|;
  }

  /** A text `parseFloat` reads as NaN passes the premium check. */
  lemma NaNPremiumPasses(d: FormData, editing: bool, parse: string -> JsNumber)
    requires d.premium != "" && parse(d.premium) == NaN
    ensures PremiumKey !in PolicyErrors(d, editing, parse)
  {
    EntryOf(Judge(d, editing, parse), PremiumKey);
  }

  /** With the `YYYY-MM-DD` texts of two calendar dates in the date fields, the form
      reports the end date exactly when the backend's validator rejects the pair. */
  lemma {:induction false} SameDateRuleAsBackend(d: FormData, editing: bool, parse: string -> JsNumber,
                                                 x: Schemas.PolicyInput)
    requires d.startDate == IsoDate(x.startDate) && d.endDate == IsoDate(x.endDate)
    ensures EndDateKey in PolicyErrors(d, editing, parse) <==> Schemas.ValidatePolicyCreate(x).Err?
  {
    IsoDateNotAfter(x.endDate, x.startDate);
    EntryOf(Judge(d, editing, parse), EndDateKey);
  }

  /** How a stored calendar date `d` can reach the form: the `YYYY-MM-DD` text a `date`
      column serialises to, or a date-time text on that day. */
  ghost predicate SentAs(text: string, d: Date) {
    text == IsoDate(d) || exists t: DateTime :: t.date == d && text == IsoDateTime(t)
  }

  /** Editing a stored policy: the texts the backend sends for its dates cut back to the
      stored dates, which the CHECK constraint keeps ordered, so no date error is shown
      until a date is changed. */
  lemma {:induction false} StoredDatesPass(p: Models.Policy, rest: InitialPolicy, parse: string -> JsNumber)
    requires Models.PolicyChecksHold(p)
    requires SentAs(rest.startDate, p.startDate) && SentAs(rest.endDate, p.endDate)
    ensures var d := InitialForm(Some(rest));
            d.startDate == IsoDate(p.startDate) && d.endDate == IsoDate(p.endDate)
            && StartDateKey !in PolicyErrors(d, true, parse) && EndDateKey !in PolicyErrors(d, true, parse)
  {
    var d := InitialForm(Some(rest));
    StoredDatesCut(p.startDate, p.endDate, rest);
    IsoDateNotAfter(p.endDate, p.startDate);
    var v := Judge(d, true, parse);
    assert !v.startMissing && !v.endMissing && !v.endNotAfterStart by {
      assert IsoDate(p.startDate) != "" && IsoDate(p.endDate) != "";
    }
    EntryOf(v, StartDateKey);
    EntryOf(v, EndDateKey);
  }

  /** The date fields of the edit form are the stored calendar dates, whichever of the two
      forms they were sent in. */
  lemma StoredDatesCut(sd: Date, ed: Date, rest: InitialPolicy)
    requires SentAs(rest.startDate, sd) && SentAs(rest.endDate, ed)
    ensures InitialForm(Some(rest)).startDate == IsoDate(sd)
    ensures InitialForm(Some(rest)).endDate == IsoDate(ed)
  {
    SentAsCut(rest.startDate, sd);
    SentAsCut(rest.endDate, ed);
  }

  /** `split('T')[0]` of either form is the `YYYY-MM-DD` text of the date. */
  lemma SentAsCut(text: string, d: Date)
    requires SentAs(text, d)
    ensures TakeUntil(text, 'T') == IsoDate(d)
  {
    if text == IsoDate(d) {
      IsoDateCut(Moment(d, 0, 0, 0, 0));
    } else {
      var t: DateTime :| t.date == d && text == IsoDateTime(t);
      IsoDateCut(t);
    }
  }

  /** `handleChange` touches only the named field. */
  lemma ChangeTouchesOneField(d: FormData, c: Change, key: Key)
    ensures Get(Apply(d, c), key) == if key == KeyOf(c) then NewValue(c) else Get(d, key)
  {
  }
}
