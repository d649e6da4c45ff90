/** The client form (`components/forms/ClientForm.tsx`): its initial state, the field
    change handler, `validate` with its e-mail pattern, and the object `handleSubmit`
    hands to `onSubmit`. */
module ClientForm {
  import opened Base
  import opened Text

  /** The `initialData` prop: a stored client as the edit page passes it. */
  datatype InitialClient = InitialClient(
    branchId: int, firstName: string, lastName: string, email: string,
    phone: string, address: string, dateOfBirth: Option<string>)

  /** `formData`. */
  datatype FormData = FormData(
    branchId: int, firstName: string, lastName: string, email: string,
    phone: string, address: string, dateOfBirth: string)

  /** One `handleChange(field, value)` call, from the input that names the field; the
      branch select passes `parseInt` of the chosen branch id. */
  datatype Change =
    | SetBranchId(n: int) | SetFirstName(s: string) | SetLastName(s: string) | SetEmail(s: string)
    | SetPhone(s: string) | SetAddress(s: string) | SetDateOfBirth(s: string)

  /** The keys of `formData`, which are also the keys of `errors`. */
  datatype Key = BranchIdKey | FirstNameKey | LastNameKey | EmailKey | PhoneKey | AddressKey | DateOfBirthKey

  /** The key as written in the object. */
  function Name(k: Key): string {
    match k
    case BranchIdKey => "branch_id"
    case FirstNameKey => "first_name"
    case LastNameKey => "last_name"
    case EmailKey => "email"
    case PhoneKey => "phone"
    case AddressKey => "address"
    case DateOfBirthKey => "date_of_birth"
  }

  /** The keys of `formData` in the order the object literal declares them. */
  const FieldKeys := [BranchIdKey, FirstNameKey, LastNameKey, EmailKey, PhoneKey, AddressKey, DateOfBirthKey]

  /** The keys `validate` checks, in its order. */
  const ErrorKeys := [FirstNameKey, LastNameKey, EmailKey, PhoneKey, AddressKey, BranchIdKey]

  const FirstNameRequired := "First name is required"
  const LastNameRequired := "Last name is required"
  const EmailRequired := "Email is required"
  const EmailInvalid := "Invalid email format"
  const PhoneRequired := "Phone is required"
  const AddressRequired := "Address is required"
  const BranchRequired := "Branch is required"

  /** `useState({...})` of the form: the prop's values, branch 1 when the prop has none
      (or a falsy one), and empty texts otherwise. */
  function InitialForm(initial: Option<InitialClient>): (r: FormData)
    ensures initial.None? ==> r == FormData(1, "", "", "", "", "", "")
    ensures r.branchId != 0
    ensures initial.Some? ==>
              (initial.value.branchId != 0 ==> r.branchId == initial.value.branchId)
              && r.firstName == initial.value.firstName && r.email == initial.value.email
              && (initial.value.dateOfBirth.None? ==> r.dateOfBirth == "")
    ensures initial.Some? ==>
              r.branchId == (if initial.value.branchId != 0 then initial.value.branchId else 1)
              && r.lastName == initial.value.lastName && r.phone == initial.value.phone
              && r.address == initial.value.address
              && (initial.value.dateOfBirth.Some? ==> r.dateOfBirth == initial.value.dateOfBirth.value)
  {
    match initial
    case None => FormData(1, "", "", "", "", "", "")
    case Some(c) =>
      FormData(if c.branchId != 0 then c.branchId else 1, c.firstName, c.lastName, c.email,
               c.phone, c.address, if c.dateOfBirth.Some? then c.dateOfBirth.value else "")
  }

  function KeyOf(c: Change): Key {
    match c
    case SetBranchId(_) => BranchIdKey
    case SetFirstName(_) => FirstNameKey
    case SetLastName(_) => LastNameKey
    case SetEmail(_) => EmailKey
    case SetPhone(_) => PhoneKey
    case SetAddress(_) => AddressKey
    case SetDateOfBirth(_) => DateOfBirthKey
  }

  /** A value of `formData`, as it appears under its key. */
  datatype FieldValue = TextValue(s: string) | IntValue(n: int)

  function NewValue(c: Change): FieldValue {
    if c.SetBranchId? then IntValue(c.n) else TextValue(c.s)
  }

  /** `formData[key]`. */
  function Get(d: FormData, key: Key): FieldValue {
    match key
    case BranchIdKey => IntValue(d.branchId)
    case FirstNameKey => TextValue(d.firstName)
    case LastNameKey => TextValue(d.lastName)
    case EmailKey => TextValue(d.email)
    case PhoneKey => TextValue(d.phone)
    case AddressKey => TextValue(d.address)
    case DateOfBirthKey => TextValue(d.dateOfBirth)
  }

  /** `{ ...prev, [field]: value }`. */
  function Apply(d: FormData, c: Change): FormData {
    match c
    case SetBranchId(n) => d.(branchId := n)
    case SetFirstName(s) => d.(firstName := s)
    case SetLastName(s) => d.(lastName := s)
    case SetEmail(s) => d.(email := s)
    case SetPhone(s) => d.(phone := s)
    case SetAddress(s) => d.(address := s)
    case SetDateOfBirth(s) => d.(dateOfBirth := s)
  }

  // ---- the e-mail pattern ----------------------------------------------------

  /** A character of `[^\s@]`. */
  predicate Plain(c: char) {
    !IsJsSpace(c) && c != '@'
  }

  /** `/^[^\s@]+@[^\s@]+\.[^\s@]+$/.test(s)`: the text splits at an `@` (index `j`)
      and a later `.` (index `i`) into three non-empty runs of `[^\s@]`, namely
      `s[..j]`, `s[j + 1..i]` and `s[i + 1..]`. */
  predicate MatchesEmailPattern(s: string) {
    exists j, i :: 0 < j && j + 1 < i < |s| - 1 && s[j] == '@' && s[i] == '.'
                   && forall k :: 0 <= k < |s| && k != j && k != i ==> Plain(s[k])
  }

  /** The same condition stated on characters: no white space anywhere, exactly one
      `@`, not in first place, and a `.` in the domain that is neither the domain's
      first nor its last character. */
  predicate EmailRule(s: string) {
    (forall k :: 0 <= k < |s| ==> !IsJsSpace(s[k]))
    && exists j :: 0 < j < |s| && s[j] == '@'
                   && (forall k :: 0 <= k < |s| && s[k] == '@' ==> k == j)
                   && exists i :: j + 1 < i < |s| - 1 && s[i] == '.'
  }

  /** The pattern accepts exactly the texts the character rule describes. */
  lemma EmailPatternIff(s: string)
    ensures MatchesEmailPattern(s) <==> EmailRule(s)
  {
    if MatchesEmailPattern(s) {
      PatternGivesRule(s);
    }
    if EmailRule(s) {
      RuleGivesPattern(s);
    }
  }

  lemma PatternGivesRule(s: string)
    requires MatchesEmailPattern(s)
    ensures EmailRule(s)
  {
    var j, i :| 0 < j && j + 1 < i < |s| - 1 && s[j] == '@' && s[i] == '.'
                && forall k :: 0 <= k < |s| && k != j && k != i ==> Plain(s[k]);
    assert !IsJsSpace(s[j]) && !IsJsSpace(s[i]);
    assert forall k :: 0 <= k < |s| && s[k] == '@' ==> k == j;
  }

  lemma RuleGivesPattern(s: string)
    requires EmailRule(s)
    ensures MatchesEmailPattern(s)
  {
    var j :| 0 < j < |s| && s[j] == '@' && (forall k :: 0 <= k < |s| && s[k] == '@' ==> k == j)
             && exists i :: j + 1 < i < |s| - 1 && s[i] == '.';
    var i :| j + 1 < i < |s| - 1 && s[i] == '.';
    assert forall k :: 0 <= k < |s| && k != j && k != i ==> Plain(s[k]);
  }

  /** A text the pattern accepts is never blank, so the "required" test and the
      format test never both fail. */
  lemma PatternNotBlank(s: string)
    requires MatchesEmailPattern(s)
    ensures !IsBlank(s)
  {
    var j, i :| 0 < j && j + 1 < i < |s| - 1 && s[j] == '@' && s[i] == '.'
                && forall k :: 0 <= k < |s| && k != j && k != i ==> Plain(s[k]);
    NotBlankAt(s, j);
  }

  // ---- validate ----------------------------------------------------------------

  /** The outcome of each test `validate` makes on the form. */
  datatype Verdict = Verdict(
    firstMissing: bool, lastMissing: bool, emailMissing: bool, emailMalformed: bool,
    phoneMissing: bool, addressMissing: bool, branchMissing: bool)

  /** The tests: blank after `trim()`; for a present e-mail, the pattern on the text as
      typed (not trimmed); a falsy branch id. */
  function Judge(d: FormData): Verdict {
    Verdict(IsBlank(d.firstName), IsBlank(d.lastName), IsBlank(d.email),
            !IsBlank(d.email) && !MatchesEmailPattern(d.email),
            IsBlank(d.phone), IsBlank(d.address), d.branchId == 0)
  }

  /** The check behind each key of `newErrors`. */
  predicate Fails(key: Key, v: Verdict) {
    match key
    case FirstNameKey => v.firstMissing
    case LastNameKey => v.lastMissing
    case EmailKey => v.emailMissing || v.emailMalformed
    case PhoneKey => v.phoneMissing
    case AddressKey => v.addressMissing
    case BranchIdKey => v.branchMissing
    case DateOfBirthKey => false
  }

  /** The message recorded under each key; a missing e-mail is not also reported as malformed. */
  function Message(key: Key, v: Verdict): string {
    match key
    case FirstNameKey => FirstNameRequired
    case LastNameKey => LastNameRequired
    case EmailKey => if v.emailMissing then EmailRequired else EmailInvalid
    case PhoneKey => PhoneRequired
    case AddressKey => AddressRequired
    case _ => BranchRequired
  }

  /** One message for every failing check. */
  function ErrorsOf(v: Verdict): map<Key, string> {
    map k | k in ErrorKeys && Fails(k, v) :: Message(k, v)
  }

  /** The errors `validate` records for a form. */
  function ClientErrors(d: FormData): map<Key, string> {
    ErrorsOf(Judge(d))
  }

  /** The checks of the first `n` keys of `ErrorKeys` recorded one after the other into
      an empty object. */
  function Collect(n: nat, v: Verdict): map<Key, string>
    requires n <= |ErrorKeys|
  {
    if n == 0 then map[]
    else
      var k := ErrorKeys[n - 1];
      var m := Collect(n - 1, v);
      if Fails(k, v) then m[k := Message(k, v)] else m
  }

  /** Recording the checks one after the other gives one message per failing check. */
  lemma {:induction false} CollectIsErrors(n: nat, v: Verdict)
    requires n <= |ErrorKeys|
    ensures Collect(n, v) == map k | k in ErrorKeys[..n] && Fails(k, v) :: Message(k, v)
  {
    if n > 0 {
      CollectIsErrors(n - 1, v);
      PrefixSnoc(ErrorKeys, n);
      RecordStep(ErrorKeys[..n - 1], ErrorKeys[n - 1], k => Fails(k, v), k => Message(k, v));
    }
  }

  /** All six checks recorded give `ErrorsOf`. */
  lemma CollectAll(v: Verdict)
    ensures Collect(|ErrorKeys|, v) == ErrorsOf(v)
  {
    CollectIsErrors(|ErrorKeys|, v);
    assert ErrorKeys[..|ErrorKeys|] == ErrorKeys;
  }

  /** `if (test) newErrors.key = message` for the `n`-th key of `ErrorKeys`. */
  method Record(newErrors: map<Key, string>, n: nat, v: Verdict) returns (r: map<Key, string>)
    requires n < |ErrorKeys| && newErrors == Collect(n, v)
    ensures r == Collect(n + 1, v)
  {
    var key := ErrorKeys[n];
    r := newErrors;
    if Fails(key, v) {
      r := r[key := Message(key, v)];
    }
  }

  /** The e-mail's `if … else if …`: the format is only tested on a present e-mail. */
  method RecordEmail(newErrors: map<Key, string>, v: Verdict) returns (r: map<Key, string>)
    requires newErrors == Collect(2, v)
    ensures r == Collect(3, v)
  {
    r := newErrors;
    if v.emailMissing {
      r := r[EmailKey := EmailRequired];
    } else if v.emailMalformed {
      r := r[EmailKey := EmailInvalid];
    }
  }

  /** The body of `validate` between `const newErrors = {}` and `setErrors`: one
      assignment per failing test, in the order of the source. */
  method RecordErrors(v: Verdict) returns (newErrors: map<Key, string>)
    ensures newErrors == ErrorsOf(v)
  {
    newErrors := map[];
    newErrors := Record(newErrors, 0, v);  // first name
    newErrors := Record(newErrors, 1, v);  // last name
    newErrors := RecordEmail(newErrors, v);
    newErrors := Record(newErrors, 3, v);  // phone
    newErrors := Record(newErrors, 4, v);  // address
    newErrors := Record(newErrors, 5, v);  // branch
    CollectAll(v);
  }

  predicate Passes(v: Verdict) {
    !v.firstMissing && !v.lastMissing && !v.emailMissing && !v.emailMalformed
    && !v.phoneMissing && !v.addressMissing && !v.branchMissing
  }

  /** The form with every field filled in acceptably. */
  predicate Complete(d: FormData) {
    !IsBlank(d.firstName) && !IsBlank(d.lastName) && EmailRule(d.email)
    && !IsBlank(d.phone) && !IsBlank(d.address) && d.branchId != 0
  }

  // ---- the submitted object ----------------------------------------------------

  /** A value of the object passed to `onSubmit`; `Undefined` is a property set to
      `undefined`, which `JSON.stringify` leaves out of the request body. */
  datatype Json = JText(s: string) | JInt(n: int) | Undefined

  function JsonOf(x: FieldValue): Json {
    if x.IntValue? then JInt(x.n) else JText(x.s)
  }

  /** `submitData`: every field of `formData` under its own key and in its place, the
      branch id as the number it holds, and an empty birth date as `undefined`. */
  function Payload(d: FormData): (r: seq<(string, Json)>)
    ensures |r| == |FieldKeys|
    ensures r[6] == ("date_of_birth", Undefined) <==> d.dateOfBirth == ""
  {
    [("branch_id", JInt(d.branchId)), ("first_name", JText(d.firstName)),
     ("last_name", JText(d.lastName)), ("email", JText(d.email)), ("phone", JText(d.phone)),
     ("address", JText(d.address)),
     ("date_of_birth", if d.dateOfBirth != "" then JText(d.dateOfBirth) else Undefined)]
  }

  class Form {
    var data: FormData
    var errors: map<Key, string>

    constructor(initial: Option<InitialClient>)
      ensures data == InitialForm(initial) && errors == map[]
    {
      data := InitialForm(initial);
      errors := map[];
    }

    /** `handleChange`: the named field takes the value; a shown error of that field is
        blanked, and every other error is left as it was. */
    method HandleChange(c: Change)
      modifies this
      ensures data == Apply(old(data), c)
      ensures errors == if KeyOf(c) in old(errors) && old(errors)[KeyOf(c)] != "" then old(errors)[KeyOf(c) := ""] else old(errors)
    {
      var key := KeyOf(c);
      data := Apply(data, c);
      if key in errors && errors[key] != "" {
        errors := errors[key := ""];
      }
    }

    /** `validate`: the tests are made, `newErrors` is filled from them, becomes the
        shown errors, and the form is valid when it stayed empty. */
    method Validate() returns (ok: bool)
      modifies this`errors
      ensures errors == ClientErrors(data)
      ensures ok <==> errors == map[]
      ensures ok <==> Complete(data)
    {
      var v := Judge(data);
      var newErrors := RecordErrors(v);
      errors := newErrors;
      ok := |newErrors| == 0;
      NoErrorsIff(v);
      PassesIff(data);
    }

    /** `handleSubmit`: an invalid form stops after `validate` and `onSubmit` is not
        called; a valid one calls `onSubmit` once, with the payload returned here. */
    method Submit() returns (sent: Option<seq<(string, Json)>>)
      modifies this`errors
      ensures errors == ClientErrors(data)
      ensures sent.Some? <==> Complete(data)
      ensures sent.Some? ==> sent.value == Payload(data)
    {
      var ok := Validate();
      if !ok {
        return None;
      }
      sent := Some(Payload(data));
    }
  }

  /** No message is recorded exactly when no test fails. */
  lemma NoErrorsIff(v: Verdict)
    ensures ErrorsOf(v) == map[] <==> Passes(v)
  {
    var m := ErrorsOf(v);
    if m == map[] {
      assert FirstNameKey !in m && LastNameKey !in m && EmailKey !in m;
      assert PhoneKey !in m && AddressKey !in m && BranchIdKey !in m;
    }
  }

  /** Every test passes exactly when every field is acceptable. */
  lemma PassesIff(d: FormData)
    ensures Passes(Judge(d)) <==> Complete(d)
  {
    EmailPatternIff(d.email);
    if MatchesEmailPattern(d.email) {
      PatternNotBlank(d.email);
    }
  }

  /** No error is recorded exactly when every field is acceptable. */
  lemma ValidIff(d: FormData)
    ensures ClientErrors(d) == map[] <==> Complete(d)
  {
    NoErrorsIff(Judge(d));
    PassesIff(d);
  }

  /** The e-mail entry of the errors, read off the verdict. */
  lemma EmailEntry(v: Verdict)
    ensures EmailKey in ErrorsOf(v) <==> v.emailMissing || v.emailMalformed
    ensures EmailKey in ErrorsOf(v) ==>
              ErrorsOf(v)[EmailKey] == if v.emailMissing then EmailRequired else EmailInvalid
  {
    assert EmailKey == ErrorKeys[2];
  }

  /** The e-mail is reported as missing exactly when it is blank, and as malformed
      exactly when it is present but breaks the character rule. */
  lemma EmailMessage(d: FormData)
    ensures var m := ClientErrors(d);
            (EmailKey in m && m[EmailKey] == EmailRequired) <==> IsBlank(d.email)
    ensures var m := ClientErrors(d);
            (EmailKey in m && m[EmailKey] == EmailInvalid) <==> !IsBlank(d.email) && !EmailRule(d.email)
  {
    var v := Judge(d);
    assert v.emailMissing == IsBlank(d.email);
    assert v.emailMalformed == (!IsBlank(d.email) && !MatchesEmailPattern(d.email));
    EmailEntry(v);
    EmailPatternIff(d.email);
    assert |EmailRequired| != |EmailInvalid|;
  }

  /** A rule-abiding address typed after a space is not blank, and breaks the rule. */
  lemma PaddedBreaksRule(typed: string)
    requires EmailRule(typed)
    ensures !IsBlank([' '] + typed) && !EmailRule([' '] + typed)
  {
    var e := [' '] + typed;
    var j :| 0 < j < |typed| && typed[j] == '@' && (forall k :: 0 <= k < |typed| && typed[k] == '@' ==> k == j)
             && exists i :: j + 1 < i < |typed| - 1 && typed[i] == '.';
    assert e[j + 1] == '@';
    NotBlankAt(e, j + 1);
    assert IsJsSpace(e[0]);
  }

  /** `validate`'s pattern runs on the text it is given: an address the rule accepts,
      given with a leading space, passes the "required" test but is reported as
      malformed. */
  lemma PaddedEmailRejected(d: FormData, typed: string)
    requires EmailRule(typed) && d.email == [' '] + typed
    ensures var m := ClientErrors(d); EmailKey in m && m[EmailKey] == EmailInvalid
  {
    PaddedBreaksRule(typed);
    EmailPatternIff(d.email);
    var v := Judge(d);
    assert !v.emailMissing && v.emailMalformed;
    EmailEntry(v);
  }

  /** The initial branch is never falsy, so the branch test passes until a change sets it to 0. */
  lemma InitialBranchPasses(initial: Option<InitialClient>)
    ensures BranchIdKey !in ClientErrors(InitialForm(initial))
  {
  }

  /** `handleChange` touches only the named field. */
  lemma ChangeTouchesOneField(d: FormData, c: Change, key: Key)
    ensures Get(Apply(d, c), key) == if key == KeyOf(c) then NewValue(c) else Get(d, key)
  {
  }
}
