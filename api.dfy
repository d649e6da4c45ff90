/** The frontend's HTTP client (`lib/api.ts`): the headers `apiRequest` sends, how it
    turns a response into a parsed body, `null`, or a thrown error, and the query
    strings the three `getAll` builders put on their endpoints. */
module Api {
  import opened Base
  import opened Text

  // ---- headers -----------------------------------------------------------------

  datatype Header = Header(name: string, value: string)

  /** The value stored under `name` in a header object. */
  function Lookup(hs: seq<Header>, name: string): Option<string> {
    if hs == [] then None
    else if hs[0].name == name then Some(hs[0].value)
    else Lookup(hs[1..], name)
  }

  /** A plain object has each key once. */
  predicate UniqueNames(hs: seq<Header>) {
    forall i, j :: 0 <= i < j < |hs| ==> hs[i].name != hs[j].name
  }

  /** Assigning one property: an existing key keeps its place and takes the new value. */
  function Put(hs: seq<Header>, h: Header): (r: seq<Header>)
    ensures forall n :: Lookup(r, n) == if n == h.name then Some(h.value) else Lookup(hs, n)
  {
    if hs == [] then [h]
    else if hs[0].name == h.name then [h] + hs[1..]
    else [hs[0]] + Put(hs[1..], h)
  }

  /** Object spread `{ ...base, ...over }`. */
  function Spread(base: seq<Header>, over: seq<Header>): seq<Header>
    decreases |over|
  {
    if over == [] then base else Spread(Put(base, over[0]), over[1..])
  }

  /** A property of `over` wins over the same property of `base`; the others come from `base`. */
  lemma {:induction false} SpreadLookup(base: seq<Header>, over: seq<Header>, n: string)
    requires UniqueNames(over)
    ensures Lookup(Spread(base, over), n) == if Lookup(over, n).Some? then Lookup(over, n) else Lookup(base, n)
    decreases |over|
  {
    if over != [] {
      var rest := over[1..];
      assert UniqueNames(rest) by {
        forall i, j | 0 <= i < j < |rest| ensures rest[i].name != rest[j].name {
          assert rest[i] == over[i + 1] && rest[j] == over[j + 1];
        }
      }
      SpreadLookup(Put(base, over[0]), rest, n);
      if n == over[0].name {
        assert Lookup(rest, n).None? by {
          forall j | 0 <= j < |rest| ensures rest[j].name != n {
            assert rest[j] == over[j + 1];
          }
          LookupAbsent(rest, n);
        }
      }
    }
  }

  lemma LookupAbsent(hs: seq<Header>, n: string)
    requires forall j :: 0 <= j < |hs| ==> hs[j].name != n
    ensures Lookup(hs, n).None?
  {
    if hs != [] {
      assert forall j :: 0 <= j < |hs[1..]| ==> hs[1..][j].name != n by {
        forall j | 0 <= j < |hs[1..]| ensures hs[1..][j].name != n {
          assert hs[1..][j] == hs[j + 1];
        }
      }
      LookupAbsent(hs[1..], n);
    }
  }

  const ContentType := "Content-Type"
  const JsonType := "application/json"

  /** The headers `apiRequest` sends: JSON content type unless the body is form data,
      then the caller's headers on top. */
  function RequestHeaders(isFormData: bool, caller: seq<Header>): seq<Header> {
    Spread(if isFormData then [] else [Header(ContentType, JsonType)], caller)
  }

  /** The content type is the caller's when given, else JSON unless the body is form data;
      every other header is exactly the caller's. */
  lemma RequestHeadersRule(isFormData: bool, caller: seq<Header>, n: string)
    requires UniqueNames(caller)
    ensures n == ContentType ==>
              Lookup(RequestHeaders(isFormData, caller), n)
              == if Lookup(caller, n).Some? then Lookup(caller, n)
                 else if isFormData then None else Some(JsonType)
    ensures n != ContentType ==> Lookup(RequestHeaders(isFormData, caller), n) == Lookup(caller, n)
  {
    SpreadLookup(if isFormData then [] else [Header(ContentType, JsonType)], caller, n);
  }

  // ---- responses ---------------------------------------------------------------

  /** `response.ok`. */
  predicate IsOk(status: int) { 200 <= status <= 299 }

  /** What an `apiRequest` promise settles to: a parsed body or `null`, or a thrown `Error`. */
  datatype Outcome<J> = Resolved(value: Option<J>) | Thrown(message: string)

  const UnknownError := "An error occurred"
  const StatusPrefix := "HTTP error! status: "

  /** The message of the error thrown on a non-OK response. `parse` is `JSON.parse` (None when
      it throws) and `detail` gives the text of a truthy `detail` property, or "" when there is none. */
  function ErrorMessage<J>(status: nat, body: string, parse: string -> Option<J>, detail: J -> string): (r: string)
    ensures r != ""
    ensures parse(body).None? ==> r == UnknownError
    ensures parse(body).Some? && detail(parse(body).value) != "" ==> r == detail(parse(body).value)
    ensures parse(body).Some? && detail(parse(body).value) == "" ==> r == StatusPrefix + NatToString(status)
  {
    match parse(body)
    case None => UnknownError
    case Some(j) => if detail(j) != "" then detail(j) else StatusPrefix + NatToString(status)
  }

  /** The response classification of `apiRequest`. */
  function Classify<J>(status: nat, body: string, parse: string -> Option<J>, detail: J -> string): (r: Outcome<J>)
    ensures r.Thrown? <==> !IsOk(status)
    ensures r.Thrown? ==> r.message == ErrorMessage(status, body, parse, detail)
  {
    if !IsOk(status) then Thrown(ErrorMessage(status, body, parse, detail))
    else if status == 204 then Resolved(None)
    else if IsBlank(body) then Resolved(None)
    else Resolved(parse(body))
  }

  /** An OK response resolves to `null` exactly for 204, a body that is empty or only white
      space, and a body that is not JSON; otherwise to the parsed body. */
  lemma ClassifyOk<J>(status: nat, body: string, parse: string -> Option<J>, detail: J -> string)
    requires IsOk(status)
    ensures Classify(status, body, parse, detail) == Resolved(None)
            <==> status == 204 || AllSpace(body) || parse(body).None?
    ensures Classify(status, body, parse, detail).Resolved?
    ensures Classify(status, body, parse, detail).value.Some? ==>
              status != 204 && !AllSpace(body) && Classify(status, body, parse, detail).value == parse(body)
  {
    BlankIff(body);
  }

  /** When the error body has no detail, the status can be read back from the message. */
  lemma FallbackNamesStatus<J>(status: nat, body: string, parse: string -> Option<J>, detail: J -> string)
    requires parse(body).Some? && detail(parse(body).value) == ""
    ensures var m := ErrorMessage(status, body, parse, detail);
            StatusPrefix <= m && ParseNat(m[|StatusPrefix|..]) == Some(status)
  {
    var m := ErrorMessage(status, body, parse, detail);
    assert m[|StatusPrefix|..] == NatToString(status);
    ParseNatToString(status);
  }

  /** The browser globals the frontend writes: the location and `localStorage`. */
  class Window {
    var location: string
    var storage: map<string, string>

    constructor(location: string, storage: map<string, string>)
      ensures this.location == location && this.storage == storage
    {
      this.location := location;
      this.storage := storage;
    }
  }

  const LoginPath := "/login"

  /** `apiRequest` once the response has arrived: a 401 sends the browser to the login page
      and still throws. */
  method Receive<J>(w: Window, status: nat, body: string, parse: string -> Option<J>, detail: J -> string)
    returns (r: Outcome<J>)
    modifies w`location
    ensures r == Classify(status, body, parse, detail)
    ensures w.location == if status == 401 then LoginPath else old(w.location)
  {
    r := Classify(status, body, parse, detail);
    if !IsOk(status) && status == 401 {
      w.location := LoginPath;
    }
  }

  // ---- query strings -------------------------------------------------------------

  datatype Param = Param(key: string, value: string)

  /** `Number.prototype.toString` on an integer. */
  function IntText(n: int): string {
    if n < 0 then "-" + NatToString(-n) else NatToString(n)
  }

  /** `URLSearchParams.toString()`: `key=value` pairs joined by `&`. */
  function Serialize(ps: seq<Param>): (r: string)
    ensures ps == [] <==> r == []
    ensures ps != [] ==> ps[0].key + "=" <= r
  {
    if ps == [] then ""
    else if |ps| == 1 then ps[0].key + "=" + ps[0].value
    else ps[0].key + "=" + ps[0].value + "&" + Serialize(ps[1..])
  }

  /** The endpoint with `?query` appended when the query is not empty. */
  function WithQuery(path: string, query: string): string {
    path + if query != "" then "?" + query else ""
  }

  /** A `URLSearchParams` buffer. */
  class SearchParams {
    var entries: seq<Param>

    constructor()
      ensures entries == []
    {
      entries := [];
    }

    method Append(key: string, value: string)
      modifies this
      ensures entries == old(entries) + [Param(key, value)]
    {
      entries := entries + [Param(key, value)];
    }

    function ToString(): string
      reads this
    {
      Serialize(entries)
    }
  }

  function Keys(ps: seq<Param>): (r: seq<string>)
    ensures |r| == |ps| && forall i :: 0 <= i < |ps| ==> r[i] == ps[i].key
  {
    seq(|ps|, i requires 0 <= i < |ps| => ps[i].key)
  }

  /** The value sent under `key`, if any. */
  function ValueOf(ps: seq<Param>, key: string): Option<string> {
    if ps == [] then None
    else if ps[0].key == key then Some(ps[0].value)
    else ValueOf(ps[1..], key)
  }

  lemma KeysAppend(a: seq<Param>, b: seq<Param>)
    ensures Keys(a + b) == Keys(a) + Keys(b)
  {
  }

  /** Over parts sent one after another, a key's value is its value in the first part
      that holds it. */
  lemma ValueOfFour(a: seq<Param>, b: seq<Param>, c: seq<Param>, d: seq<Param>, key: string)
    ensures ValueOf(a + b + c + d, key)
            == if ValueOf(a, key).Some? then ValueOf(a, key)
               else if ValueOf(b, key).Some? then ValueOf(b, key)
               else if ValueOf(c, key).Some? then ValueOf(c, key)
               else ValueOf(d, key)
  {
    ValueOfAppend(a, b, key);
    ValueOfAppend(a + b, c, key);
    ValueOfAppend(a + b + c, d, key);
  }

  lemma ValueOfFive(a: seq<Param>, b: seq<Param>, c: seq<Param>, d: seq<Param>, e: seq<Param>, key: string)
    ensures ValueOf(a + b + c + d + e, key)
            == if ValueOf(a + b + c + d, key).Some? then ValueOf(a + b + c + d, key) else ValueOf(e, key)
  {
    ValueOfAppend(a + b + c + d, e, key);
  }

  lemma {:induction false} ValueOfAppend(a: seq<Param>, b: seq<Param>, key: string)
    ensures ValueOf(a + b, key) == if ValueOf(a, key).Some? then ValueOf(a, key) else ValueOf(b, key)
  {
    if a != [] {
      assert (a + b)[0] == a[0] && (a + b)[1..] == a[1..] + b;
      ValueOfAppend(a[1..], b, key);
    } else {
      assert a + b == b;
    }
  }

  /** A parameter appended whenever its value is defined (`!== undefined`). */
  function DefinedInt(key: string, v: Option<int>): (r: seq<Param>)
    ensures |r| <= 1 && (r != [] <==> v.Some?) && (r != [] ==> r[0].key == key)
  {
    if v.Some? then [Param(key, IntText(v.value))] else []
  }

  /** A numeric parameter appended only when truthy. */
  function TruthyInt(key: string, v: Option<int>): (r: seq<Param>)
    ensures |r| <= 1 && (r != [] <==> TruthyId(v)) && (r != [] ==> r[0].key == key)
  {
    if TruthyId(v) then [Param(key, IntText(v.value))] else []
  }

  /** A text parameter appended only when truthy. */
  function TruthyText(key: string, v: Option<string>): (r: seq<Param>)
    ensures |r| <= 1 && (r != [] <==> Truthy(v)) && (r != [] ==> r[0].key == key)
  {
    if Truthy(v) then [Param(key, v.value)] else []
  }

  /** Appending one optional parameter extends the filtered key list by its key. */
  lemma KeysStep(prefix: seq<Param>, ks: seq<string>, part: seq<Param>, x: string, f: string -> bool)
    requires Keys(prefix) == Filter(ks, f)
    requires |part| <= 1 && (part != [] <==> f(x)) && (part != [] ==> part[0].key == x)
    ensures Keys(prefix + part) == Filter(ks + [x], f)
  {
    KeysAppend(prefix, part);
    FilterAppend(ks, [x], f);
    assert Keys(part) == if f(x) then [x] else [];
    assert Filter([x], f) == if f(x) then [x] else [];
  }

  /** `skip` and `limit`, sent whenever defined, in that order. */
  lemma PagingHead(skip: Option<int>, limit: Option<int>, f: string -> bool)
    requires f("skip") == skip.Some? && f("limit") == limit.Some?
    ensures Keys(DefinedInt("skip", skip) + DefinedInt("limit", limit)) == Filter(["skip", "limit"], f)
  {
    var a := DefinedInt("skip", skip);
    assert [] + a == a && [] + ["skip"] == ["skip"];
    KeysStep([], [], a, "skip", f);
    KeysStep(a, ["skip"], DefinedInt("limit", limit), "limit", f);
    assert ["skip"] + ["limit"] == ["skip", "limit"];
  }

  // clientsApi.getAll

  datatype ClientsParams = ClientsParams(skip: Option<int>, limit: Option<int>, search: Option<string>, branchId: Option<int>)

  /** The parameters `clientsApi.getAll` appends: `skip` and `limit` whenever defined,
      `search` and `branch_id` only when truthy, in that order. */
  function ClientsQuery(p: ClientsParams): seq<Param> {
    DefinedInt("skip", p.skip) + DefinedInt("limit", p.limit)
    + TruthyText("search", p.search) + TruthyInt("branch_id", p.branchId)
  }

  /** Which keys `clientsApi.getAll` sends for `p`. */
  function ClientsSent(p: ClientsParams): string -> bool {
    k => (k == "skip" && p.skip.Some?) || (k == "limit" && p.limit.Some?)
         || (k == "search" && Truthy(p.search)) || (k == "branch_id" && TruthyId(p.branchId))
  }

  const ClientsKeys := ["skip", "limit", "search", "branch_id"]

  /** The keys sent are the keys whose condition holds, in the fixed order; a defined `skip`
      is sent even when it is 0, and a sent `search` carries the text itself. */
  lemma ClientsQueryShape(p: ClientsParams)
    ensures Keys(ClientsQuery(p)) == Filter(ClientsKeys, ClientsSent(p))
  {
    var f := ClientsSent(p);
    assert f("branch_id") == TruthyId(p.branchId);
    var h := DefinedInt("skip", p.skip) + DefinedInt("limit", p.limit) + TruthyText("search", p.search);
    ClientsHeadShape(p);
    KeysStep(h, ["skip", "limit"] + ["search"], TruthyInt("branch_id", p.branchId), "branch_id", f);
    assert ["skip", "limit"] + ["search"] + ["branch_id"] == ClientsKeys;
  }

  /** The paging parameters and `search`. */
  lemma ClientsHeadShape(p: ClientsParams)
    ensures Keys(DefinedInt("skip", p.skip) + DefinedInt("limit", p.limit) + TruthyText("search", p.search))
            == Filter(["skip", "limit"] + ["search"], ClientsSent(p))
  {
    var f := ClientsSent(p);
    assert f("skip") == p.skip.Some? && f("limit") == p.limit.Some? && f("search") == Truthy(p.search);
    PagingHead(p.skip, p.limit, f);
    KeysStep(DefinedInt("skip", p.skip) + DefinedInt("limit", p.limit), ["skip", "limit"],
             TruthyText("search", p.search), "search", f);
  }

  lemma ClientsQueryValues(p: ClientsParams)
    ensures ValueOf(ClientsQuery(p), "skip") == if p.skip.Some? then Some(IntText(p.skip.value)) else None
    ensures ValueOf(ClientsQuery(p), "limit") == if p.limit.Some? then Some(IntText(p.limit.value)) else None
    ensures ValueOf(ClientsQuery(p), "search") == if Truthy(p.search) then p.search else None
    ensures ValueOf(ClientsQuery(p), "branch_id") == if TruthyId(p.branchId) then Some(IntText(p.branchId.value)) else None
  {
    var a, b, c, d := DefinedInt("skip", p.skip), DefinedInt("limit", p.limit),
                      TruthyText("search", p.search), TruthyInt("branch_id", p.branchId);
    ValueOfFour(a, b, c, d, "skip");
    ValueOfFour(a, b, c, d, "limit");
    ValueOfFour(a, b, c, d, "search");
    ValueOfFour(a, b, c, d, "branch_id");
  }



  method ClientsGetAll(p: ClientsParams) returns (endpoint: string)
    ensures endpoint == WithQuery("/api/v1/clients", Serialize(ClientsQuery(p)))
  {
    var q := new SearchParams();
    if p.skip.Some? { q.Append("skip", IntText(p.skip.value)); }
    assert q.entries == DefinedInt("skip", p.skip);
    if p.limit.Some? { q.Append("limit", IntText(p.limit.value)); }
    assert q.entries == DefinedInt("skip", p.skip) + DefinedInt("limit", p.limit);
    if Truthy(p.search) { q.Append("search", p.search.value); }
    assert q.entries == DefinedInt("skip", p.skip) + DefinedInt("limit", p.limit) + TruthyText("search", p.search);
    if TruthyId(p.branchId) { q.Append("branch_id", IntText(p.branchId.value)); }
    assert q.entries == ClientsQuery(p);
    var query := q.ToString();
    endpoint := "/api/v1/clients" + if query != "" then "?" + query else "";
  }

  // policiesApi.getAll

  /** The parameters `policiesApi.getAll` reads; it has no `search`. */
  datatype PoliciesParams = PoliciesParams(skip: Option<int>, limit: Option<int>, clientId: Option<int>,
                                           status: Option<string>, branchId: Option<int>)

  function PoliciesQuery(p: PoliciesParams): seq<Param> {
    DefinedInt("skip", p.skip) + DefinedInt("limit", p.limit) + TruthyInt("client_id", p.clientId)
    + TruthyText("status", p.status) + TruthyInt("branch_id", p.branchId)
  }

  function PoliciesSent(p: PoliciesParams): string -> bool {
    k => (k == "skip" && p.skip.Some?) || (k == "limit" && p.limit.Some?)
         || (k == "client_id" && TruthyId(p.clientId)) || (k == "status" && Truthy(p.status))
         || (k == "branch_id" && TruthyId(p.branchId))
  }

  const PoliciesKeys := ["skip", "limit", "client_id", "status", "branch_id"]

  /** The paging parameters and `client_id`. */
  lemma PoliciesHeadShape(p: PoliciesParams)
    ensures Keys(DefinedInt("skip", p.skip) + DefinedInt("limit", p.limit) + TruthyInt("client_id", p.clientId))
            == Filter(["skip", "limit"] + ["client_id"], PoliciesSent(p))
  {
    var f := PoliciesSent(p);
    assert f("skip") == p.skip.Some? && f("limit") == p.limit.Some? && f("client_id") == TruthyId(p.clientId);
    PagingHead(p.skip, p.limit, f);
    KeysStep(DefinedInt("skip", p.skip) + DefinedInt("limit", p.limit), ["skip", "limit"],
             TruthyInt("client_id", p.clientId), "client_id", f);
  }

  /** Same omission and order rule; no `search` key can ever be sent. */
  lemma PoliciesQueryShape(p: PoliciesParams)
    ensures Keys(PoliciesQuery(p)) == Filter(PoliciesKeys, PoliciesSent(p))
  {
    var f := PoliciesSent(p);
    assert f("status") == Truthy(p.status) && f("branch_id") == TruthyId(p.branchId);
    var h := DefinedInt("skip", p.skip) + DefinedInt("limit", p.limit) + TruthyInt("client_id", p.clientId);
    var d := TruthyText("status", p.status);
    PoliciesHeadShape(p);
    KeysStep(h, ["skip", "limit"] + ["client_id"], d, "status", f);
    KeysStep(h + d, ["skip", "limit"] + ["client_id"] + ["status"], TruthyInt("branch_id", p.branchId), "branch_id", f);
    assert ["skip", "limit"] + ["client_id"] + ["status"] + ["branch_id"] == PoliciesKeys;
  }

  /** Whatever the page passes, `policiesApi.getAll` never sends a search text. */
  lemma PoliciesNeverSearch(p: PoliciesParams)
    ensures "search" !in Keys(PoliciesQuery(p))
  {
    PoliciesQueryShape(p);
    var ks := Keys(PoliciesQuery(p));
    forall i | 0 <= i < |ks| ensures ks[i] != "search" {
      assert ks[i] in PoliciesKeys;
    }
  }

  lemma PoliciesQueryValues(p: PoliciesParams)
    ensures ValueOf(PoliciesQuery(p), "skip") == if p.skip.Some? then Some(IntText(p.skip.value)) else None
    ensures ValueOf(PoliciesQuery(p), "limit") == if p.limit.Some? then Some(IntText(p.limit.value)) else None
    ensures ValueOf(PoliciesQuery(p), "client_id") == if TruthyId(p.clientId) then Some(IntText(p.clientId.value)) else None
    ensures ValueOf(PoliciesQuery(p), "status") == if Truthy(p.status) then p.status else None
    ensures ValueOf(PoliciesQuery(p), "branch_id") == if TruthyId(p.branchId) then Some(IntText(p.branchId.value)) else None
  {
    PoliciesPagingValues(p);
    PoliciesFilterValues(p);
  }

  lemma PoliciesPagingValues(p: PoliciesParams)
    ensures ValueOf(PoliciesQuery(p), "skip") == if p.skip.Some? then Some(IntText(p.skip.value)) else None
    ensures ValueOf(PoliciesQuery(p), "limit") == if p.limit.Some? then Some(IntText(p.limit.value)) else None
  {
    var a, b, c, d, e := DefinedInt("skip", p.skip), DefinedInt("limit", p.limit), TruthyInt("client_id", p.clientId),
                         TruthyText("status", p.status), TruthyInt("branch_id", p.branchId);
    ValueOfFour(a, b, c, d, "skip");
    ValueOfFive(a, b, c, d, e, "skip");
    ValueOfFour(a, b, c, d, "limit");
    ValueOfFive(a, b, c, d, e, "limit");
  }

  lemma PoliciesFilterValues(p: PoliciesParams)
    ensures ValueOf(PoliciesQuery(p), "client_id") == if TruthyId(p.clientId) then Some(IntText(p.clientId.value)) else None
    ensures ValueOf(PoliciesQuery(p), "status") == if Truthy(p.status) then p.status else None
    ensures ValueOf(PoliciesQuery(p), "branch_id") == if TruthyId(p.branchId) then Some(IntText(p.branchId.value)) else None
  {
    var a, b, c, d, e := DefinedInt("skip", p.skip), DefinedInt("limit", p.limit), TruthyInt("client_id", p.clientId),
                         TruthyText("status", p.status), TruthyInt("branch_id", p.branchId);
    ValueOfFour(a, b, c, d, "client_id");
    ValueOfFive(a, b, c, d, e, "client_id");
    ValueOfFour(a, b, c, d, "status");
    ValueOfFive(a, b, c, d, e, "status");
    ValueOfFour(a, b, c, d, "branch_id");
    ValueOfFive(a, b, c, d, e, "branch_id");
  }




  method PoliciesGetAll(p: PoliciesParams) returns (endpoint: string)
    ensures endpoint == WithQuery("/api/v1/policies", Serialize(PoliciesQuery(p)))
  {
    var q := new SearchParams();
    if p.skip.Some? { q.Append("skip", IntText(p.skip.value)); }
    assert q.entries == DefinedInt("skip", p.skip);
    if p.limit.Some? { q.Append("limit", IntText(p.limit.value)); }
    assert q.entries == DefinedInt("skip", p.skip) + DefinedInt("limit", p.limit);
    if TruthyId(p.clientId) { q.Append("client_id", IntText(p.clientId.value)); }
    assert q.entries == DefinedInt("skip", p.skip) + DefinedInt("limit", p.limit) + TruthyInt("client_id", p.clientId);
    if Truthy(p.status) { q.Append("status", p.status.value); }
    assert q.entries == DefinedInt("skip", p.skip) + DefinedInt("limit", p.limit) + TruthyInt("client_id", p.clientId)
                        + TruthyText("status", p.status);
    if TruthyId(p.branchId) { q.Append("branch_id", IntText(p.branchId.value)); }
    assert q.entries == PoliciesQuery(p);
    var query := q.ToString();
    endpoint := "/api/v1/policies" + if query != "" then "?" + query else "";
  }

  // auditApi.getAll

  datatype AuditParams = AuditParams(skip: Option<int>, limit: Option<int>, userId: Option<int>,
                                     action: Option<string>, resourceType: Option<string>)

  function AuditQuery(p: AuditParams): seq<Param> {
    DefinedInt("skip", p.skip) + DefinedInt("limit", p.limit) + TruthyInt("user_id", p.userId)
    + TruthyText("action", p.action) + TruthyText("resource_type", p.resourceType)
  }

  function AuditSent(p: AuditParams): string -> bool {
    k => (k == "skip" && p.skip.Some?) || (k == "limit" && p.limit.Some?)
         || (k == "user_id" && TruthyId(p.userId)) || (k == "action" && Truthy(p.action))
         || (k == "resource_type" && Truthy(p.resourceType))
  }

  const AuditKeys := ["skip", "limit", "user_id", "action", "resource_type"]

  /** The paging parameters and `user_id`. */
  lemma AuditHeadShape(p: AuditParams)
    ensures Keys(DefinedInt("skip", p.skip) + DefinedInt("limit", p.limit) + TruthyInt("user_id", p.userId))
            == Filter(["skip", "limit"] + ["user_id"], AuditSent(p))
  {
    var f := AuditSent(p);
    assert f("skip") == p.skip.Some? && f("limit") == p.limit.Some? && f("user_id") == TruthyId(p.userId);
    PagingHead(p.skip, p.limit, f);
    KeysStep(DefinedInt("skip", p.skip) + DefinedInt("limit", p.limit), ["skip", "limit"],
             TruthyInt("user_id", p.userId), "user_id", f);
  }

  lemma AuditQueryShape(p: AuditParams)
    ensures Keys(AuditQuery(p)) == Filter(AuditKeys, AuditSent(p))
  {
    var f := AuditSent(p);
    assert f("action") == Truthy(p.action) && f("resource_type") == Truthy(p.resourceType);
    var h := DefinedInt("skip", p.skip) + DefinedInt("limit", p.limit) + TruthyInt("user_id", p.userId);
    var d := TruthyText("action", p.action);
    AuditHeadShape(p);
    KeysStep(h, ["skip", "limit"] + ["user_id"], d, "action", f);
    KeysStep(h + d, ["skip", "limit"] + ["user_id"] + ["action"], TruthyText("resource_type", p.resourceType),
             "resource_type", f);
    assert ["skip", "limit"] + ["user_id"] + ["action"] + ["resource_type"] == AuditKeys;
  }

  lemma AuditQueryValues(p: AuditParams)
    ensures ValueOf(AuditQuery(p), "skip") == if p.skip.Some? then Some(IntText(p.skip.value)) else None
    ensures ValueOf(AuditQuery(p), "limit") == if p.limit.Some? then Some(IntText(p.limit.value)) else None
    ensures ValueOf(AuditQuery(p), "user_id") == if TruthyId(p.userId) then Some(IntText(p.userId.value)) else None
    ensures ValueOf(AuditQuery(p), "action") == if Truthy(p.action) then p.action else None
    ensures ValueOf(AuditQuery(p), "resource_type") == if Truthy(p.resourceType) then p.resourceType else None
  {
    AuditPagingValues(p);
    AuditFilterValues(p);
  }

  lemma AuditPagingValues(p: AuditParams)
    ensures ValueOf(AuditQuery(p), "skip") == if p.skip.Some? then Some(IntText(p.skip.value)) else None
    ensures ValueOf(AuditQuery(p), "limit") == if p.limit.Some? then Some(IntText(p.limit.value)) else None
  {
    var a, b, c, d, e := DefinedInt("skip", p.skip), DefinedInt("limit", p.limit), TruthyInt("user_id", p.userId),
                         TruthyText("action", p.action), TruthyText("resource_type", p.resourceType);
    ValueOfFour(a, b, c, d, "skip");
    ValueOfFive(a, b, c, d, e, "skip");
    ValueOfFour(a, b, c, d, "limit");
    ValueOfFive(a, b, c, d, e, "limit");
  }

  lemma AuditFilterValues(p: AuditParams)
    ensures ValueOf(AuditQuery(p), "user_id") == if TruthyId(p.userId) then Some(IntText(p.userId.value)) else None
    ensures ValueOf(AuditQuery(p), "action") == if Truthy(p.action) then p.action else None
    ensures ValueOf(AuditQuery(p), "resource_type") == if Truthy(p.resourceType) then p.resourceType else None
  {
    var a, b, c, d, e := DefinedInt("skip", p.skip), DefinedInt("limit", p.limit), TruthyInt("user_id", p.userId),
                         TruthyText("action", p.action), TruthyText("resource_type", p.resourceType);
    ValueOfFour(a, b, c, d, "user_id");
    ValueOfFive(a, b, c, d, e, "user_id");
    ValueOfFour(a, b, c, d, "action");
    ValueOfFive(a, b, c, d, e, "action");
    ValueOfFour(a, b, c, d, "resource_type");
    ValueOfFive(a, b, c, d, e, "resource_type");
  }




  method AuditGetAll(p: AuditParams) returns (endpoint: string)
    ensures endpoint == WithQuery("/api/v1/audit-logs", Serialize(AuditQuery(p)))
  {
    var q := new SearchParams();
    if p.skip.Some? { q.Append("skip", IntText(p.skip.value)); }
    assert q.entries == DefinedInt("skip", p.skip);
    if p.limit.Some? { q.Append("limit", IntText(p.limit.value)); }
    assert q.entries == DefinedInt("skip", p.skip) + DefinedInt("limit", p.limit);
    if TruthyId(p.userId) { q.Append("user_id", IntText(p.userId.value)); }
    assert q.entries == DefinedInt("skip", p.skip) + DefinedInt("limit", p.limit) + TruthyInt("user_id", p.userId);
    if Truthy(p.action) { q.Append("action", p.action.value); }
    assert q.entries == DefinedInt("skip", p.skip) + DefinedInt("limit", p.limit) + TruthyInt("user_id", p.userId)
                        + TruthyText("action", p.action);
    if Truthy(p.resourceType) { q.Append("resource_type", p.resourceType.value); }
    assert q.entries == AuditQuery(p);
    var query := q.ToString();
    endpoint := "/api/v1/audit-logs" + if query != "" then "?" + query else "";
  }

  /** The endpoint carries a query exactly when some parameter is sent, whichever builder made it. */
  lemma QueryIffParams(path: string, ps: seq<Param>)
    ensures WithQuery(path, Serialize(ps)) == path <==> ps == []
    ensures ps != [] ==> WithQuery(path, Serialize(ps)) == path + "?" + Serialize(ps)
  {
    if ps != [] {
      assert |WithQuery(path, Serialize(ps))| > |path|;
    }
  }
}
