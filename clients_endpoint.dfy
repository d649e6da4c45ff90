/** The `/clients` routes. Each receives the user `get_current_user` resolved, so
    authentication has already decided 401/400 before anything here runs; FastAPI
    then rejects out-of-range query parameters with 422 before the handler body. */
module ClientsEndpoint {
  import opened Base
  import opened Dates
  import opened Models
  import opened Schemas
  import opened Database
  import opened Paging
  import ClientService

  const CreatedStatus := 201
  const OkStatus := 200
  const NoContentStatus := 204

  datatype ClientList = ClientList(data: seq<Client>, meta: Meta)

  /** `read_clients`: one page and a `meta` block computed from the count under the same
      user, search and branch arguments. */
  function ReadClients(cs: seq<Client>, user: User, skip: int, limit: int,
                       search: Option<string>, branchId: Option<int>): (r: Result<ClientList>)
    ensures r.Err? <==> !BoundsOk(skip, limit)
    ensures r.Err? ==> r.error == QueryInvalid
    ensures r.Ok? ==>
              var total := ClientService.GetClientCount(cs, user, search, branchId);
              |r.value.data| <= limit && |r.value.data| <= total
              && (forall i :: 0 <= i < |r.value.data| ==>
                    r.value.data[i] in cs && ClientService.ClientListed(r.value.data[i], user, search, branchId))
              && r.value.meta == ListMeta(skip, limit, total)
    ensures r.Ok? ==>
              var total := ClientService.GetClientCount(cs, user, search, branchId);
              var q := ClientService.ClientQuery(cs, user, search, branchId);
              |r.value.data| == (if skip >= total then 0 else Min(limit, total - skip))
              && forall i :: 0 <= i < |r.value.data| ==> skip + i < |q| && r.value.data[i] == q[skip + i]
  {
    if !BoundsOk(skip, limit) then Err(QueryInvalid)
    else
      var data := ClientService.GetClients(cs, user, skip, limit, search, branchId);
      var total := ClientService.GetClientCount(cs, user, search, branchId);
      Ok(ClientList(data, ListMeta(skip, limit, total)))
  }

  /** The frontend's request for page `p` is answered as page `p`, with `per_page` 20, and
      it holds rows exactly when `p` is at most `total_pages`. */
  lemma ReadClientsPage(cs: seq<Client>, user: User, p: nat, search: Option<string>, branchId: Option<int>)
    requires p >= 1
    ensures var r := ReadClients(cs, user, (p - 1) * 20, 20, search, branchId);
            r.Ok? && r.value.meta.page == p && r.value.meta.perPage == 20
            && (r.value.data != [] <==> p <= r.value.meta.totalPages)
  {
    PageRoundTrip(p, 20);
    var total := ClientService.GetClientCount(cs, user, search, branchId);
    PageWithinTotal(p, 20, total);
  }

  /** One row of the `policies` list in `read_client`. */
  datatype PolicySummary = PolicySummary(
    id: int, policyNumber: string, policyType: string, status: string, premium: int,
    startDate: Date, endDate: Date)

  function Summary(p: Policy): PolicySummary {
    PolicySummary(p.id, p.policyNumber, p.policyType, p.status, p.premium, p.startDate, p.endDate)
  }

  datatype ClientDetail = ClientDetail(client: Client, policies: seq<PolicySummary>)

  /** `read_client`: the client, as `get_client_by_id` decides, with a summary of each of
      its policies. */
  function ReadClient(cs: seq<Client>, ps: seq<Policy>, clientId: int, user: User): (r: Result<ClientDetail>)
    ensures r.Ok? <==> ClientService.GetClientById(cs, clientId, user).Ok?
    ensures r.Err? ==> r.error == ClientService.GetClientById(cs, clientId, user).error
    ensures r.Ok? ==> r.value.client == ClientService.GetClientById(cs, clientId, user).value
    ensures r.Ok? ==> SummarisesOwn(ps, clientId, r.value.policies)
  {
    match ClientService.GetClientById(cs, clientId, user)
    case Err(e) => Err(e)
    case Ok(c) => Ok(ClientDetail(c, SummariesOf(ps, clientId)))
  }

  /** `r` summarises every policy that belongs to `clientId`, and nothing else. */
  predicate SummarisesOwn(ps: seq<Policy>, clientId: int, r: seq<PolicySummary>) {
    (forall i :: 0 <= i < |ps| && ps[i].clientId == clientId ==> Summary(ps[i]) in r)
    && (forall k :: 0 <= k < |r| ==>
          exists j :: 0 <= j < |ps| && ps[j].clientId == clientId && r[k] == Summary(ps[j]))
  }

  /** The `policies` list of the client detail, one summary per policy of the client, in
      the order of the client's policies. */
  function SummariesOf(ps: seq<Policy>, clientId: int): (r: seq<PolicySummary>)
    ensures SummarisesOwn(ps, clientId, r)
    ensures var own := ClientService.PoliciesOf(ps, clientId);
            |r| == |own| && forall i :: 0 <= i < |r| ==> r[i] == Summary(own[i])
  {
    var own := ClientService.PoliciesOf(ps, clientId);
    var summaries := seq(|own|, i requires 0 <= i < |own| => Summary(own[i]));
    SummariesCover(ps, clientId, own, summaries);
    summaries
  }

  /** Summarising, one by one, exactly the policies of the client summarises its own. */
  lemma SummariesCover(ps: seq<Policy>, clientId: int, own: seq<Policy>, summaries: seq<PolicySummary>)
    requires forall i :: 0 <= i < |own| ==> own[i] in ps && own[i].clientId == clientId
    requires forall i :: 0 <= i < |ps| && ps[i].clientId == clientId ==> ps[i] in own
    requires |summaries| == |own|
    requires forall i :: 0 <= i < |own| ==> summaries[i] == Summary(own[i])
    ensures SummarisesOwn(ps, clientId, summaries)
  {
    forall i | 0 <= i < |ps| && ps[i].clientId == clientId ensures Summary(ps[i]) in summaries {
      var k :| 0 <= k < |own| && own[k] == ps[i];
      assert summaries[k] == Summary(ps[i]);
    }
    forall k | 0 <= k < |summaries|
      ensures exists j :: 0 <= j < |ps| && ps[j].clientId == clientId && summaries[k] == Summary(ps[j])
    {
      assert own[k] in ps && own[k].clientId == clientId;
      var j :| 0 <= j < |ps| && ps[j] == own[k];
      assert summaries[k] == Summary(own[k]);
    }
  }

  /** `POST /clients/`: 201 with the created client. */
  method CreateClient(db: Db, data: ClientCreate, user: User, now: int) returns (code: int, r: Result<Client>)
    requires db.Valid()
    modifies db
    ensures db.Valid()
    ensures r.Ok? ==> code == CreatedStatus && db.clients == old(db.clients) + [r.value]
    ensures r.Err? ==> code == r.error.status && unchanged(db)
  {
    r := ClientService.CreateClient(db, data, user, now);
    code := if r.Ok? then CreatedStatus else r.error.status;
  }

  /** `PUT /clients/{id}`: 200 with the updated client. */
  method UpdateClient(db: Db, clientId: int, data: ClientUpdate, user: User, now: int) returns (code: int, r: Result<Client>)
    requires db.Valid()
    modifies db
    ensures db.Valid()
    ensures r.Ok? ==> code == OkStatus && r.value.id == clientId && r.value in db.clients
    ensures r.Err? ==> code == r.error.status && unchanged(db)
  {
    r := ClientService.UpdateClient(db, clientId, data, user, now);
    code := if r.Ok? then OkStatus else r.error.status;
  }

  /** `DELETE /clients/{id}`: 204, whose response carries no body. */
  method DeleteClient(db: Db, clientId: int, user: User, now: int) returns (code: int, err: Option<HttpError>)
    requires db.Valid()
    modifies db
    ensures db.Valid()
    ensures err.None? ==> code == NoContentStatus && |db.clients| == |old(db.clients)| - 1
    ensures err.None? ==> forall i :: 0 <= i < |db.clients| ==> db.clients[i].id != clientId
    ensures err.Some? ==> code == err.value.status && unchanged(db)
  {
    var r := ClientService.DeleteClient(db, clientId, user, now);
    if r.Ok? {
      RemovedIdGone(old(db.clients), ClientService.ClientIndex(old(db.clients), clientId).value, clientId, old(db.nextClientId));
      code, err := NoContentStatus, None;
    } else {
      code, err := r.error.status, Some(r.error);
    }
  }
  /** Removing the one client with id `id` leaves none with that id. */
  lemma RemovedIdGone(cs: seq<Client>, k: nat, id: int, next: int)
    requires ClientsOk(cs, next) && k < |cs| && cs[k].id == id
    ensures forall i :: 0 <= i < |RemoveAt(cs, k)| ==> RemoveAt(cs, k)[i].id != id
  {
    var r := RemoveAt(cs, k);
    forall i | 0 <= i < |r| ensures r[i].id != id {
      if i < k {
        assert r[i] == cs[i];
      } else {
        assert r[i] == cs[i + 1];
      }
    }
  }

}
