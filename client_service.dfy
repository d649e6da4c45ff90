/** `ClientService`: the scoped, searchable client listing and its count, lookup
    by id, and create/update/delete with their guards and audit entries. */
module ClientService {
  import opened Base
  import opened Text
  import opened Models
  import opened Security
  import opened Audit
  import opened Schemas
  import opened Database

  const ClientNotFound := HttpError(NotFound, "Client not found")
  const ClientAccessDenied := HttpError(Forbidden, "Access denied to this client")
  const CreateForbidden := HttpError(Forbidden, "Cannot create clients for this branch")
  const UpdateForbidden := HttpError(Forbidden, "Cannot update clients for this branch")
  const DuplicateEmail := HttpError(BadRequest, "Client with this email already exists")
  const ActivePolicies := HttpError(BadRequest, "Cannot delete client with active insurance policies")
  const IntegrityFailure := HttpError(ServerError, "Internal Server Error")

  /** `first_name`, `last_name` or `email` ILIKE '%search%', when the search is truthy. */
  predicate SearchHit(c: Client, search: Option<string>) {
    !Truthy(search)
    || ContainsInsensitive(c.firstName, search.value)
    || ContainsInsensitive(c.lastName, search.value)
    || ContainsInsensitive(c.email, search.value)
  }

  predicate ClientListed(c: Client, user: User, search: Option<string>, branchId: Option<int>) {
    InScope(user, c.branchId, branchId) && SearchHit(c, search)
  }

  /** The filtered query both `get_clients` and `get_client_count` build. */
  function ClientQuery(cs: seq<Client>, user: User, search: Option<string>, branchId: Option<int>): seq<Client> {
    Filter(cs, (c: Client) => ClientListed(c, user, search, branchId))
  }

  /** `get_client_count`. */
  function GetClientCount(cs: seq<Client>, user: User, search: Option<string>, branchId: Option<int>): (n: nat)
    ensures n <= |cs|
  {
    |ClientQuery(cs, user, search, branchId)|
  }

  /** `get_clients`: one OFFSET/LIMIT page of the filtered query. */
  function GetClients(cs: seq<Client>, user: User, skip: nat, limit: nat,
                      search: Option<string>, branchId: Option<int>): (r: seq<Client>)
    ensures |r| <= limit && |r| <= GetClientCount(cs, user, search, branchId)
    ensures var n := GetClientCount(cs, user, search, branchId);
            |r| == if skip >= n then 0 else Min(limit, n - skip)
    ensures var q := ClientQuery(cs, user, search, branchId);
            forall i :: 0 <= i < |r| ==> skip + i < |q| && r[i] == q[skip + i]
    ensures forall i :: 0 <= i < |r| ==> r[i] in cs && ClientListed(r[i], user, search, branchId)
  {
    Window(ClientQuery(cs, user, search, branchId), skip, limit)
  }

  /** Every stored client the filters admit is in the filtered query, so it is counted. */
  lemma ListedClientsCounted(cs: seq<Client>, user: User, search: Option<string>, branchId: Option<int>, i: nat)
    requires i < |cs| && ClientListed(cs[i], user, search, branchId)
    ensures cs[i] in ClientQuery(cs, user, search, branchId)
    ensures GetClientCount(cs, user, search, branchId) >= 1
  {
  }

  /** For a non-admin the `branch_id` argument is ignored, and every client returned is
      in the user's own branch. */
  lemma NonAdminScope(cs: seq<Client>, user: User, skip: nat, limit: nat,
                      search: Option<string>, b1: Option<int>, b2: Option<int>)
    requires user.role != RoleAdmin
    ensures GetClients(cs, user, skip, limit, search, b1) == GetClients(cs, user, skip, limit, search, b2)
    ensures GetClientCount(cs, user, search, b1) == GetClientCount(cs, user, search, b2)
    ensures var r := GetClients(cs, user, skip, limit, search, b1);
            forall i :: 0 <= i < |r| ==> user.branchId == Some(r[i].branchId)
  {
    FilterSame(cs, (c: Client) => ClientListed(c, user, search, b1),
                   (c: Client) => ClientListed(c, user, search, b2));
  }

  /** For an admin, a truthy `branch_id` confines the list to that branch, and a falsy one
      (absent or 0) leaves only the search. */
  lemma AdminScope(cs: seq<Client>, user: User, search: Option<string>, branchId: Option<int>)
    requires user.role == RoleAdmin
    ensures TruthyId(branchId) ==>
              var q := ClientQuery(cs, user, search, branchId);
              forall i :: 0 <= i < |q| ==> q[i].branchId == branchId.value
    ensures !TruthyId(branchId) ==>
              ClientQuery(cs, user, search, branchId) == Filter(cs, (c: Client) => SearchHit(c, search))
  {
    if !TruthyId(branchId) {
      FilterSame(cs, (c: Client) => ClientListed(c, user, search, branchId),
                     (c: Client) => SearchHit(c, search));
    }
  }

  /** With a non-empty search, each client listed has the lower-cased search text at some
      position of its lower-cased first name, last name or email. */
  lemma SearchResultsMatch(cs: seq<Client>, user: User, skip: nat, limit: nat,
                           search: Option<string>, branchId: Option<int>, i: nat)
    requires Truthy(search)
    requires i < |GetClients(cs, user, skip, limit, search, branchId)|
    ensures var c := GetClients(cs, user, skip, limit, search, branchId)[i];
            var s := Lower(search.value);
            (exists k :: OccursAt(Lower(c.firstName), s, k))
            || (exists k :: OccursAt(Lower(c.lastName), s, k))
            || (exists k :: OccursAt(Lower(c.email), s, k))
  {
    var c := GetClients(cs, user, skip, limit, search, branchId)[i];
    var s := Lower(search.value);
    ContainsIff(Lower(c.firstName), s);
    ContainsIff(Lower(c.lastName), s);
    ContainsIff(Lower(c.email), s);
  }

  function ClientIndex(cs: seq<Client>, id: int): Option<nat> {
    FindFirst(cs, (c: Client) => c.id == id)
  }

  /** `get_client_by_id`: 404 for a missing id before any access check, then 403. */
  function GetClientById(cs: seq<Client>, id: int, user: User): (r: Result<Client>)
    ensures r == Err(ClientNotFound) <==> forall i :: 0 <= i < |cs| ==> cs[i].id != id
    ensures r.Ok? ==> r.value in cs && r.value.id == id && CheckUserAccess(user, Some(r.value.branchId))
    ensures r.Err? ==> r.error in {ClientNotFound, ClientAccessDenied}
    ensures r == Err(ClientAccessDenied) ==>
              exists i :: 0 <= i < |cs| && cs[i].id == id && !CheckUserAccess(user, Some(cs[i].branchId))
  {
    match ClientIndex(cs, id)
    case None => Err(ClientNotFound)
    case Some(k) =>
      if !CheckUserAccess(user, Some(cs[k].branchId)) then Err(ClientAccessDenied) else Ok(cs[k])
  }

  /** A stored client already has this email. */
  predicate EmailTaken(cs: seq<Client>, email: string) {
    FindFirst(cs, (c: Client) => c.email == email).Some?
  }

  /** The duplicate-email query of `update_client`: another client holds the new email.
      A null email matches no row (`email IS NULL` on a NOT NULL column). */
  predicate EmailConflict(cs: seq<Client>, id: int, email: Option<string>) {
    email.Some? && FindFirst(cs, (c: Client) => c.email == email.value && c.id != id).Some?
  }

  /** The update checks for a duplicate only when an email was supplied and differs. */
  predicate ChecksEmail(c: Client, u: ClientUpdate) {
    !u.email.Unset? && Assigned(u.email) != Some(c.email)
  }

  function NewClient(id: int, data: ClientCreate): (c: Client)
    ensures c.id == id && c.branchId == data.branchId && c.email == data.email
  {
    Client(id, data.branchId, data.firstName, data.lastName, data.email, data.phone,
           data.address, data.dateOfBirth)
  }

  /** `setattr(client, field, value)` for one item of the update dictionary. */
  function SetAttr(d: ClientDraft, a: ClientAssign): ClientDraft {
    match a
    case AssignBranchId(b) => d.(branchId := b)
    case AssignFirstName(s) => d.(firstName := s)
    case AssignLastName(s) => d.(lastName := s)
    case AssignEmail(s) => d.(email := s)
    case AssignPhone(s) => d.(phone := s)
    case AssignAddress(s) => d.(address := s)
    case AssignDateOfBirth(b) => d.(dateOfBirth := b)
  }

  /** The items applied one after the other, first to last. */
  function ApplyAll(d: ClientDraft, items: seq<ClientAssign>): ClientDraft
    decreases |items|
  {
    if items == [] then d else ApplyAll(SetAttr(d, items[0]), items[1..])
  }

  /** The object after the update: each supplied field takes its value (None for an
      explicit null), every other field and the id keep theirs. */
  function Updated(d: ClientDraft, u: ClientUpdate): (r: ClientDraft)
    ensures r.id == d.id
  {
    ClientDraft(d.id, FieldOr(u.branchId, d.branchId), FieldOr(u.firstName, d.firstName),
                FieldOr(u.lastName, d.lastName), FieldOr(u.email, d.email),
                FieldOr(u.phone, d.phone), FieldOr(u.address, d.address),
                FieldOr(u.dateOfBirth, d.dateOfBirth))
  }

  lemma {:induction false} ApplyAllConcat(d: ClientDraft, a: seq<ClientAssign>, b: seq<ClientAssign>)
    ensures ApplyAll(d, a + b) == ApplyAll(ApplyAll(d, a), b)
    decreases |a|
  {
    if a != [] {
      assert (a + b)[0] == a[0] && (a + b)[1..] == a[1..] + b;
      ApplyAllConcat(SetAttr(d, a[0]), a[1..], b);
    } else {
      assert a + b == b;
    }
  }

  lemma ApplySingle(d: ClientDraft, a: ClientAssign)
    ensures ApplyAll(d, [a]) == SetAttr(d, a)
  {
    assert [a][1..] == [];
  }

  /** Applying a chunk of at most one item after a prefix whose effect is known. */
  lemma ApplyStep(d: ClientDraft, prefix: seq<ClientAssign>, part: seq<ClientAssign>, mid: ClientDraft, next: ClientDraft)
    requires ApplyAll(d, prefix) == mid
    requires part == [] ==> next == mid
    requires |part| == 1 ==> next == SetAttr(mid, part[0])
    requires |part| <= 1
    ensures ApplyAll(d, prefix + part) == next
  {
    ApplyAllConcat(d, prefix, part);
    if |part| == 1 {
      assert part == [part[0]];
      ApplySingle(mid, part[0]);
    }
  }

  /** The dump's item for field `n` (in declaration order), if that field was supplied. */
  function Piece(u: ClientUpdate, n: nat): seq<ClientAssign>
    requires n < 7
  {
    if n == 0 then (if u.branchId.Unset? then [] else [AssignBranchId(Assigned(u.branchId))])
    else if n == 1 then (if u.firstName.Unset? then [] else [AssignFirstName(Assigned(u.firstName))])
    else if n == 2 then (if u.lastName.Unset? then [] else [AssignLastName(Assigned(u.lastName))])
    else if n == 3 then (if u.email.Unset? then [] else [AssignEmail(Assigned(u.email))])
    else if n == 4 then (if u.phone.Unset? then [] else [AssignPhone(Assigned(u.phone))])
    else if n == 5 then (if u.address.Unset? then [] else [AssignAddress(Assigned(u.address))])
    else (if u.dateOfBirth.Unset? then [] else [AssignDateOfBirth(Assigned(u.dateOfBirth))])
  }

  /** The dump's items for the first `n` fields. */
  function Prefix(u: ClientUpdate, n: nat): seq<ClientAssign>
    requires n <= 7
  {
    if n == 0 then [] else Prefix(u, n - 1) + Piece(u, n - 1)
  }

  /** The object once the first `n` fields of the update have been applied. */
  function Partial(d: ClientDraft, u: ClientUpdate, n: nat): ClientDraft {
    ClientDraft(d.id,
                if n > 0 then FieldOr(u.branchId, d.branchId) else d.branchId,
                if n > 1 then FieldOr(u.firstName, d.firstName) else d.firstName,
                if n > 2 then FieldOr(u.lastName, d.lastName) else d.lastName,
                if n > 3 then FieldOr(u.email, d.email) else d.email,
                if n > 4 then FieldOr(u.phone, d.phone) else d.phone,
                if n > 5 then FieldOr(u.address, d.address) else d.address,
                if n > 6 then FieldOr(u.dateOfBirth, d.dateOfBirth) else d.dateOfBirth)
  }

  /** Field `n`'s item, if any, takes the object from `n` applied fields to `n + 1`. */
  lemma PieceStep(d: ClientDraft, u: ClientUpdate, n: nat)
    requires n < 7
    ensures |Piece(u, n)| <= 1
    ensures Piece(u, n) == [] ==> Partial(d, u, n + 1) == Partial(d, u, n)
    ensures |Piece(u, n)| == 1 ==> Partial(d, u, n + 1) == SetAttr(Partial(d, u, n), Piece(u, n)[0])
  {
  }

  lemma {:induction false} ApplyPrefix(d: ClientDraft, u: ClientUpdate, n: nat)
    requires n <= 7
    ensures ApplyAll(d, Prefix(u, n)) == Partial(d, u, n)
  {
    if n > 0 {
      ApplyPrefix(d, u, n - 1);
      PieceStep(d, u, n - 1);
      ApplyStep(d, Prefix(u, n - 1), Piece(u, n - 1), Partial(d, u, n - 1), Partial(d, u, n));
    }
  }

  /** The `setattr` loop over the exclude-unset dump changes exactly the supplied fields. */
  lemma ApplyUpdateData(d: ClientDraft, u: ClientUpdate)
    ensures ApplyAll(d, ClientUpdateData(u)) == Updated(d, u)
  {
    ApplyPrefix(d, u, 7);
    PrefixAll(u);
  }

  /** All seven pieces, in order, make the dump. */
  lemma PrefixAll(u: ClientUpdate)
    ensures ClientUpdateData(u) == Prefix(u, 7)
  {
    assert Prefix(u, 1) == Piece(u, 0) by { assert [] + Piece(u, 0) == Piece(u, 0); }
    assert Prefix(u, 2) == Piece(u, 0) + Piece(u, 1);
    assert Prefix(u, 3) == Piece(u, 0) + Piece(u, 1) + Piece(u, 2);
    assert Prefix(u, 4) == Piece(u, 0) + Piece(u, 1) + Piece(u, 2) + Piece(u, 3);
    assert Prefix(u, 5) == Piece(u, 0) + Piece(u, 1) + Piece(u, 2) + Piece(u, 3) + Piece(u, 4);
    assert Prefix(u, 6) == Piece(u, 0) + Piece(u, 1) + Piece(u, 2) + Piece(u, 3) + Piece(u, 4) + Piece(u, 5);
  }

  lemma ClientExistsSame(cs: seq<Client>, k: nat, c: Client, id: int)
    requires k < |cs| && c.id == cs[k].id && ClientExists(cs, id)
    ensures ClientExists(cs[k := c], id)
  {
    var j :| 0 <= j < |cs| && cs[j].id == id;
    assert cs[k := c][j].id == id;
  }

  lemma ClientExistsRemoved(cs: seq<Client>, k: nat, id: int)
    requires k < |cs| && ClientExists(cs, id) && id != cs[k].id
    ensures ClientExists(RemoveAt(cs, k), id)
  {
    var j :| 0 <= j < |cs| && cs[j].id == id;
    if j < k { assert RemoveAt(cs, k)[j].id == id; } else { assert RemoveAt(cs, k)[j - 1].id == id; }
  }

  /** `create_client`. */
  method CreateClient(db: Db, data: ClientCreate, user: User, now: int) returns (r: Result<Client>)
    requires db.Valid()
    modifies db
    ensures db.Valid()
    ensures !CheckUserAccess(user, Some(data.branchId)) ==> r == Err(CreateForbidden) && unchanged(db)
    ensures CheckUserAccess(user, Some(data.branchId)) && EmailTaken(old(db.clients), data.email) ==>
              r == Err(DuplicateEmail) && unchanged(db)
    ensures CheckUserAccess(user, Some(data.branchId)) && !EmailTaken(old(db.clients), data.email) ==>
              r == Ok(NewClient(old(db.nextClientId), data))
              && db.clients == old(db.clients) + [r.value]
              && db.auditLogs == old(db.auditLogs) + [AuditLog(old(db.nextAuditId), user.id, ActionCreate,
                   ResourceClient, r.value.id, None, StoredValues(Some(ClientCreateEntries(data))), now, None, None)]
              && db.policies == old(db.policies) && db.users == old(db.users) && db.branches == old(db.branches)
  {
    if !CheckUserAccess(user, Some(data.branchId)) {
      return Err(CreateForbidden);
    }
    if FindFirst(db.clients, (c: Client) => c.email == data.email).Some? {
      return Err(DuplicateEmail);
    }
    var client := NewClient(db.nextClientId, data);
    forall i | 0 <= i < |db.policies| ensures ClientExists(db.clients + [client], db.policies[i].clientId) {
      ClientExistsAppend(db.clients, client, db.policies[i].clientId);
    }
    db.clients := db.clients + [client];
    db.nextClientId := db.nextClientId + 1;
    var _ := db.LogAction(user.id, ActionCreate, ResourceClient, client.id, None,
                          Some(ClientCreateEntries(data)), None, None, now);
    r := Ok(client);
  }

  /** `for field, value in update_data.items(): setattr(client, field, value)`. */
  method SetAttrs(d: ClientDraft, items: seq<ClientAssign>) returns (draft: ClientDraft)
    ensures draft == ApplyAll(d, items)
  {
    draft := d;
    var i := 0;
    while i < |items|
      invariant 0 <= i <= |items|
      invariant ApplyAll(draft, items[i..]) == ApplyAll(d, items)
    {
      assert items[i..] == [items[i]] + items[i + 1..];
      draft := SetAttr(draft, items[i]);
      i := i + 1;
    }
    assert items[i..] == [];
  }

  /** Removing a client no policy refers to keeps the table's constraints and every
      policy's foreign key. */
  lemma UnreferencedRemoved(ps: seq<Policy>, cs: seq<Client>, k: nat, next: int)
    requires k < |cs| && ClientsOk(cs, next) && PolicyClientsExist(ps, cs)
    requires |PoliciesOf(ps, cs[k].id)| == 0
    ensures ClientsOk(RemoveAt(cs, k), next) && PolicyClientsExist(ps, RemoveAt(cs, k))
  {
    var r := RemoveAt(cs, k);
    forall i, j | 0 <= i < j < |r| ensures r[i].id != r[j].id && r[i].email != r[j].email {
      var i' := if i < k then i else i + 1;
      var j' := if j < k then j else j + 1;
      assert r[i] == cs[i'] && r[j] == cs[j'];
    }
    forall j | 0 <= j < |ps| ensures ClientExists(r, ps[j].clientId) {
      ClientExistsRemoved(cs, k, ps[j].clientId);
    }
  }

  /** `update_client`: lookup, access to the branch the client will have, duplicate email,
      the `setattr` loop, commit, audit. */
  method UpdateClient(db: Db, clientId: int, data: ClientUpdate, user: User, now: int) returns (r: Result<Client>)
    requires db.Valid()
    modifies db
    ensures db.Valid()
    ensures GetClientById(old(db.clients), clientId, user).Err? ==>
              r == Err(GetClientById(old(db.clients), clientId, user).error) && unchanged(db)
    ensures GetClientById(old(db.clients), clientId, user).Ok? ==>
              var c := GetClientById(old(db.clients), clientId, user).value;
              var k := ClientIndex(old(db.clients), clientId).value;
              var row := CommitClient(Updated(DraftOfClient(c), data));
              if !CheckUserAccess(user, FieldOr(data.branchId, Some(c.branchId))) then
                r == Err(UpdateForbidden) && unchanged(db)
              else if ChecksEmail(c, data) && EmailConflict(old(db.clients), clientId, Assigned(data.email)) then
                r == Err(DuplicateEmail) && unchanged(db)
              else if row.None? then
                r == Err(IntegrityFailure) && unchanged(db)
              else
                r == Ok(row.value)
                && k < |old(db.clients)| && db.clients == old(db.clients)[k := row.value]
                && db.auditLogs == old(db.auditLogs) + [AuditLog(old(db.nextAuditId), user.id, ActionUpdate,
                     ResourceClient, clientId, StoredValues(Some(ClientOldEntries(c))),
                     StoredValues(Some(ClientUpdateEntries(data))), now, None, None)]
                && db.policies == old(db.policies) && db.users == old(db.users)
                && db.branches == old(db.branches)
    ensures r.Ok? ==> r.value.id == clientId && CheckUserAccess(user, Some(r.value.branchId))
    ensures r.Ok? ==> r.value in db.clients
  {
    var found := GetClientById(db.clients, clientId, user);
    if found.Err? {
      return Err(found.error);
    }
    var client := found.value;
    var k := ClientIndex(db.clients, clientId).value;
    var newBranchId := FieldOr(data.branchId, Some(client.branchId));
    if !CheckUserAccess(user, newBranchId) {
      return Err(UpdateForbidden);
    }
    if ChecksEmail(client, data) && EmailConflict(db.clients, clientId, Assigned(data.email)) {
      return Err(DuplicateEmail);
    }
    var oldValues := ClientOldEntries(client);
    var updateData := ClientUpdateData(data);
    var draft := SetAttrs(DraftOfClient(client), updateData);
    ApplyUpdateData(DraftOfClient(client), data);
    var row := CommitClient(draft);
    if row.None? {
      return Err(IntegrityFailure);
    }
    var updated := row.value;
    UpdatedStaysUnique(db.clients, k, client, data, updated, db.nextClientId);
    forall j | 0 <= j < |db.policies| ensures ClientExists(db.clients[k := updated], db.policies[j].clientId) {
      ClientExistsSame(db.clients, k, updated, db.policies[j].clientId);
    }
    db.clients := db.clients[k := updated];
    assert db.clients[k] == updated;
    var _ := db.LogAction(user.id, ActionUpdate, ResourceClient, updated.id, Some(oldValues),
                          Some(ClientUpdateEntries(data)), None, None, now);
    r := Ok(updated);
  }

  /** Replacing a client by its committed update keeps ids and emails unique, provided the
      duplicate-email check let the update through. */
  lemma UpdatedStaysUnique(cs: seq<Client>, k: nat, c: Client, u: ClientUpdate, row: Client, next: int)
    requires ClientsOk(cs, next) && k < |cs| && cs[k] == c
    requires CommitClient(Updated(DraftOfClient(c), u)) == Some(row)
    requires !(ChecksEmail(c, u) && EmailConflict(cs, c.id, Assigned(u.email)))
    ensures ClientsOk(cs[k := row], next)
  {
    assert row.id == c.id;
    var ncs := cs[k := row];
    forall i, j | 0 <= i < j < |ncs| ensures ncs[i].id != ncs[j].id && ncs[i].email != ncs[j].email {
      if i == k || j == k {
        var other := if i == k then j else i;
        if row.email != c.email {
          assert ChecksEmail(c, u);
          var e := Assigned(u.email);
          assert e == Some(row.email);
        }
      }
    }
  }

  /** The policies of a client that are `active`. */
  function ActivePoliciesOf(ps: seq<Policy>, clientId: int): seq<Policy> {
    Filter(ps, (p: Policy) => p.clientId == clientId && p.status == StatusActive)
  }

  /** Any policy of a client. */
  function PoliciesOf(ps: seq<Policy>, clientId: int): seq<Policy> {
    Filter(ps, (p: Policy) => p.clientId == clientId)
  }

  /** `delete_client`: refused with 400 while any of the client's policies is active. The
      ORM then sets `client_id` to NULL on every remaining policy of the client, which the
      NOT NULL column rejects at commit, so deletion goes through only for a client without
      policies. */
  method DeleteClient(db: Db, clientId: int, user: User, now: int) returns (r: Result<bool>)
    requires db.Valid()
    modifies db
    ensures db.Valid()
    ensures GetClientById(old(db.clients), clientId, user).Err? ==>
              r == Err(GetClientById(old(db.clients), clientId, user).error) && unchanged(db)
    ensures GetClientById(old(db.clients), clientId, user).Ok? ==>
              var c := GetClientById(old(db.clients), clientId, user).value;
              var k := ClientIndex(old(db.clients), clientId).value;
              if |ActivePoliciesOf(old(db.policies), clientId)| > 0 then
                r == Err(ActivePolicies) && unchanged(db)
              else if |PoliciesOf(old(db.policies), clientId)| > 0 then
                r == Err(IntegrityFailure) && unchanged(db)
              else
                r == Ok(true)
                && k < |old(db.clients)| && db.clients == RemoveAt(old(db.clients), k)
                && db.auditLogs == old(db.auditLogs) + [AuditLog(old(db.nextAuditId), user.id, ActionDelete,
                     ResourceClient, clientId, StoredValues(Some(ClientOldEntries(c))), None, now, None, None)]
                && db.policies == old(db.policies) && db.users == old(db.users)
                && db.branches == old(db.branches)
  {
    var found := GetClientById(db.clients, clientId, user);
    if found.Err? {
      return Err(found.error);
    }
    var client := found.value;
    var k := ClientIndex(db.clients, clientId).value;
    if |ActivePoliciesOf(db.policies, clientId)| > 0 {
      return Err(ActivePolicies);
    }
    var oldValues := ClientOldEntries(client);
    if |PoliciesOf(db.policies, clientId)| > 0 {
      return Err(IntegrityFailure);
    }
    UnreferencedRemoved(db.policies, db.clients, k, db.nextClientId);
    db.clients := RemoveAt(db.clients, k);
    var _ := db.LogAction(user.id, ActionDelete, ResourceClient, clientId, Some(oldValues), None, None, None, now);
    r := Ok(true);
  }
}
