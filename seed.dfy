/** `init_db.py`: the seed branches, the seed users with their idempotent upsert, and
    the seed clients with their policies. Password hashing is salted, so the hash of
    the k-th `get_password_hash` call is the parameter `hash(k)`; `checkpw` is bcrypt's
    check (None when it raises, which `init_db` does not catch). */
module Seed {
  import opened Base
  import opened Text
  import opened Dates
  import opened Models
  import opened Security
  import opened Database
  import ClientService
  import PolicyService

  // ---- branches ----------------------------------------------------------------

  datatype BranchSeed = BranchSeed(name: string, code: string, address: string, phone: string)

  const SeedBranchData: seq<BranchSeed> := [
    BranchSeed("Succursale Yaoundé", "YAO001", "Avenue Kennedy, Yaoundé, Cameroun", "+237 6 12 34 56 78"),
    BranchSeed("Succursale Douala", "DOU001", "Boulevard de la Liberté, Douala, Cameroun", "+237 6 23 45 67 89"),
    BranchSeed("Succursale Bafoussam", "BAF001", "Avenue des Alliés, Bafoussam, Cameroun", "+237 6 34 56 78 90"),
    BranchSeed("Succursale Garoua", "GAR001", "Rue du Marché, Garoua, Cameroun", "+237 6 45 67 89 01")
  ]

  predicate CodeTaken(bs: seq<Branch>, code: string) {
    FindFirst(bs, (b: Branch) => b.code == code).Some?
  }

  /** The branches and next id after inserting, in order, each seed whose code is not yet
      stored (earlier insertions are visible to later lookups through autoflush). */
  function BranchesSeeded(bs: seq<Branch>, next: int, data: seq<BranchSeed>): (seq<Branch>, int)
    decreases |data|
  {
    if data == [] then (bs, next)
    else
      var step := BranchSeedStep(bs, next, data[0]);
      BranchesSeeded(step.0, step.1, data[1..])
  }

  /** One seed branch: inserted with the next id unless its code is already stored. */
  function BranchSeedStep(bs: seq<Branch>, next: int, d: BranchSeed): (seq<Branch>, int) {
    if CodeTaken(bs, d.code) then (bs, next)
    else (bs + [Branch(next, d.name, d.code, d.address, d.phone)], next + 1)
  }

  /** After one seed branch, its code is stored, and the stored branches were kept. */
  lemma BranchSeedStepCovers(bs: seq<Branch>, next: int, d: BranchSeed)
    ensures var r := BranchSeedStep(bs, next, d);
            bs <= r.0 && r.1 - next == |r.0| - |bs| && CodeTaken(r.0, d.code)
  {
    if !CodeTaken(bs, d.code) {
      var r := bs + [Branch(next, d.name, d.code, d.address, d.phone)];
      assert r[|bs|].code == d.code;
    }
  }

  lemma CodeTakenGrows(bs: seq<Branch>, extra: seq<Branch>, code: string)
    requires CodeTaken(bs, code)
    ensures CodeTaken(bs + extra, code)
  {
    var j := FindFirst(bs, (b: Branch) => b.code == code).value;
    assert (bs + extra)[j].code == code;
  }

  /** Seeding keeps the stored branches as a prefix and hands out one id per inserted branch. */
  lemma {:induction false} BranchesSeededExtends(bs: seq<Branch>, next: int, data: seq<BranchSeed>)
    ensures var r := BranchesSeeded(bs, next, data);
            bs <= r.0 && r.1 - next == |r.0| - |bs|
    decreases |data|
  {
    if data != [] {
      var step := BranchSeedStep(bs, next, data[0]);
      BranchSeedStepCovers(bs, next, data[0]);
      BranchesSeededExtends(step.0, step.1, data[1..]);
    }
  }

  /** Seeding keeps the stored branches as a prefix, and afterwards every seed code is stored. */
  lemma {:induction false} BranchesSeededCovers(bs: seq<Branch>, next: int, data: seq<BranchSeed>)
    ensures var r := BranchesSeeded(bs, next, data);
            bs <= r.0 && r.1 - next == |r.0| - |bs|
            && forall i :: 0 <= i < |data| ==> CodeTaken(r.0, data[i].code)
    decreases |data|
  {
    BranchesSeededExtends(bs, next, data);
    if data != [] {
      var step := BranchSeedStep(bs, next, data[0]);
      BranchSeedStepCovers(bs, next, data[0]);
      BranchesSeededCovers(step.0, step.1, data[1..]);
      var r := BranchesSeeded(bs, next, data);
      assert r.0 == step.0 + r.0[|step.0|..];
      CodeTakenGrows(step.0, r.0[|step.0|..], data[0].code);
      forall i | 0 <= i < |data| ensures CodeTaken(r.0, data[i].code) {
        if i > 0 { assert data[i] == data[1..][i - 1]; }
      }
    }
  }

  /** When every seed code is already stored, seeding changes nothing. */
  lemma {:induction false} BranchesSeededNothingNew(bs: seq<Branch>, next: int, data: seq<BranchSeed>)
    requires forall i :: 0 <= i < |data| ==> CodeTaken(bs, data[i].code)
    ensures BranchesSeeded(bs, next, data) == (bs, next)
    decreases |data|
  {
    if data != [] {
      assert forall i :: 0 <= i < |data[1..]| ==> data[1..][i] == data[i + 1];
      BranchesSeededNothingNew(bs, next, data[1..]);
    }
  }

  /** A second run of `seed_branches` inserts nothing. */
  lemma BranchesSeededIdempotent(bs: seq<Branch>, next: int, data: seq<BranchSeed>)
    ensures var r := BranchesSeeded(bs, next, data);
            BranchesSeeded(r.0, r.1, data) == r
  {
    var r := BranchesSeeded(bs, next, data);
    BranchesSeededCovers(bs, next, data);
    BranchesSeededNothingNew(r.0, r.1, data);
  }

  lemma BranchAppendOk(bs: seq<Branch>, next: int, b: Branch)
    requires BranchesOk(bs, next) && b.id == next && !CodeTaken(bs, b.code)
    ensures BranchesOk(bs + [b], next + 1)
  {
  }

  /** `seed_branches`. */
  method SeedBranches(db: Db)
    requires db.Valid()
    modifies db
    ensures db.Valid()
    ensures (db.branches, db.nextBranchId) == BranchesSeeded(old(db.branches), old(db.nextBranchId), SeedBranchData)
    ensures db.users == old(db.users) && db.clients == old(db.clients) && db.policies == old(db.policies)
    ensures db.auditLogs == old(db.auditLogs)
  {
    InsertBranches(db, SeedBranchData);
  }

  /** The loop of `seed_branches` over any list of seeds. */
  method InsertBranches(db: Db, data: seq<BranchSeed>)
    requires db.Valid()
    modifies db`branches, db`nextBranchId
    ensures db.Valid()
    ensures (db.branches, db.nextBranchId) == BranchesSeeded(old(db.branches), old(db.nextBranchId), data)
  {
    var i := 0;
    while i < |data|
      invariant 0 <= i <= |data| && db.Valid()
      invariant BranchesSeeded(db.branches, db.nextBranchId, data[i..])
                == BranchesSeeded(old(db.branches), old(db.nextBranchId), data)
    {
      assert data[i..][0] == data[i] && data[i..][1..] == data[i + 1..];
      InsertBranch(db, data[i]);
      i := i + 1;
    }
  }

  /** The loop body for one seed branch: skipped when its code is stored. */
  method InsertBranch(db: Db, d: BranchSeed)
    requires db.Valid()
    modifies db`branches, db`nextBranchId
    ensures db.Valid()
    ensures (db.branches, db.nextBranchId) == BranchSeedStep(old(db.branches), old(db.nextBranchId), d)
  {
    if !CodeTaken(db.branches, d.code) {
      var b := Branch(db.nextBranchId, d.name, d.code, d.address, d.phone);
      BranchAppendOk(db.branches, db.nextBranchId, b);
      db.branches := db.branches + [b];
      db.nextBranchId := db.nextBranchId + 1;
    }
  }

  // ---- users -------------------------------------------------------------------

  const SeedPassword := "ChangeMe123!"

  datatype UserSeed = UserSeed(username: string, email: string, password: string, role: string, branchId: Option<int>)

  const AdminSeed := UserSeed("admin", "admin@intia.com", SeedPassword, RoleAdmin, None)

  function AgentSeed(b: Branch): UserSeed {
    UserSeed("agent" + Lower(b.code), "agent" + Lower(b.code) + "@intia.com", SeedPassword, RoleAgent, Some(b.id))
  }

  function ViewerSeed(b: Branch): UserSeed {
    UserSeed("viewer" + Lower(b.code), "viewer" + Lower(b.code) + "@intia.com", SeedPassword, RoleViewer, Some(b.id))
  }

  function BranchUsers(bs: seq<Branch>): (r: seq<UserSeed>)
    ensures |r| == 2 * |bs|
  {
    if bs == [] then [] else [AgentSeed(bs[0]), ViewerSeed(bs[0])] + BranchUsers(bs[1..])
  }

  /** `users_data`: the admin, then an agent and a viewer for each of the first three branches. */
  function SeedUserList(bs: seq<Branch>): seq<UserSeed> {
    [AdminSeed] + BranchUsers(bs[..Min(3, |bs|)])
  }

  lemma {:induction false} BranchUsersAt(bs: seq<Branch>, i: nat)
    requires i < |bs|
    ensures BranchUsers(bs)[2 * i] == AgentSeed(bs[i])
    ensures BranchUsers(bs)[2 * i + 1] == ViewerSeed(bs[i])
  {
    if i > 0 {
      BranchUsersAt(bs[1..], i - 1);
    }
  }

  /** The list has 1 + 2·min(3, |branches|) entries, the admin first, then the agent and
      the viewer of each branch in turn. */
  lemma SeedUserListShape(bs: seq<Branch>)
    ensures |SeedUserList(bs)| == 1 + 2 * Min(3, |bs|)
    ensures SeedUserList(bs)[0] == AdminSeed
    ensures forall i :: 0 <= i < Min(3, |bs|) ==>
              SeedUserList(bs)[1 + 2 * i] == AgentSeed(bs[i]) && SeedUserList(bs)[2 + 2 * i] == ViewerSeed(bs[i])
  {
    var first := bs[..Min(3, |bs|)];
    forall i | 0 <= i < Min(3, |bs|)
      ensures SeedUserList(bs)[1 + 2 * i] == AgentSeed(bs[i]) && SeedUserList(bs)[2 + 2 * i] == ViewerSeed(bs[i])
    {
      BranchUsersAt(first, i);
    }
  }

  predicate EmailUsed(us: seq<User>, email: string) {
    FindFirst(us, (u: User) => u.email == email).Some?
  }

  function UserIndex(us: seq<User>, username: string): Option<nat> {
    FindFirst(us, (u: User) => u.username == username)
  }

  /** One pass of the upsert loop for `u`, as call `k` of `get_password_hash`: a new
      username is added (unless its email is taken, which raises), a stored one whose
      hash bcrypt rejects is rehashed, one it accepts is kept; None when the pass raises. */
  function UpsertStep(us: seq<User>, next: int, u: UserSeed, k: nat,
                      checkpw: (string, string) -> Option<bool>, hash: nat -> string): Option<(seq<User>, int)>
  {
    match UserIndex(us, u.username)
    case None =>
      if EmailUsed(us, u.email) then None
      else Some((us + [User(next, u.username, u.email, hash(k), u.role, u.branchId, true)], next + 1))
    case Some(j) =>
      match checkpw(u.password, us[j].passwordHash)
      case None => None
      case Some(true) => Some((us, next))
      case Some(false) => Some((us[j := us[j].(passwordHash := hash(k))], next))
  }

  /** The users and next id after the upsert loop, or None when it raises: bcrypt raising
      on a stored hash, or a new user whose email another user already has (the UNIQUE
      email column), after which `init_db` rolls the session back. `k` counts the calls
      of `get_password_hash`, one per entry. */
  function Upserted(us: seq<User>, next: int, list: seq<UserSeed>, k: nat,
                    checkpw: (string, string) -> Option<bool>, hash: nat -> string): Option<(seq<User>, int)>
    decreases |list|
  {
    if list == [] then Some((us, next))
    else
      match UpsertStep(us, next, list[0], k, checkpw, hash)
      case None => None
      case Some(step) => Upserted(step.0, step.1, list[1..], k + 1, checkpw, hash)
  }

  /** A stored user keeps everything but possibly its password hash. */
  predicate SameButHash(a: User, b: User) {
    a.(passwordHash := b.passwordHash) == b
  }

  /** What the upsert keeps: every stored user stays in place with at most its hash
      changed, and every user it adds is active. */
  lemma {:induction false} UpsertedKeeps(us: seq<User>, next: int, list: seq<UserSeed>, k: nat,
                                         checkpw: (string, string) -> Option<bool>, hash: nat -> string)
    requires Upserted(us, next, list, k, checkpw, hash).Some?
    ensures var r := Upserted(us, next, list, k, checkpw, hash).value.0;
            |r| >= |us|
            && (forall i :: 0 <= i < |us| ==> SameButHash(r[i], us[i]))
            && (forall i :: |us| <= i < |r| ==> r[i].isActive)
    decreases |list|
  {
    if list != [] {
      var u := list[0];
      match UserIndex(us, u.username)
      case None =>
        var us' := us + [User(next, u.username, u.email, hash(k), u.role, u.branchId, true)];
        UpsertedKeeps(us', next + 1, list[1..], k + 1, checkpw, hash);
        var r := Upserted(us, next, list, k, checkpw, hash).value.0;
        assert forall i :: 0 <= i < |us| ==> SameButHash(r[i], us'[i]);
      case Some(j) =>
        match checkpw(u.password, us[j].passwordHash)
        case Some(true) =>
          UpsertedKeeps(us, next, list[1..], k + 1, checkpw, hash);
        case Some(false) =>
          var us' := us[j := us[j].(passwordHash := hash(k))];
          UpsertedKeeps(us', next, list[1..], k + 1, checkpw, hash);
          var r := Upserted(us, next, list, k, checkpw, hash).value.0;
          assert forall i :: 0 <= i < |us| ==> SameButHash(us'[i], us[i]);
          assert forall i :: 0 <= i < |us| ==> SameButHash(r[i], us'[i]);
    }
  }

  /** A stored user whose hash bcrypt accepts for the seed password keeps its hash. */
  lemma UpsertedKeepsAcceptedHash(us: seq<User>, next: int, u: UserSeed, k: nat,
                                  checkpw: (string, string) -> Option<bool>, hash: nat -> string)
    requires UserIndex(us, u.username).Some?
    requires checkpw(u.password, us[UserIndex(us, u.username).value].passwordHash) == Some(true)
    ensures Upserted(us, next, [u], k, checkpw, hash) == Some((us, next))
  {
    assert [u][1..] == [];
  }

  lemma UserAppendOk(us: seq<User>, next: int, u: User)
    requires UsersOk(us, next) && u.id == next
    requires UserIndex(us, u.username).None? && !EmailUsed(us, u.email)
    ensures UsersOk(us + [u], next + 1)
  {
  }

  lemma UserRehashOk(us: seq<User>, next: int, j: nat, h: string)
    requires UsersOk(us, next) && j < |us|
    ensures UsersOk(us[j := us[j].(passwordHash := h)], next)
  {
  }

  /** `seed_users`; false when it raises, and then the session is rolled back. */
  method SeedUsers(db: Db, checkpw: (string, string) -> Option<bool>, hash: nat -> string) returns (ok: bool)
    requires db.Valid()
    modifies db
    ensures db.Valid()
    ensures var r := Upserted(old(db.users), old(db.nextUserId), SeedUserList(old(db.branches)), 0, checkpw, hash);
            (ok <==> r.Some?) && (ok ==> (db.users, db.nextUserId) == r.value)
    ensures !ok ==> db.users == old(db.users) && db.nextUserId == old(db.nextUserId)
    ensures db.branches == old(db.branches) && db.clients == old(db.clients) && db.policies == old(db.policies)
    ensures db.auditLogs == old(db.auditLogs)
  {
    ok := UpsertUsers(db, SeedUserList(db.branches), checkpw, hash);
  }

  /** The loop of `seed_users` over any list of entries, with the rollback on failure. */
  method UpsertUsers(db: Db, list: seq<UserSeed>, checkpw: (string, string) -> Option<bool>, hash: nat -> string)
    returns (ok: bool)
    requires db.Valid()
    modifies db`users, db`nextUserId
    ensures db.Valid()
    ensures var r := Upserted(old(db.users), old(db.nextUserId), list, 0, checkpw, hash);
            (ok <==> r.Some?) && (ok ==> (db.users, db.nextUserId) == r.value)
    ensures !ok ==> db.users == old(db.users) && db.nextUserId == old(db.nextUserId)
  {
    var savedUsers, savedNext := db.users, db.nextUserId;
    var i := 0;
    while i < |list|
      invariant 0 <= i <= |list| && db.Valid()
      invariant Upserted(db.users, db.nextUserId, list[i..], i, checkpw, hash)
                == Upserted(savedUsers, savedNext, list, 0, checkpw, hash)
      invariant savedUsers == old(db.users) && savedNext == old(db.nextUserId)
    {
      var stepOk := UpsertOne(db, list[i], i, checkpw, hash);
      if !stepOk {
        db.users, db.nextUserId := savedUsers, savedNext;
        return false;
      }
      assert list[i..][0] == list[i] && list[i..][1..] == list[i + 1..];
      i := i + 1;
    }
    ok := true;
  }

  /** One pass of the loop body: `get_password_hash` is called (as call `k`), then the
      user is added, kept or rehashed; false when the pass raises, with nothing changed. */
  method UpsertOne(db: Db, u: UserSeed, k: nat, checkpw: (string, string) -> Option<bool>,
                   hash: nat -> string) returns (ok: bool)
    requires db.Valid()
    modifies db`users, db`nextUserId
    ensures db.Valid()
    ensures var r := UpsertStep(old(db.users), old(db.nextUserId), u, k, checkpw, hash);
            (ok <==> r.Some?) && (ok ==> (db.users, db.nextUserId) == r.value)
    ensures !ok ==> db.users == old(db.users) && db.nextUserId == old(db.nextUserId)
  {
    var passwordHash := hash(k);
    var existing := UserIndex(db.users, u.username);
    if existing.None? {
      if EmailUsed(db.users, u.email) {
        return false;
      }
      var user := User(db.nextUserId, u.username, u.email, passwordHash, u.role, u.branchId, true);
      UserAppendOk(db.users, db.nextUserId, user);
      db.users := db.users + [user];
      db.nextUserId := db.nextUserId + 1;
    } else {
      var j := existing.value;
      var verified := checkpw(u.password, db.users[j].passwordHash);
      if verified.None? {
        return false;
      }
      if !verified.value {
        UserRehashOk(db.users, db.nextUserId, j, passwordHash);
        db.users := db.users[j := db.users[j].(passwordHash := passwordHash)];
      }
    }
    ok := true;
  }

  // ---- clients and policies ------------------------------------------------------

  datatype PolicySeed = PolicySeed(
    policyNumber: string, policyType: string, coverage: string, premium: int,
    startDate: Date, endDate: Date, status: string)

  datatype ClientSeed = ClientSeed(
    firstName: string, lastName: string, email: string, phone: string, address: string,
    dateOfBirth: Date, policies: seq<PolicySeed>)

  const SeedClientData: seq<ClientSeed> := [
    ClientSeed("Jean", "Mboum", "jean.mboum@example.com", "+237 6 11 22 33 44", "Quartier Bastos, Yaoundé",
      CalendarDate(1985, 5, 15),
      [PolicySeed("POL-2024-001", "Assurance Auto", "Couverture complète véhicule", 15000000,
                  CalendarDate(2024, 1, 1), CalendarDate(2024, 12, 31), StatusActive)]),
    ClientSeed("Marie", "Ndong", "marie.ndong@example.com", "+237 6 22 33 44 55", "Quartier Akwa, Douala",
      CalendarDate(1990, 8, 20),
      [PolicySeed("POL-2024-002", "Assurance Habitation", "Couverture habitation complète", 20000000,
                  CalendarDate(2024, 2, 1), CalendarDate(2025, 1, 31), StatusActive),
       PolicySeed("POL-2024-003", "Assurance Santé", "Couverture santé familiale", 12000000,
                  CalendarDate(2024, 3, 1), CalendarDate(2025, 2, 28), StatusActive)]),
    ClientSeed("Paul", "Fotso", "paul.fotso@example.com", "+237 6 33 44 55 66", "Quartier Centre, Bafoussam",
      CalendarDate(1978, 12, 10),
      [PolicySeed("POL-2024-004", "Assurance Vie", "Assurance vie décès", 30000000,
                  CalendarDate(2024, 1, 15), CalendarDate(2029, 1, 14), StatusActive)])
  ]

  function SeedPolicyRow(id: int, clientId: int, branchId: int, d: PolicySeed): Policy {
    Policy(id, d.policyNumber, clientId, branchId, d.policyType, d.coverage, d.premium,
           d.startDate, d.endDate, d.status)
  }

  /** The policies and next id after adding, in order, each seed policy of one client whose
      number is not yet stored. */
  function PoliciesSeeded(ps: seq<Policy>, next: int, clientId: int, branchId: int, data: seq<PolicySeed>): (seq<Policy>, int)
    decreases |data|
  {
    if data == [] then (ps, next)
    else
      var step := SeedPolicyStep(ps, next, clientId, branchId, data[0]);
      PoliciesSeeded(step.0, step.1, clientId, branchId, data[1..])
  }

  /** One seed policy: added with the next id unless its number is already stored. */
  function SeedPolicyStep(ps: seq<Policy>, next: int, clientId: int, branchId: int, d: PolicySeed): (seq<Policy>, int) {
    if PolicyService.NumberTaken(ps, d.policyNumber) then (ps, next)
    else (ps + [SeedPolicyRow(next, clientId, branchId, d)], next + 1)
  }

  datatype SeedState = SeedState(clients: seq<Client>, nextClient: int, policies: seq<Policy>, nextPolicy: int)

  function SeedClientRow(id: int, branchId: int, d: ClientSeed): Client {
    Client(id, branchId, d.firstName, d.lastName, d.email, d.phone, d.address, Some(d.dateOfBirth))
  }

  /** One turn of the loop of `seed_clients_and_policies`: a seed client whose email is
      stored is skipped with its policies; otherwise it is added and its policies follow. */
  function SeedOne(st: SeedState, branchId: int, d: ClientSeed): SeedState {
    if ClientService.EmailTaken(st.clients, d.email) then st
    else
      var c := SeedClientRow(st.nextClient, branchId, d);
      var r := PoliciesSeeded(st.policies, st.nextPolicy, c.id, branchId, d.policies);
      SeedState(st.clients + [c], st.nextClient + 1, r.0, r.1)
  }

  /** The tables after the whole loop. */
  function ClientsSeeded(st: SeedState, branchId: int, data: seq<ClientSeed>): SeedState
    decreases |data|
  {
    if data == [] then st else ClientsSeeded(SeedOne(st, branchId, data[0]), branchId, data[1..])
  }

  /** Seed policies only add rows for the given client and branch. */
  lemma {:induction false} PoliciesSeededAdds(ps: seq<Policy>, next: int, clientId: int, branchId: int, data: seq<PolicySeed>)
    ensures var r := PoliciesSeeded(ps, next, clientId, branchId, data);
            ps <= r.0 && r.1 >= next
            && forall i :: |ps| <= i < |r.0| ==> r.0[i].clientId == clientId && r.0[i].branchId == branchId
    decreases |data|
  {
    if data != [] {
      var step := SeedPolicyStep(ps, next, clientId, branchId, data[0]);
      PoliciesSeededAdds(step.0, step.1, clientId, branchId, data[1..]);
    }
  }

  /** Every client the seeding adds is in the given branch and has an email that was not
      stored before; every policy it adds is in that branch and belongs to a client it added. */
  lemma {:induction false} ClientsSeededAdds(st: SeedState, branchId: int, data: seq<ClientSeed>)
    requires forall i :: 0 <= i < |st.policies| ==> st.policies[i].clientId < st.nextClient
    ensures var r := ClientsSeeded(st, branchId, data);
            st.clients <= r.clients && st.policies <= r.policies
            && (forall i :: |st.clients| <= i < |r.clients| ==>
                  r.clients[i].branchId == branchId && !ClientService.EmailTaken(st.clients, r.clients[i].email))
            && (forall i :: |st.policies| <= i < |r.policies| ==>
                  r.policies[i].branchId == branchId && r.policies[i].clientId >= st.nextClient)
    decreases |data|
  {
    if data != [] && !ClientService.EmailTaken(st.clients, data[0].email) {
      var c := SeedClientRow(st.nextClient, branchId, data[0]);
      PoliciesSeededAdds(st.policies, st.nextPolicy, c.id, branchId, data[0].policies);
      var st' := SeedOne(st, branchId, data[0]);
      ClientsSeededAdds(st', branchId, data[1..]);
    } else if data != [] {
      ClientsSeededAdds(st, branchId, data[1..]);
    }
  }

  /** Each seed policy satisfies the table's CHECK constraints. */
  predicate SeedsValid(data: seq<ClientSeed>) {
    forall i, j :: 0 <= i < |data| && 0 <= j < |data[i].policies| ==>
      var p := data[i].policies[j];
      Before(p.startDate, p.endDate) && p.status in PolicyStatuses && p.premium > 0
  }

  lemma SeedClientDataValid()
    ensures SeedsValid(SeedClientData)
  {
  }

  /** A client with a fresh id and email keeps the client table's constraints, and every
      policy's client is still stored. */
  lemma ClientAppendOk(cs: seq<Client>, next: int, ps: seq<Policy>, c: Client)
    requires ClientsOk(cs, next) && PolicyClientsExist(ps, cs)
    requires c.id == next && !ClientService.EmailTaken(cs, c.email)
    ensures ClientsOk(cs + [c], next + 1) && PolicyClientsExist(ps, cs + [c])
  {
    forall k | 0 <= k < |ps| ensures ClientExists(cs + [c], ps[k].clientId) {
      ClientExistsAppend(cs, c, ps[k].clientId);
    }
  }

  /** The inner loop: the policies of one new client. */
  method InsertPolicies(db: Db, clientId: int, branchId: int, data: seq<PolicySeed>)
    requires db.Valid() && ClientExists(db.clients, clientId)
    requires forall j :: 0 <= j < |data| ==>
               Before(data[j].startDate, data[j].endDate) && data[j].status in PolicyStatuses && data[j].premium > 0
    modifies db`policies, db`nextPolicyId
    ensures db.Valid()
    ensures (db.policies, db.nextPolicyId) == PoliciesSeeded(old(db.policies), old(db.nextPolicyId), clientId, branchId, data)
  {
    var j := 0;
    while j < |data|
      invariant 0 <= j <= |data| && db.Valid() && ClientExists(db.clients, clientId)
      invariant PoliciesSeeded(db.policies, db.nextPolicyId, clientId, branchId, data[j..])
                == PoliciesSeeded(old(db.policies), old(db.nextPolicyId), clientId, branchId, data)
    {
      assert data[j..][0] == data[j] && data[j..][1..] == data[j + 1..];
      InsertPolicy(db, clientId, branchId, data[j]);
      j := j + 1;
    }
  }

  /** The loop body for one seed policy: skipped when its number is stored, otherwise
      added with the next id. */
  method InsertPolicy(db: Db, clientId: int, branchId: int, d: PolicySeed)
    requires db.Valid() && ClientExists(db.clients, clientId)
    requires Before(d.startDate, d.endDate) && d.status in PolicyStatuses && d.premium > 0
    modifies db`policies, db`nextPolicyId
    ensures db.Valid()
    ensures (db.policies, db.nextPolicyId) == SeedPolicyStep(old(db.policies), old(db.nextPolicyId), clientId, branchId, d)
  {
    if !PolicyService.NumberTaken(db.policies, d.policyNumber) {
      var p := SeedPolicyRow(db.nextPolicyId, clientId, branchId, d);
      assert PolicyChecksHold(p);
      PolicyService.PolicyAppendOk(db.policies, db.nextPolicyId, db.clients, p);
      db.policies := db.policies + [p];
      db.nextPolicyId := db.nextPolicyId + 1;
    }
  }

  /** The body of the outer loop for one seed client. */
  method AddSeedClient(db: Db, branchId: int, d: ClientSeed)
    requires db.Valid()
    requires forall j :: 0 <= j < |d.policies| ==>
               Before(d.policies[j].startDate, d.policies[j].endDate)
               && d.policies[j].status in PolicyStatuses && d.policies[j].premium > 0
    modifies db`clients, db`nextClientId, db`policies, db`nextPolicyId
    ensures db.Valid()
    ensures SeedState(db.clients, db.nextClientId, db.policies, db.nextPolicyId)
            == SeedOne(SeedState(old(db.clients), old(db.nextClientId), old(db.policies), old(db.nextPolicyId)), branchId, d)
  {
    if !ClientService.EmailTaken(db.clients, d.email) {
      var c := SeedClientRow(db.nextClientId, branchId, d);
      ClientAppendOk(db.clients, db.nextClientId, db.policies, c);
      db.clients := db.clients + [c];
      db.nextClientId := db.nextClientId + 1;
      assert db.clients[|db.clients| - 1] == c;
      InsertPolicies(db, c.id, branchId, d.policies);
    }
  }

  /** The outer loop over the seed clients, all placed in branch `branchId`. */
  method InsertClients(db: Db, branchId: int, data: seq<ClientSeed>)
    requires db.Valid() && SeedsValid(data)
    modifies db`clients, db`nextClientId, db`policies, db`nextPolicyId
    ensures db.Valid()
    ensures SeedState(db.clients, db.nextClientId, db.policies, db.nextPolicyId)
            == ClientsSeeded(SeedState(old(db.clients), old(db.nextClientId), old(db.policies), old(db.nextPolicyId)), branchId, data)
  {
    var i := 0;
    while i < |data|
      invariant 0 <= i <= |data| && db.Valid()
      invariant ClientsSeeded(SeedState(db.clients, db.nextClientId, db.policies, db.nextPolicyId), branchId, data[i..])
                == ClientsSeeded(SeedState(old(db.clients), old(db.nextClientId), old(db.policies), old(db.nextPolicyId)), branchId, data)
    {
      assert data[i..][0] == data[i] && data[i..][1..] == data[i + 1..];
      AddSeedClient(db, branchId, data[i]);
      i := i + 1;
    }
  }

  /** `seed_clients_and_policies`: nothing without branches; otherwise every seed goes to
      the first stored branch. */
  method SeedClientsAndPolicies(db: Db)
    requires db.Valid()
    modifies db
    ensures db.Valid()
    ensures old(db.branches) == [] ==> unchanged(db)
    ensures old(db.branches) != [] ==>
              SeedState(db.clients, db.nextClientId, db.policies, db.nextPolicyId)
              == ClientsSeeded(SeedState(old(db.clients), old(db.nextClientId), old(db.policies), old(db.nextPolicyId)),
                               old(db.branches)[0].id, SeedClientData)
    ensures db.branches == old(db.branches) && db.users == old(db.users) && db.auditLogs == old(db.auditLogs)
  {
    SeedClientDataValid();
    SeedClientsWith(db, SeedClientData);
  }

  /** The body of `seed_clients_and_policies` over any valid list of client seeds. */
  method SeedClientsWith(db: Db, data: seq<ClientSeed>)
    requires db.Valid() && SeedsValid(data)
    modifies db`clients, db`nextClientId, db`policies, db`nextPolicyId
    ensures db.Valid()
    ensures old(db.branches) == [] ==> unchanged(db)
    ensures old(db.branches) != [] ==>
              SeedState(db.clients, db.nextClientId, db.policies, db.nextPolicyId)
              == ClientsSeeded(SeedState(old(db.clients), old(db.nextClientId), old(db.policies), old(db.nextPolicyId)),
                               old(db.branches)[0].id, data)
  {
    if db.branches == [] {
      return;
    }
    InsertClients(db, db.branches[0].id, data);
  }

  /** `init_db`: branches are committed first, so a failure while seeding users rolls back
      only the users and skips the clients and policies. */
  method InitDb(db: Db, checkpw: (string, string) -> Option<bool>, hash: nat -> string) returns (ok: bool)
    requires db.Valid()
    modifies db
    ensures db.Valid()
    ensures (db.branches, db.nextBranchId) == BranchesSeeded(old(db.branches), old(db.nextBranchId), SeedBranchData)
    ensures ok <==> Upserted(old(db.users), old(db.nextUserId), SeedUserList(db.branches), 0, checkpw, hash).Some?
    ensures ok ==> (db.users, db.nextUserId)
                   == Upserted(old(db.users), old(db.nextUserId), SeedUserList(db.branches), 0, checkpw, hash).value
    ensures ok && db.branches != [] ==>
              SeedState(db.clients, db.nextClientId, db.policies, db.nextPolicyId)
              == ClientsSeeded(SeedState(old(db.clients), old(db.nextClientId), old(db.policies), old(db.nextPolicyId)),
                               db.branches[0].id, SeedClientData)
    ensures !ok ==> db.users == old(db.users) && db.clients == old(db.clients) && db.policies == old(db.policies)
    ensures db.auditLogs == old(db.auditLogs)
  {
    SeedClientDataValid();
    ok := InitDbWith(db, SeedBranchData, SeedClientData, checkpw, hash);
  }

  /** The three seeding steps of `init_db` over any seed data. */
  method InitDbWith(db: Db, branchData: seq<BranchSeed>, clientData: seq<ClientSeed>,
                    checkpw: (string, string) -> Option<bool>, hash: nat -> string) returns (ok: bool)
    requires db.Valid() && SeedsValid(clientData)
    modifies db
    ensures db.Valid()
    ensures (db.branches, db.nextBranchId) == BranchesSeeded(old(db.branches), old(db.nextBranchId), branchData)
    ensures ok <==> Upserted(old(db.users), old(db.nextUserId), SeedUserList(db.branches), 0, checkpw, hash).Some?
    ensures ok ==> (db.users, db.nextUserId)
                   == Upserted(old(db.users), old(db.nextUserId), SeedUserList(db.branches), 0, checkpw, hash).value
    ensures ok && db.branches != [] ==>
              SeedState(db.clients, db.nextClientId, db.policies, db.nextPolicyId)
              == ClientsSeeded(SeedState(old(db.clients), old(db.nextClientId), old(db.policies), old(db.nextPolicyId)),
                               db.branches[0].id, clientData)
    ensures !ok ==> db.users == old(db.users) && db.clients == old(db.clients) && db.policies == old(db.policies)
    ensures db.auditLogs == old(db.auditLogs)
  {
    InsertBranches(db, branchData);
    ghost var users0 := (db.users, db.nextUserId);
    ghost var seeds := (db.clients, db.nextClientId, db.policies, db.nextPolicyId);
    ok := UpsertUsers(db, SeedUserList(db.branches), checkpw, hash);
    if !ok {
      return;
    }
    assert SeedState(db.clients, db.nextClientId, db.policies, db.nextPolicyId)
           == SeedState(seeds.0, seeds.1, seeds.2, seeds.3);
    SeedClientsWith(db, clientData);
  }
}
