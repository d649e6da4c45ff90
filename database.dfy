/** One database session: the tables in storage order, the next id each table
    will hand out, and the constraints every committed state satisfies. The
    audit table is only ever appended to. */
module Database {
  import opened Base
  import opened Models
  import opened Audit

  class Db {
    var branches: seq<Branch>
    var users: seq<User>
    var clients: seq<Client>
    var policies: seq<Policy>
    var auditLogs: seq<AuditLog>
    var nextBranchId: int
    var nextUserId: int
    var nextClientId: int
    var nextPolicyId: int
    var nextAuditId: int

    ghost predicate Valid()
      reads this
    {
      BranchesOk(branches, nextBranchId) && UsersOk(users, nextUserId)
      && ClientsOk(clients, nextClientId) && PoliciesOk(policies, nextPolicyId)
      && PolicyClientsExist(policies, clients)
      && (forall i :: 0 <= i < |auditLogs| ==> auditLogs[i].id < nextAuditId)
      && (forall i, j :: 0 <= i < j < |auditLogs| ==> auditLogs[i].id != auditLogs[j].id)
    }

    /** A freshly created schema: every table empty. */
    constructor()
      ensures Valid()
      ensures branches == [] && users == [] && clients == [] && policies == [] && auditLogs == []
    {
      branches, users, clients, policies, auditLogs := [], [], [], [], [];
      nextBranchId, nextUserId, nextClientId, nextPolicyId, nextAuditId := 1, 1, 1, 1, 1;
    }

    /** `log_action`: append exactly one record; the dictionaries are stored serialized,
        or as None when missing or empty. `now` is the insertion time. */
    method LogAction(userId: int, action: string, resourceType: string, resourceId: int,
                     oldValues: Option<seq<Entry>>, newValues: Option<seq<Entry>>,
                     ipAddress: Option<string>, userAgent: Option<string>, now: int)
      returns (log: AuditLog)
      requires Valid()
      modifies this`auditLogs, this`nextAuditId
      ensures Valid()
      ensures log == AuditLog(old(nextAuditId), userId, action, resourceType, resourceId,
                              StoredValues(oldValues), StoredValues(newValues), now, ipAddress, userAgent)
      ensures auditLogs == old(auditLogs) + [log]
      ensures nextAuditId == old(nextAuditId) + 1
    {
      log := AuditLog(nextAuditId, userId, action, resourceType, resourceId,
                      StoredValues(oldValues), StoredValues(newValues), now, ipAddress, userAgent);
      auditLogs := auditLogs + [log];
      nextAuditId := nextAuditId + 1;
    }
  }
}
