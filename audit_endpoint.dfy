/** `GET /audit-logs/`: the administrator-only audit log listing with its optional
    filters, newest first. */
module AuditEndpoint {
  import opened Base
  import opened Audit
  import opened Models
  import opened Security
  import opened Paging

  const AdminOnly := HttpError(Forbidden, "Only administrators can access audit logs")

  /** The optional filters. The two date bounds are the query's strings; `instant`
      (a parameter of `ReadAuditLogs`) is how the database reads such a string as a time. */
  datatype AuditFilter = AuditFilter(
    userId: Option<int>, action: Option<string>, resourceType: Option<string>,
    startDate: Option<string>, endDate: Option<string>)

  /** Every truthy filter holds; the date bounds are inclusive. */
  predicate Matches(l: AuditLog, f: AuditFilter, instant: string -> int) {
    (!TruthyId(f.userId) || l.userId == f.userId.value)
    && (!Truthy(f.action) || l.action == f.action.value)
    && (!Truthy(f.resourceType) || l.resourceType == f.resourceType.value)
    && (!Truthy(f.startDate) || l.timestamp >= instant(f.startDate.value))
    && (!Truthy(f.endDate) || l.timestamp <= instant(f.endDate.value))
  }

  /** The WHERE clause of the filters, in table order. */
  function Matching(logs: seq<AuditLog>, f: AuditFilter, instant: string -> int): (r: seq<AuditLog>)
    ensures |r| <= |logs|
    ensures forall i :: 0 <= i < |r| ==> r[i] in logs && Matches(r[i], f, instant)
    ensures forall i :: 0 <= i < |logs| && Matches(logs[i], f, instant) ==> logs[i] in r
    ensures forall i :: 0 <= i < |logs| ==>
              multiset(r)[logs[i]] == if Matches(logs[i], f, instant) then multiset(logs)[logs[i]] else 0
  {
    Filter(logs, (l: AuditLog) => Matches(l, f, instant))
  }

  predicate NewestFirst(s: seq<AuditLog>) {
    forall i, j :: 0 <= i < j < |s| ==> s[i].timestamp >= s[j].timestamp
  }

  /** Put `l` in front of the first entry older than it. */
  function Insert(l: AuditLog, s: seq<AuditLog>): (r: seq<AuditLog>)
    requires NewestFirst(s)
    ensures NewestFirst(r) && |r| == |s| + 1
    ensures multiset(r) == multiset(s) + multiset{l}
  {
    if s == [] || s[0].timestamp <= l.timestamp then
      ConsNewestFirst(l, s);
      [l] + s
    else
      var t := Insert(l, s[1..]);
      assert s == [s[0]] + s[1..];
      HeadBound(s[0], s[1..], l, t);
      ConsNewestFirst(s[0], t);
      [s[0]] + t
  }

  /** An entry no older than the first of a newest-first list can go in front of it. */
  lemma ConsNewestFirst(h: AuditLog, s: seq<AuditLog>)
    requires NewestFirst(s)
    requires s == [] || s[0].timestamp <= h.timestamp
    ensures NewestFirst([h] + s)
  {
    var r := [h] + s;
    forall i, j | 0 <= i < j < |r| ensures r[i].timestamp >= r[j].timestamp {
      assert r[j] == s[j - 1];
      if i > 0 {
        assert r[i] == s[i - 1];
      } else if j > 1 {
        assert s[0].timestamp >= s[j - 1].timestamp;
      }
    }
  }

  /** Every entry of `t`, which holds the entries of `rest` and `l`, is at most as new as `h`. */
  lemma HeadBound(h: AuditLog, rest: seq<AuditLog>, l: AuditLog, t: seq<AuditLog>)
    requires forall k :: 0 <= k < |rest| ==> rest[k].timestamp <= h.timestamp
    requires l.timestamp < h.timestamp
    requires multiset(t) == multiset(rest) + multiset{l}
    ensures forall k :: 0 <= k < |t| ==> t[k].timestamp <= h.timestamp
  {
    forall k | 0 <= k < |t| ensures t[k].timestamp <= h.timestamp {
      assert t[k] in multiset(t);
      if t[k] != l {
        assert t[k] in multiset(rest);
        var m :| 0 <= m < |rest| && rest[m] == t[k];
      }
    }
  }

  /** `order_by(AuditLog.timestamp.desc())`. */
  function SortNewestFirst(s: seq<AuditLog>): (r: seq<AuditLog>)
    ensures NewestFirst(r) && |r| == |s|
    ensures multiset(r) == multiset(s)
  {
    if s == [] then []
    else
      assert s == [s[0]] + s[1..];
      Insert(s[0], SortNewestFirst(s[1..]))
  }

  datatype AuditLogList = AuditLogList(data: seq<AuditLog>, meta: Meta)

  /** `read_audit_logs`: bounds (422), then the admin gate (403), then filter, order, count,
      page. */
  function ReadAuditLogs(logs: seq<AuditLog>, user: User, skip: int, limit: int, f: AuditFilter,
                         instant: string -> int): (r: Result<AuditLogList>)
    ensures !BoundsOk(skip, limit) ==> r == Err(QueryInvalid)
    ensures BoundsOk(skip, limit) ==> (r == Err(AdminOnly) <==> user.role != RoleAdmin)
    ensures r.Ok? ==>
              var matching := Matching(logs, f, instant);
              NewestFirst(r.value.data) && |r.value.data| <= limit
              && (forall i :: 0 <= i < |r.value.data| ==> r.value.data[i] in logs && Matches(r.value.data[i], f, instant))
              && r.value.meta == AuditMeta(skip, limit, |matching|)
    ensures r.Ok? ==>
              var ordered := SortNewestFirst(Matching(logs, f, instant));
              |r.value.data| == (if skip >= |ordered| then 0 else Min(limit, |ordered| - skip))
              && forall i :: 0 <= i < |r.value.data| ==> skip + i < |ordered| && r.value.data[i] == ordered[skip + i]
  {
    if !BoundsOk(skip, limit) then Err(QueryInvalid)
    else if user.role != RoleAdmin then Err(AdminOnly)
    else
      var matching := Matching(logs, f, instant);
      var ordered := SortNewestFirst(matching);
      var page := Window(ordered, skip, limit);
      PageOfSorted(logs, f, instant, skip, limit);
      Ok(AuditLogList(page, AuditMeta(skip, limit, |ordered|)))
  }

  /** A page of the ordered matching rows is newest-first, holds `limit` rows or the
      rest of the ordered rows after `skip`, whichever is fewer, and holds only rows of
      the table that match. */
  lemma PageOfSorted(logs: seq<AuditLog>, f: AuditFilter, instant: string -> int, skip: nat, limit: nat)
    ensures var page := Window(SortNewestFirst(Matching(logs, f, instant)), skip, limit);
            var n := |Matching(logs, f, instant)|;
            NewestFirst(page) && |page| <= limit
            && |page| == (if skip >= n then 0 else Min(limit, n - skip))
            && forall i :: 0 <= i < |page| ==> page[i] in logs && Matches(page[i], f, instant)
  {
    var matching := Matching(logs, f, instant);
    var ordered := SortNewestFirst(matching);
    WindowNewestFirst(ordered, skip, limit);
    WindowOfReordered(matching, ordered, skip, limit);
  }

  /** A window of a newest-first list is newest-first. */
  lemma WindowNewestFirst(ordered: seq<AuditLog>, skip: nat, limit: nat)
    requires NewestFirst(ordered)
    ensures NewestFirst(Window(ordered, skip, limit))
  {
    var page := Window(ordered, skip, limit);
    forall i, j | 0 <= i < j < |page| ensures page[i].timestamp >= page[j].timestamp {
      assert page[i] == ordered[skip + i] && page[j] == ordered[skip + j];
    }
  }

  /** Every entry of a window of a reordering of `s` is an entry of `s`. */
  lemma WindowOfReordered(s: seq<AuditLog>, ordered: seq<AuditLog>, skip: nat, limit: nat)
    requires multiset(ordered) == multiset(s)
    ensures var page := Window(ordered, skip, limit);
            forall i :: 0 <= i < |page| ==> page[i] in s
  {
    var page := Window(ordered, skip, limit);
    forall i | 0 <= i < |page| ensures page[i] in s {
      assert page[i] == ordered[skip + i];
      assert ordered[skip + i] in multiset(ordered);
    }
  }

  /** Whatever the filters, a non-admin is refused. */
  lemma NonAdminRefused(logs: seq<AuditLog>, user: User, skip: nat, limit: int, f: AuditFilter, g: AuditFilter,
                        instant: string -> int)
    requires user.role != RoleAdmin && 1 <= limit <= MaxLimit
    ensures ReadAuditLogs(logs, user, skip, limit, f, instant) == Err(AdminOnly)
    ensures ReadAuditLogs(logs, user, skip, limit, f, instant) == ReadAuditLogs(logs, user, skip, limit, g, instant)
  {
  }

  /** With no truthy filter every log matches, so the total is the whole table. */
  lemma NoFilterCountsAll(logs: seq<AuditLog>, user: User, skip: nat, limit: int, instant: string -> int)
    requires user.role == RoleAdmin && 1 <= limit <= MaxLimit
    ensures var r := ReadAuditLogs(logs, user, skip, limit, AuditFilter(None, Some(""), None, Some(""), None), instant);
            r.Ok? && r.value.meta.total == |logs|
  {
    var f := AuditFilter(None, Some(""), None, Some(""), None);
    FilterAll(logs, (l: AuditLog) => Matches(l, f, instant));
    assert Matching(logs, f, instant) == logs;
  }

  lemma {:induction false} FilterAll<T>(s: seq<T>, p: T -> bool)
    requires forall i :: 0 <= i < |s| ==> p(s[i])
    ensures Filter(s, p) == s
  {
    if s != [] {
      FilterAll(s[1..], p);
    }
  }

  /** When some entry matches, the first page is not empty and holds the newest matching
      entries: none it leaves out is newer than anything on it. */
  lemma FirstPageNewest(logs: seq<AuditLog>, user: User, limit: int, f: AuditFilter, instant: string -> int, i: nat)
    requires user.role == RoleAdmin && 1 <= limit <= MaxLimit
    requires i < |logs| && Matches(logs[i], f, instant)
    ensures var r := ReadAuditLogs(logs, user, 0, limit, f, instant);
            r.Ok? && r.value.data != []
            && (logs[i] in r.value.data || forall k :: 0 <= k < |r.value.data| ==> r.value.data[k].timestamp >= logs[i].timestamp)
  {
    var matching := Matching(logs, f, instant);
    var ordered := SortNewestFirst(matching);
    assert logs[i] in matching;
    assert logs[i] in multiset(ordered);
    NewestPrefix(ordered, limit, logs[i]);
  }

  /** A non-empty window at the front of a newest-first list that holds `x` either holds
      `x` or only entries no older than it. */
  lemma NewestPrefix(ordered: seq<AuditLog>, limit: nat, x: AuditLog)
    requires NewestFirst(ordered) && x in ordered && limit >= 1
    ensures var page := Window(ordered, 0, limit);
            page != [] && (x in page || forall k :: 0 <= k < |page| ==> page[k].timestamp >= x.timestamp)
  {
    var j :| 0 <= j < |ordered| && ordered[j] == x;
    var page := Window(ordered, 0, limit);
    if j >= |page| {
      forall k | 0 <= k < |page| ensures page[k].timestamp >= x.timestamp {
        assert page[k] == ordered[k];
      }
    } else {
      assert page[j] == x;
    }
  }
}
