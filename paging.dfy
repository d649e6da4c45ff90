/** The list endpoints' query bounds and their `meta` block: `page = skip // limit + 1`,
    `per_page = limit`, `total_pages = ceil(total / limit)`. */
module Paging {
  import opened Base

  const DefaultLimit := 20
  const MaxLimit := 100

  /** `skip: int = Query(0, ge=0)` and `limit: int = Query(20, ge=1, le=100)`. */
  predicate BoundsOk(skip: int, limit: int) {
    skip >= 0 && 1 <= limit <= MaxLimit
  }

  /** FastAPI's rejection of a query parameter outside its bounds. */
  const QueryInvalid := HttpError(Unprocessable, "Query parameter out of range")

  datatype Meta = Meta(page: int, perPage: int, total: int, totalPages: int)

  /** `(total + limit - 1) // limit`: the least number of pages of `limit` rows holding `total`. */
  function TotalPages(total: nat, limit: nat): (r: nat)
    requires limit >= 1
    ensures r * limit >= total
    ensures total > 0 ==> (r - 1) * limit < total
    ensures total == 0 <==> r == 0
  {
    var q := (total + limit - 1) / limit;
    assert q * limit + (total + limit - 1) % limit == total + limit - 1;
    q
  }

  /** `skip // limit + 1`: the page whose rows start at or before `skip`. */
  function PageOf(skip: nat, limit: nat): (r: nat)
    requires limit >= 1
    ensures r >= 1
    ensures (r - 1) * limit <= skip < r * limit
  {
    var q := skip / limit;
    assert q * limit + skip % limit == skip;
    q + 1
  }

  function ListMeta(skip: nat, limit: nat, total: nat): (m: Meta)
    requires limit >= 1
    ensures m.perPage == limit && m.total == total
    ensures m.page == PageOf(skip, limit) && m.totalPages == TotalPages(total, limit)
  {
    Meta(PageOf(skip, limit), limit, total, TotalPages(total, limit))
  }

  /** The audit endpoint's variant, guarded by `if limit > 0` (0 pages, page 1 otherwise). */
  function AuditMeta(skip: nat, limit: int, total: nat): (m: Meta)
    ensures limit >= 1 ==> m == ListMeta(skip, limit, total)
    ensures limit < 1 ==> m.page == 1 && m.totalPages == 0
  {
    if limit > 0 then ListMeta(skip, limit, total) else Meta(1, limit, total, 0)
  }

  /** The frontend's request for page `p` (`skip = (p - 1) * limit`) comes back labelled `p`. */
  lemma {:induction false} PageRoundTrip(p: nat, limit: nat)
    requires p >= 1 && limit >= 1
    ensures PageOf((p - 1) * limit, limit) == p
  {
    var r := PageOf((p - 1) * limit, limit);
    if r > p {
      assert p * limit <= (r - 1) * limit by { MulMonotone(p, r - 1, limit); }
    }
  }

  lemma MulMonotone(a: nat, b: nat, c: nat)
    requires a <= b
    ensures a * c <= b * c
  {
  }

  /** Page `p` of `limit` rows starts inside the result exactly when `p` is one of the
      `total_pages` pages. */
  lemma {:induction false} PageWithinTotal(p: nat, limit: nat, total: nat)
    requires p >= 1 && limit >= 1
    ensures (p - 1) * limit < total <==> p <= TotalPages(total, limit)
  {
    var t := TotalPages(total, limit);
    if p <= t && total > 0 {
      MulMonotone(p - 1, t - 1, limit);
    }
    if p > t {
      MulMonotone(t, p - 1, limit);
    }
  }

  /** `meta?.page || 1`: the page both list pages reload after a successful delete. */
  function ReloadPage(meta: Option<Meta>): (r: int)
    ensures meta.Some? && meta.value.page >= 1 ==> r == meta.value.page
    ensures r != 0
  {
    if meta.Some? && meta.value.page != 0 then meta.value.page else 1
  }
}
