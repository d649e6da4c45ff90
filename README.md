# Doc-INTIA back-office, modelled in Dafny

Doc-INTIA is the back-office of an insurance agency. A FastAPI backend keeps branches, users,
clients and insurance policies, scopes every query to the user's branch, and logs each change in
an audit journal. A Next.js frontend lists, searches, pages and edits that data. This project
models the parts of both that make decisions and proves what those decisions guarantee.

**Backend**
- **Authentication.** The modules `Security` and `Auth` cover:
  - the branch-access rule;
  - where a request's token comes from (the cookie first, then a `Bearer` header);
  - the order in which `get_current_user` and `login` choose between 401 and 400;
  - the session cookie;
  - the expiry written into a new token.
- **The database.** `Database.Db` is one session. It holds:
  - every table as a sequence in insertion order, which is also the order in which the model
    reads a query without ORDER BY (the database itself promises no order);
  - the next id of each table;
  - the constraints every committed state keeps.

  `Models` holds the records of the tables. A commit that breaks a UNIQUE, NOT NULL or CHECK
  constraint of a table fails with 500 and leaves the session as it was. Foreign keys to
  `branches` are not checked (see "Left out").
- **The services.** `ClientService` and `PolicyService` are methods on the session.
  - Their listings are pure functions.
  - Each create, update and delete states its whole outcome: the error it raises, or the
    new tables and the one audit entry it appends.
- **Schemas and audit.** `Schemas` holds the request bodies, their date validators and the
  partial-update dictionaries. `Audit` holds the JSON serialiser of audit values and the
  audit record.
- **Endpoints.** `ClientsEndpoint`, `PoliciesEndpoint` and `AuditEndpoint` cover the list
  routes and their `meta` block. `Paging` holds the page arithmetic and its round trip with
  the frontend's `skip = (page - 1) * 20`.
- **Seeding.** `Seed` covers `init_db.py`:
  - the branch seeding, which can be run again safely (idempotent);
  - the user upsert;
  - the seed clients and their policies.

**Frontend**
- **The HTTP client.** `Api` covers `lib/api.ts`:
  - the headers of a request;
  - how a response becomes a body, `null` or a thrown error;
  - the query strings of the three `getAll` builders.
- **The list pages.** `ClientsPage`, `PoliciesPage` and `AuditPage` are state machines.
  Every keystroke, timer, click and response is an event.
- **The forms.** `ClientForm` and `PolicyForm` cover the initial state, the change handler,
  `validate` and the submitted payload.
- **Access.** `AuthGuard.ProtectedRoute` is the route guard. `Layout` holds the navigation
  wrapper and bar. `Middleware` is the edge middleware.

**Shared modules.** `Base`, `Text`, `Dates` and `Ui` hold what the rest shares: options, results,
filters, string and date primitives, and the text a `catch` shows.

**Parameters.** Everything outside the repository's own code enters the model as a parameter:
- JWT `encode`/`decode`;
- bcrypt's `checkpw`, which gives None when it raises;
- the salted `get_password_hash`;
- the clock `now`;
- `JSON.parse`;
- `parseFloat`;
- whether the search box has focus.

**Behaviour worth knowing:**
- **No stale-response guard on the list pages.** The clients and policies pages apply every
  answer in the order it arrives (`ClientsPage.Page.FetchSettles`), so a slow early response
  can overwrite a later one. The navigation wrapper works the same way: a probe started on
  another page can still show the bar on `/login`.
- **Deleting a client.** `delete_client` refuses a client with an active policy. A client whose
  policies are all inactive passes that check, but the ORM then sets those policies'
  NOT NULL `client_id` to NULL, so the commit fails. Deletion therefore only succeeds for a
  client with no policies at all.
- **In a production build the list pages never leave "Loading".** The mount fetch is
  commented out, and the search box is not rendered while loading. When each effect runs
  once, as in a production build, nothing can start a request after the first render
  (`Mount`).
- **The policies page's search box sends nothing.** `policiesApi.getAll` has no `search`
  parameter, so what is typed there is never sent (`PoliciesPage.FetchSends`, `SearchIgnored`).

## Model

| member | source | states |
|---|---|---|
| Base.Filter | Doc-INTIA/backend/app/services/client_service.py:31-45 | a WHERE clause keeps the rows of the table that satisfy the condition, every such row and no other, each as often as the table holds it (`FilterAppend` states that table order is kept) |
| Base.Window | Doc-INTIA/backend/app/services/client_service.py:47 | `offset(skip).limit(limit)` yields at most `limit` rows, the rows from position `skip` on, and none past the end |
| Base.FindFirst | Doc-INTIA/backend/app/services/client_service.py:79 | `filter(...).first()` names the earliest matching row, and is None exactly when no row matches |
| Base.RemoveAt | Doc-INTIA/backend/app/services/client_service.py:222-223 | deleting a row leaves the other rows in order |
| Base.FilterAppend | Doc-INTIA/backend/app/services/client_service.py:31-45 | a WHERE clause over rows added at the end gives the old result followed by the new matches |
| Base.FilterSame | Doc-INTIA/backend/app/services/client_service.py:31-45 | two conditions that agree on every row select the same rows |
| Base.RemoveAtKeepsOthers | Doc-INTIA/backend/app/services/client_service.py:222-223 | deleting a row keeps every other row and adds none |
| Api.SpreadLookup | Doc-INTIA/frontend/lib/api.ts:19-22 | in `{ ...base, ...over }` a header of `over` wins and every other header comes from `base` |
| Api.Put | Doc-INTIA/frontend/lib/api.ts:19-22 | assigning a header changes the value under that name and no other |
| Api.RequestHeadersRule | Doc-INTIA/frontend/lib/api.ts:17-22 | the content type sent is the caller's when given, else `application/json` unless the body is form data; every other header is exactly the caller's |
| Api.ErrorMessage | Doc-INTIA/frontend/lib/api.ts:30-36 | the message thrown on a non-OK response is never empty: the body's `detail` when truthy, `An error occurred` when the body is not JSON, else `HTTP error! status: <status>` |
| Api.Classify | Doc-INTIA/frontend/lib/api.ts:30-53 | a response throws exactly when its status is outside 200-299, and then with `ErrorMessage` |
| Api.ClassifyOk | Doc-INTIA/frontend/lib/api.ts:39-53 | an OK response resolves: to `null` for 204, an empty or blank body, or a body that is not JSON; otherwise to the parsed body |
| Api.FallbackNamesStatus | Doc-INTIA/frontend/lib/api.ts:36 | when the error body has no detail the status number can be read back from the thrown message |
| Api.Receive | Doc-INTIA/frontend/lib/api.ts:30-37 | receiving a response classifies it as `Classify` does and moves the window to `/login` exactly on a 401, leaving it unchanged otherwise |
| Api.Serialize | Doc-INTIA/frontend/lib/api.ts:89 | the query string is empty exactly when no parameter was appended, and starts with the first parameter's `key=` |
| Api.SearchParams.Append | Doc-INTIA/frontend/lib/api.ts:84 | `URLSearchParams.append` adds one entry at the end and keeps the earlier ones |
| Api.DefinedInt | Doc-INTIA/frontend/lib/api.ts:84-85 | an `!== undefined` parameter is sent exactly when it is defined, a 0 included |
| Api.TruthyInt | Doc-INTIA/frontend/lib/api.ts:87 | a numeric parameter guarded by truthiness is sent exactly when it is present and non-zero |
| Api.TruthyText | Doc-INTIA/frontend/lib/api.ts:86 | a text parameter guarded by truthiness is sent exactly when it is present and non-empty |
| Api.ClientsQueryShape | Doc-INTIA/frontend/lib/api.ts:82-87 | `clientsApi.getAll` sends, in the order `skip, limit, search, branch_id`, exactly the keys whose condition holds |
| Api.ClientsQueryValues | Doc-INTIA/frontend/lib/api.ts:84-87 | `clientsApi.getAll` sends `skip` and `limit` as the decimal text of any given number, `search` as the text itself when non-empty, and `branch_id` when non-zero; an omitted filter has no value |
| Api.ClientsGetAll | Doc-INTIA/frontend/lib/api.ts:82-91 | the endpoint requested is `/api/v1/clients` with the serialised parameters as its query |
| Api.PoliciesQueryShape | Doc-INTIA/frontend/lib/api.ts:120-126 | `policiesApi.getAll` sends, in the order `skip, limit, client_id, status, branch_id`, exactly the keys whose condition holds |
| Api.PoliciesNeverSearch | Doc-INTIA/frontend/lib/api.ts:120-126 | no call of `policiesApi.getAll` can send a `search` key |
| Api.PoliciesQueryValues | Doc-INTIA/frontend/lib/api.ts:122-126 | `policiesApi.getAll` sends `skip` and `limit` as the decimal text of any given number, `client_id` and `branch_id` when non-zero, and `status` when non-empty; an omitted filter has no value |
| Api.PoliciesGetAll | Doc-INTIA/frontend/lib/api.ts:120-130 | the endpoint requested is `/api/v1/policies` with the serialised parameters as its query |
| Api.AuditQueryShape | Doc-INTIA/frontend/lib/api.ts:181-187 | `auditApi.getAll` sends, in the order `skip, limit, user_id, action, resource_type`, exactly the keys whose condition holds |
| Api.AuditQueryValues | Doc-INTIA/frontend/lib/api.ts:183-187 | `auditApi.getAll` sends `skip` and `limit` as the decimal text of any given number, `user_id` when non-zero, and `action` and `resource_type` when non-empty; an omitted filter has no value |
| Api.AuditGetAll | Doc-INTIA/frontend/lib/api.ts:181-191 | the endpoint requested is `/api/v1/audit-logs` with the serialised parameters as its query |
| Api.QueryIffParams | Doc-INTIA/frontend/lib/api.ts:89-90 | an endpoint carries `?query` exactly when some parameter is sent, and then it is the path, `?` and the serialised parameters |
| Audit.Serialize | Doc-INTIA/backend/app/core/audit.py:58-72 | `serialize_for_json` leaves no date, datetime or Decimal anywhere: dates and datetimes become their ISO text, a Decimal becomes the float of its digits and scale, other scalars pass through unchanged, dictionaries keep their keys and lists their length |
| Audit.SerializeFixesReady | Doc-INTIA/backend/app/core/audit.py:58-72 | a value already free of dates and Decimals (None, booleans, integers, strings, floats and containers of them) is returned unchanged |
| Audit.SerializeIdempotent | Doc-INTIA/backend/app/core/audit.py:58-72 | serializing twice gives the same value as serializing once |
| Audit.SerializeChangesOnlyUnready | Doc-INTIA/backend/app/core/audit.py:58-72 | `serialize_for_json` returns a value unchanged if and only if it already holds no date, datetime or Decimal anywhere |
| Audit.StoredValues | Doc-INTIA/backend/app/core/audit.py:88-93 | a missing or empty old/new dictionary is stored as None; any other is stored as its serialization, entry by entry |
| Database.Db.constructor | Doc-INTIA/backend/init_db.py:276 | a freshly created schema has every table empty and satisfies every table constraint |
| Database.Db.LogAction | Doc-INTIA/backend/app/core/audit.py:75-108 | `log_action` appends exactly one audit record with the next id, the given user, action, resource and client data, and the stored forms of the two dictionaries; the other tables are untouched |
| AuditEndpoint.Matching | Doc-INTIA/backend/app/api/v1/endpoints/audit.py:36-46 | the filtered logs are the table's logs that satisfy every truthy filter, with inclusive date bounds, each as often as the table holds it |
| AuditEndpoint.Insert | Doc-INTIA/backend/app/api/v1/endpoints/audit.py:49 | inserting into a newest-first list keeps it newest-first and adds exactly that one log |
| AuditEndpoint.SortNewestFirst | Doc-INTIA/backend/app/api/v1/endpoints/audit.py:49 | `order_by(timestamp.desc())` returns a permutation of its input in which no log is newer than one before it |
| AuditEndpoint.ReadAuditLogs | Doc-INTIA/backend/app/api/v1/endpoints/audit.py:14-64 | out-of-range `skip`/`limit` give 422; otherwise non-administrators, and only they, get 403; an answer is exactly the OFFSET `skip` LIMIT `limit` window of the matching logs ordered newest first, so it holds `min(limit, total - skip)` logs (none past the end), with `total` the number of matching logs and the page/total_pages meta |
| AuditEndpoint.PageOfSorted | Doc-INTIA/backend/app/api/v1/endpoints/audit.py:49-52 | a page of the ordered matches is newest-first, holds `min(limit, matches - skip)` logs (none past the end), and holds only matching logs of the table |
| AuditEndpoint.NonAdminRefused | Doc-INTIA/backend/app/api/v1/endpoints/audit.py:28-32 | a non-administrator is refused whatever filters are given |
| AuditEndpoint.NoFilterCountsAll | Doc-INTIA/backend/app/api/v1/endpoints/audit.py:37-46 | with no truthy filter (empty strings included) `total` is the size of the whole table |
| AuditEndpoint.FirstPageNewest | Doc-INTIA/backend/app/api/v1/endpoints/audit.py:49-52 | when some log matches, the first page is not empty and holds the newest matching logs: a matching log left off it is no newer than anything on it |
| Paging.TotalPages | Doc-INTIA/backend/app/api/v1/endpoints/clients.py:45 | `total_pages` is the least number of pages of `limit` rows that hold `total` rows, and 0 exactly when there are no rows |
| Paging.PageOf | Doc-INTIA/backend/app/api/v1/endpoints/clients.py:50 | `page` is the 1-based page whose rows start at or before `skip` and end after it |
| Paging.ListMeta | Doc-INTIA/backend/app/api/v1/endpoints/clients.py:49-54 | the list meta carries `page`, `per_page` = limit, `total` and `total_pages` as above |
| Paging.AuditMeta | Doc-INTIA/backend/app/api/v1/endpoints/audit.py:54-63 | the audit meta is the list meta for every positive limit, and page 1 with 0 pages under its guard for the rest |
| Paging.PageRoundTrip | Doc-INTIA/backend/app/api/v1/endpoints/clients.py:50 | a request for page `p` with `skip = (p - 1) * limit` is labelled page `p` in the answer |
| Paging.PageWithinTotal | Doc-INTIA/backend/app/api/v1/endpoints/clients.py:45 | page `p` starts inside the result exactly when `p` is at most `total_pages` |
| AuditPage.ActionBadge | Doc-INTIA/frontend/app/admin/audit/page.tsx:76-89 | CREATE and LOGIN, and only they, get the default badge; UPDATE alone the secondary one; DELETE and LOGOUT alone the destructive one |
| AuditPage.Page.constructor | Doc-INTIA/frontend/app/admin/audit/page.tsx:31-38 | after the first render and its mount effect the page is loading, empty, filtered on "all" and "all", with one unfiltered fetch out |
| AuditPage.Page.FilterChange | Doc-INTIA/frontend/app/admin/audit/page.tsx:91-95 | choosing a filter item sets both filters and sends one more fetch with both of them, loading on |
| AuditPage.Page.FetchSettles | Doc-INTIA/frontend/app/admin/audit/page.tsx:40-55 | a settling fetch ends loading and replaces the rows by `data \|\| []`; a failure keeps the rows already shown |
| AuditPage.FetchSends | Doc-INTIA/frontend/app/admin/audit/page.tsx:43-48 | every filter combination the two selects offer requests skip 0 and limit 50, then the action and the resource type each unless it is "all" |
| AuditPage.ReadIsOutlined | Doc-INTIA/frontend/app/admin/audit/page.tsx:76-89 | of the actions the select offers, READ is the one shown with the outline badge |
| Auth.VerifyPassword | Doc-INTIA/backend/app/api/v1/endpoints/auth.py:14-22 | a password verifies exactly when `checkpw` answers true; whatever `checkpw` raises reads as a mismatch |
| Auth.LoginDecision | Doc-INTIA/backend/app/api/v1/endpoints/auth.py:32-45 | an unknown username or a wrong password gives 401 "Incorrect username or password"; a verified but inactive user gives 400 "Inactive user"; otherwise the first user of that name logs in |
| Auth.LoginOutcomes | Doc-INTIA/backend/app/api/v1/endpoints/auth.py:32-45 | an unknown user and a wrong password give the same error; "Inactive user" is only told to someone whose password verified; a success is an active user of that name |
| Auth.Response.constructor | Doc-INTIA/backend/app/api/v1/endpoints/auth.py:27 | a fresh response carries no cookie |
| Auth.Response.SetCookieHeader | Doc-INTIA/backend/app/api/v1/endpoints/auth.py:51-59 | `set_cookie` adds one more cookie header after the earlier ones |
| Auth.Response.DeleteCookie | Doc-INTIA/backend/app/api/v1/endpoints/auth.py:71 | `delete_cookie` adds an empty cookie of that key and path that expires at once |
| Auth.Expired | Doc-INTIA/backend/app/api/v1/endpoints/auth.py:71 | a deleting cookie has the given key and path, an empty value and a zero lifetime |
| Auth.Login | Doc-INTIA/backend/app/api/v1/endpoints/auth.py:25-65 | a refused login returns its error and sets no cookie; an accepted one signs a token for the username with the default lifetime, sets it as the HTTP-only, lax, 30-minute `token` cookie at `/`, and returns it with type "bearer" and the user |
| Auth.Logout | Doc-INTIA/backend/app/api/v1/endpoints/auth.py:68-72 | logout always clears the `token` cookie at `/` and answers "Successfully logged out", authenticated or not |
| Auth.CookieMatchesToken | Doc-INTIA/backend/app/api/v1/endpoints/auth.py:57 | the cookie lives exactly as long as a token signed with the default lifetime: 30 minutes |
| Auth.LoginThenAuthenticated | Doc-INTIA/backend/app/api/v1/endpoints/auth.py:48-59 | a token issued at login, sent back as the cookie while the decoder still accepts it, authenticates the same user |
| Security.CheckUserAccess | Doc-INTIA/backend/app/core/security.py:92-102 | an administrator may act on any branch; anyone else exactly on a present branch equal to their own |
| Security.AccessOfNonAdmin | Doc-INTIA/backend/app/core/security.py:92-102 | a non-administrator without a branch reaches no branch, any other non-administrator reaches exactly one, and a missing branch is never reachable |
| Security.GetTokenFromRequest | Doc-INTIA/backend/app/core/security.py:43-55 | a non-empty `token` cookie wins; otherwise a token is found exactly when the Authorization header starts with "Bearer ", and it is the text after that up to the next space |
| Security.BearerHeader | Doc-INTIA/backend/app/core/security.py:50-54 | "Bearer " followed by a token without spaces (and possibly more after a space) yields exactly that token |
| Security.OtherHeader | Doc-INTIA/backend/app/core/security.py:50-55 | a header that does not start with "Bearer " yields no token |
| Security.VerifyToken | Doc-INTIA/backend/app/core/security.py:30-40 | a token verifies exactly when it decodes and carries a string `sub`, which is the result; an undecodable token or one without `sub` gives 401 |
| Security.GetCurrentUser | Doc-INTIA/backend/app/core/security.py:58-89 | no token, then an invalid token, give their 401s in that order; a success is an active user whose username is the token's subject |
| Security.GetCurrentUserAfterToken | Doc-INTIA/backend/app/core/security.py:78-87 | with a token verifying to a name: no user of that name gives 401, and the first user of that name gives 400 when inactive and success otherwise |
| Security.Lifetime | Doc-INTIA/backend/app/core/security.py:108-111 | a missing or zero expiry delta gets the default 30 minutes; any other delta is used as given |
| Security.TokenPayload | Doc-INTIA/backend/app/core/security.py:105-113 | the signed claims are a copy of the data with `exp` set to now plus the lifetime, every other claim unchanged |
| Models.CommitClient | Doc-INTIA/backend/app/models/client.py:8-15 | the database accepts a client object exactly when none of its NOT NULL columns is None, and stores exactly what the object holds |
| Models.CommitPolicy | Doc-INTIA/backend/app/models/policy.py:8-26 | the database accepts a policy object exactly when every NOT NULL column is set, the end date is after the start date, the status is one of the four words and the premium is positive; the stored row is the object and satisfies the three CHECK constraints |
| Models.CommitUnchanged | Doc-INTIA/backend/app/models/policy.py:22-26 | a stored row committed again unchanged is accepted as it is |
| Models.PremiumText | Doc-INTIA/backend/app/models/policy.py:14 | `str()` of a `Numeric(10, 2)` premium always shows two decimals after a point |
| Schemas.FieldOr | Doc-INTIA/backend/app/services/client_service.py:142-143 | after `setattr`, a field left out of the body keeps the object's current value, one sent as null holds None and one sent with a value holds that value |
| Schemas.ClientUpdateData | Doc-INTIA/backend/app/schemas/client.py:20-27 | `model_dump(exclude_unset=True)` of a client update holds at most one item per field of the schema |
| Schemas.ClientUpdateEntries | Doc-INTIA/backend/app/services/client_service.py:180-188 | the `new_values` of an update are the supplied fields, item by item, with their values |
| Schemas.ValidatePolicyCreate | Doc-INTIA/backend/app/schemas/policy.py:16-20 | a policy body is accepted exactly when its end date is after its start date, and then unchanged; otherwise 422 |
| Schemas.ValidatePolicyUpdate | Doc-INTIA/backend/app/schemas/policy.py:35-40 | an update body is refused exactly when it supplies both dates and they are not in order, and only with 422 |
| Schemas.ValidatorEdges | Doc-INTIA/backend/app/schemas/policy.py:16-40 | equal dates are refused on create; an update supplying at most one date, and the empty update, are never refused by the validator |
| Schemas.PolicyResponseOf | Doc-INTIA/backend/app/schemas/policy.py:43-50 | building the response re-runs the date validator, so only a row whose end date is after its start date can be returned |
| Schemas.PolicyUpdateData | Doc-INTIA/backend/app/schemas/policy.py:27-33 | `model_dump(exclude_unset=True)` of a policy update holds at most one item per field of the schema |
| Schemas.PolicyUpdateEntries | Doc-INTIA/backend/app/services/policy_service.py:174-182 | the `new_values` of a policy update are the supplied fields, item by item, with their values |
| PolicyService.GetPolicyCount | Doc-INTIA/backend/app/services/policy_service.py:45-67 | the count of the filtered query never exceeds the table |
| PolicyService.GetPolicies | Doc-INTIA/backend/app/services/policy_service.py:17-43 | a page is exactly the OFFSET `skip` LIMIT `limit` window of the filtered query, so it holds `min(limit, count - skip)` policies (none past the end), each a stored policy that passes the branch scope and the truthy `client_id` and `status` filters |
| PolicyService.ListedPoliciesCounted | Doc-INTIA/backend/app/services/policy_service.py:53-67 | every stored policy that the filters admit is part of the counted query |
| PolicyService.PolicyFilters | Doc-INTIA/backend/app/services/policy_service.py:29-41 | for a non-administrator the `branch_id` argument changes neither the page nor the count, every listed policy is in the user's branch, and truthy client and status filters are matched exactly |
| PolicyService.FalsyFiltersIgnored | Doc-INTIA/backend/app/services/policy_service.py:38-41 | a client id of 0 and an empty status filter nothing, being falsy |
| PolicyService.GetPolicyById | Doc-INTIA/backend/app/services/policy_service.py:69-86 | 404 exactly when no policy has the id; 403 only when one has it and its branch is out of the user's reach; a success is the stored policy of that id in the user's reach |
| PolicyService.NewPolicyDraft | Doc-INTIA/backend/app/services/policy_service.py:116-120 | the new policy object carries the body's number and client, the client's branch and status `pending` |
| PolicyService.CreateCommitFails | Doc-INTIA/backend/app/services/policy_service.py:116-122 | a validated create fails at commit exactly when its premium is not positive |
| PolicyService.PolicyAppendOk | Doc-INTIA/backend/app/models/policy.py:8-26 | a policy with a fresh id and number, valid CHECK constraints and a stored client keeps the table's constraints and foreign keys |
| PolicyService.CreatePolicy | Doc-INTIA/backend/app/services/policy_service.py:88-135 | unknown client gives 400, a client of another branch 403, a taken number 400, a constraint violation 500, each leaving the database unchanged; otherwise exactly one policy (client's branch, status `pending`) is appended and one CREATE entry with the policy dictionary is logged, other tables untouched |
| PolicyService.Updated | Doc-INTIA/backend/app/services/policy_service.py:165-168 | an update never changes the id, the number, the client or the branch of the policy object |
| PolicyService.ApplyUpdateData | Doc-INTIA/backend/app/services/policy_service.py:166-168 | the `setattr` loop over the exclude-unset dump sets exactly the supplied fields to their values and leaves the others |
| PolicyService.EndDateAloneCanFail | Doc-INTIA/backend/app/schemas/policy.py:35-40 | an update moving the end date alone to or before the stored start date passes the validator and is refused at commit |
| PolicyService.UpdateKeepsIdentity | Doc-INTIA/backend/app/services/policy_service.py:165-171 | a committed update keeps the row's id, number, client and branch and satisfies the CHECK constraints |
| PolicyService.SetAttrs | Doc-INTIA/backend/app/services/policy_service.py:167-168 | the loop applies the items one after another, in dump order |
| PolicyService.ReplacePolicy | Doc-INTIA/backend/app/services/policy_service.py:170 | storing a constraint-satisfying row with the same id, number and client at a position keeps every table constraint and changes only that position |
| PolicyService.UpdatePolicy | Doc-INTIA/backend/app/services/policy_service.py:137-184 | a lookup error is returned unchanged, a constraint violation gives 500, both with the database unchanged; otherwise the policy is replaced in place by the updated row and one UPDATE entry with the eight old values and the supplied fields is logged |
| PolicyService.DeletePolicy | Doc-INTIA/backend/app/services/policy_service.py:186-223 | a lookup error is returned with the database unchanged; otherwise the policy, whatever its status, is removed, the others keep their order, and one DELETE entry with its eight old values is logged |
| ClientService.GetClientCount | Doc-INTIA/backend/app/services/client_service.py:49-75 | the count of the filtered query never exceeds the table |
| ClientService.GetClients | Doc-INTIA/backend/app/services/client_service.py:17-47 | a page is exactly the OFFSET `skip` LIMIT `limit` window of the filtered query, so it holds `min(limit, count - skip)` clients (none past the end), each a stored client that passes the branch scope and the search |
| ClientService.ListedClientsCounted | Doc-INTIA/backend/app/services/client_service.py:49-75 | every stored client that the filters admit is part of the counted query |
| ClientService.NonAdminScope | Doc-INTIA/backend/app/services/client_service.py:29-31 | for a non-administrator the `branch_id` argument changes neither the page nor the count, and every listed client is in the user's own branch |
| ClientService.AdminScope | Doc-INTIA/backend/app/services/client_service.py:32-34 | for an administrator a truthy `branch_id` confines the query to that branch, and an absent or zero one leaves only the search |
| ClientService.SearchResultsMatch | Doc-INTIA/backend/app/services/client_service.py:37-45 | with a non-empty search every listed client has the lower-cased search text inside its lower-cased first name, last name or email |
| ClientService.GetClientById | Doc-INTIA/backend/app/services/client_service.py:77-94 | 404 exactly when no client has the id; 403 only when one has it and its branch is out of the user's reach; a success is the stored client of that id in the user's reach |
| ClientService.NewClient | Doc-INTIA/backend/app/services/client_service.py:114 | the new client carries the next id and the body's branch and email |
| ClientService.Updated | Doc-INTIA/backend/app/services/client_service.py:172-174 | an update never changes the id of the client object |
| ClientService.ApplyUpdateData | Doc-INTIA/backend/app/services/client_service.py:142-174 | the `setattr` loop over the exclude-unset dump sets exactly the supplied fields to their values, None for an explicit null, and leaves the others |
| ClientService.SetAttrs | Doc-INTIA/backend/app/services/client_service.py:173-174 | the loop applies the items one after another, in dump order |
| ClientService.CreateClient | Doc-INTIA/backend/app/services/client_service.py:96-130 | a branch out of the user's reach gives 403 and an email already stored gives 400, both with the database unchanged; otherwise exactly one client with the next id is appended and one CREATE entry with the body is logged, other tables untouched |
| ClientService.UnreferencedRemoved | Doc-INTIA/backend/app/services/client_service.py:222-223 | removing a client no policy refers to keeps the client table's constraints and every policy's foreign key |
| ClientService.UpdateClient | Doc-INTIA/backend/app/services/client_service.py:132-190 | a lookup error is returned unchanged; a target branch out of reach gives 403; a new, differing email held by another client gives 400; a null on a NOT NULL column gives 500; all with the database unchanged; otherwise the client is replaced in place, stays in the user's reach, and one UPDATE entry with the seven old values and the supplied fields is logged |
| ClientService.UpdatedStaysUnique | Doc-INTIA/backend/app/services/client_service.py:150-159 | once the duplicate-email check lets an update through, client ids and emails stay unique |
| ClientService.DeleteClient | Doc-INTIA/backend/app/services/client_service.py:192-235 | a lookup error is returned; a client with an active policy is refused with 400; one with any other policy fails at commit with 500; all with the database unchanged; otherwise the client is removed, the others keep their order, and one DELETE entry with its seven old values is logged |
| ClientsEndpoint.ReadClients | Doc-INTIA/backend/app/api/v1/endpoints/clients.py:19-55 | out-of-range `skip`/`limit` give 422 and nothing else fails; an answer is exactly the `skip`/`limit` window of the filtered query, `min(limit, total - skip)` listed clients of the table (none past the end), with the meta computed from that count |
| ClientsEndpoint.ReadClientsPage | Doc-INTIA/backend/app/api/v1/endpoints/clients.py:45-54 | the frontend's request for page `p` is answered as page `p` of 20, and holds rows exactly when `p` is at most `total_pages` |
| ClientsEndpoint.ReadClient | Doc-INTIA/backend/app/api/v1/endpoints/clients.py:68-95 | succeeds exactly when the lookup does, passing its error through; the answer is the looked-up client with one summary per policy of that client and no other |
| ClientsEndpoint.SummariesOf | Doc-INTIA/backend/app/api/v1/endpoints/clients.py:79-94 | the `policies` list holds one summary per policy of the client, in the order of the client's policies, and nothing else |
| ClientsEndpoint.CreateClient | Doc-INTIA/backend/app/api/v1/endpoints/clients.py:57-66 | a success answers 201 and adds exactly the created client; a failure answers its own status and changes nothing |
| ClientsEndpoint.UpdateClient | Doc-INTIA/backend/app/api/v1/endpoints/clients.py:97-107 | a success answers 200 with a stored client of that id; a failure answers its own status and changes nothing |
| ClientsEndpoint.DeleteClient | Doc-INTIA/backend/app/api/v1/endpoints/clients.py:109-118 | a success answers 204 and leaves one client fewer, none with that id; a failure answers its own status and changes nothing |
| PoliciesEndpoint.ReadPolicies | Doc-INTIA/backend/app/api/v1/endpoints/policies.py:18-57 | out-of-range bounds or a status outside the four words give 422; a listed row failing response validation gives 500; an answer is exactly the `skip`/`limit` window of the filtered query, `min(limit, total - skip)` listed policies (none past the end), with the meta of the count |
| PoliciesEndpoint.ReadPoliciesOk | Doc-INTIA/backend/app/api/v1/endpoints/policies.py:18-57 | over stored policies the listing succeeds exactly when the bounds and the status pattern are met, and an accepted status is always a real filter |
| PoliciesEndpoint.ReadPoliciesPage | Doc-INTIA/backend/app/api/v1/endpoints/policies.py:47-56 | the frontend's request for page `p` of 20 succeeds and is answered as page `p` |
| PoliciesEndpoint.ReadPolicy | Doc-INTIA/backend/app/api/v1/endpoints/policies.py:70-79 | the lookup's error is passed through; a success is the looked-up policy, with its dates in order |
| PoliciesEndpoint.ReadPolicyStored | Doc-INTIA/backend/app/api/v1/endpoints/policies.py:70-79 | over stored policies `read_policy` answers exactly what the lookup answers |
| PoliciesEndpoint.CreatePolicy | Doc-INTIA/backend/app/api/v1/endpoints/policies.py:59-68 | a success answers 201 and adds exactly the created policy, `pending`, with the body's number, in the branch of its client; a failure answers its own status and changes nothing |
| PoliciesEndpoint.UpdatePolicy | Doc-INTIA/backend/app/api/v1/endpoints/policies.py:81-91 | a success answers 200 with a policy of that id satisfying the CHECK constraints; a failure answers its own status and changes nothing |
| PoliciesEndpoint.DeletePolicy | Doc-INTIA/backend/app/api/v1/endpoints/policies.py:93-102 | a success answers 204 and leaves one policy fewer; a failure answers its own status and changes nothing |
| Middleware.Decide | Doc-INTIA/frontend/middleware.ts:4-20 | the middleware redirects exactly a request for `/login` carrying a non-empty `token` cookie, and always to `/dashboard`; every other request, protected pages without a token included, goes through |
| Middleware.Handle | Doc-INTIA/frontend/middleware.ts:4-33 | with the matcher in front, a request is still redirected exactly when it is for `/login` with a non-empty token |
| Middleware.LoginMatched | Doc-INTIA/frontend/middleware.ts:31 | the login page is one of the paths the matcher sends to the middleware |
| Middleware.ExcludedExamples | Doc-INTIA/frontend/middleware.ts:31 | the look-ahead tests prefixes: `/apiary`, `/api/v1/clients`, `/_next/static/...` and `/favicon-ico` (its `.` matching any character) all escape the middleware |
| Middleware.MatchedExamples | Doc-INTIA/frontend/middleware.ts:31 | `/dashboard`, `/` and `/ap` all reach the middleware |
| Text.TrimStart | Doc-INTIA/frontend/lib/api.ts:47 | trimming the start removes a run of leading white space and nothing else: the result is a suffix that does not start with white space |
| Text.TrimEnd | Doc-INTIA/frontend/lib/api.ts:47 | trimming the end removes a run of trailing white space and nothing else: the result is a prefix that does not end with white space |
| Text.BlankIff | Doc-INTIA/frontend/lib/api.ts:47 | `text.trim()` is empty exactly when every character of the text is JavaScript white space |
| Text.NotBlankAt | Doc-INTIA/frontend/components/forms/ClientForm.tsx:66-92 | a text with one character that is not white space passes a `.trim()` required-field check |
| Text.Lower | Doc-INTIA/backend/app/services/client_service.py:41-43 | lower-casing keeps the length and maps each character on its own |
| Text.ContainsIff | Doc-INTIA/backend/app/services/client_service.py:38-44 | the `%search%` pattern matches exactly when the search text sits at some position of the column |
| Text.TakeUntil | Doc-INTIA/backend/app/core/security.py:53 | the text before the first separator is a prefix that holds no separator and stops at one, or at the end |
| Text.Split | Doc-INTIA/backend/app/core/security.py:53 | `split(" ")` has at least one piece, the first being the text before the first separator |
| Text.SplitSecond | Doc-INTIA/backend/app/core/security.py:53 | after "Bearer" and a space the second piece of `split(" ")` is the text up to the next space |
| Text.NatToString | Doc-INTIA/frontend/lib/api.ts:36 | a number is written as a non-empty run of decimal digits |
| Text.ParseNat | Doc-INTIA/frontend/lib/api.ts:36 | a text is read as a number exactly when it is a non-empty run of decimal digits |
| Text.ParseNatToString | Doc-INTIA/frontend/lib/api.ts:36 | reading back a written number gives the number |
| Text.LexLessConcat | Doc-INTIA/frontend/components/forms/PolicyForm.tsx:95 | JavaScript string order on texts with equal-length heads is decided by the heads, then the tails |
| Text.LexLessIrreflexive | Doc-INTIA/frontend/components/forms/PolicyForm.tsx:95 | no text is smaller than itself |
| Dates.Pad | Doc-INTIA/backend/app/core/audit.py:60-61 | a zero-padded field has exactly the requested width and only digits |
| Dates.PadOrder | Doc-INTIA/frontend/components/forms/PolicyForm.tsx:95 | zero-padded numerals of one width compare as strings exactly as the numbers do, and are equal exactly when the numbers are |
| Dates.IsoDate | Doc-INTIA/backend/app/core/audit.py:60-61 | `date.isoformat()` is ten characters, YYYY-MM-DD, with dashes at positions 4 and 7 |
| Dates.IsoDateTime | Doc-INTIA/backend/app/core/audit.py:60-61 | `datetime.isoformat()` starts with the ISO date and a `T`, and is 19 characters long, 26 when the microseconds are non-zero |
| Dates.IsoDateOrder | Doc-INTIA/frontend/components/forms/PolicyForm.tsx:95 | for real dates, string order on the ISO texts is date order, and equal texts are equal dates |
| Dates.IsoDateNotAfter | Doc-INTIA/frontend/components/forms/PolicyForm.tsx:95 | `end_date <= start_date` on ISO texts holds exactly when the end date is not after the start date |
| Dates.IsoDateCut | Doc-INTIA/frontend/components/forms/PolicyForm.tsx:42-43 | `split('T')[0]` of an ISO date or date-time text is the ISO date |
| Ui.CaughtMessage | Doc-INTIA/frontend/app/clients/page.tsx:75 | a caught `Error` shows its own message; any other thrown value shows the fallback text |
| ClientForm.InitialForm | Doc-INTIA/frontend/components/forms/ClientForm.tsx:34-42 | with no client the form starts empty on branch 1; a given client's names, e-mail, phone and address are taken over, its branch unless it is 0 (then branch 1), and its date of birth when present (else the empty text); the branch is never 0 |
| ClientForm.EmailPatternIff | Doc-INTIA/frontend/components/forms/ClientForm.tsx:77 | `/^[^\s@]+@[^\s@]+\.[^\s@]+$/` accepts exactly the texts with no white space, exactly one `@` that is not first, and a `.` after at least one character following the `@` and before at least one more |
| ClientForm.PatternGivesRule | Doc-INTIA/frontend/components/forms/ClientForm.tsx:77 | every text the pattern accepts obeys the character rule |
| ClientForm.RuleGivesPattern | Doc-INTIA/frontend/components/forms/ClientForm.tsx:77 | every text obeying the character rule is accepted by the pattern |
| ClientForm.PatternNotBlank | Doc-INTIA/frontend/components/forms/ClientForm.tsx:75-79 | an address the pattern accepts is never blank, so "required" and "invalid format" never both apply |
| ClientForm.CollectIsErrors | Doc-INTIA/frontend/components/forms/ClientForm.tsx:67-88 | recording the tests one by one leaves one message under each key whose test failed and nothing else |
| ClientForm.CollectAll | Doc-INTIA/frontend/components/forms/ClientForm.tsx:67-88 | after all six tests the object holds exactly one message per failing test |
| ClientForm.Record | Doc-INTIA/frontend/components/forms/ClientForm.tsx:69-88 | each `if (test) newErrors.key = message` adds that key's message exactly when its test fails |
| ClientForm.RecordEmail | Doc-INTIA/frontend/components/forms/ClientForm.tsx:75-79 | the e-mail tests record "required" for a blank address, otherwise "invalid format" when the pattern rejects it |
| ClientForm.RecordErrors | Doc-INTIA/frontend/components/forms/ClientForm.tsx:67-88 | the six tests in source order leave exactly the messages of the failing tests |
| ClientForm.Payload | Doc-INTIA/frontend/components/forms/ClientForm.tsx:101-105 | the submitted object has one entry per form field, and the birth date is `undefined` exactly when it is empty |
| ClientForm.Form.constructor | Doc-INTIA/frontend/components/forms/ClientForm.tsx:34-44 | the form starts from the initial values with no errors |
| ClientForm.Form.HandleChange | Doc-INTIA/frontend/components/forms/ClientForm.tsx:59-64 | the named field takes the new value; a shown error of that field is blanked and every other error kept |
| ClientForm.Form.Validate | Doc-INTIA/frontend/components/forms/ClientForm.tsx:66-92 | the shown errors become the messages of the failing tests, and the form is valid exactly when every field is acceptable |
| ClientForm.Form.Submit | Doc-INTIA/frontend/components/forms/ClientForm.tsx:94-108 | `onSubmit` receives the payload exactly when the form is complete; otherwise the errors are shown and nothing is sent |
| ClientForm.NoErrorsIff | Doc-INTIA/frontend/components/forms/ClientForm.tsx:90-91 | `Object.keys(newErrors).length === 0` exactly when no test failed |
| ClientForm.PassesIff | Doc-INTIA/frontend/components/forms/ClientForm.tsx:69-88 | every test passes exactly when the five texts are not blank, the e-mail obeys the character rule and a branch is chosen |
| ClientForm.ValidIff | Doc-INTIA/frontend/components/forms/ClientForm.tsx:66-92 | validation records no error exactly when every field is acceptable |
| ClientForm.EmailEntry | Doc-INTIA/frontend/components/forms/ClientForm.tsx:75-79 | there is an e-mail message exactly when one of its two tests fails, and it is "required" when the address is blank |
| ClientForm.EmailMessage | Doc-INTIA/frontend/components/forms/ClientForm.tsx:75-79 | the e-mail is reported missing exactly when it is blank, and malformed exactly when it is present but breaks the character rule |
| ClientForm.PaddedBreaksRule | Doc-INTIA/frontend/components/forms/ClientForm.tsx:75-77 | a valid address typed after a space is not blank, yet breaks the rule |
| ClientForm.PaddedEmailRejected | Doc-INTIA/frontend/components/forms/ClientForm.tsx:75-79 | `validate`'s pattern tests the untrimmed text, so a valid address given to it with a leading space is reported as malformed |
| ClientForm.InitialBranchPasses | Doc-INTIA/frontend/components/forms/ClientForm.tsx:35 | the initial branch always passes the branch test |
| ClientForm.ChangeTouchesOneField | Doc-INTIA/frontend/components/forms/ClientForm.tsx:60 | a change alters only the field it names |
| PolicyForm.InitialForm | Doc-INTIA/frontend/components/forms/PolicyForm.tsx:36-45 | with no policy the form starts empty with client 0 and status "pending"; a given policy's number (empty when missing), client, type, coverage and premium text are taken over, each date is its text before the first `T`, and its status is kept unless missing or empty, when it becomes "pending" |
| PolicyForm.CollectIsErrors | Doc-INTIA/frontend/components/forms/PolicyForm.tsx:72-98 | recording the tests one by one leaves one message under each key whose test failed and nothing else |
| PolicyForm.CollectAll | Doc-INTIA/frontend/components/forms/PolicyForm.tsx:72-98 | after all seven keys the object holds exactly one message per failing test |
| PolicyForm.Payload | Doc-INTIA/frontend/components/forms/PolicyForm.tsx:110-119 | the submitted object has seven entries: the policy number only when creating, the status only when editing |
| PolicyForm.Record | Doc-INTIA/frontend/components/forms/PolicyForm.tsx:74-93 | each `if (test) newErrors.key = message` adds that key's message exactly when its test fails |
| PolicyForm.RecordEndDate | Doc-INTIA/frontend/components/forms/PolicyForm.tsx:92-97 | the two end-date tests leave the ordering message whenever it applies, else "required" for a missing date |
| PolicyForm.RecordErrors | Doc-INTIA/frontend/components/forms/PolicyForm.tsx:72-98 | the tests in source order leave exactly the messages of the failing tests |
| PolicyForm.Form.constructor | Doc-INTIA/frontend/components/forms/PolicyForm.tsx:36-47 | the form is in edit mode exactly when a policy is given, and starts from its initial values with no errors |
| PolicyForm.Form.HandleChange | Doc-INTIA/frontend/components/forms/PolicyForm.tsx:64-69 | the named field takes the new value; a shown error of that field is blanked and every other error kept |
| PolicyForm.Form.Validate | Doc-INTIA/frontend/components/forms/PolicyForm.tsx:71-101 | the shown errors become the messages of the failing tests, and the form is valid exactly when every field is acceptable |
| PolicyForm.Form.Submit | Doc-INTIA/frontend/components/forms/PolicyForm.tsx:103-121 | `onSubmit` receives the payload exactly when the form is complete; otherwise the errors are shown and nothing is sent |
| PolicyForm.ValidIff | Doc-INTIA/frontend/components/forms/PolicyForm.tsx:71-101 | validation records no error exactly when every field is acceptable |
| PolicyForm.NoErrorsIff | Doc-INTIA/frontend/components/forms/PolicyForm.tsx:99-100 | `Object.keys(newErrors).length === 0` exactly when no test failed |
| PolicyForm.EntryOf | Doc-INTIA/frontend/components/forms/PolicyForm.tsx:72-98 | each checked key has an entry exactly when its test fails, holding that test's message |
| PolicyForm.EndDateMessage | Doc-INTIA/frontend/components/forms/PolicyForm.tsx:92-97 | the ordering message is shown exactly when both dates are present and the end does not sort after the start; "required" exactly when the end date is empty |
| PolicyForm.EndDateEntry | Doc-INTIA/frontend/components/forms/PolicyForm.tsx:92-97 | the later ordering assignment overwrites the "required" one |
| PolicyForm.NaNPremiumPasses | Doc-INTIA/frontend/components/forms/PolicyForm.tsx:86 | a premium text that `parseFloat` reads as NaN passes the `<= 0` test |
| PolicyForm.SameDateRuleAsBackend | Doc-INTIA/frontend/components/forms/PolicyForm.tsx:95-97 | on ISO date texts the form rejects the end date exactly when the backend validator rejects the pair |
| PolicyForm.StoredDatesPass | Doc-INTIA/frontend/components/forms/PolicyForm.tsx:42-43 | editing a stored policy, whose dates arrive as `YYYY-MM-DD` texts (or date-time texts on those days) and which the database keeps ordered, shows no date error until a date is changed |
| PolicyForm.StoredDatesCut | Doc-INTIA/frontend/components/forms/PolicyForm.tsx:42-43 | the edit form's date fields are the `YYYY-MM-DD` texts of the stored dates, whether they arrive in that form or as date-time texts |
| PolicyForm.SentAsCut | Doc-INTIA/frontend/components/forms/PolicyForm.tsx:42-43 | `split('T')[0]` of a `YYYY-MM-DD` text, or of a date-time text on that day, is the `YYYY-MM-DD` text |
| PolicyForm.ChangeTouchesOneField | Doc-INTIA/frontend/components/forms/PolicyForm.tsx:65 | a change alters only the field it names |
| Layout.NavigationWrapper.constructor | Doc-INTIA/frontend/components/layout/NavigationWrapper.tsx:9-11 | the wrapper starts checking and unauthenticated, so the bar is hidden |
| Layout.NavigationWrapper.Navigate | Doc-INTIA/frontend/components/layout/NavigationWrapper.tsx:9 | a navigation changes only the pathname |
| Layout.NavigationWrapper.Effect | Doc-INTIA/frontend/components/layout/NavigationWrapper.tsx:13-34 | on `/login` the bar is hidden at once and nothing is probed; elsewhere a probe starts on every run, and checking is never raised again |
| Layout.NavigationWrapper.ProbeSettles | Doc-INTIA/frontend/components/layout/NavigationWrapper.tsx:22-31 | a settled probe ends the check and the bar shows exactly when it succeeded, whatever page is current |
| Layout.ActiveExamples | Doc-INTIA/frontend/components/layout/Navigation.tsx:45-46 | a sub-page activates its section, as does any text it begins, and `/` activates none |
| Layout.NoHrefPrefix | Doc-INTIA/frontend/components/layout/Navigation.tsx:9-15 | no item's `href` begins another's |
| Layout.PrefixesNested | Doc-INTIA/frontend/components/layout/Navigation.tsx:45-46 | two prefixes of one pathname are prefixes of each other |
| Layout.AtMostOneActive | Doc-INTIA/frontend/components/layout/Navigation.tsx:9-15 | whatever the pathname, at most one item is highlighted |
| Layout.HandleLogout | Doc-INTIA/frontend/components/layout/Navigation.tsx:20-31 | whatever the logout call did, the stored user is removed and the browser goes to `/login` |
| AuthGuard.ProtectedRoute.constructor | Doc-INTIA/frontend/components/auth/ProtectedRoute.tsx:13-15 | the guard starts checking with no recorded pathname, showing the spinner except on `/login` |
| AuthGuard.ProtectedRoute.Navigate | Doc-INTIA/frontend/components/auth/ProtectedRoute.tsx:13 | a navigation changes only the pathname and keeps the guard's invariant |
| AuthGuard.ProtectedRoute.Effect | Doc-INTIA/frontend/components/auth/ProtectedRoute.tsx:17-48 | `/login` ends checking without a probe; a recorded pathname is left alone; a new one is recorded and probed with the spinner on |
| AuthGuard.ProtectedRoute.ProbeSettles | Doc-INTIA/frontend/components/auth/ProtectedRoute.tsx:32-45 | a settled probe ends checking, and a failed one sends the browser to `/login` |
| AuthGuard.ProtectedRoute.SpinnerWaitsForProbe | Doc-INTIA/frontend/components/auth/ProtectedRoute.tsx:51-60 | once the effect has run on the current page, a visible spinner means a probe is out that will remove it |
| Paging.ReloadPage | Doc-INTIA/frontend/app/clients/page.tsx:121 | `meta?.page \|\| 1`, as both list pages write it (also policies/page.tsx:137): the page the meta names when it is a real page, and never the falsy page 0 |
| ClientsPage.Page.constructor | Doc-INTIA/frontend/app/clients/page.tsx:49-55 | the first render: loading, no rows, empty search, no meta, no error, nothing scheduled |
| ClientsPage.Page.Mount | Doc-INTIA/frontend/app/clients/page.tsx:82-110 | in a production build, where each effect runs once, the first commit only clears the initial-mount flag, since the mount fetch is commented out, so the page stays loading with no timer and no request that could end it |
| ClientsPage.Page.EditSearch | Doc-INTIA/frontend/app/clients/page.tsx:98-115 | typing sets the search text, and a changed text replaces the pending timeout by one for the new text |
| ClientsPage.Page.StartFetch | Doc-INTIA/frontend/app/clients/page.tsx:57-70 | a fetch records whether the rendered search box had focus, sets loading and sends its request; nothing else changes |
| ClientsPage.Page.TimerFires | Doc-INTIA/frontend/app/clients/page.tsx:103-107 | the elapsed timeout fetches page 1 of the text it was set for |
| ClientsPage.Page.ClickPage | Doc-INTIA/frontend/app/clients/page.tsx:221-233 | a pager button fetches its page of the current search |
| ClientsPage.Page.ClickDelete | Doc-INTIA/frontend/app/clients/page.tsx:117-119 | a confirmed delete sends the request, capturing the search text and meta of that render |
| ClientsPage.Page.DeleteSettles | Doc-INTIA/frontend/app/clients/page.tsx:117-126 | a successful delete refetches the captured page and search; a failed one sets the error; a shown error stays shown |
| ClientsPage.Page.FetchSettles | Doc-INTIA/frontend/app/clients/page.tsx:66-89 | an answer replaces rows and meta, or sets the error; loading ends either way; a focus is scheduled exactly when loading ended, the fetch began focused and the box is rendered |
| ClientsPage.FetchSends | Doc-INTIA/frontend/app/clients/page.tsx:63-70 | page `p` is requested as skip (p-1)*20 and limit 20, with the search exactly when it is non-empty, and the backend labels the answer page `p` |
| ClientsPage.PagerRule | Doc-INTIA/frontend/app/clients/page.tsx:221-233 | the pager appears exactly when there are more than 20 rows, and every button asks for a page starting inside the result |
| PoliciesPage.PageRequestOf | Doc-INTIA/frontend/app/policies/page.tsx:73-81 | the request object has a status exactly when the filter is not "all", and a search exactly when the text is non-empty |
| PoliciesPage.StatusBadge | Doc-INTIA/frontend/app/policies/page.tsx:144-156 | the badge is "outline" exactly for an unknown status, "destructive" exactly for cancelled or expired, "default" exactly for active |
| PoliciesPage.Page.constructor | Doc-INTIA/frontend/app/policies/page.tsx:58-65 | the first render: loading, filter "all", no rows, no meta, no error, nothing scheduled |
| PoliciesPage.Page.Mount | Doc-INTIA/frontend/app/policies/page.tsx:102-121 | in a production build the first commit only clears the initial-mount flag, leaving the page loading for good |
| PoliciesPage.Page.EditSearch | Doc-INTIA/frontend/app/policies/page.tsx:109-126 | typing sets the search text, and a changed text re-arms the timeout with both filters |
| PoliciesPage.Page.ChooseStatus | Doc-INTIA/frontend/app/policies/page.tsx:109-131 | choosing a status sets the filter, and a changed filter re-arms the timeout with both filters |
| PoliciesPage.Page.StartFetch | Doc-INTIA/frontend/app/policies/page.tsx:67-81 | a fetch records focus, sets loading and sends its request; nothing else changes |
| PoliciesPage.Page.TimerFires | Doc-INTIA/frontend/app/policies/page.tsx:116-118 | the elapsed timeout fetches page 1 under the filters it captured |
| PoliciesPage.Page.ClickPage | Doc-INTIA/frontend/app/policies/page.tsx:269-279 | a pager button fetches its page under the current filters |
| PoliciesPage.Page.ClickDelete | Doc-INTIA/frontend/app/policies/page.tsx:133-135 | a confirmed delete sends the request, capturing that render's filters and meta |
| PoliciesPage.Page.DeleteSettles | Doc-INTIA/frontend/app/policies/page.tsx:133-142 | a successful delete refetches the captured page under the captured filters; a failed one sets the error |
| PoliciesPage.Page.FetchSettles | Doc-INTIA/frontend/app/policies/page.tsx:76-100 | an answer replaces rows and meta, or sets the error; loading ends; a focus is scheduled exactly as on the clients page |
| PoliciesPage.FetchSends | Doc-INTIA/frontend/app/policies/page.tsx:73-81 | page `p` is requested as skip (p-1)*20 and limit 20, with the status unless the filter is "all" (then a status the database admits), and never the search text |
| PoliciesPage.SearchIgnored | Doc-INTIA/frontend/app/policies/page.tsx:80 | two fetches differing only in their search text send the same query |
| Seed.BranchSeedStepCovers | Doc-INTIA/backend/init_db.py:55-60 | after one seed branch its code is stored, the stored branches are kept, and one id is used per inserted row |
| Seed.CodeTakenGrows | Doc-INTIA/backend/init_db.py:56-57 | a stored code stays stored when rows are added |
| Seed.BranchesSeededExtends | Doc-INTIA/backend/init_db.py:55-60 | seeding keeps the stored branches as a prefix and hands out one id per inserted branch |
| Seed.BranchesSeededCovers | Doc-INTIA/backend/init_db.py:55-60 | after seeding every seed code is stored |
| Seed.BranchesSeededNothingNew | Doc-INTIA/backend/init_db.py:56-57 | when every seed code is already stored, seeding changes nothing |
| Seed.BranchesSeededIdempotent | Doc-INTIA/backend/init_db.py:25-69 | a second run of `seed_branches` inserts nothing |
| Seed.BranchAppendOk | Doc-INTIA/backend/init_db.py:58-60 | a branch with the next id and an unused code keeps the branch table's constraints |
| Seed.SeedBranches | Doc-INTIA/backend/init_db.py:25-69 | `seed_branches` leaves the branches the seeding function gives, and no other table changed |
| Seed.InsertBranches | Doc-INTIA/backend/init_db.py:55-60 | the loop over the seeds leaves the branches and next id the seeding function gives |
| Seed.InsertBranch | Doc-INTIA/backend/init_db.py:56-60 | one seed is skipped when its code is stored and inserted with the next id otherwise |
| Seed.BranchUsers | Doc-INTIA/backend/init_db.py:86-104 | two users, an agent and a viewer, per branch |
| Seed.BranchUsersAt | Doc-INTIA/backend/init_db.py:86-104 | the agent of the `i`th branch sits at `2i`, its viewer right after |
| Seed.SeedUserListShape | Doc-INTIA/backend/init_db.py:76-104 | `users_data` is the admin followed by an agent and a viewer for each of the first three branches |
| Seed.UpsertedKeeps | Doc-INTIA/backend/init_db.py:108-131 | the upsert never removes or moves a stored user and changes at most its hash, and every user it adds is active |
| Seed.UpsertedKeepsAcceptedHash | Doc-INTIA/backend/init_db.py:110-115 | a stored user whose hash bcrypt accepts for the seed password is left untouched |
| Seed.UserAppendOk | Doc-INTIA/backend/init_db.py:118-129 | a user with the next id, a new username and an unused e-mail keeps the user table's constraints |
| Seed.SeedUsers | Doc-INTIA/backend/init_db.py:72-140 | `seed_users` leaves the users the upsert function gives, or, when it raises, the users as they were; no other table changes |
| Seed.UpsertUsers | Doc-INTIA/backend/init_db.py:108-134 | the loop over any list of entries follows the upsert function, with the rollback on failure |
| Seed.UpsertOne | Doc-INTIA/backend/init_db.py:108-131 | one pass hashes the password, then adds a new user, rehashes a rejected hash or keeps an accepted one, as the step function says |
| Seed.PoliciesSeededAdds | Doc-INTIA/backend/init_db.py:246-259 | seed policies only add rows, all for the given client and branch |
| Seed.ClientsSeededAdds | Doc-INTIA/backend/init_db.py:225-259 | every client the seeding adds is in the given branch with an e-mail not stored before, and every policy it adds belongs to one of those clients |
| Seed.SeedClientDataValid | Doc-INTIA/backend/init_db.py:153-220 | every seed policy obeys the policy table's CHECK constraints |
| Seed.ClientAppendOk | Doc-INTIA/backend/init_db.py:231-240 | a client with the next id and an unused e-mail keeps the client table's constraints |
| Seed.InsertPolicies | Doc-INTIA/backend/init_db.py:246-259 | the inner loop leaves the policies the seeding function gives |
| Seed.InsertPolicy | Doc-INTIA/backend/init_db.py:247-259 | one seed policy is skipped when its number is stored, otherwise added with the next id |
| Seed.AddSeedClient | Doc-INTIA/backend/init_db.py:226-259 | a seed client whose e-mail is stored is skipped with its policies; otherwise it and its policies are added |
| Seed.InsertClients | Doc-INTIA/backend/init_db.py:225-259 | the outer loop leaves the tables the seeding function gives |
| Seed.SeedClientsAndPolicies | Doc-INTIA/backend/init_db.py:143-269 | with no branch nothing changes; otherwise every seed client goes to the first stored branch, and users, branches and the log are untouched |
| Seed.SeedClientsWith | Doc-INTIA/backend/init_db.py:145-259 | the same over any valid list of client seeds |
| Seed.InitDb | Doc-INTIA/backend/init_db.py:272-303 | the branches are always seeded; the users are seeded or, on failure, rolled back, and then no client or policy is added; otherwise clients and policies are seeded into the first branch |
| Seed.InitDbWith | Doc-INTIA/backend/init_db.py:279-300 | the same three steps over any seed data |

## Left out

- **Rendering.** JSX rendering, CSS and the table components are not modelled. The model keeps only what decides which control is on screen (`Interactive`, `PagerShown`, `ShowsSpinner`, `ShowsNavigation`).
- **React and the browser's event loop.** React scheduling, state batching, `requestAnimationFrame` and `await` become explicit events in any order. A scheduled focus is counted (`focusRequests`) rather than carried out.
- **External libraries.** bcrypt, JWT signing and decoding, cookies on the wire, HTTP transport, `fetch`, `localStorage` and `window.location` are parameters or plain fields.
  - The JWT decoder's None stands for every `JWTError`, expiry included.
- **SQLAlchemy.** Sessions and flush order are not modelled, and each service call is atomic.
  - Of the ORM's relationships, the model keeps only their effect on deleting a client: the policies' `client_id` is set to NULL.
- **Floating point.** `parseFloat`, `Decimal` to `float` in the serialiser and `toLocaleString` are not computed. The premium is integer cents, `parseFloat` is a parameter, and a converted `Decimal` is a `FloatV` holding the same digits.
- **Outside parsers and validators.** `JSON.parse`, `json.loads` and pydantic's `EmailStr` are not modelled: a parse is an abstract success or failure, and an e-mail is any text.
- **Clock.** Wall-clock time (`utcnow`, `toLocaleDateString`) is the parameter `now`.
- **Query encoding.** `URLSearchParams` percent-encoding is not modelled: a query is an ordered list of key and value pairs.
- **Row order.** A query without ORDER BY is taken to return its rows in insertion order, and `order_by(timestamp.desc())` is taken to keep rows with equal timestamps in that order; the database promises neither. This choice fixes which rows form a page and which branches are "first" in these members: `ClientService.GetClients`, `PolicyService.GetPolicies`, `ClientsEndpoint.ReadClients`, `PoliciesEndpoint.ReadPolicies`, `AuditEndpoint.SortNewestFirst`, `AuditEndpoint.ReadAuditLogs`, `Seed.SeedUserList` (`branches[:3]`) and `Seed.SeedClientsAndPolicies` (`branches[0]`). The listings' page lengths, totals and membership do not depend on it.
- **Text matching.** In `ilike`, the characters `%` and `_` inside the search text are wildcards; the model treats them as literal characters. Case folding beyond ASCII is not modelled.
- **Column limits.** Length limits of `String(n)` columns and the `Numeric(10, 2)` precision of the premium are not checked at commit.
- **Other files.** `main.py`, `api.py`, the users and branches endpoints, `get_me` (which only returns what `get_current_user` resolved), the dashboard, users, branches and new-item pages, the table components, and the printing in `init_db.py` are not part of this model.
- **The forms' lookups.** The forms' `fetchBranches` and `fetchClients` only fill a drop-down and log failures; they are not modelled.
- ClientForm.Form.Submit: returns the payload it would hand to `onSubmit`, instead of calling it. The browser's own constraint checks (`required`, `type="email"`), which run before `handleSubmit` and can stop the submit event, are not modelled: the model submits whatever the fields hold.
- PolicyForm.Form.Submit: returns the payload it would hand to `onSubmit`, instead of calling it. The browser's own constraint checks (`required`, `type="number"` with `step="0.01"` and `min="0"`, `type="date"`), which run before `handleSubmit` and can stop the submit event, are not modelled.
- ClientForm.PaddedEmailRejected: is about `validate` on the text it is given. A browser's `type="email"` input strips leading and trailing white space from its value before `validate` sees it, so in a browser a leading space never reaches the pattern.
- ClientsPage.Page.Mount: holds for a production build, where each effect runs once. In development, StrictMode runs the debounce effect a second time after `isInitialMount` is cleared, which schedules `fetchClients('', 1)`; that re-run is not modelled.
- PoliciesPage.Page.Mount: holds for a production build. In development, StrictMode's second run of the debounce effect schedules `fetchPolicies('', 'all', 1)`; that re-run is not modelled.
- ClientService.CreateClient: does not check that `branch_id` names a stored branch. The foreign keys to `branches` (of clients, policies and users) are not part of `Database.Db.Valid`, so an administrator can store a client in a branch that does not exist, where the database would refuse the commit.
- ClientService.UpdateClient: does not check that a new `branch_id` names a stored branch, for the same reason.
- AuditEndpoint.ReadAuditLogs: reads a date bound through the total parameter `instant`, so a date string the database cannot parse, which there fails the query, is not modelled.
- ClientService.GetClientCount: states only that the count is at most the table size. Its agreement with the listing is `ListedClientsCounted`.
- PolicyService.GetPolicyCount: states only that the count is at most the table size. Its agreement with the listing is `ListedPoliciesCounted`.
- Schemas.ClientUpdateData: bounds only the number of entries. What the entries do is stated by `ClientService.ApplyUpdateData`.
- Schemas.PolicyUpdateData: bounds only the number of entries. What the entries do is stated by `PolicyService.ApplyUpdateData` and `UpdateKeepsIdentity`.
- Models.PremiumText: states only that the text has a point before its last two characters, not the full `str(Decimal)` rules.
- ClientService.Updated: states only that the id is kept. What changes is stated by `ApplyUpdateData`.
- PolicyService.Updated: states only that the identity fields are kept. What changes is stated by `ApplyUpdateData`.
- Api.ErrorMessage: `detail` is total, so a JSON error body of `null`, where reading `error.detail` would throw a `TypeError` instead of the message, is not modelled; the backend's error responses always carry an object body.
