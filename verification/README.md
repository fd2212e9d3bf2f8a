# Scam-report moderation: a Dafny model of its decision logic

The application lets members of a community platform's company (the tenant)
report scammers with a description and a proof image. The company's owner and
team members review the reports. All identity and authorization facts come
from the platform's API. Reports live in a document store.

This project models the pure decision procedures under the HTTP handlers:

- resolving the caller and their tenant from headers and the request URL;
- the owner check, the team-roster scan and the "ban" loop;
- role classification;
- the 401/400/403 gates of the report endpoints, and report submission;
- upload validation, with the image returned as a base64 data URL;
- the tenant-scoped report store;
- the client's normalisation of the role endpoint's answer.

Every platform SDK call is an oracle. `Platform.Whop` bundles them as total
functions. Each returns `Ok(value)` or `Fail`, where `Fail` stands for a thrown
error. The environment variables are `Platform.Env`. Headers and query
parameters are `map<string, string>` keyed by lower-case name. The store is a
`seq<Report>` in insertion order. Timestamps are natural numbers supplied by
the caller. The route handlers take the verifier's result (`Option<AuthInfo>`)
as an argument. In the application that value comes from
`VerifyUserFromRequest`.

Modules, one per source component:

| module | file | models |
|---|---|---|
| `Common` | common.dfy | options, remote outcomes, responses, JSON values, JavaScript truthiness, `a \|\| b \|\| …` |
| `Platform` | platform.dfy | the platform oracles and the environment |
| `Identity` | identity.dfy | src/lib/whop.ts |
| `Roles` | roles.dfy | src/app/api/auth/role/route.ts |
| `Access` | access.dfy | `fetchAccessRole` in src/components/AccessProvider.tsx |
| `ObjectIds` | objectid.dfy | the store's record identifiers |
| `ReportStore` | store.dfy | src/lib/models/Report.ts |
| `ReportsApi` | reports_api.dfy | src/app/api/reports/route.ts, src/app/api/reports/my/route.ts |
| `Base64` | base64.dfy | base64 as in section 4 of RFC 4648 |
| `Upload` | upload.dfy | src/app/api/upload/route.ts |

Two behaviours of the code that a reader of the UI might not expect, modelled as written:

- The review page offers approve/deny only for pending reports (src/components/AdminReviewPage.tsx:135-176). `updateReportStatus` has no status guard (src/lib/models/Report.ts:65-68), so a decided report can be decided again (`ReviewHasNoPendingGuard`).
- `banUserFromCompany` returns false for an empty membership list (src/lib/whop.ts:228-242, `BanUserFromCompany`). The approve route then only logs a warning (src/app/api/reports/[id]/route.ts:63-65).

## Model

| member | source | states |
|---|---|---|
| Identity.HeaderExperienceId | src/lib/whop.ts:38-42 | The header experience id is the first non-empty of `x-whop-experience-id`, `whop-experience-id`, `x-experience-id`, `experience-id`. It is absent iff all four are missing or empty. |
| Identity.CompanyIdFromExperience | src/lib/whop.ts:33-80 | A header experience id is resolved through the platform. Without one, a parsed URL's `experience` parameter is resolved. Failing that, its `company_id` is returned. No URL or a malformed URL gives no tenant. |
| Identity.UrlIgnoredWhenHeaderExperience | src/lib/whop.ts:45 | When a header carries an experience id, the URL has no effect on the tenant. |
| Identity.DirectCompanyIdNeedsNoLookup | src/lib/whop.ts:52-56 | A `company_id` query parameter (with no experience anywhere) is returned as it is, whatever the platform would answer. |
| Identity.FailedExperienceLookupGivesNoTenant | src/lib/whop.ts:69-75 | A failed experience lookup gives no tenant, even when `company_id` is also present. |
| Identity.VerifyUserFromHeaders | src/lib/whop.ts:126-162 | There is a caller iff the API key, the token header and the app id are all non-empty and the token verifies to a non-empty user id. The tenant comes from `x-whop-company-id` when that is non-empty, otherwise from the experience. |
| Identity.CompanyHeaderWins | src/lib/whop.ts:148-155 | With a non-empty `x-whop-company-id`, the verification result depends neither on the URL nor on the experience lookup. |
| Identity.IsCompanyOwner | src/lib/whop.ts:167-176 | True iff the company's owner id is the user's. A failed company lookup gives false. |
| Identity.AuthorizedUserRole | src/lib/whop.ts:182-205 | The role of the first roster entry for the user. The result is never empty. An empty role, no entry, or a failed listing gives none. |
| Identity.FirstRosterEntryDecides | src/lib/whop.ts:194-198 | When the user's first roster entry has no role, a later entry for the same user with a role does not make them a team member. |
| Identity.IsTeamMember | src/lib/whop.ts:210-213 | True iff the listing succeeded and the user's first roster entry has a non-empty role. |
| Identity.BanUserFromCompany | src/lib/whop.ts:215-247 | Every listed membership is attempted, in order, even after failures. The result is true iff at least one cancellation succeeded. A failed listing attempts nothing and gives false. |
| Roles.DecideRole | src/app/api/auth/role/route.ts:37-50 | The actual owner is `owner` whatever the roster says. Otherwise roster role exactly "owner" gives `owner`, any other non-empty roster role `admin`, and no roster role `member`. The result is never `none`. |
| Roles.DecideRoleIsMostPrivileged | src/app/api/auth/role/route.ts:33-50 | The precedence chain picks the most privileged of the role ownership grants and the role the roster grants. |
| Roles.RoleRoute | src/app/api/auth/role/route.ts:11-60 | No caller gives 401, `none`, unauthorised. A caller without a tenant gets 200, `none`, unauthorised, user echoed, company null. The caller is authorised iff a tenant is present, and then the user id and tenant are echoed and the role is `DecideRole` of the owner check and the roster role. |
| Roles.RosterRoleClassification | src/app/api/auth/role/route.ts:41-50 | For a non-owner caller with a tenant, roster "owner" gives `owner`, another roster role gives `admin`, and no roster role gives `member`. |
| Roles.ToJson | src/app/api/auth/role/route.ts:18-60 | The reply's JSON body carries its role name and its authorisation flag as a boolean. The 401 body has no `userId` or `companyId` field. Every other body carries both, as strings, or `null` where the reply has none. |
| Access.ParseRole | src/components/AccessProvider.tsx:73 | Only the four role names are read as roles. Any other value, including a non-string, is not a role. |
| Access.FetchAccessRole | src/components/AccessProvider.tsx:43-82 | No experience id, a thrown error, a non-OK response or an unreadable body all give `none`/false/null/null. Otherwise a known role passes through, `isAuthorized` is the body value's truthiness, and falsy ids become null. |
| Access.NoExperienceNoRequest | src/components/AccessProvider.tsx:52-56 | Without an experience id the result is `none`/false/null/null whatever a request would have returned. |
| Access.UnknownRoleCollapses | src/components/AccessProvider.tsx:73-77 | An OK answer whose role is not one of the four gives `none`/false/null/null. |
| Access.ClientSeesServerRole | src/components/AccessProvider.tsx:63-75 | For every answer of the role endpoint, the client ends with the server's role and authorisation. It has the user id iff there was a caller, and the company id iff the caller is authorised. |
| ObjectIds.Parse | src/lib/models/Report.ts:47 | An id parses iff it is 24 hex digits. The result is its lower-case form. |
| ObjectIds.ParsePrinted | src/lib/models/Report.ts:31 | A printed record id parses back to the same id. |
| ReportStore.Create | src/lib/models/Report.ts:24-32 | The stored report keeps every submitted field unchanged and carries the generated id and the creation time. It is appended to the store. An id already in use is refused. Unique ids are preserved. |
| ReportStore.SortNewestFirst | src/lib/models/Report.ts:36 | The result is ordered by creation time, newest first, and is a permutation of the input. |
| ReportStore.ListByCompany | src/lib/models/Report.ts:34-41 | A tenant's listing holds exactly the stored reports of that tenant, with their multiplicities, newest first. |
| ReportStore.GetById | src/lib/models/Report.ts:43-55 | A malformed id gives nothing. A result is a stored report with that id in the requested tenant. No result means no such report exists in that tenant. |
| ReportStore.GetByIdIsolatesTenants | src/lib/models/Report.ts:46-49 | A stored report is never returned to a lookup scoped to another tenant. |
| ReportStore.GetByIdFindsOwn | src/lib/models/Report.ts:43-51 | A stored report is found by its printed id within its own tenant. |
| ReportStore.UpdateStatus | src/lib/models/Report.ts:57-81 | On the report with that id in that tenant, only status, review time and reviewer change. Every other field and every other record is unchanged. A malformed id or no match changes nothing and returns nothing. Unique ids are preserved. |
| ReportStore.OfCompanyIgnoresOtherTenants | src/lib/models/Report.ts:36 | Two stores that differ only in one tenant's records give every other tenant the same records. |
| ReportStore.UpdateInvisibleToOtherTenants | src/lib/models/Report.ts:65-75 | A review in one tenant leaves every other tenant's listing unchanged. |
| ReportStore.CreateInvisibleToOtherTenants | src/lib/models/Report.ts:24-32 | A new report of one tenant leaves every other tenant's listing unchanged. |
| ReportStore.ReviewHasNoPendingGuard | src/lib/models/Report.ts:57-75 | A review applies whatever the report's current status, including an already approved or denied one. |
| Base64.Encode | src/app/api/upload/route.ts:34 | The encoding has four characters per started group of three bytes. Every character is in the alphabet or is the pad `=`. |
| Base64.EncodeTestVectors | src/app/api/upload/route.ts:34 | The encoding agrees with the test vectors of section 10 of RFC 4648, from the empty input to "foobar". |
| Base64.DecodeEncode | src/app/api/upload/route.ts:32-34 | Decoding an encoding gives back the original bytes. |
| Upload.ParseDataUrlInvertsDataUrl | src/app/api/upload/route.ts:35 | Every `data:<type>;base64,<payload>` URL reads back to the exact MIME type and bytes it was built from. This holds even when the type itself contains `;`. |
| Upload.HandleUpload | src/app/api/upload/route.ts:6-43 | The checks run in order: no caller gives 401 whatever the form; an unreadable form 500; no file 400; a non-`image/` type 400; more than 5 MiB 400. Success carries exactly the URL `data:<type>;base64,<encoding of the bytes>`, which reads back to the file's type and bytes, plus its name and size. |
| Upload.SizeLimitIsInclusive | src/app/api/upload/route.ts:26-28 | An image of exactly 5 MiB is accepted. One byte more is refused with 400. |
| ReportsApi.ListingTenant | src/app/api/reports/route.ts:18 | A non-empty `company_id` query parameter beats the caller's own tenant. |
| ReportsApi.ListReports | src/app/api/reports/route.ts:9-34 | No caller gives 401. No tenant gives 400. A caller who is neither owner nor team member gets 403. Every caller past these gates succeeds. The reply holds exactly the tenant's reports, each as often as stored, newest first. |
| ReportsApi.ListReportsAsWritten | src/lib/models/Report.ts:1-21 | With the database import as written, every refusal is the same as in `ListReports`. Every caller who passes the gates gets 500 instead of the listing. |
| ReportsApi.RefusedListingReadsNoStore | src/app/api/reports/route.ts:24-29 | Every refusal is decided without the store: it is the same for every store. |
| ReportsApi.SubmissionTenant | src/app/api/reports/route.ts:57 | The submission's tenant is the body's, else the caller's, else the query parameter's. Empty values are skipped. |
| ReportsApi.SubmitReport | src/app/api/reports/route.ts:45-87 | No caller gives 401. A missing or empty reported username, description, proof URL or tenant gives 400. Every refusal leaves the store unchanged. Success is 201 with a new `pending` report by the caller holding the submitted fields. The reporter name falls back to "Unknown" when the lookup fails. |
| ReportsApi.SubmitReportAsWritten | src/lib/models/Report.ts:1-32 | With the database import as written, every refusal is the same as in `SubmitReport`. A complete submission gets 500 instead of 201, and the store never changes. |
| ReportsApi.MyReportsScope | src/app/api/reports/my/route.ts:6-19 | No caller or an empty user id gives 401. No tenant gives 400, and the query parameter beats the caller's tenant. Every caller with a user id and a tenant succeeds, and success names the caller and that non-empty tenant. |

## Left out

- Platform SDK calls, environment variables and the client singleton: they are oracles (`Platform.Whop`, `Platform.Env`). The model assumes the client's app id is the configured one.
- Paginated listings that fail part-way through: the roster and the membership listings either fail before any entry is seen or succeed in full. In the source, a page fetch that fails mid-scan ends in the outer `catch`.
- The document database connection (src/lib/mongodb.ts) and driver semantics. As written, src/lib/models/Report.ts:1 imports the connection function that src/lib/mongodb.ts:42 exports, and :19-20 await it as if it were a client promise, so every store operation throws (see "## Findings"). Apart from `ListReportsAsWritten` and `SubmitReportAsWritten`, the store members model the evident intent: a working collection, held as a pure sequence. A duplicate generated id is refused as the database's unique key would refuse it.
- Timestamps are natural numbers chosen by the caller, not ISO strings. The ISO strings have the same order.
- `getReportsByReporter` is not part of this model. The "my reports" endpoint stops at the caller/tenant pair it would query (`MyReportsScope`).
- The approve/deny PATCH endpoint is not part of this model. Its store operations are `GetById` and `UpdateStatus`, and its ban is `BanUserFromCompany`.
- Error answers from thrown exceptions (500): modelled only for an unreadable form, an unparseable submission body, a refused insert and a collection that cannot be opened. The thrown error's own message is not modelled; the model answers "Internal server error".
- A form whose `file` field is text rather than a file (src/app/api/upload/route.ts:14-21): `Upload.Form` cannot represent it. The source answers 500 for a non-empty text, because `file.type` is undefined, and 400 for an empty one.
- The "my reports" and PATCH endpoints also reach the store after their gates, so as written they answer 500 too. Neither store query is modelled.
- JSON body fields of a submission are strings or missing. Non-string JSON values are not modelled.
- Header lookup is case-sensitive on lower-case names. Repeated headers joined with ", " are not modelled.
- `encodeURIComponent` of the experience id in the client's request URL: the URL is not modelled.
- The React provider state, the experience-id listener set, the UI components and the theme: presentation and asynchronous state.
- `verifyUserFromRequest` is `VerifyUserFromHeaders` with the request's own URL always present (`Identity.VerifyUserFromRequest`). It has no separate contract.
- ObjectIds.Parse: accepts only the 24-hex-digit form. The 12-byte binary form some driver versions also accept is not modelled.

## Findings

| source | as written | input that shows it | evidently intended | confidence | as-written member | corrected member |
|---|---|---|---|---|---|---|
| src/lib/models/Report.ts:1-21 | `clientPromise` is the function `getClientPromise` exported at src/lib/mongodb.ts:42. `await` yields that function, and `client.db()` throws because a function has no `db` method. | An owner listing their own tenant's reports: the handler answers 500 instead of 200 with the list. | Call the import, `await clientPromise()`, so the collection opens and the listing is returned. | high, not executed | ReportsApi.ListReportsAsWritten | ReportsApi.ListReports |
| src/lib/models/Report.ts:1-32 | `createReport` opens the collection through the same import, so the insert throws before anything is stored. | Any complete submission by an authenticated caller: 500 instead of 201, and no report stored. | The report is stored and returned with 201. | high, not executed | ReportsApi.SubmitReportAsWritten | ReportsApi.SubmitReport |
