# AI-Driven DCA Management System — verified model of its decision rules

The system lets an administrator and debt-collection agencies (DCAs) review
overdue debt cases ranked by a predicted recovery probability. This project
models, in Dafny, the parts of it that decide things:

- the two dashboard pages (`AdminDashboard`, `DcaDashboard`): the session guard
  on mount, the DCA role check, how a fetch outcome becomes the case list
  (adopt the reply or substitute the mock list), logout, the priority filter,
  the KPI counts, the recovery-status buckets and the priority labels
  (shared logic in `CaseList`, browser storage in `Session`);
- the login page (`Login`): the order of field validation, the two hard-coded
  bypass accounts and the server reply, and the effects of each path on the
  error text, storage, the route and the network;
- the Flask handlers (`Backend`): `map_priority`, the per-row shaping of the two
  case endpoints (bad rows skipped, DCA gets even case ids only) and the
  metrics counter loop;
- the pipeline's `assign_priority` and the priority column it fills (`Pipeline`);
- end-to-end flows from login to dashboard (`Flows`).

Browser storage is a `map` from key to entry, where an entry is either a plain
text or the JSON text of a user record. `fetch` results, the login endpoint's
answer and `Date.now()` are inputs. The last navigation is kept in a
`navigatedTo` field, and each network call is appended to a `requests`
sequence. CSV rows reach the backend already read. A numeric column is a
cell that is missing, malformed or parsed. Probabilities are `real`, so every
threshold comparison is exact.

Where the code and its comments differ, the model follows the code. A
successful reply with an empty `cases` array is adopted and shows no cases,
because an empty array is truthy in JavaScript. The comment at
frontend/pages/admindashboard.tsx:55 says such a reply falls back to the mock
list; the code does not.

Modules: `Wrappers` (Option), `Seqs` (filtering, counting, subsequences and
keep-the-successes, with their laws), `Text` (decimal numerals), `Session`,
`CaseList`, `AdminDashboard`, `DcaDashboard`, `Login`, `Backend`, `Pipeline`,
`Flows`.

## Model

| member | source | states |
|---|---|---|
| Session.Truthy | frontend/pages/admindashboard.tsx:32 | in the `!token \|\| !userData` test, a missing key and an empty string are false and every other stored value is true |
| Session.GetItem | frontend/pages/admindashboard.tsx:29-30 | `getItem` yields null exactly when the key is absent, else the stored entry |
| Session.ParseUser | frontend/pages/admindashboard.tsx:37 | `JSON.parse` of the stored user succeeds exactly on a serialized user record and gives that record back |
| Session.ClearSession | frontend/pages/admindashboard.tsx:84-87 | logout removes `token` and `user` and keeps every other key with its value |
| Session.CheckSession | frontend/pages/admindashboard.tsx:27-37 | redirect to login iff token or user is null or empty; otherwise a parse failure iff the user entry is not a user record; otherwise admitted as the stored user |
| Session.ClearedSessionRedirects | frontend/pages/admindashboard.tsx:84-88 | after logout the next mount redirects to the login page |
| CaseList.Classify | frontend/pages/admindashboard.tsx:50-63 | the reply's list is adopted iff the response is ok, `success` is set and `cases` is present; every other outcome, a thrown error included, gives the mock list |
| CaseList.EmptyListIsAdopted | frontend/pages/admindashboard.tsx:52-53 | an empty `cases` array is adopted, not replaced by the mock list |
| CaseList.ByPriority | frontend/pages/admindashboard.tsx:91-93 | "All" gives the list unchanged; any other value gives a subsequence of the cases, all with that priority, as many as there are such cases |
| CaseList.ByPriorityUnique | frontend/pages/admindashboard.tsx:93 | the filtered list is the only such subsequence, so it keeps the original order |
| CaseList.ByPriorityMembership | frontend/pages/dcadashboard.tsx:96-98 | a case is shown under a priority iff it is held and has that priority; the DCA table uses this filter as is |
| CaseList.PriorityLabel | frontend/pages/admindashboard.tsx:110-115 | High, Medium and Low get their three fixed labels; the result equals the input iff the input is none of the three |
| CaseList.FilterOptionsMatchLabels | frontend/pages/admindashboard.tsx:158-161 | the filter control's option texts are the badge labels of their values, and the values are All plus the three priorities |
| AdminDashboard.FilteredCases | frontend/pages/admindashboard.tsx:91-93 | identity under "All"; otherwise an order-preserving subsequence of exactly the cases with the selected `ai_priority` |
| AdminDashboard.FilteredCasesUnique | frontend/pages/admindashboard.tsx:93 | any order-preserving subsequence with only the selected priority and the full count is the filtered list |
| AdminDashboard.HighPriorityCount | frontend/pages/admindashboard.tsx:96 | the number of positions holding a "High" case, at most the number of cases |
| AdminDashboard.CasesAtRisk | frontend/pages/admindashboard.tsx:100 | the number of positions whose case is more than 90 days overdue, at most the number of cases |
| AdminDashboard.CasesAtRiskSnoc | frontend/pages/admindashboard.tsx:100 | appending a case adds one to the count iff it is strictly more than 90 days overdue, so 90 days is not counted |
| AdminDashboard.ProbabilityOrZero | frontend/pages/admindashboard.tsx:98 | an absent probability counts as 0 in the sum |
| AdminDashboard.AverageRecoveryPercent | frontend/pages/admindashboard.tsx:97-99 | no average (the '0' branch) iff there are no cases; otherwise the mean probability times 100 |
| AdminDashboard.SumProbability | frontend/pages/admindashboard.tsx:98 | the `reduce` sum of `recovery_probability \|\| 0`; with probabilities in [0, 1] it lies between 0 and the number of cases |
| AdminDashboard.SumProbabilityAppend | frontend/pages/admindashboard.tsx:98 | the sum over two lists one after the other is the sum of their sums, so each appended case adds its probability or 0 |
| AdminDashboard.AverageRecoveryPercentBounds | frontend/pages/admindashboard.tsx:97-99 | with probabilities in [0, 1] the percentage lies in [0, 100] |
| AdminDashboard.RecoveryStatus | frontend/pages/admindashboard.tsx:103-107 | Likely Recoverable iff p ≥ 0.8, High Risk iff p < 0.4, Moderate Risk iff 0.4 ≤ p < 0.8 |
| AdminDashboard.RecoveryStatusMonotone | frontend/pages/admindashboard.tsx:103-107 | a higher probability never gets a worse status |
| AdminDashboard.CaseRecoveryStatus | frontend/pages/admindashboard.tsx:207 | a case without a probability is High Risk; otherwise the status of its probability |
| AdminDashboard.MockCasesFacts | frontend/pages/admindashboard.tsx:71-80 | the mock list has 8 cases; filter Low shows ids [3, 7]; 3 are High and 3 are at risk |
| AdminDashboard.AdminPage.constructor | frontend/pages/admindashboard.tsx:22-25 | no user, no cases, loading, filter All |
| AdminDashboard.AdminPage.FetchCases | frontend/pages/admindashboard.tsx:41-67 | one GET with the stored token; the cases become the classified outcome; loading is false afterwards |
| AdminDashboard.AdminPage.Mount | frontend/pages/admindashboard.tsx:27-39 | a missing token or user navigates to login with no request; an unparsable user throws with nothing changed; otherwise the user is set and the cases fetched, with no role check |
| AdminDashboard.AdminPage.HandleLogout | frontend/pages/admindashboard.tsx:84-88 | storage becomes the cleared session and the route is the login page |
| AdminDashboard.AdminPage.SetPriorityFilter | frontend/pages/admindashboard.tsx:155 | only the filter selection changes |
| AdminDashboard.AdminPage.Displayed | frontend/pages/admindashboard.tsx:185-186 | the table rows: every held case under "All", otherwise exactly the held cases of the selected priority, in order: a subsequence of them all of that priority, as many as there are such cases |
| DcaDashboard.MockAssignedCasesFacts | frontend/pages/dcadashboard.tsx:77-85 | the mock list has 7 cases; filter High shows ids [101, 104, 108] in that order |
| DcaDashboard.DcaPage.constructor | frontend/pages/dcadashboard.tsx:20-23 | no user, no cases, loading, filter All |
| DcaDashboard.DcaPage.FetchAssignedCases | frontend/pages/dcadashboard.tsx:47-73 | one GET with the stored token; reply adopted or the 7-item mock list; loading false afterwards |
| DcaDashboard.DcaPage.Mount | frontend/pages/dcadashboard.tsx:25-45 | missing token or user: login, no request; otherwise the user is stored first, then any role other than "dca", an absent one included, goes to the admin dashboard with no request; a DCA user gets the fetch |
| DcaDashboard.DcaPage.HandleLogout | frontend/pages/dcadashboard.tsx:89-93 | storage becomes the cleared session and the route is the login page |
| DcaDashboard.DcaPage.SetPriorityFilter | frontend/pages/dcadashboard.tsx:132 | only the filter selection changes |
| DcaDashboard.DcaPage.Displayed | frontend/pages/dcadashboard.tsx:161-162 | the table rows: every held case under "All", otherwise exactly the held cases of the selected priority, in order: a subsequence of them all of that priority, as many as there are such cases |
| Login.DemoToken | frontend/pages/login.tsx:42 | the demo token is never empty, so the dashboard guard accepts it |
| Login.DemoTokenInjective | frontend/pages/login.tsx:42 | demo tokens from different clock readings differ |
| Login.StoredToken | frontend/pages/login.tsx:77 | the reply's token is stored verbatim, or "undefined" when it has none |
| Login.StoredUser | frontend/pages/login.tsx:78 | the reply's user is stored as its JSON, or "undefined" when it has none |
| Login.RejectionMessage | frontend/pages/login.tsx:88 | the server's message when present and non-empty, else the fixed login-failed text |
| Login.DashboardFor | frontend/pages/login.tsx:81-86 | the DCA view iff the role is "dca"; the admin view for every other role and for none |
| Login.SignedIn | frontend/pages/login.tsx:42-46 | exactly `token` and `user` are written; every other key keeps its value |
| Login.Submit | frontend/pages/login.tsx:28-96 | a request is sent iff both fields are non-empty and neither bypass matches; whenever it navigates there is no error, a user record is stored and its role picks the route; a changed store always holds both keys |
| Login.SubmitMissingFields | frontend/pages/login.tsx:34-38 | an empty field gives the missing-fields message, no write, no route and no request, whatever the server would say |
| Login.SubmitAdminBypass | frontend/pages/login.tsx:41-50 | admin/admin123 stores a demo token and user {admin, role admin} and goes to the admin view with no request |
| Login.SubmitDcaBypass | frontend/pages/login.tsx:53-62 | dca/dca123 stores role dca and goes to the DCA view with no request |
| Login.SubmitAccepted | frontend/pages/login.tsx:75-86 | an ok reply with a user stores token and user verbatim and routes by role |
| Login.SubmitRejected | frontend/pages/login.tsx:87-89 | a refusal shows the rejection message and leaves storage unchanged |
| Login.SubmitThrows | frontend/pages/login.tsx:90-91 | an exception shows the fixed hint naming both bypass accounts |
| Login.LoginPage.constructor | frontend/pages/login.tsx:12-17 | empty form, no error, not loading |
| Login.LoginPage.HandleChange | frontend/pages/login.tsx:19-26 | only the named field takes the value, and the error is cleared |
| Login.LoginPage.HandleSubmit | frontend/pages/login.tsx:28-96 | error, storage, route and requests end as `Submit` gives them, and loading is false on every path |
| Backend.Required | app/app.py:69 | `int`/`float` of a column succeeds iff the cell is present and parses |
| Backend.Defaulted | app/app.py:73 | `row.get(k, 0)` converts to the default when the column is absent and fails iff the cell is malformed |
| Backend.MapPriority | app/app.py:34-45 | High iff p ≥ 0.7, Medium iff 0.3 ≤ p < 0.7, Low otherwise and when the value cannot be converted |
| Backend.RowPriority | app/app.py:75 | the row's priority column whenever it exists, else the mapped priority |
| Backend.ShapeAdminRow | app/app.py:66-82 | a case exactly for rows whose conversions all succeed; status resolved iff recovered is 1; debtor name from the id; region defaults to Unknown |
| Backend.ShapeDcaRow | app/app.py:116-133 | a case exactly for rows with a parsed even id and parsed amount, days and probability |
| Backend.DcaCaseAgreesWithAdminCase | app/app.py:118-128 | a valid admin row with an even id is also returned to the agency, with the same values |
| Backend.GetAdminCases | app/app.py:55-88 | empty input gives success, an empty list and the no-cases message; otherwise the shaped valid rows in order, with `total` their number |
| Backend.GetDcaCases | app/app.py:105-139 | empty input gives success, an empty list and the no-assigned-cases message; otherwise the assigned rows shaped in order, with `total` their number |
| Backend.SkippedRowIsLocal | app/app.py:80-82 | a failing row is dropped without affecting the rows before or after it |
| Backend.AdminCaseCount | app/app.py:84-88 | the number of cases returned equals the number of valid rows and is at most the number read |
| Backend.DcaCaseCount | app/app.py:135-139 | the number of cases returned equals the number of assigned rows |
| Backend.DcaCasesAreEven | app/app.py:120-121 | every returned case has an even id that comes from an input row |
| Backend.DcaCasesInInputOrder | app/app.py:115-130 | the cases of earlier rows come before those of later rows |
| Backend.SampleOf | app/app.py:183-186 | the metrics loop reads a row iff probability and days parse and recovered is absent or parses; an absent priority reads as empty |
| Backend.GetAdminMetrics | app/app.py:160-223 | the counter loop computes the metrics of the file: the four zero metrics for empty input; otherwise total is the rows read, high counts prob ≥ 0.7 or priority High, at-risk counts days > 90, active and resolved split the rows not skipped, and the average is their probability sum divided by the total |
| Backend.MetricsSplit | app/app.py:181-207 | in the metrics, active plus resolved equals the rows not skipped, at most total; high and at-risk are bounded by the same number |
| Backend.AverageBounds | app/app.py:209 | with probabilities in [0, 1] the average lies in [0, 1] and is at most the share of rows not skipped, since skipped rows stay in the denominator |
| Backend.TotalProbability | app/app.py:193 | `total_recovery_prob` after the loop; with probabilities in [0, 1] it lies between 0 and the number of rows not skipped |
| Backend.MetricsOf | app/app.py:209-218 | the metrics object: all zeros with no split counters for an empty file; otherwise total is the rows read, the split counters exist, their sum and the high and at-risk counts are at most total |
| Backend.AtRiskIsStrict | app/app.py:196 | 90 days overdue is not at risk, 91 is |
| Pipeline.AssignPriority | pipeline/preprocess.py:14-21 | High iff p ≥ 0.7, Medium iff 0.4 ≤ p < 0.7, Low iff p < 0.4 |
| Pipeline.AssignPriorityMonotone | pipeline/preprocess.py:14-21 | a higher probability never gets a lower priority |
| Pipeline.DisagreesWithMapPriority | pipeline/preprocess.py:18-21 | it differs from `map_priority` exactly on [0.3, 0.4), where it says Low and the backend says Medium |
| Pipeline.PriorityColumn | pipeline/preprocess.py:34 | one label per probability, same length and order |
| Pipeline.PriorityColumnAppend | pipeline/preprocess.py:34 | the column of a concatenation is the concatenation of the columns |
| Pipeline.PriorityColumnSorted | pipeline/preprocess.py:34 | probabilities in ascending order give labels in ascending order |
| Flows.BypassLoginIsAdmitted | frontend/pages/login.tsx:41-62 | after either bypass login the dashboard guard admits the bypass user |
| Flows.ServerLoginGuard | frontend/pages/login.tsx:75-78 | an accepted login is admitted as the server's user unless the token is empty, in which case the dashboard goes back to login |
| Flows.LoginRouteAgreesWithRoleCheck | frontend/pages/dcadashboard.tsx:39-42 | the login sends an admitted user to the DCA view iff the stored role is dca, so the DCA role check never bounces it |
| Flows.OfflineAdminSession | frontend/pages/admindashboard.tsx:41-82 | with the backend down, admin bypass then the admin page shows 8 cases, 3 High, after one request carrying the demo token |
| Flows.OfflineDcaSession | frontend/pages/dcadashboard.tsx:47-98 | with the backend down, DCA bypass then the DCA page shows 7 cases, and High shows 101, 104, 108 |
| Flows.AdminOnDcaPage | frontend/pages/dcadashboard.tsx:35-42 | an admin on the DCA page goes to the admin view with no request |
| Flows.LogoutThenRemount | frontend/pages/admindashboard.tsx:84-88 | after logout, remounting redirects to login with no request |

## Left out

- The numeric value of `avgRecoveryProb` and of the metrics average is exact real division here; `toFixed(1)`, `round(..., 4)` and float rounding are not modelled.
- Amount formatting (`toLocaleString`), percentage strings, JSX rendering and CSS classes are not modelled.
- `JSON.parse` is modelled only on user records and on texts that make it throw. A stored "null" or a JSON value other than a user record is not modelled. When the login reply's `user` is JSON `null`, the page stores "null" and the `data.user.role` TypeError leaves both writes in place; this case is not modelled either (an absent user is).
- A login reply whose token or user fields have types other than string and record is not modelled.
- A login reply whose JSON body is `null` is not modelled. In the page, reading `data.token` or `data.message` then throws before any write, so the hint is shown and storage is unchanged; the nearest modelled body, one with no properties, instead stores "undefined" or shows the login-failed text.
- A CSV row shorter than the header gives `None` cells. Converting those raises `TypeError`, which the per-row handler does not catch, so the endpoint answers 500. This path is not modelled: a cell is missing, malformed or parsed.
- Float parsing of the CSV text (`nan`, `inf`, exponents) is not modelled; a cell is already parsed or not.
- The 500 responses of the three endpoints (any other exception) are not modelled, since the modelled conversions raise only the exceptions the row handlers catch.
- `load_cases` (file existence, CSV reading) is an input row sequence; `/api/health`, `/` and Flask routing and CORS setup are not modelled.
- `load_data` and `preprocess_data` (pandas, `LabelEncoder`) are not modelled; `run_pipeline` is modelled only through the priority column.
- data/data.py (random dataset generation) and frontend/app.tsx (routing table) are not part of this model.
- `Date.now()` is a parameter; `fetch`, `response.json()`, `localStorage` and `navigate` are inputs, a map and recorded fields; async interleavings and unmounting while a request is pending are not modelled.
- Logging (`console.error`, `print`) is not modelled.
- The backend's `/api/login` endpoint does not exist in app/app.py, so a server login reply is an input.
