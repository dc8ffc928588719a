# Travel indents: a verified model

This project models the core of a corporate travel-request portal. An employee raises a
*travel indent*: a trip with purpose, travel type, dates and route. The manager accepts or
rejects it, and HR then approves and books flights and hotels, by hand or through a
tool-calling chat assistant that talks to an airline server and a hotel server. The model
is written in Dafny, and every contract below is proved by the verifier.

What is modelled, by source file:

- **Status vocabulary and indent table** (`src/db/travel_queries.py`): the status sets
  (duplicate-safe, manager-approved, HR-eligible), the status-label projection, the
  duplicate guard, the manager-before-HR gate, indent creation and draft editing, the
  approve/reject/book transitions, the eligible-hotel filter and the route bookmarks. The
  tables are `map` fields of the class `TravelDb`, whose methods do the read-check-write of
  the source.
- **Indent service, workflow engine and agents** (`travel_indent_service.py`,
  `workflow_engine.py`, `hr_agent.py`, `manager_agent.py`): the status-update gate, the
  listing projection and the text-command dispatch of the HR and manager agents.
- **HR chat endpoint** (`src/api/hr_mcp_router.py`) with its **sessions** and **context**
  (`session_service.py`, `session_models.py`, `context_service.py`): one chat turn, with the
  tool-call loop, the booking-complete detection that moves the indent to `completed_hr`, the
  ticket-status endpoint and the session history. The tool-not-found payload is written with
  the string escaping of `json.dumps` (module `JsonStrings`), which is proved to read back.
- **Hotel and airline servers** (`src/mcp_servers/...`): occupancy and cabin policy, the
  guards of availability, search and booking in the order they fire, the inventory updates
  and their inverse on cancellation, result grouping and booking references.
- **Authentication** (`src/auth/jwt_service.py`): the token blacklist and its expiry
  clean-up, password authentication and the decision chain of `decode_token` and
  `get_current_user`.
- **Policy assistant** (`src/rag/rag_service.py`): its sessions, source formatting, context
  block and chat turn.
- **Employee API and configuration** (`src/api/employee_router.py`,
  `src/config/mcp_config.py`): request validators, role gating, error-to-status mapping and
  the MCP server entries.
- **Browser side** (`frontend/vue-project/src/stores/auth.js`, `.../router/index.js`): the
  session store with its `localStorage` mirror, and the router's navigation guard.

Python and JavaScript behaviour is written out where it matters: truthiness, `x or y`,
`strip`/`lower`/`split`, floor division and modulo, CPython's `TypeError` for too many
arguments, SQL `TRIM`/`LOWER`/`COALESCE`, `ORDER BY` on a boolean key, `json.dumps` string
escaping, and `LIMIT 1` without a tie-break. Clocks, fresh ids,
language-model replies, tool results, bcrypt, `jwt.decode`, `json.loads` and document
retrieval are parameters of the operations that use them. Shared helpers are in
`wrappers.dfy` (`Option`, `Result`), `lists.dfy`, `text.dfy`, `http.dfy` and `py_calls.dfy`.

## Model

| member | source | states |
|---|---|---|
| IndentStatus.HrEligibleMembers | src/db/travel_queries.py:5-26 | the HR-eligible statuses are exactly the three manager-approved spellings (the misspelt `accpeted_manager` included) plus the three HR statuses; none of them is duplicate-safe, and neither `pending` nor `draft` is one |
| IndentStatus.StatusCode | src/db/travel_queries.py:72 | a row's status code has no upper-case letter; a NULL or empty column reads as `pending`; the code is empty only when the column holds whitespace alone |
| IndentStatus.CodeOfNormal | src/db/travel_queries.py:90 | a status already stripped and lower-case is read back unchanged by the normalisation |
| IndentStatus.EditableExactly | src/db/travel_queries.py:411-427 | the draft-edit flow treats an indent as a draft exactly when its column normalises to `draft` or is the empty string; a NULL column reads `pending` there (SQL COALESCE wins over the Python `or "draft"`) |
| IndentStatus.LabelPendingExactly | src/db/travel_queries.py:600-616 | the readable label is "Pending" exactly for the codes the label chain does not name, the misspelt `accpeted_manager` and `cancelled` included; every HR status reads "Completed booking" |
| IndentStatus.PendingLabel | src/db/travel_queries.py:614-615 | a fresh `pending` submission is labelled "Pending" |
| IndentStatus.RowStatus | src/db/travel_queries.py:33 | a row's status comes from its non-empty `status` key, otherwise from `is_approved` read like the status column |
| IndentStatus.SetDefaultsFacts | src/db/travel_queries.py:34-36 | after the two `setdefault` calls both keys exist, every key already present (a NULL one included) keeps its value, and only a missing key receives the computed status |
| IndentStatus.InjectStatusFields | src/db/travel_queries.py:29-38 | the result has one row per input row, in order, each filled in by the same per-row rule |
| TravelQueries.NewestExists | src/db/travel_queries.py:52-67 | whenever some indent matches the duplicate query, `ORDER BY created_at DESC LIMIT 1` has a newest matching row to return |
| TravelQueries.DuplicateVerdictTotal | src/db/travel_queries.py:67-78 | the duplicate guard always reaches a verdict: either it may block or it may pass |
| TravelQueries.DuplicateVerdictUnique | src/db/travel_queries.py:62-78 | when creation times are distinct the guard's verdict is determined: a state that may block cannot also pass |
| TravelQueries.EnsureNoDuplicateActive | src/db/travel_queries.py:45-78 | the guard raises the duplicate message only when the newest matching indent (same owner, same cities after normalisation, same dates, the excluded indent left out) has a status outside the duplicate-safe set, and passes only when there is no match or the newest match is duplicate-safe |
| TravelQueries.RequireManagerApproval | src/db/travel_queries.py:81-93 | a missing indent gives "Travel indent not found"; otherwise the gate passes exactly when the normalised status is HR-eligible, returning that status, and refuses with the manager-approval message |
| TravelQueries.SetStatus | src/db/travel_queries.py:279-284 | a status UPDATE changes only the named row's status and update time, keeps every id, and leaves a missing id without effect |
| TravelQueries.SetStatusKeepsIds | src/db/travel_queries.py:279-284 | a status write keeps every row stored under its own `indent_id` |
| TravelQueries.GateOpensAfterManagerApproval | src/db/travel_queries.py:275-286 | after the manager's approval the HR gate passes with `accepted_manager` |
| TravelQueries.GateClosedAfterManagerRejection | src/db/travel_queries.py:312-323 | after the manager's rejection the HR gate refuses with the manager-approval message |
| TravelQueries.GateOpenAfterHrApproval | src/db/travel_queries.py:351-369 | after HR approval the gate still passes, so the flight can be booked next |
| TravelQueries.GateClosedWhilePending | src/db/travel_queries.py:81-93 | an indent whose status is NULL or `pending` cannot be approved or booked by HR |
| TravelQueries.Last6 | src/db/travel_queries.py:373 | `s[-6:]` is the last six characters, or the whole string when it is shorter |
| TravelQueries.BookHotel | src/db/travel_queries.py:385-387 | the hotel stub's booking id is `HT` followed by the last six characters of the indent id, and it is always confirmed |
| TravelQueries.BookingIdsSeeOnlyTheSuffix | src/db/travel_queries.py:371-387 | two indents whose ids share their last six characters get the same flight and hotel booking ids |
| TravelQueries.NullStatusShowsPending | src/db/travel_queries.py:601-615 | a ticket whose status column is NULL or empty is listed with code `pending` and label "Pending" |
| TravelQueries.EmployeeTickets | src/db/travel_queries.py:584-634 | one ticket per row, in the query's order, each carrying the row's fields with its status code and readable label |
| TravelQueries.EligibleHotels | src/db/travel_queries.py:141 | a hotel is kept exactly when it is in the input and either lists no grades or its grade text contains the grade; nothing is added |
| TravelQueries.EligibleHotelsAppend | src/db/travel_queries.py:141 | the hotel filter keeps table order: filtering two concatenated lists gives the two filtered lists concatenated |
| TravelQueries.EligibleHotelsOne | src/db/travel_queries.py:141 | a single hotel is kept exactly when its grade list is empty or mentions the grade |
| TravelQueries.SubstringEligibility | src/db/travel_queries.py:141 | the grade test is a substring test: grade `E1` is admitted by a hotel listing only `E10` |
| TravelQueries.EditRow | src/db/travel_queries.py:409-473 | the edit path refuses a missing indent, another employee's indent and a non-draft indent, in that order; runs the duplicate guard without the indent itself only when the new status is not `draft`; otherwise rewrites the trip fields and status of that row alone; a refusal changes nothing |
| TravelQueries.InsertRow | src/db/travel_queries.py:475-552 | the insert path runs the duplicate guard unless the status is `draft`, refuses an unknown employee, and otherwise adds one row under the fresh id with the user's profile columns; a refusal changes nothing |
| TravelQueries.BookmarkedAfterCreate | src/db/travel_queries.py:674-695 | once a bookmark is inserted, the same route in any spacing or case counts as already bookmarked by its owner |
| TravelQueries.AddBookmarkRow | src/db/travel_queries.py:666-726 | a blank city is refused, a route the employee already bookmarked is refused, and otherwise exactly one row is added with stripped cities, countries defaulting to India and an empty tag stored as NULL |
| TravelQueries.TravelDb.CreateTravelIndentFromForm | src/db/travel_queries.py:389-552 | a non-empty `indent_id` takes the edit path and anything else the insert path, with the stated outcomes; users and bookmarks never change and every row stays under its own id |
| TravelQueries.TravelDb.EditDraft | src/db/travel_queries.py:409-473 | the table after the edit path is the one the edit outcome describes |
| TravelQueries.TravelDb.InsertIndent | src/db/travel_queries.py:475-552 | the table after the insert path is the one the insert outcome describes |
| TravelQueries.TravelDb.ApproveIndentManager | src/db/travel_queries.py:275-286 | the status becomes `accepted_manager` with no check, and the call always reports success |
| TravelQueries.TravelDb.RejectManagerTicket | src/db/travel_queries.py:312-323 | the status becomes `rejected_manager` with no check, and the call always reports success |
| TravelQueries.TravelDb.ApproveHrTicket | src/db/travel_queries.py:351-369 | a refused gate returns its message and changes nothing; otherwise the status becomes `hr_approved` |
| TravelQueries.TravelDb.BookFlight | src/db/travel_queries.py:371-383 | a refused gate returns its message and changes nothing; otherwise the status becomes `booked` and the demo booking is returned |
| TravelQueries.TravelDb.CreateBookmark | src/db/travel_queries.py:666-726 | the bookmark table after the call is the one the bookmark outcome describes; indents and users are unchanged |
| TravelQueries.TravelDb.DeleteBookmark | src/db/travel_queries.py:729-746 | a bookmark the employee owns is removed and the call succeeds; any other id gives "Bookmark not found" and changes nothing |
| TravelQueries.TravelDb.TouchBookmark | src/db/travel_queries.py:749-768 | an owned bookmark gets one more use (NULL counting as 0) and a last-use time of now; any other id gives "Bookmark not found" and changes nothing |
| TravelIndentService.Coalesce | src/api/services/travel_indent_service.py:105 | SQL `COALESCE(is_approved, 'pending')` replaces NULL alone: an empty string stays empty |
| TravelIndentService.ListedStatusesCover | src/api/services/travel_indent_service.py:108-112 | the HR dashboard lists every HR-eligible status and a fresh `pending` submission, and no duplicate-safe status (drafts and rejections are hidden) |
| TravelIndentService.GetById | src/api/services/travel_indent_service.py:26-63 | an unknown id gives None; a known id gives that row's owner, trip fields and raw status |
| TravelIndentService.Listed | src/api/services/travel_indent_service.py:108-112 | the dashboard selection holds exactly the rows whose coalesced status is one of the ten listed values, and nothing else |
| TravelIndentService.ListedKeepsOrder | src/api/services/travel_indent_service.py:113 | the selection keeps the newest-first order of the rows it is drawn from |
| TravelIndentService.GetAll | src/api/services/travel_indent_service.py:95-143 | one dashboard entry per selected row, in order |
| TravelIndentService.GetAllRows | src/api/services/travel_indent_service.py:138-139 | each dashboard entry carries the same value in `status` and `status_code`, a listed status, and its row's id |
| TravelIndentService.StatusGate | src/api/services/travel_indent_service.py:70-83 | an unknown id gives False; the update is refused with the manager-approval message exactly when the new status normalises to an HR action and the current status is not HR-eligible |
| TravelIndentService.UpdateStatus | src/api/services/travel_indent_service.py:65-93 | the outcome is the gate's; only a True outcome writes, and it writes the caller's status as given (not normalised) to that row alone |
| TravelIndentService.NoOtherTransitionGuard | src/api/services/travel_indent_service.py:81 | a status that is not an HR action is written from any current status: nothing else guards the transitions |
| TravelIndentService.BookedRefusedWhilePending | src/api/services/travel_indent_service.py:79-83 | `booked` is refused on an indent whose status is still NULL |
| TravelIndentService.BookedAfterManager | src/api/services/travel_indent_service.py:79-83 | `booked` is accepted once the manager's approval has been written |
| WorkflowEngine.HrApproveAndBook | src/workflow/workflow_engine.py:7-18 | a refused HR gate is reported as BLOCKED with the gate's message and nothing changes; otherwise the indent becomes `hr_approved`, and when booking is asked for it then becomes `booked` and the flight and hotel stubs are returned |
| WorkflowEngine.ApprovedAndBookedEndsBooked | src/workflow/workflow_engine.py:9-17 | after approval and booking the indent's status reads `booked`, which is still HR-eligible |
| WorkflowEngine.ManagerApproveAsWritten | src/workflow/workflow_engine.py:3-5 | as written, the manager step always raises (it passes three arguments to a one-parameter function) |
| WorkflowEngine.ManagerApproveNeverReports | src/workflow/workflow_engine.py:4 | the raised error is CPython's `TypeError` for three arguments given to a one-parameter function, so MANAGER_APPROVED is never reported |
| WorkflowEngine.ManagerApprove | src/workflow/workflow_engine.py:3-5 | the corrected manager step records `accepted_manager` on that indent alone and reports MANAGER_APPROVED for it |
| WorkflowEngine.ManagerThenHrNotBlocked | src/workflow/workflow_engine.py:3-11 | after the corrected manager step the HR step is not blocked |
| HrAgent.ParseHr | src/agents/hr_agent.py:10-32 | the list request wins whenever the normalised message contains both "list" and "pending"; `details` and `approve` take the second whitespace token of the original message as the id, or give their usage error when there is none; anything else gets the help text |
| HrAgent.HandleMessage | src/agents/hr_agent.py:9-32 | only `approve` writes: a refused gate becomes an error reply and changes nothing; a passed gate leaves the indent `booked` (through `hr_approved`) and replies with both stub bookings; every other command replies without writing; conversely an "Approved & Booked" reply follows only a passed gate and leaves the indent `booked` |
| ManagerAgent.ParseManager | src/agents/manager_agent.py:10-35 | the list request wins, then `details`, `approve` and `reject` in that order, each taking the second token as the id or giving its usage error; anything else gets the help text |
| ManagerAgent.RunAsWritten | src/agents/manager_agent.py:21-34 | as written, no reply ever reports an approval or a rejection |
| ManagerAgent.ApproveAndRejectAlwaysRaise | src/agents/manager_agent.py:25 | as written, every recognised `approve` or `reject` raises CPython's `TypeError` for two arguments given to a one-parameter function |
| ManagerAgent.Handle | src/agents/manager_agent.py:9-35 | the corrected commands: `approve` writes `accepted_manager` into the gate's `is_approved` column, as `approve_indent_manager` does (not the `manager_approval_status` column of the one-parameter `approve_manager_ticket`), and `reject` writes `rejected_manager`, as the one-parameter `reject_manager_ticket` does, each on the named indent alone and echoing its id; every other command replies without writing |
| ManagerAgent.ManagerDecisionControlsGate | src/agents/manager_agent.py:21-34 | after a corrected approve the HR gate opens; after a reject it stays closed |
| PyCalls.Bind | src/db/travel_queries.py:301 | a call binds exactly when it gives no more arguments than the callee declares and at least the required ones; too many arguments raise `TypeError` with the count in the message |
| JwtService.Unexpired | src/auth/jwt_service.py:29-34 | after the cleanup, an entry remains exactly when it expires strictly after now, with its expiry unchanged |
| JwtService.RevokeThenCheck | src/auth/jwt_service.py:37-57 | once a non-empty `jti` is revoked until `e`, it reads as revoked exactly before `e`, whatever the blacklist held before and whenever the revocation happened |
| JwtService.EmptyJtiIgnored | src/auth/jwt_service.py:39-40 | revoking an empty `jti` records nothing, and an empty or missing `jti` is never revoked |
| JwtService.CheckIsStable | src/auth/jwt_service.py:46-57 | a revocation check only drops expired entries, so it changes no later answer for any token |
| JwtService.RevokeIsLocal | src/auth/jwt_service.py:37-43 | revoking one token leaves the answer for every other token unchanged |
| JwtService.TokenBlacklist.constructor | src/auth/jwt_service.py:25 | the blacklist starts empty |
| JwtService.TokenBlacklist.CleanupExpired | src/auth/jwt_service.py:29-34 | popping the expired entries one by one leaves exactly the unexpired entries |
| JwtService.TokenBlacklist.Revoke | src/auth/jwt_service.py:37-43 | an empty `jti` changes nothing; otherwise the blacklist is cleaned up and then maps the `jti` to its expiry |
| JwtService.TokenBlacklist.IsRevoked | src/auth/jwt_service.py:46-57 | the answer is true exactly when a non-empty `jti` has an entry expiring after the second clock reading; the blacklist is left cleaned up, without that entry if it had expired by then |
| JwtService.FindUser | src/auth/jwt_service.py:63-87 | no user is found exactly when no row's email or employee id is the identifier; a found user is a row that matches |
| JwtService.Authenticate | src/auth/jwt_service.py:119-137 | authentication fails exactly for an unknown user, an empty password hash or a password bcrypt rejects; success returns the user's fields without the hash |
| JwtService.AuthenticatedMeansPasswordMatched | src/auth/jwt_service.py:119-128 | a successful login implies a stored user matching the identifier whose non-empty hash bcrypt accepted for the password |
| JwtService.DecodeDecision | src/auth/jwt_service.py:140-160 | an expired token gives 401 "Token expired", any other decode failure 401 "Could not validate credentials", and decoded claims give 401 "Token revoked" exactly when revocation is checked and the token is revoked; otherwise the claims are returned |
| JwtService.DecodeToken | src/auth/jwt_service.py:140-160 | the blacklist is consulted, and cleaned, only for decoded claims with revocation checking on; otherwise it is left as it was |
| JwtService.UserDecision | src/auth/jwt_service.py:170-187 | a missing or empty `sub` gives 401 "Invalid token payload", an unknown user 401 "User not found", an inactive user 400 "Inactive user"; an active user is returned without hash or active flag |
| JwtService.CurrentUserIsActive | src/auth/jwt_service.py:167-187 | only an active user matching the token's subject gets through, and the only refusal that is not a 401 is the inactive user's 400 |
| JwtService.GetCurrentUser | src/auth/jwt_service.py:163-187 | a failed decode or a revoked token is the result; otherwise the user checks decide; a decoded token leaves the blacklist as the revocation check leaves it (expired entries purged, its own entry gone if it has lapsed), and an undecodable one leaves the blacklist untouched |
| SessionModels.Session.constructor | src/api/models/session_models.py:13-17 | a new session holds the system prompt alone, both timestamps at now and no bound indent |
| SessionModels.Session.Default | src/api/models/session_models.py:13-17 | `Session()` starts from the HR booking prompt, with the same initial state |
| SessionModels.Session.UpdateActivity | src/api/models/session_models.py:19-21 | only the last-activity time moves, to now |
| Sessions.SessionService.constructor | src/api/services/session_service.py:14-15 | the service starts with no sessions, so no two ids share a session object |
| Sessions.LiveSessions | src/api/services/session_service.py:28-36 | the kept sessions are exactly those whose last activity is not before the cutoff, each unchanged; the HR session store and the policy assistant's purge both keep this set |
| Sessions.SessionService.GetOrCreate | src/api/services/session_service.py:17-26 | a known non-empty id returns that id and the same session object with only its activity refreshed, the map unchanged and no other session touched; anything else stores one new default session under the fresh id and returns it; no two ids share a session object before or after |
| Sessions.SessionService.CleanupOldSessions | src/api/services/session_service.py:28-36 | deleting the stale ids one by one leaves exactly the live sessions, still with no session object shared by two ids |
| Sessions.SessionService.DeleteSession | src/api/services/session_service.py:38-43 | the answer is True exactly when the id was present; afterwards the id is gone and nothing else changed, still with no session object shared by two ids |
| Sessions.SessionService.GetSession | src/api/services/session_service.py:45-47 | an unknown id gives None, a known one its session, and nothing is refreshed |
| Sessions.SessionService.ActiveCount | src/api/services/session_service.py:49-51 | the count is zero exactly when there are no sessions |
| Sessions.CreateGrowsByOne | src/api/services/session_service.py:24-26 | storing a session under an unused id grows the store by exactly one |
| ContextService.StatusDisplay | src/api/services/context_service.py:35-46 | both spellings of the manager approval display as "Approved by Manager"; a status without a display name is shown as it is, and NULL as `None` |
| ContextService.LaterStatusesShownRaw | src/api/services/context_service.py:36-45 | `hr_approved`, `booked`, `draft` and `manager_approved` have no display name and are shown raw |
| ContextService.BuildContextMessage | src/api/services/context_service.py:7-52 | with no bound indent the message is passed on unchanged |
| ContextService.EndsWithRequest | src/api/services/context_service.py:49-52 | with a bound indent the result is the context lines, a newline, the request label and the user's message, which therefore ends the result |
| ContextService.StatusLineShown | src/api/services/context_service.py:14-49 | the context has 22 lines; the status line, the 20th, shows the display name of the raw status, and the separator comes last |
| PolicyRag.Truncate | src/rag/rag_service.py:56-57 | a text within the limit is kept whole; a longer one is cut to the limit and marked with `…`, so the result is at most one character over the limit |
| PolicyRag.TruncateKeepsPrefix | src/rag/rag_service.py:71-73 | what is shown is the text itself or its first `limit` characters followed by `…` |
| PolicyRag.SourceOf | src/rag/rag_service.py:54-61 | a source's id is the hit's own id, or its 1-based position when the hit has none; its text is at most one character over the limit |
| PolicyRag.SnippetIsStrippedText | src/rag/rag_service.py:55-57 | a snippet is the stripped hit text (a missing text counting as empty), cut and marked only when it is longer than the limit |
| PolicyRag.Chunks | src/rag/rag_service.py:67-69 | one chunk per source, in order, each numbered from 1 |
| PolicyRag.ContextBlock | src/rag/rag_service.py:64-73 | no sources give the fixed "no excerpts" line; otherwise the numbered chunks are joined by blank lines and truncated to the limit |
| PolicyRag.OneShortSource | src/rag/rag_service.py:64-73 | a single short source appears in full after "Source 1 -> " |
| PolicyRag.ComposedMessageShape | src/rag/rag_service.py:75-85 | the composed message starts with the guidelines and ends with the question heading and the stripped question |
| PolicyRag.PolicyRagService.constructor | src/rag/rag_service.py:19-24 | the service starts with no sessions (so no two ids share a session object), retrieves at least one result and allows at least 200 context characters, keeping configured values at or above those floors |
| PolicyRag.PolicyRagService.CleanupOldSessions | src/rag/rag_service.py:29-33 | deleting the stale ids one by one leaves exactly the live sessions, still with no session object shared by two ids |
| PolicyRag.PolicyRagService.GetOrCreate | src/rag/rag_service.py:35-43 | a known non-empty id is reused with its history and its activity refreshed; anything else stores one new session with the policy prompt under the fresh id; only the reused session object may change, and no two ids share a session object before or after |
| PolicyRag.PolicyRagService.OpenSession | src/rag/rag_service.py:94-95 | after the purge the chosen id is the given live one or the fresh id, and the map is the live sessions with the chosen session stored under it; a resumed session keeps its history, a new one starts with the policy prompt; every other kept id maps to the same session object as before, left unchanged and distinct from the chosen one |
| PolicyRag.PolicyRagService.FormatSources | src/rag/rag_service.py:52-62 | one source per hit, in order, each the hit's formatted source at its 1-based position |
| PolicyRag.PolicyRagService.Chat | src/rag/rag_service.py:90-111 | a blank message raises "Message cannot be empty" and no session is touched; otherwise only the chosen session object changes, every other kept id maps to the same, unchanged session, and no two ids share a session object; the stale sessions are gone, the chosen session's history gains the composed question and, when the model answers, the answer; a model failure propagates with the question already appended; the reply is the answer, the chosen session id and exactly the hits' formatted sources |
| PolicyRag.RenderedIsFormatted | src/rag/rag_service.py:52-62 | any list with one entry per hit, each that hit's formatted source at its 1-based position, is the rendering of the hits |
| PolicyRag.AppendTurn | src/rag/rag_service.py:102-105 | the user message is appended to the session; the model reply follows it and the activity time moves to now only when the model answered, so a failure leaves the user message in place |
| HrChat.EffectiveArgs | src/api/hr_mcp_router.py:89-94 | missing or falsy arguments become `{}`; a non-empty string is replaced by what it decodes to, and kept as the string when it does not decode |
| HrChat.NotFoundPayloadIsJson | src/api/hr_mcp_router.py:100 | the not-found payload is the JSON object whose `error` member is the whole message "Tool <name> not found" encoded as a JSON string |
| HrChat.NotFoundPayloadIsPrintable | src/api/hr_mcp_router.py:100 | the not-found payload is printable ASCII whatever characters the tool name holds |
| HrChat.PlainNameNotFound | src/api/hr_mcp_router.py:100 | a name of printable ASCII without quote or backslash appears in the payload verbatim |
| JsonStrings.EscapeChar | src/api/hr_mcp_router.py:100 | a printable ASCII character other than quote and backslash is written as itself, and every other one as an escape starting with a backslash |
| JsonStrings.EscapeIsPrintable | src/api/hr_mcp_router.py:100 | every escape is made of printable ASCII characters |
| JsonStrings.EscapeRoundTrip | src/api/hr_mcp_router.py:100 | a JSON reader reads each escape back as the character that was written, including surrogate pairs above U+FFFF |
| JsonStrings.Hex4RoundTrip | src/api/hr_mcp_router.py:100 | the four lower-case hexadecimal digits of a `\u` escape read back as the code unit written |
| JsonStrings.EscapeAll | src/api/hr_mcp_router.py:100 | a string of plain characters is written as it is |
| JsonStrings.EscapeAllIsPrintable | src/api/hr_mcp_router.py:100 | an escaped string is printable ASCII, whatever it escapes |
| JsonStrings.EscapeBetweenPlain | src/api/hr_mcp_router.py:100 | plain text around a string is written as it is, and only the string in the middle is escaped |
| JsonStrings.QuotedBetweenPlain | src/api/hr_mcp_router.py:100 | quoting a string framed by plain text escapes only the string in the middle |
| JsonStrings.EscapeAllAppend | src/api/hr_mcp_router.py:100 | escaping distributes over concatenation |
| JsonStrings.Quoted | src/api/hr_mcp_router.py:100 | the encoded string starts and ends with a quote |
| JsonStrings.QuotedIsPrintable | src/api/hr_mcp_router.py:100 | the encoded string is printable ASCII |
| HrChat.RunTools | src/api/hr_mcp_router.py:86-106 | every recorded tool name resolves to a tool, and there are never more recorded names than tool messages, nor more tool messages than calls |
| HrChat.FailureSticks | src/api/hr_mcp_router.py:104 | once a tool raises, the later calls change nothing: the loop is over |
| HrChat.ToolMessagesPairUp | src/api/hr_mcp_router.py:97-105 | when no tool raises, call `i` gets tool message `i`, carrying the call's id |
| HrChat.UnknownToolGetsNotFound | src/api/hr_mcp_router.py:97-101 | when no tool raises, the message of a call to an unknown tool is the not-found payload for its name |
| HrChat.KnownNames | src/api/hr_mcp_router.py:96-106 | the names kept are exactly the names of the calls whose tool resolves |
| HrChat.ToolsUsedAreKnownNames | src/api/hr_mcp_router.py:96-106 | when no tool raises, `tools_used` lists the resolvable calls' names in call order |
| HrChat.BookingCompleteIff | src/api/hr_mcp_router.py:117-118 | a turn completes the booking exactly when both booking tools resolve and were called, whatever they returned |
| HrChat.InvokeToolCalls | src/api/hr_mcp_router.py:86-106 | the loop's messages, names and failure are those of the tool run over the calls in order |
| HrChat.AnswerTurn | src/api/hr_mcp_router.py:66-136 | the history gains the first answer, then the tool messages and the final answer as far as the turn got; the reply is the first answer when no tool was called, the final answer with the tools used otherwise, and any failure a 500; `completed_hr` is written only when both booking tools ran, the final answer came, an indent is bound and the gate lets it through; nothing else is written |
| HrChat.NoToolCallsTurn | src/api/hr_mcp_router.py:73-81 | a turn without tool calls adds only the model's answer, uses no tools, completes no booking and writes no status |
| HrChat.GateRefusalArrivesAs500 | src/api/hr_mcp_router.py:119-136 | the gate's refusal of `completed_hr` is raised as a 400 inside the outer `try` and so reaches the caller as a 500 whose detail is "Error: 400: " and the gate's message |
| HrChat.CompletedHrRefused | src/api/hr_mcp_router.py:121-124 | writing `completed_hr` is refused while the manager has not approved |
| HrChat.BadRequestText | src/api/hr_mcp_router.py:126 | the text of a 400 `HTTPException` is "400: " followed by its detail |
| HrChat.ChosenId | src/api/hr_mcp_router.py:51 | a turn resumes the requested session when the purge kept it, and otherwise runs under the fresh id |
| HrChat.OpenSession | src/api/hr_mcp_router.py:47-51 | the stale sessions are purged, then the requested live session is reused or one new default session is stored under the fresh id; either way its activity is now; every other kept id maps to the same session object as before, left unchanged and distinct from the chosen one |
| HrChat.OpenTurn | src/api/hr_mcp_router.py:47-61 | the indent is loaded only when one is asked for and none is bound yet; then exactly one user message, built from the request and the bound indent, is appended; every other kept id maps to the same session object as before, left unchanged and distinct from the chosen one |
| HrChat.Chat | src/api/hr_mcp_router.py:40-136 | sessions older than the timeout are purged and the chosen session is the only one added or replaced: the given live session is resumed unchanged, otherwise a fresh one is created; its bound indent is the one it had, or the requested indent looked up when it had none; its history is its earlier history (or the system prompt), the one user message and what the turn added; the indent table changes only by the `completed_hr` write of a completed booking whose gate passes; the answer is the turn's outcome; every other kept session, with its history, bound indent and activity time, is the same unchanged object, and no two ids share a session object |
| HrChat.BoundIndent | src/api/hr_mcp_router.py:53-55 | a session keeps an indent it already has; one without gets the requested indent as looked up, and none when no indent is requested |
| HrChat.UpdateTicketStatus | src/api/hr_mcp_router.py:144-158 | a gate refusal is a 400 with the gate's message and an unknown ticket a 404, neither writing; otherwise the status is written and the confirmation names it |
| HrChat.TicketStatusOutcomes | src/api/hr_mcp_router.py:152-158 | an unknown ticket always ends in the 404; a status that is not an HR action is always written |
| HrChat.DeleteSessionEndpoint | src/api/hr_mcp_router.py:173-180 | a refused caller gets the `get_current_user` error and nothing is deleted; otherwise an existing session is deleted and confirmed, an unknown one gives 404 "Session not found", and either way the id is gone afterwards |
| HrChat.EntryOf | src/api/hr_mcp_router.py:193-196 | a message is shown exactly when it is a user message or a model answer without tool calls |
| HrChat.Visible | src/api/hr_mcp_router.py:191-196 | the visible history is never longer than the history |
| HrChat.VisibleAppend | src/api/hr_mcp_router.py:191-196 | the visible part of two histories put together is the two visible parts put together |
| HrChat.AnsweredTurnShowsReply | src/api/hr_mcp_router.py:73-133 | a turn that answers adds exactly one visible entry, the assistant's reply text `chat` returned; tool calls and tool results stay hidden |
| HrChat.ToolMessagesHidden | src/api/hr_mcp_router.py:192-196 | tool messages never show in the history |
| HrChat.SessionHistory | src/api/hr_mcp_router.py:182-198 | a refused caller gets the `get_current_user` error; otherwise an unknown session gives 404 "Session not found" and a known one gives its visible entries in order |
| HotelServer.SingleOccupancyGradesSpelledOut | src/mcp_servers/hotel/hotel_booking_mcp_server.py:72-75 | single occupancy is allowed exactly for the grades E5 to E8 and M1 to M3 |
| HotelServer.CalculateNights | src/mcp_servers/hotel/hotel_booking_mcp_server.py:66-70 | check-in plus the nights is the check-out day, so reversed dates give a negative count |
| HotelServer.Decrement | src/mcp_servers/hotel/hotel_booking_mcp_server.py:480-484 | the booking's inventory update keeps every inventory row and adds none |
| HotelServer.Restore | src/mcp_servers/hotel/hotel_booking_mcp_server.py:621-626 | the cancellation's inventory update keeps every inventory row and adds none |
| HotelServer.RestoreUndoesDecrement | src/mcp_servers/hotel/hotel_booking_mcp_server.py:480-484 | cancelling gives back exactly the rooms the booking took, on the same days |
| HotelServer.DecrementIsLocal | src/mcp_servers/hotel/hotel_booking_mcp_server.py:478-484 | a booking takes one room on every day of its stay, both ends included, and touches no other room or day |
| HotelServer.StaySlotsCount | src/mcp_servers/hotel/hotel_booking_mcp_server.py:441-442 | the inclusive date range covers one day more than the nights charged: the check-out day is taken too |
| HotelServer.BookGuard | src/mcp_servers/hotel/hotel_booking_mcp_server.py:416-448 | the refusals come in source order: room not found, then the twin-sharing policy, then a stay with no inventory rows (the `None <= 0` comparison raises and is reported as a failed booking), then a day with no room left; the guard passes exactly when none applies |
| HotelServer.CheckAvailability | src/mcp_servers/hotel/hotel_booking_mcp_server.py:302-383 | an unknown room gives "Room not found"; a stay with no inventory rows fails on `float(None)`; otherwise the room is reported available exactly when every day of the stay has a room left, with at least one day checked and the nights of the stay |
| HotelServer.BookableIffAvailable | src/mcp_servers/hotel/hotel_booking_mcp_server.py:302-448 | a booking passes its guards exactly when the availability check reports the room available and the grade may take it |
| HotelServer.HotelDb.constructor | src/mcp_servers/hotel/hotel_booking_mcp_server.py:56-64 | the database starts with the given rooms and inventory and no bookings |
| HotelServer.HotelDb.BookHotel | src/mcp_servers/hotel/hotel_booking_mcp_server.py:385-545 | a refused guard returns its message and writes nothing; otherwise one confirmed booking is stored under the reference, the stay's inventory goes down by one, and the confirmation says twin sharing is required exactly for grades without single occupancy |
| HotelServer.HotelDb.CancelBooking | src/mcp_servers/hotel/hotel_booking_mcp_server.py:586-640 | an unknown booking and an already cancelled one are refused without writing; otherwise the booking is marked cancelled and the stay's inventory goes back up by one; the email is not checked |
| HotelServer.BookThenCancel | src/mcp_servers/hotel/hotel_booking_mcp_server.py:478-628 | booking a room and cancelling that booking leaves the inventory as it was |
| HotelServer.TwinFilterIffNoSingleOccupancy | src/mcp_servers/hotel/hotel_booking_mcp_server.py:142-144 | the search keeps to twin-sharing rooms exactly for the grades without single occupancy |
| HotelServer.HotelIds | src/mcp_servers/hotel/hotel_booking_mcp_server.py:163-200 | the grouped hotels' ids are distinct and are exactly the hotel ids of the rows |
| HotelServer.RoomsOf | src/mcp_servers/hotel/hotel_booking_mcp_server.py:184-198 | a hotel never has more offers than there are rows |
| HotelServer.FirstInfo | src/mcp_servers/hotel/hotel_booking_mcp_server.py:168-182 | the columns recorded for a hotel carry that hotel's id |
| HotelServer.FirstInfoIsFirstRow | src/mcp_servers/hotel/hotel_booking_mcp_server.py:168-182 | the columns recorded for a hotel are those of its first row: some row carries exactly them and no earlier row belongs to that hotel |
| HotelServer.Grouped | src/mcp_servers/hotel/hotel_booking_mcp_server.py:163-200 | there is one grouped hotel per distinct hotel id |
| HotelServer.HotelsFoundCountsHotels | src/mcp_servers/hotel/hotel_booking_mcp_server.py:222 | `hotels_found` is the number of distinct hotels among the rows |
| HotelServer.GroupByHotel | src/mcp_servers/hotel/hotel_booking_mcp_server.py:163-200 | the hotels come in order of first appearance, each with its first row's columns and all its rooms in row order |
| HotelServer.IndexByHotel | src/mcp_servers/hotel/hotel_booking_mcp_server.py:165-198 | after the loop the dictionary has exactly the hotels seen, in first-appearance order, each with its first row's columns and its offers |
| HotelServer.NoRoomsOfAbsentHotel | src/mcp_servers/hotel/hotel_booking_mcp_server.py:168-182 | a hotel that has no rows has no offers |
| HotelServer.GroupStep | src/mcp_servers/hotel/hotel_booking_mcp_server.py:165-198 | one more row adds its hotel when new, appends its offer to that hotel alone, and keeps the first columns of hotels already seen |
| AirlineServer.AllowedCabins | src/mcp_servers/airlines/airline_booking_server.py:66-82 | economy and premium economy are always allowed; business is allowed exactly when the grade is M1 to M3 and the route is international |
| AirlineServer.BusinessOnlyForManagersAbroad | src/mcp_servers/airlines/airline_booking_server.py:66-82 | a domestic route never offers business class, and neither does a grade outside M1 to M3 |
| AirlineServer.FirstInCity | src/mcp_servers/airlines/airline_booking_server.py:111-120 | the airport found is in the city, compared without case, and none is found exactly when no airport is in that city |
| AirlineServer.FindRoute | src/mcp_servers/airlines/airline_booking_server.py:111-120 | the route is missing exactly when the origin or the destination city has no airport; otherwise its countries are those of airports in the two cities |
| AirlineServer.QueryFlights | src/mcp_servers/airlines/airline_booking_server.py:151-169 | the search returns exactly the rows on the route, date and cabin with a seat left, and only preferred airlines when asked, each as often as the table holds it; no preferred airline is listed after one that is not |
| AirlineServer.PreferredFirst | src/mcp_servers/airlines/airline_booking_server.py:169 | the preferred rows come before the others, and the ordering neither adds nor drops a row: the result is a permutation of its input |
| AirlineServer.PreferenceSplitKeepsRows | src/mcp_servers/airlines/airline_booking_server.py:169 | the preferred and the other rows together hold every row exactly as often as the input does |
| AirlineServer.PreferredListedFirst | src/mcp_servers/airlines/airline_booking_server.py:169 | in the listed flights, everything before a preferred-airline flight is a preferred-airline flight too |
| AirlineServer.HoursAndMinutes | src/mcp_servers/airlines/airline_booking_server.py:186 | the duration splits into whole hours and a remainder of minutes below 60 that add back up to it |
| AirlineServer.SearchGuard | src/mcp_servers/airlines/airline_booking_server.py:111-128 | an unknown route is refused first; then a cabin the grade may not use on that route is refused with the policy message; otherwise the search goes ahead, knowing whether the route is international |
| AirlineServer.FormatFlights | src/mcp_servers/airlines/airline_booking_server.py:175-202 | the loop lists every found row, in order, each with its flight number, airline and duration |
| AirlineServer.ListingIsRowFormatted | src/mcp_servers/airlines/airline_booking_server.py:175-202 | listing j carries found row j's flight id, its airline-code-prefixed flight number, its duration text and the requested cabin |
| AirlineServer.SearchedCabinIsAllowed | src/mcp_servers/airlines/airline_booking_server.py:121-128 | a search that passes its checks is for a cabin the grade may use, and business only for M1 to M3 abroad |
| AirlineServer.SearchFlights | src/mcp_servers/airlines/airline_booking_server.py:85-236 | a failed check is returned as the error; otherwise the reply lists exactly the matching flights with their count, and approval is required exactly on an international route |
| AirlineServer.ListedFlightsAreBookable | src/mcp_servers/airlines/airline_booking_server.py:151-163 | every listed flight has a seat left in the requested cabin on the requested date, and is preferred when only preferred airlines were asked for |
| AirlineServer.NewTravelerNames | src/mcp_servers/airlines/airline_booking_server.py:409-410 | an empty name gives "Unknown" twice; a name of whitespace only raises an index error; any other name is split into names |
| AirlineServer.TravelerNamesAreTokens | src/mcp_servers/airlines/airline_booking_server.py:409-410 | the first name is the first word of the name, and the last name is its last word exactly when the name contains a space |
| AirlineServer.TravelerFor | src/mcp_servers/airlines/airline_booking_server.py:393-418 | a known email reuses its traveler; an unknown one creates a traveler from the split name under the next id, or fails as a booking failure when the name cannot be split |
| AirlineServer.FlightGuard | src/mcp_servers/airlines/airline_booking_server.py:436-455 | the refusals come in source order: flight or inventory row not found, then no seats left, then a cabin the grade may not use; otherwise the flight is booked |
| AirlineServer.BookedCabinIsAllowed | src/mcp_servers/airlines/airline_booking_server.py:436-455 | a booked flight had a seat left in that cabin and the cabin is allowed for the grade on that route |
| AirlineServer.ReferenceCarriesId | src/mcp_servers/airlines/airline_booking_server.py:507 | the booking reference is "YASH-BK-" followed by at least six digits that read back as the booking id |
| AirlineServer.ReferencesAreDistinct | src/mcp_servers/airlines/airline_booking_server.py:507 | distinct bookings get distinct references |
| AirlineServer.NextSteps | src/mcp_servers/airlines/airline_booking_server.py:547-551 | the next steps always begin with the three fixed items, and mention BGH approval exactly on an international route |
| AirlineServer.ConfirmationApprovalConsistent | src/mcp_servers/airlines/airline_booking_server.py:539-551 | a confirmation requires approval exactly on an international route, at level BGH exactly then, and its next steps say so exactly then |
| AirlineServer.BookOutcome | src/mcp_servers/airlines/airline_booking_server.py:365-568 | a failed booking leaves every table as it was, the traveler record included |
| AirlineServer.BookingChecksInOrder | src/mcp_servers/airlines/airline_booking_server.py:393-455 | the traveler step is checked before the flight checks, and a booking succeeds exactly when both pass |
| AirlineServer.SuccessfulBookingEffects | src/mcp_servers/airlines/airline_booking_server.py:464-507 | a successful booking takes exactly one seat from its own inventory row and none from others, records a confirmed booking under the next id with its reference, and adds a pending BGH approval exactly for an international route |
| AirlineServer.AirlineDb.constructor | src/mcp_servers/airlines/airline_booking_server.py:56-64 | the database starts with the given flights and seats, empty booking tables and counters at 1 |
| AirlineServer.AirlineDb.BookFlight | src/mcp_servers/airlines/airline_booking_server.py:365-568 | the reply and the new tables are the booking outcome on the old tables, and the flight table is unchanged |
| EmployeeRouter.Reraise | src/api/employee_router.py:78-79 | a `ValueError` from the callee becomes an HTTP error with the endpoint's status and the error's message; a returned value passes through unchanged |
| EmployeeRouter.ReraiseIsLossless | src/api/employee_router.py:78-79 | two different callee outcomes never produce the same response |
| EmployeeRouter.TravelTypeName | src/api/employee_router.py:29 | a travel type is spelled "domestic" or "international" |
| EmployeeRouter.ParseTravelType | src/api/employee_router.py:29 | exactly the two spellings "domestic" and "international" are accepted |
| EmployeeRouter.TravelTypeRoundTrip | src/api/employee_router.py:29 | naming and parsing a travel type are inverse in both directions |
| EmployeeRouter.NewIndentRequest | src/api/employee_router.py:27-36 | an indent body is accepted exactly when its travel type is one of the two spellings, else answered 422, and the accepted body keeps its fields |
| EmployeeRouter.ValidateCity | src/api/employee_router.py:46-50 | a city that is empty or only whitespace is refused with "City names cannot be empty"; any other is accepted stripped and is not blank |
| EmployeeRouter.ValidateCityIdempotent | src/api/employee_router.py:46-50 | a city the validator accepted passes it again unchanged |
| EmployeeRouter.DefaultCountry | src/api/employee_router.py:52-56 | a missing or blank country becomes "India", and the result is never blank |
| EmployeeRouter.DefaultCountryIdempotent | src/api/employee_router.py:52-56 | a country the validator produced comes back unchanged through it |
| EmployeeRouter.NewBookmarkRequest | src/api/employee_router.py:39-56 | a bookmark body is accepted exactly when both cities are non-blank, with the cities stripped and the countries defaulted; otherwise it is answered 422 |
| EmployeeRouter.ValidatedCityIsKeyed | src/api/employee_router.py:46-50 | an accepted city is already stripped and leaves a non-empty lookup key for the bookmark query |
| EmployeeRouter.DefaultCountryIsStored | src/api/employee_router.py:52-56 | the bookmark query stores a validated country exactly as the validator left it |
| EmployeeRouter.ValidatedBookmarkReachesInsert | src/api/employee_router.py:164-184 | after validation the bookmark query cannot refuse the cities as missing, and it stores the validated cities and countries unchanged |
| EmployeeRouter.IndentReply | src/api/employee_router.py:78-84 | the handler answers with the new indent id under its message exactly when the query succeeded, and with the query's error as a 400 otherwise |
| EmployeeRouter.SubmitIndent | src/api/employee_router.py:57-113 | a caller who is not an employee gets 403 and nothing is written; otherwise the indent is inserted or edited as the query specifies with the given initial status, and its outcome is the reply |
| EmployeeRouter.CreateIndent | src/api/employee_router.py:57-84 | the indent is submitted as "pending", answered with "Travel ticket created successfully." or the query's error as a 400; a non-employee gets 403 and nothing changes |
| EmployeeRouter.SaveDraft | src/api/employee_router.py:87-113 | the indent is stored as "draft", answered with "Draft saved." or the query's error as a 400; a non-employee gets 403 and nothing changes |
| EmployeeRouter.DraftNeverBlocked | src/api/employee_router.py:87-113 | a new draft for a known employee, and a draft edit the owner may make, always succeed: no duplicate check can refuse a draft |
| EmployeeRouter.ListMyIndents | src/api/employee_router.py:135-141 | a non-employee gets 403; an employee gets one ticket per indent row, in the rows' order |
| EmployeeRouter.ProfileOf | src/api/employee_router.py:142-152 | a non-employee gets 403; an employee gets their own profile row, or 404 "Employee profile not found" exactly when there is none |
| EmployeeRouter.BookmarksOf | src/db/travel_queries.py:637-663 | exactly the caller's own bookmarks are selected, unchanged |
| EmployeeRouter.ListRouteBookmarks | src/api/employee_router.py:155-161 | a non-employee gets 403; an employee gets exactly their own bookmarks |
| EmployeeRouter.AddRouteBookmark | src/api/employee_router.py:164-184 | a non-employee gets 403 and nothing changes; otherwise the bookmark is created as the query specifies, its `ValueError` answered as 400 |
| EmployeeRouter.RemoveRouteBookmark | src/api/employee_router.py:187-197 | a non-employee gets 403; the caller's own bookmark is deleted and nothing else; a bookmark they do not own is a 404 and nothing is deleted |
| EmployeeRouter.MarkRouteBookmarkUsed | src/api/employee_router.py:200-210 | the caller's own bookmark gets one more use (a NULL count read as 0), stamped now, and every other bookmark and field stays as it was; a bookmark they do not own is a 404 and nothing changes |
| EmployeeRouter.ChatFailure | src/api/employee_router.py:131-134 | a `ValueError` is answered 400 with its message, and any other exception 500 with the message after "Policy assistant error: " |
| EmployeeRouter.ChatPolicyAssistant | src/api/employee_router.py:116-134 | a non-employee gets 403 and a blank message a 400, and in both cases no session is touched; otherwise only the chosen session object changes, every other kept id maps to the same, unchanged session, and no two ids share a session object; the stale sessions are purged and the chosen session gains the composed question and, on an answer, the answer; a failing language model is reported through the two except clauses; an answer is returned with the chosen session id and exactly the hits' formatted sources |
| McpConfig.HttpEntry | src/config/mcp_config.py:8-12 | a missing or empty URL gives no entry; otherwise a streamable-HTTP entry whose URL is the configured one minus its trailing slashes, and no longer ends in a slash |
| McpConfig.HttpEntryStable | src/config/mcp_config.py:8-12 | feeding an entry's URL back in gives the same entry |
| McpConfig.SlashesOnlyKeepEntry | src/config/mcp_config.py:8-12 | a URL of slashes only still yields an entry, with an empty URL |
| McpConfig.GetMcpServers | src/config/mcp_config.py:15-27 | the airline and hotel servers appear under their fixed keys exactly when their URLs are configured and non-empty, each with its own entry, and no other key appears |
| McpConfig.LoadMcpServersConfig | src/config/mcp_config.py:30-32 | loading the configuration yields the same servers as building it |
| McpConfig.AllServersStreamable | src/config/mcp_config.py:15-27 | every configured server uses the streamable-HTTP transport |
| AuthStore.OrNumber | frontend/vue-project/src/stores/auth.js:9 | JavaScript's `x \|\| d` on a number: the value when present and non-zero, else the default |
| AuthStore.ComputeExpiry | frontend/vue-project/src/stores/auth.js:8-11 | the expiry is the lifetime (one hour when none or 0 is given) added to the current second, the one whose millisecond span holds the clock reading |
| AuthStore.Truthy | frontend/vue-project/src/stores/auth.js:27-31 | a string field counts only when present and non-empty, and then as itself |
| AuthStore.IsAuthenticated | frontend/vue-project/src/stores/auth.js:22-26 | no token is never authenticated; a token without an expiry always is; otherwise the session is live exactly while the expiry in milliseconds lies after now |
| AuthStore.Role | frontend/vue-project/src/stores/auth.js:27-29 | the role is the user's role exactly when there is a user with a non-empty role |
| AuthStore.EmployeeName | frontend/vue-project/src/stores/auth.js:30-32 | the greeting is the user's name, else the employee id, else "Traveler", and is never empty |
| AuthStore.ParseNumberRoundTrip | frontend/vue-project/src/stores/auth.js:17 | reading the stored expiry back as a number gives exactly the integer that was written |
| AuthStore.RestoredExpiry | frontend/vue-project/src/stores/auth.js:17 | an expiry read back from storage is never 0: 0, a missing key and a non-number all become none |
| AuthStore.Restored | frontend/vue-project/src/stores/auth.js:14-20 | the initial state takes the stored token (or "" when missing), the stored user and the stored expiry |
| AuthStore.ReloadRestoresSession | frontend/vue-project/src/stores/auth.js:14-46 | a persisted session reloads as it was, except that an expiry of 0 comes back as none, and the reloaded store is authenticated at exactly the same moments |
| AuthStore.PersistedState | frontend/vue-project/src/stores/auth.js:35-42 | the new state has the reply's token, its expiry when non-zero or else one computed from its lifetime, and the user made of its id, role and name |
| AuthStore.FreshSessionIsLive | frontend/vue-project/src/stores/auth.js:8-46 | a session persisted with a token and a positive lifetime is authenticated at once and no longer once its lifetime has passed |
| AuthStore.SignedOutIsFinal | frontend/vue-project/src/stores/auth.js:112-119 | a signed-out store is not authenticated, has no role and greets "Traveler", and a reload from the cleared storage stays signed out |
| AuthStore.Store.constructor | frontend/vue-project/src/stores/auth.js:14-20 | the store starts from the state read from storage and leaves storage as it was |
| AuthStore.Store.PersistSession | frontend/vue-project/src/stores/auth.js:35-46 | the state becomes the persisted state for the reply and all three storage keys mirror it |
| AuthStore.Store.ForceLogout | frontend/vue-project/src/stores/auth.js:112-119 | the state is signed out and all three storage keys are removed |
| AuthStore.Store.Logout | frontend/vue-project/src/stores/auth.js:101-111 | the logout request is sent exactly when there was a token, and whether it fails or not the store ends signed out with storage cleared |
| RouterGuard.RoleToRoute | frontend/vue-project/src/router/index.js:13-22 | manager and hr go to their own dashboards; every other role, and no role, goes to the employee dashboard |
| RouterGuard.MetaOf | frontend/vue-project/src/router/index.js:24-74 | exactly the login, register and three dashboard routes carry access rules |
| RouterGuard.ResolveAuthSnapshot | frontend/vue-project/src/router/index.js:76-90 | the snapshot's token is the store's when it has one, else the stored one, and it counts as signed in exactly when a token is found; its role is the store's non-empty role, else the stored user's non-empty role, and is never empty |
| RouterGuard.ExpiredTokenCountsAsSignedIn | frontend/vue-project/src/router/index.js:76-90 | a store whose token has expired is not authenticated, yet the snapshot still counts it as signed in |
| RouterGuard.BeforeEach | frontend/vue-project/src/router/index.js:92-113 | an unauthenticated visit to a protected route goes to login with the path to return to; a signed-in visit to a guest page goes to the role's dashboard; a missing or foreign role on a role-restricted route sends a signed-in user to their own role's dashboard and anyone else to login; the guard lets a visit through exactly when it passes the sign-in, guest-only and role checks |
| RouterGuard.OwnDashboardAdmits | frontend/vue-project/src/router/index.js:13-113 | a signed-in employee, manager or hr user sent to their own dashboard is let through |
| RouterGuard.OtherRoleRedirectsToItself | frontend/vue-project/src/router/index.js:13-113 | a signed-in user with no role, or a role other than the three, is sent from the employee dashboard back to the employee dashboard and is never let in |

## Left out

- Storage engine, connection pool, commits and rollbacks: each query function is one atomic step on `map` tables, and a failure leaves the tables as they were.
- Row order of `fetchone` and `LIMIT 1` without a tie-break: where several rows tie, the model either states the property for every possible choice or returns the first match of a sequence.
- Floating-point pricing in both booking servers (discounts, `round`, `total_stay_price`, `final_price`, `avg_availability`) and the price ceilings of the searches: replies carry no prices.
- `AirlineServer.QueryFlights`, `AirlineServer.SearchFlights`: of `ORDER BY al.is_preferred_vendor DESC, final_price ASC` only the first key is modelled; within the preferred and the other flights the order is table order, not ascending price, because prices are left out.
- The hotel search's own SQL query (city, dates, star rating, women-only and preferred filters): the model keeps the appended twin-sharing clause and the grouping of the returned rows.
- `get_hotel_details`, `get_preferred_hotels`, `get_flight_details`, the airline `check_availability`, both `get_booking_status` tools and `get_preferred_airlines`: read-only lookups with no guard or state change.
- Serial booking, traveler and indent ids are counters or fresh-id parameters; the hotel booking reference (clock and `os.urandom`) and every `uuid` are parameters.
- Dates: indent dates are ISO strings compared for equality; hotel stays use whole day numbers.
- `is_token_revoked` reads the clock twice; both readings are parameters. `create_access_token`, bcrypt and `jwt.decode` are cryptography and are oracles here.
- The policy-assistant singleton, the embedder and the vector search: the retrieved hits are a parameter, and `response.content or ""` is the oracle's string.
- Language-model calls and MCP tool execution: their replies, tool calls and raised exceptions (with their exception class names) are parameters.
- Pydantic's 422 response is reduced to the validator's message, and date fields are not parsed.
- `get_employee_route_bookmarks` orders by `COALESCE(last_used_at, created_at) DESC`: the model returns the bookmarks as a map, without that order.
- `ListMyIndents`: the rows of `get_employee_travel_indents` and their newest-first order are a parameter; the model states the per-row projection.
- `login`, `register` and `fetchProfile` in the auth store are network calls. `JSON.stringify` and `JSON.parse` of the stored user are taken as inverse, and `persistSession` is assumed to get a string token.
- `AuthStore.ParseNumber`: `Number()` on stored strings handles optional-minus decimal integers and the empty string; every other string is taken as NaN, so whitespace padding, a leading `+`, fractions, exponents, hexadecimal and `Infinity` are not modelled.
- The route table's nested `meta` merge and the redirect-only routes are taken as given: each named route has the rules it declares.
- The unused `SESSION_STORE` of the employee router.
- Legacy-schema functions of the indent table (`create_travel_indent`, `get_pending_manager_tickets`, `approve_manager_ticket`, `get_pending_hr_tickets`, `get_indent_details`, `get_employee_by_indent`, `fetch_manager_*`, `fetch_employee_profile`, the `fetch_flights` stub, `get_user_by_employee_id`, `get_user_details`): the agents' read commands that use them are modelled as the replies they return.
- `approve_hr_ticket` also writes an `approval_workflow` row (comments, HR id): only the indent's status change is modelled.
- `TravelQueries.TravelDb.ApproveHrTicket`, `TravelQueries.TravelDb.BookFlight`: only the `is_approved` column is modelled. The other writes of the same UPDATE statements (`hr_approval_status='APPROVED'` and `status='HR_APPROVED'` in `approve_hr_ticket`, `status='BOOKED'` in `book_flight`) are dropped, and the UPDATE is taken to succeed although the `TravelIndent` table of the ORM models declares neither `status` nor `hr_approval_status`.
- String operations are ASCII-only: `strip` and `split` know the ASCII characters Python counts as whitespace (space, tab, LF, VT, FF, CR and the separators 0x1C to 0x1F) but not the non-ASCII ones such as U+0085 or U+00A0, and `lower` folds only A to Z.
- The health endpoints of the HR chat router, its `get_travel_indents` endpoint (a direct call of the listing) and the module-level singletons.
- `BuildContextMessage` takes the indent as optional: an empty dict counts as no indent.
- The `get_current_user` dependency of the HR session endpoints enters as its outcome, a parameter; `JwtService.GetCurrentUser` models how that outcome arises.
- Concurrency: the blacklist lock and async/await; every operation runs to completion alone.

## Findings

| source | as written | input that shows it | evidently intended | confidence | as-written member | corrected member |
|---|---|---|---|---|---|---|
| src/workflow/workflow_engine.py:4 | `manager_approve` calls `approve_manager_ticket(indent_id, manager_id, comments)`, three arguments to a function that takes one parameter, so it always raises `TypeError` and never reports MANAGER_APPROVED | any indent id | record the manager's acceptance so that the HR gate opens; the model writes `accepted_manager`, as `approve_indent_manager` does, since the `manager_approval_status` column written by `approve_manager_ticket` is not read by the gate | not executed | WorkflowEngine.ManagerApproveNeverReports | WorkflowEngine.ManagerApprove |
| src/agents/manager_agent.py:25 | the `approve` command calls `approve_manager_ticket(indent_id, self.user["employee_id"])` with two arguments to a one-parameter function, so it always raises `TypeError` | the message "approve 42" | approve the named indent and say so; the model writes `accepted_manager` into `is_approved`, as `approve_indent_manager` does, since the `manager_approval_status` column that the one-parameter `approve_manager_ticket` writes is not read by the HR gate | not executed | ManagerAgent.ApproveAndRejectAlwaysRaise | ManagerAgent.Handle |
| src/agents/manager_agent.py:32 | the `reject` command calls `reject_manager_ticket(indent_id, self.user["employee_id"])` with two arguments to a one-parameter function, so it always raises `TypeError` | the message "reject 42" | reject the named indent and say so | not executed | ManagerAgent.ApproveAndRejectAlwaysRaise | ManagerAgent.Handle |
