/** src/api/employee_router.py: the employee endpoints. Each handler first checks the
    caller's role, then calls into the travel-indent table, the bookmark table or the
    policy assistant, and turns the callee's `ValueError` into an HTTP error. The request
    bodies are checked by their validators before a handler runs. */
module EmployeeRouter {
  import opened Wrappers
  import opened Text
  import opened Lists
  import opened Http
  import opened PyCalls
  import opened TravelQueries
  import opened JwtService
  import opened SessionModels
  import opened Sessions
  import opened PolicyRag

  // ---------------------------------------------------------------------------
  // Role gate and error mapping

  /** Every endpoint answers 403 to a caller whose role is not `employee`. */
  const NotAnEmployee: HttpError := HttpError(403, "Not an employee")

  predicate IsEmployee(user: CurrentUser) {
    user.role == "employee"
  }

  /** A `ValueError` from the callee re-raised as an `HTTPException` with the given status
      and the error's message as detail; a returned value passes through. */
  function Reraise<T>(status: int, q: Result<T, string>): (r: Result<T, HttpError>)
    ensures r.Ok? <==> q.Ok?
    ensures q.Ok? ==> r.value == q.value
    ensures q.Err? ==> r.error.status == status && r.error.detail == q.error
  {
    match q
    case Ok(v) => Ok(v)
    case Err(m) => Err(HttpError(status, m))
  }

  /** The callee's outcome can be read back from the response: re-raising loses nothing. */
  lemma ReraiseIsLossless<T>(status: int, q: Result<T, string>, q': Result<T, string>)
    requires Reraise(status, q) == Reraise(status, q')
    ensures q == q'
  {
    match q
    case Ok(v) =>
      assert Reraise(status, q').Ok?;
    case Err(m) =>
      assert Reraise(status, q').error.detail == m;
  }

  // ---------------------------------------------------------------------------
  // Request bodies

  /** The `Literal["domestic", "international"]` of `travel_type`. */
  datatype TravelType = Domestic | International

  function TravelTypeName(t: TravelType): (s: string)
    ensures s == "domestic" || s == "international"
  {
    match t
    case Domestic => "domestic"
    case International => "international"
  }

  /** Pydantic's check of the literal: the two spellings and nothing else. */
  function ParseTravelType(s: string): (r: Option<TravelType>)
    ensures r.Some? <==> s == "domestic" || s == "international"
  {
    if s == "domestic" then Some(Domestic)
    else if s == "international" then Some(International)
    else None
  }

  /** Parsing and naming are inverse: every accepted spelling names the parsed value,
      and every value's name parses back to it. */
  lemma TravelTypeRoundTrip(t: TravelType, s: string)
    ensures ParseTravelType(TravelTypeName(t)) == Some(t)
    ensures ParseTravelType(s).Some? ==> TravelTypeName(ParseTravelType(s).value) == s
  {
  }

  /** A request body that fails validation: FastAPI answers 422. The detail is the
      validator's message. */
  function Unprocessable(message: string): HttpError {
    HttpError(422, message)
  }

  const BadTravelType: string := "travel_type must be 'domestic' or 'international'"

  /** A validated `TravelIndentCreate`. */
  datatype IndentRequest = IndentRequest(trip: Trip, indentId: Option<string>)

  /** `TravelIndentCreate`: only `travel_type` is constrained; the other fields are taken as given. */
  function NewIndentRequest(purpose: string, travelType: string, startDate: string, endDate: string,
                            fromCity: string, fromCountry: string, toCity: string, toCountry: string,
                            indentId: Option<string>): (r: Result<IndentRequest, HttpError>)
    ensures r.Ok? <==> ParseTravelType(travelType).Some?
    ensures r.Err? ==> r.error.status == 422
    ensures r.Ok? ==> r.value.trip.travelType == travelType && r.value.indentId == indentId
                      && r.value.trip.purpose == purpose
                      && r.value.trip.fromCity == fromCity && r.value.trip.toCity == toCity
  {
    if ParseTravelType(travelType).None? then Err(Unprocessable(BadTravelType))
    else Ok(IndentRequest(Trip(purpose, travelType, startDate, endDate, fromCity, fromCountry, toCity, toCountry),
                          indentId))
  }

  const BlankCity: string := "City names cannot be empty"

  /** The `from_city` / `to_city` validator: a blank name is refused, any other is stripped. */
  function ValidateCity(value: string): (r: Result<string, string>)
    ensures r.Err? <==> IsBlank(value)
    ensures r.Err? ==> r.error == BlankCity
    ensures r.Ok? ==> !IsBlank(r.value) && |r.value| <= |value|
  {
    StripBlank(value);
    if IsBlank(value) then Err(BlankCity) else Ok(Strip(value))
  }

  /** A city the validator accepted passes it again unchanged. */
  lemma ValidateCityIdempotent(value: string)
    requires ValidateCity(value).Ok?
    ensures ValidateCity(ValidateCity(value).value) == ValidateCity(value)
  {
    StripIdempotent(value);
  }

  /** The `from_country` / `to_country` validator: missing or blank becomes "India",
      anything else is stripped. */
  function DefaultCountry(value: Option<string>): (c: string)
    ensures !IsBlank(c) && !IsSpace(c[0]) && !IsSpace(c[|c| - 1])
    ensures value.None? || IsBlank(value.value) ==> c == "India"
  {
    if value.None? || IsBlank(value.value) then
      assert !IsSpace("India"[0]);
      "India"
    else
      StripBlank(value.value);
      Strip(value.value)
  }

  /** A country the validator produced comes back unchanged through it. */
  lemma DefaultCountryIdempotent(value: Option<string>)
    ensures DefaultCountry(Some(DefaultCountry(value))) == DefaultCountry(value)
  {
    var c := DefaultCountry(value);
    if value.None? || IsBlank(value.value) {
      assert c == "India";
      StrippedIsFixed(c);
    } else {
      assert c == Strip(value.value);
      StrippedIsFixed(c);
    }
  }

  /** A validated `RouteBookmarkCreate`. */
  datatype BookmarkRequest = BookmarkRequest(
    fromCity: string, toCity: string, fromCountry: string, toCountry: string, tag: Option<string>)

  /** `RouteBookmarkCreate`: both city validators and both country defaults. */
  function NewBookmarkRequest(fromCity: string, toCity: string, fromCountry: Option<string>,
                              toCountry: Option<string>, tag: Option<string>): (r: Result<BookmarkRequest, HttpError>)
    ensures r.Ok? <==> !IsBlank(fromCity) && !IsBlank(toCity)
    ensures r.Err? ==> r.error == Unprocessable(BlankCity)
    ensures r.Ok? ==> r.value.fromCity == ValidateCity(fromCity).value && r.value.toCity == ValidateCity(toCity).value
                      && r.value.fromCountry == DefaultCountry(fromCountry)
                      && r.value.toCountry == DefaultCountry(toCountry)
                      && r.value.tag == tag
  {
    var from := ValidateCity(fromCity);
    var to := ValidateCity(toCity);
    if from.Err? || to.Err? then Err(Unprocessable(BlankCity))
    else Ok(BookmarkRequest(from.value, to.value, DefaultCountry(fromCountry), DefaultCountry(toCountry), tag))
  }

  /** A city the validator accepted is already stripped and has a non-empty lookup key. */
  lemma ValidatedCityIsKeyed(value: string)
    requires !IsBlank(value)
    ensures Strip(ValidateCity(value).value) == ValidateCity(value).value
    ensures NormalizePlace(ValidateCity(value).value) != []
  {
    StripIdempotent(value);
    NormalizeTextFacts(Strip(value));
  }

  /** The bookmark query stores a validated country as it is. */
  lemma DefaultCountryIsStored(value: Option<string>)
    ensures Strip(Or(Some(DefaultCountry(value)), "India")) == DefaultCountry(value)
  {
    var c := DefaultCountry(value);
    assert Or(Some(c), "India") == c;
    StrippedIsFixed(c);
  }

  /** After validation the bookmark query can no longer refuse the cities as missing, and
      the row it stores carries the validated cities and countries unchanged. */
  lemma ValidatedBookmarkReachesInsert(req: BookmarkRequest, fromCity: string, toCity: string,
                                       fromCountry: Option<string>, toCountry: Option<string>,
                                       tag: Option<string>, employeeId: string)
    requires NewBookmarkRequest(fromCity, toCity, fromCountry, toCountry, tag) == Ok(req)
    ensures NormalizePlace(req.fromCity) != [] && NormalizePlace(req.toCity) != []
    ensures var row := NewBookmark(employeeId, req.fromCity, req.toCity, Some(req.fromCountry), Some(req.toCountry), req.tag);
      row.fromCity == req.fromCity && row.toCity == req.toCity
      && row.fromCountry == req.fromCountry && row.toCountry == req.toCountry
  {
    ValidatedCityIsKeyed(fromCity);
    ValidatedCityIsKeyed(toCity);
    DefaultCountryIsStored(fromCountry);
    DefaultCountryIsStored(toCountry);
  }

  // ---------------------------------------------------------------------------
  // Indent submission

  /** The status `create-indent` submits: the default `initial_status` of
      `create_travel_indent_from_form`. */
  const SubmittedStatus: string := "pending"
  const DraftStatus: string := "draft"
  const TicketCreated: string := "Travel ticket created successfully."
  const DraftSaved: string := "Draft saved."

  datatype IndentCreated = IndentCreated(message: string, indentId: string)

  /** The handler's answer to the query's outcome: the new id under the endpoint's message,
      or the `ValueError` as a 400. */
  function IndentReply(message: string, q: Result<string, string>): (r: Result<IndentCreated, HttpError>)
    ensures r.Ok? <==> q.Ok?
    ensures r.Ok? ==> r.value == IndentCreated(message, q.value)
    ensures r.Err? ==> r.error == HttpError(400, q.error)
  {
    match Reraise(400, q)
    case Ok(id) => Ok(IndentCreated(message, id))
    case Err(e) => Err(e)
  }

  /** The body `create_indent` and `save_draft` share: the role gate, then the query with
      the given initial status, its outcome reported under `message`. `outcome` is what the
      query returned. */
  method SubmitIndent(db: TravelDb, user: CurrentUser, req: IndentRequest, initialStatus: string,
                      message: string, freshId: string, now: int)
    returns (r: Result<IndentCreated, HttpError>, ghost outcome: Result<string, string>)
    requires db.Valid()
    requires freshId !in db.indents
    modifies db
    ensures db.Valid()
    ensures db.users == old(db.users) && db.bookmarks == old(db.bookmarks)
    ensures !IsEmployee(user) ==> r == Err(NotAnEmployee) && db.indents == old(db.indents)
    ensures IsEmployee(user) ==> r == IndentReply(message, outcome)
    ensures IsEmployee(user) && IsEditing(req.indentId) ==>
      EditSpec(old(db.indents), db.indents, user.employeeId, req.trip, initialStatus, req.indentId.value, now, outcome)
    ensures IsEmployee(user) && !IsEditing(req.indentId) ==>
      InsertSpec(old(db.indents), db.indents, db.users, user.employeeId, req.trip, initialStatus, freshId, now, outcome)
  {
    if !IsEmployee(user) {
      return Err(NotAnEmployee), Err("");
    }
    var q := db.CreateTravelIndentFromForm(user.employeeId, req.trip, initialStatus, req.indentId, freshId, now);
    r, outcome := IndentReply(message, q), q;
  }

  /** `create_indent` (POST /create-indent): submitted for approval as `pending`. */
  method CreateIndent(db: TravelDb, user: CurrentUser, req: IndentRequest, freshId: string, now: int)
    returns (r: Result<IndentCreated, HttpError>, ghost outcome: Result<string, string>)
    requires db.Valid()
    requires freshId !in db.indents
    modifies db
    ensures db.Valid()
    ensures db.users == old(db.users) && db.bookmarks == old(db.bookmarks)
    ensures !IsEmployee(user) ==> r == Err(NotAnEmployee) && db.indents == old(db.indents)
    ensures IsEmployee(user) ==> r == IndentReply(TicketCreated, outcome)
    ensures IsEmployee(user) && IsEditing(req.indentId) ==>
      EditSpec(old(db.indents), db.indents, user.employeeId, req.trip, SubmittedStatus, req.indentId.value, now, outcome)
    ensures IsEmployee(user) && !IsEditing(req.indentId) ==>
      InsertSpec(old(db.indents), db.indents, db.users, user.employeeId, req.trip, SubmittedStatus, freshId, now, outcome)
  {
    r, outcome := SubmitIndent(db, user, req, SubmittedStatus, TicketCreated, freshId, now);
  }

  /** `save_draft` (POST /save-draft): stored as `draft`, which skips the duplicate check. */
  method SaveDraft(db: TravelDb, user: CurrentUser, req: IndentRequest, freshId: string, now: int)
    returns (r: Result<IndentCreated, HttpError>, ghost outcome: Result<string, string>)
    requires db.Valid()
    requires freshId !in db.indents
    modifies db
    ensures db.Valid()
    ensures db.users == old(db.users) && db.bookmarks == old(db.bookmarks)
    ensures !IsEmployee(user) ==> r == Err(NotAnEmployee) && db.indents == old(db.indents)
    ensures IsEmployee(user) ==> r == IndentReply(DraftSaved, outcome)
    ensures IsEmployee(user) && IsEditing(req.indentId) ==>
      EditSpec(old(db.indents), db.indents, user.employeeId, req.trip, DraftStatus, req.indentId.value, now, outcome)
    ensures IsEmployee(user) && !IsEditing(req.indentId) ==>
      InsertSpec(old(db.indents), db.indents, db.users, user.employeeId, req.trip, DraftStatus, freshId, now, outcome)
  {
    r, outcome := SubmitIndent(db, user, req, DraftStatus, DraftSaved, freshId, now);
  }

  /** A new draft for a known employee is always saved, and a draft edit that passes the
      ownership and draft checks always succeeds: no duplicate can block a draft. */
  lemma DraftNeverBlocked(was: map<string, Indent>, after: map<string, Indent>, users: map<string, Profile>,
                          employeeId: string, trip: Trip, id: Option<string>, freshId: string, now: int,
                          outcome: Result<string, string>)
    requires IsEditing(id) ==> EditSpec(was, after, employeeId, trip, DraftStatus, id.value, now, outcome)
    requires !IsEditing(id) ==> InsertSpec(was, after, users, employeeId, trip, DraftStatus, freshId, now, outcome)
    requires IsEditing(id) ==> EditAllowed(was, employeeId, id.value)
    requires !IsEditing(id) ==> employeeId in users
    ensures IndentReply(DraftSaved, outcome).Ok?
  {
  }

  // ---------------------------------------------------------------------------
  // Reads

  /** `list_my_indents` (GET /my-indents) over the rows the query returned, newest first. */
  method ListMyIndents(user: CurrentUser, rows: seq<Indent>) returns (r: Result<seq<Ticket>, HttpError>)
    ensures !IsEmployee(user) ==> r == Err(NotAnEmployee)
    ensures IsEmployee(user) ==> (r.Ok? && |r.value| == |rows|
      && forall i :: 0 <= i < |rows| ==> r.value[i] == TicketOf(rows[i]))
  {
    if !IsEmployee(user) {
      return Err(NotAnEmployee);
    }
    var tickets := EmployeeTickets(rows);
    forall i | 0 <= i < |rows|
      ensures tickets[i] == TicketOf(rows[i])
    {
      MapAt(TicketOf, rows, i);
    }
    r := Ok(tickets);
  }

  /** The row `get_employee_details` returns. */
  datatype EmployeeDetails = EmployeeDetails(employeeId: string, profile: Profile)

  const ProfileNotFound: HttpError := HttpError(404, "Employee profile not found")

  /** `profile` (GET /profile): the caller's `users` row, 404 when there is none. */
  function ProfileOf(users: map<string, Profile>, user: CurrentUser): (r: Result<EmployeeDetails, HttpError>)
    ensures !IsEmployee(user) ==> r == Err(NotAnEmployee)
    ensures IsEmployee(user) ==> (r.Ok? <==> user.employeeId in users)
    ensures IsEmployee(user) && user.employeeId !in users ==> r == Err(ProfileNotFound)
    ensures r.Ok? ==> r.value.employeeId == user.employeeId && r.value.profile == users[user.employeeId]
  {
    if !IsEmployee(user) then Err(NotAnEmployee)
    else if user.employeeId !in users then Err(ProfileNotFound)
    else Ok(EmployeeDetails(user.employeeId, users[user.employeeId]))
  }

  /** The bookmarks `get_employee_route_bookmarks` selects: those of the employee. */
  function BookmarksOf(bookmarks: map<string, Bookmark>, employeeId: string): (mine: map<string, Bookmark>)
    ensures forall id :: id in mine <==> Owns(bookmarks, employeeId, id)
    ensures forall id :: id in mine ==> id in bookmarks && mine[id] == bookmarks[id]
  {
    map id | id in bookmarks && bookmarks[id].employeeId == employeeId :: bookmarks[id]
  }

  /** `list_route_bookmarks` (GET /frequent-routes). */
  function ListRouteBookmarks(bookmarks: map<string, Bookmark>, user: CurrentUser): (r: Result<map<string, Bookmark>, HttpError>)
    ensures !IsEmployee(user) ==> r == Err(NotAnEmployee)
    ensures IsEmployee(user) ==> r.Ok? && forall id :: id in r.value <==> Owns(bookmarks, user.employeeId, id)
  {
    if !IsEmployee(user) then Err(NotAnEmployee) else Ok(BookmarksOf(bookmarks, user.employeeId))
  }

  // ---------------------------------------------------------------------------
  // Bookmark writes

  /** `add_route_bookmark` (POST /frequent-routes): the validated request goes to the
      bookmark query, whose `ValueError` becomes 400. */
  method AddRouteBookmark(db: TravelDb, user: CurrentUser, req: BookmarkRequest, freshId: string)
    returns (r: Result<string, HttpError>, ghost outcome: Result<string, string>)
    requires freshId !in db.bookmarks
    modifies db
    ensures db.indents == old(db.indents) && db.users == old(db.users)
    ensures !IsEmployee(user) ==> r == Err(NotAnEmployee) && db.bookmarks == old(db.bookmarks)
    ensures IsEmployee(user) ==> (r == Reraise(400, outcome)
      && BookmarkSpec(old(db.bookmarks), db.bookmarks, user.employeeId, req.fromCity, req.toCity,
                      Some(req.fromCountry), Some(req.toCountry), req.tag, freshId, outcome))
  {
    if !IsEmployee(user) {
      return Err(NotAnEmployee), Err("");
    }
    var q := db.CreateBookmark(user.employeeId, req.fromCity, req.toCity, Some(req.fromCountry),
                               Some(req.toCountry), req.tag, freshId);
    r, outcome := Reraise(400, q), q;
  }

  const BookmarkDeleted: string := "Bookmark deleted"
  const BookmarkUsed: string := "Bookmark usage recorded"

  /** `remove_route_bookmark` (DELETE /frequent-routes/{id}): a bookmark the caller does not
      own is a 404, and nothing is deleted. */
  method RemoveRouteBookmark(db: TravelDb, user: CurrentUser, bookmarkId: string)
    returns (r: Result<string, HttpError>)
    modifies db
    ensures db.indents == old(db.indents) && db.users == old(db.users)
    ensures !IsEmployee(user) ==> r == Err(NotAnEmployee) && db.bookmarks == old(db.bookmarks)
    ensures IsEmployee(user) && Owns(old(db.bookmarks), user.employeeId, bookmarkId) ==>
      r == Ok(BookmarkDeleted) && db.bookmarks == old(db.bookmarks) - {bookmarkId}
    ensures IsEmployee(user) && !Owns(old(db.bookmarks), user.employeeId, bookmarkId) ==>
      r == Err(HttpError(404, BookmarkNotFound)) && db.bookmarks == old(db.bookmarks)
  {
    if !IsEmployee(user) {
      return Err(NotAnEmployee);
    }
    var q := db.DeleteBookmark(user.employeeId, bookmarkId);
    if q.Err? {
      return Err(HttpError(404, q.error));
    }
    r := Ok(BookmarkDeleted);
  }

  /** `mark_route_bookmark_used` (POST /frequent-routes/{id}/use): one more use, stamped now;
      a bookmark the caller does not own is a 404. */
  method MarkRouteBookmarkUsed(db: TravelDb, user: CurrentUser, bookmarkId: string, now: int)
    returns (r: Result<string, HttpError>)
    modifies db
    ensures db.indents == old(db.indents) && db.users == old(db.users)
    ensures !IsEmployee(user) ==> r == Err(NotAnEmployee) && db.bookmarks == old(db.bookmarks)
    ensures IsEmployee(user) && Owns(old(db.bookmarks), user.employeeId, bookmarkId) ==>
      r == Ok(BookmarkUsed)
      && db.bookmarks == old(db.bookmarks)[bookmarkId := old(db.bookmarks)[bookmarkId].(
           timesUsed := Some(old(db.bookmarks)[bookmarkId].timesUsed.GetOr(0) + 1), lastUsedAt := Some(now))]
    ensures IsEmployee(user) && !Owns(old(db.bookmarks), user.employeeId, bookmarkId) ==>
      r == Err(HttpError(404, BookmarkNotFound)) && db.bookmarks == old(db.bookmarks)
  {
    if !IsEmployee(user) {
      return Err(NotAnEmployee);
    }
    var q := db.TouchBookmark(user.employeeId, bookmarkId, now);
    if q.Err? {
      return Err(HttpError(404, q.error));
    }
    r := Ok(BookmarkUsed);
  }

  // ---------------------------------------------------------------------------
  // Policy assistant

  const PolicyAssistantError: string := "Policy assistant error: "

  /** The two `except` clauses of `chat_policy_assistant`: a `ValueError` is a 400 with its
      message, any other exception a 500 with the message after the fixed prefix. */
  function ChatFailure(kind: string, message: string): (e: HttpError)
    ensures e.status == 400 <==> kind == "ValueError"
    ensures e.status == 400 || e.status == 500
    ensures e.status == 400 ==> e.detail == message
    ensures e.status == 500 ==> StartsWith(e.detail, PolicyAssistantError)
                                && e.detail[|PolicyAssistantError|..] == message
  {
    if kind == "ValueError" then HttpError(400, message) else HttpError(500, PolicyAssistantError + message)
  }

  /** `chat_policy_assistant` (POST /policy/chat): the role gate, then one assistant turn;
      `reply` is the language model's answer or the exception it raised. */
  method ChatPolicyAssistant(service: PolicyRagService, user: CurrentUser, message: string,
                             sessionId: Option<string>, now: int, timeoutHours: int, freshId: string,
                             hits: seq<Hit>, reply: Call<string>)
    returns (r: Result<ChatReply, HttpError>)
    requires DistinctSessions(service.sessions)
    modifies service, if IsEmployee(user) && !IsBlank(message) && Resumes(sessionId, service.sessions)
                      then {service.sessions[sessionId.value]} else {}
    ensures DistinctSessions(service.sessions)
    ensures !IsEmployee(user) ==> r == Err(NotAnEmployee) && service.sessions == old(service.sessions)
    ensures !(IsEmployee(user) && !IsBlank(message)) ==> forall k :: k in old(service.sessions) ==> unchanged(old(service.sessions[k]))
    ensures IsEmployee(user) && !IsBlank(message) ==>
      var sid := if Resumes(sessionId, old(LiveSessions(service.sessions, Cutoff(now, timeoutHours)))) then sessionId.value else freshId;
      forall k :: k in service.sessions && k != sid ==>
        k in old(service.sessions) && service.sessions[k] == old(service.sessions[k]) && unchanged(service.sessions[k])
    ensures IsEmployee(user) && IsBlank(message) ==>
      r == Err(HttpError(400, EmptyMessage)) && service.sessions == old(service.sessions)
    ensures IsEmployee(user) && !IsBlank(message) ==>
      var live := old(LiveSessions(service.sessions, Cutoff(now, timeoutHours)));
      var sid := if Resumes(sessionId, live) then sessionId.value else freshId;
      sid in service.sessions && service.sessions == live[sid := service.sessions[sid]]
      && (reply.Raised? ==> r == Err(ChatFailure(reply.kind, reply.message)))
      && (reply.Returned? ==> r == Ok(ChatReply(reply.value, sid, Rendered(hits, service.maxContextChars))))
    ensures IsEmployee(user) && !IsBlank(message) ==>
      var live := old(LiveSessions(service.sessions, Cutoff(now, timeoutHours)));
      var sid := if Resumes(sessionId, live) then sessionId.value else freshId;
      var sent := HumanMessage(ComposeUserMessage(message, ContextBlock(Rendered(hits, service.maxContextChars), service.maxContextChars)));
      service.sessions[sid].history
      == (if Resumes(sessionId, live) then old(service.sessions[sid].history) else [SystemMessage(PolicyRagPrompt)])
         + [sent] + (if reply.Returned? then [AiMessage(reply.value, [])] else [])
  {
    if !IsEmployee(user) {
      return Err(NotAnEmployee);
    }
    var c := service.Chat(message, sessionId, now, timeoutHours, freshId, hits, reply);
    match c
    case Raised(kind, m) =>
      r := Err(ChatFailure(kind, m));
    case Returned(v) =>
      r := Ok(v);
  }
}
