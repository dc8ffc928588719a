/** The travel-indent and route-bookmark tables and the queries of
    src/db/travel_queries.py that read and write them. Each table is a map from
    its id column to the row; each query function is one atomic step. */
module TravelQueries {
  import opened Wrappers
  import opened Text
  import opened IndentStatus
  import opened Lists

  /** The employee columns copied from `users` into a new indent. */
  datatype Profile = Profile(name: string, email: string, grade: string, department: string, designation: string)

  /** The trip fields of the indent form; dates are ISO strings. */
  datatype Trip = Trip(
    purpose: string, travelType: string, startDate: string, endDate: string,
    fromCity: string, fromCountry: string, toCity: string, toCountry: string)

  /** A row of `travel_indents`; `isApproved` is the nullable status column. */
  datatype Indent = Indent(
    indentId: string, employeeId: string, profile: Profile, trip: Trip,
    totalDays: Option<int>, isApproved: Option<string>, createdAt: int, updatedAt: Option<int>)

  /** A row of `employee_route_bookmarks`. */
  datatype Bookmark = Bookmark(
    employeeId: string, fromCity: string, fromCountry: string, toCity: string, toCountry: string,
    tag: Option<string>, timesUsed: Option<int>, lastUsedAt: Option<int>)

  const DuplicateMessage: string :=
    "You already have a request for the same route and dates. Please update the existing ticket instead of creating a duplicate."
  const IndentNotFound: string := "Travel indent not found"
  const ManagerApprovalRequired: string := "Manager approval required before HR can approve or book this ticket."
  const DraftNotFound: string := "Draft travel indent not found"
  const NotOwner: string := "You cannot modify another employee's indent"
  const OnlyDrafts: string := "Only draft indents can be edited via this flow"
  const CitiesRequired: string := "Both origin and destination cities are required to bookmark a route."
  const AlreadyBookmarked: string := "This route is already bookmarked."
  const BookmarkNotFound: string := "Bookmark not found"

  function NoUserMessage(employeeId: string): string {
    "No user found with employee_id=" + employeeId
  }

  /** `_normalize_place` */
  function NormalizePlace(value: string): string {
    NormalizeText(value)
  }

  // ---------------------------------------------------------------------------
  // The duplicate guard

  /** The parameters of the duplicate query: owner, normalised cities, exact dates
      and an indent to leave out. */
  datatype DupQuery = DupQuery(
    employeeId: string, fromKey: string, toKey: string, startDate: string, endDate: string,
    exclude: Option<string>)

  function QueryFor(employeeId: string, trip: Trip, exclude: Option<string>): DupQuery {
    DupQuery(employeeId, NormalizePlace(trip.fromCity), NormalizePlace(trip.toCity),
             trip.startDate, trip.endDate, exclude)
  }

  /** The WHERE clause of the duplicate query; the stored cities go through SQL `LOWER(TRIM(…))`. */
  predicate Matches(indents: map<string, Indent>, id: string, q: DupQuery) {
    id in indents
    && indents[id].employeeId == q.employeeId
    && SqlTrimLower(indents[id].trip.fromCity) == q.fromKey
    && SqlTrimLower(indents[id].trip.toCity) == q.toKey
    && indents[id].trip.startDate == q.startDate
    && indents[id].trip.endDate == q.endDate
    && (q.exclude.None? || id != q.exclude.value)
  }

  /** `ORDER BY created_at DESC LIMIT 1` may return `id`: it matches and no match is newer. */
  predicate IsNewestMatch(indents: map<string, Indent>, id: string, q: DupQuery) {
    Matches(indents, id, q)
    && forall j :: j in indents && Matches(indents, j, q) ==> indents[j].createdAt <= indents[id].createdAt
  }

  predicate IsDuplicateSafe(ind: Indent) {
    StatusCode(ind.isApproved) in DuplicateSafe
  }

  /** The database may hand back a newest match whose status blocks the submission. */
  predicate MayBlock(indents: map<string, Indent>, q: DupQuery) {
    exists id :: id in indents && IsNewestMatch(indents, id, q) && !IsDuplicateSafe(indents[id])
  }

  /** The database may hand back no match, or a newest match whose status is duplicate-safe. */
  predicate MayPass(indents: map<string, Indent>, q: DupQuery) {
    (forall id :: id in indents ==> !Matches(indents, id, q))
    || exists id :: id in indents && IsNewestMatch(indents, id, q) && IsDuplicateSafe(indents[id])
  }

  /** A non-empty finite set of ids has one with the largest creation time. */
  lemma {:induction false} LatestIn(s: set<string>, created: map<string, int>, x: string)
    requires s <= created.Keys && x in s
    ensures exists m :: m in s && forall j :: j in s ==> created[j] <= created[m]
    decreases |s|
  {
    var rest := s - {x};
    if y :| y in rest {
      LatestIn(rest, created, y);
      var m :| m in rest && forall j :: j in rest ==> created[j] <= created[m];
      if created[m] < created[x] {
        assert forall j :: j in s ==> created[j] <= created[x];
      } else {
        assert forall j :: j in s ==> created[j] <= created[m];
      }
    } else {
      assert forall j :: j in s && j != x ==> j in rest;
    }
  }

  /** Whenever some row matches, `LIMIT 1` has a newest row to return. */
  lemma NewestExists(indents: map<string, Indent>, q: DupQuery, x: string)
    requires Matches(indents, x, q)
    ensures exists m :: m in indents && IsNewestMatch(indents, m, q)
  {
    var s := set j | j in indents && Matches(indents, j, q);
    var created := map j | j in indents :: indents[j].createdAt;
    LatestIn(s, created, x);
    var m :| m in s && forall j :: j in s ==> created[j] <= created[m];
    forall j | j in indents && Matches(indents, j, q)
      ensures indents[j].createdAt <= indents[m].createdAt
    {
      assert j in s;
    }
    assert IsNewestMatch(indents, m, q);
  }

  /** The guard always has an outcome. */
  lemma DuplicateVerdictTotal(indents: map<string, Indent>, q: DupQuery)
    ensures MayBlock(indents, q) || MayPass(indents, q)
  {
    if x :| x in indents && Matches(indents, x, q) {
      NewestExists(indents, q, x);
      var m :| m in indents && IsNewestMatch(indents, m, q);
      if IsDuplicateSafe(indents[m]) {
        assert MayPass(indents, q);
      } else {
        assert MayBlock(indents, q);
      }
    } else {
      assert MayPass(indents, q);
    }
  }

  /** When creation times are distinct, `ORDER BY created_at DESC LIMIT 1` has only one row to pick. */
  lemma NewestUnique(indents: map<string, Indent>, q: DupQuery, b: string)
    requires forall a, b :: a in indents && b in indents && a != b ==> indents[a].createdAt != indents[b].createdAt
    requires IsNewestMatch(indents, b, q)
    ensures forall a :: a in indents && IsNewestMatch(indents, a, q) ==> a == b
  {
    forall a | a in indents && IsNewestMatch(indents, a, q)
      ensures a == b
    {
      assert indents[a].createdAt == indents[b].createdAt;
    }
  }

  /** A blocking row that is the only newest match leaves no way to pass. */
  lemma OnlyBlockerNewest(indents: map<string, Indent>, q: DupQuery, b: string)
    requires b in indents && Matches(indents, b, q) && !IsDuplicateSafe(indents[b])
    requires forall a :: a in indents && IsNewestMatch(indents, a, q) ==> a == b
    ensures !MayPass(indents, q)
  {
  }

  /** When creation times are distinct, the outcome is determined. */
  lemma DuplicateVerdictUnique(indents: map<string, Indent>, q: DupQuery)
    requires forall a, b :: a in indents && b in indents && a != b ==> indents[a].createdAt != indents[b].createdAt
    ensures MayBlock(indents, q) ==> !MayPass(indents, q)
  {
    if MayBlock(indents, q) {
      var b :| b in indents && IsNewestMatch(indents, b, q) && !IsDuplicateSafe(indents[b]);
      NewestUnique(indents, q, b);
      OnlyBlockerNewest(indents, q, b);
    }
  }

  /** `_ensure_no_duplicate_active`: the database returns one newest match, chosen freely among equals. */
  method EnsureNoDuplicateActive(indents: map<string, Indent>, q: DupQuery) returns (r: Result<(), string>)
    ensures r.Err? ==> r.error == DuplicateMessage && MayBlock(indents, q)
    ensures r.Ok? ==> MayPass(indents, q)
  {
    if x :| x in indents && Matches(indents, x, q) {
      NewestExists(indents, q, x);
      var id :| id in indents && IsNewestMatch(indents, id, q);
      if StatusCode(indents[id].isApproved) in DuplicateSafe {
        assert IsDuplicateSafe(indents[id]);
        r := Ok(());
      } else {
        assert !IsDuplicateSafe(indents[id]);
        r := Err(DuplicateMessage);
      }
    } else {
      assert forall id :: id in indents ==> !Matches(indents, id, q);
      r := Ok(());
    }
  }

  // ---------------------------------------------------------------------------
  // The manager-before-HR gate and status writes

  /** `_require_manager_approval_for_hr` */
  function RequireManagerApproval(indents: map<string, Indent>, id: string): (r: Result<string, string>)
    ensures id !in indents ==> r == Err(IndentNotFound)
    ensures r.Ok? <==> id in indents && StatusCode(indents[id].isApproved) in HrEligible
    ensures r.Ok? ==> r.value == StatusCode(indents[id].isApproved) && r.value in HrEligible
    ensures r.Err? && id in indents ==> r.error == ManagerApprovalRequired
  {
    if id !in indents then Err(IndentNotFound)
    else
      var status := StatusCode(indents[id].isApproved);
      if status !in HrEligible then Err(ManagerApprovalRequired) else Ok(status)
  }

  /** `UPDATE travel_indents SET is_approved = status, updated_at = now WHERE indent_id = id` */
  function SetStatus(indents: map<string, Indent>, id: string, status: string, now: int): (m: map<string, Indent>)
    ensures m.Keys == indents.Keys
    ensures forall k :: k in indents && k != id ==> m[k] == indents[k]
    ensures id in indents ==>
      m[id] == indents[id].(isApproved := Some(status), updatedAt := Some(now))
  {
    if id in indents then indents[id := indents[id].(isApproved := Some(status), updatedAt := Some(now))]
    else indents
  }

  /** A status write keeps every row under its own id. */
  lemma SetStatusKeepsIds(indents: map<string, Indent>, id: string, status: string, now: int)
    requires forall k :: k in indents ==> indents[k].indentId == k
    ensures forall k :: k in SetStatus(indents, id, status, now) ==> SetStatus(indents, id, status, now)[k].indentId == k
  {
  }

  /** A manager approval opens the HR gate. */
  lemma GateOpensAfterManagerApproval(indents: map<string, Indent>, id: string, now: int)
    requires id in indents
    ensures RequireManagerApproval(SetStatus(indents, id, "accepted_manager", now), id) == Ok("accepted_manager")
  {
    CodeOfNormal("accepted_manager");
  }

  /** A manager rejection closes it. */
  lemma GateClosedAfterManagerRejection(indents: map<string, Indent>, id: string, now: int)
    requires id in indents
    ensures RequireManagerApproval(SetStatus(indents, id, "rejected_manager", now), id) == Err(ManagerApprovalRequired)
  {
    CodeOfNormal("rejected_manager");
    HrEligibleMembers();
    assert "rejected_manager"[0] == 'r';
  }

  /** After HR approval the booking gate still passes, so `book_flight` can follow. */
  lemma GateOpenAfterHrApproval(indents: map<string, Indent>, id: string, now: int)
    requires id in indents
    ensures RequireManagerApproval(SetStatus(indents, id, "hr_approved", now), id) == Ok("hr_approved")
  {
    CodeOfNormal("hr_approved");
  }

  /** A fresh `pending` submission does not pass the gate. */
  lemma GateClosedWhilePending(indents: map<string, Indent>, id: string)
    requires id in indents && (indents[id].isApproved.None? || indents[id].isApproved == Some("pending"))
    ensures RequireManagerApproval(indents, id) == Err(ManagerApprovalRequired)
  {
    CodeOfNormal("pending");
    HrEligibleMembers();
  }

  /** The last six characters, `s[-6:]`. */
  function Last6(s: string): (r: string)
    ensures |r| == if |s| < 6 then |s| else 6
    ensures r == s[|s| - |r|..]
  {
    if |s| < 6 then s else s[|s| - 6..]
  }

  /** The demo booking dictionaries `book_flight` and `book_hotel` return. */
  datatype FlightBooking = FlightBooking(bookingId: string, airline: string, flight: string, status: string)
  datatype HotelBooking = HotelBooking(bookingId: string, hotel: string, status: string)

  function FlightStub(indentId: string): FlightBooking {
    FlightBooking("FL" + Last6(indentId), "Indigo", "6E-502", "CONFIRMED")
  }

  /** `book_hotel`: no gate and no write, only the stub. */
  function BookHotel(indentId: string): (b: HotelBooking)
    ensures |b.bookingId| >= 2 && b.bookingId[..2] == "HT" && b.bookingId[2..] == Last6(indentId)
    ensures b.status == "CONFIRMED"
  {
    HotelBooking("HT" + Last6(indentId), "Tech Park Inn", "CONFIRMED")
  }

  /** Two indents whose ids agree in the last six characters get the same booking ids. */
  lemma BookingIdsSeeOnlyTheSuffix(a: string, b: string)
    requires |a| >= 6 && |b| >= 6 && a[|a| - 6..] == b[|b| - 6..]
    ensures FlightStub(a).bookingId == FlightStub(b).bookingId
    ensures BookHotel(a).bookingId == BookHotel(b).bookingId
  {
  }

  // ---------------------------------------------------------------------------
  // get_employee_travel_indents

  /** One entry of the employee's ticket list. */
  datatype Ticket = Ticket(
    indentId: string, startDate: string, endDate: string, fromCity: string, fromCountry: string,
    toCity: string, toCountry: string, travelType: string, purpose: string,
    statusCode: string, status: string, createdAt: int)

  function TicketOf(ind: Indent): Ticket {
    var code := StatusCode(ind.isApproved);
    Ticket(ind.indentId, ind.trip.startDate, ind.trip.endDate, ind.trip.fromCity, ind.trip.fromCountry,
           ind.trip.toCity, ind.trip.toCountry, ind.trip.travelType, ind.trip.purpose,
           code, StatusLabel(code), ind.createdAt)
  }

  /** A row whose status is NULL or empty is listed as `pending` / "Pending". */
  lemma NullStatusShowsPending(ind: Indent)
    requires ind.isApproved.None? || ind.isApproved == Some("")
    ensures TicketOf(ind).statusCode == "pending" && TicketOf(ind).status == "Pending"
  {
    PendingLabel();
  }

  /** The loop of `get_employee_travel_indents` over the rows the query returned (newest first). */
  method EmployeeTickets(rows: seq<Indent>) returns (tickets: seq<Ticket>)
    ensures tickets == Map(TicketOf, rows)
  {
    tickets := [];
    var i := 0;
    while i < |rows|
      invariant 0 <= i <= |rows|
      invariant tickets == Map(TicketOf, rows[..i])
    {
      MapStep(TicketOf, rows, i);
      tickets := tickets + [TicketOf(rows[i])];
      i := i + 1;
    }
    MapAll(TicketOf, rows);
  }

  // ---------------------------------------------------------------------------
  // fetch_eligible_hotels

  /** A tied-up hotel row; the rate is left out. */
  datatype TiedUpHotel = TiedUpHotel(id: int, name: string, city: string, gradeEligibility: Option<string>)

  /** `grade_eligibility is None or grade in grade_eligibility`: a substring test on the text column. */
  predicate GradeEligible(h: TiedUpHotel, grade: string) {
    h.gradeEligibility.None? || Contains(h.gradeEligibility.value, grade)
  }

  /** The final list comprehension of `fetch_eligible_hotels`. */
  function EligibleHotels(hotels: seq<TiedUpHotel>, grade: string): (r: seq<TiedUpHotel>)
    ensures |r| <= |hotels|
    ensures forall h :: h in r <==> h in hotels && GradeEligible(h, grade)
  {
    if hotels == [] then []
    else
      var rest := EligibleHotels(hotels[1..], grade);
      assert forall h :: h in hotels <==> h == hotels[0] || h in hotels[1..];
      if GradeEligible(hotels[0], grade) then [hotels[0]] + rest else rest
  }

  /** The filter keeps table order: filtering a concatenation filters each part in turn. */
  lemma {:induction false} EligibleHotelsAppend(a: seq<TiedUpHotel>, b: seq<TiedUpHotel>, grade: string)
    ensures EligibleHotels(a + b, grade) == EligibleHotels(a, grade) + EligibleHotels(b, grade)
  {
    if a == [] {
      assert a + b == b;
    } else {
      assert (a + b)[0] == a[0];
      assert (a + b)[1..] == a[1..] + b;
      EligibleHotelsAppend(a[1..], b, grade);
    }
  }

  /** A single hotel is kept exactly when it is eligible. */
  lemma EligibleHotelsOne(h: TiedUpHotel, grade: string)
    ensures EligibleHotels([h], grade) == if GradeEligible(h, grade) then [h] else []
  {
    assert [h][1..] == [];
  }

  /** Because the test is a substring test, grade `E1` is admitted by a hotel listing only `E10`. */
  lemma SubstringEligibility()
    ensures GradeEligible(TiedUpHotel(1, "h", "c", Some("E10")), "E1")
  {
    assert StartsWith("E10", "E1");
  }

  // ---------------------------------------------------------------------------
  // The tables

  predicate IsEditing(indentId: Option<string>) {
    indentId.Some? && indentId.value != ""
  }

  /** The fields the draft-edit UPDATE writes. */
  function Edited(ind: Indent, trip: Trip, status: string, now: int): Indent {
    ind.(trip := trip, isApproved := Some(status), updatedAt := Some(now))
  }

  /** The row the insert path creates. */
  function NewIndent(id: string, employeeId: string, p: Profile, trip: Trip, status: string, now: int): Indent {
    Indent(id, employeeId, p, trip, None, Some(status), now, None)
  }

  /** The edit guards pass for `id`: it exists, belongs to the employee and is a draft. */
  predicate EditAllowed(indents: map<string, Indent>, employeeId: string, id: string) {
    id in indents && indents[id].employeeId == employeeId && EditCode(indents[id].isApproved) == "draft"
  }

  /** What the edit path may do, given the table before (`was`) and after (`now`). */
  predicate EditSpec(was: map<string, Indent>, after: map<string, Indent>, employeeId: string, trip: Trip,
                     status: string, id: string, now: int, r: Result<string, string>)
  {
    (id !in was ==> r == Err(DraftNotFound))
    && (id in was && was[id].employeeId != employeeId ==> r == Err(NotOwner))
    && (id in was && was[id].employeeId == employeeId && EditCode(was[id].isApproved) != "draft" ==> r == Err(OnlyDrafts))
    && (EditAllowed(was, employeeId, id) ==>
         (r.Ok? ==> r.value == id && after == was[id := Edited(was[id], trip, status, now)])
         && (r.Err? ==> r.error == DuplicateMessage && status != "draft"
                        && MayBlock(was, QueryFor(employeeId, trip, Some(id))))
         && (r.Ok? && status != "draft" ==> MayPass(was, QueryFor(employeeId, trip, Some(id))))
         && (status == "draft" ==> r.Ok?))
  }

  /** What the insert path may do. */
  predicate InsertSpec(was: map<string, Indent>, after: map<string, Indent>, users: map<string, Profile>,
                       employeeId: string, trip: Trip, status: string, freshId: string, now: int,
                       r: Result<string, string>)
  {
    (r.Ok? ==> r.value == freshId && employeeId in users
               && after == was[freshId := NewIndent(freshId, employeeId, users[employeeId], trip, status, now)])
    && (r.Ok? && status != "draft" ==> MayPass(was, QueryFor(employeeId, trip, None)))
    && (r.Err? ==> (r.error == DuplicateMessage && status != "draft" && MayBlock(was, QueryFor(employeeId, trip, None)))
                   || (r.error == NoUserMessage(employeeId) && employeeId !in users
                       && (status == "draft" || MayPass(was, QueryFor(employeeId, trip, None)))))
    && (status == "draft" && employeeId in users ==> r.Ok?)
  }

  /** The edit path on the table values: the guards in order, then the duplicate
      check when the new status is not `draft` (leaving the indent itself out),
      then the UPDATE. */
  method EditRow(was: map<string, Indent>, employeeId: string, trip: Trip, status: string, id: string, now: int)
    returns (r: Result<string, string>, after: map<string, Indent>)
    ensures r.Err? ==> after == was
    ensures EditSpec(was, after, employeeId, trip, status, id, now, r)
  {
    if id !in was {
      return Err(DraftNotFound), was;
    }
    if was[id].employeeId != employeeId {
      return Err(NotOwner), was;
    }
    if EditCode(was[id].isApproved) != "draft" {
      return Err(OnlyDrafts), was;
    }
    if status != "draft" {
      var dup := EnsureNoDuplicateActive(was, QueryFor(employeeId, trip, Some(id)));
      if dup.Err? {
        return Err(dup.error), was;
      }
    }
    return Ok(id), was[id := Edited(was[id], trip, status, now)];
  }

  /** The insert path on the table values: the duplicate check when the status is not `draft`, then
      the user lookup, then the new row. */
  method InsertRow(was: map<string, Indent>, users: map<string, Profile>, employeeId: string, trip: Trip,
                   status: string, freshId: string, now: int)
    returns (r: Result<string, string>, after: map<string, Indent>)
    ensures r.Err? ==> after == was
    ensures InsertSpec(was, after, users, employeeId, trip, status, freshId, now, r)
  {
    if status != "draft" {
      var dup := EnsureNoDuplicateActive(was, QueryFor(employeeId, trip, None));
      if dup.Err? {
        return Err(dup.error), was;
      }
    }
    if employeeId !in users {
      return Err(NoUserMessage(employeeId)), was;
    }
    return Ok(freshId), was[freshId := NewIndent(freshId, employeeId, users[employeeId], trip, status, now)];
  }

  /** Does the employee already have a bookmark for these normalised cities? */
  predicate RouteBookmarked(bookmarks: map<string, Bookmark>, employeeId: string, fromKey: string, toKey: string) {
    exists id :: id in bookmarks && bookmarks[id].employeeId == employeeId
      && SqlTrimLower(bookmarks[id].fromCity) == fromKey && SqlTrimLower(bookmarks[id].toCity) == toKey
  }

  /** The row `create_employee_route_bookmark` inserts. */
  function NewBookmark(employeeId: string, fromCity: string, toCity: string,
                       fromCountry: Option<string>, toCountry: Option<string>, tag: Option<string>): Bookmark {
    Bookmark(employeeId, Strip(fromCity), Strip(Or(fromCountry, "India")), Strip(toCity),
             Strip(Or(toCountry, "India")), if tag == Some("") then None else tag, None, None)
  }

  /** Once created, the same route (in any spacing or case) counts as bookmarked. */
  lemma BookmarkedAfterCreate(bookmarks: map<string, Bookmark>, id: string, employeeId: string,
                              fromCity: string, toCity: string, fromCountry: Option<string>,
                              toCountry: Option<string>, tag: Option<string>)
    ensures RouteBookmarked(bookmarks[id := NewBookmark(employeeId, fromCity, toCity, fromCountry, toCountry, tag)],
                            employeeId, NormalizePlace(fromCity), NormalizePlace(toCity))
  {
    SqlKeyOfStripped(fromCity);
    SqlKeyOfStripped(toCity);
    var m := bookmarks[id := NewBookmark(employeeId, fromCity, toCity, fromCountry, toCountry, tag)];
    assert id in m && m[id].employeeId == employeeId;
  }

  /** What `create_employee_route_bookmark` may do: refuse a blank city, refuse a route
      the employee already bookmarked, otherwise add the row under the fresh id. */
  predicate BookmarkSpec(was: map<string, Bookmark>, after: map<string, Bookmark>, employeeId: string,
                         fromCity: string, toCity: string, fromCountry: Option<string>,
                         toCountry: Option<string>, tag: Option<string>, freshId: string,
                         r: Result<string, string>)
  {
    var fromKey := NormalizePlace(fromCity);
    var toKey := NormalizePlace(toCity);
    (fromKey == [] || toKey == [] ==> r == Err(CitiesRequired) && after == was)
    && (fromKey != [] && toKey != [] && RouteBookmarked(was, employeeId, fromKey, toKey) ==>
          r == Err(AlreadyBookmarked) && after == was)
    && (fromKey != [] && toKey != [] && !RouteBookmarked(was, employeeId, fromKey, toKey) ==>
          r == Ok(freshId)
          && after == was[freshId := NewBookmark(employeeId, fromCity, toCity, fromCountry, toCountry, tag)])
  }

  /** The bookmark insert on the table value. */
  method AddBookmarkRow(was: map<string, Bookmark>, employeeId: string, fromCity: string, toCity: string,
                        fromCountry: Option<string>, toCountry: Option<string>, tag: Option<string>,
                        freshId: string)
    returns (r: Result<string, string>, after: map<string, Bookmark>)
    ensures r.Err? ==> after == was
    ensures BookmarkSpec(was, after, employeeId, fromCity, toCity, fromCountry, toCountry, tag, freshId, r)
  {
    var fromKey := NormalizePlace(fromCity);
    var toKey := NormalizePlace(toCity);
    if fromKey == [] || toKey == [] {
      return Err(CitiesRequired), was;
    }
    if RouteBookmarked(was, employeeId, fromKey, toKey) {
      return Err(AlreadyBookmarked), was;
    }
    return Ok(freshId), was[freshId := NewBookmark(employeeId, fromCity, toCity, fromCountry, toCountry, tag)];
  }

  /** `bookmark_id` belongs to `employee_id`: the WHERE clause of delete and touch. */
  predicate Owns(bookmarks: map<string, Bookmark>, employeeId: string, bookmarkId: string) {
    bookmarkId in bookmarks && bookmarks[bookmarkId].employeeId == employeeId
  }

  /** The `travel_indents`, `users` and `employee_route_bookmarks` tables. */
  class TravelDb {
    var indents: map<string, Indent>
    var users: map<string, Profile>
    var bookmarks: map<string, Bookmark>

    /** Every row is stored under its own `indent_id`. */
    predicate Valid()
      reads this
    {
      forall id :: id in indents ==> indents[id].indentId == id
    }

    /** `create_travel_indent_from_form`: edit a draft when `indentId` is given (non-empty), insert
        otherwise. `freshId` is the generated `IND-…` id. */
    method CreateTravelIndentFromForm(employeeId: string, trip: Trip, initialStatus: string,
                                      indentId: Option<string>, freshId: string, now: int)
      returns (r: Result<string, string>)
      requires Valid()
      requires freshId !in indents
      modifies this
      ensures Valid()
      ensures users == old(users) && bookmarks == old(bookmarks)
      ensures r.Err? ==> indents == old(indents)
      ensures IsEditing(indentId) ==> EditSpec(old(indents), indents, employeeId, trip, initialStatus, indentId.value, now, r)
      ensures !IsEditing(indentId) ==> InsertSpec(old(indents), indents, users, employeeId, trip, initialStatus, freshId, now, r)
    {
      if IsEditing(indentId) {
        r := EditDraft(employeeId, trip, initialStatus, indentId.value, now);
      } else {
        r := InsertIndent(employeeId, trip, initialStatus, freshId, now);
      }
    }

    /** The edit path, applied to the table. */
    method EditDraft(employeeId: string, trip: Trip, initialStatus: string, id: string, now: int)
      returns (r: Result<string, string>)
      requires Valid()
      modifies this
      ensures Valid()
      ensures users == old(users) && bookmarks == old(bookmarks)
      ensures r.Err? ==> indents == old(indents)
      ensures EditSpec(old(indents), indents, employeeId, trip, initialStatus, id, now, r)
    {
      var after;
      r, after := EditRow(indents, employeeId, trip, initialStatus, id, now);
      indents := after;
    }

    /** The insert path, applied to the table. */
    method InsertIndent(employeeId: string, trip: Trip, initialStatus: string, freshId: string, now: int)
      returns (r: Result<string, string>)
      requires Valid()
      requires freshId !in indents
      modifies this
      ensures Valid()
      ensures users == old(users) && bookmarks == old(bookmarks)
      ensures r.Err? ==> indents == old(indents)
      ensures InsertSpec(old(indents), indents, users, employeeId, trip, initialStatus, freshId, now, r)
    {
      var after;
      r, after := InsertRow(indents, users, employeeId, trip, initialStatus, freshId, now);
      indents := after;
    }

    /** `approve_indent_manager`: unconditional write, always reports True. */
    method ApproveIndentManager(indentId: string, now: int) returns (ok: bool)
      requires Valid()
      modifies this
      ensures Valid() && ok
      ensures indents == SetStatus(old(indents), indentId, "accepted_manager", now)
      ensures users == old(users) && bookmarks == old(bookmarks)
    {
      SetStatusKeepsIds(indents, indentId, "accepted_manager", now);
      indents := SetStatus(indents, indentId, "accepted_manager", now);
      ok := true;
    }

    /** `reject_manager_ticket`: unconditional write, always reports True. */
    method RejectManagerTicket(indentId: string, now: int) returns (ok: bool)
      requires Valid()
      modifies this
      ensures Valid() && ok
      ensures indents == SetStatus(old(indents), indentId, "rejected_manager", now)
      ensures users == old(users) && bookmarks == old(bookmarks)
    {
      SetStatusKeepsIds(indents, indentId, "rejected_manager", now);
      indents := SetStatus(indents, indentId, "rejected_manager", now);
      ok := true;
    }

    /** `approve_hr_ticket`: the gate, then `is_approved = 'hr_approved'`. */
    method ApproveHrTicket(indentId: string, hrId: string, comments: Option<string>, now: int)
      returns (r: Result<(), string>)
      requires Valid()
      modifies this
      ensures Valid()
      ensures RequireManagerApproval(old(indents), indentId).Err? ==>
        r == Err(RequireManagerApproval(old(indents), indentId).error) && indents == old(indents)
      ensures RequireManagerApproval(old(indents), indentId).Ok? ==>
        r == Ok(()) && indents == SetStatus(old(indents), indentId, "hr_approved", now)
      ensures users == old(users) && bookmarks == old(bookmarks)
    {
      var gate := RequireManagerApproval(indents, indentId);
      if gate.Err? {
        return Err(gate.error);
      }
      var updated := SetStatus(indents, indentId, "hr_approved", now);
      SetStatusKeepsIds(indents, indentId, "hr_approved", now);
      indents := updated;
      r := Ok(());
    }

    /** `book_flight`: the gate, then `is_approved = 'booked'` and the stub booking. */
    method BookFlight(indentId: string, now: int) returns (r: Result<FlightBooking, string>)
      requires Valid()
      modifies this
      ensures Valid()
      ensures RequireManagerApproval(old(indents), indentId).Err? ==>
        r == Err(RequireManagerApproval(old(indents), indentId).error) && indents == old(indents)
      ensures RequireManagerApproval(old(indents), indentId).Ok? ==>
        r == Ok(FlightStub(indentId)) && indents == SetStatus(old(indents), indentId, "booked", now)
      ensures users == old(users) && bookmarks == old(bookmarks)
    {
      var booking := FlightStub(indentId);
      var gate := RequireManagerApproval(indents, indentId);
      if gate.Err? {
        return Err(gate.error);
      }
      SetStatusKeepsIds(indents, indentId, "booked", now);
      indents := SetStatus(indents, indentId, "booked", now);
      r := Ok(booking);
    }

    /** `create_employee_route_bookmark`, applied to the table. */
    method CreateBookmark(employeeId: string, fromCity: string, toCity: string,
                          fromCountry: Option<string>, toCountry: Option<string>, tag: Option<string>,
                          freshId: string)
      returns (r: Result<string, string>)
      requires freshId !in bookmarks
      modifies this
      ensures indents == old(indents) && users == old(users)
      ensures BookmarkSpec(old(bookmarks), bookmarks, employeeId, fromCity, toCity, fromCountry, toCountry, tag, freshId, r)
    {
      var after;
      r, after := AddBookmarkRow(bookmarks, employeeId, fromCity, toCity, fromCountry, toCountry, tag, freshId);
      bookmarks := after;
    }

    /** `delete_employee_route_bookmark` */
    method DeleteBookmark(employeeId: string, bookmarkId: string) returns (r: Result<bool, string>)
      modifies this
      ensures indents == old(indents) && users == old(users)
      ensures Owns(old(bookmarks), employeeId, bookmarkId) ==> r == Ok(true) && bookmarks == old(bookmarks) - {bookmarkId}
      ensures !Owns(old(bookmarks), employeeId, bookmarkId) ==> r == Err(BookmarkNotFound) && bookmarks == old(bookmarks)
    {
      if !Owns(bookmarks, employeeId, bookmarkId) {
        return Err(BookmarkNotFound);
      }
      bookmarks := bookmarks - {bookmarkId};
      r := Ok(true);
    }

    /** `touch_employee_route_bookmark`: one more use, stamped now. */
    method TouchBookmark(employeeId: string, bookmarkId: string, now: int) returns (r: Result<bool, string>)
      modifies this
      ensures indents == old(indents) && users == old(users)
      ensures Owns(old(bookmarks), employeeId, bookmarkId) ==> (r == Ok(true)
        && bookmarks == old(bookmarks)[bookmarkId := old(bookmarks)[bookmarkId].(
             timesUsed := Some(old(bookmarks)[bookmarkId].timesUsed.GetOr(0) + 1), lastUsedAt := Some(now))])
      ensures !Owns(old(bookmarks), employeeId, bookmarkId) ==> r == Err(BookmarkNotFound) && bookmarks == old(bookmarks)
    {
      if !Owns(bookmarks, employeeId, bookmarkId) {
        return Err(BookmarkNotFound);
      }
      var b := bookmarks[bookmarkId];
      bookmarks := bookmarks[bookmarkId := b.(timesUsed := Some(b.timesUsed.GetOr(0) + 1), lastUsedAt := Some(now))];
      r := Ok(true);
    }
  }
}
