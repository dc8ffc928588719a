/** The cabin policy, search guards and booking rules of the airline MCP server
    (src/mcp_servers/airlines/airline_booking_server.py). The airport, flight,
    inventory, traveler, booking and approval tables are maps and sequences. */
module AirlineServer {
  import opened Wrappers
  import opened Text
  import opened Lists

  /** The grades that may fly business class on an international route. */
  const BusinessGrades: set<string> := {"M1", "M2", "M3"}

  predicate BusinessClassAllowed(grade: string, isInternational: bool) {
    grade in BusinessGrades && isInternational
  }

  /** `get_allowed_cabin_classes`: economy and premium economy always, business when allowed. */
  function AllowedCabins(grade: string, isInternational: bool): (cabins: seq<string>)
    ensures "economy" in cabins && "premium_economy" in cabins
    ensures "business" in cabins <==> BusinessClassAllowed(grade, isInternational)
    ensures forall c :: c in cabins ==> c == "economy" || c == "premium_economy" || c == "business"
  {
    if BusinessClassAllowed(grade, isInternational) then ["economy", "premium_economy", "business"]
    else ["economy", "premium_economy"]
  }

  /** Business class is never open on a domestic route, and never below grade M1. */
  lemma BusinessOnlyForManagersAbroad(grade: string, isInternational: bool)
    ensures !isInternational ==> AllowedCabins(grade, isInternational) == ["economy", "premium_economy"]
    ensures grade !in BusinessGrades ==> "business" !in AllowedCabins(grade, isInternational)
  {
  }

  function TravelType(isInternational: bool): string {
    if isInternational then "international" else "domestic"
  }

  /** The policy error both `search_flights` and `book_flight` return for a disallowed cabin. */
  function CabinPolicyError(grade: string, cabin: string, isInternational: bool): string {
    "Policy violation: Employee grade " + grade + " not allowed " + cabin + " class for "
    + TravelType(isInternational) + " travel. Allowed: " + Join(", ", AllowedCabins(grade, isInternational))
  }

  // ---- search_flights ----

  datatype Airport = Airport(code: string, city: string, country: string)

  datatype Route = Route(originCountry: string, destCountry: string)

  predicate InCity(a: Airport, city: string) {
    Lower(a.city) == Lower(city)
  }

  /** The first airport of the city, compared case-insensitively. */
  function FirstInCity(airports: seq<Airport>, city: string): (r: Option<Airport>)
    ensures r.None? <==> forall a :: a in airports ==> !InCity(a, city)
    ensures r.Some? ==> r.value in airports && InCity(r.value, city)
  {
    if airports == [] then None
    else if InCity(airports[0], city) then Some(airports[0])
    else FirstInCity(airports[1..], city)
  }

  /** The route query: the countries of an origin-city and a destination-city airport. */
  function FindRoute(airports: seq<Airport>, origin: string, destination: string): (r: Option<Route>)
    ensures r.None? <==> (forall a :: a in airports ==> !InCity(a, origin))
                         || (forall a :: a in airports ==> !InCity(a, destination))
    ensures r.Some? ==> exists a, b :: a in airports && b in airports && InCity(a, origin) && InCity(b, destination)
                                       && r.value == Route(a.country, b.country)
  {
    match (FirstInCity(airports, origin), FirstInCity(airports, destination))
    case (Some(a), Some(b)) => Some(Route(a.country, b.country))
    case _ => None
  }

  /** A row of the flight search: one flight's inventory for one date and cabin. */
  datatype FlightRow = FlightRow(
    flightId: int, airlineCode: string, flightNumber: string, airlineName: string,
    originCity: string, destCity: string, date: string, cabin: string, seats: int,
    durationMinutes: int, isPreferred: bool, isDirect: bool)

  /** The `WHERE` of the flight search (without the price ceiling). */
  predicate Matches(row: FlightRow, origin: string, destination: string, date: string, cabin: string,
                    preferredOnly: bool) {
    Lower(row.originCity) == Lower(origin) && Lower(row.destCity) == Lower(destination)
    && row.date == date && row.cabin == cabin && row.seats > 0
    && (!preferredOnly || row.isPreferred)
  }

  /** The rows that pass the `WHERE`, in table order. */
  function MatchingRows(rows: seq<FlightRow>, origin: string, destination: string, date: string, cabin: string,
                        preferredOnly: bool): (found: seq<FlightRow>)
    ensures forall r :: r in found <==> r in rows && Matches(r, origin, destination, date, cabin, preferredOnly)
  {
    if rows == [] then []
    else
      var rest := MatchingRows(rows[1..], origin, destination, date, cabin, preferredOnly);
      if Matches(rows[0], origin, destination, date, cabin, preferredOnly) then [rows[0]] + rest else rest
  }

  /** The rows whose airline's preferred flag is `preferred`, in their order. */
  function WithPreference(rows: seq<FlightRow>, preferred: bool): (sub: seq<FlightRow>)
    ensures forall k :: 0 <= k < |sub| ==> sub[k] in rows && sub[k].isPreferred == preferred
  {
    if rows == [] then []
    else (if rows[0].isPreferred == preferred then [rows[0]] else []) + WithPreference(rows[1..], preferred)
  }

  /** Splitting by the preferred flag loses and duplicates no row. */
  lemma {:induction false} PreferenceSplitKeepsRows(rows: seq<FlightRow>)
    ensures multiset(WithPreference(rows, true)) + multiset(WithPreference(rows, false)) == multiset(rows)
  {
    if rows != [] {
      PreferenceSplitKeepsRows(rows[1..]);
      assert rows == [rows[0]] + rows[1..];
    }
  }

  /** The first key of `ORDER BY al.is_preferred_vendor DESC, final_price ASC`: the rows of
      preferred airlines first, each group in its incoming order. */
  function PreferredFirst(rows: seq<FlightRow>): (ordered: seq<FlightRow>)
    ensures multiset(ordered) == multiset(rows)
    ensures forall i, j :: 0 <= i < j < |ordered| && ordered[j].isPreferred ==> ordered[i].isPreferred
  {
    PreferenceSplitKeepsRows(rows);
    WithPreference(rows, true) + WithPreference(rows, false)
  }

  /** The rows the flight search returns: those passing the `WHERE`, preferred airlines first. */
  function QueryFlights(rows: seq<FlightRow>, origin: string, destination: string, date: string, cabin: string,
                        preferredOnly: bool): (found: seq<FlightRow>)
    ensures forall r :: r in found ==> r in rows && Matches(r, origin, destination, date, cabin, preferredOnly)
    ensures forall r :: r in rows && Matches(r, origin, destination, date, cabin, preferredOnly) ==> r in found
    ensures forall i, j :: 0 <= i < j < |found| && found[j].isPreferred ==> found[i].isPreferred
  {
    var matching := MatchingRows(rows, origin, destination, date, cabin, preferredOnly);
    var ordered := PreferredFirst(matching);
    assert forall r :: r in ordered <==> r in matching by {
      forall r ensures r in ordered <==> r in matching {
        assert r in ordered <==> r in multiset(ordered);
        assert r in matching <==> r in multiset(matching);
      }
    }
    ordered
  }

  /** Python's `m // 60` and `m % 60`: the floored quotient and a remainder in [0, 60). */
  function HoursAndMinutes(m: int): (p: (int, int))
    ensures p.0 * 60 + p.1 == m && 0 <= p.1 < 60
  {
    (m / 60, m % 60)
  }

  /** `duration_hours`. */
  function DurationText(m: int): string {
    var (h, mm) := HoursAndMinutes(m);
    IntToString(h) + "h " + IntToString(mm) + "m"
  }

  /** A listed flight, without its prices. */
  datatype FlightListing = FlightListing(
    flightId: int, flightNumber: string, airline: string, durationMinutes: int, durationHours: string,
    cabin: string, availableSeats: int, isPreferred: bool, isDirect: bool)

  function ListingOf(row: FlightRow, cabin: string): FlightListing {
    FlightListing(row.flightId, row.airlineCode + row.flightNumber, row.airlineName, row.durationMinutes,
                  DurationText(row.durationMinutes), cabin, row.seats, row.isPreferred, row.isDirect)
  }

  datatype SearchResponse = SearchResponse(
    origin: string, destination: string, travelDate: string, grade: string, cabin: string,
    isInternational: bool, allowedCabins: seq<string>, businessAllowed: bool, approvalRequired: bool,
    flightsFound: nat, flights: seq<FlightListing>)

  /** The two checks `search_flights` makes before querying flights: the route, then the
      cabin; on success, whether the route is international. */
  function SearchGuard(airports: seq<Airport>, origin: string, destination: string, grade: string,
                       cabin: string): (r: Result<bool, string>)
    ensures FindRoute(airports, origin, destination).None? ==> r == Err("Route not found")
    ensures FindRoute(airports, origin, destination).Some? ==>
      var route := FindRoute(airports, origin, destination).value;
      var intl := route.originCountry != route.destCountry;
      (cabin !in AllowedCabins(grade, intl) ==> r == Err(CabinPolicyError(grade, cabin, intl)))
      && (cabin in AllowedCabins(grade, intl) ==> r == Ok(intl))
  {
    match FindRoute(airports, origin, destination)
    case None => Err("Route not found")
    case Some(route) =>
      var intl := route.originCountry != route.destCountry;
      if cabin !in AllowedCabins(grade, intl) then Err(CabinPolicyError(grade, cabin, intl)) else Ok(intl)
  }

  /** `ListingOf` for a fixed cabin, as a function value. */
  function Lister(cabin: string): FlightRow -> FlightListing {
    row => ListingOf(row, cabin)
  }

  /** The loop that turns each found row into its listing, in order. */
  method FormatFlights(found: seq<FlightRow>, cabin: string) returns (formatted: seq<FlightListing>)
    ensures formatted == Map(Lister(cabin), found)
  {
    formatted := [];
    var i := 0;
    while i < |found|
      invariant 0 <= i <= |found|
      invariant formatted == Map(Lister(cabin), found[..i])
    {
      MapStep(Lister(cabin), found, i);
      formatted := formatted + [Lister(cabin)(found[i])];
      i := i + 1;
    }
    MapAll(Lister(cabin), found);
  }

  /** Listing `j` of a search is the listing of found row `j`, with its duration text. */
  lemma ListingIsRowFormatted(found: seq<FlightRow>, cabin: string, j: int)
    requires 0 <= j < |found|
    ensures Map(Lister(cabin), found)[j].flightId == found[j].flightId
    ensures Map(Lister(cabin), found)[j].flightNumber == found[j].airlineCode + found[j].flightNumber
    ensures Map(Lister(cabin), found)[j].durationHours == DurationText(found[j].durationMinutes)
    ensures Map(Lister(cabin), found)[j].cabin == cabin
  {
    MapAt(Lister(cabin), found, j);
  }

  /** A search that gets past its checks offers the requested cabin under the policy. */
  lemma SearchedCabinIsAllowed(airports: seq<Airport>, origin: string, destination: string, grade: string,
                               cabin: string)
    requires SearchGuard(airports, origin, destination, grade, cabin).Ok?
    ensures cabin in AllowedCabins(grade, SearchGuard(airports, origin, destination, grade, cabin).value)
    ensures cabin == "business" ==> grade in BusinessGrades && SearchGuard(airports, origin, destination, grade, cabin).value
  {
  }

  /** `search_flights`: on a failed check its error; otherwise the query's rows, formatted in
      a loop, with the policy summary. */
  method SearchFlights(airports: seq<Airport>, rows: seq<FlightRow>, origin: string, destination: string,
                       travelDate: string, grade: string, cabin: string, preferredOnly: bool)
    returns (r: Result<SearchResponse, string>)
    ensures SearchGuard(airports, origin, destination, grade, cabin).Err? ==>
      r == Err(SearchGuard(airports, origin, destination, grade, cabin).error)
    ensures SearchGuard(airports, origin, destination, grade, cabin).Ok? ==>
      r.Ok? && r.value.isInternational == SearchGuard(airports, origin, destination, grade, cabin).value
    ensures r.Ok? ==>
      var found := QueryFlights(rows, origin, destination, travelDate, cabin, preferredOnly);
      r.value.flights == Map(Lister(cabin), found) && r.value.flightsFound == |found|
      && r.value.approvalRequired == r.value.isInternational
      && r.value.allowedCabins == AllowedCabins(grade, r.value.isInternational)
      && r.value.businessAllowed == BusinessClassAllowed(grade, r.value.isInternational)
  {
    var guard := SearchGuard(airports, origin, destination, grade, cabin);
    if guard.Err? {
      return Err(guard.error);
    }
    var intl := guard.value;
    var found := QueryFlights(rows, origin, destination, travelDate, cabin, preferredOnly);
    var formatted := FormatFlights(found, cabin);
    r := Ok(SearchResponse(origin, destination, travelDate, grade, cabin, intl, AllowedCabins(grade, intl),
                           BusinessClassAllowed(grade, intl), intl, |formatted|, formatted));
  }

  /** In a search's listing no flight of a preferred airline comes after one of another airline. */
  lemma PreferredListedFirst(rows: seq<FlightRow>, origin: string, destination: string, date: string,
                             cabin: string, preferredOnly: bool, i: int, j: int)
    requires 0 <= i < j < |QueryFlights(rows, origin, destination, date, cabin, preferredOnly)|
    requires Map(Lister(cabin), QueryFlights(rows, origin, destination, date, cabin, preferredOnly))[j].isPreferred
    ensures Map(Lister(cabin), QueryFlights(rows, origin, destination, date, cabin, preferredOnly))[i].isPreferred
  {
    var found := QueryFlights(rows, origin, destination, date, cabin, preferredOnly);
    MapAt(Lister(cabin), found, i);
    MapAt(Lister(cabin), found, j);
  }

  /** Every listed flight has a seat left in the requested cabin on the requested date. */
  lemma ListedFlightsAreBookable(rows: seq<FlightRow>, origin: string, destination: string, date: string,
                                 cabin: string, preferredOnly: bool, row: FlightRow)
    requires row in QueryFlights(rows, origin, destination, date, cabin, preferredOnly)
    ensures row.seats > 0 && row.cabin == cabin && row.date == date
    ensures preferredOnly ==> row.isPreferred
  {
  }

  // ---- book_flight ----

  /** `passenger_name.split()[0] if passenger_name else "Unknown"` and
      `passenger_name.split()[-1] if passenger_name and ' ' in passenger_name else "Unknown"`;
      a name of whitespace only has no first token and raises `IndexError`. */
  function NewTravelerNames(name: string): (r: Result<(string, string), string>)
    ensures r.Err? <==> name != "" && IsBlank(name)
    ensures r.Err? ==> r.error == "list index out of range"
    ensures r.Ok? && name == "" ==> r.value == ("Unknown", "Unknown")
  {
    SplitBlank(name);
    if name == "" then Ok(("Unknown", "Unknown"))
    else
      var words := Split(name);
      if words == [] then Err("list index out of range")
      else Ok((words[0], if ' ' in name then words[|words| - 1] else "Unknown"))
  }

  /** The first name is a whitespace-free token of the name; the last name is the last
      token exactly when the name contains a space. */
  lemma TravelerNamesAreTokens(name: string)
    requires NewTravelerNames(name).Ok? && name != ""
    ensures NewTravelerNames(name).value.0 == Split(name)[0]
    ensures IsWord(NewTravelerNames(name).value.0)
    ensures ' ' in name ==> NewTravelerNames(name).value.1 == Split(name)[|Split(name)| - 1]
    ensures ' ' !in name ==> NewTravelerNames(name).value.1 == "Unknown"
  {
    var words := Split(name);
    SplitBlank(name);
    assert words != [];
    assert IsWord(words[0]);
  }

  datatype Flight = Flight(
    flightNumber: string, airlineName: string, originCity: string, destCity: string,
    originCountry: string, destCountry: string)

  /** A `flight_inventory` row is identified by flight, date and cabin. */
  datatype InventoryKey = InventoryKey(flightId: int, date: string, cabin: string)

  datatype Traveler = Traveler(travelerId: nat, firstName: string, lastName: string, email: string, grade: string)

  datatype FlightBooking = FlightBooking(travelerId: nat, flightId: int, travelDate: string, cabin: string, status: string)

  datatype Approval = Approval(approverName: string, status: string)

  datatype BookingDetails = BookingDetails(seatPreference: string, specialRequests: string)

  const BookingFailedPrefix: string := "Booking failed: "

  function FlightNotFound(flightId: int, date: string, cabin: string): string {
    "Flight " + IntToString(flightId) + " not found for date " + date + " in cabin class " + cabin
  }

  /** The traveler a booking is made for: the one with that email, or a new record
      (the boolean says which). */
  function TravelerFor(travelers: map<string, Traveler>, nextTravelerId: nat, name: string, email: string,
                       grade: string): (r: Result<(Traveler, bool), string>)
    ensures email in travelers ==> r == Ok((travelers[email], false))
    ensures email !in travelers && NewTravelerNames(name).Err? ==>
      r == Err(BookingFailedPrefix + NewTravelerNames(name).error)
    ensures email !in travelers && NewTravelerNames(name).Ok? ==>
      r == Ok((Traveler(nextTravelerId, NewTravelerNames(name).value.0, NewTravelerNames(name).value.1,
                        email, grade), true))
  {
    if email in travelers then Ok((travelers[email], false))
    else
      match NewTravelerNames(name)
      case Err(e) => Err(BookingFailedPrefix + e)
      case Ok((first, last)) => Ok((Traveler(nextTravelerId, first, last, email, grade), true))
  }

  /** The checks of `book_flight` after the traveler step, in the order they fire. */
  function FlightGuard(flights: map<int, Flight>, seats: map<InventoryKey, int>, flightId: int, date: string,
                       cabin: string, grade: string): (r: Result<Flight, string>)
    ensures flightId !in flights || InventoryKey(flightId, date, cabin) !in seats ==>
      r == Err(FlightNotFound(flightId, date, cabin))
    ensures flightId in flights && InventoryKey(flightId, date, cabin) in seats ==>
      (seats[InventoryKey(flightId, date, cabin)] <= 0 ==> r == Err("No seats available"))
      && (seats[InventoryKey(flightId, date, cabin)] > 0 ==>
            var f := flights[flightId];
            var intl := f.originCountry != f.destCountry;
            (cabin !in AllowedCabins(grade, intl) ==> r == Err(CabinPolicyError(grade, cabin, intl)))
            && (cabin in AllowedCabins(grade, intl) ==> r == Ok(f)))
  {
    var key := InventoryKey(flightId, date, cabin);
    if flightId !in flights || key !in seats then Err(FlightNotFound(flightId, date, cabin))
    else if seats[key] <= 0 then Err("No seats available")
    else
      var f := flights[flightId];
      var intl := f.originCountry != f.destCountry;
      if cabin !in AllowedCabins(grade, intl) then Err(CabinPolicyError(grade, cabin, intl))
      else Ok(f)
  }

  /** A booked flight always had a seat left and a cabin the grade may use. */
  lemma BookedCabinIsAllowed(flights: map<int, Flight>, seats: map<InventoryKey, int>, flightId: int, date: string,
                             cabin: string, grade: string)
    requires FlightGuard(flights, seats, flightId, date, cabin, grade).Ok?
    ensures InventoryKey(flightId, date, cabin) in seats && seats[InventoryKey(flightId, date, cabin)] > 0
    ensures var f := flights[flightId];
      cabin in AllowedCabins(grade, f.originCountry != f.destCountry)
  {
  }

  /** `f"YASH-BK-{booking_id:06d}"`. */
  function BookingReference(bookingId: nat): string {
    "YASH-BK-" + ZeroPad(bookingId, 6)
  }

  /** The reference carries the booking id: at least six digits after the prefix, reading back as the id. */
  lemma ReferenceCarriesId(bookingId: nat)
    ensures var ref := BookingReference(bookingId);
      |ref| >= 14 && ref[..8] == "YASH-BK-" && IsDigits(ref[8..]) && DigitsValue(ref[8..]) == bookingId
  {
    var ref := BookingReference(bookingId);
    assert ref[8..] == ZeroPad(bookingId, 6);
  }

  /** Distinct bookings get distinct references. */
  lemma ReferencesAreDistinct(a: nat, b: nat)
    requires a != b
    ensures BookingReference(a) != BookingReference(b)
  {
    ReferenceCarriesId(a);
    ReferenceCarriesId(b);
  }

  const BghPending: string := "International travel approval pending from BGH"

  /** `next_steps`: three fixed items, and the BGH item on international routes. */
  function NextSteps(isInternational: bool): (steps: seq<string>)
    ensures |steps| >= 3 && steps[..3] == ["Check email for booking confirmation",
                                          "Complete web check-in 48 hours before flight",
                                          "Carry valid ID proof for airport security"]
    ensures BghPending in steps <==> isInternational
  {
    ["Check email for booking confirmation",
     "Complete web check-in 48 hours before flight",
     "Carry valid ID proof for airport security"]
    + (if isInternational then [BghPending] else [])
  }

  /** The booking confirmation, without the prices. */
  datatype FlightConfirmation = FlightConfirmation(
    bookingId: nat, reference: string, status: string, airline: string, flightNumber: string,
    originCity: string, destCity: string, travelDate: string, cabin: string, isInternational: bool,
    passengerName: string, passengerEmail: string, grade: string, approvalRequired: bool,
    approvalLevel: string, allowedCabins: seq<string>, seatPreference: string, specialRequests: string,
    nextSteps: seq<string>)

  function ConfirmationOf(bookingId: nat, f: Flight, travelDate: string, cabin: string, name: string, email: string,
                          grade: string, seatPreference: string, specialRequests: string): FlightConfirmation {
    var intl := f.originCountry != f.destCountry;
    FlightConfirmation(bookingId, BookingReference(bookingId), "confirmed", f.airlineName, f.flightNumber,
                       f.originCity, f.destCity, travelDate, cabin, intl, name, email, grade, intl,
                       if intl then "BGH" else "None", AllowedCabins(grade, intl), seatPreference, specialRequests,
                       NextSteps(intl))
  }

  /** A confirmation asks for BGH approval exactly on an international route, and says so
      consistently in its flags, its level and its next steps. */
  lemma ConfirmationApprovalConsistent(bookingId: nat, f: Flight, travelDate: string, cabin: string, name: string,
                                       email: string, grade: string, seatPreference: string, specialRequests: string)
    ensures var c := ConfirmationOf(bookingId, f, travelDate, cabin, name, email, grade, seatPreference, specialRequests);
      (c.approvalRequired <==> f.originCountry != f.destCountry)
      && (c.approvalLevel == "BGH" <==> c.approvalRequired)
      && (BghPending in c.nextSteps <==> c.approvalRequired)
  {
  }

  /** The tables `book_flight` writes, as one value. */
  datatype Tables = Tables(
    seats: map<InventoryKey, int>, travelers: map<string, Traveler>, bookings: map<nat, FlightBooking>,
    approvals: map<nat, Approval>, details: map<nat, BookingDetails>, nextTravelerId: nat, nextBookingId: nat)

  /** `book_flight` on the tables: the reply and the tables after it. On any failure the
      transaction is not committed, so the tables are as before (the traveler record too). */
  function BookOutcome(flights: map<int, Flight>, db: Tables, flightId: int, travelDate: string, name: string,
                       email: string, grade: string, cabin: string, seatPreference: string,
                       specialRequests: string): (out: (Result<FlightConfirmation, string>, Tables))
    ensures out.0.Err? ==> out.1 == db
  {
    match TravelerFor(db.travelers, db.nextTravelerId, name, email, grade)
    case Err(e) => (Err(e), db)
    case Ok((t, isNew)) =>
      match FlightGuard(flights, db.seats, flightId, travelDate, cabin, grade)
      case Err(e) => (Err(e), db)
      case Ok(f) =>
        var id := db.nextBookingId;
        var key := InventoryKey(flightId, travelDate, cabin);
        var intl := f.originCountry != f.destCountry;
        (Ok(ConfirmationOf(id, f, travelDate, cabin, name, email, grade, seatPreference, specialRequests)),
         Tables(db.seats[key := db.seats[key] - 1],
                if isNew then db.travelers[email := t] else db.travelers,
                db.bookings[id := FlightBooking(t.travelerId, flightId, travelDate, cabin, "confirmed")],
                if intl then db.approvals[id := Approval("BGH Approval Required", "pending")] else db.approvals,
                db.details[id := BookingDetails(seatPreference, specialRequests)],
                db.nextTravelerId + (if isNew then 1 else 0),
                id + 1))
  }

  /** The checks fire in source order: the traveler step (a whitespace-only name of a new
      traveler), then flight not found, then no seats, then a disallowed cabin. */
  lemma BookingChecksInOrder(flights: map<int, Flight>, db: Tables, flightId: int, travelDate: string,
                              name: string, email: string, grade: string, cabin: string,
                              seatPreference: string, specialRequests: string)
    ensures var who := TravelerFor(db.travelers, db.nextTravelerId, name, email, grade);
      var guard := FlightGuard(flights, db.seats, flightId, travelDate, cabin, grade);
      var r := BookOutcome(flights, db, flightId, travelDate, name, email, grade, cabin, seatPreference,
                           specialRequests).0;
      (who.Err? ==> r == Err(who.error))
      && (who.Ok? && guard.Err? ==> r == Err(guard.error))
      && (who.Ok? && guard.Ok? ==> r.Ok?)
  {
  }

  /** A successful booking takes exactly one seat from its inventory row and nothing from
      any other, records a confirmed booking under the next id, and adds an approval row
      exactly for an international route. */
  lemma SuccessfulBookingEffects(flights: map<int, Flight>, db: Tables, flightId: int, travelDate: string,
                                 name: string, email: string, grade: string, cabin: string,
                                 seatPreference: string, specialRequests: string)
    requires BookOutcome(flights, db, flightId, travelDate, name, email, grade, cabin, seatPreference,
                         specialRequests).0.Ok?
    ensures var (r, after) := BookOutcome(flights, db, flightId, travelDate, name, email, grade, cabin,
                                          seatPreference, specialRequests);
      var key := InventoryKey(flightId, travelDate, cabin);
      var id := db.nextBookingId;
      key in db.seats && db.seats[key] > 0
      && after.seats.Keys == db.seats.Keys
      && after.seats[key] == db.seats[key] - 1
      && (forall k :: k in db.seats && k != key ==> after.seats[k] == db.seats[k])
      && id in after.bookings && after.bookings[id].status == "confirmed"
      && after.bookings[id].flightId == flightId
      && after.nextBookingId == id + 1
      && r.value.bookingId == id && r.value.reference == BookingReference(id)
      && (id in after.approvals <==> (r.value.isInternational || id in db.approvals))
      && (r.value.isInternational ==> after.approvals[id] == Approval("BGH Approval Required", "pending"))
      && (!r.value.isInternational ==> after.approvals == db.approvals)
  {
    var who := TravelerFor(db.travelers, db.nextTravelerId, name, email, grade);
    var guard := FlightGuard(flights, db.seats, flightId, travelDate, cabin, grade);
    assert who.Ok? && guard.Ok?;
  }

  /** The airline database: the flight table, read only here, and the tables bookings write.
      Booking and traveler ids come from serial counters. */
  class AirlineDb {
    var flights: map<int, Flight>
    var tables: Tables

    constructor (flights0: map<int, Flight>, seats0: map<InventoryKey, int>)
      ensures flights == flights0
      ensures tables == Tables(seats0, map[], map[], map[], map[], 1, 1)
    {
      flights := flights0;
      tables := Tables(seats0, map[], map[], map[], map[], 1, 1);
    }

    /** `book_flight`: the reply and the new tables are those of `BookOutcome`. */
    method BookFlight(flightId: int, travelDate: string, passengerName: string, passengerEmail: string,
                      grade: string, cabin: string, seatPreference: string, specialRequests: string)
      returns (r: Result<FlightConfirmation, string>)
      modifies this
      ensures flights == old(flights)
      ensures (r, tables) == BookOutcome(old(flights), old(tables), flightId, travelDate, passengerName,
                                         passengerEmail, grade, cabin, seatPreference, specialRequests)
    {
      var out := BookOutcome(flights, tables, flightId, travelDate, passengerName, passengerEmail, grade,
                             cabin, seatPreference, specialRequests);
      r, tables := out.0, out.1;
    }
  }
}
