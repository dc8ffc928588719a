/** The policy, inventory and grouping rules of the hotel MCP server
    (src/mcp_servers/hotel/hotel_booking_mcp_server.py). Dates are day numbers;
    the `rooms`, `room_inventory` and `hotel_bookings` tables are maps. */
module HotelServer {
  import opened Wrappers

  /** The grades that may have a room to themselves; every other grade shares a twin room. */
  const SingleOccupancyGrades: set<string> := {"E5", "E6", "E7", "E8", "M1", "M2", "M3"}

  predicate SingleOccupancyAllowed(grade: string) {
    grade in SingleOccupancyGrades
  }

  /** Single occupancy is allowed exactly for the grades E5 to E8 and M1 to M3. */
  lemma SingleOccupancyGradesSpelledOut(grade: string)
    ensures SingleOccupancyAllowed(grade) <==>
      |grade| == 2 && ((grade[0] == 'E' && '5' <= grade[1] <= '8') || (grade[0] == 'M' && '1' <= grade[1] <= '3'))
  {
    if |grade| == 2 {
      assert grade == [grade[0], grade[1]];
    }
  }

  /** `calculate_nights`: the day difference, negative when the dates are reversed. */
  function CalculateNights(checkIn: int, checkOut: int): (nights: int)
    ensures checkIn + nights == checkOut
  {
    checkOut - checkIn
  }

  datatype Room = Room(hotelId: int, roomType: string, bedType: string, isTwinSharing: bool)

  /** A row of `room_inventory`: one room on one day. */
  datatype Slot = Slot(roomId: int, day: int)

  datatype Booking = Booking(
    hotelId: int, roomId: int, checkIn: int, checkOut: int, nights: int,
    guestName: string, guestCount: int, status: string, isTwinSharing: bool)

  /** `room_id = %s AND date BETWEEN check_in AND check_out`: both ends included. */
  predicate InStay(s: Slot, roomId: int, checkIn: int, checkOut: int) {
    s.roomId == roomId && checkIn <= s.day <= checkOut
  }

  /** `MIN(available_count)` over the stay is not NULL. */
  predicate HasStaySlots(inventory: map<Slot, int>, roomId: int, checkIn: int, checkOut: int) {
    exists s :: s in inventory && InStay(s, roomId, checkIn, checkOut)
  }

  /** `MIN(available_count) > 0` over the stay, once it is not NULL. */
  predicate AllAvailable(inventory: map<Slot, int>, roomId: int, checkIn: int, checkOut: int) {
    forall s :: s in inventory && InStay(s, roomId, checkIn, checkOut) ==> inventory[s] > 0
  }

  /** The `UPDATE room_inventory` of a booking: one room fewer on every day of the stay. */
  function Decrement(inventory: map<Slot, int>, roomId: int, checkIn: int, checkOut: int): (r: map<Slot, int>)
    ensures r.Keys == inventory.Keys
  {
    map s | s in inventory :: if InStay(s, roomId, checkIn, checkOut) then inventory[s] - 1 else inventory[s]
  }

  /** The `UPDATE room_inventory` of a cancellation: one room more on every day of the stay. */
  function Restore(inventory: map<Slot, int>, roomId: int, checkIn: int, checkOut: int): (r: map<Slot, int>)
    ensures r.Keys == inventory.Keys
  {
    map s | s in inventory :: if InStay(s, roomId, checkIn, checkOut) then inventory[s] + 1 else inventory[s]
  }

  /** Cancelling a booking gives back exactly the rooms its booking took. */
  lemma RestoreUndoesDecrement(inventory: map<Slot, int>, roomId: int, checkIn: int, checkOut: int)
    ensures Restore(Decrement(inventory, roomId, checkIn, checkOut), roomId, checkIn, checkOut) == inventory
  {
    var after := Restore(Decrement(inventory, roomId, checkIn, checkOut), roomId, checkIn, checkOut);
    forall s | s in inventory
      ensures after[s] == inventory[s]
    {
    }
  }

  /** A booking touches no other room and no day outside its stay. */
  lemma DecrementIsLocal(inventory: map<Slot, int>, roomId: int, checkIn: int, checkOut: int, s: Slot)
    requires s in inventory
    ensures InStay(s, roomId, checkIn, checkOut) ==> Decrement(inventory, roomId, checkIn, checkOut)[s] == inventory[s] - 1
    ensures !InStay(s, roomId, checkIn, checkOut) ==> Decrement(inventory, roomId, checkIn, checkOut)[s] == inventory[s]
  {
  }

  /** The inventory rows a stay covers, when there is one row per day. */
  function StaySlots(roomId: int, checkIn: int, checkOut: int): set<Slot>
    decreases checkOut - checkIn
  {
    if checkOut < checkIn then {} else StaySlots(roomId, checkIn, checkOut - 1) + {Slot(roomId, checkOut)}
  }

  /** The inclusive range covers one day more than the nights charged: the check-out day too. */
  lemma {:induction false} StaySlotsCount(roomId: int, checkIn: int, checkOut: int)
    requires checkIn <= checkOut + 1
    ensures |StaySlots(roomId, checkIn, checkOut)| == CalculateNights(checkIn, checkOut) + 1
    ensures forall s :: s in StaySlots(roomId, checkIn, checkOut) <==> InStay(s, roomId, checkIn, checkOut)
    decreases checkOut - checkIn
  {
    if checkIn <= checkOut {
      StaySlotsCount(roomId, checkIn, checkOut - 1);
      assert Slot(roomId, checkOut) !in StaySlots(roomId, checkIn, checkOut - 1);
    }
  }

  const RoomNotFound: string := "Room not found"
  const NotAvailable: string := "Room not available for selected dates"
  /** `None <= 0` raises when the stay has no inventory rows; the handler reports it. */
  const BookingFailedNoInventory: string := "Booking failed: '<=' not supported between instances of 'NoneType' and 'int'"
  /** `float(None)` raises when the stay has no inventory rows; the handler reports it. */
  const CheckFailedNoInventory: string :=
    "Availability check failed: float() argument must be a string or a real number, not 'NoneType'"

  function PolicyViolation(grade: string): string {
    "Policy violation: Employee grade " + grade + " requires twin sharing accommodation"
  }

  /** The room of `WHERE r.room_id = %s AND h.hotel_id = %s`. */
  predicate RoomFound(rooms: map<int, Room>, hotelId: int, roomId: int) {
    roomId in rooms && rooms[roomId].hotelId == hotelId
  }

  /** The guards of `book_hotel`, in the order they fire. */
  function BookGuard(rooms: map<int, Room>, inventory: map<Slot, int>, hotelId: int, roomId: int,
                     checkIn: int, checkOut: int, grade: string): (r: Result<Room, string>)
    ensures !RoomFound(rooms, hotelId, roomId) ==> r == Err(RoomNotFound)
    ensures RoomFound(rooms, hotelId, roomId) && !SingleOccupancyAllowed(grade) && !rooms[roomId].isTwinSharing ==>
      r == Err(PolicyViolation(grade))
    ensures RoomFound(rooms, hotelId, roomId) && (SingleOccupancyAllowed(grade) || rooms[roomId].isTwinSharing) ==>
      (!HasStaySlots(inventory, roomId, checkIn, checkOut) ==> r == Err(BookingFailedNoInventory))
      && (HasStaySlots(inventory, roomId, checkIn, checkOut) && !AllAvailable(inventory, roomId, checkIn, checkOut) ==>
            r == Err(NotAvailable))
    ensures r.Ok? <==> (RoomFound(rooms, hotelId, roomId)
                        && (SingleOccupancyAllowed(grade) || rooms[roomId].isTwinSharing)
                        && HasStaySlots(inventory, roomId, checkIn, checkOut)
                        && AllAvailable(inventory, roomId, checkIn, checkOut))
    ensures r.Ok? ==> r.value == rooms[roomId]
  {
    if !RoomFound(rooms, hotelId, roomId) then Err(RoomNotFound)
    else if !SingleOccupancyAllowed(grade) && !rooms[roomId].isTwinSharing then Err(PolicyViolation(grade))
    else if !HasStaySlots(inventory, roomId, checkIn, checkOut) then Err(BookingFailedNoInventory)
    else if !AllAvailable(inventory, roomId, checkIn, checkOut) then Err(NotAvailable)
    else Ok(rooms[roomId])
  }

  /** A booking confirmation, without the prices (floating point). */
  datatype Confirmation = Confirmation(
    reference: string, status: string, hotelId: int, roomId: int, roomType: string,
    checkIn: int, checkOut: int, nights: int, guestName: string, guestEmail: string,
    grade: string, guestCount: int, twinSharingRequired: bool)

  /** What `check_availability` reports, without the prices and the average. */
  datatype Availability = Availability(
    roomType: string, checkIn: int, checkOut: int, nights: int, daysChecked: nat, isAvailable: bool)

  /** `check_availability`: a room check, then the availability of the stay's inventory rows. */
  function CheckAvailability(rooms: map<int, Room>, inventory: map<Slot, int>, hotelId: int, roomId: int,
                             checkIn: int, checkOut: int): (r: Result<Availability, string>)
    ensures !RoomFound(rooms, hotelId, roomId) ==> r == Err(RoomNotFound)
    ensures RoomFound(rooms, hotelId, roomId) && !HasStaySlots(inventory, roomId, checkIn, checkOut) ==>
      r == Err(CheckFailedNoInventory)
    ensures r.Ok? ==> (r.value.isAvailable <==> AllAvailable(inventory, roomId, checkIn, checkOut))
    ensures r.Ok? ==> r.value.daysChecked > 0 && r.value.nights == CalculateNights(checkIn, checkOut)
  {
    if !RoomFound(rooms, hotelId, roomId) then Err(RoomNotFound)
    else if !HasStaySlots(inventory, roomId, checkIn, checkOut) then Err(CheckFailedNoInventory)
    else
      var stay := set s | s in inventory && InStay(s, roomId, checkIn, checkOut);
      var w :| w in inventory && InStay(w, roomId, checkIn, checkOut);
      assert w in stay;
      Ok(Availability(rooms[roomId].roomType, checkIn, checkOut, CalculateNights(checkIn, checkOut),
                      |stay|, AllAvailable(inventory, roomId, checkIn, checkOut)))
  }

  /** A booking is possible exactly when the availability check reports the room available
      and the grade may take it. */
  lemma BookableIffAvailable(rooms: map<int, Room>, inventory: map<Slot, int>, hotelId: int, roomId: int,
                             checkIn: int, checkOut: int, grade: string)
    ensures BookGuard(rooms, inventory, hotelId, roomId, checkIn, checkOut, grade).Ok? <==>
      CheckAvailability(rooms, inventory, hotelId, roomId, checkIn, checkOut).Ok?
      && CheckAvailability(rooms, inventory, hotelId, roomId, checkIn, checkOut).value.isAvailable
      && (SingleOccupancyAllowed(grade) || rooms[roomId].isTwinSharing)
  {
  }

  datatype CancelReply = CancelReply(message: string, reference: string, status: string)

  /** The hotel database: rooms, per-day inventory and bookings by reference. */
  class HotelDb {
    var rooms: map<int, Room>
    var inventory: map<Slot, int>
    var bookings: map<string, Booking>

    constructor (rooms0: map<int, Room>, inventory0: map<Slot, int>)
      ensures rooms == rooms0 && inventory == inventory0 && bookings == map[]
    {
      rooms := rooms0;
      inventory := inventory0;
      bookings := map[];
    }

    /** `book_hotel`: on a guard failure nothing is written; otherwise a confirmed booking
        is stored under the generated reference and the stay's inventory goes down by one. */
    method BookHotel(hotelId: int, roomId: int, checkIn: int, checkOut: int, guestName: string,
                     guestEmail: string, grade: string, guestCount: int, reference: string)
      returns (r: Result<Confirmation, string>)
      modifies this
      ensures rooms == old(rooms)
      ensures BookGuard(old(rooms), old(inventory), hotelId, roomId, checkIn, checkOut, grade).Err? ==>
        r == Err(BookGuard(old(rooms), old(inventory), hotelId, roomId, checkIn, checkOut, grade).error)
        && inventory == old(inventory) && bookings == old(bookings)
      ensures BookGuard(old(rooms), old(inventory), hotelId, roomId, checkIn, checkOut, grade).Ok? ==>
        var room := old(rooms)[roomId];
        var nights := CalculateNights(checkIn, checkOut);
        r == Ok(Confirmation(reference, "confirmed", hotelId, roomId, room.roomType, checkIn, checkOut, nights,
                             guestName, guestEmail, grade, guestCount, !SingleOccupancyAllowed(grade)))
        && inventory == Decrement(old(inventory), roomId, checkIn, checkOut)
        && bookings == old(bookings)[reference := Booking(hotelId, roomId, checkIn, checkOut, nights, guestName,
                                                          guestCount, "confirmed", room.isTwinSharing)]
    {
      var guard := BookGuard(rooms, inventory, hotelId, roomId, checkIn, checkOut, grade);
      if guard.Err? {
        return Err(guard.error);
      }
      var room := guard.value;
      var nights := CalculateNights(checkIn, checkOut);
      bookings := bookings[reference := Booking(hotelId, roomId, checkIn, checkOut, nights, guestName,
                                                guestCount, "confirmed", room.isTwinSharing)];
      inventory := Decrement(inventory, roomId, checkIn, checkOut);
      r := Ok(Confirmation(reference, "confirmed", hotelId, roomId, room.roomType, checkIn, checkOut, nights,
                           guestName, guestEmail, grade, guestCount, !SingleOccupancyAllowed(grade)));
    }

    /** `cancel_booking`: an unknown or already cancelled booking is refused; otherwise it is
        marked cancelled and the stay's inventory goes back up by one. The email is not checked. */
    method CancelBooking(reference: string, guestEmail: string) returns (r: Result<CancelReply, string>)
      modifies this
      ensures rooms == old(rooms)
      ensures reference !in old(bookings) ==>
        r == Err("Booking not found") && inventory == old(inventory) && bookings == old(bookings)
      ensures reference in old(bookings) && old(bookings)[reference].status == "cancelled" ==>
        r == Err("Booking already cancelled") && inventory == old(inventory) && bookings == old(bookings)
      ensures reference in old(bookings) && old(bookings)[reference].status != "cancelled" ==>
        var b := old(bookings)[reference];
        r == Ok(CancelReply("Booking cancelled successfully", reference, "cancelled"))
        && bookings == old(bookings)[reference := b.(status := "cancelled")]
        && inventory == Restore(old(inventory), b.roomId, b.checkIn, b.checkOut)
    {
      if reference !in bookings {
        return Err("Booking not found");
      }
      var b := bookings[reference];
      if b.status == "cancelled" {
        return Err("Booking already cancelled");
      }
      bookings := bookings[reference := b.(status := "cancelled")];
      inventory := Restore(inventory, b.roomId, b.checkIn, b.checkOut);
      r := Ok(CancelReply("Booking cancelled successfully", reference, "cancelled"));
    }
  }

  /** Booking a room and then cancelling that booking leaves the inventory as it was. */
  method BookThenCancel(db: HotelDb, hotelId: int, roomId: int, checkIn: int, checkOut: int, guestName: string,
                        guestEmail: string, grade: string, reference: string)
    returns (booked: Result<Confirmation, string>, cancelled: Result<CancelReply, string>)
    requires reference !in db.bookings
    modifies db
    ensures booked.Ok? ==> cancelled.Ok? && db.inventory == old(db.inventory)
    ensures booked.Err? ==> db.inventory == old(db.inventory)
  {
    booked := db.BookHotel(hotelId, roomId, checkIn, checkOut, guestName, guestEmail, grade, 1, reference);
    cancelled := db.CancelBooking(reference, guestEmail);
    if booked.Ok? {
      RestoreUndoesDecrement(old(db.inventory), roomId, checkIn, checkOut);
    }
  }

  // ---- search_hotels ----

  const PreferredOnlyClause: string := " AND h.is_preferred_vendor = TRUE"
  const WomenOnlyClause: string := " AND (r.women_only = TRUE OR h.is_women_centric = TRUE)"
  const TwinOnlyClause: string := " AND r.is_twin_sharing = TRUE"
  const MaxPriceClause: string := " AND (r.base_price * (1 - h.corporate_discount_percent/100)) <= %s"

  /** The filters `search_hotels` appends to its query, in order; `if max_price:` skips 0. */
  function SearchClauses(preferredOnly: bool, womenOnly: bool, grade: string, maxPrice: Option<real>): seq<string> {
    (if preferredOnly then [PreferredOnlyClause] else [])
    + (if womenOnly then [WomenOnlyClause] else [])
    + (if !SingleOccupancyAllowed(grade) then [TwinOnlyClause] else [])
    + (if maxPrice.Some? && maxPrice.value != 0.0 then [MaxPriceClause] else [])
  }

  /** The search keeps to twin-sharing rooms exactly for the grades without single occupancy. */
  lemma TwinFilterIffNoSingleOccupancy(preferredOnly: bool, womenOnly: bool, grade: string, maxPrice: Option<real>)
    ensures TwinOnlyClause in SearchClauses(preferredOnly, womenOnly, grade, maxPrice) <==> !SingleOccupancyAllowed(grade)
  {
    assert |TwinOnlyClause| != |PreferredOnlyClause| && |TwinOnlyClause| != |WomenOnlyClause|
      && |TwinOnlyClause| != |MaxPriceClause|;
  }

  /** The hotel columns of a search result row. */
  datatype HotelInfo = HotelInfo(hotelId: int, name: string, city: string, country: string,
                                 starRating: int, isPreferredVendor: bool)

  /** A row of the search query: one room of one hotel with its minimum availability. */
  datatype SearchRow = SearchRow(hotel: HotelInfo, roomId: int, roomType: string, isTwinSharing: bool,
                                 minAvailability: int)

  datatype RoomOffer = RoomOffer(roomId: int, roomType: string, isTwinSharing: bool, minAvailability: int, nights: int)

  datatype HotelResult = HotelResult(hotel: HotelInfo, rooms: seq<RoomOffer>)

  function OfferOf(row: SearchRow, nights: int): RoomOffer {
    RoomOffer(row.roomId, row.roomType, row.isTwinSharing, row.minAvailability, nights)
  }

  /** The hotel ids of the rows, each once, in order of first appearance. */
  function HotelIds(rows: seq<SearchRow>): (ids: seq<int>)
    ensures forall i, j :: 0 <= i < j < |ids| ==> ids[i] != ids[j]
    ensures forall h :: h in ids <==> exists i :: 0 <= i < |rows| && rows[i].hotel.hotelId == h
  {
    if rows == [] then []
    else
      var init := rows[..|rows| - 1];
      assert forall i :: 0 <= i < |init| ==> init[i] == rows[i];
      var h := rows[|rows| - 1].hotel.hotelId;
      if h in HotelIds(init) then HotelIds(init) else HotelIds(init) + [h]
  }

  /** The offers of hotel `h`, in row order. */
  function RoomsOf(rows: seq<SearchRow>, h: int, nights: int): (offers: seq<RoomOffer>)
    ensures |offers| <= |rows|
  {
    if rows == [] then []
    else
      var last := rows[|rows| - 1];
      RoomsOf(rows[..|rows| - 1], h, nights) + (if last.hotel.hotelId == h then [OfferOf(last, nights)] else [])
  }

  /** The hotel columns of hotel `h`'s first row. */
  function FirstInfo(rows: seq<SearchRow>, h: int): (info: HotelInfo)
    requires h in HotelIds(rows)
    ensures info.hotelId == h
  {
    var init := rows[..|rows| - 1];
    if h in HotelIds(init) then FirstInfo(init, h) else rows[|rows| - 1].hotel
  }

  /** The columns `FirstInfo` picks are those of the hotel's first row. */
  lemma {:induction false} FirstInfoIsFirstRow(rows: seq<SearchRow>, h: int)
    requires h in HotelIds(rows)
    ensures exists i :: 0 <= i < |rows| && rows[i].hotel == FirstInfo(rows, h) &&
                        forall j :: 0 <= j < i ==> rows[j].hotel.hotelId != h
  {
    var init := rows[..|rows| - 1];
    assert forall i :: 0 <= i < |init| ==> init[i] == rows[i];
    if h in HotelIds(init) {
      FirstInfoIsFirstRow(init, h);
      var i :| 0 <= i < |init| && init[i].hotel == FirstInfo(init, h) &&
               forall j :: 0 <= j < i ==> init[j].hotel.hotelId != h;
      assert rows[i].hotel == FirstInfo(rows, h);
    } else {
      assert rows[|rows| - 1].hotel == FirstInfo(rows, h);
    }
  }

  /** The result of the grouping loop, as a function of the rows. */
  function Grouped(rows: seq<SearchRow>, nights: int): (hotels: seq<HotelResult>)
    ensures |hotels| == |HotelIds(rows)|
  {
    var ids := HotelIds(rows);
    seq(|ids|, k requires 0 <= k < |ids| => HotelResult(FirstInfo(rows, ids[k]), RoomsOf(rows, ids[k], nights)))
  }

  /** `hotels_found` is the number of distinct hotels among the rows. */
  lemma HotelsFoundCountsHotels(rows: seq<SearchRow>, nights: int)
    ensures |Grouped(rows, nights)| == |set i | 0 <= i < |rows| :: rows[i].hotel.hotelId|
  {
    var ids := HotelIds(rows);
    DistinctCard(ids);
    assert (set x | x in ids) == (set i | 0 <= i < |rows| :: rows[i].hotel.hotelId);
  }

  /** A sequence without repetitions has as many elements as its set. */
  lemma {:induction false} DistinctCard(s: seq<int>)
    requires forall i, j :: 0 <= i < j < |s| ==> s[i] != s[j]
    ensures |set x | x in s| == |s|
  {
    if s != [] {
      var init := s[..|s| - 1];
      DistinctCard(init);
      assert (set x | x in s) == (set x | x in init) + {s[|s| - 1]};
      assert s[|s| - 1] !in init;
    }
  }

  /** The grouping loop of `search_hotels`: an insertion-ordered dictionary from hotel id to
      the hotel's columns and its list of rooms. */
  method GroupByHotel(rows: seq<SearchRow>, nights: int) returns (hotels: seq<HotelResult>)
    ensures hotels == Grouped(rows, nights)
  {
    var order, byId := IndexByHotel(rows, nights);
    hotels := [];
    var k := 0;
    while k < |order|
      invariant 0 <= k <= |order|
      invariant |hotels| == k
      invariant forall j :: 0 <= j < k ==> hotels[j] == Grouped(rows, nights)[j]
    {
      assert order[k] in order;
      hotels := hotels + [byId[order[k]]];
      k := k + 1;
    }
  }

  /** The loop over the rows: the hotel ids in first-appearance order, and per hotel its
      first row's columns and its offers so far. */
  method IndexByHotel(rows: seq<SearchRow>, nights: int) returns (order: seq<int>, byId: map<int, HotelResult>)
    ensures order == HotelIds(rows)
    ensures forall h :: h in byId <==> h in order
    ensures forall h :: h in byId ==> byId[h] == HotelResult(FirstInfo(rows, h), RoomsOf(rows, h, nights))
  {
    order := [];
    byId := map[];
    var i := 0;
    while i < |rows|
      invariant 0 <= i <= |rows|
      invariant order == HotelIds(rows[..i])
      invariant forall h :: h in byId <==> h in order
      invariant forall h :: h in byId ==>
        byId[h] == HotelResult(FirstInfo(rows[..i], h), RoomsOf(rows[..i], h, nights))
    {
      GroupStep(rows, i, nights);
      ghost var prev := byId;
      var row := rows[i];
      var h := row.hotel.hotelId;
      if h !in byId {
        byId := byId[h := HotelResult(row.hotel, [])];
        order := order + [h];
      }
      byId := byId[h := byId[h].(rooms := byId[h].rooms + [OfferOf(row, nights)])];
      forall g | g in byId
        ensures byId[g] == HotelResult(FirstInfo(rows[..i + 1], g), RoomsOf(rows[..i + 1], g, nights))
      {
        if g != h {
          assert g in prev && byId[g] == prev[g];
          assert RoomsOf(rows[..i + 1], g, nights) == RoomsOf(rows[..i], g, nights) + [];
        } else if h !in prev {
          NoRoomsOfAbsentHotel(rows[..i], h, nights);
        }
      }
      i := i + 1;
    }
    assert rows[..i] == rows;
  }

  /** A hotel without rows has no offers. */
  lemma {:induction false} NoRoomsOfAbsentHotel(rows: seq<SearchRow>, h: int, nights: int)
    requires h !in HotelIds(rows)
    ensures RoomsOf(rows, h, nights) == []
  {
    if rows != [] {
      var init := rows[..|rows| - 1];
      assert forall i :: 0 <= i < |init| ==> init[i] == rows[i];
      assert rows[|rows| - 1].hotel.hotelId != h;
      NoRoomsOfAbsentHotel(init, h, nights);
    }
  }

  /** How one more row extends the ids, the offers and the first rows. */
  lemma GroupStep(rows: seq<SearchRow>, i: int, nights: int)
    requires 0 <= i < |rows|
    ensures var h := rows[i].hotel.hotelId;
      HotelIds(rows[..i + 1]) == (if h in HotelIds(rows[..i]) then HotelIds(rows[..i]) else HotelIds(rows[..i]) + [h])
    ensures forall g :: (RoomsOf(rows[..i + 1], g, nights) ==
      RoomsOf(rows[..i], g, nights) + (if rows[i].hotel.hotelId == g then [OfferOf(rows[i], nights)] else []))
    ensures forall g :: g in HotelIds(rows[..i]) ==> FirstInfo(rows[..i + 1], g) == FirstInfo(rows[..i], g)
    ensures rows[i].hotel.hotelId !in HotelIds(rows[..i]) ==>
      FirstInfo(rows[..i + 1], rows[i].hotel.hotelId) == rows[i].hotel
  {
    assert rows[..i + 1][..i] == rows[..i];
  }
}
