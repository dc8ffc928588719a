/** src/workflow/workflow_engine.py: the manager and HR steps of the workflow,
    written as straight-line calls into the travel-indent table. */
module WorkflowEngine {
  import opened Wrappers
  import opened IndentStatus
  import opened TravelQueries
  import opened PyCalls

  /** The bookings `hr_approve_and_book` adds when it books. */
  datatype Bookings = Bookings(flight: FlightBooking, hotel: HotelBooking)

  /** The dictionaries the workflow returns. */
  datatype WorkflowResult =
    | Blocked(indentId: string, reason: string)
    | HrApproved(indentId: string, bookings: Option<Bookings>)
    | ManagerApproved(indentId: string)

  /** `hr_approve_and_book`: a gate failure is reported as BLOCKED and nothing is booked;
      otherwise the indent is HR-approved and, when `doBooking`, the flight is booked
      and then the hotel. */
  method HrApproveAndBook(db: TravelDb, indentId: string, hrId: string, comments: Option<string>,
                          doBooking: bool, now: int)
    returns (res: WorkflowResult)
    requires db.Valid()
    modifies db
    ensures db.Valid()
    ensures db.users == old(db.users) && db.bookmarks == old(db.bookmarks)
    ensures RequireManagerApproval(old(db.indents), indentId).Err? ==>
      res == Blocked(indentId, RequireManagerApproval(old(db.indents), indentId).error)
      && db.indents == old(db.indents)
    ensures RequireManagerApproval(old(db.indents), indentId).Ok? && !doBooking ==>
      res == HrApproved(indentId, None)
      && db.indents == SetStatus(old(db.indents), indentId, "hr_approved", now)
    ensures RequireManagerApproval(old(db.indents), indentId).Ok? && doBooking ==>
      res == HrApproved(indentId, Some(Bookings(FlightStub(indentId), BookHotel(indentId))))
      && db.indents == SetStatus(SetStatus(old(db.indents), indentId, "hr_approved", now), indentId, "booked", now)
  {
    var approved := db.ApproveHrTicket(indentId, hrId, comments, now);
    if approved.Err? {
      return Blocked(indentId, approved.error);
    }
    if !doBooking {
      return HrApproved(indentId, None);
    }
    GateOpenAfterHrApproval(old(db.indents), indentId, now);
    var flight := db.BookFlight(indentId, now);
    assert flight.Ok?;
    var hotel := BookHotel(indentId);
    res := HrApproved(indentId, Some(Bookings(flight.value, hotel)));
  }

  /** After the approval and the flight booking, the indent reads as booked and stays HR-eligible. */
  lemma ApprovedAndBookedEndsBooked(indents: map<string, Indent>, id: string, now: int)
    requires id in indents
    ensures StatusCode(SetStatus(SetStatus(indents, id, "hr_approved", now), id, "booked", now)[id].isApproved) == "booked"
    ensures "booked" in HrEligible
  {
    CodeOfNormal("booked");
    HrEligibleMembers();
  }

  /** `manager_approve` as written: it passes three arguments to the one-parameter
      `approve_manager_ticket`, so the call raises before anything is written. */
  function ManagerApproveAsWritten(indentId: string, managerId: string, comments: Option<string>): (r: Call<WorkflowResult>)
    ensures r.Raised?
  {
    match Bind(ApproveManagerTicket, 1, 1, 3)
    case Raised(kind, message) => Raised(kind, message)
    case Returned(_) => Returned(ManagerApproved(indentId))
  }

  /** The report `manager_approve` was written to give never comes back. */
  lemma ManagerApproveNeverReports(indentId: string, managerId: string, comments: Option<string>)
    ensures ManagerApproveAsWritten(indentId, managerId, comments)
      == Raised("TypeError", TooManyArguments(ApproveManagerTicket, 1, 3))
  {
  }

  /** `manager_approve` with a call that fits the callee: the manager approval is recorded
      and MANAGER_APPROVED is reported for the given indent. */
  method ManagerApprove(db: TravelDb, indentId: string, managerId: string, comments: Option<string>, now: int)
    returns (res: WorkflowResult)
    requires db.Valid()
    modifies db
    ensures db.Valid()
    ensures db.users == old(db.users) && db.bookmarks == old(db.bookmarks)
    ensures res == ManagerApproved(indentId)
    ensures db.indents == SetStatus(old(db.indents), indentId, "accepted_manager", now)
  {
    var _ := db.ApproveIndentManager(indentId, now);
    res := ManagerApproved(indentId);
  }

  /** After the corrected manager step, the HR step is not blocked. */
  lemma ManagerThenHrNotBlocked(indents: map<string, Indent>, id: string, now: int)
    requires id in indents
    ensures RequireManagerApproval(SetStatus(indents, id, "accepted_manager", now), id).Ok?
  {
    GateOpensAfterManagerApproval(indents, id, now);
  }
}
