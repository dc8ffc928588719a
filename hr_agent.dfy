/** `HRAgent.handle_message` of src/agents/hr_agent.py: a chain of tests on the
    trimmed, lower-cased message that dispatches to the travel-indent queries. */
module HrAgent {
  import opened Wrappers
  import opened Text
  import opened IndentStatus
  import opened TravelQueries

  const DetailsUsage: string := "usage: details <INDENT_ID>"
  const ApproveUsage: string := "usage: approve <INDENT_ID>"
  const HrHelp: string := "Commands: 'list pending', 'details <INDENT>', 'approve <INDENT>'"

  /** What the message asks for. */
  datatype HrCommand =
    | ListPending
    | Details(indentId: string)
    | Approve(indentId: string)
    | Usage(message: string)
    | Help

  /** `"list" in text and "pending" in text` on the normalised message. */
  predicate AsksForList(message: string) {
    Contains(NormalizeText(message), "list") && Contains(NormalizeText(message), "pending")
  }

  /** The dispatch chain: the list test first, then the `details` and `approve` prefixes,
      whose indent id is the second whitespace token of the original message. */
  function ParseHr(message: string): (c: HrCommand)
    ensures c.ListPending? <==> AsksForList(message)
    ensures c.Details? || c.Approve? ==> SecondToken(message) == Some(c.indentId) && IsWord(c.indentId)
    ensures c.Details? ==> StartsWith(NormalizeText(message), "details")
    ensures c.Approve? ==> StartsWith(NormalizeText(message), "approve")
    ensures c.Usage? ==> SecondToken(message).None? && (c.message == DetailsUsage || c.message == ApproveUsage)
    ensures c.Help? <==> (!AsksForList(message) && !StartsWith(NormalizeText(message), "details")
                          && !StartsWith(NormalizeText(message), "approve"))
  {
    var text := NormalizeText(message);
    if Contains(text, "list") && Contains(text, "pending") then ListPending
    else if StartsWith(text, "details") then
      match SecondToken(message)
      case Some(id) => Details(id)
      case None => Usage(DetailsUsage)
    else if StartsWith(text, "approve") then
      match SecondToken(message)
      case Some(id) => Approve(id)
      case None => Usage(ApproveUsage)
    else Help
  }

  /** The dictionaries `handle_message` returns; the two reads are named by what they look up. */
  datatype HrReply =
    | PendingHrTickets
    | EmployeeByIndent(indentId: string)
    | ApprovedAndBooked(flight: FlightBooking, hotel: HotelBooking)
    | Error(message: string)
    | HelpText(text: string)

  /** `handle_message`: `approve X` runs the HR approval, then `book_flight`, then `book_hotel`;
      a gate failure becomes an error reply and nothing is booked. */
  method HandleMessage(db: TravelDb, hrId: string, message: string, now: int) returns (reply: HrReply)
    requires db.Valid()
    modifies db
    ensures db.Valid()
    ensures db.users == old(db.users) && db.bookmarks == old(db.bookmarks)
    ensures !ParseHr(message).Approve? ==> db.indents == old(db.indents)
    ensures ParseHr(message) == ListPending ==> reply == PendingHrTickets
    ensures ParseHr(message).Details? ==> reply == EmployeeByIndent(ParseHr(message).indentId)
    ensures ParseHr(message).Usage? ==> reply == Error(ParseHr(message).message)
    ensures ParseHr(message) == Help ==> reply == HelpText(HrHelp)
    ensures ParseHr(message).Approve? ==>
      var id := ParseHr(message).indentId;
      (RequireManagerApproval(old(db.indents), id).Err? ==>
         reply == Error(RequireManagerApproval(old(db.indents), id).error) && db.indents == old(db.indents))
      && (RequireManagerApproval(old(db.indents), id).Ok? ==>
         reply == ApprovedAndBooked(FlightStub(id), BookHotel(id))
         && db.indents == SetStatus(SetStatus(old(db.indents), id, "hr_approved", now), id, "booked", now))
    ensures reply.ApprovedAndBooked? ==>
      ParseHr(message).Approve? && RequireManagerApproval(old(db.indents), ParseHr(message).indentId).Ok?
      && ParseHr(message).indentId in db.indents
      && db.indents[ParseHr(message).indentId].isApproved == Some("booked")
  {
    var command := ParseHr(message);
    match command {
      case ListPending => reply := PendingHrTickets;
      case Details(id) => reply := EmployeeByIndent(id);
      case Usage(usage) => reply := Error(usage);
      case Help => reply := HelpText(HrHelp);
      case Approve(id) =>
        var approved := db.ApproveHrTicket(id, hrId, None, now);
        if approved.Err? {
          return Error(approved.error);
        }
        GateOpenAfterHrApproval(old(db.indents), id, now);
        var flight := db.BookFlight(id, now);
        assert flight.Ok?;
        reply := ApprovedAndBooked(flight.value, BookHotel(id));
    }
  }
}
