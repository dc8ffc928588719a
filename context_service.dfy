/** `build_context_message` of src/api/services/context_service.py: the user's
    chat message, prefixed with the bound indent's details when there is one. */
module ContextService {
  import opened Wrappers
  import opened Text
  import opened TravelQueries
  import opened TravelIndentService

  /** `f"{x}"` of a nullable text column. */
  function Shown(v: Option<string>): string {
    if v.Some? then v.value else "None"
  }

  /** `f"{x}"` of a nullable integer column. */
  function ShownInt(v: Option<int>): string {
    if v.Some? then IntToString(v.value) else "None"
  }

  /** The display names of `status_mapping`; both spellings of the manager approval share one. */
  const StatusDisplayNames: map<string, string> := map[
    "saved" := "Saved by Employee",
    "pending" := "Pending Manager Approval",
    "rejected_manager" := "Rejected by Manager",
    "accpeted_manager" := "Approved by Manager",
    "accepted_manager" := "Approved by Manager",
    "rejected_hr" := "Rejected by HR",
    "completed_hr" := "Completed by HR"]

  /** `status_mapping.get(is_approved, is_approved)`: the display name, or the raw value. */
  function StatusDisplay(isApproved: Option<string>): (r: string)
    ensures isApproved == Some("accepted_manager") || isApproved == Some("accpeted_manager") ==>
      r == "Approved by Manager"
    ensures isApproved.Some? && isApproved.value !in StatusDisplayNames ==> r == isApproved.value
    ensures isApproved.None? ==> r == "None"
  {
    if isApproved.Some? && isApproved.value in StatusDisplayNames then StatusDisplayNames[isApproved.value]
    else Shown(isApproved)
  }

  /** The statuses of the HR and booking steps have no display name and are shown raw. */
  lemma LaterStatusesShownRaw()
    ensures StatusDisplay(Some("hr_approved")) == "hr_approved"
    ensures StatusDisplay(Some("booked")) == "booked"
    ensures StatusDisplay(Some("draft")) == "draft"
    ensures StatusDisplay(Some("manager_approved")) == "manager_approved"
  {
    assert "hr_approved" !in StatusDisplayNames;
    assert "booked" !in StatusDisplayNames;
    assert "draft" !in StatusDisplayNames;
    assert "manager_approved" !in StatusDisplayNames;
  }

  function EmployeeBlock(v: IndentView): seq<string> {
    ["\U{1F4CB} **EMPLOYEE INFORMATION:**",
     "\U{1F464} Name: " + v.profile.name,
     "\U{1F194} ID: " + v.employeeId,
     "\U{1F4CA} Grade: " + v.profile.grade,
     "\U{1F4BC} Designation: " + v.profile.designation,
     "\U{1F3E2} Department: " + v.profile.department,
     "\U{1F4E7} Email: " + v.profile.email,
     ""]
  }

  function TravelBlock(v: IndentView): seq<string> {
    ["\U{1F30D} **TRAVEL INFORMATION:**",
     "\U{1F3AB} Type: " + v.trip.travelType,
     "\U{1F6EB} From: " + v.trip.fromCity + ", " + v.trip.fromCountry,
     "\U{1F6EC} To: " + v.trip.toCity + ", " + v.trip.toCountry,
     "\U{1F4C5} Start: " + v.trip.startDate,
     "\U{1F4C5} End: " + v.trip.endDate,
     "\U{1F4DD} Purpose: " + v.trip.purpose,
     "\U{1F3AB} Ticket ID: " + v.indentId,
     "\U{1F4C5} Total Days: " + ShownInt(v.totalDays),
     ""]
  }

  function StatusBlock(v: IndentView): seq<string> {
    ["✅ **APPROVAL STATUS:**",
     "Status: " + StatusDisplay(v.isApproved),
     ""]
  }

  /** The three blocks and the separator line that precede the request. */
  function ContextLines(v: IndentView): seq<string> {
    EmployeeBlock(v) + TravelBlock(v) + StatusBlock(v) + ["---"]
  }

  const RequestLabel: string := "**USER REQUEST:** "

  /** `build_context_message`: the message itself when no indent is bound, otherwise the
      context lines and the labelled request joined by newlines. */
  function BuildContextMessage(message: string, indent: Option<IndentView>): (r: string)
    ensures indent.None? ==> r == message
  {
    if indent.None? then message
    else Join("\n", ContextLines(indent.value) + [RequestLabel + message])
  }

  /** With an indent bound, the message is the joined context, a newline, the label and the
      user's own text, which therefore ends the result. */
  lemma EndsWithRequest(message: string, v: IndentView)
    ensures BuildContextMessage(message, Some(v)) == Join("\n", ContextLines(v)) + "\n" + RequestLabel + message
    ensures |message| <= |BuildContextMessage(message, Some(v))|
    ensures BuildContextMessage(message, Some(v))[|BuildContextMessage(message, Some(v))| - |message|..] == message
  {
    JoinSnoc("\n", ContextLines(v), RequestLabel + message);
    var prefix := Join("\n", ContextLines(v)) + "\n" + RequestLabel;
    assert BuildContextMessage(message, Some(v)) == prefix + message;
  }

  /** The status line sits in the status block and shows the display name of the raw status. */
  lemma StatusLineShown(v: IndentView)
    ensures |ContextLines(v)| == 22
    ensures ContextLines(v)[19] == "Status: " + StatusDisplay(v.isApproved)
    ensures ContextLines(v)[21] == "---"
  {
  }
}
