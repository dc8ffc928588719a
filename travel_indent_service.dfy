/** `TravelIndentService` of src/api/services/travel_indent_service.py: the
    HR-facing reads of `travel_indents` and the status update with its
    manager-before-HR gate. */
module TravelIndentService {
  import opened Wrappers
  import opened Text
  import opened Lists
  import opened IndentStatus
  import opened TravelQueries

  const ManagerApprovalMessage: string := "Manager approval required before HR can approve or book this ticket."

  /** `COALESCE(is_approved, 'pending')`: only NULL is replaced; an empty string stays empty. */
  function Coalesce(raw: Option<string>): (r: string)
    ensures raw.None? ==> r == "pending"
    ensures raw.Some? ==> r == raw.value
  {
    if raw.Some? then raw.value else "pending"
  }

  /** The ten raw values the HR dashboard query lists. */
  const ListedStatuses: set<string> :=
    {"pending", "manager_pending", "pending_manager", "submitted",
     "accepted_manager", "accpeted_manager", "manager_approved",
     "hr_approved", "completed_hr", "booked"}

  /** Every HR-eligible status is listed, and so is a fresh submission; drafts and rejections are not. */
  lemma ListedStatusesCover()
    ensures HrEligible <= ListedStatuses
    ensures "pending" in ListedStatuses
    ensures DuplicateSafe * ListedStatuses == {}
  {
    HrEligibleMembers();
  }

  /** The projection `get_by_id` returns. */
  datatype IndentView = IndentView(
    indentId: string, employeeId: string, profile: Profile, trip: Trip,
    totalDays: Option<int>, isApproved: Option<string>, createdAt: int)

  function ViewOf(ind: Indent): IndentView {
    IndentView(ind.indentId, ind.employeeId, ind.profile, ind.trip, ind.totalDays, ind.isApproved, ind.createdAt)
  }

  /** `get_by_id`: None for an unknown id, otherwise the stored columns of that row. */
  function GetById(indents: map<string, Indent>, id: string): (r: Option<IndentView>)
    ensures r.None? <==> id !in indents
    ensures r.Some? ==> r.value.employeeId == indents[id].employeeId && r.value.trip == indents[id].trip
                        && r.value.isApproved == indents[id].isApproved
  {
    if id in indents then Some(ViewOf(indents[id])) else None
  }

  /** A row of `get_all`: the columns plus `status` and `status_code`, both the coalesced raw status. */
  datatype HrRow = HrRow(
    indentId: string, employeeId: string, profile: Profile, trip: Trip, totalDays: Option<int>,
    isApproved: Option<string>, status: string, statusCode: string, createdAt: int)

  function HrRowOf(ind: Indent): HrRow {
    var code := Coalesce(ind.isApproved);
    HrRow(ind.indentId, ind.employeeId, ind.profile, ind.trip, ind.totalDays, ind.isApproved, code, code, ind.createdAt)
  }

  predicate IsListed(ind: Indent) {
    Coalesce(ind.isApproved) in ListedStatuses
  }

  /** The WHERE clause of `get_all`, applied to the rows in the order the database returns them. */
  function Listed(rows: seq<Indent>): (r: seq<Indent>)
    ensures |r| <= |rows|
    ensures forall i :: 0 <= i < |r| ==> IsListed(r[i])
    ensures forall x :: x in r <==> x in rows && IsListed(x)
  {
    if rows == [] then []
    else
      var rest := Listed(rows[..|rows| - 1]);
      var last := rows[|rows| - 1];
      assert rows == rows[..|rows| - 1] + [last];
      if IsListed(last) then rest + [last] else rest
  }

  predicate NewestFirst(rows: seq<Indent>) {
    forall i, j :: 0 <= i < j < |rows| ==> rows[i].createdAt >= rows[j].createdAt
  }

  /** The WHERE clause keeps the `ORDER BY created_at DESC` order. */
  lemma {:induction false} ListedKeepsOrder(rows: seq<Indent>)
    requires NewestFirst(rows)
    ensures NewestFirst(Listed(rows))
  {
    if rows != [] {
      var init := rows[..|rows| - 1];
      var last := rows[|rows| - 1];
      assert NewestFirst(init);
      ListedKeepsOrder(init);
      var rest := Listed(init);
      if IsListed(last) {
        forall i | 0 <= i < |rest|
          ensures rest[i].createdAt >= last.createdAt
        {
          assert rest[i] in init;
        }
        assert Listed(rows) == rest + [last];
      }
    }
  }

  /** `get_all`: the rows the query selected, projected one by one in order. */
  method GetAll(rows: seq<Indent>) returns (result: seq<HrRow>)
    ensures result == Map(HrRowOf, Listed(rows))
  {
    var selected := Listed(rows);
    result := [];
    var i := 0;
    while i < |selected|
      invariant 0 <= i <= |selected|
      invariant result == Map(HrRowOf, selected[..i])
    {
      MapStep(HrRowOf, selected, i);
      result := result + [HrRowOf(selected[i])];
      i := i + 1;
    }
    MapAll(HrRowOf, selected);
  }

  /** Every row `get_all` returns carries a listed status, in both `status` and `status_code`. */
  lemma GetAllRows(rows: seq<Indent>, i: int)
    requires 0 <= i < |Listed(rows)|
    ensures Map(HrRowOf, Listed(rows))[i].status == Map(HrRowOf, Listed(rows))[i].statusCode
    ensures Map(HrRowOf, Listed(rows))[i].statusCode in ListedStatuses
    ensures Map(HrRowOf, Listed(rows))[i].indentId == Listed(rows)[i].indentId
  {
    MapAt(HrRowOf, Listed(rows), i);
  }

  /** What `update_status` decides before writing. */
  function StatusGate(indents: map<string, Indent>, id: string, status: string): (r: Result<bool, string>)
    ensures r == Ok(false) <==> id !in indents
    ensures r.Err? <==> (id in indents && NormalizeText(status) in HrAction
                         && StatusCode(indents[id].isApproved) !in HrEligible)
    ensures r.Err? ==> r.error == ManagerApprovalMessage
  {
    if id !in indents then Ok(false)
    else if NormalizeText(status) in HrAction && StatusCode(indents[id].isApproved) !in HrEligible then
      Err(ManagerApprovalMessage)
    else Ok(true)
  }

  /** `update_status`: False for an unknown id, the gate for HR statuses, otherwise the
      caller's raw `status` is written and True (one row updated) is returned. */
  method UpdateStatus(db: TravelDb, id: string, status: string, now: int) returns (r: Result<bool, string>)
    requires db.Valid()
    modifies db
    ensures db.Valid()
    ensures db.users == old(db.users) && db.bookmarks == old(db.bookmarks)
    ensures r == StatusGate(old(db.indents), id, status)
    ensures r == Ok(true) ==> db.indents == SetStatus(old(db.indents), id, status, now)
    ensures r != Ok(true) ==> db.indents == old(db.indents)
  {
    r := StatusGate(db.indents, id, status);
    if r == Ok(true) {
      SetStatusKeepsIds(db.indents, id, status, now);
      db.indents := SetStatus(db.indents, id, status, now);
    }
  }

  /** A status outside the HR actions is written whatever the current status is. */
  lemma NoOtherTransitionGuard(indents: map<string, Indent>, id: string, status: string)
    requires id in indents && NormalizeText(status) !in HrAction
    ensures StatusGate(indents, id, status) == Ok(true)
  {
  }

  /** `booked` is refused on a fresh submission, whose status is still NULL. */
  lemma BookedRefusedWhilePending(indents: map<string, Indent>, id: string)
    requires id in indents && indents[id].isApproved.None?
    ensures StatusGate(indents, id, "booked") == Err(ManagerApprovalMessage)
  {
    NormalizeFixed("booked");
    HrEligibleMembers();
  }

  /** `booked` is accepted once the manager approval has been recorded. */
  lemma BookedAfterManager(indents: map<string, Indent>, id: string, now: int)
    requires id in indents
    ensures StatusGate(SetStatus(indents, id, "accepted_manager", now), id, "booked") == Ok(true)
  {
    CodeOfNormal("accepted_manager");
    HrEligibleMembers();
  }
}
