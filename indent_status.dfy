/** The status vocabulary of a travel indent (`travel_indents.is_approved`) and
    the pure helpers of src/db/travel_queries.py that read it. */
module IndentStatus {
  import opened Wrappers
  import opened Text
  import opened Lists

  /** Statuses whose newest matching indent does not block a new submission. */
  const DuplicateSafe: set<string> :=
    {"draft", "rejected", "rejected_manager", "rejected_hr", "declined", "cancelled"}

  /** Statuses that mean "a manager approved"; `accpeted_manager` is a misspelling kept on purpose. */
  const ManagerApproved: set<string> := {"accepted_manager", "accpeted_manager", "manager_approved"}

  /** Statuses HR itself writes. */
  const HrAction: set<string> := {"hr_approved", "completed_hr", "booked"}

  /** Statuses from which HR may approve or book. */
  const HrEligible: set<string> := ManagerApproved + HrAction

  lemma HrEligibleMembers()
    ensures HrEligible ==
      {"accepted_manager", "accpeted_manager", "manager_approved", "hr_approved", "completed_hr", "booked"}
    ensures HrEligible * DuplicateSafe == {}
    ensures "pending" !in HrEligible && "draft" !in HrEligible
  {
  }

  lemma PendingIsNormal()
    ensures NormalizeText("pending") == "pending"
  {
    NormalizeFixed("pending");
  }

  lemma CompletedHrIsNormal()
    ensures NormalizeText("completed_hr") == "completed_hr"
  {
    NormalizeFixed("completed_hr");
  }

  lemma DraftIsNormal()
    ensures NormalizeText("draft") == "draft"
  {
    NormalizeFixed("draft");
  }

  /** The normalised status of a row: `(COALESCE(is_approved, 'pending') or "pending").strip().lower()`. */
  function StatusCode(raw: Option<string>): (r: string)
    ensures forall i :: 0 <= i < |r| ==> !('A' <= r[i] <= 'Z')
    ensures raw.None? || raw == Some("") ==> r == "pending"
    ensures raw.Some? && raw.value != [] ==> (r == [] <==> IsBlank(raw.value))
  {
    PendingIsNormal();
    NormalizeTextFacts(Or(raw, "pending"));
    NormalizeText(Or(raw, "pending"))
  }

  /** A status already in normal form reads back unchanged. */
  lemma CodeOfNormal(s: string)
    requires s != [] && !IsSpace(s[0]) && !IsSpace(s[|s| - 1])
    requires forall i :: 0 <= i < |s| ==> !('A' <= s[i] <= 'Z')
    ensures StatusCode(Some(s)) == s
  {
    NormalizeFixed(s);
  }

  /** The status the draft-edit flow tests: there the SQL default is `pending`
      but the Python fallback is `draft`, so NULL and `""` differ. */
  function EditCode(raw: Option<string>): string {
    NormalizeText(if raw.None? then "pending" else Or(raw, "draft"))
  }

  lemma EditableExactly(raw: Option<string>)
    ensures EditCode(raw) == "draft" <==> raw.Some? && (raw.value == "" || NormalizeText(raw.value) == "draft")
    ensures EditCode(None) == "pending"
  {
    PendingIsNormal();
    if raw.None? {
      assert EditCode(raw) == "pending";
      assert |"pending"| != |"draft"|;
    } else if raw.value == "" {
      DraftIsNormal();
    } else {
      assert EditCode(raw) == NormalizeText(raw.value);
    }
  }

  /** The readable label `get_employee_travel_indents` shows beside a status code. */
  function StatusLabel(code: string): string {
    if code == "accepted_manager" then "Approved by manager (Pending HR)"
    else if code in {"completed_hr", "hr_approved", "booked"} then "Completed booking"
    else if code == "rejected_manager" then "Rejected by manager"
    else if code == "rejected_hr" then "Rejected by HR"
    else if code == "draft" then "Draft"
    else if code in {"rejected", "declined"} then "Rejected"
    else "Pending"
  }

  /** The codes the label chain names explicitly. */
  const LabelledCodes: set<string> :=
    {"accepted_manager", "completed_hr", "hr_approved", "booked", "rejected_manager",
     "rejected_hr", "draft", "rejected", "declined"}

  lemma {:induction false} LabelPendingExactly(code: string)
    ensures StatusLabel(code) == "Pending" <==> code !in LabelledCodes
    ensures StatusLabel("accpeted_manager") == "Pending" && StatusLabel("cancelled") == "Pending"
    ensures code in HrAction ==> StatusLabel(code) == "Completed booking"
  {
  }

  /** The status a fresh submission carries reads as "Pending". */
  lemma PendingLabel()
    ensures StatusLabel("pending") == "Pending"
  {
    assert "pending" !in LabelledCodes;
  }

  /** A row as a dictionary of nullable text columns. */
  type Row = map<string, Option<string>>

  /** `row.get(k)` */
  function Get(row: Row, k: string): Option<string> {
    if k in row then row[k] else None
  }

  /** The keys `_inject_status_fields` fills in. */
  const StatusKey: string := "status"
  const StatusCodeKey: string := "status_code"

  /** The status one row exposes: `(row.get("status") or row.get("is_approved") or "pending")`, stripped and lowercased. */
  function RowStatus(row: Row): (r: string)
    ensures Get(row, StatusKey) == Some("") || Get(row, StatusKey).None? ==> r == StatusCode(Get(row, "is_approved"))
    ensures Get(row, StatusKey).Some? && Get(row, StatusKey).value != [] ==> r == NormalizeText(Get(row, StatusKey).value)
  {
    NormalizeText(Or(Get(row, StatusKey), Or(Get(row, "is_approved"), "pending")))
  }

  /** `row.setdefault("status", v)` then `row.setdefault("status_code", v)`. */
  function SetDefaults(row: Row, v: string): Row {
    var withStatus := if StatusKey in row then row else row[StatusKey := Some(v)];
    if StatusCodeKey in withStatus then withStatus else withStatus[StatusCodeKey := Some(v)]
  }

  /** Both keys are present afterwards, existing entries (even NULL ones) are kept and
      a missing key receives `v`. */
  lemma SetDefaultsFacts(row: Row, v: string)
    ensures SetDefaults(row, v).Keys == row.Keys + {StatusKey, StatusCodeKey}
    ensures forall k :: k in row ==> SetDefaults(row, v)[k] == row[k]
    ensures StatusKey !in row ==> SetDefaults(row, v)[StatusKey] == Some(v)
    ensures StatusCodeKey !in row ==> SetDefaults(row, v)[StatusCodeKey] == Some(v)
  {
    assert |StatusKey| == 6 && |StatusCodeKey| == 11;
  }

  /** One row after `_inject_status_fields` filled it in. */
  function InjectRow(row: Row): Row {
    SetDefaults(row, RowStatus(row))
  }

  /** `_inject_status_fields(rows)` */
  method InjectStatusFields(rows: seq<Row>) returns (normalized: seq<Row>)
    ensures normalized == Map(InjectRow, rows)
  {
    normalized := [];
    var i := 0;
    while i < |rows|
      invariant 0 <= i <= |rows|
      invariant normalized == Map(InjectRow, rows[..i])
    {
      MapStep(InjectRow, rows, i);
      normalized := normalized + [InjectRow(rows[i])];
      i := i + 1;
    }
    MapAll(InjectRow, rows);
  }
}
