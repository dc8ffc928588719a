/** `ManagerAgent.handle_message` of src/agents/manager_agent.py: the same kind of
    dispatch chain as the HR agent, with `reject` added. */
module ManagerAgent {
  import opened Wrappers
  import opened Text
  import opened TravelQueries
  import opened PyCalls

  const DetailsUsage: string := "usage: details <INDENT_ID>"
  const ApproveUsage: string := "usage: approve <INDENT_ID>"
  const RejectUsage: string := "usage: reject <INDENT_ID>"
  const ManagerHelp: string := "Commands: 'list pending', 'details <INDENT>', 'approve <INDENT>', 'reject <INDENT>'"

  datatype ManagerCommand =
    | ListPending
    | Details(indentId: string)
    | Approve(indentId: string)
    | Reject(indentId: string)
    | Usage(message: string)
    | Help

  predicate AsksForList(message: string) {
    Contains(NormalizeText(message), "list") && Contains(NormalizeText(message), "pending")
  }

  /** A prefix command: its second token as the id, or the command's usage error. */
  function WithId(message: string, usage: string, make: string -> ManagerCommand): ManagerCommand {
    match SecondToken(message)
    case Some(id) => make(id)
    case None => Usage(usage)
  }

  /** The dispatch chain: list first, then `details`, `approve` and `reject` in that order. */
  function ParseManager(message: string): (c: ManagerCommand)
    ensures c.ListPending? <==> AsksForList(message)
    ensures c.Details? || c.Approve? || c.Reject? ==> SecondToken(message) == Some(c.indentId) && IsWord(c.indentId)
    ensures c.Approve? ==> StartsWith(NormalizeText(message), "approve") && !StartsWith(NormalizeText(message), "details")
    ensures c.Reject? ==> StartsWith(NormalizeText(message), "reject")
    ensures c.Usage? ==> SecondToken(message).None?
    ensures c.Usage? ==> c.message in {DetailsUsage, ApproveUsage, RejectUsage}
    ensures c.Help? <==> (!AsksForList(message) && !StartsWith(NormalizeText(message), "details")
                          && !StartsWith(NormalizeText(message), "approve")
                          && !StartsWith(NormalizeText(message), "reject"))
  {
    var text := NormalizeText(message);
    if Contains(text, "list") && Contains(text, "pending") then ListPending
    else if StartsWith(text, "details") then WithId(message, DetailsUsage, id => Details(id))
    else if StartsWith(text, "approve") then WithId(message, ApproveUsage, id => Approve(id))
    else if StartsWith(text, "reject") then WithId(message, RejectUsage, id => Reject(id))
    else Help
  }

  datatype ManagerReply =
    | PendingManagerTickets(managerId: string)
    | IndentDetails(indentId: string)
    | Approved(indentId: string)
    | Rejected(indentId: string)
    | Error(message: string)
    | HelpText(text: string)

  /** The replies that need no call into the approval functions. */
  function PlainReply(c: ManagerCommand, managerId: string): ManagerReply
    requires !c.Approve? && !c.Reject?
  {
    match c
    case ListPending => PendingManagerTickets(managerId)
    case Details(id) => IndentDetails(id)
    case Usage(usage) => Error(usage)
    case Help => HelpText(ManagerHelp)
  }

  /** `handle_message` as written: `approve` and `reject` pass two arguments to functions
      that take one, so both raise `TypeError` and never reply. */
  function HandleAsWritten(message: string, managerId: string): Call<ManagerReply> {
    RunAsWritten(ParseManager(message), managerId)
  }

  /** The as-written reply to a parsed command. */
  function RunAsWritten(c: ManagerCommand, managerId: string): (r: Call<ManagerReply>)
    ensures r.Returned? ==> !r.value.Approved? && !r.value.Rejected?
  {
    match c
    case Approve(id) =>
      (match Bind(ApproveManagerTicket, 1, 1, 2)
       case Raised(kind, msg) => Raised(kind, msg)
       case Returned(_) => Returned(Approved(id)))
    case Reject(id) =>
      (match Bind(RejectManagerTicket, 1, 1, 2)
       case Raised(kind, msg) => Raised(kind, msg)
       case Returned(_) => Returned(Rejected(id)))
    case _ => Returned(PlainReply(c, managerId))
  }

  /** Every recognised approve or reject command raises instead of replying. */
  lemma ApproveAndRejectAlwaysRaise(c: ManagerCommand, managerId: string)
    ensures c.Approve? ==> RunAsWritten(c, managerId) == Raised("TypeError", TooManyArguments(ApproveManagerTicket, 1, 2))
    ensures c.Reject? ==> RunAsWritten(c, managerId) == Raised("TypeError", TooManyArguments(RejectManagerTicket, 1, 2))
  {
  }

  /** `handle_message` with one-argument calls: approve records `accepted_manager`, reject
      records `rejected_manager`, and each echoes the indent id; other commands write nothing. */
  method Handle(db: TravelDb, managerId: string, message: string, now: int) returns (reply: ManagerReply)
    requires db.Valid()
    modifies db
    ensures db.Valid()
    ensures db.users == old(db.users) && db.bookmarks == old(db.bookmarks)
    ensures ParseManager(message).Approve? ==>
      reply == Approved(ParseManager(message).indentId)
      && db.indents == SetStatus(old(db.indents), ParseManager(message).indentId, "accepted_manager", now)
    ensures ParseManager(message).Reject? ==>
      reply == Rejected(ParseManager(message).indentId)
      && db.indents == SetStatus(old(db.indents), ParseManager(message).indentId, "rejected_manager", now)
    ensures !ParseManager(message).Approve? && !ParseManager(message).Reject? ==>
      reply == PlainReply(ParseManager(message), managerId) && db.indents == old(db.indents)
  {
    var command := ParseManager(message);
    match command {
      case Approve(id) =>
        var _ := db.ApproveIndentManager(id, now);
        reply := Approved(id);
      case Reject(id) =>
        var _ := db.RejectManagerTicket(id, now);
        reply := Rejected(id);
      case _ =>
        reply := PlainReply(command, managerId);
    }
  }

  /** After a corrected approve the HR gate opens; after a reject it stays closed. */
  lemma ManagerDecisionControlsGate(indents: map<string, Indent>, id: string, now: int)
    requires id in indents
    ensures RequireManagerApproval(SetStatus(indents, id, "accepted_manager", now), id).Ok?
    ensures RequireManagerApproval(SetStatus(indents, id, "rejected_manager", now), id).Err?
  {
    GateOpensAfterManagerApproval(indents, id, now);
    GateClosedAfterManagerRejection(indents, id, now);
  }
}
