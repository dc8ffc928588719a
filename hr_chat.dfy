/** The HR chat endpoints of src/api/hr_mcp_router.py. The chat model, the MCP
    tools and `json.loads` are oracles passed in as values: what the model
    answers, which tool names resolve, what each tool returns or raises, and
    how a string decodes. The session and history bookkeeping around them,
    the tool-call loop and the final status write are modelled as written. */
module HrChat {
  import opened Wrappers
  import opened Text
  import opened Http
  import opened IndentStatus
  import opened TravelQueries
  import opened TravelIndentService
  import opened SessionModels
  import opened Sessions
  import opened ContextService
  import opened JwtService
  import opened JsonStrings

  datatype ChatRequest = ChatRequest(message: string, sessionId: Option<string>, indentId: Option<string>)
  datatype ChatResponse = ChatResponse(response: string, sessionId: string, toolsUsed: seq<string>, bookingComplete: bool)

  /** The outer `except Exception`: whatever was raised becomes a 500 with the text prefixed. */
  function ServerError(raised: string): HttpError {
    HttpError(500, "Error: " + raised)
  }

  /** The outcome of a call into the model or a tool: what it returned, or the text of what it raised. */
  datatype Reply<T> = Replied(value: T) | Failed(error: string)

  /** A model answer: its text and the tool calls it asks for. */
  datatype AiOutput = AiOutput(content: string, toolCalls: seq<ToolCall>)

  /** The tool oracles: the names `get_tool` resolves, what `tool.ainvoke(args)` returns
      (already `json.dumps`-ed) or raises, and what `json.loads` makes of a string. */
  datatype Tools = Tools(
    available: set<string>,
    invoke: (string, ToolArgs) -> Reply<string>,
    parse: string -> Option<Json>)

  /** Python truthiness of a decoded JSON value. */
  predicate Falsy(j: Json) {
    j == JNull || j == JBool(false) || j == JNumber(0) || j == JString("") || j == JArray([]) || j == JObject(map[])
  }

  /** `tc.get("args") or {}`, then `json.loads` of a string, keeping the string when it does not decode. */
  function EffectiveArgs(raw: ToolArgs, parse: string -> Option<Json>): (a: ToolArgs)
    ensures !a.ArgsMissing?
    ensures raw.ArgsMissing? || raw == ArgsText("") || (raw.ArgsJson? && Falsy(raw.value)) ==>
      a == ArgsJson(JObject(map[]))
    ensures a.ArgsText? <==> raw.ArgsText? && raw.text != "" && parse(raw.text).None?
    ensures a.ArgsText? ==> a == raw
  {
    match raw
    case ArgsMissing => ArgsJson(JObject(map[]))
    case ArgsText(text) =>
      if text == "" then ArgsJson(JObject(map[]))
      else (match parse(text)
            case Some(j) => ArgsJson(j)
            case None => raw)
    case ArgsJson(j) => if Falsy(j) then ArgsJson(JObject(map[])) else raw
  }

  /** `json.dumps({"error": f"Tool {name} not found"})`: only the name can hold characters
      that need escaping, so the rest of the message is written as it is. */
  function NotFoundPayload(name: string): string {
    "{\"error\": \"Tool " + EscapeAll(name) + " not found\"}"
  }

  /** The fixed parts of the not-found message need no escaping. */
  lemma NotFoundTextIsPlain()
    ensures AllPlain("Tool ") && AllPlain(" not found")
  {
    assert "Tool "[0] == 'T' && "Tool "[1] == 'o' && "Tool "[2] == 'o' && "Tool "[3] == 'l';
    assert forall k :: 0 <= k < 10 ==> " not found"[k] in " notfud";
  }

  /** The text around the name, as the payload writes it. */
  lemma NotFoundFrame()
    ensures "{\"error\": " + "\"Tool " == "{\"error\": \"Tool "
    ensures " not found\"" + "}" == " not found\"}"
  {
  }

  /** The payload is the JSON object whose `error` member is the whole message encoded as a
      JSON string. */
  lemma NotFoundPayloadIsJson(name: string)
    ensures NotFoundPayload(name) == "{\"error\": " + Quoted("Tool " + name + " not found") + "}"
  {
    NotFoundTextIsPlain();
    QuotedBetweenPlain("Tool ", name, " not found");
    Regroup("{\"error\": ", "\"Tool ", EscapeAll(name), " not found\"", "}");
    NotFoundFrame();
  }

  /** The payload is printable ASCII whatever characters the name holds. */
  lemma NotFoundPayloadIsPrintable(name: string)
    ensures Printable(NotFoundPayload(name))
  {
    var q := Quoted("Tool " + name + " not found");
    NotFoundPayloadIsJson(name);
    QuotedIsPrintable("Tool " + name + " not found");
    PrintableAppend("{\"error\": ", q);
    PrintableAppend("{\"error\": " + q, "}");
  }

  /** A tool name of printable ASCII other than `"` and `\` appears in the payload verbatim. */
  lemma PlainNameNotFound(name: string)
    requires AllPlain(name)
    ensures NotFoundPayload(name) == "{\"error\": \"Tool " + name + " not found\"}"
  {
  }

  /** The tool messages and tool names collected so far, and what a tool raised, if one did. */
  datatype ToolRun = ToolRun(messages: seq<Message>, used: seq<string>, failure: Option<string>)

  /** One pass of the loop body: an unknown tool gets an inline error and is not recorded;
      a known one is invoked and, unless it raises, answered and recorded. */
  function Step(run: ToolRun, tc: ToolCall, t: Tools): ToolRun {
    if run.failure.Some? then run
    else if tc.name !in t.available then
      ToolRun(run.messages + [ToolMessage(tc.id, NotFoundPayload(tc.name))], run.used, None)
    else
      match t.invoke(tc.name, EffectiveArgs(tc.args, t.parse))
      case Failed(e) => ToolRun(run.messages, run.used, Some(e))
      case Replied(out) => ToolRun(run.messages + [ToolMessage(tc.id, out)], run.used + [tc.name], None)
  }

  /** The tool loop over `calls` in order; the first tool that raises ends it. */
  function RunTools(calls: seq<ToolCall>, t: Tools): (run: ToolRun)
    ensures forall i :: 0 <= i < |run.used| ==> run.used[i] in t.available
    ensures |run.used| <= |run.messages| <= |calls|
  {
    if calls == [] then ToolRun([], [], None)
    else Step(RunTools(calls[..|calls| - 1], t), calls[|calls| - 1], t)
  }

  /** Once a tool has raised, the later calls change nothing. */
  lemma {:induction false} FailureSticks(calls: seq<ToolCall>, t: Tools, i: int)
    requires 0 <= i <= |calls|
    requires RunTools(calls[..i], t).failure.Some?
    ensures RunTools(calls, t) == RunTools(calls[..i], t)
    decreases |calls| - i
  {
    if i < |calls| {
      assert calls[..i + 1][..i] == calls[..i];
      FailureSticks(calls, t, i + 1);
    } else {
      assert calls[..i] == calls;
    }
  }

  /** When no tool raises, call `i` gets message `i`, carrying its id. */
  lemma {:induction false} ToolMessagesPairUp(calls: seq<ToolCall>, t: Tools)
    requires RunTools(calls, t).failure.None?
    ensures |RunTools(calls, t).messages| == |calls|
    ensures forall i :: 0 <= i < |calls| ==>
      RunTools(calls, t).messages[i].ToolMessage? && RunTools(calls, t).messages[i].toolCallId == calls[i].id
  {
    if calls != [] {
      var init := calls[..|calls| - 1];
      ToolMessagesPairUp(init, t);
    }
  }

  /** When no tool raises, an unknown tool's message is the not-found payload for its name. */
  lemma {:induction false} UnknownToolGetsNotFound(calls: seq<ToolCall>, t: Tools, i: int)
    requires RunTools(calls, t).failure.None?
    requires 0 <= i < |calls| && calls[i].name !in t.available
    ensures i < |RunTools(calls, t).messages|
    ensures RunTools(calls, t).messages[i] == ToolMessage(calls[i].id, NotFoundPayload(calls[i].name))
  {
    var init, last := calls[..|calls| - 1], calls[|calls| - 1];
    var before := RunTools(init, t);
    assert RunTools(calls, t) == Step(before, last, t);
    ToolMessagesPairUp(init, t);
    if i < |init| {
      UnknownToolGetsNotFound(init, t, i);
      assert calls[i] == init[i];
    }
  }

  /** The names of the calls whose tool resolves, in call order. */
  function KnownNames(calls: seq<ToolCall>, available: set<string>): (names: seq<string>)
    ensures forall n :: n in names <==> n in available && exists i :: 0 <= i < |calls| && calls[i].name == n
  {
    if calls == [] then []
    else
      var init := calls[..|calls| - 1];
      var last := calls[|calls| - 1];
      assert forall i :: 0 <= i < |init| ==> init[i] == calls[i];
      if last.name in available then KnownNames(init, available) + [last.name] else KnownNames(init, available)
  }

  /** When no tool raises, `tools_used` lists exactly the resolvable calls' names, in order. */
  lemma {:induction false} ToolsUsedAreKnownNames(calls: seq<ToolCall>, t: Tools)
    requires RunTools(calls, t).failure.None?
    ensures RunTools(calls, t).used == KnownNames(calls, t.available)
  {
    if calls != [] {
      ToolsUsedAreKnownNames(calls[..|calls| - 1], t);
    }
  }

  /** `booking_complete`. */
  predicate BookingComplete(used: seq<string>) {
    "book_flight" in used && "book_hotel" in used
  }

  /** A turn completes the booking iff both booking tools resolved and were called,
      whatever they returned. */
  lemma BookingCompleteIff(calls: seq<ToolCall>, t: Tools)
    requires RunTools(calls, t).failure.None?
    ensures BookingComplete(RunTools(calls, t).used) <==>
      "book_flight" in t.available && "book_hotel" in t.available
      && (exists i :: 0 <= i < |calls| && calls[i].name == "book_flight")
      && (exists i :: 0 <= i < |calls| && calls[i].name == "book_hotel")
  {
    ToolsUsedAreKnownNames(calls, t);
  }

  /** The tool loop of `chat`. */
  method InvokeToolCalls(calls: seq<ToolCall>, t: Tools) returns (run: ToolRun)
    ensures run == RunTools(calls, t)
  {
    run := ToolRun([], [], None);
    var i := 0;
    while i < |calls|
      invariant 0 <= i <= |calls|
      invariant run == RunTools(calls[..i], t) && run.failure.None?
    {
      assert calls[..i + 1][..i] == calls[..i];
      var tc := calls[i];
      var args := EffectiveArgs(tc.args, t.parse);
      if tc.name !in t.available {
        run := ToolRun(run.messages + [ToolMessage(tc.id, NotFoundPayload(tc.name))], run.used, None);
      } else {
        var result := t.invoke(tc.name, args);
        if result.Failed? {
          run := ToolRun(run.messages, run.used, Some(result.error));
          FailureSticks(calls, t, i + 1);
          return;
        }
        run := ToolRun(run.messages + [ToolMessage(tc.id, result.value)], run.used + [tc.name], None);
      }
      i := i + 1;
    }
    assert calls[..i] == calls;
  }

  /** What the part of a turn after the user message appends to the history. */
  function TurnMessages(first: Reply<AiOutput>, t: Tools, final: Reply<string>): seq<Message> {
    if first.Failed? then []
    else if first.value.toolCalls == [] then [AiMessage(first.value.content, [])]
    else
      var run := RunTools(first.value.toolCalls, t);
      var ai := AiMessage(first.value.content, first.value.toolCalls);
      if run.failure.Some? then [ai]
      else if final.Failed? then [ai] + run.messages
      else [ai] + run.messages + [AiMessage(final.value, [])]
  }

  /** Whether a turn reaches the status write: all tools answered, the final answer came,
      both booking tools were used and the session is bound to an indent. */
  predicate WritesStatus(first: Reply<AiOutput>, t: Tools, final: Reply<string>, indent: Option<IndentView>) {
    first.Replied? && first.value.toolCalls != []
    && RunTools(first.value.toolCalls, t).failure.None? && final.Replied?
    && BookingComplete(RunTools(first.value.toolCalls, t).used) && indent.Some?
  }

  /** What `chat` answers once the user message is in the history. */
  function TurnResult(first: Reply<AiOutput>, t: Tools, final: Reply<string>, sid: string,
                      indent: Option<IndentView>, indents: map<string, Indent>): Result<ChatResponse, HttpError>
  {
    if first.Failed? then Err(ServerError(first.error))
    else if first.value.toolCalls == [] then Ok(ChatResponse(first.value.content, sid, [], false))
    else
      var run := RunTools(first.value.toolCalls, t);
      if run.failure.Some? then Err(ServerError(run.failure.value))
      else if final.Failed? then Err(ServerError(final.error))
      else if WritesStatus(first, t, final, indent)
              && StatusGate(indents, indent.value.indentId, "completed_hr").Err? then
        Err(ServerError(HttpErrorText(HttpError(400, StatusGate(indents, indent.value.indentId, "completed_hr").error))))
      else Ok(ChatResponse(final.value, sid, run.used, BookingComplete(run.used)))
  }

  /** The part of `chat` after the user message: the first model call, the tool loop, the
      final model call and the `completed_hr` write. */
  method AnswerTurn(session: Session, db: TravelDb, sid: string, first: Reply<AiOutput>, t: Tools,
                    final: Reply<string>, now: int)
    returns (res: Result<ChatResponse, HttpError>)
    requires db.Valid()
    modifies session, db
    ensures db.Valid() && db.users == old(db.users) && db.bookmarks == old(db.bookmarks)
    ensures session.travelIndent == old(session.travelIndent)
    ensures session.createdAt == old(session.createdAt) && session.lastActivity == old(session.lastActivity)
    ensures session.history == old(session.history) + TurnMessages(first, t, final)
    ensures res == TurnResult(first, t, final, sid, session.travelIndent, old(db.indents))
    ensures WritesStatus(first, t, final, session.travelIndent)
            && StatusGate(old(db.indents), session.travelIndent.value.indentId, "completed_hr") == Ok(true) ==>
      db.indents == SetStatus(old(db.indents), session.travelIndent.value.indentId, "completed_hr", now)
    ensures !(WritesStatus(first, t, final, session.travelIndent)
              && StatusGate(old(db.indents), session.travelIndent.value.indentId, "completed_hr") == Ok(true)) ==>
      db.indents == old(db.indents)
  {
    if first.Failed? {
      return Err(ServerError(first.error));
    }
    var response := first.value;
    if response.toolCalls == [] {
      session.history := session.history + [AiMessage(response.content, [])];
      return Ok(ChatResponse(response.content, sid, [], false));
    }
    ghost var before := session.history;
    var ai := AiMessage(response.content, response.toolCalls);
    session.history := session.history + [ai];
    var run := InvokeToolCalls(response.toolCalls, t);
    if run.failure.Some? {
      return Err(ServerError(run.failure.value));
    }
    session.history := session.history + run.messages;
    assert session.history == before + ([ai] + run.messages);
    if final.Failed? {
      return Err(ServerError(final.error));
    }
    session.history := session.history + [AiMessage(final.value, [])];
    assert session.history == before + ([ai] + run.messages + [AiMessage(final.value, [])]);
    var booking := BookingComplete(run.used);
    if booking && session.travelIndent.Some? {
      var updated := UpdateStatus(db, session.travelIndent.value.indentId, "completed_hr", now);
      if updated.Err? {
        return Err(ServerError(HttpErrorText(HttpError(400, updated.error))));
      }
    }
    res := Ok(ChatResponse(final.value, sid, run.used, booking));
  }

  /** A turn without tool calls adds only the model's answer, uses no tools, completes no
      booking and writes no status. */
  lemma NoToolCallsTurn(first: Reply<AiOutput>, t: Tools, final: Reply<string>, sid: string,
                        indent: Option<IndentView>, indents: map<string, Indent>)
    requires first.Replied? && first.value.toolCalls == []
    ensures TurnMessages(first, t, final) == [AiMessage(first.value.content, [])]
    ensures TurnResult(first, t, final, sid, indent, indents) == Ok(ChatResponse(first.value.content, sid, [], false))
    ensures !WritesStatus(first, t, final, indent)
  {
  }

  /** The gate's refusal of `completed_hr` is raised as a 400 inside the outer `try`, so the
      caller receives it re-wrapped as a 500. */
  lemma GateRefusalArrivesAs500(first: Reply<AiOutput>, t: Tools, final: Reply<string>, sid: string,
                                v: IndentView, indents: map<string, Indent>)
    requires WritesStatus(first, t, final, Some(v))
    requires v.indentId in indents && StatusCode(indents[v.indentId].isApproved) !in HrEligible
    ensures TurnResult(first, t, final, sid, Some(v), indents) == Err(ServerError("400: " + ManagerApprovalMessage))
    ensures ServerError("400: " + ManagerApprovalMessage).status == 500
  {
    CompletedHrRefused(indents, v.indentId);
    BadRequestText(ManagerApprovalMessage);
  }

  /** `completed_hr` is an HR action, refused while the manager has not approved. */
  lemma CompletedHrRefused(indents: map<string, Indent>, id: string)
    requires id in indents && StatusCode(indents[id].isApproved) !in HrEligible
    ensures StatusGate(indents, id, "completed_hr") == Err(ManagerApprovalMessage)
  {
    CompletedHrIsNormal();
  }

  /** `str(HTTPException(400, detail))`. */
  lemma BadRequestText(detail: string)
    ensures HttpErrorText(HttpError(400, detail)) == "400: " + detail
  {
    assert NatToString(4) == "4";
    assert NatToString(40) == "40";
    assert NatToString(400) == "400";
  }

  /** The session state at the start of a turn, after the purge, the get-or-create and the
      indent load. */
  predicate WantsIndent(req: ChatRequest) {
    req.indentId.Some? && req.indentId.value != ""
  }

  /** Whether the request names a session the purge kept. */
  predicate Resumes(req: ChatRequest, live: map<string, Session>) {
    req.sessionId.Some? && req.sessionId.value != "" && req.sessionId.value in live
  }

  /** The session id a turn runs under, given the sessions the purge kept. */
  function ChosenId(req: ChatRequest, live: map<string, Session>, freshId: string): (sid: string)
    ensures Resumes(req, live) ==> req.sessionId == Some(sid) && sid in live
    ensures !Resumes(req, live) ==> sid == freshId
  {
    if Resumes(req, live) then req.sessionId.value else freshId
  }

  /** Lines 48-51 of `chat`: purge the stale sessions, then get or create the session. */
  method OpenSession(svc: SessionService, req: ChatRequest, now: int, timeoutHours: int, freshId: string)
    returns (sid: string, session: Session)
    requires DistinctSessions(svc.sessions)
    modifies svc, if svc.Known(req.sessionId) then {svc.sessions[req.sessionId.value]} else {}
    ensures DistinctSessions(svc.sessions)
    ensures sid == ChosenId(req, old(LiveSessions(svc.sessions, Cutoff(now, timeoutHours))), freshId)
    ensures Resumes(req, old(LiveSessions(svc.sessions, Cutoff(now, timeoutHours)))) ==>
      session == old(svc.sessions[sid]) && svc.sessions == old(LiveSessions(svc.sessions, Cutoff(now, timeoutHours)))
      && session.history == old(session.history) && session.travelIndent == old(session.travelIndent)
    ensures !Resumes(req, old(LiveSessions(svc.sessions, Cutoff(now, timeoutHours)))) ==>
      fresh(session) && svc.sessions == old(LiveSessions(svc.sessions, Cutoff(now, timeoutHours)))[sid := session]
      && session.history == [SystemMessage(HrBookingPrompt)] && session.travelIndent == None
    ensures forall k :: k in svc.sessions && k != sid ==>
      k in old(svc.sessions) && svc.sessions[k] == old(svc.sessions[k]) && svc.sessions[k] != session
      && unchanged(svc.sessions[k])
    ensures session.lastActivity == now
  {
    ghost var live := LiveSessions(svc.sessions, Cutoff(now, timeoutHours));
    svc.CleanupOldSessions(now, timeoutHours);
    assert svc.sessions == live;
    if svc.Known(req.sessionId) {
      assert svc.sessions[req.sessionId.value] == old(svc.sessions[req.sessionId.value]);
    }
    sid, session := svc.GetOrCreate(req.sessionId, freshId, now);
  }

  /** Lines 48-61 of `chat`: purge the stale sessions, get or create the session, load the
      indent only when one is asked for and none is bound, then append the one user message. */
  method OpenTurn(svc: SessionService, indents: map<string, Indent>, req: ChatRequest,
                  now: int, timeoutHours: int, freshId: string)
    returns (sid: string, session: Session)
    requires DistinctSessions(svc.sessions)
    modifies svc, if svc.Known(req.sessionId) then {svc.sessions[req.sessionId.value]} else {}
    ensures DistinctSessions(svc.sessions)
    ensures sid == ChosenId(req, old(LiveSessions(svc.sessions, Cutoff(now, timeoutHours))), freshId)
    ensures Resumes(req, old(LiveSessions(svc.sessions, Cutoff(now, timeoutHours)))) ==>
      session == old(svc.sessions[sid]) && svc.sessions == old(LiveSessions(svc.sessions, Cutoff(now, timeoutHours)))
      && session.history == old(session.history) + [HumanMessage(BuildContextMessage(req.message, session.travelIndent))]
      && session.travelIndent == (if WantsIndent(req) && old(session.travelIndent).None?
                                  then GetById(indents, req.indentId.value)
                                  else old(session.travelIndent))
    ensures !Resumes(req, old(LiveSessions(svc.sessions, Cutoff(now, timeoutHours)))) ==>
      fresh(session) && svc.sessions == old(LiveSessions(svc.sessions, Cutoff(now, timeoutHours)))[sid := session]
      && session.history == [SystemMessage(HrBookingPrompt), HumanMessage(BuildContextMessage(req.message, session.travelIndent))]
      && session.travelIndent == (if WantsIndent(req) then GetById(indents, req.indentId.value) else None)
    ensures forall k :: k in svc.sessions && k != sid ==>
      k in old(svc.sessions) && svc.sessions[k] == old(svc.sessions[k]) && svc.sessions[k] != session
      && unchanged(svc.sessions[k])
    ensures session.lastActivity == now
  {
    sid, session := OpenSession(svc, req, now, timeoutHours, freshId);
    if WantsIndent(req) && session.travelIndent.None? {
      session.travelIndent := GetById(indents, req.indentId.value);
    }
    var enhanced := BuildContextMessage(req.message, session.travelIndent);
    session.history := session.history + [HumanMessage(enhanced)];
  }

  /** The indent a session is bound to once the turn has opened: a requested indent is
      looked up only when the session had none bound before. */
  function BoundIndent(req: ChatRequest, previous: Option<IndentView>, indents: map<string, Indent>): (bound: Option<IndentView>)
    ensures previous.Some? ==> bound == previous
    ensures !WantsIndent(req) ==> bound == previous
    ensures WantsIndent(req) && previous.None? ==> bound == GetById(indents, req.indentId.value)
  {
    if WantsIndent(req) && previous.None? then GetById(indents, req.indentId.value) else previous
  }

  /** `chat`: one turn of the HR assistant. */
  method Chat(svc: SessionService, db: TravelDb, req: ChatRequest, now: int, timeoutHours: int, freshId: string,
              first: Reply<AiOutput>, t: Tools, final: Reply<string>)
    returns (res: Result<ChatResponse, HttpError>)
    requires db.Valid() && DistinctSessions(svc.sessions)
    modifies svc, db, if svc.Known(req.sessionId) then {svc.sessions[req.sessionId.value]} else {}
    ensures db.Valid() && db.users == old(db.users) && db.bookmarks == old(db.bookmarks)
    ensures DistinctSessions(svc.sessions)
    ensures ChosenId(req, old(LiveSessions(svc.sessions, Cutoff(now, timeoutHours))), freshId) in svc.sessions
    ensures var sid := ChosenId(req, old(LiveSessions(svc.sessions, Cutoff(now, timeoutHours))), freshId);
      res == TurnResult(first, t, final, sid, svc.sessions[sid].travelIndent, old(db.indents))
    ensures var sid := ChosenId(req, old(LiveSessions(svc.sessions, Cutoff(now, timeoutHours))), freshId);
      svc.sessions[sid].history
      == (if Resumes(req, old(LiveSessions(svc.sessions, Cutoff(now, timeoutHours)))) then old(svc.sessions[sid].history)
          else [SystemMessage(HrBookingPrompt)])
         + [HumanMessage(BuildContextMessage(req.message, svc.sessions[sid].travelIndent))]
         + TurnMessages(first, t, final)
    ensures var live := old(LiveSessions(svc.sessions, Cutoff(now, timeoutHours)));
      var sid := ChosenId(req, live, freshId);
      svc.sessions == live[sid := svc.sessions[sid]]
      && (Resumes(req, live) ==> svc.sessions[sid] == old(svc.sessions[sid]))
      && (!Resumes(req, live) ==> fresh(svc.sessions[sid]))
    ensures var sid := ChosenId(req, old(LiveSessions(svc.sessions, Cutoff(now, timeoutHours))), freshId);
      forall k :: k in svc.sessions && k != sid ==>
        k in old(svc.sessions) && svc.sessions[k] == old(svc.sessions[k]) && unchanged(svc.sessions[k])
    ensures var live := old(LiveSessions(svc.sessions, Cutoff(now, timeoutHours)));
      var sid := ChosenId(req, live, freshId);
      svc.sessions[sid].travelIndent
      == BoundIndent(req, if Resumes(req, live) then old(svc.sessions[sid].travelIndent) else None, old(db.indents))
    ensures var sid := ChosenId(req, old(LiveSessions(svc.sessions, Cutoff(now, timeoutHours))), freshId);
      var indent := svc.sessions[sid].travelIndent;
      db.indents
      == (if WritesStatus(first, t, final, indent)
             && StatusGate(old(db.indents), indent.value.indentId, "completed_hr") == Ok(true)
          then SetStatus(old(db.indents), indent.value.indentId, "completed_hr", now)
          else old(db.indents))
  {
    ghost var live := LiveSessions(svc.sessions, Cutoff(now, timeoutHours));
    ghost var earlier := if Resumes(req, live) then svc.sessions[ChosenId(req, live, freshId)].history
                         else [SystemMessage(HrBookingPrompt)];
    var sid, session := OpenTurn(svc, db.indents, req, now, timeoutHours, freshId);
    assert sid in svc.sessions && svc.sessions[sid] == session;
    ghost var started := session.history;
    assert started == earlier + [HumanMessage(BuildContextMessage(req.message, session.travelIndent))];
    ghost var kept := svc.sessions;
    res := AnswerTurn(session, db, sid, first, t, final, now);
    assert svc.sessions == kept;
  }

  /** `update_ticket_status`: the gate's refusal is a 400, an unknown id a 404. */
  method UpdateTicketStatus(db: TravelDb, indentId: string, status: string, now: int)
    returns (r: Result<string, HttpError>)
    requires db.Valid()
    modifies db
    ensures db.Valid() && db.users == old(db.users) && db.bookmarks == old(db.bookmarks)
    ensures StatusGate(old(db.indents), indentId, status).Err? ==>
      r == Err(HttpError(400, ManagerApprovalMessage)) && db.indents == old(db.indents)
    ensures StatusGate(old(db.indents), indentId, status) == Ok(false) ==>
      r == Err(HttpError(404, "Ticket not found")) && db.indents == old(db.indents)
    ensures StatusGate(old(db.indents), indentId, status) == Ok(true) ==>
      r == Ok("Ticket status updated to " + status)
      && db.indents == SetStatus(old(db.indents), indentId, status, now)
  {
    var updated := UpdateStatus(db, indentId, status, now);
    if updated.Err? {
      return Err(HttpError(400, updated.error));
    }
    if updated.value {
      return Ok("Ticket status updated to " + status);
    }
    return Err(HttpError(404, "Ticket not found"));
  }

  /** An unknown ticket is a 404 and a ticket whose manager has not approved refuses the
      HR statuses with a 400; any other status is written. */
  lemma TicketStatusOutcomes(indents: map<string, Indent>, id: string, status: string)
    ensures id !in indents ==> StatusGate(indents, id, status) == Ok(false)
    ensures id in indents && NormalizeText(status) !in HrAction ==> StatusGate(indents, id, status) == Ok(true)
  {
  }

  /** `delete_session`: the caller's `get_current_user` dependency runs first, and its
      refusal is the answer, with nothing deleted; then 404 when the session is unknown. */
  method DeleteSessionEndpoint(svc: SessionService, caller: Result<CurrentUser, HttpError>, sessionId: string)
    returns (r: Result<string, HttpError>)
    requires DistinctSessions(svc.sessions)
    modifies svc
    ensures DistinctSessions(svc.sessions)
    ensures caller.Err? ==> r == Err(caller.error) && svc.sessions == old(svc.sessions)
    ensures caller.Ok? && sessionId in old(svc.sessions) ==> r == Ok("Session deleted")
    ensures caller.Ok? && sessionId !in old(svc.sessions) ==> r == Err(HttpError(404, "Session not found"))
    ensures caller.Ok? ==> svc.sessions == old(svc.sessions) - {sessionId}
  {
    if caller.Err? {
      return Err(caller.error);
    }
    var deleted := svc.DeleteSession(sessionId);
    if deleted {
      return Ok("Session deleted");
    }
    return Err(HttpError(404, "Session not found"));
  }

  /** One entry of the history `get_session_history` returns. */
  datatype HistoryEntry = HistoryEntry(role: string, content: string)

  /** The entry a message shows as: user messages and tool-free model answers only. */
  function EntryOf(m: Message): (e: Option<HistoryEntry>)
    ensures e.Some? <==> m.HumanMessage? || (m.AiMessage? && m.toolCalls == [])
  {
    match m
    case HumanMessage(content) => Some(HistoryEntry("user", content))
    case AiMessage(content, calls) => if calls == [] then Some(HistoryEntry("assistant", content)) else None
    case _ => None
  }

  /** The visible history, in message order. */
  function Visible(h: seq<Message>): (r: seq<HistoryEntry>)
    ensures |r| <= |h|
  {
    if h == [] then []
    else
      var e := EntryOf(h[|h| - 1]);
      Visible(h[..|h| - 1]) + (if e.Some? then [e.value] else [])
  }

  /** Filtering a concatenation filters each part. */
  lemma {:induction false} VisibleAppend(h1: seq<Message>, h2: seq<Message>)
    ensures Visible(h1 + h2) == Visible(h1) + Visible(h2)
    decreases |h2|
  {
    if h2 != [] {
      var init := h2[..|h2| - 1];
      assert (h1 + h2)[..|h1 + h2| - 1] == h1 + init;
      VisibleAppend(h1, init);
    } else {
      assert h1 + h2 == h1;
    }
  }

  /** A turn that answers shows, after the user's message, exactly one assistant entry: the
      reply text that `chat` returned. Tool calls and tool results stay hidden. */
  lemma {:induction false} AnsweredTurnShowsReply(first: Reply<AiOutput>, t: Tools, final: Reply<string>, sid: string,
                                                  indent: Option<IndentView>, indents: map<string, Indent>)
    requires TurnResult(first, t, final, sid, indent, indents).Ok?
    ensures Visible(TurnMessages(first, t, final))
      == [HistoryEntry("assistant", TurnResult(first, t, final, sid, indent, indents).value.response)]
  {
    if first.value.toolCalls != [] {
      var run := RunTools(first.value.toolCalls, t);
      var ai := AiMessage(first.value.content, first.value.toolCalls);
      ToolMessagesPairUp(first.value.toolCalls, t);
      ToolMessagesHidden(run.messages);
      VisibleAppend([ai] + run.messages, [AiMessage(final.value, [])]);
      VisibleAppend([ai], run.messages);
    } else {
      assert TurnMessages(first, t, final) == [AiMessage(first.value.content, [])];
    }
  }

  /** Tool messages never show. */
  lemma {:induction false} ToolMessagesHidden(msgs: seq<Message>)
    requires forall i :: 0 <= i < |msgs| ==> msgs[i].ToolMessage?
    ensures Visible(msgs) == []
  {
    if msgs != [] {
      ToolMessagesHidden(msgs[..|msgs| - 1]);
    }
  }

  /** `get_session_history`: the refusal of the caller's `get_current_user` dependency,
      else 404 for an unknown session, otherwise the visible entries. */
  method SessionHistory(svc: SessionService, caller: Result<CurrentUser, HttpError>, sessionId: string)
    returns (r: Result<seq<HistoryEntry>, HttpError>)
    ensures caller.Err? ==> r == Err(caller.error)
    ensures caller.Ok? && sessionId !in svc.sessions ==> r == Err(HttpError(404, "Session not found"))
    ensures caller.Ok? && sessionId in svc.sessions ==> r == Ok(Visible(svc.sessions[sessionId].history))
  {
    if caller.Err? {
      return Err(caller.error);
    }
    var found := svc.GetSession(sessionId);
    if found.None? {
      return Err(HttpError(404, "Session not found"));
    }
    var h := found.value.history;
    var entries: seq<HistoryEntry> := [];
    var i := 0;
    while i < |h|
      invariant 0 <= i <= |h|
      invariant entries == Visible(h[..i])
    {
      assert h[..i + 1][..i] == h[..i];
      var m := h[i];
      if m.HumanMessage? {
        entries := entries + [HistoryEntry("user", m.content)];
      } else if m.AiMessage? && m.toolCalls == [] {
        entries := entries + [HistoryEntry("assistant", m.content)];
      }
      i := i + 1;
    }
    assert h[..i] == h;
    r := Ok(entries);
  }
}
