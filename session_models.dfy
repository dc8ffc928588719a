/** The chat messages a session keeps and the `Session` object of
    src/api/models/session_models.py. Times are integer seconds supplied by the caller. */
module SessionModels {
  import opened Wrappers
  import opened TravelIndentService

  /** A JSON value, as `json.loads` produces it. */
  datatype Json =
    | JNull
    | JBool(b: bool)
    | JNumber(n: int)
    | JString(s: string)
    | JArray(items: seq<Json>)
    | JObject(fields: map<string, Json>)

  /** The `args` entry of a tool call: absent, a JSON-encoded string, or an already decoded value. */
  datatype ToolArgs = ArgsMissing | ArgsText(text: string) | ArgsJson(value: Json)

  datatype ToolCall = ToolCall(id: string, name: string, args: ToolArgs)

  /** The message kinds the HR chat puts into a history. */
  datatype Message =
    | SystemMessage(content: string)
    | HumanMessage(content: string)
    | AiMessage(content: string, toolCalls: seq<ToolCall>)
    | ToolMessage(toolCallId: string, content: string)

  /** `SYSTEM_PROMPT_HR_BOOKING` of src/config/prompts.py. */
  const HrBookingPrompt: string :=
    "You are a corporate travel desk assistant with access to airline and hotel booking tools.\n\n"
    + "Your role is to help HR personnel book travel for employees according to company travel policies.\n\n"
    + "When planning a trip:\n"
    + "1. Review the employee details, travel information, and approval status\n"
    + "2. Use available tools to search and book flights and hotels\n"
    + "3. Plan trip first, show budgets, then make bookings\n"
    + "4. Provide clear confirmation of all planning and ask necessary parameters from user if required.\n\n"
    + "Be professional, efficient, and ensure all bookings meet policy requirements."

  /** A chat session: its message history, its two timestamps and the indent it is bound to. */
  class Session {
    var history: seq<Message>
    var createdAt: int
    var lastActivity: int
    var travelIndent: Option<IndentView>

    /** A new session starts with the system prompt alone, both timestamps at `now`, and no indent. */
    constructor (systemPrompt: string, now: int)
      ensures history == [SystemMessage(systemPrompt)]
      ensures createdAt == now && lastActivity == now
      ensures travelIndent == None
    {
      history := [SystemMessage(systemPrompt)];
      createdAt := now;
      lastActivity := now;
      travelIndent := None;
    }

    /** `Session()` with the default prompt. */
    constructor Default(now: int)
      ensures history == [SystemMessage(HrBookingPrompt)]
      ensures createdAt == now && lastActivity == now
      ensures travelIndent == None
    {
      history := [SystemMessage(HrBookingPrompt)];
      createdAt := now;
      lastActivity := now;
      travelIndent := None;
    }

    /** `update_activity`: only `lastActivity` moves. */
    method UpdateActivity(now: int)
      modifies this
      ensures lastActivity == now
      ensures history == old(history) && createdAt == old(createdAt) && travelIndent == old(travelIndent)
    {
      lastActivity := now;
    }
  }
}
