/** `PolicyRAGChatService` of src/rag/rag_service.py: policy questions answered with
    retrieved excerpts. Retrieval, the language model, fresh ids and the clock are parameters. */
module PolicyRag {
  import opened Wrappers
  import opened Text
  import opened SessionModels
  import opened Sessions
  import opened PyCalls
  import opened Lists

  /** `SYSTEM_PROMPT_POLICY_RAG` of src/config/prompts.py. */
  const PolicyRagPrompt: string :=
    "You are the corporate travel policy assistant for employees.\n\n"
    + "Your responsibilities:\n"
    + "1. Answer questions strictly using the supplied policy excerpts.\n"
    + "2. Highlight allowances, limits, eligibility and approval workflows with numbers and currencies.\n"
    + "3. If unsure or context is missing, clearly say so and suggest contacting HR.\n"
    + "4. Keep answers concise, well structured, and employee-friendly (bullets are great).\n\n"
    + "Never invent allowances or commitments beyond the retrieved context."

  const Ellipsis: string := "…"

  /** The ValueError `chat` raises for a blank question. */
  const EmptyMessage: string := "Message cannot be empty"

  /** `f"{s[:limit]}…"` when `s` is longer than `limit`, else `s`. */
  function Truncate(s: string, limit: nat): (r: string)
    ensures |s| <= limit ==> r == s
    ensures |s| > limit ==> r == s[..limit] + Ellipsis
    ensures |r| <= limit + 1
  {
    if |s| > limit then s[..limit] + Ellipsis else s
  }

  /** Truncation keeps a prefix: what is shown is the start of the text, marked when cut. */
  lemma TruncateKeepsPrefix(s: string, limit: nat)
    ensures var r := Truncate(s, limit);
      (r == s) || (|r| == limit + 1 && r[..limit] == s[..limit] && r[limit] == '…')
  {
  }

  /** A search hit: its text (absent or `None` is `None`) and the `str()` of its `id`, absent
      when the hit has no `id` key. */
  datatype Hit = Hit(text: Option<string>, id: Option<string>)

  datatype Source = Source(id: string, text: string)

  /** Source `idx` (1-based) of `_format_sources`. */
  function SourceOf(hit: Hit, idx: nat, maxChars: nat): (s: Source)
    ensures s.id == (if hit.id.Some? then hit.id.value else NatToString(idx))
    ensures |s.text| <= maxChars + 1
  {
    var snippet := Strip(if hit.text.Some? then hit.text.value else "");
    Source(if hit.id.Some? then hit.id.value else NatToString(idx), Truncate(snippet, maxChars))
  }

  /** A short snippet is the stripped text itself; a long one is its first `maxChars` characters and `…`. */
  lemma SnippetIsStrippedText(hit: Hit, idx: nat, maxChars: nat)
    ensures var stripped := Strip(if hit.text.Some? then hit.text.value else "");
      (|stripped| <= maxChars ==> SourceOf(hit, idx, maxChars).text == stripped)
      && (|stripped| > maxChars ==> SourceOf(hit, idx, maxChars).text == stripped[..maxChars] + Ellipsis)
  {
  }

  const NoExcerpts: string := "No matching travel policy excerpts were retrieved."

  function Chunk(idx: nat, source: Source): string {
    "Source " + NatToString(idx) + " -> " + source.text
  }

  /** The chunks of `_build_context_block`, numbered from 1. */
  function Chunks(sources: seq<Source>): (cs: seq<string>)
    ensures |cs| == |sources|
    ensures forall i :: 0 <= i < |sources| ==> cs[i] == Chunk(i + 1, sources[i])
  {
    seq(|sources|, i requires 0 <= i < |sources| => Chunk(i + 1, sources[i]))
  }

  /** `_build_context_block`. */
  function ContextBlock(sources: seq<Source>, maxChars: nat): (block: string)
    ensures sources == [] ==> block == NoExcerpts
    ensures sources != [] ==> block == Truncate(Join("\n\n", Chunks(sources)), maxChars)
    ensures sources != [] ==> |block| <= maxChars + 1
  {
    if sources == [] then NoExcerpts else Truncate(Join("\n\n", Chunks(sources)), maxChars)
  }

  /** A single short source appears in full after its number. */
  lemma OneShortSource(source: Source, maxChars: nat)
    requires |Chunk(1, source)| <= maxChars
    ensures ContextBlock([source], maxChars) == "Source 1 -> " + source.text
  {
    assert Chunks([source])[0] == Chunk(1, source);
    assert NatToString(1) == "1";
  }

  const Guidelines: string :=
    "You answer employee travel policy questions using ONLY the provided context. "
    + "Quote rupee amounts, limits, and grade-based allowances where available. "
    + "If the context lacks the answer, politely say you don't have that information and suggest checking with HR."

  /** The context part of the user message, between the guidelines and the question. */
  function PolicySection(block: string): string {
    "\n\n" + "Policy Context:\n" + block + "\n\n"
  }

  /** The question part of the user message: its heading and the stripped question. */
  function QuestionSection(question: string): string {
    "Employee Question:\n" + Strip(question)
  }

  /** `_compose_user_message`. */
  function ComposeUserMessage(question: string, block: string): string {
    Guidelines + PolicySection(block) + QuestionSection(question)
  }

  /** The composed message starts with the guidelines and ends with the stripped question,
      right after its heading. */
  lemma ComposedMessageShape(question: string, block: string)
    ensures var m := ComposeUserMessage(question, block);
      |m| >= |Guidelines| + |QuestionSection(question)|
      && m[..|Guidelines|] == Guidelines
      && m[|m| - |QuestionSection(question)|..] == "Employee Question:\n" + Strip(question)
  {
    ConcatEnds(Guidelines, PolicySection(block), QuestionSection(question));
  }

  datatype ChatReply = ChatReply(response: string, sessionId: string, sources: seq<Source>)

  /** Whether the request names a session the purge kept. */
  predicate Resumes(sessionId: Option<string>, live: map<string, Session>) {
    sessionId.Some? && sessionId.value != "" && sessionId.value in live
  }

  class PolicyRagService {
    var sessions: map<string, Session>
    const topK: int
    const maxContextChars: nat

    /** The configured limits are raised to at least 1 result and 200 characters. */
    constructor (configuredTopK: int, configuredMaxChars: int)
      ensures sessions == map[] && DistinctSessions(sessions)
      ensures topK >= 1 && (configuredTopK >= 1 ==> topK == configuredTopK)
      ensures maxContextChars >= 200 && (configuredMaxChars >= 200 ==> maxContextChars == configuredMaxChars)
    {
      sessions := map[];
      topK := if configuredTopK >= 1 then configuredTopK else 1;
      maxContextChars := if configuredMaxChars >= 200 then configuredMaxChars else 200;
    }

    /** `_cleanup_old_sessions`: deletes exactly the sessions last active before the cutoff. */
    method CleanupOldSessions(now: int, timeoutHours: int)
      requires DistinctSessions(sessions)
      modifies this
      ensures sessions == LiveSessions(old(sessions), Cutoff(now, timeoutHours))
      ensures DistinctSessions(sessions)
    {
      var cutoff := Cutoff(now, timeoutHours);
      var stale := set sid | sid in sessions && IsStale(sessions[sid], cutoff);
      ghost var deleted: set<string> := {};
      while stale != {}
        invariant stale !! deleted
        invariant stale + deleted == set sid | sid in old(sessions) && IsStale(old(sessions)[sid], cutoff)
        invariant sessions == map sid | sid in old(sessions) && sid !in deleted :: old(sessions)[sid]
        decreases stale
      {
        var sid :| sid in stale;
        sessions := map k | k in sessions && k != sid :: sessions[k];
        stale := stale - {sid};
        deleted := deleted + {sid};
      }
    }

    /** `_get_or_create_session`: a known id is refreshed and reused; otherwise a new session
        with the policy prompt is stored under the fresh id. */
    method GetOrCreate(sessionId: Option<string>, freshId: string, now: int) returns (id: string, session: Session)
      requires DistinctSessions(sessions)
      modifies this, if Resumes(sessionId, sessions) then {sessions[sessionId.value]} else {}
      ensures DistinctSessions(sessions)
      ensures old(Resumes(sessionId, sessions)) ==>
        id == sessionId.value && session == old(sessions[sessionId.value]) && sessions == old(sessions)
        && session.history == old(session.history)
      ensures !old(Resumes(sessionId, sessions)) ==>
        id == freshId && fresh(session) && sessions == old(sessions)[freshId := session]
        && session.history == [SystemMessage(PolicyRagPrompt)]
      ensures session.lastActivity == now
    {
      if Resumes(sessionId, sessions) {
        id := sessionId.value;
        session := sessions[id];
        session.UpdateActivity(now);
        return;
      }
      id := freshId;
      session := new Session(PolicyRagPrompt, now);
      sessions := sessions[freshId := session];
    }

    /** The start of a `chat` turn: the stale sessions are purged, then the requested session
        is resumed if the purge kept it, or a new one is stored under the fresh id. Every other
        kept session is the same object as before, left as it was, and distinct from the one
        chosen, so the turn cannot reach it. */
    method OpenSession(sessionId: Option<string>, now: int, timeoutHours: int, freshId: string)
      returns (sid: string, session: Session)
      requires DistinctSessions(sessions)
      modifies this, if Resumes(sessionId, sessions) then {sessions[sessionId.value]} else {}
      ensures DistinctSessions(sessions)
      ensures var live := old(LiveSessions(sessions, Cutoff(now, timeoutHours)));
        sid == (if Resumes(sessionId, live) then sessionId.value else freshId)
        && sid in sessions && sessions[sid] == session && sessions == live[sid := session]
        && session.history == (if Resumes(sessionId, live) then old(sessions[sid].history) else [SystemMessage(PolicyRagPrompt)])
        && (Resumes(sessionId, live) ==> session == old(sessions[sid]))
        && (!Resumes(sessionId, live) ==> fresh(session))
      ensures forall k :: k in sessions && k != sid ==>
        k in old(sessions) && sessions[k] == old(sessions[k]) && sessions[k] != session && unchanged(sessions[k])
      ensures session.lastActivity == now
    {
      ghost var live := LiveSessions(sessions, Cutoff(now, timeoutHours));
      CleanupOldSessions(now, timeoutHours);
      assert sessions == live;
      if Resumes(sessionId, sessions) {
        assert sessions[sessionId.value] == old(sessions[sessionId.value]);
      }
      sid, session := GetOrCreate(sessionId, freshId, now);
      assert sessions == live[sid := session] by {
        if Resumes(sessionId, live) {
          assert live[sid := session] == live;
        }
      }
    }

    /** `_format_sources`: one source per hit, in order, numbered from 1. */
    method FormatSources(hits: seq<Hit>) returns (sources: seq<Source>)
      ensures sources == Rendered(hits, maxContextChars)
      ensures |sources| == |hits|
    {
      var f := SourceNumbered(maxContextChars);
      sources := [];
      var i := 0;
      while i < |hits|
        invariant 0 <= i <= |hits|
        invariant sources == MapNumbered(f, hits[..i])
      {
        MapNumberedStep(f, hits, i);
        sources := sources + [f(hits[i], i + 1)];
        i := i + 1;
      }
      MapNumberedAll(f, hits);
    }

    /** `chat`: a blank message is refused before any session is touched. Otherwise the
        stale sessions are purged, the session is resumed or created, the composed user
        message is appended, and the model's reply is appended after it. A model failure
        propagates after the user message was appended. */
    method Chat(message: string, sessionId: Option<string>, now: int, timeoutHours: int, freshId: string,
                hits: seq<Hit>, reply: Call<string>)
      returns (r: Call<ChatReply>)
      requires DistinctSessions(sessions)
      modifies this, if !IsBlank(message) && Resumes(sessionId, sessions) then {sessions[sessionId.value]} else {}
      ensures DistinctSessions(sessions)
      ensures IsBlank(message) ==> r == Raised("ValueError", EmptyMessage) && sessions == old(sessions)
      ensures IsBlank(message) ==> forall k :: k in old(sessions) ==> unchanged(old(sessions[k]))
      ensures !IsBlank(message) ==>
        var sid := if Resumes(sessionId, old(LiveSessions(sessions, Cutoff(now, timeoutHours)))) then sessionId.value else freshId;
        forall k :: k in sessions && k != sid ==> k in old(sessions) && sessions[k] == old(sessions[k]) && unchanged(sessions[k])
      ensures !IsBlank(message) ==>
        var live := old(LiveSessions(sessions, Cutoff(now, timeoutHours)));
        var sid := if Resumes(sessionId, live) then sessionId.value else freshId;
        sid in sessions && sessions == live[sid := sessions[sid]]
        && (reply.Raised? ==> r == Raised(reply.kind, reply.message))
        && (reply.Returned? ==> r == Returned(ChatReply(reply.value, sid, Rendered(hits, maxContextChars))))
      ensures !IsBlank(message) ==>
        var live := old(LiveSessions(sessions, Cutoff(now, timeoutHours)));
        var sid := if Resumes(sessionId, live) then sessionId.value else freshId;
        var sent := HumanMessage(ComposeUserMessage(message, ContextBlock(Rendered(hits, maxContextChars), maxContextChars)));
        sessions[sid].history
        == (if Resumes(sessionId, live) then old(sessions[sid].history) else [SystemMessage(PolicyRagPrompt)])
           + [sent] + (if reply.Returned? then [AiMessage(reply.value, [])] else [])
    {
      if IsBlank(message) {
        return Raised("ValueError", EmptyMessage);
      }
      var sid, session := OpenSession(sessionId, now, timeoutHours, freshId);
      var sources := FormatSources(hits);
      var block := ContextBlock(sources, maxContextChars);
      var enhanced := ComposeUserMessage(message, block);
      AppendTurn(session, HumanMessage(enhanced), reply, now);
      if reply.Raised? {
        return Raised(reply.kind, reply.message);
      }
      r := Returned(ChatReply(reply.value, sid, sources));
    }
  }

  /** The end of a chat turn on its session: the user message is appended; then, when the
      model answered, its reply is appended and the session's activity time moves to now.
      A model failure leaves the user message in place. */
  method AppendTurn(session: Session, sent: Message, reply: Call<string>, now: int)
    modifies session
    ensures session.history
      == old(session.history) + [sent] + (if reply.Returned? then [AiMessage(reply.value, [])] else [])
    ensures session.lastActivity == (if reply.Returned? then now else old(session.lastActivity))
    ensures session.createdAt == old(session.createdAt) && session.travelIndent == old(session.travelIndent)
  {
    session.history := session.history + [sent];
    if reply.Returned? {
      session.history := session.history + [AiMessage(reply.value, [])];
      session.UpdateActivity(now);
    }
  }

  /** `SourceOf` with a fixed limit, as a function of a hit and its number. */
  function SourceNumbered(maxChars: nat): (Hit, nat) -> Source {
    (hit: Hit, idx: nat) => SourceOf(hit, idx, maxChars)
  }

  /** The sources `_format_sources` builds from the hits, as a function. */
  function Rendered(hits: seq<Hit>, maxChars: nat): (sources: seq<Source>)
    ensures |sources| == |hits|
  {
    MapNumbered(SourceNumbered(maxChars), hits)
  }

  /** Rendered source `i` is hit `i`'s source under the number `i + 1`. */
  lemma RenderedAt(hits: seq<Hit>, maxChars: nat, i: int)
    requires 0 <= i < |hits|
    ensures Rendered(hits, maxChars)[i] == SourceOf(hits[i], i + 1, maxChars)
  {
    MapNumberedAt(SourceNumbered(maxChars), hits, i);
  }

  /** Any list with one formatted source per hit, in order, is the rendered list. */
  lemma RenderedIsFormatted(hits: seq<Hit>, maxChars: nat, sources: seq<Source>)
    requires |sources| == |hits|
    requires forall i :: 0 <= i < |hits| ==> sources[i] == SourceOf(hits[i], i + 1, maxChars)
    ensures sources == Rendered(hits, maxChars)
  {
    forall i | 0 <= i < |hits|
      ensures sources[i] == Rendered(hits, maxChars)[i]
    {
      RenderedAt(hits, maxChars, i);
    }
  }
}
