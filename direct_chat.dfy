/**
 * The chat service that calls the agent graph directly. It keeps every
 * conversation in an in-process map from conversation id to the ordered
 * list of (role, content) entries. The agent is a parameter: a function
 * from the message list and the request's configuration to what the agent
 * returned or raised (or, for streaming, to the steps it delivered).
 */
module DirectChat {
  import opened Wrappers
  import opened Messages
  import opened StreamEvents

  /** The reply recorded when the agent produced no usable text. */
  const FallbackReply := "抱歉，我无法处理您的请求。"
  /** Prefix of the reply recorded when the agent call raised. */
  const GraphErrorPrefix := "调用图时出错: "
  /** Prefix of the error reported when preparing the request raised. */
  const RequestErrorPrefix := "处理请求时出错: "
  const SuccessStatus := "success"

  datatype Role = HumanRole | AssistantRole

  /** One stored turn: the dictionary {"role": ..., "content": ...}. */
  datatype Entry = Entry(role: Role, content: string)

  type Store = map<string, seq<Entry>>

  datatype ChatRequest = ChatRequest(message: string, conversationId: string, model: string, maxSearchResults: int)

  /** The per-request configuration handed to the agent. */
  datatype AgentConfig = AgentConfig(model: string, maxSearchResults: int)

  datatype ChatResponse = ChatResponse(response: string, conversationId: string, status: string, modelUsed: string)

  datatype HttpError = HttpError(status: int, detail: string)

  /** What one call of the agent gave back: its final message list, or the error it raised. */
  datatype AgentOutcome = Returned(messages: seq<Msg>) | Raised(error: string)

  datatype HistoryReply = HistoryReply(messages: seq<Entry>, conversationId: string)

  function ConfigOf(req: ChatRequest): AgentConfig {
    AgentConfig(req.model, req.maxSearchResults)
  }

  /** The conversation as stored, or no entries for an id never used. */
  function Lookup(h: Store, id: string): seq<Entry> {
    if id in h then h[id] else []
  }

  function ClearedNotice(id: string): string {
    "对话 " + id + " 的历史记录已清除"
  }

  function MissingNotice(id: string): string {
    "对话 " + id + " 不存在"
  }

  // ---------------------------------------------------------------------
  // The message list given to the agent

  /** A human entry becomes a HumanMessage, an assistant entry an AIMessage without tool calls. */
  function ToAgentMessage(e: Entry): Msg {
    match e.role
    case HumanRole => Human(e.content)
    case AssistantRole => AI(None, e.content, [])
  }

  function AgentInput(entries: seq<Entry>): seq<Msg> {
    if entries == [] then []
    else AgentInput(entries[..|entries| - 1]) + [ToAgentMessage(entries[|entries| - 1])]
  }

  /** The agent sees the whole conversation, one message per entry, in order, roles kept. */
  lemma {:induction false} AgentInputFaithful(entries: seq<Entry>)
    ensures |AgentInput(entries)| == |entries|
    ensures forall i | 0 <= i < |entries| :: AgentInput(entries)[i] == ToAgentMessage(entries[i])
    decreases |entries|
  {
    if entries != [] {
      AgentInputFaithful(entries[..|entries| - 1]);
    }
  }

  /** Converts the stored conversation into the agent's message list. */
  method BuildAgentInput(entries: seq<Entry>) returns (messages: seq<Msg>)
    ensures messages == AgentInput(entries)
  {
    messages := [];
    for i := 0 to |entries|
      invariant messages == AgentInput(entries[..i])
    {
      assert entries[..i + 1][..i] == entries[..i];
      messages := messages + [ToAgentMessage(entries[i])];
    }
    assert entries[..|entries|] == entries;
  }

  // ---------------------------------------------------------------------
  // Picking the reply out of the agent's result

  /**
   * Whether the backwards scan stops at m. The three checks of the scan,
   * in order: an AIMessage without tool calls; any object whose type is
   * "ai" (which includes an AIMessage WITH tool calls); a dictionary whose
   * "type" is "ai".
   */
  predicate StopsScan(m: Msg) {
    IsFinalAnswer(m)
    || TypeAttr(m) == Some("ai")
    || (m.Plain? && "type" in m.fields && m.fields["type"] == "ai")
  }

  /**
   * Because every AI message has type "ai", the scan stops at every AI
   * message, with or without tool calls, and at every dictionary typed "ai";
   * it passes over human and tool messages and other dictionaries.
   */
  lemma ScanStopsAtAiMessages(m: Msg)
    ensures StopsScan(m) <==> m.AI? || (m.Plain? && "type" in m.fields && m.fields["type"] == "ai")
  {
  }

  /** The text the scan takes from the message it stops at. */
  function ScannedContent(m: Msg): string {
    match m
    case AI(_, content, _) => content
    case Plain(fields) => if "content" in fields then fields["content"] else ""
    case _ => ""
  }

  /** The content of the last message the scan stops at, or "" when there is none. */
  function LatestReply(ms: seq<Msg>): string {
    if ms == [] then ""
    else if StopsScan(ms[|ms| - 1]) then ScannedContent(ms[|ms| - 1])
    else LatestReply(ms[..|ms| - 1])
  }

  /**
   * The reply is the content of the LAST message the scan stops at, and ""
   * when no message stops it.
   */
  lemma {:induction false} LatestReplyIsLastStop(ms: seq<Msg>)
    ensures (forall k | 0 <= k < |ms| :: !StopsScan(ms[k])) ==> LatestReply(ms) == ""
    ensures forall k | 0 <= k < |ms| && StopsScan(ms[k]) && (forall j | k < j < |ms| :: !StopsScan(ms[j])) ::
      LatestReply(ms) == ScannedContent(ms[k])
    decreases |ms|
  {
    if ms != [] && !StopsScan(ms[|ms| - 1]) {
      var ms' := ms[..|ms| - 1];
      LatestReplyIsLastStop(ms');
      assert forall k | 0 <= k < |ms'| :: ms'[k] == ms[k];
    }
  }

  /** Scans the agent's messages from the end and takes the first AI-typed one. */
  method ExtractReply(ms: seq<Msg>) returns (reply: string)
    ensures reply == LatestReply(ms)
  {
    reply := "";
    var i := |ms|;
    assert ms[..i] == ms;
    while i > 0
      invariant 0 <= i <= |ms|
      invariant LatestReply(ms[..i]) == LatestReply(ms)
    {
      var m := ms[i - 1];
      assert ms[..i][..i - 1] == ms[..i - 1];
      if m.AI? && m.toolCalls == [] {
        reply := m.content;
        return;
      } else if TypeAttr(m) == Some("ai") {
        reply := m.content;
        return;
      } else if m.Plain? && "type" in m.fields && m.fields["type"] == "ai" {
        reply := if "content" in m.fields then m.fields["content"] else "";
        return;
      }
      i := i - 1;
    }
  }

  /** The assistant entry recorded for one agent call: never empty. */
  function ChatReply(outcome: AgentOutcome): (reply: string)
    ensures reply != ""
    ensures outcome.Raised? ==> reply == GraphErrorPrefix + outcome.error
  {
    var text :=
      match outcome
      case Returned(ms) => LatestReply(ms)
      case Raised(error) => GraphErrorPrefix + error;
    if text == "" then FallbackReply else text
  }

  /** Without any AI-typed message in the result, the fallback reply is recorded. */
  lemma FallbackWithoutAiMessage(ms: seq<Msg>)
    requires forall k | 0 <= k < |ms| :: !ms[k].AI? && !(ms[k].Plain? && "type" in ms[k].fields && ms[k].fields["type"] == "ai")
    ensures ChatReply(Returned(ms)) == FallbackReply
  {
    LatestReplyIsLastStop(ms);
  }

  /** A run that finished on a final answer gives that answer, or the fallback when it is empty. */
  lemma ReplyOfFinishedRun(ms: seq<Msg>)
    requires |ms| > 0 && IsFinalAnswer(Last(ms))
    ensures ChatReply(Returned(ms)) == if Last(ms).content == "" then FallbackReply else Last(ms).content
  {
  }

  /**
   * The scan also stops at an AI message that asks for tools, so earlier
   * final answers are not reached; with empty content the fallback is used.
   */
  lemma {:induction false} ToolCallingAiStopsScan(earlier: seq<Msg>, id: Option<string>, content: string, calls: seq<ToolCall>)
    requires calls != []
    ensures ChatReply(Returned(earlier + [AI(id, content, calls)])) ==
      if content == "" then FallbackReply else content
  {
    var ms := earlier + [AI(id, content, calls)];
    assert ms[|ms| - 1] == AI(id, content, calls);
  }

  // ---------------------------------------------------------------------
  // The non-streaming chat turn

  function HumanEntry(req: ChatRequest): Entry {
    Entry(HumanRole, req.message)
  }

  /** The reply of a chat turn, given the conversation before the turn. */
  function TurnReply(prior: seq<Entry>, req: ChatRequest, agent: (seq<Msg>, AgentConfig) -> AgentOutcome): string {
    ChatReply(agent(AgentInput(prior + [HumanEntry(req)]), ConfigOf(req)))
  }

  /** The entries a chat turn appends to its conversation. */
  function ChatRecorded(prior: seq<Entry>, req: ChatRequest, prep: Option<string>,
                        agent: (seq<Msg>, AgentConfig) -> AgentOutcome): seq<Entry>
  {
    if prep.Some? then [HumanEntry(req)]
    else [HumanEntry(req), Entry(AssistantRole, TurnReply(prior, req, agent))]
  }

  function ChatResult(prior: seq<Entry>, req: ChatRequest, prep: Option<string>,
                      agent: (seq<Msg>, AgentConfig) -> AgentOutcome): Result<ChatResponse, HttpError>
  {
    if prep.Some? then Err(HttpError(500, RequestErrorPrefix + prep.value))
    else Ok(ChatResponse(TurnReply(prior, req, agent), req.conversationId, SuccessStatus, req.model))
  }

  function AfterChat(h: Store, req: ChatRequest, prep: Option<string>,
                     agent: (seq<Msg>, AgentConfig) -> AgentOutcome): Store
  {
    var prior := Lookup(h, req.conversationId);
    h[req.conversationId := prior + ChatRecorded(prior, req, prep, agent)]
  }

  /**
   * A chat turn appends the human entry and then exactly one assistant
   * entry equal to the returned response, and leaves every other
   * conversation alone; the call reports success even when the agent raised.
   */
  lemma ChatAppendsOneTurn(h: Store, req: ChatRequest, agent: (seq<Msg>, AgentConfig) -> AgentOutcome)
    ensures var r := ChatResult(Lookup(h, req.conversationId), req, None, agent);
      && r.Ok?
      && r.value.status == SuccessStatus
      && r.value.conversationId == req.conversationId
      && r.value.modelUsed == req.model
      && r.value.response != ""
      && Lookup(AfterChat(h, req, None, agent), req.conversationId) ==
           Lookup(h, req.conversationId) + [Entry(HumanRole, req.message), Entry(AssistantRole, r.value.response)]
    ensures forall id | id != req.conversationId :: Lookup(AfterChat(h, req, None, agent), id) == Lookup(h, id)
  {
  }

  /** When the agent raises, the formatted error is both recorded and returned as the response. */
  lemma ChatRecordsAgentError(h: Store, req: ChatRequest, agent: (seq<Msg>, AgentConfig) -> AgentOutcome)
    requires agent(AgentInput(Lookup(h, req.conversationId) + [HumanEntry(req)]), ConfigOf(req)).Raised?
    ensures var e := agent(AgentInput(Lookup(h, req.conversationId) + [HumanEntry(req)]), ConfigOf(req)).error;
      && ChatResult(Lookup(h, req.conversationId), req, None, agent).value.response == GraphErrorPrefix + e
      && Lookup(AfterChat(h, req, None, agent), req.conversationId)[|Lookup(h, req.conversationId)| + 1]
           == Entry(AssistantRole, GraphErrorPrefix + e)
  {
  }

  /** The agent's input is the conversation so far followed by the new human message. */
  lemma AgentSeesWholeConversation(prior: seq<Entry>, req: ChatRequest)
    ensures AgentInput(prior + [HumanEntry(req)]) == AgentInput(prior) + [Human(req.message)]
  {
    assert (prior + [HumanEntry(req)])[..|prior|] == prior;
  }

  // ---------------------------------------------------------------------
  // The streaming chat turn

  /** The events after `start`: those of each streamed message, then `done` or the error. */
  function StreamBody(req: ChatRequest, run: StreamRun, search: string -> SearchOutcome): seq<Event> {
    var ms := StreamedMessages(run.chunks);
    MessagesEvents(ms, req.message, search)
    + [if run.failure.None? then Done(MessagesText(ms)) else Error(GraphErrorPrefix + run.failure.value)]
  }

  /** The events the streaming endpoint emits for one request. */
  function StreamEventsOf(req: ChatRequest, prep: Option<string>, run: StreamRun,
                          search: string -> SearchOutcome): seq<Event>
  {
    if prep.Some? then [Error(RequestErrorPrefix + prep.value)]
    else [Start(req.conversationId, req.model)] + StreamBody(req, run, search)
  }

  /** The assistant entries recorded once the agent's stream is over: the error, or a non-empty answer. */
  function StreamReplyEntries(run: StreamRun): seq<Entry> {
    var full := MessagesText(StreamedMessages(run.chunks));
    if run.failure.Some? then [Entry(AssistantRole, GraphErrorPrefix + run.failure.value)]
    else if full != "" then [Entry(AssistantRole, full)]
    else []
  }

  /** The entries the streaming endpoint appends to its conversation. */
  function StreamRecorded(req: ChatRequest, prep: Option<string>, run: StreamRun): seq<Entry> {
    [HumanEntry(req)] + if prep.Some? then [] else StreamReplyEntries(run)
  }

  /** The agent's stream for a request, given the conversation before it. */
  function StreamRunFor(prior: seq<Entry>, req: ChatRequest, stream: (seq<Msg>, AgentConfig) -> StreamRun): StreamRun {
    stream(AgentInput(prior + [HumanEntry(req)]), ConfigOf(req))
  }

  /**
   * Every stream has exactly one terminal event and it is the last one;
   * unless preparing the request failed, the first event is `start`.
   */
  lemma StreamFraming(req: ChatRequest, prep: Option<string>, run: StreamRun, search: string -> SearchOutcome)
    ensures var evs := StreamEventsOf(req, prep, run, search);
      && |evs| > 0
      && IsTerminal(evs[|evs| - 1])
      && NoTerminal(evs[..|evs| - 1])
      && (prep.None? ==> evs[0] == Start(req.conversationId, req.model))
      && (prep.None? ==> forall i | 1 <= i < |evs| :: !evs[i].Start?)
      && (prep.Some? ==> evs == [Error(RequestErrorPrefix + prep.value)])
  {
    if prep.None? {
      var ms := StreamedMessages(run.chunks);
      var evs := StreamEventsOf(req, prep, run, search);
      MessagesPlayBack(ms, req.message, search);
      NoStartInBody(ms, req.message, search);
      assert evs[..|evs| - 1] == [Start(req.conversationId, req.model)] + MessagesEvents(ms, req.message, search);
    }
  }

  /**
   * On success the content events spell out the full response, `done`
   * carries it, and it is recorded exactly when it is not empty.
   */
  lemma {:induction false} StreamDoneCarriesContent(req: ChatRequest, run: StreamRun, search: string -> SearchOutcome)
    requires run.failure.None?
    ensures var evs := StreamEventsOf(req, None, run, search);
      var full := ContentText(evs);
      && evs[|evs| - 1] == Done(full)
      && full == MessagesText(StreamedMessages(run.chunks))
      && StreamRecorded(req, None, run) == [HumanEntry(req)] + (if full == "" then [] else [Entry(AssistantRole, full)])
  {
    var ms := StreamedMessages(run.chunks);
    var full := MessagesText(ms);
    var start := [Start(req.conversationId, req.model)];
    var body := MessagesEvents(ms, req.message, search);
    var evs := StreamEventsOf(req, None, run, search);
    assert evs == (start + body) + [Done(full)];
    MessagesPlayBack(ms, req.message, search);
    assert ContentText(start) == "" by {
      assert start[..0] == [];
    }
    assert ContentText([Done(full)]) == "" by {
      assert [Done(full)][..0] == [];
    }
    ContentTextAppend(start, body);
    ContentTextAppend(start + body, [Done(full)]);
    assert ContentText(evs) == full;
  }

  /**
   * When the agent's stream raises, the last event is the error and the
   * error text, not the partial answer, is what gets recorded.
   */
  lemma StreamFailureRecordsError(req: ChatRequest, run: StreamRun, search: string -> SearchOutcome)
    requires run.failure.Some?
    ensures var evs := StreamEventsOf(req, None, run, search);
      && evs[|evs| - 1] == Error(GraphErrorPrefix + run.failure.value)
      && StreamRecorded(req, None, run) == [HumanEntry(req), Entry(AssistantRole, GraphErrorPrefix + run.failure.value)]
  {
  }

  // ---------------------------------------------------------------------
  // The store and its handlers

  class ConversationStore {
    var history: Store

    constructor()
      ensures history == map[]
    {
      history := map[];
    }

    /** The stored conversation, or an empty one for an unknown id; reading changes nothing. */
    function GetChatHistory(conversationId: string): (r: HistoryReply)
      reads this
      ensures r.conversationId == conversationId
      ensures conversationId in history ==> r.messages == history[conversationId]
      ensures conversationId !in history ==> r.messages == []
    {
      if conversationId !in history then HistoryReply([], conversationId)
      else HistoryReply(history[conversationId], conversationId)
    }

    /** Removes a conversation if present; an unknown id leaves the store as it was. */
    method ClearChatHistory(conversationId: string) returns (notice: string)
      modifies this
      ensures conversationId !in history
      ensures history == old(history) - {conversationId}
      ensures conversationId !in old(history) ==> history == old(history)
      ensures notice == if conversationId in old(history) then ClearedNotice(conversationId) else MissingNotice(conversationId)
    {
      if conversationId in history {
        history := history - {conversationId};
        notice := ClearedNotice(conversationId);
      } else {
        notice := MissingNotice(conversationId);
      }
    }

    /** Records the human message, asks the agent, records and returns its reply. */
    method Chat(req: ChatRequest, prep: Option<string>, agent: (seq<Msg>, AgentConfig) -> AgentOutcome)
      returns (result: Result<ChatResponse, HttpError>)
      modifies this
      ensures history == AfterChat(old(history), req, prep, agent)
      ensures result == ChatResult(Lookup(old(history), req.conversationId), req, prep, agent)
    {
      var id := req.conversationId;
      if id !in history {
        history := history[id := []];
      }
      history := history[id := history[id] + [HumanEntry(req)]];
      ghost var prior := Lookup(old(history), id);
      assert history == old(history)[id := prior + [HumanEntry(req)]];
      var messages := BuildAgentInput(history[id]);
      if prep.Some? {
        result := Err(HttpError(500, RequestErrorPrefix + prep.value));
        return;
      }
      var aiResponse := "";
      match agent(messages, ConfigOf(req)) {
        case Returned(ms) =>
          aiResponse := ExtractReply(ms);
        case Raised(error) =>
          aiResponse := GraphErrorPrefix + error;
      }
      if aiResponse == "" {
        aiResponse := FallbackReply;
      }
      assert aiResponse == TurnReply(prior, req, agent);
      assert (prior + [HumanEntry(req)]) + [Entry(AssistantRole, aiResponse)] == prior + ChatRecorded(prior, req, prep, agent);
      history := history[id := history[id] + [Entry(AssistantRole, aiResponse)]];
      result := Ok(ChatResponse(aiResponse, id, SuccessStatus, req.model));
    }

    /** The streaming variant: emits the events and records the turn. */
    method GenerateStreamResponse(req: ChatRequest, prep: Option<string>,
                                  stream: (seq<Msg>, AgentConfig) -> StreamRun,
                                  search: string -> SearchOutcome)
      returns (events: seq<Event>)
      modifies this
      ensures var prior := Lookup(old(history), req.conversationId);
        var run := StreamRunFor(prior, req, stream);
        && history == old(history)[req.conversationId := prior + StreamRecorded(req, prep, run)]
        && events == StreamEventsOf(req, prep, run, search)
    {
      var id := req.conversationId;
      if id !in history {
        history := history[id := []];
      }
      history := history[id := history[id] + [HumanEntry(req)]];
      ghost var prior := Lookup(old(history), id);
      assert history == old(history)[id := prior + [HumanEntry(req)]];
      var messages := BuildAgentInput(history[id]);
      if prep.Some? {
        events := [Error(RequestErrorPrefix + prep.value)];
        assert StreamRecorded(req, prep, StreamRunFor(prior, req, stream)) == [HumanEntry(req)];
        return;
      }
      var run := stream(messages, ConfigOf(req));
      assert run == StreamRunFor(prior, req, stream);
      var body := RunStream(req, run, search);
      events := [Start(id, req.model)] + body;
      assert (prior + [HumanEntry(req)]) + StreamReplyEntries(run) == prior + StreamRecorded(req, prep, run);
    }

    /**
     * The inner part of the streaming handler: plays the agent's stream
     * back, then records the answer when it is not empty, or records the
     * error the stream raised.
     */
    method RunStream(req: ChatRequest, run: StreamRun, search: string -> SearchOutcome) returns (events: seq<Event>)
      requires req.conversationId in history
      modifies this
      ensures events == StreamBody(req, run, search)
      ensures history == old(history)[req.conversationId := old(history)[req.conversationId] + StreamReplyEntries(run)]
    {
      var id := req.conversationId;
      var body, fullResponse := PlayChunks(run.chunks, req.message, search);
      match run.failure {
        case None =>
          if fullResponse != "" {
            history := history[id := history[id] + [Entry(AssistantRole, fullResponse)]];
          } else {
            assert old(history)[id] + [] == old(history)[id];
            assert history == old(history)[id := old(history)[id]];
          }
          events := body + [Done(fullResponse)];
        case Some(error) =>
          var errorMsg := GraphErrorPrefix + error;
          events := body + [Error(errorMsg)];
          history := history[id := history[id] + [Entry(AssistantRole, errorMsg)]];
      }
    }
  }
}
