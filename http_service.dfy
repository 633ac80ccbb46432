/**
 * The chat endpoint that talks to a remote agent server through its client
 * SDK. The handler sends the single user message, folds the server's stream
 * of (event, data) chunks into the final answer, a log of what happened and
 * the thread id, and stops at the first `end` chunk. The client's stream is
 * a parameter: a function from (thread id, agent name, input messages) to
 * the chunks the server delivered and the error the stream raised, if any.
 */
module HttpService {
  import opened Wrappers

  const ChatFailurePrefix := "聊天请求处理失败: "
  const ClientNotReady := "LangGraph客户端未初始化"
  const ChatSucceeded := "聊天请求处理成功"
  const DeleteFailurePrefix := "删除线程失败: "
  const AgentName := "agent"
  const DefaultModelLabel := "default"
  const MaxMessageLength := 2000
  const InternalServerError := 500

  /** A message as a plain dictionary of string fields. */
  type WireMsg = map<string, string>

  /** A chunk's data: its "messages" list (empty when absent) and its other fields. */
  datatype ChunkData = ChunkData(messages: seq<WireMsg>, rest: map<string, string>)

  /** One streamed chunk; threadId is present only when the chunk carries a thread_id attribute. */
  datatype Chunk = Chunk(event: string, data: ChunkData, threadId: Option<string>)

  datatype ClientStream = ClientStream(chunks: seq<Chunk>, failure: Option<string>)

  /** An entry of the response's full_data log. */
  datatype LogEntry = MessageLog(content: string) | ToolCallLog(data: ChunkData)

  datatype ChatRequest = ChatRequest(message: string, threadId: Option<string>, model: Option<string>)

  datatype ResponseData = ResponseData(response: string, fullData: seq<LogEntry>, modelUsed: string)

  datatype ChatResponse = ChatResponse(success: bool, message: string, data: ResponseData, threadId: Option<string>)

  datatype HttpError = HttpError(status: nat, detail: string)

  datatype ThreadDeleted = ThreadDeleted(success: bool, message: string)

  datatype ModelCatalog = ModelCatalog(models: seq<string>, default: string)

  function DigitChar(d: nat): char
    requires d < 10
  {
    (48 + d) as char
  }

  function DecimalText(n: nat): string
    decreases n
  {
    if n < 10 then [DigitChar(n)] else DecimalText(n / 10) + [DigitChar(n % 10)]
  }

  /** How an HTTP exception prints when it is caught and formatted: "<status>: <detail>". */
  function ExceptionText(e: HttpError): string {
    DecimalText(e.status) + ": " + e.detail
  }

  /** The single message sent to the agent: the user's text as a human message. */
  function AgentMessage(text: string): WireMsg {
    map["role" := "human", "content" := text]
  }

  /** `request.model or "default"`: an absent or empty model name reports "default". */
  function ModelUsed(model: Option<string>): (r: string)
    ensures r != ""
    ensures model.Some? && model.value != "" ==> r == model.value
    ensures model.None? || model.value == "" ==> r == DefaultModelLabel
  {
    if model.Some? && model.value != "" then model.value else DefaultModelLabel
  }

  // ---------------------------------------------------------------------
  // Folding the chunks

  predicate IsAssistant(m: WireMsg) {
    "role" in m && m["role"] == "assistant"
  }

  function ContentOf(m: WireMsg): string {
    if "content" in m then m["content"] else ""
  }

  /** The loop's state: final_message and response_data. */
  datatype Progress = Progress(finalMessage: string, log: seq<LogEntry>)

  function AbsorbMessages(p: Progress, ms: seq<WireMsg>): Progress {
    if ms == [] then p
    else
      var q := AbsorbMessages(p, ms[..|ms| - 1]);
      var m := ms[|ms| - 1];
      if IsAssistant(m) then Progress(ContentOf(m), q.log + [MessageLog(ContentOf(m))]) else q
  }

  /** The effect of one chunk before the first `end`. */
  function Absorb(p: Progress, c: Chunk): Progress {
    if c.event == "messages" then AbsorbMessages(p, c.data.messages)
    else if c.event == "tools" then Progress(p.finalMessage, p.log + [ToolCallLog(c.data)])
    else p
  }

  function Folded(chunks: seq<Chunk>): Progress {
    if chunks == [] then Progress("", [])
    else Absorb(Folded(chunks[..|chunks| - 1]), chunks[|chunks| - 1])
  }

  /** The position of the first `end` chunk, or the length when there is none. */
  function FirstEnd(chunks: seq<Chunk>): (k: nat)
    ensures k <= |chunks|
    ensures forall j | 0 <= j < k :: chunks[j].event != "end"
    ensures k < |chunks| ==> chunks[k].event == "end"
    decreases |chunks|
  {
    if chunks == [] then 0
    else if chunks[0].event == "end" then 0
    else 1 + FirstEnd(chunks[1..])
  }

  /** The content of the last message entry of a log, or "" when it has none. */
  function LastLoggedMessage(log: seq<LogEntry>): string {
    if log == [] then ""
    else if log[|log| - 1].MessageLog? then log[|log| - 1].content
    else LastLoggedMessage(log[..|log| - 1])
  }

  /** The contents of the log's message entries, in order. */
  function LoggedContents(log: seq<LogEntry>): seq<string> {
    if log == [] then []
    else LoggedContents(log[..|log| - 1]) + (if log[|log| - 1].MessageLog? then [log[|log| - 1].content] else [])
  }

  /** The data of the log's tool_call entries, in order. */
  function LoggedToolData(log: seq<LogEntry>): seq<ChunkData> {
    if log == [] then []
    else LoggedToolData(log[..|log| - 1]) + (if log[|log| - 1].ToolCallLog? then [log[|log| - 1].data] else [])
  }

  /** The contents of the assistant messages of a message list, in order. */
  function AssistantContentsOf(ms: seq<WireMsg>): seq<string> {
    if ms == [] then []
    else AssistantContentsOf(ms[..|ms| - 1]) + (if IsAssistant(ms[|ms| - 1]) then [ContentOf(ms[|ms| - 1])] else [])
  }

  /** The contents of the assistant messages delivered by `messages` chunks, in arrival order. */
  function AssistantContents(chunks: seq<Chunk>): seq<string> {
    if chunks == [] then []
    else
      var c := chunks[|chunks| - 1];
      AssistantContents(chunks[..|chunks| - 1]) + (if c.event == "messages" then AssistantContentsOf(c.data.messages) else [])
  }

  /** The data of the `tools` chunks, in arrival order. */
  function ToolsData(chunks: seq<Chunk>): seq<ChunkData> {
    if chunks == [] then []
    else
      var c := chunks[|chunks| - 1];
      ToolsData(chunks[..|chunks| - 1]) + (if c.event == "tools" then [c.data] else [])
  }

  /** One message entry per content, in order. */
  function MessageEntries(contents: seq<string>): seq<LogEntry> {
    if contents == [] then []
    else MessageEntries(contents[..|contents| - 1]) + [MessageLog(contents[|contents| - 1])]
  }

  /** The entries one chunk before the first `end` adds to full_data. */
  function ChunkLog(c: Chunk): seq<LogEntry> {
    if c.event == "messages" then MessageEntries(AssistantContentsOf(c.data.messages))
    else if c.event == "tools" then [ToolCallLog(c.data)]
    else []
  }

  /** full_data as the chunks' entries concatenated in arrival order. */
  function ExpectedLog(chunks: seq<Chunk>): seq<LogEntry> {
    if chunks == [] then []
    else ExpectedLog(chunks[..|chunks| - 1]) + ChunkLog(chunks[|chunks| - 1])
  }

  /** The last of a list of contents, or "" for none. */
  function LastOr(contents: seq<string>): string {
    if contents == [] then "" else contents[|contents| - 1]
  }

  lemma LogAppend(log: seq<LogEntry>, e: LogEntry)
    ensures LoggedContents(log + [e]) == LoggedContents(log) + (if e.MessageLog? then [e.content] else [])
    ensures LoggedToolData(log + [e]) == LoggedToolData(log) + (if e.ToolCallLog? then [e.data] else [])
  {
    assert (log + [e])[..|log|] == log;
  }

  ghost predicate Consistent(p: Progress) {
    p.finalMessage == LastLoggedMessage(p.log)
  }

  /** Absorbing a message list appends one message entry per assistant message, in order. */
  lemma {:induction false} AbsorbMessagesLog(p: Progress, ms: seq<WireMsg>)
    ensures AbsorbMessages(p, ms).log == p.log + MessageEntries(AssistantContentsOf(ms))
    ensures AbsorbMessages(p, ms).finalMessage ==
      if AssistantContentsOf(ms) == [] then p.finalMessage else LastOr(AssistantContentsOf(ms))
    decreases |ms|
  {
    if ms == [] {
      assert p.log + [] == p.log;
    } else {
      AbsorbMessagesLog(p, ms[..|ms| - 1]);
      var q := AbsorbMessages(p, ms[..|ms| - 1]);
      var m := ms[|ms| - 1];
      var before := AssistantContentsOf(ms[..|ms| - 1]);
      if IsAssistant(m) {
        var after := before + [ContentOf(m)];
        assert AssistantContentsOf(ms) == after;
        assert after[..|after| - 1] == before;
        assert MessageEntries(after) == MessageEntries(before) + [MessageLog(ContentOf(m))];
      } else {
        assert AssistantContentsOf(ms) == before + [];
        assert before + [] == before;
        assert AbsorbMessages(p, ms) == q;
      }
    }
  }

  /**
   * Absorbing a message list keeps the old log and appends the contents of
   * its assistant messages as message entries, in order; final_message
   * becomes the last of them, and stays as it was when there is none, so it
   * is still the log's last message entry.
   */
  lemma AbsorbMessagesKeepsConsistent(p: Progress, ms: seq<WireMsg>)
    requires Consistent(p)
    ensures Consistent(AbsorbMessages(p, ms))
    ensures AbsorbMessages(p, ms).log == p.log + MessageEntries(AssistantContentsOf(ms))
    ensures LoggedContents(AbsorbMessages(p, ms).log) == LoggedContents(p.log) + AssistantContentsOf(ms)
    ensures LoggedToolData(AbsorbMessages(p, ms).log) == LoggedToolData(p.log)
    ensures AbsorbMessages(p, ms).finalMessage ==
      if AssistantContentsOf(ms) == [] then p.finalMessage else LastOr(AssistantContentsOf(ms))
  {
    var contents := AssistantContentsOf(ms);
    AbsorbMessagesLog(p, ms);
    LoggedAppend(p.log, MessageEntries(contents));
    MessageEntriesContents(contents);
    LastLoggedIsLastContent(p.log);
    LastLoggedIsLastContent(p.log + MessageEntries(contents));
    assert LoggedToolData(p.log) + [] == LoggedToolData(p.log);
  }

  /** The fold's log is the chunks' entries in arrival order; final_message is the last assistant content. */
  lemma {:induction false} FoldedIsExpectedLog(chunks: seq<Chunk>)
    ensures Folded(chunks).log == ExpectedLog(chunks)
    ensures Folded(chunks).finalMessage == LastOr(AssistantContents(chunks))
    decreases |chunks|
  {
    if chunks != [] {
      var before := chunks[..|chunks| - 1];
      var c := chunks[|chunks| - 1];
      FoldedIsExpectedLog(before);
      var p := Folded(before);
      if c.event == "messages" {
        AbsorbMessagesLog(p, c.data.messages);
      }
    }
  }

  /** Splitting a log splits its message contents and its tool data. */
  lemma {:induction false} LoggedAppend(a: seq<LogEntry>, b: seq<LogEntry>)
    ensures LoggedContents(a + b) == LoggedContents(a) + LoggedContents(b)
    ensures LoggedToolData(a + b) == LoggedToolData(a) + LoggedToolData(b)
    decreases |b|
  {
    if b == [] {
      assert a + b == a;
    } else {
      var b', e := b[..|b| - 1], b[|b| - 1];
      assert a + b == (a + b') + [e];
      LogAppend(a + b', e);
      LoggedAppend(a, b');
    }
  }

  /** Message entries made from contents give those contents back and no tool data. */
  lemma {:induction false} MessageEntriesContents(contents: seq<string>)
    ensures LoggedContents(MessageEntries(contents)) == contents
    ensures LoggedToolData(MessageEntries(contents)) == []
    decreases |contents|
  {
    if contents != [] {
      var c' := contents[..|contents| - 1];
      MessageEntriesContents(c');
      LogAppend(MessageEntries(c'), MessageLog(contents[|contents| - 1]));
    }
  }

  /** The expected log's message contents are the assistant contents, its tool data the `tools` data. */
  lemma {:induction false} ExpectedLogContents(chunks: seq<Chunk>)
    ensures LoggedContents(ExpectedLog(chunks)) == AssistantContents(chunks)
    ensures LoggedToolData(ExpectedLog(chunks)) == ToolsData(chunks)
    decreases |chunks|
  {
    if chunks != [] {
      var before := chunks[..|chunks| - 1];
      var c := chunks[|chunks| - 1];
      ExpectedLogContents(before);
      LoggedAppend(ExpectedLog(before), ChunkLog(c));
      if c.event == "messages" {
        MessageEntriesContents(AssistantContentsOf(c.data.messages));
      } else if c.event == "tools" {
        LogAppend([], ToolCallLog(c.data));
        assert [] + [ToolCallLog(c.data)] == [ToolCallLog(c.data)];
      }
    }
  }

  /** The last message entry of a log is the last of its message contents. */
  lemma {:induction false} LastLoggedIsLastContent(log: seq<LogEntry>)
    ensures LastLoggedMessage(log) == LastOr(LoggedContents(log))
    decreases |log|
  {
    if log != [] && !log[|log| - 1].MessageLog? {
      LastLoggedIsLastContent(log[..|log| - 1]);
    }
  }

  /**
   * The fold's log is exactly the chunks' entries in arrival order: for a
   * `messages` chunk one message entry per assistant message, for a `tools`
   * chunk one tool_call entry. Hence its message contents are the assistant
   * contents and its tool entries the `tools` data, each in order, and
   * final_message is the last assistant content ("" without one), which is
   * also the content of the log's last message entry.
   */
  lemma FoldedLogAccounts(chunks: seq<Chunk>)
    ensures Folded(chunks).log == ExpectedLog(chunks)
    ensures LoggedContents(Folded(chunks).log) == AssistantContents(chunks)
    ensures LoggedToolData(Folded(chunks).log) == ToolsData(chunks)
    ensures Folded(chunks).finalMessage == LastOr(AssistantContents(chunks))
    ensures Folded(chunks).finalMessage == LastLoggedMessage(Folded(chunks).log)
  {
    FoldedIsExpectedLog(chunks);
    ExpectedLogContents(chunks);
    LastLoggedIsLastContent(Folded(chunks).log);
  }

  /** The thread id reported back: the `end` chunk's when it carries one, else the request's. */
  function ReportedThread(req: ChatRequest, chunks: seq<Chunk>): Option<string> {
    var k := FirstEnd(chunks);
    if k < |chunks| && chunks[k].threadId.Some? then chunks[k].threadId else req.threadId
  }

  /** What the handler answers for a given client state and server stream. */
  function ChatOutcome(clientReady: bool, req: ChatRequest, s: ClientStream): Result<ChatResponse, HttpError> {
    if !clientReady then
      Err(HttpError(InternalServerError, ChatFailurePrefix + ExceptionText(HttpError(InternalServerError, ClientNotReady))))
    else
      var k := FirstEnd(s.chunks);
      if k == |s.chunks| && s.failure.Some? then
        Err(HttpError(InternalServerError, ChatFailurePrefix + s.failure.value))
      else
        var p := Folded(s.chunks[..k]);
        Ok(ChatResponse(true, ChatSucceeded, ResponseData(p.finalMessage, p.log, ModelUsed(req.model)), ReportedThread(req, s.chunks)))
  }

  /** Sends the user's message to the agent and folds the streamed chunks into the response. */
  method Chat(clientReady: bool, req: ChatRequest, runs: (Option<string>, string, seq<WireMsg>) -> ClientStream)
    returns (r: Result<ChatResponse, HttpError>)
    requires 1 <= |req.message| <= MaxMessageLength
    ensures r == ChatOutcome(clientReady, req, runs(req.threadId, AgentName, [AgentMessage(req.message)]))
  {
    if !clientReady {
      var inner := HttpError(InternalServerError, ClientNotReady);
      r := Err(HttpError(InternalServerError, ChatFailurePrefix + ExceptionText(inner)));
      return;
    }
    var messages := [AgentMessage(req.message)];
    var s := runs(req.threadId, AgentName, messages);
    var responseData: seq<LogEntry> := [];
    var finalMessage := "";
    var currentThreadId := req.threadId;
    var ended := false;
    var i := 0;
    while i < |s.chunks|
      invariant 0 <= i <= |s.chunks|
      invariant forall j | 0 <= j < i :: s.chunks[j].event != "end"
      invariant Progress(finalMessage, responseData) == Folded(s.chunks[..i])
      invariant currentThreadId == req.threadId
      invariant !ended
    {
      var chunk := s.chunks[i];
      assert s.chunks[..i + 1][..i] == s.chunks[..i];
      if chunk.event == "messages" {
        ghost var before := Progress(finalMessage, responseData);
        var ms := chunk.data.messages;
        for j := 0 to |ms|
          invariant Progress(finalMessage, responseData) == AbsorbMessages(before, ms[..j])
        {
          assert ms[..j + 1][..j] == ms[..j];
          var msg := ms[j];
          if "role" in msg && msg["role"] == "assistant" {
            finalMessage := if "content" in msg then msg["content"] else "";
            responseData := responseData + [MessageLog(finalMessage)];
          }
        }
        assert ms[..|ms|] == ms;
      } else if chunk.event == "tools" {
        responseData := responseData + [ToolCallLog(chunk.data)];
      } else if chunk.event == "end" {
        if chunk.threadId.Some? {
          currentThreadId := chunk.threadId;
        }
        ended := true;
        break;
      }
      i := i + 1;
    }
    assert FirstEnd(s.chunks) == i;
    if !ended && s.failure.Some? {
      r := Err(HttpError(InternalServerError, ChatFailurePrefix + s.failure.value));
      return;
    }
    r := Ok(ChatResponse(true, ChatSucceeded, ResponseData(finalMessage, responseData, ModelUsed(req.model)), currentThreadId));
  }

  /** Chunks after the first `end`, and any error the stream would raise after it, change nothing. */
  lemma ChunksAfterEndIgnored(clientReady: bool, req: ChatRequest, before: seq<Chunk>, end: Chunk,
                              after: seq<Chunk>, failure: Option<string>)
    requires forall j | 0 <= j < |before| :: before[j].event != "end"
    requires end.event == "end"
    ensures ChatOutcome(clientReady, req, ClientStream(before + [end] + after, failure)) ==
            ChatOutcome(clientReady, req, ClientStream(before + [end], None))
  {
    var long, short := before + [end] + after, before + [end];
    assert FirstEnd(long) == |before| by {
      assert long[|before|] == end;
      assert forall j | 0 <= j < |before| :: long[j] == before[j];
    }
    assert FirstEnd(short) == |before| by {
      assert short[|before|] == end;
      assert forall j | 0 <= j < |before| :: short[j] == before[j];
    }
    assert long[..|before|] == before == short[..|before|];
  }

  /**
   * A successful answer's response is the content of the last assistant
   * message delivered before the first `end` ("" without one), its
   * full_data holds those contents and the `tools` data in arrival order,
   * and its model is `request.model or "default"`.
   */
  lemma ResponseIsLastLoggedMessage(clientReady: bool, req: ChatRequest, s: ClientStream)
    requires ChatOutcome(clientReady, req, s).Ok?
    ensures var d := ChatOutcome(clientReady, req, s).value.data;
      var delivered := s.chunks[..FirstEnd(s.chunks)];
      && d.response == LastOr(AssistantContents(delivered))
      && d.response == LastLoggedMessage(d.fullData)
      && d.fullData == ExpectedLog(delivered)
      && LoggedContents(d.fullData) == AssistantContents(delivered)
      && LoggedToolData(d.fullData) == ToolsData(delivered)
      && d.modelUsed == ModelUsed(req.model)
  {
    FoldedLogAccounts(s.chunks[..FirstEnd(s.chunks)]);
  }

  /**
   * The reported thread id is the first `end` chunk's thread_id when it
   * carries one, and the request's thread id otherwise (also when no `end`
   * arrives).
   */
  lemma ReportedThreadRule(req: ChatRequest, before: seq<Chunk>, end: Chunk, after: seq<Chunk>)
    requires forall j | 0 <= j < |before| :: before[j].event != "end"
    requires end.event == "end"
    ensures ReportedThread(req, before + [end] + after) == if end.threadId.Some? then end.threadId else req.threadId
    ensures ReportedThread(req, before) == req.threadId
  {
    var chunks := before + [end] + after;
    assert chunks[|before|] == end;
    assert forall j | 0 <= j < |before| :: chunks[j] == before[j];
    assert FirstEnd(chunks) == |before|;
  }

  /** Without an initialised client every chat fails with 500 and the wrapped message. */
  lemma ChatWithoutClientFails(req: ChatRequest, s: ClientStream)
    ensures ChatOutcome(false, req, s) == Err(HttpError(500, ChatFailurePrefix + "500: " + ClientNotReady))
  {
    assert DecimalText(500) == "500" by {
      assert DecimalText(5) == "5";
      assert DecimalText(50) == "50";
    }
    assert ExceptionText(HttpError(500, ClientNotReady)) == "500: " + ClientNotReady;
    assert ChatFailurePrefix + ("500: " + ClientNotReady) == ChatFailurePrefix + "500: " + ClientNotReady;
  }

  // ---------------------------------------------------------------------
  // The other endpoints

  /** Reports success whenever the client is initialised; nothing is deleted. */
  function DeleteThread(clientReady: bool, threadId: string): (r: Result<ThreadDeleted, HttpError>)
    ensures r.Ok? <==> clientReady
    ensures r.Ok? ==> r.value == ThreadDeleted(true, "线程 " + threadId + " 删除成功")
    ensures r.Err? ==> r.error.status == 500 && r.error.detail == DeleteFailurePrefix + "500: " + ClientNotReady
  {
    if !clientReady then
      var inner := HttpError(InternalServerError, ClientNotReady);
      assert DecimalText(500) == "500" by {
        assert DecimalText(5) == "5";
        assert DecimalText(50) == "50";
      }
      Err(HttpError(InternalServerError, DeleteFailurePrefix + ExceptionText(inner)))
    else
      Ok(ThreadDeleted(true, "线程 " + threadId + " 删除成功"))
  }

  /** The fixed model list; its default is one of the listed models. */
  function AvailableModels(): (c: ModelCatalog)
    ensures c.default in c.models
    ensures |c.models| == 4
    ensures forall i, j | 0 <= i < j < |c.models| :: c.models[i] != c.models[j]
  {
    ModelCatalog(
      [ "openai/gpt-4o-mini",
        "openai/gpt-4-turbo-preview",
        "anthropic/claude-3-5-sonnet-20240620",
        "anthropic/claude-3-haiku-20240307" ],
      "openai/gpt-4o-mini")
  }
}
