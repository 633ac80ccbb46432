/**
 * The events of the streaming chat endpoint and what each message of the
 * agent's stream turns into. A finished AI answer is played back one
 * character at a time; an AI message that asks for tools announces the
 * calls and runs the search tool for each search call; a tool message is
 * relayed as a tool result.
 */
module StreamEvents {
  import opened Wrappers
  import opened Messages

  const SearchErrorPrefix := "搜索出错: "

  /** One server-sent event; the JSON framing is not modelled. */
  datatype Event =
    | Start(conversationId: string, model: string)
    | Content(ch: char)
    | ToolCallEvent(tools: seq<ToolCall>)
    | ToolResult(content: string)
    | Done(fullResponse: string)
    | Error(error: string)

  predicate IsTerminal(e: Event) {
    e.Done? || e.Error?
  }

  ghost predicate NoTerminal(evs: seq<Event>) {
    forall i | 0 <= i < |evs| :: !IsTerminal(evs[i])
  }

  /** What the search tool gives back for one query: its result as text, or the error it raised. */
  datatype SearchOutcome = Found(text: string) | SearchFailed(error: string)

  /** One node's entry in a step of the agent's stream; a node without "messages" has none. */
  datatype NodeUpdate = NodeUpdate(node: string, messages: seq<Msg>)

  /** The steps the agent's stream delivered, and the error it raised after them, if any. */
  datatype StreamRun = StreamRun(chunks: seq<seq<NodeUpdate>>, failure: Option<string>)

  /** The query given to the search tool: the call's non-empty `query` argument, else the user's message. */
  function SearchQuery(call: ToolCall, userMessage: string): (q: string)
    ensures "query" in call.args && call.args["query"] != "" ==> q == call.args["query"]
    ensures !("query" in call.args && call.args["query"] != "") ==> q == userMessage
  {
    if "query" in call.args && call.args["query"] != "" then call.args["query"] else userMessage
  }

  function SearchResultText(o: SearchOutcome): string {
    match o
    case Found(text) => text
    case SearchFailed(error) => SearchErrorPrefix + error
  }

  /** One tool_result event per call named "search", in the order of the calls. */
  function SearchEvents(calls: seq<ToolCall>, userMessage: string, search: string -> SearchOutcome): seq<Event>
  {
    if calls == [] then []
    else
      var call := calls[|calls| - 1];
      SearchEvents(calls[..|calls| - 1], userMessage, search) +
      (if call.name == "search" then [ToolResult(SearchResultText(search(SearchQuery(call, userMessage))))] else [])
  }

  /** One content event per character of s. */
  function CharEvents(s: string): seq<Event> {
    if s == [] then [] else CharEvents(s[..|s| - 1]) + [Content(s[|s| - 1])]
  }

  /** The events one message of the agent's stream produces. */
  function MessageEvents(m: Msg, userMessage: string, search: string -> SearchOutcome): seq<Event> {
    match m
    case AI(_, content, calls) =>
      if calls == [] then CharEvents(content)
      else [ToolCallEvent(calls)] + SearchEvents(calls, userMessage, search)
    case Tool(content) => [ToolResult(content)]  // the only message whose type is "tool"
    case Human(_) => []
    case Plain(_) => []
  }

  /** The characters one message adds to the full response. */
  function MessageText(m: Msg): string {
    if IsFinalAnswer(m) then m.content else ""
  }

  function MessagesEvents(ms: seq<Msg>, userMessage: string, search: string -> SearchOutcome): seq<Event> {
    if ms == [] then []
    else MessagesEvents(ms[..|ms| - 1], userMessage, search) + MessageEvents(ms[|ms| - 1], userMessage, search)
  }

  function MessagesText(ms: seq<Msg>): string {
    if ms == [] then "" else MessagesText(ms[..|ms| - 1]) + MessageText(ms[|ms| - 1])
  }

  /** The messages of one step, node after node. */
  function ChunkMessages(chunk: seq<NodeUpdate>): seq<Msg> {
    if chunk == [] then [] else ChunkMessages(chunk[..|chunk| - 1]) + chunk[|chunk| - 1].messages
  }

  /** The messages of all steps, in the order the stream delivered them. */
  function StreamedMessages(chunks: seq<seq<NodeUpdate>>): seq<Msg> {
    if chunks == [] then [] else StreamedMessages(chunks[..|chunks| - 1]) + ChunkMessages(chunks[|chunks| - 1])
  }

  /** The text a client gets by concatenating the characters of the content events, in order. */
  function ContentText(evs: seq<Event>): string {
    if evs == [] then ""
    else ContentText(evs[..|evs| - 1]) + (if evs[|evs| - 1].Content? then [evs[|evs| - 1].ch] else "")
  }

  lemma {:induction false} ContentTextAppend(a: seq<Event>, b: seq<Event>)
    ensures ContentText(a + b) == ContentText(a) + ContentText(b)
    decreases |b|
  {
    if b == [] {
      assert a + b == a;
    } else {
      var b' := b[..|b| - 1];
      var e := b[|b| - 1];
      var tail := if e.Content? then [e.ch] else "";
      assert (a + b)[..|a + b| - 1] == a + b';
      assert (a + b)[|a + b| - 1] == e;
      assert ContentText(a + b) == ContentText(a + b') + tail;
      assert ContentText(b) == ContentText(b') + tail;
      ContentTextAppend(a, b');
    }
  }

  lemma {:induction false} CharEventsPlayBack(s: string)
    ensures ContentText(CharEvents(s)) == s
    ensures |CharEvents(s)| == |s|
    ensures forall i | 0 <= i < |s| :: CharEvents(s)[i] == Content(s[i])
    ensures NoTerminal(CharEvents(s))
    decreases |s|
  {
    if s != [] {
      var s' := s[..|s| - 1];
      CharEventsPlayBack(s');
      ContentTextAppend(CharEvents(s'), [Content(s[|s| - 1])]);
      assert [Content(s[|s| - 1])][..0] == [];
      assert s' + [s[|s| - 1]] == s;
    }
  }

  lemma {:induction false} SearchEventsAreSilent(calls: seq<ToolCall>, userMessage: string, search: string -> SearchOutcome)
    ensures ContentText(SearchEvents(calls, userMessage, search)) == ""
    ensures NoTerminal(SearchEvents(calls, userMessage, search))
    decreases |calls|
  {
    if calls != [] {
      var calls' := calls[..|calls| - 1];
      var call := calls[|calls| - 1];
      SearchEventsAreSilent(calls', userMessage, search);
      var tail := if call.name == "search" then [ToolResult(SearchResultText(search(SearchQuery(call, userMessage))))] else [];
      ContentTextAppend(SearchEvents(calls', userMessage, search), tail);
      if tail != [] {
        assert tail[..0] == [];
      }
    }
  }

  /** How many of the calls name the search tool. */
  function SearchCalls(calls: seq<ToolCall>): nat {
    if calls == [] then 0
    else SearchCalls(calls[..|calls| - 1]) + (if calls[|calls| - 1].name == "search" then 1 else 0)
  }

  /** Running the searches gives one tool_result event per search call and nothing else. */
  lemma {:induction false} SearchEventsAreResults(calls: seq<ToolCall>, userMessage: string, search: string -> SearchOutcome)
    ensures |SearchEvents(calls, userMessage, search)| == SearchCalls(calls)
    ensures forall i | 0 <= i < |SearchEvents(calls, userMessage, search)| :: SearchEvents(calls, userMessage, search)[i].ToolResult?
    decreases |calls|
  {
    if calls != [] {
      SearchEventsAreResults(calls[..|calls| - 1], userMessage, search);
    }
  }

  /**
   * The shape of one message's events: only a final answer produces content
   * events, one per character; a tool-calling AI message produces the
   * tool_call event first and then one tool_result per search call; a tool
   * message is relayed as one tool_result; any other message produces none.
   */
  lemma MessageEventsKinds(m: Msg, userMessage: string, search: string -> SearchOutcome)
    ensures var r := MessageEvents(m, userMessage, search);
      && (forall i | 0 <= i < |r| :: r[i].Content? ==> IsFinalAnswer(m))
      && (IsFinalAnswer(m) ==> |r| == |m.content| && forall i | 0 <= i < |r| :: r[i] == Content(m.content[i]))
      && (m.AI? && m.toolCalls != [] ==>
            && |r| == 1 + SearchCalls(m.toolCalls)
            && r[0] == ToolCallEvent(m.toolCalls)
            && forall i | 1 <= i < |r| :: r[i].ToolResult?)
      && (m.Tool? ==> r == [ToolResult(m.content)])
      && (m.Human? || m.Plain? ==> r == [])
  {
    match m
    case AI(_, content, calls) =>
      if calls == [] {
        CharEventsPlayBack(content);
      } else {
        SearchEventsAreResults(calls, userMessage, search);
        var r := MessageEvents(m, userMessage, search);
        assert forall i | 1 <= i < |r| :: r[i] == SearchEvents(calls, userMessage, search)[i - 1];
      }
    case Tool(_) =>
    case Human(_) =>
    case Plain(_) =>
  }

  /** No message of the agent's stream produces a `start` event. */
  lemma {:induction false} NoStartInBody(ms: seq<Msg>, userMessage: string, search: string -> SearchOutcome)
    ensures forall i | 0 <= i < |MessagesEvents(ms, userMessage, search)| :: !MessagesEvents(ms, userMessage, search)[i].Start?
    decreases |ms|
  {
    if ms != [] {
      var ms' := ms[..|ms| - 1];
      var m := ms[|ms| - 1];
      NoStartInBody(ms', userMessage, search);
      MessageEventsKinds(m, userMessage, search);
      var a, b := MessagesEvents(ms', userMessage, search), MessageEvents(m, userMessage, search);
      assert MessagesEvents(ms, userMessage, search) == a + b;
      assert forall i | 0 <= i < |b| :: !b[i].Start? by {
        if m.AI? && m.toolCalls != [] {
          SearchEventsAreResults(m.toolCalls, userMessage, search);
        }
      }
    }
  }

  /** Only a final answer contributes characters, and it contributes exactly its content. */
  lemma MessagePlayBack(m: Msg, userMessage: string, search: string -> SearchOutcome)
    ensures ContentText(MessageEvents(m, userMessage, search)) == MessageText(m)
    ensures NoTerminal(MessageEvents(m, userMessage, search))
  {
    match m
    case AI(_, content, calls) =>
      if calls == [] {
        CharEventsPlayBack(content);
      } else {
        SearchEventsAreSilent(calls, userMessage, search);
        ContentTextAppend([ToolCallEvent(calls)], SearchEvents(calls, userMessage, search));
        assert [ToolCallEvent(calls)][..0] == [];
      }
    case Tool(content) =>
      assert [ToolResult(content)][..0] == [];
    case Human(_) =>
    case Plain(_) =>
  }

  /** The content events of a whole stream spell out exactly the concatenated final answers. */
  lemma {:induction false} MessagesPlayBack(ms: seq<Msg>, userMessage: string, search: string -> SearchOutcome)
    ensures ContentText(MessagesEvents(ms, userMessage, search)) == MessagesText(ms)
    ensures NoTerminal(MessagesEvents(ms, userMessage, search))
    decreases |ms|
  {
    if ms != [] {
      var ms' := ms[..|ms| - 1];
      MessagesPlayBack(ms', userMessage, search);
      MessagePlayBack(ms[|ms| - 1], userMessage, search);
      ContentTextAppend(MessagesEvents(ms', userMessage, search), MessageEvents(ms[|ms| - 1], userMessage, search));
    }
  }

  lemma MessagesStep(ms: seq<Msg>, m: Msg, userMessage: string, search: string -> SearchOutcome)
    ensures MessagesEvents(ms + [m], userMessage, search) == MessagesEvents(ms, userMessage, search) + MessageEvents(m, userMessage, search)
    ensures MessagesText(ms + [m]) == MessagesText(ms) + MessageText(m)
  {
    assert (ms + [m])[..|ms|] == ms;
  }

  /** Emits the events of one message and the characters it adds to the full response. */
  method EmitMessage(m: Msg, userMessage: string, search: string -> SearchOutcome)
    returns (evs: seq<Event>, text: string)
    ensures evs == MessageEvents(m, userMessage, search)
    ensures text == MessageText(m)
  {
    evs, text := [], "";
    match m {
      case AI(_, content, calls) =>
        if calls == [] {
          if content != "" {
            for i := 0 to |content|
              invariant evs == CharEvents(content[..i])
              invariant text == content[..i]
            {
              assert content[..i + 1][..i] == content[..i];
              evs := evs + [Content(content[i])];
              text := text + [content[i]];
            }
            assert content[..|content|] == content;
          }
        } else {
          evs := [ToolCallEvent(calls)];
          for i := 0 to |calls|
            invariant evs == [ToolCallEvent(calls)] + SearchEvents(calls[..i], userMessage, search)
          {
            assert calls[..i + 1][..i] == calls[..i];
            var call := calls[i];
            if call.name == "search" {
              var query := SearchQuery(call, userMessage);
              var outcome := search(query);
              match outcome {
                case Found(result) => evs := evs + [ToolResult(result)];
                case SearchFailed(error) => evs := evs + [ToolResult(SearchErrorPrefix + error)];
              }
            }
          }
          assert calls[..|calls|] == calls;
        }
      case Tool(content) =>
        evs := [ToolResult(content)];
      case Human(_) =>
      case Plain(_) =>
    }
  }

  /** Events are produced message by message, so a split of the messages splits the events. */
  lemma {:induction false} MessagesEventsAppend(a: seq<Msg>, b: seq<Msg>, userMessage: string, search: string -> SearchOutcome)
    ensures MessagesEvents(a + b, userMessage, search) == MessagesEvents(a, userMessage, search) + MessagesEvents(b, userMessage, search)
    decreases |b|
  {
    if b == [] {
      assert a + b == a;
    } else {
      var b', m := b[..|b| - 1], b[|b| - 1];
      calc {
        MessagesEvents(a + b, userMessage, search);
        { assert a + b == (a + b') + [m]; MessagesStep(a + b', m, userMessage, search); }
        MessagesEvents(a + b', userMessage, search) + MessageEvents(m, userMessage, search);
        { MessagesEventsAppend(a, b', userMessage, search); }
        MessagesEvents(a, userMessage, search) + MessagesEvents(b', userMessage, search) + MessageEvents(m, userMessage, search);
      }
    }
  }

  lemma {:induction false} MessagesTextAppend(a: seq<Msg>, b: seq<Msg>)
    ensures MessagesText(a + b) == MessagesText(a) + MessagesText(b)
    decreases |b|
  {
    if b == [] {
      assert a + b == a;
    } else {
      var b', m := b[..|b| - 1], b[|b| - 1];
      calc {
        MessagesText(a + b);
        { assert (a + b)[..|a + b| - 1] == a + b'; }
        MessagesText(a + b') + MessageText(m);
        { MessagesTextAppend(a, b'); }
        MessagesText(a) + MessagesText(b') + MessageText(m);
      }
    }
  }

  lemma ChunkMessagesStep(chunk: seq<NodeUpdate>, j: nat)
    requires j < |chunk|
    ensures ChunkMessages(chunk[..j + 1]) == ChunkMessages(chunk[..j]) + chunk[j].messages
  {
    assert chunk[..j + 1][..j] == chunk[..j];
  }

  lemma StreamedMessagesStep(chunks: seq<seq<NodeUpdate>>, i: nat)
    requires i < |chunks|
    ensures StreamedMessages(chunks[..i + 1]) == StreamedMessages(chunks[..i]) + ChunkMessages(chunks[i])
  {
    assert chunks[..i + 1][..i] == chunks[..i];
  }

  /** Plays back the messages one node delivered in one step. */
  method PlayMessages(ms: seq<Msg>, userMessage: string, search: string -> SearchOutcome)
    returns (evs: seq<Event>, text: string)
    ensures evs == MessagesEvents(ms, userMessage, search)
    ensures text == MessagesText(ms)
  {
    evs, text := [], "";
    for k := 0 to |ms|
      invariant evs == MessagesEvents(ms[..k], userMessage, search)
      invariant text == MessagesText(ms[..k])
    {
      var e, t := EmitMessage(ms[k], userMessage, search);
      assert ms[..k + 1] == ms[..k] + [ms[k]];
      MessagesStep(ms[..k], ms[k], userMessage, search);
      evs := evs + e;
      text := text + t;
    }
    assert ms[..|ms|] == ms;
  }

  /** Plays back one step of the agent's stream, node by node. */
  method PlayChunk(chunk: seq<NodeUpdate>, userMessage: string, search: string -> SearchOutcome)
    returns (evs: seq<Event>, text: string)
    ensures evs == MessagesEvents(ChunkMessages(chunk), userMessage, search)
    ensures text == MessagesText(ChunkMessages(chunk))
  {
    evs, text := [], "";
    for j := 0 to |chunk|
      invariant evs == MessagesEvents(ChunkMessages(chunk[..j]), userMessage, search)
      invariant text == MessagesText(ChunkMessages(chunk[..j]))
    {
      var e, t := PlayMessages(chunk[j].messages, userMessage, search);
      ChunkMessagesStep(chunk, j);
      MessagesEventsAppend(ChunkMessages(chunk[..j]), chunk[j].messages, userMessage, search);
      MessagesTextAppend(ChunkMessages(chunk[..j]), chunk[j].messages);
      evs := evs + e;
      text := text + t;
    }
    assert chunk[..|chunk|] == chunk;
  }

  /** Plays back every step of the agent's stream, in the order the steps arrive. */
  method PlayChunks(chunks: seq<seq<NodeUpdate>>, userMessage: string, search: string -> SearchOutcome)
    returns (evs: seq<Event>, fullResponse: string)
    ensures evs == MessagesEvents(StreamedMessages(chunks), userMessage, search)
    ensures fullResponse == MessagesText(StreamedMessages(chunks))
  {
    evs, fullResponse := [], "";
    for i := 0 to |chunks|
      invariant evs == MessagesEvents(StreamedMessages(chunks[..i]), userMessage, search)
      invariant fullResponse == MessagesText(StreamedMessages(chunks[..i]))
    {
      var e, t := PlayChunk(chunks[i], userMessage, search);
      StreamedMessagesStep(chunks, i);
      MessagesEventsAppend(StreamedMessages(chunks[..i]), ChunkMessages(chunks[i]), userMessage, search);
      MessagesTextAppend(StreamedMessages(chunks[..i]), ChunkMessages(chunks[i]));
      evs := evs + e;
      fullResponse := fullResponse + t;
    }
    assert chunks[..|chunks|] == chunks;
  }
}
