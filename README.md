# ReAct agent chat service, modelled in Dafny

This project models the request-handling code of a chat service built around a ReAct
("reason + act") agent. The agent itself and its graph runtime belong to an external
orchestration library. What the model covers:

- **Direct chat service** (`src/api/direct_fastapi_app.py`). It keeps an in-process map from
  conversation id to an ordered list of `{role, content}` entries. It has four handlers:
  - `chat` records the user's message, calls the agent with the whole conversation, picks
    the reply out of the agent's result and records it.
  - `generate_stream_response` does the same turn as a stream of events. A final answer is
    played back one character at a time, tool calls are announced, and search results are
    relayed. The stream ends with one `done` or `error` event.
  - `get_chat_history` and `clear_chat_history` read and delete conversations.

  The class `DirectChat.ConversationStore` holds the map as a field and the handlers as
  methods. Each method is proved against pure functions of the old state (`AfterChat`,
  `StreamEventsOf`, `StreamRecorded`), and the service's promises are proved as lemmas about
  those functions.
- **ReAct graph** (`src/react_agent/graph.py`), modelled as pure code in `ReactGraph`:
  - the routing decision after the model node;
  - the reply that replaces the model's answer once the step budget is spent;
  - the graph wiring (`__start__ → call_model → tools → call_model …`) as a labelled
    transition system, with the proof that every finished run ends on an AI message
    without tool calls.
- **SDK-backed chat endpoint** (`src/api/http_service.py`). `HttpService.Chat` folds the
  server's stream of `(event, data)` chunks into three things: the final message, the
  `full_data` log and the thread id. It stops at the first `end` chunk. The module also
  holds `delete_thread` and the fixed model catalogue.

External calls are parameters:
- The agent's single-shot call is a function from (message list, configuration) to
  `Returned(messages)` or `Raised(error)`.
- The agent's streaming call is a function to the steps it delivered plus an optional error
  raised after them.
- The search tool is a function from query to result or error.
- The remote client's stream is a function from (thread id, agent name, input messages) to
  chunks plus an optional error.
- Whether the remote client was initialised is a boolean parameter.
- An exception raised while the direct service prepares the agent's configuration (the
  `Context`/`InputState` construction) is an optional error parameter, `prep`.

Behaviour of the code worth knowing, which the model keeps as written:

- Reply scan. The comment at `src/api/direct_fastapi_app.py:111` says the scan gets the last
  AI message. The scan (lines 112-121) also stops at an AI message that *does* request
  tools, because its second check (`type == 'ai'`) matches every AI message.
  `DirectChat.StopsScan` keeps all three checks in the code's order. `ScanStopsAtAiMessages`
  and `ToolCallingAiStopsScan` state the consequence. A finished graph run always ends on an
  AI message without tool calls (`ReactGraph.FinishedRunEndsOnFinalAnswer`). For such
  results the reply is that final answer, or the fallback reply when its content is empty
  (`ReplyOfFinishedRun`).
- Streaming history. `chat` records an assistant entry whenever it gets as far as calling the agent (line 132). The streaming
  handler records the played-back answer only when it is non-empty (line 229). So a
  successful stream without a final answer records the human entry alone
  (`StreamDoneCarriesContent`).
- Search runs twice. When the agent's AI message asks for `search`, the streaming handler
  runs the search itself and emits a `tool_result`. The graph's own tool step then delivers
  a tool message that is relayed as a second `tool_result`.

## Model

| member | source | states |
|---|---|---|
| `ReactGraph.RouteModelOutput` | src/react_agent/graph.py:81-101 | The route is `__end__` exactly when the last message is an AI message without tool calls, and `tools` exactly when it is an AI message with at least one tool call. An empty list fails as an index error. A last message of another kind fails with the ValueError text naming its type. |
| `ReactGraph.CallModelOutput` | src/react_agent/graph.py:53-65 | call_model adds exactly one message that keeps the response's id. On the last step with tool calls it is the fixed step-budget reply with no tool calls; otherwise it is the response itself. |
| `ReactGraph.RouteAfterCallModel` | src/react_agent/graph.py:53-65 | Routing right after call_model never fails. It goes to `tools` exactly when the model asked for tools before the last step, and otherwise to `__end__`. |
| `ReactGraph.LastStepEndsRun` | src/react_agent/graph.py:53-62 | On the last step, the model node always leads to the end node, whatever the model asked for. |
| `ReactGraph.Step` | src/react_agent/graph.py:70-114 | Wiring: the start node always enters call_model with the input unchanged. The tool node always returns to call_model with the tool node's messages appended. call_model only goes to tools or the end, and nothing leaves the end node. |
| `ReactGraph.ModelStepFollowsRoute` | src/react_agent/graph.py:53-110 | The conditional edge after call_model: a model step on an AI reply always succeeds and appends call_model's output. It reaches the end node exactly when the last message is then a final answer, and the tool node exactly when the model asked for tools before the last step. |
| `ReactGraph.FinishingRunExists` | src/react_agent/graph.py:78-110 | Runs do finish. Entering and then a model answer without tool calls, before the last step, reaches the end node with the input followed by that answer. |
| `ReactGraph.RunEndsOnFinalAnswer` | src/react_agent/graph.py:97-114 | Along any run, reaching the end node implies the last message is an AI message without tool calls. |
| `ReactGraph.FinishedRunEndsOnFinalAnswer` | src/react_agent/graph.py:78-114 | Every run that enters at `__start__` and finishes has a non-empty message list ending on an AI message without tool calls. |
| `ReactGraph.RunExtendsMessages` | src/react_agent/graph.py:65 | Nodes only add messages: the state at the start of a run is a prefix of the state at its end. |
| `StreamEvents.SearchQuery` | src/api/direct_fastapi_app.py:215-217 | The search query is the call's `query` argument when it is present and non-empty, and the user's message otherwise. |
| `StreamEvents.CharEventsPlayBack` | src/api/direct_fastapi_app.py:195-200 | Playing back a text gives one content event per character, carrying that character at the same position, with no terminal event. The characters spell the text. |
| `StreamEvents.MessageEventsKinds` | src/api/direct_fastapi_app.py:191-226 | Only an AI message without tool calls produces content events, one per character of its content. An AI message with tool calls produces the `tool_call` event first, then exactly one `tool_result` per call named `search`. A tool message is relayed as one `tool_result`. Human messages and dictionaries produce nothing. |
| `StreamEvents.NoStartInBody` | src/api/direct_fastapi_app.py:187-226 | No message of the agent's stream produces a `start` event. |
| `StreamEvents.SearchEventsAreSilent` | src/api/direct_fastapi_app.py:214-223 | The search results of a tool-calling message add no content characters and no terminal event. |
| `StreamEvents.MessagePlayBack` | src/api/direct_fastapi_app.py:191-226 | One message's events spell exactly the characters it adds to the full response. That is its content for an AI message without tool calls and nothing for any other message. None of its events is terminal. |
| `StreamEvents.MessagesPlayBack` | src/api/direct_fastapi_app.py:187-226 | Over the whole stream, the concatenated content events equal the accumulated full response, and no event before the end is terminal. |
| `StreamEvents.EmitMessage` | src/api/direct_fastapi_app.py:191-226 | Emits one message's events and its contribution to the full response: characters of a final answer, the tool_call event plus one tool_result per search call, or a relayed tool result. |
| `StreamEvents.PlayMessages` | src/api/direct_fastapi_app.py:190-191 | Emits the events of one node's messages, in order. |
| `StreamEvents.PlayChunk` | src/api/direct_fastapi_app.py:189-191 | Emits the events of one step, node by node. |
| `StreamEvents.PlayChunks` | src/api/direct_fastapi_app.py:187-226 | Emits the events of every step, in arrival order, and accumulates the full response. |
| `StreamEvents.MessagesEventsAppend` | src/api/direct_fastapi_app.py:187-191 | The events of a split message list are the events of each part, concatenated. |
| `StreamEvents.MessagesTextAppend` | src/api/direct_fastapi_app.py:200 | The full response of a split message list is the response of each part, concatenated. |
| `DirectChat.AgentInputFaithful` | src/api/direct_fastapi_app.py:84-89 | The agent's message list has one message per stored entry, in order: human entries become HumanMessage and assistant entries become AIMessage. |
| `DirectChat.BuildAgentInput` | src/api/direct_fastapi_app.py:84-89 | The loop builds exactly that message list. |
| `DirectChat.AgentSeesWholeConversation` | src/api/direct_fastapi_app.py:74-89 | The agent receives the conversation so far followed by the new human message. |
| `DirectChat.ScanStopsAtAiMessages` | src/api/direct_fastapi_app.py:112-121 | The scan's three checks stop at exactly the AI messages (with or without tool calls) and the dictionaries typed "ai". They pass over human messages, tool messages and other dictionaries. |
| `DirectChat.LatestReplyIsLastStop` | src/api/direct_fastapi_app.py:110-121 | The extracted reply is the content of the last message the backwards scan stops at, and "" when no message stops it. |
| `DirectChat.ExtractReply` | src/api/direct_fastapi_app.py:110-121 | The backwards loop with its three checks and early exit computes that reply. |
| `DirectChat.ChatReply` | src/api/direct_fastapi_app.py:101-129 | The recorded reply is never empty. When the agent raised, it is "调用图时出错: " followed by the error text. |
| `DirectChat.FallbackWithoutAiMessage` | src/api/direct_fastapi_app.py:110-129 | Without any AI message or AI-typed dictionary in the result, the reply is exactly "抱歉，我无法处理您的请求。". |
| `DirectChat.ReplyOfFinishedRun` | src/api/direct_fastapi_app.py:110-129 | For a result ending on an AI message without tool calls, the reply is that message's content, or the fallback when the content is empty. |
| `DirectChat.ToolCallingAiStopsScan` | src/api/direct_fastapi_app.py:112-121 | A last AI message that asks for tools also ends the scan, so earlier answers are not reached. Its empty content gives the fallback. |
| `DirectChat.ChatAppendsOneTurn` | src/api/direct_fastapi_app.py:72-142 | A chat turn appends the human entry and then one assistant entry equal to the returned response, and leaves every other conversation unchanged. It reports status "success", echoes the conversation id and reports the requested model. |
| `DirectChat.ChatRecordsAgentError` | src/api/direct_fastapi_app.py:123-142 | When the agent raises, the formatted error is both the recorded assistant entry and the returned response. |
| `DirectChat.StreamFraming` | src/api/direct_fastapi_app.py:181-250 | Every stream has exactly one terminal event, and it is the last event. Unless preparing the request failed, there is exactly one `start` event, with the conversation id and model, and it comes first. When preparing failed, the stream is that single error event. |
| `DirectChat.StreamDoneCarriesContent` | src/api/direct_fastapi_app.py:185-236 | On success, `done` carries the concatenation of all content events. That text is recorded as an assistant entry exactly when it is non-empty. |
| `DirectChat.StreamFailureRecordsError` | src/api/direct_fastapi_app.py:238-247 | When the agent's stream raises, the last event is the error. The error text, not the partial answer, is recorded after the human entry. |
| `DirectChat.ConversationStore.constructor` | src/api/direct_fastapi_app.py:56 | The store starts with no conversations. |
| `DirectChat.ConversationStore.GetChatHistory` | src/api/direct_fastapi_app.py:267-278 | Returns the stored entries, or an empty list for an unknown id, and echoes the id. It reads the store and changes nothing. |
| `DirectChat.ConversationStore.ClearChatHistory` | src/api/direct_fastapi_app.py:280-289 | Afterwards the id is absent and every other conversation is unchanged. Clearing an unknown id leaves the store as it was. The notice says whether the id was present. |
| `DirectChat.ConversationStore.Chat` | src/api/direct_fastapi_app.py:67-145 | The new store is `AfterChat` of the old one and the result is `ChatResult`: the human entry is kept even when preparation fails, which yields a 500 with "处理请求时出错: ". |
| `DirectChat.ConversationStore.GenerateStreamResponse` | src/api/direct_fastapi_app.py:147-250 | The emitted events are `StreamEventsOf` and the conversation gains `StreamRecorded`, both for the stream the agent delivers on the full conversation. |
| `DirectChat.ConversationStore.RunStream` | src/api/direct_fastapi_app.py:185-247 | The inner part of the stream emits `StreamBody`: each streamed message's events, then `done` with the full response or the error. It appends `StreamReplyEntries` to the conversation: the error text, or the answer when it is non-empty, or nothing. Every other conversation is left unchanged. |
| `HttpService.ModelUsed` | src/api/http_service.py:161 | The reported model is the requested one when it is present and non-empty, and "default" otherwise. |
| `HttpService.FirstEnd` | src/api/http_service.py:125-153 | Locates the first `end` chunk: no earlier chunk is an `end`. The result is the stream's length when no `end` arrives. |
| `HttpService.AbsorbMessagesKeepsConsistent` | src/api/http_service.py:130-139 | A `messages` chunk keeps the old log and appends one message entry per assistant message, carrying its content, in order. So the message contents grow by those contents and the tool entries are unchanged. `final_message` becomes the last of those contents, and stays as it was when the chunk has no assistant message. |
| `HttpService.FoldedLogAccounts` | src/api/http_service.py:121-146 | Folding chunks (`Folded`, `Absorb`): the log is exactly `ExpectedLog`, each chunk's entries in arrival order. A `messages` chunk gives one message entry per assistant message, a `tools` chunk one tool_call entry with its data, and any other chunk nothing. So the message contents are the assistant contents in order, and the tool entries are the `tools` data in order. `final_message` is the last assistant content, or "" when there is none, which is also the log's last message entry. |
| `HttpService.Chat` | src/api/http_service.py:101-172 | The handler sends exactly one human message carrying the request's text, then folds the chunks up to the first `end`. A stream error before any `end` becomes a 500 with "聊天请求处理失败: "; otherwise the result is `ChatOutcome`. |
| `HttpService.ChunksAfterEndIgnored` | src/api/http_service.py:149-153 | Chunks after the first `end`, and an error the stream would raise after it, do not change the answer. |
| `HttpService.ResponseIsLastLoggedMessage` | src/api/http_service.py:121-165 | A successful answer's response is the content of the last assistant message delivered before the first `end`, or "" when there is none. Its `full_data` is `ExpectedLog` of the chunks before the first `end`: message and tool_call entries interleaved in arrival order. Its model is `request.model or "default"`. |
| `HttpService.ReportedThreadRule` | src/api/http_service.py:123-153 | The reported thread id is the first `end` chunk's `thread_id` when it has one, and `request.thread_id` otherwise, including when no `end` arrives. |
| `HttpService.ChatWithoutClientFails` | src/api/http_service.py:107-109 | Without an initialised client, the chat fails with 500. The inner exception is re-wrapped: "聊天请求处理失败: 500: LangGraph客户端未初始化". |
| `HttpService.DeleteThread` | src/api/http_service.py:198-219 | Succeeds exactly when the client is initialised, with the fixed confirmation and no deletion. Otherwise it fails with 500 and the re-wrapped message. |
| `HttpService.AvailableModels` | src/api/http_service.py:222-238 | The catalogue lists four distinct models, and its default is one of them. |

## Left out

- The language model, the graph runtime, the tool node and the search tool are external code. Their results are inputs to the model: function parameters or transition labels.
- The graph's message reducer merges messages by id. `ReactGraph.Step` appends instead, and the external tool node may add any messages.
- The step budget (`is_last_step`) is computed by the external runtime. Here it is a label of the model step.
- The search tool is a deterministic function of its query. A search repeated in one request gives the same result.
- The agent's stream is modelled at step granularity: a failure happens between delivered steps, never inside one.
- Only one exception of the direct service's outer handler is modelled: the one raised while building the agent's configuration and input state, after the human entry is recorded. It is the `prep` parameter. Failures of the dictionary operations themselves are not modelled.
- HTTP plumbing is not modelled: FastAPI routing, CORS, request validation, the SSE/JSON text framing, the `StreamingResponse` headers, the `root` and `health_check` descriptors and the uvicorn launchers. Events and responses are datatypes.
- The order of a history update relative to an emitted event inside the stream generator is not modelled. Both are results of the same call, and no other request can observe the order without concurrency.
- The per-character `asyncio.sleep` pacing is not modelled. Concurrent requests interleaving on the shared dictionary, and cancellation by a dropped client, are not modelled either.
- `datetime.now()` timestamps, the system prompt and environment configuration are not modelled.
- The handlers' `print` logging is not modelled (`src/api/direct_fastapi_app.py:124,239`, `src/api/http_service.py:111-112,147,168`). It has no effect on responses or stored state.
- The direct service's request defaults (`conversation_id` "default", model "openai/gpt-4o-mini", 10 search results, lines 44-46) are filled in by the request validator. A modelled request always carries all four fields.
- `get_threads` in `src/api/http_service.py` only relays the remote server's list and is not part of this model.
- Message contents are strings; multi-part (list) contents are not modelled. Dictionary messages and chunk data hold string fields only.
- A chunk's `thread_id` attribute is either absent or a string. An attribute present with the value `None` is not modelled.
- `HttpService.Chat`: the 1–2000 character bound on the message is a precondition, because the request validator rejects other messages before the handler runs.
- The formatting of a caught HTTP exception as "<status>: <detail>" comes from the web framework's exception class. That class is not part of this model.
- `simple_client.py`, `start_api.py`, `start_direct_fastapi.py` and `test_api.py` only print, launch servers or issue live HTTP requests, and are not part of this model.
