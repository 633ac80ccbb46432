/**
 * The messages the agent framework passes around. A message is either one
 * of the framework's message objects (human, AI, tool) or a bare
 * dictionary that happens to sit in a message list.
 */
module Messages {
  import opened Wrappers

  /** A tool invocation requested by the model: the tool's name and its arguments. */
  datatype ToolCall = ToolCall(name: string, args: map<string, string>)

  datatype Msg =
    | Human(content: string)
    | AI(id: Option<string>, content: string, toolCalls: seq<ToolCall>)
    | Tool(content: string)
    | Plain(fields: map<string, string>)

  /** An AI message that asks for no tool: the agent's final answer. */
  predicate IsFinalAnswer(m: Msg) {
    m.AI? && m.toolCalls == []
  }

  /** The `type` attribute of a message object; a bare dictionary has none. */
  function TypeAttr(m: Msg): Option<string> {
    match m
    case Human(_) => Some("human")
    case AI(_, _, _) => Some("ai")
    case Tool(_) => Some("tool")
    case Plain(_) => None
  }

  /** The Python class name of a message, as an error report shows it. */
  function TypeName(m: Msg): string {
    match m
    case Human(_) => "HumanMessage"
    case AI(_, _, _) => "AIMessage"
    case Tool(_) => "ToolMessage"
    case Plain(_) => "dict"
  }

  function Last(ms: seq<Msg>): Msg
    requires |ms| > 0
  {
    ms[|ms| - 1]
  }
}
