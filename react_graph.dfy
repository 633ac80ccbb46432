/**
 * The ReAct agent's own decisions: how the output of the model node is
 * routed, how the model's reply is replaced once the step budget is spent,
 * and the two-node graph (call_model <-> tools) as a labelled transition
 * system. The model and the tool node are external; their outputs are the
 * labels of the transitions.
 */
module ReactGraph {
  import opened Wrappers
  import opened Messages

  /** The reply substituted when the model still wants a tool on the last step. */
  const StepLimitReply := "抱歉，我在指定的步骤数内无法找到您问题的答案。"

  datatype Route = ToEnd | ToTools

  /** Indexing an empty list, or a last message that is not an AI message. */
  datatype RouteError = IndexError | ValueError(message: string)

  /** Chooses the node after call_model from the last message of the state. */
  function RouteModelOutput(messages: seq<Msg>): (r: Result<Route, RouteError>)
    ensures r == Ok(ToEnd) <==> |messages| > 0 && IsFinalAnswer(Last(messages))
    ensures r == Ok(ToTools) <==> |messages| > 0 && Last(messages).AI? && |Last(messages).toolCalls| > 0
    ensures r == Err(IndexError) <==> messages == []
    ensures r.Err? && messages != [] ==>
      !Last(messages).AI? &&
      r.error == ValueError("Expected AIMessage in output edges, but got " + TypeName(Last(messages)))
  {
    if |messages| == 0 then Err(IndexError)
    else
      var last := messages[|messages| - 1];
      if !last.AI? then
        Err(ValueError("Expected AIMessage in output edges, but got " + TypeName(last)))
      else if last.toolCalls == [] then Ok(ToEnd)
      else Ok(ToTools)
  }

  /** The messages call_model adds to the state, given the model's reply. */
  function CallModelOutput(isLastStep: bool, response: Msg): (r: seq<Msg>)
    requires response.AI?
    ensures |r| == 1 && r[0].AI? && r[0].id == response.id
    ensures isLastStep && response.toolCalls != [] ==>
      r[0].content == StepLimitReply && r[0].toolCalls == []
    ensures !isLastStep || response.toolCalls == [] ==> r[0] == response
  {
    if isLastStep && response.toolCalls != [] then
      [AI(response.id, StepLimitReply, [])]
    else
      [response]
  }

  /** Routing right after call_model never fails, and ends unless a tool is asked for before the last step. */
  lemma RouteAfterCallModel(history: seq<Msg>, isLastStep: bool, response: Msg)
    requires response.AI?
    ensures RouteModelOutput(history + CallModelOutput(isLastStep, response)) ==
      if !isLastStep && response.toolCalls != [] then Ok(ToTools) else Ok(ToEnd)
  {
    var ms := history + CallModelOutput(isLastStep, response);
    assert Last(ms) == CallModelOutput(isLastStep, response)[0];
  }

  // The graph: __start__ -> call_model, call_model -> route, tools -> call_model.

  datatype Node = Start | CallModel | Tools | End

  /** A point in a run: the node about to run and the accumulated messages. */
  datatype Config = Config(at: Node, messages: seq<Msg>)

  /** What happens while a node runs: entering, the model's reply, or the tool node's messages. */
  datatype Action = Enter | ModelStep(isLastStep: bool, response: Msg) | ToolStep(results: seq<Msg>)

  /** The edges added to the graph builder; None where no edge leaves a node with this action. */
  function Step(c: Config, a: Action): (next: Option<Config>)
    ensures next.Some? && c.at == Start ==> next.value == Config(CallModel, c.messages)
    ensures c.at == Start && a.Enter? ==> next == Some(Config(CallModel, c.messages))
    ensures next.Some? && c.at == Tools ==> next.value.at == CallModel
    ensures c.at == Tools && a.ToolStep? ==> next == Some(Config(CallModel, c.messages + a.results))
    ensures next.Some? && c.at == CallModel ==> next.value.at in {Tools, End}
    ensures c.at == End ==> next.None?
  {
    match (c.at, a)
    case (Start, Enter) => Some(Config(CallModel, c.messages))
    case (CallModel, ModelStep(isLastStep, response)) =>
      if !response.AI? then None
      else
        var ms := c.messages + CallModelOutput(isLastStep, response);
        (match RouteModelOutput(ms)
         case Ok(ToEnd) => Some(Config(End, ms))
         case Ok(ToTools) => Some(Config(Tools, ms))
         case Err(_) => None)
    case (Tools, ToolStep(results)) => Some(Config(CallModel, c.messages + results))
    case _ => None
  }

  /** Runs the graph from c through the given actions; None when an action does not fit the node. */
  function Run(c: Config, actions: seq<Action>): Option<Config>
    decreases |actions|
  {
    if actions == [] then Some(c)
    else
      match Step(c, actions[0])
      case None => None
      case Some(next) => Run(next, actions[1..])
  }

  ghost predicate FinishedProperly(c: Config) {
    c.at == End ==> |c.messages| > 0 && IsFinalAnswer(Last(c.messages))
  }

  lemma StepFinishesProperly(c: Config, a: Action)
    requires Step(c, a).Some?
    ensures FinishedProperly(Step(c, a).value)
  {
  }

  /** A run only reaches End through the route's "__end__" answer, so it ends on a final answer. */
  lemma {:induction false} RunEndsOnFinalAnswer(c: Config, actions: seq<Action>)
    requires FinishedProperly(c)
    requires Run(c, actions).Some?
    ensures FinishedProperly(Run(c, actions).value)
    decreases |actions|
  {
    if actions != [] {
      var next := Step(c, actions[0]).value;
      StepFinishesProperly(c, actions[0]);
      RunEndsOnFinalAnswer(next, actions[1..]);
    }
  }

  /** Every run of the compiled graph that finishes has an AI message without tool calls last. */
  lemma {:induction false} FinishedRunEndsOnFinalAnswer(input: seq<Msg>, actions: seq<Action>)
    requires Run(Config(Start, input), actions).Some?
    requires Run(Config(Start, input), actions).value.at == End
    ensures var ms := Run(Config(Start, input), actions).value.messages;
      |ms| > 0 && IsFinalAnswer(Last(ms))
  {
    RunEndsOnFinalAnswer(Config(Start, input), actions);
  }

  /** The model node on the last step always leads to End, whatever the model asked for. */
  lemma LastStepEndsRun(messages: seq<Msg>, response: Msg)
    requires response.AI?
    ensures Step(Config(CallModel, messages), ModelStep(true, response)).Some?
    ensures Step(Config(CallModel, messages), ModelStep(true, response)).value.at == End
  {
    RouteAfterCallModel(messages, true, response);
  }

  /**
   * The conditional edge after call_model: the step always succeeds on an
   * AI reply, appends call_model's output, and goes to the end exactly when
   * that output is a final answer, to the tool node exactly when the model
   * asked for tools before the last step.
   */
  lemma ModelStepFollowsRoute(messages: seq<Msg>, isLastStep: bool, response: Msg)
    requires response.AI?
    ensures var next := Step(Config(CallModel, messages), ModelStep(isLastStep, response));
      && next.Some?
      && next.value.messages == messages + CallModelOutput(isLastStep, response)
      && (next.value.at == End <==> IsFinalAnswer(Last(next.value.messages)))
      && (next.value.at == Tools <==> !isLastStep && response.toolCalls != [])
  {
    RouteAfterCallModel(messages, isLastStep, response);
  }

  /** The shortest finishing run: enter, and the model answers without asking for tools. */
  lemma FinishingRunExists(input: seq<Msg>, answer: string)
    ensures var r := Run(Config(Start, input), [Enter, ModelStep(false, AI(None, answer, []))]);
      && r.Some?
      && r.value.at == End
      && r.value.messages == input + [AI(None, answer, [])]
  {
    var reply := AI(None, answer, []);
    var actions := [Enter, ModelStep(false, reply)];
    var c1 := Config(CallModel, input);
    assert Step(Config(Start, input), Enter) == Some(c1);
    RouteAfterCallModel(input, false, reply);
    var c2 := Config(End, input + [reply]);
    assert Step(c1, ModelStep(false, reply)) == Some(c2);
    assert actions[1..] == [ModelStep(false, reply)];
    assert actions[1..][1..] == [];
    assert Run(c2, []) == Some(c2);
    assert Run(c1, actions[1..]) == Some(c2);
  }

  /** Messages are only ever added: every run keeps the input as a prefix. */
  lemma {:induction false} RunExtendsMessages(c: Config, actions: seq<Action>)
    requires Run(c, actions).Some?
    ensures c.messages <= Run(c, actions).value.messages
    decreases |actions|
  {
    if actions != [] {
      var next := Step(c, actions[0]).value;
      assert c.messages <= next.messages;
      RunExtendsMessages(next, actions[1..]);
    }
  }
}
