/**
 * One turn of the client's conversation: the entries it appends to the history, the
 * completion requests it sends and the tool calls it makes, as a function of the
 * history before the turn and of what the collaborators answer.
 *
 * The collaborators are values: the completion endpoint is a function from requests
 * to responses, the tool session holds the catalog it lists and a function that runs
 * a tool, and the JSON parser is a function from text to a value or an error message.
 */
module Conversation {
  import opened Wrappers
  import opened Json

  /** The finish reason with which the completion endpoint asks for tool calls. */
  const TOOL_CALLS: string := "tool_calls"

  /** The `type` of every entry of the tool catalog sent to the completion endpoint. */
  const FUNCTION: string := "function"

  /** A tool call proposed by the model: its id, the tool's name and the arguments as JSON text. */
  datatype ToolCall = ToolCall(id: string, name: string, arguments: string)

  /** The assistant message of a completion choice; `toolCalls` is empty when the message has none. */
  datatype ChatMessage = ChatMessage(content: Option<string>, toolCalls: seq<ToolCall>)

  /** One choice of a completion response. */
  datatype Choice = Choice(finishReason: string, message: ChatMessage)

  /** A tool as the tool session lists it. */
  datatype Tool = Tool(name: string, description: Option<string>, inputSchema: JValue)

  /** `{"type": kind, "function": {"name": …, "description": …, "input_schema": …}}`. */
  datatype ToolSpec = ToolSpec(kind: string, name: string, description: Option<string>, inputSchema: JValue)

  /** An entry of the conversation history. */
  datatype Entry =
    | SystemEntry(content: string)                       // {"role": "system", "content": …}
    | UserEntry(content: string)                         // {"role": "user", "content": …}
    | AssistantEntry(answer: Option<string>)             // {"role": "assistant", "content": …}
    | ToolCallEntry(message: ChatMessage)                // the assistant message, dumped whole
    | ToolEntry(content: string, toolCallId: string)     // {"role": "tool", "content": …, "tool_call_id": …}

  /** A completion request: the model, the whole history, and the tool catalog when one is offered. */
  datatype Request = Request(model: Option<string>, messages: seq<Entry>, tools: Option<seq<ToolSpec>>)

  /** The completion endpoint: the choices of the response, or the message of the error it raises. */
  type Endpoint = Request -> Result<seq<Choice>, string>

  /** One item of a tool's result: text, or some other kind of content (an image, a resource). */
  datatype Content = TextContent(text: string) | OtherContent

  datatype CallToolResult = CallToolResult(content: seq<Content>)

  /** The tool session: what `list_tools` answers, and what `call_tool(name, arguments)` answers. */
  datatype ToolServer = ToolServer(
    tools: Result<seq<Tool>, string>,
    call: (string, JValue) -> Result<CallToolResult, string>)

  /** Why a turn ends without an answer: the exception that escapes `process_query`. */
  datatype Fault =
    | NoSession                            // not connected: `self.session` is None
    | ListToolsFailed(reason: string)
    | CompletionFailed(reason: string)
    | NoChoices                            // `response.choices[0]` on an empty list
    | NoToolCall                           // finish reason "tool_calls" but no tool call to take
    | MalformedArguments(reason: string)   // `json.loads` of the arguments raised
    | ToolCallFailed(reason: string)
    | NoTextContent                        // `result.content[0].text` does not exist

  /** A call of a tool: its name and the parsed arguments. */
  datatype Invocation = Invocation(name: string, arguments: JValue)

  /** What a turn leaves behind: the history, the answer or fault, and what it sent to others. */
  datatype TurnOutcome = TurnOutcome(
    history: seq<Entry>,
    answer: Result<Option<string>, Fault>,
    requests: seq<Request>,
    invocations: seq<Invocation>)

  /** The catalog entry that advertises one tool to the completion endpoint. */
  function Advertise(tool: Tool): ToolSpec
  {
    ToolSpec(FUNCTION, tool.name, tool.description, tool.inputSchema)
  }

  /** The tool catalog: one function entry per listed tool, in the order listed. */
  function ToolCatalog(tools: seq<Tool>): (catalog: seq<ToolSpec>)
    ensures |catalog| == |tools|
    ensures forall i | 0 <= i < |tools| ::
              && catalog[i].kind == FUNCTION
              && catalog[i].name == tools[i].name
              && catalog[i].description == tools[i].description
              && catalog[i].inputSchema == tools[i].inputSchema
  {
    if tools == [] then [] else [Advertise(tools[0])] + ToolCatalog(tools[1..])
  }

  /** The first completion request of a turn: the history with the query, and the catalog. */
  function FirstRequest(history: seq<Entry>, query: string, tools: seq<Tool>, model: Option<string>): Request
  {
    Request(model, history + [UserEntry(query)], Some(ToolCatalog(tools)))
  }

  /** The choice the turn branches on, when the session listed its tools and the first completion returned one. */
  function FirstChoice(history: seq<Entry>, query: string, session: Option<ToolServer>,
                       model: Option<string>, llm: Endpoint): Option<Choice>
  {
    if session.None? || session.value.tools.Failure? then None
    else
      var response := llm(FirstRequest(history, query, session.value.tools.value, model));
      if response.Failure? || |response.value| == 0 then None else Some(response.value[0])
  }

  /** `process_query(query)` on the given history. */
  function Turn(history: seq<Entry>, query: string, session: Option<ToolServer>,
                model: Option<string>, llm: Endpoint, loads: Loads): TurnOutcome
  {
    var asked := history + [UserEntry(query)];
    match session
    case None => TurnOutcome(asked, Failure(NoSession), [], [])
    case Some(server) =>
      match server.tools
      case Failure(e) => TurnOutcome(asked, Failure(ListToolsFailed(e)), [], [])
      case Success(tools) =>
        var first := FirstRequest(history, query, tools, model);
        match llm(first)
        case Failure(e) => TurnOutcome(asked, Failure(CompletionFailed(e)), [first], [])
        case Success(choices) =>
          if |choices| == 0 then TurnOutcome(asked, Failure(NoChoices), [first], [])
          else if choices[0].finishReason == TOOL_CALLS then
            ToolRound(asked, first, choices[0].message, server, model, llm, loads)
          else
            var answer := choices[0].message.content;
            TurnOutcome(asked + [AssistantEntry(answer)], Success(answer), [first], [])
  }

  /** The tool branch of a turn, after the first completion asked for tool calls. */
  function ToolRound(asked: seq<Entry>, first: Request, message: ChatMessage, server: ToolServer,
                     model: Option<string>, llm: Endpoint, loads: Loads): TurnOutcome
  {
    if |message.toolCalls| == 0 then TurnOutcome(asked, Failure(NoToolCall), [first], [])
    else
      var call := message.toolCalls[0];
      match loads(call.arguments)
      case Failure(e) => TurnOutcome(asked, Failure(MalformedArguments(e)), [first], [])
      case Success(arguments) =>
        var invoked := [Invocation(call.name, arguments)];
        match server.call(call.name, arguments)
        case Failure(e) => TurnOutcome(asked, Failure(ToolCallFailed(e)), [first], invoked)
        case Success(result) =>
          var dumped := asked + [ToolCallEntry(message)];
          if |result.content| == 0 || !result.content[0].TextContent? then
            TurnOutcome(dumped, Failure(NoTextContent), [first], invoked)
          else
            var replied := dumped + [ToolEntry(result.content[0].text, call.id)];
            var second := Request(model, replied, None);
            match llm(second)
            case Failure(e) => TurnOutcome(replied, Failure(CompletionFailed(e)), [first, second], invoked)
            case Success(choices) =>
              if |choices| == 0 then TurnOutcome(replied, Failure(NoChoices), [first, second], invoked)
              else
                var answer := choices[0].message.content;
                TurnOutcome(replied + [AssistantEntry(answer)], Success(answer), [first, second], invoked)
  }

  /** The text the tool answered when given the first proposed call (when it answered with text). */
  function ToolText(server: ToolServer, call: ToolCall, loads: Loads): Option<string>
  {
    var arguments := loads(call.arguments);
    if arguments.Failure? then None
    else
      var result := server.call(call.name, arguments.value);
      if result.Failure? || |result.value.content| == 0 || !result.value.content[0].TextContent? then None
      else Some(result.value.content[0].text)
  }
}
