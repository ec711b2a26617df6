/**
 * The MCP client: a conversation history that starts with one system message, the choice
 * of interpreter for the tool server, the query turn, and the interactive loop that ends
 * at the quit word.
 */
module Client {
  import opened Wrappers
  import opened Json
  import opened PyStr
  import opened Conversation
  import opened ConversationLaws

  /** The system message every conversation starts with. */
  const SYSTEM_PROMPT: string :=
    "\n             你需要根据用户的问题调用天气工具，获取结果后，必须用自然语言整理温度、湿度、天气状况等信息回复用户。" +
    "\n             - 如果工具返回了数据，禁止生成无关内容（如询问其他需求）。" +
    "\n             - 如果用户的问题与天气无关，直接用自然语言回答，不要调用工具。" +
    "\n             "

  const MISSING_KEY_MESSAGE: string := "未找到 OpenAI API Key"
  const UNSUPPORTED_SCRIPT_MESSAGE: string := "服务器脚本必须是 .py 或 .js 文件"
  const QUIT: string := "quit"

  /** The configuration read from the environment: `BASE_URL`, `MODEL` and `OPENAI_API_KEY`. */
  datatype Environment = Environment(baseUrl: Option<string>, model: Option<string>, apiKey: Option<string>)

  /** How the tool server is launched: the command, its arguments, and the environment (None: the default). */
  datatype ServerParameters = ServerParameters(command: string, args: seq<string>, env: Option<map<string, string>>)

  /**
   * What launching the tool server and opening its session ends with: no transport at all, a
   * session that failed its handshake, or a session ready for use.
   */
  datatype Connection =
    | TransportFailed(reason: string)
    | HandshakeFailed(session: ToolServer, reason: string)
    | Connected(session: ToolServer)

  /** The launch parameters for a tool-server script: `python` for `.py`, `node` for `.js`, anything else refused. */
  function LaunchParameters(path: string): (r: Result<ServerParameters, string>)
    ensures r.Success? <==> EndsWith(path, ".py") || EndsWith(path, ".js")
    ensures r.Failure? ==> r.error == UNSUPPORTED_SCRIPT_MESSAGE
    ensures EndsWith(path, ".py") ==> r == Success(ServerParameters("python", [path], None))
    ensures EndsWith(path, ".js") ==> r == Success(ServerParameters("node", [path], None))
  {
    var isPython := EndsWith(path, ".py");
    var isJs := EndsWith(path, ".js");
    if !(isPython || isJs) then Failure(UNSUPPORTED_SCRIPT_MESSAGE)
    else
      Success(ServerParameters(if isPython then "python" else "node", [path], None))
  }

  /** The names of the listed tools, in order, as the client reports them after connecting. */
  function ToolNames(tools: seq<Tool>): (names: seq<string>)
    ensures |names| == |tools| && forall i | 0 <= i < |tools| :: names[i] == tools[i].name
  {
    if tools == [] then [] else [tools[0].name] + ToolNames(tools[1..])
  }

  /** `line.strip().lower() == "quit"`: the input line that ends the interactive loop. */
  predicate IsQuit(line: string)
  {
    Lower(Strip(line)) == QUIT
  }

  /** The quit word is recognised in any mix of upper and lower case, and in no other spelling. */
  lemma {:induction false} QuitIgnoresCase(line: string)
    ensures IsQuit(line) <==>
              |Strip(line)| == 4 &&
              forall i | 0 <= i < 4 :: Strip(line)[i] == "quit"[i] || Strip(line)[i] == "QUIT"[i]
  {
    var s := Strip(line);
    if |s| == 4 {
      forall i | 0 <= i < 4
        ensures Lower(s)[i] == "quit"[i] <==> s[i] == "quit"[i] || s[i] == "QUIT"[i]
      {
        LowerAt(s, i);
        if 'A' <= s[i] <= 'Z' {
          assert LowerChar(s[i]) as int == s[i] as int + 32;
        }
      }
      if !IsQuit(line) {
        var k :| 0 <= k < 4 && Lower(s)[k] != "quit"[k];
      }
    }
  }

  /** Whitespace before and after the quit word does not matter. */
  lemma QuitIgnoresSurroundingWhitespace(pre: string, word: string, post: string)
    requires AllSpace(pre) && AllSpace(post)
    ensures IsQuit(pre + word + post) == IsQuit(word)
  {
    StripIgnoresPadding(pre, word, post);
  }

  /** The position of the first quit line, or the number of lines when there is none. */
  function QuitIndex(lines: seq<string>): (n: nat)
    ensures n <= |lines|
    ensures forall k | 0 <= k < n :: !IsQuit(lines[k])
    ensures n < |lines| ==> IsQuit(lines[n])
  {
    if lines == [] || IsQuit(lines[0]) then 0 else 1 + QuitIndex(lines[1..])
  }

  /** The queries the loop passes on: each input line stripped of surrounding whitespace. */
  function Queries(lines: seq<string>): (queries: seq<string>)
    ensures |queries| == |lines| && forall k | 0 <= k < |lines| :: queries[k] == Strip(lines[k])
  {
    if lines == [] then [] else [Strip(lines[0])] + Queries(lines[1..])
  }

  /** What a run of turns leaves: the history, and the reply of each turn in order. */
  datatype Transcript = Transcript(history: seq<Entry>, replies: seq<Result<Option<string>, Fault>>)

  /** One turn per query, in order, starting from history `h`. */
  function Converse(h: seq<Entry>, queries: seq<string>, session: Option<ToolServer>,
                    model: Option<string>, llm: Endpoint, loads: Loads): Transcript
    decreases |queries|
  {
    if queries == [] then Transcript(h, [])
    else
      var earlier := Converse(h, queries[..|queries| - 1], session, model, llm, loads);
      var o := Turn(earlier.history, queries[|queries| - 1], session, model, llm, loads);
      Transcript(o.history, earlier.replies + [o.answer])
  }

  /** One more input line adds the turn for its stripped query. */
  lemma ConverseStep(h: seq<Entry>, lines: seq<string>, i: nat, session: Option<ToolServer>,
                     model: Option<string>, llm: Endpoint, loads: Loads)
    requires i < |lines|
    ensures var earlier := Converse(h, Queries(lines[..i]), session, model, llm, loads);
            var o := Turn(earlier.history, Strip(lines[i]), session, model, llm, loads);
            Converse(h, Queries(lines[..i + 1]), session, model, llm, loads) ==
            Transcript(o.history, earlier.replies + [o.answer])
  {
    var done := Queries(lines[..i + 1]);
    assert done[..i] == Queries(lines[..i]);
  }

  /** Over a whole session the history only grows, by one to four entries per query, and keeps its start. */
  lemma {:induction false} HistoryOnlyAppends(h: seq<Entry>, queries: seq<string>, session: Option<ToolServer>,
                                              model: Option<string>, llm: Endpoint, loads: Loads)
    ensures var t := Converse(h, queries, session, model, llm, loads);
            && |t.replies| == |queries|
            && |h| + |queries| <= |t.history| <= |h| + 4 * |queries|
            && t.history[..|h|] == h
    decreases |queries|
  {
    if queries != [] {
      var init := queries[..|queries| - 1];
      var earlier := Converse(h, init, session, model, llm, loads).history;
      HistoryOnlyAppends(h, init, session, model, llm, loads);
      TurnOnlyAppends(earlier, queries[|queries| - 1], session, model, llm, loads);
      var r := Converse(h, queries, session, model, llm, loads).history;
      assert r[..|earlier|] == earlier;
      assert r[..|h|] == earlier[..|h|];
    }
  }

  /** The k-th reply is the answer of the turn that ran query k on the history the earlier turns left. */
  lemma {:induction false} ConverseReplies(h: seq<Entry>, queries: seq<string>, k: nat, session: Option<ToolServer>,
                                           model: Option<string>, llm: Endpoint, loads: Loads)
    requires k < |queries|
    ensures var t := Converse(h, queries, session, model, llm, loads);
            |t.replies| == |queries| &&
            t.replies[k] == Turn(Converse(h, queries[..k], session, model, llm, loads).history,
                                 queries[k], session, model, llm, loads).answer
    decreases |queries|
  {
    var init := queries[..|queries| - 1];
    HistoryOnlyAppends(h, queries, session, model, llm, loads);
    HistoryOnlyAppends(h, init, session, model, llm, loads);
    if k < |queries| - 1 {
      ConverseReplies(h, init, k, session, model, llm, loads);
      assert init[..k] == queries[..k];
    } else {
      assert init == queries[..k];
    }
  }

  /** Over a whole session every tool entry stays right behind the call it answers. */
  lemma {:induction false} HistoryKeepsToolEntriesAfterTheirCall(
    h: seq<Entry>, queries: seq<string>, session: Option<ToolServer>,
    model: Option<string>, llm: Endpoint, loads: Loads)
    requires ToolEntriesFollowTheirCall(h)
    ensures ToolEntriesFollowTheirCall(Converse(h, queries, session, model, llm, loads).history)
    decreases |queries|
  {
    if queries != [] {
      var init := queries[..|queries| - 1];
      HistoryKeepsToolEntriesAfterTheirCall(h, init, session, model, llm, loads);
      TurnKeepsToolEntriesAfterTheirCall(Converse(h, init, session, model, llm, loads).history,
                                         queries[|queries| - 1], session, model, llm, loads);
    }
  }

  /** The client object: its history, its tool session once connected, and its collaborators. */
  class MCPClient {
    var messages: seq<Entry>
    var session: Option<ToolServer>
    const model: Option<string>
    /** The completion endpoint of the chat client built from the API key and the base URL. */
    const llm: Endpoint
    /** The JSON parser that reads a tool call's arguments. */
    const loads: Loads

    /** A fresh client: its history is the system message alone, and it has no session yet. */
    constructor (model: Option<string>, llm: Endpoint, loads: Loads)
      ensures messages == [SystemEntry(SYSTEM_PROMPT)]
      ensures |messages| == 1 && messages[0].SystemEntry?
      ensures session.None?
      ensures this.model == model && this.llm == llm && this.loads == loads
    {
      messages := [SystemEntry(SYSTEM_PROMPT)];
      session := None;
      this.model := model;
      this.llm := llm;
      this.loads := loads;
    }

    /** `MCPClient()`: refuses to start without an API key (missing or empty) in the environment. */
    static method Create(env: Environment, llm: Endpoint, loads: Loads) returns (r: Result<MCPClient, string>)
      ensures r.Failure? <==> env.apiKey.None? || env.apiKey.value == ""
      ensures r.Failure? ==> r.error == MISSING_KEY_MESSAGE
      ensures r.Success? ==>
                && fresh(r.value)
                && r.value.messages == [SystemEntry(SYSTEM_PROMPT)]
                && r.value.session.None?
                && r.value.model == env.model && r.value.llm == llm && r.value.loads == loads
    {
      if env.apiKey.None? || env.apiKey.value == "" {
        return Failure(MISSING_KEY_MESSAGE);
      }
      var client := new MCPClient(env.model, llm, loads);
      return Success(client);
    }

    /**
     * `connect_to_server(path)`: checks the suffix before launching anything, then launches the
     * server with the chosen interpreter, opens the session and lists its tools.
     */
    method ConnectToServer(path: string, spawn: ServerParameters -> Connection) returns (r: Result<seq<string>, string>)
      modifies this
      ensures messages == old(messages)
      ensures LaunchParameters(path).Failure? ==> r == Failure(UNSUPPORTED_SCRIPT_MESSAGE) && session == old(session)
      ensures LaunchParameters(path).Success? ==>
                match spawn(LaunchParameters(path).value)
                case TransportFailed(e) => r == Failure(e) && session == old(session)
                case HandshakeFailed(s, e) => r == Failure(e) && session == Some(s)
                case Connected(s) =>
                  && session == Some(s)
                  && r == (if s.tools.Success? then Success(ToolNames(s.tools.value)) else Failure(s.tools.error))
    {
      var launch := LaunchParameters(path);
      if launch.Failure? {
        return Failure(launch.error);
      }
      match spawn(launch.value)
      case TransportFailed(e) =>
        r := Failure(e);
      case HandshakeFailed(s, e) =>
        session := Some(s);
        r := Failure(e);
      case Connected(s) =>
        session := Some(s);
        if s.tools.Failure? {
          r := Failure(s.tools.error);
        } else {
          r := Success(ToolNames(s.tools.value));
        }
    }

    /**
     * `process_query(query)`: one turn. The new history, the answer, the requests sent and the
     * tools run are those of `Turn` on the old history; the session is not touched.
     */
    method ProcessQuery(query: string)
      returns (answer: Result<Option<string>, Fault>, ghost requests: seq<Request>, ghost invocations: seq<Invocation>)
      modifies this
      ensures session == old(session)
      ensures var o := Turn(old(messages), query, session, model, llm, loads);
              && messages == o.history && answer == o.answer
              && requests == o.requests && invocations == o.invocations
    {
      requests, invocations := [], [];
      messages := messages + [UserEntry(query)];
      if session.None? {
        return Failure(NoSession), requests, invocations;
      }
      var server := session.value;
      if server.tools.Failure? {
        return Failure(ListToolsFailed(server.tools.error)), requests, invocations;
      }
      var availableTools := ToolCatalog(server.tools.value);
      var request := Request(model, messages, Some(availableTools));
      requests := [request];
      var response := llm(request);
      if response.Failure? {
        return Failure(CompletionFailed(response.error)), requests, invocations;
      }
      if |response.value| == 0 {
        return Failure(NoChoices), requests, invocations;
      }
      var content := response.value[0];
      if content.finishReason == TOOL_CALLS {
        if |content.message.toolCalls| == 0 {
          return Failure(NoToolCall), requests, invocations;
        }
        var toolCall := content.message.toolCalls[0];
        var toolName := toolCall.name;
        var toolArgs := loads(toolCall.arguments);
        if toolArgs.Failure? {
          return Failure(MalformedArguments(toolArgs.error)), requests, invocations;
        }
        invocations := [Invocation(toolName, toolArgs.value)];
        var result := server.call(toolName, toolArgs.value);
        if result.Failure? {
          return Failure(ToolCallFailed(result.error)), requests, invocations;
        }
        messages := messages + [ToolCallEntry(content.message)];
        if |result.value.content| == 0 || !result.value.content[0].TextContent? {
          return Failure(NoTextContent), requests, invocations;
        }
        messages := messages + [ToolEntry(result.value.content[0].text, toolCall.id)];
        request := Request(model, messages, None);
        requests := requests + [request];
        response := llm(request);
        if response.Failure? {
          return Failure(CompletionFailed(response.error)), requests, invocations;
        }
        if |response.value| == 0 {
          return Failure(NoChoices), requests, invocations;
        }
        var text := response.value[0].message.content;
        messages := messages + [AssistantEntry(text)];
        answer := Success(text);
      } else {
        var text := content.message.content;
        messages := messages + [AssistantEntry(text)];
        answer := Success(text);
      }
    }

    /**
     * `chat_loop()` over the given input lines: runs one turn per stripped line until the first
     * quit line, keeping every reply, answer or failure, and going on after a failed turn.
     */
    method ChatLoop(lines: seq<string>) returns (replies: seq<Result<Option<string>, Fault>>)
      modifies this
      ensures session == old(session)
      ensures Transcript(messages, replies) ==
              Converse(old(messages), Queries(lines[..QuitIndex(lines)]), session, model, llm, loads)
    {
      ghost var start := messages;
      replies := [];
      var i := 0;
      while i < |lines|
        invariant i <= QuitIndex(lines)
        invariant session == old(session)
        invariant Transcript(messages, replies) == Converse(start, Queries(lines[..i]), session, model, llm, loads)
      {
        if IsQuit(lines[i]) {
          break;
        }
        assert i < QuitIndex(lines);
        var query := Strip(lines[i]);
        var answer;
        ghost var requests, invocations;
        answer, requests, invocations := ProcessQuery(query);
        ConverseStep(start, lines, i, session, model, llm, loads);
        replies := replies + [answer];
        i := i + 1;
      }
    }
  }
}
