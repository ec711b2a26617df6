# MCP weather client — a Dafny model

The system is a command-line chat client that talks to a chat-completion endpoint and to
one tool server over the Model Context Protocol (MCP), plus two versions of a small
weather tool server. This project models the parts of it that decide what happens:

- the client's conversation history, which starts as one system message and grows by one
  turn per query (`client.py`, class `MCPClient`);
- how `connect_to_server` picks the interpreter from the script's suffix and refuses
  anything that is not `.py` or `.js`;
- `process_query`: one turn with its two branches (direct answer, or one tool round), the
  requests it sends, the tool it runs, and what a failure at each step leaves behind;
- `chat_loop`: one turn per stripped input line until the first line that reads `quit` in
  any case, going on after a failed turn;
- `format_weather` and the blank-city guard of `query_weather`, in both servers
  (`weather_server.py`, whose report lines start with emoji, and `server.py`, whose do not).

The completion endpoint, the tool session (`list_tools`, `call_tool`), the JSON parser,
process launching and `fetch_weather` are parameters: function values that stand for
whatever those collaborators answer. JSON values carry their Python `str()` rendering,
already computed, because that is what the f-strings print.

Modules:

- `Wrappers` — `Option` and `Result`.
- `PyStr` — the Python string operations used: `isspace`, `strip`, `lower` and `endswith`;
  also splitting and joining lines, which the code does not do, to state how the reports
  are laid out in lines.
- `Json` — decoded JSON values and the type of the parser.
- `WeatherData` — the part of `format_weather` both servers share: parsing, the `"error"`
  short-circuit, the lookups with their defaults, and the cases that raise.
- `WeatherServer`, `Server` — each server's layout of the report, its formatter and its tool.
- `ReportLayouts` — how the two servers' outputs relate.
- `Conversation` — the data of a turn and `Turn`, the function `process_query` computes.
- `ConversationLaws` — what every turn does to the history.
- `Client` — the `MCPClient` class with its methods, the quit test and whole sessions.

Two behaviours of the code are worth knowing; both are proved as stated here.
The tool's text is read (`result.content[0].text`, `client.py:116`) only after the assistant
message has been appended (`client.py:112`). So a tool result with no text content ends the
turn with that assistant message in the history and no tool entry after it.
The assistant message is stored whole, with every tool call the model proposed, but only the
first call is run and answered. So a turn whose model proposed two or more calls leaves the
later ones without a tool entry (`ConversationLaws.TurnCanLeaveCallsUnanswered`).

The code runs the tool (`client.py:108`) before it appends the assistant message
(`client.py:112`). It does not keep every tool call paired with a tool result, for the two
reasons above. The catalog carries the schema under `input_schema` (`client.py:88`). An
assistant entry's content can be `None` (`client.py:125`, `131`).

## Model

| member | source | states |
|---|---|---|
| Client.MCPClient.constructor | client.py:18-39 | A new client's history is exactly the one system message with the fixed prompt, and it has no session. |
| Client.MCPClient.Create | client.py:30-38 | Construction fails, with the missing-key message, exactly when the API key is absent or empty; otherwise the client is fresh, holds only the system message and keeps the configured model. |
| Client.LaunchParameters | client.py:43-55 | A script path is accepted exactly when it ends in `.py` or `.js`; `.py` is run with `python` and `.js` with `node`, with the path as the only argument and the default environment; anything else is refused with the fixed message. |
| Client.ToolNames | client.py:66-68 | The names reported after connecting are the listed tools' names, one per tool, in order. |
| Client.MCPClient.ConnectToServer | client.py:41-68 | The suffix is checked before anything is launched and a refused path leaves the session as it was; a failed launch leaves it as it was, a failed handshake leaves the session set, and a connected session is kept and answers the tool names or the listing error. The history is untouched. |
| Conversation.ToolCatalog | client.py:83-90 | The catalog has one `function` entry per listed tool, in order, carrying that tool's name, description and input schema. |
| Conversation.Turn | client.py:70-133 | The function `process_query` computes: the new history, the answer or fault, the requests and the tool runs of one turn. It has no contract of its own; its laws are the ConversationLaws rows. |
| Conversation.ToolRound | client.py:100-128 | The tool branch of a turn. No contract of its own; `ToolTurn`, `FailedTurnHistory`, `OnlyFirstToolCallIsUsed` and `LaterToolCallsAreNotRun` state what it does. |
| Client.MCPClient.ProcessQuery | client.py:70-133 | The new history, the answer or fault, the requests sent and the tools run are those of the turn function on the old history; the session is unchanged. |
| ConversationLaws.TurnOnlyAppends | client.py:77-133 | A turn keeps the old history as a prefix, appends the user entry first, and appends at most four entries in all. |
| ConversationLaws.DirectAnswerTurn | client.py:93-133 | When the first choice does not ask for tools, the turn appends the user entry and the assistant's content, answers that content, sends one request with the catalog and runs no tool. |
| ConversationLaws.ToolTurn | client.py:100-128 | An answered tool round runs only the first proposed call, with its parsed arguments; appends user entry, the whole assistant message, the tool's text under that call's id, and the final answer; and sends a second request with the history up to the tool entry and no catalog. |
| ConversationLaws.AnsweredTurnGrowth | client.py:100-133 | An answered turn adds two entries when the first choice was not a tool call and four when it was, and its last entry holds the answer. |
| ConversationLaws.FailedTurnHistory | client.py:77-125 | Nothing is rolled back: a failure before or during the tool call leaves only the user entry, a result without text also leaves the assistant message, and a failing second completion leaves exactly the user entry, the assistant message and the tool's text under the first call's id. |
| ConversationLaws.OnlyFirstToolCallIsUsed | client.py:101-118 | At most one tool is run; if one is run, or an assistant message is stored, the first choice asked for tools and the run is the first proposed call with its parsed arguments; every tool entry added answers that call's id. |
| ConversationLaws.LaterToolCallsAreNotRun | client.py:103-108 | Two assistant messages with the same first call run the same tool with the same arguments, whatever the later calls are. |
| ConversationLaws.TurnKeepsToolEntriesAfterTheirCall | client.py:112-118 | If every tool entry follows the assistant message whose first call it answers, this still holds after any turn, answered or failed. |
| ConversationLaws.OneCallTurnKeepsCallsAnswered | client.py:101-118 | When the model proposed at most one call and the tool answered with text, a history in which every proposed call has its tool entry keeps that property. |
| ConversationLaws.TurnCanLeaveCallsUnanswered | client.py:112-118 | A tool result without text, or an answered round whose model proposed two or more calls, leaves a history in which some proposed call has no tool entry. |
| Client.IsQuit | client.py:141-142 | The quit test: the line, stripped and lower-cased, equals `quit`. No contract of its own; `QuitIgnoresCase` and `QuitIgnoresSurroundingWhitespace` characterise it. |
| Client.QuitIgnoresCase | client.py:141-142 | A line quits exactly when its stripped text is four letters, each the letter of `quit` in lower or upper case. |
| Client.QuitIgnoresSurroundingWhitespace | client.py:141-142 | Whitespace before and after a line does not change whether it quits. |
| Client.QuitIndex | client.py:139-143 | The index where the loop stops is the first quit line, or the number of lines when none quits. |
| Client.Queries | client.py:141 | Each query passed on is its input line stripped of surrounding whitespace, one per line. |
| Client.Converse | client.py:139-147 | The effect of the loop on a sequence of queries: one turn each, in order, with its reply. No contract of its own; `ConverseStep`, `HistoryOnlyAppends`, `ConverseReplies` and `HistoryKeepsToolEntriesAfterTheirCall` state its properties. |
| Client.ConverseStep | client.py:139-147 | One more input line extends the session by exactly the turn for its stripped query on the history so far. |
| Client.HistoryOnlyAppends | client.py:139-147 | Over a whole session the history keeps its start, grows by between n and 4·n entries over n queries, and there is one reply per query. |
| Client.ConverseReplies | client.py:139-147 | The reply to query k is the answer the turn for query k gives on the history the earlier turns left, whether they answered or failed. |
| Client.HistoryKeepsToolEntriesAfterTheirCall | client.py:139-147 | Over a whole session every tool entry stays right behind the assistant message whose first call it answers. |
| Client.MCPClient.ChatLoop | client.py:135-147 | The loop runs a turn for each stripped line before the first quit line, in order, keeps every reply including failures, and leaves the history and replies of those turns; the session is unchanged. |
| PyStr.StripLeftSpec | weather_server.py:92 | Stripping on the left removes exactly the leading whitespace: the result is a suffix, what was removed is all whitespace, and the result does not start with whitespace. |
| PyStr.StripRightSpec | weather_server.py:92 | Stripping on the right removes exactly the trailing whitespace, symmetrically. |
| PyStr.StripEmptyIffAllSpace | weather_server.py:92 | A string strips to empty exactly when all its characters are whitespace. |
| PyStr.StripIgnoresPadding | client.py:141 | Stripping a string with whitespace added on both sides gives what stripping the string gives. |
| PyStr.LowerAt | client.py:142 | Lower-casing maps each character on its own, and keeps the length. |
| PyStr.LinesOfJoinLines | weather_server.py:76-82 | Joining lines without newlines, each ending in a newline, and splitting the text at its newlines gives back the lines. |
| WeatherData.Analyze | weather_server.py:58-74 | A string that does not parse gives the parse error with the parser's message; a dict (given, or parsed from the string) with an `"error"` key gives that value's text; a record whose nested lookups all succeed gives the six values, each the field's rendering or its default; everything else raises. |
| WeatherData.TextIsTreatedAsItsParse | weather_server.py:58-62 | A string that parses to anything but a string is treated exactly as the value it parses to. |
| WeatherData.MissingFieldsTakeDefaults | weather_server.py:68-74 | Each missing field is printed as its default: `未知` for city, country and description, `N/A` for temperature, humidity and wind speed. |
| WeatherData.PresentFieldsAreShown | weather_server.py:68-74 | Each present field is printed as its own rendering. |
| WeatherServer.FormatWeather | weather_server.py:51-82 | The formatter returns the parse-error text, the error field's text, or the emoji report of the analysed values, and raises exactly when the analysis raises. |
| WeatherServer.Layout | weather_server.py:76-82 | The emoji report's f-string. No contract of its own; `LayoutHasFiveLines` and `ReportLayouts.LinesDifferByEmojiPrefix` state its shape. |
| WeatherServer.LayoutHasFiveLines | weather_server.py:76-82 | The emoji report is its five lines each followed by a newline; when no value contains a newline, splitting the report gives exactly those five lines. |
| WeatherServer.QueryWeather | weather_server.py:92-95 | A city made only of whitespace gets the fixed refusal; any other city gets the formatted result of whatever the fetch answers, a string being parsed first. |
| WeatherServer.BlankCityIsNotFetched | weather_server.py:92-93 | The answer to a blank city is the refusal whatever the fetcher would answer. |
| Server.FormatWeather | server.py:51-82 | As for the emoji server, with the plain report. |
| Server.Layout | server.py:76-82 | The plain report's f-string. No contract of its own; `LayoutHasFiveLines` and `ReportLayouts.LinesDifferByEmojiPrefix` state its shape. |
| Server.LayoutHasFiveLines | server.py:76-82 | The plain report is its five lines each followed by a newline; when no value contains a newline, splitting the report gives exactly those five lines. |
| Server.QueryWeather | server.py:92-95 | A city made only of whitespace gets the fixed refusal; any other city gets the formatted result of whatever the fetch answers, a string being parsed first. |
| Server.BlankCityIsNotFetched | server.py:92-93 | The answer to a blank city is the refusal whatever the fetcher would answer. |
| ReportLayouts.ReportLinesDifferByEmojiPrefix | server.py:76-82 | Each emoji report line is the plain report line behind its fixed emoji prefix. |
| ReportLayouts.LinesDifferByEmojiPrefix | weather_server.py:76-82 | When no value contains a newline, splitting the two reports at their newlines gives five lines each, the emoji one being the plain one behind its prefix. |
| ReportLayouts.FormattersAgreeOutsideReports | server.py:58-66 | When no report is laid out, the two servers return the same text or both raise. |
| ReportLayouts.SameBlankCityMessage | server.py:92-93 | Both servers refuse a blank city with the same message. |

## Left out

- The completion endpoint's HTTP client (`OpenAI(...)`): a function from requests to choices or an error; `BASE_URL` is only read into the environment record.
- The MCP transport, `ClientSession`, `initialize`, `AsyncExitStack` and `cleanup`: launching and the handshake are one function from launch parameters to a connection outcome.
- `list_tools` answers the same catalog for the whole life of a session; a server whose catalog changes between calls is not modelled.
- `call_tool` is one fixed function for the whole session, so two turns that make the same call with the same arguments get the same result; a tool whose answers change over time (a live weather service) is not modelled.
- Concurrency and `asyncio`: calls are modelled as sequential.
- `print` and the texts the client prints (the tool list, the `[Calling tool …]` line, the replies and the error reports): the replies are returned instead.
- `input()`: the loop reads a finite sequence of lines and stops when it runs out. At end of input the code catches the `EOFError` and prompts again forever; that is not modelled.
- `main`, `sys.argv` and the exit code: process start-up is not part of this model.
- `fetch_weather` and its HTTP calls: a function from city to the JSON value it returns, error records included.
- `json.loads` and `str()`: the parser is a parameter, and values carry their rendering already computed, so float formatting and the rendering of nested dicts and lists are not modelled.
- Exceptions: exception classes and tracebacks are not modelled, only which step failed. `ListToolsFailed`, `CompletionFailed`, `MalformedArguments` and `ToolCallFailed` hold the collaborator's message. `NoSession`, `NoChoices`, `NoToolCall`, `NoTextContent` and the weather formatter's `Raised` hold none, so the text of Python's own AttributeError, IndexError or TypeError, which the loop prints, is not modelled.
- The `isError` field of a tool result and any content item other than text: non-text content is one constructor.
- `load_dotenv`, `FastMCP` and `mcp.run`: configuration and server start-up are not modelled.
- PyStr.LowerChar: lower-cases ASCII letters only; Python's `lower()` also folds other scripts, which does not change whether a line equals `quit`, but `Client.QuitIgnoresCase` is stated for this ASCII folding.
- Client.MCPClient.ProcessQuery: its requests and tool invocations are ghost out-parameters, because the code does not return them.
