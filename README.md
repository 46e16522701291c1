# AgentFlow MCP bridge: a verified model

This project models four pieces of AgentFlow in Dafny and proves their properties:

- **The MCP bridge tool** (`MCP_Bridge_Tool`, in `agentflow/agentflow/tools/mcp_bridge/tool.py`).
  - It reads its configuration and validates it.
  - It connects to a Model Context Protocol server over stdio or HTTP, retrying up to
    `reconnect_attempts` times.
  - It keeps the server's tool catalog.
  - It runs a tool call under a deadline and turns every outcome into a result dictionary.
- **The example MCP server** (`scripts/example_mcp_server.py`). It has a fixed catalog of four
  tools and a dispatcher that computes one text reply per call.
- **Query extraction** (`_extract_queries_from_response` in
  `scripts/research_report_workflow.py`). It turns a planner's reply into at most five search
  queries.
- **The `.env` loader** in the `main` of `test_researcher_agent.py` and
  `test_researcher_simple.py`.

Files:

- `wrappers.dfy`: `Option` and `Result`.
- `values.dfy`: the JSON-like argument values and the tool descriptors.
- `text.dfy`: the Python string operations the core uses, each proved against a partner property:
  - `strip` with and without characters;
  - `split` and `join`;
  - `upper`, `lower` and slicing reversal;
  - decimal rendering and parsing;
  - `repr` of a string and of a list of strings.
- `bridge_spec.dfy`: the bridge's behaviour as functions of a configuration, a state (health
  flag and catalog) and a `Remote`.
  - A `Remote` gives the outcome of each connect attempt and of each tool call.
  - It also gives the step at which the `asyncio.wait_for` deadline fires, if it does. Step
    `2i` is connect attempt `i` and step `2i+1` is the pause after it.
  - It also says whether an event loop is already running (`asyncio.run` then raises).
- `bridge.dfy`: the class `McpBridge.Bridge`. Its fields are the ones the tool updates in place,
  and each method is proved against the functions of `bridge_spec.dfy`.
- `bridge_lemmas.dfy`: what the tool promises, proved about those functions.
- `example_server.dfy`: the server's catalog and dispatcher. The arithmetic follows Python's
  operators on `int`, `bool` and `str` values.
- `query_extraction.dfy`: the extraction and what cleaning does to numbered lines.
- `dotenv.dfy`:
  - the loader, as the class `DotEnv.Environ`, whose `vars` map the loop updates in place;
  - the specification functions `Load` and `Prologue`;
  - the lemmas: the later line wins, a refused write stops the loop, and formatted lines
    read back.
- `scenarios.dfy`: the bridge driven against the example server, connecting on the first or
  second attempt, calling `echo` and `calculate`, and refusing an unlisted tool.

Behaviour of the code worth noting:

- A timeout override is used whenever it is non-zero, negative ones included (`timeout or
  self.timeout`). An effective timeout of zero or less makes `wait_for` time out before
  `_execute_async` starts, so nothing is connected or called and the state is unchanged.
- The deadline covers the whole of `_execute_async`, so it can also cut a reconnection short.
  In that case the state stays as it was.
- The refusal of an unknown tool lists the names as Python's `repr` of a list, so each name
  appears as its `repr`: in single quotes unless it contains a single quote and no double
  quote, in which case it is in double quotes.
- A failed result carries only a message string; there is no separate error kind.
- Calling `execute` where an event loop already runs makes `asyncio.run` raise. That is
  reported as `Execution failed: ...`.
- A reply without content yields `{}` over stdio. Over HTTP, an empty `content` list raises an
  `IndexError`, which counts as an execution error.
- `close` releases nothing for a stdio session; it only clears the health flag. With an HTTP client it runs `aclose` through `asyncio.run`, which raises inside a running event loop before the flag is cleared.

## Model

| member | source | states |
|---|---|---|
| BridgeSpec.ValidateConfig | agentflow/agentflow/tools/mcp_bridge/tool.py:147-170 | Accepted exactly when the type is `stdio` with the MCP client available and a non-empty command, or `http` with httpx available and a non-empty URL; any other type is the `ValueError` naming it; an `ImportError` exactly when the chosen transport's library is missing |
| BridgeLemmas.ConfigureAccepts | agentflow/agentflow/tools/mcp_bridge/tool.py:131-145 | Construction succeeds iff the lower-cased `MCP_SERVER_TYPE` names an available transport whose address is set; the stored kind is the lower-cased type |
| BridgeLemmas.UpperCaseTypeAccepted | agentflow/agentflow/tools/mcp_bridge/tool.py:131 | `MCP_SERVER_TYPE=HTTP` with a URL is accepted |
| McpBridge.Bridge.constructor | agentflow/agentflow/tools/mcp_bridge/tool.py:138-145 | A validated configuration is stored; the bridge starts unhealthy with an empty catalog |
| McpBridge.Bridge.Open | agentflow/agentflow/tools/mcp_bridge/tool.py:130-145 | Raises the validation error, or yields a fresh bridge holding the normalised configuration in the initial state |
| BridgeSpec.FromEntries | agentflow/agentflow/tools/mcp_bridge/tool.py:198-204 | The dict comprehension is well formed, and a name is a key iff some entry has it, mapped to the metadata of the last entry with that name |
| BridgeSpec.HttpEntries | agentflow/agentflow/tools/mcp_bridge/tool.py:237-243 | An HTTP listing yields entries iff every tool has a `name`, one entry per tool |
| BridgeLemmas.HttpEntriesContent | agentflow/agentflow/tools/mcp_bridge/tool.py:237-243 | Entry `i` is tool `i`'s name, its description or `""`, and its input schema or `{}` |
| BridgeLemmas.FromDistinctEntries | agentflow/agentflow/tools/mcp_bridge/tool.py:198-204 | With distinct names, the catalog's keys keep the listing's order |
| BridgeLemmas.LastInfoDistinct | agentflow/agentflow/tools/mcp_bridge/tool.py:198-204 | With distinct names, each name maps to its own entry's description and schema |
| BridgeLemmas.CatalogSize | agentflow/agentflow/tools/mcp_bridge/tool.py:449 | The reported tool count is the number of catalog keys |
| BridgeLemmas.ListingRoundTrip | agentflow/agentflow/tools/mcp_bridge/tool.py:423-437 | After a stdio connect, `get_available_tools` returns exactly the server's tools, in its order, when their names are distinct |
| BridgeLemmas.InfoReports | agentflow/agentflow/tools/mcp_bridge/tool.py:439-455 | `get_server_info` reports the health flag and catalog size, the command only for stdio and the URL only for HTTP |
| McpBridge.Bridge.ConnectStdio | agentflow/agentflow/tools/mcp_bridge/tool.py:172-212 | Succeeds iff the server listed its tools; success installs that catalog and sets healthy, failure only clears health |
| McpBridge.Bridge.ConnectHttp | agentflow/agentflow/tools/mcp_bridge/tool.py:214-251 | Creates the HTTP client, then as for stdio; a reply whose catalog cannot be built (a tool without a name) is a failure |
| BridgeLemmas.ReconnectSpec | agentflow/agentflow/tools/mcp_bridge/tool.py:253-277 | The loop makes at most `reconnect_attempts` attempts and stops at the first success, which installs that attempt's catalog; every earlier attempt failed; otherwise the state is unchanged; with no deadline it is never interrupted |
| BridgeLemmas.ReconnectCounts | agentflow/agentflow/tools/mcp_bridge/tool.py:264-277 | The attempts made and steps awaited: all allowed attempts when exhausted, one pause fewer than attempts when ready, and interruption only at the deadline's step |
| BridgeLemmas.ReconnectOutcome | agentflow/agentflow/tools/mcp_bridge/tool.py:264-277 | The state is unchanged unless an attempt succeeds, a success installs the catalog of the last attempt, and every attempt before it failed |
| BridgeLemmas.ConnectsIffSomeAttemptSucceeds | agentflow/agentflow/tools/mcp_bridge/tool.py:260-277 | With no deadline, connecting succeeds iff the bridge is healthy or one of the allowed attempts succeeds; otherwise the attempts are exhausted |
| BridgeLemmas.ReconnectIgnoresCalls | agentflow/agentflow/tools/mcp_bridge/tool.py:264-275 | The reconnection loop depends only on the connect outcomes and the deadline |
| BridgeLemmas.EnsureConnectionSpec | agentflow/agentflow/tools/mcp_bridge/tool.py:253-277 | Connecting keeps the catalog well formed: it is the old one or the catalog of an attempt; ready means healthy; not ready leaves the state as it was |
| BridgeLemmas.HealthyMakesNoConnect | agentflow/agentflow/tools/mcp_bridge/tool.py:260-261 | A healthy bridge ignores the connect outcomes and keeps its catalog |
| McpBridge.Bridge.EnsureConnection | agentflow/agentflow/tools/mcp_bridge/tool.py:253-277 | The loop's status, attempts, awaited steps and new state are those of the reconnection specification; an unhealthy HTTP bridge allowed any attempt has created its client |
| McpBridge.Bridge.ExecuteAsync | agentflow/agentflow/tools/mcp_bridge/tool.py:369-421 | The response and new state are those of the specification: connect failure, unknown tool, success, or execution error; `None` when the deadline cancels it; the HTTP client exists after any connect attempt |
| McpBridge.Bridge.Execute | agentflow/agentflow/tools/mcp_bridge/tool.py:316-367 | The response and new state are those of the specification, with absent arguments as `{}` and a zero or absent timeout replaced by the configured one; an effective timeout of zero or less, like a running event loop, creates no client |
| BridgeLemmas.ExecuteSpec | agentflow/agentflow/tools/mcp_bridge/tool.py:316-421 | Every result names the requested tool and reports the server info of the state it leaves; the catalog stays well formed; a success leaves a healthy bridge that lists the tool; a running event loop changes nothing |
| BridgeLemmas.UnknownToolReport | agentflow/agentflow/tools/mcp_bridge/tool.py:389-396 | An unlisted name fails without calling the server, whatever the server would answer, and the message contains the `repr` of every listed name |
| BridgeLemmas.ExhaustedReportsFailure | agentflow/agentflow/tools/mcp_bridge/tool.py:380-387 | When every allowed attempt fails, the result is the connect-failure message and the state is unchanged |
| BridgeLemmas.CancelledCallKeepsHealth | agentflow/agentflow/tools/mcp_bridge/tool.py:342-360 | A deadline during the tool call yields `timed out after <timeout> seconds` and the connection stays healthy |
| BridgeLemmas.CancelledConnectKeepsState | agentflow/agentflow/tools/mcp_bridge/tool.py:342-360 | A deadline while reconnecting yields the timeout message and leaves the state as it was |
| BridgeLemmas.CallErrorMarksUnhealthy | agentflow/agentflow/tools/mcp_bridge/tool.py:412-421 | An exception from the call is reported as `Tool execution error: <text>`, clears health, keeps the catalog, and the next call reconnects first |
| BridgeLemmas.SuccessfulCallReturnsResult | agentflow/agentflow/tools/mcp_bridge/tool.py:398-410 | A call that returns is a success carrying the extracted result, with the connected, healthy state |
| BridgeLemmas.MissingArgumentsAreEmpty | agentflow/agentflow/tools/mcp_bridge/tool.py:338-339 | Absent arguments behave exactly as `{}` |
| BridgeLemmas.NonPositiveTimeoutTimesOut | agentflow/agentflow/tools/mcp_bridge/tool.py:342-360 | An effective timeout of zero or less gives `timed out after <timeout> seconds` with the state unchanged, whatever the server would do |
| BridgeLemmas.ZeroTimeoutIsDefault | agentflow/agentflow/tools/mcp_bridge/tool.py:342 | A zero timeout override, and the configured value itself, behave exactly as no override |
| BridgeLemmas.ExtractStdioSpec | agentflow/agentflow/tools/mcp_bridge/tool.py:290-291 | No content is `{}`; a first text block gives its text; any other first block raises the missing-`text` error; later blocks are never read |
| BridgeLemmas.ExtractHttpSpec | agentflow/agentflow/tools/mcp_bridge/tool.py:313-314 | Of the modelled bodies, only an empty `content` list raises (an index error); an absent `content` or a first block without `text` is `{}`; otherwise the first block's `text` |
| BridgeLemmas.EmptyContentAsymmetry | agentflow/agentflow/tools/mcp_bridge/tool.py:279-314 | An HTTP reply with an empty `content` list raises an `IndexError`; an absent `content` and an empty stdio reply both yield `{}` |
| McpBridge.Bridge.GetAvailableTools | agentflow/agentflow/tools/mcp_bridge/tool.py:423-437 | One descriptor per catalog key, in key order, each with that entry's description and input schema |
| McpBridge.Bridge.Close | agentflow/agentflow/tools/mcp_bridge/tool.py:457-465 | With an HTTP client inside a running event loop it raises the `asyncio.run` error and changes nothing; otherwise it clears health and keeps the catalog; the client is never unset |
| BridgeLemmas.CloseIdempotent | agentflow/agentflow/tools/mcp_bridge/tool.py:457-465 | A `close` that does not raise, done twice, is done once; the catalog survives, and the next call reconnects |
| ExampleServer.CatalogShape | scripts/example_mcp_server.py:41-116 | The catalog is `echo`, `calculate`, `get_system_info`, `text_transform`, in that order, and each schema declares every property it requires |
| ExampleServer.UnknownToolIffUnlisted | scripts/example_mcp_server.py:123-179 | With no arguments, the reply is `Error: Unknown tool <name>` iff the name is not in the catalog |
| ExampleServer.UnlistedToolUnknown | scripts/example_mcp_server.py:178-179 | Whatever the arguments, a name not in the catalog is answered `Error: Unknown tool <name>` |
| ExampleServer.CallTool | scripts/example_mcp_server.py:119-181 | Only `calculate` and `text_transform` can raise or reply with a quotient, a quotient never has a zero divisor, and any other name is the unknown-tool reply |
| ExampleServer.Calculate | scripts/example_mcp_server.py:127-146 | A quotient is only for `divide` and never by zero; the only exception is a `TypeError` from non-numeric operands |
| ExampleServer.SystemInfo | scripts/example_mcp_server.py:148-161 | Never raises |
| ExampleServer.Transform | scripts/example_mcp_server.py:163-176 | Raises iff the transformation is known and the text is not a string, with an `AttributeError` or a `TypeError` |
| ExampleServer.EchoReturnsMessage | scripts/example_mcp_server.py:123-125 | `echo` of a string message replies `Echo: ` followed by exactly the message |
| ExampleServer.Repeat | scripts/example_mcp_server.py:136-137 | `s * n` has `n` times the length of `s` (none when `n <= 0`) and only characters of `s` |
| ExampleServer.RepeatPeriodic | scripts/example_mcp_server.py:136-137 | `s * n` starts with `s` when `n > 0`, and each character repeats the one `len(s)` places earlier |
| ExampleServer.Plus | scripts/example_mcp_server.py:132-133 | `a + b` succeeds iff both are numbers or both strings; it is the sum of numbers and the concatenation of strings |
| ExampleServer.Minus | scripts/example_mcp_server.py:134-135 | `a - b` succeeds iff both are numbers, and is then their difference |
| ExampleServer.Times | scripts/example_mcp_server.py:136-137 | `a * b` succeeds iff both are numbers or one is a string and the other a number; it is the product of numbers, and the string repeated the other operand's times, on either side |
| ExampleServer.ArithmeticRoundTrip | scripts/example_mcp_server.py:127-146 | Integer add, subtract and multiply reply `Result: ` followed by a decimal that parses back to the exact value |
| ExampleServer.OperandsDefaultToZero | scripts/example_mcp_server.py:128-130 | Missing operands count as 0, so the reply is `Result: 0` |
| ExampleServer.DivisionByZeroReported | scripts/example_mcp_server.py:138-140 | A zero divisor replies `Result: Error: Division by zero` |
| ExampleServer.ResultingPrefixed | scripts/example_mcp_server.py:146 | Every arithmetic outcome is rendered after `Result: `, and it raises iff the operation failed |
| ExampleServer.CalculateReplyPrefixed | scripts/example_mcp_server.py:127-146 | Every `calculate` reply that is not an exception starts with `Result: ` |
| ExampleServer.CalculateNumbersNeverRaise | scripts/example_mcp_server.py:127-146 | With numeric operands, `calculate` never raises |
| ExampleServer.CalculatePrefixed | scripts/example_mcp_server.py:127-146 | Through the dispatcher: the reply is prefixed, and with numeric operands it is not an exception |
| ExampleServer.SystemInfoReplies | scripts/example_mcp_server.py:148-161 | Each info type replies with the host's value after its own label; a missing type is reported as `None` |
| ExampleServer.ReverseTwice | scripts/example_mcp_server.py:171-172 | Reversing the reply of a reversal gives back the text |
| ExampleServer.LengthRoundTrip | scripts/example_mcp_server.py:173-174 | The `length` reply carries a decimal that parses back to the text's length |
| ExampleServer.CaseTransforms | scripts/example_mcp_server.py:167-170 | `uppercase` keeps the length and leaves no lower-case ASCII letter, and lower-casing it equals lower-casing the text; `lowercase` keeps the length and leaves no upper-case ASCII letter |
| ExampleServer.UnknownTransformation | scripts/example_mcp_server.py:175-176 | An unknown transformation is reported by name, whatever the text is |
| ExampleServer.StringTimesNumber | scripts/example_mcp_server.py:136-146 | `multiply` of a string and an integer replies with the repeated string |
| Text.StripChars | scripts/research_report_workflow.py:439 | The result is no longer than the input, and neither of its ends is a stripped character |
| Text.StripCharsRemovesOnly | scripts/research_report_workflow.py:439 | The result is a contiguous slice of the input, and everything removed before and after it is a stripped character |
| Text.StripCharsEnclosed | test_researcher_agent.py:165 | Stripping a text framed by stripped characters, with no stripped character at its own ends, yields that text |
| Text.StripCharsIdempotent | scripts/research_report_workflow.py:439 | Stripping twice is stripping once |
| Text.Split | scripts/research_report_workflow.py:440 | `split('\n')` yields at least one part, and no part contains the separator |
| Text.JoinSplit | scripts/research_report_workflow.py:440 | Joining the parts of a split gives back the string |
| Text.SplitJoin | scripts/research_report_workflow.py:440 | Splitting a join of separator-free parts gives back the parts |
| Text.IndexOf | test_researcher_agent.py:164 | The index of the first occurrence of the character |
| Text.Upper | scripts/example_mcp_server.py:168 | Same length; each character mapped by the ASCII upper-case map |
| Text.Lower | scripts/example_mcp_server.py:170 | Same length; each character mapped by the ASCII lower-case map |
| Text.Reverse | scripts/example_mcp_server.py:172 | Same length; character `i` is the input's character `n-1-i` |
| Text.ReverseInvolution | scripts/example_mcp_server.py:172 | Reversing twice gives back the string |
| Text.DecimalRoundTrip | scripts/example_mcp_server.py:146 | The decimal rendering of an integer parses back to it |
| Text.ReprOfPlain | agentflow/agentflow/tools/mcp_bridge/tool.py:393 | The `repr` of a string of printable ASCII without quotes or backslashes is that string in single quotes |
| Text.ListReprContains | agentflow/agentflow/tools/mcp_bridge/tool.py:393 | The `repr` of a list contains the `repr` of each element |
| Text.ListReprContainsPlain | agentflow/agentflow/tools/mcp_bridge/tool.py:393 | The `repr` of a list contains each element that is printable ASCII without quotes or backslashes |
| QueryExtraction.Clean | scripts/research_report_workflow.py:439 | A cleaned line is empty, or neither end is a quote, dash, digit, dot or `)` |
| QueryExtraction.ExtractQueries | scripts/research_report_workflow.py:421-448 | At most five queries; a JSON list gives its first five; the result is empty only for an empty JSON list; with no JSON and no qualifying line, the first 200 characters of the reply |
| QueryExtraction.KeptFrom | scripts/research_report_workflow.py:438-442 | The indices of exactly the qualifying lines (longer than 10 after `strip()`), in increasing order |
| QueryExtraction.CleanedLinesKept | scripts/research_report_workflow.py:438-442 | The comprehension yields the qualifying lines, each cleaned, in their original order |
| QueryExtraction.FallbackProvenance | scripts/research_report_workflow.py:437-445 | Without JSON, the result is the first (at most five) qualifying lines, cleaned, in reply order |
| QueryExtraction.UltimateFallback | scripts/research_report_workflow.py:447-448 | With no qualifying line, the single query is a prefix of the reply of at most 200 characters, and the whole reply when it is that short |
| QueryExtraction.StripNumbering | scripts/research_report_workflow.py:439 | Cleaning removes leading numbering and nothing of the text after it |
| QueryExtraction.SingleLine | scripts/research_report_workflow.py:438-445 | A reply of one qualifying line yields that line, cleaned |
| QueryCleaning.CleanUnpadded | scripts/research_report_workflow.py:439 | On a line without surrounding whitespace, cleaning is just the character strip |
| QueryCleaning.CleanNumbered | scripts/research_report_workflow.py:439 | A numbered line cleans to the text after its numbering |
| QueryCleaning.NumberedLine | scripts/research_report_workflow.py:438-445 | A long numbered line yields exactly the text after its numbering, a leading blank included |
| QueryCleaning.NumberingOnlyLine | scripts/research_report_workflow.py:438-445 | A long line of numbering alone yields one empty query |
| DotEnv.CleanValue | test_researcher_agent.py:165 | A cleaned value is empty or does not start or end with a single quote |
| DotEnv.ParseLine | test_researcher_agent.py:161-165 | A line is an assignment iff, stripped, it is non-empty, not a comment and holds `=`; its key has no `=` and no surrounding whitespace |
| DotEnv.KeyHasNoEquals | test_researcher_agent.py:164-165 | The key, the part before the first `=`, contains no `=` after stripping |
| DotEnv.ApplyFrom | test_researcher_agent.py:161-165 | When a write raises, it is at an assignment line whose key or value `putenv` refuses |
| DotEnv.Environ.Set | test_researcher_agent.py:165 | The write succeeds iff `putenv` accepts the key and value, and then updates exactly that key |
| DotEnv.Environ.LoadLines | test_researcher_simple.py:133-138 | The environment and the raising line after the loop are those of `Load` |
| DotEnv.Environ.LoadIfUnset | test_researcher_agent.py:155-165 | The file is loaded only when the API key is unset or empty and the file exists |
| DotEnvLemmas.SplitAtFirstEquals | test_researcher_simple.py:135-138 | Any line whose `strip()` is `KEY=REST`, not a comment, splits at its first `=`: the key is stripped, and further `=` signs belong to the value |
| DotEnvLemmas.FormattedLineParses | test_researcher_agent.py:161-165 | `KEY=VALUE`, with a clean key and an unpadded, unquoted value, parses to that key and value |
| DotEnvLemmas.QuotedValueParses | test_researcher_agent.py:165 | `KEY="VALUE"` parses to the value without its quotes |
| DotEnvLemmas.SkippedLine | test_researcher_agent.py:163 | Blank lines, comments and lines without `=` change nothing |
| DotEnvLemmas.ApplyFromLastWins | test_researcher_agent.py:161-165 | When no write raises, each key ends with the value of the last entry that assigns it, and an unassigned key keeps its value or stays absent |
| DotEnvLemmas.LoadLastWins | test_researcher_simple.py:134-138 | The same for a whole file, against the reference definition of the last assignment |
| DotEnvLemmas.ApplyFromStops | test_researcher_agent.py:161-165 | A raising write stops the loop with the entries before it applied |
| DotEnvLemmas.LoadStops | test_researcher_simple.py:134-138 | Loading stops at the first refused assignment line, with the lines before it applied |
| DotEnvLemmas.KeySetSkipsFile | test_researcher_agent.py:156 | With the API key set and non-empty, the file is not read and nothing changes |
| DotEnvLemmas.EmptyKeyRaises | test_researcher_agent.py:164-165 | A line `=VALUE` has an empty key, so the load raises at that line |
| Scenarios.ServedCatalog | agentflow/agentflow/tools/mcp_bridge/tool.py:197-204 | The bridge lists the example server's four tools in the server's order |
| Scenarios.EchoCall | scripts/example_mcp_server.py:123-125 | Through the stdio client, the server's `echo` reply is the text `Echo: <message>` |
| Scenarios.QuotientCall | scripts/example_mcp_server.py:138-146 | Through the stdio client, a division by a non-zero integer is the text `Result: ` and the rendered quotient |
| Scenarios.EchoThroughBridge | agentflow/agentflow/tools/mcp_bridge/tool.py:369-410 | Connecting on the first attempt and calling `echo` succeeds with the server's text, leaving a healthy bridge with the served catalog |
| Scenarios.SecondAttemptConnects | agentflow/agentflow/tools/mcp_bridge/tool.py:264-275 | A failed first attempt and a successful second one give the same successful `echo` |
| Scenarios.UnknownToolThroughBridge | agentflow/agentflow/tools/mcp_bridge/tool.py:389-396 | A name the server does not list is refused whatever the server would answer, and the refusal names `'echo'` |

## Left out

- The transports themselves: the `mcp` stdio client, `httpx`, process start-up and JSON-RPC framing. Each connect attempt's and each call's outcome is an input of the model (the `Remote`).
- McpBridge.Bridge.ConnectStdio: the `StdioUp` outcome assumes the stdio session opens and lists its tools. `_connect_stdio` (tool.py:188-191) indexes the result of `stdio_client(...)` and never enters `ClientSession` with `async with`; whether the `mcp` library accepts that is not modelled, so `Scenarios.EchoThroughBridge` and `Scenarios.SecondAttemptConnects` say what happens when the session works, not that it does.
- `_session`, and what `aclose` does to the HTTP client. The model keeps only whether `_http_client` was created, which decides whether `close` calls `asyncio.run`.
- McpBridge.Bridge.Close: an `aclose` that itself raises (for instance on a client whose event loop has ended) is not modelled; `close` then raises as well.
- `__del__`: it only calls `close`.
- The `print` calls of the bridge and the server's `main`, which serves over stdio.
- Reading `os.getenv` and the `int(...)` parses in the bridge's constructor. The configuration arrives as values, so a non-numeric timeout raising `ValueError` is not modelled.
- The real time behind `asyncio.wait_for` and `asyncio.sleep(1)`. The deadline is the step at which it fires, not a number of seconds.
- BridgeSpec.HttpEntries: a `description` present but `null` is not told apart from one that is absent.
- BridgeSpec.ExtractHttp: a reply body that is not a JSON object, a `content` value that is present but not a list (`null` raises `TypeError`, an object raises `KeyError`, both reported as `Tool execution error` with the bridge marked unhealthy), and a `content` item that is not an object, are not modelled. The model's `content` is either absent or a list.
- BridgeSpec.HttpCatalog: a `tools` value that is present but not a list (such as `null`), and a tool entry that is not an object, are not modelled; in the code either raises inside `_connect_http` (tool.py:237-243), so that connect attempt fails. The model's `tools` is either absent or a list of objects.
- McpBridge.Bridge.GetServerInfo has no contract of its own; BridgeLemmas.InfoReports states what it reports.
- The MCP library's conversion of an exception raised in a server handler into an error result. The scenarios treat it as an exception of the call.
- ExampleServer.Calculate: a non-zero division yields Python's float `a / b`. The server's reply records the operands, and the scenarios take the float's rendering as a parameter.
- Float, list and dict arguments of the example server. Arguments are `None`, booleans, integers and strings.
- Text.Upper: maps ASCII letters only; Python's full Unicode case mapping is not modelled.
- Text.Lower: maps ASCII letters only, for the same reason.
- Text.Repr: escapes quotes, backslashes, and the control characters of ASCII and Latin-1 and the soft hyphen; the non-printable characters above U+00FF (`\u` and `\U` escapes) are left as they are.
- Text.ListReprContains: uses Text.Repr, so it shares that gap for non-printable characters above U+00FF.
- QueryExtraction.ExtractQueries: the regular-expression search and `json.loads` are an input (the `queries` list, when found). A `queries` value that is not a list of strings is not modelled.
- DotEnv.Settable: only the refusals `putenv` makes on every platform are modelled (an empty name, a NUL character). Encoding errors and Windows environment semantics are not.
- Opening and reading the `.env` file, its encoding, and the newline kept on each line. The file arrives as its sequence of lines; the `strip()` removes the newline.
- The research workflow around query extraction, the researcher agents the test scripts exercise, and the rest of the repository.
