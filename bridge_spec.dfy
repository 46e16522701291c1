/**
 * The decisions of the MCP bridge tool (agentflow/agentflow/tools/mcp_bridge/tool.py), as
 * functions of its configuration, its state (health flag and tool catalog) and the outcomes
 * the transports deliver. The class in module McpBridge performs the same steps in place
 * and is proved to agree with these functions.
 *
 * The two transports (an MCP stdio session and an HTTP client) are not modelled: what they
 * deliver is an input, `Remote`. Time is not modelled either: the awaited steps of one call
 * are numbered (connect attempt i is step 2i, the one-second pause after it is step 2i+1,
 * the tool call is the step after the last connect or pause) and `Remote.deadline` names
 * the step during which the call's deadline expires, if any.
 */
module BridgeSpec {
  import opened Wrappers
  import opened Values
  import Text

  // ---------------------------------------------------------------------------
  // Configuration

  /** The configuration values as read from the environment, before lower-casing the type. */
  datatype RawConfig = RawConfig(
    serverType: string, command: Option<string>, args: seq<string>, url: Option<string>,
    timeout: int, reconnectAttempts: int)

  /** The bridge's configuration fields (`server_type` is stored lower-cased). */
  datatype Config = Config(
    kind: string, command: Option<string>, args: seq<string>, url: Option<string>,
    timeout: int, reconnectAttempts: int)

  /** Whether the `mcp` stdio client and the `httpx` client could be imported. */
  datatype Support = Support(stdioAvailable: bool, httpAvailable: bool)

  /** The exceptions validation raises. */
  datatype ConfigError = ImportError(message: string) | ValueError(message: string)

  const StdioImportMessage := "MCP stdio client not available. Install with: pip install mcp"
  const CommandRequiredMessage := "MCP_SERVER_COMMAND environment variable is required for stdio servers"
  const HttpImportMessage := "httpx not available. Install with: pip install httpx"
  const UrlRequiredMessage := "MCP_SERVER_URL environment variable is required for HTTP servers"

  function InvalidTypeMessage(kind: string): string
  {
    "Invalid MCP_SERVER_TYPE: " + kind + ". Must be 'stdio' or 'http'"
  }

  /** Python's `not value` for an optional string: absent or empty. */
  predicate Falsy(value: Option<string>)
  {
    value.None? || value.value == ""
  }

  /** `_validate_config`: `None` when the configuration is accepted, otherwise the exception raised. */
  function ValidateConfig(cfg: Config, support: Support): (err: Option<ConfigError>)
    ensures err.None? <==>
      || (cfg.kind == "stdio" && support.stdioAvailable && !Falsy(cfg.command))
      || (cfg.kind == "http" && support.httpAvailable && !Falsy(cfg.url))
    ensures cfg.kind != "stdio" && cfg.kind != "http" ==>
      err == Some(ValueError(InvalidTypeMessage(cfg.kind)))
    ensures (err.Some? && err.value.ImportError?) <==>
      (cfg.kind == "stdio" && !support.stdioAvailable) || (cfg.kind == "http" && !support.httpAvailable)
  {
    if cfg.kind == "stdio" then
      if !support.stdioAvailable then Some(ImportError(StdioImportMessage))
      else if Falsy(cfg.command) then Some(ValueError(CommandRequiredMessage))
      else None
    else if cfg.kind == "http" then
      if !support.httpAvailable then Some(ImportError(HttpImportMessage))
      else if Falsy(cfg.url) then Some(ValueError(UrlRequiredMessage))
      else None
    else
      Some(ValueError(InvalidTypeMessage(cfg.kind)))
  }

  /** The configuration the constructor stores: the server type lower-cased, the rest as given. */
  function Normalize(raw: RawConfig): Config
  {
    Config(Text.Lower(raw.serverType), raw.command, raw.args, raw.url, raw.timeout, raw.reconnectAttempts)
  }

  /** Construction: store the configuration, then validate it; the exception aborts construction. */
  function Configure(raw: RawConfig, support: Support): Result<Config, ConfigError>
  {
    var cfg := Normalize(raw);
    match ValidateConfig(cfg, support)
    case None => Success(cfg)
    case Some(e) => Failure(e)
  }

  // ---------------------------------------------------------------------------
  // Tool catalog: `_available_tools`, a dict in insertion order

  datatype ToolInfo = ToolInfo(description: Option<string>, inputSchema: Schema)

  /** A dict from tool name to its metadata: `names` is the key order, `info` the mapping. */
  datatype Catalog = Catalog(names: seq<string>, info: map<string, ToolInfo>)

  const EmptyCatalog := Catalog([], map[])

  predicate Distinct(xs: seq<string>)
  {
    forall i, j :: 0 <= i < j < |xs| ==> xs[i] != xs[j]
  }

  /** Keys are listed once each, and exactly the mapped names are listed. */
  predicate WellFormed(c: Catalog)
  {
    && Distinct(c.names)
    && (forall n :: n in c.info ==> n in c.names)
    && (forall i :: 0 <= i < |c.names| ==> c.names[i] in c.info)
  }

  /** `d[name] = info`: a new key goes to the end, an existing key keeps its place. */
  function Insert(c: Catalog, name: string, info: ToolInfo): Catalog
  {
    if name in c.info then c.(info := c.info[name := info])
    else Catalog(c.names + [name], c.info[name := info])
  }

  /** The metadata of the last entry called `name`, if any. */
  function LastInfo(entries: seq<(string, ToolInfo)>, name: string): Option<ToolInfo>
  {
    if entries == [] then None
    else if entries[|entries| - 1].0 == name then Some(entries[|entries| - 1].1)
    else LastInfo(entries[..|entries| - 1], name)
  }

  /**
   * A dict comprehension `{name: info for ...}` over `entries`: every named tool is present,
   * with the metadata of its last entry.
   */
  function FromEntries(entries: seq<(string, ToolInfo)>): (c: Catalog)
    ensures WellFormed(c)
    ensures forall n :: n in c.info <==> LastInfo(entries, n).Some?
    ensures forall n :: n in c.info ==> c.info[n] == LastInfo(entries, n).value
  {
    if entries == [] then EmptyCatalog
    else
      var last := entries[|entries| - 1];
      Insert(FromEntries(entries[..|entries| - 1]), last.0, last.1)
  }

  function EntryNames(entries: seq<(string, ToolInfo)>): (names: seq<string>)
    ensures |names| == |entries| && forall i :: 0 <= i < |entries| ==> names[i] == entries[i].0
  {
    if entries == [] then [] else EntryNames(entries[..|entries| - 1]) + [entries[|entries| - 1].0]
  }

  /** The catalog `_connect_stdio` builds from a `list_tools` reply. */
  function StdioEntries(tools: seq<Tool>): seq<(string, ToolInfo)>
  {
    seq(|tools|, i requires 0 <= i < |tools| => (tools[i].name, ToolInfo(tools[i].description, tools[i].inputSchema)))
  }

  function StdioCatalog(tools: seq<Tool>): Catalog
  {
    FromEntries(StdioEntries(tools))
  }

  /** One element of the `tools` array of a `/tools/list` JSON reply; any key may be missing. */
  datatype HttpToolEntry = HttpToolEntry(name: Option<string>, description: Option<string>, inputSchema: Option<Schema>)

  /** The `/tools/list` JSON reply; `tools` may be missing. */
  datatype HttpListBody = HttpListBody(tools: Option<seq<HttpToolEntry>>)

  /**
   * `tool["name"]`, `tool.get("description", "")`, `tool.get("inputSchema", {})` for every entry;
   * `None` when an entry has no name (a `KeyError`).
   */
  function HttpEntries(es: seq<HttpToolEntry>): (r: Option<seq<(string, ToolInfo)>>)
    ensures r.Some? <==> forall i :: 0 <= i < |es| ==> es[i].name.Some?
    ensures r.Some? ==> |r.value| == |es|
  {
    if es == [] then Some([])
    else if es[0].name.None? then None
    else
      var info := ToolInfo(
        Some(if es[0].description.Some? then es[0].description.value else ""),
        if es[0].inputSchema.Some? then es[0].inputSchema.value else EmptySchema);
      match HttpEntries(es[1..])
      case None => None
      case Some(rest) => Some([(es[0].name.value, info)] + rest)
  }

  /** The catalog `_connect_http` builds, or `None` when building it raises. */
  function HttpCatalog(body: HttpListBody): Option<Catalog>
  {
    match HttpEntries(if body.tools.Some? then body.tools.value else [])
    case None => None
    case Some(entries) => Some(FromEntries(entries))
  }

  /** `get_available_tools`: one descriptor per catalog entry, in the catalog's order. */
  function Listing(c: Catalog): (tools: seq<Tool>)
    requires WellFormed(c)
  {
    seq(|c.names|, i requires 0 <= i < |c.names| =>
      Tool(c.names[i], c.info[c.names[i]].description, c.info[c.names[i]].inputSchema))
  }

  // ---------------------------------------------------------------------------
  // Bridge state and what the transports deliver

  /** `_connection_healthy` and `_available_tools`. */
  datatype State = State(healthy: bool, catalog: Catalog)

  const InitialState := State(false, EmptyCatalog)

  /** One stdio connect attempt: `initialize` and `list_tools` succeed, or something raises. */
  datatype StdioConnect = StdioUp(tools: seq<Tool>) | StdioDown(reason: string)

  /** One HTTP connect attempt: `/tools/list` answers with a 2xx JSON body, or something raises. */
  datatype HttpConnect = HttpUp(body: HttpListBody) | HttpDown(reason: string)

  /** A content block of a stdio `call_tool` result; only text blocks have a `text` attribute. */
  datatype StdioBlock = TextBlock(text: string) | OtherBlock(className: string)

  datatype StdioCall = StdioReturned(content: seq<StdioBlock>) | StdioRaised(error: string)

  /** One element of the `content` array of a `/tools/call` JSON reply; `text` may be missing. */
  datatype HttpBlock = HttpBlock(text: Option<Value>)

  datatype HttpCallBody = HttpCallBody(content: Option<seq<HttpBlock>>)

  /** A `/tools/call` request answers with a 2xx JSON body, or raises (transport error, non-2xx). */
  datatype HttpCall = HttpReturned(body: HttpCallBody) | HttpRaised(error: string)

  /**
   * Everything outside the bridge that one `execute` call observes: the outcome of the i-th
   * connect attempt, the outcome of calling a tool with given arguments, the awaited step
   * during which the deadline expires (if it does), and whether an event loop is already
   * running in the calling thread.
   */
  datatype Remote = Remote(
    stdioConnect: nat -> StdioConnect,
    httpConnect: nat -> HttpConnect,
    stdioCall: (string, Args) -> StdioCall,
    httpCall: (string, Args) -> HttpCall,
    deadline: Option<nat>,
    loopRunning: bool)

  /** The `result` of a successful call: a text value, or `{}` when there is none. */
  datatype Payload = TextResult(value: Value) | EmptyObject

  /** `get_server_info()`. */
  datatype ServerInfo = ServerInfo(
    kind: string, connected: bool, toolCount: nat,
    command: Option<string>, url: Option<string>, timeout: int)

  /** The dictionary `execute` returns: `success` tells the two shapes apart. */
  datatype Response =
    | Succeeded(result: Payload, toolName: string, serverInfo: ServerInfo)
    | Failed(error: string, toolName: string, serverInfo: ServerInfo)

  function Info(cfg: Config, st: State): ServerInfo
  {
    ServerInfo(
      cfg.kind, st.healthy, |st.catalog.info|,
      if cfg.kind == "stdio" then cfg.command else None,
      if cfg.kind == "http" then cfg.url else None,
      cfg.timeout)
  }

  // ---------------------------------------------------------------------------
  // Connecting

  /** The catalog a stdio connect attempt yields, `None` when it fails. */
  function StdioAttempt(o: StdioConnect): Option<Catalog>
  {
    match o
    case StdioUp(tools) => Some(StdioCatalog(tools))
    case StdioDown(_) => None
  }

  /** The catalog an HTTP connect attempt yields, `None` when it fails. */
  function HttpAttempt(o: HttpConnect): Option<Catalog>
  {
    match o
    case HttpUp(body) => HttpCatalog(body)
    case HttpDown(_) => None
  }

  /** Connect attempt `i` of a bridge of the given kind. */
  function Attempt(kind: string, remote: Remote, i: nat): Option<Catalog>
  {
    if kind == "stdio" then StdioAttempt(remote.stdioConnect(i)) else HttpAttempt(remote.httpConnect(i))
  }

  /** The state after a connect attempt: a success installs its catalog, a failure only clears health. */
  function AfterConnect(st: State, outcome: Option<Catalog>): State
  {
    if outcome.Some? then State(true, outcome.value) else st.(healthy := false)
  }

  datatype EnsureStatus = Ready | Exhausted | Interrupted

  /**
   * The outcome of `_ensure_connection`: its status, the state it leaves, the connect attempts
   * it completed, and the awaited steps it completed before returning.
   */
  datatype Ensured = Ensured(status: EnsureStatus, state: State, attempts: nat, waits: nat)

  function AttemptsLeft(cfg: Config, i: nat): nat
  {
    if cfg.reconnectAttempts > i then cfg.reconnectAttempts - i else 0
  }

  /** The reconnection loop from attempt `i` on. */
  function Reconnect(cfg: Config, st: State, remote: Remote, i: nat): Ensured
    decreases AttemptsLeft(cfg, i)
  {
    if i >= cfg.reconnectAttempts then Ensured(Exhausted, st, i, 2 * i)
    else if remote.deadline == Some(2 * i) then Ensured(Interrupted, st, i, 2 * i)
    else
      var outcome := Attempt(cfg.kind, remote, i);
      var next := AfterConnect(st, outcome);
      if outcome.Some? then Ensured(Ready, next, i + 1, 2 * i + 1)
      else if remote.deadline == Some(2 * i + 1) then Ensured(Interrupted, next, i + 1, 2 * i + 1)
      else Reconnect(cfg, next, remote, i + 1)
  }

  /** `_ensure_connection`: nothing to do when healthy, otherwise the reconnection loop. */
  function EnsureConnection(cfg: Config, st: State, remote: Remote): Ensured
  {
    if st.healthy then Ensured(Ready, st, 0, 0) else Reconnect(cfg, st, remote, 0)
  }

  // ---------------------------------------------------------------------------
  // Calling a tool

  const ConnectFailedMessage := "Failed to connect to MCP server after multiple attempts"
  const IndexErrorMessage := "list index out of range"
  const NestedLoopMessage := "asyncio.run() cannot be called from a running event loop"

  function UnknownToolMessage(name: string, names: seq<string>): string
  {
    "Tool '" + name + "' not found on server. Available: " + Text.ListRepr(names)
  }

  function TimeoutMessage(limit: int): string
  {
    "Tool execution timed out after " + Text.IntToDecimal(limit) + " seconds"
  }

  function MissingTextMessage(className: string): string
  {
    "'" + className + "' object has no attribute 'text'"
  }

  /** `result.content[0].text if result.content else {}`; a non-text first block raises. */
  function ExtractStdio(content: seq<StdioBlock>): Result<Payload, string>
  {
    if content == [] then Success(EmptyObject)
    else match content[0]
      case TextBlock(t) => Success(TextResult(Str(t)))
      case OtherBlock(c) => Failure(MissingTextMessage(c))
  }

  /** `result_data.get("content", [{}])[0].get("text", {})`; an empty `content` list raises. */
  function ExtractHttp(body: HttpCallBody): Result<Payload, string>
  {
    match body.content
    case None => Success(EmptyObject)
    case Some(blocks) =>
      if blocks == [] then Failure(IndexErrorMessage)
      else if blocks[0].text.Some? then Success(TextResult(blocks[0].text.value))
      else Success(EmptyObject)
  }

  /** `_execute_stdio` / `_execute_http`: the extracted result, or the text of the exception raised. */
  function CallTool(kind: string, name: string, args: Args, remote: Remote): Result<Payload, string>
  {
    if kind == "stdio" then
      match remote.stdioCall(name, args)
      case StdioRaised(e) => Failure(e)
      case StdioReturned(content) => ExtractStdio(content)
    else
      match remote.httpCall(name, args)
      case HttpRaised(e) => Failure(e)
      case HttpReturned(body) => ExtractHttp(body)
  }

  /**
   * `_execute_async` run under the deadline: `None` when the deadline cancels it, with the
   * state it had reached by then.
   */
  function ExecuteAsync(cfg: Config, st: State, name: string, args: Args, remote: Remote): (Option<Response>, State)
  {
    var e := EnsureConnection(cfg, st, remote);
    match e.status
    case Interrupted => (None, e.state)
    case Exhausted => (Some(Failed(ConnectFailedMessage, name, Info(cfg, e.state))), e.state)
    case Ready =>
      if name !in e.state.catalog.info then
        (Some(Failed(UnknownToolMessage(name, e.state.catalog.names), name, Info(cfg, e.state))), e.state)
      else if remote.deadline == Some(e.waits) then (None, e.state)
      else
        match CallTool(cfg.kind, name, args, remote)
        case Success(payload) => (Some(Succeeded(payload, name, Info(cfg, e.state))), e.state)
        case Failure(msg) =>
          var down := e.state.(healthy := false);
          (Some(Failed("Tool execution error: " + msg, name, Info(cfg, down))), down)
  }

  /** `timeout or self.timeout`: an absent or zero override falls back to the default. */
  function EffectiveTimeout(timeout: Option<int>, default: int): int
  {
    if timeout.Some? && timeout.value != 0 then timeout.value else default
  }

  function ArgumentsOrEmpty(arguments: Option<Args>): Args
  {
    if arguments.Some? then arguments.value else map[]
  }

  /**
   * `execute(tool_name, arguments, timeout)`: the returned dictionary and the state it leaves.
   * `wait_for` with a timeout of zero or less cancels `_execute_async` before it starts.
   */
  function Execute(cfg: Config, st: State, name: string, arguments: Option<Args>, timeout: Option<int>, remote: Remote): (Response, State)
  {
    var args := ArgumentsOrEmpty(arguments);
    var limit := EffectiveTimeout(timeout, cfg.timeout);
    if remote.loopRunning then
      (Failed("Execution failed: " + NestedLoopMessage, name, Info(cfg, st)), st)
    else if limit <= 0 then
      (Failed(TimeoutMessage(limit), name, Info(cfg, st)), st)
    else
      var (r, after) := ExecuteAsync(cfg, st, name, args, remote);
      match r
      case Some(response) => (response, after)
      case None => (Failed(TimeoutMessage(limit), name, Info(cfg, after)), after)
  }

  /** `close`: the connection is no longer healthy; the catalog is kept. */
  function Closed(st: State): State
  {
    st.(healthy := false)
  }
}
