/**
 * `MCP_Bridge_Tool` (agentflow/agentflow/tools/mcp_bridge/tool.py) as a class whose fields
 * the methods update in place: the health flag `_connection_healthy`, the tool catalog
 * `_available_tools`, and whether the HTTP client `_http_client` has been created. Each method is proved to agree with the function of module BridgeSpec
 * that describes the same step; the properties of those functions are in BridgeLemmas.
 */
module McpBridge {
  import opened Wrappers
  import opened Values
  import opened BridgeSpec
  import BridgeLemmas

  class Bridge {
    const config: Config
    var healthy: bool
    var catalog: Catalog
    /** `_http_client` is set: every HTTP connect attempt creates a client first, and nothing unsets it. */
    var httpClient: bool

    /** A validated kind, and a catalog that is a proper dict. */
    ghost predicate Valid()
      reads this
    {
      (config.kind == "stdio" || config.kind == "http") && WellFormed(catalog)
    }

    /** The abstract state the specification functions work on. */
    function State(): BridgeSpec.State
      reads this
    {
      BridgeSpec.State(healthy, catalog)
    }

    /** Stores a configuration that validation accepted; the bridge starts unhealthy with no tools. */
    constructor (config: Config, support: Support)
      requires ValidateConfig(config, support).None?
      ensures Valid()
      ensures this.config == config && State() == InitialState && !httpClient
    {
      this.config := config;
      healthy := false;
      catalog := EmptyCatalog;
      httpClient := false;
    }

    /** `MCP_Bridge_Tool()`: reads the configuration, then raises if validation rejects it. */
    static method Open(raw: RawConfig, support: Support) returns (r: Result<Bridge, ConfigError>)
      ensures r.Failure? ==> Configure(raw, support) == Failure(r.error)
      ensures r.Success? ==> Configure(raw, support) == Success(r.value.config)
      ensures r.Success? ==> fresh(r.value) && r.value.Valid() && r.value.State() == InitialState
      ensures r.Success? ==> !r.value.httpClient
    {
      var cfg := Normalize(raw);
      var err := ValidateConfig(cfg, support);
      if err.Some? {
        return Failure(err.value);
      }
      var bridge := new Bridge(cfg, support);
      return Success(bridge);
    }

    /** `_connect_stdio`: a listed catalog replaces the old one and sets healthy; a failure only clears health. */
    method ConnectStdio(outcome: StdioConnect) returns (ok: bool)
      requires Valid()
      modifies this
      ensures Valid()
      ensures ok == StdioAttempt(outcome).Some?
      ensures State() == AfterConnect(old(State()), StdioAttempt(outcome))
      ensures httpClient == old(httpClient)
    {
      match outcome
      case StdioUp(tools) =>
        catalog := StdioCatalog(tools);
        healthy := true;
        ok := true;
      case StdioDown(_) =>
        healthy := false;
        ok := false;
    }

    /**
     * `_connect_http`: creates the client, then as for stdio, where a reply whose catalog
     * cannot be built is a failure.
     */
    method ConnectHttp(outcome: HttpConnect) returns (ok: bool)
      requires Valid()
      modifies this
      ensures Valid()
      ensures ok == HttpAttempt(outcome).Some?
      ensures State() == AfterConnect(old(State()), HttpAttempt(outcome))
      ensures httpClient
    {
      httpClient := true;
      var listed := None;
      if outcome.HttpUp? {
        listed := HttpCatalog(outcome.body);
      }
      if listed.Some? {
        catalog := listed.value;
        healthy := true;
        ok := true;
      } else {
        healthy := false;
        ok := false;
      }
    }

    /**
     * `_ensure_connection`: returns at once when healthy; otherwise tries to connect up to
     * `reconnect_attempts` times, stopping at the first success, pausing after each failure.
     * Reports the completed attempts and awaited steps, or that the deadline interrupted it.
     * An HTTP bridge that tries at all has created its client, even when the deadline cuts the
     * first attempt short: the client is created before the attempt's first await.
     */
    method EnsureConnection(remote: Remote) returns (status: EnsureStatus, attempts: nat, waits: nat)
      requires Valid()
      modifies this
      ensures Valid()
      ensures Ensured(status, State(), attempts, waits) == BridgeSpec.EnsureConnection(config, old(State()), remote)
      ensures httpClient == (old(httpClient) || (config.kind == "http" && !old(healthy) && config.reconnectAttempts > 0))
    {
      if healthy {
        return Ready, 0, 0;
      }
      var attempt: nat := 0;
      while attempt < config.reconnectAttempts
        invariant Valid()
        invariant Reconnect(config, State(), remote, attempt) == Reconnect(config, old(State()), remote, 0)
        invariant httpClient == (old(httpClient) || (config.kind == "http" && attempt > 0))
        decreases config.reconnectAttempts - attempt
      {
        if config.kind == "http" {
          httpClient := true;
        }
        if remote.deadline == Some(2 * attempt) {
          return Interrupted, attempt, 2 * attempt;
        }
        var ok;
        if config.kind == "stdio" {
          ok := ConnectStdio(remote.stdioConnect(attempt));
        } else {
          ok := ConnectHttp(remote.httpConnect(attempt));
        }
        if ok {
          return Ready, attempt + 1, 2 * attempt + 1;
        }
        if remote.deadline == Some(2 * attempt + 1) {
          return Interrupted, attempt + 1, 2 * attempt + 1;
        }
        attempt := attempt + 1;
      }
      return Exhausted, attempt, 2 * attempt;
    }

    /**
     * `_execute_async` under the deadline: connect if needed, check the tool is listed, call it
     * and extract its result; an error from the call marks the connection unhealthy. `None`
     * when the deadline cancels it.
     */
    method ExecuteAsync(toolName: string, args: Args, remote: Remote) returns (r: Option<Response>)
      requires Valid()
      modifies this
      ensures Valid()
      ensures (r, State()) == BridgeSpec.ExecuteAsync(config, old(State()), toolName, args, remote)
      ensures httpClient == (old(httpClient) || (config.kind == "http" && !old(healthy) && config.reconnectAttempts > 0))
    {
      var status, attempts, waits := EnsureConnection(remote);
      if status == Interrupted {
        return None;
      }
      if status == Exhausted {
        return Some(Failed(ConnectFailedMessage, toolName, GetServerInfo()));
      }
      if toolName !in catalog.info {
        return Some(Failed(UnknownToolMessage(toolName, catalog.names), toolName, GetServerInfo()));
      }
      if remote.deadline == Some(waits) {
        return None;
      }
      var outcome: Result<Payload, string>;
      if config.kind == "stdio" {
        match remote.stdioCall(toolName, args)
        case StdioRaised(e) => outcome := Failure(e);
        case StdioReturned(content) => outcome := ExtractStdio(content);
      } else {
        match remote.httpCall(toolName, args)
        case HttpRaised(e) => outcome := Failure(e);
        case HttpReturned(body) => outcome := ExtractHttp(body);
      }
      match outcome
      case Success(payload) =>
        r := Some(Succeeded(payload, toolName, GetServerInfo()));
      case Failure(msg) =>
        healthy := false;
        r := Some(Failed("Tool execution error: " + msg, toolName, GetServerInfo()));
    }

    /**
     * `execute`: absent arguments become `{}`, the deadline is the override unless absent or
     * zero, a deadline of zero or less expires before anything runs, and a cancelled run is
     * reported as a timeout with the state it reached.
     */
    method Execute(toolName: string, arguments: Option<Args>, timeout: Option<int>, remote: Remote) returns (r: Response)
      requires Valid()
      modifies this
      ensures Valid()
      ensures (r, State()) == BridgeSpec.Execute(config, old(State()), toolName, arguments, timeout, remote)
      ensures httpClient == (old(httpClient) || (
        !remote.loopRunning && EffectiveTimeout(timeout, config.timeout) > 0
        && config.kind == "http" && !old(healthy) && config.reconnectAttempts > 0))
    {
      var args := if arguments.None? then map[] else arguments.value;
      var limit := if timeout.Some? && timeout.value != 0 then timeout.value else config.timeout;
      if remote.loopRunning {
        return Failed("Execution failed: " + NestedLoopMessage, toolName, GetServerInfo());
      }
      if limit <= 0 {
        return Failed(TimeoutMessage(limit), toolName, GetServerInfo());
      }
      var done := ExecuteAsync(toolName, args, remote);
      if done.Some? {
        r := done.value;
      } else {
        r := Failed(TimeoutMessage(limit), toolName, GetServerInfo());
      }
    }

    /** `get_available_tools`: the catalog as a list of descriptors, in catalog order. */
    function GetAvailableTools(): (tools: seq<Tool>)
      reads this
      requires Valid()
      ensures |tools| == |catalog.info|
      ensures ToolNames(tools) == catalog.names
      ensures forall i :: 0 <= i < |tools| ==>
        && tools[i].name in catalog.info
        && tools[i].description == catalog.info[tools[i].name].description
        && tools[i].inputSchema == catalog.info[tools[i].name].inputSchema
    {
      BridgeLemmas.CatalogSize(catalog);
      Listing(catalog)
    }

    /** `get_server_info`. */
    function GetServerInfo(): ServerInfo
      reads this
    {
      Info(config, State())
    }

    /**
     * `close`: closes the HTTP client, if one was created, with `asyncio.run`, then marks the
     * bridge unhealthy and keeps the catalog. Inside a running event loop that `asyncio.run`
     * raises before anything changes; otherwise closing is safe to repeat. The client is not
     * unset, so a later `close` closes it again.
     */
    method Close(loopRunning: bool) returns (error: Option<string>)
      requires Valid()
      modifies this
      ensures Valid()
      ensures error.Some? <==> httpClient && loopRunning
      ensures error.Some? ==> error.value == NestedLoopMessage && State() == old(State())
      ensures error.None? ==> State() == Closed(old(State()))
      ensures httpClient == old(httpClient)
    {
      if httpClient && loopRunning {
        return Some(NestedLoopMessage);
      }
      healthy := false;
      return None;
    }
  }
}
