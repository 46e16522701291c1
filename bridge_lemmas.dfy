/**
 * What the MCP bridge promises, proved about the functions of module BridgeSpec: how the
 * reconnection loop ends, which state each `execute` outcome leaves, that an unknown tool
 * never reaches the server, and that the catalog lists the server's tools as reported.
 */
module BridgeLemmas {
  import opened Wrappers
  import opened Values
  import opened BridgeSpec
  import Text

  function Max(a: int, b: int): int
  {
    if a >= b then a else b
  }

  // ---------------------------------------------------------------------------
  // The catalog

  /** The number of tools in a well-formed catalog is the number of names it lists. */
  lemma CatalogSize(c: Catalog)
    requires WellFormed(c)
    ensures |c.info| == |c.names|
  {
    assert c.info.Keys == set n | n in c.names;
    DistinctCount(c.names);
  }

  lemma {:induction false} DistinctCount(xs: seq<string>)
    requires Distinct(xs)
    ensures |set n | n in xs| == |xs|
  {
    if xs != [] {
      var rest := xs[1..];
      assert Distinct(rest) by {
        forall i, j | 0 <= i < j < |rest| ensures rest[i] != rest[j] {
          assert rest[i] == xs[i + 1] && rest[j] == xs[j + 1];
        }
      }
      DistinctCount(rest);
      assert (set n | n in xs) == (set n | n in rest) + {xs[0]};
      assert xs[0] !in rest by {
        forall k | 0 <= k < |rest| ensures rest[k] != xs[0] {
          assert rest[k] == xs[k + 1];
        }
      }
    }
  }

  /** Entries with distinct names become a dict whose keys keep the entries' order. */
  lemma {:induction false} FromDistinctEntries(entries: seq<(string, ToolInfo)>)
    requires Distinct(EntryNames(entries))
    ensures FromEntries(entries).names == EntryNames(entries)
  {
    if entries != [] {
      var prefix := entries[..|entries| - 1];
      var last := entries[|entries| - 1];
      var all := EntryNames(entries);
      assert EntryNames(prefix) == all[..|entries| - 1];
      assert Distinct(EntryNames(prefix)) by {
        forall i, j | 0 <= i < j < |prefix| ensures EntryNames(prefix)[i] != EntryNames(prefix)[j] {
          assert EntryNames(prefix)[i] == all[i] && EntryNames(prefix)[j] == all[j];
        }
      }
      FromDistinctEntries(prefix);
      var before := FromEntries(prefix);
      assert last.0 !in before.info by {
        forall k | 0 <= k < |before.names| ensures before.names[k] != last.0 {
          assert before.names[k] == all[k] && all[|entries| - 1] == last.0;
        }
      }
    }
  }

  /** With distinct names, each name maps to the metadata of its own entry. */
  lemma {:induction false} LastInfoDistinct(entries: seq<(string, ToolInfo)>, k: nat)
    requires Distinct(EntryNames(entries)) && k < |entries|
    ensures LastInfo(entries, entries[k].0) == Some(entries[k].1)
  {
    var n := |entries| - 1;
    if k < n {
      var prefix := entries[..n];
      var all := EntryNames(entries);
      assert entries[n].0 != entries[k].0 by {
        assert all[k] == entries[k].0 && all[n] == entries[n].0;
      }
      assert Distinct(EntryNames(prefix)) by {
        forall i, j | 0 <= i < j < |prefix| ensures EntryNames(prefix)[i] != EntryNames(prefix)[j] {
          assert EntryNames(prefix)[i] == all[i] && EntryNames(prefix)[j] == all[j];
        }
      }
      LastInfoDistinct(prefix, k);
    }
  }

  /**
   * `get_available_tools` after a stdio connect returns exactly the tools the server listed,
   * in its order, when their names are distinct.
   */
  lemma ListingRoundTrip(tools: seq<Tool>)
    requires Distinct(ToolNames(tools))
    ensures Listing(StdioCatalog(tools)) == tools
  {
    var entries := StdioEntries(tools);
    assert EntryNames(entries) == ToolNames(tools);
    FromDistinctEntries(entries);
    var c := StdioCatalog(tools);
    var listed := Listing(c);
    forall i | 0 <= i < |tools| ensures listed[i] == tools[i] {
      LastInfoDistinct(entries, i);
    }
  }

  /** `get_server_info` reports the health flag and the catalog size, and only the active transport's address. */
  lemma InfoReports(cfg: Config, support: Support, st: State)
    requires ValidateConfig(cfg, support).None?
    requires WellFormed(st.catalog)
    ensures Info(cfg, st).connected == st.healthy
    ensures Info(cfg, st).toolCount == |st.catalog.names|
    ensures cfg.kind == "stdio" ==> Info(cfg, st).command == cfg.command && Info(cfg, st).url.None?
    ensures cfg.kind == "http" ==> Info(cfg, st).url == cfg.url && Info(cfg, st).command.None?
    ensures Info(cfg, st).command.Some? || Info(cfg, st).url.Some?
  {
    CatalogSize(st.catalog);
  }

  // ---------------------------------------------------------------------------
  // Configuration

  /** Construction succeeds exactly for a supported transport whose address is given; the type is case-insensitive. */
  lemma ConfigureAccepts(raw: RawConfig, support: Support)
    ensures Configure(raw, support).Success? <==>
      || (Text.Lower(raw.serverType) == "stdio" && support.stdioAvailable && !Falsy(raw.command))
      || (Text.Lower(raw.serverType) == "http" && support.httpAvailable && !Falsy(raw.url))
    ensures Configure(raw, support).Success? ==>
      Configure(raw, support).value == Normalize(raw) && Normalize(raw).kind == Text.Lower(raw.serverType)
  {
  }

  /**
   * Each entry of a `/tools/list` reply whose entries all have names becomes one catalog entry
   * in the same position: its name, its description or `""`, its input schema or `{}`.
   */
  lemma {:induction false} HttpEntriesContent(es: seq<HttpToolEntry>)
    requires forall i :: 0 <= i < |es| ==> es[i].name.Some?
    ensures HttpEntries(es).Some?
    ensures forall i :: 0 <= i < |es| ==>
      && HttpEntries(es).value[i].0 == es[i].name.value
      && HttpEntries(es).value[i].1.description == Some(if es[i].description.Some? then es[i].description.value else "")
      && HttpEntries(es).value[i].1.inputSchema == (if es[i].inputSchema.Some? then es[i].inputSchema.value else EmptySchema)
  {
    if es != [] {
      HttpEntriesContent(es[1..]);
      var rest := HttpEntries(es[1..]).value;
      forall i | 1 <= i < |es| ensures HttpEntries(es).value[i] == rest[i - 1] {
      }
    }
  }

  /** `MCP_SERVER_TYPE=HTTP` is accepted as `http`. */
  lemma UpperCaseTypeAccepted()
    ensures Configure(RawConfig("HTTP", None, [], Some("http://localhost:8000"), 30, 3), Support(false, true)).Success?
  {
    assert Text.Lower("HTTP") == "http";
  }

  // ---------------------------------------------------------------------------
  // Reconnection

  /**
   * The reconnection loop from attempt `i` of a bridge that is not healthy: it makes at most
   * `reconnect_attempts` attempts, stops at the first success, which installs that attempt's
   * catalog, and leaves the state as it was otherwise. Without a deadline it is never interrupted.
   */
  lemma ReconnectSpec(cfg: Config, st: State, remote: Remote, i: nat)
    requires !st.healthy
    ensures var r := Reconnect(cfg, st, remote, i);
      && i <= r.attempts <= Max(cfg.reconnectAttempts, i)
      && (r.status == Exhausted ==> r.attempts == Max(cfg.reconnectAttempts, i) && r.waits == 2 * r.attempts)
      && (r.status == Interrupted ==> remote.deadline == Some(r.waits))
      && (r.status != Ready ==> r.state == st)
      && (r.status == Ready ==>
            && i < r.attempts && r.waits == 2 * r.attempts - 1 && r.state.healthy
            && Attempt(cfg.kind, remote, r.attempts - 1) == Some(r.state.catalog))
      && (forall j :: i <= j < r.attempts && (r.status != Ready || j < r.attempts - 1) ==>
            Attempt(cfg.kind, remote, j).None?)
      && (remote.deadline.None? ==> r.status != Interrupted)
  {
    ReconnectCounts(cfg, st, remote, i);
    ReconnectOutcome(cfg, st, remote, i);
  }

  /** How many attempts and awaited steps the loop completes, and when it is interrupted. */
  lemma {:induction false} ReconnectCounts(cfg: Config, st: State, remote: Remote, i: nat)
    requires !st.healthy
    decreases AttemptsLeft(cfg, i)
    ensures var r := Reconnect(cfg, st, remote, i);
      && i <= r.attempts <= Max(cfg.reconnectAttempts, i)
      && (r.status == Exhausted ==> r.attempts == Max(cfg.reconnectAttempts, i) && r.waits == 2 * r.attempts)
      && (r.status == Interrupted ==> remote.deadline == Some(r.waits))
      && (r.status == Ready ==> i < r.attempts && r.waits == 2 * r.attempts - 1)
      && (remote.deadline.None? ==> r.status != Interrupted)
  {
    if i < cfg.reconnectAttempts && remote.deadline != Some(2 * i) {
      var outcome := Attempt(cfg.kind, remote, i);
      if outcome.None? && remote.deadline != Some(2 * i + 1) {
        assert AfterConnect(st, outcome) == st;
        ReconnectCounts(cfg, st, remote, i + 1);
      }
    }
  }

  /** The state the loop leaves: the old one unless an attempt succeeds, and every earlier attempt failed. */
  lemma {:induction false} ReconnectOutcome(cfg: Config, st: State, remote: Remote, i: nat)
    requires !st.healthy
    decreases AttemptsLeft(cfg, i)
    ensures var r := Reconnect(cfg, st, remote, i);
      && (r.status != Ready ==> r.state == st)
      && (r.status == Ready ==>
            && i < r.attempts && r.state.healthy
            && Attempt(cfg.kind, remote, r.attempts - 1) == Some(r.state.catalog))
      && (forall j :: i <= j < r.attempts && (r.status != Ready || j < r.attempts - 1) ==>
            Attempt(cfg.kind, remote, j).None?)
  {
    var r := Reconnect(cfg, st, remote, i);
    if i < cfg.reconnectAttempts && remote.deadline != Some(2 * i) {
      var outcome := Attempt(cfg.kind, remote, i);
      if outcome.Some? {
        assert r == Ensured(Ready, State(true, outcome.value), i + 1, 2 * i + 1);
      } else if remote.deadline == Some(2 * i + 1) {
        assert r == Ensured(Interrupted, st, i + 1, 2 * i + 1);
      } else {
        assert AfterConnect(st, outcome) == st;
        ReconnectOutcome(cfg, st, remote, i + 1);
        assert r == Reconnect(cfg, st, remote, i + 1);
        forall j | i <= j < r.attempts && (r.status != Ready || j < r.attempts - 1)
          ensures Attempt(cfg.kind, remote, j).None?
        {
          if j == i {
            assert Attempt(cfg.kind, remote, j) == outcome;
          }
        }
      }
    }
  }


  /** Without a deadline, connecting succeeds iff the bridge is healthy or one of the allowed attempts succeeds. */
  lemma ConnectsIffSomeAttemptSucceeds(cfg: Config, st: State, remote: Remote)
    requires remote.deadline.None?
    ensures EnsureConnection(cfg, st, remote).status == Ready <==>
      st.healthy || exists j :: 0 <= j < cfg.reconnectAttempts && Attempt(cfg.kind, remote, j).Some?
    ensures EnsureConnection(cfg, st, remote).status != Ready ==> EnsureConnection(cfg, st, remote).status == Exhausted
  {
    if !st.healthy {
      ReconnectSpec(cfg, st, remote, 0);
      var r := Reconnect(cfg, st, remote, 0);
      if r.status == Ready {
        assert Attempt(cfg.kind, remote, r.attempts - 1).Some?;
      }
    }
  }

  /** The reconnection loop reads only the connect outcomes and the deadline. */
  lemma {:induction false} ReconnectIgnoresCalls(cfg: Config, st: State, remote: Remote, other: Remote, i: nat)
    requires other.stdioConnect == remote.stdioConnect && other.httpConnect == remote.httpConnect
    requires other.deadline == remote.deadline
    decreases AttemptsLeft(cfg, i)
    ensures Reconnect(cfg, st, other, i) == Reconnect(cfg, st, remote, i)
  {
    if i < cfg.reconnectAttempts && remote.deadline != Some(2 * i) {
      assert Attempt(cfg.kind, other, i) == Attempt(cfg.kind, remote, i);
      ReconnectIgnoresCalls(cfg, AfterConnect(st, Attempt(cfg.kind, remote, i)), remote, other, i + 1);
    }
  }

  // ---------------------------------------------------------------------------
  // Executing a tool

  /**
   * A stdio result: no content is `{}`, a first text block is its text, and any other first
   * block raises for want of a `text` attribute; blocks after the first are never read.
   */
  lemma ExtractStdioSpec(content: seq<StdioBlock>)
    ensures var r := ExtractStdio(content);
      && (r == Success(EmptyObject) <==> content == [])
      && (r.Failure? <==> content != [] && content[0].OtherBlock?)
      && (r.Failure? ==> r.error == MissingTextMessage(content[0].className))
      && (r.Success? && r.value.TextResult? ==> content != [] && content[0].TextBlock? && r.value.value == Str(content[0].text))
  {
  }

  /**
   * An HTTP result: only an empty `content` list raises (an index error); a missing `content`
   * or a first block without `text` is `{}`; otherwise the result is the first block's `text`.
   */
  lemma ExtractHttpSpec(body: HttpCallBody)
    ensures var r := ExtractHttp(body);
      && (r.Failure? <==> body.content == Some([]))
      && (r.Failure? ==> r.error == IndexErrorMessage)
      && (r == Success(EmptyObject) <==>
            body.content.None? || (body.content.value != [] && body.content.value[0].text.None?))
      && (r.Success? && r.value.TextResult? ==>
            && body.content.Some? && body.content.value != [] && body.content.value[0].text.Some?
            && r.value.value == body.content.value[0].text.value)
  {
  }

  /** Connecting leaves a well-formed catalog: the old one or that of a connect attempt; a ready bridge is healthy. */
  lemma EnsureConnectionSpec(cfg: Config, st: State, remote: Remote)
    requires WellFormed(st.catalog)
    ensures var e := EnsureConnection(cfg, st, remote);
      && WellFormed(e.state.catalog)
      && (e.state.catalog == st.catalog
          || exists j :: 0 <= j < cfg.reconnectAttempts && Attempt(cfg.kind, remote, j) == Some(e.state.catalog))
      && (e.status == Ready ==> e.state.healthy)
      && (e.status != Ready ==> e.state == st)
  {
    if !st.healthy {
      ReconnectSpec(cfg, st, remote, 0);
      var e := Reconnect(cfg, st, remote, 0);
      if e.status == Ready {
        assert Attempt(cfg.kind, remote, e.attempts - 1) == Some(e.state.catalog);
      }
    }
  }

  /**
   * Every `execute` outcome names the tool it was asked for and reports the server information
   * of the state it leaves; that state's catalog is the old one or the catalog of a connect
   * attempt, so it stays well formed; a success leaves a healthy bridge that lists the tool.
   */
  lemma ExecuteSpec(cfg: Config, st: State, name: string, arguments: Option<Args>, timeout: Option<int>, remote: Remote)
    requires WellFormed(st.catalog)
    ensures var (r, after) := Execute(cfg, st, name, arguments, timeout, remote);
      && r.toolName == name
      && r.serverInfo == Info(cfg, after)
      && WellFormed(after.catalog)
      && (after.catalog == st.catalog
          || exists j :: 0 <= j < cfg.reconnectAttempts && Attempt(cfg.kind, remote, j) == Some(after.catalog))
      && (r.Succeeded? ==> after.healthy && name in after.catalog.info)
      && (remote.loopRunning ==> after == st)
  {
    EnsureConnectionSpec(cfg, st, remote);
    var e := EnsureConnection(cfg, st, remote);
    var args := ArgumentsOrEmpty(arguments);
    var (a, afterAsync) := ExecuteAsync(cfg, st, name, args, remote);
    assert afterAsync.catalog == e.state.catalog;
    assert a.Some? ==> a.value.toolName == name && a.value.serverInfo == Info(cfg, afterAsync);
    assert a.Some? && a.value.Succeeded? ==> afterAsync == e.state && e.status == Ready && name in e.state.catalog.info;
  }

  /** A name the catalog does not list is refused without calling the server, and the refusal lists every known name. */
  lemma UnknownToolReport(
    cfg: Config, st: State, name: string, arguments: Option<Args>, timeout: Option<int>, remote: Remote,
    other: Remote, k: nat)
    requires EffectiveTimeout(timeout, cfg.timeout) > 0
    requires !remote.loopRunning
    requires EnsureConnection(cfg, st, remote).status == Ready
    requires name !in EnsureConnection(cfg, st, remote).state.catalog.info
    requires other == remote.(stdioCall := other.stdioCall, httpCall := other.httpCall)
    requires k < |EnsureConnection(cfg, st, remote).state.catalog.names|
    ensures Execute(cfg, st, name, arguments, timeout, other) == Execute(cfg, st, name, arguments, timeout, remote)
    ensures Execute(cfg, st, name, arguments, timeout, remote).0.Failed?
    ensures Execute(cfg, st, name, arguments, timeout, remote).1 == EnsureConnection(cfg, st, remote).state
    ensures Text.IsInfix(
      Text.Repr(EnsureConnection(cfg, st, remote).state.catalog.names[k]),
      Execute(cfg, st, name, arguments, timeout, remote).0.error)
  {
    ReconnectIgnoresCalls(cfg, st, remote, other, 0);
    var names := EnsureConnection(cfg, st, remote).state.catalog.names;
    Text.ListReprContains(names, k);
    Text.InfixAfter(Text.Repr(names[k]), "Tool '" + name + "' not found on server. Available: ", Text.ListRepr(names));
  }

  /**
   * A deadline that expires during the tool call yields the timeout message and keeps the
   * connection healthy: the cancellation is not an error of the call.
   */
  lemma CancelledCallKeepsHealth(
    cfg: Config, st: State, name: string, arguments: Option<Args>, timeout: Option<int>, remote: Remote)
    requires EffectiveTimeout(timeout, cfg.timeout) > 0
    requires !remote.loopRunning
    requires EnsureConnection(cfg, st, remote).status == Ready
    requires name in EnsureConnection(cfg, st, remote).state.catalog.info
    requires remote.deadline == Some(EnsureConnection(cfg, st, remote).waits)
    ensures Execute(cfg, st, name, arguments, timeout, remote).0
      == Failed(TimeoutMessage(EffectiveTimeout(timeout, cfg.timeout)), name, Info(cfg, EnsureConnection(cfg, st, remote).state))
    ensures Execute(cfg, st, name, arguments, timeout, remote).1 == EnsureConnection(cfg, st, remote).state
    ensures Execute(cfg, st, name, arguments, timeout, remote).1.healthy
  {
    if !st.healthy {
      ReconnectSpec(cfg, st, remote, 0);
    }
  }

  /** A deadline that expires while reconnecting yields the timeout message and leaves the state as it was. */
  lemma CancelledConnectKeepsState(
    cfg: Config, st: State, name: string, arguments: Option<Args>, timeout: Option<int>, remote: Remote)
    requires !remote.loopRunning
    requires EnsureConnection(cfg, st, remote).status == Interrupted
    ensures Execute(cfg, st, name, arguments, timeout, remote)
      == (Failed(TimeoutMessage(EffectiveTimeout(timeout, cfg.timeout)), name, Info(cfg, st)), st)
  {
    ReconnectSpec(cfg, st, remote, 0);
  }

  /** When every allowed attempt fails, `execute` reports the connect failure and the state is unchanged. */
  lemma ExhaustedReportsFailure(
    cfg: Config, st: State, name: string, arguments: Option<Args>, timeout: Option<int>, remote: Remote)
    requires EffectiveTimeout(timeout, cfg.timeout) > 0
    requires !remote.loopRunning && !st.healthy && remote.deadline.None?
    requires forall j :: 0 <= j < cfg.reconnectAttempts ==> Attempt(cfg.kind, remote, j).None?
    ensures Execute(cfg, st, name, arguments, timeout, remote) == (Failed(ConnectFailedMessage, name, Info(cfg, st)), st)
  {
    ConnectsIffSomeAttemptSucceeds(cfg, st, remote);
    ReconnectSpec(cfg, st, remote, 0);
  }

  /**
   * An exception from the tool call is reported with its text and marks the connection
   * unhealthy, keeping the catalog, so the next call reconnects first.
   */
  lemma CallErrorMarksUnhealthy(
    cfg: Config, st: State, name: string, arguments: Option<Args>, timeout: Option<int>, remote: Remote,
    next: Remote)
    requires EffectiveTimeout(timeout, cfg.timeout) > 0
    requires !remote.loopRunning
    requires EnsureConnection(cfg, st, remote).status == Ready
    requires name in EnsureConnection(cfg, st, remote).state.catalog.info
    requires remote.deadline != Some(EnsureConnection(cfg, st, remote).waits)
    requires CallTool(cfg.kind, name, ArgumentsOrEmpty(arguments), remote).Failure?
    ensures var after := Execute(cfg, st, name, arguments, timeout, remote).1;
      && Execute(cfg, st, name, arguments, timeout, remote).0
         == Failed("Tool execution error: " + CallTool(cfg.kind, name, ArgumentsOrEmpty(arguments), remote).error, name, Info(cfg, after))
      && !after.healthy
      && after.catalog == EnsureConnection(cfg, st, remote).state.catalog
      && EnsureConnection(cfg, after, next) == Reconnect(cfg, after, next, 0)
  {
  }

  /**
   * A tool call that returns is reported as a success carrying the extracted result, with the
   * healthy state connecting reached.
   */
  lemma SuccessfulCallReturnsResult(
    cfg: Config, st: State, name: string, arguments: Option<Args>, timeout: Option<int>, remote: Remote)
    requires EffectiveTimeout(timeout, cfg.timeout) > 0
    requires !remote.loopRunning
    requires EnsureConnection(cfg, st, remote).status == Ready
    requires name in EnsureConnection(cfg, st, remote).state.catalog.info
    requires remote.deadline != Some(EnsureConnection(cfg, st, remote).waits)
    requires CallTool(cfg.kind, name, ArgumentsOrEmpty(arguments), remote).Success?
    ensures var e := EnsureConnection(cfg, st, remote);
      Execute(cfg, st, name, arguments, timeout, remote)
      == (Succeeded(CallTool(cfg.kind, name, ArgumentsOrEmpty(arguments), remote).value, name, Info(cfg, e.state)), e.state)
    ensures Execute(cfg, st, name, arguments, timeout, remote).1.healthy
  {
    if !st.healthy {
      ReconnectSpec(cfg, st, remote, 0);
    }
  }

  /**
   * An effective timeout of zero or less (a negative override, or a zero override or none with
   * a configured timeout of zero or less) expires before `_execute_async` starts: the timeout
   * message, with nothing connected or called, whatever the server would do.
   */
  lemma NonPositiveTimeoutTimesOut(
    cfg: Config, st: State, name: string, arguments: Option<Args>, timeout: Option<int>, remote: Remote,
    other: Remote)
    requires !remote.loopRunning && EffectiveTimeout(timeout, cfg.timeout) <= 0
    requires other.loopRunning == remote.loopRunning
    ensures Execute(cfg, st, name, arguments, timeout, remote)
      == (Failed(TimeoutMessage(EffectiveTimeout(timeout, cfg.timeout)), name, Info(cfg, st)), st)
    ensures Execute(cfg, st, name, arguments, timeout, other) == Execute(cfg, st, name, arguments, timeout, remote)
  {
  }

  /** Absent arguments are sent as `{}`. */
  lemma MissingArgumentsAreEmpty(cfg: Config, st: State, name: string, timeout: Option<int>, remote: Remote)
    ensures Execute(cfg, st, name, None, timeout, remote) == Execute(cfg, st, name, Some(map[]), timeout, remote)
  {
  }

  /** A zero timeout override, like an absent one or the configured value itself, means the configured timeout. */
  lemma ZeroTimeoutIsDefault(cfg: Config, st: State, name: string, arguments: Option<Args>, remote: Remote)
    ensures EffectiveTimeout(None, cfg.timeout) == EffectiveTimeout(Some(0), cfg.timeout) == cfg.timeout
    ensures Execute(cfg, st, name, arguments, Some(0), remote) == Execute(cfg, st, name, arguments, None, remote)
    ensures Execute(cfg, st, name, arguments, Some(cfg.timeout), remote) == Execute(cfg, st, name, arguments, None, remote)
  {
  }

  /** A healthy bridge calls the tool without connecting: the connect outcomes do not matter. */
  lemma HealthyMakesNoConnect(
    cfg: Config, st: State, name: string, arguments: Option<Args>, timeout: Option<int>, remote: Remote,
    other: Remote)
    requires st.healthy
    requires other == remote.(stdioConnect := other.stdioConnect, httpConnect := other.httpConnect)
    ensures Execute(cfg, st, name, arguments, timeout, other) == Execute(cfg, st, name, arguments, timeout, remote)
    ensures Execute(cfg, st, name, arguments, timeout, remote).1.catalog == st.catalog
  {
  }

  /** An HTTP reply whose `content` is an empty list raises, while a stdio reply with no content yields `{}`. */
  lemma EmptyContentAsymmetry()
    ensures ExtractHttp(HttpCallBody(Some([]))) == Failure(IndexErrorMessage)
    ensures ExtractHttp(HttpCallBody(None)) == Success(EmptyObject)
    ensures ExtractStdio([]) == Success(EmptyObject)
  {
  }

  /** A `close` that does not raise, done twice, is done once; the catalog survives and the next call reconnects. */
  lemma CloseIdempotent(cfg: Config, st: State, remote: Remote)
    ensures Closed(Closed(st)) == Closed(st)
    ensures Closed(st).catalog == st.catalog
    ensures EnsureConnection(cfg, Closed(st), remote) == Reconnect(cfg, Closed(st), remote, 0)
  {
  }
}
