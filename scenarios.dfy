/**
 * The bridge driven against the example server over stdio: the server's `list_tools` reply
 * is what a successful connect returns, and its `call_tool` reply, one text block, is what a
 * call returns.
 */
module Scenarios {
  import opened Wrappers
  import opened Values
  import opened BridgeSpec
  import ExampleServer
  import BridgeLemmas
  import Text

  /**
   * A reply of the example server as the stdio client receives it: a text reply is one text
   * block, and so is a quotient, `Result: ` and the float `a / b` as `quotient` renders it; an
   * exception raised by the handler is raised by the call.
   */
  function AsStdioCall(reply: ExampleServer.Reply, quotient: (int, int) -> string): StdioCall
  {
    match reply
    case Said(t) => StdioReturned([TextBlock(t)])
    case SaidQuotient(a, b) => StdioReturned([TextBlock("Result: " + quotient(a, b))])
    case Raised(e) => StdioRaised(e)
  }

  /**
   * The example server behind the stdio transport; `connects` says which connect attempts
   * reach it, and `quotient` renders the float of a division.
   */
  function ExampleRemote(
    host: ExampleServer.Host, connects: nat -> StdioConnect, quotient: (int, int) -> string): Remote
  {
    Remote(
      connects,
      _ => HttpDown("no HTTP server"),
      (name, args) => AsStdioCall(ExampleServer.CallTool(name, args, host), quotient),
      (name, args) => HttpRaised("no HTTP server"),
      None,
      false)
  }

  /** A connect attempt that reaches the example server. */
  const ServerUp := StdioUp(ExampleServer.ListTools())

  /** The catalog the bridge builds from the example server's listing. */
  const Served := StdioCatalog(ExampleServer.ListTools())

  const ServedNames: seq<string> := ["echo", "calculate", "get_system_info", "text_transform"]

  /** The bridge lists the server's four tools, in the server's order. */
  lemma ServedCatalog()
    ensures Served.names == ServedNames
    ensures forall n :: n in Served.info <==> n in ServedNames
  {
    var tools := ExampleServer.ListTools();
    ExampleServer.CatalogShape();
    var entries := StdioEntries(tools);
    assert EntryNames(entries) == ToolNames(tools);
    BridgeLemmas.FromDistinctEntries(entries);
  }

  /** From the initial state, a first connect attempt that reaches the server makes the bridge ready. */
  lemma FirstAttemptReady(cfg: Config, remote: Remote)
    requires cfg.kind == "stdio" && cfg.reconnectAttempts >= 1
    requires remote.deadline.None? && remote.stdioConnect(0) == ServerUp
    ensures EnsureConnection(cfg, InitialState, remote) == Ensured(Ready, State(true, Served), 1, 1)
  {
  }

  /** From the initial state, a failed first attempt and a second that reaches the server make it ready. */
  lemma SecondAttemptReady(cfg: Config, remote: Remote, reason: string)
    requires cfg.kind == "stdio" && cfg.reconnectAttempts >= 2
    requires remote.deadline.None?
    requires remote.stdioConnect(0) == StdioDown(reason) && remote.stdioConnect(1) == ServerUp
    ensures EnsureConnection(cfg, InitialState, remote) == Ensured(Ready, State(true, Served), 2, 3)
  {
    assert Reconnect(cfg, InitialState, remote, 0) == Reconnect(cfg, InitialState, remote, 1);
  }

  /** Once connected to the example server, `echo` returns the server's text as the result. */
  lemma EchoWhenReady(
    cfg: Config, host: ExampleServer.Host, message: string, connects: nat -> StdioConnect, quotient: (int, int) -> string)
    requires cfg.kind == "stdio" && cfg.timeout > 0
    requires EnsureConnection(cfg, InitialState, ExampleRemote(host, connects, quotient)).status == Ready
    requires EnsureConnection(cfg, InitialState, ExampleRemote(host, connects, quotient)).state == State(true, Served)
    ensures var up := State(true, Served);
      Execute(cfg, InitialState, "echo", Some(map["message" := Str(message)]), None, ExampleRemote(host, connects, quotient))
      == (Succeeded(TextResult(Str("Echo: " + message)), "echo", Info(cfg, up)), up)
  {
    ServedCatalog();
    EchoCall(host, message, connects, quotient);
  }

  /** The server's `echo` reply, through the stdio client, is the text `Echo: <message>`. */
  lemma EchoCall(
    host: ExampleServer.Host, message: string, connects: nat -> StdioConnect, quotient: (int, int) -> string)
    ensures CallTool("stdio", "echo", map["message" := Str(message)], ExampleRemote(host, connects, quotient))
      == Success(TextResult(Str("Echo: " + message)))
  {
    var args := map["message" := Str(message)];
    assert ExampleServer.CallTool("echo", args, host) == ExampleServer.Said("Echo: " + message);
  }

  /** A division by a non-zero integer reaches the caller as the server's `Result: <quotient>` text. */
  lemma QuotientCall(
    host: ExampleServer.Host, a: int, b: int, connects: nat -> StdioConnect, quotient: (int, int) -> string)
    requires b != 0
    ensures var args := map["operation" := Str("divide"), "a" := Int(a), "b" := Int(b)];
      CallTool("stdio", "calculate", args, ExampleRemote(host, connects, quotient))
      == Success(TextResult(Str("Result: " + quotient(a, b))))
  {
    var args := map["operation" := Str("divide"), "a" := Int(a), "b" := Int(b)];
    assert ExampleServer.Calculate(args) == ExampleServer.SaidQuotient(a, b);
  }

  /** A connection made on the first attempt, then `echo`, returns the server's text. */
  lemma EchoThroughBridge(
    cfg: Config, host: ExampleServer.Host, message: string, connects: nat -> StdioConnect, quotient: (int, int) -> string)
    requires cfg.kind == "stdio" && cfg.reconnectAttempts >= 1 && cfg.timeout > 0
    requires connects(0) == ServerUp
    ensures var up := State(true, Served);
      Execute(cfg, InitialState, "echo", Some(map["message" := Str(message)]), None, ExampleRemote(host, connects, quotient))
      == (Succeeded(TextResult(Str("Echo: " + message)), "echo", Info(cfg, up)), up)
  {
    FirstAttemptReady(cfg, ExampleRemote(host, connects, quotient));
    EchoWhenReady(cfg, host, message, connects, quotient);
  }

  /**
   * A first attempt that fails and a second that reaches the server: the call succeeds on the
   * second attempt, and the state is the connected one.
   */
  lemma SecondAttemptConnects(
    cfg: Config, host: ExampleServer.Host, message: string, connects: nat -> StdioConnect, quotient: (int, int) -> string, reason: string)
    requires cfg.kind == "stdio" && cfg.reconnectAttempts >= 2 && cfg.timeout > 0
    requires connects(0) == StdioDown(reason) && connects(1) == ServerUp
    ensures var up := State(true, Served);
      Execute(cfg, InitialState, "echo", Some(map["message" := Str(message)]), None, ExampleRemote(host, connects, quotient))
      == (Succeeded(TextResult(Str("Echo: " + message)), "echo", Info(cfg, up)), up)
  {
    SecondAttemptReady(cfg, ExampleRemote(host, connects, quotient), reason);
    EchoWhenReady(cfg, host, message, connects, quotient);
  }

  /**
   * A name the server does not list is refused by the bridge itself, whatever the server
   * would answer, and the refusal names `'echo'` among the available tools.
   */
  lemma UnknownToolThroughBridge(
    cfg: Config, host: ExampleServer.Host, name: string, connects: nat -> StdioConnect, quotient: (int, int) -> string, other: Remote)
    requires cfg.kind == "stdio" && cfg.reconnectAttempts >= 1 && cfg.timeout > 0
    requires connects(0) == ServerUp
    requires name !in ServedNames
    requires other == ExampleRemote(host, connects, quotient).(stdioCall := other.stdioCall, httpCall := other.httpCall)
    ensures var (r, after) := Execute(cfg, InitialState, name, None, None, ExampleRemote(host, connects, quotient));
      && Execute(cfg, InitialState, name, None, None, other) == (r, after)
      && r.Failed? && after == State(true, Served)
      && Text.IsInfix("'echo'", r.error)
  {
    var remote := ExampleRemote(host, connects, quotient);
    ServedCatalog();
    FirstAttemptReady(cfg, remote);
    BridgeLemmas.UnknownToolReport(cfg, InitialState, name, None, None, remote, other, 0);
    EchoRepr();
    assert Served.names[0] == "echo";
  }

  /** The repr of `echo`, as the refusal lists it. */
  lemma EchoRepr()
    ensures Text.Repr("echo") == "'echo'"
  {
    Text.ReprOfPlain("echo");
  }
}
