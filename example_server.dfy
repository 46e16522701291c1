/**
 * The example MCP server (scripts/example_mcp_server.py): a fixed catalog of four tools and
 * an `if/elif` dispatcher that computes one text reply per call. Arguments are Python values
 * decoded from JSON, so the arithmetic follows Python's operators on `int`, `bool` and `str`.
 */
module ExampleServer {
  import opened Wrappers
  import opened Values
  import Text

  // ---------------------------------------------------------------------------
  // The catalog (`list_tools`)

  const EchoTool := Tool("echo", Some("Echo back the provided message"),
    Schema([Property("message", "string", "Message to echo back", [])], ["message"]))

  const CalculateTool := Tool("calculate", Some("Perform basic arithmetic calculations"),
    Schema([
      Property("operation", "string", "Arithmetic operation to perform", ["add", "subtract", "multiply", "divide"]),
      Property("a", "number", "First number", []),
      Property("b", "number", "Second number", [])],
      ["operation", "a", "b"]))

  const SystemInfoTool := Tool("get_system_info", Some("Get information about the system"),
    Schema([
      Property("info_type", "string", "Type of system information to retrieve", ["platform", "python_version", "cwd"])],
      ["info_type"]))

  const TransformTool := Tool("text_transform", Some("Transform text in various ways"),
    Schema([
      Property("text", "string", "Text to transform", []),
      Property("transformation", "string", "Type of transformation to apply", ["uppercase", "lowercase", "reverse", "length"])],
      ["text", "transformation"]))

  /** `list_tools`: the four tools, in this order. */
  function ListTools(): seq<Tool>
  {
    [EchoTool, CalculateTool, SystemInfoTool, TransformTool]
  }

  /** Every property a schema requires is one it declares. */
  predicate RequiredDeclared(schema: Schema)
  {
    forall r :: r in schema.required ==> exists p :: p in schema.properties && p.name == r
  }

  // ---------------------------------------------------------------------------
  // Replies (`call_tool`)

  /** What the host reports: `platform.platform()`, `platform.python_version()`, `os.getcwd()`. */
  datatype Host = Host(platform: string, pythonVersion: string, cwd: string)

  /**
   * The outcome of one call: the text of its single `TextContent`; or, for a division with a
   * non-zero divisor, the text `Result: ` followed by Python's rendering of the float `a / b`;
   * or the class of the exception the handler raised.
   */
  datatype Reply = Said(text: string) | SaidQuotient(a: int, b: int) | Raised(exception: string)

  /** `s * n` for a string and an integer: `n` copies, none when `n <= 0`. */
  function Repeat(s: string, n: int): (r: string)
    decreases if n > 0 then n else 0
    ensures |r| == (if n > 0 then n * |s| else 0)
    ensures forall i :: 0 <= i < |r| ==> r[i] in s
  {
    if n <= 0 then "" else s + Repeat(s, n - 1)
  }

  /** The repetition starts with `s` and has period `|s|`: each character repeats the one `|s|` places earlier. */
  lemma {:induction false} RepeatPeriodic(s: string, n: int)
    ensures n > 0 ==> |s| <= |Repeat(s, n)| && Repeat(s, n)[..|s|] == s
    ensures forall i :: |s| <= i < |Repeat(s, n)| ==> Repeat(s, n)[i] == Repeat(s, n)[i - |s|]
    decreases if n > 0 then n else 0
  {
    if n > 0 {
      RepeatPeriodic(s, n - 1);
      var r, t := Repeat(s, n), Repeat(s, n - 1);
      assert r == s + t;
      forall i | |s| <= i < |r| ensures r[i] == r[i - |s|] {
        assert r[i] == t[i - |s|];
        if i - |s| >= |s| {
          assert r[i - |s|] == t[i - 2 * |s|];
        }
      }
    }
  }

  /** `a + b`: numbers add (a `bool` counts as 0 or 1), strings concatenate, anything else is a `TypeError`. */
  function Plus(a: Value, b: Value): (r: Result<Value, string>)
    ensures r.Success? <==> (IsNumber(a) && IsNumber(b)) || (a.Str? && b.Str?)
    ensures IsNumber(a) && IsNumber(b) ==> r == Success(Int(AsInt(a) + AsInt(b)))
    ensures a.Str? && b.Str? ==> r == Success(Str(a.s + b.s))
  {
    if IsNumber(a) && IsNumber(b) then Success(Int(AsInt(a) + AsInt(b)))
    else if a.Str? && b.Str? then Success(Str(a.s + b.s))
    else Failure("TypeError")
  }

  /** `a - b`: numbers only. */
  function Minus(a: Value, b: Value): (r: Result<Value, string>)
    ensures r.Success? <==> IsNumber(a) && IsNumber(b)
    ensures r.Success? ==> r.value == Int(AsInt(a) - AsInt(b))
  {
    if IsNumber(a) && IsNumber(b) then Success(Int(AsInt(a) - AsInt(b))) else Failure("TypeError")
  }

  /** `a * b`: numbers multiply, a string times a number repeats it, anything else is a `TypeError`. */
  function Times(a: Value, b: Value): (r: Result<Value, string>)
    ensures r.Success? <==> (IsNumber(a) && IsNumber(b)) || (a.Str? && IsNumber(b)) || (IsNumber(a) && b.Str?)
    ensures IsNumber(a) && IsNumber(b) ==> r == Success(Int(AsInt(a) * AsInt(b)))
    ensures a.Str? && IsNumber(b) ==> r == Success(Str(Repeat(a.s, AsInt(b))))
    ensures IsNumber(a) && b.Str? ==> r == Success(Str(Repeat(b.s, AsInt(a))))
    ensures a.Str? && IsNumber(b) ==> r.value.Str? && |r.value.s| == (if AsInt(b) > 0 then AsInt(b) * |a.s| else 0)
  {
    if IsNumber(a) && IsNumber(b) then Success(Int(AsInt(a) * AsInt(b)))
    else if a.Str? && IsNumber(b) then Success(Str(Repeat(a.s, AsInt(b))))
    else if IsNumber(a) && b.Str? then Success(Str(Repeat(b.s, AsInt(a))))
    else Failure("TypeError")
  }

  /** Python's `b == 0`: true for `0` and `False` only. */
  predicate IsZero(v: Value)
  {
    IsNumber(v) && AsInt(v) == 0
  }

  /** `f"Result: {result}"` around an arithmetic outcome, or the exception it raised. */
  function Resulting(r: Result<Value, string>): Reply
  {
    match r
    case Success(v) => Said("Result: " + Show(v))
    case Failure(e) => Raised(e)
  }

  /** The `calculate` branch, with `a` and `b` defaulting to 0. */
  function Calculate(args: Args): (r: Reply)
    ensures r.SaidQuotient? ==> Get(args, "operation", Null) == Str("divide") && r.b != 0
    ensures r.Raised? ==>
      r.exception == "TypeError" && !(IsNumber(Get(args, "a", Int(0))) && IsNumber(Get(args, "b", Int(0))))
  {
    var operation := Get(args, "operation", Null);
    var a := Get(args, "a", Int(0));
    var b := Get(args, "b", Int(0));
    if operation == Str("add") then Resulting(Plus(a, b))
    else if operation == Str("subtract") then Resulting(Minus(a, b))
    else if operation == Str("multiply") then Resulting(Times(a, b))
    else if operation == Str("divide") then
      if IsZero(b) then Said("Result: Error: Division by zero")
      else if IsNumber(a) && IsNumber(b) then SaidQuotient(AsInt(a), AsInt(b))
      else Raised("TypeError")
    else Said("Result: Error: Unknown operation " + Show(operation))
  }

  /** The `get_system_info` branch. */
  function SystemInfo(args: Args, host: Host): (r: Reply)
    ensures r.Said?
  {
    var infoType := Get(args, "info_type", Null);
    if infoType == Str("platform") then Said("Platform: " + host.platform)
    else if infoType == Str("python_version") then Said("Python Version: " + host.pythonVersion)
    else if infoType == Str("cwd") then Said("Current Directory: " + host.cwd)
    else Said("Error: Unknown info type " + Show(infoType))
  }

  function LengthMessage(n: nat): string
  {
    "Length: " + Text.IntToDecimal(n) + " characters"
  }

  /**
   * The `text_transform` branch, with `text` defaulting to `""`. A text that is not a string
   * has no `upper`/`lower` (an `AttributeError`) and cannot be sliced or measured (a `TypeError`);
   * an unknown transformation never looks at the text.
   */
  function Transform(args: Args): (r: Reply)
    ensures r.Raised? <==>
      && Get(args, "transformation", Null) in [Str("uppercase"), Str("lowercase"), Str("reverse"), Str("length")]
      && !Get(args, "text", Str("")).Str?
    ensures r.Raised? ==> r.exception == "AttributeError" || r.exception == "TypeError"
  {
    var text := Get(args, "text", Str(""));
    var transformation := Get(args, "transformation", Null);
    if transformation == Str("uppercase") then
      if text.Str? then Said(Text.Upper(text.s)) else Raised("AttributeError")
    else if transformation == Str("lowercase") then
      if text.Str? then Said(Text.Lower(text.s)) else Raised("AttributeError")
    else if transformation == Str("reverse") then
      if text.Str? then Said(Text.Reverse(text.s)) else Raised("TypeError")
    else if transformation == Str("length") then
      if text.Str? then Said(LengthMessage(|text.s|)) else Raised("TypeError")
    else Said("Error: Unknown transformation " + Show(transformation))
  }

  /** `call_tool`: dispatch on the tool name. */
  function CallTool(name: string, args: Args, host: Host): (r: Reply)
    ensures r.Raised? ==> name == "calculate" || name == "text_transform"
    ensures r.SaidQuotient? ==> name == "calculate" && r.b != 0
    ensures name !in ["echo", "calculate", "get_system_info", "text_transform"] ==> r == Said("Error: Unknown tool " + name)
  {
    if name == "echo" then Said("Echo: " + Show(Get(args, "message", Str(""))))
    else if name == "calculate" then Calculate(args)
    else if name == "get_system_info" then SystemInfo(args, host)
    else if name == "text_transform" then Transform(args)
    else Said("Error: Unknown tool " + name)
  }

  // ---------------------------------------------------------------------------
  // Properties

  /** The catalog lists four distinct tools, each requiring only properties it declares. */
  lemma CatalogShape()
    ensures ToolNames(ListTools()) == ["echo", "calculate", "get_system_info", "text_transform"]
    ensures forall i :: 0 <= i < |ListTools()| ==> RequiredDeclared(ListTools()[i].inputSchema)
  {
    var tools := ListTools();
    assert RequiredDeclared(EchoTool.inputSchema) by {
      assert EchoTool.inputSchema.properties[0].name == "message";
    }
    assert RequiredDeclared(CalculateTool.inputSchema) by {
      var ps := CalculateTool.inputSchema.properties;
      assert ps[0].name == "operation" && ps[1].name == "a" && ps[2].name == "b";
    }
    assert RequiredDeclared(SystemInfoTool.inputSchema) by {
      assert SystemInfoTool.inputSchema.properties[0].name == "info_type";
    }
    assert RequiredDeclared(TransformTool.inputSchema) by {
      var ps := TransformTool.inputSchema.properties;
      assert ps[0].name == "text" && ps[1].name == "transformation";
    }
  }

  /** Without arguments, a name gets the unknown-tool reply exactly when the catalog does not list it. */
  lemma UnknownToolIffUnlisted(name: string, host: Host)
    ensures CallTool(name, map[], host) == Said("Error: Unknown tool " + name) <==> name !in ToolNames(ListTools())
  {
    ListedNames();
    if name in ["echo", "calculate", "get_system_info", "text_transform"] {
      ListedToolKnown(name, host);
    }
  }

  /** Whatever the arguments, a name the catalog does not list is answered `Error: Unknown tool <name>`. */
  lemma UnlistedToolUnknown(name: string, args: Args, host: Host)
    requires name !in ToolNames(ListTools())
    ensures CallTool(name, args, host) == Said("Error: Unknown tool " + name)
  {
    ListedNames();
  }

  lemma ListedToolKnown(name: string, host: Host)
    requires name in ["echo", "calculate", "get_system_info", "text_transform"]
    ensures CallTool(name, map[], host) != Said("Error: Unknown tool " + name)
  {
    var unknown := "Error: Unknown tool " + name;
    var reply := CallTool(name, map[], host);
    if name == "echo" {
      assert reply == Said("Echo: " + Show(Str("")));
      assert reply.text[1] == 'c' != unknown[1];
    } else if name == "calculate" {
      assert reply == Said("Result: Error: Unknown operation " + Show(Null));
      assert reply.text[0] == 'R' != unknown[0];
    } else if name == "get_system_info" {
      assert reply == Said("Error: Unknown info type " + Show(Null));
      assert reply.text[15] == 'i' != unknown[15];
    } else {
      assert reply == Said("Error: Unknown transformation " + Show(Null));
      assert reply.text[15] == 't' == unknown[15];
      assert reply.text[16] == 'r' != unknown[16];
    }
  }

  lemma ListedNames()
    ensures ToolNames(ListTools()) == ["echo", "calculate", "get_system_info", "text_transform"]
  {
  }

  /** `echo` returns its message after `Echo: `. */
  lemma EchoReturnsMessage(message: string, args: Args, host: Host)
    requires Get(args, "message", Str("")) == Str(message)
    ensures CallTool("echo", args, host).Said?
    ensures var t := CallTool("echo", args, host).text; |t| >= 6 && t[..6] == "Echo: " && t[6..] == message
  {
  }

  /** Integer add, subtract and multiply reply `Result: ` and a decimal that reads back as the exact value. */
  lemma {:induction false} ArithmeticRoundTrip(operation: string, a: int, b: int, host: Host)
    requires operation in ["add", "subtract", "multiply"]
    ensures var reply := CallTool("calculate", map["operation" := Str(operation), "a" := Int(a), "b" := Int(b)], host);
      && reply.Said? && |reply.text| >= 8 && reply.text[..8] == "Result: "
      && Text.ParseDecimal(reply.text[8..]) ==
         Some(if operation == "add" then a + b else if operation == "subtract" then a - b else a * b)
  {
    var args := map["operation" := Str(operation), "a" := Int(a), "b" := Int(b)];
    var value := if operation == "add" then a + b else if operation == "subtract" then a - b else a * b;
    CalculateDispatched(args, host);
    if operation == "add" {
      assert Calculate(args) == Resulting(Plus(Int(a), Int(b)));
    } else if operation == "subtract" {
      assert Calculate(args) == Resulting(Minus(Int(a), Int(b)));
    } else {
      assert Calculate(args) == Resulting(Times(Int(a), Int(b)));
    }
    assert Calculate(args) == Said("Result: " + Text.IntToDecimal(value));
    Text.DecimalRoundTrip(value);
    assert ("Result: " + Text.IntToDecimal(value))[8..] == Text.IntToDecimal(value);
  }

  /** Missing operands count as 0. */
  lemma OperandsDefaultToZero(operation: string, host: Host)
    requires operation in ["add", "subtract", "multiply"]
    ensures CallTool("calculate", map["operation" := Str(operation)], host) == Said("Result: 0")
  {
    var args := map["operation" := Str(operation)];
    CalculateDispatched(args, host);
    assert "a" !in args && "b" !in args;
    ZeroRendered();
    if operation == "add" {
      assert Calculate(args) == Resulting(Plus(Int(0), Int(0)));
    } else if operation == "subtract" {
      assert Calculate(args) == Resulting(Minus(Int(0), Int(0)));
    } else {
      assert Calculate(args) == Resulting(Times(Int(0), Int(0)));
    }
  }

  /** The arithmetic outcome 0, as `calculate` renders it. */
  lemma ZeroRendered()
    ensures Resulting(Success(Int(0))) == Said("Result: 0")
  {
    assert Text.IntToDecimal(0) == "0";
  }

  /** Division by zero (or by `False`) is reported in the reply, never raised. */
  lemma DivisionByZeroReported(args: Args, host: Host)
    requires Get(args, "operation", Null) == Str("divide")
    requires IsZero(Get(args, "b", Int(0)))
    ensures CallTool("calculate", args, host) == Said("Result: Error: Division by zero")
  {
  }

  /** A text reply that starts with `Result: `. */
  predicate ResultPrefixed(reply: Reply)
  {
    reply.Said? ==> |reply.text| >= 8 && reply.text[..8] == "Result: "
  }

  lemma PrefixedText(rest: string)
    ensures ResultPrefixed(Said("Result: " + rest))
  {
    assert ("Result: " + rest)[..8] == "Result: ";
  }

  /** An arithmetic outcome is reported with the prefix, or raised. */
  lemma ResultingPrefixed(r: Result<Value, string>)
    ensures ResultPrefixed(Resulting(r))
    ensures Resulting(r).Raised? <==> r.Failure?
  {
    if r.Success? {
      PrefixedText(Show(r.value));
    }
  }

  /** `call_tool("calculate", ...)` is the `calculate` branch. */
  lemma CalculateDispatched(args: Args, host: Host)
    ensures CallTool("calculate", args, host) == Calculate(args)
  {
  }

  /** Every text reply of the `calculate` branch, errors included, starts with `Result: `. */
  lemma CalculateReplyPrefixed(args: Args)
    ensures ResultPrefixed(Calculate(args))
  {
    var a := Get(args, "a", Int(0));
    var b := Get(args, "b", Int(0));
    ResultingPrefixed(Plus(a, b));
    ResultingPrefixed(Minus(a, b));
    ResultingPrefixed(Times(a, b));
    PrefixedText("Error: Division by zero");
    PrefixedText("Error: Unknown operation " + Show(Get(args, "operation", Null)));
  }

  /** With number operands (or none), the `calculate` branch never raises. */
  lemma CalculateNumbersNeverRaise(args: Args)
    ensures IsNumber(Get(args, "a", Int(0))) && IsNumber(Get(args, "b", Int(0))) ==> !Calculate(args).Raised?
  {
    var a := Get(args, "a", Int(0));
    var b := Get(args, "b", Int(0));
    if IsNumber(a) && IsNumber(b) {
      assert Plus(a, b).Success? && Minus(a, b).Success? && Times(a, b).Success?;
    }
  }

  /**
   * Every text reply of `calculate`, errors included, starts with `Result: `, and with number
   * operands (or none) it never raises.
   */
  lemma CalculatePrefixed(args: Args, host: Host)
    ensures ResultPrefixed(CallTool("calculate", args, host))
    ensures IsNumber(Get(args, "a", Int(0))) && IsNumber(Get(args, "b", Int(0))) ==>
      !CallTool("calculate", args, host).Raised?
  {
    CalculateDispatched(args, host);
    CalculateReplyPrefixed(args);
    CalculateNumbersNeverRaise(args);
  }

  /** Reversing the reply of a reversal gives back the original text. */
  lemma ReverseTwice(text: string, host: Host)
    ensures var once := CallTool("text_transform", map["text" := Str(text), "transformation" := Str("reverse")], host);
      && once.Said?
      && CallTool("text_transform", map["text" := Str(once.text), "transformation" := Str("reverse")], host) == Said(text)
  {
    Text.ReverseInvolution(text);
  }

  /** The `length` reply carries the number of characters, which reads back exactly. */
  lemma LengthRoundTrip(text: string, host: Host)
    ensures var reply := CallTool("text_transform", map["text" := Str(text), "transformation" := Str("length")], host);
      && reply.Said?
      && |reply.text| >= 19
      && reply.text[..8] == "Length: " && reply.text[|reply.text| - 11..] == " characters"
      && Text.ParseDecimal(reply.text[8..|reply.text| - 11]) == Some(|text|)
  {
    var digits := Text.IntToDecimal(|text|);
    var t := LengthMessage(|text|);
    assert t[8..|t| - 11] == digits;
    Text.DecimalRoundTrip(|text|);
  }

  /**
   * `uppercase` leaves no lower-case ASCII letter, `lowercase` no upper-case one, and each
   * undoes the other up to case: lower-casing an upper-cased text equals lower-casing the text.
   */
  lemma CaseTransforms(text: string, host: Host)
    ensures var up := CallTool("text_transform", map["text" := Str(text), "transformation" := Str("uppercase")], host);
      && up.Said? && |up.text| == |text|
      && (forall i :: 0 <= i < |up.text| ==> !Text.IsAsciiLower(up.text[i]))
      && CallTool("text_transform", map["text" := Str(up.text), "transformation" := Str("lowercase")], host)
         == CallTool("text_transform", map["text" := Str(text), "transformation" := Str("lowercase")], host)
    ensures var down := CallTool("text_transform", map["text" := Str(text), "transformation" := Str("lowercase")], host);
      && down.Said? && |down.text| == |text|
      && (forall i :: 0 <= i < |down.text| ==> !Text.IsAsciiUpper(down.text[i]))
  {
    Text.UpperThenLower(text);
    Text.LowerThenUpper(text);
  }

  /** An unknown transformation is reported whatever the text is, even a text that is not a string. */
  lemma UnknownTransformation(args: Args, host: Host)
    requires Get(args, "transformation", Null) !in {Str("uppercase"), Str("lowercase"), Str("reverse"), Str("length")}
    ensures CallTool("text_transform", args, host) == Said("Error: Unknown transformation " + Show(Get(args, "transformation", Null)))
  {
  }

  /**
   * `get_system_info` reports each of the host's three facts after its own label, and a
   * missing `info_type` is reported as `None`.
   */
  lemma SystemInfoReplies(host: Host)
    ensures CallTool("get_system_info", map["info_type" := Str("platform")], host) == Said("Platform: " + host.platform)
    ensures CallTool("get_system_info", map["info_type" := Str("python_version")], host) == Said("Python Version: " + host.pythonVersion)
    ensures CallTool("get_system_info", map["info_type" := Str("cwd")], host) == Said("Current Directory: " + host.cwd)
    ensures CallTool("get_system_info", map[], host) == Said("Error: Unknown info type None")
  {
  }

  /** `"ab" * 3`: a string operand of `multiply` is repeated. */
  lemma StringTimesNumber(s: string, n: int, host: Host)
    ensures CallTool("calculate", map["operation" := Str("multiply"), "a" := Str(s), "b" := Int(n)], host)
      == Said("Result: " + Repeat(s, n))
  {
  }
}
