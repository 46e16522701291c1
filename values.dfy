/**
 * The scalar JSON values a tool call carries once decoded into Python (`None`, `bool`,
 * `int`, `str`), the way Python's `str()` and f-strings print them, and the MCP records
 * shared by the bridge and the example server.
 */
module Values {
  import opened Wrappers
  import Text

  datatype Value = Null | Bool(b: bool) | Int(i: int) | Str(s: string)

  /** Arguments of one tool call: a JSON object decoded into a Python `dict`. */
  type Args = map<string, Value>

  /** Python's `str(v)`, which is what an f-string inserts. */
  function Show(v: Value): string
  {
    match v
    case Null => "None"
    case Bool(b) => if b then "True" else "False"
    case Int(i) => Text.IntToDecimal(i)
    case Str(s) => s
  }

  /** `bool` is a subclass of `int` in Python, so both take part in arithmetic. */
  predicate IsNumber(v: Value)
  {
    v.Bool? || v.Int?
  }

  function AsInt(v: Value): int
    requires IsNumber(v)
  {
    if v.Int? then v.i else if v.b then 1 else 0
  }

  /** `args.get(key, default)`. */
  function Get(args: Args, key: string, default: Value): Value
  {
    if key in args then args[key] else default
  }

  /** One property of a tool's JSON input schema (`type`, `description`, optional `enum`). */
  datatype Property = Property(name: string, kind: string, description: string, choices: seq<string>)

  /** A tool's input schema: its properties, in order, and the names listed as `required`. */
  datatype Schema = Schema(properties: seq<Property>, required: seq<string>)

  /** The `{}` schema used when a server lists a tool without one. */
  const EmptySchema := Schema([], [])

  /** An MCP tool descriptor as `tools/list` reports it. */
  datatype Tool = Tool(name: string, description: Option<string>, inputSchema: Schema)

  /** The names of a list of tools, in order. */
  function ToolNames(tools: seq<Tool>): (names: seq<string>)
    ensures |names| == |tools| && forall i :: 0 <= i < |tools| ==> names[i] == tools[i].name
  {
    seq(|tools|, i requires 0 <= i < |tools| => tools[i].name)
  }
}
