/**
 * The `.env` loader in `main` of test_researcher_agent.py and of test_researcher_simple.py
 * (the two copies are the same loop): each line of the file is stripped; empty lines, comment
 * lines and lines without `=` are skipped; the rest is split at its first `=` into a key and
 * a value, which are cleaned and written into `os.environ`, the later line winning.
 *
 * The file is its sequence of lines, `None` when it does not exist. `os.environ` is a map
 * that the loop updates in place; writing an entry that `putenv` refuses raises, which ends
 * the loop (and the script) at that line.
 */
module DotEnv {
  import opened Wrappers
  import Text

  /** One `KEY=VALUE` line, cleaned. */
  datatype Assignment = Assignment(key: string, value: string)

  /** Where loading stopped: the environment reached, and the line whose write raised, if any. */
  datatype Loaded = Loaded(env: map<string, string>, raisedAt: Option<nat>)

  /** The variable whose absence makes the scripts read the file. */
  const ApiKeyName := "ANTHROPIC_API_KEY"

  const DoubleQuote := Text.Only({'"'})
  const SingleQuote := Text.Only({'\''})

  /** The test on the stripped line: not empty, not a comment, and holding an `=`. */
  predicate IsAssignment(t: string)
  {
    t != [] && t[0] != '#' && '=' in t
  }

  /** `value.strip().strip('"').strip("'")`. */
  function CleanValue(raw: string): (value: string)
    ensures value == [] || (value[0] != '\'' && value[|value| - 1] != '\'')
  {
    Text.StripChars(Text.StripChars(Text.Strip(raw), DoubleQuote), SingleQuote)
  }

  /** One line of the loop: `None` for a line it skips, otherwise the cleaned key and value. */
  function ParseLine(line: string): (a: Option<Assignment>)
    ensures a.Some? <==> IsAssignment(Text.Strip(line))
    ensures a.Some? ==> '=' !in a.value.key
    ensures a.Some? && a.value.key != [] ==>
      !Text.IsSpace(a.value.key[0]) && !Text.IsSpace(a.value.key[|a.value.key| - 1])
  {
    var t := Text.Strip(line);
    if IsAssignment(t) then
      var i := Text.IndexOf(t, '=');
      var key := Text.Strip(t[..i]);
      KeyHasNoEquals(t[..i]);
      Some(Assignment(key, CleanValue(t[i + 1..])))
    else None
  }

  /** Stripping keeps a part of the string, so it adds no `=`. */
  lemma KeyHasNoEquals(s: string)
    requires '=' !in s
    ensures '=' !in Text.Strip(s)
  {
    var i := Text.StripCharsRemovesOnly(s, Text.Whitespace);
    var r := Text.Strip(s);
    assert forall k :: 0 <= k < |r| ==> r[k] == s[i + k];
  }

  /** `os.environ[key] = value` succeeds: `putenv` refuses an empty name and NUL characters. */
  predicate Settable(a: Assignment)
  {
    a.key != [] && '\0' !in a.key && '\0' !in a.value
  }

  /** Each line of the file as the loop reads it. */
  function Entries(lines: seq<string>): (entries: seq<Option<Assignment>>)
    ensures |entries| == |lines|
    ensures forall k :: 0 <= k < |lines| ==> entries[k] == ParseLine(lines[k])
  {
    seq(|lines|, k requires 0 <= k < |lines| => ParseLine(lines[k]))
  }

  /** The loop from entry `i` on, starting from the environment `env`. */
  function ApplyFrom(env: map<string, string>, entries: seq<Option<Assignment>>, i: nat): (r: Loaded)
    requires i <= |entries|
    decreases |entries| - i
    ensures r.raisedAt.Some? ==> i <= r.raisedAt.value < |entries|
    ensures r.raisedAt.Some? ==> entries[r.raisedAt.value].Some? && !Settable(entries[r.raisedAt.value].value)
  {
    if i == |entries| then Loaded(env, None)
    else match entries[i]
      case None => ApplyFrom(env, entries, i + 1)
      case Some(a) =>
        if Settable(a) then ApplyFrom(env[a.key := a.value], entries, i + 1)
        else Loaded(env, Some(i))
  }

  /** The whole loop over the lines of the file. */
  function Load(env: map<string, string>, lines: seq<string>): Loaded
  {
    ApplyFrom(env, Entries(lines), 0)
  }

  /** `main`'s guard: the file is read only when the key is unset or empty and the file exists. */
  function Prologue(env: map<string, string>, file: Option<seq<string>>): Loaded
  {
    if (ApiKeyName !in env || env[ApiKeyName] == "") && file.Some? then Load(env, file.value)
    else Loaded(env, None)
  }

  class Environ {
    /** `os.environ`. */
    var vars: map<string, string>

    constructor (vars: map<string, string>)
      ensures this.vars == vars
    {
      this.vars := vars;
    }

    /** `os.environ[key] = value`: the entry is written, or the write raises and nothing changes. */
    method Set(a: Assignment) returns (ok: bool)
      modifies this
      ensures ok == Settable(a)
      ensures vars == if ok then old(vars)[a.key := a.value] else old(vars)
    {
      ok := Settable(a);
      if ok {
        vars := vars[a.key := a.value];
      }
    }

    /** The `for line in f` loop; returns the line whose write raised, if one did. */
    method LoadLines(lines: seq<string>) returns (raisedAt: Option<nat>)
      modifies this
      ensures Loaded(vars, raisedAt) == Load(old(vars), lines)
    {
      ghost var entries := Entries(lines);
      ghost var goal := Load(old(vars), lines);
      var i := 0;
      while i < |lines|
        invariant i <= |lines|
        invariant ApplyFrom(vars, entries, i) == goal
      {
        var parsed := ParseLine(lines[i]);
        assert entries[i] == parsed;
        if parsed.Some? {
          ghost var before := vars;
          var ok := Set(parsed.value);
          if !ok {
            assert ApplyFrom(before, entries, i) == Loaded(vars, Some(i));
            return Some(i);
          }
          assert ApplyFrom(before, entries, i) == ApplyFrom(vars, entries, i + 1);
        } else {
          assert ApplyFrom(vars, entries, i) == ApplyFrom(vars, entries, i + 1);
        }
        i := i + 1;
      }
      return None;
    }

    /** `main` up to the agent run: load the file when the key is missing and the file exists. */
    method LoadIfUnset(file: Option<seq<string>>) returns (raisedAt: Option<nat>)
      modifies this
      ensures Loaded(vars, raisedAt) == Prologue(old(vars), file)
    {
      raisedAt := None;
      if ApiKeyName !in vars || vars[ApiKeyName] == "" {
        if file.Some? {
          raisedAt := LoadLines(file.value);
        }
      }
    }
  }
}

/** What loading a `.env` file does to the environment, line by line and as a whole. */
module DotEnvLemmas {
  import opened Wrappers
  import Text
  import opened DotEnv

  /** The value of the last entry that assigns `key`, if any: a reference for "the later line wins". */
  function LastAssigned(entries: seq<Option<Assignment>>, key: string): Option<string>
  {
    if entries == [] then None
    else
      var later := LastAssigned(entries[1..], key);
      if later.Some? then later
      else match entries[0]
        case Some(a) => if a.key == key then Some(a.value) else None
        case None => None
  }

  /**
   * A line whose `strip()` is `KEY=REST`, not a comment, is split at its first `=`: the key is
   * the part before it, stripped, and the value the whole rest, further `=` included, cleaned.
   */
  lemma SplitAtFirstEquals(line: string, key: string, rest: string)
    requires Text.Strip(line) == key + "=" + rest && '=' !in key
    requires key == [] || key[0] != '#'
    ensures ParseLine(line) == Some(Assignment(Text.Strip(key), CleanValue(rest)))
  {
    var t := Text.Strip(line);
    Text.IndexOfSeparator(key, '=', rest);
    assert t[|key|] == '=';
    assert t[0] != '#' by {
      if key != [] { assert t[0] == key[0]; }
    }
    assert t[..|key|] == key && t[|key| + 1..] == rest;
  }

  /** Characters that neither `strip()` nor the quote stripping removes from a value's ends. */
  predicate Bare(c: char)
  {
    !Text.IsSpace(c) && c != '"' && c != '\''
  }

  /** A key with no blank at either end is its own `strip()`. */
  lemma KeyKept(key: string)
    requires key != [] && !Text.IsSpace(key[0]) && !Text.IsSpace(key[|key| - 1])
    ensures Text.Strip(key) == key
  {
    Text.StripCharsKeeps(key, Text.Whitespace);
  }

  /** A value with no blank and no quote at either end is its own cleaned form. */
  lemma BareValueKept(value: string)
    requires value == [] || (Bare(value[0]) && Bare(value[|value| - 1]))
    ensures CleanValue(value) == value
  {
    Text.StripCharsKeeps(value, Text.Whitespace);
    Text.StripCharsKeeps(value, DoubleQuote);
    Text.StripCharsKeeps(value, SingleQuote);
  }

  /** A double-quoted value loses its quotes. */
  lemma QuotedValueKept(value: string)
    requires value != [] && Bare(value[0]) && Bare(value[|value| - 1])
    ensures CleanValue("\"" + value + "\"") == value
  {
    var quoted := "\"" + value + "\"";
    assert quoted[0] == '"' && quoted[|quoted| - 1] == '"';
    Text.StripCharsKeeps(quoted, Text.Whitespace);
    Text.StripCharsEnclosed("\"", value, "\"", DoubleQuote);
    Text.StripCharsKeeps(value, SingleQuote);
  }

  /** `KEY=REST`, where the key starts and ends outside whitespace, is its own `strip()` whatever the rest. */
  lemma AssignmentLineKept(key: string, rest: string)
    requires key != [] && !Text.IsSpace(key[0]) && !Text.IsSpace(key[|key| - 1])
    requires rest == [] || !Text.IsSpace(rest[|rest| - 1])
    ensures Text.Strip(key + "=" + rest) == key + "=" + rest
  {
    var line := key + "=" + rest;
    assert line[0] == key[0];
    assert line[|line| - 1] == if rest == [] then '=' else rest[|rest| - 1];
    Text.StripCharsKeeps(line, Text.Whitespace);
  }

  /**
   * A line written as `KEY=VALUE`, with a key of no `=` and no surrounding blanks that does not
   * start a comment, and a value that does not start or end with a blank or a quote, reads back
   * as that key and value; the value may contain `=`.
   */
  lemma FormattedLineParses(key: string, value: string)
    requires key != [] && key[0] != '#' && '=' !in key
    requires !Text.IsSpace(key[0]) && !Text.IsSpace(key[|key| - 1])
    requires value == [] || (Bare(value[0]) && Bare(value[|value| - 1]))
    ensures ParseLine(key + "=" + value) == Some(Assignment(key, value))
  {
    AssignmentLineKept(key, value);
    SplitAtFirstEquals(key + "=" + value, key, value);
    KeyKept(key);
    BareValueKept(value);
  }

  /** A double-quoted value loses its quotes: `KEY="VALUE"` reads back as `VALUE`. */
  lemma QuotedValueParses(key: string, value: string)
    requires key != [] && key[0] != '#' && '=' !in key
    requires !Text.IsSpace(key[0]) && !Text.IsSpace(key[|key| - 1])
    requires value != [] && Bare(value[0]) && Bare(value[|value| - 1])
    ensures ParseLine(key + "=\"" + value + "\"") == Some(Assignment(key, value))
  {
    var quoted := "\"" + value + "\"";
    assert key + "=\"" + value + "\"" == key + "=" + quoted;
    assert quoted[|quoted| - 1] == '"';
    AssignmentLineKept(key, quoted);
    SplitAtFirstEquals(key + "=" + quoted, key, quoted);
    KeyKept(key);
    QuotedValueKept(value);
  }

  /** Blank lines, comment lines and lines without `=` leave the environment alone. */
  lemma SkippedLine(env: map<string, string>, line: string)
    requires var t := Text.Strip(line); t == [] || t[0] == '#' || '=' !in t
    ensures Load(env, [line]) == Loaded(env, None)
  {
    assert ParseLine(line).None?;
    assert Entries([line]) == [None];
    assert ApplyFrom(env, [None], 1) == Loaded(env, None);
  }

  /**
   * When no write raises, each key ends with the value of the last entry assigning it, and a
   * key no entry assigns keeps its value, or stays absent.
   */
  lemma {:induction false} ApplyFromLastWins(env: map<string, string>, entries: seq<Option<Assignment>>, i: nat, key: string)
    requires i <= |entries|
    requires ApplyFrom(env, entries, i).raisedAt.None?
    decreases |entries| - i
    ensures var out := ApplyFrom(env, entries, i).env;
      var last := LastAssigned(entries[i..], key);
      && (last.Some? ==> key in out && out[key] == last.value)
      && (last.None? ==> (key in out <==> key in env) && (key in env ==> out[key] == env[key]))
  {
    if i < |entries| {
      assert entries[i..][1..] == entries[i + 1..];
      match entries[i]
      case None =>
        ApplyFromLastWins(env, entries, i + 1, key);
      case Some(a) =>
        ApplyFromLastWins(env[a.key := a.value], entries, i + 1, key);
    }
  }

  /**
   * When no write raises, each key ends with the value of the last line of the file assigning
   * it, and a key no line assigns keeps its value, or stays absent.
   */
  lemma LoadLastWins(env: map<string, string>, lines: seq<string>, key: string)
    requires Load(env, lines).raisedAt.None?
    ensures var out := Load(env, lines).env;
      var last := LastAssigned(Entries(lines), key);
      && (last.Some? ==> key in out && out[key] == last.value)
      && (last.None? ==> (key in out <==> key in env) && (key in env ==> out[key] == env[key]))
  {
    var entries := Entries(lines);
    assert entries[0..] == entries;
    ApplyFromLastWins(env, entries, 0, key);
  }

  /**
   * A write that raises stops the loop at its entry: that entry is one `putenv` refuses, and the
   * environment is what the entries before it produced.
   */
  lemma {:induction false} ApplyFromStops(env: map<string, string>, entries: seq<Option<Assignment>>, i: nat, n: nat)
    requires i <= n <= |entries|
    requires ApplyFrom(env, entries, i).raisedAt.Some?
    requires ApplyFrom(env, entries, i).raisedAt.value == n
    decreases |entries| - i
    ensures ApplyFrom(env, entries[..n], i) == Loaded(ApplyFrom(env, entries, i).env, None)
  {
    assert i < |entries|;
    var prefix := entries[..n];
    if i < n {
      assert prefix[i] == entries[i];
      match entries[i]
      case None =>
        ApplyFromStops(env, entries, i + 1, n);
      case Some(a) =>
        ApplyFromStops(env[a.key := a.value], entries, i + 1, n);
    }
  }

  /** Loading stops at the first refused write, with the lines before it applied. */
  lemma LoadStops(env: map<string, string>, lines: seq<string>)
    requires Load(env, lines).raisedAt.Some?
    ensures var r := Load(env, lines);
      var n := r.raisedAt.value;
      && n < |lines|
      && ParseLine(lines[n]).Some? && !Settable(ParseLine(lines[n]).value)
      && Load(env, lines[..n]) == Loaded(r.env, None)
  {
    var entries := Entries(lines);
    var n := Load(env, lines).raisedAt.value;
    ApplyFromStops(env, entries, 0, n);
    assert Entries(lines[..n]) == entries[..n];
  }

  /** With the API key set to a non-empty value, the file is not read and nothing changes. */
  lemma KeySetSkipsFile(env: map<string, string>, file: Option<seq<string>>)
    requires ApiKeyName in env && env[ApiKeyName] != ""
    ensures Prologue(env, file) == Loaded(env, None)
  {
  }

  /** A line `=VALUE` has an empty key, a write `putenv` refuses, so the load raises there. */
  lemma EmptyKeyRaises(env: map<string, string>, value: string)
    requires value == [] || (Bare(value[0]) && Bare(value[|value| - 1]))
    ensures Load(env, ["=" + value]) == Loaded(env, Some(0))
  {
    var line := "=" + value;
    assert line == [] + "=" + value;
    assert line[|line| - 1] == if value == [] then '=' else value[|value| - 1];
    Text.StripCharsKeeps(line, Text.Whitespace);
    SplitAtFirstEquals(line, "", value);
    assert Entries([line]) == [ParseLine(line)];
  }
}
