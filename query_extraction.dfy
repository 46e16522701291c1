/**
 * `ResearchWorkflowOrchestrator._extract_queries_from_response`
 * (scripts/research_report_workflow.py): the search queries a planner's reply proposes.
 * A `queries` list found as JSON wins; otherwise the long lines of the reply, cleaned of
 * list numbering and quotes; otherwise the start of the reply itself.
 *
 * The regular-expression search and `json.loads` are not modelled: their outcome is the
 * input `json`, the `queries` list when both succeed and the object has that key.
 */
module QueryExtraction {
  import opened Wrappers
  import Text

  const MaxQueries := 5
  const MaxFallbackLength := 200

  /** The characters `strip('"-1234567890.)')` removes. */
  const NoiseChars: set<char> := {'"', '-', '1', '2', '3', '4', '5', '6', '7', '8', '9', '0', '.', ')'}

  /** `NoiseChars` as the argument of `strip`. */
  const Noise := Text.Only(NoiseChars)

  function Min(a: int, b: int): int
  {
    if a <= b then a else b
  }

  /** The filter: the whitespace-stripped line is longer than 10 characters. */
  predicate Qualifies(line: string)
  {
    |Text.Strip(line)| > 10
  }

  /** `line.strip().strip('"-1234567890.)')`. */
  function Clean(line: string): (item: string)
    ensures item == [] || (item[0] !in NoiseChars && item[|item| - 1] !in NoiseChars)
  {
    Text.StripChars(Text.Strip(line), Noise)
  }

  /** The list comprehension over `response.split('\n')`: the cleaned qualifying lines, in order. */
  function CleanedLines(lines: seq<string>): (items: seq<string>)
    ensures |items| <= |lines|
  {
    if lines == [] then []
    else if Qualifies(lines[0]) then [Clean(lines[0])] + CleanedLines(lines[1..])
    else CleanedLines(lines[1..])
  }

  /** The reply as `response.split('\n')`. */
  function Lines(response: string): seq<string>
  {
    Text.Split(response, '\n')
  }

  /** `_extract_queries_from_response`. */
  function ExtractQueries(response: string, json: Option<seq<string>>): (queries: seq<string>)
    ensures |queries| <= MaxQueries
    ensures json.Some? ==> queries == json.value[..Min(MaxQueries, |json.value|)]
    ensures queries == [] <==> json == Some([])
    ensures json.None? && CleanedLines(Lines(response)) == [] ==>
      queries == [response[..Min(MaxFallbackLength, |response|)]]
  {
    if json.Some? then json.value[..Min(MaxQueries, |json.value|)]
    else
      var items := CleanedLines(Lines(response));
      if items != [] then items[..Min(MaxQueries, |items|)]
      else [response[..Min(MaxFallbackLength, |response|)]]
  }

  // ---------------------------------------------------------------------------
  // Provenance of the fallback items

  /** The indices of the qualifying lines from `from` on, in increasing order: a reference for the filter. */
  function KeptFrom(lines: seq<string>, from: nat): (idx: seq<nat>)
    requires from <= |lines|
    decreases |lines| - from
    ensures forall j :: 0 <= j < |idx| ==> from <= idx[j] < |lines| && Qualifies(lines[idx[j]])
    ensures forall j, k :: 0 <= j < k < |idx| ==> idx[j] < idx[k]
    ensures forall i :: from <= i < |lines| && Qualifies(lines[i]) ==> i in idx
  {
    if from == |lines| then []
    else if Qualifies(lines[from]) then [from] + KeptFrom(lines, from + 1)
    else KeptFrom(lines, from + 1)
  }

  /** The cleaned lines are exactly the qualifying lines, cleaned, in their original order. */
  lemma {:induction false} CleanedLinesKept(lines: seq<string>, from: nat)
    requires from <= |lines|
    decreases |lines| - from
    ensures var idx := KeptFrom(lines, from);
      && |CleanedLines(lines[from..])| == |idx|
      && forall j :: 0 <= j < |idx| ==> CleanedLines(lines[from..])[j] == Clean(lines[idx[j]])
  {
    if from < |lines| {
      CleanedLinesStep(lines, from);
      KeptFromStep(lines, from);
      CleanedLinesKept(lines, from + 1);
      var idx, out := KeptFrom(lines, from), CleanedLines(lines[from..]);
      var rest, tail := KeptFrom(lines, from + 1), CleanedLines(lines[from + 1..]);
      forall j | 0 <= j < |idx|
        ensures out[j] == Clean(lines[idx[j]])
      {
        if Qualifies(lines[from]) && j > 0 {
          assert idx[j] == rest[j - 1] && out[j] == tail[j - 1];
        }
      }
    }
  }

  /** The filter from line `from` on: that line, if it qualifies, then the rest. */
  lemma KeptFromStep(lines: seq<string>, from: nat)
    requires from < |lines|
    ensures KeptFrom(lines, from) == (if Qualifies(lines[from]) then [from] else []) + KeptFrom(lines, from + 1)
  {
  }

  /** The comprehension from line `from` on: that line, if it qualifies, then the rest. */
  lemma CleanedLinesStep(lines: seq<string>, from: nat)
    requires from < |lines|
    ensures CleanedLines(lines[from..]) ==
      (if Qualifies(lines[from]) then [Clean(lines[from])] else []) + CleanedLines(lines[from + 1..])
  {
    assert lines[from..][1..] == lines[from + 1..];
    assert lines[from..][0] == lines[from];
  }

  /**
   * Without JSON, when some line qualifies, the result is the first (at most five) qualifying
   * lines, each cleaned, in the order they appear in the reply.
   */
  lemma FallbackProvenance(response: string, json: Option<seq<string>>)
    requires json.None?
    requires KeptFrom(Lines(response), 0) != []
    ensures var lines := Lines(response);
      var idx := KeptFrom(lines, 0);
      var queries := ExtractQueries(response, json);
      && |queries| == Min(MaxQueries, |idx|)
      && forall j :: 0 <= j < |queries| ==> queries[j] == Clean(lines[idx[j]]) && Qualifies(lines[idx[j]])
  {
    var lines := Lines(response);
    assert lines[0..] == lines;
    CleanedLinesKept(lines, 0);
  }

  /** With no qualifying line, the reply's first 200 characters are the only query. */
  lemma UltimateFallback(response: string, json: Option<seq<string>>)
    requires json.None?
    requires KeptFrom(Lines(response), 0) == []
    ensures var queries := ExtractQueries(response, json);
      && |queries| == 1 && |queries[0]| <= MaxFallbackLength && |queries[0]| <= |response|
      && queries[0] == response[..|queries[0]|]
      && (|response| <= MaxFallbackLength ==> queries[0] == response)
  {
    var lines := Lines(response);
    assert lines[0..] == lines;
    CleanedLinesKept(lines, 0);
  }

  /** Cleaning removes a leading run of numbering characters and nothing of the text after it. */
  lemma StripNumbering(numbering: string, text: string)
    requires forall k :: 0 <= k < |numbering| ==> numbering[k] in NoiseChars
    requires text != [] && text[0] !in NoiseChars && text[|text| - 1] !in NoiseChars
    ensures Text.StripChars(numbering + text, Noise) == text
  {
    Text.StripCharsEnclosed(numbering, text, [], Noise);
    assert numbering + text + [] == numbering + text;
  }

  /** A reply of one long line is that line, cleaned. */
  lemma SingleLine(line: string)
    requires '\n' !in line && Qualifies(line)
    ensures ExtractQueries(line, None) == [Clean(line)]
  {
    assert Lines(line) == [line];
    assert CleanedLines([line]) == [Clean(line)] by {
      assert [line][1..] == [];
    }
  }
}

/**
 * How cleaning treats numbered lines: it removes the numbering and nothing after it, and the
 * length filter looks at the line before the numbering is removed.
 */
module QueryCleaning {
  import opened Wrappers
  import Text
  import opened QueryExtraction

  /** No numbering character is whitespace. */
  lemma NoiseIsNotWhitespace(c: char)
    requires c in NoiseChars
    ensures !Text.IsSpace(c)
  {
  }

  /** A numbered line ending outside whitespace has nothing for `strip()` to remove. */
  lemma NumberedUnpadded(numbering: string, text: string)
    requires numbering != [] && numbering[0] in NoiseChars
    requires text != [] && !Text.IsSpace(text[|text| - 1])
    ensures Text.Strip(numbering + text) == numbering + text
  {
    var line := numbering + text;
    assert line[0] == numbering[0] && line[|line| - 1] == text[|text| - 1];
    NoiseIsNotWhitespace(numbering[0]);
    Text.StripCharsKeeps(line, Text.Whitespace);
  }

  /** Cleaning a line that `strip()` leaves alone is stripping its noise. */
  lemma CleanUnpadded(line: string)
    requires Text.Strip(line) == line
    ensures Clean(line) == Text.StripChars(line, Noise)
  {
  }

  /**
   * A long line made of numbering followed by a text becomes exactly that text, so a text
   * starting with a blank (`1. Solar cells`) keeps the blank (` Solar cells`).
   */
  lemma NumberedLine(line: string, numbering: string, text: string)
    requires line == numbering + text
    requires numbering != [] && forall k :: 0 <= k < |numbering| ==> numbering[k] in NoiseChars
    requires text != [] && text[0] !in NoiseChars && text[|text| - 1] !in NoiseChars
    requires !Text.IsSpace(text[|text| - 1])
    requires '\n' !in line && |line| > 10
    ensures ExtractQueries(line, None) == [text]
  {
    CleanNumbered(line, numbering, text);
    NumberedUnpadded(numbering, text);
    SingleLine(line);
  }

  /** Cleaning a numbered line leaves the text after the numbering. */
  lemma CleanNumbered(line: string, numbering: string, text: string)
    requires line == numbering + text
    requires numbering != [] && forall k :: 0 <= k < |numbering| ==> numbering[k] in NoiseChars
    requires text != [] && text[0] !in NoiseChars && text[|text| - 1] !in NoiseChars
    requires !Text.IsSpace(text[|text| - 1])
    ensures Clean(line) == text
  {
    NumberedUnpadded(numbering, text);
    CleanUnpadded(line);
    StripNumbering(numbering, text);
  }

  /** The length filter runs before the noise is stripped, so a long line of numbering alone yields an empty query. */
  lemma NumberingOnlyLine(line: string)
    requires forall k :: 0 <= k < |line| ==> line[k] in NoiseChars
    requires |line| > 10
    ensures ExtractQueries(line, None) == [""]
  {
    NumberedUnpadded([line[0]], line[1..]);
    assert [line[0]] + line[1..] == line;
    CleanUnpadded(line);
    var i := Text.StripCharsRemovesOnly(line, Noise);
    assert '\n' !in line by {
      assert '\n' !in NoiseChars;
    }
    SingleLine(line);
  }
}
