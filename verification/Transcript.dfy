// Printing a list of chunks as `[sequence] text` lines, and the parsers that
// read such lines back.

module Transcript {
  import opened Text
  import opened Models

  // The lines printed so far and the text the next chunk is compared with.
  datatype Printing = Printing(lines: seq<(nat, string)>, previous: string)

  // One round of `_window_text`: a blank chunk, and a chunk that only repeats
  // its predecessor, prints nothing.
  function PrintChunk(lower: char -> char, p: Printing, c: Speech): Printing {
    var raw := c.text;
    var text := if raw == "" then "" else NormalizeChunkText(lower, raw, p.previous);
    if text == "" then p else Printing(p.lines + [(c.sequence, text)], text)
  }

  function PrintAll(lower: char -> char, chunks: seq<Speech>): Printing {
    if chunks == [] then Printing([], "")
    else PrintChunk(lower, PrintAll(lower, chunks[..|chunks| - 1]), chunks[|chunks| - 1])
  }

  function PrintedLines(lower: char -> char, chunks: seq<Speech>): seq<(nat, string)> {
    PrintAll(lower, chunks).lines
  }

  function Rendered(lines: seq<(nat, string)>): (r: seq<string>)
    ensures |r| == |lines|
  {
    if lines == [] then []
    else Rendered(lines[..|lines| - 1]) + [PrintLine(lines[|lines| - 1].0, lines[|lines| - 1].1)]
  }

  lemma {:induction false} RenderedAt(lines: seq<(nat, string)>, i: nat)
    requires i < |lines|
    ensures Rendered(lines)[i] == PrintLine(lines[i].0, lines[i].1)
  {
    if i < |lines| - 1 {
      RenderedAt(lines[..|lines| - 1], i);
    }
  }

  lemma RenderedAppend(lines: seq<(nat, string)>, line: (nat, string))
    ensures Rendered(lines + [line]) == Rendered(lines) + [PrintLine(line.0, line.1)]
  {
    assert (lines + [line])[..|lines|] == lines;
  }

  function WindowText(lower: char -> char, chunks: seq<Speech>): string {
    Strip(JoinLines(Rendered(PrintedLines(lower, chunks))))
  }

  method PrintWindow(lower: char -> char, chunks: seq<Speech>) returns (text: string)
    ensures text == WindowText(lower, chunks)
  {
    var lines: seq<string> := [];
    var previous := "";
    ghost var printed := Printing([], "");
    for i := 0 to |chunks|
      invariant printed == PrintAll(lower, chunks[..i])
      invariant lines == Rendered(printed.lines) && previous == printed.previous
    {
      assert chunks[..i + 1][..i] == chunks[..i];
      ghost var before := printed;
      printed := PrintChunk(lower, printed, chunks[i]);
      var raw := chunks[i].text;
      if raw == "" {
        continue;
      }
      var t := NormalizeChunk(lower, raw, previous);
      if t == "" {
        continue;
      }
      RenderedAppend(before.lines, (chunks[i].sequence, t));
      lines := lines + [PrintLine(chunks[i].sequence, t)];
      previous := t;
    }
    assert chunks[..|chunks|] == chunks;
    text := Strip(JoinLines(lines));
  }

  // ----- reading back

  // `parsed_semantic_sequences` and `_parse_transcript` read a line in this same way.
  function SemanticLine(line: string): Option<(int, string)> {
    match MatchLine(line)
    case None => None
    case Some(found) =>
      var text := Collapse(found.1);
      if text == "" then None else Some((found.0, text))
  }

  function Recorded(m: map<int, string>, read: Option<(int, string)>): map<int, string> {
    match read
    case None => m
    case Some(found) => m[found.0 := found.1]
  }

  // A later line of the same number replaces an earlier one.
  function Gathered(read: string -> Option<(int, string)>, lines: seq<string>): map<int, string> {
    if lines == [] then map[]
    else Recorded(Gathered(read, lines[..|lines| - 1]), read(lines[|lines| - 1]))
  }

  function ParsedSequences(text: string): map<int, string> {
    Gathered(SemanticLine, SplitLines(text))
  }

  function SequenceMap(text: string): map<int, string> {
    Gathered(MarkerLine, SplitLines(text))
  }

  method ParseSemanticSequences(text: string) returns (transcript: map<int, string>)
    ensures transcript == ParsedSequences(text)
  {
    transcript := ReadLines(SemanticLine, SplitLines(text));
  }

  method ReadSequenceMap(text: string) returns (lines: map<int, string>)
    ensures lines == SequenceMap(text)
  {
    lines := ReadLines(MarkerLine, SplitLines(text));
  }

  method ReadLines(read: string -> Option<(int, string)>, lines: seq<string>) returns (m: map<int, string>)
    ensures m == Gathered(read, lines)
  {
    m := map[];
    for i := 0 to |lines|
      invariant m == Gathered(read, lines[..i])
    {
      assert lines[..i + 1][..i] == lines[..i];
      var found := read(lines[i]);
      if found.None? {
        continue;
      }
      m := m[found.value.0 := found.value.1];
    }
    assert lines[..|lines|] == lines;
  }

  // ----- print, then parse

  function MapOf(lines: seq<(nat, string)>): map<int, string> {
    if lines == [] then map[] else MapOf(lines[..|lines| - 1])[lines[|lines| - 1].0 := lines[|lines| - 1].1]
  }

  // Each printed line quotes one useful chunk: its text is what is left of the
  // chunk's collapsed text after its opening words were removed.
  ghost predicate Quotes(line: (nat, string), chunks: seq<Speech>) {
    && line.1 != "" && Collapsed(line.1)
    && exists c :: c in chunks && c.sequence == line.0 && IsUseful(c) && IsSuffix(line.1, Collapse(c.text))
  }

  lemma {:induction false} PrintedLinesQuote(lower: char -> char, chunks: seq<Speech>)
    ensures forall line :: line in PrintedLines(lower, chunks) ==> Quotes(line, chunks)
  {
    if chunks != [] {
      var init, c := chunks[..|chunks| - 1], chunks[|chunks| - 1];
      PrintedLinesQuote(lower, init);
      forall line | line in PrintedLines(lower, chunks)
        ensures Quotes(line, chunks)
      {
        if line in PrintedLines(lower, init) {
          var d :| d in init && d.sequence == line.0 && IsUseful(d) && IsSuffix(line.1, Collapse(d.text));
          assert d in chunks;
        } else {
          assert line == (c.sequence, NormalizeChunkText(lower, c.text, PrintAll(lower, init).previous));
          NormalizedText(lower, c.text, PrintAll(lower, init).previous);
          assert c in chunks;
        }
      }
    }
  }

  lemma {:induction false} GatheredPrinted(read: string -> Option<(int, string)>, lines: seq<(nat, string)>)
    requires forall i :: 0 <= i < |lines| ==> read(Rendered(lines)[i]) == Some((lines[i].0, lines[i].1))
    ensures Gathered(read, Rendered(lines)) == MapOf(lines)
  {
    if lines != [] {
      var init, last := lines[..|lines| - 1], lines[|lines| - 1];
      assert forall i :: 0 <= i < |init| ==> Rendered(init)[i] == Rendered(lines)[i];
      GatheredPrinted(read, init);
      assert Rendered(lines)[..|lines| - 1] == Rendered(init);
    }
  }

  lemma {:induction false} JoinedBare(lines: seq<string>)
    requires lines != []
    requires forall line :: line in lines ==> Bare(line)
    ensures Bare(JoinLines(lines))
  {
    assert lines[0] in lines;
    if |lines| > 1 {
      JoinedBare(lines[1..]);
      var s, t := JoinLines(lines), JoinLines(lines[1..]);
      assert s[0] == lines[0][0] && s[|s| - 1] == t[|t| - 1];
    }
  }

  lemma QuotedLineReadsBack(line: (nat, string), chunks: seq<Speech>)
    requires Quotes(line, chunks)
    ensures OneLine(PrintLine(line.0, line.1)) && Bare(PrintLine(line.0, line.1))
    ensures SemanticLine(PrintLine(line.0, line.1)) == MarkerLine(PrintLine(line.0, line.1)) == Some((line.0, line.1))
  {
    PrintedLineParses(line.0, line.1);
    CollapseFixed(line.1);
  }

  // All three parsers read a printed window as exactly its printed lines.
  lemma PrintThenParse(lower: char -> char, chunks: seq<Speech>)
    ensures ParsedSequences(WindowText(lower, chunks)) == MapOf(PrintedLines(lower, chunks))
    ensures SequenceMap(WindowText(lower, chunks)) == MapOf(PrintedLines(lower, chunks))
  {
    var printed := PrintedLines(lower, chunks);
    var lines := Rendered(printed);
    PrintedLinesQuote(lower, chunks);
    forall i | 0 <= i < |printed|
      ensures OneLine(lines[i]) && Bare(lines[i])
      ensures SemanticLine(lines[i]) == MarkerLine(lines[i]) == Some((printed[i].0, printed[i].1))
    {
      RenderedAt(printed, i);
      QuotedLineReadsBack(printed[i], chunks);
    }
    JoinedSplits(lines);
    GatheredPrinted(SemanticLine, printed);
    GatheredPrinted(MarkerLine, printed);
  }

  lemma JoinedSplits(lines: seq<string>)
    requires forall i :: 0 <= i < |lines| ==> OneLine(lines[i]) && Bare(lines[i])
    ensures SplitLines(Strip(JoinLines(lines))) == lines
  {
    SplitJoined(lines);
    if lines != [] {
      JoinedBare(lines);
      StripFixed(JoinLines(lines));
    }
  }

  lemma {:induction false} MapOfKeys(lines: seq<(nat, string)>)
    ensures forall n :: n in MapOf(lines) <==> exists i :: 0 <= i < |lines| && lines[i].0 == n
    ensures forall n :: n in MapOf(lines) ==> exists i :: 0 <= i < |lines| && lines[i].0 == n && lines[i].1 == MapOf(lines)[n]
  {
    if lines != [] {
      var init, last := lines[..|lines| - 1], lines[|lines| - 1];
      MapOfKeys(init);
      assert forall i :: 0 <= i < |init| ==> init[i] == lines[i];
      assert lines[|lines| - 1].0 == last.0;
    }
  }

  // What a parser finds in a printed window quotes the window's chunks.
  lemma ParsedTextQuotes(lower: char -> char, chunks: seq<Speech>, n: int)
    requires n in ParsedSequences(WindowText(lower, chunks))
    ensures n >= 0 && Quotes((n, ParsedSequences(WindowText(lower, chunks))[n]), chunks)
  {
    PrintThenParse(lower, chunks);
    PrintedLinesQuote(lower, chunks);
    MapOfKeys(PrintedLines(lower, chunks));
  }

  // With increasing sequence numbers no line hides another.
  lemma PrintedLineIsFound(lower: char -> char, chunks: seq<Speech>, i: nat)
    requires Ascending(chunks) && i < |PrintedLines(lower, chunks)|
    ensures var line := PrintedLines(lower, chunks)[i];
            var parsed := ParsedSequences(WindowText(lower, chunks));
            line.0 in parsed && parsed[line.0] == line.1
  {
    var lines := PrintedLines(lower, chunks);
    PrintThenParse(lower, chunks);
    PrintedAscending(lower, chunks);
    DistinctLineIsFound(lines, i);
  }

  lemma DistinctLineIsFound(lines: seq<(nat, string)>, i: nat)
    requires forall j, k :: 0 <= j < k < |lines| ==> lines[j].0 != lines[k].0
    requires i < |lines|
    ensures lines[i].0 in MapOf(lines) && MapOf(lines)[lines[i].0] == lines[i].1
  {
    MapOfKeys(lines);
    assert lines[i].0 in MapOf(lines);
  }

  // Ascending, and none above `limit`.
  predicate NumbersAscend(lines: seq<(nat, string)>, limit: int) {
    && (forall i, j :: 0 <= i < j < |lines| ==> lines[i].0 < lines[j].0)
    && (forall i :: 0 <= i < |lines| ==> lines[i].0 <= limit)
  }

  lemma {:induction false} PrintedAscending(lower: char -> char, chunks: seq<Speech>)
    requires Ascending(chunks)
    ensures NumbersAscend(PrintedLines(lower, chunks), if chunks == [] then -1 else chunks[|chunks| - 1].sequence)
  {
    if chunks != [] {
      var init, last := chunks[..|chunks| - 1], chunks[|chunks| - 1];
      PrintedAscending(lower, init);
      assert init != [] ==> init[|init| - 1].sequence < last.sequence;
      assert NumbersAscend(PrintedLines(lower, init), last.sequence - 1);
    }
  }
}
