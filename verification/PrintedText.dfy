// What a printed list of chunks says: every chunk, without the words that it
// repeats from the line before it.

module PrintedText {
  import opened Seqs
  import opened Text
  import opened Models
  import opened Transcript
  import opened Words

  // The first `size` characters of `whole`, 8 to 80, occur in the last 120 of `previous`.
  ghost predicate Repeats(lower: char -> char, whole: string, previous: string, size: int) {
    8 <= size <= 80 && size <= |whole| && exists i :: |previous| - 120 <= i && SaysAlike(lower, previous, whole, size, i)
  }

  // `rest` is what is left of `whole`: all of it, or what follows the longest
  // opening that is repeated and the separators behind it.
  ghost predicate LeftOf(lower: char -> char, whole: string, previous: string, rest: string) {
    if forall size :: !Repeats(lower, whole, previous, size) then rest == whole
    else exists size, k :: LeftBehind(lower, whole, previous, rest, size, k)
  }

  ghost predicate LeftBehind(lower: char -> char, whole: string, previous: string, rest: string, size: int, k: int) {
    && Repeats(lower, whole, previous, size) && (forall more :: size < more ==> !Repeats(lower, whole, previous, more))
    && size <= k <= |whole| && rest == whole[k..]
    && (forall j :: size <= j < k ==> whole[j] in {' ', ',', '.', '-'}) && (rest != "" ==> rest[0] !in {' ', ',', '.', '-'})
  }

  lemma EchoRepeats(lower: char -> char, whole: string, previous: string, size: int)
    ensures Echoes(lower, whole, previous, size) <==> Repeats(lower, whole, previous, size)
  {
    EchoMeans(lower, whole, previous, size);
  }

  // What is kept of a text is the collapsed text, less what it repeats.
  lemma NormalizedIsLeft(lower: char -> char, text: string, previous: string)
    ensures LeftOf(lower, Collapse(text), previous, NormalizeChunkText(lower, text, previous))
  {
    var whole := Collapse(text);
    var limit := if |whole| < 80 then |whole| else 80;
    var size := EchoSize(lower, whole, previous, limit);
    EchoSizeIsLargest(lower, whole, previous, limit);
    var k := OpeningIsRemoved(lower, text, previous);
    forall n: int
      ensures Echoes(lower, whole, previous, n) <==> Repeats(lower, whole, previous, n)
    {
      EchoRepeats(lower, whole, previous, n);
    }
    if size > 0 {
      assert Echoes(lower, whole, previous, size);
      assert LeftBehind(lower, whole, previous, whole[k..], size, k);
    }
  }

  // `whole` has the words of the text, one blank between any two.
  predicate IsCollapseOf(whole: string, text: string) {
    SameWords(whole, text) && Collapsed(whole)
  }

  ghost predicate SaysChunk(lower: char -> char, text: string, previous: string, rest: string) {
    exists whole :: IsCollapseOf(whole, text) && LeftOf(lower, whole, previous, rest)
  }

  // The lines say the chunks, one after the other: each has a line with its number
  // and what is left of it, or nothing is left and it has none.
  ghost predicate SaysAll(lower: char -> char, chunks: seq<Speech>, lines: seq<(nat, string)>) {
    if chunks == [] then lines == []
    else
      var n, c := |chunks| - 1, chunks[|chunks| - 1];
      || (SaysAll(lower, chunks[..n], lines) && SaysChunk(lower, c.text, LastSaid(lines), ""))
      || (lines != [] && lines[|lines| - 1].0 == c.sequence && lines[|lines| - 1].1 != ""
          && SaysAll(lower, chunks[..n], lines[..|lines| - 1])
          && SaysChunk(lower, c.text, LastSaid(lines[..|lines| - 1]), lines[|lines| - 1].1))
  }

  function LastSaid(lines: seq<(nat, string)>): string {
    if lines == [] then "" else lines[|lines| - 1].1
  }

  lemma {:induction false} PreviousIsLast(lower: char -> char, chunks: seq<Speech>)
    ensures PrintAll(lower, chunks).previous == LastSaid(PrintAll(lower, chunks).lines)
  {
    if chunks != [] {
      PreviousIsLast(lower, chunks[..|chunks| - 1]);
    }
  }

  lemma NormalizedSays(lower: char -> char, text: string, previous: string)
    ensures SaysChunk(lower, text, previous, NormalizeChunkText(lower, text, previous))
  {
    CollapseKeepsWords(text);
    NormalizedIsLeft(lower, text, previous);
    assert IsCollapseOf(Collapse(text), text);
  }

  lemma EmptyPrintsNothing(lower: char -> char, previous: string)
    ensures NormalizeChunkText(lower, "", previous) == ""
  {
    assert Squeeze("", false) == "";
    StripFixed("");
  }

  // Nothing of the chunks is lost in print but what is repeated.
  lemma {:induction false} EverythingIsPrinted(lower: char -> char, chunks: seq<Speech>)
    ensures SaysAll(lower, chunks, PrintedLines(lower, chunks))
  {
    if chunks != [] {
      var n := |chunks| - 1;
      var p, c := PrintAll(lower, chunks[..n]), chunks[n];
      EverythingIsPrinted(lower, chunks[..n]);
      PreviousIsLast(lower, chunks[..n]);
      NormalizedSays(lower, c.text, p.previous);
      EmptyPrintsNothing(lower, p.previous);
      Snoc(p.lines, (c.sequence, NormalizeChunkText(lower, c.text, p.previous)));
    }
  }

  // ----- reading lines back

  predicate Names(read: string -> Option<(int, string)>, line: string, n: int) {
    read(line).Some? && read(line).value.0 == n
  }

  // Of every number the last line that names it is kept.
  lemma {:induction false} LastIsKept(read: string -> Option<(int, string)>, lines: seq<string>, n: int) returns (i: nat)
    ensures n in Gathered(read, lines) ==>
              && i < |lines| && read(lines[i]) == Some((n, Gathered(read, lines)[n]))
              && forall j :: i < j < |lines| ==> !Names(read, lines[j], n)
    ensures n !in Gathered(read, lines) ==> forall j :: 0 <= j < |lines| ==> !Names(read, lines[j], n)
  {
    i := 0;
    if lines != [] {
      var last := |lines| - 1;
      i := LastIsKept(read, lines[..last], n);
      if Names(read, lines[last], n) {
        i := last;
      }
    }
  }

  // A line that names a number says something.
  lemma SemanticLineMeans(line: string)
    ensures match SemanticLine(line)
            case Some(found) =>
              && MatchLine(line).Some? && MatchLine(line).value.0 == found.0
              && found.1 != "" && IsCollapseOf(found.1, MatchLine(line).value.1)
            case None => MatchLine(line).Some? ==> SameWords(MatchLine(line).value.1, "")
  {
    if MatchLine(line).Some? {
      CollapseKeepsWords(MatchLine(line).value.1);
    }
  }
}
