// Text handling shared by the printers and the parsers of a window's transcript.
//
// A string is a sequence of code points. White space and line breaks are the
// sets Python uses for `\s`, `str.strip`, `str.split` and `str.splitlines`.

module Text {

  datatype Option<+T> = None | Some(value: T)

  predicate IsSpace(c: char) {
    var n := c as int;
    || 9 <= n <= 13 || 28 <= n <= 32 || n == 0x85 || n == 0xA0 || n == 0x1680
    || 0x2000 <= n <= 0x200A || n == 0x2028 || n == 0x2029 || n == 0x202F || n == 0x205F || n == 0x3000
  }

  predicate IsLineBreak(c: char) {
    var n := c as int;
    10 <= n <= 13 || 28 <= n <= 30 || n == 0x85 || n == 0x2028 || n == 0x2029
  }

  predicate NotLineBreak(c: char) {
    !IsLineBreak(c)
  }

  predicate IsDigit(c: char) {
    '0' <= c <= '9'
  }

  predicate NotBracket(c: char) {
    c != ']'
  }

  predicate IsSeparator(c: char) {
    c == ' ' || c == ',' || c == '.' || c == '-'
  }

  // ----- scanning

  // The first position from `i` on whose character does not satisfy `p`.
  function Skip(p: char -> bool, s: string, i: nat): (k: nat)
    requires i <= |s|
    ensures i <= k <= |s|
    ensures k < |s| ==> !p(s[k])
    decreases |s| - i
  {
    if i < |s| && p(s[i]) then Skip(p, s, i + 1) else i
  }

  lemma {:induction false} SkipsOver(p: char -> bool, s: string, i: nat)
    requires i <= |s|
    ensures forall j :: i <= j < Skip(p, s, i) ==> p(s[j])
    decreases |s| - i
  {
    if i < |s| && p(s[i]) {
      SkipsOver(p, s, i + 1);
    }
  }

  lemma {:induction false} SkipsTo(p: char -> bool, s: string, i: nat, k: nat)
    requires i <= k <= |s| && (forall j :: i <= j < k ==> p(s[j])) && (k < |s| ==> !p(s[k]))
    ensures Skip(p, s, i) == k
    decreases k - i
  {
    if i < k {
      SkipsTo(p, s, i + 1, k);
    }
  }

  // The end of `s[..n]` without the white space that ends it.
  function TrimmedEnd(s: string, n: nat): (k: nat)
    requires n <= |s|
    ensures k <= n && (k > 0 ==> !IsSpace(s[k - 1]))
  {
    if n > 0 && IsSpace(s[n - 1]) then TrimmedEnd(s, n - 1) else n
  }

  predicate IsSuffix(t: string, s: string) {
    |t| <= |s| && s[|s| - |t|..] == t
  }

  function DropWhile(p: char -> bool, s: string): string {
    s[Skip(p, s, 0)..]
  }

  function LStrip(s: string): string {
    DropWhile(IsSpace, s)
  }

  function RStrip(s: string): string {
    s[..TrimmedEnd(s, |s|)]
  }

  function Strip(s: string): string {
    RStrip(LStrip(s))
  }

  predicate Bare(s: string) {
    s != "" && !IsSpace(s[0]) && !IsSpace(s[|s| - 1])
  }

  lemma StripIsBare(s: string)
    ensures Strip(s) == "" || Bare(Strip(s))
  {
  }

  lemma StripFixed(s: string)
    requires s == "" || Bare(s)
    ensures LStrip(s) == s && Strip(s) == s
  {
  }

  lemma BlankThenText(s: string)
    requires |s| > 1 && s[0] == ' ' && Bare(s[1..])
    ensures LStrip(s) == s[1..] && Strip(s) == s[1..]
  {
    SkipsTo(IsSpace, s, 0, 1);
    StripFixed(s[1..]);
  }

  // ----- collapsing white space

  // Every maximal run of white space becomes one blank.
  function Squeeze(s: string, afterSpace: bool): string {
    if s == "" then ""
    else if IsSpace(s[0]) then (if afterSpace then "" else " ") + Squeeze(s[1..], true)
    else [s[0]] + Squeeze(s[1..], false)
  }

  // `" ".join(text.split())`, which is also `re.sub(r"\s+", " ", text).strip()`.
  function Collapse(s: string): string {
    Strip(Squeeze(s, false))
  }

  // White space occurs only as single blanks.
  predicate Tight(s: string) {
    && (forall i :: 0 <= i < |s| && IsSpace(s[i]) ==> s[i] == ' ')
    && (forall i, j :: 0 <= i < |s| && j == i + 1 < |s| ==> s[i] != ' ' || s[j] != ' ')
  }

  predicate Collapsed(s: string) {
    Tight(s) && (s == "" || Bare(s))
  }

  lemma CollapseIsCollapsed(s: string)
    ensures Collapsed(Collapse(s))
  {
    SqueezeIsTight(s, false);
    var q := Squeeze(s, false);
    var l := LStrip(q);
    StripIsBare(q);
    SliceIsTight(q, |q| - |l|, |q|);
    SliceIsTight(l, 0, |RStrip(l)|);
  }

  lemma {:induction false} SqueezeIsTight(s: string, afterSpace: bool)
    ensures Tight(Squeeze(s, afterSpace))
    ensures afterSpace && Squeeze(s, afterSpace) != "" ==> Squeeze(s, afterSpace)[0] != ' '
  {
    if s != "" {
      SqueezeIsTight(s[1..], IsSpace(s[0]));
    }
  }

  lemma SliceIsTight(s: string, lo: nat, hi: nat)
    requires Tight(s) && lo <= hi <= |s|
    ensures Tight(s[lo..hi])
  {
    assert forall i :: 0 <= i < hi - lo ==> s[lo..hi][i] == s[lo + i];
  }

  lemma {:induction false} SqueezeFixed(s: string, afterSpace: bool)
    requires Tight(s)
    requires afterSpace && s != "" ==> s[0] != ' '
    ensures Squeeze(s, afterSpace) == s
  {
    if s != "" {
      SliceIsTight(s, 1, |s|);
      SqueezeFixed(s[1..], IsSpace(s[0]));
    }
  }

  lemma CollapseFixed(s: string)
    requires Collapsed(s)
    ensures Collapse(s) == s && Strip(s) == s
  {
    SqueezeFixed(s, false);
    StripFixed(s);
  }

  // ----- removing the words a chunk repeats from its predecessor

  predicate OccursAt(hay: string, needle: string, i: nat)
    requires i + |needle| <= |hay|
  {
    hay[i..i + |needle|] == needle
  }

  predicate Contains(hay: string, needle: string) {
    exists i :: 0 <= i <= |hay| - |needle| && OccursAt(hay, needle, i)
  }

  function Lowered(lower: char -> char, s: string): (t: string)
    ensures |t| == |s|
    ensures forall i :: 0 <= i < |s| ==> t[i] == lower(s[i])
  {
    seq(|s|, i requires 0 <= i < |s| => lower(s[i]))
  }

  function Tail(s: string, n: nat): string {
    if |s| <= n then s else s[|s| - n..]
  }

  predicate Echoes(lower: char -> char, text: string, previous: string, size: int) {
    8 <= size <= 80 && size <= |text| && Contains(Lowered(lower, Tail(previous, 120)), Lowered(lower, text)[..size])
  }

  // The longest prefix of `text`, at most `limit` long, that occurs in the last
  // 120 characters of `previous`; 0 when none of 8 or more characters does.
  function EchoSize(lower: char -> char, text: string, previous: string, limit: nat): (size: nat)
    ensures size <= limit
  {
    if limit < 8 then 0
    else if Echoes(lower, text, previous, limit) then limit
    else EchoSize(lower, text, previous, limit - 1)
  }

  lemma {:induction false} EchoSizeIsLargest(lower: char -> char, text: string, previous: string, limit: nat)
    ensures var size := EchoSize(lower, text, previous, limit);
            && (size == 0 || Echoes(lower, text, previous, size))
            && forall k :: size < k <= limit ==> !Echoes(lower, text, previous, k)
  {
    if limit >= 8 && !Echoes(lower, text, previous, limit) {
      EchoSizeIsLargest(lower, text, previous, limit - 1);
    }
  }

  // Where the last 120 characters start.
  function LateFrom(s: string): (from: nat)
    ensures from <= |s|
  {
    if |s| <= 120 then 0 else |s| - 120
  }

  // An occurrence in the lowered tail reads, letter by letter, like the opening.
  lemma OccursAlike(lower: char -> char, text: string, tail: string, size: nat, i: nat)
    requires size <= |text| && i + size <= |tail|
    ensures OccursAt(Lowered(lower, tail), Lowered(lower, text)[..size], i) <==> SaysAlike(lower, tail, text, size, i)
  {
    var here, opening := Lowered(lower, tail)[i..i + size], Lowered(lower, text)[..size];
    assert forall k :: 0 <= k < size ==> here[k] == lower(tail[i + k]) && opening[k] == lower(text[k]);
    if SaysAlike(lower, tail, text, size, i) {
      assert here == opening;
    }
  }

  lemma TailReads(lower: char -> char, text: string, s: string, size: nat, i: nat)
    requires size <= |text|
    ensures SaysAlike(lower, Tail(s, 120), text, size, i) <==> SaysAlike(lower, s, text, size, LateFrom(s) + i)
  {
    var tail, from := Tail(s, 120), LateFrom(s);
    assert forall k :: 0 <= k < |tail| ==> tail[k] == s[from + k];
    if SaysAlike(lower, s, text, size, from + i) {
      assert forall k :: 0 <= k < size ==> lower(s[from + i + k]) == lower(text[k]);
    }
  }

  // What that occurrence means, letter by letter.
  lemma EchoMeans(lower: char -> char, text: string, previous: string, size: int)
    ensures Echoes(lower, text, previous, size) <==>
            && 8 <= size <= 80 && size <= |text|
            && exists i :: |previous| - 120 <= i && SaysAlike(lower, previous, text, size, i)
  {
    var from, tail := LateFrom(previous), Tail(previous, 120);
    if Echoes(lower, text, previous, size) {
      var i :| 0 <= i <= |tail| - size && OccursAt(Lowered(lower, tail), Lowered(lower, text)[..size], i);
      OccursAlike(lower, text, tail, size, i);
      TailReads(lower, text, previous, size, i);
    }
    if 8 <= size <= 80 && size <= |text| && exists i :: |previous| - 120 <= i && SaysAlike(lower, previous, text, size, i) {
      var i :| |previous| - 120 <= i && SaysAlike(lower, previous, text, size, i);
      TailReads(lower, text, previous, size, i - from);
      OccursAlike(lower, text, tail, size, i - from);
    }
  }

  // From `i` on, `previous` reads like the first `size` letters of `text`.
  predicate SaysAlike(lower: char -> char, previous: string, text: string, size: int, i: int) {
    0 <= i <= |previous| - size && 0 <= size <= |text| && forall k :: 0 <= k < size ==> lower(previous[i + k]) == lower(text[k])
  }

  // Dropping the separators behind the first `size` characters.
  lemma SeparatorsDropped(whole: string, size: nat) returns (k: nat)
    requires size <= |whole|
    ensures size <= k <= |whole| && DropWhile(IsSeparator, whole[size..]) == whole[k..]
    ensures (k < |whole| ==> !IsSeparator(whole[k])) && forall j :: size <= j < k ==> IsSeparator(whole[j])
  {
    var behind := whole[size..];
    var n := Skip(IsSeparator, behind, 0);
    SkipsOver(IsSeparator, behind, 0);
    k := size + n;
    assert behind[n..] == whole[k..];
    assert forall j :: size <= j < k ==> whole[j] == behind[j - size];
  }

  // What is left of a chunk behind the opening it repeats.
  lemma OpeningIsRemoved(lower: char -> char, text: string, previous: string) returns (k: nat)
    ensures var whole := Collapse(text);
            var size := EchoSize(lower, whole, previous, if |whole| < 80 then |whole| else 80);
            && size <= k <= |whole| && NormalizeChunkText(lower, text, previous) == whole[k..]
            && (size == 0 ==> k == 0)
            && (size > 0 ==> (k < |whole| ==> !IsSeparator(whole[k])) && forall j :: size <= j < k ==> IsSeparator(whole[j]))
  {
    var whole := Collapse(text);
    var size := EchoSize(lower, whole, previous, if |whole| < 80 then |whole| else 80);
    k := 0;
    if size > 0 {
      k := SeparatorsDropped(whole, size);
    }
  }

  function NormalizeChunkText(lower: char -> char, text: string, previous: string): string {
    var whole := Collapse(text);
    var size := EchoSize(lower, whole, previous, if |whole| < 80 then |whole| else 80);
    if size == 0 then whole else DropWhile(IsSeparator, whole[size..])
  }

  method NormalizeChunk(lower: char -> char, text: string, previous: string) returns (t: string)
    ensures t == NormalizeChunkText(lower, text, previous)
  {
    t := Collapse(text);
    if t == "" {
      return;
    }
    var previousTail := Lowered(lower, Tail(previous, 120));
    var lowered := Lowered(lower, t);
    var limit := if |t| < 80 then |t| else 80;
    var size := limit;
    while size > 7
      invariant size <= limit
      invariant t == Collapse(text)
      invariant EchoSize(lower, t, previous, limit) == EchoSize(lower, t, previous, if size < 0 then 0 else size)
    {
      if Contains(previousTail, lowered[..size]) {
        assert Echoes(lower, t, previous, size);
        t := DropWhile(IsSeparator, t[size..]);
        return;
      }
      size := size - 1;
    }
  }

  // What is kept of a chunk is collapsed and ends the chunk's collapsed text;
  // it is all of it when nothing of the chunk echoes its predecessor.
  lemma NormalizedText(lower: char -> char, text: string, previous: string)
    ensures var t := NormalizeChunkText(lower, text, previous);
            && Collapsed(t) && IsSuffix(t, Collapse(text))
            && ((forall k :: !Echoes(lower, Collapse(text), previous, k)) ==> t == Collapse(text))
  {
    var whole := Collapse(text);
    var limit := if |whole| < 80 then |whole| else 80;
    CollapseIsCollapsed(text);
    EchoSizeIsLargest(lower, whole, previous, limit);
    var size := EchoSize(lower, whole, previous, limit);
    DroppedSuffix(whole, size);
  }

  lemma DroppedSuffix(s: string, size: nat)
    requires Collapsed(s) && size <= |s|
    ensures Collapsed(DropWhile(IsSeparator, s[size..])) && IsSuffix(DropWhile(IsSeparator, s[size..]), s)
  {
    var rest := s[size..];
    var k := Skip(IsSeparator, rest, 0);
    assert rest[k..] == s[size + k..];
    SuffixCollapsed(s, size + k);
  }

  lemma SuffixCollapsed(s: string, k: nat)
    requires Collapsed(s) && k <= |s| && (k < |s| ==> s[k] != ' ')
    ensures Collapsed(s[k..]) && IsSuffix(s[k..], s)
  {
    SliceIsTight(s, k, |s|);
  }

  lemma NothingToEcho(lower: char -> char, text: string)
    ensures NormalizeChunkText(lower, text, "") == Collapse(text)
  {
    NormalizedText(lower, text, "");
  }

  // ----- decimal numbers

  predicate Digits(s: string) {
    forall i :: 0 <= i < |s| ==> IsDigit(s[i])
  }

  function Digit(n: nat): (c: char)
    requires n < 10
    ensures IsDigit(c)
  {
    ('0' as int + n) as char
  }

  function Decimal(n: nat): (s: string)
    ensures s != "" && Digits(s)
  {
    if n < 10 then [Digit(n)] else Decimal(n / 10) + [Digit(n % 10)]
  }

  function DigitsValue(s: string): nat
    requires Digits(s)
  {
    if s == "" then 0
    else
      assert IsDigit(s[|s| - 1]);
      10 * DigitsValue(s[..|s| - 1]) + (s[|s| - 1] as int - '0' as int)
  }

  lemma {:induction false} DecimalRoundTrip(n: nat)
    ensures DigitsValue(Decimal(n)) == n
  {
    if n >= 10 {
      var s := Decimal(n);
      assert s[..|s| - 1] == Decimal(n / 10);
      DecimalRoundTrip(n / 10);
    }
  }

  // ----- lines

  // `str.splitlines`: a carriage return and a line feed together end one line.
  function SplitLines(s: string): seq<string>
    decreases |s|
  {
    if s == "" then []
    else
      var k := Skip(NotLineBreak, s, 0);
      if k == |s| then [s]
      else
        var next := if s[k] == '\r' && k + 1 < |s| && s[k + 1] == '\n' then k + 2 else k + 1;
        [s[..k]] + SplitLines(s[next..])
  }

  function JoinLines(lines: seq<string>): string {
    if lines == [] then ""
    else if |lines| == 1 then lines[0]
    else lines[0] + "\n" + JoinLines(lines[1..])
  }

  predicate OneLine(s: string) {
    s != "" && forall i :: 0 <= i < |s| ==> NotLineBreak(s[i])
  }

  lemma {:induction false} SplitJoined(lines: seq<string>)
    requires forall line :: line in lines ==> OneLine(line)
    ensures SplitLines(JoinLines(lines)) == lines
  {
    assert lines != [] ==> lines[0] in lines;
    if |lines| == 1 {
      SkipsTo(NotLineBreak, lines[0], 0, |lines[0]|);
    } else if |lines| > 1 {
      SplitJoined(lines[1..]);
      SplitFirst(lines[0], JoinLines(lines[1..]));
    }
  }

  lemma SplitFirst(line: string, rest: string)
    requires OneLine(line)
    ensures SplitLines(line + "\n" + rest) == [line] + SplitLines(rest)
  {
    var s := line + "\n" + rest;
    assert s[..|line|] == line && s[|line| + 1..] == rest;
    SkipsTo(NotLineBreak, s, 0, |line|);
  }

  // ----- one printed line, and the two ways it is read back

  function PrintLine(number: nat, text: string): string {
    "[" + Decimal(number) + "] " + text
  }

  // The regular expression `^\s*\[(\d+)\]\s*(.*)$` on one line.
  function MatchLine(line: string): Option<(nat, string)> {
    var s := LStrip(line);
    if s == "" || s[0] != '[' then None else MatchNumber(s[1..])
  }

  function MatchNumber(s: string): Option<(nat, string)> {
    var k := Skip(IsDigit, s, 0);
    SkipsOver(IsDigit, s, 0);
    if k == 0 || k == |s| || s[k] != ']' then None
    else Some((DigitsValue(s[..k]), LStrip(s[k + 1..])))
  }

  // One line as `_sequence_map` reads it: the text up to the first `]` is the marker.
  function MarkerLine(raw: string): Option<(int, string)> {
    var s := Strip(raw);
    if s == "" || s[0] != '[' then None else Marker(s[1..])
  }

  function Marker(s: string): Option<(int, string)> {
    var k := Skip(NotBracket, s, 0);
    if k == |s| then None
    else
      match PythonInt(s[..k])
      case None => None
      case Some(n) => Some((n, Strip(s[k + 1..])))
  }

  // `int(...)` of a marker: blanks around it, a sign, digits with single underscores between them.
  function PythonInt(marker: string): Option<int> {
    SignedNat(Strip(marker))
  }

  function SignedNat(s: string): Option<int> {
    if s != "" && s[0] == '-' then
      match PythonNat(s[1..])
      case None => None
      case Some(n) => Some(-n)
    else PythonNat(if s != "" && s[0] == '+' then s[1..] else s)
  }

  function PythonNat(s: string): Option<int> {
    if s == "" || !IsDigit(s[|s| - 1]) then None
    else if |s| == 1 then Some(s[0] as int - '0' as int)
    else
      var init := s[..|s| - 1];
      match PythonNat(if init[|init| - 1] == '_' then init[..|init| - 1] else init)
      case None => None
      case Some(n) => Some(10 * n + (s[|s| - 1] as int - '0' as int))
  }

  lemma {:induction false} PythonNatOfDigits(s: string)
    requires s != "" && Digits(s)
    ensures PythonNat(s) == Some(DigitsValue(s))
  {
    assert IsDigit(s[|s| - 1]);
    if |s| > 1 {
      var init := s[..|s| - 1];
      assert IsDigit(init[|init| - 1]);
      PythonNatOfDigits(init);
    }
  }

  lemma PythonIntOfDigits(s: string)
    requires s != "" && Digits(s)
    ensures PythonInt(s) == Some(DigitsValue(s))
  {
    assert Bare(s) by { assert IsDigit(s[0]) && IsDigit(s[|s| - 1]); }
    StripFixed(s);
    SignedOfDigits(s);
  }

  lemma SignedOfDigits(s: string)
    requires s != "" && Digits(s)
    ensures SignedNat(s) == Some(DigitsValue(s))
  {
    assert IsDigit(s[0]);
    PythonNatOfDigits(s);
  }

  lemma Halves(a: string, b: string)
    requires b != ""
    ensures (a + b)[..|a|] == a && (a + b)[|a|] == b[0] && (a + b)[|a| + 1..] == b[1..]
  {
  }

  lemma MatchDigits(digits: string, rest: string, text: string)
    requires digits != "" && Digits(digits)
    requires rest != "" && rest[0] == ']' && LStrip(rest[1..]) == text
    ensures MatchNumber(digits + rest) == Some((DigitsValue(digits), text))
  {
    Halves(digits, rest);
    SkipsTo(IsDigit, digits + rest, 0, |digits|);
  }

  lemma MarkerDigits(digits: string, rest: string, text: string)
    requires digits != "" && Digits(digits)
    requires rest != "" && rest[0] == ']' && Strip(rest[1..]) == text
    ensures Marker(digits + rest) == Some((DigitsValue(digits), text))
  {
    Halves(digits, rest);
    assert forall i :: 0 <= i < |digits| ==> IsDigit(digits[i]) && (digits + rest)[i] == digits[i];
    SkipsTo(NotBracket, digits + rest, 0, |digits|);
    PythonIntOfDigits(digits);
  }

  lemma PrintedLineParses(number: nat, text: string)
    requires Collapsed(text) && text != ""
    ensures OneLine(PrintLine(number, text))
    ensures Strip(PrintLine(number, text)) == PrintLine(number, text) && Bare(PrintLine(number, text))
    ensures MatchLine(PrintLine(number, text)) == Some((number, text))
    ensures MarkerLine(PrintLine(number, text)) == Some((number, text))
  {
    var digits, rest := Decimal(number), "] " + text;
    var line := PrintLine(number, text);
    LineEnds(digits, text);
    StripFixed(line);
    assert line[1..] == digits + rest;
    assert rest[1..][1..] == text;
    BlankThenText(rest[1..]);
    DecimalRoundTrip(number);
    MatchDigits(digits, rest, text);
    MarkerDigits(digits, rest, text);
  }

  lemma LineEnds(digits: string, text: string)
    requires Digits(digits) && Tight(text) && Bare(text)
    ensures OneLine("[" + digits + "] " + text) && Bare("[" + digits + "] " + text)
  {
    var line := "[" + digits + "] " + text;
    assert line[|line| - 1] == text[|text| - 1];
    forall i | 0 <= i < |line|
      ensures NotLineBreak(line[i])
    {
      if 1 <= i < |digits| + 1 {
        assert line[i] == digits[i - 1];
      } else if i >= |digits| + 3 {
        assert line[i] == text[i - |digits| - 3];
      }
    }
  }
}
