// Unpadded Base64url text of byte strings, and the decoder that reads it
// (services/auth/node_token.py). The alphabets are those of RFC 4648, sections 4 and 5.

module Base64Url {
  import opened Seqs
  import opened Text

  type byte = n: int | 0 <= n < 256

  type sextet = n: int | 0 <= n < 64

  // ----- bytes and sextets

  function Sextets(b: seq<byte>): seq<sextet> {
    if b == [] then []
    else if |b| == 1 then [b[0] / 4, b[0] % 4 * 16]
    else if |b| == 2 then [b[0] / 4, b[0] % 4 * 16 + b[1] / 16, b[1] % 16 * 4]
    else Quad(b[0], b[1], b[2]) + Sextets(b[3..])
  }

  function FirstByte(x: int, y: int): int {
    x * 4 + y / 16
  }

  function SecondByte(x: int, y: int): int {
    x % 16 * 16 + y / 4
  }

  function ThirdByte(x: int, y: int): int {
    x % 4 * 64 + y
  }

  function Bytes(s: seq<sextet>): seq<byte> {
    if |s| < 2 then []
    else if |s| == 2 then [FirstByte(s[0], s[1])]
    else if |s| == 3 then [FirstByte(s[0], s[1]), SecondByte(s[1], s[2])]
    else [FirstByte(s[0], s[1]), SecondByte(s[1], s[2]), ThirdByte(s[2], s[3])] + Bytes(s[4..])
  }

  lemma TripleBytes(x: byte, y: byte, z: byte)
    ensures FirstByte(x / 4, x % 4 * 16 + y / 16) == x
    ensures SecondByte(x % 4 * 16 + y / 16, y % 16 * 4 + z / 64) == y
    ensures ThirdByte(y % 16 * 4 + z / 64, z % 64) == z
  {
  }

  function Quad(x: byte, y: byte, z: byte): seq<sextet> {
    [x / 4, x % 4 * 16 + y / 16, y % 16 * 4 + z / 64, z % 64]
  }

  lemma BytesOfQuad(x: byte, y: byte, z: byte, rest: seq<sextet>)
    ensures Bytes(Quad(x, y, z) + rest) == [x, y, z] + Bytes(rest)
  {
    var s := Quad(x, y, z) + rest;
    TripleBytes(x, y, z);
    assert s[4..] == rest;
  }

  lemma {:induction false} SextetCount(b: seq<byte>)
    ensures |Sextets(b)| % 4 != 1
  {
    if |b| > 2 {
      SextetCount(b[3..]);
    }
  }

  lemma BytesOfOne(x: byte)
    ensures Bytes(Sextets([x])) == [x]
  {
    TripleBytes(x, 0, 0);
  }

  lemma BytesOfTwo(x: byte, y: byte)
    ensures Bytes(Sextets([x, y])) == [x, y]
  {
    TripleBytes(x, y, 0);
  }

  lemma {:induction false} BytesOfSextets(b: seq<byte>)
    ensures Bytes(Sextets(b)) == b
  {
    if |b| == 1 {
      assert b == [b[0]];
      BytesOfOne(b[0]);
    } else if |b| == 2 {
      assert b == [b[0], b[1]];
      BytesOfTwo(b[0], b[1]);
    } else if |b| > 2 {
      BytesOfSextets(b[3..]);
      BytesOfQuad(b[0], b[1], b[2], Sextets(b[3..]));
      assert b == [b[0], b[1], b[2]] + b[3..];
    }
  }

  // ----- alphabets

  function StdChar(s: sextet): char {
    if s < 26 then 'A' + s as char
    else if s < 52 then 'a' + (s - 26) as char
    else if s < 62 then '0' + (s - 52) as char
    else if s == 62 then '+' else '/'
  }

  function StdValue(c: char): Option<sextet> {
    if 'A' <= c <= 'Z' then Some(c as int - 'A' as int)
    else if 'a' <= c <= 'z' then Some(c as int - 'a' as int + 26)
    else if '0' <= c <= '9' then Some(c as int - '0' as int + 52)
    else if c == '+' then Some(62)
    else if c == '/' then Some(63)
    else None
  }

  lemma StdRoundTrip(s: sextet)
    ensures StdValue(StdChar(s)) == Some(s)
    ensures StdChar(s) != '=' && (StdChar(s) == '+' <==> s == 62) && (StdChar(s) == '/' <==> s == 63)
  {
  }

  function StdChars(s: seq<sextet>): (r: string)
    ensures |r| == |s|
  {
    if s == [] then "" else StdChars(s[..|s| - 1]) + [StdChar(s[|s| - 1])]
  }

  // ----- the encoder

  function Padding(length: nat): string {
    if length % 4 == 2 then "==" else if length % 4 == 3 then "=" else ""
  }

  // `base64.b64encode`
  function StdEncode(b: seq<byte>): string {
    StdChars(Sextets(b)) + Padding(|Sextets(b)|)
  }

  // `rstrip("=")`
  function WithoutPadding(s: string): string {
    if s != "" && s[|s| - 1] == '=' then WithoutPadding(s[..|s| - 1]) else s
  }

  // `replace("+", "-").replace("/", "_")`
  function UrlChar(c: char): char {
    if c == '+' then '-' else if c == '/' then '_' else c
  }

  function Replaced(s: string): (r: string)
    ensures |r| == |s|
  {
    if s == "" then "" else Replaced(s[..|s| - 1]) + [UrlChar(s[|s| - 1])]
  }

  // `_b64url`
  function Encode(b: seq<byte>): string {
    Replaced(WithoutPadding(StdEncode(b)))
  }

  // ----- the decoder

  // The sextets of a text, when it is made of the standard alphabet.
  function Values(s: string): Option<seq<sextet>> {
    if s == "" then Some([])
    else
      match (Values(s[..|s| - 1]), StdValue(s[|s| - 1]))
      case (Some(init), Some(last)) => Some(init + [last])
      case _ => None
  }

  // `"=" * ((4 - len(value) % 4) % 4)`
  function Missing(length: nat): string {
    match length % 4
    case 1 => "==="
    case 2 => "=="
    case 3 => "="
    case _ => ""
  }

  // `_b64url_decode`: padding is added, and the standard alphabet with at most
  // two padding characters is required.
  function Decode(value: string): Option<seq<byte>> {
    var padded := value + Missing(|value|);
    var core := WithoutPadding(padded);
    if |padded| - |core| > 2 then None
    else match Values(core) case None => None case Some(s) => Some(Bytes(s))
  }

  // ----- what the encoder produces

  lemma {:induction false} StdCharsAt(s: seq<sextet>, i: nat)
    requires i < |s|
    ensures StdChars(s)[i] == StdChar(s[i])
  {
    if i < |s| - 1 {
      StdCharsAt(s[..|s| - 1], i);
    }
  }

  lemma UnpaddedFixed(s: string)
    requires s == "" || s[|s| - 1] != '='
    ensures WithoutPadding(s) == s && WithoutPadding(s + "=") == s && WithoutPadding(s + "==") == s
  {
    Snoc(s, '=');
    assert s + "==" == s + "=" + ['='];
    Snoc(s + "=", '=');
  }

  lemma StdCharsUnpadded(s: seq<sextet>)
    ensures StdChars(s) == "" || StdChars(s)[|s| - 1] != '='
  {
    if s != [] {
      StdCharsAt(s, |s| - 1);
      StdRoundTrip(s[|s| - 1]);
    }
  }

  lemma {:induction false} ReplacedAt(s: string, i: nat)
    requires i < |s|
    ensures Replaced(s)[i] == UrlChar(s[i])
  {
    if i < |s| - 1 {
      ReplacedAt(s[..|s| - 1], i);
    }
  }

  lemma EncodeIs(b: seq<byte>)
    ensures Encode(b) == Replaced(StdChars(Sextets(b)))
  {
    StdCharsUnpadded(Sextets(b));
    UnpaddedFixed(StdChars(Sextets(b)));
    EmptyRight(StdChars(Sextets(b)));
  }

  lemma EncodedAt(b: seq<byte>, i: nat)
    requires i < |Sextets(b)|
    ensures |Encode(b)| == |Sextets(b)| && Encode(b)[i] == UrlChar(StdChar(Sextets(b)[i]))
  {
    EncodeIs(b);
    StdCharsAt(Sextets(b), i);
    ReplacedAt(StdChars(Sextets(b)), i);
  }

  lemma UrlCharInjective(s: sextet, t: sextet)
    requires UrlChar(StdChar(s)) == UrlChar(StdChar(t))
    ensures s == t
  {
  }

  // No two byte strings have the same text.
  lemma EncodeInjective(a: seq<byte>, b: seq<byte>)
    requires Encode(a) == Encode(b)
    ensures a == b
  {
    EncodeIs(a);
    EncodeIs(b);
    var s, t := Sextets(a), Sextets(b);
    assert |s| == |Encode(a)| == |t|;
    forall i | 0 <= i < |s|
      ensures s[i] == t[i]
    {
      EncodedAt(a, i);
      EncodedAt(b, i);
      UrlCharInjective(s[i], t[i]);
    }
    assert s == t;
    BytesOfSextets(a);
    BytesOfSextets(b);
  }

  // ----- what the decoder makes of it

  // Whether the standard text needs one of the two characters that are replaced.
  predicate UsesSpecial(s: seq<sextet>) {
    exists i :: 0 <= i < |s| && s[i] >= 62
  }

  lemma SpecialIsReplaced(b: seq<byte>)
    ensures UsesSpecial(Sextets(b)) <==> '+' in StdEncode(b) || '/' in StdEncode(b)
  {
    var s, text := Sextets(b), StdEncode(b);
    forall i | 0 <= i < |s|
      ensures text[i] == StdChar(s[i])
    {
      StdCharsAt(s, i);
    }
    if UsesSpecial(s) {
      var i :| 0 <= i < |s| && s[i] >= 62;
      assert text[i] in text;
    }
  }

  lemma {:induction false} ValuesOfChars(s: seq<sextet>)
    requires !UsesSpecial(s)
    ensures Values(Replaced(StdChars(s))) == Some(s)
  {
    if s != [] {
      var init, last := s[..|s| - 1], s[|s| - 1];
      assert last < 62;
      assert forall i :: 0 <= i < |init| ==> init[i] == s[i];
      ValuesOfChars(init);
      StdRoundTrip(last);
      Snoc(StdChars(init), StdChar(last));
      Snoc(Replaced(StdChars(init)), UrlChar(StdChar(last)));
      Whole(s);
    }
  }

  lemma {:induction false} SpecialHasNoValue(s: seq<sextet>)
    requires UsesSpecial(s)
    ensures Values(Replaced(StdChars(s))) == None
  {
    var init, last := s[..|s| - 1], s[|s| - 1];
    Snoc(StdChars(init), StdChar(last));
    Snoc(Replaced(StdChars(init)), UrlChar(StdChar(last)));
    if last < 62 {
      var i :| 0 <= i < |s| && s[i] >= 62;
      assert init[i] >= 62;
      SpecialHasNoValue(init);
    }
  }

  lemma DecodeOfEncode(b: seq<byte>)
    ensures Decode(Encode(b)) == match Values(Encode(b)) case None => None case Some(s) => Some(Bytes(s))
  {
    var value := Encode(b);
    SextetCount(b);
    EncodeIs(b);
    if value != "" {
      EncodedAt(b, |value| - 1);
      StdRoundTrip(Sextets(b)[|value| - 1]);
    }
    UnpaddedFixed(value);
    EmptyRight(value);
  }

  // The text is read back exactly when the standard text needs neither `+` nor `/`.
  lemma RoundTripExactly(b: seq<byte>)
    ensures Decode(Encode(b)) == Some(b) <==> '+' !in StdEncode(b) && '/' !in StdEncode(b)
    ensures Decode(Encode(b)) == Some(b) || Decode(Encode(b)) == None
  {
    SpecialIsReplaced(b);
    DecodeOfEncode(b);
    EncodeIs(b);
    BytesOfSextets(b);
    if UsesSpecial(Sextets(b)) {
      SpecialHasNoValue(Sextets(b));
    } else {
      ValuesOfChars(Sextets(b));
    }
  }

  // ----- ASCII text

  predicate IsAscii(b: seq<byte>) {
    forall i :: 0 <= i < |b| ==> b[i] < 128
  }

  predicate IsRisky(n: byte) {
    n == 62 || n == 63 || n == 126 || n == 127
  }

  predicate HasRiskyThird(b: seq<byte>) {
    exists i :: 0 <= i < |b| && i % 3 == 2 && IsRisky(b[i])
  }

  lemma RiskySplits(b: seq<byte>)
    requires |b| >= 3
    ensures HasRiskyThird(b) <==> IsRisky(b[2]) || HasRiskyThird(b[3..])
  {
    var rest := b[3..];
    if HasRiskyThird(rest) {
      var i :| 0 <= i < |rest| && i % 3 == 2 && IsRisky(rest[i]);
      assert b[i + 3] == rest[i] && (i + 3) % 3 == 2;
    }
    if HasRiskyThird(b) && !IsRisky(b[2]) {
      var i :| 0 <= i < |b| && i % 3 == 2 && IsRisky(b[i]);
      assert i >= 3 && rest[i - 3] == b[i] && (i - 3) % 3 == 2;
    }
  }

  lemma SpecialSplits(a: seq<sextet>, b: seq<sextet>)
    ensures UsesSpecial(a + b) <==> UsesSpecial(a) || UsesSpecial(b)
  {
    if UsesSpecial(a) {
      var i :| 0 <= i < |a| && a[i] >= 62;
      assert (a + b)[i] >= 62;
    }
    if UsesSpecial(b) {
      var i :| 0 <= i < |b| && b[i] >= 62;
      assert (a + b)[|a| + i] >= 62;
    }
  }

  lemma AsciiSextets(x: byte, y: byte, z: byte)
    requires x < 128 && y < 128 && z < 128
    ensures x / 4 < 62 && x % 4 * 16 + y / 16 < 62 && y % 16 * 4 + z / 64 < 62
    ensures z % 64 >= 62 <==> IsRisky(z)
  {
  }

  lemma TripleSpecial(x: byte, y: byte, z: byte)
    requires x < 128 && y < 128 && z < 128
    ensures UsesSpecial(Quad(x, y, z)) <==> IsRisky(z)
  {
    var s := Quad(x, y, z);
    AsciiSextets(x, y, z);
    assert s[3] == z % 64;
  }

  lemma {:induction false} AsciiSpecial(b: seq<byte>)
    requires IsAscii(b)
    ensures UsesSpecial(Sextets(b)) <==> HasRiskyThird(b)
  {
    if |b| > 2 {
      AsciiSpecial(b[3..]);
      RiskySplits(b);
      TripleSpecial(b[0], b[1], b[2]);
      SpecialSplits(Quad(b[0], b[1], b[2]), Sextets(b[3..]));
    }
  }

  // ASCII text is read back unless its third, sixth, ... character is one of `>`, `?`, `~` and DEL.
  lemma AsciiRoundTrip(b: seq<byte>)
    requires IsAscii(b)
    ensures Decode(Encode(b)) == Some(b) <==> !HasRiskyThird(b)
  {
    AsciiSpecial(b);
    SpecialIsReplaced(b);
    RoundTripExactly(b);
  }

  lemma RiskyText()
    ensures Encode([97, 97, 62]) == "YWE-"
  {
    var b: seq<byte> := [97, 97, 62];
    assert Sextets(b) == [24, 22, 4, 62];
    EncodedAt(b, 0);
    EncodedAt(b, 1);
    EncodedAt(b, 2);
    EncodedAt(b, 3);
  }

  // The bytes of "aa>" are written as a text that is not read back.
  lemma RiskyTextIsRefused()
    ensures Encode([97, 97, 62]) == "YWE-" && Decode("YWE-") == None
  {
    var b: seq<byte> := [97, 97, 62];
    RiskyText();
    assert IsRisky(b[2]);
    AsciiRoundTrip(b);
    RoundTripExactly(b);
  }

  // ----- the sextets are the bytes, written in base 64

  // Four sextets and three bytes make the same number of 24 bits.
  predicate SameNumber(p: int, q: int, r: int, s: int, x: int, y: int, z: int) {
    262144 * p + 4096 * q + 64 * r + s == 65536 * x + 256 * y + z
  }

  lemma QuadIsNumber(x: byte, y: byte, z: byte)
    ensures SameNumber(x / 4, x % 4 * 16 + y / 16, y % 16 * 4 + z / 64, z % 64, x, y, z)
  {
  }

  lemma SextetsInFront(b: seq<byte>, i: nat)
    requires |b| > 2
    ensures |Sextets(b)| == |Sextets(b[3..])| + 4
    ensures i < |Sextets(b[3..])| ==> Sextets(b)[i + 4] == Sextets(b[3..])[i]
  {
  }

  // The k-th four sextets make the number of the k-th three bytes.
  lemma {:induction false} GroupsAreNumbers(b: seq<byte>, k: nat)
    requires 3 * k + 2 < |b|
    ensures var s, i, j := Sextets(b), 4 * k, 3 * k;
            i + 3 < |s| && SameNumber(s[i], s[i + 1], s[i + 2], s[i + 3], b[j], b[j + 1], b[j + 2])
  {
    if k == 0 {
      QuadIsNumber(b[0], b[1], b[2]);
    } else {
      var i := 4 * (k - 1);
      GroupsAreNumbers(b[3..], k - 1);
      SextetsInFront(b, i);
      SextetsInFront(b, i + 1);
      SextetsInFront(b, i + 2);
      SextetsInFront(b, i + 3);
    }
  }

  // One or two bytes that are left over make the number of their sextets, filled
  // up with zeros.
  lemma {:induction false} RestIsNumber(b: seq<byte>, k: nat)
    requires 3 * k < |b| <= 3 * k + 2
    ensures var s, i, j := Sextets(b), 4 * k, 3 * k;
            if |b| == j + 1 then |s| == i + 2 && SameNumber(s[i], s[i + 1], 0, 0, b[j], 0, 0)
            else |s| == i + 3 && SameNumber(s[i], s[i + 1], s[i + 2], 0, b[j], b[j + 1], 0)
  {
    if k == 0 {
      QuadIsNumber(b[0], if |b| == 2 then b[1] else 0, 0);
    } else {
      var i := 4 * (k - 1);
      RestIsNumber(b[3..], k - 1);
      SextetsInFront(b, i);
      SextetsInFront(b, i + 1);
      SextetsInFront(b, i + 2);
    }
  }

  lemma {:induction false} SextetLength(b: seq<byte>, k: nat)
    requires |b| <= 3 * k < |b| + 3
    ensures |Sextets(b)| == |b| + k
  {
    if |b| > 2 {
      SextetLength(b[3..], k - 1);
    }
  }

  // Padding makes the text one of k whole groups of four characters, one for
  // every three bytes begun.
  lemma PaddedToFour(b: seq<byte>, k: nat)
    requires |b| <= 3 * k < |b| + 3
    ensures |StdEncode(b)| == 4 * k
  {
    SextetLength(b, k);
  }

  lemma {:induction false} ValuesExactly(s: string)
    ensures Values(s).Some? <==> forall i :: 0 <= i < |s| ==> StdValue(s[i]).Some?
  {
    if s != "" {
      ValuesExactly(s[..|s| - 1]);
    }
  }

  // A text without padding is read when its length leaves no single character
  // over and all of it is in the standard alphabet; it is refused otherwise.
  lemma DecodesExactly(value: string)
    requires value == "" || value[|value| - 1] != '='
    ensures Decode(value).Some? <==> |value| % 4 != 1 && forall i :: 0 <= i < |value| ==> StdValue(value[i]).Some?
  {
    UnpaddedFixed(value);
    ValuesExactly(value);
    EmptyRight(value);
    assert value + "===" == value + "==" + ['='];
    Snoc(value + "==", '=');
  }
}
