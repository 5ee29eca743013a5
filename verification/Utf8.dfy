/** UTF-8 byte sequences, as defined by section 4 of RFC 3629. */
module Utf8 {
  import opened Prelude

  predicate Tail(b: byte) {
    0x80 <= b <= 0xBF
  }

  /** Number of bytes of the well-formed character at the head of `s`; zero when there is none. */
  function CharLength(s: seq<byte>): (n: nat)
    ensures n <= 4 && n <= |s|
    ensures n > 0 ==> !Tail(s[0])
    ensures forall k :: 0 < k < n ==> Tail(s[k])
  {
    if |s| >= 1 && s[0] <= 0x7F then 1
    else if |s| >= 2 && 0xC2 <= s[0] <= 0xDF && Tail(s[1]) then 2
    else if |s| >= 3 && Tail(s[2]) && LeadsThree(s[0], s[1]) then 3
    else if |s| >= 4 && Tail(s[2]) && Tail(s[3]) && LeadsFour(s[0], s[1]) then 4
    else 0
  }

  predicate LeadsThree(first: byte, second: byte) {
    || (first == 0xE0 && 0xA0 <= second <= 0xBF)
    || (0xE1 <= first <= 0xEC && Tail(second))
    || (first == 0xED && 0x80 <= second <= 0x9F)
    || (0xEE <= first <= 0xEF && Tail(second))
  }

  predicate LeadsFour(first: byte, second: byte) {
    || (first == 0xF0 && 0x90 <= second <= 0xBF)
    || (0xF1 <= first <= 0xF3 && Tail(second))
    || (first == 0xF4 && 0x80 <= second <= 0x8F)
  }

  predicate Valid(s: seq<byte>)
    decreases |s|
  {
    s == [] || (CharLength(s) > 0 && Valid(s[CharLength(s)..]))
  }

  /** The contents of a string value: bytes that are valid UTF-8. */
  type Text = s: seq<byte> | Valid(s) witness []

  /** A position at which a string may be cut: an end, or a byte that starts a character. */
  predicate IsBoundary(s: seq<byte>, i: nat) {
    i <= |s| && (i == 0 || i == |s| || !Tail(s[i]))
  }

  lemma CharLengthOfPrefix(s: seq<byte>, i: nat)
    requires 0 < CharLength(s) <= i <= |s|
    ensures CharLength(s[..i]) == CharLength(s)
  {
  }

  lemma CharLengthOfConcat(s: seq<byte>, t: seq<byte>)
    requires CharLength(s) > 0
    ensures CharLength(s + t) == CharLength(s)
  {
    assert (s + t)[..|s|] == s;
  }

  lemma {:induction false} ValidConcat(s: seq<byte>, t: seq<byte>)
    requires Valid(s) && Valid(t)
    ensures Valid(s + t)
    decreases |s|
  {
    if s == [] {
      assert s + t == t;
    } else {
      var n := CharLength(s);
      CharLengthOfConcat(s, t);
      assert (s + t)[n..] == s[n..] + t;
      ValidConcat(s[n..], t);
    }
  }

  /** Cutting a valid string keeps both halves valid exactly at a character boundary. */
  lemma {:induction false} BoundaryIffPrefixValid(s: seq<byte>, i: nat)
    requires Valid(s) && i <= |s|
    ensures IsBoundary(s, i) <==> Valid(s[..i])
    ensures IsBoundary(s, i) ==> Valid(s[i..])
    decreases |s|
  {
    var n := CharLength(s);
    if i == 0 || s == [] {
      assert s[..i] == [] && s[i..] == s;
    } else if i >= n {
      CharLengthOfPrefix(s, i);
      BoundaryIffPrefixValid(s[n..], i - n);
      assert s[..i][n..] == s[n..][..i - n];
      assert s[n..][i - n..] == s[i..];
      assert i < |s| ==> s[n..][i - n] == s[i];
      if i == n && i < |s| {
        assert s[n..] != [] && CharLength(s[n..]) > 0;
      }
    }
  }

  /** Going back from any position reaches a boundary within three steps. */
  lemma {:induction false} BoundaryWithinThree(s: seq<byte>, i: nat)
    requires Valid(s) && i <= |s|
    ensures exists j: nat :: i - 3 <= j <= i && IsBoundary(s, j)
    decreases |s|
  {
    var n := CharLength(s);
    if i < n || s == [] {
      assert IsBoundary(s, 0);
    } else if i == n {
      if i < |s| {
        assert CharLength(s[n..]) > 0;
      }
      assert IsBoundary(s, i);
    } else {
      BoundaryWithinThree(s[n..], i - n);
      var j: nat :| i - n - 3 <= j <= i - n && IsBoundary(s[n..], j);
      if j == 0 {
        assert CharLength(s[n..]) > 0 && s[n..][0] == s[n];
      } else if n + j < |s| {
        assert s[n..][j] == s[n + j];
      }
      assert IsBoundary(s, n + j);
    }
  }

  // ---- The grammar against Unicode scalar values, which are the values of `char` ----

  /** The one encoding that section 3 of RFC 3629 assigns to a character. */
  function EncodeChar(c: char): seq<byte> {
    var n := c as int;
    if n <= 0x7F then [n]
    else if n <= 0x7FF then [0xC0 + n / 64, 0x80 + n % 64]
    else if n <= 0xFFFF then [0xE0 + n / 4096, 0x80 + (n / 64) % 64, 0x80 + n % 64]
    else [0xF0 + n / 262144, 0x80 + (n / 4096) % 64, 0x80 + (n / 64) % 64, 0x80 + n % 64]
  }

  function EncodeChars(cs: string): seq<byte> {
    if cs == "" then [] else EncodeChar(cs[0]) + EncodeChars(cs[1..])
  }

  /** The number of the character at the head of `s`. */
  function Scalar(s: seq<byte>): int
    requires CharLength(s) > 0
  {
    var a: int := s[0];
    match CharLength(s)
    case 1 => a
    case 2 => (a - 0xC0) * 64 + (s[1] - 0x80)
    case 3 => ((a - 0xE0) * 64 + (s[1] - 0x80)) * 64 + (s[2] - 0x80)
    case _ => (((a - 0xF0) * 64 + (s[1] - 0x80)) * 64 + (s[2] - 0x80)) * 64 + (s[3] - 0x80)
  }

  predicate IsScalar(n: int) {
    0 <= n < 0xD800 || 0xE000 <= n < 0x11_0000
  }

  /** Every character the grammar accepts is a Unicode scalar value: nothing overlong, no surrogate. */
  lemma ScalarIsChar(s: seq<byte>)
    requires CharLength(s) > 0
    ensures IsScalar(Scalar(s)) && EncodeChar(Scalar(s) as char) == s[..CharLength(s)]
  {
    if CharLength(s) == 3 {
      ScalarOfThree(s);
    } else if CharLength(s) == 4 {
      ScalarOfFour(s);
    }
  }

  lemma ScalarOfThree(s: seq<byte>)
    requires CharLength(s) == 3
    ensures IsScalar(Scalar(s)) && EncodeChar(Scalar(s) as char) == s[..3]
  {
    var high: int := (s[0] as int - 0xE0) * 64 + (s[1] as int - 0x80);
    var n := Scalar(s);
    assert 0x800 <= n <= 0xFFFF && n / 64 == high && n % 64 == s[2] - 0x80;
    assert high / 64 == s[0] - 0xE0 && high % 64 == s[1] - 0x80 && n / 4096 == high / 64;
  }

  lemma ScalarOfFour(s: seq<byte>)
    requires CharLength(s) == 4
    ensures IsScalar(Scalar(s)) && EncodeChar(Scalar(s) as char) == s[..4]
  {
    var top: int := (s[0] as int - 0xF0) * 64 + (s[1] as int - 0x80);
    var high: int := top * 64 + (s[2] as int - 0x80);
    var n := Scalar(s);
    assert 0x1_0000 <= n <= 0x10_FFFF && n / 64 == high && n % 64 == s[3] - 0x80;
    assert high / 64 == top && high % 64 == s[2] - 0x80 && n / 4096 == top;
    assert top / 64 == s[0] - 0xF0 && top % 64 == s[1] - 0x80 && n / 262144 == top / 64;
  }

  function DecodeChars(s: Text): string
    decreases |s|
  {
    if s == [] then ""
    else
      ScalarIsChar(s);
      [Scalar(s) as char] + DecodeChars(s[CharLength(s)..])
  }

  lemma EncodedCharIsOneCharacter(c: char)
    ensures CharLength(EncodeChar(c)) == |EncodeChar(c)|
    ensures Scalar(EncodeChar(c)) == c as int
  {
    if c as int > 0xFFFF {
      FourBytesAreOneCharacter(c);
    } else if c as int > 0x7FF {
      ThreeBytesAreOneCharacter(c);
    }
  }

  lemma ThreeBytesAreOneCharacter(c: char)
    requires 0x7FF < c as int <= 0xFFFF
    ensures CharLength(EncodeChar(c)) == 3 && Scalar(EncodeChar(c)) == c as int
  {
    var n := c as int;
    assert n / 64 == 64 * (n / 4096) + (n / 64) % 64;
  }

  lemma FourBytesAreOneCharacter(c: char)
    requires c as int > 0xFFFF
    ensures CharLength(EncodeChar(c)) == 4 && Scalar(EncodeChar(c)) == c as int
  {
    var n := c as int;
    assert n / 4096 == 64 * (n / 262144) + (n / 4096) % 64;
    assert n / 64 == 64 * (n / 4096) + (n / 64) % 64;
  }

  lemma ScalarOfConcat(s: seq<byte>, t: seq<byte>)
    requires CharLength(s) > 0
    ensures CharLength(s + t) == CharLength(s) && Scalar(s + t) == Scalar(s)
  {
    CharLengthOfConcat(s, t);
  }

  lemma DecodeFirst(c: char, s: Text)
    ensures Valid(EncodeChar(c) + s) && DecodeChars(EncodeChar(c) + s) == [c] + DecodeChars(s)
  {
    var head := EncodeChar(c);
    EncodedCharIsOneCharacter(c);
    ScalarOfConcat(head, s);
    assert (head + s)[|head|..] == s;
  }

  /** Encoding any characters gives valid bytes, which decode to the same characters. */
  lemma {:induction false} CharsSurviveEncoding(cs: string)
    ensures Valid(EncodeChars(cs)) && DecodeChars(EncodeChars(cs)) == cs
  {
    if cs == "" {
    } else {
      CharsSurviveEncoding(cs[1..]);
      DecodeFirst(cs[0], EncodeChars(cs[1..]));
      assert cs == [cs[0]] + cs[1..];
    }
  }

  lemma EncodeFirst(c: char, cs: string)
    ensures EncodeChars([c] + cs) == EncodeChar(c) + EncodeChars(cs)
  {
    assert ([c] + cs)[1..] == cs;
  }

  /** The first character of a text, by its number and by its bytes. */
  lemma FirstCharacter(s: Text) returns (c: char, rest: Text)
    requires s != []
    ensures |rest| < |s| && s == EncodeChar(c) + rest && DecodeChars(s) == [c] + DecodeChars(rest)
  {
    var n := CharLength(s);
    ScalarIsChar(s);
    c, rest := Scalar(s) as char, s[n..];
    assert s == s[..n] + s[n..];
  }

  /** Every valid byte sequence is the encoding of what it decodes to. */
  lemma {:induction false} BytesSurviveDecoding(s: Text)
    ensures EncodeChars(DecodeChars(s)) == s
    decreases |s|
  {
    if s == [] {
    } else {
      var c, rest := FirstCharacter(s);
      BytesSurviveDecoding(rest);
      EncodeFirst(c, DecodeChars(rest));
    }
  }

  /** The grammar accepts exactly the encodings of strings. */
  lemma ValidIffEncoded(s: seq<byte>)
    ensures Valid(s) <==> exists cs: string :: EncodeChars(cs) == s
  {
    if Valid(s) {
      BytesSurviveDecoding(s);
    }
    if cs: string :| EncodeChars(cs) == s {
      CharsSurviveEncoding(cs);
    }
  }
}
