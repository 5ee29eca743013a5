/**
  The texts a helper reports: an error text is sanitized and cut to fit its message, a readiness
  payload is passed on as received. Both always survive the codec.
 */
module Reports {
  import opened Prelude
  import opened Utf8
  import opened Messages
  import opened Protocol
  import opened Codec
  import opened Readiness

  const SPACE: byte := 0x20

  predicate Replaced(b: byte) {
    b == 0x0A || b == 0x0D || b == 0
  }

  function Sanitized(s: seq<byte>): (r: seq<byte>)
    ensures |r| == |s|
    ensures forall i :: 0 <= i < |s| ==> r[i] == if Replaced(s[i]) then SPACE else s[i]
  {
    if s == [] then [] else [if Replaced(s[0]) then SPACE else s[0]] + Sanitized(s[1..])
  }

  /** Replacing single-byte characters by another one neither breaks nor moves any character. */
  lemma {:induction false} SanitizedIsText(s: seq<byte>)
    requires Valid(s)
    ensures Valid(Sanitized(s))
    decreases |s|
  {
    if s == [] {
    } else {
      var n := CharLength(s);
      var r := Sanitized(s);
      assert CharLength(r) == n;
      SanitizedTail(s, n);
      SanitizedIsText(s[n..]);
    }
  }

  lemma {:induction false} SanitizedTail(s: seq<byte>, n: nat)
    requires n <= |s|
    ensures Sanitized(s)[n..] == Sanitized(s[n..])
  {
    if n == 0 {
    } else {
      SanitizedTail(s[1..], n - 1);
      assert Sanitized(s)[n..] == Sanitized(s[1..])[n - 1..];
      assert s[1..][n - 1..] == s[n..];
    }
  }

  /** `r` is the longest prefix of `s` that ends at a character and has at most `max` bytes. */
  predicate LongestFit(s: seq<byte>, max: nat, r: seq<byte>) {
    && r <= s && |r| <= max && Valid(r)
    && forall i: nat :: |r| < i <= max && i <= |s| ==> !Valid(s[..i])
  }

  /** Cutting at the last boundary gives the longest fit. */
  lemma CutIsLongestFit(text: Text, max: nat, end: nat)
    requires end <= max <= |text| && IsBoundary(text, end)
    requires forall i: nat :: end < i <= max ==> !IsBoundary(text, i)
    ensures LongestFit(text, max, text[..end])
  {
    BoundaryIffPrefixValid(text, end);
    forall i: nat | end < i <= max
      ensures !Valid(text[..i])
    {
      BoundaryIffPrefixValid(text, i);
    }
  }

  /** The backward search for a character boundary, which takes at most three steps. */
  method BoundedMessage(message: Text) returns (bounded: Text)
    ensures LongestFit(Sanitized(message), 1024, bounded)
    ensures |bounded| >= Min(|message|, 1021)
  {
    SanitizedIsText(message);
    var text: Text := Sanitized(message);
    if |text| <= MAX_MESSAGE {
      WholeIsLongestFit(text, MAX_MESSAGE);
      return text;
    }
    var end := LastBoundary(text, MAX_MESSAGE);
    CutIsLongestFit(text, MAX_MESSAGE, end);
    bounded := text[..end];
  }

  method LastBoundary(text: Text, max: nat) returns (end: nat)
    requires max <= |text|
    ensures max - 3 <= end <= max && IsBoundary(text, end)
    ensures forall i: nat :: end < i <= max ==> !IsBoundary(text, i)
  {
    end := max;
    var j := BoundaryBelow(text, max);
    while !IsBoundary(text, end)
      invariant j <= end <= max
      invariant forall i: nat :: end < i <= max ==> !IsBoundary(text, i)
      decreases end - j
    {
      end := end - 1;
    }
  }

  lemma WholeIsLongestFit(text: Text, max: nat)
    requires |text| <= max
    ensures LongestFit(text, max, text)
  {
  }

  lemma BoundaryBelow(text: Text, max: nat) returns (j: nat)
    requires max <= |text|
    ensures max - 3 <= j <= max && IsBoundary(text, j)
  {
    BoundaryWithinThree(text, max);
    j :| max - 3 <= j <= max && IsBoundary(text, j);
  }

  /** The bounded message as a function of the text: the longest fit is unique. */
  lemma LongestFitIsUnique(s: seq<byte>, max: nat, r: seq<byte>, t: seq<byte>)
    requires LongestFit(s, max, r) && LongestFit(s, max, t)
    ensures r == t
  {
    assert r == s[..|r|] && t == s[..|t|];
  }

  // ---- End to end ----

  predicate Delivered(m: Message) {
    Encode(m).Ok? && Decode(ChannelOf(m), Encode(m).value) == Ok(m)
  }

  /** Every payload a readiness stream yields can be reported, and arrives unchanged. */
  lemma PayloadsAreDelivered(chunks: seq<seq<byte>>, p: Text)
    requires chunks != [] && LastResult(chunks) == Ok(Some(p))
    ensures Delivered(Report(ReadinessPayload(p)))
  {
    PushFollowsStream(chunks, p);
    EncodesIffEncodable(Report(ReadinessPayload(p)));
    DecodeInvertsEncode(Report(ReadinessPayload(p)));
  }

  /** Conversely every payload that can be reported is one that some stream yields. */
  lemma DeliveredPayloadsAreFramed(p: Text)
    requires Encode(Report(ReadinessPayload(p))).Ok?
    ensures LastResult([p + [0]]) == Ok(Some(p))
  {
    PayloadFits(p);
    OneChunk(p + [0]);
    PushFollowsStream([p + [0]], p);
  }

  lemma PayloadFits(p: Text)
    requires Encode(Report(ReadinessPayload(p))).Ok?
    ensures Frames(p + [0], p)
  {
    EncodesIffEncodable(Report(ReadinessPayload(p)));
  }

  lemma OneChunk(s: seq<byte>)
    ensures Joined([s]) == s
  {
    assert [s][..0] == [];
  }

  /** A bounded error text can be reported exactly when it is not empty, and then arrives unchanged. */
  lemma BoundedTextsAreDelivered(message: Text, bounded: Text)
    requires LongestFit(Sanitized(message), MAX_MESSAGE, bounded)
    ensures Delivered(Report(StartFailed(bounded))) <==> message != []
    ensures Delivered(Report(Fatal(bounded))) <==> message != []
  {
    var text := Sanitized(message);
    SanitizedIsText(message);
    if message != [] {
      var n := CharLength(text);
      assert n > 0;
      BoundaryIffPrefixValid(text, n);
      assert Valid(text[n..]);
      FirstCharacterIsValid(text);
      assert bounded != [];
    }
    assert 0 !in bounded;
    EncodesIffEncodable(Report(StartFailed(bounded)));
    EncodesIffEncodable(Report(Fatal(bounded)));
    DecodeInvertsEncode(Report(StartFailed(bounded)));
    DecodeInvertsEncode(Report(Fatal(bounded)));
  }

  lemma FirstCharacterIsValid(s: seq<byte>)
    requires CharLength(s) > 0
    ensures Valid(s[..CharLength(s)])
  {
    var n := CharLength(s);
    CharLengthOfPrefix(s, n);
    assert s[..n][n..] == [];
  }
}
