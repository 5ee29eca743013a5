/**
  The readiness FIFO: one NUL-terminated message, received in chunks of any size.

  The class keeps what has been received so far. `Verdict` judges a whole stream at once, and the
  results of pushing a stream chunk by chunk are shown to be its verdicts on the growing prefixes.
 */
module Readiness {
  import opened Prelude
  import opened Utf8
  import opened Protocol

  datatype ReadinessError =
    | EofBeforeTerminator
    | Empty
    | Oversized
    | PayloadNotUtf8
    | MultipleMessages
    | AlreadyComplete

  type Pushed = Result<Option<Text>, ReadinessError>

  /** The number of chunk bytes read at a time. */
  const CHUNK_SIZE: nat := 1024

  /** The position of the first NUL, or the length if there is none. */
  function FirstNul(s: seq<byte>): (i: nat)
    ensures i <= |s| && (i < |s| ==> s[i] == 0)
    ensures forall k :: 0 <= k < i ==> s[k] != 0
  {
    if s == [] || s[0] == 0 then 0 else 1 + FirstNul(s[1..])
  }

  /** What is to be said of everything received, in the order in which the receiver checks it. */
  function Verdict(s: seq<byte>): Pushed {
    var end := FirstNul(s);
    if end < |s| then
      if end == 0 then Err(Empty)
      else if end != |s| - 1 then Err(MultipleMessages)
      else if end > MAX_READY_PAYLOAD then Err(Oversized)
      else if !Valid(s[..end]) then Err(PayloadNotUtf8)
      else Ok(Some(s[..end]))
    else if |s| > MAX_READY_PAYLOAD then Err(Oversized)
    else Ok(None)
  }

  datatype Frame = Frame(bytes: seq<byte>, complete: bool)

  const EMPTY_FRAME := Frame([], false)

  function Receive(f: Frame, chunk: seq<byte>): (Frame, Pushed) {
    if f.complete then (f, Err(AlreadyComplete))
    else
      var bytes := f.bytes + chunk;
      var verdict := Verdict(bytes);
      (Frame(bytes, verdict.Ok? && verdict.value.Some?), verdict)
  }

  class ReadinessFrame {
    var bytes: seq<byte>
    var complete: bool

    ghost function Value(): Frame
      reads this
    {
      Frame(bytes, complete)
    }

    constructor ()
      ensures Value() == EMPTY_FRAME
    {
      bytes, complete := [], false;
    }

    method Push(chunk: seq<byte>) returns (result: Pushed)
      modifies this
      ensures (Value(), result) == Receive(old(Value()), chunk)
    {
      if complete {
        return Err(AlreadyComplete);
      }
      bytes := bytes + chunk;
      var terminator := FirstNul(bytes);
      if terminator < |bytes| {
        if terminator == 0 {
          return Err(Empty);
        }
        if terminator != |bytes| - 1 {
          return Err(MultipleMessages);
        }
        if terminator > MAX_READY_PAYLOAD {
          return Err(Oversized);
        }
        if !Valid(bytes[..terminator]) {
          return Err(PayloadNotUtf8);
        }
        complete := true;
        return Ok(Some(bytes[..terminator]));
      }
      if |bytes| > MAX_READY_PAYLOAD {
        return Err(Oversized);
      }
      result := Ok(None);
    }

    method Eof() returns (result: Result<(), ReadinessError>)
      ensures result == if Value().complete then Ok(()) else Err(EofBeforeTerminator)
    {
      result := if complete then Ok(()) else Err(EofBeforeTerminator);
    }
  }

  // ---- The verdict, said independently of the order of checks ----

  /** `s` is the text `p` and one final NUL. */
  predicate Frames(s: seq<byte>, p: seq<byte>) {
    && s == p + [0]
    && 1 <= |p| <= 4096 && 0 !in p && Valid(p)
  }

  lemma VerdictIsExact(s: seq<byte>, p: Text)
    ensures Verdict(s) == Ok(Some(p)) <==> Frames(s, p)
    ensures Verdict(s) == Ok(None) <==> |s| <= 4096 && 0 !in s
  {
    var end := FirstNul(s);
    if Frames(s, p) {
      assert s[|p|] == 0;
      assert forall k :: 0 <= k < |p| ==> s[k] == p[k] && p[k] in p;
      assert s[..|p|] == p;
    }
    if Verdict(s) == Ok(Some(p)) {
      assert s == s[..end] + [0];
    }
    if end < |s| {
      assert s[end] in s;
    }
  }

  /** The whole of `s` is a message: a text and its NUL. */
  predicate IsMessage(s: seq<byte>) {
    s != [] && Frames(s, s[..|s| - 1])
  }

  lemma OnlyMessagesFrame(s: seq<byte>, p: seq<byte>)
    ensures Frames(s, p) <==> IsMessage(s) && p == s[..|s| - 1]
  {
    if Frames(s, p) {
      assert s[..|s| - 1] == p;
    }
  }

  lemma VerdictIsMessage(s: seq<byte>)
    ensures Verdict(s).Ok? && Verdict(s).value.Some? <==> IsMessage(s)
  {
    if Verdict(s).Ok? && Verdict(s).value.Some? {
      VerdictIsExact(s, Verdict(s).value.value);
      OnlyMessagesFrame(s, Verdict(s).value.value);
    }
    if IsMessage(s) {
      VerdictIsExact(s, s[..|s| - 1]);
    }
  }

  // ---- Streams ----

  function Joined(chunks: seq<seq<byte>>): seq<byte> {
    if chunks == [] then [] else Joined(chunks[..|chunks| - 1]) + chunks[|chunks| - 1]
  }

  function Framed(chunks: seq<seq<byte>>): Frame {
    if chunks == [] then EMPTY_FRAME else Receive(Framed(chunks[..|chunks| - 1]), chunks[|chunks| - 1]).0
  }

  /** The result of the push of the last chunk of a stream. */
  function LastResult(chunks: seq<seq<byte>>): Pushed
    requires chunks != []
  {
    Receive(Framed(chunks[..|chunks| - 1]), chunks[|chunks| - 1]).1
  }

  /** The first `k` chunks are a message. */
  predicate CompleteAt(chunks: seq<seq<byte>>, k: nat)
    requires k <= |chunks|
  {
    IsMessage(Joined(chunks[..k]))
  }

  /** A frame completes only on a message, and then keeps its bytes. */
  ghost predicate Completed(chunks: seq<seq<byte>>, f: Frame) {
    if f.complete then exists k :: 0 < k <= |chunks| && CompleteAt(chunks, k)
    else f.bytes == Joined(chunks) && forall k :: 0 < k <= |chunks| ==> !CompleteAt(chunks, k)
  }

  lemma CompleteWithout(chunks: seq<seq<byte>>, n: nat, k: nat)
    requires k <= n <= |chunks|
    ensures CompleteAt(chunks[..n], k) == CompleteAt(chunks, k)
  {
    assert chunks[..n][..k] == chunks[..k];
  }

  lemma {:induction false} FramedCompletes(chunks: seq<seq<byte>>)
    ensures Completed(chunks, Framed(chunks))
  {
    if chunks == [] {
    } else {
      var n := |chunks| - 1;
      FramedCompletes(chunks[..n]);
      CompletedBefore(chunks, n);
      if !Framed(chunks[..n]).complete {
        VerdictIsMessage(Joined(chunks));
        assert chunks[..n + 1] == chunks;
        assert CompleteAt(chunks, n + 1) == IsMessage(Joined(chunks));
      }
    }
  }

  /** What a frame knows of the chunks before the last one. */
  lemma CompletedBefore(chunks: seq<seq<byte>>, n: nat)
    requires n <= |chunks| && Completed(chunks[..n], Framed(chunks[..n]))
    ensures Framed(chunks[..n]).complete <==> exists k :: 0 < k <= n && CompleteAt(chunks, k)
    ensures !Framed(chunks[..n]).complete ==> Framed(chunks[..n]).bytes == Joined(chunks[..n])
  {
    forall k | 0 < k <= n
      ensures CompleteAt(chunks[..n], k) == CompleteAt(chunks, k)
    {
      CompleteWithout(chunks, n, k);
    }
  }

  /**
    A push returns a text exactly when the whole stream so far is that text and one NUL, and no
    earlier prefix of the stream was complete; it returns nothing exactly while the stream is short
    and free of NUL.
   */
  lemma PushFollowsStream(chunks: seq<seq<byte>>, p: Text)
    requires chunks != []
    ensures LastResult(chunks) == Ok(Some(p)) <==>
              Frames(Joined(chunks), p) && forall k :: 0 < k < |chunks| ==> !CompleteAt(chunks, k)
    ensures LastResult(chunks) == Ok(None) <==> |Joined(chunks)| <= 4096 && 0 !in Joined(chunks)
  {
    var n := |chunks| - 1;
    FramedCompletes(chunks[..n]);
    CompletedBefore(chunks, n);
    if Framed(chunks[..n]).complete {
      var k :| 0 < k <= n && CompleteAt(chunks, k);
      CompleteHasNul(chunks, k);
    } else {
      VerdictIsExact(Joined(chunks), p);
    }
  }

  lemma CompleteHasNul(chunks: seq<seq<byte>>, k: nat)
    requires k <= |chunks| && CompleteAt(chunks, k)
    ensures 0 in Joined(chunks)
  {
    var s := Joined(chunks[..k]);
    JoinedPrefix(chunks, k);
    assert s[|s| - 1] == 0 && Joined(chunks)[|s| - 1] == 0;
  }

  lemma {:induction false} JoinedPrefix(chunks: seq<seq<byte>>, k: nat)
    requires k <= |chunks|
    ensures Joined(chunks[..k]) <= Joined(chunks)
  {
    if k < |chunks| {
      var n := |chunks| - 1;
      JoinedPrefix(chunks[..n], k);
      assert chunks[..n][..k] == chunks[..k];
    } else {
      assert chunks[..k] == chunks;
    }
  }

  /** After an error every later push fails too. */
  lemma ErrorsLast(f: Frame, chunk: seq<byte>, more: seq<byte>)
    requires Receive(f, chunk).1.Err?
    ensures Receive(Receive(f, chunk).0, more).1.Err?
  {
    if !f.complete {
      var s := f.bytes + chunk;
      var t := s + more;
      assert forall k :: 0 <= k < |s| ==> t[k] == s[k];
      if FirstNul(s) < |s| {
        assert FirstNul(t) == FirstNul(s);
        assert t[..FirstNul(t)] == s[..FirstNul(s)];
      } else {
        assert FirstNul(t) >= |s|;
      }
    }
  }

  /** Anything but "no message yet" is final: every later push of the stream fails. */
  lemma {:induction false} FirstResultIsFinal(chunks: seq<seq<byte>>, k: nat)
    requires 0 < k < |chunks| && LastResult(chunks[..k]) != Ok(None)
    ensures LastResult(chunks).Err?
    decreases |chunks|
  {
    var n := |chunks| - 1;
    assert chunks[..n][..k] == chunks[..k];
    if k < n {
      FirstResultIsFinal(chunks[..n], k);
    } else {
      assert chunks[..k] == chunks[..n];
    }
    assert chunks[..n][..n - 1] == chunks[..n - 1];
    if LastResult(chunks[..n]).Err? {
      ErrorsLast(Framed(chunks[..n - 1]), chunks[n - 1], chunks[n]);
    }
  }

  /** A receiver that stops at the first result other than "no message yet" buffers a bounded number of bytes. */
  lemma {:induction false} BufferIsBounded(chunks: seq<seq<byte>>)
    requires forall i :: 0 <= i < |chunks| ==> |chunks[i]| <= CHUNK_SIZE
    requires forall k :: 0 < k < |chunks| ==> LastResult(chunks[..k]) == Ok(None)
    ensures |Framed(chunks).bytes| <= 4096 + 1024
  {
    if chunks == [] {
    } else {
      var n := |chunks| - 1;
      FramedCompletes(chunks[..n]);
      if n > 0 {
        PushFollowsStream(chunks[..n], []);
        assert chunks[..n][..n - 1] == chunks[..n - 1];
      }
      assert |Framed(chunks[..n]).bytes| <= MAX_READY_PAYLOAD;
    }
  }
}
