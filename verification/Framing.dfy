/** One JSON document a line: writing a frame, and reading one back without reading past a limit. */
module Framing {
  import opened Basics

  const NEWLINE: byte := 10

  function WriteFrame(frame: Str): Str {
    frame + [NEWLINE]
  }

  /** `Closed` also stands for a read error. */
  datatype Line = Frame(bytes: Str, rest: Str) | Closed | TooLong

  predicate OneLine(frame: Str) {
    NEWLINE !in frame
  }

  /** What a stream holds for a reader with this limit, stated without its loop. */
  ghost predicate Holds(stream: Str, limit: nat, line: Line) {
    match line
    case Frame(bytes, rest) => stream == WriteFrame(bytes) + rest && OneLine(bytes) && |bytes| <= limit
    case Closed => OneLine(stream) && |stream| <= limit
    case TooLong => |stream| > limit && OneLine(stream[..limit + 1])
  }

  /** Read octet by octet up to a newline; never more than `limit + 1` octets. */
  method ReadFrame(stream: Str, limit: nat) returns (line: Line, consumed: nat)
    ensures Holds(stream, limit, line)
    ensures consumed <= limit + 1 && consumed <= |stream|
    ensures line.Frame? ==> stream[consumed..] == line.rest
  {
    var frame: Str := [];
    consumed := 0;
    while true
      invariant consumed == |frame| <= limit
      invariant consumed <= |stream| && stream[..consumed] == frame && OneLine(frame)
      decreases |stream| - consumed
    {
      if consumed == |stream| {
        assert stream[..consumed] == stream;
        return Closed, consumed;
      }
      var octet := stream[consumed];
      assert stream[..consumed + 1] == frame + [octet];
      consumed := consumed + 1;
      if octet == NEWLINE {
        assert stream == stream[..consumed] + stream[consumed..];
        return Frame(frame, stream[consumed..]), consumed;
      }
      if |frame| >= limit {
        return TooLong, consumed;
      }
      frame := frame + [octet];
    }
  }

  lemma FirstNewline(a: Str, x: Str, b: Str, y: Str)
    requires OneLine(a) && OneLine(b) && WriteFrame(a) + x == WriteFrame(b) + y
    ensures a == b && x == y
  {
    var s := WriteFrame(a) + x;
    assert s[|a|] == NEWLINE && s[|b|] == NEWLINE;
    assert forall i :: 0 <= i < |a| ==> s[i] == a[i];
    assert forall i :: 0 <= i < |b| ==> s[i] == b[i];
    assert |a| == |b|;
    assert a == s[..|a|] && b == s[..|b|];
    assert x == s[|a| + 1..] && y == s[|b| + 1..];
  }

  /** A stream holds one thing only, so the reader's answer is determined by what was written. */
  lemma HoldsOneThing(stream: Str, limit: nat, a: Line, b: Line)
    requires Holds(stream, limit, a) && Holds(stream, limit, b)
    ensures a == b
  {
    if a.Frame? {
      assert stream[|a.bytes|] == NEWLINE;
    }
    if b.Frame? {
      assert stream[|b.bytes|] == NEWLINE;
    }
    if a.Frame? && b.Frame? {
      FirstNewline(a.bytes, a.rest, b.bytes, b.rest);
    }
  }

  /**
    Round trip: the reader's answer to a frame followed by anything is that frame with the rest
    untouched exactly when the frame is one line within the limit; a longer line is refused.
  */
  lemma FrameRoundTrip(frame: Str, rest: Str, limit: nat, line: Line)
    requires Holds(WriteFrame(frame) + rest, limit, line)
    ensures line == Frame(frame, rest) <==> OneLine(frame) && |frame| <= limit
    ensures OneLine(frame) && |frame| > limit ==> line == TooLong
  {
    var stream := WriteFrame(frame) + rest;
    if OneLine(frame) && |frame| <= limit {
      HoldsOneThing(stream, limit, line, Frame(frame, rest));
    } else if OneLine(frame) {
      assert stream[..limit + 1] == frame[..limit + 1];
      HoldsOneThing(stream, limit, line, TooLong);
    }
  }

  function WriteFrames(frames: seq<Str>): Str {
    if frames == [] then [] else WriteFrame(frames[0]) + WriteFrames(frames[1..])
  }

  /** The frames in a stream are unique: nothing can be read as other frames than were written. */
  lemma {:induction false} FramesUnique(sent: seq<Str>, got: seq<Str>, rest: Str)
    requires forall k :: 0 <= k < |sent| ==> OneLine(sent[k])
    requires forall k :: 0 <= k < |got| ==> OneLine(got[k])
    requires WriteFrames(sent) == WriteFrames(got) + rest && OneLine(rest)
    ensures sent == got && rest == []
    decreases |sent|
  {
    if sent != [] && got != [] {
      assert WriteFrames(got) + rest == WriteFrame(got[0]) + (WriteFrames(got[1..]) + rest);
      FirstNewline(sent[0], WriteFrames(sent[1..]), got[0], WriteFrames(got[1..]) + rest);
      FramesUnique(sent[1..], got[1..], rest);
      assert sent == [sent[0]] + sent[1..] && got == [got[0]] + got[1..];
    } else if sent != [] {
      FirstOctets(sent, rest);
    } else {
      assert |WriteFrames(got) + rest| == 0;
    }
  }

  lemma FirstOctets(frames: seq<Str>, stream: Str)
    requires frames != [] && stream == WriteFrames(frames)
    ensures !OneLine(stream)
  {
    assert stream[|frames[0]|] == NEWLINE;
  }
}
