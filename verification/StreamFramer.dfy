/** Cutting SIP messages out of a byte stream, however the stream arrives. */
module Framing {
  import opened Prelude
  import opened Text

  const MAX_MESSAGE: nat := 65536
  const SIZE_MAX: nat := 0xFFFF_FFFF_FFFF_FFFF
  const HEAD_END: string := "\r\n\r\n"

  predicate LineBreak(c: char) { c == '\r' || c == '\n' }

  predicate AllBreaks(s: string) {
    forall i :: 0 <= i < |s| ==> LineBreak(s[i])
  }

  function SkipBreaks(s: string): string {
    if s != "" && LineBreak(s[0]) then SkipBreaks(s[1..]) else s
  }

  /** The lower-case name of a header line, which must have a colon. */
  function NameOf(line: string): string {
    Lowercased(Trimmed(line[..Find(line, ':')]))
  }

  predicate NamesLength(line: string) {
    ':' in line && (NameOf(line) == "content-length" || NameOf(line) == "l")
  }

  /** The value of the first Content-Length line, if there is one and it is a number. */
  function LengthIn(lines: seq<string>): Option<nat> {
    if lines == [] then None
    else if NamesLength(lines[0]) then Integer(lines[0][Find(lines[0], ':') + 1..], SIZE_MAX)
    else LengthIn(lines[1..])
  }

  /** The body length a message head announces; its first line is the start line. */
  function ContentLength(head: string): Option<nat> {
    var lines := Lines(head);
    if lines == [] then None else LengthIn(lines[1..])
  }

  method FindContentLength(head: string) returns (length: Option<nat>)
    ensures length == ContentLength(head)
  {
    var lines := SplitLines(head);
    var i, first := 0, true;
    while i < |lines|
      invariant 0 <= i <= |lines| && first == (i == 0)
      invariant i > 0 ==> LengthIn(lines[i..]) == ContentLength(head)
    {
      if first {
        first := false;
      } else {
        var line := lines[i];
        var colon := Find(line, ':');
        if colon < |line| {
          var trimmed := Trim(line[..colon]);
          var name := Lowercase(trimmed);
          if name == "content-length" || name == "l" {
            assert NamesLength(lines[i..][0]);
            return Integer(line[colon + 1..], SIZE_MAX);
          }
        }
        assert lines[i..][1..] == lines[i + 1..];
      }
      i := i + 1;
    }
    return None;
  }

  // ---- One message ----

  /** What can be cut off the front of a buffer: a message, nothing yet, or nothing ever. */
  datatype Cut = Whole(message: string, rest: string) | Wait(rest: string) | Broken

  /** The cut of a buffer whose head ends at `end` and announces a body of the given length. */
  function CutBody(s: string, end: nat, length: Option<nat>): Cut {
    if length.None? || end + 4 + length.value > MAX_MESSAGE then Broken
    else
      var total := end + 4 + length.value;
      if |s| < total then Wait(s) else Whole(s[..total], s[total..])
  }

  /** The cut of a buffer that does not start with a line break. */
  function CutMessage(s: string): Cut {
    var end := FindText(s, HEAD_END);
    if end.None? then if |s| > MAX_MESSAGE then Broken else Wait(s)
    else CutBody(s, end.value, ContentLength(s[..end.value]))
  }

  function CutFront(s: string): Cut { CutMessage(SkipBreaks(s)) }

  // ---- The whole stream ----

  /** The messages in a stream, whether it turned out broken, and the unfinished rest. */
  datatype Stream = Stream(messages: seq<string>, failed: bool, rest: string)

  lemma {:induction false} SkipBreaksFrom(s: string) returns (k: nat)
    ensures k <= |s| && s[k..] == SkipBreaks(s) && (forall i :: 0 <= i < k ==> LineBreak(s[i]))
    ensures SkipBreaks(s) == "" || !LineBreak(SkipBreaks(s)[0])
    decreases |s|
  {
    if s != "" && LineBreak(s[0]) {
      var j := SkipBreaksFrom(s[1..]);
      k := j + 1;
      assert s[k..] == s[1..][j..];
      assert forall i :: 1 <= i < k ==> s[i] == s[1..][i - 1];
    } else {
      k := 0;
    }
  }

  lemma SkipBreaksSplits(s: string) returns (gap: string)
    ensures AllBreaks(gap) && s == gap + SkipBreaks(s)
    ensures SkipBreaks(s) == "" || !LineBreak(SkipBreaks(s)[0])
  {
    var k := SkipBreaksFrom(s);
    gap := s[..k];
    assert s == s[..k] + s[k..];
  }

  lemma CutMessageSplits(r: string)
    ensures match CutMessage(r)
            case Whole(m, rest) => r == m + rest && |m| >= 4
            case Wait(rest) => rest == r
            case Broken => true
  {
  }

  lemma CutShrinks(s: string)
    ensures CutFront(s).Whole? ==> |CutFront(s).rest| < |s|
    ensures CutFront(s).Whole? ==> exists gap :: AllBreaks(gap) && s == gap + CutFront(s).message + CutFront(s).rest
    ensures CutFront(s).Wait? ==> CutFront(s).rest == SkipBreaks(s)
  {
    var gap := SkipBreaksSplits(s);
    var c := CutFront(s);
    CutMessageSplits(SkipBreaks(s));
    if c.Whole? {
      assert s == gap + c.message + c.rest;
    }
  }

  /** One-shot framing of a whole stream. */
  function Frames(s: string): Stream
    decreases |s|
  {
    match CutFront(s)
    case Broken => Stream([], true, "")
    case Wait(rest) => Stream([], false, rest)
    case Whole(message, rest) =>
      CutShrinks(s);
      var later := Frames(rest);
      later.(messages := [message] + later.messages)
  }

  // ---- More bytes ----

  lemma {:induction false} SkipBreaksAppend(s: string, t: string)
    ensures SkipBreaks(s + t) == if SkipBreaks(s) == "" then SkipBreaks(t) else SkipBreaks(s) + t
    decreases |s|
  {
    if s == "" {
      assert s + t == t;
    } else if LineBreak(s[0]) {
      assert (s + t)[1..] == s[1..] + t;
      SkipBreaksAppend(s[1..], t);
    }
  }

  lemma FindTextIs(s: string, mark: string, i: nat)
    requires At(s, mark, i) && (forall j :: 0 <= j < i ==> !At(s, mark, j))
    ensures FindText(s, mark) == Some(i)
  {
    var r := FindText(s, mark);
    assert r.Some? && r.value <= i;
  }

  lemma AtAppend(s: string, mark: string, t: string, i: nat)
    requires i + |mark| <= |s|
    ensures At(s + t, mark, i) == At(s, mark, i)
  {
    assert (s + t)[i..i + |mark|] == s[i..i + |mark|];
  }

  lemma FindTextAppend(s: string, mark: string, t: string)
    requires FindText(s, mark).Some?
    ensures FindText(s + t, mark) == FindText(s, mark)
  {
    var i := FindText(s, mark).value;
    forall j | 0 <= j <= i ensures At(s + t, mark, j) == At(s, mark, j) {
      AtAppend(s, mark, t, j);
    }
    FindTextIs(s + t, mark, i);
  }

  /** A mark that is not in the text can only appear with what is appended. */
  lemma FindTextLater(s: string, mark: string, t: string)
    requires FindText(s, mark).None?
    ensures FindText(s + t, mark).Some? ==> FindText(s + t, mark).value + |mark| > |s|
  {
    forall i: nat | i + |mark| <= |s| ensures !At(s + t, mark, i) {
      AtAppend(s, mark, t, i);
    }
  }

  lemma SlicesAppend(s: string, t: string, k: nat)
    requires k <= |s|
    ensures (s + t)[..k] == s[..k] && (s + t)[k..] == s[k..] + t
  {
  }

  lemma CutBodyAppend(s: string, t: string, end: nat, length: Option<nat>)
    ensures CutBody(s, end, length).Whole? ==>
              CutBody(s + t, end, length) == Whole(CutBody(s, end, length).message, CutBody(s, end, length).rest + t)
    ensures CutBody(s, end, length).Broken? ==> CutBody(s + t, end, length).Broken?
  {
    if CutBody(s, end, length).Whole? {
      SlicesAppend(s, t, end + 4 + length.value);
    }
  }

  lemma CutHeadAppend(s: string, t: string, end: nat)
    requires FindText(s, HEAD_END) == Some(end)
    ensures CutMessage(s).Whole? ==> CutMessage(s + t) == Whole(CutMessage(s).message, CutMessage(s).rest + t)
    ensures CutMessage(s).Broken? ==> CutMessage(s + t).Broken?
  {
    FindTextAppend(s, HEAD_END, t);
    SlicesAppend(s, t, end);
    CutBodyAppend(s, t, end, ContentLength(s[..end]));
  }

  lemma NoHeadAppend(s: string, t: string)
    requires FindText(s, HEAD_END).None? && |s| > MAX_MESSAGE
    ensures CutMessage(s + t).Broken?
  {
    FindTextLater(s, HEAD_END, t);
  }

  /** A message is cut off the same way with more bytes behind it. */
  lemma CutMessageAppend(s: string, t: string)
    ensures CutMessage(s).Whole? ==> CutMessage(s + t) == Whole(CutMessage(s).message, CutMessage(s).rest + t)
    ensures CutMessage(s).Broken? ==> CutMessage(s + t).Broken?
  {
    var end := FindText(s, HEAD_END);
    if end.Some? {
      CutHeadAppend(s, t, end.value);
    } else if |s| > MAX_MESSAGE {
      NoHeadAppend(s, t);
    }
  }

  lemma CutFrontAppend(s: string, t: string)
    ensures CutFront(s).Whole? ==> CutFront(s + t) == Whole(CutFront(s).message, CutFront(s).rest + t)
    ensures CutFront(s).Broken? ==> CutFront(s + t).Broken?
    ensures CutFront(s).Wait? ==> CutFront(s + t) == CutFront(CutFront(s).rest + t)
  {
    SkipBreaksAppend(s, t);
    CutMessageAppend(SkipBreaks(s), t);
    var r := SkipBreaks(s);
    var gap := SkipBreaksSplits(s);
    SkipBreaksAppend(r, t);
    assert SkipBreaks(r) == r;
    if r == "" {
      assert FindText("", HEAD_END).None?;
    }
  }

  lemma FramesOfCut(s: string, u: string)
    requires CutFront(s) == CutFront(u)
    ensures Frames(s) == Frames(u)
  {
  }

  lemma FramesWhole(s: string, m: string, rest: string)
    requires CutFront(s) == Whole(m, rest)
    ensures |rest| < |s| && Frames(s) == Frames(rest).(messages := [m] + Frames(rest).messages)
  {
    CutShrinks(s);
  }

  /** Where framing stands after `s` when `t` follows. */
  ghost predicate Resumes(before: Stream, after: Stream, t: string) {
    if before.failed then after == before
    else var later := Frames(before.rest + t); after == later.(messages := before.messages + later.messages)
  }

  lemma ResumesOneMore(m: string, before: Stream, after: Stream, t: string)
    requires Resumes(before, after, t)
    ensures Resumes(before.(messages := [m] + before.messages), after.(messages := [m] + after.messages), t)
  {
    var later := Frames(before.rest + t);
    assert [m] + (before.messages + later.messages) == ([m] + before.messages) + later.messages;
  }

  /** Framing can stop anywhere in the stream and go on from what is left. */
  lemma {:induction false} FramesAppend(s: string, t: string)
    ensures Resumes(Frames(s), Frames(s + t), t)
    decreases |s|
  {
    CutFrontAppend(s, t);
    match CutFront(s) {
      case Broken =>
      case Wait(rest) => FramesOfCut(s + t, rest + t);
      case Whole(m, rest) =>
        FramesWhole(s, m, rest);
        FramesWhole(s + t, m, rest + t);
        FramesAppend(rest, t);
        ResumesOneMore(m, Frames(rest), Frames(rest + t), t);
    }
  }

  /** What the messages of a stream are: nothing lost but line breaks in front of a message, nothing added. */
  ghost predicate MadeOf(s: string, messages: seq<string>, rest: string)
    decreases |messages|
  {
    if messages == [] then exists gap :: AllBreaks(gap) && s == gap + rest
    else exists gap, tail ::
      AllBreaks(gap) && s == gap + messages[0] + tail && MadeOf(tail, messages[1..], rest)
  }

  /** A message a stream may carry: its head announces exactly the bytes that follow it. */
  ghost predicate IsMessage(m: string) {
    && m != "" && !LineBreak(m[0]) && |m| <= MAX_MESSAGE
    && FindText(m, HEAD_END).Some?
    && ContentLength(m[..FindText(m, HEAD_END).value]) == Some(|m| - FindText(m, HEAD_END).value - 4)
  }

  lemma FrontIsMessage(r: string, m: string, rest: string)
    requires r != "" && !LineBreak(r[0]) && CutMessage(r) == Whole(m, rest)
    ensures IsMessage(m)
  {
    var end := FindText(r, HEAD_END).value;
    CutMessageSplits(r);
    assert |m| >= end + 4 && |m| <= MAX_MESSAGE && ContentLength(r[..end]) == Some(|m| - end - 4);
    HeadStays(m, rest, end);
    SlicesAppend(m, rest, end);
  }

  lemma HeadStays(m: string, rest: string, end: nat)
    requires FindText(m + rest, HEAD_END) == Some(end) && |m| >= end + 4
    ensures FindText(m, HEAD_END) == Some(end)
  {
    forall j | 0 <= j <= end ensures At(m, HEAD_END, j) == At(m + rest, HEAD_END, j) {
      AtAppend(m, HEAD_END, rest, j);
    }
    FindTextIs(m, HEAD_END, end);
  }

  lemma WholeIsMessage(s: string)
    requires CutFront(s).Whole?
    ensures IsMessage(CutFront(s).message)
  {
    var r := SkipBreaks(s);
    var gap := SkipBreaksSplits(s);
    assert CutMessage("").Wait?;
    FrontIsMessage(r, CutFront(s).message, CutFront(s).rest);
  }

  ghost predicate Sound(s: string, all: Stream) {
    && (forall i :: 0 <= i < |all.messages| ==> IsMessage(all.messages[i]))
    && (!all.failed ==> MadeOf(s, all.messages, all.rest))
  }

  lemma MadeOfOneMore(s: string, gap: string, m: string, tail: string, messages: seq<string>, rest: string)
    requires AllBreaks(gap) && s == gap + m + tail && MadeOf(tail, messages, rest)
    ensures MadeOf(s, [m] + messages, rest)
  {
    var all := [m] + messages;
    assert all[0] == m && all[1..] == messages;
  }

  lemma AllMessages(m: string, messages: seq<string>)
    requires IsMessage(m) && forall i :: 0 <= i < |messages| ==> IsMessage(messages[i])
    ensures forall i :: 0 <= i < |[m] + messages| ==> IsMessage(([m] + messages)[i])
  {
    var all := [m] + messages;
    forall i | 0 <= i < |all| ensures IsMessage(all[i]) {
      if i > 0 {
        assert all[i] == messages[i - 1];
      }
    }
  }

  lemma SoundOneMore(s: string, gap: string, m: string, tail: string, all: Stream)
    requires AllBreaks(gap) && s == gap + m + tail && IsMessage(m) && Sound(tail, all)
    ensures Sound(s, all.(messages := [m] + all.messages))
  {
    AllMessages(m, all.messages);
    if !all.failed {
      MadeOfOneMore(s, gap, m, tail, all.messages, all.rest);
    }
  }

  /** Every message of a stream is a whole message, and messages, line breaks and rest are the stream. */
  lemma {:induction false} FramesMeaning(s: string)
    ensures Sound(s, Frames(s))
    decreases |s|
  {
    CutShrinks(s);
    match CutFront(s) {
      case Broken =>
      case Wait(rest) =>
        var gap := SkipBreaksSplits(s);
        assert MadeOf(s, [], rest);
      case Whole(m, rest) =>
        WholeIsMessage(s);
        FramesWhole(s, m, rest);
        FramesMeaning(rest);
        var gap :| AllBreaks(gap) && s == gap + m + rest;
        SoundOneMore(s, gap, m, rest, Frames(rest));
    }
  }

  // ---- Whole messages come through ----

  lemma MessageCutsOff(gap: string, m: string, tail: string)
    requires AllBreaks(gap) && IsMessage(m)
    ensures CutFront(gap + m + tail) == Whole(m, tail)
  {
    AllBreaksSkipped(gap, m + tail);
    assert gap + m + tail == gap + (m + tail);
    assert SkipBreaks(m + tail) == m + tail;
    FindTextAppend(m, HEAD_END, tail);
    var end := FindText(m, HEAD_END).value;
    assert (m + tail)[..end] == m[..end];
    assert (m + tail)[..|m|] == m && (m + tail)[|m|..] == tail;
  }

  lemma {:induction false} AllBreaksSkipped(gap: string, s: string)
    requires AllBreaks(gap)
    ensures SkipBreaks(gap + s) == SkipBreaks(s)
    decreases |gap|
  {
    if gap == "" {
      assert gap + s == s;
    } else {
      assert (gap + s)[1..] == gap[1..] + s;
      AllBreaksSkipped(gap[1..], s);
    }
  }

  /** Messages with a gap before each and one at the end. */
  function Interleave(gaps: seq<string>, messages: seq<string>): string
    requires |gaps| == |messages| + 1
  {
    if messages == [] then gaps[0] else gaps[0] + messages[0] + Interleave(gaps[1..], messages[1..])
  }

  /** Messages with any keep-alive line breaks around them come out one by one, and nothing else does. */
  lemma {:induction false} FramesOfMessages(gaps: seq<string>, messages: seq<string>)
    requires |gaps| == |messages| + 1
    requires forall i :: 0 <= i < |gaps| ==> AllBreaks(gaps[i])
    requires forall i :: 0 <= i < |messages| ==> IsMessage(messages[i])
    ensures Frames(Interleave(gaps, messages)) == Stream(messages, false, "")
    decreases |messages|
  {
    var s := Interleave(gaps, messages);
    if messages == [] {
      AllBreaksSkipped(gaps[0], "");
      assert gaps[0] + "" == gaps[0];
      assert CutMessage("") == Wait("");
    } else {
      var tail := Interleave(gaps[1..], messages[1..]);
      MessageCutsOff(gaps[0], messages[0], tail);
      FramesWhole(s, messages[0], tail);
      FramesOfMessages(gaps[1..], messages[1..]);
      assert messages == [messages[0]] + messages[1..];
    }
  }

  /** Framing, one cut at a time. */
  lemma NextFrames(s: string)
    ensures match CutFront(s)
            case Broken => Frames(s) == Stream([], true, "")
            case Wait(rest) => Frames(s) == Stream([], false, rest)
            case Whole(m, rest) => |rest| < |s| && Frames(s) == Frames(rest).(messages := [m] + Frames(rest).messages)
  {
    CutShrinks(s);
  }

  /** The chunks put together. */
  function Flat(chunks: seq<string>): string {
    if chunks == [] then "" else chunks[0] + Flat(chunks[1..])
  }

  lemma {:induction false} FlatOneMore(chunks: seq<string>, chunk: string)
    ensures Flat(chunks + [chunk]) == Flat(chunks) + chunk
    decreases |chunks|
  {
    if chunks == [] {
      assert [chunk][1..] == [] && chunk + "" == chunk;
    } else {
      FlatOneMore(chunks[1..], chunk);
      assert (chunks + [chunk])[1..] == chunks[1..] + [chunk];
      assert chunks[0] + (Flat(chunks[1..]) + chunk) == (chunks[0] + Flat(chunks[1..])) + chunk;
    }
  }

  // ---- The framer ----

  class StreamFramer {
    var buffer: string
    var failed: bool

    constructor ()
      ensures buffer == "" && !failed
    {
      buffer, failed := "", false;
    }

    method Push(bytes: string)
      modifies this
      ensures failed == old(failed)
      ensures buffer == old(buffer) + if old(failed) then "" else bytes
    {
      if failed {
        return;
      }
      buffer := buffer + bytes;
    }

    /** Drops the line breaks in front of a message. */
    method DropBreaks()
      modifies this
      ensures buffer == SkipBreaks(old(buffer)) && failed == old(failed)
    {
      var start := 0;
      while start < |buffer| && LineBreak(buffer[start])
        invariant start <= |buffer| && SkipBreaks(buffer[start..]) == SkipBreaks(old(buffer))
        invariant buffer == old(buffer) && failed == old(failed)
      {
        assert buffer[start..][1..] == buffer[start + 1..];
        start := start + 1;
      }
      buffer := buffer[start..];
    }

    /** What has been taken out, given what could be cut off; a failure leaves the buffer as it was. */
    ghost predicate After(c: Cut, message: Option<string>, before: string)
      reads this
    {
      match c
      case Whole(m, rest) => message == Some(m) && buffer == rest && !failed
      case Wait(rest) => message == None && buffer == rest && !failed
      case Broken => message == None && buffer == before && failed
    }

    method CutOne() returns (message: Option<string>)
      requires !failed
      modifies this
      ensures After(CutMessage(old(buffer)), message, old(buffer))
    {
      var end := FindText(buffer, HEAD_END);
      if end.None? {
        if |buffer| > MAX_MESSAGE {
          failed := true;
        }
        return None;
      }
      var length := FindContentLength(buffer[..end.value]);
      if length.None? || length.value > MAX_MESSAGE || end.value + 4 + length.value > MAX_MESSAGE {
        failed := true;
        return None;
      }
      var total := end.value + 4 + length.value;
      if |buffer| < total {
        return None;
      }
      message := Some(buffer[..total]);
      buffer := buffer[total..];
    }

    /** The next complete message, or nothing until more bytes arrive; nothing ever after a framing error. */
    method Next() returns (message: Option<string>)
      modifies this
      ensures old(failed) ==> message == None && buffer == old(buffer) && failed
      ensures !old(failed) ==> After(CutFront(old(buffer)), message, SkipBreaks(old(buffer)))
    {
      if failed {
        return None;
      }
      DropBreaks();
      if buffer == "" {
        assert CutMessage("") == Wait("");
        return None;
      }
      message := CutOne();
    }

    method Reset()
      modifies this
      ensures buffer == "" && !failed
    {
      buffer, failed := "", false;
    }

    /** `Next`, seen as one step of framing the whole buffer. */
    method TakeNext() returns (message: Option<string>)
      requires !failed
      modifies this
      ensures message.Some? ==>
                && !failed && |buffer| < |old(buffer)|
                && Frames(old(buffer)) == Frames(buffer).(messages := [message.value] + Frames(buffer).messages)
      ensures message.None? ==> Drained(Frames(old(buffer)), [])
    {
      NextFrames(buffer);
      message := Next();
    }

    /** Pushes bytes and takes out every message that is complete by then. */
    method Feed(bytes: string) returns (messages: seq<string>)
      modifies this
      ensures old(failed) ==> messages == [] && failed
      ensures !old(failed) ==> Drained(Frames(old(buffer) + bytes), messages)
    {
      Push(bytes);
      messages := [];
      if failed {
        return;
      }
      ghost var all := Frames(buffer);
      var message := TakeNext();
      while message.Some?
        invariant message.Some? ==>
                    var rest := Frames(buffer);
                    !failed && all == rest.(messages := messages + ([message.value] + rest.messages))
        invariant message.None? ==> Drained(all, messages)
        decreases message.Some?, |buffer|
      {
        Associative(messages, [message.value], Frames(buffer).messages);
        messages := messages + [message.value];
        message := TakeNext();
      }
    }

    /** The framer stands where framing of the stream ended, having given out its messages. */
    ghost predicate Drained(all: Stream, messages: seq<string>)
      reads this
    {
      messages == all.messages && failed == all.failed && (!failed ==> buffer == all.rest)
    }

    /**
     * However a stream is split into pushes, with the framer drained after each, the messages and the final failure
     * are those of the whole stream.
     */
    method FeedAll(chunks: seq<string>) returns (messages: seq<string>)
      requires buffer == "" && !failed
      modifies this
      ensures messages == Frames(Flat(chunks)).messages && failed == Frames(Flat(chunks)).failed
    {
      messages := [];
      assert FindText("", HEAD_END).None?;
      var i := 0;
      while i < |chunks|
        invariant 0 <= i <= |chunks|
        invariant Drained(Frames(Flat(chunks[..i])), messages)
      {
        FlatOneMore(chunks[..i], chunks[i]);
        assert chunks[..i + 1] == chunks[..i] + [chunks[i]];
        ghost var before, after := Frames(Flat(chunks[..i])), Frames(Flat(chunks[..i + 1]));
        assert Resumes(before, after, chunks[i]) by {
          FramesAppend(Flat(chunks[..i]), chunks[i]);
        }
        var more := Feed(chunks[i]);
        assert Drained(after, messages + more);
        messages := messages + more;
        i := i + 1;
      }
      assert chunks[..i] == chunks;
    }
  }

  // ---- The same over values ----

  /** Draining after each of several pushes, from a buffer without errors. */
  function FeedEach(buffer: string, chunks: seq<string>): Stream
    decreases |chunks|
  {
    if chunks == [] then Stream([], false, buffer)
    else
      var now := Frames(buffer + chunks[0]);
      if now.failed then now
      else
        var later := FeedEach(now.rest, chunks[1..]);
        later.(messages := now.messages + later.messages)
  }

  lemma {:induction false} ChunkingFrom(buffer: string, chunks: seq<string>)
    requires Frames(buffer) == Stream([], false, buffer)
    ensures FeedEach(buffer, chunks) == Frames(buffer + Flat(chunks))
    decreases |chunks|
  {
    if chunks == [] {
      assert buffer + "" == buffer;
    } else {
      var s := buffer + chunks[0];
      FramesAppend(s, Flat(chunks[1..]));
      assert buffer + Flat(chunks) == s + Flat(chunks[1..]);
      if !Frames(s).failed {
        RestWaits(s);
        ChunkingFrom(Frames(s).rest, chunks[1..]);
      }
    }
  }

  lemma {:induction false} RestWaits(s: string)
    requires !Frames(s).failed
    ensures Frames(Frames(s).rest) == Stream([], false, Frames(s).rest)
    decreases |s|
  {
    CutShrinks(s);
    match CutFront(s) {
      case Wait(rest) =>
        var gap := SkipBreaksSplits(s);
        assert SkipBreaks(rest) == rest;
      case Whole(_, rest) => RestWaits(rest);
    }
  }

  /** Two ways of splitting the same stream give the same messages and the same verdict. */
  lemma ChunkingIndependence(chunks: seq<string>, others: seq<string>)
    requires Flat(chunks) == Flat(others)
    ensures FeedEach("", chunks) == FeedEach("", others) == Frames(Flat(chunks))
  {
    assert FindText("", HEAD_END).None?;
    ChunkingFrom("", chunks);
    ChunkingFrom("", others);
    assert "" + Flat(chunks) == Flat(chunks);
  }
}
