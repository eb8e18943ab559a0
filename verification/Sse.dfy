/**
 Framing of server-sent event streams (`SSEDecoder.feed` in protocols.py): bytes arrive in chunks of any
 size, and frames end at a blank line, with LF or CRLF line ends as in section 9.2.5 of the WHATWG HTML
 Standard; a lone CR ends no line here.
 */
module Sse {
  import opened Basics

  type Byte = n: nat | n < 256
  const LF: Byte := 10
  const CR: Byte := 13

  /** A blank line ends just before position `i`: LF LF, or LF CR LF, starting at `from` or later. */
  predicate EndsAt(s: seq<Byte>, from: nat, i: nat) {
    && from + 2 <= i <= |s| && s[i - 1] == LF
    && (s[i - 2] == LF || (from + 3 <= i && s[i - 2] == CR && s[i - 3] == LF))
  }

  /** The first position, from `i` on, where a frame that began at `from` ends; past the end if none. */
  function FrameEnd(s: seq<Byte>, from: nat, i: nat): (e: nat)
    requires from < i <= |s| + 1
    ensures i <= e <= |s| + 1 && (e <= |s| ==> EndsAt(s, from, e))
    ensures forall j :: i <= j < e ==> !EndsAt(s, from, j)
    decreases |s| + 1 - i
  {
    if i > |s| || EndsAt(s, from, i) then i else FrameEnd(s, from, i + 1)
  }

  /** Complete frames, and the bytes after the last of them. */
  datatype Split = Split(frames: seq<seq<Byte>>, rest: seq<Byte>)

  /** What one whole feed of the bytes from `from` on gives. */
  function Framed(s: seq<Byte>, from: nat): Split
    requires from <= |s|
    decreases |s| - from
  {
    var e := FrameEnd(s, from, from + 1);
    if e > |s| then Split([], s[from..])
    else
      var later := Framed(s, e);
      Split([s[from..e]] + later.frames, later.rest)
  }

  function Flatten(frames: seq<seq<Byte>>): seq<Byte> {
    if frames == [] then [] else frames[0] + Flatten(frames[1..])
  }

  /** Frames and remainder reproduce the input, byte for byte. */
  lemma {:induction false} FramesReproduce(s: seq<Byte>, from: nat)
    requires from <= |s|
    ensures Flatten(Framed(s, from).frames) + Framed(s, from).rest == s[from..]
    decreases |s| - from
  {
    var e := FrameEnd(s, from, from + 1);
    if e <= |s| {
      FramesReproduce(s, e);
      var later := Framed(s, e);
      var all := [s[from..e]] + later.frames;
      assert all[1..] == later.frames;
      assert s[from..] == s[from..e] + s[e..];
    }
  }

  /** Where a frame ends depends only on the bytes of the frame. */
  lemma {:induction false} FrameEndShifts(a: seq<Byte>, s: seq<Byte>, from: nat, i: nat, k: nat)
    requires from < i <= |s| + 1 && k <= from && |a| == |s| - k && a == s[k..]
    ensures FrameEnd(a, from - k, i - k) == FrameEnd(s, from, i) - k
    decreases |s| + 1 - i
  {
    if i <= |s| {
      assert forall j :: k <= j < |s| ==> s[j] == a[j - k];
      assert EndsAt(s, from, i) <==> EndsAt(a, from - k, i - k);
      if !EndsAt(s, from, i) {
        FrameEndShifts(a, s, from, i + 1, k);
      }
    }
  }

  lemma {:induction false} FramedShifts(a: seq<Byte>, s: seq<Byte>, from: nat, k: nat)
    requires k <= from <= |s| && a == s[k..]
    ensures Framed(a, from - k) == Framed(s, from)
    decreases |s| - from
  {
    hide Framed, FrameEnd, Plus;
    FrameEndShifts(a, s, from, from + 1, k);
    FramedStep(s, from);
    FramedStep(a, from - k);
    var e := FrameEnd(s, from, from + 1);
    if e > |s| {
      assert a[from - k..] == s[from..];
    } else {
      assert a[from - k..e - k] == s[from..e];
      FramedShifts(a, s, e, k);
    }
  }

  lemma {:induction false} FrameEndExtends(a: seq<Byte>, b: seq<Byte>, from: nat, i: nat)
    requires from < i <= |a| + 1
    ensures FrameEnd(a, from, i) <= |a| ==> FrameEnd(a + b, from, i) == FrameEnd(a, from, i)
    decreases |a| + 1 - i
  {
    if i <= |a| {
      assert EndsAt(a + b, from, i) <==> EndsAt(a, from, i);
      if !EndsAt(a, from, i) {
        FrameEndExtends(a, b, from, i + 1);
      }
    }
  }

  function Plus(frames: seq<seq<Byte>>, later: Split): Split {
    Split(frames + later.frames, later.rest)
  }

  lemma FramedStep(s: seq<Byte>, from: nat)
    requires from <= |s|
    ensures var e := FrameEnd(s, from, from + 1);
            Framed(s, from) == if e > |s| then Split([], s[from..]) else Plus([s[from..e]], Framed(s, e))
  {
  }

  lemma PlusAssociates(a: seq<seq<Byte>>, b: seq<seq<Byte>>, later: Split)
    ensures Plus(a, Plus(b, later)) == Plus(a + b, later)
    ensures Plus([], later) == later
  {
    assert a + (b + later.frames) == a + b + later.frames;
    assert [] + later.frames == later.frames;
  }

  /** Feeding more later is feeding it all at once: only the unfinished rest matters. */
  lemma {:induction false} FramedExtends(a: seq<Byte>, b: seq<Byte>, from: nat)
    requires from <= |a|
    ensures Framed(a + b, from) == Plus(Framed(a, from).frames, Framed(Framed(a, from).rest + b, 0))
    decreases |a| - from
  {
    hide Framed, FrameEnd, Plus;
    var e := FrameEnd(a, from, from + 1);
    FramedStep(a, from);
    if e > |a| {
      assert a[from..] + b == (a + b)[from..];
      FramedShifts(a[from..] + b, a + b, from, from);
      PlusAssociates([], [], Framed(a + b, from));
    } else {
      FrameEndExtends(a, b, from, from + 1);
      FramedStep(a + b, from);
      FramedExtends(a, b, e);
      assert (a + b)[from..e] == a[from..e];
      PlusParts([a[from..e]], Framed(a, e));
      PlusAssociates([a[from..e]], Framed(a, e).frames, Framed(Framed(a, e).rest + b, 0));
    }
  }

  lemma PlusParts(frames: seq<seq<Byte>>, later: Split)
    ensures Plus(frames, later).frames == frames + later.frames && Plus(frames, later).rest == later.rest
  {
  }

  // ---------------------------------------------------------------- any split into chunks

  function Concat(chunks: seq<seq<Byte>>): seq<Byte> {
    if chunks == [] then [] else Concat(chunks[..|chunks| - 1]) + Last(chunks)
  }

  /** A decoder fed chunk after chunk: its frames in order and its buffer, or nothing once it failed. */
  function Fed(chunks: seq<seq<Byte>>, limit: nat): Option<Split> {
    if chunks == [] then Some(Split([], []))
    else
      var before := Fed(chunks[..|chunks| - 1], limit);
      if before.None? then None
      else
        var after := Framed(before.value.rest + Last(chunks), 0);
        if |after.rest| > limit then None else Some(Plus(before.value.frames, after))
  }

  /** Every split of a stream that raises no error gives the frames and the buffer of one whole feed. */
  lemma {:induction false} ChunksDoNotMatter(chunks: seq<seq<Byte>>, limit: nat)
    requires Fed(chunks, limit).Some?
    ensures Fed(chunks, limit).value == Framed(Concat(chunks), 0)
    decreases |chunks|
  {
    if chunks != [] {
      ChunksDoNotMatter(chunks[..|chunks| - 1], limit);
      FramedExtends(Concat(chunks[..|chunks| - 1]), Last(chunks), 0);
    }
  }

  /** A split raises no error exactly when after each chunk the unfinished rest is within the limit. So a
      stream whose rest is too long at the end fails however it is split. */
  lemma {:induction false} SplitsFailAlike(chunks: seq<seq<Byte>>, limit: nat)
    ensures Fed(chunks, limit).Some? <==> forall n :: 0 < n <= |chunks| ==> |Framed(Concat(chunks[..n]), 0).rest| <= limit
    decreases |chunks|
  {
    hide Framed;
    var m := |chunks|;
    if m > 0 {
      var init := chunks[..m - 1];
      SplitsFailAlike(init, limit);
      assert forall n :: 0 < n <= m - 1 ==> init[..n] == chunks[..n];
      assert chunks[..m] == chunks;
      if Fed(init, limit).Some? {
        ChunksDoNotMatter(init, limit);
        FramedExtends(Concat(init), Last(chunks), 0);
        assert Framed(Concat(chunks), 0).rest == Framed(Fed(init, limit).value.rest + Last(chunks), 0).rest;
      }
    }
  }

  // ---------------------------------------------------------------- a sender's events

  /** A field line and how it ends. */
  datatype Line = Line(text: seq<Byte>, crlf: bool)
  /** An event: its lines, and how the blank line after them ends. */
  datatype Message = Message(lines: seq<Line>, crlf: bool)

  function LineEnd(crlf: bool): seq<Byte> {
    if crlf then [CR, LF] else [LF]
  }

  predicate CleanLine(l: Line) {
    l.text != [] && forall i :: 0 <= i < |l.text| ==> l.text[i] != LF && l.text[i] != CR
  }

  predicate Clean(m: Message) {
    m.lines != [] && forall i :: 0 <= i < |m.lines| ==> CleanLine(m.lines[i])
  }

  function EncodeLines(lines: seq<Line>): seq<Byte> {
    if lines == [] then [] else EncodeLines(lines[..|lines| - 1]) + Last(lines).text + LineEnd(Last(lines).crlf)
  }

  function Encode(m: Message): seq<Byte> {
    EncodeLines(m.lines) + LineEnd(m.crlf)
  }

  function EncodeAll(ms: seq<Message>): seq<Byte> {
    if ms == [] then [] else Encode(ms[0]) + EncodeAll(ms[1..])
  }

  function Encoded(ms: seq<Message>): seq<seq<Byte>> {
    if ms == [] then [] else [Encode(ms[0])] + Encoded(ms[1..])
  }

  ghost predicate Endless(s: seq<Byte>) {
    forall i :: 0 <= i <= |s| ==> !EndsAt(s, 0, i)
  }

  /** One more line with something on it ends no frame. */
  lemma LineIsEndless(s: seq<Byte>, l: Line)
    requires Endless(s) && CleanLine(l)
    ensures Endless(s + l.text + LineEnd(l.crlf))
  {
    var n, all := |s| + |l.text|, s + l.text + LineEnd(l.crlf);
    assert all[n - 1] == l.text[|l.text| - 1];
    forall i | 0 <= i <= |all| ensures !EndsAt(all, 0, i) {
      if i <= |s| {
        assert all[..i] == s[..i];
        assert EndsAt(s, 0, i) <==> EndsAt(all, 0, i);
      } else if i <= n {
        assert all[i - 1] == l.text[i - 1 - |s|];
      }
    }
  }

  lemma {:induction false} LinesAreEndless(lines: seq<Line>)
    requires forall i :: 0 <= i < |lines| ==> CleanLine(lines[i])
    ensures Endless(EncodeLines(lines))
    ensures lines != [] ==> |EncodeLines(lines)| >= 2 && Last(EncodeLines(lines)) == LF
    decreases |lines|
  {
    if lines != [] {
      LinesAreEndless(lines[..|lines| - 1]);
      LineIsEndless(EncodeLines(lines[..|lines| - 1]), Last(lines));
    }
  }

  /** A frame ends with its blank line, LF or CRLF, and not before. */
  lemma MessageEnds(m: Message, rest: seq<Byte>)
    requires Clean(m)
    ensures FrameEnd(Encode(m) + rest, 0, 1) == |Encode(m)|
  {
    hide FrameEnd;
    LinesAreEndless(m.lines);
    var lines, all := EncodeLines(m.lines), Encode(m) + rest;
    var n := |Encode(m)|;
    forall i | 0 <= i < n ensures !EndsAt(all, 0, i) {
      if i <= |lines| {
        assert all[..i] == lines[..i];
        assert EndsAt(lines, 0, i) <==> EndsAt(all, 0, i);
      } else {
        assert all[i - 1] == CR;
      }
    }
    assert all[|lines| - 1] == LF;
    assert EndsAt(all, 0, n);
  }

  /** An event of lines with LF or CRLF ends is exactly one frame. */
  lemma MessageIsOneFrame(m: Message, rest: seq<Byte>)
    requires Clean(m)
    ensures Framed(Encode(m) + rest, 0) == Plus([Encode(m)], Framed(rest, 0))
  {
    hide FrameEnd, Framed, Encode;
    var all, n := Encode(m) + rest, |Encode(m)|;
    MessageEnds(m, rest);
    FramedStep(all, 0);
    assert all[0..n] == Encode(m) && all[n..] == rest;
    FramedShifts(rest, all, n, n);
  }

  /** A stream of events is framed into exactly those events, with nothing left over. */
  lemma {:induction false} MessagesRoundTrip(ms: seq<Message>)
    requires forall i :: 0 <= i < |ms| ==> Clean(ms[i])
    ensures Framed(EncodeAll(ms), 0) == Split(Encoded(ms), [])
    decreases |ms|
  {
    if ms != [] {
      MessagesRoundTrip(ms[1..]);
      MessageIsOneFrame(ms[0], EncodeAll(ms[1..]));
    }
  }

  /** And so it is however it is split into chunks. */
  lemma ChunksGiveMessages(ms: seq<Message>, chunks: seq<seq<Byte>>, limit: nat)
    requires (forall i :: 0 <= i < |ms| ==> Clean(ms[i])) && Concat(chunks) == EncodeAll(ms) && Fed(chunks, limit).Some?
    ensures Fed(chunks, limit).value == Split(Encoded(ms), [])
  {
    ChunksDoNotMatter(chunks, limit);
    MessagesRoundTrip(ms);
  }

  class SSEDecoder {
    var buffer: seq<Byte>
    const maxBuffer: nat

    constructor (maxBuffer: nat)
      ensures buffer == [] && this.maxBuffer == maxBuffer
    {
      buffer, this.maxBuffer := [], maxBuffer;
    }

    /** Returns the frames the chunk completes; fails if the unfinished rest exceeds the limit. */
    method Feed(chunk: seq<Byte>) returns (ok: bool, frames: seq<seq<Byte>>)
      modifies this
      ensures buffer == Framed(old(buffer) + chunk, 0).rest
      ensures ok <==> |buffer| <= maxBuffer
      ensures ok ==> frames == Framed(old(buffer) + chunk, 0).frames
    {
      var all := buffer + chunk;
      var start := 0;
      frames := [];
      ghost var whole := Framed(all, 0);
      while true
        invariant start <= |all|
        invariant whole == Split(frames + Framed(all, start).frames, Framed(all, start).rest)
        decreases |all| - start
      {
        var end := FrameEnd(all, start, start + 1);
        if end > |all| {
          break;
        }
        assert frames + ([all[start..end]] + Framed(all, end).frames) == frames + [all[start..end]] + Framed(all, end).frames;
        frames := frames + [all[start..end]];
        start := end;
      }
      assert frames + [] == frames;
      buffer := all[start..];
      ok := |buffer| <= maxBuffer;
    }
  }
}
