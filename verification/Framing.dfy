/**
 Newline framing of the app-server's output.

 `receive` keeps a buffer, takes a frame from it when it holds a newline, and otherwise reads another
 chunk. The reference below looks only at the byte stream. Deadlines are not modelled: the pipe's
 remaining chunks are given, and after the last one the pipe is closed.
*/
module Framing {
  import opened Bytes

  const MAX_FRAME_BYTES := 8 * 1024 * 1024

  datatype Outcome = Frame(bytes: seq<Byte>) | TooLong | EmptyFrame | EndOfOutput

  // ---------- The stream, whatever its chunks ----------

  /** Index of the first newline, or the length if there is none. */
  function Find(s: seq<Byte>): (i: nat)
    ensures i <= |s| && (i < |s| ==> s[i] == NEWLINE)
    ensures forall k :: 0 <= k < i ==> s[k] != NEWLINE
  {
    if s == [] || s[0] == NEWLINE then 0 else 1 + Find(s[1..])
  }

  /** More bytes after a newline, or before the first one is seen, do not move it. */
  lemma FindIn(a: seq<Byte>, b: seq<Byte>)
    ensures Find(a) < |a| ==> Find(a + b) == Find(a)
    ensures Find(a) == |a| ==> Find(a + b) >= |a|
  {
    var i := Find(a + b);
    assert forall k :: 0 <= k < |a| ==> (a + b)[k] == a[k];
    assert i < |a| ==> a[i] == NEWLINE;
  }

  /** The next outcome on a stream, and the stream after it. */
  function Next(stream: seq<Byte>): (Outcome, seq<Byte>)
  {
    var i := Find(stream);
    if i > MAX_FRAME_BYTES then (TooLong, stream)
    else if i == |stream| then (EndOfOutput, stream)
    else if i == 0 then (EmptyFrame, stream[1..])
    else (Frame(stream[..i]), stream[i + 1..])
  }

  /** All frames up to the first error, and that error. */
  function Frames(stream: seq<Byte>): (seq<seq<Byte>>, Outcome)
    decreases |stream|
  {
    match Next(stream).0
    case Frame(bytes) =>
      var rest := Frames(Next(stream).1);
      ([bytes] + rest.0, rest.1)
    case error => ([], error)
  }

  function Concat(chunks: seq<seq<Byte>>): seq<Byte>
  {
    if chunks == [] then [] else chunks[0] + Concat(chunks[1..])
  }

  /** Frames with their newlines, as they were on the wire. */
  function Wire(frames: seq<seq<Byte>>): seq<Byte>
  {
    if frames == [] then [] else frames[0] + [NEWLINE] + Wire(frames[1..])
  }

  // ---------- The transport ----------

  class ProcessTransport {
    var buffer: seq<Byte>
    var pipe: seq<seq<Byte>>
    ghost var read: seq<Byte>

    constructor (chunks: seq<seq<Byte>>)
      ensures buffer == [] && pipe == chunks && read == []
    {
      buffer, pipe, read := [], chunks, [];
    }

    /** What is left of the stream: the buffer and everything still in the pipe. */
    ghost function Stream(): seq<Byte>
      reads this
    {
      buffer + Concat(pipe)
    }

    /**
     `receive`. The outcome is the next one of the stream, however it was chunked; a delivered frame
     and its newline leave the stream and nothing else does; `read` grows by what came off the pipe.
    */
    method Receive() returns (outcome: Outcome)
      modifies this
      ensures outcome == Next(old(Stream())).0
      ensures Stream() == Next(old(Stream())).1
      ensures read + Concat(pipe) == old(read + Concat(pipe))
    {
      ghost var stream, all := Stream(), read + Concat(pipe);
      while true
        invariant Stream() == stream
        invariant read + Concat(pipe) == all
        decreases |pipe|
      {
        var newline := Find(buffer);
        FindIn(buffer, Concat(pipe));
        if newline < |buffer| {
          if newline > MAX_FRAME_BYTES { return TooLong; }
          var frame := buffer[..newline];
          assert stream[..newline] == frame && stream[newline + 1..] == buffer[newline + 1..] + Concat(pipe);
          buffer := buffer[newline + 1..];
          return if frame == [] then EmptyFrame else Frame(frame);
        }
        if |buffer| > MAX_FRAME_BYTES { return TooLong; }
        if pipe == [] {
          assert stream == buffer;
          return EndOfOutput;
        }
        ReadChunk();
      }
    }

    method ReadChunk()
      requires pipe != []
      modifies this
      ensures Stream() == old(Stream()) && |pipe| < old(|pipe|)
      ensures read + Concat(pipe) == old(read + Concat(pipe))
      ensures buffer == old(buffer) + old(pipe)[0]
    {
      assert buffer + Concat(pipe) == buffer + pipe[0] + Concat(pipe[1..]);
      assert read + Concat(pipe) == read + pipe[0] + Concat(pipe[1..]);
      buffer, read, pipe := buffer + pipe[0], read + pipe[0], pipe[1..];
    }

    /**
     The session's loop: frames until the first error. The delivered frames with their newlines, a
     consumed empty frame, and what is retained or still in the pipe reassemble the stream.
    */
    method ReceiveAll() returns (frames: seq<seq<Byte>>, last: Outcome)
      modifies this
      ensures (frames, last) == Frames(old(Stream()))
      ensures old(Stream()) == Wire(frames) + (if last.EmptyFrame? then [NEWLINE] else []) + Stream()
      ensures read + Concat(pipe) == old(read + Concat(pipe))
    {
      frames := [];
      ghost var stream := Stream();
      assert frames + Frames(stream).0 == Frames(stream).0;
      while true
        invariant Partway(stream, frames, Stream())
        invariant read + Concat(pipe) == old(read + Concat(pipe))
        decreases |Stream()|
      {
        OneMore(stream, frames, Stream());
        var outcome := Receive();
        if !outcome.Frame? { return frames, outcome; }
        frames := frames + [outcome.bytes];
      }
    }
  }

  /** `frames` have been delivered off the front of `stream`, and `rest` is left. */
  ghost predicate Partway(stream: seq<Byte>, frames: seq<seq<Byte>>, rest: seq<Byte>)
  {
    && Frames(stream) == (frames + Frames(rest).0, Frames(rest).1)
    && stream == Wire(frames) + rest
  }

  lemma OneMore(stream: seq<Byte>, frames: seq<seq<Byte>>, rest: seq<Byte>)
    requires Partway(stream, frames, rest)
    ensures var (outcome, after) := Next(rest);
            if outcome.Frame? then |after| < |rest| && Partway(stream, frames + [outcome.bytes], after)
            else Frames(stream) == (frames, outcome)
                 && stream == Wire(frames) + (if outcome.EmptyFrame? then [NEWLINE] else []) + after
  {
    var (outcome, after) := Next(rest);
    NextReassembles(rest);
    if outcome.Frame? {
      var f := outcome.bytes;
      WireAppend(frames, f);
      Reassociate(frames, [f], Frames(after).0);
      Reassociate(Wire(frames), f + [NEWLINE], after);
    } else {
      assert frames + [] == frames;
      Reassociate(Wire(frames), if outcome.EmptyFrame? then [NEWLINE] else [], after);
    }
  }

  lemma Reassociate<T>(a: seq<T>, b: seq<T>, c: seq<T>)
    ensures a + (b + c) == a + b + c
  {
  }

  lemma NextReassembles(stream: seq<Byte>)
    ensures var (outcome, rest) := Next(stream);
            match outcome
            case Frame(bytes) => stream == bytes + [NEWLINE] + rest
            case EmptyFrame => stream == [NEWLINE] + rest
            case _ => stream == rest
  {
  }

  /** The same bytes in other chunks: the same frames, the same error. */
  method Rechunked(chunks: seq<seq<Byte>>, others: seq<seq<Byte>>)
    returns (frames: seq<seq<Byte>>, last: Outcome, otherFrames: seq<seq<Byte>>, otherLast: Outcome)
    requires Concat(chunks) == Concat(others)
    ensures frames == otherFrames && last == otherLast
  {
    var a := new ProcessTransport(chunks);
    var b := new ProcessTransport(others);
    assert a.Stream() == Concat(chunks) && b.Stream() == Concat(chunks);
    frames, last := a.ReceiveAll();
    otherFrames, otherLast := b.ReceiveAll();
  }

  lemma {:induction false} WireAppend(frames: seq<seq<Byte>>, f: seq<Byte>)
    ensures Wire(frames + [f]) == Wire(frames) + (f + [NEWLINE])
  {
    if frames == [] {
      assert frames + [f] == [f];
    } else {
      assert (frames + [f])[1..] == frames[1..] + [f];
      WireAppend(frames[1..], f);
    }
  }

  // ---------- What the frames are ----------

  predicate Legal(f: seq<Byte>) { 0 < |f| <= MAX_FRAME_BYTES && NEWLINE !in f }

  /** Delivered frames are legal and are exactly the start of the stream. */
  lemma {:induction false} FramesAreLegal(stream: seq<Byte>)
    ensures forall f :: f in Frames(stream).0 ==> Legal(f)
    ensures Wire(Frames(stream).0) <= stream
    decreases |stream|
  {
    if Next(stream).0.Frame? {
      var (outcome, rest) := Next(stream);
      FramesAreLegal(rest);
      NextReassembles(stream);
      assert forall f :: f in Frames(stream).0 <==> f == outcome.bytes || f in Frames(rest).0;
    }
  }

  /** A sender that writes legal frames is read back frame by frame, and then the output ends. */
  lemma {:induction false} WireRoundTrip(frames: seq<seq<Byte>>)
    requires forall f :: f in frames ==> Legal(f)
    ensures Frames(Wire(frames)) == (frames, EndOfOutput)
  {
    if frames != [] {
      var f, rest := frames[0], Wire(frames[1..]);
      FirstFrame(f, rest);
      WireRoundTrip(frames[1..]);
      assert [f] + frames[1..] == frames;
    }
  }

  lemma FirstFrame(f: seq<Byte>, rest: seq<Byte>)
    requires Legal(f)
    ensures Next(f + [NEWLINE] + rest) == (Frame(f), rest)
  {
    var stream := f + [NEWLINE] + rest;
    var i := Find(stream);
    assert stream[|f|] == NEWLINE;
    assert forall k :: 0 <= k < |f| ==> stream[k] == f[k];
    assert i == |f|;
    assert stream[..i] == f && stream[i + 1..] == rest;
  }
}
