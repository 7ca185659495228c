/** The incremental parser that splits a multiplexed container log into stdout and stderr. */
module Demux {
  import opened Wrappers

  type Byte = b: int | 0 <= b < 256

  datatype Frame = Frame(kind: Byte, payload: seq<Byte>)

  /** One element of a result: a log line, or the notice that only `shown` of `total` lines follow. */
  datatype Line = Text(bytes: seq<Byte>) | Truncated(log: string, shown: nat, total: nat)

  const STDERR: Byte := 2
  const HEADER: nat := 8

  // ---- The wire format ----

  function ReadUInt32BE(b: seq<Byte>): (n: nat)
    requires |b| == 4
    ensures n < 0x1_0000_0000
  {
    var b0: int, b1: int, b2: int, b3: int := b[0], b[1], b[2], b[3];
    b0 * 0x100_0000 + b1 * 0x1_0000 + b2 * 0x100 + b3
  }

  function WriteUInt32BE(n: nat): (b: seq<Byte>)
    requires n < 0x1_0000_0000
    ensures |b| == 4 && ReadUInt32BE(b) == n
  {
    var high3 := n / 0x100;
    var high2 := high3 / 0x100;
    [high2 / 0x100, high2 % 0x100, high3 % 0x100, n % 0x100]
  }

  /** Frames a sender can produce. */
  predicate Sendable(f: Frame) { 0 < |f.payload| < 0x1_0000_0000 }

  function Encode(f: Frame): seq<Byte>
    requires Sendable(f)
  {
    [f.kind, 0, 0, 0] + WriteUInt32BE(|f.payload|) + f.payload
  }

  function EncodeAll(frames: seq<Frame>): seq<Byte>
    requires forall f | f in frames :: Sendable(f)
  {
    if frames == [] then [] else Encode(frames[0]) + EncodeAll(frames[1..])
  }

  /** A frame on the wire: the kind, three zeros, the length with its most significant byte first, the payload. */
  lemma EncodedBytes(f: Frame)
    requires Sendable(f)
    ensures var b := Encode(f);
      && |b| == 8 + |f.payload| && b[0] == f.kind && b[1] == b[2] == b[3] == 0
      && ((b[4] as int * 256 + b[5] as int) * 256 + b[6] as int) * 256 + b[7] as int == |f.payload|
      && b[8..] == f.payload
  {
    var size := WriteUInt32BE(|f.payload|);
    assert Encode(f)[4..8] == size;
  }

  // ---- What a byte stream contains ----

  datatype Parsed = Parsed(frames: seq<Frame>, rest: seq<Byte>)

  /** The frames that `bytes` completes and what is left over. A header announcing no payload is never
      completed: reading zero bytes yields nothing. */
  function Split(bytes: seq<Byte>): Parsed
    decreases |bytes|
  {
    if |bytes| < HEADER then Parsed([], bytes)
    else
      var size := ReadUInt32BE(bytes[4..HEADER]);
      if size == 0 || |bytes| < HEADER + size then Parsed([], bytes)
      else
        var tail := Split(bytes[HEADER + size..]);
        Parsed([Frame(bytes[0], bytes[HEADER..HEADER + size])] + tail.frames, tail.rest)
  }

  /** Parsing can stop anywhere and go on with what was left over. */
  lemma {:induction false} SplitResumes(a: seq<Byte>, b: seq<Byte>)
    ensures Split(a + b).frames == Split(a).frames + Split(Split(a).rest + b).frames
    ensures Split(a + b).rest == Split(Split(a).rest + b).rest
    decreases |a|
  {
    if |a| >= HEADER {
      var size := ReadUInt32BE(a[4..HEADER]);
      assert (a + b)[4..HEADER] == a[4..HEADER];
      if size != 0 && |a| >= HEADER + size {
        var next := a[HEADER + size..];
        var first := [Frame(a[0], a[HEADER..HEADER + size])];
        assert (a + b)[HEADER + size..] == next + b;
        assert (a + b)[HEADER..HEADER + size] == a[HEADER..HEADER + size];
        SplitResumes(next, b);
        assert Split(a) == Parsed(first + Split(next).frames, Split(next).rest);
        assert Split(a + b) == Parsed(first + Split(next + b).frames, Split(next + b).rest);
      } else {
        assert Split(a) == Parsed([], a);
      }
    } else {
      assert Split(a) == Parsed([], a);
    }
  }

  /** Decoding gives back exactly the frames that were sent, whole. */
  lemma {:induction false} SplitEncoded(frames: seq<Frame>)
    requires forall f | f in frames :: Sendable(f)
    ensures Split(EncodeAll(frames)) == Parsed(frames, [])
  {
    if frames != [] {
      var f, bytes := frames[0], EncodeAll(frames);
      var size := |f.payload|;
      var first := Encode(f);
      assert bytes == first + EncodeAll(frames[1..]);
      assert bytes[4..HEADER] == first[4..HEADER] == WriteUInt32BE(size);
      assert bytes[HEADER..HEADER + size] == first[HEADER..] == f.payload;
      assert bytes[HEADER + size..] == EncodeAll(frames[1..]);
      SplitEncoded(frames[1..]);
    }
  }

  /** `received` has been parsed into `frames`, and all but `unparsed` of it is used up. */
  ghost predicate ParsedTo(received: seq<Byte>, frames: seq<Frame>, unparsed: seq<Byte>) {
    Split(received) == Parsed(frames + Split(unparsed).frames, Split(unparsed).rest)
  }

  lemma ParseMore(received: seq<Byte>, frames: seq<Frame>, unparsed: seq<Byte>, bytes: seq<Byte>)
    requires ParsedTo(received, frames, unparsed) && Split(unparsed).frames == []
    ensures ParsedTo(received + bytes, frames, unparsed + bytes)
  {
    assert frames + [] == frames;
    assert Split(received).frames == frames && Split(received).rest == unparsed;
    SplitResumes(received, bytes);
  }

  lemma ParseFrame(received: seq<Byte>, frames: seq<Frame>, header: seq<Byte>, payload: seq<Byte>, rest: seq<Byte>)
    requires ParsedTo(received, frames, header + (payload + rest))
    requires |header| == HEADER && 0 < |payload| == ReadUInt32BE(header[4..])
    ensures ParsedTo(received, frames + [Frame(header[0], payload)], rest)
  {
    var unparsed := header + (payload + rest);
    assert unparsed[4..HEADER] == header[4..];
    assert unparsed[HEADER..HEADER + |payload|] == payload;
    assert unparsed[HEADER + |payload|..] == rest;
    assert frames + Split(unparsed).frames == frames + [Frame(header[0], payload)] + Split(rest).frames;
  }

  lemma NoFrameYet(header: seq<Byte>, buffered: seq<Byte>)
    requires |header| == HEADER
    requires ReadUInt32BE(header[4..]) == 0 || ReadUInt32BE(header[4..]) > |buffered|
    ensures Split(header + buffered).frames == []
  {
  }

  /** With the header read, the rest of the frame is there or not. */
  lemma AfterHeader(received: seq<Byte>, frames: seq<Frame>, header: seq<Byte>, body: seq<Byte>)
    requires |header| == HEADER && ParsedTo(received, frames, header + body)
    ensures var size := ReadUInt32BE(header[4..]);
      if 0 < size <= |body| then ParsedTo(received, frames + [Frame(header[0], body[..size])], body[size..])
      else Split(header + body).frames == []
  {
    var size := ReadUInt32BE(header[4..]);
    if 0 < size <= |body| {
      assert body == body[..size] + body[size..];
      ParseFrame(received, frames, header, body[..size], body[size..]);
    } else {
      NoFrameYet(header, body);
    }
  }

  // ---- What is shown of it ----

  /** The payloads of one stream, in order: stderr frames are of kind 2, all others are stdout. */
  function Payloads(frames: seq<Frame>, stderr: bool): seq<seq<Byte>> {
    if frames == [] then []
    else
      var n := |frames| - 1;
      Payloads(frames[..n], stderr) + if (frames[n].kind == STDERR) == stderr then [frames[n].payload] else []
  }

  /** One more frame is the last payload of its stream. */
  lemma PayloadsMore(frames: seq<Frame>, f: Frame)
    ensures var stderr := f.kind == STDERR;
      && Payloads(frames + [f], stderr) == Payloads(frames, stderr) + [f.payload]
      && Payloads(frames + [f], !stderr) == Payloads(frames, !stderr)
  {
    var more := frames + [f];
    assert more[..|more| - 1] == frames;
  }

  /** Every frame is in the stream of its kind, after the earlier ones of that stream, */
  lemma {:induction false} PayloadsInOrder(frames: seq<Frame>, i: nat)
    requires i < |frames|
    ensures var stderr := frames[i].kind == 2;
      var at := |Payloads(frames[..i], stderr)|;
      at < |Payloads(frames, stderr)| && Payloads(frames, stderr)[at] == frames[i].payload
  {
    var n := |frames| - 1;
    if i < n {
      PayloadsInOrder(frames[..n], i);
      assert frames[..n][..i] == frames[..i];
    }
  }

  /** and nothing else is in a stream. */
  lemma {:induction false} PayloadsAreFrames(frames: seq<Frame>)
    ensures |Payloads(frames, true)| + |Payloads(frames, false)| == |frames|
  {
    if frames != [] { PayloadsAreFrames(frames[..|frames| - 1]); }
  }

  /** The last `size` elements; all of them when there is no limit. */
  function Last<T>(s: seq<T>, size: Option<nat>): seq<T> {
    if size.None? || |s| <= size.value then s else s[|s| - size.value..]
  }

  function Twice(size: Option<nat>): Option<nat> {
    if size.None? then None else Some(2 * size.value)
  }

  /** Cutting to the wide window while lines come in loses nothing the wide or the final cut would keep. */
  lemma WindowKeepsLast<T>(s: seq<T>, x: T, tail: Option<nat>)
    ensures Last(Last(s, Twice(tail)) + [x], Twice(tail)) == Last(s + [x], Twice(tail))
  {
  }

  lemma LastTwice<T>(s: seq<T>, size: Option<nat>)
    ensures Last(Last(s, size), size) == Last(s, size)
  {
  }

  lemma FinalCutKeepsLast<T>(s: seq<T>, tail: Option<nat>)
    ensures Last(Last(s, Twice(tail)), tail) == Last(s, tail)
    ensures tail.Some? ==> |Last(s, Twice(tail))| == if |s| < 2 * tail.value then |s| else 2 * tail.value
  {
  }

  /** One stream as it should be delivered: its last `tail` payloads in order, under a notice giving the
      true total exactly when some were dropped. */
  function Delivered(log: string, payloads: seq<seq<Byte>>, tail: Option<nat>): seq<Line> {
    (if tail.Some? && |payloads| > tail.value then [Truncated(log, tail.value, |payloads|)] else [])
    + Lines(Last(payloads, tail))
  }

  function Lines(payloads: seq<seq<Byte>>): (lines: seq<Line>)
    ensures |lines| == |payloads|
  {
    seq(|payloads|, i requires 0 <= i < |payloads| => Text(payloads[i]))
  }

  function Titled(log: string, shown: seq<seq<Byte>>, total: nat): seq<Line> {
    (if total > |shown| then [Truncated(log, |shown|, total)] else []) + Lines(shown)
  }

  lemma TitledIsDelivered(log: string, sent: seq<seq<Byte>>, tail: Option<nat>)
    ensures Titled(log, Last(sent, tail), |sent|) == Delivered(log, sent, tail)
  {
  }

  /** These lines are what is shown of a stream, line by line: a notice with the true total exactly when some
      payloads are left out, and then the last ones in order. */
  ghost predicate Shows(lines: seq<Line>, log: string, payloads: seq<seq<Byte>>, tail: Option<nat>) {
    var total := |payloads|;
    var shown := if tail.Some? && tail.value < total then tail.value else total;
    var notice := if shown < total then 1 else 0;
    && |lines| == notice + shown
    && (notice == 1 ==> lines[0] == Truncated(log, shown, total))
    && forall i | notice <= i < |lines| :: lines[i] == Text(payloads[total - |lines| + i])
  }

  lemma DeliveredShows(log: string, payloads: seq<seq<Byte>>, tail: Option<nat>)
    ensures Shows(Delivered(log, payloads, tail), log, payloads, tail)
  {
  }

  // ---- The parser ----

  class Demuxer {
    const tail: Option<nat>
    // the stream's internal buffer and everything that ever arrived in it
    var buffered: seq<Byte>
    ghost var received: seq<Byte>
    // the parser
    var header: Option<seq<Byte>>
    var stdout: seq<seq<Byte>>
    var stderr: seq<seq<Byte>>
    var stdoutLength: nat
    var stderrLength: nat
    ghost var frames: seq<Frame>

    constructor (tail: Option<nat>)
      ensures Valid() && received == [] && this.tail == tail && Idle()
    {
      this.tail := tail;
      buffered, header := [], None;
      stdout, stderr, stdoutLength, stderrLength := [], [], 0, 0;
      received, frames := [], [];
    }

    /** What has arrived and is not part of a finished frame. */
    ghost function Unparsed(): seq<Byte>
      reads this
    {
      (if header.Some? then header.value else []) + buffered
    }

    ghost predicate Valid()
      reads this
    {
      && (header.Some? ==> |header.value| == HEADER)
      && ParsedTo(received, frames, Unparsed())
      && Kept()
    }

    /** The windows hold what they should of the finished frames. */
    ghost predicate Kept()
      reads this
    {
      && stdoutLength == |Payloads(frames, false)| && stdout == Last(Payloads(frames, false), Twice(tail))
      && stderrLength == |Payloads(frames, true)| && stderr == Last(Payloads(frames, true), Twice(tail))
    }

    /** No frame can be finished from what has arrived. */
    ghost predicate Idle()
      reads this
    {
      Split(Unparsed()).frames == []
    }

    /** `stream.read(n)` before the end of the stream: n bytes if there are that many, nothing otherwise. */
    method Read(n: nat) returns (bytes: Option<seq<Byte>>)
      modifies this`buffered
      ensures n == 0 || n > |old(buffered)| ==> bytes == None && buffered == old(buffered)
      ensures 0 < n <= |old(buffered)| ==> bytes == Some(old(buffered)[..n]) && buffered == old(buffered)[n..]
    {
      if n == 0 || n > |buffered| { return None; }
      bytes := Some(buffered[..n]);
      buffered := buffered[n..];
    }

    method ReadFrame() returns (chunk: Option<seq<Byte>>)
      requires Valid()
      modifies this`buffered, this`header
      ensures chunk.None? ==> Valid() && Idle()
      ensures chunk.Some? ==>
          && header.Some? && |header.value| == HEADER
          && ParsedTo(received, frames + [Frame(header.value[0], chunk.value)], buffered)
      ensures |buffered| <= |old(buffered)| && (chunk.Some? ==> |buffered| < |old(buffered)|)
    {
      ghost var unparsed := Unparsed();
      if header.None? {
        header := Read(HEADER);
      }
      if header.None? { return None; }
      assert Unparsed() == unparsed;
      var size := ReadUInt32BE(header.value[4..]);
      AfterHeader(received, frames, header.value, buffered);
      chunk := Read(size);
    }

    method TakeRight(size: Option<nat>)
      modifies this`stdout, this`stderr
      ensures stdout == Last(old(stdout), size) && stderr == Last(old(stderr), size)
    {
      if size.Some? && |stdout| > size.value { stdout := stdout[|stdout| - size.value..]; }
      if size.Some? && |stderr| > size.value { stderr := stderr[|stderr| - size.value..]; }
    }

    method OnFrame(kind: Byte, chunk: seq<Byte>)
      requires Kept()
      modifies this`stdout, this`stderr, this`stdoutLength, this`stderrLength, this`frames
      ensures Kept() && frames == old(frames) + [Frame(kind, chunk)]
    {
      ghost var sentOut, sentErr := Payloads(frames, false), Payloads(frames, true);
      PayloadsMore(frames, Frame(kind, chunk));
      WindowKeepsLast(if kind == STDERR then sentErr else sentOut, chunk, tail);
      LastTwice(if kind == STDERR then sentOut else sentErr, Twice(tail));
      if kind == STDERR {
        stderrLength := stderrLength + 1;
        stderr := stderr + [chunk];
      } else {
        stdoutLength := stdoutLength + 1;
        stdout := stdout + [chunk];
      }
      TakeRight(Twice(tail));
      frames := frames + [Frame(kind, chunk)];
    }

    method OnReadable()
      requires Valid()
      modifies this
      ensures Valid() && Idle() && received == old(received)
    {
      var chunk := ReadFrame();
      while chunk.Some?
        invariant received == old(received)
        invariant chunk.None? ==> Valid() && Idle()
        invariant chunk.Some? ==>
            && header.Some? && |header.value| == HEADER
            && ParsedTo(received, frames + [Frame(header.value[0], chunk.value)], buffered)
        invariant Kept()
        decreases |buffered|, chunk.Some?
      {
        OnFrame(header.value[0], chunk.value);
        header := None;
        assert Unparsed() == buffered;
        chunk := ReadFrame();
      }
    }

    /** More bytes arrive and the stream becomes readable. */
    method Arrive(bytes: seq<Byte>)
      requires Valid() && Idle()
      modifies this
      ensures Valid() && Idle() && received == old(received) + bytes
    {
      ghost var before := Unparsed();
      ParseMore(received, frames, before, bytes);
      buffered := buffered + bytes;
      received := received + bytes;
      assert Unparsed() == before + bytes;
      OnReadable();
    }

    method OnEnd() returns (out: seq<Line>, err: seq<Line>)
      requires Valid() && Idle()
      modifies this`stdout, this`stderr
      ensures out == Delivered("stdout", Payloads(Split(received).frames, false), tail)
      ensures err == Delivered("stderr", Payloads(Split(received).frames, true), tail)
    {
      assert frames + [] == frames == Split(received).frames;
      ghost var sentOut, sentErr := Payloads(frames, false), Payloads(frames, true);
      FinalCutKeepsLast(sentOut, tail);
      FinalCutKeepsLast(sentErr, tail);
      TakeRight(tail);
      TitledIsDelivered("stdout", sentOut, tail);
      TitledIsDelivered("stderr", sentErr, tail);
      out := Titled("stdout", stdout, stdoutLength);
      err := Titled("stderr", stderr, stderrLength);
    }
  }

  function Concat(chunks: seq<seq<Byte>>): seq<Byte> {
    if chunks == [] then [] else Concat(chunks[..|chunks| - 1]) + chunks[|chunks| - 1]
  }

  /** A whole stream: how the bytes are cut into chunks does not show in the result, */
  method DemuxChunks(chunks: seq<seq<Byte>>, tail: Option<nat>) returns (out: seq<Line>, err: seq<Line>)
    ensures var sent := Split(Concat(chunks)).frames;
      && out == Delivered("stdout", Payloads(sent, false), tail)
      && err == Delivered("stderr", Payloads(sent, true), tail)
      && Shows(out, "stdout", Payloads(sent, false), tail) && Shows(err, "stderr", Payloads(sent, true), tail)
  {
    var demuxer := new Demuxer(tail);
    for i := 0 to |chunks|
      invariant demuxer.Valid() && demuxer.Idle() && demuxer.tail == tail && fresh(demuxer)
      invariant demuxer.received == Concat(chunks[..i])
    {
      assert chunks[..i + 1][..i] == chunks[..i];
      demuxer.Arrive(chunks[i]);
    }
    assert chunks[..|chunks|] == chunks;
    out, err := demuxer.OnEnd();
    DeliveredShows("stdout", Payloads(Split(Concat(chunks)).frames, false), tail);
    DeliveredShows("stderr", Payloads(Split(Concat(chunks)).frames, true), tail);
  }

  /** and for whole frames the result is made of exactly the payloads sent. */
  method DemuxFrames(frames: seq<Frame>, chunks: seq<seq<Byte>>, tail: Option<nat>) returns (out: seq<Line>, err: seq<Line>)
    requires forall f | f in frames :: Sendable(f)
    requires Concat(chunks) == EncodeAll(frames)
    ensures Shows(out, "stdout", Payloads(frames, false), tail)
    ensures Shows(err, "stderr", Payloads(frames, true), tail)
  {
    SplitEncoded(frames);
    out, err := DemuxChunks(chunks, tail);
  }
}
