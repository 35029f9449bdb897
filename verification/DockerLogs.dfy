/** The multiplexed log stream of a container and the loop of `SubscribeEvents` that decodes it into
    lines (internal/sandbox/docker.go). */
module DockerLogs {

  type Byte = b: int | 0 <= b < 256
  type Bytes = seq<Byte>

  const NL: Byte := 10
  const CR: Byte := 13

  /** `bufio.MaxScanTokenSize`: a line of this length or more stops the scanner. */
  const SCAN_LIMIT: nat := 65536

  datatype Stream = Stdout | Stderr

  datatype SandboxEvent = SandboxEvent(stream: Stream, line: Bytes)

  // Lines of one frame.

  /** The length of the first line: up to the next newline, or all of the data. */
  function LineLength(data: Bytes): (j: nat)
    ensures j <= |data| && (forall k :: 0 <= k < j ==> data[k] != NL) && (j < |data| ==> data[j] == NL)
  {
    if data == [] || data[0] == NL then 0 else 1 + LineLength(data[1..])
  }

  /** `strings.TrimRight(line, "\r\n")`; the scanner has dropped the newline and one carriage return. */
  function Trim(line: Bytes): (t: Bytes)
    ensures t <= line && (t != [] ==> t[|t| - 1] != CR && t[|t| - 1] != NL)
    ensures forall k :: |t| <= k < |line| ==> line[k] == CR || line[k] == NL
  {
    if line != [] && (line[|line| - 1] == CR || line[|line| - 1] == NL) then Trim(line[..|line| - 1]) else line
  }

  function Nonempty(line: Bytes): seq<Bytes> { if line == [] then [] else [line] }

  /** The lines the scanner hands out, trimmed, without the empty ones. */
  function Lines(data: Bytes): seq<Bytes>
    decreases |data|
  {
    if data == [] then []
    else
      var j := LineLength(data);
      if j >= SCAN_LIMIT then []
      else Nonempty(Trim(data[..j])) + if j < |data| then Lines(data[j + 1..]) else []
  }

  function EventsFor(stream: Stream, lines: seq<Bytes>): seq<SandboxEvent> {
    seq(|lines|, i requires 0 <= i < |lines| => SandboxEvent(stream, lines[i]))
  }

  function StreamOf(b: Byte): Stream { if b == 2 then Stderr else Stdout }

  function Emitted(kind: Byte, payload: Bytes): seq<SandboxEvent> {
    EventsFor(StreamOf(kind), Lines(payload))
  }

  /** One `Scan`: the next line, trimmed, and what is left; a line at the limit ends the scan. */
  method Scan(data: Bytes) returns (line: Bytes, rest: Bytes)
    requires data != []
    ensures Lines(data) == Nonempty(line) + Lines(rest) && |rest| < |data|
  {
    var j := LineLength(data);
    if j >= SCAN_LIMIT {
      return [], [];
    }
    line := Trim(data[..j]);
    rest := [];
    if j < |data| {
      rest := data[j + 1..];
    }
  }

  lemma Associate<T>(a: seq<T>, b: seq<T>, c: seq<T>)
    ensures a + (b + c) == (a + b) + c
  {
  }

  /** The scanner loop over one chunk. */
  method ScanLines(payload: Bytes) returns (lines: seq<Bytes>)
    ensures lines == Lines(payload)
  {
    lines := [];
    var rest := payload;
    while rest != []
      invariant Lines(payload) == lines + Lines(rest)
      decreases |rest|
    {
      var line, after := Scan(rest);
      Associate(lines, Nonempty(line), Lines(after));
      lines := lines + Nonempty(line);
      rest := after;
    }
  }

  method EmitLines(kind: Byte, payload: Bytes) returns (events: seq<SandboxEvent>)
    ensures events == Emitted(kind, payload)
    ensures forall e :: e in events ==> (e.stream == Stderr <==> kind == 2)
  {
    var lines := ScanLines(payload);
    events := EventsFor(if kind == 2 then Stderr else Stdout, lines);
  }

  // Frames.

  const HEADER: nat := 8

  function BigEndian(b: Bytes): nat
    requires |b| == 4
  {
    b[0] as int * 16777216 + b[1] as int * 65536 + b[2] as int * 256 + b[3] as int
  }

  function ToBigEndian(n: nat): (b: Bytes)
    requires n < 4294967296
    ensures |b| == 4
  {
    [n / 16777216, n / 65536 % 256, n / 256 % 256, n % 256]
  }

  lemma BigEndianRoundTrip(n: nat)
    requires n < 4294967296
    ensures BigEndian(ToBigEndian(n)) == n
  {
    assert n == n / 256 * 256 + n % 256;
    assert n / 256 == n / 65536 * 256 + n / 256 % 256;
    assert n / 65536 == n / 16777216 * 256 + n / 65536 % 256;
  }

  /** The frames of the stream: a header of stream type, three zero bytes and the big-endian size, as in
      the "Stream format" section of the ContainerAttach operation of the Docker Engine API. */
  datatype Frame = Frame(kind: Byte, payload: Bytes)

  predicate Framable(f: Frame) { |f.payload| < 4294967296 }

  function Encode(f: Frame): (b: Bytes)
    requires Framable(f)
    ensures |b| == HEADER + |f.payload|
  {
    [f.kind, 0, 0, 0] + ToBigEndian(|f.payload|) + f.payload
  }

  /** The layout of a frame, byte by byte. */
  lemma FrameLayout(f: Frame)
    requires Framable(f)
    ensures var n := |f.payload|;
            Encode(f) == [f.kind, 0, 0, 0, n / 16777216, n / 65536 % 256, n / 256 % 256, n % 256] + f.payload
  {
  }

  function EncodeAll(fs: seq<Frame>): Bytes
    requires forall i :: 0 <= i < |fs| ==> Framable(fs[i])
  {
    if fs == [] then [] else Encode(fs[0]) + EncodeAll(fs[1..])
  }

  function Size(b: Bytes): nat
    requires |b| >= HEADER
  {
    BigEndian(b[4..8])
  }

  /** What the decoder makes of a byte stream that ends. */
  function Decode(b: Bytes): seq<SandboxEvent>
    decreases |b|
  {
    if |b| < HEADER then []
    else if Size(b) == 0 then Decode(b[HEADER..])
    else if |b| < HEADER + Size(b) then []
    else Emitted(b[0], b[HEADER..HEADER + Size(b)]) + Decode(b[HEADER + Size(b)..])
  }

  /** One pass of the decoding loop: the header, the size, an empty frame skipped or a chunk read and
      its lines emitted. A short read ends the stream. */
  method ReadFrame(b: Bytes) returns (events: seq<SandboxEvent>, rest: Bytes)
    requires |b| >= HEADER
    ensures Decode(b) == events + Decode(rest) && |rest| < |b|
  {
    var hdr := b[..HEADER];
    var size := BigEndian(hdr[4..8]);
    assert b[4..8] == hdr[4..8];
    if size == 0 {
      return [], b[HEADER..];
    }
    if |b| - HEADER < size {
      return [], [];
    }
    events := EmitLines(hdr[0], b[HEADER..HEADER + size]);
    rest := b[HEADER + size..];
  }

  /** The decoding loop. */
  method DecodeStream(b: Bytes) returns (events: seq<SandboxEvent>)
    ensures events == Decode(b)
  {
    events := [];
    var rest := b;
    while |rest| >= HEADER
      invariant Decode(b) == events + Decode(rest)
      decreases |rest|
    {
      var more, after := ReadFrame(rest);
      Associate(events, more, Decode(after));
      events := events + more;
      rest := after;
    }
  }

  function EventsOf(fs: seq<Frame>): seq<SandboxEvent> {
    if fs == [] then [] else Emitted(fs[0].kind, fs[0].payload) + EventsOf(fs[1..])
  }

  /** A frame without payload emits nothing. */
  lemma EmptyFrameIsSilent(kind: Byte)
    ensures Emitted(kind, []) == []
  {
  }

  lemma DecodeFrame(f: Frame, rest: Bytes)
    requires Framable(f)
    ensures Decode(Encode(f) + rest) == Emitted(f.kind, f.payload) + Decode(rest)
  {
    var b := Encode(f) + rest;
    var n := |f.payload|;
    assert b[4..8] == ToBigEndian(n);
    BigEndianRoundTrip(n);
    assert b[HEADER..HEADER + n] == f.payload;
    assert b[HEADER + n..] == rest;
    if n == 0 {
      assert f.payload == [];
    }
  }

  /** How many frames are complete within the first `n` bytes. */
  function Complete(fs: seq<Frame>, n: nat): (k: nat)
    ensures k <= |fs|
  {
    if fs == [] || n < HEADER + |fs[0].payload| then 0 else 1 + Complete(fs[1..], n - HEADER - |fs[0].payload|)
  }

  /** A frame that is cut off emits nothing. */
  lemma DecodePartial(f: Frame, rest: Bytes, n: nat)
    requires Framable(f) && n < HEADER + |f.payload| && n <= |Encode(f) + rest|
    ensures Decode((Encode(f) + rest)[..n]) == []
  {
    if n >= HEADER {
      var b := (Encode(f) + rest)[..n];
      assert b[4..8] == ToBigEndian(|f.payload|);
      BigEndianRoundTrip(|f.payload|);
    }
  }

  lemma CutAfter(a: Bytes, b: Bytes, n: nat)
    requires |a| <= n <= |a| + |b|
    ensures (a + b)[..n] == a + b[..n - |a|]
  {
  }

  lemma EventsOfTake(fs: seq<Frame>, k: nat)
    requires 0 < k <= |fs|
    ensures EventsOf(fs[..k]) == Emitted(fs[0].kind, fs[0].payload) + EventsOf(fs[1..][..k - 1])
  {
    assert fs[..k][1..] == fs[1..][..k - 1];
  }

  /** On a stream cut off anywhere, the decoder emits exactly the lines of the complete frames; in
      particular it inverts the framing of every frame sequence. */
  lemma {:induction false} DecodeTruncated(fs: seq<Frame>, n: nat)
    requires forall i :: 0 <= i < |fs| ==> Framable(fs[i])
    requires n <= |EncodeAll(fs)|
    ensures Decode(EncodeAll(fs)[..n]) == EventsOf(fs[..Complete(fs, n)])
  {
    if fs != [] {
      var f, rest := fs[0], EncodeAll(fs[1..]);
      var len := HEADER + |f.payload|;
      if n < len {
        DecodePartial(f, rest, n);
      } else {
        DecodeTruncated(fs[1..], n - len);
        CutAfter(Encode(f), rest, n);
        DecodeFrame(f, rest[..n - len]);
        EventsOfTake(fs, Complete(fs, n));
      }
    }
  }

  lemma {:induction false} AllComplete(fs: seq<Frame>)
    requires forall i :: 0 <= i < |fs| ==> Framable(fs[i])
    ensures Complete(fs, |EncodeAll(fs)|) == |fs|
  {
    if fs != [] {
      AllComplete(fs[1..]);
    }
  }

  lemma DecodeInvertsFraming(fs: seq<Frame>)
    requires forall i :: 0 <= i < |fs| ==> Framable(fs[i])
    ensures Decode(EncodeAll(fs)) == EventsOf(fs)
  {
    AllComplete(fs);
    DecodeTruncated(fs, |EncodeAll(fs)|);
    assert EncodeAll(fs)[..|EncodeAll(fs)|] == EncodeAll(fs);
    assert fs[..|fs|] == fs;
  }

  // Lines in, lines out.

  /** A line that survives: not empty, no newline, not ending in a carriage return, within the limit. */
  predicate Printable(line: Bytes) {
    line != [] && NL !in line && line[|line| - 1] != CR && |line| < SCAN_LIMIT
  }

  function Unlines(lines: seq<Bytes>): Bytes {
    if lines == [] then [] else lines[0] + [NL] + Unlines(lines[1..])
  }

  lemma FirstLine(line: Bytes, rest: Bytes)
    requires Printable(line)
    ensures Lines(line + [NL] + rest) == [line] + Lines(rest)
  {
    var data := line + [NL] + rest;
    assert data[|line|] == NL && forall k :: 0 <= k < |line| ==> data[k] == line[k];
    assert LineLength(data) == |line|;
    assert data[..|line|] == line && data[|line| + 1..] == rest;
  }

  /** The scanner gives back the lines of a chunk. */
  lemma {:induction false} LinesOfUnlines(lines: seq<Bytes>)
    requires forall k :: 0 <= k < |lines| ==> Printable(lines[k])
    ensures Lines(Unlines(lines)) == lines
  {
    if lines != [] {
      FirstLine(lines[0], Unlines(lines[1..]));
      LinesOfUnlines(lines[1..]);
    }
  }

  /** The lines of a chunk that are kept: trimmed, and not empty. */
  function Kept(pieces: seq<Bytes>): seq<Bytes> {
    if pieces == [] then [] else Nonempty(Trim(pieces[0])) + Kept(pieces[1..])
  }

  predicate Scannable(piece: Bytes) { 10 !in piece && |piece| < 65536 }

  lemma FirstPiece(piece: Bytes, rest: Bytes)
    requires Scannable(piece)
    ensures Lines(piece + [NL] + rest) == Nonempty(Trim(piece)) + Lines(rest)
    ensures Lines(piece) == Nonempty(Trim(piece))
  {
    var data := piece + [NL] + rest;
    assert data[|piece|] == NL && forall k :: 0 <= k < |piece| ==> data[k] == piece[k];
    assert LineLength(data) == |piece|;
    assert data[..|piece|] == piece && data[|piece| + 1..] == rest;
    assert LineLength(piece) == |piece| && piece[..|piece|] == piece;
  }

  /** For every chunk whose lines fit the scanner, blank ones and carriage returns included: the lines it emits are
      its pieces between newlines, trimmed, without the empty ones, and an unterminated last one is among them. */
  lemma {:induction false} LinesOfPieces(pieces: seq<Bytes>, tail: Bytes)
    requires (forall k :: 0 <= k < |pieces| ==> Scannable(pieces[k])) && Scannable(tail)
    ensures Lines(Unlines(pieces) + tail) == Kept(pieces) + Nonempty(Trim(tail))
  {
    if pieces == [] {
      assert Unlines(pieces) + tail == tail;
      FirstPiece(tail, []);
    } else {
      var rest := Unlines(pieces[1..]) + tail;
      assert Unlines(pieces) + tail == pieces[0] + [NL] + rest;
      FirstPiece(pieces[0], rest);
      LinesOfPieces(pieces[1..], tail);
      Associate(Nonempty(Trim(pieces[0])), Kept(pieces[1..]), Nonempty(Trim(tail)));
    }
  }

  /** A line at the limit ends the scan: what comes before it is emitted, and nothing from it on. */
  lemma {:induction false} LongLineEndsTheScan(pieces: seq<Bytes>, long: Bytes, rest: Bytes)
    requires forall k :: 0 <= k < |pieces| ==> Scannable(pieces[k])
    requires 10 !in long && |long| >= 65536
    ensures Lines(Unlines(pieces) + (long + rest)) == Kept(pieces)
  {
    if pieces == [] {
      var data := long + rest;
      assert Unlines(pieces) + data == data;
      assert forall k :: 0 <= k < |long| ==> data[k] == long[k];
      assert LineLength(data) >= |long|;
    } else {
      var more := Unlines(pieces[1..]) + (long + rest);
      assert Unlines(pieces) + (long + rest) == pieces[0] + [NL] + more;
      FirstPiece(pieces[0], more);
      LongLineEndsTheScan(pieces[1..], long, rest);
    }
  }

  /** The stream of an event is the one its frame came from. */
  lemma StreamsAreLabelled(kind: Byte, payload: Bytes, e: SandboxEvent)
    requires e in Emitted(kind, payload)
    ensures (e.stream == Stderr <==> kind == 2) && e.line in Lines(payload)
  {
  }

  datatype Chunk = Chunk(kind: Byte, lines: seq<Bytes>)

  function FrameOf(c: Chunk): Frame { Frame(c.kind, Unlines(c.lines)) }

  function FramesOf(cs: seq<Chunk>): seq<Frame> {
    seq(|cs|, i requires 0 <= i < |cs| => FrameOf(cs[i]))
  }

  function Printed(cs: seq<Chunk>): seq<SandboxEvent> {
    if cs == [] then [] else EventsFor(StreamOf(cs[0].kind), cs[0].lines) + Printed(cs[1..])
  }

  lemma {:induction false} FramesPrint(cs: seq<Chunk>)
    requires forall i, k :: 0 <= i < |cs| && 0 <= k < |cs[i].lines| ==> Printable(cs[i].lines[k])
    ensures EventsOf(FramesOf(cs)) == Printed(cs)
  {
    if cs != [] {
      FramesPrint(cs[1..]);
      assert FramesOf(cs)[1..] == FramesOf(cs[1..]);
      LinesOfUnlines(cs[0].lines);
    }
  }

  /** End to end: whatever lines are written to the two streams in whatever chunks, the decoder emits
      those lines, in order, each labelled with its stream. */
  lemma LinesRoundTrip(cs: seq<Chunk>)
    requires forall i, k :: 0 <= i < |cs| && 0 <= k < |cs[i].lines| ==> Printable(cs[i].lines[k])
    requires forall i :: 0 <= i < |cs| ==> |Unlines(cs[i].lines)| < 4294967296
    ensures Decode(EncodeAll(FramesOf(cs))) == Printed(cs)
  {
    DecodeInvertsFraming(FramesOf(cs));
    FramesPrint(cs);
  }
}
