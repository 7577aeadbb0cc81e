/** Docker's multiplexed log format: frames of an eight-byte header and a payload, and the best-effort demultiplexer. */
module DockerLogs {

  newtype byte = x: int | 0 <= x < 256

  type bytes = seq<byte>

  datatype Frame = Frame(stream: byte, payload: bytes)

  const HEADER: nat := 8

  // ---------------------------------------------------------------- the frame grammar

  /** The payload size of a header: four bytes, most significant first. */
  function Size(header: bytes): nat
    requires |header| >= HEADER
  {
    ((header[4] as nat * 256 + header[5] as nat) * 256 + header[6] as nat) * 256 + header[7] as nat
  }

  /** Reserved bytes are zero and the whole payload is there; the demultiplexer does not look at the stream byte. */
  predicate StartsFrame(raw: bytes) {
    |raw| >= HEADER && raw[1] == 0 && raw[2] == 0 && raw[3] == 0 && HEADER + Size(raw) <= |raw|
  }

  /** The maximal prefix of complete frames, and what follows it. */
  function Parse(raw: bytes): (r: (seq<Frame>, bytes))
    ensures !StartsFrame(r.1)
  {
    if StartsFrame(raw) then
      var end := HEADER + Size(raw);
      var (frames, rest) := Parse(raw[end..]);
      ([Frame(raw[0], raw[HEADER..end])] + frames, rest)
    else ([], raw)
  }

  function Payloads(frames: seq<Frame>): bytes {
    if frames == [] then [] else frames[0].payload + Payloads(frames[1..])
  }

  /** What a reader of the raw stream sees: payloads of the complete frames, then the rest as it stands. */
  function Demux(raw: bytes): bytes {
    Payloads(Parse(raw).0) + Parse(raw).1
  }

  predicate Encodable(frames: seq<Frame>) {
    forall f :: f in frames ==> |f.payload| < 0x1_0000_0000
  }

  function Header(f: Frame): (h: bytes)
    requires |f.payload| < 0x1_0000_0000
    ensures |h| == HEADER && Size(h) == |f.payload| && h[0] == f.stream && h[1] == 0 && h[2] == 0 && h[3] == 0
    ensures h[4] as nat * 0x100_0000 + h[5] as nat * 0x1_0000 + h[6] as nat * 0x100 + h[7] as nat == |f.payload|
  {
    var low := |f.payload|;
    var third := low / 256;
    var second := third / 256;
    var first := second / 256;
    [f.stream, 0, 0, 0, first as byte, (second % 256) as byte, (third % 256) as byte, (low % 256) as byte]
  }

  function Encode(frames: seq<Frame>): bytes
    requires Encodable(frames)
  {
    if frames == [] then [] else Header(frames[0]) + frames[0].payload + Encode(frames[1..])
  }

  lemma Associative<T>(a: seq<T>, b: seq<T>, c: seq<T>)
    ensures a + (b + c) == a + b + c
  {
  }

  lemma SplitFirst<T>(s: seq<T>, rest: seq<T>)
    requires s != []
    ensures s + rest == [s[0]] + (s[1..] + rest)
  {
  }

  // ---------------------------------------------------------------- the demultiplexer

  lemma ParseStep(raw: bytes)
    requires StartsFrame(raw)
    ensures var end := HEADER + Size(raw);
      Demux(raw) == raw[HEADER..end] + Demux(raw[end..])
  {
    var end := HEADER + Size(raw);
    var (frames, rest) := Parse(raw[end..]);
    var first := Frame(raw[0], raw[HEADER..end]);
    assert ([first] + frames)[1..] == frames;
    assert Payloads([first] + frames) == first.payload + Payloads(frames);
  }

  /** A complete frame stands at the cursor. */
  predicate FrameAt(raw: bytes, cursor: nat)
    requires cursor + HEADER <= |raw|
  {
    && raw[cursor + 1] == 0 && raw[cursor + 2] == 0 && raw[cursor + 3] == 0
    && cursor + HEADER + Size(raw[cursor..cursor + HEADER]) <= |raw|
  }

  /** The cursor has passed the header of a complete frame. */
  lemma DemuxAtFrame(raw: bytes, cursor: nat, size: nat)
    requires HEADER <= cursor <= |raw| && FrameAt(raw, cursor - HEADER) && size == Size(raw[cursor - HEADER..cursor])
    ensures Demux(raw[cursor - HEADER..]) == raw[cursor..cursor + size] + Demux(raw[cursor + size..])
  {
    var here := raw[cursor - HEADER..];
    assert Size(here) == size;
    ParseStep(here);
    assert here[HEADER..HEADER + size] == raw[cursor..cursor + size];
    assert here[HEADER + size..] == raw[cursor + size..];
  }

  lemma DemuxAtNoFrame(raw: bytes, cursor: nat)
    requires cursor <= |raw| && (|raw| < cursor + HEADER || !FrameAt(raw, cursor))
    ensures Demux(raw[cursor..]) == raw[cursor..]
  {
    if cursor + HEADER <= |raw| { assert Size(raw[cursor..]) == Size(raw[cursor..cursor + HEADER]); }
  }

  lemma DemuxOfNoFrame(raw: bytes)
    requires |raw| < HEADER || !FrameAt(raw, 0)
    ensures Demux(raw) == raw
  {
    DemuxAtNoFrame(raw, 0);
    assert raw[0..] == raw;
  }

  /** A text of at least one header either returns from the loop or has parsed a frame when the loop ends. */
  method Demultiplex(raw: bytes) returns (decoded: bytes)
    ensures decoded == Demux(raw)
  {
    if |raw| < HEADER {
      DemuxOfNoFrame(raw);
      return raw;
    }
    decoded := [];
    var cursor, parsedFrames := 0, false;
    ghost var rest := Demux(raw);
    assert raw[0..] == raw;
    while cursor + HEADER <= |raw|
      invariant 0 <= cursor <= |raw|
      invariant rest == Demux(raw[cursor..])
      invariant decoded + rest == Demux(raw)
      invariant !parsedFrames ==> cursor == 0
      decreases |raw| - cursor
    {
      var header := raw[cursor..cursor + HEADER];
      if header[1] != 0 || header[2] != 0 || header[3] != 0 {
        if !parsedFrames {
          DemuxOfNoFrame(raw);
          return raw;
        }
        DemuxAtNoFrame(raw, cursor);
        return decoded + raw[cursor..];
      }
      var frameSize := Size(header);
      cursor := cursor + HEADER;
      if cursor + frameSize > |raw| {
        if !parsedFrames {
          DemuxOfNoFrame(raw);
          return raw;
        }
        DemuxAtNoFrame(raw, cursor - HEADER);
        return decoded + raw[cursor - HEADER..];
      }
      DemuxAtFrame(raw, cursor, frameSize);
      rest := Demux(raw[cursor + frameSize..]);
      Associative(decoded, raw[cursor..cursor + frameSize], rest);
      decoded := decoded + raw[cursor..cursor + frameSize];
      cursor := cursor + frameSize;
      parsedFrames := true;
    }
    DemuxAtNoFrame(raw, cursor);
    decoded := decoded + raw[cursor..];
  }

  // ---------------------------------------------------------------- round trips

  /** A complete frame before text that is frames and a rest. */
  lemma {:induction false} PartitionStep(raw: bytes, frames: seq<Frame>, rest: bytes)
    requires StartsFrame(raw) && Encodable(frames) && Encode(frames) + rest == raw[HEADER + Size(raw)..]
    ensures var first := Frame(raw[0], raw[HEADER..HEADER + Size(raw)]);
      Encodable([first] + frames) && Encode([first] + frames) + rest == raw
  {
    var end := HEADER + Size(raw);
    HeaderOfFrame(raw);
    EncodeFirst(Frame(raw[0], raw[HEADER..end]), frames);
    Associative(raw[..end], Encode(frames), rest);
    assert raw[..HEADER] + raw[HEADER..end] == raw[..end] && raw[..end] + raw[end..] == raw;
  }

  /** Nothing of the raw stream is lost or invented: its frames and its rest make it up again. */
  lemma {:induction false} ParsePartitions(raw: bytes)
    ensures Encodable(Parse(raw).0) && Encode(Parse(raw).0) + Parse(raw).1 == raw
  {
    if StartsFrame(raw) {
      var end := HEADER + Size(raw);
      var (frames, rest) := Parse(raw[end..]);
      ParsePartitions(raw[end..]);
      PartitionStep(raw, frames, rest);
    }
  }

  lemma {:induction false} EncodeFirst(first: Frame, frames: seq<Frame>)
    requires Encodable(frames) && |first.payload| < 0x1_0000_0000
    ensures Encodable([first] + frames)
    ensures Encode([first] + frames) == Header(first) + first.payload + Encode(frames)
  {
    assert ([first] + frames)[1..] == frames;
  }

  /** The header is determined by the stream byte and the payload size. */
  lemma HeaderOfFrame(raw: bytes)
    requires StartsFrame(raw)
    ensures Size(raw) < 0x1_0000_0000
    ensures Header(Frame(raw[0], raw[HEADER..HEADER + Size(raw)])) == raw[..HEADER]
  {
    var a, b, c, d := raw[4] as nat, raw[5] as nat, raw[6] as nat, raw[7] as nat;
    var third := (a * 256 + b) * 256 + c;
    assert Size(raw) == third * 256 + d && Size(raw) / 256 == third && Size(raw) % 256 == d;
    assert third / 256 == a * 256 + b && third % 256 == c;
    assert (a * 256 + b) / 256 == a && (a * 256 + b) % 256 == b;
  }

  lemma EncodedFrameStarts(f: Frame, rest: bytes)
    requires |f.payload| < 0x1_0000_0000
    ensures var raw := Header(f) + f.payload + rest;
      && StartsFrame(raw) && Size(raw) == |f.payload| && raw[0] == f.stream
      && raw[HEADER..HEADER + |f.payload|] == f.payload && raw[HEADER + |f.payload|..] == rest
  {
    var raw := Header(f) + f.payload + rest;
    assert forall i :: 0 <= i < HEADER ==> raw[i] == Header(f)[i];
  }

  /** Encoded frames parse back to themselves, whatever follows is parsed on its own. */
  lemma {:induction false} EncodeParses(frames: seq<Frame>, tail: bytes)
    requires Encodable(frames)
    ensures Parse(Encode(frames) + tail) == (frames + Parse(tail).0, Parse(tail).1)
  {
    if frames == [] {
      assert Encode(frames) + tail == tail;
      assert frames + Parse(tail).0 == Parse(tail).0;
    } else {
      var f, rest := frames[0], Encode(frames[1..]) + tail;
      EncodedFrameStarts(f, rest);
      assert Encode(frames) + tail == Header(f) + f.payload + rest;
      EncodeParses(frames[1..], tail);
      SplitFirst(frames, Parse(tail).0);
    }
  }

  lemma {:induction false} PayloadsAppend(a: seq<Frame>, b: seq<Frame>)
    ensures Payloads(a + b) == Payloads(a) + Payloads(b)
  {
    if a == [] {
      assert a + b == b;
    } else {
      assert (a + b)[1..] == a[1..] + b;
      PayloadsAppend(a[1..], b);
    }
  }

  /** Demultiplexing undoes multiplexing: any frames give their payloads back, before whatever follows them. */
  lemma {:induction false} DemuxOfEncode(frames: seq<Frame>, tail: bytes)
    requires Encodable(frames)
    ensures Demux(Encode(frames) + tail) == Payloads(frames) + Demux(tail)
  {
    EncodeParses(frames, tail);
    PayloadsAppend(frames, Parse(tail).0);
    Associative(Payloads(frames), Payloads(Parse(tail).0), Parse(tail).1);
  }

  /** Text that begins with no complete frame passes through unchanged. */
  lemma {:induction false} OtherTextPasses(raw: bytes)
    requires |raw| >= 8 && raw[1] == 0 && raw[2] == 0 && raw[3] == 0 ==>
      8 + raw[4] as nat * 0x100_0000 + raw[5] as nat * 0x1_0000 + raw[6] as nat * 0x100 + raw[7] as nat > |raw|
    ensures Demux(raw) == raw
  {
    assert !StartsFrame(raw);
  }

  /** The round trip itself. */
  lemma {:induction false} DemuxInvertsEncode(frames: seq<Frame>)
    requires Encodable(frames)
    ensures Demux(Encode(frames)) == Payloads(frames)
  {
    DemuxOfEncode(frames, []);
    assert Demux([]) == [];
    assert Encode(frames) + [] == Encode(frames);
  }
}
