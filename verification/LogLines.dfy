/** Reassembling log lines from multiplexed frames: one line buffer per stream, fed frame by frame. */
module LogLines {
  import opened DockerLogs

  datatype Stream = Stdout | Stderr

  /** A raw line as handed on: it ends with its newline unless the stream ended first. */
  datatype Entry = Entry(stream: Stream, line: bytes)

  datatype State = State(stdout: bytes, stderr: bytes, entries: seq<Entry>)

  /** How the frame reader stops: at the end, at text that is not framed, or inside a payload. */
  datatype End = Finished | Plain(text: bytes) | Truncated

  const NEWLINE: byte := 10
  const START := State([], [], [])

  // ---------------------------------------------------------------- splitting text into lines

  /** The position of the first newline from i on, or the length of a text without one. */
  function NewlineFrom(s: bytes, i: nat): (n: nat)
    requires i <= |s|
    ensures i <= n <= |s|
    decreases |s| - i
  {
    if i == |s| || s[i] == NEWLINE then i else NewlineFrom(s, i + 1)
  }

  function Newline(s: bytes): (n: nat)
    ensures n <= |s|
  {
    NewlineFrom(s, 0)
  }

  lemma {:induction false} NewlineIsFirst(s: bytes, i: nat)
    requires i <= |s|
    ensures var n := NewlineFrom(s, i);
      (forall k :: i <= k < n ==> s[k] != NEWLINE) && (n < |s| ==> s[n] == NEWLINE)
    decreases |s| - i
  {
    if i < |s| && s[i] != NEWLINE { NewlineIsFirst(s, i + 1); }
  }

  /** The complete lines of a text. */
  function Lines(s: bytes): seq<bytes> {
    var n := Newline(s);
    if n == |s| then [] else [s[..n + 1]] + Lines(s[n + 1..])
  }

  /** The unfinished line at the end of a text. */
  function Unfinished(s: bytes): bytes {
    var n := Newline(s);
    if n == |s| then s else Unfinished(s[n + 1..])
  }

  /** Every complete line ends with its only newline, and no unfinished text retains one. */
  lemma {:induction false} SplitIsLines(s: bytes)
    ensures NEWLINE !in Unfinished(s)
    ensures forall line :: line in Lines(s) ==>
      line != [] && line[|line| - 1] == NEWLINE && NEWLINE !in line[..|line| - 1]
  {
    var n := Newline(s);
    NewlineIsFirst(s, 0);
    if n < |s| {
      SplitIsLines(s[n + 1..]);
      assert s[..n + 1][..n] == s[..n];
    } else {
      assert s == s[..n];
    }
  }

  function Joined(lines: seq<bytes>): bytes {
    if lines == [] then [] else lines[0] + Joined(lines[1..])
  }

  lemma {:induction false} JoinedFirst(line: bytes, lines: seq<bytes>)
    ensures Joined([line] + lines) == line + Joined(lines)
  {
    assert ([line] + lines)[1..] == lines;
  }

  /** Splitting loses nothing. */
  lemma {:induction false} SplitJoins(s: bytes)
    ensures Joined(Lines(s)) + Unfinished(s) == s
  {
    var n := Newline(s);
    if n < |s| {
      SplitJoins(s[n + 1..]);
      JoinedFirst(s[..n + 1], Lines(s[n + 1..]));
      Associative(s[..n + 1], Joined(Lines(s[n + 1..])), Unfinished(s[n + 1..]));
      assert s == s[..n + 1] + s[n + 1..];
    }
  }

  lemma {:induction false} NewlineOfPrefix(a: bytes, b: bytes, i: nat)
    requires i <= |a|
    ensures NewlineFrom(a, i) < |a| ==> NewlineFrom(a + b, i) == NewlineFrom(a, i)
    decreases |a| - i
  {
    if i < |a| && a[i] != NEWLINE { NewlineOfPrefix(a, b, i + 1); }
  }

  /** More text after a split only continues the unfinished line. */
  lemma {:induction false} SplitContinues(a: bytes, b: bytes)
    ensures Lines(a + b) == Lines(a) + Lines(Unfinished(a) + b)
    ensures Unfinished(a + b) == Unfinished(Unfinished(a) + b)
  {
    var n := Newline(a);
    if n < |a| {
      NewlineOfPrefix(a, b, 0);
      assert (a + b)[..n + 1] == a[..n + 1] && (a + b)[n + 1..] == a[n + 1..] + b;
      SplitContinues(a[n + 1..], b);
      Associative([a[..n + 1]], Lines(a[n + 1..]), Lines(Unfinished(a) + b));
    }
  }

  /** The given lines have been cut off the text, and the buffer is left. */
  predicate CutOff(text: bytes, lines: seq<bytes>, buffer: bytes) {
    Lines(text) == lines + Lines(buffer) && Unfinished(text) == Unfinished(buffer)
  }

  lemma {:induction false} LinesStep(buffer: bytes)
    requires Newline(buffer) < |buffer|
    ensures var n := Newline(buffer);
      && Lines(buffer) == [buffer[..n + 1]] + Lines(buffer[n + 1..])
      && Unfinished(buffer) == Unfinished(buffer[n + 1..])
  {
  }

  lemma {:induction false} CutsOneMore(text: bytes, lines: seq<bytes>, buffer: bytes, line: bytes, rest: bytes)
    requires CutOff(text, lines, buffer)
    requires Lines(buffer) == [line] + Lines(rest) && Unfinished(buffer) == Unfinished(rest)
    ensures CutOff(text, lines + [line], rest)
  {
    Associative(lines, [line], Lines(rest));
  }

  lemma {:induction false} CutOffAll(text: bytes, lines: seq<bytes>, buffer: bytes)
    ensures CutOff(text, [], text)
    ensures CutOff(text, lines, buffer) && Newline(buffer) == |buffer| ==>
      Lines(text) == lines && Unfinished(text) == buffer
  {
  }

  // ---------------------------------------------------------------- frames

  predicate LogHeader(raw: bytes) {
    |raw| >= HEADER && raw[1] == 0 && raw[2] == 0 && raw[3] == 0 && (raw[0] == 1 || raw[0] == 2)
  }

  function StreamOf(id: byte): Stream {
    if id == 2 then Stderr else Stdout
  }

  predicate StartsLogFrame(raw: bytes) {
    LogHeader(raw) && HEADER + Size(raw) <= |raw|
  }

  function Buffer(s: State, stream: Stream): bytes {
    if stream == Stderr then s.stderr else s.stdout
  }

  function Tagged(stream: Stream, lines: seq<bytes>): seq<Entry> {
    if lines == [] then [] else Tagged(stream, lines[..|lines| - 1]) + [Entry(stream, lines[|lines| - 1])]
  }

  /** A payload completes lines of its stream and leaves the unfinished rest in the stream's buffer. */
  function Append(s: State, stream: Stream, payload: bytes): State {
    var text := Buffer(s, stream) + payload;
    var entries, rest := s.entries + Tagged(stream, Lines(text)), Unfinished(text);
    if stream == Stderr then State(s.stdout, rest, entries) else State(rest, s.stderr, entries)
  }

  /** At the end of the stream unfinished lines are handed on as they are. */
  function Flush(s: State): State {
    s.(entries := s.entries
                  + (if s.stdout == [] then [] else [Entry(Stdout, s.stdout)])
                  + (if s.stderr == [] then [] else [Entry(Stderr, s.stderr)]))
  }

  function ReadAll(raw: bytes, s: State, parsed: bool): (State, End) {
    if raw == [] then (Flush(s), Finished)
    else if |raw| < HEADER then
      if parsed then (Flush(Append(s, Stdout, raw)), Finished) else (s, Plain(raw))
    else if !LogHeader(raw) then (s, Plain(raw))
    else if !StartsLogFrame(raw) then (s, Truncated)
    else
      var end := HEADER + Size(raw);
      ReadAll(raw[end..], Append(s, StreamOf(raw[0]), raw[HEADER..end]), true)
  }

  // ---------------------------------------------------------------- the reader

  class LogReader {
    var unread: bytes
    var stdout: bytes
    var stderr: bytes
    var entries: seq<Entry>

    constructor (raw: bytes)
      ensures unread == raw && View() == START
    {
      unread, stdout, stderr, entries := raw, [], [], [];
    }

    ghost function View(): State
      reads this
    {
      State(stdout, stderr, entries)
    }

    method AppendPayload(stream: Stream, payload: bytes)
      modifies this`stdout, this`stderr, this`entries
      ensures View() == Append(old(View()), stream, payload)
    {
      var buffer := (if stream == Stderr then stderr else stdout) + payload;
      ghost var text, sent: seq<bytes> := buffer, [];
      CutOffAll(text, sent, buffer);
      while Newline(buffer) < |buffer|
        invariant CutOff(text, sent, buffer)
        invariant entries == old(entries) + Tagged(stream, sent)
        invariant stdout == old(stdout) && stderr == old(stderr)
        decreases |buffer|
      {
        var n := Newline(buffer);
        var line := buffer[..n + 1];
        LinesStep(buffer);
        CutsOneMore(text, sent, buffer, line, buffer[n + 1..]);
        assert (sent + [line])[..|sent|] == sent;
        sent := sent + [line];
        entries := entries + [Entry(stream, line)];
        buffer := buffer[n + 1..];
      }
      CutOffAll(text, sent, buffer);
      if stream == Stderr {
        stderr := buffer;
      } else {
        stdout := buffer;
      }
    }

    method FlushBuffers()
      modifies this`entries
      ensures View() == Flush(old(View()))
    {
      if stdout != [] {
        entries := entries + [Entry(Stdout, stdout)];
      }
      if stderr != [] {
        entries := entries + [Entry(Stderr, stderr)];
      }
    }

    method ReadFrames() returns (end: End)
      modifies this
      ensures (View(), end) == ReadAll(old(unread), old(View()), false)
    {
      var parsedFrames := false;
      while true
        invariant ReadAll(unread, View(), parsedFrames) == ReadAll(old(unread), old(View()), false)
        decreases |unread|
      {
        if |unread| < HEADER {
          if unread == [] {
            FlushBuffers();
            return Finished;
          }
          if !parsedFrames {
            return Plain(unread);
          }
          AppendPayload(Stdout, unread);
          FlushBuffers();
          return Finished;
        }
        if !LogHeader(unread) {
          return Plain(unread);
        }
        var frameSize := Size(unread);
        if HEADER + frameSize > |unread| {
          return Truncated;
        }
        var stream, payload := StreamOf(unread[0]), unread[HEADER..HEADER + frameSize];
        AppendPayload(stream, payload);
        unread := unread[HEADER + frameSize..];
        parsedFrames := true;
      }
    }
  }

  // ---------------------------------------------------------------- what each stream shows

  /** The maximal prefix of complete log frames, and what follows it. */
  function LogParse(raw: bytes): (seq<Frame>, bytes) {
    if StartsLogFrame(raw) then
      var end := HEADER + Size(raw);
      var (frames, rest) := LogParse(raw[end..]);
      ([Frame(raw[0], raw[HEADER..end])] + frames, rest)
    else ([], raw)
  }

  /** What one stream wrote: the payloads of its frames, concatenated; standard error's frames carry a 2. */
  function Content(frames: seq<Frame>, stream: Stream): bytes {
    if frames == [] then []
    else
      (if (frames[0].stream == 2) == (stream == Stderr) then frames[0].payload else []) + Content(frames[1..], stream)
  }

  /** The raw lines handed on for one stream, in order. */
  function LinesOf(entries: seq<Entry>, stream: Stream): seq<bytes> {
    if entries == [] then []
    else
      var earlier, last := LinesOf(entries[..|entries| - 1], stream), entries[|entries| - 1];
      if last.stream == stream then earlier + [last.line] else earlier
  }

  function EndOf(frames: seq<Frame>, rest: bytes): End {
    if rest == [] || (|rest| < HEADER && frames != []) then Finished
    else if !LogHeader(rest) then Plain(rest)
    else Truncated
  }

  /** All text of a stream; a trailing partial header counts as standard output. */
  function TextOf(frames: seq<Frame>, rest: bytes, stream: Stream): bytes {
    Content(frames, stream) + if stream == Stdout && EndOf(frames, rest) == Finished then rest else []
  }

  /** The newline split of a text, with its unfinished end as a last line once the stream has finished. */
  function SplitLines(text: bytes, finished: bool): seq<bytes> {
    Lines(text) + if finished && Unfinished(text) != [] then [Unfinished(text)] else []
  }

  lemma {:induction false} LinesOfAppend(a: seq<Entry>, b: seq<Entry>, stream: Stream)
    ensures LinesOf(a + b, stream) == LinesOf(a, stream) + LinesOf(b, stream)
  {
    if b == [] {
      assert a + b == a;
    } else {
      assert (a + b)[..|a + b| - 1] == a + b[..|b| - 1];
      LinesOfAppend(a, b[..|b| - 1], stream);
    }
  }

  lemma {:induction false} LinesOfTagged(written: Stream, lines: seq<bytes>, stream: Stream)
    ensures LinesOf(Tagged(written, lines), stream) == if stream == written then lines else []
  {
    if lines != [] {
      var n := |lines| - 1;
      LinesOfTagged(written, lines[..n], stream);
      var tagged := Tagged(written, lines[..n]);
      assert (tagged + [Entry(written, lines[n])])[..|tagged|] == tagged;
    }
  }

  /** A reader that has seen the given text of a stream: its complete lines are out, the rest is buffered. */
  ghost predicate Shows(s: State, stream: Stream, text: bytes) {
    LinesOf(s.entries, stream) == Lines(text) && Buffer(s, stream) == Unfinished(text)
  }

  lemma AppendShows(s: State, written: Stream, payload: bytes, stream: Stream, text: bytes)
    requires Shows(s, stream, text)
    ensures Shows(Append(s, written, payload), stream, text + if stream == written then payload else [])
  {
    var lines := Lines(Buffer(s, written) + payload);
    LinesOfAppend(s.entries, Tagged(written, lines), stream);
    LinesOfTagged(written, lines, stream);
    if stream == written {
      SplitContinues(text, payload);
    } else {
      assert text + [] == text;
    }
  }

  lemma {:induction false} FlushShows(s: State, stream: Stream, text: bytes)
    requires Shows(s, stream, text)
    ensures LinesOf(Flush(s).entries, stream) == SplitLines(text, true)
  {
    var first := if s.stdout == [] then [] else [Entry(Stdout, s.stdout)];
    var second := if s.stderr == [] then [] else [Entry(Stderr, s.stderr)];
    LinesOfAppend(s.entries + first, second, stream);
    LinesOfAppend(s.entries, first, stream);
    LinesOfSingle(Stdout, s.stdout, stream);
    LinesOfSingle(Stderr, s.stderr, stream);
  }

  lemma {:induction false} LinesOfSingle(written: Stream, line: bytes, stream: Stream)
    ensures LinesOf([Entry(written, line)], stream) == if stream == written then [line] else []
  {
    assert [Entry(written, line)][..0] == [];
  }

  /** From any point of the stream on. */
  lemma {:induction false} ReadAllShows(raw: bytes, s: State, parsed: bool, stream: Stream, text: bytes)
    requires Shows(s, stream, text)
    ensures var (frames, rest) := LogParse(raw); var (after, end) := ReadAll(raw, s, parsed);
      && end == (if parsed && |rest| < HEADER then Finished else EndOf(frames, rest))
      && LinesOf(after.entries, stream) ==
           SplitLines(text + Content(frames, stream) + if stream == Stdout && end == Finished then rest else [],
                      end == Finished)
    decreases |raw|
  {
    if StartsLogFrame(raw) {
      var size := HEADER + Size(raw);
      var (frames, rest) := LogParse(raw[size..]);
      var first := Frame(raw[0], raw[HEADER..size]);
      var written := StreamOf(raw[0]);
      var more := if stream == written then first.payload else [];
      AppendShows(s, written, first.payload, stream, text);
      ReadAllShows(raw[size..], Append(s, written, first.payload), true, stream, text + more);
      assert ([first] + frames)[1..] == frames;
      Associative(text, more, Content(frames, stream));
    } else {
      ReadAllEnds(raw, s, parsed, stream, text);
      assert text + Content([], stream) == text;
    }
  }

  lemma {:induction false} ReadAllEnds(raw: bytes, s: State, parsed: bool, stream: Stream, text: bytes)
    requires Shows(s, stream, text) && !StartsLogFrame(raw)
    ensures var (after, end) := ReadAll(raw, s, parsed);
      && end == (if parsed && |raw| < HEADER then Finished else EndOf([], raw))
      && LinesOf(after.entries, stream) ==
           SplitLines(text + if stream == Stdout && end == Finished then raw else [], end == Finished)
  {
    assert text + [] == text;
    assert Lines(text) + [] == Lines(text);
    if raw == [] {
      FlushShows(s, stream, text);
    } else if |raw| < HEADER && parsed {
      AppendShows(s, Stdout, raw, stream, text);
      FlushShows(Append(s, Stdout, raw), stream, text + if stream == Stdout then raw else []);
    }
  }

  /** For every byte string: the raw lines of each stream are the newline split of that stream's concatenated
      payloads. They include the unfinished last line exactly when the reader finished; text that turns plain or a
      payload that breaks off leaves the unfinished lines behind. */
  lemma {:induction false} LinesAreSplitContent(raw: bytes, stream: Stream)
    ensures var (frames, rest) := LogParse(raw); var (after, end) := ReadAll(raw, START, false);
      && end == EndOf(frames, rest)
      && LinesOf(after.entries, stream) == SplitLines(TextOf(frames, rest, stream), end == Finished)
  {
    var (frames, rest) := LogParse(raw);
    ReadAllShows(raw, START, false, stream, []);
    assert [] + Content(frames, stream) == Content(frames, stream);
  }

  function Wrote(frame: Frame, stream: Stream): bytes {
    if (frame.stream == 2) == (stream == Stderr) then frame.payload else []
  }

  lemma {:induction false} ReadStep(raw: bytes, s: State, parsed: bool) returns (next: State)
    requires StartsLogFrame(raw)
    ensures var end := HEADER + Size(raw);
      && next == Append(s, StreamOf(raw[0]), raw[HEADER..end])
      && ReadAll(raw, s, parsed) == ReadAll(raw[end..], next, true)
      && LogParse(raw).0 == [Frame(raw[0], raw[HEADER..end])] + LogParse(raw[end..]).0
  {
    next := Append(s, StreamOf(raw[0]), raw[HEADER..HEADER + Size(raw)]);
  }

  lemma {:induction false} ContentStep(text: bytes, first: Frame, frames: seq<Frame>, stream: Stream)
    ensures text + Content([first] + frames, stream) == text + Wrote(first, stream) + Content(frames, stream)
  {
    assert ([first] + frames)[1..] == frames;
    Associative(text, Wrote(first, stream), Content(frames, stream));
  }

  lemma FrameShows(s: State, raw: bytes, stream: Stream, text: bytes)
    requires StartsLogFrame(raw) && Shows(s, stream, text)
    ensures var end := HEADER + Size(raw);
      Shows(Append(s, StreamOf(raw[0]), raw[HEADER..end]), stream,
            text + Wrote(Frame(raw[0], raw[HEADER..end]), stream))
  {
    AppendShows(s, StreamOf(raw[0]), raw[HEADER..HEADER + Size(raw)], stream, text);
  }

  lemma {:induction false} ReadAllExtends(raw: bytes, s: State, parsed: bool)
    ensures var after := ReadAll(raw, s, parsed).0;
      |s.entries| <= |after.entries| && after.entries[..|s.entries|] == s.entries
    decreases |raw|
  {
    if StartsLogFrame(raw) {
      var next := ReadStep(raw, s, parsed);
      ReadAllExtends(raw[HEADER + Size(raw)..], next, true);
      assert next.entries[..|s.entries|] == s.entries;
    } else {
      EndExtends(raw, s, parsed);
    }
  }

  lemma {:induction false} EndExtends(raw: bytes, s: State, parsed: bool)
    requires !StartsLogFrame(raw)
    ensures var after := ReadAll(raw, s, parsed).0;
      |s.entries| <= |after.entries| && after.entries[..|s.entries|] == s.entries
  {
  }

  /** From any point of the stream on: after the next k frames. */
  lemma {:induction false} ReadAllInOrder(raw: bytes, s: State, parsed: bool, k: nat, out: bytes, err: bytes)
    returns (i: nat)
    requires k <= |LogParse(raw).0| && Shows(s, Stdout, out) && Shows(s, Stderr, err)
    ensures var entries, frames := ReadAll(raw, s, parsed).0.entries, LogParse(raw).0;
      && |s.entries| <= i <= |entries|
      && LinesOf(entries[..i], Stdout) == Lines(out + Content(frames[..k], Stdout))
      && LinesOf(entries[..i], Stderr) == Lines(err + Content(frames[..k], Stderr))
    decreases |raw|
  {
    if k == 0 {
      ReadAllExtends(raw, s, parsed);
      i := |s.entries|;
      assert out + [] == out && err + [] == err;
    } else {
      var size := HEADER + Size(raw);
      var frames, first := LogParse(raw[size..]).0, Frame(raw[0], raw[HEADER..size]);
      var next := ReadStep(raw, s, parsed);
      FrameShows(s, raw, Stdout, out);
      FrameShows(s, raw, Stderr, err);
      i := ReadAllInOrder(raw[size..], next, true, k - 1, out + Wrote(first, Stdout), err + Wrote(first, Stderr));
      assert ([first] + frames)[..k] == [first] + frames[..k - 1];
      ContentStep(out, first, frames[..k - 1], Stdout);
      ContentStep(err, first, frames[..k - 1], Stderr);
    }
  }

  /** Lines are handed on as their frames arrive: at every frame boundary there is a point of the result up to which
      it holds exactly the lines that both streams had completed by then. */
  lemma EarlierFramesFirst(raw: bytes, k: nat) returns (i: nat)
    requires k <= |LogParse(raw).0|
    ensures var entries, frames := ReadAll(raw, START, false).0.entries, LogParse(raw).0;
      && i <= |entries|
      && LinesOf(entries[..i], Stdout) == Lines(Content(frames[..k], Stdout))
      && LinesOf(entries[..i], Stderr) == Lines(Content(frames[..k], Stderr))
  {
    i := ReadAllInOrder(raw, START, false, k, [], []);
    var frames := LogParse(raw).0;
    assert [] + Content(frames[..k], Stdout) == Content(frames[..k], Stdout);
    assert [] + Content(frames[..k], Stderr) == Content(frames[..k], Stderr);
  }

  predicate ErrorLast(r: (State, End), left: bytes) {
    r.1 == Finished && left != [] ==>
      r.0.entries != [] && r.0.entries[|r.0.entries| - 1] == Entry(Stderr, left)
  }

  lemma FlushedErrorIsLast(s: State)
    ensures ErrorLast((Flush(s), Finished), s.stderr)
  {
  }

  lemma {:induction false} EndsWithError(raw: bytes, s: State, parsed: bool, err: bytes)
    requires Shows(s, Stderr, err) && !StartsLogFrame(raw)
    ensures ErrorLast(ReadAll(raw, s, parsed), Unfinished(err))
  {
    FlushedErrorIsLast(s);
    FlushedErrorIsLast(Append(s, Stdout, raw));
  }

  lemma {:induction false} ErrorIsLast(raw: bytes, s: State, parsed: bool, err: bytes)
    requires Shows(s, Stderr, err)
    ensures ErrorLast(ReadAll(raw, s, parsed), Unfinished(err + Content(LogParse(raw).0, Stderr)))
    decreases |raw|
  {
    if StartsLogFrame(raw) {
      var size := HEADER + Size(raw);
      var frames, first := LogParse(raw[size..]).0, Frame(raw[0], raw[HEADER..size]);
      var next := ReadStep(raw, s, parsed);
      FrameShows(s, raw, Stderr, err);
      ErrorIsLast(raw[size..], next, true, err + Wrote(first, Stderr));
      ContentStep(err, first, frames, Stderr);
    } else {
      EndsWithError(raw, s, parsed, err);
      assert err + Content([], Stderr) == err;
    }
  }

  /** An unfinished line of standard error comes last of all, after that of standard output. */
  lemma {:induction false} UnfinishedErrorIsLast(raw: bytes)
    requires ReadAll(raw, START, false).1 == Finished && Unfinished(Content(LogParse(raw).0, Stderr)) != []
    ensures var entries := ReadAll(raw, START, false).0.entries;
      entries != [] && entries[|entries| - 1] == Entry(Stderr, Unfinished(Content(LogParse(raw).0, Stderr)))
  {
    ErrorIsLast(raw, START, false, []);
    assert [] + Content(LogParse(raw).0, Stderr) == Content(LogParse(raw).0, Stderr);
  }

  /** Between frames no line buffer retains a newline. */
  lemma BuffersHoldNoNewline(s: State, written: Stream, payload: bytes)
    requires NEWLINE !in s.stdout && NEWLINE !in s.stderr
    ensures NEWLINE !in Append(s, written, payload).stdout && NEWLINE !in Append(s, written, payload).stderr
  {
    SplitIsLines(Buffer(s, written) + payload);
  }

  // ---------------------------------------------------------------- framing does not matter

  predicate LogFrames(frames: seq<Frame>) {
    Encodable(frames) && forall f :: f in frames ==> f.stream == 1 || f.stream == 2
  }

  /** Nothing of the raw stream is lost or invented here either. */
  lemma {:induction false} LogParsePartitions(raw: bytes)
    ensures LogFrames(LogParse(raw).0) && Encode(LogParse(raw).0) + LogParse(raw).1 == raw
  {
    if StartsLogFrame(raw) {
      var end := HEADER + Size(raw);
      var (frames, rest) := LogParse(raw[end..]);
      LogParsePartitions(raw[end..]);
      PartitionStep(raw, frames, rest);
    }
  }

  lemma {:induction false} NoFrameIsLeft(raw: bytes)
    ensures !StartsLogFrame(LogParse(raw).1)
  {
    if StartsLogFrame(raw) { NoFrameIsLeft(raw[HEADER + Size(raw)..]); }
  }

  /** How a reader ends, by what follows the complete frames: nothing, or less than a header after some frame; text
      that is no header of standard output or error; or a header whose payload breaks off. */
  lemma {:induction false} ReaderEndsIff(raw: bytes)
    ensures var (frames, rest) := LogParse(raw); var end := ReadAll(raw, START, false).1;
      var header := |rest| >= 8 && rest[0] in {1, 2} && rest[1] == 0 && rest[2] == 0 && rest[3] == 0;
      && LogFrames(frames) && Encode(frames) + rest == raw
      && (end == Finished <==> rest == [] || (|rest| < 8 && frames != []))
      && (end == Truncated <==> header)
      && (header ==> 8 + rest[4] as nat * 0x100_0000 + rest[5] as nat * 0x1_0000 + rest[6] as nat * 0x100
                     + rest[7] as nat > |rest|)
      && (end.Plain? ==> end.text == rest)
  {
    LogParsePartitions(raw);
    NoFrameIsLeft(raw);
    LinesAreSplitContent(raw, Stdout);
    var rest := LogParse(raw).1;
    if |rest| >= HEADER {
      assert Size(rest) ==
        rest[4] as nat * 0x100_0000 + rest[5] as nat * 0x1_0000 + rest[6] as nat * 0x100 + rest[7] as nat;
    }
  }

  /** Encoded log frames parse back to themselves, before a tail too short for a header. */
  lemma {:induction false} EncodeLogParses(frames: seq<Frame>, tail: bytes)
    requires LogFrames(frames) && |tail| < HEADER
    ensures LogParse(Encode(frames) + tail) == (frames, tail)
  {
    if frames == [] {
      assert Encode(frames) + tail == tail;
    } else {
      var f, rest := frames[0], Encode(frames[1..]) + tail;
      EncodedFrameStarts(f, rest);
      assert Encode(frames) + tail == Header(f) + f.payload + rest;
      EncodeLogParses(frames[1..], tail);
      assert f in frames && StartsLogFrame(Encode(frames) + tail);
      assert Frame(f.stream, f.payload) == f && [f] + frames[1..] == frames;
    }
  }

  /** Two framings of the same output, cut and interleaved however the daemon likes, show the same raw lines of each
      stream: the newline split of what that stream wrote. */
  lemma {:induction false} FramingDoesNotMatter(a: seq<Frame>, b: seq<Frame>, tail: bytes, stream: Stream)
    requires LogFrames(a) && LogFrames(b) && |tail| < HEADER && (tail != [] ==> a != [] && b != [])
    requires Content(a, stream) == Content(b, stream)
    ensures var (left, right) := (ReadAll(Encode(a) + tail, START, false), ReadAll(Encode(b) + tail, START, false));
      && left.1 == right.1 == Finished
      && LinesOf(left.0.entries, stream) == LinesOf(right.0.entries, stream)
      && LinesOf(left.0.entries, stream) ==
           SplitLines(Content(a, stream) + if stream == Stdout then tail else [], true)
  {
    EncodeLogParses(a, tail);
    EncodeLogParses(b, tail);
    LinesAreSplitContent(Encode(a) + tail, stream);
    LinesAreSplitContent(Encode(b) + tail, stream);
    assert Content(a, stream) + [] == Content(a, stream);
  }

  /** The lines of a finished stream, joined, are exactly what it wrote. */
  lemma FinishedLinesLoseNothing(text: bytes)
    ensures Joined(SplitLines(text, true)) == text
  {
    SplitJoins(text);
    var lines, rest := Lines(text), Unfinished(text);
    if rest == [] {
      assert lines + [] == lines && Joined(lines) + [] == Joined(lines);
    } else {
      JoinedAppends(lines, rest);
    }
  }

  lemma {:induction false} JoinedAppends(lines: seq<bytes>, last: bytes)
    ensures Joined(lines + [last]) == Joined(lines) + last
  {
    if lines == [] {
      assert [last][1..] == [] && last + [] == last && [] + [last] == [last];
    } else {
      assert (lines + [last])[1..] == lines[1..] + [last];
      JoinedAppends(lines[1..], last);
    }
  }
}
