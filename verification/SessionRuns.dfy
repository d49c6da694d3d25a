/** Whole lives of a session: any chunking of the input, any timing of responses and
    short writes, any moment of closing. */
module SessionRuns {
  import opened FrameCodec
  import opened Session

  datatype Op =
    | Input(bytes: Bytes)
    | Respond(token: Token, response: Bytes)
    | Wrote(count: nat)
    | CloseAfter(reason: CloseReason)
    | PeerClose
    | Close(reason: CloseReason)

  // The session and what has passed through it so far.
  datatype Trace = Trace(v: View, accepted: Bytes, requests: seq<Bytes>, responses: seq<Bytes>, written: Bytes)

  function Emit(requests: seq<Bytes>, r: Result): seq<Bytes> {
    if r.request.Some? then requests + [r.request.value] else requests
  }

  function Next(c: Config, t: Trace, op: Op): Trace {
    match op
    case Input(bytes) =>
      var (v, r) := OnInput(c, t.v, bytes);
      t.(v := v, accepted := if Open(v) then t.accepted + bytes else t.accepted, requests := Emit(t.requests, r))
    case Respond(token, response) =>
      var (v, status) := QueueResponse(c, t.v, token, response);
      t.(v := v, responses := if status == Ok then t.responses + [response] else t.responses)
    case Wrote(count) =>
      var (v, r) := OnBytesWritten(c, t.v, count);
      t.(v := v, requests := Emit(t.requests, r),
         written := if t.v.phase.Writing? && count <= |t.v.output| then t.written + t.v.output[..count] else t.written)
    case CloseAfter(reason) => t.(v := CloseAfterWrite(t.v, reason).0)
    case PeerClose => t.(v := OnPeerReadClosed(t.v).0)
    case Close(reason) => t.(v := BeginClose(t.v, reason))
  }

  function InFlight(v: View): nat {
    if v.phase.Processing? then 1 else 0
  }

  predicate TraceOk(c: Config, t: Trace) {
    Sound(c, t.v) && ValidFrames(t.requests) && |t.responses| <= |t.requests| &&
    (Open(t.v) ==>
      EncodeFrames(t.requests) + (t.v.held + t.v.pending) == t.accepted &&
      |t.requests| == |t.responses| + InFlight(t.v) &&
      t.written + t.v.output == Flatten(t.responses))
  }

  lemma {:induction false} EncodeOneMore(frames: seq<Bytes>, frame: Bytes)
    requires ValidFrames(frames) && ValidateLength(|frame|) == NoError
    ensures ValidFrames(frames + [frame]) && EncodeFrames(frames + [frame]) == EncodeFrames(frames) + EncodeFrame(frame)
    decreases |frames|
  {
    if frames == [] {
      assert frames + [frame] == [frame] && [frame][1..] == [];
      assert EncodeFrame(frame) + EncodeFrames([]) == EncodeFrame(frame);
    } else {
      assert (frames + [frame])[0] == frames[0] && (frames + [frame])[1..] == frames[1..] + [frame];
      EncodeOneMore(frames[1..], frame);
      Associative(EncodeFrame(frames[0]), EncodeFrames(frames[1..]), EncodeFrame(frame));
    }
  }

  lemma {:induction false} FlattenOneMore(chunks: seq<Bytes>, chunk: Bytes)
    ensures Flatten(chunks + [chunk]) == Flatten(chunks) + chunk
    decreases |chunks|
  {
    if chunks == [] {
      assert chunks + [chunk] == [chunk] && [chunk][1..] == [];
    } else {
      assert (chunks + [chunk])[0] == chunks[0] && (chunks + [chunk])[1..] == chunks[1..] + [chunk];
      FlattenOneMore(chunks[1..], chunk);
    }
  }

  // The request that reading emits, framed, followed by what it leaves, is what it read.
  lemma ReadFirstSpells(c: Config, held: Bytes, input: Bytes, limited: bool, reason: CloseReason)
    requires |held| < HEADER_SIZE || Progress(c, held)
    ensures var p := ReadFirst(c, held, input, limited, reason);
      (p.phase.Reading? ==> p.held == held + input && p.result.request.None?) &&
      (p.phase.Processing? ==>
        p.result.request.Some? && ValidateLength(|p.result.request.value|) == NoError &&
        EncodeFrame(p.result.request.value) + input[p.taken..] == held + input) &&
      (p.phase.Closing? ==> p.result.request.None?)
  {
    var s, f := held + input, FirstOf(c, held + input);
    if f.Request? {
      LateHeader(c, held, input);
      WholeFrameSpells(s);
      assert f.rest == s[|s| - |f.rest|..];
      assert input[|input| - |f.rest|..] == f.rest;
    }
  }

  lemma Spelled(c: Config, t: Trace, request: Bytes, pending: Bytes, all: Bytes)
    requires ValidFrames(t.requests) && ValidateLength(|request|) == NoError
    requires EncodeFrame(request) + pending == all
    ensures ValidFrames(t.requests + [request])
    ensures EncodeFrames(t.requests + [request]) + pending == EncodeFrames(t.requests) + all
  {
    EncodeOneMore(t.requests, request);
    Associative(EncodeFrames(t.requests), EncodeFrame(request), pending);
  }

  lemma ReadingInputStep(c: Config, t: Trace, bytes: Bytes)
    requires TraceOk(c, t) && t.v.phase.Reading? && bytes != []
    ensures TraceOk(c, Next(c, t, Input(bytes)))
  {
    var t' := Next(c, t, Input(bytes));
    OnInputSound(c, t.v, bytes);
    ReadFirstSpells(c, t.v.held, bytes, true, t.v.reason);
    var p := ReadFirst(c, t.v.held, bytes, true, t.v.reason);
    assert t.v.held + t.v.pending == t.v.held;
    Associative(EncodeFrames(t.requests), t.v.held, bytes);
    if t'.v.phase.Processing? {
      Spelled(c, t, p.result.request.value, bytes[p.taken..], t.v.held + bytes);
      assert t'.v.held + t'.v.pending == bytes[p.taken..];
    } else if t'.v.phase.Reading? {
      assert t'.v.held + t'.v.pending == t.v.held + bytes;
    }
  }

  lemma InputStep(c: Config, t: Trace, bytes: Bytes)
    requires TraceOk(c, t)
    ensures TraceOk(c, Next(c, t, Input(bytes)))
  {
    if t.v.phase.Reading? && bytes != [] {
      ReadingInputStep(c, t, bytes);
    } else {
      OnInputSound(c, t.v, bytes);
      assert t.v.held + (t.v.pending + bytes) == (t.v.held + t.v.pending) + bytes;
      Associative(EncodeFrames(t.requests), t.v.held + t.v.pending, bytes);
      assert t.accepted + [] == t.accepted;
    }
  }

  // The last byte of a response went out and the session reads on.
  lemma WroteAllStep(c: Config, t: Trace)
    requires TraceOk(c, t) && t.v.phase.Writing? && !t.v.closeAfterWrite && !t.v.peerClosed
    ensures TraceOk(c, Next(c, t, Wrote(|t.v.output|)))
  {
    var count := |t.v.output|;
    var t' := Next(c, t, Wrote(count));
    OnBytesWrittenSound(c, t.v, count);
    assert t.v.output[..count] == t.v.output && t'.written + [] == t.written + t.v.output;
    ReadFirstSpells(c, [], t.v.pending, false, t.v.reason);
    assert [] + t.v.pending == t.v.pending;
    if t'.v.phase.Processing? && t.v.pending != [] {
      var p := ReadFirst(c, [], t.v.pending, false, t.v.reason);
      Spelled(c, t, p.result.request.value, t.v.pending[p.taken..], t.v.pending);
      assert t'.v.held + t'.v.pending == t.v.pending[p.taken..];
    }
  }

  lemma WroteStep(c: Config, t: Trace, count: nat)
    requires TraceOk(c, t)
    ensures TraceOk(c, Next(c, t, Wrote(count)))
  {
    OnBytesWrittenSound(c, t.v, count);
    if t.v.phase.Writing? && count < |t.v.output| {
      assert t.v.output == t.v.output[..count] + t.v.output[count..];
      Associative(t.written, t.v.output[..count], t.v.output[count..]);
    } else if t.v.phase.Writing? && count == |t.v.output| && !t.v.closeAfterWrite && !t.v.peerClosed {
      WroteAllStep(c, t);
    }
  }

  lemma RespondStep(c: Config, t: Trace, token: Token, response: Bytes)
    requires TraceOk(c, t)
    ensures TraceOk(c, Next(c, t, Respond(token, response)))
  {
    ControlSound(c, t.v, token, response, NoReason);
    FlattenOneMore(t.responses, response);
    assert t.v.phase.Processing? ==> t.written + [] == t.written;
  }

  lemma StepOk(c: Config, t: Trace, op: Op)
    requires TraceOk(c, t)
    ensures TraceOk(c, Next(c, t, op))
  {
    match op
    case Input(bytes) => InputStep(c, t, bytes);
    case Wrote(count) => WroteStep(c, t, count);
    case Respond(token, response) => RespondStep(c, t, token, response);
    case CloseAfter(reason) => ControlSound(c, t.v, t.v.token, [], reason);
    case PeerClose => ControlSound(c, t.v, t.v.token, [], NoReason);
    case Close(reason) => ControlSound(c, t.v, t.v.token, [], reason);
  }

  // What has passed through a session only grows.
  predicate Grows(t: Trace, t': Trace) {
    t'.v.token == t.v.token && t.accepted <= t'.accepted && t.requests <= t'.requests &&
    t.responses <= t'.responses && t.written <= t'.written
  }

  lemma GrowsTransitive(a: Trace, b: Trace, c: Trace)
    requires Grows(a, b) && Grows(b, c)
    ensures Grows(a, c)
  {}

  lemma StepGrows(c: Config, t: Trace, op: Op)
    ensures Grows(t, Next(c, t, op)) && (Open(Next(c, t, op).v) ==> Open(t.v))
  {}

  ghost function Run(c: Config, t: Trace, ops: seq<Op>): (t': Trace)
    requires TraceOk(c, t)
    ensures TraceOk(c, t')
    decreases |ops|
  {
    if ops == [] then t
    else
      StepOk(c, t, ops[0]);
      Run(c, Next(c, t, ops[0]), ops[1..])
  }

  ghost function Life(c: Config, token: Token, ops: seq<Op>): (t: Trace)
    requires ValidConfig(c)
    ensures TraceOk(c, t)
  {
    Run(c, Trace(Fresh(token), [], [], [], []), ops)
  }

  // The requests emitted so far are frames of the accepted bytes, and all of them unless
  // some wait in the buffer.
  lemma FramesOfTheInput(c: Config, t: Trace)
    requires TraceOk(c, t) && Open(t.v)
    ensures t.requests <= Parse(t.accepted).frames
    ensures t.v.phase.Reading? ==> Parse(t.accepted) == Parsed(t.requests, t.v.held, NoError)
    ensures t.requests != Parse(t.accepted).frames ==> t.v.pending != []
  {
    ParseEncoded(t.requests, t.v.held + t.v.pending);
    PartialParses(t.v.held);
    if t.v.pending == [] {
      assert t.v.held + t.v.pending == t.v.held;
      if !t.v.phase.Reading? { assert Parse(t.v.held).frames == []; }
      assert t.requests + [] == t.requests;
    }
  }

  /** In every run the emitted requests are, in order, the frames of the accepted byte
      stream: all of them while the session waits for input, and otherwise all up to the
      one in progress, with the rest still buffered within the hard limit. */
  lemma RequestsAreTheFrames(c: Config, token: Token, ops: seq<Op>)
    requires ValidConfig(c) && Open(Life(c, token, ops).v)
    ensures var t := Life(c, token, ops);
      t.requests <= Parse(t.accepted).frames &&
      (t.v.phase.Reading? ==> Parse(t.accepted) == Parsed(t.requests, t.v.held, NoError)) &&
      (t.requests != Parse(t.accepted).frames ==> t.v.pending != []) &&
      BufferedInput(t.v) <= c.maxInput
  {
    FramesOfTheInput(c, Life(c, token, ops));
  }

  /** One request at a time: requests and answers alternate, and when a request is out every
      earlier one has been answered and every earlier answer has been written completely. */
  lemma AnswersComeFirst(c: Config, token: Token, ops: seq<Op>)
    requires ValidConfig(c) && Open(Life(c, token, ops).v)
    ensures var t := Life(c, token, ops);
      |t.responses| <= |t.requests| <= |t.responses| + 1 &&
      (|t.requests| == |t.responses| + 1 <==> t.v.phase.Processing?) &&
      (!t.v.phase.Writing? ==> t.written == Flatten(t.responses))
  {
    var t := Life(c, token, ops);
    assert t.written + [] == t.written;
  }

  /** A peer that stops in the middle of a frame is reported as truncated exactly when the
      codec has bytes of a header or of a payload. Right behind a complete header nothing
      counts as buffered, and the cut frame passes for an orderly end. */
  lemma TruncationIsMissedBehindTheHeader(c: Config, v: View)
    requires Sound(c, v) && v.phase.Reading?
    ensures OnPeerReadClosed(v).1 == TruncatedFrame <==> v.held != [] && |v.held| != HEADER_SIZE
    ensures v.held != [] ==> Parse(v.held) == Parsed([], v.held, NoError)
  {
    PartialParses(v.held);
  }

  lemma TruncationMissedExample(c: Config, token: Token)
    requires ValidConfig(c) && c.maxInput >= HEADER_SIZE
    ensures var t := Life(c, token, [Input([0, 0, 0, 1])]);
      t.accepted == [0, 0, 0, 1] && t.v.phase.Reading? && Parse(t.accepted).frames == [] &&
      OnPeerReadClosed(t.v) == (t.v.(phase := Closing, reason := PeerClosed, peerClosed := true), NowClosing)
  {
    var header: Bytes := [0, 0, 0, 1];
    var start := Trace(Fresh(token), [], [], [], []);
    assert [] + header == header;
    FourBytes(header);
    assert header[..HEADER_SIZE] == header && DecodeLength(header) == 1;
    assert FirstOf(c, header) == Unfinished;
    var next := Next(c, start, Input(header));
    assert next.v == start.v.(held := header);
    StepOk(c, start, Input(header));
    assert Run(c, next, []) == next;
    assert [Input(header)][1..] == [];
  }
}
