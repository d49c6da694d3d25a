/** One connection: an incremental parser inside a Reading / Processing / Writing machine
    with one request in flight, bounded buffers and a two-step close. */
module Session {
  import opened Wrappers
  import opened FrameCodec

  datatype Phase = Reading | Processing | Writing | Closing | Closed

  datatype Status =
    | Ok | Buffered | RequestReady | InvalidState | InvalidArgument | StaleToken | InputLimitExceeded
    | OutputLimitExceeded | BadProtocol | TruncatedFrame | WriteProgressExceeded | NowClosing | NowClosed

  datatype CloseReason =
    | NoReason | LocalShutdown | ProtocolViolation | InputLimit | OutputLimit | PeerClosed | PeerTruncatedFrame
    | WriteInvariantViolation | IoError | BusinessQueueRejected | BusinessError | IdleTimeout | ReadTimeout
    | WriteTimeout | BusinessTimeout | ResourceExhausted

  datatype Token = Token(loop: nat, fd: int, generation: nat)

  datatype Config = Config(maxFrame: nat, inputSoft: nat, maxInput: nat, outputSoft: nat, maxOutput: nat)

  predicate ValidConfig(c: Config) {
    0 < c.maxFrame <= MAX_PAYLOAD_SIZE && 0 < c.inputSoft <= c.maxInput && c.maxInput >= c.maxFrame &&
    0 < c.outputSoft <= c.maxOutput
  }

  // What a session is, apart from its timers: held is the codec's unfinished frame,
  // pending the input that waits behind it, output what is still to be written.
  datatype View = View(
    token: Token,
    phase: Phase,
    held: Bytes,
    pending: Bytes,
    output: Bytes,
    reason: CloseReason,
    peerClosed: bool,
    closeAfterWrite: bool)

  datatype Result = Result(status: Status, request: Option<Bytes>, accepted: nat, error: ProtocolError)

  function Plain(status: Status): Result {
    Result(status, None, 0, NoError)
  }

  predicate Open(v: View) {
    v.phase.Reading? || v.phase.Processing? || v.phase.Writing?
  }

  // Bytes buffered by the codec: a complete header is no longer counted.
  function CodecBytes(held: Bytes): nat {
    if |held| < HEADER_SIZE then |held| else |held| - HEADER_SIZE
  }

  function BufferedInput(v: View): nat {
    CodecBytes(v.held) + |v.pending|
  }

  // Back-pressure: with a request in progress or an answer going out, reading waits while
  // a buffer is at its soft limit.
  predicate Paused(c: Config, v: View) {
    !v.peerClosed && (v.phase.Processing? || v.phase.Writing?) &&
    (BufferedInput(v) >= c.inputSoft || |v.output| >= c.outputSoft)
  }

  predicate WantsRead(c: Config, v: View) {
    Open(v) && !v.peerClosed && !Paused(c, v)
  }

  // A frame in progress that the configuration admits.
  predicate Progress(c: Config, held: Bytes) {
    Partial(held) && (|held| >= HEADER_SIZE ==> DecodeLength(held[..HEADER_SIZE]) <= c.maxFrame)
  }

  predicate Sound(c: Config, v: View) {
    ValidConfig(c) &&
    (Open(v) ==> BufferedInput(v) <= c.maxInput) &&
    (v.phase.Reading? ==>
      v.pending == [] && v.output == [] && Progress(c, v.held) && !v.peerClosed && !v.closeAfterWrite) &&
    (v.phase.Processing? ==> v.held == [] && v.output == [] && !v.closeAfterWrite) &&
    (v.phase.Writing? ==> v.held == [] && 0 < |v.output| <= c.maxOutput && (v.closeAfterWrite ==> !v.reason.NoReason?))
  }

  function BeginClose(v: View, reason: CloseReason): View {
    if !Open(v) || reason.NoReason? then v else v.(phase := Closing, reason := reason)
  }

  /* Reading, in closed form. */

  // What the first frame of s amounts to under the configured limit.
  datatype First = Unfinished | Rejected(error: ProtocolError) | TooLong | Request(payload: Bytes, rest: Bytes)

  function FirstOf(c: Config, s: Bytes): First {
    match FrontOf(s)
    case Bad(e) => Rejected(e)
    case Whole(size) =>
      if size - HEADER_SIZE > c.maxFrame then TooLong else Request(s[HEADER_SIZE..size], s[size..])
    case More =>
      if |s| >= HEADER_SIZE && DecodeLength(s[..HEADER_SIZE]) > c.maxFrame then TooLong else Unfinished
  }

  // How far into the input an unacceptable header reaches.
  function HeaderEnd(held: Bytes): nat {
    if |held| < HEADER_SIZE then HEADER_SIZE - |held| else 0
  }

  // Reading input behind what is held, up to the first request: the phase and reason it
  // leads to, what the codec then holds, how many bytes were taken, and the result.
  datatype Progressed = Progressed(phase: Phase, reason: CloseReason, held: Bytes, taken: nat, result: Result)

  function ReadFirst(c: Config, held: Bytes, input: Bytes, limited: bool, reason: CloseReason): Progressed {
    if HeaderTooBig(c, held, input, limited) then
      Progressed(Closing, InputLimit, held, 0, Plain(InputLimitExceeded))
    else Conclude(FirstOf(c, held + input), held, held + input, |input|, reason)
  }

  // Where reading count bytes behind held ends, given what the whole text s starts with.
  function Conclude(f: First, held: Bytes, s: Bytes, count: nat, reason: CloseReason): Progressed {
    var headerEnd := Min(HeaderEnd(held), count);
    match f
    case Unfinished => Progressed(Reading, reason, s, count, Result(Buffered, None, count, NoError))
    case Rejected(e) => Progressed(Closing, ProtocolViolation, [], headerEnd, Result(BadProtocol, None, headerEnd, e))
    case TooLong =>
      Progressed(Closing, InputLimit, s[..Min(HEADER_SIZE, |s|)], headerEnd,
        Result(InputLimitExceeded, None, headerEnd, NoError))
    case Request(payload, rest) =>
      var taken := count - Min(|rest|, count);
      Progressed(Processing, reason, [], taken, Result(RequestReady, Some(payload), taken, NoError))
  }

  // A header that was accepted before is not judged again, and a frame ends in new input.
  lemma LateHeader(c: Config, held: Bytes, input: Bytes)
    requires |held| < HEADER_SIZE || Progress(c, held)
    ensures FirstOf(c, held + input).Rejected? || FirstOf(c, held + input).TooLong? ==>
      |held| < HEADER_SIZE <= |held + input|
    ensures FirstOf(c, held + input).Request? ==> |FirstOf(c, held + input).rest| <= |input|
  {
    if |held| >= HEADER_SIZE { SameHeader(held, input); }
  }

  function ReadInput(c: Config, v: View, input: Bytes): (View, Result) {
    var p := ReadFirst(c, v.held, input, true, v.reason);
    var v' := v.(phase := p.phase, reason := p.reason, held := p.held);
    if !p.phase.Processing? then (v', p.result)
    else if |input| - p.taken > c.maxInput then
      (BeginClose(v', InputLimit), p.result.(status := InputLimitExceeded, request := None))
    else (v'.(pending := v.pending + input[p.taken..]), p.result.(accepted := |input|))
  }

  // The same on what waited in pending; no limit to check, and the rest keeps waiting.
  function ReadPending(c: Config, v: View): (View, Result) {
    if v.pending == [] then (v, Plain(Buffered))
    else
      var p := ReadFirst(c, v.held, v.pending, false, v.reason);
      (v.(phase := p.phase, reason := p.reason, held := p.held, pending := v.pending[p.taken..]), p.result)
  }

  /* The operations. */

  function OnInput(c: Config, v: View, input: Bytes): (View, Result) {
    match v.phase
    case Closing => (v, Plain(NowClosing))
    case Closed => (v, Plain(NowClosed))
    case Reading => if input == [] then (v, Plain(Buffered)) else ReadInput(c, v, input)
    case _ =>
      if input == [] then (v, Plain(Buffered))
      else if BufferedInput(v) + |input| > c.maxInput then (BeginClose(v, InputLimit), Plain(InputLimitExceeded))
      else (v.(pending := v.pending + input), Result(Buffered, None, |input|, NoError))
  }

  function QueueResponse(c: Config, v: View, token: Token, response: Bytes): (View, Status) {
    if v.token != token then (v, StaleToken)
    else match v.phase
      case Closing => (v, NowClosing)
      case Closed => (v, NowClosed)
      case Processing =>
        if response == [] then (v, InvalidArgument)
        else if |response| > c.maxOutput then (BeginClose(v, OutputLimit), OutputLimitExceeded)
        else (v.(phase := Writing, output := response), Ok)
      case _ => (v, InvalidState)
  }

  function OnBytesWritten(c: Config, v: View, count: nat): (View, Result) {
    match v.phase
    case Closing => (v, Plain(NowClosing))
    case Closed => (v, Plain(NowClosed))
    case Writing =>
      if count > |v.output| then (BeginClose(v, WriteInvariantViolation), Plain(WriteProgressExceeded))
      else if count < |v.output| then (v.(output := v.output[count..]), Plain(Ok))
      else if v.closeAfterWrite || v.peerClosed then
        (BeginClose(v.(output := []), if v.closeAfterWrite then v.reason else PeerClosed), Plain(NowClosing))
      else
        var (v', r) := ReadPending(c, v.(output := [], phase := Reading));
        (v', if r.status == Buffered then r.(status := Ok) else r)
    case _ => (v, Plain(InvalidState))
  }

  function CloseAfterWrite(v: View, reason: CloseReason): (View, Status) {
    match v.phase
    case Closing => (v, NowClosing)
    case Closed => (v, NowClosed)
    case _ =>
      if !v.phase.Writing? || reason.NoReason? then (v, InvalidState)
      else (v.(reason := reason, closeAfterWrite := true), Ok)
  }

  function OnPeerReadClosed(v: View): (View, Status) {
    match v.phase
    case Closing => (v, NowClosing)
    case Closed => (v, NowClosed)
    case Reading =>
      if BufferedInput(v) != 0 then (BeginClose(v.(peerClosed := true), PeerTruncatedFrame), TruncatedFrame)
      else (BeginClose(v.(peerClosed := true), PeerClosed), NowClosing)
    case _ => (v.(peerClosed := true, reason := PeerClosed), Ok)
  }

  function FinalizeClose(v: View): View {
    BeginClose(v, LocalShutdown).(phase := Closed)
  }

  function Fresh(token: Token): View {
    View(token, Reading, [], [], [], NoReason, false, false)
  }

  /* The class. */

  // Bytes the codec can take without running past the header or the frame in progress.
  function Needed(held: Bytes): nat {
    if |held| < HEADER_SIZE then HEADER_SIZE - |held|
    else if DecodeLength(held[..HEADER_SIZE]) + HEADER_SIZE <= |held| then 0
    else DecodeLength(held[..HEADER_SIZE]) + HEADER_SIZE - |held|
  }

  lemma SameHeader(a: Bytes, b: Bytes)
    requires |a| >= HEADER_SIZE
    ensures (a + b)[..HEADER_SIZE] == a[..HEADER_SIZE]
  {}

  /** A chunk of at most the needed size yields no more than one frame, so the branch for
      several frames in one call is dead. */
  lemma NeededChunk(c: Config, held: Bytes, chunk: Bytes)
    requires Progress(c, held) && 0 < |chunk| <= Needed(held)
    ensures var p := Parse(held + chunk);
      |p.frames| <= 1 &&
      (p.error != NoError ==>
        FirstOf(c, held + chunk) == Rejected(p.error) && |held| < HEADER_SIZE == |held + chunk|) &&
      (p.error == NoError && p.frames == [] ==>
        p.rest == held + chunk && Partial(p.rest) && (|held| < HEADER_SIZE || Progress(c, p.rest))) &&
      (p.error == NoError && p.frames != [] ==> p.rest == [] && FirstOf(c, held + chunk) == Request(p.frames[0], []))
  {
    var s := held + chunk;
    if |held| >= HEADER_SIZE {
      SameHeader(held, chunk);
    }
    if FrontOf(s).Whole? {
      ParseWhole(s);
      assert s[FrontOf(s).size..] == [];
    } else {
      assert Parse(s).frames == [];
    }
  }

  // What the first frame says does not change with what follows it.
  lemma FirstExtends(c: Config, s: Bytes, more: Bytes)
    ensures FirstOf(c, s).Rejected? || FirstOf(c, s).TooLong? ==> FirstOf(c, s + more) == FirstOf(c, s)
    ensures FirstOf(c, s).Request? ==>
      FirstOf(c, s + more) == Request(FirstOf(c, s).payload, FirstOf(c, s).rest + more)
  {
    FrontAppend(s, more);
    if |s| >= HEADER_SIZE { SameHeader(s, more); }
    if FrontOf(s).Whole? {
      var size := FrontOf(s).size;
      assert (s + more)[HEADER_SIZE..size] == s[HEADER_SIZE..size];
      assert (s + more)[size..] == s[size..] + more;
    }
  }

  // One round of the reading loop: a chunk that ends no later than the header or the
  // frame in progress does.
  function ReadChunk(c: Config, held: Bytes, chunk: Bytes, limited: bool, reason: CloseReason): Progressed {
    if limited && CodecBytes(held) + |chunk| > c.maxInput then
      Progressed(Closing, InputLimit, held, 0, Plain(InputLimitExceeded))
    else
      match FirstOf(c, held + chunk)
      case Unfinished => Progressed(Reading, reason, held + chunk, |chunk|, Result(Buffered, None, |chunk|, NoError))
      case Rejected(e) => Progressed(Closing, ProtocolViolation, [], |chunk|, Result(BadProtocol, None, |chunk|, e))
      case TooLong => Progressed(Closing, InputLimit, held + chunk, |chunk|,
        Result(InputLimitExceeded, None, |chunk|, NoError))
      case Request(payload, _) => Progressed(Processing, reason, [], |chunk|,
        Result(RequestReady, Some(payload), |chunk|, NoError))
  }

  function Later(p: Progressed, offset: nat): Progressed {
    p.(taken := p.taken + offset, result := p.result.(accepted := p.result.accepted + offset))
  }

  // The reading loop takes what the codec needs, or all that is left.
  predicate NextChunk(held: Bytes, chunk: Bytes, rest: Bytes) {
    0 < |chunk| <= Needed(held) && (|chunk| < Needed(held) ==> rest == [])
  }

  lemma FirstOfChunk(c: Config, held: Bytes, chunk: Bytes, rest: Bytes)
    requires Progress(c, held) && NextChunk(held, chunk, rest)
    ensures var f, g := FirstOf(c, held + chunk), FirstOf(c, held + (chunk + rest));
      (f.Rejected? || f.TooLong? ==> g == f && |held| < HEADER_SIZE && |held + chunk| == HEADER_SIZE) &&
      (f.Request? ==> g == Request(f.payload, rest)) &&
      (f.Unfinished? ==> Progress(c, held + chunk) && (rest != [] ==> |held + chunk| >= HEADER_SIZE))
  {
    Associative(held, chunk, rest);
    FirstExtends(c, held + chunk, rest);
    if |held| >= HEADER_SIZE { SameHeader(held, chunk); }
    if FirstOf(c, held + chunk).Request? {
      assert FirstOf(c, held + chunk).rest == [];
      assert [] + rest == rest;
    }
  }

  // A chunk over the limit can only be part of a header.
  lemma ChunkOverLimit(c: Config, held: Bytes, chunk: Bytes, rest: Bytes)
    requires ValidConfig(c) && Progress(c, held) && NextChunk(held, chunk, rest) &&
      CodecBytes(held) + |chunk| > c.maxInput
    ensures HeaderTooBig(c, held, chunk + rest, true)
  {}

  // A chunk that settles the outcome settles it for the whole input.
  lemma ChunkSettles(c: Config, held: Bytes, chunk: Bytes, rest: Bytes, limited: bool, reason: CloseReason)
    requires ValidConfig(c) && Progress(c, held) && NextChunk(held, chunk, rest)
    ensures var p := ReadChunk(c, held, chunk, limited, reason);
      !p.phase.Reading? ==> ReadFirst(c, held, chunk + rest, limited, reason) == p
  {
    if limited && CodecBytes(held) + |chunk| > c.maxInput {
      ChunkOverLimit(c, held, chunk, rest);
    } else {
      LimitSettled(c, held, chunk, rest, limited);
      FirstOfChunk(c, held, chunk, rest);
      ConcludeChunk(FirstOf(c, held + chunk), FirstOf(c, held + (chunk + rest)), held, chunk, rest, reason);
    }
  }

  lemma ConcludeChunk(f: First, g: First, held: Bytes, chunk: Bytes, rest: Bytes, reason: CloseReason)
    requires f.Rejected? || f.TooLong? ==> g == f && |held| < HEADER_SIZE && |held + chunk| == HEADER_SIZE
    requires f.Request? ==> g == Request(f.payload, rest)
    ensures var p := Conclude(g, held, held + (chunk + rest), |chunk + rest|, reason);
      (f.Rejected? ==>
        p == Progressed(Closing, ProtocolViolation, [], |chunk|, Result(BadProtocol, None, |chunk|, f.error))) &&
      (f.TooLong? ==> p == Progressed(Closing, InputLimit, held + chunk, |chunk|,
        Result(InputLimitExceeded, None, |chunk|, NoError))) &&
      (f.Request? ==> p == Progressed(Processing, reason, [], |chunk|,
        Result(RequestReady, Some(f.payload), |chunk|, NoError)))
  {
    if f.TooLong? { assert (held + (chunk + rest))[..HEADER_SIZE] == held + chunk; }
  }

  predicate HeaderTooBig(c: Config, held: Bytes, input: Bytes, limited: bool) {
    limited && |held| < HEADER_SIZE && Min(HEADER_SIZE, |held + input|) > c.maxInput
  }

  lemma LimitSettled(c: Config, held: Bytes, chunk: Bytes, rest: Bytes, limited: bool)
    requires Progress(c, held) && NextChunk(held, chunk, rest)
    requires !(limited && CodecBytes(held) + |chunk| > c.maxInput)
    ensures !HeaderTooBig(c, held, chunk + rest, limited) && !HeaderTooBig(c, held + chunk, rest, limited)
  {}

  lemma NothingLeft(c: Config, held: Bytes, limited: bool, reason: CloseReason)
    requires Progress(c, held) && (limited ==> CodecBytes(held) <= c.maxInput)
    ensures ReadFirst(c, held, [], limited, reason) ==
      Progressed(Reading, reason, held, 0, Result(Buffered, None, 0, NoError))
  {
    assert held + [] == held;
  }

  lemma BehindHeader(c: Config, held: Bytes, input: Bytes)
    requires Progress(c, held) && |held| >= HEADER_SIZE
    ensures FirstOf(c, held + input).Unfinished? || FirstOf(c, held + input).Request?
  {
    LateHeader(c, held, input);
  }

  lemma ConcludeLater(f: First, held: Bytes, chunk: Bytes, rest: Bytes, reason: CloseReason)
    requires f.Unfinished? || (f.Request? && |f.rest| <= |rest|)
    ensures Conclude(f, held, held + (chunk + rest), |chunk + rest|, reason) ==
      Later(Conclude(f, held + chunk, (held + chunk) + rest, |rest|, reason), |chunk|)
  {
    Associative(held, chunk, rest);
  }

  // A chunk that settles nothing leaves the rest of the input to be read behind it.
  lemma ChunkContinues(c: Config, held: Bytes, chunk: Bytes, rest: Bytes, limited: bool, reason: CloseReason)
    requires ValidConfig(c) && Progress(c, held) && NextChunk(held, chunk, rest)
    requires !(limited && CodecBytes(held) + |chunk| > c.maxInput) && FirstOf(c, held + chunk).Unfinished?
    ensures Progress(c, held + chunk)
    ensures ReadFirst(c, held, chunk + rest, limited, reason) ==
      Later(ReadFirst(c, held + chunk, rest, limited, reason), |chunk|)
  {
    FirstOfChunk(c, held, chunk, rest);
    LimitSettled(c, held, chunk, rest, limited);
    RestDecided(c, held + chunk, rest);
    Associative(held, chunk, rest);
    ConcludeLater(FirstOf(c, (held + chunk) + rest), held, chunk, rest, reason);
  }

  lemma RestDecided(c: Config, s: Bytes, rest: Bytes)
    requires Progress(c, s) && (rest == [] || |s| >= HEADER_SIZE)
    ensures var f := FirstOf(c, s + rest); f.Unfinished? || (f.Request? && |f.rest| <= |rest|)
  {
    if rest == [] {
      assert s + rest == s;
    } else {
      BehindHeader(c, s, rest);
      LateHeader(c, s, rest);
    }
  }

  lemma LaterLater(p: Progressed, a: nat, b: nat)
    ensures Later(Later(p, a), b) == Later(p, a + b)
  {}

  // goal is still what reading the rest of the input comes to.
  ghost predicate Towards(c: Config, held: Bytes, reason: CloseReason, rest: Bytes, limited: bool, goal: Progressed,
          offset: nat) {
    ValidConfig(c) && Progress(c, held) && (limited ==> CodecBytes(held) <= c.maxInput) &&
    goal == Later(ReadFirst(c, held, rest, limited, reason), offset)
  }

  // What a round of the reading loop leaves to do.
  ghost predicate Advanced(c: Config, p: Progressed, reason: CloseReason, chunk: Bytes, rest: Bytes, limited: bool,
          goal: Progressed, offset: nat) {
    if p.phase.Reading? then
      p.reason == reason && p.taken == |chunk| && p.result == Result(Buffered, None, |chunk|, NoError) &&
      Towards(c, p.held, reason, rest, limited, goal, offset + |chunk|)
    else goal == Later(p, offset)
  }

  lemma TowardsOn(c: Config, held: Bytes, reason: CloseReason, chunk: Bytes, rest: Bytes, limited: bool,
          goal: Progressed, offset: nat)
    requires Towards(c, held, reason, chunk + rest, limited, goal, offset) && NextChunk(held, chunk, rest)
    requires !(limited && CodecBytes(held) + |chunk| > c.maxInput) && FirstOf(c, held + chunk).Unfinished?
    ensures Towards(c, held + chunk, reason, rest, limited, goal, offset + |chunk|)
  {
    ChunkContinues(c, held, chunk, rest, limited, reason);
    LaterLater(ReadFirst(c, held + chunk, rest, limited, reason), |chunk|, offset);
    ChunkWithin(c, held, chunk, limited);
  }

  lemma TowardsStep(c: Config, held: Bytes, reason: CloseReason, chunk: Bytes, rest: Bytes, limited: bool,
          goal: Progressed, offset: nat)
    requires Towards(c, held, reason, chunk + rest, limited, goal, offset) && NextChunk(held, chunk, rest)
    ensures Advanced(c, ReadChunk(c, held, chunk, limited, reason), reason, chunk, rest, limited, goal, offset)
  {
    if ReadChunk(c, held, chunk, limited, reason).phase.Reading? {
      TowardsOn(c, held, reason, chunk, rest, limited, goal, offset);
    } else {
      ChunkSettles(c, held, chunk, rest, limited, reason);
    }
  }

  lemma ChunkWithin(c: Config, held: Bytes, chunk: Bytes, limited: bool)
    requires limited ==> CodecBytes(held) + |chunk| <= c.maxInput
    ensures limited ==> CodecBytes(held + chunk) <= c.maxInput
  {}

  lemma TowardsEnd(c: Config, held: Bytes, reason: CloseReason, limited: bool, goal: Progressed, offset: nat)
    requires Towards(c, held, reason, [], limited, goal, offset)
    ensures goal == Progressed(Reading, reason, held, offset, Result(Buffered, None, offset, NoError))
  {
    NothingLeft(c, held, limited, reason);
  }

  /* What input comes to, by what the whole of it parses to. */

  predicate TooLongAt(c: Config, s: Bytes) {
    |s| >= HEADER_SIZE && DecodeLength(s[..HEADER_SIZE]) > c.maxFrame
  }

  // The bytes of an unfinished header count as buffered, so a limit below its size shuts it out.
  predicate HeaderFits(c: Config, held: Bytes, s: Bytes) {
    |held| >= HEADER_SIZE || Min(HEADER_SIZE, |s|) <= c.maxInput
  }

  predicate BadHeader(p: Parsed) {
    p.frames == [] && p.error != NoError
  }

  predicate TooMuchBehind(c: Config, s: Bytes, p: Parsed) {
    p.frames != [] && |s| > HEADER_SIZE + |p.frames[0]| + c.maxInput
  }

  // While Reading: s is what is held and the input, p its parse.
  predicate Reads(c: Config, v: View, s: Bytes, p: Parsed, count: nat, v': View, r: Result) {
    if !HeaderFits(c, v.held, s) || BadHeader(p) || TooLongAt(c, s) || TooMuchBehind(c, s, p) then
      v'.phase.Closing? && r.request.None? &&
      r.accepted == (if !HeaderFits(c, v.held, s) then 0 else if BadHeader(p) || TooLongAt(c, s) then
        HEADER_SIZE - |v.held| else HEADER_SIZE + |p.frames[0]| - |v.held|) &&
      (if HeaderFits(c, v.held, s) && BadHeader(p) then
         v'.reason.ProtocolViolation? && r.status == BadProtocol && r.error == p.error
       else v'.reason.InputLimit? && r.status == InputLimitExceeded)
    else if p.frames == [] then
      v' == v.(held := s) && r == Result(Buffered, None, count, NoError)
    else
      r == Result(RequestReady, Some(p.frames[0]), count, NoError) &&
      HEADER_SIZE + |p.frames[0]| <= |s| &&
      v' == v.(phase := Processing, held := [], pending := s[HEADER_SIZE + |p.frames[0]|..])
  }

  predicate TakesInput(c: Config, v: View, input: Bytes, v': View, r: Result) {
    match v.phase
    case Closing => v' == v && r == Plain(NowClosing)
    case Closed => v' == v && r == Plain(NowClosed)
    case Reading => Reads(c, v, v.held + input, Parse(v.held + input), |input|, v', r)
    case _ =>
      if |v.pending| + |input| > c.maxInput then
        v' == v.(phase := Closing, reason := InputLimit) && r == Plain(InputLimitExceeded)
      else v' == v.(pending := v.pending + input) && r == Result(Buffered, None, |input|, NoError)
  }

  // The first frame of a text, told by its parse.
  lemma FirstInParse(c: Config, s: Bytes)
    ensures var p := Parse(s);
      match FirstOf(c, s)
      case Rejected(e) => p.frames == [] && p.error == e != NoError
      case TooLong => !BadHeader(p) && TooLongAt(c, s)
      case Unfinished => p.frames == [] && p.error == NoError && !TooLongAt(c, s)
      case Request(payload, rest) =>
        p.frames != [] && p.frames[0] == payload && !TooLongAt(c, s) &&
        |s| == HEADER_SIZE + |payload| + |rest| && rest == s[HEADER_SIZE + |payload|..]
  {
    if FrontOf(s).Whole? { ParseWhole(s); }
  }

  lemma ReadingTakes(c: Config, v: View, input: Bytes)
    requires Sound(c, v) && v.phase.Reading?
    ensures TakesInput(c, v, input, ReadInput(c, v, input).0, ReadInput(c, v, input).1)
  {
    hide Parse, FirstOf;
    var s := v.held + input;
    FirstInParse(c, s);
    LateHeader(c, v.held, input);
    if FirstOf(c, s).Request? {
      var taken := |input| - |FirstOf(c, s).rest|;
      assert input[taken..] == s[|v.held| + taken..] == FirstOf(c, s).rest;
      assert v.pending + input[taken..] == input[taken..];
    }
  }

  /** Input closes a reading session exactly when the first header is invalid or does not fit,
      the first frame is too long, or more is left behind it than may be buffered; otherwise
      all of it is taken, and the request is the first frame, if it is whole. */
  lemma InputTaken(c: Config, v: View, input: Bytes)
    requires Sound(c, v)
    ensures TakesInput(c, v, input, OnInput(c, v, input).0, OnInput(c, v, input).1)
  {
    if v.phase.Reading? {
      ReadingTakes(c, v, input);
      if input == [] {
        assert v.held + input == v.held;
      }
    } else if input == [] {
      assert v.pending + input == v.pending;
    }
  }

  // Once an answer has gone out, the input that waited is read, and no limit is left to exceed.
  lemma PendingTaken(c: Config, v: View)
    requires Sound(c, v) && v.phase.Writing? && !v.closeAfterWrite && !v.peerClosed
    ensures var (v', r) := OnBytesWritten(c, v, |v.output|);
      var p := Parse(v.pending);
      if BadHeader(p) || TooLongAt(c, v.pending) then
        v'.phase.Closing? && r.request.None? &&
        (if BadHeader(p) then v'.reason.ProtocolViolation? && r.error == p.error else v'.reason.InputLimit?)
      else if p.frames == [] then
        v' == v.(phase := Reading, output := [], held := v.pending, pending := []) && r.status.Ok? && r.request.None?
      else
        HEADER_SIZE + |p.frames[0]| <= |v.pending| && r.status.RequestReady? && r.request == Some(p.frames[0]) &&
        v' == v.(phase := Processing, output := [], pending := v.pending[HEADER_SIZE + |p.frames[0]|..])
  {
    assert [] + v.pending == v.pending;
    FirstInParse(c, v.pending);
    LateHeader(c, [], v.pending);
  }

  // A limit below the size of a header lets no header through.
  lemma HeaderShutOut(c: Config, v: View, input: Bytes)
    requires Sound(c, v) && v.phase.Reading? && |v.held| < HEADER_SIZE && c.maxInput < HEADER_SIZE
    ensures var v' := OnInput(c, v, input).0;
      v'.phase.Closing? || (v'.phase.Reading? && |v'.held| < HEADER_SIZE)
  {
    InputTaken(c, v, input);
  }

  // So it turns away a frame that is well within it.
  lemma HeaderShutOutExample(token: Token)
    ensures var c, input := Config(1, 1, 3, 1, 1), [0, 0, 0, 1, 7];
      ValidConfig(c) && Parse(input) == Parsed([[7]], [], NoError) &&
      OnInput(c, Fresh(token), input).0.phase.Closing? && OnInput(c, Fresh(token), input).0.reason.InputLimit?
  {
    var c, input := Config(1, 1, 3, 1, 1), [0, 0, 0, 1, 7];
    assert EncodeFrame([7]) + [] == input;
    FrontOfFrame([7], []);
    ParseWhole(input);
    assert input[HEADER_SIZE..5] == [7] && input[5..] == [];
    InputTaken(c, Fresh(token), input);
    assert [] + input == input;
  }

  /* What every operation keeps. */

  lemma ReadFirstSound(c: Config, held: Bytes, input: Bytes, limited: bool, reason: CloseReason)
    requires ValidConfig(c) && Progress(c, held)
    requires if limited then CodecBytes(held) <= c.maxInput else |held| + |input| <= c.maxInput
    ensures var p := ReadFirst(c, held, input, limited, reason);
      (p.phase.Reading? ==> Progress(c, p.held) && CodecBytes(p.held) <= c.maxInput && p.taken == |input|) &&
      (p.phase.Processing? ==> p.held == []) && !p.phase.Writing? && !p.phase.Closed?
  {}

  lemma OnInputSound(c: Config, v: View, input: Bytes)
    requires Sound(c, v)
    ensures Sound(c, OnInput(c, v, input).0)
  {
    if v.phase.Reading? { ReadFirstSound(c, v.held, input, true, v.reason); }
  }

  lemma OnBytesWrittenSound(c: Config, v: View, count: nat)
    requires Sound(c, v)
    ensures Sound(c, OnBytesWritten(c, v, count).0)
  {
    if v.phase.Writing? && count == |v.output| { ReadFirstSound(c, [], v.pending, false, v.reason); }
  }

  lemma ControlSound(c: Config, v: View, token: Token, response: Bytes, reason: CloseReason)
    requires Sound(c, v)
    ensures Sound(c, QueueResponse(c, v, token, response).0)
    ensures Sound(c, CloseAfterWrite(v, reason).0)
    ensures Sound(c, OnPeerReadClosed(v).0)
    ensures Sound(c, BeginClose(v, reason)) && Sound(c, FinalizeClose(v))
  {
    QueueSound(c, v, token, response);
    CloseSound(c, v, reason);
  }

  lemma QueueSound(c: Config, v: View, token: Token, response: Bytes)
    requires Sound(c, v)
    ensures Sound(c, QueueResponse(c, v, token, response).0)
  {}

  lemma CloseSound(c: Config, v: View, reason: CloseReason)
    requires Sound(c, v)
    ensures Sound(c, CloseAfterWrite(v, reason).0) && Sound(c, OnPeerReadClosed(v).0)
    ensures Sound(c, BeginClose(v, reason)) && Sound(c, FinalizeClose(v))
  {}
}
