/** The Session object: its fields change in place, its codec is an object of its own,
    and every method is proved equal to the operation of the same name on the view. */
module SessionObject {
  import opened Wrappers
  import opened FrameCodec
  import opened Session

  class SessionState {
    const token: Token
    const config: Config
    const codec: LengthPrefixedCodec
    var pendingInput: Bytes
    var pendingOffset: nat
    var output: Bytes
    var outputOffset: nat
    var phase: Phase
    var reason: CloseReason
    var peerReadClosed: bool
    var closeAfterWrite: bool

    ghost function Now(): View
      reads this, codec
    {
      var pending := if pendingOffset <= |pendingInput| then pendingInput[pendingOffset..] else [];
      var out := if outputOffset <= |output| then output[outputOffset..] else [];
      View(token, phase, codec.held, pending, out, reason, peerReadClosed, closeAfterWrite)
    }

    ghost predicate Valid()
      reads this, codec, codec.header
    {
      codec.Valid() && pendingOffset <= |pendingInput| && outputOffset <= |output| && Sound(config, Now()) &&
      (Open(Now()) ==> codec.next != Error)
    }

    constructor (token: Token, config: Config)
      requires ValidConfig(config)
      ensures Valid() && this.config == config && Now() == Fresh(token) && fresh(codec) && fresh(codec.header)
    {
      this.token, this.config := token, config;
      codec := new LengthPrefixedCodec();
      pendingInput, pendingOffset, output, outputOffset := [], 0, [], 0;
      phase, reason, peerReadClosed, closeAfterWrite := Reading, NoReason, false, false;
    }

    method BufferedInputBytes() returns (count: nat)
      requires Valid() && Open(Now())
      ensures count == BufferedInput(Now())
    {
      codec.HeldIsPartial();
      count := codec.headerBytes + |codec.payload| + (|pendingInput| - pendingOffset);
    }

    method BytesNeededByCodec() returns (count: nat)
      requires codec.Valid() && codec.next != Error
      ensures count == Needed(codec.held) && 0 < count
    {
      codec.HeldIsPartial();
      count := if codec.next == NeedHeader then HEADER_SIZE - codec.headerBytes else codec.expected - |codec.payload|;
    }

    method BeginClose(r: CloseReason)
      requires Valid()
      modifies this`phase, this`reason
      ensures Valid() && Now() == Session.BeginClose(old(Now()), r)
    {
      if phase != Closed && phase != Closing && r != NoReason {
        phase, reason := Closing, r;
      }
    }

    method FinalizeClose()
      requires Valid()
      modifies this`phase, this`reason
      ensures Valid() && Now() == Session.FinalizeClose(old(Now()))
    {
      if phase != Closing && phase != Closed {
        BeginClose(LocalShutdown);
      }
      phase := Closed;
    }

    method AppendPendingInput(input: Bytes)
      requires pendingOffset <= |pendingInput|
      modifies this`pendingInput, this`pendingOffset
      ensures pendingOffset <= |pendingInput| &&
        pendingInput[pendingOffset..] == old(pendingInput[pendingOffset..]) + input
    {
      if input == [] {
        return;
      }
      pendingInput, pendingOffset := pendingInput[pendingOffset..] + input, 0;
    }

    // One round of consumeReadingBytes.
    method DecodeChunk(chunk: Bytes, limited: bool) returns (r: Result)
      requires codec.Valid() && codec.next != Error && ValidConfig(config) && Progress(config, codec.held)
      requires phase == Reading && 0 < |chunk| <= Needed(codec.held) && pendingOffset <= |pendingInput|
      requires limited ==> CodecBytes(codec.held) <= config.maxInput && pendingOffset == |pendingInput|
      modifies this`phase, this`reason, codec, codec.header
      ensures codec.Valid() && (phase != Closing ==> codec.next != Error)
      ensures Progressed(phase, reason, codec.held, r.accepted, r) ==
        ReadChunk(config, old(codec.held), chunk, limited, old(reason))
    {
      codec.HeldIsPartial();
      if limited {
        var room: nat := config.maxInput - (codec.headerBytes + |codec.payload| + (|pendingInput| - pendingOffset));
        if |chunk| > room {
          phase, reason := Closing, InputLimit;
          return Plain(InputLimitExceeded);
        }
      }
      NeededChunk(config, codec.held, chunk);
      var result := codec.Consume(chunk);
      if result.state == Error {
        phase, reason := Closing, ProtocolViolation;
        return Result(BadProtocol, None, |chunk|, result.error);
      }
      codec.HeldIsPartial();
      if codec.next == NeedBody && codec.expected > config.maxFrame {
        phase, reason := Closing, InputLimit;
        return Result(InputLimitExceeded, None, result.consumed, NoError);
      }
      if |result.frames| > 0 {
        if |result.frames| != 1 {
          assert false;
        }
        phase := Processing;
        return Result(RequestReady, Some(result.frames[0]), result.consumed, NoError);
      }
      return Result(Buffered, None, result.consumed, NoError);
    }

    // The codec is fit to read on.
    ghost predicate MayRead(limited: bool)
      reads this, codec, codec.header
    {
      codec.Valid() && codec.next != Error && phase == Reading && pendingOffset <= |pendingInput| &&
      (limited ==> pendingOffset == |pendingInput|)
    }

    // One round of the loop of consumeReadingBytes.
    method DecodeRound(rest: Bytes, limited: bool) returns (r: Result, ghost count: nat)
      requires rest != [] && MayRead(limited) && ValidConfig(config) && Progress(config, codec.held)
      requires limited ==> CodecBytes(codec.held) <= config.maxInput
      modifies this`phase, this`reason, codec, codec.header
      ensures 0 < count == Min(Needed(old(codec.held)), |rest|)
      ensures codec.Valid() && (phase != Closing ==> codec.next != Error)
      ensures Progressed(phase, reason, codec.held, r.accepted, r) ==
        ReadChunk(config, old(codec.held), rest[..count], limited, old(reason))
    {
      var needed := BytesNeededByCodec();
      count := Min(needed, |rest|);
      r := DecodeChunk(rest[..Min(needed, |rest|)], limited);
    }

    method DecodeTurn(rest: Bytes, limited: bool, ghost goal: Progressed, ghost offset: nat) returns (r: Result)
      requires rest != [] && MayRead(limited) && Towards(config, codec.held, reason, rest, limited, goal, offset)
      modifies this`phase, this`reason, codec, codec.header
      ensures codec.Valid() && (phase != Closing ==> codec.next != Error) && r.accepted <= |rest|
      ensures phase == Reading ==>
        0 < r.accepted && r == Result(Buffered, None, r.accepted, NoError) &&
        Towards(config, codec.held, reason, rest[r.accepted..], limited, goal, offset + r.accepted)
      ensures phase != Reading ==> goal == Later(Progressed(phase, reason, codec.held, r.accepted, r), offset)
    {
      ghost var held, why := codec.held, reason;
      ghost var count;
      r, count := DecodeRound(rest, limited);
      assert rest == rest[..count] + rest[count..];
      TowardsStep(config, held, why, rest[..count], rest[count..], limited, goal, offset);
    }

    // The loop of consumeReadingBytes.
    method DecodeLoop(input: Bytes, limited: bool, ghost goal: Progressed) returns (offset: nat, r: Result)
      requires MayRead(limited) && Towards(config, codec.held, reason, input, limited, goal, 0)
      modifies this`phase, this`reason, codec, codec.header
      ensures codec.Valid() && (phase != Closing ==> codec.next != Error)
      ensures Progressed(phase, reason, codec.held, offset, r) == goal
    {
      offset, r := 0, Result(Buffered, None, 0, NoError);
      var rest := input;
      while rest != [] && phase == Reading
        invariant codec.Valid() && r.accepted == offset && (phase != Closing ==> codec.next != Error)
        invariant phase == Reading ==>
          Towards(config, codec.held, reason, rest, limited, goal, offset) &&
          r == Result(Buffered, None, offset, NoError)
        invariant phase != Reading ==> Progressed(phase, reason, codec.held, offset, r) == goal
        decreases |rest|, if phase == Reading then 1 else 0
      {
        var taken := DecodeTurn(rest, limited, goal, offset);
        offset := offset + taken.accepted;
        r := taken.(accepted := offset);
        rest := rest[taken.accepted..];
      }
      if phase == Reading {
        TowardsEnd(config, codec.held, reason, limited, goal, offset);
      }
    }

    method DecodeFirst(input: Bytes, limited: bool) returns (offset: nat, r: Result)
      requires codec.Valid() && codec.next != Error && ValidConfig(config) && Progress(config, codec.held)
      requires phase == Reading && pendingOffset <= |pendingInput|
      requires limited ==> CodecBytes(codec.held) <= config.maxInput && pendingOffset == |pendingInput|
      modifies this`phase, this`reason, codec, codec.header
      ensures codec.Valid() && (phase != Closing ==> codec.next != Error)
      ensures Progressed(phase, reason, codec.held, offset, r) ==
        ReadFirst(config, old(codec.held), input, limited, old(reason))
    {
      offset, r := DecodeLoop(input, limited, ReadFirst(config, codec.held, input, limited, reason));
    }

    // Input while Reading: decode up to one request, keep the rest within the hard limit.
    method ReadNewInput(input: Bytes) returns (r: Result)
      requires Valid() && phase == Reading
      modifies this, codec, codec.header
      ensures codec.Valid() && pendingOffset <= |pendingInput| && outputOffset <= |output|
      ensures phase != Closing ==> codec.next != Error
      ensures (Now(), r) == ReadInput(config, old(Now()), input)
    {
      var offset;
      offset, r := DecodeFirst(input, true);
      if phase == Processing {
        if |input| - offset > config.maxInput {
          phase, reason := Closing, InputLimit;
          return r.(status := InputLimitExceeded, request := None);
        }
        AppendPendingInput(input[offset..]);
        r := r.(accepted := |input|);
      }
    }

    method OnInput(input: Bytes) returns (r: Result)
      requires Valid()
      modifies this, codec, codec.header
      ensures Valid() && (Now(), r) == Session.OnInput(config, old(Now()), input)
      ensures TakesInput(config, old(Now()), input, Now(), r)
    {
      hide TakesInput;
      OnInputSound(config, Now(), input);
      InputTaken(config, Now(), input);
      if phase == Closing {
        return Plain(NowClosing);
      }
      if phase == Closed {
        return Plain(NowClosed);
      }
      if input == [] {
        return Plain(Buffered);
      }
      if phase != Reading {
        var buffered := BufferedInputBytes();
        var room: nat := config.maxInput - buffered;
        if |input| > room {
          phase, reason := Closing, InputLimit;
          return Plain(InputLimitExceeded);
        }
        AppendPendingInput(input);
        return Result(Buffered, None, |input|, NoError);
      }
      r := ReadNewInput(input);
    }

    method ConsumePendingInput() returns (r: Result)
      requires codec.Valid() && codec.next != Error && codec.held == [] && ValidConfig(config) && phase == Reading
      requires pendingOffset <= |pendingInput| && outputOffset <= |output|
      modifies this`pendingInput, this`pendingOffset, this`phase, this`reason, codec, codec.header
      ensures codec.Valid() && pendingOffset <= |pendingInput| && (phase != Closing ==> codec.next != Error)
      ensures (Now(), r) == ReadPending(config, old(Now()))
    {
      assert Progress(config, codec.held);
      hide ReadFirst, ValidConfig, Progress;
      if pendingOffset == |pendingInput| {
        return Plain(Buffered);
      }
      var pending := pendingInput[pendingOffset..];
      var offset;
      offset, r := DecodeFirst(pending, false);
      assert pending[offset..] == pendingInput[pendingOffset + offset..];
      pendingOffset := pendingOffset + offset;
      if pendingOffset == |pendingInput| {
        pendingInput, pendingOffset := [], 0;
      }
    }

    method QueueResponse(token: Token, response: Bytes) returns (status: Status)
      requires Valid()
      modifies this
      ensures Valid() && (Now(), status) == Session.QueueResponse(config, old(Now()), token, response)
    {
      ControlSound(config, Now(), token, response, NoReason);
      if this.token != token {
        return StaleToken;
      }
      if phase == Closing {
        return NowClosing;
      }
      if phase == Closed {
        return NowClosed;
      }
      if phase != Processing {
        return InvalidState;
      }
      if response == [] {
        return InvalidArgument;
      }
      if |response| > config.maxOutput {
        phase, reason := Closing, OutputLimit;
        return OutputLimitExceeded;
      }
      output, outputOffset, phase := response, 0, Writing;
      return Ok;
    }

    method OnBytesWritten(count: nat) returns (r: Result)
      requires Valid()
      modifies this, codec, codec.header
      ensures Valid() && (Now(), r) == Session.OnBytesWritten(config, old(Now()), count)
    {
      OnBytesWrittenSound(config, Now(), count);
      if phase == Closing {
        return Plain(NowClosing);
      }
      if phase == Closed {
        return Plain(NowClosed);
      }
      if phase != Writing {
        return Plain(InvalidState);
      }
      if count > |output| - outputOffset {
        phase, reason := Closing, WriteInvariantViolation;
        return Plain(WriteProgressExceeded);
      }
      outputOffset := outputOffset + count;
      if outputOffset != |output| {
        return Plain(Ok);
      }
      output, outputOffset := [], 0;
      if closeAfterWrite || peerReadClosed {
        phase, reason := Closing, if closeAfterWrite then reason else PeerClosed;
        return Plain(NowClosing);
      }
      r := NextRequest();
    }

    // The response is out: back to Reading, starting with what waited.
    method NextRequest() returns (r: Result)
      requires codec.Valid() && codec.next != Error && codec.held == [] && ValidConfig(config) && phase == Writing
      requires pendingOffset <= |pendingInput| && outputOffset <= |output|
      modifies this`pendingInput, this`pendingOffset, this`phase, this`reason, codec, codec.header
      ensures codec.Valid() && pendingOffset <= |pendingInput| && (phase != Closing ==> codec.next != Error)
      ensures var (v, q) := ReadPending(config, old(Now()).(phase := Reading));
        Now() == v && r == if q.status == Buffered then q.(status := Ok) else q
    {
      phase := Reading;
      r := ConsumePendingInput();
      if r.status == Buffered {
        r := r.(status := Ok);
      }
    }

    method CloseAfterWrite(r: CloseReason) returns (status: Status)
      requires Valid()
      modifies this`reason, this`closeAfterWrite
      ensures Valid() && (Now(), status) == Session.CloseAfterWrite(old(Now()), r)
    {
      if phase == Closing {
        return NowClosing;
      }
      if phase == Closed {
        return NowClosed;
      }
      if phase != Writing || r == NoReason {
        return InvalidState;
      }
      reason, closeAfterWrite := r, true;
      return Ok;
    }

    method OnPeerReadClosed() returns (status: Status)
      requires Valid()
      modifies this`peerReadClosed, this`phase, this`reason
      ensures Valid() && (Now(), status) == Session.OnPeerReadClosed(old(Now()))
    {
      if phase == Closing {
        return NowClosing;
      }
      if phase == Closed {
        return NowClosed;
      }
      var buffered := BufferedInputBytes();
      peerReadClosed := true;
      if phase == Processing || phase == Writing {
        reason := PeerClosed;
        return Ok;
      }
      if buffered != 0 {
        phase, reason := Closing, PeerTruncatedFrame;
        return TruncatedFrame;
      }
      phase, reason := Closing, PeerClosed;
      return NowClosing;
    }
  }
}
