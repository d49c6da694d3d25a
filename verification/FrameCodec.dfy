/** The wire format, four bytes of big-endian length and then the payload, and the
    incremental decoder that accepts it in chunks of any size. */
module FrameCodec {
  import opened Wrappers

  type byte = x: int | 0 <= x < 256
  type Bytes = seq<byte>

  const HEADER_SIZE: nat := 4
  const MIN_PAYLOAD_SIZE: nat := 1
  const MAX_PAYLOAD_SIZE: nat := 1024 * 1024
  const LENGTH_LIMIT: nat := 0x1_0000_0000

  datatype ProtocolError = NoError | EmptyPayload | PayloadTooLarge | MultipleRequests

  function EncodeLength(n: nat): (h: Bytes)
    requires n < LENGTH_LIMIT
    ensures |h| == HEADER_SIZE
  {
    [n / 0x100_0000, n / 0x1_0000 % 0x100, n / 0x100 % 0x100, n % 0x100]
  }

  function BigEndian(h: Bytes): nat {
    if h == [] then 0 else BigEndian(h[..|h| - 1]) * 0x100 + h[|h| - 1]
  }

  function DecodeLength(h: Bytes): (n: nat)
    requires |h| == HEADER_SIZE
    ensures n < LENGTH_LIMIT
  {
    FourBytes(h);
    BigEndian(h)
  }

  // The four shifts of decodePayloadLength.
  lemma FourBytes(h: Bytes)
    requires |h| == HEADER_SIZE
    ensures BigEndian(h) ==
      h[0] as int * 0x100_0000 + h[1] as int * 0x1_0000 + h[2] as int * 0x100 + h[3] as int < LENGTH_LIMIT
  {
    var h3, h2, h1 := h[..3], h[..2], h[..1];
    assert h3[..2] == h2 && h2[..1] == h1 && h1[..0] == [];
    assert BigEndian(h1) == h[0];
    assert BigEndian(h2) == BigEndian(h1) * 0x100 + h[1];
    assert BigEndian(h3) == BigEndian(h2) * 0x100 + h[2];
    assert BigEndian(h) == BigEndian(h3) * 0x100 + h[3];
  }

  lemma DecodeEncodeLength(n: nat)
    requires n < LENGTH_LIMIT
    ensures DecodeLength(EncodeLength(n)) == n
  {
    FourBytes(EncodeLength(n));
    var high := n / 0x100;
    assert n == high * 0x100 + n % 0x100;
    assert n / 0x1_0000 == high / 0x100 && n / 0x100_0000 == high / 0x1_0000;
    assert high / 0x1_0000 == high / 0x100 / 0x100;
  }

  lemma EncodeDecodeLength(h: Bytes)
    requires |h| == HEADER_SIZE
    ensures EncodeLength(DecodeLength(h)) == h
  {
    FourBytes(h);
    var n := DecodeLength(h);
    assert n / 0x100_0000 == h[0];
    assert n / 0x1_0000 == h[0] as int * 0x100 + h[1];
    assert n / 0x100 == h[0] as int * 0x1_0000 + h[1] as int * 0x100 + h[2];
  }

  function ValidateLength(n: nat): ProtocolError {
    if n < MIN_PAYLOAD_SIZE then EmptyPayload
    else if n > MAX_PAYLOAD_SIZE then PayloadTooLarge
    else NoError
  }

  function EncodeFrame(payload: Bytes): Bytes
    requires |payload| < LENGTH_LIMIT
  {
    EncodeLength(|payload|) + payload
  }

  predicate ValidFrames(frames: seq<Bytes>) {
    forall i :: 0 <= i < |frames| ==> ValidateLength(|frames[i]|) == NoError
  }

  function EncodeFrames(frames: seq<Bytes>): Bytes
    requires ValidFrames(frames)
  {
    if frames == [] then [] else EncodeFrame(frames[0]) + EncodeFrames(frames[1..])
  }

  /* The reference: what a whole byte stream means. */

  datatype Parsed = Parsed(frames: seq<Bytes>, rest: Bytes, error: ProtocolError)

  // What the front of a stream says: not enough yet, no frame ever, or a frame of that size.
  datatype Front = More | Bad(error: ProtocolError) | Whole(size: nat)

  function FrontOf(s: Bytes): (f: Front)
    ensures f.Bad? ==> |s| >= HEADER_SIZE && f.error != NoError
    ensures f.Whole? ==> HEADER_SIZE < f.size <= |s| && ValidateLength(f.size - HEADER_SIZE) == NoError
  {
    if |s| < HEADER_SIZE then More
    else
      var n := DecodeLength(s[..HEADER_SIZE]);
      if ValidateLength(n) != NoError then Bad(ValidateLength(n))
      else if |s| < HEADER_SIZE + n then More
      else Whole(HEADER_SIZE + n)
  }

  function Parse(s: Bytes): (p: Parsed)
    ensures ValidFrames(p.frames)
  {
    match FrontOf(s)
    case More => Parsed([], s, NoError)
    case Bad(e) => Parsed([], s, e)
    case Whole(size) =>
      var p := Parse(s[size..]);
      Parsed([s[HEADER_SIZE..size]] + p.frames, p.rest, p.error)
  }

  lemma FrontAppend(a: Bytes, b: Bytes)
    ensures !FrontOf(a).More? ==> FrontOf(a + b) == FrontOf(a)
  {
    if |a| >= HEADER_SIZE { assert (a + b)[..HEADER_SIZE] == a[..HEADER_SIZE]; }
  }

  lemma FrontOfFrame(frame: Bytes, tail: Bytes)
    requires ValidateLength(|frame|) == NoError
    ensures FrontOf(EncodeFrame(frame) + tail) == Whole(HEADER_SIZE + |frame|)
  {
    DecodeEncodeLength(|frame|);
    assert (EncodeFrame(frame) + tail)[..HEADER_SIZE] == EncodeLength(|frame|);
  }

  lemma WholeFrameSpells(s: Bytes)
    requires FrontOf(s).Whole?
    ensures var size := FrontOf(s).size; EncodeFrame(s[HEADER_SIZE..size]) + s[size..] == s
  {
    var size := FrontOf(s).size;
    EncodeDecodeLength(s[..HEADER_SIZE]);
    assert s == (s[..HEADER_SIZE] + s[HEADER_SIZE..size]) + s[size..];
  }

  // Parsing more after a stream that ended inside a frame.
  function Resume(p: Parsed, more: Bytes): Parsed {
    if p.error != NoError then Parsed(p.frames, p.rest + more, p.error)
    else
      var q := Parse(p.rest + more);
      Parsed(p.frames + q.frames, q.rest, q.error)
  }

  lemma ParseWhole(s: Bytes)
    requires FrontOf(s).Whole?
    ensures var size := FrontOf(s).size;
      var p := Parse(s[size..]);
      Parse(s) == Parsed([s[HEADER_SIZE..size]] + p.frames, p.rest, p.error)
  {}

  lemma ResumeLater(frame: Bytes, p: Parsed, b: Bytes)
    ensures var q := Resume(p, b);
      Resume(Parsed([frame] + p.frames, p.rest, p.error), b) == Parsed([frame] + q.frames, q.rest, q.error)
  {
    if p.error == NoError {
      var q := Parse(p.rest + b);
      assert [frame] + (p.frames + q.frames) == ([frame] + p.frames) + q.frames;
    }
  }

  /** Where the stream is cut makes no difference. */
  lemma {:induction false} ParseAppend(a: Bytes, b: Bytes)
    ensures Parse(a + b) == Resume(Parse(a), b)
    decreases |a|
  {
    FrontAppend(a, b);
    var f := FrontOf(a);
    if f.Whole? {
      ParseWhole(a);
      ParseWhole(a + b);
      assert (a + b)[f.size..] == a[f.size..] + b;
      assert (a + b)[HEADER_SIZE..f.size] == a[HEADER_SIZE..f.size];
      ParseAppend(a[f.size..], b);
      ResumeLater(a[HEADER_SIZE..f.size], Parse(a[f.size..]), b);
    } else if f.More? {
      assert Parse(a) == Parsed([], a, NoError);
      assert [] + Parse(a + b).frames == Parse(a + b).frames;
    }
  }

  lemma EncodeFramesCons(frame: Bytes, frames: seq<Bytes>)
    requires ValidateLength(|frame|) == NoError && ValidFrames(frames)
    ensures ValidFrames([frame] + frames) && EncodeFrames([frame] + frames) == EncodeFrame(frame) + EncodeFrames(frames)
  {
    assert ([frame] + frames)[1..] == frames;
  }

  lemma Associative(a: Bytes, b: Bytes, c: Bytes)
    ensures (a + b) + c == a + (b + c)
  {}

  /** Decoding loses nothing: the frames and what is left spell the stream. */
  lemma {:induction false} ParseSpellsInput(s: Bytes)
    ensures EncodeFrames(Parse(s).frames) + Parse(s).rest == s
    decreases |s|
  {
    if FrontOf(s).Whole? {
      var size := FrontOf(s).size;
      var frame, p := s[HEADER_SIZE..size], Parse(s[size..]);
      ParseWhole(s);
      WholeFrameSpells(s);
      ParseSpellsInput(s[size..]);
      EncodeFramesCons(frame, p.frames);
      Associative(EncodeFrame(frame), EncodeFrames(p.frames), p.rest);
    }
  }

  /** Round trip: a stream of encoded frames decodes to those frames, whatever follows. */
  lemma {:induction false} ParseEncoded(frames: seq<Bytes>, tail: Bytes)
    requires ValidFrames(frames)
    ensures Parse(EncodeFrames(frames) + tail) ==
      Parsed(frames + Parse(tail).frames, Parse(tail).rest, Parse(tail).error)
    decreases |frames|
  {
    if frames == [] {
      assert EncodeFrames(frames) + tail == tail;
      assert frames + Parse(tail).frames == Parse(tail).frames;
    } else {
      var more := EncodeFrames(frames[1..]);
      ParseEncoded(frames[1..], tail);
      ParseOneMore(frames[0], more + tail);
      Associative(EncodeFrame(frames[0]), more, tail);
      FramesAssociative(frames, Parse(tail).frames);
    }
  }

  lemma FramesAssociative(frames: seq<Bytes>, more: seq<Bytes>)
    requires frames != []
    ensures [frames[0]] + (frames[1..] + more) == frames + more
  {}

  lemma ParseOneMore(frame: Bytes, rest: Bytes)
    requires ValidateLength(|frame|) == NoError
    ensures Parse(EncodeFrame(frame) + rest) ==
      Parsed([frame] + Parse(rest).frames, Parse(rest).rest, Parse(rest).error)
  {
    var s, size := EncodeFrame(frame) + rest, HEADER_SIZE + |frame|;
    FrontOfFrame(frame, rest);
    assert s[HEADER_SIZE..size] == frame && s[size..] == rest;
    ParseWhole(s);
  }

  // A beginning of a frame: nothing to emit and no error yet.
  predicate Partial(s: Bytes) {
    FrontOf(s).More?
  }

  lemma PartialParses(s: Bytes)
    ensures Partial(s) <==> Parse(s) == Parsed([], s, NoError)
  {
    if FrontOf(s).Whole? { assert Parse(s).frames != []; }
  }

  function Flatten(chunks: seq<Bytes>): Bytes {
    if chunks == [] then [] else chunks[0] + Flatten(chunks[1..])
  }

  // Decoding chunk by chunk, each time from what the last chunk left over.
  function Feed(p: Parsed, chunks: seq<Bytes>): Parsed
    decreases |chunks|
  {
    if chunks == [] then p else Feed(Resume(p, chunks[0]), chunks[1..])
  }

  /** Every way of cutting a stream into chunks decodes to the same frames, the same rest
      and the same error. */
  lemma {:induction false} ChunkingIsInvisible(before: Bytes, chunks: seq<Bytes>)
    ensures Feed(Parse(before), chunks) == Parse(before + Flatten(chunks))
    decreases |chunks|
  {
    if chunks == [] {
      assert before + [] == before;
    } else {
      ParseAppend(before, chunks[0]);
      ChunkingIsInvisible(before + chunks[0], chunks[1..]);
      Associative(before, chunks[0], Flatten(chunks[1..]));
    }
  }

  /* The decoder. */

  datatype CodecState = NeedHeader | NeedBody | FrameReady | Error

  datatype ConsumeResult = ConsumeResult(state: CodecState, error: ProtocolError, consumed: nat, frames: seq<Bytes>)

  class LengthPrefixedCodec {
    const header: array<byte>
    var headerBytes: nat
    var expected: nat
    var payload: Bytes
    var next: CodecState
    var error: ProtocolError
    ghost var held: Bytes  // the bytes of the frame in progress, header included

    ghost predicate Valid()
      reads this, header
    {
      header.Length == HEADER_SIZE && headerBytes <= HEADER_SIZE &&
      match next
      case NeedHeader =>
        headerBytes < HEADER_SIZE && held == header[..headerBytes] && payload == [] && expected == 0 && error == NoError
      case NeedBody =>
        headerBytes == 0 && |payload| < expected && ValidateLength(expected) == NoError && error == NoError &&
        held == EncodeLength(expected) + payload
      case Error => error != NoError && headerBytes == 0 && held == [] && payload == [] && expected == 0
      case FrameReady => false
    }

    constructor ()
      ensures Valid() && next == NeedHeader && held == [] && fresh(header)
    {
      header := new byte[4](_ => 0);
      headerBytes, expected, payload, next, error := 0, 0, [], NeedHeader, NoError;
      held := [];
    }

    lemma HeldIsPartial()
      requires Valid() && next != Error
      ensures Partial(held)
      ensures |held| == if next == NeedHeader then headerBytes else HEADER_SIZE + |payload|
      ensures next == NeedBody ==> DecodeLength(held[..HEADER_SIZE]) == expected
    {
      if next == NeedBody {
        DecodeEncodeLength(expected);
        assert held[..HEADER_SIZE] == EncodeLength(expected);
      }
    }

    method CopyHeader(bytes: Bytes)
      requires headerBytes + |bytes| <= header.Length
      modifies this`headerBytes, header
      ensures headerBytes == old(headerBytes) + |bytes| && header[..headerBytes] == old(header[..headerBytes]) + bytes
    {
      for i := 0 to |bytes|
        invariant headerBytes == old(headerBytes)
        invariant header[..headerBytes + i] == old(header[..headerBytes]) + bytes[..i]
      {
        header[headerBytes + i] := bytes[i];
      }
      headerBytes := headerBytes + |bytes|;
      assert bytes[..|bytes|] == bytes;
    }

    // The header branch; what is held grows by exactly what was copied.
    method ReadHeader(input: Bytes) returns (copied: nat)
      requires Valid() && next == NeedHeader && input != []
      modifies this, header
      ensures Valid() && 0 < copied <= |input|
      ensures next != Error ==> held == old(held) + input[..copied] && Partial(held)
      ensures next == NeedHeader ==> copied == |input|
      ensures next == Error ==> Rejected(old(held) + input[..copied], error)
    {
      copied := Min(HEADER_SIZE - headerBytes, |input|);
      CopyHeader(input[..copied]);
      held := held + input[..copied];
      if headerBytes < HEADER_SIZE {
        return;
      }
      assert header[..] == held;
      var declared := DecodeLength(header[..]);
      var invalid := ValidateLength(declared);
      headerBytes := 0;
      if invalid != NoError {
        assert Rejected(held, invalid);
        next, error, expected, payload, held := Error, invalid, 0, [], [];
        return;
      }
      expected, next := declared, NeedBody;
      EncodeDecodeLength(held);
      assert held == EncodeLength(expected) + payload;
      HeldIsPartial();
    }

    // The body branch.
    method ReadBody(input: Bytes) returns (copied: nat, frame: Option<Bytes>)
      requires Valid() && next == NeedBody && input != []
      modifies this
      ensures Valid() && next != Error && 0 < copied <= |input|
      ensures frame.None? ==> copied == |input| && held == old(held) + input && Partial(held)
      ensures frame.Some? ==> held == [] && Emitted(old(held) + input[..copied], frame.value)
    {
      copied := Min(expected - |payload|, |input|);
      payload := payload + input[..copied];
      held := held + input[..copied];
      if |payload| == expected {
        frame := Some(payload);
        payload, expected, next, held := [], 0, NeedHeader, [];
      } else {
        frame := None;
        assert input[..copied] == input;
        HeldIsPartial();
      }
    }

    // One turn of the decoding loop: at most one frame.
    method Turn(input: Bytes) returns (copied: nat, frame: Option<Bytes>)
      requires Valid() && next != Error && input != []
      modifies this, header
      ensures Valid() && 0 < copied <= |input|
      ensures Turned(old(held) + input[..copied], frame, held, next == Error, error)
    {
      copied, frame := 0, None;
      if next == NeedHeader {
        copied := ReadHeader(input);
      }
      if next == NeedBody && copied < |input| {
        assert held == old(held) + input[..copied];
        var more;
        more, frame := ReadBody(input[copied..]);
        Joined(old(held), input, copied, more);
        assert input[copied..][..|input| - copied] == input[copied..];
        copied := copied + more;
      }
    }

    // The decoding loop.
    method Decode(input: Bytes) returns (offset: nat, frames: seq<Bytes>)
      requires Valid() && next != Error
      modifies this, header
      ensures Valid() && offset <= |input| && (next != Error ==> offset == |input|)
      ensures SoFar(Parse(old(held) + input[..offset]), frames, held, next == Error, error)
    {
      offset, frames := 0, [];
      HeldIsPartial();
      Begin(held, input);
      while offset < |input| && next != Error
        invariant Valid() && offset <= |input|
        invariant SoFar(Parse(old(held) + input[..offset]), frames, held, next == Error, error)
        decreases |input| - offset
      {
        ghost var before, done, at := held, frames, offset;
        var copied, frame := Turn(input[offset..]);
        if frame.Some? { frames := frames + [frame.value]; }
        offset := offset + copied;
        Advance(old(held), input, at, copied, done, before, frame, held, next == Error, error);
      }
    }

    /** For any input chunk the codec emits exactly the frames that the bytes held so far
        and the chunk spell together, keeps the unfinished rest, and stops for good right
        behind the first header that is not acceptable. */
    method Consume(input: Bytes) returns (r: ConsumeResult)
      requires Valid()
      modifies this, header
      ensures Valid() && r.error == error
      ensures old(next) == Error ==> r == ConsumeResult(Error, old(error), 0, []) && next == Error
      ensures old(next) != Error ==> Decoded(old(held), input, r, held)
      ensures r.state == if next == Error then Error else if r.frames != [] then FrameReady else next
    {
      if next == Error {
        return ConsumeResult(Error, error, 0, []);
      }
      var offset, frames := Decode(input);
      var state := if next == Error then Error else if |frames| > 0 then FrameReady else next;
      r := ConsumeResult(state, error, offset, frames);
      Finish(old(held), input, held, r);
    }
  }

  lemma Begin(h: Bytes, input: Bytes)
    requires Partial(h)
    ensures Parse(h + input[..0]) == Parsed([], h, NoError)
  {
    assert h + input[..0] == h;
  }

  lemma Joined(h: Bytes, input: Bytes, a: nat, b: nat)
    requires a + b <= |input|
    ensures (h + input[..a]) + input[a..][..b] == h + input[..a + b]
  {
    assert input[..a] + input[a..][..b] == input[..a + b];
    Associative(h, input[..a], input[a..][..b]);
  }

  predicate Rejected(h: Bytes, error: ProtocolError) {
    |h| == HEADER_SIZE && error != NoError && error == ValidateLength(DecodeLength(h))
  }

  predicate Emitted(s: Bytes, frame: Bytes) {
    ValidateLength(|frame|) == NoError && s == EncodeFrame(frame)
  }

  // One turn read s: an unacceptable header, a whole frame, or part of one.
  predicate Turned(s: Bytes, frame: Option<Bytes>, after: Bytes, failed: bool, error: ProtocolError) {
    if failed then Rejected(s, error) && frame.None?
    else if frame.Some? then after == [] && Emitted(s, frame.value)
    else Partial(s) && after == s
  }

  // A parse that stands in the middle of a frame or right behind an unacceptable header.
  predicate SoFar(p: Parsed, frames: seq<Bytes>, held: Bytes, failed: bool, error: ProtocolError) {
    if failed then error != NoError && p.frames == frames && p.error == error && |p.rest| == HEADER_SIZE
    else p == Parsed(frames, held, NoError)
  }

  // What Consume computes, in terms of the reference parser.
  ghost predicate Decoded(before: Bytes, input: Bytes, r: ConsumeResult, after: Bytes) {
    var p := Parse(before + input);
    r.frames == p.frames && r.error == p.error && r.consumed <= |input| &&
    (p.error == NoError ==> after == p.rest && r.consumed == |input|) &&
    (p.error != NoError ==>
      |p.rest| >= HEADER_SIZE && before + input[..r.consumed] == EncodeFrames(p.frames) + p.rest[..HEADER_SIZE])
  }

  // Extending a parse by the next chunk.
  lemma Advance(held: Bytes, input: Bytes, offset: nat, copied: nat, frames: seq<Bytes>, before: Bytes,
                frame: Option<Bytes>, after: Bytes, failed: bool, error: ProtocolError)
    requires offset + copied <= |input|
    requires Parse(held + input[..offset]) == Parsed(frames, before, NoError)
    requires Turned(before + input[offset..][..copied], frame, after, failed, error)
    ensures SoFar(Parse(held + input[..offset + copied]),
      if frame.Some? then frames + [frame.value] else frames, after, failed, error)
  {
    var more := input[offset..][..copied];
    var chunk := before + more;
    Joined(held, input, offset, copied);
    ParseAppend(held + input[..offset], more);
    if failed {
      assert chunk[..HEADER_SIZE] == chunk;
    } else if frame.Some? {
      ParseOneMore(frame.value, []);
      assert EncodeFrame(frame.value) + [] == chunk;
    } else {
      PartialParses(chunk);
    }
  }

  lemma Finish(held: Bytes, input: Bytes, after: Bytes, r: ConsumeResult)
    requires r.consumed <= |input|
    requires SoFar(Parse(held + input[..r.consumed]), r.frames, after, r.error != NoError, r.error)
    requires r.error == NoError ==> r.consumed == |input|
    ensures Decoded(held, input, r, after)
  {
    var offset := r.consumed;
    var p := Parse(held + input[..offset]);
    assert held + input == (held + input[..offset]) + input[offset..];
    ParseAppend(held + input[..offset], input[offset..]);
    ParseSpellsInput(held + input[..offset]);
    if r.error != NoError {
      assert (p.rest + input[offset..])[..HEADER_SIZE] == p.rest;
    } else {
      assert input[..offset] == input;
    }
  }
}
