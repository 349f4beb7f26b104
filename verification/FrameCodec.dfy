/** The framed binary wire format: frames cut out of a byte stream, and the two hot-path bodies. */
module FrameCodec {

  newtype byte = b: int | 0 <= b < 256

  datatype Option<+T> = None | Some(value: T)

  datatype Failure = FrameTooLong | UnsupportedVersion | TruncatedBody | TrailingBytes | NotJson
  datatype Result<+T> = Ok(value: T) | Err(failure: Failure) {
    predicate IsFailure() {
      Err?
    }

    function PropagateFailure<U>(): Result<U>
      requires IsFailure()
    {
      Err(failure)
    }

    function Extract(): T
      requires !IsFailure()
    {
      value
    }
  }

  const VERSION: byte := 1
  const HEADER_BYTES := 12
  const MAX_FRAME_BYTES := 67108864
  const NULL_STRING := 0xFFFFFFFF

  const APPEND_ENTRIES: byte := 1
  const APPEND_ENTRIES_RESPONSE: byte := 2

  // ── integers ──────────────────────────────────────────────────────────────

  function Low(n: nat): byte {
    (n % 256) as byte
  }

  /** Big-endian, 32 bits wide. */
  function U32(n: nat): (b: seq<byte>)
    ensures |b| == 4
  {
    [Low(n / 0x1000000), Low(n / 0x10000), Low(n / 0x100), Low(n)]
  }

  function FromU32(b: seq<byte>): (n: nat)
    requires |b| >= 4
    ensures n <= NULL_STRING
  {
    b[0] as nat * 0x1000000 + b[1] as nat * 0x10000 + b[2] as nat * 0x100 + b[3] as nat
  }

  lemma IntegerRoundTrip(n: nat, rest: seq<byte>)
    requires n <= NULL_STRING
    ensures FromU32(U32(n) + rest) == n
  {
    var a, b, c := n / 0x100, n / 0x10000, n / 0x1000000;
    assert a / 0x100 == b && b / 0x100 == c;
    assert n == a * 0x100 + n % 0x100 && a == b * 0x100 + a % 0x100 && b == c * 0x100 + b % 0x100;
  }

  // ── frames in a byte stream ───────────────────────────────────────────────

  datatype Frame = Frame(kind: byte, streamId: nat, body: seq<byte>)

  /** A frame the writer agrees to produce, its stream id already reduced to 32 bits. */
  predicate Sendable(f: Frame) {
    |f.body| <= MAX_FRAME_BYTES && f.streamId <= NULL_STRING
  }

  function Header(f: Frame): (h: seq<byte>)
    ensures |h| == HEADER_BYTES
  {
    U32(|f.body|) + [VERSION, f.kind, 0, 0] + U32(f.streamId)
  }

  function Bytes(f: Frame): seq<byte> {
    Header(f) + f.body
  }

  function Stream(frames: seq<Frame>): seq<byte> {
    if frames == [] then [] else Bytes(frames[0]) + Stream(frames[1..])
  }

  /** What is at the front of the stream. */
  datatype Front = Incomplete | Whole(frame: Frame, rest: seq<byte>) | Bad(failure: Failure)

  function FrontOf(stream: seq<byte>, limit: nat): (front: Front)
    ensures front.Whole? ==> |front.rest| < |stream|
  {
    if |stream| < HEADER_BYTES then
      Incomplete
    else
      var length := FromU32(stream);
      if length > limit then Bad(FrameTooLong)
      else if stream[4] != VERSION then Bad(UnsupportedVersion)
      else if |stream| < HEADER_BYTES + length then Incomplete
      else
        Whole(Frame(stream[5], FromU32(stream[8..]), stream[HEADER_BYTES..HEADER_BYTES + length]), stream[HEADER_BYTES + length..])
  }

  datatype Cut = Cut(frames: seq<Frame>, rest: seq<byte>, failure: Option<Failure>)

  /** Every whole frame from the front on, and what is left behind. */
  function CutAll(stream: seq<byte>, limit: nat): Cut
    decreases |stream|
  {
    match FrontOf(stream, limit)
    case Incomplete => Cut([], stream, None)
    case Bad(failure) => Cut([], stream, Some(failure))
    case Whole(frame, rest) =>
      var more := CutAll(rest, limit);
      Cut([frame] + more.frames, more.rest, more.failure)
  }

  lemma FrontOfBytes(f: Frame, rest: seq<byte>, limit: nat)
    requires Sendable(f) && |f.body| <= limit
    ensures FrontOf(Bytes(f) + rest, limit) == Whole(f, rest)
  {
    var stream := Bytes(f) + rest;
    IntegerRoundTrip(|f.body|, stream[4..]);
    assert stream == U32(|f.body|) + stream[4..];
    IntegerRoundTrip(f.streamId, stream[12..]);
    assert stream[8..] == U32(f.streamId) + stream[12..];
    assert stream[HEADER_BYTES..HEADER_BYTES + |f.body|] == f.body;
    assert stream[HEADER_BYTES + |f.body|..] == rest;
  }

  /** Bytes that arrive later do not change a frame already whole, nor a failure already seen. */
  lemma LaterBytes(stream: seq<byte>, later: seq<byte>, limit: nat)
    ensures match FrontOf(stream, limit)
            case Incomplete => true
            case Bad(failure) => FrontOf(stream + later, limit) == Bad(failure)
            case Whole(frame, rest) => FrontOf(stream + later, limit) == Whole(frame, rest + later)
  {
    if |stream| >= HEADER_BYTES {
      var whole := stream + later;
      var length := FromU32(stream);
      assert FromU32(whole) == length && FromU32(whole[8..]) == FromU32(stream[8..]);
      if |stream| >= HEADER_BYTES + length {
        assert whole[HEADER_BYTES..HEADER_BYTES + length] == stream[HEADER_BYTES..HEADER_BYTES + length];
        assert whole[HEADER_BYTES + length..] == stream[HEADER_BYTES + length..] + later;
      }
    }
  }

  /** Cutting in two goes is cutting in one. */
  lemma {:induction false} CutInTwo(stream: seq<byte>, later: seq<byte>, limit: nat)
    ensures var first := CutAll(stream, limit);
            if first.failure.None? then
              var second := CutAll(first.rest + later, limit);
              CutAll(stream + later, limit) == Cut(first.frames + second.frames, second.rest, second.failure)
            else
              CutAll(stream + later, limit) == first.(rest := first.rest + later)
    decreases |stream|
  {
    hide FrontOf;
    LaterBytes(stream, later, limit);
    match FrontOf(stream, limit)
    case Incomplete =>
      var second := CutAll(stream + later, limit);
      assert [] + second.frames == second.frames;
    case Bad(_) =>
    case Whole(frame, rest) =>
      CutInTwo(rest, later, limit);
      var first := CutAll(rest, limit);
      if first.failure.None? {
        var second := CutAll(first.rest + later, limit);
        assert [frame] + (first.frames + second.frames) == ([frame] + first.frames) + second.frames;
      }
  }

  lemma {:induction false} CutOfStream(frames: seq<Frame>, tail: seq<byte>, limit: nat)
    requires forall f :: f in frames ==> Sendable(f) && |f.body| <= limit
    ensures CutAll(Stream(frames) + tail, limit) ==
            (var left := CutAll(tail, limit); Cut(frames + left.frames, left.rest, left.failure))
    decreases |frames|
  {
    hide FrontOf, Bytes, Sendable;
    var left := CutAll(tail, limit);
    if frames == [] {
      assert Stream(frames) + tail == tail && frames + left.frames == left.frames;
    } else {
      var rest := Stream(frames[1..]) + tail;
      FrontOfBytes(frames[0], rest, limit);
      assert Stream(frames) + tail == Bytes(frames[0]) + rest;
      CutOfStream(frames[1..], tail, limit);
      assert [frames[0]] + (frames[1..] + left.frames) == frames + left.frames;
    }
  }

  /** A frame cut off before its end is neither a frame nor an error. */
  lemma PartialFrameWaits(f: Frame, k: nat, limit: nat)
    requires Sendable(f) && |f.body| <= limit && k < |Bytes(f)|
    ensures CutAll(Bytes(f)[..k], limit) == Cut([], Bytes(f)[..k], None)
  {
    var part := Bytes(f)[..k];
    if k >= HEADER_BYTES {
      IntegerRoundTrip(|f.body|, part[4..]);
      assert part == U32(|f.body|) + part[4..];
    }
  }

  // ── pushing chunks ────────────────────────────────────────────────────────

  function Flatten(chunks: seq<seq<byte>>): seq<byte> {
    if chunks == [] then [] else Flatten(chunks[..|chunks| - 1]) + chunks[|chunks| - 1]
  }

  /**
   * What a decoder has handed over after these pushes, and what it still holds. A push that fails hands over
   * nothing, not even the whole frames in front of the bad header, and is the last.
   */
  function Pushed(chunks: seq<seq<byte>>, limit: nat): Cut {
    if chunks == [] then
      Cut([], [], None)
    else
      var before := Pushed(chunks[..|chunks| - 1], limit);
      if before.failure.Some? then before
      else
        var now := CutAll(before.rest + chunks[|chunks| - 1], limit);
        Cut(if now.failure.Some? then before.frames else before.frames + now.frames, now.rest, now.failure)
  }

  /** Chunk k is the one that completes the first bad header. */
  ghost predicate FailsAt(chunks: seq<seq<byte>>, limit: nat, k: nat) {
    && k < |chunks|
    && CutAll(Flatten(chunks[..k]), limit).failure.None? && CutAll(Flatten(chunks[..k + 1]), limit).failure.Some?
  }

  /**
   * However the bytes are chunked, a failure comes exactly when the whole stream has one, and is the same. Without
   * one the frames and the bytes held back are the same too; with one, the frames are those of the chunks before
   * the failing one.
   */
  lemma {:induction false} ChunkingIsInvisible(chunks: seq<seq<byte>>, limit: nat) returns (k: nat)
    ensures var all, got := CutAll(Flatten(chunks), limit), Pushed(chunks, limit);
            && got.failure == all.failure
            && (all.failure.None? ==> got == all)
            && (all.failure.Some? ==> FailsAt(chunks, limit, k) && got.frames == CutAll(Flatten(chunks[..k]), limit).frames)
    decreases |chunks|
  {
    k := 0;
    if chunks != [] {
      hide CutAll;
      var n := |chunks| - 1;
      k := ChunkingIsInvisible(chunks[..n], limit);
      CutInTwo(Flatten(chunks[..n]), chunks[n], limit);
      if CutAll(Flatten(chunks[..n]), limit).failure.Some? {
        assert chunks[..n][..k] == chunks[..k] && chunks[..n][..k + 1] == chunks[..k + 1];
      } else {
        k := n;
        assert chunks[..n + 1] == chunks;
      }
    } else {
      assert CutAll([], limit) == Cut([], [], None);
    }
  }

  /** Every chunking of the stream hands over the same frames. */
  ghost predicate ChunkingNeverShows(stream: seq<byte>, limit: nat) {
    forall a, b :: Flatten(a) == stream && Flatten(b) == stream ==> Pushed(a, limit).frames == Pushed(b, limit).frames
  }

  lemma {:induction false} FlattenPrefix(chunks: seq<seq<byte>>, k: nat) returns (rest: seq<byte>)
    requires k <= |chunks|
    ensures Flatten(chunks) == Flatten(chunks[..k]) + rest
    decreases |chunks|
  {
    if k == |chunks| {
      assert chunks[..k] == chunks;
      rest := [];
    } else {
      var n := |chunks| - 1;
      rest := FlattenPrefix(chunks[..n], k);
      assert chunks[..n][..k] == chunks[..k];
      rest := rest + chunks[n];
    }
  }

  /** Before a bad header with no whole frame in front of it, no chunking hands over anything. */
  lemma NothingInFront(chunks: seq<seq<byte>>, limit: nat)
    requires CutAll(Flatten(chunks), limit).failure.Some? && CutAll(Flatten(chunks), limit).frames == []
    ensures Pushed(chunks, limit).frames == []
  {
    hide CutAll;
    var k := ChunkingIsInvisible(chunks, limit);
    var rest := FlattenPrefix(chunks, k);
    CutInTwo(Flatten(chunks[..k]), rest, limit);
  }

  lemma OneChunk(chunk: seq<byte>, limit: nat)
    ensures Flatten([chunk]) == chunk
    ensures Pushed([chunk], limit) == (var cut := CutAll(chunk, limit); if cut.failure.Some? then cut.(frames := []) else cut)
  {
    hide CutAll;
    assert [chunk][..0] == [];
    assert Flatten([]) == [] && [] + chunk == chunk;
    assert [] + CutAll(chunk, limit).frames == CutAll(chunk, limit).frames;
  }

  lemma TwoChunks(first: seq<byte>, second: seq<byte>, limit: nat)
    requires CutAll(first, limit).failure.None?
    ensures Flatten([first, second]) == first + second
    ensures var cut := CutAll(first, limit);
            var later := CutAll(cut.rest + second, limit);
            Pushed([first, second], limit)
              == Cut(if later.failure.Some? then cut.frames else cut.frames + later.frames, later.rest, later.failure)
  {
    hide CutAll, Flatten, Pushed;
    OneChunk(first, limit);
    OneMoreChunk([first], second, limit);
    assert [first] + [second] == [first, second];
  }

  lemma OneMoreChunk(chunks: seq<seq<byte>>, chunk: seq<byte>, limit: nat)
    ensures Flatten(chunks + [chunk]) == Flatten(chunks) + chunk
    ensures Pushed(chunks, limit).failure.None? ==>
              var before := Pushed(chunks, limit);
              var now := CutAll(before.rest + chunk, limit);
              Pushed(chunks + [chunk], limit)
                == Cut(if now.failure.Some? then before.frames else before.frames + now.frames, now.rest, now.failure)
  {
    hide CutAll;
    assert (chunks + [chunk])[..|chunks|] == chunks;
  }

  /** One push of the whole stream, or one of its first frame and one of the rest. */
  lemma FirstFrameApart(stream: seq<byte>, limit: nat) returns (apart: seq<seq<byte>>)
    requires CutAll(stream, limit).failure.Some? && CutAll(stream, limit).frames != []
    ensures Flatten([stream]) == stream && Pushed([stream], limit).frames == []
    ensures Flatten(apart) == stream && |Pushed(apart, limit).frames| == 1
  {
    hide Flatten, Pushed, FrontOf;
    var rest := FrontOf(stream, limit).rest;
    assert CutAll(stream, limit).failure == CutAll(rest, limit).failure;
    FrontAlone(stream, limit);
    hide CutAll;
    var front := stream[..|stream| - |rest|];
    OneChunk(stream, limit);
    TwoChunks(front, rest, limit);
    assert [] + rest == rest;
    apart := [front, rest];
  }

  /** The header of an empty frame of version 2. */
  const UNKNOWN_VERSION: seq<byte> := [0, 0, 0, 0, 2, 0, 0, 0, 0, 0, 0, 0]

  /** A whole frame in front of a bad header is lost when both come in one chunk, and handed over when they come in two. */
  lemma FrameLost(f: Frame)
    requires Sendable(f)
    ensures Pushed([Bytes(f) + UNKNOWN_VERSION], MAX_FRAME_BYTES) == Cut([], UNKNOWN_VERSION, Some(UnsupportedVersion))
    ensures Pushed([Bytes(f), UNKNOWN_VERSION], MAX_FRAME_BYTES) == Cut([f], UNKNOWN_VERSION, Some(UnsupportedVersion))
  {
    var bad, limit := UNKNOWN_VERSION, MAX_FRAME_BYTES;
    assert CutAll(bad, limit) == Cut([], bad, Some(UnsupportedVersion));
    hide CutAll, Pushed, Bytes, FrontOf;
    assert [f] + [] == [f] && Stream([f]) == Bytes(f) by {
      assert [f][1..] == [];
    }
    CutOfStream([f], bad, limit);
    CutOfStream([f], [], limit);
    assert Bytes(f) + [] == Bytes(f) && [] + bad == bad && CutAll([], limit) == Cut([], [], None) by {
      NothingToCut(limit);
    }
    OneChunk(Bytes(f) + bad, limit);
    TwoChunks(Bytes(f), bad, limit);
  }

  lemma NothingToCut(limit: nat)
    ensures CutAll([], limit) == Cut([], [], None)
  {
  }

  lemma FrontAlone(stream: seq<byte>, limit: nat)
    requires FrontOf(stream, limit).Whole?
    ensures var whole := FrontOf(stream, limit);
            && stream == stream[..|stream| - |whole.rest|] + whole.rest
            && CutAll(stream[..|stream| - |whole.rest|], limit) == Cut([whole.frame], [], None)
  {
    var whole := FrontOf(stream, limit);
    var front := stream[..|stream| - |whole.rest|];
    var length := FromU32(stream);
    assert |front| == HEADER_BYTES + length;
    assert FromU32(front) == length && FromU32(front[8..]) == FromU32(stream[8..]);
    assert front[HEADER_BYTES..HEADER_BYTES + length] == stream[HEADER_BYTES..HEADER_BYTES + length];
    assert front[HEADER_BYTES + length..] == [];
  }

  /** Chunking never shows in the frames handed over exactly when there is no bad header, or no whole frame in front of it. */
  lemma ChunkingShowsExactly(stream: seq<byte>, limit: nat)
    ensures ChunkingNeverShows(stream, limit) <==> CutAll(stream, limit).failure.None? || CutAll(stream, limit).frames == []
  {
    hide CutAll, Pushed;
    var all := CutAll(stream, limit);
    if all.failure.Some? && all.frames != [] {
      var apart := FirstFrameApart(stream, limit);
      assert Pushed([stream], limit).frames != Pushed(apart, limit).frames;
    } else {
      forall chunks | Flatten(chunks) == stream
        ensures Pushed(chunks, limit).frames == if all.failure.None? then all.frames else []
      {
        if all.failure.None? {
          var _ := ChunkingIsInvisible(chunks, limit);
        } else {
          NothingInFront(chunks, limit);
        }
      }
    }
  }

  /** Frames sent back to back, cut anywhere, come out again in order, the unfinished one waiting. */
  lemma Reassembly(frames: seq<Frame>, next: Frame, k: nat, chunks: seq<seq<byte>>)
    requires forall f :: f in frames ==> Sendable(f)
    requires Sendable(next) && k < |Bytes(next)|
    requires Flatten(chunks) == Stream(frames) + Bytes(next)[..k]
    ensures Pushed(chunks, MAX_FRAME_BYTES) == Cut(frames, Bytes(next)[..k], None)
  {
    var _ := ChunkingIsInvisible(chunks, MAX_FRAME_BYTES);
    CutOfStream(frames, Bytes(next)[..k], MAX_FRAME_BYTES);
    PartialFrameWaits(next, k, MAX_FRAME_BYTES);
    assert frames + [] == frames;
  }

  /** The cut of what is left, with the frames already taken in front. */
  function Ahead(frames: seq<Frame>, cut: Cut): Cut {
    Cut(frames + cut.frames, cut.rest, cut.failure)
  }

  /** One turn of the cutting loop. */
  lemma AheadByOne(frames: seq<Frame>, buffer: seq<byte>, limit: nat)
    ensures var front, all := FrontOf(buffer, limit), Ahead(frames, CutAll(buffer, limit));
            && (front.Incomplete? ==> all == Cut(frames, buffer, None))
            && (front.Bad? ==> all == Cut(frames, buffer, Some(front.failure)))
            && (front.Whole? ==> all == Ahead(frames + [front.frame], CutAll(front.rest, limit)))
  {
    hide FrontOf;
    var front := FrontOf(buffer, limit);
    if front.Whole? {
      var more := CutAll(front.rest, limit).frames;
      assert frames + ([front.frame] + more) == (frames + [front.frame]) + more;
    } else {
      assert frames + [] == frames;
    }
  }

  lemma NoneAhead(cut: Cut)
    ensures Ahead([], cut) == cut
  {
    assert [] + cut.frames == cut.frames;
  }

  class FrameDecoder {
    const maxFrameBytes: nat
    var buffer: seq<byte>

    constructor (maxFrameBytes: nat)
      ensures this.maxFrameBytes == maxFrameBytes && buffer == []
    {
      this.maxFrameBytes := maxFrameBytes;
      buffer := [];
    }

    /** On a failure the frames already cut in this push are lost with it. */
    method Push(chunk: seq<byte>) returns (result: Result<seq<Frame>>)
      modifies this`buffer
      ensures var cut := CutAll(old(buffer) + chunk, maxFrameBytes);
              && buffer == cut.rest
              && result == (if cut.failure.Some? then Err(cut.failure.value) else Ok(cut.frames))
    {
      hide FromU32, CutAll, Ahead;
      ghost var whole := buffer + chunk;
      buffer := if |buffer| == 0 then chunk else buffer + chunk;
      assert buffer == whole;
      var frames := [];
      NoneAhead(CutAll(whole, maxFrameBytes));
      while |buffer| >= HEADER_BYTES
        invariant CutAll(whole, maxFrameBytes) == Ahead(frames, CutAll(buffer, maxFrameBytes))
        decreases |buffer|
      {
        AheadByOne(frames, buffer, maxFrameBytes);
        var length := FromU32(buffer);
        if length > maxFrameBytes {
          return Err(FrameTooLong);
        }
        if buffer[4] != VERSION {
          return Err(UnsupportedVersion);
        }
        if |buffer| < HEADER_BYTES + length {
          break;
        }
        var frame := Frame(buffer[5], FromU32(buffer[8..]), buffer[HEADER_BYTES..HEADER_BYTES + length]);
        frames := frames + [frame];
        buffer := buffer[HEADER_BYTES + length..];
      }
      AheadByOne(frames, buffer, maxFrameBytes);
      return Ok(frames);
    }
  }

  /** A connection's data events: each chunk is pushed, its frames are handled, and the first failure ends the connection. */
  method Receive(decoder: FrameDecoder, chunks: seq<seq<byte>>) returns (frames: seq<Frame>, failure: Option<Failure>)
    requires decoder.buffer == []
    modifies decoder`buffer
    ensures Cut(frames, decoder.buffer, failure) == Pushed(chunks, decoder.maxFrameBytes)
  {
    hide CutAll;
    frames, failure := [], None;
    var n := 0;
    while n < |chunks|
      invariant n <= |chunks| && failure.None?
      invariant Cut(frames, decoder.buffer, None) == Pushed(chunks[..n], decoder.maxFrameBytes)
    {
      assert chunks[..n + 1][..n] == chunks[..n];
      var pushed := decoder.Push(chunks[n]);
      n := n + 1;
      if pushed.Err? {
        failure := Some(pushed.failure);
        FailureStays(chunks, n, decoder.maxFrameBytes);
        return;
      }
      frames := frames + pushed.value;
    }
    assert chunks[..n] == chunks;
  }

  lemma {:induction false} FailureStays(chunks: seq<seq<byte>>, n: nat, limit: nat)
    requires n <= |chunks| && Pushed(chunks[..n], limit).failure.Some?
    ensures Pushed(chunks, limit) == Pushed(chunks[..n], limit)
    decreases |chunks|
  {
    if n == |chunks| {
      assert chunks[..n] == chunks;
    } else {
      assert chunks[..|chunks| - 1][..n] == chunks[..n];
      FailureStays(chunks[..|chunks| - 1], n, limit);
    }
  }

  // ── values on the wire ────────────────────────────────────────────────────

  /** A JavaScript field: missing, null, NaN or an integer. */
  datatype Field = Undefined | Null | NotANumber | Number(n: int)

  const NAN: seq<byte> := [0x7F, 0xF8, 0, 0, 0, 0, 0, 0]
  const SAFE := 0x20_0000_0000_0000

  /** Doubles, entries and the other fields of a response, as the platform writes and reads them. */
  datatype Platform<!E, !X> = Platform(
    double: int -> seq<byte>, number: seq<byte> -> Field,
    entryText: E -> seq<byte>, entryOf: seq<byte> -> Option<E>,
    extraText: X -> seq<byte>, extraOf: seq<byte> -> Option<X>)

  /** Integers up to 2^53 are exact, NaN reads back as NaN, JSON text parses to what was written. */
  ghost predicate Faithful<E(!new), X(!new)>(p: Platform<E, X>) {
    && (forall n :: |p.double(n)| == 8)
    && (forall n :: -SAFE <= n <= SAFE ==> p.number(p.double(n)) == Number(n))
    && p.number(NAN) == NotANumber
    && (forall e :: p.entryOf(p.entryText(e)) == Some(e))
    && (forall x :: p.extraOf(p.extraText(x)) == Some(x))
  }

  predicate Exact(v: Field) {
    v.Number? ==> -SAFE <= v.n <= SAFE
  }

  function F64<E, X>(p: Platform<E, X>, v: Field): seq<byte> {
    if v.Number? then p.double(v.n) else NAN
  }

  function Str(text: Option<seq<byte>>): seq<byte> {
    if text.None? then U32(NULL_STRING) else U32(|text.value|) + text.value
  }

  /** A value read off the front of the bytes, and what follows it. */
  datatype Parsed<+T> = Parsed(value: T, rest: seq<byte>) | Failed(failure: Failure) {
    predicate IsFailure() {
      Failed?
    }

    function PropagateFailure<U>(): Parsed<U>
      requires IsFailure()
    {
      Failed(failure)
    }

    function Extract(): (T, seq<byte>)
      requires !IsFailure()
    {
      (value, rest)
    }
  }

  function ReadU8(b: seq<byte>): Parsed<byte> {
    if |b| < 1 then Failed(TruncatedBody) else Parsed(b[0], b[1..])
  }

  function ReadU32(b: seq<byte>): Parsed<nat> {
    if |b| < 4 then Failed(TruncatedBody) else Parsed(FromU32(b), b[4..])
  }

  function ReadF64<E, X>(p: Platform<E, X>, b: seq<byte>): Parsed<Field> {
    if |b| < 8 then Failed(TruncatedBody) else Parsed(p.number(b[..8]), b[8..])
  }

  function ReadStr(b: seq<byte>): Parsed<Option<seq<byte>>> {
    var (length, rest) :- ReadU32(b);
    if length == NULL_STRING then Parsed(None, rest)
    else if |rest| < length then Failed(TruncatedBody)
    else Parsed(Some(rest[..length]), rest[length..])
  }

  lemma U32Reads(n: nat, rest: seq<byte>)
    requires n <= NULL_STRING
    ensures ReadU32(U32(n) + rest) == Parsed(n, rest)
  {
    IntegerRoundTrip(n, rest);
    assert (U32(n) + rest)[4..] == rest;
  }

  /** What a field reads back as: itself when it is a number, NaN otherwise. */
  function Received(v: Field): Field {
    if v.Number? then v else NotANumber
  }

  lemma F64Reads<E(!new), X(!new)>(p: Platform<E, X>, v: Field, rest: seq<byte>)
    requires Faithful(p) && Exact(v)
    ensures |F64(p, v)| == 8 && ReadF64(p, F64(p, v) + rest) == Parsed(Received(v), rest)
  {
    var b := F64(p, v) + rest;
    assert |F64(p, v)| == 8;
    assert b[..8] == F64(p, v) && b[8..] == rest;
  }

  lemma StrReads(text: Option<seq<byte>>, rest: seq<byte>)
    requires text.Some? ==> |text.value| < NULL_STRING
    ensures ReadStr(Str(text) + rest) == Parsed(text, rest)
  {
    if text.None? {
      U32Reads(NULL_STRING, rest);
    } else {
      var after := text.value + rest;
      U32Reads(|text.value|, after);
      assert Str(text) + rest == U32(|text.value|) + after;
      assert after[..|text.value|] == text.value && after[|text.value|..] == rest;
    }
  }

  class FrameReader {
    const b: seq<byte>
    var o: nat

    ghost predicate Valid()
      reads this
    {
      o <= |b|
    }

    ghost function Rest(): seq<byte>
      reads this
      requires Valid()
    {
      b[o..]
    }

    constructor (b: seq<byte>)
      ensures Valid() && this.b == b && Rest() == b
    {
      this.b := b;
      o := 0;
    }

    /** The reader stands where the parse left off, or threw. */
    ghost predicate Reached<T>(parsed: Parsed<T>, result: Result<T>)
      reads this
    {
      Valid() && match parsed
                 case Parsed(value, rest) => result == Ok(value) && Rest() == rest
                 case Failed(failure) => result == Err(failure)
    }

    /** Whether the body has been read to its end. */
    method Done() returns (done: bool)
      requires Valid()
      ensures done == (Rest() == [])
    {
      assert |Rest()| == |b| - o;
      return o == |b|;
    }

    method U8() returns (result: Result<byte>)
      requires Valid()
      modifies this`o
      ensures Reached(ReadU8(old(Rest())), result)
    {
      if o + 1 > |b| {
        return Err(TruncatedBody);
      }
      result := Ok(b[o]);
      o := o + 1;
    }

    method U32() returns (result: Result<nat>)
      requires Valid()
      modifies this`o
      ensures Reached(ReadU32(old(Rest())), result)
    {
      if o + 4 > |b| {
        return Err(TruncatedBody);
      }
      result := Ok(FromU32(b[o..]));
      o := o + 4;
    }

    method F64<E, X>(p: Platform<E, X>) returns (result: Result<Field>)
      requires Valid()
      modifies this`o
      ensures Reached(ReadF64(p, old(Rest())), result)
    {
      if o + 8 > |b| {
        return Err(TruncatedBody);
      }
      assert b[o..][..8] == b[o..o + 8];
      result := Ok(p.number(b[o..o + 8]));
      o := o + 8;
    }

    method Str() returns (result: Result<Option<seq<byte>>>)
      requires Valid()
      modifies this`o
      ensures Reached(ReadStr(old(Rest())), result)
    {
      var length :- U32();
      if length == NULL_STRING {
        return Ok(None);
      }
      if o + length > |b| {
        return Err(TruncatedBody);
      }
      assert b[o..][..length] == b[o..o + length];
      result := Ok(Some(b[o..o + length]));
      o := o + length;
    }
  }

  class FrameWriter {
    var parts: seq<seq<byte>>
    var length: nat

    ghost predicate Valid()
      reads this
    {
      length == |Flatten(parts)|
    }

    ghost function Written(): seq<byte>
      reads this
    {
      Flatten(parts)
    }

    constructor ()
      ensures Valid() && Written() == []
    {
      parts := [];
      length := 0;
    }

    /** Adds a part; `after` is whatever is still to be written. */
    method Add(part: seq<byte>, ghost after: seq<byte>)
      requires Valid()
      modifies this
      ensures Valid() && Written() == old(Written()) + part
      ensures Written() + after == old(Written()) + (part + after)
    {
      assert (parts + [part])[..|parts|] == parts;
      parts := parts + [part];
      length := length + |part|;
    }

    method AddStr(text: Option<seq<byte>>, ghost after: seq<byte>)
      requires Valid()
      modifies this
      ensures Valid() && Written() == old(Written()) + Str(text)
      ensures Written() + after == old(Written()) + (Str(text) + after)
    {
      if text.None? {
        Add(U32(NULL_STRING), after);
        return;
      }
      ghost var before := Written();
      Add(U32(|text.value|), text.value);
      Add(text.value, after);
      assert before + (U32(|text.value|) + text.value) + after == before + (Str(text) + after);
    }

    method Frame(kind: byte, streamId: int) returns (frame: Result<seq<byte>>)
      requires Valid()
      ensures frame == Framed(kind, streamId, Written())
    {
      if length > MAX_FRAME_BYTES {
        return Err(FrameTooLong);
      }
      var all, i := [], 0;
      while i < |parts|
        invariant i <= |parts| && all == Flatten(parts[..i])
      {
        all := all + parts[i];
        i := i + 1;
        assert parts[..i][..i - 1] == parts[..i - 1];
      }
      assert parts[..i] == parts;
      return Ok(Header(FrameOf(kind, streamId, all)) + all);
    }
  }

  /** Stream ids wrap at 32 bits. */
  function FrameOf(kind: byte, streamId: int, body: seq<byte>): Frame {
    Frame(kind, streamId % 0x1_0000_0000, body)
  }

  function Framed(kind: byte, streamId: int, body: seq<byte>): Result<seq<byte>> {
    if |body| > MAX_FRAME_BYTES then Err(FrameTooLong) else Ok(Bytes(FrameOf(kind, streamId, body)))
  }
}
