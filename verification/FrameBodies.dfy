/** AppendEntries and its response: what is encoded is what is decoded. */
module FrameBodies {

  import opened FrameCodec

  /** A body is read to its very end. */
  function Done<T>(parsed: Parsed<T>): Result<T> {
    match parsed
    case Failed(failure) => Err(failure)
    case Parsed(value, rest) => if rest == [] then Ok(value) else Err(TrailingBytes)
  }

  /** The same parse with more bytes behind it. */
  function Extended<T>(parsed: Parsed<T>, later: seq<byte>): Parsed<T> {
    if parsed.Failed? then parsed else parsed.(rest := parsed.rest + later)
  }

  lemma MoreBytesU32(b: seq<byte>, later: seq<byte>)
    requires ReadU32(b).Parsed?
    ensures ReadU32(b + later) == Extended(ReadU32(b), later)
  {
    assert (b + later)[4..] == b[4..] + later;
  }

  lemma MoreBytesF64<E, X>(p: Platform<E, X>, b: seq<byte>, later: seq<byte>)
    requires ReadF64(p, b).Parsed?
    ensures ReadF64(p, b + later) == Extended(ReadF64(p, b), later)
  {
    assert (b + later)[..8] == b[..8] && (b + later)[8..] == b[8..] + later;
  }

  lemma MoreBytesStr(b: seq<byte>, later: seq<byte>)
    requires ReadStr(b).Parsed?
    ensures ReadStr(b + later) == Extended(ReadStr(b), later)
  {
    MoreBytesU32(b, later);
    var (n, rest) := ReadU32(b).Extract();
    if n != NULL_STRING {
      assert (rest + later)[..n] == rest[..n] && (rest + later)[n..] == rest[n..] + later;
    }
  }

  // ── AppendEntries ─────────────────────────────────────────────────────────

  datatype Request<E> = Request(
    term: Field, prevLogIndex: Field, prevLogTerm: Field, leaderCommit: Field,
    leaderId: Option<seq<byte>>, leaderUrl: Option<seq<byte>>, entries: Option<seq<E>>)

  function OrElse(v: Field, n: int): Field {
    if v.Undefined? || v.Null? then Number(n) else v
  }

  function Listed<E>(entries: Option<seq<E>>): seq<E> {
    if entries.None? then [] else entries.value
  }

  function EntryBytes<E, X>(p: Platform<E, X>, entries: seq<E>): seq<byte> {
    if entries == [] then [] else Str(Some(p.entryText(entries[0]))) + EntryBytes(p, entries[1..])
  }

  function EntriesPart<E, X>(p: Platform<E, X>, m: Request<E>): seq<byte> {
    U32(|Listed(m.entries)|) + EntryBytes(p, Listed(m.entries))
  }

  function NamesPart<E, X>(p: Platform<E, X>, m: Request<E>): seq<byte> {
    Str(m.leaderId) + (Str(m.leaderUrl) + EntriesPart(p, m))
  }

  function RequestBody<E, X>(p: Platform<E, X>, m: Request<E>): seq<byte> {
    F64(p, m.term) + (F64(p, OrElse(m.prevLogIndex, -1)) + (F64(p, OrElse(m.prevLogTerm, 0))
    + (F64(p, OrElse(m.leaderCommit, -1)) + NamesPart(p, m))))
  }

  function ReadEntries<E, X>(p: Platform<E, X>, b: seq<byte>, count: nat): Parsed<seq<E>> {
    if count == 0 then Parsed([], b)
    else
      var (text, rest) :- ReadStr(b);
      if text.None? || p.entryOf(text.value).None? then Failed(NotJson)
      else
        var (more, last) :- ReadEntries(p, rest, count - 1);
        Parsed([p.entryOf(text.value).value] + more, last)
  }

  function ReadNames<E, X>(p: Platform<E, X>, b: seq<byte>): Parsed<(Option<seq<byte>>, Option<seq<byte>>, seq<E>)> {
    var (leaderId, b4) :- ReadStr(b);
    var (leaderUrl, b5) :- ReadStr(b4);
    var (count, b6) :- ReadU32(b5);
    var (entries, b7) :- ReadEntries(p, b6, count);
    Parsed((leaderId, leaderUrl, entries), b7)
  }

  function ReadRequest<E, X>(p: Platform<E, X>, b: seq<byte>): Parsed<Request<E>> {
    var (term, b0) :- ReadF64(p, b);
    var (prevLogIndex, b1) :- ReadF64(p, b0);
    var (prevLogTerm, b2) :- ReadF64(p, b1);
    var (leaderCommit, b3) :- ReadF64(p, b2);
    var (names, b7) :- ReadNames(p, b3);
    Parsed(Request(term, prevLogIndex, prevLogTerm, leaderCommit, names.0, names.1, Some(names.2)), b7)
  }

  function DecodedRequest<E, X>(p: Platform<E, X>, body: seq<byte>): Result<Request<E>> {
    Done(ReadRequest(p, body))
  }

  /** A missing term arrives as NaN, the other missing numbers as their defaults, a missing list as an empty one. */
  function Delivered<E>(m: Request<E>): Request<E> {
    Request(Received(m.term), Received(OrElse(m.prevLogIndex, -1)), Received(OrElse(m.prevLogTerm, 0)),
            Received(OrElse(m.leaderCommit, -1)), m.leaderId, m.leaderUrl, Some(Listed(m.entries)))
  }

  predicate ExactRequest<E(!new)>(m: Request<E>) {
    Exact(m.term) && Exact(m.prevLogIndex) && Exact(m.prevLogTerm) && Exact(m.leaderCommit)
  }

  lemma StrLength(text: Option<seq<byte>>)
    ensures |Str(text)| == 4 + (if text.None? then 0 else |text.value|)
  {
  }

  lemma FirstEntryRead<E(!new), X(!new)>(p: Platform<E, X>, entries: seq<E>, rest: seq<byte>)
    requires Faithful(p) && entries != [] && |EntryBytes(p, entries)| <= MAX_FRAME_BYTES
    ensures p.entryOf(p.entryText(entries[0])) == Some(entries[0])
    ensures |EntryBytes(p, entries[1..])| <= MAX_FRAME_BYTES
    ensures ReadStr(EntryBytes(p, entries) + rest) == Parsed(Some(p.entryText(entries[0])), EntryBytes(p, entries[1..]) + rest)
  {
    hide ReadStr, Str;
    var text, after := Some(p.entryText(entries[0])), EntryBytes(p, entries[1..]) + rest;
    StrLength(text);
    StrReads(text, after);
    assert EntryBytes(p, entries) + rest == Str(text) + after by {
      hide Faithful;
    }
  }

  lemma {:induction false} EntriesRead<E(!new), X(!new)>(p: Platform<E, X>, entries: seq<E>, rest: seq<byte>)
    requires Faithful(p) && |EntryBytes(p, entries)| <= MAX_FRAME_BYTES
    ensures ReadEntries(p, EntryBytes(p, entries) + rest, |entries|) == Parsed(entries, rest)
  {
    if entries == [] {
      assert EntryBytes(p, entries) + rest == rest;
    } else {
      hide ReadStr, EntryBytes, Faithful;
      FirstEntryRead(p, entries, rest);
      EntriesRead(p, entries[1..], rest);
      assert [entries[0]] + entries[1..] == entries;
    }
  }

  lemma {:induction false} EntriesAreLong<E, X>(p: Platform<E, X>, entries: seq<E>)
    ensures |EntryBytes(p, entries)| >= 4 * |entries|
  {
    if entries != [] {
      EntriesAreLong(p, entries[1..]);
    }
  }

  lemma NamesRead<E(!new), X(!new)>(p: Platform<E, X>, m: Request<E>)
    requires Faithful(p) && |NamesPart(p, m)| <= MAX_FRAME_BYTES
    ensures ReadNames(p, NamesPart(p, m)) == Parsed((m.leaderId, m.leaderUrl, Listed(m.entries)), [])
  {
    var entries := Listed(m.entries);
    StrReads(m.leaderId, Str(m.leaderUrl) + EntriesPart(p, m));
    StrReads(m.leaderUrl, EntriesPart(p, m));
    EntriesAreLong(p, entries);
    U32Reads(|entries|, EntryBytes(p, entries));
    EntriesRead(p, entries, []);
    assert EntryBytes(p, entries) + [] == EntryBytes(p, entries);
  }

  /** Every AppendEntries that fits a frame is decoded as it was sent. */
  lemma RequestRoundTrip<E(!new), X(!new)>(p: Platform<E, X>, m: Request<E>)
    requires Faithful(p) && ExactRequest(m) && |RequestBody(p, m)| <= MAX_FRAME_BYTES
    ensures DecodedRequest(p, RequestBody(p, m)) == Ok(Delivered(m))
  {
    hide ReadNames, NamesPart, ReadF64, FrameCodec.F64, Faithful;
    var index, prevTerm, commit := OrElse(m.prevLogIndex, -1), OrElse(m.prevLogTerm, 0), OrElse(m.leaderCommit, -1);
    var b3 := NamesPart(p, m);
    var b2 := FrameCodec.F64(p, commit) + b3;
    var b1 := FrameCodec.F64(p, prevTerm) + b2;
    F64Reads(p, m.term, FrameCodec.F64(p, index) + b1);
    F64Reads(p, index, b1);
    F64Reads(p, prevTerm, b2);
    F64Reads(p, commit, b3);
    NamesRead(p, m);
  }

  lemma {:induction false} MoreBytesEntries<E, X>(p: Platform<E, X>, b: seq<byte>, count: nat, later: seq<byte>)
    requires ReadEntries(p, b, count).Parsed?
    ensures ReadEntries(p, b + later, count) == Extended(ReadEntries(p, b, count), later)
    decreases count
  {
    if count > 0 {
      MoreBytesStr(b, later);
      MoreBytesEntries(p, ReadStr(b).rest, count - 1, later);
    }
  }

  lemma MoreBytesNames<E, X>(p: Platform<E, X>, b: seq<byte>, later: seq<byte>)
    requires ReadNames(p, b).Parsed?
    ensures ReadNames(p, b + later) == Extended(ReadNames(p, b), later)
  {
    hide ReadStr, ReadU32, ReadEntries;
    MoreBytesStr(b, later);
    var b4 := ReadStr(b).rest;
    MoreBytesStr(b4, later);
    var b5 := ReadStr(b4).rest;
    MoreBytesU32(b5, later);
    var count := ReadU32(b5);
    MoreBytesEntries(p, count.rest, count.value, later);
  }

  lemma MoreBytesRequest<E, X>(p: Platform<E, X>, b: seq<byte>, later: seq<byte>)
    requires ReadRequest(p, b).Parsed?
    ensures ReadRequest(p, b + later) == Extended(ReadRequest(p, b), later)
  {
    hide ReadF64, ReadNames;
    MoreBytesF64(p, b, later);
    var b0 := ReadF64(p, b).rest;
    MoreBytesF64(p, b0, later);
    var b1 := ReadF64(p, b0).rest;
    MoreBytesF64(p, b1, later);
    var b2 := ReadF64(p, b1).rest;
    MoreBytesF64(p, b2, later);
    MoreBytesNames(p, ReadF64(p, b2).rest, later);
  }

  /** No accepted body is a proper prefix of another: one cut short, or with bytes behind it, is refused. */
  lemma BodiesArePrefixFree<E, X>(p: Platform<E, X>, body: seq<byte>, k: nat, extra: seq<byte>)
    requires DecodedRequest(p, body).Ok?
    ensures k < |body| ==> DecodedRequest(p, body[..k]).Err?
    ensures extra != [] ==> DecodedRequest(p, body + extra) == Err(TrailingBytes)
  {
    hide ReadRequest;
    MoreBytesRequest(p, body, extra);
    if k < |body| {
      assert body[..k] + body[k..] == body;
      if ReadRequest(p, body[..k]).Parsed? {
        MoreBytesRequest(p, body[..k], body[k..]);
      }
    }
  }

  // ── the response ──────────────────────────────────────────────────────────

  datatype Response<X> = Response(
    term: Field, success: bool, matchIndex: Field, conflictIndex: Field, conflictTerm: Field, logLength: Field,
    extra: Option<X>)

  function Bit(isSet: bool, weight: nat): nat {
    if isSet then weight else 0
  }

  predicate HasBit(flags: byte, weight: nat)
    requires weight > 0
  {
    (flags as nat / weight) % 2 == 1
  }

  function Flags<X>(m: Response<X>): byte {
    (Bit(m.success, 1) + Bit(!m.matchIndex.Undefined?, 2) + Bit(!m.conflictIndex.Undefined?, 4)
     + Bit(!m.conflictTerm.Undefined?, 8) + Bit(!m.logLength.Undefined?, 16)) as byte
  }

  lemma FlagsTell<X>(m: Response<X>)
    ensures HasBit(Flags(m), 1) == m.success
    ensures HasBit(Flags(m), 2) == !m.matchIndex.Undefined?
    ensures HasBit(Flags(m), 4) == !m.conflictIndex.Undefined?
    ensures HasBit(Flags(m), 8) == !m.conflictTerm.Undefined?
    ensures HasBit(Flags(m), 16) == !m.logLength.Undefined?
  {
  }

  function ExtraText<E, X>(p: Platform<E, X>, extra: Option<X>): Option<seq<byte>> {
    if extra.None? then None else Some(p.extraText(extra.value))
  }

  function ResponseBody<E, X>(p: Platform<E, X>, m: Response<X>): seq<byte> {
    [Flags(m)] + (F64(p, m.term) + (F64(p, m.matchIndex) + (F64(p, m.conflictIndex)
    + (F64(p, m.conflictTerm) + (F64(p, m.logLength) + Str(ExtraText(p, m.extra)))))))
  }

  /** A field present by its flag, NaN meaning it is not. */
  function Flagged(v: Field, present: bool): Field {
    if present && !v.NotANumber? then v else Undefined
  }

  function ReadResponse<E, X>(p: Platform<E, X>, b: seq<byte>): Parsed<(Response<X>, Option<seq<byte>>)> {
    var (flags, b0) :- ReadU8(b);
    var (term, b1) :- ReadF64(p, b0);
    var (matchIndex, b2) :- ReadF64(p, b1);
    var (conflictIndex, b3) :- ReadF64(p, b2);
    var (conflictTerm, b4) :- ReadF64(p, b3);
    var (logLength, b5) :- ReadF64(p, b4);
    var (extra, b6) :- ReadStr(b5);
    Parsed((Response(term, HasBit(flags, 1), Flagged(matchIndex, HasBit(flags, 2)), Flagged(conflictIndex, HasBit(flags, 4)),
                     Flagged(conflictTerm, HasBit(flags, 8)), Flagged(logLength, HasBit(flags, 16)), None), extra), b6)
  }

  /** The other fields are parsed only once the body has been read to its end. */
  function DecodedResponse<E, X>(p: Platform<E, X>, body: seq<byte>): Result<Response<X>> {
    var (m, extra) :- Done(ReadResponse(p, body));
    if extra.None? then Ok(m)
    else if p.extraOf(extra.value).None? then Err(NotJson)
    else Ok(m.(extra := p.extraOf(extra.value)))
  }

  predicate ExactResponse<X(!new)>(m: Response<X>) {
    Exact(m.term) && Exact(m.matchIndex) && Exact(m.conflictIndex) && Exact(m.conflictTerm) && Exact(m.logLength)
  }

  /** Only numbers survive: a null or NaN field arrives as missing, a missing term as NaN. */
  function NumberOnly(v: Field): Field {
    if v.Number? then v else Undefined
  }

  function DeliveredResponse<X>(m: Response<X>): Response<X> {
    Response(Received(m.term), m.success, NumberOnly(m.matchIndex), NumberOnly(m.conflictIndex), NumberOnly(m.conflictTerm),
             NumberOnly(m.logLength), m.extra)
  }

  lemma NumbersRead<E(!new), X(!new)>(p: Platform<E, X>, m: Response<X>)
    requires Faithful(p) && ExactResponse(m) && |ResponseBody(p, m)| <= MAX_FRAME_BYTES
    ensures ReadResponse(p, ResponseBody(p, m)) == Parsed((DeliveredResponse(m).(extra := None), ExtraText(p, m.extra)), [])
  {
    hide ReadF64, FrameCodec.F64, Faithful, Flags, HasBit, ReadStr, Str;
    var b5 := Str(ExtraText(p, m.extra));
    var b4 := FrameCodec.F64(p, m.logLength) + b5;
    var b3 := FrameCodec.F64(p, m.conflictTerm) + b4;
    var b2 := FrameCodec.F64(p, m.conflictIndex) + b3;
    var b1 := FrameCodec.F64(p, m.matchIndex) + b2;
    var b0 := FrameCodec.F64(p, m.term) + b1;
    assert ResponseBody(p, m)[1..] == b0;
    F64Reads(p, m.term, b1);
    F64Reads(p, m.matchIndex, b2);
    F64Reads(p, m.conflictIndex, b3);
    F64Reads(p, m.conflictTerm, b4);
    F64Reads(p, m.logLength, b5);
    ExtraReads(p, m);
    FlagsTell(m);
  }

  lemma ExtraReads<E(!new), X(!new)>(p: Platform<E, X>, m: Response<X>)
    requires |ResponseBody(p, m)| <= MAX_FRAME_BYTES
    ensures ReadStr(Str(ExtraText(p, m.extra))) == Parsed(ExtraText(p, m.extra), [])
  {
    StrReads(ExtraText(p, m.extra), []);
    assert Str(ExtraText(p, m.extra)) + [] == Str(ExtraText(p, m.extra));
  }

  /** Every response that fits a frame is decoded as it was sent. */
  lemma ResponseRoundTrip<E(!new), X(!new)>(p: Platform<E, X>, m: Response<X>)
    requires Faithful(p) && ExactResponse(m) && |ResponseBody(p, m)| <= MAX_FRAME_BYTES
    ensures DecodedResponse(p, ResponseBody(p, m)) == Ok(DeliveredResponse(m))
  {
    hide ReadResponse, ResponseBody;
    NumbersRead(p, m);
  }

  // ── writing and reading ───────────────────────────────────────────────────

  method AddEntries<E, X>(p: Platform<E, X>, w: FrameWriter, entries: seq<E>)
    requires w.Valid()
    modifies w
    ensures w.Valid() && w.Written() == old(w.Written()) + EntryBytes(p, entries)
  {
    hide FrameCodec.Str;
    ghost var all := w.Written() + EntryBytes(p, entries);
    assert entries[0..] == entries;
    var i := 0;
    while i < |entries|
      invariant i <= |entries| && w.Valid()
      invariant w.Written() + EntryBytes(p, entries[i..]) == all
    {
      assert entries[i..][1..] == entries[i + 1..];
      w.AddStr(Some(p.entryText(entries[i])), EntryBytes(p, entries[i + 1..]));
      i := i + 1;
    }
    assert w.Written() + [] == w.Written();
  }

  method EncodeAppendEntries<E, X>(p: Platform<E, X>, m: Request<E>, streamId: int) returns (frame: Result<seq<byte>>)
    ensures frame == Framed(APPEND_ENTRIES, streamId, RequestBody(p, m))
  {
    hide FrameCodec.F64, FrameCodec.U32, FrameCodec.Str, Framed;
    var entries := Listed(m.entries);
    var index, prevTerm, commit := OrElse(m.prevLogIndex, -1), OrElse(m.prevLogTerm, 0), OrElse(m.leaderCommit, -1);
    ghost var b4 := Str(m.leaderUrl) + EntriesPart(p, m);
    ghost var b2 := F64(p, commit) + NamesPart(p, m);
    ghost var b1 := F64(p, prevTerm) + b2;
    var w := new FrameWriter();
    w.Add(F64(p, m.term), F64(p, index) + b1);
    w.Add(F64(p, index), b1);
    w.Add(F64(p, prevTerm), b2);
    w.Add(F64(p, commit), NamesPart(p, m));
    w.AddStr(m.leaderId, b4);
    w.AddStr(m.leaderUrl, EntriesPart(p, m));
    w.Add(U32(|entries|), EntryBytes(p, entries));
    assert w.Written() + EntryBytes(p, entries) == RequestBody(p, m);
    AddEntries(p, w, entries);
    assert w.Written() == RequestBody(p, m);
    frame := w.Frame(APPEND_ENTRIES, streamId);
  }

  function Prepended<E>(done: seq<E>, parsed: Parsed<seq<E>>): Parsed<seq<E>> {
    if parsed.Failed? then parsed else parsed.(value := done + parsed.value)
  }

  lemma NothingPrepended<E>(parsed: Parsed<seq<E>>)
    ensures Prepended([], parsed) == parsed
  {
    assert parsed.Parsed? ==> [] + parsed.value == parsed.value;
  }

  lemma NoMoreEntries<E, X>(p: Platform<E, X>, b: seq<byte>, done: seq<E>)
    ensures Prepended(done, ReadEntries(p, b, 0)) == Parsed(done, b)
  {
    assert done + [] == done;
  }

  /** One turn of the reading loop. */
  lemma OneMoreEntry<E, X>(p: Platform<E, X>, b: seq<byte>, count: nat, done: seq<E>)
    requires count > 0
    ensures match ReadStr(b)
            case Failed(failure) => Prepended(done, ReadEntries(p, b, count)) == Failed(failure)
            case Parsed(text, rest) =>
              if text.None? || p.entryOf(text.value).None? then Prepended(done, ReadEntries(p, b, count)) == Failed(NotJson)
              else
                Prepended(done, ReadEntries(p, b, count))
                == Prepended(done + [p.entryOf(text.value).value], ReadEntries(p, rest, count - 1))
  {
    hide ReadStr;
    match ReadStr(b)
    case Failed(_) =>
    case Parsed(text, rest) =>
      if text.Some? && p.entryOf(text.value).Some? && ReadEntries(p, rest, count - 1).Parsed? {
        var entry, more := p.entryOf(text.value).value, ReadEntries(p, rest, count - 1).value;
        assert done + ([entry] + more) == (done + [entry]) + more;
      }
  }

  method DecodeEntries<E, X>(p: Platform<E, X>, r: FrameReader, count: nat) returns (result: Result<seq<E>>)
    requires r.Valid()
    modifies r`o
    ensures r.Reached(ReadEntries(p, old(r.Rest()), count), result)
  {
    hide ReadStr, ReadEntries;
    var entries := [];
    ghost var listed := r.Rest();
    NothingPrepended(ReadEntries(p, listed, count));
    var i := 0;
    while i < count
      invariant i <= count && r.Valid()
      invariant ReadEntries(p, listed, count) == Prepended(entries, ReadEntries(p, r.Rest(), count - i))
    {
      OneMoreEntry(p, r.Rest(), count - i, entries);
      var text :- r.Str();
      if text.None? {
        return Err(NotJson);
      }
      var entry := p.entryOf(text.value);
      if entry.None? {
        return Err(NotJson);
      }
      entries := entries + [entry.value];
      i := i + 1;
    }
    NoMoreEntries(p, r.Rest(), entries);
    return Ok(entries);
  }

  method DecodeNames<E, X>(p: Platform<E, X>, r: FrameReader)
    returns (result: Result<(Option<seq<byte>>, Option<seq<byte>>, seq<E>)>)
    requires r.Valid()
    modifies r`o
    ensures r.Reached(ReadNames(p, old(r.Rest())), result)
  {
    hide ReadStr, ReadU32, ReadEntries;
    var leaderId :- r.Str();
    var leaderUrl :- r.Str();
    var count :- r.U32();
    var entries :- DecodeEntries(p, r, count);
    return Ok((leaderId, leaderUrl, entries));
  }

  method DecodeMessage<E, X>(p: Platform<E, X>, r: FrameReader) returns (result: Result<Request<E>>)
    requires r.Valid()
    modifies r`o
    ensures r.Reached(ReadRequest(p, old(r.Rest())), result)
  {
    hide ReadF64, ReadNames;
    var term :- r.F64(p);
    var prevLogIndex :- r.F64(p);
    var prevLogTerm :- r.F64(p);
    var leaderCommit :- r.F64(p);
    var names :- DecodeNames(p, r);
    return Ok(Request(term, prevLogIndex, prevLogTerm, leaderCommit, names.0, names.1, Some(names.2)));
  }

  method DecodeAppendEntries<E, X>(p: Platform<E, X>, body: seq<byte>) returns (result: Result<Request<E>>)
    ensures result == DecodedRequest(p, body)
  {
    hide ReadRequest;
    var r := new FrameReader(body);
    var message :- DecodeMessage(p, r);
    var done := r.Done();
    if !done {
      return Err(TrailingBytes);
    }
    return Ok(message);
  }

  method EncodeAppendEntriesResponse<E, X>(p: Platform<E, X>, m: Response<X>, streamId: int) returns (frame: Result<seq<byte>>)
    ensures frame == Framed(APPEND_ENTRIES_RESPONSE, streamId, ResponseBody(p, m))
  {
    hide FrameCodec.F64, FrameCodec.Str, Framed, Flags;
    ghost var b5 := Str(ExtraText(p, m.extra));
    ghost var b4 := F64(p, m.logLength) + b5;
    ghost var b3 := F64(p, m.conflictTerm) + b4;
    ghost var b2 := F64(p, m.conflictIndex) + b3;
    ghost var b1 := F64(p, m.matchIndex) + b2;
    var w := new FrameWriter();
    w.Add([Flags(m)], F64(p, m.term) + b1);
    w.Add(F64(p, m.term), b1);
    w.Add(F64(p, m.matchIndex), b2);
    w.Add(F64(p, m.conflictIndex), b3);
    w.Add(F64(p, m.conflictTerm), b4);
    w.Add(F64(p, m.logLength), b5);
    w.AddStr(ExtraText(p, m.extra), []);
    assert w.Written() == ResponseBody(p, m);
    frame := w.Frame(APPEND_ENTRIES_RESPONSE, streamId);
  }

  method DecodeAppendEntriesResponse<E, X>(p: Platform<E, X>, body: seq<byte>) returns (result: Result<Response<X>>)
    ensures result == DecodedResponse(p, body)
  {
    hide ReadResponse;
    var r := new FrameReader(body);
    var fields :- DecodeFields(p, r);
    var (m, extra) := fields;
    var done := r.Done();
    if !done {
      return Err(TrailingBytes);
    }
    if extra.None? {
      return Ok(m);
    }
    var parsed := p.extraOf(extra.value);
    if parsed.None? {
      return Err(NotJson);
    }
    return Ok(m.(extra := parsed));
  }

  method DecodeFields<E, X>(p: Platform<E, X>, r: FrameReader) returns (result: Result<(Response<X>, Option<seq<byte>>)>)
    requires r.Valid()
    modifies r`o
    ensures r.Reached(ReadResponse(p, old(r.Rest())), result)
  {
    hide ReadF64, ReadStr, ReadU8, HasBit, Flagged;
    var flags :- r.U8();
    var term :- r.F64(p);
    var matchIndex :- r.F64(p);
    var conflictIndex :- r.F64(p);
    var conflictTerm :- r.F64(p);
    var logLength :- r.F64(p);
    var extra :- r.Str();
    var m := Response(term, HasBit(flags, 1), Flagged(matchIndex, HasBit(flags, 2)), Flagged(conflictIndex, HasBit(flags, 4)),
                      Flagged(conflictTerm, HasBit(flags, 8)), Flagged(logLength, HasBit(flags, 16)), None);
    return Ok((m, extra));
  }
}
