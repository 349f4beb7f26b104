/**
 * The append-only log file: one checksummed record per line, recovered after a torn write, and a
 * refinement of the simulator's in-memory store.
 */
module LogStore {

  datatype Option<+T> = None | Some(value: T)

  newtype byte = b: int | 0 <= b < 256

  const NEWLINE: byte := 10
  const SPACE: byte := 32

  /** How an entry is written as JSON text, read back, checksummed, and which index it carries. */
  datatype Codec<!E> = Codec(json: E -> seq<byte>, parse: seq<byte> -> Option<E>, checksum: seq<byte> -> seq<byte>, indexOf: E -> int)

  /** JSON text is one line and reads back; a checksum is a nonempty word. */
  ghost predicate CodecOk<E(!new)>(codec: Codec<E>) {
    && (forall e :: codec.parse(codec.json(e)) == Some(e))
    && (forall e :: NEWLINE !in codec.json(e))
    && (forall text :: codec.checksum(text) != [] && SPACE !in codec.checksum(text) && NEWLINE !in codec.checksum(text))
  }

  /** Entries carry their own positions. */
  ghost predicate Indexed<E>(codec: Codec<E>, entries: seq<E>) {
    forall i :: 0 <= i < |entries| ==> codec.indexOf(entries[i]) == i
  }

  // ── the file format ───────────────────────────────────────────────────────

  function Body<E>(codec: Codec<E>, e: E): seq<byte> {
    codec.checksum(codec.json(e)) + [SPACE] + codec.json(e)
  }

  function EncodeRecord<E>(codec: Codec<E>, e: E): seq<byte> {
    Body(codec, e) + [NEWLINE]
  }

  function EncodeAll<E>(codec: Codec<E>, entries: seq<E>): seq<byte> {
    if entries == [] then [] else EncodeAll(codec, entries[..|entries| - 1]) + EncodeRecord(codec, entries[|entries| - 1])
  }

  function Bodies<E>(codec: Codec<E>, entries: seq<E>): seq<seq<byte>> {
    seq(|entries|, i requires 0 <= i < |entries| => Body(codec, entries[i]))
  }

  function Join(lines: seq<seq<byte>>): seq<byte> {
    if lines == [] then [] else Join(lines[..|lines| - 1]) + lines[|lines| - 1] + [NEWLINE]
  }

  ghost predicate OneLine(text: seq<byte>) {
    NEWLINE !in text
  }

  ghost predicate AllOneLine(lines: seq<seq<byte>>) {
    forall i :: 0 <= i < |lines| ==> OneLine(lines[i])
  }

  lemma {:induction false} EncodeIsJoin<E>(codec: Codec<E>, entries: seq<E>)
    ensures EncodeAll(codec, entries) == Join(Bodies(codec, entries))
  {
    if entries != [] {
      var n := |entries| - 1;
      EncodeIsJoin(codec, entries[..n]);
      assert Bodies(codec, entries)[..n] == Bodies(codec, entries[..n]);
    }
  }

  lemma {:induction false} EncodeConcat<E>(codec: Codec<E>, a: seq<E>, b: seq<E>)
    ensures EncodeAll(codec, a + b) == EncodeAll(codec, a) + EncodeAll(codec, b)
  {
    if b == [] {
      assert a + b == a;
    } else {
      var n := |b| - 1;
      EncodeConcat(codec, a, b[..n]);
      assert (a + b)[..|a + b| - 1] == a + b[..n];
    }
  }

  lemma {:induction false} JoinFirst(lines: seq<seq<byte>>)
    requires lines != []
    ensures Join(lines) == lines[0] + [NEWLINE] + Join(lines[1..])
  {
    if |lines| > 1 {
      var n := |lines| - 1;
      JoinFirst(lines[..n]);
      assert lines[..n][1..] == lines[1..][..n - 1];
    } else {
      assert lines[..0] == [] && lines[1..] == [];
    }
  }

  lemma HasNewline(lines: seq<seq<byte>>, rest: seq<byte>)
    ensures if lines == [] then Join(lines) + rest == rest else NEWLINE in Join(lines) + rest
  {
    if lines != [] {
      assert (Join(lines) + rest)[|Join(lines)| - 1] == NEWLINE;
    }
  }

  /** A text splits into complete lines and a rest in one way only. */
  lemma {:induction false} SplitIsUnique(a: seq<seq<byte>>, s: seq<byte>, b: seq<seq<byte>>, t: seq<byte>)
    requires AllOneLine(a) && AllOneLine(b) && OneLine(s) && OneLine(t) && Join(a) + s == Join(b) + t
    ensures a == b && s == t
  {
    HasNewline(a, s);
    HasNewline(b, t);
    assert a == [] <==> b == [];
    if a != [] {
      JoinFirst(a);
      JoinFirst(b);
      var restA, restB := Join(a[1..]) + s, Join(b[1..]) + t;
      assert Join(a) + s == a[0] + [NEWLINE] + restA;
      assert Join(b) + t == b[0] + [NEWLINE] + restB;
      SameFirst(a[0], restA, b[0], restB);
      SplitIsUnique(a[1..], s, b[1..], t);
      assert a == [a[0]] + a[1..] && b == [b[0]] + b[1..];
    }
  }

  lemma SameFirst(x: seq<byte>, s: seq<byte>, y: seq<byte>, t: seq<byte>)
    requires OneLine(x) && OneLine(y) && x + [NEWLINE] + s == y + [NEWLINE] + t
    ensures x == y && s == t
  {
    var whole, same := x + [NEWLINE] + s, y + [NEWLINE] + t;
    assert whole[|x|] == NEWLINE && same[|y|] == NEWLINE;
    forall i | 0 <= i < |x| ensures whole[i] != NEWLINE {
      assert x[i] in x;
    }
    forall i | 0 <= i < |y| ensures same[i] != NEWLINE {
      assert y[i] in y;
    }
    assert |x| == |y|;
    assert whole[..|x|] == x && same[..|x|] == y;
    assert whole[|x| + 1..] == s && same[|x| + 1..] == t;
  }

  // ── reading lines back ────────────────────────────────────────────────────

  /** Position of the first space, or the length. */
  function FirstSpace(line: seq<byte>): (i: nat)
    ensures i <= |line| && (i < |line| ==> line[i] == SPACE) && forall j :: 0 <= j < i ==> line[j] != SPACE
  {
    if line == [] || line[0] == SPACE then 0 else 1 + FirstSpace(line[1..])
  }

  /** One complete record, if its checksum is right. */
  function DecodeLine<E>(codec: Codec<E>, line: seq<byte>): Option<E> {
    var separator := FirstSpace(line);
    var found := 0 < separator < |line|;
    var checksum := if found then line[..separator] else [];
    var json := if found then line[separator + 1..] else [];
    if codec.checksum(json) != checksum then None else codec.parse(json)
  }

  /** All records in order, or None where a complete record is damaged or out of place. */
  function DecodeLines<E>(codec: Codec<E>, lines: seq<seq<byte>>): Option<seq<E>> {
    if lines == [] then Some([])
    else
      var n := |lines| - 1;
      match DecodeLines(codec, lines[..n])
      case None => None
      case Some(entries) =>
        if lines[n] == [] then Some(entries)
        else
          match DecodeLine(codec, lines[n])
          case None => None
          case Some(e) => if codec.indexOf(e) == |entries| then Some(entries + [e]) else None
  }

  lemma BodyDecodes<E(!new)>(codec: Codec<E>, e: E)
    requires CodecOk(codec)
    ensures DecodeLine(codec, Body(codec, e)) == Some(e)
  {
    var line, check := Body(codec, e), codec.checksum(codec.json(e));
    forall i | 0 <= i < |check| ensures line[i] != SPACE {
      assert check[i] in check;
    }
    assert line[|check|] == SPACE;
    assert line[..|check|] == check && line[|check| + 1..] == codec.json(e);
  }

  lemma {:induction false} BodiesDecode<E(!new)>(codec: Codec<E>, entries: seq<E>)
    requires CodecOk(codec) && Indexed(codec, entries)
    ensures DecodeLines(codec, Bodies(codec, entries)) == Some(entries)
  {
    if entries != [] {
      var n := |entries| - 1;
      BodiesDecode(codec, entries[..n]);
      BodyDecodes(codec, entries[n]);
      assert Bodies(codec, entries)[..n] == Bodies(codec, entries[..n]);
      assert entries[..n] + [entries[n]] == entries;
    }
  }

  // ── torn writes ───────────────────────────────────────────────────────────

  /** Any byte prefix of a write holds its first few records whole, and part of the next. */
  lemma {:induction false} TornWrite<E(!new)>(codec: Codec<E>, entries: seq<E>, k: nat) returns (j: nat, rest: seq<byte>)
    requires CodecOk(codec) && k <= |EncodeAll(codec, entries)|
    ensures j <= |entries| && OneLine(rest) && EncodeAll(codec, entries)[..k] == EncodeAll(codec, entries[..j]) + rest
    ensures rest == [] || j < |entries|
    ensures k == |EncodeAll(codec, entries)| ==> j == |entries| && rest == []
  {
    if entries == [] {
      j, rest := 0, [];
    } else {
      var n := |entries| - 1;
      var before := EncodeAll(codec, entries[..n]);
      var last := EncodeRecord(codec, entries[n]);
      assert EncodeAll(codec, entries) == before + last;
      if k <= |before| {
        j, rest := TornWrite(codec, entries[..n], k);
        assert entries[..n][..j] == entries[..j];
        assert (before + last)[..k] == before[..k];
      } else if k < |before| + |last| {
        j, rest := n, last[..k - |before|];
        assert last[..|last| - 1] == Body(codec, entries[n]);
        assert (before + last)[..k] == before + rest;
      } else {
        j, rest := |entries|, [];
        assert entries[..j] == entries;
      }
    }
  }

  // ── the simulator's store ─────────────────────────────────────────────────

  /** The abstract contract: what is durable, and what is appended but not yet. */
  datatype MemoryStore<+E> = MemoryStore(entries: seq<E>, pending: seq<E>)

  function MemoryAppend<E>(s: MemoryStore<E>, entries: seq<E>): MemoryStore<E> {
    s.(entries := s.entries + entries)
  }

  function MemoryAppendBuffered<E>(s: MemoryStore<E>, entries: seq<E>): MemoryStore<E> {
    s.(pending := s.pending + entries)
  }

  function MemoryFlush<E>(s: MemoryStore<E>): MemoryStore<E> {
    MemoryStore(s.entries + s.pending, [])
  }

  function MemoryRewrite<E>(s: MemoryStore<E>, entries: seq<E>): MemoryStore<E> {
    MemoryStore(entries, [])
  }

  class MemoryLogStore<E> {
    var entries: seq<E>
    var pending: seq<E>

    constructor ()
      ensures View() == MemoryStore([], [])
    {
      entries, pending := [], [];
    }

    function View(): MemoryStore<E>
      reads this
    {
      MemoryStore(entries, pending)
    }

    method Append(more: seq<E>)
      modifies this
      ensures View() == MemoryAppend(old(View()), more)
    {
      entries := entries + more;
    }

    method AppendBuffered(more: seq<E>)
      modifies this
      ensures View() == MemoryAppendBuffered(old(View()), more)
    {
      pending := pending + more;
    }

    method Flush() returns (count: nat)
      modifies this
      ensures View() == MemoryFlush(old(View())) && count == |old(pending)|
    {
      count := |pending|;
      if count == 0 {
        assert entries + pending == entries;
        return;
      }
      entries := entries + pending;
      pending := [];
    }

    method Rewrite(all: seq<E>)
      modifies this
      ensures View() == MemoryRewrite(old(View()), all)
    {
      entries := all;
      pending := [];
    }
  }

  // ── the file store ────────────────────────────────────────────────────────

  datatype LoadResult<+E> = Loaded(entries: seq<E>) | Corrupted

  method EncodeLines<E>(codec: Codec<E>, entries: seq<E>) returns (payload: seq<byte>)
    ensures payload == EncodeAll(codec, entries)
  {
    payload := [];
    var n := 0;
    while n < |entries|
      invariant n <= |entries| && payload == EncodeAll(codec, entries[..n])
    {
      assert entries[..n + 1][..n] == entries[..n];
      payload := payload + EncodeRecord(codec, entries[n]);
      n := n + 1;
    }
    assert entries[..n] == entries;
  }

  method SplitLines(raw: seq<byte>) returns (lines: seq<seq<byte>>, trailing: seq<byte>)
    ensures AllOneLine(lines) && OneLine(trailing) && Join(lines) + trailing == raw
  {
    lines, trailing := [], [];
    var n := 0;
    while n < |raw|
      invariant n <= |raw| && AllOneLine(lines) && OneLine(trailing) && Join(lines) + trailing == raw[..n]
    {
      assert raw[..n + 1] == raw[..n] + [raw[n]];
      if raw[n] == NEWLINE {
        assert (lines + [trailing])[..|lines|] == lines;
        lines, trailing := lines + [trailing], [];
      } else {
        trailing := trailing + [raw[n]];
      }
      n := n + 1;
    }
    assert raw[..n] == raw;
  }

  class LogStore<E(!new)> {
    const codec: Codec<E>
    var file: seq<byte>
    var records: seq<seq<byte>>
    var pendingEntries: nat
    ghost var durable: seq<E>
    ghost var pending: seq<E>

    /** The file is the encoding of the durable entries; the buffer holds the encodings of the pending ones. */
    ghost predicate Valid()
      reads this
    {
      && file == EncodeAll(codec, durable)
      && Concat(records) == EncodeAll(codec, pending) && pendingEntries == |pending|
    }

    ghost function View(): MemoryStore<E>
      reads this
    {
      MemoryStore(durable, pending)
    }

    /** Opens a file that is known to be sound. */
    constructor (codec: Codec<E>, ghost entries: seq<E>, file: seq<byte>)
      requires file == EncodeAll(codec, entries)
      ensures Valid() && this.codec == codec && View() == MemoryStore(entries, [])
    {
      this.codec, this.file, records, pendingEntries := codec, file, [], 0;
      durable, pending := entries, [];
    }

    /** Opens whatever a crash left. */
    constructor Open(codec: Codec<E>, file: seq<byte>)
      ensures this.codec == codec && this.file == file
    {
      this.codec, this.file, records, pendingEntries := codec, file, [], 0;
      durable, pending := [], [];
    }

    method Append(entries: seq<E>)
      requires Valid()
      modifies this
      ensures Valid() && View() == MemoryAppend(old(View()), entries)
    {
      if |entries| == 0 {
        assert durable + entries == durable;
        return;
      }
      var payload := EncodeLines(codec, entries);
      EncodeConcat(codec, durable, entries);
      file := file + payload;
      durable := durable + entries;
    }

    method AppendBuffered(entries: seq<E>)
      requires Valid()
      modifies this
      ensures Valid() && View() == MemoryAppendBuffered(old(View()), entries) && file == old(file)
    {
      hide EncodeAll, EncodeRecord, Concat;
      var n := 0;
      assert pending + entries[..0] == pending;
      while n < |entries|
        invariant n <= |entries| && file == old(file) && durable == old(durable) && pending == old(pending)
        invariant Concat(records) == EncodeAll(codec, pending + entries[..n]) && pendingEntries == |pending|
      {
        assert pending + entries[..n + 1] == pending + entries[..n] + [entries[n]];
        OneMoreRecord(codec, records, pending + entries[..n], entries[n]);
        records := records + [EncodeRecord(codec, entries[n])];
        n := n + 1;
      }
      assert entries[..n] == entries;
      pendingEntries := pendingEntries + |entries|;
      pending := pending + entries;
    }

    /** One write for everything buffered, in append order. */
    method Flush() returns (count: nat)
      requires Valid()
      modifies this
      ensures Valid() && View() == MemoryFlush(old(View())) && count == |old(pending)|
    {
      if pendingEntries == 0 {
        assert durable + pending == durable;
        return 0;
      }
      count := pendingEntries;
      EncodeConcat(codec, durable, pending);
      file := file + Concat(records);
      records, pendingEntries := [], 0;
      durable, pending := durable + pending, [];
    }

    /** Replaces the file by a renamed temporary, and drops the buffer. */
    method Rewrite(entries: seq<E>)
      modifies this
      ensures Valid() && View() == MemoryRewrite(old(View()), entries)
    {
      records, pendingEntries := [], 0;
      file := EncodeLines(codec, entries);
      durable, pending := entries, [];
    }

    /** Reads the file back. Only its last, incomplete line may be bad, and it is then dropped from the file. */
    method Load() returns (result: LoadResult<E>)
      modifies this
      ensures result.Loaded? ==> exists lines, trailing :: LoadsAs(codec, old(file), lines, trailing, result.entries)
      ensures result.Corrupted? ==> exists lines, trailing :: IsSplit(old(file), lines, trailing) && DecodeLines(codec, lines).None?
      ensures result.Loaded? && (exists lines, trailing :: trailing != [] && IsSplit(old(file), lines, trailing)) ==>
                Valid() && View() == MemoryStore(result.entries, [])
      ensures result.Loaded? && !(exists lines, trailing :: trailing != [] && IsSplit(old(file), lines, trailing)) ==> file == old(file)
    {
      var lines, trailing := SplitLines(file);
      assert IsSplit(file, lines, trailing);
      var entries: seq<E> := [];
      var n := 0;
      while n < |lines|
        invariant n <= |lines| && file == old(file) && DecodeLines(codec, lines[..n]) == Some(entries)
      {
        assert lines[..n + 1][..n] == lines[..n];
        if lines[n] != [] {
          var entry := DecodeLine(codec, lines[n]);
          if entry.None? || codec.indexOf(entry.value) != |entries| {
            DamageStays(codec, lines, n + 1);
            return Corrupted;
          }
          entries := entries + [entry.value];
        }
        n := n + 1;
      }
      assert lines[..n] == lines;
      assert LoadsAs(codec, file, lines, trailing, entries);
      if |trailing| > 0 {
        Rewrite(entries);
      } else {
        forall ls, t | IsSplit(file, ls, t) ensures t == [] {
          SplitIsUnique(lines, trailing, ls, t);
        }
      }
      return Loaded(entries);
    }
  }

  function Concat(records: seq<seq<byte>>): seq<byte> {
    if records == [] then [] else Concat(records[..|records| - 1]) + records[|records| - 1]
  }

  lemma OneMoreRecord<E>(codec: Codec<E>, records: seq<seq<byte>>, entries: seq<E>, e: E)
    ensures Concat(records + [EncodeRecord(codec, e)]) == Concat(records) + EncodeRecord(codec, e)
    ensures EncodeAll(codec, entries + [e]) == EncodeAll(codec, entries) + EncodeRecord(codec, e)
  {
    assert (records + [EncodeRecord(codec, e)])[..|records|] == records;
    assert (entries + [e])[..|entries|] == entries;
  }

  ghost predicate IsSplit(raw: seq<byte>, lines: seq<seq<byte>>, trailing: seq<byte>) {
    AllOneLine(lines) && OneLine(trailing) && Join(lines) + trailing == raw
  }

  ghost predicate LoadsAs<E>(codec: Codec<E>, raw: seq<byte>, lines: seq<seq<byte>>, trailing: seq<byte>, entries: seq<E>) {
    IsSplit(raw, lines, trailing) && DecodeLines(codec, lines) == Some(entries)
  }

  lemma {:induction false} DamageStays<E>(codec: Codec<E>, lines: seq<seq<byte>>, n: nat)
    requires n <= |lines| && DecodeLines(codec, lines[..n]).None?
    ensures DecodeLines(codec, lines).None?
    decreases |lines|
  {
    if n < |lines| {
      var m := |lines| - 1;
      assert lines[..m][..n] == lines[..n];
      DamageStays(codec, lines[..m], n);
    } else {
      assert lines[..n] == lines;
    }
  }

  // ── after a crash ─────────────────────────────────────────────────────────

  /** The file left by a crash in the middle of a write that was adding `more` to the durable entries. */
  function TornFile<E>(codec: Codec<E>, durable: seq<E>, more: seq<E>, k: nat): seq<byte>
    requires k <= |EncodeAll(codec, more)|
  {
    EncodeAll(codec, durable) + EncodeAll(codec, more)[..k]
  }

  /** The only reading of a torn file: every durable entry, and the first few of those being written. */
  lemma TornFileReads<E(!new)>(codec: Codec<E>, durable: seq<E>, more: seq<E>, k: nat) returns (j: nat, rest: seq<byte>)
    requires CodecOk(codec) && Indexed(codec, durable + more) && k <= |EncodeAll(codec, more)|
    ensures j <= |more| && LoadsAs(codec, TornFile(codec, durable, more, k), Bodies(codec, durable + more[..j]), rest, durable + more[..j])
    ensures k == |EncodeAll(codec, more)| ==> j == |more| && rest == []
  {
    hide EncodeAll, Join, DecodeLines, DecodeLine, Body, CodecOk, OneLine;
    j, rest := TornWrite(codec, more, k);
    var kept := durable + more[..j];
    EncodeConcat(codec, durable, more[..j]);
    assert kept == (durable + more)[..|durable| + j];
    BodiesSplit(codec, kept, rest);
  }

  /** The encoding of entries, and part of a line, reads as those entries. */
  lemma BodiesSplit<E(!new)>(codec: Codec<E>, entries: seq<E>, rest: seq<byte>)
    requires CodecOk(codec) && Indexed(codec, entries) && OneLine(rest)
    ensures LoadsAs(codec, EncodeAll(codec, entries) + rest, Bodies(codec, entries), rest, entries)
  {
    EncodeIsJoin(codec, entries);
    BodiesDecode(codec, entries);
    hide OneLine;
    forall i | 0 <= i < |entries| ensures OneLine(Bodies(codec, entries)[i]) {
    }
  }

  /**
   * Whatever byte prefix of the last write reached the disk, loading recovers every entry that had been
   * flushed, then a prefix of those in flight, and leaves the file equal to the encoding of just that.
   */
  method LoadAfterCrash<E(!new)>(store: LogStore<E>, ghost durable: seq<E>, ghost more: seq<E>, ghost k: nat)
    returns (recovered: seq<E>, ghost j: nat)
    requires CodecOk(store.codec) && Indexed(store.codec, durable + more) && k <= |EncodeAll(store.codec, more)|
    requires store.file == TornFile(store.codec, durable, more, k)
    modifies store
    ensures j <= |more| && recovered == durable + more[..j]
    ensures k == |EncodeAll(store.codec, more)| ==> j == |more|
    ensures store.file == EncodeAll(store.codec, recovered)
  {
    ghost var rest;
    j, rest := TornFileReads(store.codec, durable, more, k);
    ghost var raw := store.file;
    ghost var kept := durable + more[..j];
    forall lines, trailing | IsSplit(raw, lines, trailing) ensures lines == Bodies(store.codec, kept) && trailing == rest {
      SplitIsUnique(Bodies(store.codec, kept), rest, lines, trailing);
    }
    var result := store.Load();
    recovered := if result.Loaded? then result.entries else [];
    EncodeIsJoin(store.codec, kept);
  }
}
