/** How a replica uses its log store: the durable prefix is on disk, the rest is exactly the store's buffer. */
module DurableLog {
  import opened LogStore

  class DurableLog<E(!new)> {
    const store: LogStore<E>
    var log: seq<E>
    var durableLength: nat

    ghost predicate Valid()
      reads this, store
    {
      && store.Valid() && durableLength <= |log|
      && store.durable == log[..durableLength] && store.pending == log[durableLength..]
    }

    constructor (store: LogStore<E>, log: seq<E>)
      requires store.Valid() && store.View() == MemoryStore(log, [])
      ensures Valid() && this.store == store && this.log == log && durableLength == |log|
    {
      this.store, this.log, durableLength := store, log, |log|;
    }

    method AppendToLog(entries: seq<E>)
      requires Valid()
      modifies this, store
      ensures Valid() && log == old(log) + entries && durableLength == old(durableLength)
    {
      store.AppendBuffered(entries);
      log := log + entries;
    }

    method FlushLog()
      requires Valid()
      modifies this, store
      ensures Valid() && log == old(log) && durableLength == |log|
    {
      var _ := store.Flush();
      durableLength := |log|;
      assert old(log)[..old(durableLength)] + old(log)[old(durableLength)..] == log;
    }

    /** Cutting rewrites what is kept, buffered entries included, so all of it is durable. */
    method TruncateLogFrom(index: nat)
      requires Valid() && index < |log|
      modifies this, store
      ensures Valid() && log == old(log)[..index] && durableLength == |log|
    {
      log := log[..index];
      store.Rewrite(log);
      durableLength := |log|;
    }
  }

  /**
   * A crash at any point of a flush: what is read back is a prefix of the log at least as long as its
   * durable part. Losing the whole buffer, as the simulator does, is the case where nothing was written.
   */
  lemma CrashKeepsDurable<E(!new)>(codec: Codec<E>, log: seq<E>, durableLength: nat, k: nat) returns (kept: nat, rest: seq<byte>)
    requires CodecOk(codec) && Indexed(codec, log) && durableLength <= |log| && k <= |EncodeAll(codec, log[durableLength..])|
    ensures durableLength <= kept <= |log|
    ensures LoadsAs(codec, TornFile(codec, log[..durableLength], log[durableLength..], k), Bodies(codec, log[..kept]), rest, log[..kept])
    ensures k == 0 ==> kept == durableLength
  {
    assert log[..durableLength] + log[durableLength..] == log;
    var j;
    j, rest := TornFileReads(codec, log[..durableLength], log[durableLength..], k);
    kept := durableLength + j;
    assert log[..durableLength] + log[durableLength..][..j] == log[..kept];
    if k == 0 {
      NothingWritten(codec, log[durableLength..], j, log[..durableLength], rest);
    }
  }

  lemma NothingWritten<E(!new)>(codec: Codec<E>, more: seq<E>, j: nat, durable: seq<E>, rest: seq<byte>)
    requires CodecOk(codec) && j <= |more|
    requires LoadsAs(codec, TornFile(codec, durable, more, 0), Bodies(codec, durable + more[..j]), rest, durable + more[..j])
    ensures j == 0
  {
    var kept := durable + more[..j];
    EncodeConcat(codec, durable, more[..j]);
    EncodeIsJoin(codec, kept);
    assert TornFile(codec, durable, more, 0) == EncodeAll(codec, durable);
    assert |EncodeAll(codec, more[..j])| == 0;
  }
}
