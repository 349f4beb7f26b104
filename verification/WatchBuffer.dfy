/**
 * What the bounded event buffer can promise a watcher: a run in which one misses an event, and the test on
 * the oldest buffered revision that tells when none can be missed.
 */
module WatchBuffer {
  import opened KeyspaceModel
  import opened WatchModel
  import opened WatchProof

  // ── a missed event ────────────────────────────────────────────────────────

  function Puts(n: nat): seq<Entry> {
    seq(n, (i: nat) => Entry(i, 0, Set("k", None)))
  }

  function PutEvents(n: nat): seq<Event> {
    seq(n, (i: nat) => Event(Put, "k", i + 1, i))
  }

  lemma {:induction false} PutsEmit(n: nat)
    ensures Replay(Puts(n)).emitted == PutEvents(n) && Replay(Puts(n)).revision == n && Replay(Puts(n)).leases == []
  {
    if n > 0 {
      PutsEmit(n - 1);
      assert Puts(n)[..n - 1] == Puts(n - 1);
      assert PutEvents(n) == PutEvents(n - 1) + [Event(Put, "k", n, n - 1)];
    }
  }

  lemma {:induction false} SelectAll(events: seq<Event>, prefix: Key, fromRev: nat)
    requires forall i :: 0 <= i < |events| ==> Matches(events[i], prefix, fromRev)
    ensures Select(events, prefix, fromRev) == events
  {
    if events != [] {
      SelectAll(events[..|events| - 1], prefix, fromRev);
    }
  }

  /** A replica that has applied n puts of one key, and a client that has seen none of them. */
  function Behind(n: nat): World {
    World(Puts(n), map[0 := Replica(n, {})], Client(0, [], None), map[], 0)
  }

  const POLL := [Ask(0), Hand(BUFFER_LIMIT)]

  lemma PolledOnce(n: nat)
    requires n > BUFFER_LIMIT
    ensures var w := Behind(n); Run(w, "k", [Ask(0)]) == Some(w.(
              client := Client(0, [], Some(0)), replies := map[0 := PutEvents(n)[n - BUFFER_LIMIT..]], ticket := 1))
  {
    hide Replay, Select;
    var w, late := Behind(n), PutEvents(n)[n - BUFFER_LIMIT..];
    PutsEmit(n);
    assert Puts(n)[..n] == Puts(n);
    SelectAll(late, "k", 0);
    assert [Ask(0)][..0] == [];
    assert Step(w, "k", Ask(0)).replies == map[0 := late];
  }

  lemma HandedLate(n: nat)
    requires n > BUFFER_LIMIT
    ensures Run(Behind(n), "k", POLL).Some?
    ensures var v := Run(Behind(n), "k", POLL).value;
            v.log == Puts(n) && v.client == Client(n, PutEvents(n)[n - BUFFER_LIMIT..], None)
  {
    hide Replay, Select, HandEvents, Buffered;
    var late := PutEvents(n)[n - BUFFER_LIMIT..];
    PolledOnce(n);
    assert POLL[..1] == [Ask(0)];
    assert late[..BUFFER_LIMIT] == late;
    HandEventsOf(Client(0, [], Some(0)), late);
  }

  /** One poll by a client that is too far behind: it is handed the buffer, and never the events before it. */
  lemma MissedEvents(n: nat)
    requires n > BUFFER_LIMIT
    ensures Starting(Behind(n), 0) && Run(Behind(n), "k", POLL).Some?
    ensures var v := Run(Behind(n), "k", POLL).value;
            var stream := Select(Stream(v), "k", 0);
            && stream == PutEvents(n) && v.client.cursor == n && v.client.handed == stream[n - BUFFER_LIMIT..]
            && !(v.client.handed <= stream)
  {
    hide Replay, Select, HandEvents, Run;
    PutsEmit(n);
    SelectAll(PutEvents(n), "k", 0);
    HandedLate(n);
    assert PutEvents(n)[n - BUFFER_LIMIT..][0] != PutEvents(n)[0];
  }

  // ── a test on the oldest buffered revision ────────────────────────────────

  /** The buffer is not full, or the cursor is at most one revision short of its oldest event. */
  predicate Reaches(buffer: seq<Event>, fromRev: nat) {
    |buffer| < BUFFER_LIMIT || fromRev + 1 >= buffer[0].rev
  }

  /** The answer to such a poll holds every event asked for. */
  ghost predicate Complete(log: seq<Entry>, prefix: Key, fromRev: nat) {
    Select(Buffered(Replay(log).emitted), prefix, fromRev) == Select(Replay(log).emitted, prefix, fromRev)
  }

  lemma ReachedIsComplete(emitted: seq<Event>, prefix: Key, fromRev: nat)
    requires Increasing(emitted) && Reaches(Buffered(emitted), fromRev)
    ensures forall e :: e in Dropped(emitted) ==> !Matches(e, prefix, fromRev)
  {
    forall e | e in Dropped(emitted) ensures !Matches(e, prefix, fromRev) {
      var i :| 0 <= i < |Dropped(emitted)| && Dropped(emitted)[i] == e;
      assert e == emitted[i] && emitted[i].rev < emitted[|emitted| - BUFFER_LIMIT].rev;
    }
  }

  /** At every request of the run, the replica asked finds the client's cursor within reach of its buffer. */
  ghost predicate AlwaysTested(w: World, prefix: Key, actions: seq<Action>) {
    forall n :: 0 <= n < |actions| ==> TestedAt(w, prefix, actions, n)
  }

  ghost predicate TestedAt(w: World, prefix: Key, actions: seq<Action>, n: nat)
    requires n < |actions|
  {
    var before := Run(w, prefix, actions[..n]);
    before.Some? && CanStep(before.value, prefix, actions[n]) && actions[n].Ask? ==>
      Reaches(Buffered(EmittedBy(before.value.log, before.value.replicas[actions[n].replica].applied)), before.value.client.cursor)
  }

  /** A server that answers only what its buffer reaches never makes a watcher miss an event. */
  lemma TestedWatchIsGapFree(w: World, prefix: Key, fromRev: nat, actions: seq<Action>)
    requires Starting(w, fromRev) && AlwaysTested(w, prefix, actions) && Run(w, prefix, actions).Some?
    ensures var v := Run(w, prefix, actions).value;
            var stream := Select(Stream(v), prefix, fromRev);
            && v.client.handed <= stream && Increasing(v.client.handed)
            && stream == v.client.handed + Select(Stream(v), prefix, v.client.cursor)
  {
    hide Replay, Select, Increasing;
    forall n | 0 <= n < |actions| ensures ReachesAt(w, prefix, actions, n) {
      assert TestedAt(w, prefix, actions, n);
      var before := Run(w, prefix, actions[..n]);
      if before.Some? && CanStep(before.value, prefix, actions[n]) && actions[n].Ask? {
        var log, applied := before.value.log, before.value.replicas[actions[n].replica].applied;
        StreamOkAt(log[..applied]);
        ReachedIsComplete(EmittedBy(log, applied), prefix, before.value.client.cursor);
      }
    }
    WatchIsGapFree(w, prefix, fromRev, actions);
  }

  // ── the test is exact ─────────────────────────────────────────────────────

  /** Two states that differ at most in what was emitted and in whether the index was created. */
  ghost predicate Alike(s: State, t: State) {
    t == s.(indexCreated := t.indexCreated, emitted := t.emitted)
  }

  /** Consecutive revisions from the one after `revision` on. */
  ghost predicate Consecutive(events: seq<Event>, revision: nat) {
    forall i :: 0 <= i < |events| ==> events[i].rev == revision + 1 + i
  }

  /** From s to s', and from t to t', the same events were emitted, one a revision. */
  ghost predicate Emits(s: State, s': State, t: State, t': State, more: seq<Event>) {
    && Alike(s', t') && s'.indexCreated == s.indexCreated && t'.indexCreated == t.indexCreated
    && s'.emitted == s.emitted + more && t'.emitted == t.emitted + more
    && s'.revision == s.revision + |more| && Consecutive(more, s.revision)
  }

  lemma {:induction false} ExpireAlike(s: State, t: State, leases: seq<Lease>, index: nat) returns (more: seq<Event>)
    requires Alike(s, t)
    ensures Emits(s, ExpireLeases(s, leases, index), t, ExpireLeases(t, leases, index), more)
    decreases |leases|
  {
    if leases == [] {
      more := [];
    } else if Expired(leases[0], s.clock) {
      var key := leases[0].key;
      var s', t' := ExpireOne(s, leases[0], index), ExpireOne(t, leases[0], index);
      var rest := ExpireAlike(s', t', leases[1..], index);
      var first := Event(LeaseExpired, key, s.revision + 1, index);
      more := [first] + rest;
      assert s.emitted + more == s'.emitted + rest && t.emitted + more == t'.emitted + rest;
    } else {
      more := ExpireAlike(s, t, leases[1..], index);
    }
  }

  lemma PutAlike(s: State, t: State, key: Key, value: Value, index: nat, kind: Kind)
    requires Alike(s, t)
    ensures Emits(s, PutRecord(s, key, value, index, kind), t, PutRecord(t, key, value, index, kind), [Event(kind, key, s.revision + 1, index)])
  {
  }

  function Removal(s: State, key: Key, index: nat, kind: Kind): seq<Event> {
    if key in s.store then [Event(kind, key, s.revision + 1, index)] else []
  }

  lemma RemoveAlike(s: State, t: State, key: Key, index: nat, kind: Kind)
    requires Alike(s, t)
    ensures Emits(s, Remove(s, key, index, kind), t, Remove(t, key, index, kind), Removal(s, key, index, kind))
  {
    hide DropLease;
    NothingAlike(s, t);
  }

  lemma NothingAlike(s: State, t: State)
    requires Alike(s, t)
    ensures Emits(s, s, t, t, [])
  {
  }

  lemma CommandAlike(s: State, t: State, c: Command, index: nat) returns (more: seq<Event>)
    requires Alike(s, t) && !c.CreateIndex?
    ensures Emits(s, ApplyCommand(s, c, index), t, ApplyCommand(t, c, index), more)
  {
    hide FindLease, PutLease, PutRecord, Remove, Emits, Emit;
    NothingAlike(s, t);
    more := [];
    match c
    case Tick =>
    case Set(key, value) =>
      if key != "" {
        more := [Event(Put, key, s.revision + 1, index)];
        PutAlike(s, t, key, value, index, Put);
      }
    case Delete(key) =>
      if key != "" {
        more := Removal(s, key, index, Deleted);
        RemoveAlike(s, t, key, index, Deleted);
      }
    case Cas(_, _, _, _) => more := CasAlike(s, t, c, index);
    case LeaseAcquire(_, _, _) => more := AcquireAlike(s, t, c, index);
    case LeaseRenew(_, _, _) => RenewAlike(s, t, c);
    case LeaseRelease(key, _) => more := ReleaseAlike(s, t, c, index);
    case Announce(key) =>
      more := [Event(Subject, key, s.revision + 1, index)];
      AnnounceAlike(s, t, key, index);
  }

  lemma AnnounceAlike(s: State, t: State, key: Key, index: nat)
    requires Alike(s, t)
    ensures Emits(s, Emit(s, Subject, key, index), t, Emit(t, Subject, key, index), [Event(Subject, key, s.revision + 1, index)])
  {
  }

  lemma CasAlike(s: State, t: State, c: Command, index: nat) returns (more: seq<Event>)
    requires Alike(s, t) && c.Cas?
    ensures Emits(s, ApplyCas(s, c, index), t, ApplyCas(t, c, index), more)
  {
    hide PutRecord, Remove, Emits;
    NothingAlike(s, t);
    PutAlike(s, t, c.key, c.newValue, index, Put);
    RemoveAlike(s, t, c.key, index, Deleted);
    more := if ApplyCas(s, c, index) == s && ApplyCas(t, c, index) == t then []
            else if c.newValue.None? then Removal(s, c.key, index, Deleted)
            else [Event(Put, c.key, s.revision + 1, index)];
  }

  lemma AcquireAlike(s: State, t: State, c: Command, index: nat) returns (more: seq<Event>)
    requires Alike(s, t) && c.LeaseAcquire?
    ensures Emits(s, ApplyAcquire(s, c, index), t, ApplyAcquire(t, c, index), more)
  {
    hide PutRecord, FindLease, PutLease;
    var leases := PutLease(s.leases, Lease(c.key, c.holder, c.acquireTtl, s.clock + c.acquireTtl));
    PutAlike(s.(leases := leases), t.(leases := leases), c.key, Some(c.holder), index, LeaseGranted);
    var i := FindLease(s.leases, c.key);
    if c.key == "" || c.acquireTtl == 0 || (i < |s.leases| && s.leases[i].holder != c.holder) {
      NothingAlike(s, t);
      more := [];
    } else {
      more := [Event(LeaseGranted, c.key, s.revision + 1, index)];
    }
  }

  lemma RenewAlike(s: State, t: State, c: Command)
    requires Alike(s, t) && c.LeaseRenew?
    ensures Emits(s, ApplyRenew(s, c), t, ApplyRenew(t, c), [])
  {
    hide FindLease;
  }

  lemma ReleaseAlike(s: State, t: State, c: Command, index: nat) returns (more: seq<Event>)
    requires Alike(s, t) && c.LeaseRelease?
    ensures Emits(s, ApplyRelease(s, c, index), t, ApplyRelease(t, c, index), more)
  {
    hide FindLease, Remove, Emits;
    NothingAlike(s, t);
    RemoveAlike(s, t, c.key, index, LeaseReleased);
    var i := FindLease(s.leases, c.key);
    more := if i == |s.leases| || s.leases[i].holder != c.holder then [] else Removal(s, c.key, index, LeaseReleased);
  }

  lemma ApplyAlike(s: State, t: State, entry: Entry) returns (more: seq<Event>)
    requires Alike(s, t) && !entry.command.CreateIndex?
    ensures Emits(s, Apply(s, entry), t, Apply(t, entry), more)
  {
    hide ExpireLeases, ApplyCommand;
    var clock := if entry.stamp > s.clock then entry.stamp else s.clock;
    var s1, t1 := s.(clock := clock), t.(clock := clock);
    var expired := ExpireAlike(s1, t1, s1.leases, entry.index);
    var s2, t2 := ExpireLeases(s1, s1.leases, entry.index), ExpireLeases(t1, t1.leases, entry.index);
    var rest := CommandAlike(s2, t2, entry.command, entry.index);
    more := expired + rest;
    assert s.emitted + more == s2.emitted + rest && t.emitted + more == t2.emitted + rest;
  }

  /** The log in which an announcement takes the place, and the revision, of the index's creation. */
  function Unindexed(log: seq<Entry>): seq<Entry> {
    if log == [] then []
    else
      var n := |log| - 1;
      Unindexed(log[..n]) + [if log[n].command.CreateIndex?
                             then log[n].(command := if Replay(log[..n]).indexCreated then Tick else Announce(""))
                             else log[n]]
  }

  /** t emitted one event a revision; s the same ones but for the p-th, which its index's creation replaces. */
  ghost predicate Mirrors(s: State, t: State, p: nat) {
    && Alike(s, t) && !t.indexCreated && Consecutive(t.emitted, 0) && t.revision == |t.emitted|
    && (if s.indexCreated then p < |t.emitted| && s.emitted == t.emitted[..p] + t.emitted[p + 1..] else s.emitted == t.emitted)
  }

  lemma MirrorsOn(s: State, t: State, s': State, t': State, more: seq<Event>, p: nat)
    requires Mirrors(s, t, p) && Emits(s, s', t, t', more)
    ensures Mirrors(s', t', p)
  {
    if s.indexCreated {
      assert t'.emitted[..p] + t'.emitted[p + 1..] == t.emitted[..p] + t.emitted[p + 1..] + more;
    }
  }

  lemma SecondCreation(s: State, entry: Entry)
    requires s.indexCreated && entry.command.CreateIndex?
    ensures Apply(s, entry) == Apply(s, entry.(command := Tick))
  {
    var timed := s.(clock := if entry.stamp > s.clock then entry.stamp else s.clock);
    var _ := ExpireAlike(timed, timed, timed.leases, entry.index);
  }

  lemma FirstCreation(s: State, t: State, entry: Entry, p: nat) returns (p': nat)
    requires Mirrors(s, t, p) && !s.indexCreated && entry.command.CreateIndex?
    ensures Mirrors(Apply(s, entry), Apply(t, entry.(command := Announce(""))), p')
  {
    hide ExpireLeases;
    var clock := if entry.stamp > s.clock then entry.stamp else s.clock;
    var s1, t1 := s.(clock := clock), t.(clock := clock);
    var expired := ExpireAlike(s1, t1, s1.leases, entry.index);
    p' := |t.emitted + expired|;
    var t' := Apply(t, entry.(command := Announce("")));
    assert t'.emitted[..p'] + t'.emitted[p' + 1..] == t.emitted + expired;
  }

  lemma {:induction false} UnindexedMirrors(log: seq<Entry>) returns (p: nat)
    ensures Mirrors(Replay(log), Replay(Unindexed(log)), p)
  {
    hide Apply;
    p := 0;
    if log != [] {
      var n := |log| - 1;
      var before, other := log[..n], Unindexed(log[..n]);
      p := UnindexedMirrors(before);
      var s, t := Replay(before), Replay(other);
      assert Unindexed(log)[..|Unindexed(log)| - 1] == other;
      if !log[n].command.CreateIndex? {
        var more := ApplyAlike(s, t, log[n]);
        MirrorsOn(s, t, Apply(s, log[n]), Apply(t, log[n]), more, p);
      } else if s.indexCreated {
        var tick := log[n].(command := Tick);
        SecondCreation(s, log[n]);
        var more := ApplyAlike(s, t, tick);
        MirrorsOn(s, t, Apply(s, tick), Apply(t, tick), more, p);
      } else {
        p := FirstCreation(s, t, log[n], p);
      }
    }
  }

  /** An event the cursor does not cover was dropped: some watcher is not answered in full. */
  lemma DroppedIsMissed(log: seq<Entry>, i: nat, fromRev: nat)
    requires i + BUFFER_LIMIT < |Replay(log).emitted| && Replay(log).emitted[i].rev > fromRev
    ensures !Complete(log, "", fromRev)
  {
    hide Replay, Select;
    var emitted := Replay(log).emitted;
    BufferSuffices(emitted, "", fromRev);
    assert Dropped(emitted)[i] == emitted[i];
    assert emitted[i] in Dropped(emitted) && Matches(emitted[i], "", fromRev);
  }

  /** Short of the test, some log that leaves this very buffer makes some watcher miss an event. */
  lemma SomeLogMisses(log: seq<Entry>, fromRev: nat) returns (other: seq<Entry>)
    requires !Reaches(Buffered(Replay(log).emitted), fromRev)
    ensures Buffered(Replay(other).emitted) == Buffered(Replay(log).emitted) && !Complete(other, "", fromRev)
  {
    hide Replay, Select, Unindexed, Complete;
    var p := UnindexedMirrors(log);
    var s, t := Replay(log), Replay(Unindexed(log));
    StreamOkAt(log);
    var oldest := |s.emitted| - BUFFER_LIMIT;
    assert Buffered(s.emitted)[0] == s.emitted[oldest];
    if s.indexCreated && p <= oldest {
      other := Unindexed(log);
      assert s.emitted[oldest] == t.emitted[oldest + 1];
      assert t.emitted[oldest + 1..] == s.emitted[oldest..];
      DroppedIsMissed(other, fromRev, fromRev);
    } else {
      other := log;
      assert s.emitted[oldest] == t.emitted[oldest] && s.emitted[fromRev] == t.emitted[fromRev];
      DroppedIsMissed(other, fromRev, fromRev);
    }
  }

  /**
   * The test is exact: whichever log left this buffer, every watcher at this cursor is answered in full, exactly
   * when the buffer is not full or the cursor is at most one revision short of its oldest event.
   */
  lemma BufferTestIsExact(log: seq<Entry>, fromRev: nat)
    ensures var buffer := Buffered(Replay(log).emitted);
            (forall other, prefix :: Buffered(Replay(other).emitted) == buffer ==> Complete(other, prefix, fromRev))
            <==> Reaches(buffer, fromRev)
  {
    hide Replay, Select, Complete, Buffered, Reaches;
    var buffer := Buffered(Replay(log).emitted);
    if Reaches(buffer, fromRev) {
      forall other, prefix | Buffered(Replay(other).emitted) == buffer ensures Complete(other, prefix, fromRev) {
        ReachedAnswers(other, prefix, fromRev);
      }
    } else {
      var other := SomeLogMisses(log, fromRev);
      assert !Complete(other, "", fromRev);
    }
  }

  lemma ReachedAnswers(log: seq<Entry>, prefix: Key, fromRev: nat)
    requires Reaches(Buffered(Replay(log).emitted), fromRev)
    ensures Complete(log, prefix, fromRev)
  {
    hide Replay, Select;
    StreamOkAt(log);
    ReachedIsComplete(Replay(log).emitted, prefix, fromRev);
    BufferSuffices(Replay(log).emitted, prefix, fromRev);
  }
}
