/**
 * The replicated keyspace: values, leases that expire by logical time, and the stream of events
 * each applied entry emits. A pure function of the log, so replicas differ only in how far they are.
 */
module KeyspaceModel {

  type Key = string
  type Holder = string

  datatype Option<+T> = None | Some(value: T)

  /** A stored value may be null. */
  type Value = Option<string>

  datatype Record = Record(value: Value, rev: nat, createRev: nat)
  datatype Lease = Lease(key: Key, holder: Holder, ttl: nat, expiresAt: nat)

  datatype Kind = Put | Deleted | LeaseGranted | LeaseReleased | LeaseExpired | Subject

  datatype Event = Event(kind: Kind, key: Key, rev: nat, index: nat)

  datatype Command =
    | Tick
    | Set(key: Key, value: Value)
    | Delete(key: Key)
    | Cas(key: Key, expectRev: Option<nat>, expectValue: Option<Value>, newValue: Value)
    | LeaseAcquire(key: Key, holder: Holder, acquireTtl: nat)
    | LeaseRenew(key: Key, holder: Holder, renewTtl: Option<nat>)
    | LeaseRelease(key: Key, holder: Holder)
    | Announce(key: Key)
    | CreateIndex

  datatype Entry = Entry(index: nat, stamp: nat, command: Command)

  /** `emitted` is everything ever emitted; a replica itself keeps only the last of it. */
  datatype State = State(
    store: map<Key, Record>, leases: seq<Lease>, clock: nat, revision: nat, indexCreated: bool, emitted: seq<Event>)

  const INITIAL := State(map[], [], 0, 0, false, [])

  // ── leases, in the order they were first granted ──────────────────────────

  function FindLease(leases: seq<Lease>, key: Key): (i: nat)
    ensures i <= |leases| && (i < |leases| ==> leases[i].key == key)
    ensures forall j :: 0 <= j < i ==> leases[j].key != key
  {
    if leases == [] || leases[0].key == key then 0 else 1 + FindLease(leases[1..], key)
  }

  function PutLease(leases: seq<Lease>, lease: Lease): seq<Lease> {
    var i := FindLease(leases, lease.key);
    if i < |leases| then leases[i := lease] else leases + [lease]
  }

  function DropLease(leases: seq<Lease>, key: Key): seq<Lease> {
    var i := FindLease(leases, key);
    if i < |leases| then leases[..i] + leases[i + 1..] else leases
  }

  // ── mutations ─────────────────────────────────────────────────────────────

  /** Every event takes the next revision. */
  function Emit(s: State, kind: Kind, key: Key, index: nat): State {
    s.(revision := s.revision + 1, emitted := s.emitted + [Event(kind, key, s.revision + 1, index)])
  }

  function PutRecord(s: State, key: Key, value: Value, index: nat, kind: Kind): State {
    var rev := s.revision + 1;
    var createRev := if key in s.store then s.store[key].createRev else rev;
    Emit(s.(store := s.store[key := Record(value, rev, createRev)]), kind, key, index)
  }

  function Remove(s: State, key: Key, index: nat, kind: Kind): State {
    if key !in s.store then s
    else Emit(s.(store := s.store - {key}, leases := DropLease(s.leases, key)), kind, key, index)
  }

  predicate Expired(lease: Lease, clock: nat) {
    lease.expiresAt <= clock
  }

  /** One turn of the expiry loop. */
  function ExpireOne(s: State, lease: Lease, index: nat): State {
    if Expired(lease, s.clock)
    then Emit(s.(leases := DropLease(s.leases, lease.key), store := s.store - {lease.key}), LeaseExpired, lease.key, index)
    else s
  }

  /** Goes through the leases in order, dropping and announcing those whose time has come. */
  function ExpireLeases(s: State, leases: seq<Lease>, index: nat): State
    decreases |leases|
  {
    if leases == [] then s else ExpireLeases(ExpireOne(s, leases[0], index), leases[1..], index)
  }

  predicate CasMatches(s: State, c: Command)
    requires c.Cas?
  {
    var currentRev := if c.key in s.store then s.store[c.key].rev else 0;
    var current := if c.key in s.store then s.store[c.key].value else None;
    if c.expectRev.Some? then currentRev == c.expectRev.value else c.expectValue.Some? && current == c.expectValue.value
  }

  function ApplyCas(s: State, c: Command, index: nat): State
    requires c.Cas?
  {
    if c.key == "" || !CasMatches(s, c) then s
    else if c.newValue.None? then Remove(s, c.key, index, Deleted)
    else PutRecord(s, c.key, c.newValue, index, Put)
  }

  function ApplyAcquire(s: State, c: Command, index: nat): State
    requires c.LeaseAcquire?
  {
    var i := FindLease(s.leases, c.key);
    if c.key == "" || c.acquireTtl == 0 then s
    else if i < |s.leases| && s.leases[i].holder != c.holder then s
    else
      var lease := Lease(c.key, c.holder, c.acquireTtl, s.clock + c.acquireTtl);
      PutRecord(s.(leases := PutLease(s.leases, lease)), c.key, Some(c.holder), index, LeaseGranted)
  }

  /** A renewal is silent: ownership did not change. */
  function ApplyRenew(s: State, c: Command): State
    requires c.LeaseRenew?
  {
    var i := FindLease(s.leases, c.key);
    if i == |s.leases| || s.leases[i].holder != c.holder then s
    else
      var ttl := if c.renewTtl.Some? && c.renewTtl.value > 0 then c.renewTtl.value else s.leases[i].ttl;
      s.(leases := s.leases[i := s.leases[i].(ttl := ttl, expiresAt := s.clock + ttl)])
  }

  function ApplyRelease(s: State, c: Command, index: nat): State
    requires c.LeaseRelease?
  {
    var i := FindLease(s.leases, c.key);
    if i == |s.leases| || s.leases[i].holder != c.holder then s else Remove(s, c.key, index, LeaseReleased)
  }

  function ApplyCommand(s: State, c: Command, index: nat): State {
    match c
    case Tick => s
    case Set(key, value) => if key == "" then s else PutRecord(s, key, value, index, Put)
    case Delete(key) => if key == "" then s else Remove(s, key, index, Deleted)
    case Cas(_, _, _, _) => ApplyCas(s, c, index)
    case LeaseAcquire(_, _, _) => ApplyAcquire(s, c, index)
    case LeaseRenew(_, _, _) => ApplyRenew(s, c)
    case LeaseRelease(_, _) => ApplyRelease(s, c, index)
    case Announce(key) => Emit(s, Subject, key, index)
    case CreateIndex => if s.indexCreated then s else s.(indexCreated := true, revision := s.revision + 1)
  }

  /** Time moves forward only, leases expire before the command is looked at. */
  function Apply(s: State, entry: Entry): State {
    var timed := s.(clock := if entry.stamp > s.clock then entry.stamp else s.clock);
    ApplyCommand(ExpireLeases(timed, timed.leases, entry.index), entry.command, entry.index)
  }

  function Replay(log: seq<Entry>): State {
    if log == [] then INITIAL else Apply(Replay(log[..|log| - 1]), log[|log| - 1])
  }

  // ── the event stream ──────────────────────────────────────────────────────

  /** Revisions strictly increase along the stream and never exceed the current one. */
  ghost predicate StreamOk(s: State) {
    && (forall i, j :: 0 <= i < j < |s.emitted| ==> s.emitted[i].rev < s.emitted[j].rev)
    && (forall i :: 0 <= i < |s.emitted| ==> 0 < s.emitted[i].rev <= s.revision)
  }

  /** The stream of t continues that of s. */
  ghost predicate Continues(s: State, t: State) {
    StreamOk(t) && s.emitted <= t.emitted && s.revision <= t.revision
  }

  lemma EmitContinues(s: State, kind: Kind, key: Key, index: nat)
    requires StreamOk(s)
    ensures Continues(s, Emit(s, kind, key, index))
  {
  }

  lemma {:induction false} ExpireContinues(s: State, leases: seq<Lease>, index: nat)
    requires StreamOk(s)
    ensures Continues(s, ExpireLeases(s, leases, index))
    decreases |leases|
  {
    if leases != [] {
      var next := ExpireOne(s, leases[0], index);
      ExpireContinues(next, leases[1..], index);
    }
  }

  lemma CommandContinues(s: State, c: Command, index: nat)
    requires StreamOk(s)
    ensures Continues(s, ApplyCommand(s, c, index))
  {
    hide ApplyCas, ApplyAcquire, ApplyRenew, ApplyRelease, Continues, Emit, PutRecord, Remove;
    match c
    case Announce(key) => EmitContinues(s, Subject, key, index);
    case Set(key, value) => PutContinues(s, key, value, index);
    case Delete(key) => RemoveContinues(s, key, index, Deleted);
    case CreateIndex => SameStreamContinues(s, ApplyCommand(s, c, index));
    case Tick => SameStreamContinues(s, s);
    case _ => GuardedContinues(s, c, index);
  }

  lemma SameStreamContinues(s: State, t: State)
    requires StreamOk(s) && t.emitted == s.emitted && t.revision >= s.revision
    ensures Continues(s, t)
  {
  }

  lemma PutContinues(s: State, key: Key, value: Value, index: nat)
    requires StreamOk(s)
    ensures Continues(s, PutRecord(s, key, value, index, Put)) && Continues(s, s)
  {
  }

  lemma RemoveContinues(s: State, key: Key, index: nat, kind: Kind)
    requires StreamOk(s)
    ensures Continues(s, Remove(s, key, index, kind)) && Continues(s, s)
  {
  }

  lemma GuardedContinues(s: State, c: Command, index: nat)
    requires StreamOk(s)
    ensures c.Cas? ==> Continues(s, ApplyCas(s, c, index))
    ensures c.LeaseAcquire? ==> Continues(s, ApplyAcquire(s, c, index))
    ensures c.LeaseRenew? ==> Continues(s, ApplyRenew(s, c))
    ensures c.LeaseRelease? ==> Continues(s, ApplyRelease(s, c, index))
  {
    hide FindLease, DropLease;
  }

  lemma ApplyContinues(s: State, entry: Entry)
    requires StreamOk(s)
    ensures Continues(s, Apply(s, entry))
  {
    var timed := s.(clock := if entry.stamp > s.clock then entry.stamp else s.clock);
    ExpireContinues(timed, timed.leases, entry.index);
    CommandContinues(ExpireLeases(timed, timed.leases, entry.index), entry.command, entry.index);
  }

  /** Replicas that have applied different prefixes of one log have emitted prefixes of one stream. */
  lemma {:induction false} StreamsArePrefixes(log: seq<Entry>, k: nat)
    requires k <= |log|
    ensures StreamOk(Replay(log)) && Replay(log[..k]).emitted <= Replay(log).emitted
    decreases |log|
  {
    if k == |log| {
      assert log[..k] == log;
      if k > 0 {
        StreamsArePrefixes(log[..k - 1], k - 1);
        ApplyContinues(Replay(log[..k - 1]), log[k - 1]);
      }
    } else {
      var n := |log| - 1;
      assert log[..n][..k] == log[..k];
      StreamsArePrefixes(log[..n], k);
      ApplyContinues(Replay(log[..n]), log[n]);
    }
  }

  // ── leases ────────────────────────────────────────────────────────────────

  /** One lease per key, with a real duration, and none of them past its time. */
  ghost predicate LeasesLive(leases: seq<Lease>, clock: nat) {
    && (forall i, j :: 0 <= i < j < |leases| ==> leases[i].key != leases[j].key)
    && (forall i :: 0 <= i < |leases| ==> leases[i].ttl > 0 && !Expired(leases[i], clock))
  }

  ghost predicate OnePerKey(leases: seq<Lease>) {
    && (forall i, j :: 0 <= i < j < |leases| ==> leases[i].key != leases[j].key)
    && (forall i :: 0 <= i < |leases| ==> leases[i].ttl > 0)
  }

  lemma DroppedKeepsKeys(leases: seq<Lease>, i: nat)
    requires OnePerKey(leases) && i < |leases|
    ensures OnePerKey(leases[..i] + leases[i + 1..])
  {
  }

  lemma DroppedMembers(leases: seq<Lease>, i: nat, l: Lease)
    requires OnePerKey(leases) && i < |leases|
    ensures l in leases[..i] + leases[i + 1..] <==> l in leases && l.key != leases[i].key
  {
    assert leases == leases[..i] + [leases[i]] + leases[i + 1..];
    if l in leases && l.key == leases[i].key {
      var j :| 0 <= j < |leases| && leases[j] == l;
      assert j == i;
    }
    if l in leases[..i] + leases[i + 1..] {
      var k :| 0 <= k < |leases| - 1 && (leases[..i] + leases[i + 1..])[k] == l;
      assert l == leases[if k < i then k else k + 1];
    }
  }

  lemma DropLeaseMembers(leases: seq<Lease>, key: Key)
    requires OnePerKey(leases)
    ensures OnePerKey(DropLease(leases, key))
    ensures forall l :: l in DropLease(leases, key) <==> l in leases && l.key != key
  {
    var i := FindLease(leases, key);
    if i < |leases| {
      DroppedKeepsKeys(leases, i);
      forall l ensures l in DropLease(leases, key) <==> l in leases && l.key != key {
        DroppedMembers(leases, i, l);
      }
    } else {
      assert forall l :: l in leases ==> l.key != key;
    }
  }

  lemma OnlyOne(leases: seq<Lease>, a: Lease, b: Lease)
    requires OnePerKey(leases) && a in leases && b in leases && a.key == b.key
    ensures a == b
  {
    var i :| 0 <= i < |leases| && leases[i] == a;
    var j :| 0 <= j < |leases| && leases[j] == b;
  }

  lemma ExpiredOne(s: State, lease: Lease, index: nat)
    requires OnePerKey(s.leases) && lease in s.leases
    ensures var next := ExpireOne(s, lease, index);
            && next.clock == s.clock && OnePerKey(next.leases)
            && forall l :: l in next.leases <==> l in s.leases && !(l == lease && Expired(l, s.clock))
  {
    hide DropLease;
    DropLeaseMembers(s.leases, lease.key);
    forall l | l in s.leases && l.key == lease.key ensures l == lease {
      OnlyOne(s.leases, l, lease);
    }
  }

  /** Exactly the leases in `todo` whose time has come are gone. */
  lemma {:induction false} ExpiresExactly(s: State, todo: seq<Lease>, index: nat)
    requires OnePerKey(s.leases) && OnePerKey(todo) && forall l :: l in todo ==> l in s.leases
    ensures var t := ExpireLeases(s, todo, index);
            && t.clock == s.clock && OnePerKey(t.leases)
            && forall l :: l in t.leases <==> l in s.leases && !(l in todo && Expired(l, s.clock))
    decreases |todo|
  {
    if todo != [] {
      var first, rest := todo[0], todo[1..];
      assert first in todo && todo == [first] + rest;
      var next := ExpireOne(s, first, index);
      assert ExpireLeases(s, todo, index) == ExpireLeases(next, rest, index);
      hide ExpireLeases, Expired, OnePerKey, ExpireOne;
      ExpiredOne(s, first, index);
      RestIsOnePerKey(todo);
      ExpiresExactly(next, rest, index);
    }
  }

  lemma RestIsOnePerKey(todo: seq<Lease>)
    requires todo != [] && OnePerKey(todo)
    ensures OnePerKey(todo[1..]) && todo[0] !in todo[1..]
  {
  }

  lemma ExpiredAreGone(s: State, index: nat)
    requires OnePerKey(s.leases)
    ensures var t := ExpireLeases(s, s.leases, index); t.clock == s.clock && LeasesLive(t.leases, t.clock)
    ensures forall l :: l in ExpireLeases(s, s.leases, index).leases <==> l in s.leases && !Expired(l, s.clock)
  {
    ExpiresExactly(s, s.leases, index);
    var t := ExpireLeases(s, s.leases, index);
    forall i | 0 <= i < |t.leases| ensures !Expired(t.leases[i], t.clock) {
      assert t.leases[i] in t.leases;
    }
  }

  lemma CommandKeepsLeases(s: State, c: Command, index: nat)
    requires LeasesLive(s.leases, s.clock)
    ensures var t := ApplyCommand(s, c, index); t.clock == s.clock && LeasesLive(t.leases, t.clock)
  {
    hide LeasesLive, ApplyAcquire, ApplyRenew, ApplyCas, ApplyRelease;
    if c.LeaseAcquire? || c.LeaseRenew? {
      HoldingKeepsLeases(s, c, index);
    } else if c.Delete? || c.Cas? || c.LeaseRelease? {
      DroppingKeepsLeases(s, c, index);
    }
  }

  lemma HoldingKeepsLeases(s: State, c: Command, index: nat)
    requires LeasesLive(s.leases, s.clock) && (c.LeaseAcquire? || c.LeaseRenew?)
    ensures var t := ApplyCommand(s, c, index); t.clock == s.clock && LeasesLive(t.leases, t.clock)
  {
    var i := FindLease(s.leases, c.key);
  }

  lemma DropKeepsLive(leases: seq<Lease>, key: Key, clock: nat)
    requires LeasesLive(leases, clock)
    ensures LeasesLive(DropLease(leases, key), clock)
  {
  }

  lemma DroppingKeepsLeases(s: State, c: Command, index: nat)
    requires LeasesLive(s.leases, s.clock) && (c.Delete? || c.Cas? || c.LeaseRelease?)
    ensures var t := ApplyCommand(s, c, index); t.clock == s.clock && LeasesLive(t.leases, t.clock)
  {
    hide LeasesLive, FindLease, DropLease;
    DropKeepsLive(s.leases, c.key, s.clock);
  }

  /** No applied state ever shows a lease past its time, or two leases on one key. */
  lemma {:induction false} LeasesAlwaysLive(log: seq<Entry>)
    ensures LeasesLive(Replay(log).leases, Replay(log).clock)
  {
    if log != [] {
      var before, entry := Replay(log[..|log| - 1]), log[|log| - 1];
      LeasesAlwaysLive(log[..|log| - 1]);
      var timed := before.(clock := if entry.stamp > before.clock then entry.stamp else before.clock);
      ExpiredAreGone(timed, entry.index);
      CommandKeepsLeases(ExpireLeases(timed, timed.leases, entry.index), entry.command, entry.index);
    }
  }

  predicate HeldBy(s: State, key: Key, holder: Holder) {
    var i := FindLease(s.leases, key);
    i < |s.leases| && s.leases[i].holder == holder
  }

  lemma FoundWhereItIs(leases: seq<Lease>, l: Lease)
    requires OnePerKey(leases) && l in leases
    ensures var i := FindLease(leases, l.key); i < |leases| && leases[i] == l
  {
    var j :| 0 <= j < |leases| && leases[j] == l;
  }

  /** Mutual exclusion: a live lease cannot be taken by anyone else, whatever the entry's own stamp says. */
  lemma LeaseIsExclusive(s: State, entry: Entry, key: Key, holder: Holder)
    requires OnePerKey(s.leases) && HeldBy(s, key, holder)
    requires var lease := s.leases[FindLease(s.leases, key)];
             !Expired(lease, if entry.stamp > s.clock then entry.stamp else s.clock)
    requires entry.command.LeaseAcquire? && entry.command.key == key && entry.command.holder != holder
    ensures HeldBy(Apply(s, entry), key, holder)
  {
    var timed := s.(clock := if entry.stamp > s.clock then entry.stamp else s.clock);
    var lease := s.leases[FindLease(s.leases, key)];
    ExpiresExactly(timed, timed.leases, entry.index);
    FoundWhereItIs(ExpireLeases(timed, timed.leases, entry.index).leases, lease);
  }

  // ── how long a lease is held ──────────────────────────────────────────────

  /** Every lease is on a stored key. */
  ghost predicate LeasesStored(s: State) {
    OnePerKey(s.leases) && forall l :: l in s.leases ==> l.key != "" && l.key in s.store
  }

  lemma {:induction false} ExpireStored(s: State, todo: seq<Lease>, index: nat)
    requires LeasesStored(s)
    ensures LeasesStored(ExpireLeases(s, todo, index))
    decreases |todo|
  {
    if todo != [] {
      DropLeaseMembers(s.leases, todo[0].key);
      var next := ExpireOne(s, todo[0], index);
      ExpireStored(next, todo[1..], index);
    }
  }

  lemma PutLeaseMembers(leases: seq<Lease>, lease: Lease)
    requires OnePerKey(leases) && lease.ttl > 0
    ensures OnePerKey(PutLease(leases, lease))
    ensures forall l :: l in PutLease(leases, lease) <==> l == lease || (l in leases && l.key != lease.key)
  {
    var i := FindLease(leases, lease.key);
    var put := PutLease(leases, lease);
    if i < |leases| {
      forall l | l in leases && l.key != lease.key ensures l in put {
        var j :| 0 <= j < |leases| && leases[j] == l;
        assert put[j] == l;
      }
      assert put[i] == lease;
    } else {
      assert put[i] == lease;
      assert forall l :: l in leases ==> l.key != lease.key;
    }
  }

  lemma RemoveStored(s: State, key: Key, index: nat, kind: Kind)
    requires LeasesStored(s)
    ensures LeasesStored(Remove(s, key, index, kind))
  {
    DropLeaseMembers(s.leases, key);
  }

  lemma PutStored(s: State, key: Key, value: Value, index: nat, kind: Kind)
    requires LeasesStored(s)
    ensures LeasesStored(PutRecord(s, key, value, index, kind))
  {
  }

  lemma HoldStored(s: State, c: Command, index: nat)
    requires LeasesStored(s) && (c.LeaseAcquire? || c.LeaseRenew?)
    ensures LeasesStored(ApplyCommand(s, c, index))
  {
    hide FindLease;
    var i := FindLease(s.leases, c.key);
    if c.LeaseAcquire? {
      if c.key != "" && c.acquireTtl > 0 {
        PutLeaseMembers(s.leases, Lease(c.key, c.holder, c.acquireTtl, s.clock + c.acquireTtl));
      }
    } else if i < |s.leases| {
      var _ := RenewIsPut(s, c);
    }
  }

  /** A renewal replaces the lease on its key. */
  lemma RenewIsPut(s: State, c: Command) returns (l: Lease)
    requires LeasesStored(s) && c.LeaseRenew? && FindLease(s.leases, c.key) < |s.leases|
    ensures LeasesStored(ApplyRenew(s, c))
    ensures ApplyRenew(s, c) == s
            || (l.key == c.key && l.holder == c.holder && l.ttl > 0 && ApplyRenew(s, c) == s.(leases := PutLease(s.leases, l))
                && LeaseOn(s.leases, c.key).Some? && LeaseOn(s.leases, c.key).value.holder == c.holder)
  {
    var i := FindLease(s.leases, c.key);
    var lease := s.leases[i];
    assert lease in s.leases;
    l := lease;
    if lease.holder == c.holder {
      var ttl := if c.renewTtl.Some? && c.renewTtl.value > 0 then c.renewTtl.value else lease.ttl;
      l := lease.(ttl := ttl, expiresAt := s.clock + ttl);
      PutLeaseMembers(s.leases, l);
      assert ApplyRenew(s, c) == s.(leases := PutLease(s.leases, l));
    }
  }

  lemma CommandStored(s: State, c: Command, index: nat)
    requires LeasesStored(s)
    ensures LeasesStored(ApplyCommand(s, c, index))
  {
    hide LeasesStored, PutRecord, Remove, FindLease, CasMatches, ApplyAcquire, ApplyRenew;
    match c
    case Set(key, value) => PutStored(s, key, value, index, Put);
    case Delete(key) => RemoveStored(s, key, index, Deleted);
    case Cas(key, _, _, newValue) =>
      RemoveStored(s, key, index, Deleted);
      PutStored(s, key, newValue, index, Put);
    case LeaseRelease(key, _) => RemoveStored(s, key, index, LeaseReleased);
    case LeaseAcquire(_, _, _) => HoldStored(s, c, index);
    case LeaseRenew(_, _, _) => HoldStored(s, c, index);
    case _ => SameStored(s, ApplyCommand(s, c, index));
  }

  lemma SameStored(s: State, t: State)
    requires LeasesStored(s) && t.leases == s.leases && t.store == s.store
    ensures LeasesStored(t)
  {
  }

  lemma {:induction false} LeasesAlwaysStored(log: seq<Entry>)
    ensures LeasesStored(Replay(log))
  {
    if log != [] {
      hide LeasesStored, ExpireLeases, ApplyCommand;
      var n := |log| - 1;
      LeasesAlwaysStored(log[..n]);
      var timed := Timed(Replay(log[..n]), log[n]);
      SameStored(Replay(log[..n]), timed);
      ExpireStored(timed, timed.leases, log[n].index);
      CommandStored(ExpireLeases(timed, timed.leases, log[n].index), log[n].command, log[n].index);
    } else {
      assert LeasesStored(INITIAL);
    }
  }

  function Timed(s: State, entry: Entry): State {
    s.(clock := if entry.stamp > s.clock then entry.stamp else s.clock)
  }

  function LeaseOn(leases: seq<Lease>, key: Key): Option<Lease> {
    var i := FindLease(leases, key);
    if i < |leases| then Some(leases[i]) else None
  }

  lemma LeaseOnIs(leases: seq<Lease>, key: Key)
    requires OnePerKey(leases)
    ensures forall l :: LeaseOn(leases, key) == Some(l) <==> l in leases && l.key == key
  {
    forall l ensures LeaseOn(leases, key) == Some(l) <==> l in leases && l.key == key {
      if l in leases && l.key == key {
        FoundWhereItIs(leases, l);
      }
    }
  }

  /** The lease's time has come by this entry. */
  predicate RunsOut(s: State, entry: Entry, key: Key) {
    var lease := LeaseOn(s.leases, key);
    lease.Some? && Expired(lease.value, Timed(s, entry).clock)
  }

  /** The entry releases the key for its holder, deletes it, or compare-and-swaps it to null. */
  predicate GivesUp(s: State, c: Command, key: Key, holder: Holder) {
    match c
    case Delete(k) => k == key
    case LeaseRelease(k, h) => k == key && h == holder
    case Cas(k, _, _, newValue) => k == key && newValue.None? && CasMatches(s, c)
    case _ => false
  }

  predicate Takes(c: Command, key: Key, holder: Holder) {
    c.LeaseAcquire? && c.key == key && c.holder == holder && c.acquireTtl > 0
  }

  predicate Loses(s: State, entry: Entry, key: Key, holder: Holder) {
    (RunsOut(s, entry, key) || GivesUp(s, entry.command, key, holder)) && !Takes(entry.command, key, holder)
  }

  /** Expiry leaves what is stored on other keys alone. */
  lemma {:induction false} ExpireKeepsRecord(s: State, todo: seq<Lease>, index: nat, key: Key)
    requires forall l :: l in todo && l.key == key ==> !Expired(l, s.clock)
    ensures var t := ExpireLeases(s, todo, index);
            (key in t.store <==> key in s.store) && (key in s.store ==> t.store[key] == s.store[key])
    decreases |todo|
  {
    if todo != [] {
      var next := ExpireOne(s, todo[0], index);
      assert todo[0] in todo && forall l :: l in todo[1..] ==> l in todo;
      ExpireKeepsRecord(next, todo[1..], index, key);
    }
  }

  /** After expiry: the lease on the key is gone, or it is as it was and so is the record. */
  lemma AfterExpiry(s: State, entry: Entry, key: Key)
    requires LeasesStored(s) && LeaseOn(s.leases, key).Some?
    ensures var t := ExpireLeases(Timed(s, entry), s.leases, entry.index);
            && LeasesStored(t)
            && LeaseOn(t.leases, key) == (if RunsOut(s, entry, key) then None else LeaseOn(s.leases, key))
            && (!RunsOut(s, entry, key) ==> key in t.store && t.store[key] == s.store[key])
  {
    var timed := Timed(s, entry);
    var t := ExpireLeases(timed, s.leases, entry.index);
    ExpireStored(timed, s.leases, entry.index);
    ExpiresExactly(timed, s.leases, entry.index);
    LeaseOnIs(s.leases, key);
    var lease := LeaseOn(s.leases, key).value;
    assert LeaseOn(s.leases, key) == Some(lease);
    forall l: Lease | l.key == key ensures l in t.leases <==> !RunsOut(s, entry, key) && l in s.leases {
      assert l in s.leases ==> LeaseOn(s.leases, key) == Some(l);
    }
    SameLeaseOn(s.leases, t.leases, key, !RunsOut(s, entry, key));
    if !RunsOut(s, entry, key) {
      ExpireKeepsRecord(timed, s.leases, entry.index, key);
    }
  }

  lemma HeldAfterDrop(leases: seq<Lease>, dropped: Key, key: Key)
    requires OnePerKey(leases)
    ensures OnePerKey(DropLease(leases, dropped))
    ensures LeaseOn(DropLease(leases, dropped), key) == if dropped == key then None else LeaseOn(leases, key)
  {
    hide DropLease;
    var after := DropLease(leases, dropped);
    DropLeaseMembers(leases, dropped);
    LeaseOnIs(leases, key);
    LeaseOnIs(after, key);
    SameLeaseOn(leases, after, key, dropped != key);
  }

  lemma SameLeaseOn(before: seq<Lease>, after: seq<Lease>, key: Key, kept: bool)
    requires OnePerKey(before) && OnePerKey(after)
    requires forall l: Lease :: l.key == key ==> (l in after <==> kept && l in before)
    ensures LeaseOn(after, key) == if kept then LeaseOn(before, key) else None
  {
    LeaseOnIs(before, key);
    LeaseOnIs(after, key);
    var a, b := LeaseOn(before, key), LeaseOn(after, key);
    assert a.Some? ==> a == Some(a.value);
    assert b.Some? ==> b == Some(b.value);
  }

  lemma HeldAfterPut(leases: seq<Lease>, lease: Lease, key: Key)
    requires OnePerKey(leases) && lease.ttl > 0
    ensures LeaseOn(PutLease(leases, lease), key) == if lease.key == key then Some(lease) else LeaseOn(leases, key)
  {
    hide PutLease;
    PutLeaseMembers(leases, lease);
    var after := PutLease(leases, lease);
    LeaseOnIs(after, key);
    if lease.key != key {
      SameLeaseOn(leases, after, key, true);
    }
  }

  /** What one command, expiry being done with, does to who holds the key. */
  ghost predicate HeldAsSaid(s: State, t: State, c: Command, key: Key, holder: Holder) {
    HeldBy(t, key, holder) <==>
      ((HeldBy(s, key, holder) && !GivesUp(s, c, key, holder))
       || (Takes(c, key, holder) && (LeaseOn(s.leases, key).None? || HeldBy(s, key, holder))))
  }

  lemma DroppingHeld(s: State, c: Command, index: nat, key: Key, holder: Holder)
    requires LeasesStored(s) && key != "" && (c.Delete? || c.Cas? || c.LeaseRelease?)
    ensures HeldAsSaid(s, ApplyCommand(s, c, index), c, key, holder)
  {
    hide DropLease, CasMatches, FindLease;
    HeldAfterDrop(s.leases, c.key, key);
    HeldIsLease(s, key, holder);
    HeldIsLease(ApplyCommand(s, c, index), key, holder);
    LeaseOnIs(s.leases, key);
  }

  lemma HeldIsLease(s: State, key: Key, holder: Holder)
    ensures HeldBy(s, key, holder) <==> LeaseOn(s.leases, key).Some? && LeaseOn(s.leases, key).value.holder == holder
  {
  }

  lemma AcquiringHeld(s: State, c: Command, index: nat, key: Key, holder: Holder)
    requires LeasesStored(s) && key != "" && c.LeaseAcquire?
    ensures HeldAsSaid(s, ApplyCommand(s, c, index), c, key, holder)
  {
    hide PutLease;
    if c.acquireTtl > 0 {
      HeldAfterPut(s.leases, Lease(c.key, c.holder, c.acquireTtl, s.clock + c.acquireTtl), key);
    }
  }

  lemma RenewingHeld(s: State, c: Command, index: nat, key: Key, holder: Holder)
    requires LeasesStored(s) && key != "" && c.LeaseRenew?
    ensures HeldAsSaid(s, ApplyCommand(s, c, index), c, key, holder)
  {
    hide PutLease;
    if FindLease(s.leases, c.key) < |s.leases| {
      var l := RenewIsPut(s, c);
      if ApplyRenew(s, c) != s {
        HeldAfterPut(s.leases, l, key);
      }
    }
  }

  lemma HeldAfterCommand(s: State, c: Command, index: nat, key: Key, holder: Holder)
    requires LeasesStored(s) && key != ""
    ensures HeldAsSaid(s, ApplyCommand(s, c, index), c, key, holder)
  {
    if c.Delete? || c.Cas? || c.LeaseRelease? {
      hide ApplyCommand, HeldAsSaid;
      DroppingHeld(s, c, index, key, holder);
    } else if c.LeaseAcquire? {
      hide ApplyCommand, HeldAsSaid;
      AcquiringHeld(s, c, index, key, holder);
    } else if c.LeaseRenew? {
      hide ApplyCommand, HeldAsSaid;
      RenewingHeld(s, c, index, key, holder);
    }
  }

  /** One entry: its holder keeps the lease exactly when the entry does not lose it. */
  lemma HeldUnlessLost(s: State, entry: Entry, key: Key, holder: Holder)
    requires LeasesStored(s) && HeldBy(s, key, holder)
    ensures HeldBy(Apply(s, entry), key, holder) <==> !Loses(s, entry, key, holder)
  {
    hide ExpireLeases, ApplyCommand, FindLease;
    var t := ExpireLeases(Timed(s, entry), s.leases, entry.index);
    HeldIsLease(s, key, holder);
    KeyOfLease(s, key);
    AfterExpiry(s, entry, key);
    HeldIsLease(t, key, holder);
    HeldAfterCommand(t, entry.command, entry.index, key, holder);
  }

  lemma KeyOfLease(s: State, key: Key)
    requires LeasesStored(s) && LeaseOn(s.leases, key).Some?
    ensures key != "" && key in s.store
  {
    assert LeaseOn(s.leases, key).value in s.leases;
  }

  ghost predicate HeldAt(log: seq<Entry>, i: nat, key: Key, holder: Holder) {
    i <= |log| && HeldBy(Replay(log[..i]), key, holder)
  }

  ghost predicate LosesAt(log: seq<Entry>, i: nat, key: Key, holder: Holder) {
    i < |log| && Loses(Replay(log[..i]), log[i], key, holder)
  }

  lemma HeldNext(log: seq<Entry>, i: nat, key: Key, holder: Holder)
    requires i < |log| && HeldAt(log, i, key, holder)
    ensures HeldAt(log, i + 1, key, holder) <==> !LosesAt(log, i, key, holder)
  {
    hide Apply, Loses;
    LeasesAlwaysStored(log[..i]);
    assert log[..i + 1][..i] == log[..i];
    HeldUnlessLost(Replay(log[..i]), log[i], key, holder);
  }

  /**
   * Leases over logs: from a moment at which a client holds a key, it holds it at every later one exactly as long as
   * no entry finds the lease's time come, or releases, deletes or compare-and-swaps it away, the client's own
   * acquisition apart.
   */
  lemma {:induction false} LeaseIsKept(log: seq<Entry>, k: nat, n: nat, key: Key, holder: Holder)
    requires k <= n <= |log| && HeldAt(log, k, key, holder)
    ensures (forall i: nat :: k <= i <= n ==> HeldAt(log, i, key, holder))
            <==> forall i: nat :: k <= i < n ==> !LosesAt(log, i, key, holder)
    decreases n
  {
    hide HeldAt, LosesAt;
    if k < n {
      LeaseIsKept(log, k, n - 1, key, holder);
      if HeldAt(log, n - 1, key, holder) {
        HeldNext(log, n - 1, key, holder);
      }
    }
  }
}
