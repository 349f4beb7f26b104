/**
 * Resumable watches: a client long-polls replicas that have applied different prefixes of one log,
 * through timeouts, lost responses, restarts and switches between replicas.
 */
module WatchModel {
  import opened KeyspaceModel

  /** How many events a replica keeps for watchers that come back. */
  const BUFFER_LIMIT := 1024

  function Buffered(emitted: seq<Event>): seq<Event> {
    if |emitted| <= BUFFER_LIMIT then emitted else emitted[|emitted| - BUFFER_LIMIT..]
  }

  function Dropped(emitted: seq<Event>): seq<Event> {
    if |emitted| <= BUFFER_LIMIT then [] else emitted[..|emitted| - BUFFER_LIMIT]
  }

  predicate Matches(e: Event, prefix: Key, fromRev: nat) {
    e.rev > fromRev && prefix <= e.key
  }

  function Select(events: seq<Event>, prefix: Key, fromRev: nat): seq<Event> {
    if events == [] then []
    else
      var n := |events| - 1;
      Select(events[..n], prefix, fromRev) + (if Matches(events[n], prefix, fromRev) then [events[n]] else [])
  }

  lemma {:induction false} Selected(events: seq<Event>, prefix: Key, fromRev: nat)
    ensures forall e :: e in Select(events, prefix, fromRev) <==> e in events && Matches(e, prefix, fromRev)
  {
    if events != [] {
      var n := |events| - 1;
      Selected(events[..n], prefix, fromRev);
      assert events == events[..n] + [events[n]];
    }
  }

  // ── selecting from a stream ───────────────────────────────────────────────

  function Tail(e: Event, prefix: Key, fromRev: nat): seq<Event> {
    if Matches(e, prefix, fromRev) then [e] else []
  }

  lemma SelectOneMore(events: seq<Event>, e: Event, prefix: Key, fromRev: nat)
    ensures Select(events + [e], prefix, fromRev) == Select(events, prefix, fromRev) + Tail(e, prefix, fromRev)
  {
    assert (events + [e])[..|events|] == events;
  }

  lemma Regroup(a: seq<Event>, b: seq<Event>, c: seq<Event>)
    ensures a + (b + c) == a + b + c
  {
  }

  lemma {:induction false} SelectConcat(a: seq<Event>, b: seq<Event>, prefix: Key, fromRev: nat)
    ensures Select(a + b, prefix, fromRev) == Select(a, prefix, fromRev) + Select(b, prefix, fromRev)
  {
    if b == [] {
      assert a + b == a;
    } else {
      hide Select, Tail;
      var before, last := b[..|b| - 1], b[|b| - 1];
      SelectConcat(a, before, prefix, fromRev);
      SelectOneMore(before, last, prefix, fromRev);
      SelectOneMore(a + before, last, prefix, fromRev);
      Regroup(a, before, [last]);
      Regroup(Select(a, prefix, fromRev), Select(before, prefix, fromRev), Tail(last, prefix, fromRev));
      assert b == before + [last];
    }
  }

  lemma SelectPrefix(a: seq<Event>, b: seq<Event>, prefix: Key, fromRev: nat)
    requires a <= b
    ensures Select(a, prefix, fromRev) <= Select(b, prefix, fromRev)
  {
    assert b == a + b[|a|..];
    SelectConcat(a, b[|a|..], prefix, fromRev);
  }

  /** The buffer answers a watcher in full exactly when nothing the watcher still needs has left it. */
  lemma BufferSuffices(emitted: seq<Event>, prefix: Key, fromRev: nat)
    ensures Select(Buffered(emitted), prefix, fromRev) == Select(emitted, prefix, fromRev)
            <==> forall e :: e in Dropped(emitted) ==> !Matches(e, prefix, fromRev)
  {
    assert emitted == Dropped(emitted) + Buffered(emitted);
    SelectConcat(Dropped(emitted), Buffered(emitted), prefix, fromRev);
    var lost := Select(Dropped(emitted), prefix, fromRev);
    Selected(Dropped(emitted), prefix, fromRev);
    assert lost == [] || lost[0] in lost;
    if e :| e in Dropped(emitted) && Matches(e, prefix, fromRev) {
      assert e in lost;
    }
  }

  ghost predicate Increasing(events: seq<Event>) {
    forall i, j :: 0 <= i < j < |events| ==> events[i].rev < events[j].rev
  }

  lemma {:induction false} SelectRaised(events: seq<Event>, prefix: Key, fromRev: nat, cursor: nat)
    requires fromRev <= cursor && forall i :: 0 <= i < |events| && Matches(events[i], prefix, fromRev) ==> events[i].rev > cursor
    ensures Select(events, prefix, cursor) == Select(events, prefix, fromRev)
  {
    if events != [] {
      SelectRaised(events[..|events| - 1], prefix, fromRev, cursor);
    }
  }

  lemma {:induction false} SelectNothing(events: seq<Event>, prefix: Key, cursor: nat)
    requires forall i :: 0 <= i < |events| ==> !Matches(events[i], prefix, cursor)
    ensures Select(events, prefix, cursor) == []
  {
    if events != [] {
      SelectNothing(events[..|events| - 1], prefix, cursor);
    }
  }

  /** Nothing in an increasing stream comes after its last event. */
  lemma NothingAfterLast(events: seq<Event>, prefix: Key)
    requires Increasing(events) && events != []
    ensures Select(events, prefix, events[|events| - 1].rev) == []
  {
    var last := events[|events| - 1].rev;
    forall i | 0 <= i < |events| ensures !Matches(events[i], prefix, last) {
      assert events[i].rev <= last;
    }
    SelectNothing(events, prefix, last);
  }

  lemma SelectLast(events: seq<Event>, prefix: Key, fromRev: nat)
    requires events != []
    ensures Select(events, prefix, fromRev) == Select(events[..|events| - 1], prefix, fromRev) + Tail(events[|events| - 1], prefix, fromRev)
  {
  }

  /** Where a selected event stands in the stream. */
  lemma SelectedBefore(events: seq<Event>, prefix: Key, fromRev: nat, k: nat)
    requires Increasing(events) && events != []
    requires var earlier := Select(events[..|events| - 1], prefix, fromRev); 0 < k <= |earlier|
    ensures Select(events[..|events| - 1], prefix, fromRev)[k - 1].rev < events[|events| - 1].rev
  {
    var before := events[..|events| - 1];
    Selected(before, prefix, fromRev);
    var e := Select(before, prefix, fromRev)[k - 1];
    assert e in Select(before, prefix, fromRev);
    var i :| 0 <= i < |before| && events[i] == e;
  }

  /** In an increasing stream, taking the first k selected events and moving the cursor to the last of them loses nothing. */
  lemma {:induction false} CursorSplits(events: seq<Event>, prefix: Key, fromRev: nat, k: nat)
    requires Increasing(events) && 0 < k <= |Select(events, prefix, fromRev)|
    ensures var selected := Select(events, prefix, fromRev);
            var cursor := selected[k - 1].rev;
            cursor > fromRev && selected == selected[..k] + Select(events, prefix, cursor)
  {
    hide Select, Increasing;
    var n := |events| - 1;
    NotEmpty(events, prefix, fromRev);
    var last, before := events[n], events[..n];
    var earlier := Select(before, prefix, fromRev);
    SelectLast(events, prefix, fromRev);
    if k <= |earlier| {
      var cursor := earlier[k - 1].rev;
      IncreasingPrefix(events);
      CursorSplits(before, prefix, fromRev, k);
      SelectLast(events, prefix, cursor);
      SelectedBefore(events, prefix, fromRev, k);
      assert Select(events, prefix, fromRev)[..k] == earlier[..k];
    } else {
      NothingAfterLast(events, prefix);
    }
  }

  lemma NotEmpty(events: seq<Event>, prefix: Key, fromRev: nat)
    requires Select(events, prefix, fromRev) != []
    ensures events != []
  {
  }

  lemma IncreasingPrefix(events: seq<Event>)
    requires Increasing(events) && events != []
    ensures Increasing(events[..|events| - 1])
  {
  }

  // ── the world ─────────────────────────────────────────────────────────────

  datatype Waiter = Waiter(id: nat, prefix: Key, fromRev: nat)

  datatype Replica = Replica(applied: nat, waiters: set<Waiter>)

  datatype Client = Client(cursor: nat, handed: seq<Event>, asking: Option<nat>)

  /** `replies` are responses a replica has produced; they may never arrive. */
  datatype World = World(log: seq<Entry>, replicas: map<nat, Replica>, client: Client, replies: map<nat, seq<Event>>, ticket: nat)

  datatype Action =
    | Commit(entry: Entry)
    | ApplyNext(replica: nat)
    | Restart(replica: nat, applied: nat)
    | Ask(replica: nat)
    | WaiterTimeout(replica: nat, waiter: Waiter)
    | Hand(count: nat)
    | GiveUp

  function EmittedBy(log: seq<Entry>, applied: nat): seq<Event>
    requires applied <= |log|
  {
    Replay(log[..applied]).emitted
  }

  /** What the next entry makes a replica emit. */
  function NewEvents(log: seq<Entry>, applied: nat): seq<Event>
    requires applied < |log|
  {
    var before, after := EmittedBy(log, applied), EmittedBy(log, applied + 1);
    if |before| <= |after| then after[|before|..] else []
  }

  /** The events among `events` that would wake the waiter. */
  function Wakers(w: Waiter, events: seq<Event>): seq<Event> {
    Select(events, w.prefix, w.fromRev)
  }

  function Woken(waiters: set<Waiter>, events: seq<Event>): set<Waiter> {
    set w | w in waiters && Wakers(w, events) != []
  }

  predicate UniqueIds(waiters: set<Waiter>) {
    forall v, w :: v in waiters && w in waiters && v.id == w.id ==> v == w
  }

  /** Every woken waiter is answered with its first event alone. */
  function Answers(waiters: set<Waiter>, events: seq<Event>): map<nat, seq<Event>>
    requires UniqueIds(waiters)
  {
    var woken := Woken(waiters, events);
    map w | w in woken :: w.id := [Wakers(w, events)[0]]
  }

  predicate CanStep(w: World, prefix: Key, a: Action) {
    match a
    case Commit(_) => true
    case ApplyNext(r) => r in w.replicas && w.replicas[r].applied < |w.log| && UniqueIds(w.replicas[r].waiters)
    case Restart(r, applied) => r in w.replicas && applied <= |w.log|
    case Ask(r) => r in w.replicas && w.replicas[r].applied <= |w.log| && w.client.asking.None?
    case WaiterTimeout(r, waiter) => r in w.replicas && waiter in w.replicas[r].waiters
    case Hand(count) => w.client.asking.Some? && w.client.asking.value in w.replies && count <= |w.replies[w.client.asking.value]|
    case GiveUp => w.client.asking.Some?
  }

  function Step(w: World, prefix: Key, a: Action): World
    requires CanStep(w, prefix, a)
  {
    match a
    case Commit(entry) => w.(log := w.log + [entry])
    case ApplyNext(r) =>
      var replica := w.replicas[r];
      var events := NewEvents(w.log, replica.applied);
      w.(replicas := w.replicas[r := Replica(replica.applied + 1, replica.waiters - Woken(replica.waiters, events))],
         replies := w.replies + Answers(replica.waiters, events))
    case Restart(r, applied) => w.(replicas := w.replicas[r := Replica(applied, {})])
    case Ask(r) =>
      var replica := w.replicas[r];
      var backlog := Select(Buffered(EmittedBy(w.log, replica.applied)), prefix, w.client.cursor);
      var asked := w.(client := w.client.(asking := Some(w.ticket)), ticket := w.ticket + 1);
      if backlog != [] then asked.(replies := w.replies[w.ticket := backlog])
      else asked.(replicas := w.replicas[r := replica.(waiters := replica.waiters + {Waiter(w.ticket, prefix, w.client.cursor)})])
    case WaiterTimeout(r, waiter) =>
      w.(replicas := w.replicas[r := w.replicas[r].(waiters := w.replicas[r].waiters - {waiter})], replies := w.replies[waiter.id := []])
    case Hand(count) =>
      var events := w.replies[w.client.asking.value];
      w.(client := HandEvents(w.client, events[..count]).(asking := None))
    case GiveUp => w.(client := w.client.(asking := None))
  }

  /** The loop over a response: the cursor moves to each event as it is handed on. */
  function HandEvents(c: Client, events: seq<Event>): Client
    decreases |events|
  {
    if events == [] then c
    else
      var e := events[0];
      HandEvents(c.(cursor := if e.rev > c.cursor then e.rev else c.cursor, handed := c.handed + [e]), events[1..])
  }

  /** The replica being asked still has every event the client has not seen. */
  ghost predicate BufferReaches(w: World, prefix: Key, a: Action)
    requires CanStep(w, prefix, a)
  {
    a.Ask? ==> forall e :: e in Dropped(EmittedBy(w.log, w.replicas[a.replica].applied)) ==> !Matches(e, prefix, w.client.cursor)
  }

  // ── the invariant ─────────────────────────────────────────────────────────

  function Stream(w: World): seq<Event> {
    Replay(w.log).emitted
  }

  /** What has been handed on, followed by what the cursor still asks for, is the whole filtered stream. */
  ghost predicate CursorOk(w: World, prefix: Key, fromRev: nat) {
    && fromRev <= w.client.cursor && (w.client.cursor == fromRev || w.client.cursor <= Replay(w.log).revision)
    && Select(Stream(w), prefix, fromRev) == w.client.handed + Select(Stream(w), prefix, w.client.cursor)
  }

  /** The response the client is waiting for, if there is one, starts where the cursor is. */
  ghost predicate ReplyOk(w: World, prefix: Key) {
    w.client.asking.Some? && w.client.asking.value in w.replies ==>
      w.replies[w.client.asking.value] <= Select(Stream(w), prefix, w.client.cursor)
  }

  /** A waiter the client is waiting on sits at a replica that has emitted nothing beyond the cursor yet. */
  ghost predicate WaiterOk(w: World, prefix: Key, replica: Replica, waiter: Waiter)
    requires replica.applied <= |w.log|
  {
    && waiter.id < w.ticket
    && (w.client.asking == Some(waiter.id) ==>
          && waiter.prefix == prefix && waiter.fromRev == w.client.cursor && waiter.id !in w.replies
          && Select(EmittedBy(w.log, replica.applied), prefix, w.client.cursor) == [])
  }

  ghost predicate ReplicaOk(w: World, prefix: Key, replica: Replica) {
    && replica.applied <= |w.log| && UniqueIds(replica.waiters)
    && forall waiter :: waiter in replica.waiters ==> WaiterOk(w, prefix, replica, waiter)
  }

  ghost predicate ReplicasOk(w: World, prefix: Key) {
    forall r :: r in w.replicas ==> ReplicaOk(w, prefix, w.replicas[r])
  }

  /** One request is at one place. */
  ghost predicate OneWaiter(w: World) {
    forall r, q, v, u :: r in w.replicas && q in w.replicas && v in w.replicas[r].waiters && u in w.replicas[q].waiters && v.id == u.id ==> r == q
  }

  ghost predicate WorldOk(w: World, prefix: Key, fromRev: nat) {
    && CursorOk(w, prefix, fromRev) && ReplyOk(w, prefix) && ReplicasOk(w, prefix) && OneWaiter(w)
    && (w.client.asking.Some? ==> w.client.asking.value < w.ticket)
    && forall id :: id in w.replies ==> id < w.ticket
  }
}
