/** The keyspace as an object, with its bounded event buffer, and the watch endpoint and client around it. */
module StateMachine {
  import opened KeyspaceModel
  import opened WatchModel

  class StateMachine {
    var store: map<Key, Record>
    var leases: seq<Lease>
    var clock: nat
    var revision: nat
    var indexCreated: bool
    var events: seq<Event>
    ghost var emitted: seq<Event>

    constructor ()
      ensures Valid() && View() == INITIAL
    {
      store, leases, clock, revision, indexCreated, events, emitted := map[], [], 0, 0, false, [], [];
    }

    ghost function View(): State
      reads this
    {
      State(store, leases, clock, revision, indexCreated, emitted)
    }

    /** The buffer is the tail of everything emitted. */
    ghost predicate Valid()
      reads this
    {
      events == Buffered(emitted)
    }

    method EmitEvent(kind: Kind, key: Key, index: nat)
      requires Valid()
      modifies `revision, `events, `emitted
      ensures Valid() && View() == Emit(old(View()), kind, key, index)
    {
      revision := revision + 1;
      var event := Event(kind, key, revision, index);
      events := events + [event];
      if |events| > BUFFER_LIMIT {
        events := events[|events| - BUFFER_LIMIT..];
      }
      emitted := emitted + [event];
    }

    method PutKey(key: Key, value: Value, index: nat, kind: Kind)
      requires Valid()
      modifies this
      ensures Valid() && View() == PutRecord(old(View()), key, value, index, kind)
    {
      var rev := revision + 1;
      var createRev := if key in store then store[key].createRev else rev;
      store := store[key := Record(value, rev, createRev)];
      EmitEvent(kind, key, index);
    }

    method RemoveKey(key: Key, index: nat, kind: Kind) returns (removed: bool)
      requires Valid()
      modifies this
      ensures Valid() && View() == Remove(old(View()), key, index, kind) && removed == (key in old(store))
    {
      if key !in store {
        return false;
      }
      store := store - {key};
      leases := DropLease(leases, key);
      EmitEvent(kind, key, index);
      return true;
    }

    method ExpireLeases(index: nat)
      requires Valid()
      modifies this
      ensures Valid() && View() == KeyspaceModel.ExpireLeases(old(View()), old(leases), index)
    {
      var todo := leases;
      while |todo| > 0
        invariant Valid() && clock == old(clock)
        invariant KeyspaceModel.ExpireLeases(View(), todo, index) == KeyspaceModel.ExpireLeases(old(View()), old(leases), index)
        decreases |todo|
      {
        var lease := todo[0];
        if lease.expiresAt <= clock {
          leases := DropLease(leases, lease.key);
          store := store - {lease.key};
          EmitEvent(LeaseExpired, lease.key, index);
        }
        todo := todo[1..];
      }
    }

    method ApplyCas(c: Command, index: nat)
      requires Valid() && c.Cas?
      modifies this
      ensures Valid() && View() == KeyspaceModel.ApplyCas(old(View()), c, index)
    {
      if c.key == "" {
        return;
      }
      var currentRev := if c.key in store then store[c.key].rev else 0;
      var current := if c.key in store then store[c.key].value else None;
      if c.expectRev.Some? {
        if currentRev != c.expectRev.value {
          return;
        }
      } else if c.expectValue.None? || current != c.expectValue.value {
        return;
      }
      if c.newValue.None? {
        var _ := RemoveKey(c.key, index, Deleted);
      } else {
        PutKey(c.key, c.newValue, index, Put);
      }
    }

    method ApplyLeaseAcquire(c: Command, index: nat)
      requires Valid() && c.LeaseAcquire?
      modifies this
      ensures Valid() && View() == ApplyAcquire(old(View()), c, index)
    {
      if c.key == "" || c.acquireTtl == 0 {
        return;
      }
      var i := FindLease(leases, c.key);
      if i < |leases| && leases[i].holder != c.holder {
        return;
      }
      leases := PutLease(leases, Lease(c.key, c.holder, c.acquireTtl, clock + c.acquireTtl));
      PutKey(c.key, Some(c.holder), index, LeaseGranted);
    }

    method ApplyLeaseRenew(c: Command)
      requires Valid() && c.LeaseRenew?
      modifies `leases
      ensures Valid() && View() == ApplyRenew(old(View()), c)
    {
      var i := FindLease(leases, c.key);
      if i == |leases| || leases[i].holder != c.holder {
        return;
      }
      var extension := if c.renewTtl.Some? && c.renewTtl.value > 0 then c.renewTtl.value else leases[i].ttl;
      leases := leases[i := leases[i].(ttl := extension, expiresAt := clock + extension)];
    }

    method ApplyLeaseRelease(c: Command, index: nat)
      requires Valid() && c.LeaseRelease?
      modifies this
      ensures Valid() && View() == ApplyRelease(old(View()), c, index)
    {
      var i := FindLease(leases, c.key);
      if i < |leases| && leases[i].holder == c.holder {
        var _ := RemoveKey(c.key, index, LeaseReleased);
      }
    }

    method ApplyOp(c: Command, index: nat)
      requires Valid()
      modifies this
      ensures Valid() && View() == ApplyCommand(old(View()), c, index)
    {
      match c {
        case Tick =>
        case Set(key, value) =>
          if key != "" {
            PutKey(key, value, index, Put);
          }
        case Delete(key) =>
          if key != "" {
            var _ := RemoveKey(key, index, Deleted);
          }
        case Cas(_, _, _, _) => ApplyCas(c, index);
        case LeaseAcquire(_, _, _) => ApplyLeaseAcquire(c, index);
        case LeaseRenew(_, _, _) => ApplyLeaseRenew(c);
        case LeaseRelease(_, _) => ApplyLeaseRelease(c, index);
        case Announce(key) => EmitEvent(Subject, key, index);
        case CreateIndex =>
          if !indexCreated {
            indexCreated := true;
            revision := revision + 1;
          }
      }
    }

    /** Applies one committed entry; time first, then leases, then the command. */
    method ApplyEntry(entry: Entry)
      requires Valid()
      modifies this
      ensures Valid() && View() == Apply(old(View()), entry)
    {
      if entry.stamp > clock {
        clock := entry.stamp;
      }
      ExpireLeases(entry.index);
      ApplyOp(entry.command, entry.index);
    }

    method EventsSince(fromRev: nat, prefix: Key) returns (selected: seq<Event>)
      requires Valid()
      ensures selected == Select(Buffered(emitted), prefix, fromRev)
    {
      selected := [];
      var n := 0;
      while n < |events|
        invariant n <= |events| && selected == Select(events[..n], prefix, fromRev)
      {
        assert events[..n + 1][..n] == events[..n];
        if events[n].rev > fromRev && prefix <= events[n].key {
          selected := selected + [events[n]];
        }
        n := n + 1;
      }
      assert events[..n] == events;
    }
  }

  // ── the watch endpoint ────────────────────────────────────────────────────

  /** Waiting requests of one replica, and the responses it has settled. */
  class WatchServer {
    var waiters: set<Waiter>
    var replies: map<nat, seq<Event>>

    /** Catches up from the buffer, or waits. */
    method Watch(machine: StateMachine, id: nat, prefix: Key, fromRev: nat)
      requires machine.Valid()
      modifies this
      ensures var backlog := Select(Buffered(machine.emitted), prefix, fromRev);
              if backlog != [] then waiters == old(waiters) && replies == old(replies)[id := backlog]
              else waiters == old(waiters) + {Waiter(id, prefix, fromRev)} && replies == old(replies)
    {
      var backlog := machine.EventsSince(fromRev, prefix);
      if |backlog| > 0 {
        replies := replies[id := backlog];
      } else {
        waiters := waiters + {Waiter(id, prefix, fromRev)};
      }
    }

    /** One event as it is applied: wakes whom it concerns, and only if they have not seen it. */
    method OnEvent(event: Event)
      requires UniqueIds(waiters)
      modifies this
      ensures waiters == old(waiters) - Woken(old(waiters), [event])
      ensures replies == old(replies) + Answers(old(waiters), [event])
    {
      var remaining, answers := WakeAll(waiters, event);
      waiters, replies := remaining, replies + answers;
    }

    /** Everything one applied entry emitted, in order: a waiter is answered with its first event only. */
    method OnEvents(events: seq<Event>)
      requires UniqueIds(waiters)
      modifies this
      ensures waiters == old(waiters) - Woken(old(waiters), events)
      ensures replies == old(replies) + Answers(old(waiters), events)
    {
      hide Answers, Woken;
      ghost var all, before := waiters, replies;
      NoEvents(all);
      var n := 0;
      while n < |events|
        invariant n <= |events| && UniqueIds(all) && UniqueIds(waiters)
        invariant waiters == all - Woken(all, events[..n]) && replies == before + Answers(all, events[..n])
      {
        OneMoreEvent(all, events[..n], events[n]);
        assert events[..n + 1] == events[..n] + [events[n]];
        OnEvent(events[n]);
        n := n + 1;
      }
      assert events[..n] == events;
    }
  }

  lemma NoEvents(all: set<Waiter>)
    requires UniqueIds(all)
    ensures Woken(all, []) == {} && Answers(all, []) == map[]
  {
    assert Woken(all, []) == {};
  }

  lemma OneMoreEvent(all: set<Waiter>, events: seq<Event>, e: Event)
    requires UniqueIds(all)
    ensures var rest := all - Woken(all, events);
            && UniqueIds(rest)
            && all - Woken(all, events + [e]) == rest - Woken(rest, [e])
            && Answers(all, events + [e]) == Answers(all, events) + Answers(rest, [e])
  {
    var rest := all - Woken(all, events);
    forall w | w in all ensures Wakers(w, events + [e]) == Wakers(w, events) + Wakers(w, [e]) {
      SelectConcat(events, [e], w.prefix, w.fromRev);
    }
    var early, late, both := Woken(all, events), Woken(rest, [e]), Woken(all, events + [e]);
    assert both == early + late;
  }

  method WakeAll(all: set<Waiter>, event: Event) returns (remaining: set<Waiter>, answers: map<nat, seq<Event>>)
    requires UniqueIds(all)
    ensures remaining == all - Woken(all, [event]) && answers == Answers(all, [event])
  {
    var woken: set<Waiter> := {};
    answers := map[];
    var todo := all;
    while todo != {}
      invariant todo <= all && UniqueIds(all - todo)
      invariant woken == Woken(all - todo, [event]) && answers == Answers(all - todo, [event])
      decreases |todo|
    {
      hide Answers, Woken, UniqueIds;
      var waiter :| waiter in todo;
      AnswersMore(all, todo, waiter, event);
      if waiter.prefix <= event.key && event.rev > waiter.fromRev {
        woken := woken + {waiter};
        answers := answers[waiter.id := [event]];
      }
      todo := todo - {waiter};
    }
    assert all - todo == all;
    remaining := all - woken;
  }

  lemma WakersOfOne(w: Waiter, event: Event)
    ensures Wakers(w, [event]) == if Matches(event, w.prefix, w.fromRev) then [event] else []
  {
    assert [event][..0] == [] && Select([], w.prefix, w.fromRev) == [];
  }

  lemma AnswersMore(all: set<Waiter>, todo: set<Waiter>, w: Waiter, event: Event)
    requires UniqueIds(all) && w in todo && todo <= all
    ensures UniqueIds(all - (todo - {w})) && UniqueIds(all - todo)
    ensures var woken := Matches(event, w.prefix, w.fromRev);
            && Woken(all - (todo - {w}), [event]) == Woken(all - todo, [event]) + (if woken then {w} else {})
            && Answers(all - (todo - {w}), [event]) == if woken then Answers(all - todo, [event])[w.id := [event]] else Answers(all - todo, [event])
  {
    hide Wakers;
    WakersOfOne(w, event);
    var less, more := Woken(all - todo, [event]), Woken(all - (todo - {w}), [event]);
    assert more == if Matches(event, w.prefix, w.fromRev) then less + {w} else less;
  }

  // ── the client ────────────────────────────────────────────────────────────

  class WatchClient {
    var cursor: nat
    var handed: seq<Event>

    /** Hands a response's events on; `fails` is where the callback throws, if it does. */
    method HandleResponse(events: seq<Event>, fails: Option<nat>) returns (count: nat)
      modifies this
      ensures count == (if fails.Some? && fails.value < |events| then fails.value + 1 else |events|)
      ensures HandEvents(Client(old(cursor), old(handed), None), events[..count]) == Client(cursor, handed, None)
    {
      count := 0;
      ghost var start := Client(cursor, handed, None);
      while count < |events|
        invariant count <= |events| && (fails.Some? ==> count <= fails.value)
        invariant HandEvents(start, events[..count]) == Client(cursor, handed, None)
      {
        var event := events[count];
        HandOneMore(start, events[..count], event);
        assert events[..count + 1] == events[..count] + [event];
        cursor := if event.rev > cursor then event.rev else cursor;
        handed := handed + [event];
        count := count + 1;
        if fails == Some(count - 1) {
          return;
        }
      }
    }
  }

  lemma {:induction false} HandOneMore(c: Client, events: seq<Event>, e: Event)
    ensures var d := HandEvents(c, events);
            HandEvents(c, events + [e]) == d.(cursor := if e.rev > d.cursor then e.rev else d.cursor, handed := d.handed + [e])
    decreases |events|
  {
    if events == [] {
      assert [e][1..] == [];
      assert events + [e] == [e];
    } else {
      var first := events[0];
      var next := c.(cursor := if first.rev > c.cursor then first.rev else c.cursor, handed := c.handed + [first]);
      HandOneMore(next, events[1..], e);
      assert (events + [e])[1..] == events[1..] + [e];
    }
  }
}
