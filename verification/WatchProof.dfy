/** Whatever happens to its requests, a watcher is handed the filtered event stream without gap, duplicate or reordering. */
module WatchProof {
  import opened KeyspaceModel
  import opened WatchModel

  lemma StreamOkAt(log: seq<Entry>)
    ensures Increasing(Replay(log).emitted) && StreamOk(Replay(log))
  {
    StreamsArePrefixes(log, 0);
  }

  lemma EmittedGrows(log: seq<Entry>, k: nat, j: nat)
    requires k <= j <= |log|
    ensures EmittedBy(log, k) <= EmittedBy(log, j) <= Replay(log).emitted
  {
    hide Replay, StreamOk;
    assert log[..j][..k] == log[..k];
    StreamsArePrefixes(log[..j], k);
    StreamsArePrefixes(log, j);
  }

  // ── the log grows ─────────────────────────────────────────────────────────

  lemma CommitExtends(log: seq<Entry>, entry: Entry) returns (more: seq<Event>)
    ensures Replay(log + [entry]).emitted == Replay(log).emitted + more && Replay(log).revision <= Replay(log + [entry]).revision
    ensures forall i :: 0 <= i < |more| ==> more[i].rev > Replay(log).revision
  {
    var s, t := Replay(log), Replay(log + [entry]);
    assert (log + [entry])[..|log|] == log;
    StreamOkAt(log);
    ApplyContinues(s, entry);
    more := t.emitted[|s.emitted|..];
    NewRevisions(s, entry);
  }

  /** What an entry emits carries revisions beyond everything before it. */
  lemma NewRevisions(s: State, entry: Entry)
    requires StreamOk(s)
    ensures s.emitted <= Apply(s, entry).emitted
    ensures forall i :: |s.emitted| <= i < |Apply(s, entry).emitted| ==> Apply(s, entry).emitted[i].rev > s.revision
  {
    var timed := s.(clock := if entry.stamp > s.clock then entry.stamp else s.clock);
    ExpireRevisions(timed, timed.leases, entry.index);
    ExpireContinues(timed, timed.leases, entry.index);
    CommandRevisions(ExpireLeases(timed, timed.leases, entry.index), entry.command, entry.index);
  }

  ghost predicate EmitsAbove(s: State, t: State) {
    && s.emitted <= t.emitted && s.revision <= t.revision
    && forall i :: |s.emitted| <= i < |t.emitted| ==> t.emitted[i].rev > s.revision
  }

  lemma {:induction false} ExpireRevisions(s: State, leases: seq<Lease>, index: nat)
    ensures EmitsAbove(s, ExpireLeases(s, leases, index))
    decreases |leases|
  {
    if leases != [] {
      var next := ExpireOne(s, leases[0], index);
      ExpireRevisions(next, leases[1..], index);
    }
  }

  lemma CommandRevisions(s: State, c: Command, index: nat)
    ensures EmitsAbove(s, ApplyCommand(s, c, index))
  {
  }

  lemma CommitKeeps(w: World, prefix: Key, fromRev: nat, entry: Entry)
    requires WorldOk(w, prefix, fromRev)
    ensures WorldOk(Step(w, prefix, Commit(entry)), prefix, fromRev)
  {
    hide Replay, Select, ReplyOk, ReplicasOk, CursorOk;
    var more := CommitExtends(w.log, entry);
    CommitCursor(w, prefix, fromRev, entry, more);
    CommitReplicas(w, prefix, fromRev, entry);
    CommitReply(w, prefix, entry, more);
  }

  lemma CommitCursor(w: World, prefix: Key, fromRev: nat, entry: Entry, more: seq<Event>)
    requires CursorOk(w, prefix, fromRev)
    requires Replay(w.log + [entry]).emitted == Stream(w) + more && Replay(w.log).revision <= Replay(w.log + [entry]).revision
    requires forall i :: 0 <= i < |more| ==> more[i].rev > Replay(w.log).revision
    ensures CursorOk(Step(w, prefix, Commit(entry)), prefix, fromRev)
  {
    hide Replay, Select;
    var cursor := w.client.cursor;
    SelectConcat(Stream(w), more, prefix, fromRev);
    SelectConcat(Stream(w), more, prefix, cursor);
    if cursor != fromRev {
      SelectRaised(more, prefix, fromRev, cursor);
    }
  }

  lemma CommitReply(w: World, prefix: Key, entry: Entry, more: seq<Event>)
    requires ReplyOk(w, prefix) && Replay(w.log + [entry]).emitted == Stream(w) + more
    ensures ReplyOk(Step(w, prefix, Commit(entry)), prefix)
  {
    hide Replay, Select;
    SelectConcat(Stream(w), more, prefix, w.client.cursor);
  }

  lemma CommitReplicas(w: World, prefix: Key, fromRev: nat, entry: Entry)
    requires ReplicasOk(w, prefix)
    ensures ReplicasOk(Step(w, prefix, Commit(entry)), prefix)
  {
    hide Replay, Select;
    var w' := Step(w, prefix, Commit(entry));
    forall r | r in w'.replicas ensures ReplicaOk(w', prefix, w'.replicas[r]) {
      assert ReplicaOk(w, prefix, w.replicas[r]);
      assert w'.log[..w.replicas[r].applied] == w.log[..w.replicas[r].applied];
      forall waiter | waiter in w'.replicas[r].waiters ensures WaiterOk(w', prefix, w'.replicas[r], waiter) {
        assert WaiterOk(w, prefix, w.replicas[r], waiter);
      }
    }
  }

  // ── a replica applies an entry ────────────────────────────────────────────

  lemma AnswerFor(waiters: set<Waiter>, events: seq<Event>, waiter: Waiter)
    requires UniqueIds(waiters) && waiter in waiters
    ensures waiter.id in Answers(waiters, events) <==> Wakers(waiter, events) != []
    ensures Wakers(waiter, events) != [] ==> Answers(waiters, events)[waiter.id] == [Wakers(waiter, events)[0]]
  {
    if Wakers(waiter, events) != [] {
      assert waiter in Woken(waiters, events);
    }
  }

  lemma AnsweredIds(waiters: set<Waiter>, events: seq<Event>, id: nat)
    requires UniqueIds(waiters) && id in Answers(waiters, events)
    ensures exists waiter :: waiter in waiters && waiter.id == id
  {
    var woken := Woken(waiters, events);
    var ids := set w | w in woken :: w.id;
    assert Answers(waiters, events).Keys == ids;
    assert id in ids;
  }

  lemma AppliedStream(w: World, prefix: Key, r: nat)
    requires r in w.replicas && w.replicas[r].applied < |w.log|
    ensures var applied, cursor := w.replicas[r].applied, w.client.cursor;
            && Select(EmittedBy(w.log, applied + 1), prefix, cursor)
               == Select(EmittedBy(w.log, applied), prefix, cursor) + Select(NewEvents(w.log, applied), prefix, cursor)
            && Select(EmittedBy(w.log, applied + 1), prefix, cursor) <= Select(Stream(w), prefix, cursor)
  {
    var applied, cursor := w.replicas[r].applied, w.client.cursor;
    EmittedGrows(w.log, applied, applied + 1);
    assert EmittedBy(w.log, applied + 1) == EmittedBy(w.log, applied) + NewEvents(w.log, applied);
    SelectConcat(EmittedBy(w.log, applied), NewEvents(w.log, applied), prefix, cursor);
    SelectPrefix(EmittedBy(w.log, applied + 1), Stream(w), prefix, cursor);
  }

  lemma ApplyReply(w: World, prefix: Key, fromRev: nat, r: nat)
    requires WorldOk(w, prefix, fromRev) && CanStep(w, prefix, ApplyNext(r))
    ensures ReplyOk(Step(w, prefix, ApplyNext(r)), prefix)
  {
    hide Replay, CursorOk, Answers;
    var replica := w.replicas[r];
    var events := NewEvents(w.log, replica.applied);
    AppliedStream(w, prefix, r);
    if w.client.asking.Some? && w.client.asking.value in Answers(replica.waiters, events) {
      AnsweredIds(replica.waiters, events, w.client.asking.value);
      var waiter :| waiter in replica.waiters && waiter.id == w.client.asking.value;
      assert ReplicaOk(w, prefix, replica) && WaiterOk(w, prefix, replica, waiter);
      AnswerFor(replica.waiters, events, waiter);
    }
  }

  lemma ApplyReplicas(w: World, prefix: Key, fromRev: nat, r: nat)
    requires WorldOk(w, prefix, fromRev) && CanStep(w, prefix, ApplyNext(r))
    ensures ReplicasOk(Step(w, prefix, ApplyNext(r)), prefix)
  {
    hide Replay, CursorOk, Answers;
    var w' := Step(w, prefix, ApplyNext(r));
    var replica := w.replicas[r];
    var events := NewEvents(w.log, replica.applied);
    AppliedStream(w, prefix, r);
    forall q | q in w'.replicas ensures ReplicaOk(w', prefix, w'.replicas[q]) {
      assert ReplicaOk(w, prefix, w.replicas[q]);
      forall waiter | waiter in w'.replicas[q].waiters ensures WaiterOk(w', prefix, w'.replicas[q], waiter) {
        assert WaiterOk(w, prefix, w.replicas[q], waiter);
        if waiter.id in Answers(replica.waiters, events) {
          AnsweredIds(replica.waiters, events, waiter.id);
          var answered :| answered in replica.waiters && answered.id == waiter.id;
          assert q == r;
          AnswerFor(replica.waiters, events, waiter);
        }
      }
    }
  }

  lemma ApplyKeeps(w: World, prefix: Key, fromRev: nat, r: nat)
    requires WorldOk(w, prefix, fromRev) && CanStep(w, prefix, ApplyNext(r))
    ensures WorldOk(Step(w, prefix, ApplyNext(r)), prefix, fromRev)
  {
    hide Replay, Select, ReplicasOk, ReplyOk;
    ApplyReply(w, prefix, fromRev, r);
    ApplyReplicas(w, prefix, fromRev, r);
    ApplyIds(w, prefix, fromRev, r);
  }

  lemma ApplyIds(w: World, prefix: Key, fromRev: nat, r: nat)
    requires WorldOk(w, prefix, fromRev) && CanStep(w, prefix, ApplyNext(r))
    ensures forall id :: id in Step(w, prefix, ApplyNext(r)).replies ==> id < w.ticket
  {
    hide Replay, Select, CursorOk, ReplyOk, Answers;
    var replica := w.replicas[r];
    var events := NewEvents(w.log, replica.applied);
    forall id | id in Answers(replica.waiters, events) ensures id < w.ticket {
      AnsweredIds(replica.waiters, events, id);
      var waiter :| waiter in replica.waiters && waiter.id == id;
      assert ReplicaOk(w, prefix, replica) && WaiterOk(w, prefix, replica, waiter);
    }
  }

  // ── requests ──────────────────────────────────────────────────────────────

  lemma AskReply(w: World, prefix: Key, fromRev: nat, r: nat)
    requires WorldOk(w, prefix, fromRev) && CanStep(w, prefix, Ask(r)) && BufferReaches(w, prefix, Ask(r))
    ensures var emitted := EmittedBy(w.log, w.replicas[r].applied);
            && Select(Buffered(emitted), prefix, w.client.cursor) == Select(emitted, prefix, w.client.cursor)
            && Select(emitted, prefix, w.client.cursor) <= Select(Stream(w), prefix, w.client.cursor)
  {
    var emitted := EmittedBy(w.log, w.replicas[r].applied);
    BufferSuffices(emitted, prefix, w.client.cursor);
    EmittedGrows(w.log, w.replicas[r].applied, w.replicas[r].applied);
    SelectPrefix(emitted, Stream(w), prefix, w.client.cursor);
  }

  lemma AskReplicas(w: World, prefix: Key, fromRev: nat, r: nat)
    requires WorldOk(w, prefix, fromRev) && CanStep(w, prefix, Ask(r)) && BufferReaches(w, prefix, Ask(r))
    ensures ReplicasOk(Step(w, prefix, Ask(r)), prefix)
  {
    AskReply(w, prefix, fromRev, r);
    hide Replay, Select, Buffered, Dropped, CursorOk, ReplyOk, OneWaiter;
    var w' := Step(w, prefix, Ask(r));
    forall q | q in w'.replicas ensures ReplicaOk(w', prefix, w'.replicas[q]) {
      assert ReplicaOk(w, prefix, w.replicas[q]);
      forall waiter | waiter in w'.replicas[q].waiters ensures WaiterOk(w', prefix, w'.replicas[q], waiter) {
        if waiter in w.replicas[q].waiters {
          assert WaiterOk(w, prefix, w.replicas[q], waiter);
        }
      }
      NewWaiterUnique(w, prefix, w.replicas[q]);
    }
  }

  lemma NewWaiterUnique(w: World, prefix: Key, replica: Replica)
    requires ReplicaOk(w, prefix, replica)
    ensures UniqueIds(replica.waiters + {Waiter(w.ticket, prefix, w.client.cursor)})
  {
    forall v | v in replica.waiters ensures v.id < w.ticket {
      assert WaiterOk(w, prefix, replica, v);
    }
  }

  lemma AskOneWaiter(w: World, prefix: Key, fromRev: nat, r: nat)
    requires WorldOk(w, prefix, fromRev) && CanStep(w, prefix, Ask(r))
    ensures OneWaiter(Step(w, prefix, Ask(r)))
  {
    hide Replay, Select, Buffered, CursorOk, ReplyOk;
    forall q, v | q in w.replicas && v in w.replicas[q].waiters ensures v.id < w.ticket {
      assert ReplicaOk(w, prefix, w.replicas[q]) && WaiterOk(w, prefix, w.replicas[q], v);
    }
  }

  lemma AskKeeps(w: World, prefix: Key, fromRev: nat, r: nat)
    requires WorldOk(w, prefix, fromRev) && CanStep(w, prefix, Ask(r)) && BufferReaches(w, prefix, Ask(r))
    ensures WorldOk(Step(w, prefix, Ask(r)), prefix, fromRev)
  {
    AskReply(w, prefix, fromRev, r);
    AskReplicas(w, prefix, fromRev, r);
    AskOneWaiter(w, prefix, fromRev, r);
    hide Replay, Select, Buffered, Dropped, ReplicasOk, OneWaiter;
  }

  lemma TimeoutKeeps(w: World, prefix: Key, fromRev: nat, r: nat, waiter: Waiter)
    requires WorldOk(w, prefix, fromRev) && CanStep(w, prefix, WaiterTimeout(r, waiter))
    ensures WorldOk(Step(w, prefix, WaiterTimeout(r, waiter)), prefix, fromRev)
  {
    hide Replay, Select;
    var w' := Step(w, prefix, WaiterTimeout(r, waiter));
    assert ReplicaOk(w, prefix, w.replicas[r]) && WaiterOk(w, prefix, w.replicas[r], waiter);
    forall q | q in w'.replicas ensures ReplicaOk(w', prefix, w'.replicas[q]) {
      assert ReplicaOk(w, prefix, w.replicas[q]);
      forall v | v in w'.replicas[q].waiters ensures WaiterOk(w', prefix, w'.replicas[q], v) {
        assert WaiterOk(w, prefix, w.replicas[q], v);
      }
    }
  }

  lemma RestartKeeps(w: World, prefix: Key, fromRev: nat, r: nat, applied: nat)
    requires WorldOk(w, prefix, fromRev) && CanStep(w, prefix, Restart(r, applied))
    ensures WorldOk(Step(w, prefix, Restart(r, applied)), prefix, fromRev)
  {
    hide Replay, Select;
    var w' := Step(w, prefix, Restart(r, applied));
    forall q | q in w'.replicas ensures ReplicaOk(w', prefix, w'.replicas[q]) {
      if q != r {
        assert ReplicaOk(w, prefix, w.replicas[q]);
        forall v | v in w'.replicas[q].waiters ensures WaiterOk(w', prefix, w'.replicas[q], v) {
          assert WaiterOk(w, prefix, w.replicas[q], v);
        }
      }
    }
  }

  // ── handing events on ─────────────────────────────────────────────────────

  lemma {:induction false} HandEventsOf(c: Client, events: seq<Event>)
    requires Increasing(events) && forall i :: 0 <= i < |events| ==> events[i].rev > c.cursor
    ensures var d := HandEvents(c, events);
            && d.handed == c.handed + events && d.asking == c.asking
            && d.cursor == if events == [] then c.cursor else events[|events| - 1].rev
    decreases |events|
  {
    if events != [] {
      var e := events[0];
      HandEventsOf(c.(cursor := e.rev, handed := c.handed + [e]), events[1..]);
      assert events == [e] + events[1..];
    }
  }

  lemma {:induction false} SelectIncreases(events: seq<Event>, prefix: Key, fromRev: nat)
    requires Increasing(events)
    ensures Increasing(Select(events, prefix, fromRev))
  {
    if events != [] {
      var n := |events| - 1;
      SelectIncreases(events[..n], prefix, fromRev);
      Selected(events[..n], prefix, fromRev);
      var before := Select(events[..n], prefix, fromRev);
      forall i | 0 <= i < |before| ensures before[i].rev < events[n].rev {
        assert before[i] in before && before[i] in events[..n];
        var j :| 0 <= j < n && events[j] == before[i];
      }
    }
  }

  /** A client that is waiting for nothing has no claim on waiters or replies. */
  lemma IdleKeeps(w: World, prefix: Key, fromRev: nat, client: Client)
    requires WorldOk(w, prefix, fromRev) && client.asking.None? && CursorOk(w.(client := client), prefix, fromRev)
    ensures WorldOk(w.(client := client), prefix, fromRev)
  {
    hide Replay, Select, CursorOk;
    var w' := w.(client := client);
    forall q | q in w'.replicas ensures ReplicaOk(w', prefix, w'.replicas[q]) {
      assert ReplicaOk(w, prefix, w.replicas[q]);
      forall v | v in w'.replicas[q].waiters ensures WaiterOk(w', prefix, w'.replicas[q], v) {
        assert WaiterOk(w, prefix, w.replicas[q], v);
      }
    }
  }

  lemma HandCursor(w: World, prefix: Key, fromRev: nat, events: seq<Event>)
    requires CursorOk(w, prefix, fromRev) && events <= Select(Stream(w), prefix, w.client.cursor)
    ensures CursorOk(w.(client := HandEvents(w.client, events).(asking := None)), prefix, fromRev)
  {
    hide Replay, Select, HandEvents;
    var cursor := w.client.cursor;
    var rest := Select(Stream(w), prefix, cursor);
    StreamOkAt(w.log);
    SelectIncreases(Stream(w), prefix, cursor);
    Selected(Stream(w), prefix, cursor);
    forall i | 0 <= i < |events| ensures events[i].rev > cursor {
      assert rest[i] in rest;
    }
    HandEventsOf(w.client, events);
    if events != [] {
      CursorSplits(Stream(w), prefix, cursor, |events|);
      HandedRevision(w, prefix, |events|);
      assert rest[..|events|] == events;
    } else {
      assert w.client.handed + events == w.client.handed;
    }
  }

  lemma HandKeeps(w: World, prefix: Key, fromRev: nat, count: nat)
    requires WorldOk(w, prefix, fromRev) && CanStep(w, prefix, Hand(count))
    ensures WorldOk(Step(w, prefix, Hand(count)), prefix, fromRev)
  {
    hide Replay, Select, HandEvents, CursorOk, ReplicasOk, OneWaiter;
    var events := w.replies[w.client.asking.value][..count];
    HandCursor(w, prefix, fromRev, events);
    IdleKeeps(w, prefix, fromRev, HandEvents(w.client, events).(asking := None));
  }

  lemma HandedRevision(w: World, prefix: Key, count: nat)
    requires 0 < count <= |Select(Stream(w), prefix, w.client.cursor)|
    ensures Select(Stream(w), prefix, w.client.cursor)[count - 1].rev <= Replay(w.log).revision
  {
    StreamOkAt(w.log);
    Selected(Stream(w), prefix, w.client.cursor);
    var rest := Select(Stream(w), prefix, w.client.cursor);
    assert rest[count - 1] in rest;
  }

  lemma GiveUpKeeps(w: World, prefix: Key, fromRev: nat)
    requires WorldOk(w, prefix, fromRev) && w.client.asking.Some?
    ensures WorldOk(Step(w, prefix, GiveUp), prefix, fromRev)
  {
    hide Replay, Select, ReplicasOk, OneWaiter;
    IdleKeeps(w, prefix, fromRev, w.client.(asking := None));
  }

  lemma StepKeeps(w: World, prefix: Key, fromRev: nat, a: Action)
    requires WorldOk(w, prefix, fromRev) && CanStep(w, prefix, a) && BufferReaches(w, prefix, a)
    ensures WorldOk(Step(w, prefix, a), prefix, fromRev)
  {
    hide WorldOk, Step;
    match a
    case Commit(entry) => CommitKeeps(w, prefix, fromRev, entry);
    case ApplyNext(r) => ApplyKeeps(w, prefix, fromRev, r);
    case Restart(r, applied) => RestartKeeps(w, prefix, fromRev, r, applied);
    case Ask(r) => AskKeeps(w, prefix, fromRev, r);
    case WaiterTimeout(r, waiter) => TimeoutKeeps(w, prefix, fromRev, r, waiter);
    case Hand(count) => HandKeeps(w, prefix, fromRev, count);
    case GiveUp => GiveUpKeeps(w, prefix, fromRev);
  }

  // ── the theorem ───────────────────────────────────────────────────────────

  function Run(w: World, prefix: Key, actions: seq<Action>): Option<World> {
    if actions == [] then Some(w)
    else
      var n := |actions| - 1;
      match Run(w, prefix, actions[..n])
      case None => None
      case Some(v) => if CanStep(v, prefix, actions[n]) then Some(Step(v, prefix, actions[n])) else None
  }

  /** At every request of the run, the replica asked still has what the client needs. */
  ghost predicate AlwaysReaches(w: World, prefix: Key, actions: seq<Action>) {
    forall n :: 0 <= n < |actions| ==> ReachesAt(w, prefix, actions, n)
  }

  ghost predicate ReachesAt(w: World, prefix: Key, actions: seq<Action>, n: nat)
    requires n < |actions|
  {
    var before := Run(w, prefix, actions[..n]);
    before.Some? && CanStep(before.value, prefix, actions[n]) ==> BufferReaches(before.value, prefix, actions[n])
  }

  ghost predicate Starting(w: World, fromRev: nat) {
    && w.client == Client(fromRev, [], None) && w.replies == map[]
    && forall r :: r in w.replicas ==> w.replicas[r].applied <= |w.log| && w.replicas[r].waiters == {}
  }

  lemma {:induction false} RunKeeps(w: World, prefix: Key, fromRev: nat, actions: seq<Action>)
    requires Starting(w, fromRev) && AlwaysReaches(w, prefix, actions) && Run(w, prefix, actions).Some?
    ensures WorldOk(Run(w, prefix, actions).value, prefix, fromRev)
    decreases |actions|
  {
    if actions != [] {
      hide WorldOk, Step, CanStep, BufferReaches;
      var n := |actions| - 1;
      forall k | 0 <= k < n ensures ReachesAt(w, prefix, actions[..n], k) {
        assert actions[..n][..k] == actions[..k];
        assert ReachesAt(w, prefix, actions, k);
      }
      RunKeeps(w, prefix, fromRev, actions[..n]);
      assert ReachesAt(w, prefix, actions, n);
      StepKeeps(Run(w, prefix, actions[..n]).value, prefix, fromRev, actions[n]);
    }
  }

  /**
   * Over any run of polls, timeouts, lost responses, crashes and switches between replicas, what was handed
   * on is exactly the filtered stream from the starting revision up to the cursor: a prefix of it, in order,
   * each event once.
   */
  lemma WatchIsGapFree(w: World, prefix: Key, fromRev: nat, actions: seq<Action>)
    requires Starting(w, fromRev) && AlwaysReaches(w, prefix, actions) && Run(w, prefix, actions).Some?
    ensures var v := Run(w, prefix, actions).value;
            var stream := Select(Stream(v), prefix, fromRev);
            && v.client.handed <= stream && Increasing(v.client.handed)
            && stream == v.client.handed + Select(Stream(v), prefix, v.client.cursor)
  {
    RunKeeps(w, prefix, fromRev, actions);
    var v := Run(w, prefix, actions).value;
    StreamOkAt(v.log);
    SelectIncreases(Stream(v), prefix, fromRev);
  }
}
