/**
 * What the zero-delay callback may look at before it forgets the term's no-op. A run in which it fires
 * in a later leadership that is two or more entries behind its no-op reads a state older than a commit;
 * nothing else can go wrong.
 */
module RaftStaleRead {
  import opened RaftTypes
  import opened RaftEngine
  import opened RaftCluster
  import opened RaftTheorems
  import opened RaftNoop
  import opened RaftReads
  import opened RaftPlay
  import opened RaftManoeuvres

  const A: NodeId := 0
  const B: NodeId := 1
  const C: NodeId := 2

  lemma AllRestAtFirst(cfg: Config, n: NodeId)
    requires n in cfg.voters
    ensures Rests(InitialCluster(cfg).nodes[n], 0, [], -1) && InitialCluster(cfg).nodes[n].ballot.role == Follower
    ensures InitialCluster(cfg).nodes[n].lead == NO_LEADERSHIP
  {
  }

  lemma Start(cfg: Config) returns (run: Run)
    ensures IsRun(cfg, run) && run == Run([InitialCluster(cfg)], []) && Last(run) == InitialCluster(cfg)
  {
    run := Run([InitialCluster(cfg)], []);
  }

  /** A leads term 1 and commits its no-op with B: the callback of that leadership is queued. */
  lemma FirstReign(gap: nat) returns (run: Run, log: seq<Entry>)
    requires gap >= 2
    ensures IsRun(Trio(gap), run) && run.states != [] && Continues(Run([InitialCluster(Trio(gap))], []), run)
    ensures A in Last(run).nodes && B in Last(run).nodes && C in Last(run).nodes && |log| == 1 && log[0].term == 1
    ensures Rests(Last(run).nodes[A], 1, log, 0) && Last(run).nodes[A].ballot.role == Leader
    ensures Last(run).nodes[A].lead.epoch == 1 && Last(run).nodes[A].lead.broadcast == Some(1)
    ensures Rests(Last(run).nodes[B], 1, log, -1) && Last(run).nodes[B].ballot.role == Follower
    ensures Rests(Last(run).nodes[C], 0, [], -1) && Last(run).nodes[C].ballot.role == Follower
  {
    var cfg := Trio(gap);
    TrioQuorum(gap);
    var run0 := Start(cfg);
    AllRestAtFirst(cfg, A);
    AllRestAtFirst(cfg, B);
    AllRestAtFirst(cfg, C);
    hide IsRun, Last, Rests, Leads, Continues, QuorumSize, InitialCluster, OthersRest;
    var run1 := Elect(cfg, run0, A, B, 0, [], -1, 0, [], -1);
    OtherRests(Last(run0), Last(run1), A, B, C);
    log := [Entry(1, 0, Noop(A))];
    assert [] + log == log && log[..0] == [];
    run := ReplicateLog(cfg, run1, A, B, 1, log, -1, 0, 1, -1);
    OtherRests(Last(run1), Last(run), A, B, C);
    ContinuesThen(run0, run1, run);
  }

  /** B leads term 2 with C's vote, and commits with A all that A's log will hold; A does not learn of it. */
  lemma SecondReign(gap: nat) returns (run: Run, log: seq<Entry>)
    requires gap >= 2
    ensures IsRun(Trio(gap), run) && run.states != [] && Continues(Run([InitialCluster(Trio(gap))], []), run)
    ensures A in Last(run).nodes && B in Last(run).nodes && C in Last(run).nodes && |log| == gap && log[gap - 1].term == 2
    ensures Rests(Last(run).nodes[A], 2, log, 0) && Last(run).nodes[A].ballot.role == Follower
    ensures Last(run).nodes[A].lead.epoch == 2 && Last(run).nodes[A].lead.broadcast == Some(1)
    ensures Rests(Last(run).nodes[B], 2, log, gap - 1)
    ensures Rests(Last(run).nodes[C], 2, [], -1) && Last(run).nodes[C].ballot.role == Follower
  {
    var cfg := Trio(gap);
    TrioQuorum(gap);
    var run0, first := FirstReign(gap);
    hide IsRun, Last, Rests, Leads, Continues, QuorumSize, InitialCluster, OthersRest;
    var run1 := Elect(cfg, run0, B, C, 1, first, -1, 0, [], -1);
    OtherRests(Last(run0), Last(run1), B, C, A);
    var begun := first + [Entry(2, 1, Noop(B))];
    var run2;
    run2, log := TakeCommands(cfg, run1, B, 2, begun, -1, 1, gap - 2);
    OtherRests(Last(run1), Last(run2), B, B, A);
    OtherRests(Last(run1), Last(run2), B, B, C);
    assert log[..1] == first && log[gap - 1].term == 2 by {
      assert log[1] == begun[1];
    }
    run := ReplicateLog(cfg, run2, B, A, 2, log, -1, 1, 1, 0);
    OtherRests(Last(run2), Last(run), B, A, C);
    ContinuesThen(Run([InitialCluster(cfg)], []), run0, run1);
    ContinuesThen(Run([InitialCluster(cfg)], []), run1, run2);
    ContinuesThen(Run([InitialCluster(cfg)], []), run2, run);
  }

  /** A leads again, in term 3, its old callback still queued, `gap` entries behind its no-op. */
  lemma ThirdReign(gap: nat) returns (run: Run, log: seq<Entry>, moment: nat)
    requires gap >= 2
    ensures IsRun(Trio(gap), run) && run.states != [] && Continues(Run([InitialCluster(Trio(gap))], []), run)
    ensures A in Last(run).nodes && C in Last(run).nodes && |log| == gap + 1
    ensures Rests(Last(run).nodes[A], 3, log, 0) && Leads(Trio(gap), A, Last(run).nodes[A], gap)
    ensures Last(run).nodes[A].lead.epoch == 3 && Last(run).nodes[A].lead.broadcast == Some(1)
    ensures Rests(Last(run).nodes[C], 3, [], -1) && Last(run).nodes[C].ballot.role == Follower
    ensures At(run, moment, B) && NodeAt(run, moment, B).commitment.applied == log[..gap]
  {
    var cfg := Trio(gap);
    TrioQuorum(gap);
    var run0, before := SecondReign(gap);
    moment := |run0.states| - 1;
    AppliedAll(Last(run0).nodes[B], 2, before, gap - 1);
    assert At(run0, moment, B) && NodeAt(run0, moment, B) == Last(run0).nodes[B];
    run := Elect(cfg, run0, A, C, 2, before, 0, 2, [], -1);
    log := before + [Entry(3, gap, Noop(A))];
    EarlierMoment(run0, run, moment, B);
    hide IsRun, Last, Rests, Leads, Continues, QuorumSize, InitialCluster, OthersRest;
    ContinuesThen(Run([InitialCluster(cfg)], []), run0, run);
    assert log[..gap] == before;
  }

  lemma AppliedAll(s: NodeState, term: Term, log: seq<Entry>, commit: int)
    requires Rests(s, term, log, commit) && commit == |log| - 1
    ensures s.commitment.applied == log
  {
  }

  lemma SameMoment(run: Run, run': Run, i: nat)
    requires Continues(run, run') && i < |run.actions|
    ensures i < |run'.actions| && run'.states[i] == run.states[i] && run'.actions[i] == run.actions[i]
  {
  }

  lemma EarlierMoment(run: Run, run': Run, i: nat, n: NodeId)
    requires Continues(run, run') && At(run, i, n)
    ensures At(run', i, n) && NodeAt(run', i, n) == NodeAt(run, i, n)
  {
    assert run'.states[i] == run.states[i];
  }

  // ── the read ──────────────────────────────────────────────────────────────

  /** A read of number `readId` is pending, its request to v outstanding. */
  ghost predicate Reading(n: NodeId, v: NodeId, s: NodeState, c: Call, readId: nat, confirmed: set<NodeId>) {
    && c.caller == n && c.callee == v && c.number == readId && c.term == s.ballot.term
    && s.up && s.ballot.role == Leader && readId in s.pendingReads
    && s.pendingReads[readId] == Read(s.ballot.term, s.commitment.index, confirmed)
    && (confirmed == {} ==> c in s.rpcs && s.rpcs[c] == ReadRpc(readId))
    && |s.commitment.applied| == s.commitment.index + 1
  }

  lemma FiringStep(cfg: Config, run: Run, n: NodeId) returns (run': Run)
    requires IsRun(cfg, run) && n in Last(run).nodes && Last(run).nodes[n].up && Last(run).nodes[n].lead.broadcast.Some?
    ensures IsRun(cfg, run') && run'.states == run.states + [Last(run')] && run'.actions == run.actions + [Act(n, Broadcast)]
    ensures Last(run') == Last(run).(nodes := Last(run).nodes[n := FireBroadcast(Last(run).nodes[n])], ticket := Last(run).ticket + 1)
  {
    hide FireBroadcast;
    Sound(cfg, run, n);
    run' := OneStep(cfg, run, n, Broadcast);
    assert Last(run).net + {} == Last(run).net;
  }

  lemma ReadStarted(cfg: Config, n: NodeId, v: NodeId, s: NodeState, term: Term, log: seq<Entry>, commit: int, ticket: nat)
    requires Rests(s, term, log, commit) && s.ballot.role == Leader && v in Peers(cfg, n)
    ensures var out, c := StartRead(cfg, n, s, ticket), Call(ticket, n, v, term);
            && Reading(n, v, out.s, c, ticket, {}) && out.s.commitment == s.commitment
            && Req(c, AppendRequest(log, commit, ClampedNext(s, v), 0)) in out.msgs
  {
    assert Call(ticket, n, v, term) in FanOut(cfg, n, ticket, term);
  }

  lemma StartStep(cfg: Config, run: Run, n: NodeId) returns (run': Run)
    requires IsRun(cfg, run) && n in Last(run).nodes && Last(run).nodes[n].up && MayStartRead(Last(run).nodes[n])
    ensures Stepped(cfg, run, run', n, StartRead(cfg, n, Last(run).nodes[n], Last(run).ticket))
    ensures run'.actions == run.actions + [Act(n, ReadRequest)] && run.states <= run'.states
  {
    hide StartRead, Continues;
    Sound(cfg, run, n);
    run' := OneStep(cfg, run, n, ReadRequest);
  }

  /** An empty log refuses the probe, and thereby confirms the leadership. */
  lemma ProbeRefused(cfg: Config, v: NodeId, t: NodeState, term: Term, log: seq<Entry>, commit: int, at: nat, c: Call)
    requires WellFormed(t) && !t.panicked && Rests(t, term, [], -1) && t.ballot.role == Follower && c.term == term
    requires 0 < at <= |log|
    ensures Resp(c, AppendRejected(term, 0, 0)) in HandleRequest(cfg, v, t, c, AppendRequest(log, commit, at, 0), false).msgs
  {
  }

  lemma Confirmed(cfg: Config, n: NodeId, v: NodeId, s: NodeState, c: Call, readId: nat, ticket: nat)
    requires WellFormed(s) && Reading(n, v, s, c, readId, {})
    ensures var t := HandleResponse(cfg, n, s, c, AppendRejected(c.term, 0, 0), ticket).s;
            Reading(n, v, t, c, readId, {v}) && t.commitment == s.commitment
  {
    assert {} + {v} == {v};
  }

  lemma ReplyStep(cfg: Config, run: Run, n: NodeId, v: NodeId, c: Call, readId: nat) returns (run': Run)
    requires IsRun(cfg, run) && QuorumSize(cfg) == 2 && n in Last(run).nodes && Reading(n, v, Last(run).nodes[n], c, readId, {v})
    ensures IsRun(cfg, run') && Continues(run, run') && run'.actions == run.actions + [Act(n, ReadReply(readId))]
  {
    Sound(cfg, run, n);
    assert |{v}| == 1;
    run' := OneStep(cfg, run, n, ReadReply(readId));
  }

  lemma ReadFacts(n: NodeId, v: NodeId, s: NodeState, c: Call, readId: nat)
    requires Reading(n, v, s, c, readId, {})
    ensures c.caller == n && c.callee == v && c in s.rpcs && s.rpcs[c] == ReadRpc(readId) && s.up && c.term == s.ballot.term
  {
  }

  /** From a leader whose guard is open, with an up-to-date voter whose log is empty: a read, start to finish. */
  lemma ReadThrough(cfg: Config, run: Run, n: NodeId, v: NodeId, term: Term, log: seq<Entry>, commit: int) returns (run': Run)
    requires IsRun(cfg, run) && QuorumSize(cfg) == 2 && v in Peers(cfg, n)
    requires n in Last(run).nodes && Rests(Last(run).nodes[n], term, log, commit) && MayStartRead(Last(run).nodes[n])
    requires 0 < ClampedNext(Last(run).nodes[n], v) <= |log|
    requires v in Last(run).nodes && Rests(Last(run).nodes[v], term, [], -1) && Last(run).nodes[v].ballot.role == Follower
    ensures IsRun(cfg, run') && Continues(run, run')
    ensures var i, j := |run.actions|, |run'.actions| - 1;
            && i < j && run'.actions[i] == Act(n, ReadRequest) && run'.actions[j] == Act(n, ReadReply(run'.states[i].ticket))
            && At(run', j, n) && NodeAt(run', j, n).commitment.applied == log[..commit + 1]
  {
    assert run.states != [] && |run.states| == |run.actions| + 1;
    hide IsRun, Reading, StartRead, Continues, QuorumSize, MayStartRead;
    var readId, at := Last(run).ticket, ClampedNext(Last(run).nodes[n], v);
    var c := Call(readId, n, v, term);
    assert Last(run).nodes[n].commitment.applied == log[..commit + 1];
    hide Rests;
    GuardedLeader(Last(run).nodes[n]);
    RestFacts(Last(run).nodes[n], term, log, commit);
    var run1 := StartStep(cfg, run, n);
    ReadStarted(cfg, n, v, Last(run).nodes[n], term, log, commit, readId);
    var run3 := Confirm(cfg, run1, n, v, c, readId, term, log, commit, at);
    run' := ReplyStep(cfg, run3, n, v, c, readId);
    ContinuesThen(run, run1, run3);
    ContinuesThen(run, run3, run');
    SameMoment(run1, run', |run.actions|);
    EndsBefore(run3, run');
  }

  lemma GuardedLeader(s: NodeState)
    requires MayStartRead(s)
    ensures s.ballot.role == Leader
  {
  }

  lemma EndsBefore(run: Run, run': Run)
    requires Continues(run, run') && run.states != [] && |run'.actions| == |run.actions| + 1
    ensures run'.states[|run'.actions| - 1] == Last(run)
  {
  }

  lemma Confirm(cfg: Config, run: Run, n: NodeId, v: NodeId, c: Call, readId: nat, term: Term, log: seq<Entry>, commit: int, at: nat) returns (run': Run)
    requires IsRun(cfg, run) && n != v && c.term == term && 0 < at <= |log|
    requires n in Last(run).nodes && Reading(n, v, Last(run).nodes[n], c, readId, {})
    requires v in Last(run).nodes && Rests(Last(run).nodes[v], term, [], -1) && Last(run).nodes[v].ballot.role == Follower
    requires Req(c, AppendRequest(log, commit, at, 0)) in Last(run).net
    ensures IsRun(cfg, run') && run'.states != [] && Continues(run, run')
    ensures n in Last(run').nodes && Reading(n, v, Last(run').nodes[n], c, readId, {v})
    ensures Last(run').nodes[n].commitment == Last(run).nodes[n].commitment
  {
    assert run.states != [];
    var request := AppendRequest(log, commit, at, 0);
    assert SensibleRequest(request);
    hide IsRun, Last, Rests, Reading, HandleRequest, HandleResponse, Continues, WellFormed, AppendRequest;
    RestFacts(Last(run).nodes[v], term, [], -1);
    ReadFacts(n, v, Last(run).nodes[n], c, readId);
    var run1 := RequestStep(cfg, run, v, c, request);
    ProbeRefused(cfg, v, Last(run).nodes[v], term, log, commit, at, c);
    run' := ResponseStep(cfg, run1, n, c, AppendRejected(term, 0, 0));
    Confirmed(cfg, n, v, Last(run1).nodes[n], c, readId, Last(run1).ticket);
    ContinuesThen(run, run1, run');
  }

  // ── which test of the leader's fields is right ────────────────────────────

  ghost predicate FiresAt(run: Run, i: nat, test: (bool, int) -> bool)
    requires i < |run.actions| && i < |run.states|
  {
    var n := run.actions[i].node;
    run.actions[i].event.Broadcast? && n in run.states[i].nodes && run.states[i].nodes[n].ballot.role == Leader ==>
      test(QueuedHere(run.states[i].nodes[n]), NoopGap(run.states[i].nodes[n]))
  }

  /** In a leader, the callback forgets the no-op only where the test allows it. */
  ghost predicate FiresOnly(run: Run, test: (bool, int) -> bool)
    requires |run.states| == |run.actions| + 1
  {
    forall i :: 0 <= i < |run.actions| ==> FiresAt(run, i, test)
  }

  /** If the read invoked at step i is answered at step j, it sees all that x had applied by a moment i0 up to the invocation. */
  ghost predicate ReadIsCurrent(run: Run, i: nat, j: nat, n: NodeId, i0: nat, x: NodeId)
    requires |run.states| == |run.actions| + 1
  {
    i < |run.actions| && j < |run.actions| && i0 <= i && At(run, i0, x)
    && run.actions[i] == Act(n, ReadRequest) && run.actions[j] == Act(n, ReadReply(run.states[i].ticket)) ==>
      At(run, j, n) && NodeAt(run, i0, x).commitment.applied <= NodeAt(run, j, n).commitment.applied
  }

  ghost predicate ReadsAreCurrent(run: Run)
    requires |run.states| == |run.actions| + 1
  {
    forall i, j, n, i0, x :: ReadIsCurrent(run, i, j, n, i0, x)
  }

  /** A callback of an earlier leadership, fired by a leader `gap` entries behind its no-op, and a read that misses what B committed. */
  lemma StaleRead(gap: nat) returns (run: Run, fired: nat)
    requires gap >= 2
    ensures IsRun(Trio(gap), run) && !ReadsAreCurrent(run)
    ensures fired < |run.actions| && A in run.states[fired].nodes && run.actions[fired] == Act(A, Broadcast)
    ensures var s := run.states[fired].nodes[A]; s.ballot.role == Leader && !QueuedHere(s) && NoopGap(s) == gap
    ensures forall k :: 0 <= k < |run.actions| && k != fired ==> !run.actions[k].event.Broadcast?
  {
    var cfg := Trio(gap);
    TrioQuorum(gap);
    var run0, log, moment := ThirdReign(gap);
    fired := |run0.actions|;
    assert |run0.states| == fired + 1;
    hide IsRun, Rests, Leads, FireBroadcast, QuorumSize, MayStartRead, ClampedNext, Continues, InitialCluster, ReadsAreCurrent;
    FiredFacts(cfg, A, C, Last(run0).nodes[A], 3, log, 0, gap);
    var run1 := FiringStep(cfg, run0, A);
    run := ReadThrough(cfg, run1, A, C, 3, log, 0);
    assert Last(run0) == run0.states[fired];
    Finished(run0, run1, run, fired, moment, log, gap);
    OneFiring(Run([InitialCluster(cfg)], []), run0, run1, run);
  }

  /** Once the read is answered, what B had applied before it was invoked is missing from the answer. */
  lemma Finished(run0: Run, run1: Run, run: Run, fired: nat, moment: nat, log: seq<Entry>, gap: nat)
    requires |run0.states| == fired + 1 && |run0.actions| == fired && run0.states <= run1.states && Continues(run1, run)
    requires run1.actions == run0.actions + [Act(A, Broadcast)]
    requires 2 <= gap <= |log| && At(run0, moment, B) && NodeAt(run0, moment, B).commitment.applied == log[..gap]
    requires var i, j := |run1.actions|, |run.actions| - 1;
             && i < j && run.actions[i] == Act(A, ReadRequest) && run.actions[j] == Act(A, ReadReply(run.states[i].ticket))
             && At(run, j, A) && NodeAt(run, j, A).commitment.applied == log[..1]
    ensures |run.states| == |run.actions| + 1 && fired < |run.actions| && run.actions[fired] == Act(A, Broadcast)
    ensures run.states[fired] == run0.states[fired] && !ReadsAreCurrent(run)
  {
    SameMoment(run1, run, fired);
    SameMoment(run1, run, moment);
    assert run1.states[fired] == run0.states[fired] && run1.states[moment] == run0.states[moment];
    assert !ReadIsCurrent(run, |run1.actions|, |run.actions| - 1, A, moment, B);
  }

  /** Firing the callback opens the guard at once. */
  lemma FiredFacts(cfg: Config, n: NodeId, v: NodeId, s: NodeState, term: Term, log: seq<Entry>, commit: int, gap: nat)
    requires Rests(s, term, log, commit) && Leads(cfg, n, s, gap) && v in Peers(cfg, n) && gap < |log| && commit == 0
    ensures s.ballot.role == Leader && NoopGap(s) == gap && s.up
    ensures Rests(FireBroadcast(s), term, log, commit) && MayStartRead(FireBroadcast(s)) && ClampedNext(FireBroadcast(s), v) == gap
  {
  }

  lemma OneFiring(start: Run, run0: Run, run1: Run, run: Run)
    requires start.actions == [] && Continues(start, run0) && Continues(run1, run)
    requires |run1.actions| == |run0.actions| + 1 && run0.actions <= run1.actions
    ensures forall k :: 0 <= k < |run.actions| && k != |run0.actions| ==> !run.actions[k].event.Broadcast?
  {
    forall k | 0 <= k < |run.actions| && k != |run0.actions| ensures !run.actions[k].event.Broadcast? {
      if k < |run0.actions| {
        assert run.actions[k] == run1.actions[k] == run0.actions[k];
      }
    }
  }

  /**
   * ReadIndex, exactly: letting the callback fire where `test` of the leader's fields allows keeps every read of
   * every run current if and only if the test refuses a callback of an earlier leadership whenever an entry
   * before the no-op is still to be committed.
   */
  lemma CallbackTestIsExact(test: (bool, int) -> bool)
    ensures (forall cfg, run :: IsRun(cfg, run) && FiresOnly(run, test) ==> ReadsAreCurrent(run))
            <==> forall gap :: gap >= 2 ==> !test(false, gap)
  {
    if forall gap :: gap >= 2 ==> !test(false, gap) {
      forall cfg, run | IsRun(cfg, run) && FiresOnly(run, test) ensures ReadsAreCurrent(run) {
        RefusingIsEnough(cfg, run, test);
      }
    } else {
      var gap :| gap >= 2 && test(false, gap);
      var run, fired := StaleRead(gap);
      assert FiresOnly(run, test);
    }
  }

  lemma RefusingIsEnough(cfg: Config, run: Run, test: (bool, int) -> bool)
    requires IsRun(cfg, run) && FiresOnly(run, test) && forall gap :: gap >= 2 ==> !test(false, gap)
    ensures ReadsAreCurrent(run)
  {
    assert |run.states| == |run.actions| + 1;
    hide IsRun;
    forall i: nat | i < |run.actions| ensures TimelyAt(run, i) {
      assert FiresAt(run, i, test);
    }
    forall i: nat, j: nat, n: NodeId, i0: nat, x: NodeId ensures ReadIsCurrent(run, i, j, n, i0, x) {
      if i < |run.actions| && j < |run.actions| && i0 <= i && At(run, i0, x)
         && run.actions[i] == Act(n, ReadRequest) && run.actions[j] == Act(n, ReadReply(run.states[i].ticket)) {
        ReadIndexIsLinearizable(cfg, run, i, j, n, i0, x);
      }
    }
  }
}
