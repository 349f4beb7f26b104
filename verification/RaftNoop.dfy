/**
 * The guard of ReadIndex reads: a leader that lets a read start is caught up with every earlier
 * leader, provided the callback that forgets the term's no-op fires only where it is harmless.
 */
module RaftNoop {
  import opened RaftTypes
  import opened RaftEngine
  import opened RaftCluster
  import opened RaftFrames

  ghost predicate OwnAt(s: NodeState, k: int) {
    0 <= k < |s.journal.log| && s.journal.log[k].term == s.ballot.term
  }

  /** Whatever the leader has not committed is of its own term: an entry of an earlier term that anyone committed, it has committed too. */
  ghost predicate CaughtUp(s: NodeState) {
    exists k :: k <= s.commitment.index + 1 && OwnAt(s, k)
  }

  /**
   * While the index of the term's no-op is remembered it is an entry of the term; it is forgotten
   * only by a leader that is caught up.
   */
  ghost predicate NoopOk(s: NodeState) {
    && (s.lead.broadcast.Some? ==> s.lead.broadcast.value <= s.lead.epoch)
    && (s.ballot.role == Leader ==>
          && (s.lead.noopIndex.Some? ==> OwnAt(s, s.lead.noopIndex.value))
          && (s.lead.noopIndex.None? ==> CaughtUp(s))
          && (s.lead.broadcast == Some(s.lead.epoch) ==> CaughtUp(s)))
  }

  // ── when the zero-delay callback may fire ─────────────────────────────────

  /** The callback was queued by the leadership it fires in. */
  predicate QueuedHere(s: NodeState) {
    s.lead.broadcast == Some(s.lead.epoch)
  }

  /** How far the commit index is behind the term's no-op, while that is remembered. */
  function NoopGap(s: NodeState): int {
    if s.lead.noopIndex.None? then 0 else s.lead.noopIndex.value - s.commitment.index
  }

  /** Fields a leader can look at: the callback is its own, or at most the no-op itself is still to be committed. */
  predicate Harmless(queuedHere: bool, gap: int) {
    queuedHere || gap <= 1
  }

  ghost predicate TimelyBroadcast(s: NodeState, e: Event) {
    e.Broadcast? && s.ballot.role == Leader ==> Harmless(QueuedHere(s), NoopGap(s))
  }

  lemma NoopCarried(s: NodeState, t: NodeState)
    requires NoopOk(s) && t.lead == s.lead
    requires t.ballot.role == Leader ==>
      && s.ballot.role == Leader && t.ballot.term == s.ballot.term
      && s.journal.log <= t.journal.log && s.commitment.index <= t.commitment.index
    ensures NoopOk(t)
  {
    if t.ballot.role == Leader && CaughtUp(s) {
      var k :| k <= s.commitment.index + 1 && OwnAt(s, k);
      assert OwnAt(t, k);
    }
  }

  lemma AdvanceNoop(cfg: Config, n: NodeId, s: NodeState)
    requires WellFormed(s) && NoopOk(s)
    ensures NoopOk(AdvanceCommit(cfg, n, s).s)
  {
    var t := AdvanceCommit(cfg, n, s).s;
    if s.ballot.role == Leader && t.commitment.index > s.commitment.index {
      assert Committable(cfg, n, s, t.commitment.index);
      assert OwnAt(t, t.commitment.index);
    }
  }

  lemma FlushNoop(cfg: Config, n: NodeId, s: NodeState)
    requires WellFormed(s) && NoopOk(s)
    ensures NoopOk(FlushLog(cfg, n, s).s)
  {
    var released := ReleaseDurableWaiters(s.(journal := s.journal.(durable := |s.journal.log|)));
    NoopCarried(s, released.s);
    AdvanceNoop(cfg, n, released.s);
  }

  lemma AppendNoop(cfg: Config, n: NodeId, s: NodeState, entries: seq<Entry>)
    requires WellFormed(s) && NoopOk(s)
    ensures NoopOk(AppendToLog(cfg, n, s, entries).s)
  {
    var appended := s.(journal := s.journal.(log := s.journal.log + entries));
    NoopCarried(s, appended);
    FlushNoop(cfg, n, appended);
  }

  lemma FollowerNoop(n: NodeId, s: NodeState, term: Term, leaderId: Option<NodeId>)
    requires NoopOk(s)
    ensures var t := BecomeFollower(n, s, term, leaderId).s; NoopOk(t) && t.ballot.role == Follower
  {
  }

  lemma LeaderNoop(cfg: Config, n: NodeId, s: NodeState)
    requires WellFormed(s) && NoopOk(s)
    ensures NoopOk(BecomeLeader(cfg, n, s).s)
  {
    var noop := Entry(s.ballot.term, |s.journal.log|, Noop(n));
    var t := TakeLeadership(cfg, n, s);
    var appended := t.(journal := t.journal.(log := t.journal.log + [noop]));
    assert OwnAt(appended, |s.journal.log|);
    FlushNoop(cfg, n, appended);
  }

  lemma ElectionNoop(cfg: Config, n: NodeId, s: NodeState, ticket: nat)
    requires WellFormed(s) && NoopOk(s)
    ensures NoopOk(StartElection(cfg, n, s, ticket).s)
  {
    hide BecomeLeader;
    LeaderNoop(cfg, n, Candidacy(n, s));
  }

  /** A follower's leadership record does not move while it accepts entries. */
  lemma AcceptNoop(cfg: Config, n: NodeId, s: NodeState, call: Call, request: Request)
    requires WellFormed(s) && s.ballot.role == Follower
    requires request.AppendEntries? && request.prevLogIndex >= -1
    ensures var t := AcceptEntries(cfg, n, s, call, request).s; t.lead == s.lead && t.ballot.role == Follower
  {
    hide Extend, CutConflict, HeldCount, NoopOk;
    var prev, log := request.prevLogIndex, s.journal.log;
    if prev < |log| && (prev >= 0 ==> log[prev].term == request.prevLogTerm) {
      var cut := CutConflict(s, prev + 1, request.entries).s;
      CutShape(s, prev + 1, request.entries);
      CutLead(s, prev + 1, request.entries);
      if !cut.panicked {
        ExtendLead(cfg, n, cut, call, request, HeldCount(log, prev + 1, request.entries));
      }
    }
  }

  lemma CutLead(s: NodeState, from: nat, entries: seq<Entry>)
    requires WellFormed(s) && from <= |s.journal.log|
    ensures var t := CutConflict(s, from, entries).s; t.lead == s.lead && t.ballot == s.ballot
  {
  }

  lemma ExtendLead(cfg: Config, n: NodeId, s: NodeState, call: Call, request: Request, held: nat)
    requires WellFormed(s) && s.ballot.role != Leader && request.AppendEntries? && held <= |request.entries|
    requires held < |request.entries| ==> request.prevLogIndex + 1 + held == |s.journal.log|
    requires request.prevLogIndex + 1 + held <= |s.journal.log|
    ensures var t := Extend(cfg, n, s, call, request, held).s; t.lead == s.lead && t.ballot.role == s.ballot.role
  {
    hide AppendToLog;
    FollowerAppend(cfg, n, s, request.entries[held..]);
    AppendFacts(cfg, n, s, request.entries[held..]);
  }

  lemma FollowerAppend(cfg: Config, n: NodeId, s: NodeState, entries: seq<Entry>)
    requires WellFormed(s) && s.ballot.role != Leader
    ensures var t := AppendToLog(cfg, n, s, entries).s; t.ballot.role == s.ballot.role && t.lead == s.lead
  {
  }

  lemma HandleAppendNoop(cfg: Config, n: NodeId, s: NodeState, call: Call, request: Request)
    requires WellFormed(s) && !s.panicked && NoopOk(s) && request.AppendEntries? && request.prevLogIndex >= -1
    ensures NoopOk(HandleAppendEntries(cfg, n, s, call, request).s)
  {
    if call.term >= s.ballot.term {
      hide AcceptEntries, BecomeFollower;
      var adopted := AdoptLeader(n, s, call).s;
      FollowerNoop(n, s, call.term, Some(call.caller));
      AcceptNoop(cfg, n, adopted, call, request);
      NoopCarried(adopted, AcceptEntries(cfg, n, adopted, call, request).s);
    }
  }

  lemma HandleVoteNoop(n: NodeId, s: NodeState, call: Call, request: Request, heardRecently: bool)
    requires NoopOk(s) && request.RequestVote?
    ensures NoopOk(HandleRequestVote(n, s, call, request, heardRecently).s)
  {
    hide BecomeFollower, IsUpToDate;
    var adopted := if call.term > s.ballot.term then BecomeFollower(n, s, call.term, None).s else s;
    FollowerNoop(n, s, call.term, None);
    NoopCarried(adopted, CastVote(adopted, call.caller));
  }

  lemma ResponseNoop(cfg: Config, n: NodeId, s: NodeState, call: Call, response: Response, ticket: nat)
    requires WellFormed(s) && call in s.rpcs && NoopOk(s)
    requires SensibleRpc(s.rpcs[call]) && SensibleResponse(response)
    ensures NoopOk(HandleResponse(cfg, n, s, call, response, ticket).s)
  {
    hide BecomeFollower, StartElection, AdvanceCommit, BecomeLeader, OnReadResponse, OnAppendRejected, Progress, NoopOk;
    var s1 := s.(rpcs := s.rpcs - {call});
    var p := call.callee;
    NoopCarried(s, s1);
    FollowerNoop(n, s1, response.term, None);
    var granted := s1.(ballot := s1.ballot.(preVoteGrants := s1.ballot.preVoteGrants + {p}));
    var voted := s1.(ballot := s1.ballot.(votes := s1.ballot.votes + {p}));
    NoopCarried(s, granted);
    NoopCarried(s, voted);
    ElectionNoop(cfg, n, granted, ticket);
    LeaderNoop(cfg, n, voted);
    match s.rpcs[call]
    case AppendRpc(_, _, _, _) =>
      if response.AppendOk? {
        ProgressNoop(s1, p, response.matchIndex);
        AdvanceNoop(cfg, n, s1.(lead := Progress(s1.lead, p, response.matchIndex)));
      } else if response.AppendRejected? {
        RejectedNoop(s1, p, s.rpcs[call], response.conflictIndex);
      }
    case ReadRpc(_) => ReadNoop(n, s1, call, s.rpcs[call], response);
    case _ =>
  }

  lemma ProgressNoop(s: NodeState, p: NodeId, matchIndex: int)
    requires NoopOk(s) && matchIndex >= -1
    ensures NoopOk(s.(lead := Progress(s.lead, p, matchIndex)))
  {
    GuardOnly(s, s.(lead := Progress(s.lead, p, matchIndex)));
  }

  /** The guard does not look at next, matched, modes or the tables. */
  lemma GuardOnly(s: NodeState, t: NodeState)
    requires NoopOk(s) && t.ballot == s.ballot && t.journal == s.journal && t.commitment == s.commitment
    requires t.lead.epoch == s.lead.epoch && t.lead.noopIndex == s.lead.noopIndex && t.lead.broadcast == s.lead.broadcast
    ensures NoopOk(t)
  {
    assert forall k :: OwnAt(t, k) <==> OwnAt(s, k);
  }

  lemma RejectedNoop(s: NodeState, p: NodeId, rpc: Rpc, conflictIndex: nat)
    requires NoopOk(s) && rpc.AppendRpc? && rpc.prevLogIndex >= -1
    ensures NoopOk(OnAppendRejected(s, p, rpc, conflictIndex)) && NoopOk(OnAppendError(s, p, rpc))
  {
    GuardOnly(s, OnAppendRejected(s, p, rpc, conflictIndex));
    GuardOnly(s, OnAppendError(s, p, rpc));
  }

  lemma ReadNoop(n: NodeId, s: NodeState, call: Call, rpc: Rpc, response: Response)
    requires NoopOk(s) && rpc.ReadRpc?
    ensures NoopOk(OnReadResponse(n, s, call, rpc, response).s)
  {
    hide BecomeFollower;
    FollowerNoop(n, s, response.term, None);
    if response.term <= s.ballot.term {
      GuardOnly(s, OnReadResponse(n, s, call, rpc, response).s);
    }
  }

  lemma ClientNoop(cfg: Config, n: NodeId, s: NodeState, data: Command, ticket: nat)
    requires WellFormed(s) && NoopOk(s)
    ensures NoopOk(ClientAppend(cfg, n, s, data, ticket).s)
  {
    hide AppendToLog;
    var entry := Entry(s.ballot.term, |s.journal.log|, data);
    AppendNoop(cfg, n, s, [entry]);
    AppendFacts(cfg, n, s, [entry]);
    AwaitNoop(n, AppendToLog(cfg, n, s, [entry]).s, entry.index, entry, ticket);
    var duplicate := DuplicateOf(s.journal.log, data);
    if duplicate < |s.journal.log| {
      AwaitNoop(n, s, duplicate, s.journal.log[duplicate], ticket);
    }
  }

  lemma AwaitNoop(n: NodeId, s: NodeState, index: nat, entry: Entry, ticket: nat)
    requires NoopOk(s)
    ensures NoopOk(AwaitCommit(n, s, index, entry, ticket).s)
  {
    NoopCarried(s, AwaitCommit(n, s, index, entry, ticket).s);
  }

  lemma QuietNoop(cfg: Config, n: NodeId, s: NodeState, e: Event, ticket: nat)
    requires Enabled(cfg, n, s, e) && NoopOk(s)
    requires e.OnRpcError? || e.Pump? || e.PersistMetadata? || e.CommitTimeout? || e.ReadRequest? || e.ReadReply?
    ensures NoopOk(NodeStep(cfg, n, s, e, ticket).s)
  {
    var t := NodeStep(cfg, n, s, e, ticket).s;
    if e.OnRpcError? {
      var s1 := s.(rpcs := s.rpcs - {e.call});
      GuardOnly(s, s1);
      if s.rpcs[e.call].AppendRpc? {
        RejectedNoop(s1, e.call.callee, s.rpcs[e.call], 0);
      }
    } else if e.Pump? {
      GuardOnly(s, t);
    } else {
      NoopCarried(s, t);
    }
  }

  lemma TimeoutNoop(cfg: Config, n: NodeId, s: NodeState, ticket: nat)
    requires WellFormed(s) && NoopOk(s)
    ensures NoopOk(StartPreVote(cfg, n, s, ticket).s)
  {
    hide StartElection;
    var s1 := s.(ballot := s.ballot.(preVoteRound := s.ballot.preVoteRound + 1, preVoteGrants := {n}));
    NoopCarried(s, s1);
    ElectionNoop(cfg, n, s1, ticket);
    if QuorumSize(cfg) > 1 {
      NoopCarried(s, StartPreVote(cfg, n, s, ticket).s);
    }
  }

  /** A harmless callback leaves a leader whose open guard still means something. */
  lemma BroadcastNoop(s: NodeState)
    requires NoopOk(s) && TimelyBroadcast(s, Broadcast)
    ensures NoopOk(FireBroadcast(s))
  {
    var t := FireBroadcast(s);
    assert forall k :: OwnAt(t, k) <==> OwnAt(s, k);
  }

  lemma StepNoop(cfg: Config, n: NodeId, s: NodeState, e: Event, ticket: nat)
    requires Enabled(cfg, n, s, e) && NoopOk(s) && TimelyBroadcast(s, e)
    ensures NoopOk(NodeStep(cfg, n, s, e, ticket).s)
  {
    hide NoopOk, StartPreVote, HandleRequest, HandleResponse, ClientAppend, FlushLog, AdvanceCommit, FireBroadcast;
    match e
    case ElectionTimeout => TimeoutNoop(cfg, n, s, ticket);
    case OnRequest(call, request, heardRecently) => RequestNoop(cfg, n, s, call, request, heardRecently);
    case OnResponse(call, response) => ResponseNoop(cfg, n, s, call, response, ticket);
    case Flush => FlushNoop(cfg, n, s);
    case Advance => AdvanceNoop(cfg, n, s);
    case ClientRequest(data) => ClientNoop(cfg, n, s, data, ticket);
    case Broadcast => BroadcastNoop(s);
    case CrashAt(kept) => CrashNoop(s, kept);
    case RestartNow => RestartNoop(s);
    case _ => QuietNoop(cfg, n, s, e, ticket);
  }

  lemma CrashNoop(s: NodeState, kept: nat)
    requires s.journal.durable <= kept <= |s.journal.log|
    ensures NoopOk(Crash(s, kept))
  {
  }

  lemma RestartNoop(s: NodeState)
    requires WellFormed(s)
    ensures NoopOk(Restart(s))
  {
  }

  lemma RequestNoop(cfg: Config, n: NodeId, s: NodeState, call: Call, request: Request, heardRecently: bool)
    requires WellFormed(s) && !s.panicked && NoopOk(s) && SensibleRequest(request)
    ensures NoopOk(HandleRequest(cfg, n, s, call, request, heardRecently).s)
  {
    hide NoopOk, HandleRequestVote, HandleAppendEntries;
    match request
    case PreVote(_, _) =>
    case RequestVote(_, _) => HandleVoteNoop(n, s, call, request, heardRecently);
    case AppendEntries(_, _, _, _) => HandleAppendNoop(cfg, n, s, call, request);
  }

  /** A leader whose guard is open is caught up. */
  lemma OpenGuardIsCaughtUp(s: NodeState)
    requires NoopOk(s) && MayStartRead(s)
    ensures CaughtUp(s)
  {
  }
}
