/** Term adoption, votes and elections keep the invariant. */
module RaftElectionSteps {
  import opened RaftTypes
  import opened RaftEngine
  import opened RaftFrames
  import opened RaftHistory
  import opened RaftInvariant
  import opened RaftUpdates
  import opened RaftSteps
  import opened RaftFollowerSteps

  // ── stepping down and adopting a term ─────────────────────────────────────

  lemma StoredFromKnown(h: History, term: Term, index: int, log: seq<Entry>)
    requires KnownCommitted(h, term, index, log) && -1 <= index < |log|
    ensures StoredCommitOk(h, term, index, log)
  {
    if index != -1 {
      var t: Term :| t <= term && CommittedBy(h, t, index, log);
      assert CompatibleWith(h, t, index, log);
    }
  }

  lemma PersistKeeps(cfg: Config, h: History, n: NodeId, s: NodeState)
    requires HistoryOk(cfg, h) && NodeOk(cfg, h, n, s)
    ensures StepOk(cfg, n, h, h, Out(Persist(s), {}))
  {
    hide HistoryOk, JournalOk, WaitersOk, ClientsOk, RpcsOk;
    GrowsSame(n, h);
    StoredFromKnown(h, s.ballot.term, s.commitment.index, s.journal.log);
    assert NodeOk(cfg, h, n, Persist(s));
  }

  /** Every client still waiting is answered, truthfully, when the leadership ends. */
  lemma StepDownKeeps(cfg: Config, h: History, n: NodeId, s: NodeState, leaderId: Option<NodeId>)
    requires HistoryOk(cfg, h) && NodeOk(cfg, h, n, s)
    ensures StepOk(cfg, n, h, h, StepDown(n, s, leaderId))
  {
    hide HistoryOk, Grows, MessagesOk, JournalOk, WaitersOk, RpcsOk, StableOk, KnownCommitted, CommitReplies;
    GrowsSame(n, h);
    CommitRepliesOk(cfg, h, n, s, s.commitment.waiters);
  }

  lemma JournalLater(h: History, n: NodeId, term: Term, later: Term, j: Journal)
    requires JournalOk(h, n, term, j) && WaitersOk(h, n, term, j) && term < later && RecordsUpTo(h, n, term)
    ensures JournalOk(h, n, later, j) && WaitersOk(h, n, later, j)
  {
    forall t: Term, L: nat | Own(h, t, L) && L <= Acked(h, n, t)
      ensures (L <= j.durable && Agree(h.reigns[t].log, j.log, L)) || DroppedBy(h, t, L, later)
    {
      if DroppedBy(h, t, L, term) {
        DroppedLater(h, t, L, term, later);
      }
    }
    forall w | w in j.waiters ensures WaiterOk(h, n, later, j, w) {
      assert WaiterOk(h, n, term, j, w);
    }
  }

  lemma NewTermNodeOk(cfg: Config, h: History, n: NodeId, s: NodeState, term: Term)
    requires HistoryOk(cfg, h) && NodeOk(cfg, h, n, s) && s.ballot.role == Follower && term > s.ballot.term
    ensures NodeOk(cfg, h, n, Persist(s.(ballot := s.ballot.(term := term, votedFor := None))))
  {
    hide HistoryOk, JournalOk, WaitersOk, ClientsOk, RpcsOk;
    JournalLater(h, n, s.ballot.term, term, s.journal);
    StoredFromKnown(h, term, s.commitment.index, s.journal.log);
  }

  lemma AdoptTermKeeps(cfg: Config, h: History, n: NodeId, s: NodeState, term: Term) returns (h': History)
    requires HistoryOk(cfg, h) && NodeOk(cfg, h, n, s) && s.ballot.role == Follower
    ensures StepOk(cfg, n, h, h', AdoptTerm(s, term))
  {
    hide HistoryOk, NodeOk;
    h' := h;
    GrowsSame(n, h);
    if term > s.ballot.term {
      NewTermNodeOk(cfg, h, n, s, term);
      h' := ReleaseKeeps(cfg, h, n, Persist(s.(ballot := s.ballot.(term := term, votedFor := None))));
    } else {
      QuietStep(cfg, n, h, h, s);
    }
  }

  lemma BecomeFollowerKeeps(cfg: Config, h: History, n: NodeId, s: NodeState, term: Term, leaderId: Option<NodeId>) returns (h': History)
    requires HistoryOk(cfg, h) && NodeOk(cfg, h, n, s)
    ensures StepOk(cfg, n, h, h', BecomeFollower(n, s, term, leaderId))
  {
    hide HistoryOk, NodeOk, Grows, MessagesOk;
    StepDownKeeps(cfg, h, n, s, leaderId);
    var stepped := StepDown(n, s, leaderId);
    h' := AdoptTermKeeps(cfg, h, n, stepped.s, term);
    StepThen(cfg, n, h, h, h', stepped, AdoptTerm(stepped.s, term));
  }

  lemma BecomeFollowerFacts(n: NodeId, s: NodeState, term: Term, leaderId: Option<NodeId>)
    ensures var b := BecomeFollower(n, s, term, leaderId).s.ballot;
            && b.role == Follower && b.term == Max(s.ballot.term, term)
            && (term > s.ballot.term ==> b.votedFor == None)
  {
  }

  lemma AdoptLeaderKeeps(cfg: Config, h: History, n: NodeId, s: NodeState, call: Call) returns (h': History)
    requires HistoryOk(cfg, h) && NodeOk(cfg, h, n, s) && call.term >= s.ballot.term
    ensures StepOk(cfg, n, h, h', AdoptLeader(n, s, call))
    ensures var b := AdoptLeader(n, s, call).s.ballot; b.role == Follower && b.term == call.term
  {
    if call.term > s.ballot.term || s.ballot.role != Follower {
      hide HistoryOk, NodeOk;
      h' := BecomeFollowerKeeps(cfg, h, n, s, call.term, Some(call.caller));
      BecomeFollowerFacts(n, s, call.term, Some(call.caller));
    } else {
      h' := h;
      GrowsSame(n, h);
      assert NodeOk(cfg, h, n, AdoptLeader(n, s, call).s);
    }
  }

  lemma HandleAppendKeeps(cfg: Config, h: History, n: NodeId, s: NodeState, call: Call, request: Request) returns (h': History)
    requires HistoryOk(cfg, h) && NodeOk(cfg, h, n, s) && call.callee == n && WellFormed(s) && !s.panicked
    requires request.AppendEntries? && request.prevLogIndex >= -1
    requires AppendRequestOk(h, call, request.prevLogIndex, request.prevLogTerm, request.entries, request.leaderCommit)
    ensures StepOk(cfg, n, h, h', HandleAppendEntries(cfg, n, s, call, request))
  {
    hide HistoryOk, NodeOk, Grows, AdoptLeader, AcceptEntries, AppendRequestOk, Frame;
    if call.term < s.ballot.term {
      h' := h;
      GrowsSame(n, h);
    } else {
      var h1 := AdoptLeaderKeeps(cfg, h, n, s, call);
      var adopted := AdoptLeader(n, s, call);
      NodeOkIsWellFormed(cfg, h1, n, adopted.s);
      GrownAppendRequest(n, h, h1, call, request.prevLogIndex, request.prevLogTerm, request.entries, request.leaderCommit);
      h' := AcceptKeeps(cfg, h1, n, adopted.s, call, request);
      NodeFacts(cfg, h1, n, adopted.s);
      AcceptFrame(cfg, n, adopted.s, call, request);
      StepThen(cfg, n, h, h1, h', adopted, AcceptEntries(cfg, n, adopted.s, call, request));
    }
  }

  // ── votes ─────────────────────────────────────────────────────────────────

  lemma CastVoteNodeOk(cfg: Config, h: History, n: NodeId, s: NodeState, candidate: NodeId)
    requires HistoryOk(cfg, h) && NodeOk(cfg, h, n, s)
    requires s.ballot.votedFor == None || s.ballot.votedFor == Some(candidate)
    requires var h' := Voted(h, n, s.ballot.term, candidate); HistoryOk(cfg, h') && Grows(n, h, h')
    ensures NodeOk(cfg, Voted(h, n, s.ballot.term, candidate), n, CastVote(s, candidate))
  {
    hide HistoryOk, JournalOk, WaitersOk, ClientsOk, RpcsOk, KnownCommitted, StoredCommitOk, Grows;
    var h' := Voted(h, n, s.ballot.term, candidate);
    GrownJournal(cfg, n, h, h', n, s.ballot.term, s.journal);
    GrownKnownCommitted(n, h, h', s.ballot.term, s.commitment.index, s.journal.log);
    StoredFromKnown(h', s.ballot.term, s.commitment.index, s.journal.log);
    GrownRpcs(cfg, n, h, h', n, s.rpcs);
  }

  lemma CastVoteKeeps(cfg: Config, h: History, n: NodeId, s: NodeState, call: Call, request: Request) returns (h': History)
    requires HistoryOk(cfg, h) && NodeOk(cfg, h, n, s) && call.callee == n && call.term == s.ballot.term
    requires request.RequestVote? && VoteRequestOk(h, call, request.lastLogIndex, request.lastLogTerm)
    requires MayVote(s, call.caller, request.lastLogIndex, request.lastLogTerm)
    ensures StepOk(cfg, n, h, h', Out(CastVote(s, call.caller), {Resp(call, VoteResult(s.ballot.term, true))}))
  {
    hide HistoryOk, JournalOk, WaitersOk, RoleOk, CommitmentOk, ClientsOk, RpcsOk, StableOk, Grows;
    NodeFacts(cfg, h, n, s);
    h' := Voted(h, n, s.ballot.term, call.caller);
    VoteSound(cfg, h, n, s.ballot.term, call.caller, s.journal.log, s.journal.durable);
    CastVoteNodeOk(cfg, h, n, s, call.caller);
  }

  lemma HandleVoteKeeps(cfg: Config, h: History, n: NodeId, s: NodeState, call: Call, request: Request, heardRecently: bool) returns (h': History)
    requires HistoryOk(cfg, h) && NodeOk(cfg, h, n, s) && call.callee == n
    requires request.RequestVote? && VoteRequestOk(h, call, request.lastLogIndex, request.lastLogTerm)
    ensures StepOk(cfg, n, h, h', HandleRequestVote(n, s, call, request, heardRecently))
  {
    hide HistoryOk, NodeOk, Grows, BecomeFollower, MayVote;
    h' := h;
    GrowsSame(n, h);
    if call.term < s.ballot.term || (s.ballot.leaderId.Some? && heardRecently) {
    } else {
      QuietStep(cfg, n, h, h, s);
      var adopted := Out(s, {});
      if call.term > s.ballot.term {
        adopted := BecomeFollower(n, s, call.term, None);
        h' := BecomeFollowerKeeps(cfg, h, n, s, call.term, None);
        BecomeFollowerFacts(n, s, call.term, None);
      }
      var h1 := h';
      GrownVoteRequest(n, h, h1, call, request.lastLogIndex, request.lastLogTerm);
      if MayVote(adopted.s, call.caller, request.lastLogIndex, request.lastLogTerm) {
        h' := CastVoteKeeps(cfg, h1, n, adopted.s, call, request);
        StepThen(cfg, n, h, h1, h', adopted, Out(CastVote(adopted.s, call.caller), {Resp(call, VoteResult(adopted.s.ballot.term, true))}));
      } else {
        var refused := Out(adopted.s, {Resp(call, VoteResult(adopted.s.ballot.term, false))});
        GrowsSame(n, h1);
        StepThen(cfg, n, h, h1, h1, adopted, refused);
      }
    }
  }

  lemma GrownVoteRequest(n: NodeId, h: History, h': History, call: Call, lastLogIndex: int, lastLogTerm: Term)
    requires Grows(n, h, h') && VoteRequestOk(h, call, lastLogIndex, lastLogTerm)
    ensures VoteRequestOk(h', call, lastLogIndex, lastLogTerm)
  {
  }
}
