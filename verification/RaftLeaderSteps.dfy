/** Campaigning, leading, reading, crashing and restarting keep the invariant. */
module RaftLeaderSteps {
  import opened RaftTypes
  import opened RaftEngine
  import opened RaftCluster
  import opened RaftHistory
  import opened RaftInvariant
  import opened RaftUpdates
  import opened RaftSteps
  import opened RaftFollowerSteps
  import opened RaftElectionSteps

  // ── becoming leader ───────────────────────────────────────────────────────

  lemma NewReignJournal(cfg: Config, h: History, h': History, n: NodeId, term: Term, j: Journal)
    requires HistoryOk(cfg, h) && HistoryOk(cfg, h') && Grows(n, h, h')
    requires JournalOk(h, n, term, j) && WaitersOk(h, n, term, j) && TermsBelow(j.log, term)
    requires term !in h.reigns && h'.acks == h.acks
    requires var noop := Entry(term, |j.log|, Noop(n)); term in h'.reigns && h'.reigns[term].log == j.log + [noop]
    ensures var j' := j.(log := j.log + [Entry(term, |j.log|, Noop(n))]); JournalOk(h', n, term, j') && WaitersOk(h', n, term, j')
  {
    var noop := Entry(term, |j.log|, Noop(n));
    var j' := j.(log := j.log + [noop]);
    assert ReignOk(cfg, h', term);
    GrownAcksHonoured(cfg, n, h, h', n, term, j.log, j.durable);
    forall t: Term, L: nat | Own(h', t, L) && L <= Acked(h', n, t)
      ensures (L <= j.durable && Agree(h'.reigns[t].log, j'.log, L)) || DroppedBy(h', t, L, term)
    {
      if L <= j.durable && Agree(h'.reigns[t].log, j.log, L) {
        AgreeExtended(j.log, h'.reigns[t].log, [noop], L);
      }
    }
    forall w | w in j'.waiters ensures WaiterOk(h', n, term, j', w) {
      assert WaiterOk(h, n, term, j, w);
    }
  }

  /** A candidate with a majority: nobody else can have led the term, and its no-op opens the reign. */
  lemma ElectionWon(cfg: Config, h: History, n: NodeId, s: NodeState) returns (h': History)
    requires HistoryOk(cfg, h) && NodeOk(cfg, h, n, s) && s.ballot.role == Candidate
    requires |s.ballot.votes| >= QuorumSize(cfg)
    ensures var log := s.journal.log;
            && HistoryOk(cfg, h') && Grows(n, h, h') && s.ballot.term !in h.reigns
            && h'.acks == h.acks && h'.votes == h.votes && h'.cands == h.cands
            && s.ballot.term in h'.reigns
            && h'.reigns[s.ballot.term] == Reign(n, log + [Entry(s.ballot.term, |log|, Noop(n))],
                                                 log + [Entry(s.ballot.term, |log|, Noop(n))], s.ballot.votes, -1)
    ensures forall t: Term :: CommitOf(h', t) == CommitOf(h, t)
  {
    hide JournalOk, WaitersOk, CommitmentOk, ClientsOk, RpcsOk, StableOk, BallotOk;
    var term := s.ballot.term;
    if term in h.reigns {
      OneLeaderPerTerm(cfg, h, n, term, s.ballot.votes);
      assert false;
    }
    EnthroneSound(cfg, h, n, term, s.ballot.votes);
    h' := Enthroned(h, n, term, s.journal.log + [Entry(term, |s.journal.log|, Noop(n))], s.ballot.votes);
  }

  lemma LeaderNodeOk(cfg: Config, h: History, h': History, n: NodeId, s: NodeState)
    requires HistoryOk(cfg, h) && HistoryOk(cfg, h') && Grows(n, h, h') && NodeOk(cfg, h, n, s)
    requires s.ballot.role == Candidate && s.ballot.term !in h.reigns && h'.acks == h.acks
    requires h'.votes == h.votes && h'.cands == h.cands
    requires var log := s.journal.log + [Entry(s.ballot.term, |s.journal.log|, Noop(n))];
             s.ballot.term in h'.reigns && h'.reigns[s.ballot.term] == Reign(n, log, log, s.ballot.votes, -1)
    ensures var t := TakeLeadership(cfg, n, s);
            NodeOk(cfg, h', n, t.(journal := t.journal.(log := s.journal.log + [Entry(s.ballot.term, |s.journal.log|, Noop(n))])))
  {
    hide HistoryOk, JournalOk, WaitersOk, RpcsOk, Grows, CommitmentOk;
    var term, log := s.ballot.term, s.journal.log;
    var noop := Entry(term, |log|, Noop(n));
    NewReignJournal(cfg, h, h', n, term, s.journal);
    GrownCommitment(n, h, h', term, s.commitment, log);
    CommitmentExtended(h', term, s.commitment, log, [noop]);
    GrownStoredCommit(n, h, h', s.stable.term, s.stable.commit, log);
    StoredCommitFollows(cfg, h', term, s.stable.term, s.stable.commit, log, log + [noop]);
    GrownRpcs(cfg, n, h, h', n, s.rpcs);
  }

  lemma GrownCommitment(n: NodeId, h: History, h': History, term: Term, c: Commitment, log: seq<Entry>)
    requires Grows(n, h, h') && CommitmentOk(h, term, c, log)
    ensures CommitmentOk(h', term, c, log)
  {
    GrownKnownCommitted(n, h, h', term, c.index, log);
  }

  lemma BecomeLeaderKeeps(cfg: Config, h: History, n: NodeId, s: NodeState) returns (h': History)
    requires HistoryOk(cfg, h) && NodeOk(cfg, h, n, s) && s.ballot.role == Candidate && WellFormed(s)
    requires |s.ballot.votes| >= QuorumSize(cfg)
    ensures StepOk(cfg, n, h, h', BecomeLeader(cfg, n, s))
  {
    hide HistoryOk, NodeOk, Grows, MessagesOk, AppendToLog;
    var h1 := ElectionWon(cfg, h, n, s);
    LeaderNodeOk(cfg, h, h1, n, s);
    h' := AppendKeeps(cfg, h1, n, TakeLeadership(cfg, n, s), [Entry(s.ballot.term, |s.journal.log|, Noop(n))]);
    GrowsThen(n, h, h1, h');
  }

  // ── campaigning ───────────────────────────────────────────────────────────

  lemma CandidacyNodeOk(cfg: Config, h: History, n: NodeId, s: NodeState)
    requires HistoryOk(cfg, h) && NodeOk(cfg, h, n, s) && s.ballot.role != Leader
    ensures var h' := Campaigned(h, n, s.ballot.term + 1, s.journal.log);
            HistoryOk(cfg, h') && Grows(n, h, h') && NodeOk(cfg, h', n, Candidacy(n, s))
  {
    hide HistoryOk, JournalOk, WaitersOk, RpcsOk, CommitmentOk, Grows, AcksHonoured, Coherent, BallotOk, CampaignOk, StoredCommitOk;
    NodeFacts(cfg, h, n, s);
    var term, log := s.ballot.term, s.journal.log;
    var h' := Campaigned(h, n, term + 1, log);
    CampaignSound(cfg, h, n, term, log, s.journal.durable);
    JournalLater(h, n, term, term + 1, s.journal);
    GrownJournal(cfg, n, h, h', n, term + 1, s.journal);
    CommitmentCarriedOver(cfg, h, h', n, term, s.commitment, log);
    GrownRpcs(cfg, n, h, h', n, s.rpcs);
    CandidacyBallot(cfg, h, n, s);
  }

  lemma CandidacyBallot(cfg: Config, h: History, n: NodeId, s: NodeState)
    requires HistoryOk(cfg, h) && n in cfg.voters && BallotOk(h, n, s.ballot, s.stable) && TermsUpTo(s.journal.log, s.ballot.term)
    ensures var h' := Campaigned(h, n, s.ballot.term + 1, s.journal.log);
            var c := Candidacy(n, s);
            BallotOk(h', n, c.ballot, c.stable) && CampaignOk(cfg, h', n, c.ballot, s.journal.log)
  {
  }

  lemma CommitmentCarriedOver(cfg: Config, h: History, h': History, n: NodeId, term: Term, c: Commitment, log: seq<Entry>)
    requires CommitmentOk(h, term, c, log) && Grows(n, h, h')
    ensures CommitmentOk(h', term + 1, c.(dirty := false), log)
    ensures StoredCommitOk(h', term + 1, c.index, log)
  {
    GrownKnownCommitted(n, h, h', term + 1, c.index, log);
    StoredFromKnown(h', term + 1, c.index, log);
  }

  lemma MoreRpcs(cfg: Config, h: History, n: NodeId, s: NodeState, added: map<Call, Rpc>)
    requires NodeOk(cfg, h, n, s)
    requires forall c :: c in added ==> c.caller == n && c.callee in Peers(cfg, n) && !added[c].AppendRpc?
    ensures NodeOk(cfg, h, n, s.(rpcs := s.rpcs + added))
  {
    hide BallotOk, JournalOk, WaitersOk, CommitmentOk, ClientsOk, StableOk;
  }

  lemma StartElectionKeeps(cfg: Config, h: History, n: NodeId, s: NodeState, ticket: nat) returns (h': History)
    requires HistoryOk(cfg, h) && NodeOk(cfg, h, n, s) && s.ballot.role != Leader && WellFormed(s)
    ensures StepOk(cfg, n, h, h', StartElection(cfg, n, s, ticket))
  {
    hide HistoryOk, NodeOk, Grows, BecomeLeader;
    var s1 := Candidacy(n, s);
    var h1 := Campaigned(h, n, s.ballot.term + 1, s.journal.log);
    CandidacyNodeOk(cfg, h, n, s);
    if 1 >= QuorumSize(cfg) {
      h' := BecomeLeaderKeeps(cfg, h1, n, s1);
      GrowsThen(n, h, h1, h');
    } else {
      h' := h1;
      NodeFacts(cfg, h, n, s);
      var calls := FanOut(cfg, n, ticket, s1.ballot.term);
      MoreRpcs(cfg, h1, n, s1, map c | c in calls :: VoteRpc);
    }
  }

  lemma StartPreVoteKeeps(cfg: Config, h: History, n: NodeId, s: NodeState, ticket: nat) returns (h': History)
    requires HistoryOk(cfg, h) && NodeOk(cfg, h, n, s) && s.ballot.role != Leader && WellFormed(s)
    ensures StepOk(cfg, n, h, h', StartPreVote(cfg, n, s, ticket))
  {
    hide HistoryOk, Grows, StartElection, NodeOk;
    NodeFacts(cfg, h, n, s);
    var round := s.ballot.preVoteRound + 1;
    var s1 := s.(ballot := s.ballot.(preVoteRound := round, preVoteGrants := {n}));
    TallyKeeps(cfg, h, n, s, s1.ballot);
    if 1 >= QuorumSize(cfg) {
      h' := StartElectionKeeps(cfg, h, n, s1, ticket);
    } else {
      h' := h;
      GrowsSame(n, h);
      var calls := FanOut(cfg, n, ticket, s.ballot.term + 1);
      MoreRpcs(cfg, h, n, s1, map c | c in calls :: PreVoteRpc(round));
    }
  }

  /** The pre-vote tally and round are not part of what the invariant speaks about. */
  lemma TallyKeeps(cfg: Config, h: History, n: NodeId, s: NodeState, b: Ballot)
    requires NodeOk(cfg, h, n, s)
    requires b == s.ballot.(preVoteRound := b.preVoteRound, preVoteGrants := b.preVoteGrants)
    ensures NodeOk(cfg, h, n, s.(ballot := b))
  {
    hide JournalOk, WaitersOk, CommitmentOk, ClientsOk, StableOk, RpcsOk;
  }

  lemma FewerRpcs(cfg: Config, h: History, n: NodeId, s: NodeState, call: Call)
    requires NodeOk(cfg, h, n, s)
    ensures NodeOk(cfg, h, n, s.(rpcs := s.rpcs - {call}))
  {
    hide BallotOk, JournalOk, WaitersOk, CommitmentOk, ClientsOk, StableOk;
  }

  lemma OnPreVoteKeeps(cfg: Config, h: History, n: NodeId, s: NodeState, call: Call, rpc: Rpc, response: Response, ticket: nat) returns (h': History)
    requires HistoryOk(cfg, h) && NodeOk(cfg, h, n, s) && WellFormed(s) && rpc.PreVoteRpc?
    ensures StepOk(cfg, n, h, h', OnPreVoteResponse(cfg, n, s, call, rpc, response, ticket))
  {
    hide HistoryOk, NodeOk, Grows, StartElection, BecomeFollower;
    h' := h;
    GrowsSame(n, h);
    if response.term > s.ballot.term {
      h' := BecomeFollowerKeeps(cfg, h, n, s, response.term, None);
    } else {
      var s1 := s.(ballot := s.ballot.(preVoteGrants := s.ballot.preVoteGrants + {call.callee}));
      TallyKeeps(cfg, h, n, s, s1.ballot);
      if s.ballot.role != Leader && |s1.ballot.preVoteGrants| >= QuorumSize(cfg) {
        var h1 := StartElectionKeeps(cfg, h, n, s1, ticket);
        if response.PreVoteResult? && response.granted && rpc.round == s.ballot.preVoteRound && s.ballot.term + 1 == call.term {
          h' := h1;
        }
      }
    }
  }

  lemma VoteCounted(cfg: Config, h: History, n: NodeId, s: NodeState, p: NodeId)
    requires NodeOk(cfg, h, n, s) && s.ballot.role == Candidate && p in cfg.voters
    requires (p, s.ballot.term) in h.votes && h.votes[(p, s.ballot.term)] == n
    ensures NodeOk(cfg, h, n, s.(ballot := s.ballot.(votes := s.ballot.votes + {p})))
  {
    hide JournalOk, WaitersOk, CommitmentOk, ClientsOk, StableOk, RpcsOk;
  }

  lemma OnVoteKeeps(cfg: Config, h: History, n: NodeId, s: NodeState, call: Call, response: Response) returns (h': History)
    requires HistoryOk(cfg, h) && NodeOk(cfg, h, n, s) && WellFormed(s)
    requires call.caller == n && call.callee in cfg.voters && ResponseOk(h, call, response)
    ensures StepOk(cfg, n, h, h', OnVoteResponse(cfg, n, s, call, response))
  {
    hide HistoryOk, NodeOk, Grows, BecomeLeader, BecomeFollower;
    h' := h;
    GrowsSame(n, h);
    if response.term > s.ballot.term {
      h' := BecomeFollowerKeeps(cfg, h, n, s, response.term, None);
    } else if response.VoteResult? && response.granted && s.ballot.role == Candidate && s.ballot.term == call.term {
      var s1 := s.(ballot := s.ballot.(votes := s.ballot.votes + {call.callee}));
      VoteCounted(cfg, h, n, s, call.callee);
      if |s1.ballot.votes| >= QuorumSize(cfg) {
        h' := BecomeLeaderKeeps(cfg, h, n, s1);
      }
    }
  }

  // ── replicating ───────────────────────────────────────────────────────────

  /** What a leader sends is a piece of its log. */
  lemma AppendRequestSound(cfg: Config, h: History, n: NodeId, s: NodeState, call: Call, next: nat, count: nat)
    requires NodeOk(cfg, h, n, s) && s.ballot.role == Leader && next + count <= |s.journal.log|
    requires call.caller == n && call.callee in Peers(cfg, n) && call.term == s.ballot.term
    ensures MessageOk(cfg, h, Req(call, AppendRequest(s.journal.log, s.commitment.index, next, count)))
  {
  }

  lemma SendKeeps(cfg: Config, h: History, n: NodeId, s: NodeState, p: NodeId, count: nat, ticket: nat)
    requires HistoryOk(cfg, h) && NodeOk(cfg, h, n, s) && s.ballot.role == Leader && p in Peers(cfg, n)
    requires ClampedNext(s, p) + count <= |s.journal.log|
    ensures StepOk(cfg, n, h, h, SendAppend(n, s, p, count, ticket))
  {
    hide HistoryOk, JournalOk, WaitersOk, BallotOk, CommitmentOk, StableOk, AppendRequest;
    GrowsSame(n, h);
    AppendRequestSound(cfg, h, n, s, Call(ticket, n, p, s.ballot.term), ClampedNext(s, p), count);
  }

  lemma ProbeKeeps(cfg: Config, h: History, n: NodeId, s: NodeState, p: NodeId, next: nat)
    requires NodeOk(cfg, h, n, s) && s.ballot.role == Leader && p in Peers(cfg, n)
    requires MatchOf(s.lead, p) + 1 <= next <= |s.journal.log|
    ensures NodeOk(cfg, h, n, EnterProbe(s, p, next))
  {
    hide JournalOk, WaitersOk, BallotOk, CommitmentOk, StableOk, ClientsOk;
    var t := EnterProbe(s, p, next);
  }

  lemma AckedWithin(cfg: Config, h: History, p: NodeId, t: Term)
    requires HistoryOk(cfg, h) && t in h.reigns
    ensures Acked(h, p, t) <= |h.reigns[t].log|
  {
  }

  lemma ProgressKeeps(cfg: Config, h: History, n: NodeId, s: NodeState, p: NodeId, matchIndex: int)
    requires HistoryOk(cfg, h) && NodeOk(cfg, h, n, s) && s.ballot.role == Leader && p in Peers(cfg, n)
    requires -1 <= matchIndex && matchIndex + 1 <= Acked(h, p, s.ballot.term)
    ensures NodeOk(cfg, h, n, s.(lead := Progress(s.lead, p, matchIndex)))
  {
    hide HistoryOk, JournalOk, WaitersOk, BallotOk, CommitmentOk, StableOk, ClientsOk, RpcsOk;
    AckedWithin(cfg, h, p, s.ballot.term);
  }

  lemma OnAppendKeeps(cfg: Config, h: History, n: NodeId, s: NodeState, call: Call, rpc: Rpc, response: Response) returns (h': History)
    requires HistoryOk(cfg, h) && NodeOk(cfg, h, n, s) && WellFormed(s)
    requires call.caller == n && call.callee in Peers(cfg, n) && ResponseOk(h, call, response)
    requires rpc.AppendRpc? && rpc.prevLogIndex >= -1 && SensibleResponse(response)
    requires call.term in h.reigns && rpc.prevLogIndex + 1 <= |h.reigns[call.term].log|
    ensures StepOk(cfg, n, h, h', OnAppendResponse(cfg, n, s, call, rpc, response))
  {
    hide HistoryOk, NodeOk, Grows, BecomeFollower, AdvanceCommit, Progress, EnterProbe, ReleaseDurableWaiters;
    h' := h;
    GrowsSame(n, h);
    NodeFacts(cfg, h, n, s);
    if response.term > s.ballot.term {
      h' := BecomeFollowerKeeps(cfg, h, n, s, response.term, None);
    } else if rpc.epoch == s.lead.epoch && call.term == s.ballot.term && s.ballot.role == Leader {
      match response
      case AppendOk(_, matchIndex, _) =>
        ProgressKeeps(cfg, h, n, s, call.callee, matchIndex);
        h' := AdvanceKeeps(cfg, h, n, s.(lead := Progress(s.lead, call.callee, matchIndex)));
      case AppendRejected(_, conflictIndex, _) =>
        RejectedKeeps(cfg, h, n, s, call.callee, rpc, conflictIndex);
      case _ =>
    }
  }

  lemma RejectedKeeps(cfg: Config, h: History, n: NodeId, s: NodeState, p: NodeId, rpc: Rpc, conflictIndex: nat)
    requires NodeOk(cfg, h, n, s) && s.ballot.role == Leader && p in Peers(cfg, n)
    requires rpc.AppendRpc? && rpc.prevLogIndex >= -1 && rpc.prevLogIndex + 1 <= |s.journal.log|
    ensures NodeOk(cfg, h, n, OnAppendRejected(s, p, rpc, conflictIndex))
  {
    hide JournalOk, WaitersOk, BallotOk, CommitmentOk, StableOk, ClientsOk, RpcsOk, EnterProbe;
    var matched := MatchOf(s.lead, p);
    if rpc.prevLogIndex > matched {
      var hint := if conflictIndex >= rpc.prevLogIndex + 1 then rpc.prevLogIndex else conflictIndex;
      ProbeKeeps(cfg, h, n, s, p, Max(Max(matched + 1, 0), hint));
    }
  }

  lemma ErrorKeeps(cfg: Config, h: History, n: NodeId, s: NodeState, call: Call, rpc: Rpc)
    requires NodeOk(cfg, h, n, s) && call.callee in Peers(cfg, n)
    requires rpc.AppendRpc? && rpc.prevLogIndex >= -1
    ensures NodeOk(cfg, h, n, OnAppendError(s, call.callee, rpc))
  {
    hide JournalOk, WaitersOk, BallotOk, CommitmentOk, StableOk, ClientsOk, RpcsOk, EnterProbe;
    if rpc.epoch != s.lead.epoch || s.ballot.role != Leader || rpc.superseded {
    } else {
      var p := call.callee;
      var next := if p in s.lead.next then s.lead.next[p] else |s.journal.log|;
      ProbeKeeps(cfg, h, n, s, p, Max(Max(MatchOf(s.lead, p) + 1, 0), Min(next, rpc.prevLogIndex + 1)));
    }
  }

  // ── clients ───────────────────────────────────────────────────────────────

  lemma LeaderLogExtended(cfg: Config, h: History, h': History, n: NodeId, s: NodeState, entry: Entry)
    requires HistoryOk(cfg, h) && HistoryOk(cfg, h') && NodeOk(cfg, h, n, s) && s.ballot.role == Leader
    requires s.ballot.term in h.reigns && h' == Extended(h, s.ballot.term, entry) && Grows(n, h, h')
    ensures NodeOk(cfg, h', n, s.(journal := s.journal.(log := s.journal.log + [entry])))
  {
    hide HistoryOk, JournalOk, WaitersOk, RpcsOk, Grows, CommitmentOk;
    var term, log := s.ballot.term, s.journal.log;
    GrownJournal(cfg, n, h, h', n, term, s.journal);
    JournalExtended(cfg, h', n, term, s.journal, [entry]);
    GrownCommitment(n, h, h', term, s.commitment, log);
    CommitmentExtended(h', term, s.commitment, log, [entry]);
    GrownStoredCommit(n, h, h', s.stable.term, s.stable.commit, log);
    StoredCommitFollows(cfg, h', term, s.stable.term, s.stable.commit, log, log + [entry]);
    GrownRpcs(cfg, n, h, h', n, s.rpcs);
  }

  lemma LeaderAppendKeeps(cfg: Config, h: History, n: NodeId, s: NodeState, data: Command) returns (h': History)
    requires HistoryOk(cfg, h) && NodeOk(cfg, h, n, s) && s.ballot.role == Leader && WellFormed(s)
    requires DuplicateOf(s.journal.log, data) == |s.journal.log| && data.Client?
    ensures StepOk(cfg, n, h, h', AppendToLog(cfg, n, s, [Entry(s.ballot.term, |s.journal.log|, data)]))
  {
    hide HistoryOk, NodeOk, Grows, MessagesOk, AppendToLog;
    NodeFacts(cfg, h, n, s);
    var entry := Entry(s.ballot.term, |s.journal.log|, data);
    var h1 := Extended(h, s.ballot.term, entry);
    ExtendSound(cfg, h, s.ballot.term, entry);
    LeaderLogExtended(cfg, h, h1, n, s, entry);
    h' := AppendKeeps(cfg, h1, n, s, [entry]);
    GrowsThen(n, h, h1, h');
  }

  lemma AwaitKeeps(cfg: Config, h: History, n: NodeId, s: NodeState, index: nat, entry: Entry, ticket: nat)
    requires HistoryOk(cfg, h) && NodeOk(cfg, h, n, s)
    requires index < |s.journal.log| && s.journal.log[index] == entry
    ensures StepOk(cfg, n, h, h, AwaitCommit(n, s, index, entry, ticket))
  {
    hide HistoryOk, JournalOk, WaitersOk, RpcsOk, BallotOk, StableOk;
    GrowsSame(n, h);
  }

  lemma AwaitFrame(n: NodeId, s: NodeState, index: nat, entry: Entry, ticket: nat)
    ensures AwaitCommit(n, s, index, entry, ticket).s.ballot == s.ballot
  {
  }

  lemma ClientAppendKeeps(cfg: Config, h: History, n: NodeId, s: NodeState, data: Command, ticket: nat) returns (h': History)
    requires HistoryOk(cfg, h) && NodeOk(cfg, h, n, s) && s.ballot.role == Leader && WellFormed(s) && data.Client?
    ensures StepOk(cfg, n, h, h', ClientAppend(cfg, n, s, data, ticket))
  {
    hide HistoryOk, NodeOk, Grows, MessagesOk, AppendToLog, AwaitCommit;
    var log := s.journal.log;
    var duplicate := DuplicateOf(log, data);
    if duplicate < |log| {
      h' := h;
      AwaitKeeps(cfg, h, n, s, duplicate, log[duplicate], ticket);
    } else {
      var entry := Entry(s.ballot.term, |log|, data);
      var appended := AppendToLog(cfg, n, s, [entry]);
      h' := LeaderAppendKeeps(cfg, h, n, s, data);
      AppendFacts(cfg, n, s, [entry]);
      AwaitKeeps(cfg, h', n, appended.s, entry.index, entry, ticket);
      AwaitFrame(n, appended.s, entry.index, entry, ticket);
      StepThen(cfg, n, h, h', h', appended, AwaitCommit(n, appended.s, entry.index, entry, ticket));
    }
  }

  lemma ExpireKeeps(cfg: Config, h: History, n: NodeId, s: NodeState, w: CommitWaiter)
    requires HistoryOk(cfg, h) && NodeOk(cfg, h, n, s) && w in s.commitment.waiters
    ensures StepOk(cfg, n, h, h, ExpireCommitWaiter(n, s, w))
  {
    hide HistoryOk, JournalOk, WaitersOk, RpcsOk, BallotOk, StableOk;
    GrowsSame(n, h);
  }

  // ── reading ───────────────────────────────────────────────────────────────

  lemma StartReadKeeps(cfg: Config, h: History, n: NodeId, s: NodeState, ticket: nat)
    requires HistoryOk(cfg, h) && NodeOk(cfg, h, n, s) && s.ballot.role == Leader
    ensures StepOk(cfg, n, h, h, StartRead(cfg, n, s, ticket))
  {
    hide HistoryOk, NodeOk, AppendRequest;
    GrowsSame(n, h);
    var calls := FanOut(cfg, n, ticket, s.ballot.term);
    var out := StartRead(cfg, n, s, ticket);
    MoreRpcs(cfg, h, n, s, map c | c in calls :: ReadRpc(ticket));
    ReadsKept(cfg, h, n, s.(rpcs := out.s.rpcs), out.s.pendingReads);
    forall m | m in out.msgs ensures MessageOk(cfg, h, m) {
      var c :| c in calls && m == Req(c, AppendRequest(s.journal.log, s.commitment.index, ClampedNext(s, c.callee), 0));
      AppendRequestSound(cfg, h, n, s, c, ClampedNext(s, c.callee), 0);
    }
  }

  lemma ReadsKept(cfg: Config, h: History, n: NodeId, s: NodeState, pending: map<nat, Read>)
    requires NodeOk(cfg, h, n, s)
    ensures NodeOk(cfg, h, n, s.(pendingReads := pending))
  {
    hide JournalOk, WaitersOk, BallotOk, CommitmentOk, StableOk, ClientsOk, RpcsOk;
  }

  lemma OnReadKeeps(cfg: Config, h: History, n: NodeId, s: NodeState, call: Call, rpc: Rpc, response: Response) returns (h': History)
    requires HistoryOk(cfg, h) && NodeOk(cfg, h, n, s) && rpc.ReadRpc?
    ensures StepOk(cfg, n, h, h', OnReadResponse(n, s, call, rpc, response))
  {
    hide HistoryOk, NodeOk, Grows, BecomeFollower;
    h' := h;
    GrowsSame(n, h);
    if response.term > s.ballot.term {
      h' := BecomeFollowerKeeps(cfg, h, n, s, response.term, None);
    } else {
      ReadsKept(cfg, h, n, s, OnReadResponse(n, s, call, rpc, response).s.pendingReads);
    }
  }

  lemma AnswerKeeps(cfg: Config, h: History, n: NodeId, s: NodeState, readId: nat)
    requires HistoryOk(cfg, h) && NodeOk(cfg, h, n, s)
    ensures StepOk(cfg, n, h, h, AnswerRead(n, s, readId))
  {
    hide HistoryOk, JournalOk, WaitersOk, RpcsOk, BallotOk, StableOk, ClientsOk;
    GrowsSame(n, h);
    ReadsKept(cfg, h, n, s, s.pendingReads - {readId});
    AppliedIsCommitted(h, s.ballot.term, s.commitment, s.journal.log);
  }

  lemma AppliedIsCommitted(h: History, term: Term, c: Commitment, log: seq<Entry>)
    requires CommitmentOk(h, term, c, log)
    ensures AllCommitted(h, c.applied)
  {
    if c.index >= 0 {
      var t: Term :| t <= term && CommittedBy(h, t, c.index, log);
      assert log[..c.index + 1][..c.index + 1] == log[..c.index + 1];
      assert CommittedBy(h, t, c.index, c.applied);
      assert AllCommittedUpTo(h, term, c.applied);
    }
  }

  // ── crash and restart ─────────────────────────────────────────────────────

  lemma CrashKeeps(cfg: Config, h: History, n: NodeId, s: NodeState, kept: nat)
    requires HistoryOk(cfg, h) && NodeOk(cfg, h, n, s) && s.journal.durable <= kept <= |s.journal.log|
    ensures StepOk(cfg, n, h, h, Out(Crash(s, kept), {}))
  {
    hide HistoryOk;
    GrowsSame(n, h);
    var term, j := s.ballot.term, s.journal;
    StoredCommitCut(h, s.stable.term, s.stable.commit, j.log, kept);
    assert Agree(j.log[..kept], j.log, kept);
    CoherentPrefix(h, j.log[..kept], j.log);
    forall t: Term, L: nat | Own(h, t, L) && L <= Acked(h, n, t)
      ensures (L <= kept && Agree(h.reigns[t].log, j.log[..kept], L)) || DroppedBy(h, t, L, term)
    {
      if L <= j.durable {
        assert j.log[..kept][..L] == j.log[..L];
      }
    }
    if Acked(h, n, term) > 0 {
      assert j.log[..kept][..Acked(h, n, term)] == j.log[..Acked(h, n, term)];
    }
    assert NodeOk(cfg, h, n, Crash(s, kept));
  }

  /** The commit index read back on restart covers only committed entries of the log read back with it. */
  lemma RestoredCommit(h: History, term: Term, index: int, log: seq<Entry>)
    requires StoredCommitOk(h, term, index, log) && -1 <= index
    ensures KnownCommitted(h, term, Min(index, |log| - 1), log)
  {
    if index != -1 && |log| > 0 {
      var t: Term :| t <= term && CompatibleWith(h, t, index, log);
      assert CommittedBy(h, t, Min(index, |log| - 1), log);
    }
  }

  lemma RestartKeeps(cfg: Config, h: History, n: NodeId, s: NodeState)
    requires HistoryOk(cfg, h) && NodeOk(cfg, h, n, s)
    ensures StepOk(cfg, n, h, h, Out(Restart(s), {}))
  {
    hide HistoryOk;
    GrowsSame(n, h);
    var log := s.journal.log;
    RestoredCommit(h, s.ballot.term, s.stable.commit, log);
    assert NodeOk(cfg, h, n, Restart(s));
  }
}
