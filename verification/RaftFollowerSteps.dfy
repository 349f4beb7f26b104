/** The follower's side of AppendEntries keeps the invariant, and never cuts a committed entry. */
module RaftFollowerSteps {
  import opened RaftTypes
  import opened RaftEngine
  import opened RaftFrames
  import opened RaftHistory
  import opened RaftInvariant
  import opened RaftUpdates
  import opened RaftSteps

  // ── what a request proves about the local log ─────────────────────────────

  /** The consistency check: equal terms at prevLogIndex mean equal logs through it. */
  lemma CheckVerifies(cfg: Config, h: History, log: seq<Entry>, u: Term, prev: int, prevTerm: Term, entries: seq<Entry>)
    requires HistoryOk(cfg, h) && u in h.reigns && Coherent(h, log)
    requires PieceOf(h.reigns[u].log, prev, prevTerm, entries) && prev < |log|
    requires prev >= 0 ==> log[prev].term == prevTerm
    ensures Agree(log, h.reigns[u].log, prev + 1)
  {
    assert ReignOk(cfg, h, u);
    if prev >= 0 {
      CoherentAgree(h, log, h.reigns[u].log, prev);
    }
  }

  lemma HeldVerifies(cfg: Config, h: History, log: seq<Entry>, u: Term, from: nat, entries: seq<Entry>)
    requires HistoryOk(cfg, h) && u in h.reigns && Coherent(h, log)
    requires from + |entries| <= |h.reigns[u].log| && entries == h.reigns[u].log[from..from + |entries|]
    requires Agree(log, h.reigns[u].log, from)
    ensures Agree(log, h.reigns[u].log, from + HeldCount(log, from, entries))
  {
    assert ReignOk(cfg, h, u);
    var k := HeldCount(log, from, entries);
    if k > 0 {
      assert entries[k - 1] == h.reigns[u].log[from + k - 1];
      CoherentAgree(h, log, h.reigns[u].log, from + k - 1);
    }
  }

  /** Whatever the local log shares with the leader's lies below the first conflict. */
  lemma ConflictIsAbove(h: History, log: seq<Entry>, u: Term, from: nat, entries: seq<Entry>, L: nat)
    requires u in h.reigns && from <= |log|
    requires from + |entries| <= |h.reigns[u].log| && entries == h.reigns[u].log[from..from + |entries|]
    requires HeldCount(log, from, entries) < |entries| && from + HeldCount(log, from, entries) < |log|
    requires Agree(log, h.reigns[u].log, L)
    ensures L <= from + HeldCount(log, from, entries)
  {
  }

  /** What this replica knows to be committed is in the log of the leader it now follows. */
  lemma CommittedIsShared(cfg: Config, h: History, u: Term, index: int, log: seq<Entry>)
    requires HistoryOk(cfg, h) && u in h.reigns && KnownCommitted(h, u, index, log) && -1 <= index < |log|
    ensures Agree(log, h.reigns[u].log, index + 1)
  {
    if index >= 0 {
      var t: Term :| t <= u && CommittedBy(h, t, index, log);
      CommitCarries(cfg, h, t, u);
      AgreeShorter(h.reigns[t].log, h.reigns[u].log, h.reigns[t].commit + 1, index + 1);
    }
  }

  // ── cutting ───────────────────────────────────────────────────────────────

  /** A cut above everything shared with the current leader keeps every promise. */
  lemma CutHonoursAcks(cfg: Config, h: History, n: NodeId, u: Term, j: Journal, k: nat)
    requires HistoryOk(cfg, h) && u in h.reigns && k <= |j.log| && AcksHonoured(h, n, u, j.log, j.durable)
    requires RecordsUpTo(h, n, u)
    requires forall L: nat :: Agree(j.log, h.reigns[u].log, L) ==> L <= k
    ensures AcksHonoured(h, n, u, j.log[..k], k)
  {
    forall t: Term, L: nat | Own(h, t, L) && L <= Acked(h, n, t)
      ensures (L <= k && Agree(h.reigns[t].log, j.log[..k], L)) || DroppedBy(h, t, L, u)
    {
      if !DroppedBy(h, t, L, u) {
        assert (n, t) in h.acks && t <= u;
        if t < u {
          assert !Drops(h, t, L, u);
        }
        assert Agree(j.log, h.reigns[u].log, L);
        assert j.log[..k][..L] == j.log[..L];
      }
    }
  }

  lemma CommitmentCut(h: History, term: Term, c: Commitment, log: seq<Entry>, k: nat)
    requires CommitmentOk(h, term, c, log) && c.index < k <= |log|
    ensures CommitmentOk(h, term, c, log[..k])
  {
    assert log[..k][..c.index + 1] == log[..c.index + 1];
    if c.index != -1 {
      var t: Term :| t <= term && CommittedBy(h, t, c.index, log);
      assert CommittedBy(h, t, c.index, log[..k]);
    }
  }

  lemma StoredCommitCut(h: History, term: Term, index: int, log: seq<Entry>, k: nat)
    requires StoredCommitOk(h, term, index, log) && k <= |log|
    ensures StoredCommitOk(h, term, index, log[..k])
  {
    if index != -1 {
      var t: Term :| t <= term && CompatibleWith(h, t, index, log);
      AgreeShorter(log, h.reigns[t].log, Min(|log|, index + 1), Min(k, index + 1));
      assert log[..k][..Min(k, index + 1)] == log[..Min(k, index + 1)];
      assert CompatibleWith(h, t, index, log[..k]);
    }
  }

  function CutJournal(j: Journal, k: nat): Journal
    requires k <= |j.log|
  {
    Journal(j.log[..k], k, j.epoch + 1, j.waiters)
  }

  lemma CutNodeOk(cfg: Config, h: History, n: NodeId, s: NodeState, k: nat)
    requires HistoryOk(cfg, h) && NodeOk(cfg, h, n, s) && s.ballot.role == Follower
    requires s.ballot.term in h.reigns && s.commitment.index < k <= |s.journal.log|
    requires forall L: nat :: Agree(s.journal.log, h.reigns[s.ballot.term].log, L) ==> L <= k
    ensures NodeOk(cfg, h, n, s.(journal := CutJournal(s.journal, k)))
  {
    hide HistoryOk;
    var j := s.journal;
    CutHonoursAcks(cfg, h, n, s.ballot.term, j, k);
    assert Agree(j.log[..k], j.log, k);
    CoherentPrefix(h, j.log[..k], j.log);
    CommitmentCut(h, s.ballot.term, s.commitment, j.log, k);
    StoredCommitCut(h, s.stable.term, s.stable.commit, j.log, k);
    forall w | w in j.waiters ensures WaiterOk(h, n, s.ballot.term, CutJournal(j, k), w) {
      assert WaiterOk(h, n, s.ballot.term, j, w);
    }
  }

  lemma ReleaseKeepsLog(s: NodeState)
    ensures ReleaseDurableWaiters(s).s.journal.log == s.journal.log
  {
  }

  /** State Machine Safety at the truncation: the refusal is never reached. */
  lemma CutKeeps(cfg: Config, h: History, n: NodeId, s: NodeState, from: nat, entries: seq<Entry>) returns (h': History)
    requires HistoryOk(cfg, h) && NodeOk(cfg, h, n, s) && s.ballot.role == Follower
    requires s.ballot.term in h.reigns && from <= |s.journal.log|
    requires var log := h.reigns[s.ballot.term].log;
             from + |entries| <= |log| && entries == log[from..from + |entries|] && Agree(s.journal.log, log, from)
    ensures StepOk(cfg, n, h, h', CutConflict(s, from, entries))
    ensures var t := CutConflict(s, from, entries).s;
            var held := HeldCount(s.journal.log, from, entries);
            && t.ballot == s.ballot
            && from + held <= |t.journal.log|
            && Agree(t.journal.log, h'.reigns[s.ballot.term].log, from + held)
            && (held < |entries| ==> |t.journal.log| == from + held)
  {
    hide HistoryOk, NodeOk, AcksHonoured, TermsUpTo, RecordsUpTo, Coherent, KnownCommitted, MessagesOk, Grows, WaitersSane,
      ReignHeld, RecordsOnlyIn, ReleaseDurableWaiters, HeldCount, CommitmentOk, JournalOk, RpcsOk, StableOk;
    NodeFacts(cfg, h, n, s);
    var u, log := s.ballot.term, s.journal.log;
    var held := HeldCount(log, from, entries);
    HeldVerifies(cfg, h, log, u, from, entries);
    CommittedIsShared(cfg, h, u, s.commitment.index, log);
    if held < |entries| && from + held < |log| {
      forall L: nat | Agree(log, h.reigns[u].log, L) ensures L <= from + held {
        ConflictIsAbove(h, log, u, from, entries, L);
      }
      CutNodeOk(cfg, h, n, s, from + held);
      var t := s.(journal := CutJournal(s.journal, from + held));
      h' := ReleaseKeeps(cfg, h, n, t);
      NodeFacts(cfg, h, n, t);
      ReleaseFrame(t);
      ReleaseKeepsLog(t);
      assert Agree(log[..from + held], h.reigns[u].log, from + held);
      GrownAgree(n, h, h', u, log[..from + held], from + held);
    } else {
      h' := h;
      GrowsSame(n, h);
      QuietStep(cfg, n, h, h, s);
    }
  }

  // ── extending ─────────────────────────────────────────────────────────────

  lemma CommitmentExtended(h: History, term: Term, c: Commitment, log: seq<Entry>, more: seq<Entry>)
    requires CommitmentOk(h, term, c, log)
    ensures CommitmentOk(h, term, c, log + more)
  {
    assert (log + more)[..c.index + 1] == log[..c.index + 1];
    if c.index != -1 {
      var t: Term :| t <= term && CommittedBy(h, t, c.index, log);
      assert CommittedBy(h, t, c.index, log + more);
    }
  }

  /** A stored commit index stays compatible with any prefix of a later leader's log. */
  lemma StoredCommitFollows(cfg: Config, h: History, u: Term, term: Term, index: int, before: seq<Entry>, log: seq<Entry>)
    requires HistoryOk(cfg, h) && u in h.reigns && term <= u && StoredCommitOk(h, term, index, before)
    requires Agree(log, h.reigns[u].log, |log|)
    ensures StoredCommitOk(h, term, index, log)
  {
    if index != -1 {
      var t: Term :| t <= term && CompatibleWith(h, t, index, before);
      CommitCarries(cfg, h, t, u);
      var k := Min(|log|, index + 1);
      AgreeShorter(h.reigns[t].log, h.reigns[u].log, h.reigns[t].commit + 1, k);
      AgreeShorter(log, h.reigns[u].log, |log|, k);
      assert CompatibleWith(h, t, index, log);
    }
  }

  lemma JournalExtended(cfg: Config, h: History, n: NodeId, u: Term, j: Journal, more: seq<Entry>)
    requires HistoryOk(cfg, h) && u in h.reigns && JournalOk(h, n, u, j) && WaitersOk(h, n, u, j)
    requires Agree(j.log + more, h.reigns[u].log, |j.log + more|)
    ensures JournalOk(h, n, u, j.(log := j.log + more)) && WaitersOk(h, n, u, j.(log := j.log + more))
  {
    var j' := j.(log := j.log + more);
    assert ReignOk(cfg, h, u);
    CoherentPrefix(h, j'.log, h.reigns[u].log);
    forall i | 0 <= i < |j'.log| ensures j'.log[i].term <= u {
      ReignTermAt(cfg, h, u, i);
    }
    forall t: Term, L: nat | Own(h, t, L) && L <= Acked(h, n, t)
      ensures (L <= j.durable && Agree(h.reigns[t].log, j'.log, L)) || DroppedBy(h, t, L, u)
    {
      if L <= j.durable && Agree(h.reigns[t].log, j.log, L) {
        AgreeExtended(j.log, h.reigns[t].log, more, L);
      }
    }
    if Acked(h, n, u) > 0 {
      AgreeExtended(j.log, h.reigns[u].log, more, Acked(h, n, u));
    }
    forall w | w in j'.waiters ensures WaiterOk(h, n, u, j', w) {
      assert WaiterOk(h, n, u, j, w);
      if IsCurrent(u, j, w) {
        AgreeExtended(j.log, h.reigns[u].log, more, w.need);
      }
    }
  }

  lemma ExtendedNodeOk(cfg: Config, h: History, n: NodeId, s: NodeState, more: seq<Entry>)
    requires HistoryOk(cfg, h) && NodeOk(cfg, h, n, s) && s.ballot.role == Follower
    requires s.ballot.term in h.reigns
    requires Agree(s.journal.log + more, h.reigns[s.ballot.term].log, |s.journal.log + more|)
    ensures NodeOk(cfg, h, n, s.(journal := s.journal.(log := s.journal.log + more)))
  {
    hide HistoryOk, JournalOk, WaitersOk;
    var u, j := s.ballot.term, s.journal;
    JournalExtended(cfg, h, n, u, j, more);
    CommitmentExtended(h, u, s.commitment, j.log, more);
    StoredCommitFollows(cfg, h, u, s.stable.term, s.stable.commit, j.log, j.log + more);
  }

  /** Only a leader's flush can advance a commit index. */
  lemma FollowerAppend(cfg: Config, n: NodeId, s: NodeState, entries: seq<Entry>)
    requires WellFormed(s) && s.ballot.role != Leader
    ensures var t := AppendToLog(cfg, n, s, entries).s;
            t.ballot == s.ballot && t.commitment == s.commitment && t.journal.log == s.journal.log + entries
  {
  }

  // ── learning the commit index and acknowledging ───────────────────────────

  lemma LearnKeeps(cfg: Config, h: History, n: NodeId, s: NodeState, leaderCommit: int, last: int)
    requires HistoryOk(cfg, h) && NodeOk(cfg, h, n, s) && s.ballot.role == Follower
    requires s.ballot.term in h.reigns && CommitReached(h, s.ballot.term, leaderCommit)
    requires -1 <= last < |s.journal.log| && Agree(s.journal.log, h.reigns[s.ballot.term].log, last + 1)
    ensures NodeOk(cfg, h, n, LearnCommit(s, leaderCommit, last))
  {
    hide HistoryOk, JournalOk, WaitersOk;
    var u, log := s.ballot.term, s.journal.log;
    var index := Min(leaderCommit, last);
    if leaderCommit > s.commitment.index && index > s.commitment.index {
      var t: Term :| t <= u && Covers(h, t, leaderCommit);
      CommitCarries(cfg, h, t, u);
      AgreeShorter(h.reigns[t].log, h.reigns[u].log, h.reigns[t].commit + 1, index + 1);
      AgreeShorter(log, h.reigns[u].log, last + 1, index + 1);
      assert CommittedBy(h, t, index, log);
      assert log[..s.commitment.index + 1] + log[s.commitment.index + 1..index + 1] == log[..index + 1];
    }
  }

  lemma AcknowledgeKeeps(cfg: Config, h: History, n: NodeId, s: NodeState, call: Call, last: int) returns (h': History)
    requires HistoryOk(cfg, h) && NodeOk(cfg, h, n, s)
    requires s.ballot.term in h.reigns && call.callee == n && call.term == s.ballot.term
    requires -1 <= last < |s.journal.log| && Agree(s.journal.log, h.reigns[s.ballot.term].log, last + 1)
    ensures StepOk(cfg, n, h, h', RaftEngine.Acknowledge(s, call, last))
  {
    var out := RaftEngine.Acknowledge(s, call, last);
    if last >= s.journal.durable {
      h' := h;
      GrowsSame(n, h);
      forall w | w in out.s.journal.waiters ensures WaiterOk(h, n, s.ballot.term, out.s.journal, w) {
        assert w in s.journal.waiters ==> WaiterOk(h, n, s.ballot.term, s.journal, w);
      }
      assert NodeOk(cfg, h, n, out.s);
    } else {
      h' := Acknowledged(h, n, s.ballot.term, last + 1);
      AckOne(cfg, h, n, s, last + 1);
      assert MessageOk(cfg, h', Resp(call, AppendOk(s.ballot.term, last, |s.journal.log|)));
    }
  }

  // ── the whole handler ─────────────────────────────────────────────────────

  lemma ExtendKeeps(cfg: Config, h: History, n: NodeId, s: NodeState, call: Call, request: Request, held: nat) returns (h': History)
    requires HistoryOk(cfg, h) && NodeOk(cfg, h, n, s) && s.ballot.role == Follower
    requires call.callee == n && call.term == s.ballot.term && request.AppendEntries?
    requires AppendRequestOk(h, call, request.prevLogIndex, request.prevLogTerm, request.entries, request.leaderCommit)
    requires held <= |request.entries| && request.prevLogIndex + 1 + held <= |s.journal.log|
    requires held < |request.entries| ==> request.prevLogIndex + 1 + held == |s.journal.log|
    requires Agree(s.journal.log, h.reigns[s.ballot.term].log, request.prevLogIndex + 1 + held)
    requires WellFormed(s)
    ensures StepOk(cfg, n, h, h', Extend(cfg, n, s, call, request, held))
  {
    hide HistoryOk, NodeOk, MessagesOk, Grows, AppendToLog, LearnCommit, RaftEngine.Acknowledge, Agree, CommitReached, RecordsOnlyIn;
    var more, last := request.entries[held..], request.prevLogIndex + |request.entries|;
    var appended := AppendToLog(cfg, n, s, more);
    var h1 := MoreKept(cfg, h, n, s, request.prevLogIndex, request.entries, held);
    FollowerAppend(cfg, n, s, more);
    AppendFacts(cfg, n, s, more);
    GrownCommitReached(n, h, h1, s.ballot.term, request.leaderCommit);
    h' := LearnAndAcknowledge(cfg, h1, n, appended.s, call, request.leaderCommit, last);
    hide StepOk;
    StepThen(cfg, n, h, h1, h', appended, RaftEngine.Acknowledge(LearnCommit(appended.s, request.leaderCommit, last), call, last));
  }

  lemma LearnAndAcknowledge(cfg: Config, h: History, n: NodeId, s: NodeState, call: Call, leaderCommit: int, last: int) returns (h': History)
    requires HistoryOk(cfg, h) && NodeOk(cfg, h, n, s) && s.ballot.role == Follower && WellFormed(s)
    requires s.ballot.term in h.reigns && CommitReached(h, s.ballot.term, leaderCommit)
    requires call.callee == n && call.term == s.ballot.term
    requires -1 <= last < |s.journal.log| && Agree(s.journal.log, h.reigns[s.ballot.term].log, last + 1)
    ensures var out := RaftEngine.Acknowledge(LearnCommit(s, leaderCommit, last), call, last);
            StepOk(cfg, n, h, h', out) && out.s.ballot == s.ballot
  {
    hide HistoryOk, NodeOk, Agree, CommitReached, LearnCommit, RaftEngine.Acknowledge, Frame, StepOk, Coherent, TermsUpTo,
      KnownCommitted, ReignHeld, RecordsUpTo, AcksHonoured;
    var learned := LearnCommit(s, leaderCommit, last);
    LearnKeeps(cfg, h, n, s, leaderCommit, last);
    LearnFrame(s, leaderCommit, last);
    NodeFacts(cfg, h, n, learned);
    AcknowledgeFrame(learned, call, last);
    h' := AcknowledgeKeeps(cfg, h, n, learned, call, last);
  }

  /** After the append the log is the leader's through the last entry of the request. */
  lemma MoreKept(cfg: Config, h: History, n: NodeId, s: NodeState, prev: int, entries: seq<Entry>, held: nat) returns (h': History)
    requires HistoryOk(cfg, h) && NodeOk(cfg, h, n, s) && s.ballot.role == Follower && WellFormed(s)
    requires s.ballot.term in h.reigns && -1 <= prev && prev + 1 + |entries| <= |h.reigns[s.ballot.term].log|
    requires entries == h.reigns[s.ballot.term].log[prev + 1..prev + 1 + |entries|]
    requires held <= |entries| && prev + 1 + held <= |s.journal.log|
    requires held < |entries| ==> prev + 1 + held == |s.journal.log|
    requires Agree(s.journal.log, h.reigns[s.ballot.term].log, prev + 1 + held)
    ensures StepOk(cfg, n, h, h', AppendToLog(cfg, n, s, entries[held..]))
    ensures s.ballot.term in h'.reigns
    ensures var log := s.journal.log + entries[held..];
            prev + 1 + |entries| <= |log| && Agree(log, h'.reigns[s.ballot.term].log, prev + 1 + |entries|)
  {
    hide HistoryOk, NodeOk, MessagesOk, Grows;
    var u, log, more := s.ballot.term, s.journal.log, entries[held..];
    if more == [] {
      h' := h;
      GrowsSame(n, h);
      QuietStep(cfg, n, h, h, s);
      assert log + more == log;
    } else {
      ExtendedNodeOk(cfg, h, n, s, more);
      h' := AppendKeeps(cfg, h, n, s, more);
      GrownAgree(n, h, h', u, log + more, prev + 1 + |entries|);
    }
  }

  /** The part of the handler behind a successful consistency check. */
  lemma ConsistentKeeps(cfg: Config, h: History, n: NodeId, s: NodeState, call: Call, request: Request) returns (h': History)
    requires HistoryOk(cfg, h) && NodeOk(cfg, h, n, s) && s.ballot.role == Follower && WellFormed(s)
    requires call.callee == n && call.term == s.ballot.term && request.AppendEntries? && -1 <= request.prevLogIndex < |s.journal.log|
    requires AppendRequestOk(h, call, request.prevLogIndex, request.prevLogTerm, request.entries, request.leaderCommit)
    requires request.prevLogIndex >= 0 ==> s.journal.log[request.prevLogIndex].term == request.prevLogTerm
    ensures var held, cut := HeldCount(s.journal.log, request.prevLogIndex + 1, request.entries),
                             CutConflict(s, request.prevLogIndex + 1, request.entries);
            && WellFormed(cut.s) && !cut.s.panicked && request.prevLogIndex + 1 + held <= |cut.s.journal.log|
            && (held < |request.entries| ==> request.prevLogIndex + 1 + held == |cut.s.journal.log|)
            && StepOk(cfg, n, h, h', Then(cut, Extend(cfg, n, cut.s, call, request, held)))
  {
    hide HistoryOk, NodeOk, Grows, AcksHonoured, TermsUpTo, RecordsUpTo, KnownCommitted, CutConflict, Extend, Coherent,
      CommitReached, Agree, ReignHeld, WaitersSane, Frame, RecordsOnlyIn, HeldCount, MessagesOk;
    var from, log := request.prevLogIndex + 1, s.journal.log;
    NodeFacts(cfg, h, n, s);
    CheckVerifies(cfg, h, log, s.ballot.term, from - 1, request.prevLogTerm, request.entries);
    var h1 := CutKeeps(cfg, h, n, s, from, request.entries);
    var cut := CutConflict(s, from, request.entries);
    NodeFacts(cfg, h1, n, cut.s);
    GrownAppendRequest(n, h, h1, call, from - 1, request.prevLogTerm, request.entries, request.leaderCommit);
    h' := ExtendKeeps(cfg, h1, n, cut.s, call, request, HeldCount(log, from, request.entries));
    ExtendFrame(cfg, n, cut.s, call, request, HeldCount(log, from, request.entries));
    hide StepOk;
    StepThen(cfg, n, h, h1, h', cut, Extend(cfg, n, cut.s, call, request, HeldCount(log, from, request.entries)));
  }

  lemma AcceptKeeps(cfg: Config, h: History, n: NodeId, s: NodeState, call: Call, request: Request) returns (h': History)
    requires HistoryOk(cfg, h) && NodeOk(cfg, h, n, s) && s.ballot.role == Follower && WellFormed(s)
    requires call.callee == n && call.term == s.ballot.term && request.AppendEntries? && request.prevLogIndex >= -1
    requires AppendRequestOk(h, call, request.prevLogIndex, request.prevLogTerm, request.entries, request.leaderCommit)
    ensures StepOk(cfg, n, h, h', AcceptEntries(cfg, n, s, call, request))
  {
    hide HistoryOk, NodeOk, Grows, CutConflict, Extend, HeldCount, RunStart, AppendRequestOk, RecordsOnlyIn;
    var prev, log := request.prevLogIndex, s.journal.log;
    if prev < |log| && (prev >= 0 ==> log[prev].term == request.prevLogTerm) {
      hide StepOk;
      h' := ConsistentKeeps(cfg, h, n, s, call, request);
    } else {
      h' := h;
      GrowsSame(n, h);
      SameRecords(n, h, s.ballot);
    }
  }

  lemma SameRecords(n: NodeId, h: History, b: Ballot)
    ensures RecordsOnlyIn(n, h, h, b)
  {
  }
}
