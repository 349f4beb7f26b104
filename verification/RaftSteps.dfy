/** Every handler of a replica keeps the invariant, extending the history where it must. */
module RaftSteps {
  import opened RaftTypes
  import opened RaftEngine
  import opened RaftFrames
  import opened RaftHistory
  import opened RaftInvariant
  import opened RaftUpdates

  ghost predicate StepOk(cfg: Config, n: NodeId, h: History, h': History, out: Out) {
    && HistoryOk(cfg, h') && Grows(n, h, h')
    && NodeOk(cfg, h', n, out.s) && MessagesOk(cfg, h', out.msgs)
    && RecordsOnlyIn(n, h, h', out.s.ballot)
  }

  lemma StepThen(cfg: Config, n: NodeId, h: History, h1: History, h2: History, first: Out, second: Out)
    requires StepOk(cfg, n, h, h1, first) && StepOk(cfg, n, h1, h2, second)
    requires (first.s.ballot.term == second.s.ballot.term && first.s.ballot.role == second.s.ballot.role) || h1 == h
    ensures StepOk(cfg, n, h, h2, Then(first, second))
  {
    GrowsThen(n, h, h1, h2);
    MessagesUndisturbed(cfg, n, h1, h2, first.msgs);
  }

  lemma QuietStep(cfg: Config, n: NodeId, h: History, h': History, s: NodeState)
    requires HistoryOk(cfg, h') && Grows(n, h, h') && NodeOk(cfg, h', n, s) && RecordsOnlyIn(n, h, h', s.ballot)
    ensures StepOk(cfg, n, h, h', Out(s, {}))
  {
  }

  lemma DroppedLater(h: History, t: Term, L: nat, u: Term, u': Term)
    requires t in h.reigns && u <= u' && DroppedBy(h, t, L, u)
    ensures DroppedBy(h, t, L, u')
  {
    var w :| t < w <= u && Drops(h, t, L, w);
    assert t < w <= u';
  }

  // ── acknowledging ─────────────────────────────────────────────────────────

  /** Recording one durable acknowledgement in the current term disturbs nothing. */
  lemma AckOne(cfg: Config, h: History, n: NodeId, s: NodeState, L: nat)
    requires HistoryOk(cfg, h) && NodeOk(cfg, h, n, s)
    requires s.ballot.term in h.reigns && L <= s.journal.durable
    requires Agree(s.journal.log, h.reigns[s.ballot.term].log, L)
    ensures var h' := Acknowledged(h, n, s.ballot.term, L);
            StepOk(cfg, n, h, h', Out(s, {})) && Acked(h', n, s.ballot.term) >= L
  {
    hide HistoryOk, Grows, JournalOk, WaitersOk, RoleOk;
    var term := s.ballot.term;
    var h' := Acknowledged(h, n, term, L);
    AcknowledgeSound(cfg, h, n, term, L);
    AckedJournal(cfg, h, n, s, L);
    GrownKnownCommitted(n, h, h', term, s.commitment.index, s.journal.log);
    GrownStoredCommit(n, h, h', s.stable.term, s.stable.commit, s.journal.log);
    AckedRole(cfg, h, n, s, L);
    GrownRpcs(cfg, n, h, h', n, s.rpcs);
  }

  lemma AckedJournal(cfg: Config, h: History, n: NodeId, s: NodeState, L: nat)
    requires HistoryOk(cfg, h) && NodeOk(cfg, h, n, s)
    requires s.ballot.term in h.reigns && L <= s.journal.durable
    requires Agree(s.journal.log, h.reigns[s.ballot.term].log, L)
    requires Grows(n, h, Acknowledged(h, n, s.ballot.term, L))
    ensures var h' := Acknowledged(h, n, s.ballot.term, L);
            JournalOk(h', n, s.ballot.term, s.journal) && WaitersOk(h', n, s.ballot.term, s.journal)
  {
    var term, j := s.ballot.term, s.journal;
    var h' := Acknowledged(h, n, term, L);
    hide HistoryOk, Grows, Coherent, DroppedBy;
    GrownCoherent(n, h, h', j.log);
    forall t: Term, k: nat | Own(h', t, k) && k <= Acked(h', n, t)
      ensures (k <= j.durable && Agree(h'.reigns[t].log, j.log, k)) || DroppedBy(h', t, k, term)
    {
      assert Own(h, t, k);
      if k <= Acked(h, n, t) {
        GrownPromise(n, h, h', t, k, j.log, term);
      } else {
        AgreeShorter(j.log, h.reigns[t].log, L, k);
      }
    }
  }

  lemma AckedRole(cfg: Config, h: History, n: NodeId, s: NodeState, L: nat)
    requires RoleOk(cfg, h, n, s)
    ensures RoleOk(cfg, Acknowledged(h, n, s.ballot.term, L), n, s)
  {
  }

  /** Releasing acknowledgements: each current one is durable, so each can be recorded. */
  lemma AckAll(cfg: Config, h: History, n: NodeId, s: NodeState, ready: set<DurableWaiter>) returns (h': History)
    requires HistoryOk(cfg, h) && NodeOk(cfg, h, n, s)
    requires ready <= s.journal.waiters
    requires forall w :: w in ready && IsCurrent(s.ballot.term, s.journal, w) ==> w.need <= s.journal.durable
    ensures StepOk(cfg, n, h, h', Out(s, {}))
    ensures forall w :: w in ready && IsCurrent(s.ballot.term, s.journal, w) ==> w.need <= Acked(h', n, s.ballot.term)
  {
    hide HistoryOk, Grows;
    if ready == {} {
      h' := h;
      GrowsSame(n, h);
    } else {
      var w :| w in ready;
      var h1 := AckAll(cfg, h, n, s, ready - {w});
      h' := h1;
      if IsCurrent(s.ballot.term, s.journal, w) {
        assert WaiterOk(h1, n, s.ballot.term, s.journal, w);
        h' := Acknowledged(h1, n, s.ballot.term, w.need);
        AckOne(cfg, h1, n, s, w.need);
        GrowsThen(n, h, h1, h');
      }
    }
  }

  lemma ReleaseKeeps(cfg: Config, h: History, n: NodeId, s: NodeState) returns (h': History)
    requires HistoryOk(cfg, h) && NodeOk(cfg, h, n, s)
    ensures StepOk(cfg, n, h, h', ReleaseDurableWaiters(s))
  {
    var term, j := s.ballot.term, s.journal;
    var ready := Releasable(term, j);
    h' := AckAll(cfg, h, n, s, ready);
    var out := ReleaseDurableWaiters(s);
    forall m | m in out.msgs ensures MessageOk(cfg, h', m) {
      var w :| w in ready && m == ReleasedResponse(term, j, w);
      assert WaiterOk(h', n, term, j, w);
    }
    assert WaitersOk(h', n, term, out.s.journal) by {
      forall w | w in out.s.journal.waiters ensures WaiterOk(h', n, term, out.s.journal, w) {
        assert WaiterOk(h', n, term, j, w);
      }
    }
  }

  // ── commit ────────────────────────────────────────────────────────────────

  /** The replicas a leader counts all acknowledged durably, in its term. */
  lemma CountedReplicasBack(cfg: Config, h: History, n: NodeId, s: NodeState, index: nat)
    requires NodeOk(cfg, h, n, s) && s.ballot.role == Leader && index < |s.journal.log|
    requires Acked(h, n, s.ballot.term) >= s.journal.durable
    ensures |Replicas(cfg, n, s.journal, s.lead, index)| <= |Backers(cfg, h, s.ballot.term, index + 1)|
  {
    SubsetSize(Replicas(cfg, n, s.journal, s.lead, index), Backers(cfg, h, s.ballot.term, index + 1));
  }

  /** Answers to clients report as committed only what some leader committed. */
  lemma CommitRepliesOk(cfg: Config, h: History, n: NodeId, s: NodeState, waiters: set<CommitWaiter>)
    requires CommitmentOk(h, s.ballot.term, s.commitment, s.journal.log)
    requires forall w :: w in waiters ==> w.index < |s.journal.log| && s.journal.log[w.index] == w.entry
    ensures MessagesOk(cfg, h, CommitReplies(n, s.commitment.index, waiters))
  {
    forall m | m in CommitReplies(n, s.commitment.index, waiters) ensures MessageOk(cfg, h, m) {
      var w :| w in waiters && m == CommitReply(n, s.commitment.index, w);
    }
  }

  /** A leader may only commit what it has itself appended, on top of what it already committed. */
  lemma CommitFacts(cfg: Config, h: History, n: NodeId, s: NodeState, index: int)
    requires NodeOk(cfg, h, n, s) && s.ballot.role == Leader
    requires s.commitment.index < index < |s.journal.log| && Committable(cfg, n, s, index)
    requires Acked(h, n, s.ballot.term) >= s.journal.durable
    ensures index >= 0 && s.ballot.term in h.reigns
    ensures h.reigns[s.ballot.term].commit <= index < |h.reigns[s.ballot.term].log|
    ensures h.reigns[s.ballot.term].leader == n && h.reigns[s.ballot.term].log[index].term == s.ballot.term
    ensures |Backers(cfg, h, s.ballot.term, index + 1)| >= QuorumSize(cfg)
    ensures ClientsOk(s.ballot.role, s.commitment.waiters, s.journal.log)
  {
    hide Backers, Replicas, KnownCommitted, JournalOk, WaitersOk, RpcsOk, StableOk;
    CountedReplicasBack(cfg, h, n, s, index);
  }

  lemma CommitToKeeps(cfg: Config, h: History, n: NodeId, s: NodeState, index: int)
    requires HistoryOk(cfg, h) && NodeOk(cfg, h, n, s) && s.ballot.role == Leader
    requires s.commitment.index < index < |s.journal.log|
    requires Committable(cfg, n, s, index) && Acked(h, n, s.ballot.term) >= s.journal.durable
    ensures StepOk(cfg, n, h, RaftUpdates.Committed(h, s.ballot.term, index), CommitTo(n, s, index))
  {
    hide HistoryOk, NodeOk, Committable, Grows, MessagesOk, KnownCommitted, Backers;
    var term, log := s.ballot.term, s.journal.log;
    CommitFacts(cfg, h, n, s, index);
    var h' := RaftUpdates.Committed(h, term, index);
    CommitSound(cfg, h, term, index);
    CommitToNodeOk(cfg, h, h', n, s, index);
    var c := SetCommit(s.commitment, log, index);
    CommitRepliesOk(cfg, h', n, s.(commitment := c), Settled(c));
  }

  lemma CommitToNodeOk(cfg: Config, h: History, h': History, n: NodeId, s: NodeState, index: int)
    requires HistoryOk(cfg, h) && NodeOk(cfg, h, n, s) && s.ballot.role == Leader
    requires s.commitment.index < index < |s.journal.log| && s.ballot.term in h.reigns
    requires h' == RaftUpdates.Committed(h, s.ballot.term, index) && Grows(n, h, h')
    ensures NodeOk(cfg, h', n, CommitTo(n, s, index).s)
    ensures CommitmentOk(h', s.ballot.term, SetCommit(s.commitment, s.journal.log, index), s.journal.log)
  {
    hide HistoryOk, Grows, JournalOk, WaitersOk;
    var log := s.journal.log;
    assert log[..s.commitment.index + 1] + log[s.commitment.index + 1..index + 1] == log[..index + 1];
    assert CommittedBy(h', s.ballot.term, index, log);
    GrownJournal(cfg, n, h, h', n, s.ballot.term, s.journal);
    GrownStoredCommit(n, h, h', s.stable.term, s.stable.commit, log);
    GrownRpcs(cfg, n, h, h', n, s.rpcs);
  }

  lemma AdvanceKeeps(cfg: Config, h: History, n: NodeId, s: NodeState) returns (h': History)
    requires HistoryOk(cfg, h) && NodeOk(cfg, h, n, s)
    ensures StepOk(cfg, n, h, h', AdvanceCommit(cfg, n, s))
  {
    hide HistoryOk, Grows, MessagesOk, CommitTo, NodeOk, Committable, AcksHonoured, TermsUpTo, RecordsUpTo, Coherent, KnownCommitted, Frame, ReignHeld;
    NodeFacts(cfg, h, n, s);
    AdvanceFrame(cfg, n, s);
    h' := h;
    GrowsSame(n, h);
    QuietStep(cfg, n, h, h, s);
    if s.ballot.role == Leader {
      var index := FindCommit(cfg, n, s, |s.journal.log| - 1);
      if index != s.commitment.index {
        AckOne(cfg, h, n, s, s.journal.durable);
        var h1 := Acknowledged(h, n, s.ballot.term, s.journal.durable);
        CommitToKeeps(cfg, h1, n, s, index);
        h' := RaftUpdates.Committed(h1, s.ballot.term, index);
        GrowsThen(n, h, h1, h');
      }
    }
  }

  lemma FlushKeeps(cfg: Config, h: History, n: NodeId, s: NodeState) returns (h': History)
    requires HistoryOk(cfg, h) && NodeOk(cfg, h, n, s)
    ensures StepOk(cfg, n, h, h', FlushLog(cfg, n, s))
  {
    var flushed := s.(journal := s.journal.(durable := |s.journal.log|));
    var h1 := ReleaseKeeps(cfg, h, n, flushed);
    var released := ReleaseDurableWaiters(flushed);
    NodeFacts(cfg, h1, n, released.s);
    AdvanceFrame(cfg, n, released.s);
    h' := AdvanceKeeps(cfg, h1, n, released.s);
    StepThen(cfg, n, h, h1, h', released, AdvanceCommit(cfg, n, released.s));
  }

  /** Once the longer log is known to be sound, appending is keeping it and perhaps flushing. */
  lemma AppendKeeps(cfg: Config, h: History, n: NodeId, s: NodeState, entries: seq<Entry>) returns (h': History)
    requires HistoryOk(cfg, h) && WellFormed(s) && entries != []
    requires NodeOk(cfg, h, n, s.(journal := s.journal.(log := s.journal.log + entries)))
    ensures StepOk(cfg, n, h, h', AppendToLog(cfg, n, s, entries))
  {
    hide HistoryOk, NodeOk;
    var appended := s.(journal := s.journal.(log := s.journal.log + entries));
    if |appended.journal.log| - appended.journal.durable >= cfg.flushEntries {
      h' := FlushKeeps(cfg, h, n, appended);
    } else {
      h' := h;
      GrowsSame(n, h);
      QuietStep(cfg, n, h, h, appended);
    }
  }
}
