/** What a run of the cluster guarantees, stated on its states alone. */
module RaftTheorems {
  import opened RaftTypes
  import opened RaftCluster
  import opened RaftHistory
  import opened RaftInvariant
  import opened RaftSafety

  ghost predicate At(run: Run, i: nat, n: NodeId) {
    i < |run.states| && n in run.states[i].nodes
  }

  function NodeAt(run: Run, i: nat, n: NodeId): NodeState
    requires i < |run.states| && n in run.states[i].nodes
  {
    run.states[i].nodes[n]
  }

  // ── committed entries ─────────────────────────────────────────────────────

  /** Entry k is what the leader of term t committed there. */
  ghost predicate CommittedEntryIs(h: History, t: Term, k: nat, e: Entry) {
    Covers(h, t, k) && k < |h.reigns[t].log| && h.reigns[t].log[k] == e
  }

  lemma AppliedEntry(cfg: Config, h: History, n: NodeId, s: NodeState, k: nat) returns (t: Term)
    requires NodeOk(cfg, h, n, s) && k < |s.commitment.applied|
    ensures CommittedEntryIs(h, t, k, s.commitment.applied[k]) && s.commitment.applied[k] == s.journal.log[k]
    ensures t <= s.ballot.term
  {
    t :| t <= s.ballot.term && CommittedBy(h, t, s.commitment.index, s.journal.log);
  }

  lemma OneCommittedEntry(cfg: Config, h: History, t: Term, u: Term, k: nat, e: Entry, f: Entry)
    requires HistoryOk(cfg, h) && CommittedEntryIs(h, t, k, e) && CommittedEntryIs(h, u, k, f)
    ensures e == f
  {
    if t <= u {
      CommitCarries(cfg, h, t, u);
    } else {
      CommitCarries(cfg, h, u, t);
    }
  }

  lemma StaysCommitted(h: History, h': History, t: Term, k: nat, e: Entry)
    requires Later(h, h') && CommittedEntryIs(h, t, k, e)
    ensures CommittedEntryIs(h', t, k, e)
  {
    assert h'.reigns[t].log[..|h.reigns[t].log|][k] == h'.reigns[t].log[k];
  }

  ghost predicate SameRun(h: History, h': History) {
    Later(h, h') || Later(h', h)
  }

  lemma HistoriesAt(cfg: Config, run: Run, i: nat, j: nat) returns (hi: History, hj: History)
    requires IsRun(cfg, run) && i < |run.states| && j < |run.states|
    ensures ClusterOk(cfg, hi, run.states[i]) && ClusterOk(cfg, hj, run.states[j]) && SameRun(hi, hj)
    ensures HistoryOk(cfg, hi) && HistoryOk(cfg, hj)
  {
    hide HistoryOk, NodesOk, MessagesOk, Later, Step, CanStep;
    if i <= j {
      hi, hj := HistoriesOf(cfg, run, i, j);
    } else {
      hj, hi := HistoriesOf(cfg, run, j, i);
    }
  }

  /** Two leaders, seen from any two moments of a run, committed the same entry at an index. */
  lemma CommittedOnce(cfg: Config, h: History, h': History, t: Term, u: Term, k: nat, e: Entry, f: Entry)
    requires HistoryOk(cfg, h) && HistoryOk(cfg, h') && SameRun(h, h')
    requires CommittedEntryIs(h, t, k, e) && CommittedEntryIs(h', u, k, f)
    ensures e == f
  {
    hide HistoryOk, CommittedEntryIs, Later;
    if Later(h, h') {
      StaysCommitted(h, h', t, k, e);
      OneCommittedEntry(cfg, h', t, u, k, e, f);
    } else {
      StaysCommitted(h', h, u, k, f);
      OneCommittedEntry(cfg, h, t, u, k, e, f);
    }
  }

  lemma NodeAtOk(cfg: Config, h: History, run: Run, i: nat, n: NodeId)
    requires At(run, i, n) && ClusterOk(cfg, h, run.states[i])
    ensures NodeOk(cfg, h, n, NodeAt(run, i, n))
  {
  }

  /** State Machine Safety: over a whole run, no index is ever applied with two different entries. */
  lemma StateMachineSafety(cfg: Config, run: Run, i: nat, j: nat, a: NodeId, b: NodeId, k: nat)
    requires IsRun(cfg, run) && At(run, i, a) && At(run, j, b)
    requires k < |NodeAt(run, i, a).commitment.applied| && k < |NodeAt(run, j, b).commitment.applied|
    ensures NodeAt(run, i, a).commitment.applied[k] == NodeAt(run, j, b).commitment.applied[k]
  {
    hide ClusterOk, SameRun, CommittedEntryIs, NodeOk, IsRun;
    var hi, hj := HistoriesAt(cfg, run, i, j);
    NodeAtOk(cfg, hi, run, i, a);
    NodeAtOk(cfg, hj, run, j, b);
    var t := AppliedEntry(cfg, hi, a, NodeAt(run, i, a), k);
    var u := AppliedEntry(cfg, hj, b, NodeAt(run, j, b), k);
    CommittedOnce(cfg, hi, hj, t, u, k, NodeAt(run, i, a).commitment.applied[k], NodeAt(run, j, b).commitment.applied[k]);
  }

  /** The refusal to discard a committed entry is never reached, and the guards of a step never bite. */
  lemma NeverRefusesToTruncate(cfg: Config, run: Run, i: nat, n: NodeId)
    requires IsRun(cfg, run) && At(run, i, n)
    ensures !NodeAt(run, i, n).panicked && WellFormed(NodeAt(run, i, n))
    ensures forall c, request :: Req(c, request) in run.states[i].net ==> SensibleRequest(request)
    ensures forall c, response :: Resp(c, response) in run.states[i].net ==> SensibleResponse(response)
  {
    var h, _ := HistoriesOf(cfg, run, i, i);
    GuardsAlwaysHold(cfg, h, run.states[i], n);
  }

  /** Log Matching, across replicas and across time. */
  lemma LogMatching(cfg: Config, run: Run, i: nat, j: nat, a: NodeId, b: NodeId, k: nat)
    requires IsRun(cfg, run) && At(run, i, a) && At(run, j, b)
    requires k < |NodeAt(run, i, a).journal.log| && k < |NodeAt(run, j, b).journal.log|
    requires NodeAt(run, i, a).journal.log[k].term == NodeAt(run, j, b).journal.log[k].term
    ensures Agree(NodeAt(run, i, a).journal.log, NodeAt(run, j, b).journal.log, k + 1)
  {
    if j < i {
      LogMatching(cfg, run, j, i, b, a, k);
    } else {
      var hi, hj := HistoriesOf(cfg, run, i, j);
      NodeAtOk(cfg, hi, run, i, a);
      NodeAtOk(cfg, hj, run, j, b);
      CoherentLater(hi, hj, NodeAt(run, i, a).journal.log);
      CoherentAgree(hj, NodeAt(run, i, a).journal.log, NodeAt(run, j, b).journal.log, k);
    }
  }

  lemma CoherentLater(h: History, h': History, log: seq<Entry>)
    requires Later(h, h') && Coherent(h, log)
    ensures Coherent(h', log)
  {
    forall i | 0 <= i < |log| ensures EntryKnown(h', log, i) {
      assert EntryKnown(h, log, i);
      var whole, whole' := h.reigns[log[i].term].log, h'.reigns[log[i].term].log;
      assert whole'[..i + 1] == whole'[..|whole|][..i + 1] == whole[..i + 1];
    }
  }

  /** No log ever holds two entries of one client request, and every entry knows its position. */
  lemma AtMostOnce(cfg: Config, run: Run, i: nat, n: NodeId)
    requires IsRun(cfg, run) && At(run, i, n)
    ensures NoDuplicates(NodeAt(run, i, n).journal.log) && WellIndexed(NodeAt(run, i, n).journal.log)
  {
    var h, _ := HistoriesOf(cfg, run, i, i);
    NodeAtOk(cfg, h, run, i, n);
    CoherentLogFacts(cfg, h, NodeAt(run, i, n).journal.log);
  }

  /** `committed: true` names the very entry that every replica applies at that index, before or after. */
  lemma CommittedReplyIsTrue(cfg: Config, run: Run, i: nat, reply: Message, j: nat, b: NodeId)
    requires IsRun(cfg, run) && i < |run.states| && At(run, j, b)
    requires reply in run.states[i].net && reply.ClientReply? && reply.committed
    requires reply.index < |NodeAt(run, j, b).commitment.applied|
    ensures NodeAt(run, j, b).commitment.applied[reply.index] == reply.entry
  {
    hide ClusterOk, SameRun, CommittedEntryIs, NodeOk, IsRun;
    var hi, hj := HistoriesAt(cfg, run, i, j);
    NodeAtOk(cfg, hj, run, j, b);
    var t := RepliedEntry(cfg, hi, run.states[i], reply);
    var u := AppliedEntry(cfg, hj, b, NodeAt(run, j, b), reply.index);
    CommittedOnce(cfg, hi, hj, t, u, reply.index, reply.entry, NodeAt(run, j, b).commitment.applied[reply.index]);
  }

  lemma RepliedEntry(cfg: Config, h: History, c: Cluster, reply: Message) returns (t: Term)
    requires ClusterOk(cfg, h, c) && reply in c.net && reply.ClientReply? && reply.committed
    ensures CommittedEntryIs(h, t, reply.index, reply.entry)
  {
    hide HistoryOk, NodesOk;
    assert MessageOk(cfg, h, reply);
    t :| Covers(h, t, reply.index) && reply.index < |h.reigns[t].log| && h.reigns[t].log[reply.index] == reply.entry;
  }

  /**
   * The lazily persisted commit index is safe whenever it is read back: wherever the durable log
   * reaches it, even after being lost and written again, it holds what the cluster committed.
   */
  lemma LazyCommitIsSafe(cfg: Config, run: Run, i: nat, n: NodeId, k: nat, j: nat, b: NodeId)
    requires IsRun(cfg, run) && At(run, i, n) && At(run, j, b)
    requires k <= Min(NodeAt(run, i, n).stable.commit, |NodeAt(run, i, n).journal.log| - 1)
    requires k < |NodeAt(run, j, b).commitment.applied|
    ensures NodeAt(run, j, b).commitment.applied[k] == NodeAt(run, i, n).journal.log[k]
  {
    hide ClusterOk, SameRun, CommittedEntryIs, NodeOk, IsRun;
    var hi, hj := HistoriesAt(cfg, run, i, j);
    NodeAtOk(cfg, hi, run, i, n);
    NodeAtOk(cfg, hj, run, j, b);
    var t := StoredEntry(cfg, hi, n, NodeAt(run, i, n), k);
    var u := AppliedEntry(cfg, hj, b, NodeAt(run, j, b), k);
    CommittedOnce(cfg, hi, hj, t, u, k, NodeAt(run, i, n).journal.log[k], NodeAt(run, j, b).commitment.applied[k]);
  }

  lemma StoredEntry(cfg: Config, h: History, n: NodeId, s: NodeState, k: nat) returns (t: Term)
    requires NodeOk(cfg, h, n, s) && k <= Min(s.stable.commit, |s.journal.log| - 1)
    ensures CommittedEntryIs(h, t, k, s.journal.log[k])
  {
    var log := s.journal.log;
    t :| t <= s.stable.term && CompatibleWith(h, t, s.stable.commit, log);
  }

  // ── elections ─────────────────────────────────────────────────────────────

  /** Election Safety: over a whole run, one term has one leader. */
  lemma ElectionSafety(cfg: Config, run: Run, i: nat, j: nat, a: NodeId, b: NodeId)
    requires IsRun(cfg, run) && At(run, i, a) && At(run, j, b)
    requires NodeAt(run, i, a).ballot.role == Leader && NodeAt(run, j, b).ballot.role == Leader
    requires NodeAt(run, i, a).ballot.term == NodeAt(run, j, b).ballot.term
    ensures a == b
  {
    if j < i {
      ElectionSafety(cfg, run, j, i, b, a);
    } else {
      var hi, hj := HistoriesOf(cfg, run, i, j);
      NodeAtOk(cfg, hi, run, i, a);
      NodeAtOk(cfg, hj, run, j, b);
    }
  }

  /** Every vote a candidate counts is a distinct voter's durable vote for it, or that voter has moved on. */
  lemma VotesAreDurable(cfg: Config, run: Run, i: nat, n: NodeId, p: NodeId)
    requires IsRun(cfg, run) && At(run, i, n) && NodeAt(run, i, n).ballot.role == Candidate
    requires p in NodeAt(run, i, n).ballot.votes
    ensures p in cfg.voters && At(run, i, p)
    ensures var mine, theirs := NodeAt(run, i, n).ballot.term, NodeAt(run, i, p).stable;
            theirs.term > mine || (theirs.term == mine && theirs.votedFor == Some(n))
  {
    var h, _ := HistoriesOf(cfg, run, i, i);
    NodeAtOk(cfg, h, run, i, n);
    NodeAtOk(cfg, h, run, i, p);
  }

  // ── replication progress ──────────────────────────────────────────────────

  /** At this state p held, durably and in term t, all it ever acknowledged to the leader of term t. */
  ghost predicate AckMade(run: Run, h: History, i: nat, p: NodeId, t: Term) {
    && At(run, i, p) && t in h.reigns
    && NodeAt(run, i, p).ballot.term == t
    && NodeAt(run, i, p).journal.durable >= Acked(h, p, t)
    && Agree(NodeAt(run, i, p).journal.log, h.reigns[t].log, Acked(h, p, t))
  }

  ghost predicate AcksMade(run: Run, h: History, i: nat) {
    forall p, t: Term :: Acked(h, p, t) > 0 ==> exists k :: 0 <= k <= i && AckMade(run, h, k, p, t)
  }

  lemma AckMadeLater(run: Run, n: NodeId, h: History, h': History, k: nat, p: NodeId, t: Term)
    requires AckMade(run, h, k, p, t) && Grows(n, h, h') && Acked(h', p, t) == Acked(h, p, t)
    ensures AckMade(run, h', k, p, t)
  {
    GrownAgree(n, h, h', t, NodeAt(run, k, p).journal.log, Acked(h, p, t));
  }

  lemma {:induction false} AcksWereMade(cfg: Config, run: Run, i: nat) returns (h: History)
    requires IsRun(cfg, run) && i < |run.states|
    ensures ClusterOk(cfg, h, run.states[i]) && AcksMade(run, h, i)
    decreases i
  {
    hide Grows, ClusterOk, CanStep, Step, AckMade;
    if i == 0 {
      InitialOk(cfg);
      h := EMPTY_HISTORY;
    } else {
      var before := AcksWereMade(cfg, run, i - 1);
      var n := run.actions[i - 1].node;
      h := StepKeeps(cfg, before, run.states[i - 1], run.actions[i - 1]);
      forall p, t: Term | Acked(h, p, t) > 0 ensures exists k :: 0 <= k <= i && AckMade(run, h, k, p, t) {
        AckStep(cfg, run, before, h, i, p, t);
      }
    }
  }

  lemma AckStep(cfg: Config, run: Run, h: History, h': History, i: nat, p: NodeId, t: Term)
    requires IsRun(cfg, run) && 0 < i < |run.states| && AcksMade(run, h, i - 1)
    requires ClusterOk(cfg, h', run.states[i]) && Grows(run.actions[i - 1].node, h, h')
    requires RecordsOnlyIn(run.actions[i - 1].node, h, h', run.states[i].nodes[run.actions[i - 1].node].ballot)
    requires Acked(h', p, t) > 0
    ensures exists k :: 0 <= k <= i && AckMade(run, h', k, p, t)
  {
    hide NodeStep, Enabled, HistoryOk;
    var n := run.actions[i - 1].node;
    if Acked(h', p, t) == Acked(h, p, t) {
      var k :| 0 <= k <= i - 1 && AckMade(run, h, k, p, t);
      AckMadeLater(run, n, h, h', k, p, t);
    } else {
      NodeAtOk(cfg, h', run, i, n);
      assert AckMade(run, h', i, p, t);
    }
  }

  /**
   * Pipelined progress is sound: whatever the order of successes, rejections, errors and answers from
   * earlier leaderships, a follower matched through m once held, durably and in this very term, the
   * leader's log through m, and holds it still unless it has moved to a later term.
   */
  lemma ProgressIsSound(cfg: Config, run: Run, i: nat, n: NodeId, p: NodeId) returns (k: nat)
    requires IsRun(cfg, run) && At(run, i, n) && NodeAt(run, i, n).ballot.role == Leader && p in Peers(cfg, n)
    ensures var s := NodeAt(run, i, n);
            && p in s.lead.matched && p in s.lead.next && At(run, i, p)
            && -1 <= s.lead.matched[p] && s.lead.matched[p] + 1 <= s.lead.next[p] <= |s.journal.log|
            && (s.lead.matched[p] >= 0 ==>
                  && k <= i && At(run, k, p)
                  && NodeAt(run, k, p).ballot.term == s.ballot.term
                  && NodeAt(run, k, p).journal.durable >= s.lead.matched[p] + 1
                  && Agree(NodeAt(run, k, p).journal.log, s.journal.log, s.lead.matched[p] + 1)
                  && NodeAt(run, i, p).ballot.term >= s.ballot.term
                  && (NodeAt(run, i, p).ballot.term == s.ballot.term ==>
                        && NodeAt(run, i, p).journal.durable >= s.lead.matched[p] + 1
                        && Agree(NodeAt(run, i, p).journal.log, s.journal.log, s.lead.matched[p] + 1)))
  {
    hide ClusterOk, NodeOk, IsRun, AckMade, Agree;
    var h := AcksWereMade(cfg, run, i);
    var s := NodeAt(run, i, n);
    NodeAtOk(cfg, h, run, i, n);
    LeaderFacts(cfg, h, n, s, p);
    VoterIsThere(cfg, h, run, i, p);
    NodeAtOk(cfg, h, run, i, p);
    k := 0;
    if s.lead.matched[p] >= 0 {
      k :| 0 <= k <= i && AckMade(run, h, k, p, s.ballot.term);
      AckMadeFacts(run, h, k, p, s.ballot.term, s.lead.matched[p] + 1);
      FollowerFacts(cfg, h, p, NodeAt(run, i, p), s.ballot.term, s.lead.matched[p] + 1);
    }
  }

  lemma VoterIsThere(cfg: Config, h: History, run: Run, i: nat, p: NodeId)
    requires i < |run.states| && ClusterOk(cfg, h, run.states[i]) && p in cfg.voters
    ensures At(run, i, p)
  {
  }

  lemma LeaderFacts(cfg: Config, h: History, n: NodeId, s: NodeState, p: NodeId)
    requires NodeOk(cfg, h, n, s) && s.ballot.role == Leader && p in Peers(cfg, n)
    ensures p in s.lead.matched && p in s.lead.next
    ensures -1 <= s.lead.matched[p] && s.lead.matched[p] + 1 <= s.lead.next[p] <= |s.journal.log|
    ensures s.lead.matched[p] + 1 <= Acked(h, p, s.ballot.term)
    ensures s.ballot.term in h.reigns && h.reigns[s.ballot.term].log == s.journal.log
  {
  }

  lemma AckMadeFacts(run: Run, h: History, k: nat, p: NodeId, t: Term, L: nat)
    requires AckMade(run, h, k, p, t) && L <= Acked(h, p, t)
    ensures At(run, k, p) && NodeAt(run, k, p).ballot.term == t && NodeAt(run, k, p).journal.durable >= L
    ensures Agree(NodeAt(run, k, p).journal.log, h.reigns[t].log, L)
  {
    AgreeShorter(NodeAt(run, k, p).journal.log, h.reigns[t].log, Acked(h, p, t), L);
  }

  /** A replica with a recorded acknowledgement has reached its term, and while there still holds it. */
  lemma FollowerFacts(cfg: Config, h: History, p: NodeId, s: NodeState, t: Term, L: nat)
    requires NodeOk(cfg, h, p, s) && 0 < L <= Acked(h, p, t)
    ensures s.ballot.term >= t
    ensures s.ballot.term == t ==> t in h.reigns && s.journal.durable >= L && Agree(s.journal.log, h.reigns[t].log, L)
  {
    assert (p, t) in h.acks;
    if s.ballot.term == t {
      AgreeShorter(s.journal.log, h.reigns[t].log, Acked(h, p, t), L);
    }
  }
}
