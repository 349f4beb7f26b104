/** Who committed what, and who must have it: on the states of a run alone. */
module RaftCommits {
  import opened RaftTypes
  import opened RaftCluster
  import opened RaftHistory
  import opened RaftInvariant
  import opened RaftSafety
  import opened RaftTheorems

  // ── Leader Completeness ───────────────────────────────────────────────────

  lemma CarriedForward(cfg: Config, h: History, t: Term, k: nat, e: Entry, u: Term)
    requires HistoryOk(cfg, h) && CommittedEntryIs(h, t, k, e) && u in h.reigns && t <= u
    ensures k < |h.reigns[u].log| && h.reigns[u].log[k] == e
    ensures t < u ==> k + 1 < |h.reigns[u].base|
  {
    hide HistoryOk;
    CommitCarries(cfg, h, t, u);
    AgreeThere(h.reigns[t].log, h.reigns[u].log, h.reigns[t].commit + 1, k);
  }

  lemma CarriedToLeader(cfg: Config, h: History, h': History, t: Term, k: nat, e: Entry, u: Term)
    requires HistoryOk(cfg, h) && HistoryOk(cfg, h') && CommittedEntryIs(h, t, k, e) && u in h'.reigns
    requires (Later(h, h') && t <= u) || (Later(h', h) && t < u)
    ensures k < |h'.reigns[u].log| && h'.reigns[u].log[k] == e
  {
    if Later(h, h') && t <= u {
      hide HistoryOk, Later, CommittedEntryIs;
      StaysCommitted(h, h', t, k, e);
      CarriedForward(cfg, h', t, k, e, u);
    } else {
      hide HistoryOk, CommittedEntryIs;
      CarriedForward(cfg, h, t, k, e, u);
      BaseInLog(cfg, h', u);
      assert h.reigns[u].log[..|h'.reigns[u].log|][k] == h.reigns[u].log[k];
    }
  }

  lemma BaseInLog(cfg: Config, h: History, u: Term)
    requires HistoryOk(cfg, h) && u in h.reigns
    ensures |h.reigns[u].base| <= |h.reigns[u].log|
  {
    assert ReignOk(cfg, h, u);
  }

  lemma AgreeThere(a: seq<Entry>, b: seq<Entry>, n: nat, k: nat)
    requires Agree(a, b, n) && k < n
    ensures a[k] == b[k]
  {
    assert a[..n][k] == b[..n][k];
  }

  /**
   * Leader Completeness: whatever a replica has applied is in the log of every leader of a later term, at any
   * moment of the run, and of the leader of its own term from then on.
   */
  lemma LeadersHoldApplied(cfg: Config, run: Run, i: nat, a: NodeId, k: nat, j: nat, b: NodeId)
    requires IsRun(cfg, run) && At(run, i, a) && At(run, j, b)
    requires k < |NodeAt(run, i, a).commitment.applied| && NodeAt(run, j, b).ballot.role == Leader
    requires var s, l := NodeAt(run, i, a).ballot.term, NodeAt(run, j, b).ballot.term; s < l || (s == l && i <= j)
    ensures k < |NodeAt(run, j, b).journal.log| && NodeAt(run, j, b).journal.log[k] == NodeAt(run, i, a).commitment.applied[k]
  {
    hide IsRun, ClusterOk, HistoryOk, NodeOk, Later, CommittedEntryIs;
    var hi, hj;
    if i <= j {
      hi, hj := HistoriesOf(cfg, run, i, j);
    } else {
      hj, hi := HistoriesOf(cfg, run, j, i);
    }
    HistoryIn(cfg, hi, run.states[i]);
    HistoryIn(cfg, hj, run.states[j]);
    NodeAtOk(cfg, hi, run, i, a);
    NodeAtOk(cfg, hj, run, j, b);
    var t := AppliedEntry(cfg, hi, a, NodeAt(run, i, a), k);
    LeaderLog(cfg, hj, b, NodeAt(run, j, b));
    CarriedToLeader(cfg, hi, hj, t, k, NodeAt(run, i, a).commitment.applied[k], NodeAt(run, j, b).ballot.term);
  }

  lemma HistoryIn(cfg: Config, h: History, c: Cluster)
    requires ClusterOk(cfg, h, c)
    ensures HistoryOk(cfg, h)
  {
  }

  lemma LeaderLog(cfg: Config, h: History, n: NodeId, s: NodeState)
    requires NodeOk(cfg, h, n, s) && s.ballot.role == Leader
    ensures s.ballot.term in h.reigns && h.reigns[s.ballot.term].log == s.journal.log
  {
  }

  // ── every commit was made ─────────────────────────────────────────────────

  /** At this state the leader of term t led it, and had committed all that it ever did. */
  ghost predicate CommitMade(run: Run, h: History, i: nat, t: Term) {
    && t in h.reigns && At(run, i, h.reigns[t].leader)
    && NodeAt(run, i, h.reigns[t].leader).ballot.role == Leader && NodeAt(run, i, h.reigns[t].leader).ballot.term == t
    && NodeAt(run, i, h.reigns[t].leader).commitment.index >= h.reigns[t].commit
  }

  ghost predicate CommitsMade(run: Run, h: History, i: nat) {
    forall t: Term :: CommitOf(h, t) >= 0 ==> exists k :: 0 <= k <= i && CommitMade(run, h, k, t)
  }

  lemma {:induction false} CommitsWereMade(cfg: Config, run: Run, i: nat) returns (h: History)
    requires IsRun(cfg, run) && i < |run.states|
    ensures ClusterOk(cfg, h, run.states[i]) && CommitsMade(run, h, i)
    decreases i
  {
    hide Grows, ClusterOk, CanStep, Step, CommitMade;
    if i == 0 {
      InitialOk(cfg);
      h := EMPTY_HISTORY;
    } else {
      var before := CommitsWereMade(cfg, run, i - 1);
      h := StepKeeps(cfg, before, run.states[i - 1], run.actions[i - 1]);
      forall t: Term | CommitOf(h, t) >= 0 ensures exists k :: 0 <= k <= i && CommitMade(run, h, k, t) {
        CommitStep(cfg, run, before, h, i, t);
      }
    }
  }

  lemma CommitStep(cfg: Config, run: Run, h: History, h': History, i: nat, t: Term)
    requires IsRun(cfg, run) && 0 < i < |run.states| && CommitsMade(run, h, i - 1)
    requires ClusterOk(cfg, h', run.states[i]) && Grows(run.actions[i - 1].node, h, h')
    requires RecordsOnlyIn(run.actions[i - 1].node, h, h', run.states[i].nodes[run.actions[i - 1].node].ballot)
    requires CommitOf(h', t) >= 0
    ensures exists k :: 0 <= k <= i && CommitMade(run, h', k, t)
  {
    hide NodeStep, Enabled, HistoryOk;
    var n := run.actions[i - 1].node;
    if CommitOf(h', t) == CommitOf(h, t) {
      var k :| 0 <= k <= i - 1 && CommitMade(run, h, k, t);
      assert ReignGrows(n, h.reigns[t], h'.reigns[t]);
      assert CommitMade(run, h', k, t);
    } else {
      NodeAtOk(cfg, h', run, i, n);
      LeaderCommit(cfg, h', n, NodeAt(run, i, n));
      assert CommitMade(run, h', i, t);
    }
  }

  lemma LeaderCommit(cfg: Config, h: History, n: NodeId, s: NodeState)
    requires NodeOk(cfg, h, n, s) && s.ballot.role == Leader
    ensures s.ballot.term in h.reigns && h.reigns[s.ballot.term].leader == n && h.reigns[s.ballot.term].commit <= s.commitment.index
  {
  }

  /** A leader had applied it by then. */
  ghost predicate CommittedBefore(run: Run, i: nat, j: nat, b: NodeId, k: nat, e: Entry) {
    && j <= i && At(run, j, b) && NodeAt(run, j, b).ballot.role == Leader
    && k < |NodeAt(run, j, b).commitment.applied| && NodeAt(run, j, b).commitment.applied[k] == e
  }

  lemma MadeMeansApplied(cfg: Config, run: Run, h: History, j: nat, t: Term, k: nat)
    requires IsRun(cfg, run) && CommitMade(run, h, j, t) && Covers(h, t, k)
    ensures k < |NodeAt(run, j, h.reigns[t].leader).commitment.applied|
  {
    hide IsRun;
    NeverRefusesToTruncate(cfg, run, j, h.reigns[t].leader);
  }

  /**
   * The lazily stored commit index covers, as far as the log reaches, only entries that a leader had committed
   * and applied by then, whoever else has applied them.
   */
  lemma StoredCommitWasCommitted(cfg: Config, run: Run, i: nat, n: NodeId, k: nat) returns (j: nat, b: NodeId)
    requires IsRun(cfg, run) && At(run, i, n)
    requires k <= Min(NodeAt(run, i, n).stable.commit, |NodeAt(run, i, n).journal.log| - 1)
    ensures CommittedBefore(run, i, j, b, k, NodeAt(run, i, n).journal.log[k])
  {
    hide IsRun, ClusterOk, NodeOk, CommitMade;
    var h := CommitsWereMade(cfg, run, i);
    NodeAtOk(cfg, h, run, i, n);
    var t := StoredEntry(cfg, h, n, NodeAt(run, i, n), k);
    j, b := MomentOf(run, h, i, t, k);
    MadeMeansApplied(cfg, run, h, j, t, k);
    LazyCommitIsSafe(cfg, run, i, n, k, j, b);
  }

  lemma MomentOf(run: Run, h: History, i: nat, t: Term, k: nat) returns (j: nat, b: NodeId)
    requires CommitsMade(run, h, i) && Covers(h, t, k)
    ensures j <= i && t in h.reigns && b == h.reigns[t].leader && CommitMade(run, h, j, t)
    ensures At(run, j, b) && NodeAt(run, j, b).ballot.role == Leader
  {
    assert CommitOf(h, t) >= 0;
    j :| 0 <= j <= i && CommitMade(run, h, j, t);
    b := h.reigns[t].leader;
  }

  /** `committed: true` was said of an entry that a leader had committed and applied by then. */
  lemma CommittedReplyWasCommitted(cfg: Config, run: Run, i: nat, reply: Message) returns (j: nat, b: NodeId)
    requires IsRun(cfg, run) && i < |run.states|
    requires reply in run.states[i].net && reply.ClientReply? && reply.committed
    ensures CommittedBefore(run, i, j, b, reply.index, reply.entry)
  {
    hide IsRun, ClusterOk, CommitMade;
    var h := CommitsWereMade(cfg, run, i);
    var t := RepliedEntry(cfg, h, run.states[i], reply);
    j, b := MomentOf(run, h, i, t, reply.index);
    MadeMeansApplied(cfg, run, h, j, t, reply.index);
    CommittedReplyIsTrue(cfg, run, i, reply, j, b);
  }
}
