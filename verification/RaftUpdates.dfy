/** The six ways a step can extend the history, and that each keeps the history sound. */
module RaftUpdates {
  import opened RaftTypes
  import opened RaftEngine
  import opened RaftHistory
  import opened RaftInvariant

  function Campaigned(h: History, n: NodeId, t: Term, log: seq<Entry>): History {
    h.(votes := h.votes[(n, t) := n], cands := h.cands[(n, t) := log])
  }

  function Voted(h: History, v: NodeId, t: Term, candidate: NodeId): History {
    h.(votes := h.votes[(v, t) := candidate])
  }

  function Enthroned(h: History, n: NodeId, t: Term, base: seq<Entry>, electors: set<NodeId>): History {
    h.(reigns := h.reigns[t := Reign(n, base, base, electors, -1)])
  }

  function Extended(h: History, t: Term, entry: Entry): History
    requires t in h.reigns
  {
    h.(reigns := h.reigns[t := h.reigns[t].(log := h.reigns[t].log + [entry])])
  }

  function Acknowledged(h: History, v: NodeId, t: Term, L: nat): History {
    h.(acks := h.acks[(v, t) := Max(Acked(h, v, t), L)])
  }

  function Committed(h: History, t: Term, index: int): History
    requires t in h.reigns
  {
    h.(reigns := h.reigns[t := h.reigns[t].(commit := index)])
  }

  // ── what is carried over ──────────────────────────────────────────────────

  lemma MoreBackers(cfg: Config, n: NodeId, h: History, h': History, t: Term, L: nat)
    requires Grows(n, h, h')
    ensures |Backers(cfg, h, t, L)| <= |Backers(cfg, h', t, L)|
  {
    SubsetSize(Backers(cfg, h, t, L), Backers(cfg, h', t, L));
  }

  lemma ReignCarried(cfg: Config, n: NodeId, h: History, h': History, t: Term)
    requires Grows(n, h, h') && t in h.reigns && ReignOk(cfg, h, t) && h'.reigns[t] == h.reigns[t]
    ensures ReignOk(cfg, h', t)
  {
    var r := h.reigns[t];
    GrownCoherent(n, h, h', r.log);
    if r.commit >= 0 {
      MoreBackers(cfg, n, h, h', t, r.commit + 1);
    }
  }

  lemma VoteCarried(cfg: Config, n: NodeId, h: History, h': History, v: NodeId, u: Term)
    requires HistoryOk(cfg, h) && Grows(n, h, h') && (v, u) in h.votes
    requires forall t: Term :: t < u ==> Acked(h', v, t) == Acked(h, v, t)
    ensures VoteOk(h', v, u)
  {
    assert VoteOk(h, v, u);
    var log := h.cands[(h.votes[(v, u)], u)];
    if VoteSafe(h, v, u, log) {
      GrownVoteSafe(cfg, n, h, h', v, u, log);
    } else {
      assert ReignGrows(n, h.reigns[u], h'.reigns[u]);
    }
  }

  lemma CandidateCarried(n: NodeId, h: History, h': History, c: NodeId, t: Term)
    requires Grows(n, h, h') && (c, t) in h.cands && CandidateOk(h, c, t)
    ensures CandidateOk(h', c, t)
  {
    GrownCoherent(n, h, h', h.cands[(c, t)]);
  }

  /** Whatever is not named by the update carries over. */
  lemma HistoryCarried(cfg: Config, n: NodeId, h: History, h': History)
    requires HistoryOk(cfg, h) && Grows(n, h, h')
    requires forall t :: t in h'.reigns && (t !in h.reigns || h'.reigns[t] != h.reigns[t]) ==> ReignOk(cfg, h', t)
    requires forall c, t :: (c, t) in h'.cands && (c, t) !in h.cands ==> CandidateOk(h', c, t)
    requires forall v, t :: (v, t) in h'.votes && (v, t) !in h.votes ==> VoteOk(h', v, t)
    requires forall v, u, t: Term :: (v, u) in h.votes && t < u ==> Acked(h', v, t) == Acked(h, v, t)
    requires forall v, t :: (v, t) in h'.acks ==> t in h'.reigns && h'.acks[(v, t)] <= |h'.reigns[t].log|
    ensures HistoryOk(cfg, h')
  {
    forall t | t in h'.reigns ensures ReignOk(cfg, h', t) {
      if t in h.reigns && h'.reigns[t] == h.reigns[t] {
        ReignCarried(cfg, n, h, h', t);
      }
    }
    forall c, t | (c, t) in h'.cands ensures CandidateOk(h', c, t) {
      if (c, t) in h.cands {
        CandidateCarried(n, h, h', c, t);
      }
    }
    forall v, t | (v, t) in h'.votes ensures VoteOk(h', v, t) {
      if (v, t) in h.votes {
        VoteCarried(cfg, n, h, h', v, t);
      }
    }
  }

  lemma ReignReplaced(cfg: Config, n: NodeId, h: History, t: Term, r: Reign)
    requires HistoryOk(cfg, h)
    requires var h' := h.(reigns := h.reigns[t := r]); Grows(n, h, h') && ReignOk(cfg, h', t)
    ensures HistoryOk(cfg, h.(reigns := h.reigns[t := r]))
  {
    var h' := h.(reigns := h.reigns[t := r]);
    assert t in h.reigns ==> ReignGrows(n, h.reigns[t], r);
    HistoryCarried(cfg, n, h, h');
  }

  // ── the updates ───────────────────────────────────────────────────────────

  lemma CampaignSound(cfg: Config, h: History, n: NodeId, t: Term, log: seq<Entry>, durable: nat)
    requires HistoryOk(cfg, h) && RecordsUpTo(h, n, t)
    requires Coherent(h, log) && TermsUpTo(log, t) && AcksHonoured(h, n, t, log, durable)
    ensures var h' := Campaigned(h, n, t + 1, log); HistoryOk(cfg, h') && Grows(n, h, h')
  {
    var h' := Campaigned(h, n, t + 1, log);
    assert Grows(n, h, h');
    hide Grows, Coherent, AcksHonoured;
    GrownCoherent(n, h, h', log);
    GrownAcksHonoured(cfg, n, h, h', n, t, log, durable);
    assert VoteSafe(h', n, t + 1, log);
    HistoryCarried(cfg, n, h, h');
  }

  lemma UpToDateIsSafe(cfg: Config, h: History, v: NodeId, t: Term, cand: seq<Entry>, log: seq<Entry>, durable: nat)
    requires HistoryOk(cfg, h) && t !in h.reigns && t > 0
    requires Coherent(h, cand) && TermsBelow(cand, t)
    requires Coherent(h, log) && AcksHonoured(h, v, t, log, durable)
    requires IsUpToDate(log, |cand| - 1, LastTerm(cand))
    ensures VoteSafe(h, v, t, cand)
  {
    forall u: Term, L: nat | u < t && Own(h, u, L) && L <= Acked(h, v, u)
      ensures Agree(h.reigns[u].log, cand, L) || DroppedBy(h, u, L, t - 1)
    {
      if DroppedBy(h, u, L, t) {
        var w :| u < w <= t && Drops(h, u, L, w);
        assert w <= t - 1;
      } else {
        UpToDateCarries(cfg, h, log, cand, u, L, t);
      }
    }
  }

  /** A vote is safe when the voter's log honours its acknowledgements and the candidate's is up to date. */
  lemma VoteSound(cfg: Config, h: History, v: NodeId, t: Term, candidate: NodeId, log: seq<Entry>, durable: nat)
    requires HistoryOk(cfg, h) && RecordsUpTo(h, v, t) && (candidate, t) in h.cands
    requires (v, t) in h.votes ==> h.votes[(v, t)] == candidate
    requires Coherent(h, log) && AcksHonoured(h, v, t, log, durable)
    requires IsUpToDate(log, |h.cands[(candidate, t)]| - 1, LastTerm(h.cands[(candidate, t)]))
    ensures var h' := Voted(h, v, t, candidate); HistoryOk(cfg, h') && Grows(v, h, h')
  {
    var h' := Voted(h, v, t, candidate);
    assert Grows(v, h, h');
    if (v, t) !in h.votes {
      assert CandidateOk(h, candidate, t);
      if t in h.reigns {
        assert ReignOk(cfg, h, t);
      } else {
        UpToDateIsSafe(cfg, h, v, t, h.cands[(candidate, t)], log, durable);
        GrownVoteSafe(cfg, v, h, h', v, t, h.cands[(candidate, t)]);
      }
      assert VoteOk(h', v, t);
    }
    HistoryCarried(cfg, v, h, h');
  }

  lemma CoherentSnoc(h: History, log: seq<Entry>, entry: Entry)
    requires Coherent(h, log) && entry.term in h.reigns
    requires Agree(log + [entry], h.reigns[entry.term].log, |log| + 1)
    ensures Coherent(h, log + [entry])
  {
    forall i | 0 <= i < |log + [entry]| ensures EntryKnown(h, log + [entry], i) {
      if i < |log| {
        assert EntryKnown(h, log, i);
        AgreeExtended(log, h.reigns[log[i].term].log, [entry], i + 1);
      }
    }
  }

  lemma EnthroneSound(cfg: Config, h: History, n: NodeId, t: Term, electors: set<NodeId>)
    requires HistoryOk(cfg, h) && t !in h.reigns && (n, t) in h.cands
    requires electors <= cfg.voters && |electors| >= QuorumSize(cfg)
    requires forall v :: v in electors ==> (v, t) in h.votes && h.votes[(v, t)] == n
    ensures var log := h.cands[(n, t)];
            var h' := Enthroned(h, n, t, log + [Entry(t, |log|, Noop(n))], electors);
            HistoryOk(cfg, h') && Grows(n, h, h')
  {
    var log := h.cands[(n, t)];
    var noop := Entry(t, |log|, Noop(n));
    var h' := Enthroned(h, n, t, log + [noop], electors);
    assert Grows(n, h, h');
    assert CandidateOk(h, n, t);
    hide Grows, Coherent, EntryKnown;
    CoherentLogFacts(cfg, h, log);
    GrownCoherent(n, h, h', log);
    CoherentSnoc(h', log, noop);
    assert (log + [noop])[..|log|] == log;
    assert LogOfReign(h', t, log + [noop], log + [noop]);
    ReignReplaced(cfg, n, h, t, h'.reigns[t]);
  }

  lemma ReignLogExtended(h: History, h': History, t: Term, entry: Entry)
    requires t in h.reigns && h' == Extended(h, t, entry)
    requires Grows(h.reigns[t].leader, h, h')
    requires LogOfReign(h, t, h.reigns[t].base, h.reigns[t].log)
    requires entry.term == t && entry.index == |h.reigns[t].log|
    requires forall i :: 0 <= i < |h.reigns[t].log| ==> !SameKey(h.reigns[t].log[i], entry)
    ensures LogOfReign(h', t, h'.reigns[t].base, h'.reigns[t].log)
  {
    var log := h.reigns[t].log;
    GrownCoherent(h.reigns[t].leader, h, h', log);
    CoherentSnoc(h', log, entry);
    assert (log + [entry])[..|h.reigns[t].base|] == log[..|h.reigns[t].base|];
  }

  lemma ExtendedReignOk(cfg: Config, h: History, t: Term, entry: Entry)
    requires t in h.reigns && ReignOk(cfg, h, t)
    requires entry.term == t && entry.index == |h.reigns[t].log|
    requires forall i :: 0 <= i < |h.reigns[t].log| ==> !SameKey(h.reigns[t].log[i], entry)
    ensures var h' := Extended(h, t, entry); Grows(h.reigns[t].leader, h, h') && ReignOk(cfg, h', t)
  {
    var r := h.reigns[t];
    var h' := Extended(h, t, entry);
    assert h'.reigns[t].log[..|r.log|] == r.log;
    assert Grows(r.leader, h, h');
    ReignLogExtended(h, h', t, entry);
    MoreBackers(cfg, r.leader, h, h', t, Max(r.commit + 1, 0));
  }

  lemma ExtendSound(cfg: Config, h: History, t: Term, entry: Entry)
    requires HistoryOk(cfg, h) && t in h.reigns
    requires entry.term == t && entry.index == |h.reigns[t].log|
    requires forall i :: 0 <= i < |h.reigns[t].log| ==> !SameKey(h.reigns[t].log[i], entry)
    ensures var h' := Extended(h, t, entry); HistoryOk(cfg, h') && Grows(h.reigns[t].leader, h, h')
  {
    ExtendedReignOk(cfg, h, t, entry);
    ReignReplaced(cfg, h.reigns[t].leader, h, t, Extended(h, t, entry).reigns[t]);
  }

  lemma AcknowledgeSound(cfg: Config, h: History, v: NodeId, t: Term, L: nat)
    requires HistoryOk(cfg, h) && RecordsUpTo(h, v, t)
    requires t in h.reigns && L <= |h.reigns[t].log|
    ensures var h' := Acknowledged(h, v, t, L);
            HistoryOk(cfg, h') && Grows(v, h, h') && Acked(h', v, t) >= L && RecordsUpTo(h', v, t)
  {
    hide ReignOk, CandidateOk, VoteOk;
    var h' := Acknowledged(h, v, t, L);
    assert Grows(v, h, h');
    HistoryCarried(cfg, v, h, h');
  }

  lemma CommittedReignOk(cfg: Config, h: History, t: Term, index: int)
    requires t in h.reigns && ReignOk(cfg, h, t)
    requires h.reigns[t].commit <= index && 0 <= index < |h.reigns[t].log|
    requires h.reigns[t].log[index].term == t
    requires |Backers(cfg, h, t, index + 1)| >= QuorumSize(cfg)
    ensures var h' := Committed(h, t, index); Grows(h.reigns[t].leader, h, h') && ReignOk(cfg, h', t)
  {
    var r := h.reigns[t];
    var h' := Committed(h, t, index);
    assert Grows(r.leader, h, h');
    GrownCoherent(r.leader, h, h', r.log);
    MoreBackers(cfg, r.leader, h, h', t, index + 1);
  }

  lemma CommitSound(cfg: Config, h: History, t: Term, index: int)
    requires HistoryOk(cfg, h) && t in h.reigns
    requires h.reigns[t].commit <= index && 0 <= index < |h.reigns[t].log|
    requires h.reigns[t].log[index].term == t
    requires |Backers(cfg, h, t, index + 1)| >= QuorumSize(cfg)
    ensures var h' := Committed(h, t, index); HistoryOk(cfg, h') && Grows(h.reigns[t].leader, h, h')
  {
    CommittedReignOk(cfg, h, t, index);
    ReignReplaced(cfg, h.reigns[t].leader, h, t, Committed(h, t, index).reigns[t]);
  }

  /** Election Safety: the majorities of two winners of one term share a voter, and it voted once. */
  lemma OneLeaderPerTerm(cfg: Config, h: History, n: NodeId, t: Term, electors: set<NodeId>)
    requires HistoryOk(cfg, h) && t in h.reigns
    requires electors <= cfg.voters && |electors| >= QuorumSize(cfg)
    requires forall v :: v in electors ==> (v, t) in h.votes && h.votes[(v, t)] == n
    ensures h.reigns[t].leader == n
  {
    assert ReignOk(cfg, h, t);
    var v := QuorumsMeet(cfg, electors, h.reigns[t].electors);
  }
}
