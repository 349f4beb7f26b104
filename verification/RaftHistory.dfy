/**
 * The history of a run, kept only for proofs: who led each term with which log, who
 * voted for whom with which log on offer, and how much each replica has durably
 * acknowledged in each term. No replica can see it.
 */
module RaftHistory {
  import opened RaftTypes

  /** One leadership: the log it was elected with (its no-op included) and its log so far. */
  datatype Reign = Reign(leader: NodeId, base: seq<Entry>, log: seq<Entry>, electors: set<NodeId>, commit: int)

  datatype History = History(
    reigns: map<Term, Reign>,
    votes: map<(NodeId, Term), NodeId>,
    cands: map<(NodeId, Term), seq<Entry>>,
    acks: map<(NodeId, Term), nat>)

  const EMPTY_HISTORY := History(map[], map[], map[], map[])

  function Acked(h: History, v: NodeId, t: Term): nat {
    if (v, t) in h.acks then h.acks[(v, t)] else 0
  }

  // ── logs against the history ──────────────────────────────────────────────

  /** The log up to entry i is the log of the leader that created entry i. */
  ghost predicate EntryKnown(h: History, log: seq<Entry>, i: nat)
    requires i < |log|
  {
    log[i].term in h.reigns && Agree(log, h.reigns[log[i].term].log, i + 1)
  }

  ghost predicate Coherent(h: History, log: seq<Entry>) {
    forall i :: 0 <= i < |log| ==> EntryKnown(h, log, i)
  }

  ghost predicate TermsBelow(log: seq<Entry>, t: Term) {
    forall i :: 0 <= i < |log| ==> log[i].term < t
  }

  ghost predicate TermsUpTo(log: seq<Entry>, t: Term) {
    forall i :: 0 <= i < |log| ==> log[i].term <= t
  }

  ghost predicate WellIndexed(log: seq<Entry>) {
    forall i :: 0 <= i < |log| ==> log[i].index == i
  }

  predicate SameKey(a: Entry, b: Entry) {
    a.data.Client? && b.data.Client? && a.data.key.Some? && a.data.key == b.data.key
  }

  /** No client request was appended twice. */
  ghost predicate NoDuplicates(log: seq<Entry>) {
    forall i, j :: 0 <= i < j < |log| ==> !SameKey(log[i], log[j])
  }

  // ── promises ──────────────────────────────────────────────────────────────

  /** Entry L - 1 of term t's leader was created in term t. */
  ghost predicate Own(h: History, t: Term, L: nat) {
    t in h.reigns && 0 < L <= |h.reigns[t].log| && h.reigns[t].log[L - 1].term == t
  }

  /** A later leader was elected without the first L entries of term t's leader. */
  ghost predicate Drops(h: History, t: Term, L: nat, w: Term)
    requires t in h.reigns
  {
    w in h.reigns && !Agree(h.reigns[t].log, h.reigns[w].base, L)
  }

  ghost predicate DroppedBy(h: History, t: Term, L: nat, u: Term)
    requires t in h.reigns
  {
    exists w :: t < w <= u && Drops(h, t, L, w)
  }

  /** What v durably acknowledged is still durable here, unless a leader up to term `term` dropped it. */
  ghost predicate AcksHonoured(h: History, v: NodeId, term: Term, log: seq<Entry>, durable: nat) {
    forall t: Term, L: nat :: Own(h, t, L) && L <= Acked(h, v, t) ==>
      (L <= durable && Agree(h.reigns[t].log, log, L)) || DroppedBy(h, t, L, term)
  }

  /** The candidate's log covers whatever the voter had acknowledged in earlier terms. */
  ghost predicate VoteSafe(h: History, v: NodeId, u: Term, log: seq<Entry>) {
    u > 0 && forall t: Term, L: nat :: t < u && Own(h, t, L) && L <= Acked(h, v, t) ==>
      Agree(h.reigns[t].log, log, L) || DroppedBy(h, t, L, u - 1)
  }

  // ── invariants of the history ─────────────────────────────────────────────

  ghost predicate LogOfReign(h: History, t: Term, base: seq<Entry>, log: seq<Entry>) {
    && 0 < |base| <= |log| && base == log[..|base|]
    && TermsBelow(base[..|base| - 1], t)
    && (forall i :: |base| - 1 <= i < |log| ==> log[i].term == t)
    && Coherent(h, log) && WellIndexed(log) && NoDuplicates(log)
  }

  ghost predicate Elected(cfg: Config, h: History, t: Term, r: Reign) {
    && (r.leader, t) in h.cands
    && |r.base| == |h.cands[(r.leader, t)]| + 1 && r.base[..|r.base| - 1] == h.cands[(r.leader, t)]
    && r.electors <= cfg.voters && |r.electors| >= QuorumSize(cfg)
    && forall v :: v in r.electors ==> (v, t) in h.votes && h.votes[(v, t)] == r.leader
  }

  function Backers(cfg: Config, h: History, t: Term, L: nat): set<NodeId> {
    set v | v in cfg.voters && Acked(h, v, t) >= L
  }

  /** A leader commits only entries of its own term that a majority holds durably. */
  ghost predicate CommitBacked(cfg: Config, h: History, t: Term, r: Reign) {
    && -1 <= r.commit < |r.log|
    && (r.commit >= 0 ==> r.log[r.commit].term == t && |Backers(cfg, h, t, r.commit + 1)| >= QuorumSize(cfg))
  }

  ghost predicate ReignOk(cfg: Config, h: History, t: Term)
    requires t in h.reigns
  {
    var r := h.reigns[t];
    && t > 0
    && LogOfReign(h, t, r.base, r.log)
    && Elected(cfg, h, t, r)
    && CommitBacked(cfg, h, t, r)
  }

  ghost predicate CandidateOk(h: History, c: NodeId, t: Term)
    requires (c, t) in h.cands
  {
    t > 0 && Coherent(h, h.cands[(c, t)]) && TermsBelow(h.cands[(c, t)], t)
  }

  ghost predicate VoteOk(h: History, v: NodeId, t: Term)
    requires (v, t) in h.votes
  {
    && (h.votes[(v, t)], t) in h.cands
    && ((t in h.reigns && v !in h.reigns[t].electors) || VoteSafe(h, v, t, h.cands[(h.votes[(v, t)], t)]))
  }

  ghost predicate HistoryOk(cfg: Config, h: History) {
    && (forall t :: t in h.reigns ==> ReignOk(cfg, h, t))
    && (forall c, t :: (c, t) in h.cands ==> CandidateOk(h, c, t))
    && (forall v, t :: (v, t) in h.votes ==> VoteOk(h, v, t))
    && (forall v, t :: (v, t) in h.acks ==> t in h.reigns && h.acks[(v, t)] <= |h.reigns[t].log|)
  }

  // ── logs that agree ───────────────────────────────────────────────────────

  lemma AgreeShorter(a: seq<Entry>, b: seq<Entry>, k: nat, j: nat)
    requires Agree(a, b, k) && j <= k
    ensures Agree(a, b, j)
  {
    assert a[..j] == a[..k][..j] && b[..j] == b[..k][..j];
  }

  lemma AgreeExtended(a: seq<Entry>, b: seq<Entry>, more: seq<Entry>, k: nat)
    requires Agree(a, b, k)
    ensures Agree(a + more, b, k) && Agree(a, b + more, k)
  {
    assert (a + more)[..k] == a[..k] && (b + more)[..k] == b[..k];
  }

  /** A coherent log is, in full, a prefix of the log of the leader that created its last entry. */
  lemma CoherentLast(h: History, log: seq<Entry>)
    requires Coherent(h, log) && log != []
    ensures LastTerm(log) in h.reigns && Agree(log, h.reigns[LastTerm(log)].log, |log|)
  {
    assert EntryKnown(h, log, |log| - 1);
  }

  /** Log Matching, between any two coherent logs. */
  lemma CoherentAgree(h: History, a: seq<Entry>, b: seq<Entry>, i: nat)
    requires Coherent(h, a) && Coherent(h, b)
    requires i < |a| && i < |b| && a[i].term == b[i].term
    ensures Agree(a, b, i + 1)
  {
    assert EntryKnown(h, a, i) && EntryKnown(h, b, i);
  }

  lemma CoherentPrefix(h: History, a: seq<Entry>, b: seq<Entry>)
    requires Coherent(h, b) && Agree(a, b, |a|)
    ensures Coherent(h, a)
  {
    forall i | 0 <= i < |a| ensures EntryKnown(h, a, i) {
      AgreeShorter(a, b, |a|, i + 1);
      assert EntryKnown(h, b, i);
    }
  }

  /** Terms never exceed the term of the last entry. */
  lemma TermsSorted(cfg: Config, h: History, log: seq<Entry>)
    requires HistoryOk(cfg, h) && Coherent(h, log)
    ensures TermsUpTo(log, LastTerm(log))
  {
    if log != [] {
      CoherentLast(h, log);
      forall i | 0 <= i < |log| ensures log[i].term <= LastTerm(log) {
        ReignTermAt(cfg, h, LastTerm(log), i);
      }
    }
  }

  lemma ReignTermAt(cfg: Config, h: History, t: Term, i: nat)
    requires HistoryOk(cfg, h) && t in h.reigns && i < |h.reigns[t].log|
    ensures h.reigns[t].log[i].term <= t
    ensures h.reigns[t].log[i].term == t <==> i >= |h.reigns[t].base| - 1
  {
    assert ReignOk(cfg, h, t);
    var r := h.reigns[t];
    if i < |r.base| - 1 {
      assert r.log[i] == r.base[i] == r.base[..|r.base| - 1][i];
    }
  }

  lemma CoherentLogFacts(cfg: Config, h: History, log: seq<Entry>)
    requires HistoryOk(cfg, h) && Coherent(h, log)
    ensures WellIndexed(log) && NoDuplicates(log)
  {
    if log != [] {
      CoherentLast(h, log);
      var whole := h.reigns[LastTerm(log)].log;
      assert ReignOk(cfg, h, LastTerm(log));
      forall i | 0 <= i < |log| ensures log[i] == whole[i] {
      }
    }
  }

  // ── quorums ───────────────────────────────────────────────────────────────

  lemma SubsetSize(a: set<NodeId>, b: set<NodeId>)
    requires a <= b
    ensures |a| <= |b|
  {
    assert b == a + (b - a);
  }

  lemma QuorumsMeet(cfg: Config, a: set<NodeId>, b: set<NodeId>) returns (v: NodeId)
    requires a <= cfg.voters && b <= cfg.voters
    requires |a| >= QuorumSize(cfg) && |b| >= QuorumSize(cfg)
    ensures v in a && v in b
  {
    if a !! b {
      SubsetSize(a + b, cfg.voters);
      assert false;
    }
    assert exists v :: v in a && v in b;
    v :| v in a && v in b;
  }

  // ── leader completeness ───────────────────────────────────────────────────

  ghost predicate Backed(cfg: Config, h: History, t: Term, L: nat) {
    Own(h, t, L) && |Backers(cfg, h, t, L)| >= QuorumSize(cfg)
  }

  /** The up-to-date rule of the vote carries an acknowledged prefix over to the candidate. */
  lemma UpToDateCarries(cfg: Config, h: History, voter: seq<Entry>, cand: seq<Entry>, t: Term, L: nat, u: Term)
    requires HistoryOk(cfg, h) && Own(h, t, L)
    requires Coherent(h, voter) && Coherent(h, cand) && TermsBelow(cand, u) && u > 0
    requires Agree(h.reigns[t].log, voter, L)
    requires LastTerm(cand) > LastTerm(voter) || (LastTerm(cand) == LastTerm(voter) && |cand| >= |voter|)
    ensures Agree(h.reigns[t].log, cand, L) || DroppedBy(h, t, L, u - 1)
  {
    var promised := h.reigns[t].log;
    TermsSorted(cfg, h, voter);
    var w := LastTerm(cand);
    assert w >= t > 0 by { assert ReignOk(cfg, h, t); }
    CoherentLast(h, cand);
    if w == t {
      CoherentLast(h, voter);
      AgreeShorter(cand, promised, |cand|, L);
    } else if !Drops(h, t, L, w) {
      AgreeShorter(cand, h.reigns[w].log, |cand|, L) by {
        ReignTermAt(cfg, h, w, |cand| - 1);
      }
    }
  }

  /** Leader Completeness: what a majority holds durably is in the log of every later leader. */
  lemma {:induction false} LeaderCompleteness(cfg: Config, h: History, t: Term, L: nat, u: Term)
    requires HistoryOk(cfg, h) && Backed(cfg, h, t, L)
    requires t < u && u in h.reigns
    ensures L < |h.reigns[u].base|
    ensures Agree(h.reigns[t].log, h.reigns[u].base, L) && Agree(h.reigns[t].log, h.reigns[u].log, L)
    decreases u
  {
    assert ReignOk(cfg, h, u);
    var r := h.reigns[u];
    var v := QuorumsMeet(cfg, Backers(cfg, h, t, L), r.electors);
    assert VoteOk(h, v, u);
    var cand := h.cands[(r.leader, u)];
    if DroppedBy(h, t, L, u - 1) {
      var w :| t < w <= u - 1 && Drops(h, t, L, w);
      LeaderCompleteness(cfg, h, t, L, w);
      assert false;
    }
    assert Agree(h.reigns[t].log, cand, L);
    assert cand[..L] == r.base[..L];
  }

  /** What one leader committed is in the log of every leader of the same or a later term. */
  lemma CommitCarries(cfg: Config, h: History, t: Term, u: Term)
    requires HistoryOk(cfg, h) && t in h.reigns && u in h.reigns && t <= u
    ensures Agree(h.reigns[t].log, h.reigns[u].log, h.reigns[t].commit + 1)
    ensures t < u ==> h.reigns[t].commit + 1 < |h.reigns[u].base|
  {
    assert ReignOk(cfg, h, t) && ReignOk(cfg, h, u);
    if t < u && h.reigns[t].commit >= 0 {
      LeaderCompleteness(cfg, h, t, h.reigns[t].commit + 1, u);
    }
  }
}
