/**
 * What ties each replica and each message to the history, and why one replica's step
 * never disturbs what is known about the others.
 */
module RaftInvariant {
  import opened RaftTypes
  import opened RaftEngine
  import opened RaftCluster
  import opened RaftFrames
  import opened RaftHistory

  // ── commitment ────────────────────────────────────────────────────────────

  /** The leader of term t committed through `index`. */
  ghost predicate Covers(h: History, t: Term, index: int) {
    t in h.reigns && index <= h.reigns[t].commit
  }

  ghost predicate CommittedBy(h: History, t: Term, index: int, log: seq<Entry>) {
    && Covers(h, t, index) && -1 <= index < |log| && index < |h.reigns[t].log|
    && Agree(log, h.reigns[t].log, index + 1)
  }

  /** Some leader up to `term` committed exactly the entries of `log` through `index`. */
  ghost predicate KnownCommitted(h: History, term: Term, index: int, log: seq<Entry>) {
    index == -1 || exists t: Term :: t <= term && CommittedBy(h, t, index, log)
  }

  ghost predicate AllCommittedUpTo(h: History, term: Term, applied: seq<Entry>) {
    KnownCommitted(h, term, |applied| - 1, applied)
  }

  ghost predicate AllCommitted(h: History, applied: seq<Entry>) {
    applied == [] || exists term: Term :: AllCommittedUpTo(h, term, applied)
  }

  /** Where `log` reaches, it holds what the leader of term t committed. */
  ghost predicate CompatibleWith(h: History, t: Term, index: int, log: seq<Entry>) {
    && Covers(h, t, index) && 0 <= index < |h.reigns[t].log|
    && Agree(log, h.reigns[t].log, Min(|log|, index + 1))
  }

  /** A stored commit index may run ahead of the log; where the log reaches, it is committed. */
  ghost predicate StoredCommitOk(h: History, term: Term, index: int, log: seq<Entry>) {
    index == -1 || exists t: Term :: t <= term && CompatibleWith(h, t, index, log)
  }

  // ── one replica ───────────────────────────────────────────────────────────

  /** What was acknowledged in the current term is still durable here, and is the leader's. */
  ghost predicate AckStillHeld(h: History, n: NodeId, term: Term, log: seq<Entry>, durable: nat) {
    Acked(h, n, term) > 0 ==>
      term in h.reigns && Acked(h, n, term) <= durable && Agree(log, h.reigns[term].log, Acked(h, n, term))
  }

  ghost predicate JournalOk(h: History, n: NodeId, term: Term, j: Journal) {
    && j.durable <= |j.log|
    && Coherent(h, j.log) && TermsUpTo(j.log, term)
    && AcksHonoured(h, n, term, j.log, j.durable)
    && AckStillHeld(h, n, term, j.log, j.durable)
  }

  ghost predicate WaiterOk(h: History, n: NodeId, term: Term, j: Journal, w: DurableWaiter) {
    && w.call.callee == n && w.term <= term && w.call.term == w.term && w.need >= 0 && w.epoch <= j.epoch
    && w.response.AppendOk? && w.response.term == w.term && w.response.matchIndex == w.need - 1
    && (IsCurrent(term, j, w) ==> term in h.reigns && w.need <= |j.log| && Agree(j.log, h.reigns[term].log, w.need))
  }

  ghost predicate WaitersOk(h: History, n: NodeId, term: Term, j: Journal) {
    forall w :: w in j.waiters ==> WaiterOk(h, n, term, j, w)
  }

  /** Nothing about this replica was ever recorded beyond its current term. */
  ghost predicate RecordsUpTo(h: History, n: NodeId, term: Term) {
    && (forall t :: (n, t) in h.votes ==> t <= term)
    && (forall t :: (n, t) in h.cands ==> t <= term)
    && (forall t :: (n, t) in h.acks ==> t <= term)
  }

  ghost predicate BallotOk(h: History, n: NodeId, b: Ballot, stable: Stable) {
    && stable.term == b.term && stable.votedFor == b.votedFor
    && RecordsUpTo(h, n, b.term)
    && ((n, b.term) in h.votes <==> b.votedFor.Some?)
    && (b.votedFor.Some? ==> h.votes[(n, b.term)] == b.votedFor.value)
  }

  ghost predicate CampaignOk(cfg: Config, h: History, n: NodeId, b: Ballot, log: seq<Entry>) {
    && (n, b.term) in h.cands && h.cands[(n, b.term)] == log && TermsBelow(log, b.term)
    && !(b.term in h.reigns && h.reigns[b.term].leader == n)
    && b.votes <= cfg.voters
    && forall p :: p in b.votes ==> (p, b.term) in h.votes && h.votes[(p, b.term)] == n
  }

  ghost predicate ReignHeld(h: History, n: NodeId, term: Term, log: seq<Entry>, commit: int) {
    && term in h.reigns && h.reigns[term].leader == n && h.reigns[term].log == log
    && h.reigns[term].commit <= commit
  }

  /** A follower counted through m durably acknowledged, in this term, the leader's log through m. */
  ghost predicate ProgressOk(cfg: Config, h: History, n: NodeId, term: Term, length: nat, lead: Leadership) {
    forall p :: p in Peers(cfg, n) ==>
      && p in lead.matched && p in lead.next
      && -1 <= lead.matched[p] && lead.matched[p] + 1 <= lead.next[p] <= length
      && lead.matched[p] + 1 <= Acked(h, p, term)
  }

  ghost predicate RoleOk(cfg: Config, h: History, n: NodeId, s: NodeState) {
    match s.ballot.role
    case Follower => true
    case Candidate => CampaignOk(cfg, h, n, s.ballot, s.journal.log)
    case Leader =>
      && ReignHeld(h, n, s.ballot.term, s.journal.log, s.commitment.index)
      && ProgressOk(cfg, h, n, s.ballot.term, |s.journal.log|, s.lead)
  }

  ghost predicate CommitmentOk(h: History, term: Term, c: Commitment, log: seq<Entry>) {
    && -1 <= c.index < |log| && c.applied == log[..c.index + 1]
    && KnownCommitted(h, term, c.index, log)
  }

  /** A client waits on an entry of the log of the leader that took it. */
  ghost predicate ClientsOk(role: Role, waiters: set<CommitWaiter>, log: seq<Entry>) {
    forall w :: w in waiters ==> role == Leader && w.index < |log| && log[w.index] == w.entry
  }

  /** Every outstanding AppendEntries was sent in a term this replica led, from its log of that term. */
  ghost predicate RpcsOk(cfg: Config, h: History, n: NodeId, rpcs: map<Call, Rpc>) {
    forall c :: c in rpcs ==>
      && c.caller == n && c.callee in Peers(cfg, n) && SensibleRpc(rpcs[c])
      && (rpcs[c].AppendRpc? ==>
            && c.term in h.reigns && h.reigns[c.term].leader == n
            && rpcs[c].prevLogIndex + 1 <= |h.reigns[c.term].log|)
  }

  ghost predicate StableOk(h: History, stable: Stable, log: seq<Entry>) {
    -1 <= stable.commit && StoredCommitOk(h, stable.term, stable.commit, log)
  }

  ghost predicate NodeOk(cfg: Config, h: History, n: NodeId, s: NodeState) {
    && n in cfg.voters && !s.panicked
    && BallotOk(h, n, s.ballot, s.stable)
    && JournalOk(h, n, s.ballot.term, s.journal)
    && WaitersOk(h, n, s.ballot.term, s.journal)
    && RoleOk(cfg, h, n, s)
    && CommitmentOk(h, s.ballot.term, s.commitment, s.journal.log)
    && ClientsOk(s.ballot.role, s.commitment.waiters, s.journal.log)
    && RpcsOk(cfg, h, n, s.rpcs)
    && StableOk(h, s.stable, s.journal.log)
  }

  lemma NodeOkIsWellFormed(cfg: Config, h: History, n: NodeId, s: NodeState)
    requires NodeOk(cfg, h, n, s)
    ensures WellFormed(s)
  {
  }

  /** The parts of the invariant most handlers start from. */
  lemma NodeFacts(cfg: Config, h: History, n: NodeId, s: NodeState)
    requires NodeOk(cfg, h, n, s)
    ensures WellFormed(s) && !s.panicked && n in cfg.voters
    ensures Coherent(h, s.journal.log) && TermsUpTo(s.journal.log, s.ballot.term)
    ensures s.commitment.index < |s.journal.log| && KnownCommitted(h, s.ballot.term, s.commitment.index, s.journal.log)
    ensures s.ballot.role == Leader ==> ReignHeld(h, n, s.ballot.term, s.journal.log, s.commitment.index)
    ensures RecordsUpTo(h, n, s.ballot.term)
    ensures AcksHonoured(h, n, s.ballot.term, s.journal.log, s.journal.durable)
    ensures WaitersSane(s.journal.waiters)
  {
    forall w | w in s.journal.waiters ensures w.response.AppendOk? && w.response.term == w.term {
      assert WaiterOk(h, n, s.ballot.term, s.journal, w);
    }
  }

  // ── messages ──────────────────────────────────────────────────────────────

  ghost predicate VoteRequestOk(h: History, call: Call, lastLogIndex: int, lastLogTerm: Term) {
    && (call.caller, call.term) in h.cands
    && lastLogIndex == |h.cands[(call.caller, call.term)]| - 1
    && lastLogTerm == LastTerm(h.cands[(call.caller, call.term)])
  }

  ghost predicate PieceOf(log: seq<Entry>, prev: int, prevTerm: Term, entries: seq<Entry>) {
    && -1 <= prev && prev + 1 + |entries| <= |log|
    && entries == log[prev + 1..prev + 1 + |entries|]
    && prevTerm == (if prev >= 0 then log[prev].term else 0)
  }

  ghost predicate CommitReached(h: History, term: Term, commit: int) {
    commit == -1 || (commit >= 0 && exists t: Term :: t <= term && Covers(h, t, commit))
  }

  /** An AppendEntries carries a piece of its leader's log, and a commit index some leader reached. */
  ghost predicate AppendRequestOk(h: History, call: Call, prev: int, prevTerm: Term, entries: seq<Entry>, commit: int) {
    && call.term in h.reigns && h.reigns[call.term].leader == call.caller
    && PieceOf(h.reigns[call.term].log, prev, prevTerm, entries)
    && CommitReached(h, call.term, commit)
  }

  ghost predicate ResponseOk(h: History, call: Call, response: Response) {
    match response
    case PreVoteResult(_, _) => true
    case VoteResult(_, granted) =>
      granted ==> (call.callee, call.term) in h.votes && h.votes[(call.callee, call.term)] == call.caller
    case AppendOk(_, matchIndex, _) => matchIndex >= -1 && matchIndex + 1 <= Acked(h, call.callee, call.term)
    case AppendRejected(_, _, _) => true
  }

  ghost predicate MessageOk(cfg: Config, h: History, m: Message) {
    match m
    case Req(call, request) =>
      && call.caller in cfg.voters && call.callee in Peers(cfg, call.caller)
      && (match request
          case PreVote(_, _) => true
          case RequestVote(lastLogIndex, lastLogTerm) => VoteRequestOk(h, call, lastLogIndex, lastLogTerm)
          case AppendEntries(prev, prevTerm, entries, commit) => AppendRequestOk(h, call, prev, prevTerm, entries, commit))
    case Resp(call, response) => ResponseOk(h, call, response)
    case ClientReply(_, index, entry, committed) =>
      committed ==> exists t :: Covers(h, t, index) && index < |h.reigns[t].log| && h.reigns[t].log[index] == entry
    case ReadAnswer(_, _, applied) => AllCommitted(h, applied)
  }

  ghost predicate MessagesOk(cfg: Config, h: History, net: set<Message>) {
    forall m :: m in net ==> MessageOk(cfg, h, m)
  }

  // ── the history only grows, and only its owner extends a record ───────────

  ghost predicate ReignGrows(n: NodeId, r: Reign, r': Reign) {
    && r'.leader == r.leader && r'.base == r.base && r'.electors == r.electors
    && |r.log| <= |r'.log| && r.log == r'.log[..|r.log|] && r.commit <= r'.commit
    && (r.leader != n ==> r' == r)
  }

  ghost predicate Grows(n: NodeId, h: History, h': History) {
    && (forall t :: t in h.reigns ==> t in h'.reigns && ReignGrows(n, h.reigns[t], h'.reigns[t]))
    && (forall t :: t in h'.reigns && t !in h.reigns ==> h'.reigns[t].leader == n)
    && (forall k :: k in h.votes ==> k in h'.votes && h'.votes[k] == h.votes[k])
    && (forall k :: k in h'.votes && k !in h.votes ==> k.0 == n)
    && (forall k :: k in h.cands ==> k in h'.cands && h'.cands[k] == h.cands[k])
    && (forall k :: k in h'.cands && k !in h.cands ==> k.0 == n)
    && (forall k :: k in h.acks ==> k in h'.acks && h.acks[k] <= h'.acks[k])
    && (forall k :: k in h'.acks && k.0 != n ==> k in h.acks && h'.acks[k] == h.acks[k])
  }

  function CommitOf(h: History, t: Term): int {
    if t in h.reigns then h.reigns[t].commit else -1
  }

  /** Acknowledgements are recorded only under the term in which they are made, commits only by the leader of theirs. */
  ghost predicate RecordsOnlyIn(n: NodeId, h: History, h': History, b: Ballot) {
    && (forall t :: t != b.term ==> Acked(h', n, t) == Acked(h, n, t))
    && (forall t: Term :: t != b.term || b.role != Leader ==> CommitOf(h', t) == CommitOf(h, t))
  }

  lemma GrowsSame(n: NodeId, h: History)
    ensures Grows(n, h, h)
    ensures forall b :: RecordsOnlyIn(n, h, h, b)
  {
  }

  lemma GrowsThen(n: NodeId, h: History, h1: History, h2: History)
    requires Grows(n, h, h1) && Grows(n, h1, h2)
    ensures Grows(n, h, h2)
  {
    forall t | t in h.reigns ensures t in h2.reigns && ReignGrows(n, h.reigns[t], h2.reigns[t]) {
      var r, r1, r2 := h.reigns[t], h1.reigns[t], h2.reigns[t];
      assert ReignGrows(n, r, r1) && ReignGrows(n, r1, r2);
      assert r2.log[..|r.log|] == r2.log[..|r1.log|][..|r.log|];
    }
  }

  lemma GrownAgree(n: NodeId, h: History, h': History, t: Term, log: seq<Entry>, k: nat)
    requires Grows(n, h, h') && t in h.reigns && Agree(log, h.reigns[t].log, k)
    ensures t in h'.reigns && Agree(log, h'.reigns[t].log, k)
  {
    assert ReignGrows(n, h.reigns[t], h'.reigns[t]);
    assert h'.reigns[t].log[..k] == h.reigns[t].log[..k];
  }

  lemma GrownCoherent(n: NodeId, h: History, h': History, log: seq<Entry>)
    requires Grows(n, h, h') && Coherent(h, log)
    ensures Coherent(h', log)
  {
    forall i | 0 <= i < |log| ensures EntryKnown(h', log, i) {
      assert EntryKnown(h, log, i);
      GrownAgree(n, h, h', log[i].term, log, i + 1);
    }
  }

  lemma GrownKnownCommitted(n: NodeId, h: History, h': History, term: Term, index: int, log: seq<Entry>)
    requires Grows(n, h, h') && KnownCommitted(h, term, index, log)
    ensures KnownCommitted(h', term, index, log)
  {
    if index != -1 {
      var t: Term :| t <= term && CommittedBy(h, t, index, log);
      assert ReignGrows(n, h.reigns[t], h'.reigns[t]);
      GrownAgree(n, h, h', t, log, index + 1);
      assert CommittedBy(h', t, index, log);
    }
  }

  lemma GrownStoredCommit(n: NodeId, h: History, h': History, term: Term, index: int, log: seq<Entry>)
    requires Grows(n, h, h') && StoredCommitOk(h, term, index, log)
    ensures StoredCommitOk(h', term, index, log)
  {
    if index != -1 {
      var t: Term :| t <= term && CompatibleWith(h, t, index, log);
      assert ReignGrows(n, h.reigns[t], h'.reigns[t]);
      GrownAgree(n, h, h', t, log, Min(|log|, index + 1));
      assert CompatibleWith(h', t, index, log);
    }
  }

  /** The prefix somebody acknowledged, and who dropped it, do not change as the history grows. */
  lemma GrownPromise(n: NodeId, h: History, h': History, t: Term, L: nat, log: seq<Entry>, u: Term)
    requires Grows(n, h, h') && t in h.reigns && Own(h', t, L) && L <= |h.reigns[t].log|
    ensures Own(h, t, L)
    ensures Agree(h.reigns[t].log, log, L) ==> Agree(h'.reigns[t].log, log, L)
    ensures DroppedBy(h, t, L, u) ==> DroppedBy(h', t, L, u)
  {
    var r, r' := h.reigns[t], h'.reigns[t];
    assert ReignGrows(n, r, r');
    assert r'.log[L - 1] == r.log[L - 1];
    assert r'.log[..L] == r.log[..L];
    if DroppedBy(h, t, L, u) {
      var w :| t < w <= u && Drops(h, t, L, w);
      assert ReignGrows(n, h.reigns[w], h'.reigns[w]);
      assert Drops(h', t, L, w);
    }
  }

  lemma GrownAcksHonoured(cfg: Config, n: NodeId, h: History, h': History, v: NodeId, term: Term, log: seq<Entry>, durable: nat)
    requires HistoryOk(cfg, h) && Grows(n, h, h') && AcksHonoured(h, v, term, log, durable)
    requires forall t :: Acked(h', v, t) == Acked(h, v, t)
    ensures AcksHonoured(h', v, term, log, durable)
  {
    forall t: Term, L: nat | Own(h', t, L) && L <= Acked(h', v, t)
      ensures (L <= durable && Agree(h'.reigns[t].log, log, L)) || DroppedBy(h', t, L, term)
    {
      assert (v, t) in h.acks;
      GrownPromise(n, h, h', t, L, log, term);
    }
  }

  lemma GrownVoteSafe(cfg: Config, n: NodeId, h: History, h': History, v: NodeId, u: Term, log: seq<Entry>)
    requires HistoryOk(cfg, h) && Grows(n, h, h') && VoteSafe(h, v, u, log)
    requires forall t: Term :: t < u ==> Acked(h', v, t) == Acked(h, v, t)
    ensures VoteSafe(h', v, u, log)
  {
    forall t: Term, L: nat | t < u && Own(h', t, L) && L <= Acked(h', v, t)
      ensures Agree(h'.reigns[t].log, log, L) || DroppedBy(h', t, L, u - 1)
    {
      assert (v, t) in h.acks;
      GrownPromise(n, h, h', t, L, log, u - 1);
    }
  }

  lemma GrownJournal(cfg: Config, n: NodeId, h: History, h': History, v: NodeId, term: Term, j: Journal)
    requires HistoryOk(cfg, h) && Grows(n, h, h') && JournalOk(h, v, term, j) && WaitersOk(h, v, term, j)
    requires forall t :: Acked(h', v, t) == Acked(h, v, t)
    ensures JournalOk(h', v, term, j) && WaitersOk(h', v, term, j)
  {
    GrownCoherent(n, h, h', j.log);
    GrownAcksHonoured(cfg, n, h, h', v, term, j.log, j.durable);
    if Acked(h, v, term) > 0 {
      GrownAgree(n, h, h', term, j.log, Acked(h, v, term));
    }
  }

  lemma GrownRpcs(cfg: Config, n: NodeId, h: History, h': History, v: NodeId, rpcs: map<Call, Rpc>)
    requires Grows(n, h, h') && RpcsOk(cfg, h, v, rpcs)
    ensures RpcsOk(cfg, h', v, rpcs)
  {
    forall c | c in rpcs && rpcs[c].AppendRpc?
      ensures c.term in h'.reigns && h'.reigns[c.term].leader == v && rpcs[c].prevLogIndex + 1 <= |h'.reigns[c.term].log|
    {
      assert ReignGrows(n, h.reigns[c.term], h'.reigns[c.term]);
    }
  }

  lemma SameAcks(n: NodeId, h: History, h': History, v: NodeId)
    requires Grows(n, h, h') && v != n
    ensures forall t :: Acked(h', v, t) == Acked(h, v, t)
  {
  }

  lemma GrownBallot(n: NodeId, h: History, h': History, v: NodeId, b: Ballot, stable: Stable)
    requires Grows(n, h, h') && v != n && BallotOk(h, v, b, stable)
    ensures BallotOk(h', v, b, stable)
  {
    hide ReignGrows;
  }

  lemma GrownRole(cfg: Config, n: NodeId, h: History, h': History, v: NodeId, s: NodeState)
    requires Grows(n, h, h') && v != n && RoleOk(cfg, h, v, s)
    ensures RoleOk(cfg, h', v, s)
  {
    if s.ballot.role == Leader {
      assert ReignGrows(n, h.reigns[s.ballot.term], h'.reigns[s.ballot.term]);
    }
  }

  /** A step of one replica leaves every other replica's invariant intact. */
  lemma OthersUndisturbed(cfg: Config, n: NodeId, h: History, h': History, v: NodeId, s: NodeState)
    requires HistoryOk(cfg, h) && Grows(n, h, h') && v != n && NodeOk(cfg, h, v, s)
    ensures NodeOk(cfg, h', v, s)
  {
    hide HistoryOk, BallotOk, JournalOk, WaitersOk, RoleOk, KnownCommitted, ClientsOk, RpcsOk, StoredCommitOk, Grows;
    GrownBallot(n, h, h', v, s.ballot, s.stable);
    GrownRole(cfg, n, h, h', v, s);
    SameAcks(n, h, h', v);
    GrownJournal(cfg, n, h, h', v, s.ballot.term, s.journal);
    GrownKnownCommitted(n, h, h', s.ballot.term, s.commitment.index, s.journal.log);
    GrownStoredCommit(n, h, h', s.stable.term, s.stable.commit, s.journal.log);
    GrownRpcs(cfg, n, h, h', v, s.rpcs);
  }

  lemma GrownCommitReached(n: NodeId, h: History, h': History, term: Term, commit: int)
    requires Grows(n, h, h') && CommitReached(h, term, commit)
    ensures CommitReached(h', term, commit)
  {
    if commit >= 0 {
      var t: Term :| t <= term && Covers(h, t, commit);
      assert ReignGrows(n, h.reigns[t], h'.reigns[t]);
      assert Covers(h', t, commit);
    }
  }

  lemma GrownAppendRequest(n: NodeId, h: History, h': History, call: Call, prev: int, prevTerm: Term, entries: seq<Entry>, commit: int)
    requires Grows(n, h, h') && AppendRequestOk(h, call, prev, prevTerm, entries, commit)
    ensures AppendRequestOk(h', call, prev, prevTerm, entries, commit)
  {
    hide Grows, CommitReached, PieceOf;
    GrownReign(n, h, h', call.term);
    GrownPiece(n, h.reigns[call.term], h'.reigns[call.term], prev, prevTerm, entries);
    GrownCommitReached(n, h, h', call.term, commit);
  }

  lemma GrownReign(n: NodeId, h: History, h': History, t: Term)
    requires Grows(n, h, h') && t in h.reigns
    ensures t in h'.reigns && ReignGrows(n, h.reigns[t], h'.reigns[t])
  {
  }

  lemma GrownPiece(n: NodeId, r: Reign, r': Reign, prev: int, prevTerm: Term, entries: seq<Entry>)
    requires ReignGrows(n, r, r') && PieceOf(r.log, prev, prevTerm, entries)
    ensures PieceOf(r'.log, prev, prevTerm, entries)
  {
  }

  lemma MessageUndisturbed(cfg: Config, n: NodeId, h: History, h': History, m: Message)
    requires Grows(n, h, h') && MessageOk(cfg, h, m)
    ensures MessageOk(cfg, h', m)
  {
    match m
    case Req(call, request) =>
      if request.AppendEntries? {
        GrownAppendRequest(n, h, h', call, request.prevLogIndex, request.prevLogTerm, request.entries, request.leaderCommit);
      }
    case Resp(_, _) =>
    case ClientReply(_, index, entry, committed) =>
      if committed {
        var t :| Covers(h, t, index) && index < |h.reigns[t].log| && h.reigns[t].log[index] == entry;
        assert ReignGrows(n, h.reigns[t], h'.reigns[t]);
        assert Covers(h', t, index) && h'.reigns[t].log[index] == entry;
      }
    case ReadAnswer(_, _, applied) =>
      if applied != [] {
        var term: Term :| AllCommittedUpTo(h, term, applied);
        GrownKnownCommitted(n, h, h', term, |applied| - 1, applied);
        assert AllCommittedUpTo(h', term, applied);
      }
  }

  lemma MessagesUndisturbed(cfg: Config, n: NodeId, h: History, h': History, net: set<Message>)
    requires Grows(n, h, h') && MessagesOk(cfg, h, net)
    ensures MessagesOk(cfg, h', net)
  {
    forall m | m in net ensures MessageOk(cfg, h', m) {
      MessageUndisturbed(cfg, n, h, h', m);
    }
  }
}
