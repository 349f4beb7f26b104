/** More manoeuvres: a leader takes client commands, and replicates its log to a follower that commits it. */
module RaftManoeuvres {
  import opened RaftTypes
  import opened RaftEngine
  import opened RaftCluster
  import opened RaftPlay

  // ── client commands ───────────────────────────────────────────────────────

  function Nth(term: Term, index: nat): Entry {
    Entry(term, index, Client(None, 0))
  }

  lemma CommandTaken(cfg: Config, n: NodeId, s: NodeState, term: Term, log: seq<Entry>, commit: int, at: nat, ticket: nat)
    requires QuorumSize(cfg) == 2 && cfg.flushEntries == 1 && WellFormed(s)
    requires Rests(s, term, log, commit) && Leads(cfg, n, s, at)
    ensures var t := ClientAppend(cfg, n, s, Client(None, 0), ticket).s;
            && Rests(t, term, log + [Nth(term, |log|)], commit) && Leads(cfg, n, t, at) && t.lead == s.lead
  {
    AppendsAtOnce(cfg, n, s, [Nth(term, |log|)]);
    assert (log + [Nth(term, |log|)])[..commit + 1] == log[..commit + 1];
  }

  lemma CommandStep(cfg: Config, run: Run, n: NodeId) returns (run': Run)
    requires IsRun(cfg, run) && n in Last(run).nodes && Last(run).nodes[n].up && Last(run).nodes[n].ballot.role == Leader
    ensures WellFormed(Last(run).nodes[n])
    ensures Stepped(cfg, run, run', n, ClientAppend(cfg, n, Last(run).nodes[n], Client(None, 0), Last(run).ticket))
  {
    hide ClientAppend, Continues;
    Sound(cfg, run, n);
    run' := OneStep(cfg, run, n, ClientRequest(Client(None, 0)));
  }

  /** A leader that has sent nothing yet takes k commands. */
  lemma {:induction false} TakeCommands(cfg: Config, run: Run, n: NodeId, term: Term, log: seq<Entry>, commit: int, at: nat, k: nat)
    returns (run': Run, log': seq<Entry>)
    requires IsRun(cfg, run) && QuorumSize(cfg) == 2 && cfg.flushEntries == 1
    requires n in Last(run).nodes && Rests(Last(run).nodes[n], term, log, commit) && Leads(cfg, n, Last(run).nodes[n], at)
    ensures IsRun(cfg, run') && run'.states != [] && Continues(run, run') && OthersRest(Last(run), Last(run'), n, n)
    ensures n in Last(run').nodes && Last(run').nodes[n].lead == Last(run).nodes[n].lead
    ensures Rests(Last(run').nodes[n], term, log', commit) && Leads(cfg, n, Last(run').nodes[n], at)
    ensures |log'| == |log| + k && log <= log' && forall i :: |log| <= i < |log'| ==> log'[i].term == term
  {
    assert run.states != [];
    if k == 0 {
      run', log' := run, log;
    } else {
      hide IsRun, Last, Rests, Leads, ClientAppend, Continues, WellFormed, QuorumSize;
      var run1, log1 := TakeCommands(cfg, run, n, term, log, commit, at, k - 1);
      RestFacts(Last(run1).nodes[n], term, log1, commit);
      LeadFacts(cfg, n, Last(run1).nodes[n], at);
      run' := CommandStep(cfg, run1, n);
      CommandTaken(cfg, n, Last(run1).nodes[n], term, log1, commit, at, Last(run1).ticket);
      log' := log1 + [Nth(term, |log1|)];
      ContinuesThen(run, run1, run');
    }
  }

  lemma LeadFacts(cfg: Config, n: NodeId, s: NodeState, at: nat)
    requires Leads(cfg, n, s, at)
    ensures s.ballot.role == Leader && s.lead.noopIndex == Some(at)
  {
  }

  // ── replication ───────────────────────────────────────────────────────────

  lemma PumpStep(cfg: Config, run: Run, n: NodeId, p: NodeId, count: nat) returns (run': Run)
    requires IsRun(cfg, run) && n in Last(run).nodes && Last(run).nodes[n].up && MaySend(cfg, n, Last(run).nodes[n], p, false, count)
    ensures Stepped(cfg, run, run', n, SendAppend(n, Last(run).nodes[n], p, count, Last(run).ticket))
  {
    hide SendAppend, Continues;
    Sound(cfg, run, n);
    run' := OneStep(cfg, run, n, Pump(p, false, count));
  }

  /** The leader has asked p to take everything from `at` on. */
  ghost predicate Offers(n: NodeId, p: NodeId, s: NodeState, t: NodeState, c: Call) {
    && c.caller == n && c.callee == p && c.term == s.ballot.term
    && c in t.rpcs && t.rpcs[c].AppendRpc? && t.rpcs[c].epoch == s.lead.epoch && t.rpcs[c].prevLogIndex >= -1
    && t == s.(rpcs := t.rpcs) && OldCalls(t)
  }

  lemma BatchOffered(cfg: Config, n: NodeId, p: NodeId, s: NodeState, term: Term, log: seq<Entry>, commit: int, at: nat, ticket: nat)
    requires Rests(s, term, log, commit) && Leads(cfg, n, s, at) && p in Peers(cfg, n)
    requires at < |log| && |log| - at <= cfg.maxEntries
    ensures MaySend(cfg, n, s, p, false, |log| - at)
    ensures var out := SendAppend(n, s, p, |log| - at, ticket);
            var c := Call(ticket, n, p, term);
            && Offers(n, p, s, out.s, c)
            && Req(c, AppendRequest(log, commit, at, |log| - at)) in out.msgs
  {
    assert Active(s.rpcs, p, s.lead.epoch) == {};
  }

  /** A follower that has the log up to `at`, and has committed as much as the leader, takes the rest and says so. */
  lemma BatchTaken(cfg: Config, p: NodeId, t: NodeState, tTerm: Term, log: seq<Entry>, at: nat, tCommit: int, commit: int, c: Call)
    requires QuorumSize(cfg) == 2 && cfg.flushEntries == 1 && WellFormed(t) && !t.panicked
    requires at < |log| && Rests(t, tTerm, log[..at], tCommit) && commit <= tCommit
    requires tTerm < c.term || (tTerm == c.term && t.ballot.role == Follower)
    ensures var out := HandleRequest(cfg, p, t, c, AppendRequest(log, commit, at, |log| - at), false);
            && Rests(out.s, c.term, log, tCommit) && out.s.ballot.role == Follower
            && out.s.lead.broadcast == t.lead.broadcast
            && out.s.lead.epoch == (if t.ballot.role == Leader then t.lead.epoch + 1 else t.lead.epoch)
            && Resp(c, AppendOk(c.term, |log| - 1, |log|)) in out.msgs
  {
    hide AdoptLeader, AcceptEntries, Rests, WellFormed, AppendRequest;
    Adopted(p, t, tTerm, log[..at], tCommit, c);
    BatchAccepted(cfg, p, AdoptLeader(p, t, c).s, log, at, tCommit, commit, c);
    RestFacts(t, tTerm, log[..at], tCommit);
    Probed(log, commit, at);
  }

  lemma Probed(log: seq<Entry>, commit: int, at: nat)
    requires at < |log|
    ensures var request := AppendRequest(log, commit, at, |log| - at); request.AppendEntries? && request.prevLogIndex == at - 1
  {
  }

  lemma BatchAccepted(cfg: Config, p: NodeId, t: NodeState, log: seq<Entry>, at: nat, tCommit: int, commit: int, c: Call)
    requires QuorumSize(cfg) == 2 && cfg.flushEntries == 1 && WellFormed(t) && !t.panicked && t.ballot.role == Follower
    requires at < |log| && Rests(t, c.term, log[..at], tCommit) && commit <= tCommit
    ensures var out := AcceptEntries(cfg, p, t, c, AppendRequest(log, commit, at, |log| - at));
            && Rests(out.s, c.term, log, tCommit) && out.s.ballot.role == Follower && out.s.lead == t.lead
            && Resp(c, AppendOk(c.term, |log| - 1, |log|)) in out.msgs
  {
    var request := AppendRequest(log, commit, at, |log| - at);
    assert HeldCount(log[..at], at, request.entries) == 0;
    assert request.entries[0..] == request.entries;
    AppendsAtOnce(cfg, p, t, request.entries);
    assert log[..at] + request.entries == log;
    assert log[..at][..tCommit + 1] == log[..tCommit + 1];
  }

  lemma Adopted(p: NodeId, t: NodeState, tTerm: Term, log: seq<Entry>, tCommit: int, c: Call)
    requires WellFormed(t) && Rests(t, tTerm, log, tCommit)
    requires tTerm < c.term || (tTerm == c.term && t.ballot.role == Follower)
    ensures var u := AdoptLeader(p, t, c).s;
            && Rests(u, c.term, log, tCommit) && u.ballot.role == Follower && u.lead.broadcast == t.lead.broadcast
            && u.lead.epoch == (if t.ballot.role == Leader then t.lead.epoch + 1 else t.lead.epoch)
            && WellFormed(u) && u.panicked == t.panicked
  {
  }

  /** One follower is a majority with the leader: everything is committed, and the zero-delay callback queued. */
  lemma BatchCommitted(cfg: Config, n: NodeId, p: NodeId, s: NodeState, t: NodeState, c: Call, term: Term, log: seq<Entry>, commit: int, ticket: nat)
    requires QuorumSize(cfg) == 2 && WellFormed(t) && p in Peers(cfg, n) && Rests(s, term, log, commit) && Offers(n, p, s, t, c)
    requires s.ballot.role == Leader && commit < |log| - 1 && log[|log| - 1].term == term
    ensures var u := HandleResponse(cfg, n, t, c, AppendOk(term, |log| - 1, |log|), ticket).s;
            && Rests(u, term, log, |log| - 1) && u.ballot.role == Leader && u.lead.epoch == s.lead.epoch
            && u.lead.broadcast == (if s.lead.broadcast.Some? then s.lead.broadcast else Some(s.lead.epoch))
  {
    var t1 := t.(rpcs := t.rpcs - {c}, lead := Progress(t.lead, p, |log| - 1));
    var both := Replicas(cfg, n, t1.journal, t1.lead, |log| - 1);
    assert {n, p} <= both;
    assert |{n, p}| == 2;
    AtLeast({n, p}, both);
    assert Committable(cfg, n, t1, |log| - 1);
    assert FindCommit(cfg, n, t1, |log| - 1) == |log| - 1;
    assert log[..commit + 1] + log[commit + 1..|log|] == log[..|log|];
  }

  lemma AtLeast(a: set<NodeId>, b: set<NodeId>)
    requires a <= b
    ensures |a| <= |b|
  {
    assert b == a + (b - a);
  }

  lemma OfferFacts(n: NodeId, p: NodeId, s: NodeState, t: NodeState, c: Call)
    requires Offers(n, p, s, t, c)
    ensures c.caller == n && c.callee == p && c.term == s.ballot.term && c in t.rpcs && SensibleRpc(t.rpcs[c]) && t.up == s.up
  {
  }

  lemma Offer(cfg: Config, run: Run, n: NodeId, p: NodeId, term: Term, log: seq<Entry>, commit: int, at: nat) returns (run': Run, c: Call)
    requires IsRun(cfg, run) && p in Peers(cfg, n) && at < |log| && |log| - at <= cfg.maxEntries
    requires n in Last(run).nodes && Rests(Last(run).nodes[n], term, log, commit) && Leads(cfg, n, Last(run).nodes[n], at)
    ensures IsRun(cfg, run') && run'.states != [] && Continues(run, run') && OthersRest(Last(run), Last(run'), n, n)
    ensures n in Last(run').nodes && Offers(n, p, Last(run).nodes[n], Last(run').nodes[n], c) && c.term == term
    ensures Req(c, AppendRequest(log, commit, at, |log| - at)) in Last(run').net
  {
    assert run.states != [];
    hide IsRun, Last, Rests, Leads, MaySend, SendAppend, Offers, Continues;
    RestFacts(Last(run).nodes[n], term, log, commit);
    BatchOffered(cfg, n, p, Last(run).nodes[n], term, log, commit, at, Last(run).ticket);
    run' := PumpStep(cfg, run, n, p, |log| - at);
    c := Call(Last(run).ticket, n, p, term);
  }

  lemma Take(cfg: Config, run: Run, p: NodeId, tTerm: Term, log: seq<Entry>, at: nat, tCommit: int, commit: int, c: Call) returns (run': Run)
    requires IsRun(cfg, run) && QuorumSize(cfg) == 2 && cfg.flushEntries == 1 && c.callee == p
    requires p in Last(run).nodes && at < |log| && Rests(Last(run).nodes[p], tTerm, log[..at], tCommit) && commit <= tCommit
    requires tTerm < c.term || (tTerm == c.term && Last(run).nodes[p].ballot.role == Follower)
    requires Req(c, AppendRequest(log, commit, at, |log| - at)) in Last(run).net
    ensures IsRun(cfg, run') && run'.states != [] && Continues(run, run') && OthersRest(Last(run), Last(run'), p, p)
    ensures p in Last(run').nodes
    ensures var t, t' := Last(run).nodes[p], Last(run').nodes[p];
            && Rests(t', c.term, log, tCommit) && t'.ballot.role == Follower && t'.lead.broadcast == t.lead.broadcast
            && t'.lead.epoch == (if t.ballot.role == Leader then t.lead.epoch + 1 else t.lead.epoch)
    ensures Resp(c, AppendOk(c.term, |log| - 1, |log|)) in Last(run').net
  {
    assert run.states != [];
    var request := AppendRequest(log, commit, at, |log| - at);
    assert SensibleRequest(request);
    hide IsRun, Last, Rests, HandleRequest, Continues, WellFormed, QuorumSize, AppendRequest;
    RestFacts(Last(run).nodes[p], tTerm, log[..at], tCommit);
    run' := RequestStep(cfg, run, p, c, request);
    BatchTaken(cfg, p, Last(run).nodes[p], tTerm, log, at, tCommit, commit, c);
  }

  lemma Hear(cfg: Config, run: Run, n: NodeId, p: NodeId, s: NodeState, c: Call, term: Term, log: seq<Entry>, commit: int) returns (run': Run)
    requires IsRun(cfg, run) && QuorumSize(cfg) == 2 && p in Peers(cfg, n) && Rests(s, term, log, commit)
    requires n in Last(run).nodes && Offers(n, p, s, Last(run).nodes[n], c) && s.ballot.role == Leader
    requires commit < |log| - 1 && log[|log| - 1].term == term
    requires Resp(c, AppendOk(term, |log| - 1, |log|)) in Last(run).net
    ensures IsRun(cfg, run') && run'.states != [] && Continues(run, run') && OthersRest(Last(run), Last(run'), n, n)
    ensures n in Last(run').nodes
    ensures var u := Last(run').nodes[n];
            && Rests(u, term, log, |log| - 1) && u.ballot.role == Leader && u.lead.epoch == s.lead.epoch
            && u.lead.broadcast == (if s.lead.broadcast.Some? then s.lead.broadcast else Some(s.lead.epoch))
  {
    assert run.states != [];
    hide IsRun, Last, Rests, Offers, HandleResponse, Continues, WellFormed, QuorumSize;
    RestFacts(s, term, log, commit);
    OfferFacts(n, p, s, Last(run).nodes[n], c);
    run' := ResponseStep(cfg, run, n, c, AppendOk(term, |log| - 1, |log|));
    BatchCommitted(cfg, n, p, s, Last(run).nodes[n], c, term, log, commit, Last(run).ticket);
  }

  /** The leader sends p what it lacks, p takes it, and the leader commits it. p does not learn of the commit. */
  lemma ReplicateLog(cfg: Config, run: Run, n: NodeId, p: NodeId, term: Term, log: seq<Entry>, commit: int, at: nat, tTerm: Term, tCommit: int)
    returns (run': Run)
    requires IsRun(cfg, run) && QuorumSize(cfg) == 2 && cfg.flushEntries == 1 && p in Peers(cfg, n)
    requires at < |log| && |log| - at <= cfg.maxEntries && log[|log| - 1].term == term && commit < |log| - 1 && commit <= tCommit
    requires n in Last(run).nodes && Rests(Last(run).nodes[n], term, log, commit) && Leads(cfg, n, Last(run).nodes[n], at)
    requires p in Last(run).nodes && Rests(Last(run).nodes[p], tTerm, log[..at], tCommit)
    requires tTerm < term || (tTerm == term && Last(run).nodes[p].ballot.role == Follower)
    ensures IsRun(cfg, run') && run'.states != [] && Continues(run, run') && OthersRest(Last(run), Last(run'), n, p)
    ensures n in Last(run').nodes && p in Last(run').nodes
    ensures var s, u := Last(run).nodes[n], Last(run').nodes[n];
            && Rests(u, term, log, |log| - 1) && u.ballot.role == Leader && u.lead.epoch == s.lead.epoch
            && u.lead.broadcast == (if s.lead.broadcast.Some? then s.lead.broadcast else Some(s.lead.epoch))
    ensures var t, t' := Last(run).nodes[p], Last(run').nodes[p];
            && Rests(t', term, log, tCommit) && t'.ballot.role == Follower && t'.lead.broadcast == t.lead.broadcast
            && t'.lead.epoch == (if t.ballot.role == Leader then t.lead.epoch + 1 else t.lead.epoch)
  {
    assert run.states != [];
    hide IsRun, Last, Rests, Leads, Offers, Continues, QuorumSize, OthersRest, AppendRequest;
    LeadFacts(cfg, n, Last(run).nodes[n], at);
    RestFacts(Last(run).nodes[n], term, log, commit);
    var run1, c := Offer(cfg, run, n, p, term, log, commit, at);
    OtherRests(Last(run), Last(run1), n, n, p);
    OfferFacts(n, p, Last(run).nodes[n], Last(run1).nodes[n], c);
    var run2 := Take(cfg, run1, p, tTerm, log, at, tCommit, commit, c);
    OtherRests(Last(run1), Last(run2), p, p, n);
    run' := Hear(cfg, run2, n, p, Last(run).nodes[n], c, term, log, commit);
    OtherRests(Last(run2), Last(run'), n, n, p);
    ContinuesThen(run, run1, run2);
    ContinuesThen(run, run2, run');
    ThreeTurns(Last(run), Last(run1), Last(run2), Last(run'), n, p);
  }

  lemma ThreeTurns(c: Cluster, c1: Cluster, c2: Cluster, c3: Cluster, n: NodeId, p: NodeId)
    requires OthersRest(c, c1, n, n) && OthersRest(c1, c2, p, p) && OthersRest(c2, c3, n, n)
    ensures OthersRest(c, c3, n, p)
  {
  }
}
