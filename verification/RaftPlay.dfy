/**
 * Building runs of a three-voter cluster out of whole manoeuvres: an election, one round of
 * replication, a series of client appends. Each says what it leaves behind and that it fires no
 * zero-delay callback.
 */
module RaftPlay {
  import opened RaftTypes
  import opened RaftEngine
  import opened RaftCluster
  import opened RaftTheorems

  /** Three voters, every append flushed at once, batches of up to `batch` entries. */
  function Trio(batch: nat): Config {
    Config({0, 1, 2}, 1, 1, batch)
  }

  function Last(run: Run): Cluster
    requires run.states != []
  {
    run.states[|run.states| - 1]
  }

  /** The run goes on as before, without a zero-delay callback. */
  ghost predicate Continues(run: Run, run': Run) {
    && |run.states| == |run.actions| + 1 && |run'.states| == |run'.actions| + 1
    && run.states <= run'.states && run.actions <= run'.actions
    && forall i :: |run.actions| <= i < |run'.actions| ==> !run'.actions[i].event.Broadcast?
  }

  lemma ContinuesThen(run: Run, run1: Run, run2: Run)
    requires Continues(run, run1) && Continues(run1, run2)
    ensures Continues(run, run2)
  {
    forall i | |run.actions| <= i < |run2.actions| ensures !run2.actions[i].event.Broadcast? {
      if i < |run1.actions| {
        assert run2.actions[i] == run1.actions[i];
      }
    }
  }

  /** One more step. */
  lemma OneStep(cfg: Config, run: Run, n: NodeId, e: Event) returns (run': Run)
    requires IsRun(cfg, run) && CanStep(cfg, Last(run), Act(n, e))
    ensures IsRun(cfg, run') && Last(run') == Step(cfg, Last(run), Act(n, e))
    ensures run'.states == run.states + [Last(run')] && run'.actions == run.actions + [Act(n, e)]
    ensures !e.Broadcast? ==> Continues(run, run')
  {
    run' := Run(run.states + [Step(cfg, Last(run), Act(n, e))], run.actions + [Act(n, e)]);
    forall i | 0 <= i < |run'.actions|
      ensures CanStep(cfg, run'.states[i], run'.actions[i]) && run'.states[i + 1] == Step(cfg, run'.states[i], run'.actions[i])
    {
      if i < |run.actions| {
        assert run'.states[i] == run.states[i] && run'.states[i + 1] == run.states[i + 1] && run'.actions[i] == run.actions[i];
      }
    }
  }

  /** Every replica of a run is well formed and has not refused anything. */
  lemma Sound(cfg: Config, run: Run, n: NodeId)
    requires IsRun(cfg, run) && n in Last(run).nodes
    ensures WellFormed(Last(run).nodes[n]) && !Last(run).nodes[n].panicked
  {
    var i: nat := |run.states| - 1;
    hide IsRun;
    NeverRefusesToTruncate(cfg, run, i, n);
  }

  /** The others are as they were. */
  ghost predicate OthersRest(c: Cluster, c': Cluster, n: NodeId, v: NodeId) {
    c'.nodes.Keys == c.nodes.Keys && forall p :: p in c.nodes && p != n && p != v ==> c'.nodes[p] == c.nodes[p]
  }

  lemma OtherRests(c: Cluster, c': Cluster, n: NodeId, v: NodeId, p: NodeId)
    requires OthersRest(c, c', n, v) && p in c.nodes && p != n && p != v
    ensures p in c'.nodes && c'.nodes[p] == c.nodes[p]
  {
  }

  lemma OthersThen(c: Cluster, c1: Cluster, c2: Cluster, n: NodeId, v: NodeId)
    requires OthersRest(c, c1, v, v) && OthersRest(c1, c2, n, n)
    ensures OthersRest(c, c2, n, v)
  {
  }

  /** The run is one step longer: n did `out`. */
  ghost predicate Stepped(cfg: Config, run: Run, run': Run, n: NodeId, out: Out)
    requires run.states != []
  {
    && IsRun(cfg, run') && run'.states != [] && Continues(run, run')
    && n in Last(run').nodes && Last(run').nodes[n] == out.s && OthersRest(Last(run), Last(run'), n, n)
    && Last(run).net <= Last(run').net && out.msgs <= Last(run').net
  }

  lemma TimeoutStep(cfg: Config, run: Run, n: NodeId) returns (run': Run)
    requires IsRun(cfg, run) && n in Last(run).nodes && Last(run).nodes[n].up && Last(run).nodes[n].ballot.role != Leader
    ensures WellFormed(Last(run).nodes[n])
    ensures Stepped(cfg, run, run', n, StartPreVote(cfg, n, Last(run).nodes[n], Last(run).ticket))
  {
    hide StartPreVote, Continues;
    Sound(cfg, run, n);
    run' := OneStep(cfg, run, n, ElectionTimeout);
  }

  lemma RequestStep(cfg: Config, run: Run, n: NodeId, c: Call, request: Request) returns (run': Run)
    requires IsRun(cfg, run) && n in Last(run).nodes && Last(run).nodes[n].up
    requires Req(c, request) in Last(run).net && c.callee == n && SensibleRequest(request)
    ensures WellFormed(Last(run).nodes[n]) && !Last(run).nodes[n].panicked
    ensures Stepped(cfg, run, run', n, HandleRequest(cfg, n, Last(run).nodes[n], c, request, false))
  {
    hide HandleRequest, Continues;
    Sound(cfg, run, n);
    run' := OneStep(cfg, run, n, OnRequest(c, request, false));
  }

  lemma ResponseStep(cfg: Config, run: Run, n: NodeId, c: Call, response: Response) returns (run': Run)
    requires IsRun(cfg, run) && n in Last(run).nodes && Last(run).nodes[n].up
    requires Resp(c, response) in Last(run).net && c.caller == n && SensibleResponse(response)
    requires c in Last(run).nodes[n].rpcs && SensibleRpc(Last(run).nodes[n].rpcs[c])
    ensures WellFormed(Last(run).nodes[n])
    ensures Stepped(cfg, run, run', n, HandleResponse(cfg, n, Last(run).nodes[n], c, response, Last(run).ticket))
  {
    hide HandleResponse, Continues;
    Sound(cfg, run, n);
    run' := OneStep(cfg, run, n, OnResponse(c, response));
  }

  // ── resting states ────────────────────────────────────────────────────────

  /** Requests in the table were sent by this leadership or an earlier one. */
  ghost predicate OldCalls(s: NodeState) {
    forall c :: c in s.rpcs && s.rpcs[c].AppendRpc? ==> s.rpcs[c].epoch <= s.lead.epoch
  }

  /** Up, in this term, with this log all durable and committed through `commit`. */
  ghost predicate Rests(s: NodeState, term: Term, log: seq<Entry>, commit: int) {
    && s.up && s.ballot.term == term
    && s.journal.log == log && s.journal.durable == |log| && s.journal.waiters == {}
    && -1 <= commit < |log| && s.commitment.index == commit && s.commitment.applied == log[..commit + 1]
    && OldCalls(s)
  }

  /** Leads, and has sent or heard nothing yet. */
  ghost predicate Leads(cfg: Config, n: NodeId, s: NodeState, at: nat) {
    && s.ballot.role == Leader && s.lead.noopIndex == Some(at) && s.lead.modes == map[]
    && s.lead.next == (map p | p in Peers(cfg, n) :: at) && s.lead.matched == (map p | p in Peers(cfg, n) :: -1)
    && forall c :: c in s.rpcs && s.rpcs[c].AppendRpc? ==> s.rpcs[c].epoch < s.lead.epoch
  }

  // ── one handler at a time ─────────────────────────────────────────────────

  /** A leader that nobody has acknowledged commits nothing by itself. */
  lemma AloneCommitsNothing(cfg: Config, n: NodeId, s: NodeState)
    requires WellFormed(s) && QuorumSize(cfg) == 2
    requires s.ballot.role == Leader ==> s.lead.matched == map p | p in Peers(cfg, n) :: -1
    ensures AdvanceCommit(cfg, n, s) == Out(s, {})
  {
    if s.ballot.role == Leader {
      var c := FindCommit(cfg, n, s, |s.journal.log| - 1);
      if c > s.commitment.index {
        assert Replicas(cfg, n, s.journal, s.lead, c) <= {n};
        assert |{n}| == 1;
        SubsetOfOne(Replicas(cfg, n, s.journal, s.lead, c), n);
      }
    }
  }

  lemma SubsetOfOne(a: set<NodeId>, n: NodeId)
    requires a <= {n}
    ensures |a| <= 1
  {
    assert a == {} || a == {n};
  }

  lemma AppendsAtOnce(cfg: Config, n: NodeId, s: NodeState, entries: seq<Entry>)
    requires WellFormed(s) && cfg.flushEntries == 1 && QuorumSize(cfg) == 2 && s.journal.waiters == {} && s.journal.durable == |s.journal.log|
    requires s.ballot.role == Leader ==> s.lead.matched == map p | p in Peers(cfg, n) :: -1
    ensures var log := s.journal.log + entries;
            AppendToLog(cfg, n, s, entries) == Out(s.(journal := s.journal.(log := log, durable := |log|)), {})
  {
    if entries == [] {
      assert s.journal.log + [] == s.journal.log;
    } else {
      var log := s.journal.log + entries;
      var flushed := s.(journal := s.journal.(log := log, durable := |log|));
      assert ReleaseDurableWaiters(flushed) == Out(flushed, {});
      AloneCommitsNothing(cfg, n, flushed);
    }
  }

  lemma TrioQuorum(batch: nat)
    ensures QuorumSize(Trio(batch)) == 2
  {
    assert |{0, 1, 2}| == 3;
  }

  // ── an election ───────────────────────────────────────────────────────────

  function RoundCall(n: NodeId, v: NodeId, s: NodeState, ticket: nat): Call {
    Call(ticket, n, v, s.ballot.term + 1)
  }

  function LastLog(s: NodeState): (int, Term) {
    (|s.journal.log| - 1, LastTerm(s.journal.log))
  }

  /** n has asked v for its vote. */
  ghost predicate Asks(cfg: Config, n: NodeId, v: NodeId, s: NodeState, t: NodeState, c: Call, request: Request) {
    && c.caller == n && c.callee == v && c.term == t.ballot.term == s.ballot.term + 1
    && c in t.rpcs && t.rpcs[c] == VoteRpc && request == RequestVote(LastLog(s).0, LastLog(s).1)
    && t.ballot.role == Candidate && t.ballot.votes == {n}
    && t.up == s.up && t.journal == s.journal && t.commitment.index == s.commitment.index && t.commitment.applied == s.commitment.applied
    && t.lead == s.lead && OldCalls(t)
  }

  lemma RoundOpened(cfg: Config, n: NodeId, v: NodeId, s: NodeState, ticket: nat)
    requires WellFormed(s) && QuorumSize(cfg) == 2 && v in Peers(cfg, n) && OldCalls(s)
    ensures var out, c := StartPreVote(cfg, n, s, ticket), RoundCall(n, v, s, ticket);
            && c in out.s.rpcs && out.s.rpcs[c] == PreVoteRpc(out.s.ballot.preVoteRound)
            && Req(c, PreVote(LastLog(s).0, LastLog(s).1)) in out.msgs
            && out.s == s.(ballot := out.s.ballot, rpcs := out.s.rpcs) && OldCalls(out.s)
            && out.s.ballot.term == s.ballot.term && out.s.ballot.role == s.ballot.role && out.s.ballot.preVoteGrants == {n}
  {
    assert RoundCall(n, v, s, ticket) in FanOut(cfg, n, ticket, s.ballot.term + 1);
  }

  lemma RoundGranted(cfg: Config, n: NodeId, v: NodeId, s: NodeState, c: Call, term: Term, ticket: nat)
    requires WellFormed(s) && QuorumSize(cfg) == 2 && v in Peers(cfg, n) && OldCalls(s)
    requires c in s.rpcs && s.rpcs[c] == PreVoteRpc(s.ballot.preVoteRound) && c.callee == v && c.term == s.ballot.term + 1
    requires term <= s.ballot.term && s.ballot.role != Leader && s.ballot.preVoteGrants == {n}
    ensures var out, c2 := HandleResponse(cfg, n, s, c, PreVoteResult(term, true), ticket), RoundCall(n, v, s, ticket);
            var request := RequestVote(LastLog(s).0, LastLog(s).1);
            Asks(cfg, n, v, s, out.s, c2, request) && Req(c2, request) in out.msgs
  {
    assert |{n} + {v}| == 2;
    assert RoundCall(n, v, s, ticket) in FanOut(cfg, n, ticket, s.ballot.term + 1);
  }

  /** A voter that leads nothing and has nothing the candidate lacks gives its vote. */
  lemma VoteGiven(cfg: Config, v: NodeId, t: NodeState, term: Term, log: seq<Entry>, commit: int, c: Call, request: Request)
    requires Rests(t, term, log, commit) && t.ballot.role != Leader && c.term > term && WellFormed(t) && !t.panicked
    requires request.RequestVote? && IsUpToDate(log, request.lastLogIndex, request.lastLogTerm)
    ensures var out := HandleRequest(cfg, v, t, c, request, false);
            && Rests(out.s, c.term, log, commit) && out.s.ballot.role == Follower && out.s.lead == t.lead
            && Resp(c, VoteResult(c.term, true)) in out.msgs
  {
  }

  lemma Crowned(cfg: Config, n: NodeId, v: NodeId, s: NodeState, t: NodeState, c: Call, request: Request, log: seq<Entry>, commit: int, ticket: nat)
    requires QuorumSize(cfg) == 2 && cfg.flushEntries == 1 && v in Peers(cfg, n) && Rests(s, s.ballot.term, log, commit)
    requires Asks(cfg, n, v, s, t, c, request) && WellFormed(t)
    ensures var u := HandleResponse(cfg, n, t, c, VoteResult(c.term, true), ticket).s;
            NowLeads(cfg, n, s, u, c.term, log, commit)
  {
    assert |{n} + {v}| == 2;
    var t1 := t.(rpcs := t.rpcs - {c}, ballot := t.ballot.(votes := {n} + {v}));
    var noop := Entry(c.term, |log|, Noop(n));
    AppendsAtOnce(cfg, n, TakeLeadership(cfg, n, t1), [noop]);
    assert (log + [noop])[..commit + 1] == log[..commit + 1];
  }

  /** n has opened a pre-vote round, otherwise as it was. */
  ghost predicate Opened(n: NodeId, v: NodeId, s: NodeState, t: NodeState, c: Call) {
    && c.caller == n && c.callee == v && c.term == t.ballot.term + 1
    && c in t.rpcs && t.rpcs[c] == PreVoteRpc(t.ballot.preVoteRound)
    && t == s.(ballot := t.ballot, rpcs := t.rpcs) && OldCalls(t)
    && t.ballot.term == s.ballot.term && t.ballot.role == s.ballot.role && t.ballot.preVoteGrants == {n}
  }

  /** n opens a pre-vote round, and v grants it. */
  lemma OpenRound(cfg: Config, run: Run, n: NodeId, v: NodeId) returns (run': Run, c: Call)
    requires IsRun(cfg, run) && QuorumSize(cfg) == 2 && n in cfg.voters && v in Peers(cfg, n)
    requires n in Last(run).nodes && Last(run).nodes[n].up && Last(run).nodes[n].ballot.role != Leader && OldCalls(Last(run).nodes[n])
    requires v in Last(run).nodes && Last(run).nodes[v].up && Last(run).nodes[v].ballot.role != Leader
    requires var s, t := Last(run).nodes[n], Last(run).nodes[v];
             t.ballot.term <= s.ballot.term && IsUpToDate(t.journal.log, LastLog(s).0, LastLog(s).1)
    ensures IsRun(cfg, run') && run'.states != [] && Continues(run, run') && OthersRest(Last(run), Last(run'), n, n)
    ensures Opened(n, v, Last(run).nodes[n], Last(run').nodes[n], c)
    ensures Resp(c, PreVoteResult(Last(run).nodes[v].ballot.term, true)) in Last(run').net
  {
    assert run.states != [];
    hide IsRun, Last, OldCalls, StartPreVote, HandleRequest, IsUpToDate, Continues, WellFormed, QuorumSize, LastLog;
    var s := Last(run).nodes[n];
    var run1 := TimeoutStep(cfg, run, n);
    RoundOpened(cfg, n, v, s, Last(run).ticket);
    c := RoundCall(n, v, s, Last(run).ticket);
    run' := RequestStep(cfg, run1, v, c, PreVote(LastLog(s).0, LastLog(s).1));
    RoundAnswered(cfg, v, Last(run).nodes[v], c, PreVote(LastLog(s).0, LastLog(s).1));
    ContinuesThen(run, run1, run');
  }

  /** n runs a pre-vote round that v grants, and asks for votes. */
  lemma Canvass(cfg: Config, run: Run, n: NodeId, v: NodeId) returns (run': Run, s1: NodeState, c: Call)
    requires IsRun(cfg, run) && QuorumSize(cfg) == 2 && n in cfg.voters && v in Peers(cfg, n)
    requires n in Last(run).nodes && Last(run).nodes[n].up && Last(run).nodes[n].ballot.role != Leader && OldCalls(Last(run).nodes[n])
    requires v in Last(run).nodes && Last(run).nodes[v].up && Last(run).nodes[v].ballot.role != Leader
    requires var s, t := Last(run).nodes[n], Last(run).nodes[v];
             t.ballot.term <= s.ballot.term && IsUpToDate(t.journal.log, LastLog(s).0, LastLog(s).1)
    ensures IsRun(cfg, run') && run'.states != [] && Continues(run, run') && OthersRest(Last(run), Last(run'), n, n)
    ensures var s := Last(run).nodes[n];
            && s1 == s.(ballot := s1.ballot, rpcs := s1.rpcs) && s1.ballot.term == s.ballot.term && OldCalls(s1)
            && Asks(cfg, n, v, s1, Last(run').nodes[n], c, RequestVote(LastLog(s).0, LastLog(s).1))
            && Req(c, RequestVote(LastLog(s).0, LastLog(s).1)) in Last(run').net
  {
    assert run.states != [];
    hide IsRun, Last, OldCalls, Asks, HandleResponse, IsUpToDate, Continues, WellFormed, QuorumSize;
    var run1, c1 := OpenRound(cfg, run, n, v);
    s1 := Last(run1).nodes[n];
    var vTerm := Last(run).nodes[v].ballot.term;
    run' := ResponseStep(cfg, run1, n, c1, PreVoteResult(vTerm, true));
    RoundGranted(cfg, n, v, s1, c1, vTerm, Last(run1).ticket);
    c := RoundCall(n, v, s1, Last(run1).ticket);
    ContinuesThen(run, run1, run');
  }

  lemma RoundAnswered(cfg: Config, v: NodeId, t: NodeState, c: Call, request: Request)
    requires WellFormed(t) && !t.panicked && request.PreVote? && c.term > t.ballot.term && c.caller in cfg.voters && t.ballot.role != Leader
    requires IsUpToDate(t.journal.log, request.lastLogIndex, request.lastLogTerm)
    ensures HandleRequest(cfg, v, t, c, request, false) == Out(t, {Resp(c, PreVoteResult(t.ballot.term, true))})
  {
  }

  /** n runs a pre-vote round and an election that v grants, and leads. */
  lemma Elect(cfg: Config, run: Run, n: NodeId, v: NodeId, term: Term, log: seq<Entry>, commit: int, vTerm: Term, vLog: seq<Entry>, vCommit: int)
    returns (run': Run)
    requires IsRun(cfg, run) && QuorumSize(cfg) == 2 && cfg.flushEntries == 1 && n in cfg.voters && v in Peers(cfg, n)
    requires n in Last(run).nodes && Rests(Last(run).nodes[n], term, log, commit) && Last(run).nodes[n].ballot.role != Leader
    requires v in Last(run).nodes && Rests(Last(run).nodes[v], vTerm, vLog, vCommit) && Last(run).nodes[v].ballot.role != Leader
    requires vTerm <= term && IsUpToDate(vLog, |log| - 1, LastTerm(log))
    ensures IsRun(cfg, run') && run'.states != [] && Continues(run, run') && OthersRest(Last(run), Last(run'), n, v)
    ensures n in Last(run').nodes && v in Last(run').nodes
    ensures var s, s' := Last(run).nodes[n], Last(run').nodes[n];
            && Rests(s', term + 1, log + [Entry(term + 1, |log|, Noop(n))], commit) && Leads(cfg, n, s', |log|)
            && s'.lead.epoch == s.lead.epoch + 1 && s'.lead.broadcast == s.lead.broadcast
    ensures var t, t' := Last(run).nodes[v], Last(run').nodes[v];
            Rests(t', term + 1, vLog, vCommit) && t'.ballot.role == Follower && t'.lead == t.lead
  {
    assert run.states != [];
    hide IsRun, Last, Rests, Leads, OldCalls, Asks, IsUpToDate, Continues, QuorumSize;
    RestFacts(Last(run).nodes[v], vTerm, vLog, vCommit);
    RestFacts(Last(run).nodes[n], term, log, commit);
    var run1, s, c := Canvass(cfg, run, n, v);
    StillRests(Last(run).nodes[n], s, term, log, commit);
    RestFacts(s, term, log, commit);
    AskFacts(cfg, n, v, s, Last(run1).nodes[n], c, RequestVote(|log| - 1, LastTerm(log)));
    run' := Crown(cfg, run1, n, v, s, c, RequestVote(|log| - 1, LastTerm(log)), log, commit, vTerm, vLog, vCommit);
    ContinuesThen(run, run1, run');
  }

  /** v gives the vote it was asked for, and n leads. */
  lemma Crown(cfg: Config, run: Run, n: NodeId, v: NodeId, s: NodeState, c: Call, request: Request, log: seq<Entry>, commit: int,
              vTerm: Term, vLog: seq<Entry>, vCommit: int) returns (run': Run)
    requires IsRun(cfg, run) && QuorumSize(cfg) == 2 && cfg.flushEntries == 1 && v in Peers(cfg, n)
    requires n in Last(run).nodes && Rests(s, s.ballot.term, log, commit) && Asks(cfg, n, v, s, Last(run).nodes[n], c, request)
    requires Req(c, request) in Last(run).net && request.RequestVote? && c.callee == v
    requires v in Last(run).nodes && Rests(Last(run).nodes[v], vTerm, vLog, vCommit) && Last(run).nodes[v].ballot.role != Leader
    requires vTerm < c.term && IsUpToDate(vLog, request.lastLogIndex, request.lastLogTerm)
    ensures IsRun(cfg, run') && run'.states != [] && Continues(run, run') && OthersRest(Last(run), Last(run'), n, v)
    ensures n in Last(run').nodes && v in Last(run').nodes && NowLeads(cfg, n, s, Last(run').nodes[n], c.term, log, commit)
    ensures var t, t' := Last(run).nodes[v], Last(run').nodes[v];
            Rests(t', c.term, vLog, vCommit) && t'.ballot.role == Follower && t'.lead == t.lead
  {
    assert run.states != [];
    hide IsRun, Last, Rests, Leads, OldCalls, Asks, HandleResponse, IsUpToDate, Continues, WellFormed, QuorumSize, LastTerm, OthersRest,
      Stepped, NowLeads;
    var run1 := GiveVote(cfg, run, v, c, request, vTerm, vLog, vCommit);
    OtherRests(Last(run), Last(run1), v, v, n);
    run' := TakeLead(cfg, run1, n, v, s, Last(run1).nodes[n], c, request, log, commit);
    OtherRests(Last(run1), Last(run'), n, n, v);
    ContinuesThen(run, run1, run');
    OthersThen(Last(run), Last(run1), Last(run'), n, v);
  }

  lemma TakeLead(cfg: Config, run: Run, n: NodeId, v: NodeId, s: NodeState, t: NodeState, c: Call, request: Request,
                 log: seq<Entry>, commit: int) returns (run': Run)
    requires IsRun(cfg, run) && QuorumSize(cfg) == 2 && cfg.flushEntries == 1 && v in Peers(cfg, n)
    requires n in Last(run).nodes && t == Last(run).nodes[n] && Rests(s, s.ballot.term, log, commit) && Asks(cfg, n, v, s, t, c, request)
    requires Resp(c, VoteResult(c.term, true)) in Last(run).net
    ensures IsRun(cfg, run') && run'.states != [] && Continues(run, run') && OthersRest(Last(run), Last(run'), n, n)
    ensures n in Last(run').nodes && NowLeads(cfg, n, s, Last(run').nodes[n], c.term, log, commit)
  {
    assert run.states != [];
    hide IsRun, Last, Rests, Leads, OldCalls, Asks, HandleResponse, Continues, WellFormed, QuorumSize, LastTerm, OthersRest, NowLeads;
    RestFacts(s, s.ballot.term, log, commit);
    AskFacts(cfg, n, v, s, t, c, request);
    run' := ResponseStep(cfg, run, n, c, VoteResult(c.term, true));
    Crowned(cfg, n, v, s, t, c, request, log, commit, Last(run).ticket);
  }

  /** u leads the next term, with its no-op behind the log that s had. */
  ghost predicate NowLeads(cfg: Config, n: NodeId, s: NodeState, u: NodeState, term: Term, log: seq<Entry>, commit: int) {
    && Rests(u, term, log + [Entry(term, |log|, Noop(n))], commit) && Leads(cfg, n, u, |log|)
    && u.lead.epoch == s.lead.epoch + 1 && u.lead.broadcast == s.lead.broadcast
  }

  lemma GiveVote(cfg: Config, run: Run, v: NodeId, c: Call, request: Request, term: Term, log: seq<Entry>, commit: int) returns (run': Run)
    requires IsRun(cfg, run) && Req(c, request) in Last(run).net && c.callee == v && request.RequestVote?
    requires v in Last(run).nodes && Rests(Last(run).nodes[v], term, log, commit) && Last(run).nodes[v].ballot.role != Leader
    requires term < c.term && IsUpToDate(log, request.lastLogIndex, request.lastLogTerm)
    ensures IsRun(cfg, run') && run'.states != [] && Continues(run, run') && OthersRest(Last(run), Last(run'), v, v)
    ensures Resp(c, VoteResult(c.term, true)) in Last(run').net && v in Last(run').nodes
    ensures var t, t' := Last(run).nodes[v], Last(run').nodes[v];
            Rests(t', c.term, log, commit) && t'.ballot.role == Follower && t'.lead == t.lead
  {
    assert run.states != [];
    hide IsRun, Last, Rests, HandleRequest, IsUpToDate, Continues, WellFormed, QuorumSize;
    RestFacts(Last(run).nodes[v], term, log, commit);
    run' := RequestStep(cfg, run, v, c, request);
    VoteGiven(cfg, v, Last(run).nodes[v], term, log, commit, c, request);
  }

  lemma RestFacts(s: NodeState, term: Term, log: seq<Entry>, commit: int)
    requires Rests(s, term, log, commit)
    ensures s.up && s.ballot.term == term && s.journal.log == log && OldCalls(s) && s.commitment.index == commit
  {
  }

  lemma StillRests(s: NodeState, t: NodeState, term: Term, log: seq<Entry>, commit: int)
    requires Rests(s, term, log, commit) && t == s.(ballot := t.ballot, rpcs := t.rpcs) && t.ballot.term == term && OldCalls(t)
    ensures Rests(t, term, log, commit)
  {
  }

  lemma AskFacts(cfg: Config, n: NodeId, v: NodeId, s: NodeState, t: NodeState, c: Call, request: Request)
    requires Asks(cfg, n, v, s, t, c, request)
    ensures c.caller == n && c.callee == v && c.term == s.ballot.term + 1 && c in t.rpcs && t.rpcs[c] == VoteRpc && t.up == s.up
    ensures request == RequestVote(|s.journal.log| - 1, LastTerm(s.journal.log))
  {
  }
}
