/**
 * Terms never fall, and a replica raises its term only by adopting one it was sent, or after
 * a majority granted one uninterrupted pre-vote round (section 9.6 of Ongaro's thesis).
 */
module RaftPreVote {
  import opened RaftTypes
  import opened RaftEngine
  import opened RaftCluster
  import opened RaftFrames
  import opened RaftTables
  import opened RaftHistory
  import opened RaftInvariant
  import opened RaftSafety
  import opened RaftTheorems

  // ── one step ──────────────────────────────────────────────────────────────

  /** The last grant of a majority has just arrived, for the round in progress. */
  ghost predicate RoundWon(cfg: Config, s: NodeState, e: Event) {
    GrantArrives(s, e) && |s.ballot.preVoteGrants + {e.call.callee}| >= QuorumSize(cfg)
  }

  ghost predicate TermFrame(cfg: Config, s: NodeState, e: Event, term: Term) {
    || term == s.ballot.term
    || (term > s.ballot.term && e.OnRequest? && !e.request.PreVote? && term == e.call.term)
    || (term > s.ballot.term && e.OnResponse? && term == e.response.term)
    || (term == s.ballot.term + 1 && e.ElectionTimeout? && QuorumSize(cfg) == 1)
    || (term == s.ballot.term + 1 && RoundWon(cfg, s, e))
  }

  lemma ResponseTerm(cfg: Config, n: NodeId, s: NodeState, call: Call, response: Response, ticket: nat)
    requires WellFormed(s) && WaitersSane(s.journal.waiters) && call in s.rpcs
    requires SensibleRpc(s.rpcs[call]) && SensibleResponse(response)
    ensures TermFrame(cfg, s, OnResponse(call, response), HandleResponse(cfg, n, s, call, response, ticket).s.ballot.term)
  {
    hide BecomeFollower, StartElection, AdvanceCommit, BecomeLeader;
    var s1 := s.(rpcs := s.rpcs - {call});
    BecomeFollowerFrame(n, s1, response.term, None);
    CandidacyFrame(cfg, n, s1.(ballot := s1.ballot.(preVoteGrants := s1.ballot.preVoteGrants + {call.callee})), ticket);
    BecomeLeaderFrame(cfg, n, s1.(ballot := s1.ballot.(votes := s1.ballot.votes + {call.callee})));
    if response.AppendOk? {
      AdvanceFrame(cfg, n, s1.(lead := Progress(s1.lead, call.callee, response.matchIndex)));
    }
  }

  lemma RequestTerm(cfg: Config, n: NodeId, s: NodeState, call: Call, request: Request, heardRecently: bool)
    requires WellFormed(s) && !s.panicked && WaitersSane(s.journal.waiters) && SensibleRequest(request)
    ensures TermFrame(cfg, s, OnRequest(call, request, heardRecently),
                      HandleRequest(cfg, n, s, call, request, heardRecently).s.ballot.term)
  {
    hide HandleRequestVote, HandleAppendEntries;
    match request
    case PreVote(_, _) =>
    case RequestVote(_, _) => HandleVoteFrame(n, s, call, request, heardRecently);
    case AppendEntries(_, _, _, _) => HandleAppendFrame(cfg, n, s, call, request);
  }

  lemma OtherTerm(cfg: Config, n: NodeId, s: NodeState, e: Event, ticket: nat)
    requires Enabled(cfg, n, s, e) && WaitersSane(s.journal.waiters) && s.stable.term == s.ballot.term
    requires !e.OnRequest? && !e.OnResponse?
    ensures TermFrame(cfg, s, e, NodeStep(cfg, n, s, e, ticket).s.ballot.term)
  {
    hide FlushLog, AdvanceCommit, AppendToLog, StartElection;
    FlushFrame(cfg, n, s);
    AdvanceFrame(cfg, n, s);
    if e.ClientRequest? {
      AppendFrame(cfg, n, s, [Entry(s.ballot.term, |s.journal.log|, e.data)]);
    } else if e.ElectionTimeout? {
      CandidacyFrame(cfg, n, s.(ballot := s.ballot.(preVoteRound := s.ballot.preVoteRound + 1, preVoteGrants := {n})), ticket);
    }
  }

  lemma StepTerm(cfg: Config, n: NodeId, s: NodeState, e: Event, ticket: nat)
    requires Enabled(cfg, n, s, e) && WaitersSane(s.journal.waiters) && s.stable.term == s.ballot.term
    ensures TermFrame(cfg, s, e, NodeStep(cfg, n, s, e, ticket).s.ballot.term)
  {
    hide TermFrame, HandleRequest, HandleResponse;
    match e
    case OnRequest(call, request, heardRecently) => RequestTerm(cfg, n, s, call, request, heardRecently);
    case OnResponse(call, response) => ResponseTerm(cfg, n, s, call, response, ticket);
    case _ => OtherTerm(cfg, n, s, e, ticket);
  }

  // ── runs ──────────────────────────────────────────────────────────────────

  /** What the invariant says of every replica of a run that the frames need. */
  lemma RunFacts(cfg: Config, run: Run, i: nat, n: NodeId)
    requires IsRun(cfg, run) && At(run, i, n)
    ensures var s := NodeAt(run, i, n); WaitersSane(s.journal.waiters) && s.stable.term == s.ballot.term
    ensures forall c :: c in NodeAt(run, i, n).rpcs ==> c.caller == n && c.callee in Peers(cfg, n)
    ensures forall w :: w in NodeAt(run, i, n).journal.waiters ==> w.call.callee == n
    ensures n in cfg.voters && run.states[i].nodes.Keys == cfg.voters
  {
    hide HistoryOk, MessagesOk, Later, IsRun;
    var h, _ := HistoriesOf(cfg, run, i, i);
    NodeAtOk(cfg, h, run, i, n);
    NodeFacts(cfg, h, n, NodeAt(run, i, n));
    forall w | w in NodeAt(run, i, n).journal.waiters ensures w.call.callee == n {
      assert WaiterOk(h, n, NodeAt(run, i, n).ballot.term, NodeAt(run, i, n).journal, w);
    }
  }

  /** Step i of a run, seen from one replica. */
  lemma RunStep(cfg: Config, run: Run, i: nat, n: NodeId)
    requires IsRun(cfg, run) && i < |run.actions| && At(run, i, n)
    ensures At(run, i + 1, n) && run.states[i].net <= run.states[i + 1].net
    ensures run.states[i + 1].ticket == run.states[i].ticket + 1
    ensures run.actions[i].node != n ==> NodeAt(run, i + 1, n) == NodeAt(run, i, n)
    ensures run.actions[i].node == n ==>
      && Enabled(cfg, n, NodeAt(run, i, n), run.actions[i].event) && Delivered(run.states[i], run.actions[i].event)
      && var out := NodeStep(cfg, n, NodeAt(run, i, n), run.actions[i].event, run.states[i].ticket);
      && NodeAt(run, i + 1, n) == out.s && run.states[i + 1].net == run.states[i].net + out.msgs
  {
    hide Enabled, NodeStep, Delivered;
    assert CanStep(cfg, run.states[i], run.actions[i]);
  }

  lemma TermInRun(cfg: Config, run: Run, i: nat, n: NodeId)
    requires IsRun(cfg, run) && i < |run.actions| && At(run, i, n)
    ensures At(run, i + 1, n)
    ensures if run.actions[i].node == n
            then TermFrame(cfg, NodeAt(run, i, n), run.actions[i].event, NodeAt(run, i + 1, n).ballot.term)
            else NodeAt(run, i + 1, n) == NodeAt(run, i, n)
  {
    hide NodeStep, Enabled, IsRun, TermFrame, Delivered;
    RunStep(cfg, run, i, n);
    if run.actions[i].node == n {
      RunFacts(cfg, run, i, n);
      StepTerm(cfg, n, NodeAt(run, i, n), run.actions[i].event, run.states[i].ticket);
    }
  }

  lemma TermRises(cfg: Config, run: Run, i: nat, n: NodeId)
    requires IsRun(cfg, run) && i < |run.actions| && At(run, i, n)
    ensures At(run, i + 1, n) && NodeAt(run, i, n).ballot.term <= NodeAt(run, i + 1, n).ballot.term
  {
    hide IsRun;
    TermInRun(cfg, run, i, n);
  }

  /** A term never falls, not even across a crash. */
  lemma {:induction false} TermsNeverFall(cfg: Config, run: Run, i: nat, j: nat, n: NodeId)
    requires IsRun(cfg, run) && i <= j < |run.states| && At(run, i, n)
    ensures At(run, j, n) && NodeAt(run, i, n).ballot.term <= NodeAt(run, j, n).ballot.term
    decreases j
  {
    if i < j {
      hide IsRun, TermFrame;
      TermsNeverFall(cfg, run, i, j - 1, n);
      TermRises(cfg, run, j - 1, n);
    }
  }

  // ── rounds ────────────────────────────────────────────────────────────────

  ghost predicate OfRound(s: NodeState, c: Call) {
    c in s.rpcs && s.rpcs[c] == PreVoteRpc(s.ballot.preVoteRound)
  }

  ghost predicate Granted(net: set<Message>, number: nat, n: NodeId, p: NodeId, term: Term) {
    exists mine: Term :: Resp(Call(number, n, p, term), PreVoteResult(mine, true)) in net
  }

  /**
   * Replica n has been in one pre-vote round since the step after j. A crash resets the round
   * to 0 and a timeout raises it, so there was no crash in between either.
   */
  ghost predicate Uninterrupted(run: Run, j: nat, i: nat, n: NodeId)
    requires At(run, i, n)
  {
    forall k :: j < k <= i ==>
      At(run, k, n) && NodeAt(run, k, n).ballot.preVoteRound == NodeAt(run, i, n).ballot.preVoteRound
  }

  ghost predicate GrantedAll(run: Run, j: nat, i: nat, n: NodeId, grants: set<NodeId>)
    requires At(run, i, n) && At(run, j, n)
  {
    forall p :: p in grants ==>
      p == n || Granted(run.states[i].net, run.states[j].ticket, n, p, NodeAt(run, j, n).ballot.term + 1)
  }

  ghost predicate RoundBegins(run: Run, j: nat, i: nat, n: NodeId)
    requires At(run, i, n)
  {
    && j < i && j < |run.actions| && At(run, j, n) && run.actions[j] == Act(n, ElectionTimeout)
    && Uninterrupted(run, j, i, n)
  }

  /** The round n is in at state i was opened by its timeout at step j; every tallied grant answers that round. */
  ghost predicate RoundFrom(run: Run, j: nat, i: nat, n: NodeId)
    requires At(run, i, n)
  {
    && RoundBegins(run, j, i, n)
    && (forall c :: OfRound(NodeAt(run, i, n), c) ==>
          c.number == run.states[j].ticket && c.term == NodeAt(run, j, n).ballot.term + 1)
    && GrantedAll(run, j, i, n, NodeAt(run, i, n).ballot.preVoteGrants)
  }

  ghost predicate RoundOk(cfg: Config, run: Run, i: nat, n: NodeId)
    requires At(run, i, n)
  {
    var s := NodeAt(run, i, n);
    && (forall c :: c in s.rpcs && s.rpcs[c].PreVoteRpc? ==> s.rpcs[c].round <= s.ballot.preVoteRound)
    && s.ballot.preVoteGrants <= cfg.voters
    && ((forall c :: !OfRound(s, c)) || exists j :: RoundFrom(run, j, i, n))
  }

  lemma RoundOpens(run: Run, i: nat, n: NodeId)
    requires At(run, i, n) && At(run, i + 1, n) && i < |run.actions| && run.actions[i] == Act(n, ElectionTimeout)
    requires var s, s' := NodeAt(run, i, n), NodeAt(run, i + 1, n);
             && CallsFrame(n, s, ElectionTimeout, run.states[i].ticket, s'.rpcs) && GrantsFrame(n, s, ElectionTimeout, s'.ballot)
             && (forall c :: c in s.rpcs && s.rpcs[c].PreVoteRpc? ==> s.rpcs[c].round <= s.ballot.preVoteRound)
    ensures RoundFrom(run, i, i + 1, n)
  {
  }

  /** A step of n that opens no round keeps the round it is in, or leaves no call of its new round open. */
  lemma RoundContinues(cfg: Config, run: Run, i: nat, n: NodeId, j: nat)
    requires At(run, i, n) && At(run, i + 1, n) && i < |run.actions| && RoundFrom(run, j, i, n)
    requires run.states[i].net <= run.states[i + 1].net
    requires var s, s' := NodeAt(run, i, n), NodeAt(run, i + 1, n);
             && s'.ballot.preVoteRound == s.ballot.preVoteRound
             && (forall c :: OfRound(s', c) ==> OfRound(s, c))
             && (s'.ballot.preVoteGrants == s.ballot.preVoteGrants
                 || (GrantArrives(s, run.actions[i].event) && run.actions[i].event.call.caller == n
                     && Delivered(run.states[i], run.actions[i].event)
                     && s'.ballot.preVoteGrants == s.ballot.preVoteGrants + {run.actions[i].event.call.callee}))
    ensures RoundFrom(run, j, i + 1, n)
  {
    var s, s' := NodeAt(run, i, n), NodeAt(run, i + 1, n);
    var number, term := run.states[j].ticket, NodeAt(run, j, n).ballot.term + 1;
    forall p | p in s'.ballot.preVoteGrants && p != n ensures Granted(run.states[i + 1].net, number, n, p, term) {
      if p in s.ballot.preVoteGrants {
        assert Granted(run.states[i].net, number, n, p, term);
      } else {
        var e := run.actions[i].event;
        assert OfRound(s, e.call);
        assert e.call == Call(number, n, p, term);
        assert e.response == PreVoteResult(e.response.term, true);
        assert Resp(Call(number, n, p, term), PreVoteResult(e.response.term, true)) in run.states[i].net;
      }
    }
  }

  lemma CrashEndsRound(cfg: Config, run: Run, i: nat, n: NodeId)
    requires IsRun(cfg, run) && i < |run.actions| && At(run, i, n) && run.actions[i].node == n
    requires run.actions[i].event.CrashAt? || run.actions[i].event.RestartNow?
    ensures At(run, i + 1, n) && RoundOk(cfg, run, i + 1, n)
  {
    RunStep(cfg, run, i, n);
  }

  lemma ActorRound(cfg: Config, run: Run, i: nat, n: NodeId)
    requires IsRun(cfg, run) && i < |run.actions| && At(run, i, n) && RoundOk(cfg, run, i, n)
    requires run.actions[i].node == n && !run.actions[i].event.CrashAt? && !run.actions[i].event.RestartNow?
    ensures At(run, i + 1, n) && RoundOk(cfg, run, i + 1, n)
  {
    hide IsRun, NodeStep, Enabled, Delivered, RoundFrom, MessagesFrame, WaitersFrame, ReadsFrame;
    RunFacts(cfg, run, i, n);
    RunStep(cfg, run, i, n);
    var s, e, s' := NodeAt(run, i, n), run.actions[i].event, NodeAt(run, i + 1, n);
    StepTables(cfg, n, s, e, run.states[i].ticket);
    if e.ElectionTimeout? {
      RoundOpens(run, i, n);
    } else if c :| OfRound(s', c) {
      assert OfRound(s, c);
      var j :| RoundFrom(run, j, i, n);
      RoundContinues(cfg, run, i, n, j);
    }
  }

  lemma {:induction false} RoundsAreOk(cfg: Config, run: Run, i: nat, n: NodeId)
    requires IsRun(cfg, run) && At(run, i, n)
    ensures RoundOk(cfg, run, i, n)
    decreases i
  {
    if i > 0 {
      RunFacts(cfg, run, i - 1, run.actions[i - 1].node);
      RoundsAreOk(cfg, run, i - 1, n);
      if run.actions[i - 1].node != n {
        OtherRound(cfg, run, i - 1, n);
      } else if run.actions[i - 1].event.CrashAt? || run.actions[i - 1].event.RestartNow? {
        CrashEndsRound(cfg, run, i - 1, n);
      } else {
        ActorRound(cfg, run, i - 1, n);
      }
    }
  }

  lemma OtherRound(cfg: Config, run: Run, i: nat, n: NodeId)
    requires IsRun(cfg, run) && i < |run.actions| && At(run, i, n) && RoundOk(cfg, run, i, n) && run.actions[i].node != n
    ensures At(run, i + 1, n) && RoundOk(cfg, run, i + 1, n)
  {
    hide IsRun, RoundFrom;
    RunStep(cfg, run, i, n);
    if c :| OfRound(NodeAt(run, i, n), c) {
      var j :| RoundFrom(run, j, i, n);
      RoundContinues(cfg, run, i, n, j);
    }
  }

  // ── the theorem ───────────────────────────────────────────────────────────

  /** The step delivers a message that carries the new term. */
  ghost predicate Adopts(run: Run, i: nat, n: NodeId, term: Term)
    requires i < |run.actions| && i < |run.states|
  {
    match run.actions[i].event
    case OnRequest(call, request, _) => call.callee == n && call.term == term && !request.PreVote? && Req(call, request) in run.states[i].net
    case OnResponse(call, response) => call.caller == n && response.term == term && Resp(call, response) in run.states[i].net
    case _ => false
  }

  /** Throughout one uninterrupted round opened at step j, n stayed in its term and collected a majority. */
  ghost predicate WonRound(cfg: Config, run: Run, j: nat, i: nat, n: NodeId, grants: set<NodeId>)
    requires At(run, i, n)
  {
    && RoundBegins(run, j, i, n)
    && (forall k :: j <= k <= i ==> At(run, k, n) && NodeAt(run, k, n).ballot.term == NodeAt(run, i, n).ballot.term)
    && grants <= cfg.voters && |grants| >= QuorumSize(cfg) && GrantedAll(run, j, i, n, grants)
  }

  lemma RoundHeldTerm(cfg: Config, run: Run, j: nat, i: nat, n: NodeId, k: nat)
    requires IsRun(cfg, run) && At(run, i, n) && At(run, j, n) && j <= k <= i
    requires NodeAt(run, j, n).ballot.term == NodeAt(run, i, n).ballot.term
    ensures At(run, k, n) && NodeAt(run, k, n).ballot.term == NodeAt(run, i, n).ballot.term
  {
    hide IsRun;
    TermsNeverFall(cfg, run, j, k, n);
    TermsNeverFall(cfg, run, k, i, n);
  }

  lemma MajorityGranted(cfg: Config, run: Run, i: nat, n: NodeId) returns (j: nat, grants: set<NodeId>)
    requires IsRun(cfg, run) && i < |run.actions| && At(run, i, n) && run.actions[i].node == n
    requires RoundWon(cfg, NodeAt(run, i, n), run.actions[i].event) && Delivered(run.states[i], run.actions[i].event)
    ensures WonRound(cfg, run, j, i, n, grants)
  {
    hide IsRun, Uninterrupted;
    var s, e := NodeAt(run, i, n), run.actions[i].event;
    RunFacts(cfg, run, i, n);
    RoundsAreOk(cfg, run, i, n);
    assert OfRound(s, e.call);
    j :| RoundFrom(run, j, i, n);
    grants := s.ballot.preVoteGrants + {e.call.callee};
    assert e.call == Call(run.states[j].ticket, n, e.call.callee, s.ballot.term + 1);
    assert e.response == PreVoteResult(e.response.term, true);
    assert Granted(run.states[i].net, run.states[j].ticket, n, e.call.callee, s.ballot.term + 1);
    forall k | j <= k <= i ensures At(run, k, n) && NodeAt(run, k, n).ballot.term == s.ballot.term {
      RoundHeldTerm(cfg, run, j, i, n, k);
    }
  }

  /**
   * A term moves only upwards, and only by adopting the term of a delivered message or by a
   * step of one after a majority granted a pre-vote round that nothing interrupted (a cluster of one
   * voter is its own majority).
   */
  lemma TermRisesOnlyWithCause(cfg: Config, run: Run, i: nat, n: NodeId)
    requires IsRun(cfg, run) && i < |run.actions| && At(run, i, n) && At(run, i + 1, n)
    requires NodeAt(run, i + 1, n).ballot.term != NodeAt(run, i, n).ballot.term
    ensures run.actions[i].node == n && NodeAt(run, i + 1, n).ballot.term > NodeAt(run, i, n).ballot.term
    ensures || Adopts(run, i, n, NodeAt(run, i + 1, n).ballot.term)
            || (NodeAt(run, i + 1, n).ballot.term == NodeAt(run, i, n).ballot.term + 1
                && ((QuorumSize(cfg) == 1 && run.actions[i].event.ElectionTimeout?)
                    || exists j, grants :: WonRound(cfg, run, j, i, n, grants)))
  {
    hide NodeStep, WonRound, IsRun, RoundWon;
    RunStep(cfg, run, i, n);
    TermInRun(cfg, run, i, n);
    if RoundWon(cfg, NodeAt(run, i, n), run.actions[i].event) {
      var j, grants := MajorityGranted(cfg, run, i, n);
    }
  }

  /** A replica cut off from every message keeps its term, however often it times out, crashes or restarts. */
  lemma {:induction false} IsolatedReplicaKeepsTerm(cfg: Config, run: Run, i: nat, j: nat, n: NodeId)
    requires IsRun(cfg, run) && i <= j < |run.states| && At(run, i, n) && QuorumSize(cfg) > 1
    requires forall k :: i <= k < j && run.actions[k].node == n ==> !run.actions[k].event.OnRequest? && !run.actions[k].event.OnResponse?
    ensures At(run, j, n) && NodeAt(run, j, n).ballot.term == NodeAt(run, i, n).ballot.term
    decreases j
  {
    if i < j {
      hide IsRun;
      IsolatedReplicaKeepsTerm(cfg, run, i, j - 1, n);
      TermInRun(cfg, run, j - 1, n);
    }
  }
}
