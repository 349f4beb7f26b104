/**
 * ReadIndex (section 6.4 of Ongaro's thesis): a read that is answered has applied everything
 * any replica had applied when the read was invoked.
 */
module RaftReads {
  import opened RaftTypes
  import opened RaftEngine
  import opened RaftCluster
  import opened RaftFrames
  import opened RaftTables
  import opened RaftHistory
  import opened RaftInvariant
  import opened RaftSafety
  import opened RaftTheorems
  import opened RaftPreVote
  import opened RaftNoop

  ghost predicate TimelyAt(run: Run, i: nat)
    requires i < |run.actions| && i < |run.states|
  {
    run.actions[i].node in run.states[i].nodes ==>
      TimelyBroadcast(run.states[i].nodes[run.actions[i].node], run.actions[i].event)
  }

  ghost predicate Timely(run: Run)
    requires |run.states| == |run.actions| + 1
  {
    forall i :: 0 <= i < |run.actions| ==> TimelyAt(run, i)
  }

  lemma {:induction false} NoopAlways(cfg: Config, run: Run, i: nat, n: NodeId)
    requires IsRun(cfg, run) && Timely(run) && At(run, i, n)
    ensures NoopOk(NodeAt(run, i, n))
    decreases i
  {
    if i > 0 {
      hide IsRun, NodeStep, Enabled, NoopOk, Delivered, TimelyBroadcast;
      RunFacts(cfg, run, i, n);
      RunFacts(cfg, run, i - 1, run.actions[i - 1].node);
      NoopAlways(cfg, run, i - 1, n);
      RunStep(cfg, run, i - 1, n);
      assert TimelyAt(run, i - 1);
      if run.actions[i - 1].node == n {
        StepNoop(cfg, n, NodeAt(run, i - 1, n), run.actions[i - 1].event, run.states[i - 1].ticket);
      }
    }
  }

  // ── tickets ───────────────────────────────────────────────────────────────

  ghost predicate NetNumbers(net: set<Message>, ticket: nat) {
    forall m :: m in net && (m.Req? || m.Resp?) ==> m.call.number < ticket
  }

  ghost predicate NodeNumbers(s: NodeState, ticket: nat) {
    && (forall c :: c in s.rpcs ==> c.number < ticket && (s.rpcs[c].ReadRpc? ==> s.rpcs[c].readId == c.number))
    && (forall c :: c in WaiterCalls(s.journal.waiters) ==> c.number < ticket)
    && (forall id :: id in s.pendingReads ==> id < ticket)
  }

  lemma StepNumbers(n: NodeId, s: NodeState, e: Event, net: set<Message>, ticket: nat, out: Out)
    requires NetNumbers(net, ticket) && NodeNumbers(s, ticket) && TablesFrame(n, s, e, ticket, out)
    requires e.OnRequest? ==> Req(e.call, e.request) in net
    ensures NetNumbers(net + out.msgs, ticket + 1) && NodeNumbers(out.s, ticket + 1)
  {
    forall m | m in out.msgs && (m.Req? || m.Resp?) ensures m.call.number < ticket + 1 {
      assert Emits(s, e, ticket, m);
    }
  }

  lemma CrashTables(cfg: Config, n: NodeId, s: NodeState, e: Event, ticket: nat)
    requires Enabled(cfg, n, s, e) && (e.CrashAt? || e.RestartNow?)
    ensures var out := NodeStep(cfg, n, s, e, ticket);
            out.msgs == {} && out.s.rpcs == map[] && out.s.pendingReads == map[] && out.s.journal.waiters == {}
  {
  }

  lemma ActorNumbers(cfg: Config, run: Run, i: nat, n: NodeId)
    requires IsRun(cfg, run) && i < |run.actions| && At(run, i, n) && run.actions[i].node == n
    requires NetNumbers(run.states[i].net, run.states[i].ticket) && NodeNumbers(NodeAt(run, i, n), run.states[i].ticket)
    ensures At(run, i + 1, n) && NetNumbers(run.states[i + 1].net, run.states[i + 1].ticket)
    ensures NodeNumbers(NodeAt(run, i + 1, n), run.states[i + 1].ticket)
  {
    hide NodeStep, Enabled, IsRun, NetNumbers, NodeNumbers, TablesFrame;
    var e, ticket := run.actions[i].event, run.states[i].ticket;
    RunFacts(cfg, run, i, n);
    RunStep(cfg, run, i, n);
    var s := NodeAt(run, i, n);
    if e.CrashAt? || e.RestartNow? {
      CrashTables(cfg, n, s, e, ticket);
      EmptyNumbers(NodeAt(run, i + 1, n), ticket + 1);
      MoreNumbers(s, run.states[i].net, ticket);
      assert run.states[i].net + {} == run.states[i].net;
    } else {
      StepTables(cfg, n, s, e, ticket);
      StepNumbers(n, s, e, run.states[i].net, ticket, NodeStep(cfg, n, s, e, ticket));
    }
  }

  lemma MoreNumbers(s: NodeState, net: set<Message>, ticket: nat)
    ensures NodeNumbers(s, ticket) ==> NodeNumbers(s, ticket + 1)
    ensures NetNumbers(net, ticket) ==> NetNumbers(net, ticket + 1)
  {
  }

  lemma EmptyNumbers(s: NodeState, ticket: nat)
    requires s.rpcs == map[] && s.pendingReads == map[] && s.journal.waiters == {}
    ensures NodeNumbers(s, ticket)
  {
  }

  lemma ActorIsThere(cfg: Config, run: Run, i: nat)
    requires IsRun(cfg, run) && i < |run.actions|
    ensures At(run, i, run.actions[i].node)
  {
  }

  /** Every number in use was handed out before. */
  lemma {:induction false} AlwaysNumbered(cfg: Config, run: Run, i: nat, v: NodeId)
    requires IsRun(cfg, run) && At(run, i, v)
    ensures NetNumbers(run.states[i].net, run.states[i].ticket) && NodeNumbers(NodeAt(run, i, v), run.states[i].ticket)
    decreases i
  {
    if i > 0 {
      hide NodeStep, Enabled, IsRun, NetNumbers, NodeNumbers;
      var n := run.actions[i - 1].node;
      ActorIsThere(cfg, run, i - 1);
      RunFacts(cfg, run, i - 1, n);
      RunFacts(cfg, run, i, v);
      AlwaysNumbered(cfg, run, i - 1, n);
      AlwaysNumbered(cfg, run, i - 1, v);
      ActorNumbers(cfg, run, i - 1, n);
      RunStep(cfg, run, i - 1, v);
      MoreNumbers(NodeAt(run, i - 1, v), run.states[i - 1].net, run.states[i - 1].ticket);
    } else {
      InitialNumbers(cfg, run, v);
    }
  }

  lemma InitialNumbers(cfg: Config, run: Run, v: NodeId)
    requires IsRun(cfg, run) && At(run, 0, v)
    ensures NetNumbers(run.states[0].net, run.states[0].ticket) && NodeNumbers(NodeAt(run, 0, v), run.states[0].ticket)
  {
  }

  lemma {:induction false} TicketsGrow(cfg: Config, run: Run, i: nat, j: nat)
    requires IsRun(cfg, run) && i <= j < |run.states|
    ensures run.states[j].ticket == run.states[i].ticket + (j - i)
    decreases j
  {
    if i < j {
      TicketsGrow(cfg, run, i, j - 1);
    }
  }

  // ── one read, from its invocation on ──────────────────────────────────────

  /** Whoever answers a call of the read has, when it answers, at least the term it had at the invocation. */
  ghost predicate AnswersAreLate(run: Run, i: nat, readId: nat, net: set<Message>) {
    forall m :: m in net && m.Resp? && m.call.number == readId ==>
      At(run, i, m.call.callee) && m.response.term >= NodeAt(run, i, m.call.callee).ballot.term
  }

  /** Every replica that confirmed the read had, at the invocation, no term beyond the read's. */
  ghost predicate ReadOk(cfg: Config, run: Run, i: nat, n: NodeId, read: Read)
    requires At(run, i, n)
  {
    && read.term == NodeAt(run, i, n).ballot.term && read.readIndex == NodeAt(run, i, n).commitment.index
    && read.confirmed <= Peers(cfg, n)
    && forall p :: p in read.confirmed ==> At(run, i, p) && NodeAt(run, i, p).ballot.term <= read.term
  }

  ghost predicate CallsOfRead(s: NodeState, readId: nat, term: Term) {
    forall c :: c in s.rpcs && s.rpcs[c] == ReadRpc(readId) ==> c.number == readId && c.term == term
  }

  ghost predicate Tracked(cfg: Config, run: Run, i: nat, n: NodeId, k: nat)
    requires At(run, i, n) && At(run, k, n)
  {
    var readId, s := run.states[i].ticket, NodeAt(run, k, n);
    && AnswersAreLate(run, i, readId, run.states[k].net)
    && CallsOfRead(s, readId, NodeAt(run, i, n).ballot.term)
    && (readId in s.pendingReads ==> ReadOk(cfg, run, i, n, s.pendingReads[readId]))
  }

  lemma ReadOpens(cfg: Config, run: Run, i: nat, n: NodeId)
    requires IsRun(cfg, run) && i < |run.actions| && At(run, i, n) && run.actions[i] == Act(n, ReadRequest)
    ensures At(run, i + 1, n) && Tracked(cfg, run, i, n, i + 1)
  {
    hide NodeStep, Enabled, IsRun, GrantsFrame, WaitersFrame;
    var readId := run.states[i].ticket;
    AlwaysNumbered(cfg, run, i, n);
    RunStep(cfg, run, i, n);
    RunFacts(cfg, run, i, n);
    StepTables(cfg, n, NodeAt(run, i, n), ReadRequest, readId);
    var s, s' := NodeAt(run, i, n), NodeAt(run, i + 1, n);
    assert NodeNumbers(s, readId);
    forall m | m in run.states[i + 1].net && m.Resp? ensures m.call.number != readId {
      if m !in run.states[i].net {
        assert Emits(s, ReadRequest, readId, m);
      }
    }
  }

  /** Answers emitted after the invocation carry terms at least as new as the invocation saw. */
  lemma LateAnswers(cfg: Config, run: Run, i: nat, k: nat, v: NodeId)
    requires IsRun(cfg, run) && i < k < |run.actions| && At(run, k, v) && run.actions[k].node == v
    requires At(run, i, v) && AnswersAreLate(run, i, run.states[i].ticket, run.states[k].net)
    ensures AnswersAreLate(run, i, run.states[i].ticket, run.states[k + 1].net)
  {
    hide NodeStep, Enabled, IsRun, TablesFrame;
    var s, e, ticket := NodeAt(run, k, v), run.actions[k].event, run.states[k].ticket;
    RunFacts(cfg, run, k, v);
    RunStep(cfg, run, k, v);
    TermsNeverFall(cfg, run, i, k, v);
    var out := NodeStep(cfg, v, s, e, ticket);
    forall m | m in out.msgs && m.Resp? ensures m.call.callee == v && m.response.term >= s.ballot.term {
      if e.CrashAt? || e.RestartNow? {
        CrashTables(cfg, v, s, e, ticket);
      } else {
        StepTables(cfg, v, s, e, ticket);
        AnswerFrom(cfg, v, s, e, ticket, out, m);
      }
    }
  }

  lemma AnswerFrom(cfg: Config, v: NodeId, s: NodeState, e: Event, ticket: nat, out: Out, m: Message)
    requires TablesFrame(v, s, e, ticket, out) && m in out.msgs && m.Resp?
    requires forall w :: w in s.journal.waiters ==> w.call.callee == v
    requires Enabled(cfg, v, s, e)
    ensures m.call.callee == v && m.response.term >= s.ballot.term
  {
    assert Emits(s, e, ticket, m);
  }

  /** A step of the reader keeps what is known of its read. */
  lemma ReaderStep(cfg: Config, run: Run, i: nat, n: NodeId, s: NodeState, e: Event, ticket: nat, net: set<Message>, out: Out)
    requires At(run, i, n) && run.states[i].ticket < ticket
    requires TablesFrame(n, s, e, ticket, out) && NodeNumbers(s, ticket)
    requires forall c :: c in s.rpcs ==> c.callee in Peers(cfg, n)
    requires e.OnResponse? ==> Resp(e.call, e.response) in net
    requires var readId := run.states[i].ticket;
             && AnswersAreLate(run, i, readId, net) && CallsOfRead(s, readId, NodeAt(run, i, n).ballot.term)
             && (readId in s.pendingReads ==> ReadOk(cfg, run, i, n, s.pendingReads[readId]))
    ensures var readId := run.states[i].ticket;
            && CallsOfRead(out.s, readId, NodeAt(run, i, n).ballot.term)
            && (readId in out.s.pendingReads ==> ReadOk(cfg, run, i, n, out.s.pendingReads[readId]))
  {
    var readId := run.states[i].ticket;
    if readId in out.s.pendingReads && readId in s.pendingReads && ConfirmArrives(s, e, readId) {
      assert e.call.number == readId && e.call.term == NodeAt(run, i, n).ballot.term;
      assert Resp(e.call, e.response) in net;
    }
  }

  lemma TrackedStep(cfg: Config, run: Run, i: nat, n: NodeId, k: nat)
    requires IsRun(cfg, run) && i < k < |run.actions| && At(run, i, n) && At(run, k, n) && Tracked(cfg, run, i, n, k)
    ensures At(run, k + 1, n) && Tracked(cfg, run, i, n, k + 1)
  {
    hide NodeStep, Enabled, IsRun, TablesFrame, AnswersAreLate, CallsOfRead, ReadOk, NetNumbers, NodeNumbers;
    var v, e, ticket := run.actions[k].node, run.actions[k].event, run.states[k].ticket;
    ActorIsThere(cfg, run, k);
    RunFacts(cfg, run, i, n);
    RunFacts(cfg, run, k, n);
    LateAnswers(cfg, run, i, k, v);
    RunStep(cfg, run, k, n);
    TicketsGrow(cfg, run, i, k);
    if v == n {
      var s := NodeAt(run, k, n);
      if e.CrashAt? || e.RestartNow? {
        CrashTables(cfg, n, s, e, ticket);
        NoCallsOfRead(NodeAt(run, k + 1, n), run.states[i].ticket, NodeAt(run, i, n).ballot.term);
      } else {
        StepTables(cfg, n, s, e, ticket);
        AlwaysNumbered(cfg, run, k, n);
        ReaderStep(cfg, run, i, n, s, e, ticket, run.states[k].net, NodeStep(cfg, n, s, e, ticket));
      }
    }
  }

  lemma NoCallsOfRead(s: NodeState, readId: nat, term: Term)
    requires s.rpcs == map[]
    ensures CallsOfRead(s, readId, term)
  {
  }

  lemma {:induction false} ReadIsTracked(cfg: Config, run: Run, i: nat, n: NodeId, k: nat)
    requires IsRun(cfg, run) && i < k < |run.states| && At(run, i, n) && run.actions[i] == Act(n, ReadRequest)
    ensures At(run, k, n) && Tracked(cfg, run, i, n, k)
    decreases k
  {
    if k == i + 1 {
      ReadOpens(cfg, run, i, n);
    } else {
      ReadIsTracked(cfg, run, i, n, k - 1);
      TrackedStep(cfg, run, i, n, k - 1);
    }
  }

  // ── the theorem ───────────────────────────────────────────────────────────

  /** A leader that is caught up has committed whatever was committed in this or an earlier term. */
  lemma CommitBarrier(cfg: Config, h: History, n: NodeId, s: NodeState, u: Term, index: int)
    requires HistoryOk(cfg, h) && NodeOk(cfg, h, n, s) && s.ballot.role == Leader && CaughtUp(s)
    requires Covers(h, u, index) && u <= s.ballot.term
    ensures index <= s.commitment.index
  {
    hide HistoryOk, NodeOk, Agree;
    var k :| k <= s.commitment.index + 1 && OwnAt(s, k);
    NodeFacts(cfg, h, n, s);
    ReignTermAt(cfg, h, s.ballot.term, k);
    CommitCarries(cfg, h, u, s.ballot.term);
  }

  /** A majority of replicas that had not passed term t rules out any later leader at that moment. */
  lemma NoLaterLeader(cfg: Config, h: History, c: Cluster, t: Term, quorum: set<NodeId>, u: Term)
    requires ClusterOk(cfg, h, c) && u in h.reigns
    requires quorum <= cfg.voters && |quorum| >= QuorumSize(cfg)
    requires forall p :: p in quorum ==> p in c.nodes && c.nodes[p].ballot.term <= t
    ensures u <= t
  {
    hide MessagesOk;
    assert ReignOk(cfg, h, u);
    var v := QuorumsMeet(cfg, quorum, h.reigns[u].electors);
    assert (v, u) in h.votes && NodeOk(cfg, h, v, c.nodes[v]);
  }

  /** Everything applied anywhere by the time the read starts lies within the read's index. */
  lemma ReadIndexCovers(cfg: Config, run: Run, i: nat, n: NodeId, confirmed: set<NodeId>, i0: nat, x: NodeId)
    requires IsRun(cfg, run) && i0 <= i && At(run, i, n) && At(run, i0, x)
    requires NodeAt(run, i, n).ballot.role == Leader && CaughtUp(NodeAt(run, i, n))
    requires confirmed <= Peers(cfg, n) && 1 + |confirmed| >= QuorumSize(cfg)
    requires forall p :: p in confirmed ==> At(run, i, p) && NodeAt(run, i, p).ballot.term <= NodeAt(run, i, n).ballot.term
    ensures |NodeAt(run, i0, x).commitment.applied| - 1 <= NodeAt(run, i, n).commitment.index
  {
    hide IsRun, ClusterOk, NodeOk, Later, CaughtUp, Covers;
    var h0, h := HistoriesOf(cfg, run, i0, i);
    var applied := NodeAt(run, i0, x).commitment.applied;
    NodeAtOk(cfg, h0, run, i0, x);
    NodeAtOk(cfg, h, run, i, n);
    RunFacts(cfg, run, i, n);
    BoundsOf(cfg, h, n, NodeAt(run, i, n));
    if applied != [] {
      var u := AppliedEntry(cfg, h0, x, NodeAt(run, i0, x), |applied| - 1);
      CoversLater(h0, h, u, |applied| - 1);
      HistoryOf(cfg, h, run.states[i]);
      assert |{n} + confirmed| == 1 + |confirmed|;
      NoLaterLeader(cfg, h, run.states[i], NodeAt(run, i, n).ballot.term, {n} + confirmed, u);
      CommitBarrier(cfg, h, n, NodeAt(run, i, n), u, |applied| - 1);
    }
  }

  lemma BoundsOf(cfg: Config, h: History, n: NodeId, s: NodeState)
    requires NodeOk(cfg, h, n, s)
    ensures |s.commitment.applied| == s.commitment.index + 1
  {
  }

  lemma CoversLater(h: History, h': History, u: Term, index: int)
    requires Later(h, h') && Covers(h, u, index)
    ensures u in h'.reigns && Covers(h', u, index)
  {
  }

  lemma HistoryOf(cfg: Config, h: History, c: Cluster)
    requires ClusterOk(cfg, h, c)
    ensures HistoryOk(cfg, h)
  {
  }

  /** A pending read was invoked before. */
  lemma ReadWasInvoked(cfg: Config, run: Run, i: nat, j: nat, n: NodeId)
    requires IsRun(cfg, run) && i < |run.states| && At(run, j, n) && run.states[i].ticket in NodeAt(run, j, n).pendingReads
    ensures i < j
  {
    hide IsRun;
    AlwaysNumbered(cfg, run, j, n);
    if j <= i {
      TicketsGrow(cfg, run, j, i);
    }
  }

  /**
   * ReadIndex is linearizable: when the read invoked at step i is answered, at step j, the state
   * machine it is answered from has applied, in the same order, everything that any replica had
   * applied by the time of the invocation.
   */
  lemma ReadIndexIsLinearizable(cfg: Config, run: Run, i: nat, j: nat, n: NodeId, i0: nat, x: NodeId)
    requires IsRun(cfg, run) && Timely(run)
    requires i < |run.actions| && j < |run.actions| && run.actions[i] == Act(n, ReadRequest)
    requires run.actions[j] == Act(n, ReadReply(run.states[i].ticket))
    requires i0 <= i && At(run, i0, x)
    ensures i < j && At(run, j, n) && ReadAnswer(n, run.states[i].ticket, NodeAt(run, j, n).commitment.applied) in run.states[j + 1].net
    ensures NodeAt(run, i0, x).commitment.applied <= NodeAt(run, j, n).commitment.applied
  {
    hide IsRun, CaughtUp, NoopOk, AnswersAreLate, CallsOfRead;
    ActorIsThere(cfg, run, i);
    ActorIsThere(cfg, run, j);
    RunStep(cfg, run, i, n);
    RunStep(cfg, run, j, n);
    ReadWasInvoked(cfg, run, i, j, n);
    NoopAlways(cfg, run, i, n);
    OpenGuardIsCaughtUp(NodeAt(run, i, n));
    ReadIsTracked(cfg, run, i, n, j);
    ReadIndexCovers(cfg, run, i, n, NodeAt(run, j, n).pendingReads[run.states[i].ticket].confirmed, i0, x);
    forall k | 0 <= k < |NodeAt(run, i0, x).commitment.applied|
      ensures NodeAt(run, i0, x).commitment.applied[k] == NodeAt(run, j, n).commitment.applied[k]
    {
      StateMachineSafety(cfg, run, i0, j, x, n, k);
    }
  }
}
