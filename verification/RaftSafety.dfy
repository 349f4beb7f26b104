/** The invariant over whole runs, and the safety theorems it carries. */
module RaftSafety {
  import opened RaftTypes
  import opened RaftEngine
  import opened RaftCluster
  import opened RaftHistory
  import opened RaftInvariant
  import opened RaftSteps
  import opened RaftElectionSteps
  import opened RaftLeaderSteps

  ghost predicate InputOk(h: History, n: NodeId, e: Event, cfg: Config) {
    match e
    case OnRequest(call, request, _) => MessageOk(cfg, h, Req(call, request))
    case OnResponse(call, response) => MessageOk(cfg, h, Resp(call, response))
    case _ => true
  }

  lemma RequestKeeps(cfg: Config, h: History, n: NodeId, s: NodeState, call: Call, request: Request, heardRecently: bool) returns (h': History)
    requires HistoryOk(cfg, h) && NodeOk(cfg, h, n, s) && WellFormed(s) && !s.panicked
    requires call.callee == n && SensibleRequest(request) && MessageOk(cfg, h, Req(call, request))
    ensures StepOk(cfg, n, h, h', HandleRequest(cfg, n, s, call, request, heardRecently))
  {
    hide HistoryOk, NodeOk, Grows, IsUpToDate, HandleRequestVote, HandleAppendEntries, VoteRequestOk, AppendRequestOk;
    match request
    case PreVote(_, _) =>
      h' := h;
      GrowsSame(n, h);
    case RequestVote(_, _) => h' := HandleVoteKeeps(cfg, h, n, s, call, request, heardRecently);
    case AppendEntries(_, _, _, _) => h' := HandleAppendKeeps(cfg, h, n, s, call, request);
  }

  lemma OutstandingFacts(cfg: Config, h: History, n: NodeId, s: NodeState, call: Call)
    requires NodeOk(cfg, h, n, s) && call in s.rpcs
    ensures call.caller == n && call.callee in Peers(cfg, n) && call.callee in cfg.voters && SensibleRpc(s.rpcs[call])
    ensures s.rpcs[call].AppendRpc? ==>
      call.term in h.reigns && s.rpcs[call].prevLogIndex + 1 <= |h.reigns[call.term].log|
  {
  }

  lemma ResponseKeeps(cfg: Config, h: History, n: NodeId, s: NodeState, call: Call, response: Response, ticket: nat) returns (h': History)
    requires HistoryOk(cfg, h) && NodeOk(cfg, h, n, s) && WellFormed(s)
    requires call in s.rpcs && SensibleRpc(s.rpcs[call]) && SensibleResponse(response) && ResponseOk(h, call, response)
    ensures StepOk(cfg, n, h, h', HandleResponse(cfg, n, s, call, response, ticket))
  {
    hide HistoryOk, NodeOk, Grows, OnPreVoteResponse, OnVoteResponse, OnAppendResponse, OnReadResponse, ResponseOk;
    var rpc := s.rpcs[call];
    var s1 := s.(rpcs := s.rpcs - {call});
    OutstandingFacts(cfg, h, n, s, call);
    FewerRpcs(cfg, h, n, s, call);
    match rpc
    case PreVoteRpc(_) => h' := OnPreVoteKeeps(cfg, h, n, s1, call, rpc, response, ticket);
    case VoteRpc => h' := OnVoteKeeps(cfg, h, n, s1, call, response);
    case AppendRpc(_, _, _, _) => h' := OnAppendKeeps(cfg, h, n, s1, call, rpc, response);
    case ReadRpc(_) => h' := OnReadKeeps(cfg, h, n, s1, call, rpc, response);
  }

  lemma BroadcastKeeps(cfg: Config, h: History, n: NodeId, s: NodeState)
    requires HistoryOk(cfg, h) && NodeOk(cfg, h, n, s)
    ensures StepOk(cfg, n, h, h, Out(FireBroadcast(s), {}))
  {
    hide HistoryOk, JournalOk, WaitersOk, BallotOk, CommitmentOk, StableOk, ClientsOk, RpcsOk;
    GrowsSame(n, h);
    assert NodeOk(cfg, h, n, FireBroadcast(s));
  }

  lemma CallErrorKeeps(cfg: Config, h: History, n: NodeId, s: NodeState, call: Call)
    requires HistoryOk(cfg, h) && NodeOk(cfg, h, n, s) && call in s.rpcs && SensibleRpc(s.rpcs[call])
    ensures StepOk(cfg, n, h, h, Out(HandleError(s, call), {}))
  {
    hide HistoryOk, NodeOk, Grows, OnAppendError;
    GrowsSame(n, h);
    OutstandingFacts(cfg, h, n, s, call);
    FewerRpcs(cfg, h, n, s, call);
    if s.rpcs[call].AppendRpc? {
      ErrorKeeps(cfg, h, n, s.(rpcs := s.rpcs - {call}), call, s.rpcs[call]);
    }
    QuietStep(cfg, n, h, h, HandleError(s, call));
  }

  /** Every event of a replica keeps its invariant; the history it hands back records what happened. */
  lemma EventKeeps(cfg: Config, h: History, n: NodeId, s: NodeState, e: Event, ticket: nat) returns (h': History)
    requires HistoryOk(cfg, h) && NodeOk(cfg, h, n, s) && Enabled(cfg, n, s, e) && InputOk(h, n, e, cfg)
    ensures StepOk(cfg, n, h, h', NodeStep(cfg, n, s, e, ticket))
  {
    hide HistoryOk, NodeOk, Grows, StartPreVote, HandleRequest, HandleResponse, HandleError, SendAppend, FlushLog, Persist,
      AdvanceCommit, ClientAppend, ExpireCommitWaiter, FireBroadcast, StartRead, AnswerRead, Crash, Restart, StepOk, MessagesOk;
    h' := h;
    match e
    case ElectionTimeout => h' := StartPreVoteKeeps(cfg, h, n, s, ticket);
    case OnRequest(call, request, heardRecently) => h' := RequestKeeps(cfg, h, n, s, call, request, heardRecently);
    case OnResponse(call, response) => h' := ResponseKeeps(cfg, h, n, s, call, response, ticket);
    case OnRpcError(call) => CallErrorKeeps(cfg, h, n, s, call);
    case Pump(peer, _, count) => SendKeeps(cfg, h, n, s, peer, count, ticket);
    case Flush => h' := FlushKeeps(cfg, h, n, s);
    case PersistMetadata => PersistKeeps(cfg, h, n, s);
    case Advance => h' := AdvanceKeeps(cfg, h, n, s);
    case ClientRequest(data) => h' := ClientAppendKeeps(cfg, h, n, s, data, ticket);
    case CommitTimeout(waiter) => ExpireKeeps(cfg, h, n, s, waiter);
    case Broadcast => BroadcastKeeps(cfg, h, n, s);
    case ReadRequest => StartReadKeeps(cfg, h, n, s, ticket);
    case ReadReply(readId) => AnswerKeeps(cfg, h, n, s, readId);
    case CrashAt(kept) => CrashKeeps(cfg, h, n, s, kept);
    case RestartNow => RestartKeeps(cfg, h, n, s);
  }

  // ── clusters and runs ─────────────────────────────────────────────────────

  ghost predicate NodesOk(cfg: Config, h: History, nodes: map<NodeId, NodeState>) {
    nodes.Keys == cfg.voters && forall n :: n in nodes ==> NodeOk(cfg, h, n, nodes[n])
  }

  ghost predicate ClusterOk(cfg: Config, h: History, c: Cluster) {
    HistoryOk(cfg, h) && NodesOk(cfg, h, c.nodes) && MessagesOk(cfg, h, c.net)
  }

  lemma InitialOk(cfg: Config)
    ensures ClusterOk(cfg, EMPTY_HISTORY, InitialCluster(cfg))
  {
  }

  lemma StepKeeps(cfg: Config, h: History, c: Cluster, a: Action) returns (h': History)
    requires ClusterOk(cfg, h, c) && CanStep(cfg, c, a)
    ensures ClusterOk(cfg, h', Step(cfg, c, a)) && Grows(a.node, h, h')
    ensures RecordsOnlyIn(a.node, h, h', Step(cfg, c, a).nodes[a.node].ballot)
  {
    hide HistoryOk, NodeOk, Grows, NodeStep, Enabled, RecordsOnlyIn;
    var n := a.node;
    h' := EventKeeps(cfg, h, n, c.nodes[n], a.event, c.ticket);
    forall v | v in c.nodes && v != n ensures NodeOk(cfg, h', v, c.nodes[v]) {
      OthersUndisturbed(cfg, n, h, h', v, c.nodes[v]);
    }
    MessagesUndisturbed(cfg, n, h, h', c.net);
  }

  /** Nothing but a panic or a message nobody sent is ruled out by the guards of a step. */
  lemma GuardsAlwaysHold(cfg: Config, h: History, c: Cluster, n: NodeId)
    requires ClusterOk(cfg, h, c) && n in c.nodes
    ensures WellFormed(c.nodes[n]) && !c.nodes[n].panicked
    ensures forall call :: call in c.nodes[n].rpcs ==> SensibleRpc(c.nodes[n].rpcs[call])
    ensures forall call, request :: Req(call, request) in c.net ==> SensibleRequest(request)
    ensures forall call, response :: Resp(call, response) in c.net ==> SensibleResponse(response)
  {
    hide HistoryOk, NodeOk, MessageOk, SensibleRpc, SensibleRequest, SensibleResponse;
    NodeGuards(cfg, h, n, c.nodes[n]);
    forall m | m in c.net ensures (m.Req? ==> SensibleRequest(m.request)) && (m.Resp? ==> SensibleResponse(m.response)) {
      MessageGuards(cfg, h, m);
    }
  }

  lemma NodeGuards(cfg: Config, h: History, n: NodeId, s: NodeState)
    requires NodeOk(cfg, h, n, s)
    ensures WellFormed(s) && !s.panicked && forall call :: call in s.rpcs ==> SensibleRpc(s.rpcs[call])
  {
    hide BallotOk, JournalOk, WaitersOk, RoleOk, ClientsOk, StableOk;
    NodeOkIsWellFormed(cfg, h, n, s);
  }

  lemma MessageGuards(cfg: Config, h: History, m: Message)
    requires MessageOk(cfg, h, m)
    ensures (m.Req? ==> SensibleRequest(m.request)) && (m.Resp? ==> SensibleResponse(m.response))
  {
  }

  /** What the committed part of the history keeps from one state of a run to any later one. */
  ghost predicate Later(h: History, h': History) {
    forall t :: t in h.reigns ==>
      && t in h'.reigns && h.reigns[t].leader == h'.reigns[t].leader && h.reigns[t].base == h'.reigns[t].base
      && h.reigns[t].electors == h'.reigns[t].electors
      && h.reigns[t].commit <= h'.reigns[t].commit
      && |h.reigns[t].log| <= |h'.reigns[t].log| && h.reigns[t].log == h'.reigns[t].log[..|h.reigns[t].log|]
  }

  lemma LaterThen(n: NodeId, h: History, h1: History, h2: History)
    requires Later(h, h1) && Grows(n, h1, h2)
    ensures Later(h, h2)
  {
    forall t | t in h.reigns
      ensures && t in h2.reigns && h.reigns[t].leader == h2.reigns[t].leader && h.reigns[t].base == h2.reigns[t].base
              && h.reigns[t].electors == h2.reigns[t].electors
              && h.reigns[t].commit <= h2.reigns[t].commit
              && |h.reigns[t].log| <= |h2.reigns[t].log| && h.reigns[t].log == h2.reigns[t].log[..|h.reigns[t].log|]
    {
      assert ReignGrows(n, h1.reigns[t], h2.reigns[t]);
      assert h2.reigns[t].log[..|h.reigns[t].log|] == h2.reigns[t].log[..|h1.reigns[t].log|][..|h.reigns[t].log|];
    }
  }

  /** A history for states i and j of a run, the later one continuing the earlier one. */
  lemma {:induction false} HistoriesOf(cfg: Config, run: Run, i: nat, j: nat) returns (hi: History, hj: History)
    requires IsRun(cfg, run) && i <= j < |run.states|
    ensures ClusterOk(cfg, hi, run.states[i]) && ClusterOk(cfg, hj, run.states[j]) && Later(hi, hj)
    decreases j
  {
    hide ClusterOk, Grows, Later, CanStep, Step;
    if j == 0 {
      InitialOk(cfg);
      hi, hj := EMPTY_HISTORY, EMPTY_HISTORY;
      LaterSame(hi);
    } else if i == j {
      var before, _ := HistoriesOf(cfg, run, j - 1, j - 1);
      hj := StepKeeps(cfg, before, run.states[j - 1], run.actions[j - 1]);
      hi := hj;
      LaterSame(hi);
    } else {
      var before;
      hi, before := HistoriesOf(cfg, run, i, j - 1);
      hj := StepKeeps(cfg, before, run.states[j - 1], run.actions[j - 1]);
      LaterThen(run.actions[j - 1].node, hi, before, hj);
    }
  }

  lemma LaterSame(h: History)
    ensures Later(h, h)
  {
  }
}
