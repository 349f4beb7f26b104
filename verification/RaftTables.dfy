/**
 * How one step moves the table of outstanding calls, the tallies kept per call, and the
 * messages answered: what the pre-vote and the read protocols rely on.
 */
module RaftTables {
  import opened RaftTypes
  import opened RaftEngine
  import opened RaftCluster
  import opened RaftFrames

  ghost predicate KeptCall(rpcs: map<Call, Rpc>, c: Call, rpc: Rpc) {
    c in rpcs && (rpc == rpcs[c] || (rpc.AppendRpc? && rpcs[c].AppendRpc?))
  }

  /** Calls are numbered with the step's ticket; a pre-vote or a read opens its calls in one go. */
  ghost predicate NewCall(n: NodeId, s: NodeState, e: Event, ticket: nat, c: Call, rpc: Rpc) {
    && c.number == ticket && c.caller == n
    && match rpc
       case PreVoteRpc(round) => e.ElectionTimeout? && round == s.ballot.preVoteRound + 1 && c.term == s.ballot.term + 1
       case ReadRpc(readId) => e.ReadRequest? && readId == ticket && c.term == s.ballot.term
       case _ => true
  }

  ghost predicate CallsFrame(n: NodeId, s: NodeState, e: Event, ticket: nat, rpcs: map<Call, Rpc>) {
    forall c :: c in rpcs ==> KeptCall(s.rpcs, c, rpcs[c]) || NewCall(n, s, e, ticket, c, rpcs[c])
  }

  function Asked(e: Event): set<Call> {
    if e.OnRequest? then {e.call} else {}
  }

  ghost predicate Emits(s: NodeState, e: Event, ticket: nat, m: Message) {
    match m
    case Req(c, _) => c.number == ticket
    case Resp(c, response) => c in WaiterCalls(s.journal.waiters) + Asked(e) && response.term >= s.ballot.term
    case _ => true
  }

  ghost predicate MessagesFrame(s: NodeState, e: Event, ticket: nat, msgs: set<Message>) {
    forall m :: m in msgs ==> Emits(s, e, ticket, m)
  }

  ghost predicate WaitersFrame(s: NodeState, e: Event, waiters: set<DurableWaiter>) {
    WaiterCalls(waiters) <= WaiterCalls(s.journal.waiters) + Asked(e)
  }

  /** A grant is added only by a positive answer to a call of the current round. */
  ghost predicate GrantsFrame(n: NodeId, s: NodeState, e: Event, b: Ballot) {
    || (b.preVoteGrants == s.ballot.preVoteGrants && b.preVoteRound >= s.ballot.preVoteRound && !e.ElectionTimeout?)
    || (b.preVoteGrants == {n} && b.preVoteRound == s.ballot.preVoteRound + 1 && e.ElectionTimeout?)
    || (GrantArrives(s, e) && b.preVoteGrants == s.ballot.preVoteGrants + {e.call.callee}
        && b.preVoteRound == s.ballot.preVoteRound)
  }

  ghost predicate GrantArrives(s: NodeState, e: Event) {
    && e.OnResponse? && e.call in s.rpcs && s.rpcs[e.call] == PreVoteRpc(s.ballot.preVoteRound)
    && e.response.PreVoteResult? && e.response.granted && e.call.term == s.ballot.term + 1
  }

  ghost predicate ConfirmArrives(s: NodeState, e: Event, readId: nat) {
    && e.OnResponse? && e.call in s.rpcs && s.rpcs[e.call] == ReadRpc(readId)
    && e.response.term == e.call.term
  }

  /** A pending read keeps its term and index; only an answer in its term adds a confirmation. */
  ghost predicate ReadsFrame(s: NodeState, e: Event, ticket: nat, reads': map<nat, Read>) {
    forall id :: id in reads' ==>
      || (id in s.pendingReads && reads'[id] == s.pendingReads[id])
      || (e.ReadRequest? && id == ticket && reads'[id] == Read(s.ballot.term, s.commitment.index, {}))
      || (id in s.pendingReads && ConfirmArrives(s, e, id)
          && reads'[id] == s.pendingReads[id].(confirmed := s.pendingReads[id].confirmed + {e.call.callee}))
  }

  ghost predicate TablesFrame(n: NodeId, s: NodeState, e: Event, ticket: nat, out: Out) {
    && CallsFrame(n, s, e, ticket, out.s.rpcs)
    && MessagesFrame(s, e, ticket, out.msgs)
    && WaitersFrame(s, e, out.s.journal.waiters)
    && GrantsFrame(n, s, e, out.s.ballot)
    && ReadsFrame(s, e, ticket, out.s.pendingReads)
  }

  /** A handler that sends nothing and keeps the tables. */
  lemma FrameTables(n: NodeId, s: NodeState, e: Event, ticket: nat, out: Out, t: NodeState)
    requires Frame(t, out, Asked(e)) && !e.ElectionTimeout?
    requires t.ballot == s.ballot && t.journal.waiters == s.journal.waiters && t.pendingReads == s.pendingReads
    requires CallsFrame(n, s, e, ticket, t.rpcs)
    ensures TablesFrame(n, s, e, ticket, out)
  {
  }

  lemma CandidacyFrame(cfg: Config, n: NodeId, s: NodeState, ticket: nat)
    requires WellFormed(s) && WaitersSane(s.journal.waiters)
    ensures var out := StartElection(cfg, n, s, ticket);
            && out.s.ballot.preVoteRound == s.ballot.preVoteRound && out.s.ballot.preVoteGrants == s.ballot.preVoteGrants
            && out.s.pendingReads == s.pendingReads && out.s.ballot.term == s.ballot.term + 1
            && WaiterCalls(out.s.journal.waiters) <= WaiterCalls(s.journal.waiters)
            && (forall c :: c in out.s.rpcs && c !in s.rpcs ==> c.number == ticket && c.caller == n && out.s.rpcs[c] == VoteRpc)
            && (forall c :: c in out.s.rpcs && c in s.rpcs ==> out.s.rpcs[c] == s.rpcs[c] || (c.number == ticket && c.caller == n && out.s.rpcs[c] == VoteRpc))
            && (forall m :: m in out.msgs ==> Emits(s, ElectionTimeout, ticket, m))
  {
    var s1 := Candidacy(n, s);
    if 1 >= QuorumSize(cfg) {
      BecomeLeaderFrame(cfg, n, s1);
    }
  }

  lemma TimeoutTables(cfg: Config, n: NodeId, s: NodeState, ticket: nat)
    requires WellFormed(s) && WaitersSane(s.journal.waiters)
    ensures TablesFrame(n, s, ElectionTimeout, ticket, StartPreVote(cfg, n, s, ticket))
  {
    hide StartElection;
    var round := s.ballot.preVoteRound + 1;
    var s1 := s.(ballot := s.ballot.(preVoteRound := round, preVoteGrants := {n}));
    CandidacyFrame(cfg, n, s1, ticket);
  }

  lemma RequestTables(cfg: Config, n: NodeId, s: NodeState, call: Call, request: Request, heardRecently: bool, ticket: nat)
    requires WellFormed(s) && !s.panicked && WaitersSane(s.journal.waiters) && SensibleRequest(request)
    ensures TablesFrame(n, s, OnRequest(call, request, heardRecently), ticket,
                        HandleRequest(cfg, n, s, call, request, heardRecently))
  {
    hide Frame, TablesFrame, HandleRequestVote, HandleAppendEntries;
    var e := OnRequest(call, request, heardRecently);
    var out := HandleRequest(cfg, n, s, call, request, heardRecently);
    match request
    case PreVote(_, _) =>
      FrameTables(n, s, e, ticket, out, s);
    case RequestVote(_, _) =>
      HandleVoteFrame(n, s, call, request, heardRecently);
      FrameTables(n, s, e, ticket, out, s);
    case AppendEntries(_, _, _, _) =>
      HandleAppendFrame(cfg, n, s, call, request);
      FrameTables(n, s, e, ticket, out, s);
  }

  lemma FewerCalls(n: NodeId, s: NodeState, e: Event, ticket: nat, call: Call)
    ensures CallsFrame(n, s, e, ticket, s.rpcs - {call})
  {
  }

  lemma FollowerTables(n: NodeId, s: NodeState, call: Call, response: Response, ticket: nat)
    requires WaitersSane(s.journal.waiters)
    ensures TablesFrame(n, s, OnResponse(call, response), ticket,
                        BecomeFollower(n, s.(rpcs := s.rpcs - {call}), response.term, None))
  {
    hide Frame, TablesFrame, CallsFrame, BecomeFollower;
    var e := OnResponse(call, response);
    var s1 := s.(rpcs := s.rpcs - {call});
    BecomeFollowerFrame(n, s1, response.term, None);
    FewerCalls(n, s, e, ticket, call);
    FrameTables(n, s, e, ticket, BecomeFollower(n, s1, response.term, None), s1);
  }

  lemma PreVoteAnswerTables(cfg: Config, n: NodeId, s: NodeState, call: Call, response: Response, ticket: nat)
    requires WellFormed(s) && WaitersSane(s.journal.waiters) && call in s.rpcs && s.rpcs[call].PreVoteRpc?
    ensures TablesFrame(n, s, OnResponse(call, response), ticket,
                        OnPreVoteResponse(cfg, n, s.(rpcs := s.rpcs - {call}), call, s.rpcs[call], response, ticket))
  {
    hide StartElection, BecomeFollower;
    if response.term > s.ballot.term {
      hide TablesFrame;
      FollowerTables(n, s, call, response, ticket);
    } else if GrantArrives(s, OnResponse(call, response)) {
      ElectedTables(cfg, n, s, call, response, ticket);
    }
  }

  /** The election that a pre-vote grant sets off. */
  lemma ElectedTables(cfg: Config, n: NodeId, s: NodeState, call: Call, response: Response, ticket: nat)
    requires WellFormed(s) && WaitersSane(s.journal.waiters) && GrantArrives(s, OnResponse(call, response))
    ensures var s1 := s.(rpcs := s.rpcs - {call},
                         ballot := s.ballot.(preVoteGrants := s.ballot.preVoteGrants + {call.callee}));
            TablesFrame(n, s, OnResponse(call, response), ticket, StartElection(cfg, n, s1, ticket))
  {
    hide StartElection;
    CandidacyFrame(cfg, n, s.(rpcs := s.rpcs - {call},
                              ballot := s.ballot.(preVoteGrants := s.ballot.preVoteGrants + {call.callee})), ticket);
  }

  lemma VoteAnswerTables(cfg: Config, n: NodeId, s: NodeState, call: Call, response: Response, ticket: nat)
    requires WellFormed(s) && WaitersSane(s.journal.waiters) && call in s.rpcs && s.rpcs[call].VoteRpc?
    ensures TablesFrame(n, s, OnResponse(call, response), ticket,
                        OnVoteResponse(cfg, n, s.(rpcs := s.rpcs - {call}), call, response))
  {
    hide BecomeLeader, BecomeFollower;
    var s1 := s.(rpcs := s.rpcs - {call});
    FollowerTables(n, s, call, response, ticket);
    BecomeLeaderFrame(cfg, n, s1.(ballot := s1.ballot.(votes := s1.ballot.votes + {call.callee})));
  }

  lemma AppendAnswerTables(cfg: Config, n: NodeId, s: NodeState, call: Call, response: Response, ticket: nat)
    requires WellFormed(s) && WaitersSane(s.journal.waiters) && call in s.rpcs && s.rpcs[call].AppendRpc?
    requires SensibleRpc(s.rpcs[call]) && SensibleResponse(response)
    ensures TablesFrame(n, s, OnResponse(call, response), ticket,
                        OnAppendResponse(cfg, n, s.(rpcs := s.rpcs - {call}), call, s.rpcs[call], response))
  {
    hide BecomeFollower, AdvanceCommit;
    var s1 := s.(rpcs := s.rpcs - {call});
    FollowerTables(n, s, call, response, ticket);
    if response.AppendOk? {
      AdvanceFrame(cfg, n, s1.(lead := Progress(s1.lead, call.callee, response.matchIndex)));
    }
  }

  lemma ReadAnswerTables(n: NodeId, s: NodeState, call: Call, response: Response, ticket: nat)
    requires WaitersSane(s.journal.waiters) && call in s.rpcs && s.rpcs[call].ReadRpc?
    ensures TablesFrame(n, s, OnResponse(call, response), ticket,
                        OnReadResponse(n, s.(rpcs := s.rpcs - {call}), call, s.rpcs[call], response))
  {
    hide BecomeFollower;
    FollowerTables(n, s, call, response, ticket);
  }

  lemma ResponseTables(cfg: Config, n: NodeId, s: NodeState, call: Call, response: Response, ticket: nat)
    requires WellFormed(s) && WaitersSane(s.journal.waiters) && call in s.rpcs
    requires SensibleRpc(s.rpcs[call]) && SensibleResponse(response)
    ensures TablesFrame(n, s, OnResponse(call, response), ticket, HandleResponse(cfg, n, s, call, response, ticket))
  {
    hide TablesFrame, OnPreVoteResponse, OnVoteResponse, OnAppendResponse, OnReadResponse;
    match s.rpcs[call]
    case PreVoteRpc(_) => PreVoteAnswerTables(cfg, n, s, call, response, ticket);
    case VoteRpc => VoteAnswerTables(cfg, n, s, call, response, ticket);
    case AppendRpc(_, _, _, _) => AppendAnswerTables(cfg, n, s, call, response, ticket);
    case ReadRpc(_) => ReadAnswerTables(n, s, call, response, ticket);
  }

  lemma ClientTables(cfg: Config, n: NodeId, s: NodeState, data: Command, ticket: nat)
    requires WellFormed(s) && WaitersSane(s.journal.waiters)
    ensures TablesFrame(n, s, ClientRequest(data), ticket, ClientAppend(cfg, n, s, data, ticket))
  {
    hide AppendToLog;
    var entry := Entry(s.ballot.term, |s.journal.log|, data);
    AppendFrame(cfg, n, s, [entry]);
    AppendFacts(cfg, n, s, [entry]);
  }

  lemma QuietTables(cfg: Config, n: NodeId, s: NodeState, e: Event, ticket: nat)
    requires Enabled(cfg, n, s, e) && WaitersSane(s.journal.waiters)
    requires e.Flush? || e.PersistMetadata? || e.Advance? || e.CommitTimeout? || e.Broadcast?
    ensures TablesFrame(n, s, e, ticket, NodeStep(cfg, n, s, e, ticket))
  {
    hide FlushLog, AdvanceCommit;
    FlushFrame(cfg, n, s);
    AdvanceFrame(cfg, n, s);
  }

  lemma SendTables(cfg: Config, n: NodeId, s: NodeState, e: Event, ticket: nat)
    requires Enabled(cfg, n, s, e)
    requires e.Pump? || e.ReadRequest? || e.ReadReply? || e.OnRpcError?
    ensures TablesFrame(n, s, e, ticket, NodeStep(cfg, n, s, e, ticket))
  {
  }

  lemma StepTables(cfg: Config, n: NodeId, s: NodeState, e: Event, ticket: nat)
    requires Enabled(cfg, n, s, e) && WaitersSane(s.journal.waiters) && !e.CrashAt? && !e.RestartNow?
    ensures TablesFrame(n, s, e, ticket, NodeStep(cfg, n, s, e, ticket))
  {
    hide TablesFrame, StartPreVote, HandleRequest, HandleResponse, ClientAppend, FlushLog, AdvanceCommit, SendAppend,
      StartRead, AnswerRead, HandleError;
    match e
    case ElectionTimeout => TimeoutTables(cfg, n, s, ticket);
    case OnRequest(call, request, heardRecently) => RequestTables(cfg, n, s, call, request, heardRecently, ticket);
    case OnResponse(call, response) => ResponseTables(cfg, n, s, call, response, ticket);
    case ClientRequest(data) => ClientTables(cfg, n, s, data, ticket);
    case OnRpcError(_) => SendTables(cfg, n, s, e, ticket);
    case Pump(_, _, _) => SendTables(cfg, n, s, e, ticket);
    case ReadRequest => SendTables(cfg, n, s, e, ticket);
    case ReadReply(_) => SendTables(cfg, n, s, e, ticket);
    case _ => QuietTables(cfg, n, s, e, ticket);
  }
}
