/**
 * A cluster of replicas over a network that loses, delays and reorders messages.
 *
 * A message once sent stays available, so delivering it late, out of order or never is a
 * choice of the run. A request may even be delivered more than once; its response is
 * accepted at most once, because its call leaves the caller's table with the first.
 */
module RaftCluster {
  import opened RaftTypes
  import opened RaftEngine

  datatype Event =
    | ElectionTimeout
    | OnRequest(call: Call, request: Request, heardRecently: bool)
    | OnResponse(call: Call, response: Response)
    | OnRpcError(call: Call)
    | Pump(peer: NodeId, heartbeat: bool, count: nat)
    | Flush
    | PersistMetadata
    | Advance
    | ClientRequest(data: Command)
    | CommitTimeout(waiter: CommitWaiter)
    | Broadcast
    | ReadRequest
    | ReadReply(readId: nat)
    | CrashAt(kept: nat)
    | RestartNow

  predicate SensibleRpc(rpc: Rpc) {
    rpc.AppendRpc? ==> rpc.prevLogIndex >= -1
  }

  predicate SensibleResponse(response: Response) {
    response.AppendOk? ==> response.matchIndex >= -1
  }

  predicate SensibleRequest(request: Request) {
    request.AppendEntries? ==> request.prevLogIndex >= -1
  }

  predicate Enabled(cfg: Config, n: NodeId, s: NodeState, e: Event) {
    && WellFormed(s) && !s.panicked
    && (e.RestartNow? <==> !s.up)
    && match e
       case ElectionTimeout => s.ballot.role != Leader
       case OnRequest(call, request, _) => call.callee == n && SensibleRequest(request)
       case OnResponse(call, response) => call.caller == n && call in s.rpcs && SensibleRpc(s.rpcs[call]) && SensibleResponse(response)
       case OnRpcError(call) => call in s.rpcs && SensibleRpc(s.rpcs[call])
       case Pump(peer, heartbeat, count) => MaySend(cfg, n, s, peer, heartbeat, count)
       case Flush => true
       case PersistMetadata => s.commitment.dirty
       case Advance => true
       case ClientRequest(data) => s.ballot.role == Leader && data.Client?
       case CommitTimeout(waiter) => waiter in s.commitment.waiters
       case Broadcast => s.lead.broadcast.Some?
       case ReadRequest => MayStartRead(s)
       case ReadReply(readId) => MayAnswerRead(cfg, s, readId)
       case CrashAt(kept) => s.journal.durable <= kept <= |s.journal.log|
       case RestartNow => true
  }

  function HandleRequest(cfg: Config, n: NodeId, s: NodeState, call: Call, request: Request, heardRecently: bool): Out
    requires WellFormed(s) && !s.panicked && SensibleRequest(request)
  {
    match request
    case PreVote(_, _) => Out(s, {Resp(call, HandlePreVote(cfg, s, call, request, heardRecently))})
    case RequestVote(_, _) => HandleRequestVote(n, s, call, request, heardRecently)
    case AppendEntries(_, _, _, _) => HandleAppendEntries(cfg, n, s, call, request)
  }

  /** The promise of the call settles: its entry leaves the table and its continuation runs. */
  function HandleResponse(cfg: Config, n: NodeId, s: NodeState, call: Call, response: Response, ticket: nat): Out
    requires WellFormed(s) && call in s.rpcs && SensibleRpc(s.rpcs[call]) && SensibleResponse(response)
  {
    var rpc := s.rpcs[call];
    var s1 := s.(rpcs := s.rpcs - {call});
    match rpc
    case PreVoteRpc(_) => OnPreVoteResponse(cfg, n, s1, call, rpc, response, ticket)
    case VoteRpc => OnVoteResponse(cfg, n, s1, call, response)
    case AppendRpc(_, _, _, _) => OnAppendResponse(cfg, n, s1, call, rpc, response)
    case ReadRpc(_) => OnReadResponse(n, s1, call, rpc, response)
  }

  function HandleError(s: NodeState, call: Call): NodeState
    requires call in s.rpcs && SensibleRpc(s.rpcs[call])
  {
    var rpc := s.rpcs[call];
    var s1 := s.(rpcs := s.rpcs - {call});
    if rpc.AppendRpc? then OnAppendError(s1, call.callee, rpc) else s1
  }

  /** One atomic step of one replica; `ticket` numbers whatever requests it sends. */
  function NodeStep(cfg: Config, n: NodeId, s: NodeState, e: Event, ticket: nat): Out
    requires Enabled(cfg, n, s, e)
  {
    match e
    case ElectionTimeout => StartPreVote(cfg, n, s, ticket)
    case OnRequest(call, request, heardRecently) => HandleRequest(cfg, n, s, call, request, heardRecently)
    case OnResponse(call, response) => HandleResponse(cfg, n, s, call, response, ticket)
    case OnRpcError(call) => Out(HandleError(s, call), {})
    case Pump(peer, _, count) => SendAppend(n, s, peer, count, ticket)
    case Flush => FlushLog(cfg, n, s)
    case PersistMetadata => Out(Persist(s), {})
    case Advance => AdvanceCommit(cfg, n, s)
    case ClientRequest(data) => ClientAppend(cfg, n, s, data, ticket)
    case CommitTimeout(waiter) => ExpireCommitWaiter(n, s, waiter)
    case Broadcast => Out(FireBroadcast(s), {})
    case ReadRequest => StartRead(cfg, n, s, ticket)
    case ReadReply(readId) => AnswerRead(n, s, readId)
    case CrashAt(kept) => Out(Crash(s, kept), {})
    case RestartNow => Out(Restart(s), {})
  }

  datatype Cluster = Cluster(nodes: map<NodeId, NodeState>, net: set<Message>, ticket: nat)

  datatype Action = Act(node: NodeId, event: Event)

  /** What the network has to have carried for the event to happen. */
  predicate Delivered(c: Cluster, e: Event) {
    match e
    case OnRequest(call, request, _) => Req(call, request) in c.net
    case OnResponse(call, response) => Resp(call, response) in c.net
    case _ => true
  }

  predicate CanStep(cfg: Config, c: Cluster, a: Action) {
    && a.node in c.nodes
    && Enabled(cfg, a.node, c.nodes[a.node], a.event)
    && Delivered(c, a.event)
  }

  function Step(cfg: Config, c: Cluster, a: Action): Cluster
    requires CanStep(cfg, c, a)
  {
    var out := NodeStep(cfg, a.node, c.nodes[a.node], a.event, c.ticket);
    Cluster(c.nodes[a.node := out.s], c.net + out.msgs, c.ticket + 1)
  }

  function InitialCluster(cfg: Config): Cluster {
    Cluster(map n | n in cfg.voters :: InitialNode(), {}, 0)
  }

  /** A run: states[i + 1] is reached from states[i] by actions[i]. */
  datatype Run = Run(states: seq<Cluster>, actions: seq<Action>)

  ghost predicate IsRun(cfg: Config, run: Run) {
    && |run.states| == |run.actions| + 1
    && run.states[0] == InitialCluster(cfg)
    && forall i :: 0 <= i < |run.actions| ==>
         CanStep(cfg, run.states[i], run.actions[i]) && run.states[i + 1] == Step(cfg, run.states[i], run.actions[i])
  }
}
