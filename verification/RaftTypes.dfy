/** The values a Raft replica keeps and exchanges. */
module RaftTypes {

  type NodeId = nat
  type Term = nat

  datatype Option<+T> = None | Some(value: T)

  /** A client command carries an optional deduplication key (clientId, seqNo). */
  datatype Command =
    | Noop(leader: NodeId)
    | Client(key: Option<(nat, nat)>, payload: int)

  datatype Entry = Entry(term: Term, index: nat, data: Command)

  datatype Role = Follower | Candidate | Leader

  /** The small record rewritten synchronously whenever term or vote change. */
  datatype Stable = Stable(term: Term, votedFor: Option<NodeId>, commit: int)

  /**
   * The correlation token of one request: a fresh number and who asked whom in
   * which term. No handler branches on the number; it only pairs a response with its
   * request, so that a request is answered at most once.
   */
  datatype Call = Call(number: nat, caller: NodeId, callee: NodeId, term: Term)

  datatype Request =
    | PreVote(lastLogIndex: int, lastLogTerm: Term)
    | RequestVote(lastLogIndex: int, lastLogTerm: Term)
    | AppendEntries(prevLogIndex: int, prevLogTerm: Term, entries: seq<Entry>, leaderCommit: int)

  datatype Response =
    | PreVoteResult(term: Term, granted: bool)
    | VoteResult(term: Term, granted: bool)
    | AppendOk(term: Term, matchIndex: int, logLength: nat)
    | AppendRejected(term: Term, conflictIndex: nat, logLength: nat)

  /** Everything a step can emit: network messages and answers to clients. */
  datatype Message =
    | Req(call: Call, request: Request)
    | Resp(call: Call, response: Response)
    | ClientReply(node: NodeId, index: nat, entry: Entry, committed: bool)
    | ReadAnswer(node: NodeId, readId: nat, applied: seq<Entry>)

  /** What a replica remembers about a request it is still waiting on. */
  datatype Rpc =
    | PreVoteRpc(round: nat)
    | VoteRpc
    | AppendRpc(epoch: nat, prevLogIndex: int, lastIndex: int, superseded: bool)
    | ReadRpc(readId: nat)

  /** A success that may be sent only once `need` entries are on disk. */
  datatype DurableWaiter = DurableWaiter(call: Call, need: int, term: Term, epoch: nat, response: Response)

  datatype CommitWaiter = CommitWaiter(number: nat, index: nat, entry: Entry)

  /** A ReadIndex read between its invocation and its answer. */
  datatype Read = Read(term: Term, readIndex: int, confirmed: set<NodeId>)

  datatype Mode = Probe | Replicate

  /** Term, vote and role, with the tallies of the election and pre-election in progress. */
  datatype Ballot = Ballot(
    term: Term,
    votedFor: Option<NodeId>,
    role: Role,
    leaderId: Option<NodeId>,
    votes: set<NodeId>,
    preVoteRound: nat,
    preVoteGrants: set<NodeId>)

  /** log[..durable] has been fsynced; the rest is the store's pending buffer. */
  datatype Journal = Journal(log: seq<Entry>, durable: nat, epoch: nat, waiters: set<DurableWaiter>)

  /** commitIndex, the entries handed to the state machine, and the clients awaiting a commit. */
  datatype Commitment = Commitment(index: int, applied: seq<Entry>, dirty: bool, waiters: set<CommitWaiter>)

  /** A leader's volatile state. `broadcast` is the leadership that queued the zero-delay commit broadcast. */
  datatype Leadership = Leadership(
    epoch: nat,
    next: map<NodeId, nat>,
    matched: map<NodeId, int>,
    modes: map<NodeId, Mode>,
    noopIndex: Option<nat>,
    broadcast: Option<nat>)

  /** `panicked` is set by the refusal to truncate a committed entry. */
  datatype NodeState = NodeState(
    up: bool,
    panicked: bool,
    stable: Stable,
    ballot: Ballot,
    journal: Journal,
    commitment: Commitment,
    lead: Leadership,
    rpcs: map<Call, Rpc>,
    pendingReads: map<nat, Read>)

  /** A fixed voter set, and the group-commit batch that forces a flush. */
  datatype Config = Config(voters: set<NodeId>, flushEntries: nat, maxInflight: nat, maxEntries: nat)

  ghost predicate ValidConfig(cfg: Config) {
    cfg.voters != {} && cfg.flushEntries >= 1 && cfg.maxInflight >= 1 && cfg.maxEntries >= 1
  }

  function QuorumSize(cfg: Config): nat {
    |cfg.voters| / 2 + 1
  }

  function Peers(cfg: Config, n: NodeId): set<NodeId> {
    cfg.voters - {n}
  }

  function LastTerm(log: seq<Entry>): Term {
    if log == [] then 0 else log[|log| - 1].term
  }

  function Min(a: int, b: int): int {
    if a < b then a else b
  }

  function Max(a: int, b: int): int {
    if a < b then b else a
  }

  /** The two logs share their first k entries. */
  predicate Agree(a: seq<Entry>, b: seq<Entry>, k: nat) {
    k <= |a| && k <= |b| && a[..k] == b[..k]
  }

  /** The bounds that every handler relies on and keeps. */
  predicate WellFormed(s: NodeState) {
    && s.journal.durable <= |s.journal.log|
    && |s.commitment.applied| == s.commitment.index + 1 <= |s.journal.log|
    && -1 <= s.stable.commit
  }

  function EmptyBallot(term: Term, votedFor: Option<NodeId>): Ballot {
    Ballot(term, votedFor, Follower, None, {}, 0, {})
  }

  const NO_LEADERSHIP := Leadership(0, map[], map[], map[], None, None)

  /** A process that has just started over the given stable state. */
  function FreshNode(up: bool, panicked: bool, stable: Stable, log: seq<Entry>, commit: int): NodeState
    requires -1 <= commit < |log|
  {
    NodeState(up, panicked, stable, EmptyBallot(stable.term, stable.votedFor), Journal(log, |log|, 0, {}),
              Commitment(commit, log[..commit + 1], false, {}), NO_LEADERSHIP, map[], map[])
  }

  function InitialNode(): NodeState {
    FreshNode(true, false, Stable(0, None, -1), [], -1)
  }
}
