/**
 * What each handler of a Raft replica does, as a function from the replica's state to
 * its next state and the messages it emits. RaftNode's methods are proved to compute
 * these functions; RaftCluster composes them into runs.
 *
 * The profile is group commit with pipelined, bounded replication: entries enter memory
 * before the disk, acknowledgements wait for the disk, and the commit index is persisted lazily.
 */
module RaftEngine {
  import opened RaftTypes

  datatype Out = Out(s: NodeState, msgs: set<Message>)

  function Then(first: Out, second: Out): Out {
    Out(second.s, first.msgs + second.msgs)
  }

  // ── durability ────────────────────────────────────────────────────────────

  function Persist(s: NodeState): NodeState {
    s.(stable := Stable(s.ballot.term, s.ballot.votedFor, s.commitment.index),
       commitment := s.commitment.(dirty := false))
  }

  function Rejection(term: Term, log: seq<Entry>): Response {
    AppendRejected(term, |log|, |log|)
  }

  predicate IsCurrent(term: Term, journal: Journal, w: DurableWaiter) {
    w.term == term && w.epoch == journal.epoch
  }

  predicate IsReleasable(term: Term, journal: Journal, w: DurableWaiter) {
    !IsCurrent(term, journal, w) || w.need <= journal.durable
  }

  /** A waiter of another term or log epoch is answered with a rejection instead of its success. */
  function ReleasedResponse(term: Term, journal: Journal, w: DurableWaiter): Message {
    Resp(w.call, if IsCurrent(term, journal, w) then w.response else Rejection(term, journal.log))
  }

  function Releasable(term: Term, journal: Journal): set<DurableWaiter> {
    set w | w in journal.waiters && IsReleasable(term, journal, w)
  }

  function ReleaseDurableWaiters(s: NodeState): Out {
    var ready := Releasable(s.ballot.term, s.journal);
    Out(s.(journal := s.journal.(waiters := s.journal.waiters - ready)),
        set w | w in ready :: ReleasedResponse(s.ballot.term, s.journal, w))
  }

  // ── commit ────────────────────────────────────────────────────────────────

  predicate Acknowledges(lead: Leadership, p: NodeId, index: int) {
    p in lead.matched && lead.matched[p] >= index
  }

  /** Voters whose copy of the entry counts; the leader's own only once it is durable. */
  function Replicas(cfg: Config, n: NodeId, journal: Journal, lead: Leadership, index: int): set<NodeId> {
    (set p | p in Peers(cfg, n) && Acknowledges(lead, p, index)) + (if journal.durable > index then {n} else {})
  }

  predicate Committable(cfg: Config, n: NodeId, s: NodeState, index: int)
    requires 0 <= index < |s.journal.log|
  {
    && s.journal.log[index].term == s.ballot.term
    && |Replicas(cfg, n, s.journal, s.lead, index)| >= QuorumSize(cfg)
  }

  /** The scan from the end of the log down to the commit index. */
  function FindCommit(cfg: Config, n: NodeId, s: NodeState, index: int): (c: int)
    requires -1 <= s.commitment.index <= index < |s.journal.log|
    ensures s.commitment.index <= c <= index
    ensures c > s.commitment.index ==> Committable(cfg, n, s, c)
    ensures forall i :: c < i <= index ==> !Committable(cfg, n, s, i)
    decreases index
  {
    if index == s.commitment.index then index
    else if Committable(cfg, n, s, index) then index
    else FindCommit(cfg, n, s, index - 1)
  }

  /** Moves the commit index and applies the entries this covers, in order. */
  function SetCommit(c: Commitment, log: seq<Entry>, index: int): Commitment
    requires |c.applied| <= index + 1 <= |log|
  {
    c.(index := index, dirty := true, applied := c.applied + log[|c.applied|..index + 1])
  }

  function CommitReply(n: NodeId, index: int, w: CommitWaiter): Message {
    ClientReply(n, w.index, w.entry, index >= w.index)
  }

  function CommitReplies(n: NodeId, index: int, waiters: set<CommitWaiter>): set<Message> {
    set w | w in waiters :: CommitReply(n, index, w)
  }

  function Settled(c: Commitment): set<CommitWaiter> {
    set w | w in c.waiters && c.index >= w.index
  }

  function CommitTo(n: NodeId, s: NodeState, index: int): Out
    requires WellFormed(s) && s.commitment.index < index < |s.journal.log|
  {
    var c := SetCommit(s.commitment, s.journal.log, index);
    var broadcast := if s.lead.broadcast.Some? then s.lead.broadcast else Some(s.lead.epoch);
    Out(s.(commitment := c.(waiters := c.waiters - Settled(c)), lead := s.lead.(broadcast := broadcast)),
        CommitReplies(n, index, Settled(c)))
  }

  function AdvanceCommit(cfg: Config, n: NodeId, s: NodeState): Out
    requires WellFormed(s)
  {
    if s.ballot.role != Leader then Out(s, {})
    else
      var index := FindCommit(cfg, n, s, |s.journal.log| - 1);
      if index == s.commitment.index then Out(s, {}) else CommitTo(n, s, index)
  }

  function FlushLog(cfg: Config, n: NodeId, s: NodeState): Out
    requires WellFormed(s)
  {
    var released := ReleaseDurableWaiters(s.(journal := s.journal.(durable := |s.journal.log|)));
    Then(released, AdvanceCommit(cfg, n, released.s))
  }

  // ── the log ───────────────────────────────────────────────────────────────

  function AppendToLog(cfg: Config, n: NodeId, s: NodeState, entries: seq<Entry>): Out
    requires WellFormed(s)
  {
    if entries == [] then Out(s, {})
    else
      var appended := s.(journal := s.journal.(log := s.journal.log + entries));
      if |appended.journal.log| - appended.journal.durable >= cfg.flushEntries then FlushLog(cfg, n, appended)
      else Out(appended, {})
  }

  /** Cuts the log. The store rewrites what is retained, so all of it is durable afterwards. */
  function TruncateLogFrom(s: NodeState, index: nat): Out
    requires WellFormed(s)
  {
    if index <= s.commitment.index then Out(s.(panicked := true), {})
    else if index >= |s.journal.log| then Out(s, {})
    else
      ReleaseDurableWaiters(s.(journal := Journal(s.journal.log[..index], index, s.journal.epoch + 1, s.journal.waiters)))
  }

  // ── terms and roles ───────────────────────────────────────────────────────

  /** Adopting a newer term is durable at once, and revokes what was prepared under the old one. */
  function AdoptTerm(s: NodeState, term: Term): Out {
    if term > s.ballot.term
    then ReleaseDurableWaiters(Persist(s.(ballot := s.ballot.(term := term, votedFor := None))))
    else Out(s, {})
  }

  /** The role change itself: the leadership is fenced and every waiting client is answered. */
  function StepDown(n: NodeId, s: NodeState, leaderId: Option<NodeId>): Out {
    Out(s.(ballot := s.ballot.(role := Follower, votes := {}, leaderId := leaderId,
                               preVoteRound := s.ballot.preVoteRound + 1),
           lead := if s.ballot.role == Leader then s.lead.(epoch := s.lead.epoch + 1) else s.lead,
           commitment := s.commitment.(waiters := {})),
        CommitReplies(n, s.commitment.index, s.commitment.waiters))
  }

  function BecomeFollower(n: NodeId, s: NodeState, term: Term, leaderId: Option<NodeId>): Out {
    var stepped := StepDown(n, s, leaderId);
    Then(stepped, AdoptTerm(stepped.s, term))
  }

  function TakeLeadership(cfg: Config, n: NodeId, s: NodeState): NodeState {
    var length := |s.journal.log|;
    s.(ballot := s.ballot.(role := Leader, leaderId := Some(n), votes := {}),
       lead := Leadership(s.lead.epoch + 1,
                          map p | p in Peers(cfg, n) :: length,
                          map p | p in Peers(cfg, n) :: -1,
                          map[], Some(length), s.lead.broadcast))
  }

  function BecomeLeader(cfg: Config, n: NodeId, s: NodeState): Out
    requires WellFormed(s)
  {
    AppendToLog(cfg, n, TakeLeadership(cfg, n, s), [Entry(s.ballot.term, |s.journal.log|, Noop(n))])
  }

  function Outstanding(calls: set<Call>, rpc: Rpc): map<Call, Rpc> {
    map c | c in calls :: rpc
  }

  /** One request to every other voter, under one number. */
  function FanOut(cfg: Config, n: NodeId, number: nat, term: Term): set<Call> {
    set p | p in Peers(cfg, n) :: Call(number, n, p, term)
  }

  function Candidacy(n: NodeId, s: NodeState): NodeState {
    Persist(s.(ballot := s.ballot.(term := s.ballot.term + 1, role := Candidate, votedFor := Some(n),
                                   votes := {n}, leaderId := None)))
  }

  function StartElection(cfg: Config, n: NodeId, s: NodeState, ticket: nat): Out
    requires WellFormed(s)
  {
    var s1 := Candidacy(n, s);
    if 1 >= QuorumSize(cfg) then BecomeLeader(cfg, n, s1)
    else
      var calls := FanOut(cfg, n, ticket, s1.ballot.term);
      Out(s1.(rpcs := s1.rpcs + Outstanding(calls, VoteRpc)),
          set c | c in calls :: Req(c, RequestVote(|s.journal.log| - 1, LastTerm(s.journal.log))))
  }

  function StartPreVote(cfg: Config, n: NodeId, s: NodeState, ticket: nat): Out
    requires WellFormed(s)
  {
    var round := s.ballot.preVoteRound + 1;
    var s1 := s.(ballot := s.ballot.(preVoteRound := round, preVoteGrants := {n}));
    if 1 >= QuorumSize(cfg) then StartElection(cfg, n, s1, ticket)
    else
      var calls := FanOut(cfg, n, ticket, s.ballot.term + 1);
      Out(s1.(rpcs := s1.rpcs + Outstanding(calls, PreVoteRpc(round))),
          set c | c in calls :: Req(c, PreVote(|s.journal.log| - 1, LastTerm(s.journal.log))))
  }

  // ── voting ────────────────────────────────────────────────────────────────

  predicate IsUpToDate(log: seq<Entry>, lastLogIndex: int, lastLogTerm: Term) {
    lastLogTerm > LastTerm(log) || (lastLogTerm == LastTerm(log) && lastLogIndex >= |log| - 1)
  }

  /** Read-only: neither side's term, vote or timer moves. */
  function HandlePreVote(cfg: Config, s: NodeState, call: Call, request: Request, heardRecently: bool): Response
    requires request.PreVote?
  {
    var granted :=
      && call.term >= s.ballot.term + 1
      && call.caller in cfg.voters
      && s.ballot.role != Leader
      && !(s.ballot.leaderId.Some? && heardRecently)
      && IsUpToDate(s.journal.log, request.lastLogIndex, request.lastLogTerm);
    PreVoteResult(s.ballot.term, granted)
  }

  predicate MayVote(s: NodeState, candidate: NodeId, lastLogIndex: int, lastLogTerm: Term) {
    && (s.ballot.votedFor == None || s.ballot.votedFor == Some(candidate))
    && IsUpToDate(s.journal.log, lastLogIndex, lastLogTerm)
  }

  function CastVote(s: NodeState, candidate: NodeId): NodeState {
    Persist(s.(ballot := s.ballot.(votedFor := Some(candidate), preVoteRound := s.ballot.preVoteRound + 1)))
  }

  function HandleRequestVote(n: NodeId, s: NodeState, call: Call, request: Request, heardRecently: bool): Out
    requires request.RequestVote?
  {
    if call.term < s.ballot.term || (s.ballot.leaderId.Some? && heardRecently) then
      Out(s, {Resp(call, VoteResult(s.ballot.term, false))})
    else
      var adopted := if call.term > s.ballot.term then BecomeFollower(n, s, call.term, None) else Out(s, {});
      var granted := MayVote(adopted.s, call.caller, request.lastLogIndex, request.lastLogTerm);
      Then(adopted,
           Out(if granted then CastVote(adopted.s, call.caller) else adopted.s,
               {Resp(call, VoteResult(adopted.s.ballot.term, granted))}))
  }

  // ── AppendEntries, the follower's side ────────────────────────────────────

  /** First index of the run of equal terms that ends at `index`. */
  function RunStart(log: seq<Entry>, index: nat): (start: nat)
    requires index < |log|
    ensures start <= index
    ensures forall i :: start <= i <= index ==> log[i].term == log[index].term
    ensures start > 0 ==> log[start - 1].term != log[index].term
  {
    if index > 0 && log[index - 1].term == log[index].term then RunStart(log, index - 1) else index
  }

  /** How many of `entries` the log already holds, position by position from `from`. */
  function HeldCount(log: seq<Entry>, from: nat, entries: seq<Entry>): (k: nat)
    requires from <= |log|
    ensures k <= |entries| && from + k <= |log|
    ensures forall i :: 0 <= i < k ==> log[from + i].term == entries[i].term
    ensures k < |entries| && from + k < |log| ==> log[from + k].term != entries[k].term
    decreases |entries|
  {
    if entries == [] || from == |log| || log[from].term != entries[0].term then 0
    else 1 + HeldCount(log, from + 1, entries[1..])
  }

  function AdoptLeader(n: NodeId, s: NodeState, call: Call): Out {
    if call.term > s.ballot.term || s.ballot.role != Follower
    then BecomeFollower(n, s, call.term, Some(call.caller))
    else Out(s.(ballot := s.ballot.(preVoteRound := s.ballot.preVoteRound + 1, leaderId := Some(call.caller))), {})
  }

  /** Cuts the log at the first entry that contradicts the request, if there is one. */
  function CutConflict(s: NodeState, from: nat, entries: seq<Entry>): Out
    requires WellFormed(s) && from <= |s.journal.log|
  {
    var held := HeldCount(s.journal.log, from, entries);
    if held < |entries| && from + held < |s.journal.log| then TruncateLogFrom(s, from + held) else Out(s, {})
  }

  function LearnCommit(s: NodeState, leaderCommit: int, lastVerified: int): NodeState
    requires WellFormed(s) && lastVerified < |s.journal.log|
  {
    var index := Min(leaderCommit, lastVerified);
    if leaderCommit > s.commitment.index && index > s.commitment.index
    then s.(commitment := SetCommit(s.commitment, s.journal.log, index))
    else s
  }

  /** A success leaves at once only when everything it acknowledges is durable. */
  function Acknowledge(s: NodeState, call: Call, matchIndex: int): Out {
    var response := AppendOk(s.ballot.term, matchIndex, |s.journal.log|);
    if matchIndex >= s.journal.durable then
      var waiter := DurableWaiter(call, matchIndex + 1, s.ballot.term, s.journal.epoch, response);
      Out(s.(journal := s.journal.(waiters := s.journal.waiters + {waiter})), {})
    else
      Out(s, {Resp(call, response)})
  }

  /** What follows a successful consistency check, once any conflicting suffix is gone. */
  function Extend(cfg: Config, n: NodeId, s: NodeState, call: Call, request: Request, held: nat): Out
    requires WellFormed(s) && request.AppendEntries? && held <= |request.entries|
    requires held < |request.entries| ==> request.prevLogIndex + 1 + held == |s.journal.log|
    requires request.prevLogIndex + 1 + held <= |s.journal.log|
  {
    var appended := AppendToLog(cfg, n, s, request.entries[held..]);
    AppendFacts(cfg, n, s, request.entries[held..]);
    var lastVerified := request.prevLogIndex + |request.entries|;
    var learned := LearnCommit(appended.s, request.leaderCommit, lastVerified);
    Then(appended, Acknowledge(learned, call, lastVerified))
  }

  function AcceptEntries(cfg: Config, n: NodeId, s: NodeState, call: Call, request: Request): Out
    requires WellFormed(s) && request.AppendEntries? && request.prevLogIndex >= -1
  {
    var prev := request.prevLogIndex;
    var term := s.ballot.term;
    if prev >= |s.journal.log| then Out(s, {Resp(call, Rejection(term, s.journal.log))})
    else if prev >= 0 && s.journal.log[prev].term != request.prevLogTerm then
      Out(s, {Resp(call, AppendRejected(term, RunStart(s.journal.log, prev), |s.journal.log|))})
    else
      var cut := CutConflict(s, prev + 1, request.entries);
      if cut.s.panicked then cut
      else
        Then(cut, Extend(cfg, n, cut.s, call, request, HeldCount(s.journal.log, prev + 1, request.entries)))
  }

  function HandleAppendEntries(cfg: Config, n: NodeId, s: NodeState, call: Call, request: Request): Out
    requires WellFormed(s) && !s.panicked && request.AppendEntries? && request.prevLogIndex >= -1
  {
    if call.term < s.ballot.term then Out(s, {Resp(call, Rejection(s.ballot.term, s.journal.log))})
    else
      var adopted := AdoptLeader(n, s, call);
      Then(adopted, AcceptEntries(cfg, n, adopted.s, call, request))
  }

  lemma FlushFacts(cfg: Config, n: NodeId, s: NodeState)
    requires WellFormed(s)
    ensures var t := FlushLog(cfg, n, s).s; WellFormed(t) && t.journal.log == s.journal.log && t.panicked == s.panicked
  {
  }

  lemma AppendFacts(cfg: Config, n: NodeId, s: NodeState, entries: seq<Entry>)
    requires WellFormed(s)
    ensures var t := AppendToLog(cfg, n, s, entries).s;
            WellFormed(t) && t.journal.log == s.journal.log + entries && t.panicked == s.panicked
  {
    if entries != [] {
      FlushFacts(cfg, n, s.(journal := s.journal.(log := s.journal.log + entries)));
    }
  }

  // ── AppendEntries, the leader's side ──────────────────────────────────────

  function ClampedNext(s: NodeState, p: NodeId): nat {
    if p in s.lead.next && s.lead.next[p] <= |s.journal.log| then s.lead.next[p] else |s.journal.log|
  }

  function AppendRequest(log: seq<Entry>, commit: int, next: nat, count: nat): Request
    requires next + count <= |log|
  {
    AppendEntries(next - 1, if next > 0 then log[next - 1].term else 0, log[next..next + count], commit)
  }

  /** A new leadership starts with an empty progress table: only its own requests are in flight. */
  predicate InFlight(rpc: Rpc, epoch: nat) {
    rpc.AppendRpc? && rpc.epoch == epoch
  }

  /** Outstanding requests of this leadership that still occupy the window of one follower. */
  function Active(rpcs: map<Call, Rpc>, p: NodeId, epoch: nat): set<Call> {
    set c | c in rpcs.Keys && c.callee == p && InFlight(rpcs[c], epoch) && !rpcs[c].superseded
  }

  /** Every follower starts in probe mode. */
  function ModeOf(lead: Leadership, p: NodeId): Mode {
    if p in lead.modes then lead.modes[p] else Probe
  }

  predicate WindowOpen(cfg: Config, s: NodeState, p: NodeId) {
    |Active(s.rpcs, p, s.lead.epoch)| < (if ModeOf(s.lead, p) == Probe then 1 else cfg.maxInflight)
  }

  /** One request of the pump: a bounded batch, or an empty heartbeat when nothing is outstanding. */
  predicate MaySend(cfg: Config, n: NodeId, s: NodeState, p: NodeId, heartbeat: bool, count: nat) {
    && s.ballot.role == Leader
    && p in Peers(cfg, n)
    && WindowOpen(cfg, s, p)
    && var available := |s.journal.log| - ClampedNext(s, p);
    && count <= available && count <= cfg.maxEntries && (count == 0 <==> available == 0)
    && (count == 0 ==> heartbeat && Active(s.rpcs, p, s.lead.epoch) == {})
  }

  function SendAppend(n: NodeId, s: NodeState, p: NodeId, count: nat, ticket: nat): Out
    requires ClampedNext(s, p) + count <= |s.journal.log|
  {
    var next := ClampedNext(s, p);
    var call := Call(ticket, n, p, s.ballot.term);
    var optimistic := ModeOf(s.lead, p) == Replicate && count > 0;
    Out(s.(rpcs := s.rpcs[call := AppendRpc(s.lead.epoch, next - 1, next - 1 + count, false)],
           lead := if optimistic then s.lead.(next := s.lead.next[p := next + count]) else s.lead),
        {Req(call, AppendRequest(s.journal.log, s.commitment.index, next, count))})
  }

  function Supersede(rpc: Rpc, epoch: nat): Rpc {
    if InFlight(rpc, epoch) then rpc.(superseded := true) else rpc
  }

  function SupersedeAll(rpcs: map<Call, Rpc>, p: NodeId, epoch: nat): map<Call, Rpc> {
    map c | c in rpcs :: if c.callee == p then Supersede(rpcs[c], epoch) else rpcs[c]
  }

  function EnterProbe(s: NodeState, p: NodeId, next: nat): NodeState {
    s.(lead := s.lead.(next := s.lead.next[p := next], modes := s.lead.modes[p := Probe]),
       rpcs := SupersedeAll(s.rpcs, p, s.lead.epoch))
  }

  function MatchOf(lead: Leadership, p: NodeId): int {
    if p in lead.matched then lead.matched[p] else -1
  }

  function Progress(lead: Leadership, p: NodeId, matchIndex: int): Leadership
    requires matchIndex >= -1
  {
    var acknowledged := Max(MatchOf(lead, p), matchIndex);
    lead.(matched := lead.matched[p := acknowledged],
          next := lead.next[p := Max(if p in lead.next then lead.next[p] else 0, acknowledged + 1)],
          modes := lead.modes[p := Replicate])
  }

  function OnAppendRejected(s: NodeState, p: NodeId, rpc: Rpc, conflictIndex: nat): NodeState
    requires rpc.AppendRpc? && rpc.prevLogIndex >= -1
  {
    var matched := MatchOf(s.lead, p);
    if rpc.prevLogIndex <= matched then s
    else
      var hint := if conflictIndex >= rpc.prevLogIndex + 1 then rpc.prevLogIndex else conflictIndex;
      EnterProbe(s, p, Max(Max(matched + 1, 0), hint))
  }

  function OnAppendError(s: NodeState, p: NodeId, rpc: Rpc): NodeState
    requires rpc.AppendRpc? && rpc.prevLogIndex >= -1
  {
    if rpc.epoch != s.lead.epoch || s.ballot.role != Leader || rpc.superseded then s
    else
      var next := if p in s.lead.next then s.lead.next[p] else |s.journal.log|;
      EnterProbe(s, p, Max(Max(MatchOf(s.lead, p) + 1, 0), Min(next, rpc.prevLogIndex + 1)))
  }

  function OnAppendResponse(cfg: Config, n: NodeId, s: NodeState, call: Call, rpc: Rpc, response: Response): Out
    requires WellFormed(s) && rpc.AppendRpc? && rpc.prevLogIndex >= -1
    requires response.AppendOk? ==> response.matchIndex >= -1
  {
    if response.term > s.ballot.term then BecomeFollower(n, s, response.term, None)
    else if rpc.epoch != s.lead.epoch || call.term != s.ballot.term || s.ballot.role != Leader then Out(s, {})
    else match response
      case AppendOk(_, matchIndex, _) =>
        AdvanceCommit(cfg, n, s.(lead := Progress(s.lead, call.callee, matchIndex)))
      case AppendRejected(_, conflictIndex, _) => Out(OnAppendRejected(s, call.callee, rpc, conflictIndex), {})
      case _ => Out(s, {})
  }

  // ── elections, the candidate's side ───────────────────────────────────────

  function OnPreVoteResponse(cfg: Config, n: NodeId, s: NodeState, call: Call, rpc: Rpc, response: Response, ticket: nat): Out
    requires WellFormed(s) && rpc.PreVoteRpc?
  {
    if response.term > s.ballot.term then BecomeFollower(n, s, response.term, None)
    else if response.PreVoteResult? && response.granted && rpc.round == s.ballot.preVoteRound
            && s.ballot.term + 1 == call.term && s.ballot.role != Leader then
      var s1 := s.(ballot := s.ballot.(preVoteGrants := s.ballot.preVoteGrants + {call.callee}));
      if |s1.ballot.preVoteGrants| >= QuorumSize(cfg) then StartElection(cfg, n, s1, ticket) else Out(s1, {})
    else Out(s, {})
  }

  function OnVoteResponse(cfg: Config, n: NodeId, s: NodeState, call: Call, response: Response): Out
    requires WellFormed(s)
  {
    if response.term > s.ballot.term then BecomeFollower(n, s, response.term, None)
    else if response.VoteResult? && response.granted && s.ballot.role == Candidate && s.ballot.term == call.term then
      var s1 := s.(ballot := s.ballot.(votes := s.ballot.votes + {call.callee}));
      if |s1.ballot.votes| >= QuorumSize(cfg) then BecomeLeader(cfg, n, s1) else Out(s1, {})
    else Out(s, {})
  }

  // ── clients ───────────────────────────────────────────────────────────────

  predicate HasKey(e: Entry, key: (nat, nat)) {
    e.data.Client? && e.data.key == Some(key)
  }

  /** Position of the first entry with the key, or the length of the log. */
  function FindDuplicate(log: seq<Entry>, key: (nat, nat)): (i: nat)
    ensures i <= |log|
    ensures i < |log| ==> HasKey(log[i], key)
    ensures forall j :: 0 <= j < i ==> !HasKey(log[j], key)
  {
    if log == [] || HasKey(log[0], key) then 0 else 1 + FindDuplicate(log[1..], key)
  }

  function AwaitCommit(n: NodeId, s: NodeState, index: nat, entry: Entry, ticket: nat): Out {
    if s.commitment.index >= index then Out(s, {ClientReply(n, index, entry, true)})
    else if s.ballot.role != Leader then Out(s, {ClientReply(n, index, entry, false)})
    else
      Out(s.(commitment := s.commitment.(waiters := s.commitment.waiters + {CommitWaiter(ticket, index, entry)})), {})
  }

  function DuplicateOf(log: seq<Entry>, data: Command): (i: nat)
    ensures i <= |log|
  {
    if data.Client? && data.key.Some? then FindDuplicate(log, data.key.value) else |log|
  }

  function ClientAppend(cfg: Config, n: NodeId, s: NodeState, data: Command, ticket: nat): Out
    requires WellFormed(s)
  {
    var log := s.journal.log;
    var duplicate := DuplicateOf(log, data);
    if duplicate < |log| then AwaitCommit(n, s, duplicate, log[duplicate], ticket)
    else
      var entry := Entry(s.ballot.term, |log|, data);
      var appended := AppendToLog(cfg, n, s, [entry]);
      Then(appended, AwaitCommit(n, appended.s, entry.index, entry, ticket))
  }

  /** The commit timeout of one waiting client. */
  function ExpireCommitWaiter(n: NodeId, s: NodeState, w: CommitWaiter): Out {
    Out(s.(commitment := s.commitment.(waiters := s.commitment.waiters - {w})),
        {CommitReply(n, s.commitment.index, w)})
  }

  // ── ReadIndex ─────────────────────────────────────────────────────────────

  predicate MayStartRead(s: NodeState) {
    && s.ballot.role == Leader
    && (s.lead.noopIndex.Some? ==> s.commitment.index >= s.lead.noopIndex.value)
  }

  function StartRead(cfg: Config, n: NodeId, s: NodeState, ticket: nat): Out {
    var calls := FanOut(cfg, n, ticket, s.ballot.term);
    Out(s.(pendingReads := s.pendingReads[ticket := Read(s.ballot.term, s.commitment.index, {})],
           rpcs := s.rpcs + Outstanding(calls, ReadRpc(ticket))),
        set c | c in calls :: Req(c, AppendRequest(s.journal.log, s.commitment.index, ClampedNext(s, c.callee), 0)))
  }

  /** Any answer in the read's own term confirms the leadership, a rejection too. */
  function OnReadResponse(n: NodeId, s: NodeState, call: Call, rpc: Rpc, response: Response): Out
    requires rpc.ReadRpc?
  {
    if response.term > s.ballot.term then BecomeFollower(n, s, response.term, None)
    else if response.term == call.term && rpc.readId in s.pendingReads then
      var read := s.pendingReads[rpc.readId];
      Out(s.(pendingReads := s.pendingReads[rpc.readId := read.(confirmed := read.confirmed + {call.callee})]), {})
    else Out(s, {})
  }

  predicate MayAnswerRead(cfg: Config, s: NodeState, readId: nat) {
    && readId in s.pendingReads
    && var read := s.pendingReads[readId];
    && 1 + |read.confirmed| >= QuorumSize(cfg)
    && s.ballot.term == read.term && s.ballot.role == Leader
    && |s.commitment.applied| - 1 >= read.readIndex
  }

  function AnswerRead(n: NodeId, s: NodeState, readId: nat): Out {
    Out(s.(pendingReads := s.pendingReads - {readId}), {ReadAnswer(n, readId, s.commitment.applied)})
  }

  /** The zero-delay callback that follows a commit: the term's no-op is no longer awaited. */
  function FireBroadcast(s: NodeState): NodeState {
    s.(lead := s.lead.(noopIndex := None, broadcast := None))
  }

  // ── crash and restart ─────────────────────────────────────────────────────

  /** What is left on disk: everything flushed, and possibly part of the write in progress. */
  function Crash(s: NodeState, kept: nat): NodeState
    requires s.journal.durable <= kept <= |s.journal.log|
  {
    FreshNode(false, s.panicked, s.stable, s.journal.log[..kept], -1)
  }

  function Restart(s: NodeState): NodeState
    requires -1 <= s.stable.commit
  {
    FreshNode(true, s.panicked, s.stable, s.journal.log, Min(s.stable.commit, |s.journal.log| - 1))
  }
}
