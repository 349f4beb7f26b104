/**
 * A replica's journal against its log store: whatever a handler does to the log it does through the store's
 * operations, in an order that keeps "durable" meaning "in the file", and a crash leaves what the file reads as.
 */
module RaftStore {
  import opened RaftTypes
  import opened RaftEngine
  import opened RaftCluster
  import LogStore
  import DurableLog

  type Store = LogStore.MemoryStore<Entry>

  /** What the store holds: the durable entries in the file, the rest in its buffer. */
  function StoreOf(j: Journal): Store
    requires j.durable <= |j.log|
  {
    LogStore.MemoryStore(j.log[..j.durable], j.log[j.durable..])
  }

  /** The store's operations as a replica uses them; a rewrite keeps the first entries of what is held. */
  datatype Operation = Buffer(entries: seq<Entry>) | Sync | Keep(count: nat)

  function Perform(store: Store, op: Operation): Store {
    match op
    case Buffer(entries) => LogStore.MemoryAppendBuffered(store, entries)
    case Sync => LogStore.MemoryFlush(store)
    case Keep(count) =>
      var held := store.entries + store.pending;
      LogStore.MemoryRewrite(store, if count <= |held| then held[..count] else held)
  }

  function PerformAll(store: Store, ops: seq<Operation>): Store {
    if ops == [] then store else Perform(PerformAll(store, ops[..|ops| - 1]), ops[|ops| - 1])
  }

  lemma {:induction false} PerformBoth(store: Store, a: seq<Operation>, b: seq<Operation>)
    ensures PerformAll(store, a + b) == PerformAll(PerformAll(store, a), b)
    decreases |b|
  {
    if b == [] {
      assert a + b == a;
    } else {
      PerformBoth(store, a, b[..|b| - 1]);
      assert (a + b)[..|a + b| - 1] == a + b[..|b| - 1];
    }
  }

  /** These operations take the store of one journal to that of the other. */
  ghost predicate Leads(j: Journal, ops: seq<Operation>, j': Journal) {
    && j.durable <= |j.log| && j'.durable <= |j'.log|
    && PerformAll(StoreOf(j), ops) == StoreOf(j')
  }

  lemma LeadsOn(j: Journal, a: seq<Operation>, j1: Journal, b: seq<Operation>, j2: Journal)
    requires Leads(j, a, j1) && Leads(j1, b, j2)
    ensures Leads(j, a + b, j2)
  {
    PerformBoth(StoreOf(j), a, b);
  }

  lemma LeadsNowhere(j: Journal, j': Journal)
    requires j.durable <= |j.log| && j'.log == j.log && j'.durable == j.durable
    ensures Leads(j, [], j')
  {
  }

  lemma LeadsOnce(j: Journal, op: Operation, j': Journal)
    requires j.durable <= |j.log| && j'.durable <= |j'.log| && Perform(StoreOf(j), op) == StoreOf(j')
    ensures Leads(j, [op], j')
  {
    assert [op][..0] == [];
  }

  predicate Appends(ops: seq<Operation>) {
    ops == [] || ops == [Sync] || (ops[0].Buffer? && (|ops| == 1 || ops[1..] == [Sync]))
  }

  /** At most one rewrite, of a real prefix that keeps all that is committed; then at most one append; then at most one flush. */
  predicate Orderly(ops: seq<Operation>, commit: int, length: nat) {
    Appends(ops) || (ops[0].Keep? && commit < ops[0].count < length && Appends(ops[1..]))
  }

  // ── the three operations ──────────────────────────────────────────────────

  lemma FlushOperates(cfg: Config, n: NodeId, s: NodeState)
    requires WellFormed(s)
    ensures Leads(s.journal, [Sync], FlushLog(cfg, n, s).s.journal)
  {
    var j := FlushLog(cfg, n, s).s.journal;
    assert j.log == s.journal.log && j.durable == |j.log| by {
      AdvanceQuietly(cfg, n, ReleaseDurableWaiters(s.(journal := s.journal.(durable := |s.journal.log|))).s);
    }
    assert j.log[j.durable..] == [] && j.log[..j.durable] == s.journal.log[..s.journal.durable] + s.journal.log[s.journal.durable..];
    LeadsOnce(s.journal, Sync, j);
  }

  lemma AdvanceQuietly(cfg: Config, n: NodeId, s: NodeState)
    requires WellFormed(s)
    ensures AdvanceCommit(cfg, n, s).s.journal == s.journal
  {
  }

  lemma AppendOperates(cfg: Config, n: NodeId, s: NodeState, entries: seq<Entry>) returns (ops: seq<Operation>)
    requires WellFormed(s)
    ensures Leads(s.journal, ops, AppendToLog(cfg, n, s, entries).s.journal)
    ensures Appends(ops)
  {
    hide FlushLog, Leads;
    if entries == [] {
      LeadsNowhere(s.journal, s.journal);
      return [];
    }
    var appended := s.(journal := s.journal.(log := s.journal.log + entries));
    assert appended.journal.log[..s.journal.durable] == s.journal.log[..s.journal.durable];
    assert appended.journal.log[s.journal.durable..] == s.journal.log[s.journal.durable..] + entries;
    LeadsOnce(s.journal, Buffer(entries), appended.journal);
    ops := [Buffer(entries)];
    if |appended.journal.log| - appended.journal.durable >= cfg.flushEntries {
      FlushOperates(cfg, n, appended);
      LeadsOn(s.journal, ops, appended.journal, [Sync], FlushLog(cfg, n, appended).s.journal);
      ops := ops + [Sync];
    }
  }

  lemma CutOperates(s: NodeState, from: nat, entries: seq<Entry>) returns (ops: seq<Operation>)
    requires WellFormed(s) && from <= |s.journal.log|
    ensures Leads(s.journal, ops, CutConflict(s, from, entries).s.journal)
    ensures Orderly(ops, s.commitment.index, |s.journal.log|) && (ops == [] || (|ops| == 1 && ops[0].Keep?))
  {
    var k := from + HeldCount(s.journal.log, from, entries);
    if CutConflict(s, from, entries).s.journal == s.journal {
      LeadsNowhere(s.journal, s.journal);
      return [];
    }
    var j := CutConflict(s, from, entries).s.journal;
    assert j.log == s.journal.log[..k] && j.durable == k;
    assert s.journal.log[..s.journal.durable] + s.journal.log[s.journal.durable..] == s.journal.log;
    assert j.log[..k] == j.log && j.log[k..] == [];
    LeadsOnce(s.journal, Keep(k), j);
    ops := [Keep(k)];
  }

  // ── every step ────────────────────────────────────────────────────────────

  lemma FollowerQuietly(n: NodeId, s: NodeState, term: Term, leaderId: Option<NodeId>)
    requires WellFormed(s)
    ensures var t := BecomeFollower(n, s, term, leaderId).s; Leads(s.journal, [], t.journal) && WellFormed(t)
    ensures var t := BecomeFollower(n, s, term, leaderId).s;
            t.commitment.index == s.commitment.index && t.journal.log == s.journal.log
  {
  }

  lemma AcceptOperates(cfg: Config, n: NodeId, s: NodeState, call: Call, request: Request) returns (ops: seq<Operation>)
    requires WellFormed(s) && request.AppendEntries? && request.prevLogIndex >= -1
    ensures Leads(s.journal, ops, AcceptEntries(cfg, n, s, call, request).s.journal)
    ensures Orderly(ops, s.commitment.index, |s.journal.log|)
  {
    hide Leads, CutConflict, HeldCount, Extend, RunStart;
    var prev := request.prevLogIndex;
    if prev >= |s.journal.log| || (prev >= 0 && s.journal.log[prev].term != request.prevLogTerm) {
      LeadsNowhere(s.journal, s.journal);
      return [];
    }
    ops := CutOperates(s, prev + 1, request.entries);
    var cut := CutConflict(s, prev + 1, request.entries).s;
    if !cut.panicked {
      CutFits(s, prev + 1, request.entries);
      var held := HeldCount(s.journal.log, prev + 1, request.entries);
      var more := ExtendOperates(cfg, n, cut, call, request, held);
      LeadsOn(s.journal, ops, cut.journal, more, Extend(cfg, n, cut, call, request, held).s.journal);
      ops := ops + more;
    }
  }

  lemma CutFits(s: NodeState, from: nat, entries: seq<Entry>)
    requires WellFormed(s) && from <= |s.journal.log| && !CutConflict(s, from, entries).s.panicked
    ensures var held, cut := HeldCount(s.journal.log, from, entries), CutConflict(s, from, entries).s;
            WellFormed(cut) && from + held <= |cut.journal.log| && (held < |entries| ==> from + held == |cut.journal.log|)
  {
  }

  lemma ExtendOperates(cfg: Config, n: NodeId, s: NodeState, call: Call, request: Request, held: nat) returns (ops: seq<Operation>)
    requires WellFormed(s) && request.AppendEntries? && held <= |request.entries|
    requires held < |request.entries| ==> request.prevLogIndex + 1 + held == |s.journal.log|
    requires request.prevLogIndex + 1 + held <= |s.journal.log|
    ensures Leads(s.journal, ops, Extend(cfg, n, s, call, request, held).s.journal) && Appends(ops)
  {
    ops := AppendOperates(cfg, n, s, request.entries[held..]);
    AppendFacts(cfg, n, s, request.entries[held..]);
    hide AppendToLog;
  }

  lemma RequestOperates(cfg: Config, n: NodeId, s: NodeState, call: Call, request: Request, heardRecently: bool) returns (ops: seq<Operation>)
    requires WellFormed(s) && !s.panicked && SensibleRequest(request)
    ensures Leads(s.journal, ops, HandleRequest(cfg, n, s, call, request, heardRecently).s.journal)
    ensures Orderly(ops, s.commitment.index, |s.journal.log|)
  {
    hide Leads, AcceptEntries, BecomeFollower, IsUpToDate, MayVote, HandlePreVote;
    LeadsNowhere(s.journal, s.journal);
    FollowerQuietly(n, s, call.term, None);
    FollowerQuietly(n, s, call.term, Some(call.caller));
    ops := [];
    if request.AppendEntries? && call.term >= s.ballot.term {
      var adopted := AdoptLeader(n, s, call).s;
      ops := AcceptOperates(cfg, n, adopted, call, request);
      LeadsOn(s.journal, [], adopted.journal, ops, AcceptEntries(cfg, n, adopted, call, request).s.journal);
      assert [] + ops == ops;
    }
  }

  lemma LeaderOperates(cfg: Config, n: NodeId, s: NodeState) returns (ops: seq<Operation>)
    requires WellFormed(s)
    ensures Leads(s.journal, ops, BecomeLeader(cfg, n, s).s.journal) && Appends(ops)
  {
    ops := AppendOperates(cfg, n, TakeLeadership(cfg, n, s), [Entry(s.ballot.term, |s.journal.log|, Noop(n))]);
    hide AppendToLog;
  }

  lemma ElectionOperates(cfg: Config, n: NodeId, s: NodeState, ticket: nat) returns (ops: seq<Operation>)
    requires WellFormed(s)
    ensures Leads(s.journal, ops, StartElection(cfg, n, s, ticket).s.journal) && Appends(ops)
  {
    hide Leads, BecomeLeader;
    LeadsNowhere(s.journal, s.journal);
    ops := [];
    if 1 >= QuorumSize(cfg) {
      ops := LeaderOperates(cfg, n, Candidacy(n, s));
    }
  }

  lemma TimeoutOperates(cfg: Config, n: NodeId, s: NodeState, ticket: nat) returns (ops: seq<Operation>)
    requires WellFormed(s)
    ensures Leads(s.journal, ops, StartPreVote(cfg, n, s, ticket).s.journal) && Appends(ops)
  {
    hide Leads, StartElection;
    LeadsNowhere(s.journal, s.journal);
    ops := [];
    if 1 >= QuorumSize(cfg) {
      ops := ElectionOperates(cfg, n, s.(ballot := s.ballot.(preVoteRound := s.ballot.preVoteRound + 1, preVoteGrants := {n})), ticket);
    }
  }

  lemma ResponseOperates(cfg: Config, n: NodeId, s: NodeState, call: Call, response: Response, ticket: nat) returns (ops: seq<Operation>)
    requires WellFormed(s) && call in s.rpcs && SensibleRpc(s.rpcs[call]) && SensibleResponse(response)
    ensures Leads(s.journal, ops, HandleResponse(cfg, n, s, call, response, ticket).s.journal) && Appends(ops)
  {
    hide Leads, StartElection, BecomeLeader, BecomeFollower, AdvanceCommit, EnterProbe, Progress;
    var s1 := s.(rpcs := s.rpcs - {call});
    LeadsNowhere(s.journal, s.journal);
    FollowerQuietly(n, s1, response.term, None);
    ops := [];
    match s.rpcs[call]
    case PreVoteRpc(_) =>
      var s2 := s1.(ballot := s1.ballot.(preVoteGrants := s1.ballot.preVoteGrants + {call.callee}));
      var elected := ElectionOperates(cfg, n, s2, ticket);
      if HandleResponse(cfg, n, s, call, response, ticket) == StartElection(cfg, n, s2, ticket) {
        ops := elected;
      }
    case VoteRpc =>
      var s2 := s1.(ballot := s1.ballot.(votes := s1.ballot.votes + {call.callee}));
      var led := LeaderOperates(cfg, n, s2);
      if HandleResponse(cfg, n, s, call, response, ticket) == BecomeLeader(cfg, n, s2) {
        ops := led;
      }
    case AppendRpc(_, _, _, _) =>
      if response.AppendOk? {
        AdvanceQuietly(cfg, n, s1.(lead := Progress(s1.lead, call.callee, response.matchIndex)));
      }
      ProbeQuietly(s1, call.callee);
    case ReadRpc(_) =>
  }

  lemma ProbeQuietly(s: NodeState, p: NodeId)
    ensures forall next: nat :: EnterProbe(s, p, next).journal == s.journal
  {
  }

  lemma ClientOperates(cfg: Config, n: NodeId, s: NodeState, data: Command, ticket: nat) returns (ops: seq<Operation>)
    requires WellFormed(s)
    ensures Leads(s.journal, ops, ClientAppend(cfg, n, s, data, ticket).s.journal) && Appends(ops)
  {
    hide Leads, DuplicateOf;
    var log := s.journal.log;
    LeadsNowhere(s.journal, s.journal);
    ops := [];
    if DuplicateOf(log, data) == |log| {
      ops := AppendOperates(cfg, n, s, [Entry(s.ballot.term, |log|, data)]);
      hide AppendToLog;
    }
  }

  /** Every step but a crash or a restart does to the log what some store operations do to the store. */
  lemma StepOperates(cfg: Config, n: NodeId, s: NodeState, e: Event, ticket: nat) returns (ops: seq<Operation>)
    requires Enabled(cfg, n, s, e) && !e.CrashAt? && !e.RestartNow?
    ensures Leads(s.journal, ops, NodeStep(cfg, n, s, e, ticket).s.journal)
    ensures Orderly(ops, s.commitment.index, |s.journal.log|)
  {
    hide Leads, StartPreVote, HandleRequest, HandleResponse, FlushLog, AdvanceCommit, ClientAppend, EnterProbe;
    LeadsNowhere(s.journal, s.journal);
    ops := [];
    match e
    case ElectionTimeout => ops := TimeoutOperates(cfg, n, s, ticket);
    case OnRequest(call, request, heardRecently) => ops := RequestOperates(cfg, n, s, call, request, heardRecently);
    case OnResponse(call, response) => ops := ResponseOperates(cfg, n, s, call, response, ticket);
    case OnRpcError(call) => ProbeQuietly(s.(rpcs := s.rpcs - {call}), call.callee);
    case Flush =>
      FlushOperates(cfg, n, s);
      ops := [Sync];
    case Advance => AdvanceQuietly(cfg, n, s);
    case ClientRequest(data) => ops := ClientOperates(cfg, n, s, data, ticket);
    case _ =>
  }

  // ── a crash ───────────────────────────────────────────────────────────────

  /**
   * A crash in the middle of writing the buffer, at any byte, leaves a file whose only reading is the log of
   * one of the crashed states the cluster allows.
   */
  lemma CrashIsTornWrite(cfg: Config, n: NodeId, s: NodeState, codec: LogStore.Codec<Entry>, k: nat)
    returns (kept: nat, rest: seq<LogStore.byte>)
    requires WellFormed(s) && !s.panicked && s.up && LogStore.CodecOk(codec) && LogStore.Indexed(codec, s.journal.log)
    requires k <= |LogStore.EncodeAll(codec, StoreOf(s.journal).pending)|
    ensures Enabled(cfg, n, s, CrashAt(kept))
    ensures var loaded := Crash(s, kept).journal.log;
            LogStore.LoadsAs(codec, LogStore.TornFile(codec, StoreOf(s.journal).entries, StoreOf(s.journal).pending, k),
                             LogStore.Bodies(codec, loaded), rest, loaded)
  {
    hide LogStore.EncodeAll, LogStore.LoadsAs, LogStore.TornFile;
    kept, rest := DurableLog.CrashKeepsDurable(codec, s.journal.log, s.journal.durable, k);
  }
}
