/**
 * Stop-and-wait log repair within one leadership: how many attempts a leader needs before a follower
 * accepts. The follower may hold unflushed entries and owe answers to earlier requests, and the
 * leader's log may grow during every attempt.
 */
module RaftRepair {
  import opened RaftTypes
  import opened RaftEngine
  import opened RaftHistory
  import opened RaftCluster
  import opened RaftFrames
  import opened RaftInvariant
  import opened RaftSafety
  import opened RaftTheorems
  import RaftCommits
  import RaftReads

  /** Log Matching between two logs. */
  ghost predicate Matching(a: seq<Entry>, b: seq<Entry>) {
    forall i :: 0 <= i < |a| && i < |b| && a[i].term == b[i].term ==> Agree(a, b, i + 1)
  }

  /** Entries of the leader's own term were never anywhere before they were in its log. */
  ghost predicate OwnEntries(log: seq<Entry>, term: Term, leaderLog: seq<Entry>) {
    forall i :: |leaderLog| <= i < |log| ==> log[i].term != term
  }

  /** A replica that will answer in the leader's term. */
  ghost predicate Repairable(f: NodeState, term: Term, leaderLog: seq<Entry>) {
    && WellFormed(f) && !f.panicked && f.ballot.term <= term && (f.ballot.role == Leader ==> f.ballot.term < term)
    && Matching(f.journal.log, leaderLog) && Agree(f.journal.log, leaderLog, f.commitment.index + 1)
    && OwnEntries(f.journal.log, term, leaderLog)
  }

  /** Whatever answers the follower still owes are to earlier requests. */
  ghost predicate OwesEarlier(f: NodeState, number: nat) {
    forall w :: w in f.journal.waiters ==> w.call.number < number
  }

  predicate Consistent(log: seq<Entry>, leaderLog: seq<Entry>, next: nat)
    requires next <= |leaderLog|
  {
    next == 0 || (next - 1 < |log| && log[next - 1].term == leaderLog[next - 1].term)
  }

  /** The log after the leader's entries from `next` on have been merged into it. */
  function Merged(log: seq<Entry>, from: nat, entries: seq<Entry>): seq<Entry>
    requires from <= |log|
  {
    var held := HeldCount(log, from, entries);
    if held == |entries| then log else log[..from + held] + entries[held..]
  }

  lemma HeldAgrees(log: seq<Entry>, leaderLog: seq<Entry>, next: nat, count: nat)
    requires Matching(log, leaderLog) && next + count <= |leaderLog| && next <= |log| && Consistent(log, leaderLog, next)
    ensures Agree(log, leaderLog, next + HeldCount(log, next, leaderLog[next..next + count]))
  {
    var entries := leaderLog[next..next + count];
    var held := HeldCount(log, next, entries);
    if held > 0 {
      assert log[next + (held - 1)].term == entries[held - 1].term;
      assert entries[held - 1] == leaderLog[next + held - 1];
    } else if next > 0 {
      assert Agree(log, leaderLog, next);
    }
  }

  lemma MergedIs(log: seq<Entry>, leaderLog: seq<Entry>, next: nat, count: nat)
    requires next + count <= |leaderLog| && next <= |log|
    requires var held := HeldCount(log, next, leaderLog[next..next + count]); held < count && Agree(log, leaderLog, next + held)
    ensures Merged(log, next, leaderLog[next..next + count]) == leaderLog[..next + count]
  {
    hide HeldCount;
    var entries := leaderLog[next..next + count];
    var at := next + HeldCount(log, next, entries);
    assert log[..at] == leaderLog[..at];
    assert entries[at - next..] == leaderLog[at..next + count];
  }

  /** Merging a consistent piece makes the log agree through it, keeps Log Matching, and drops nothing that agreed. */
  lemma MergedAgrees(log: seq<Entry>, leaderLog: seq<Entry>, next: nat, count: nat, k: nat)
    requires Matching(log, leaderLog) && next + count <= |leaderLog| && next <= |log| && Consistent(log, leaderLog, next)
    requires Agree(log, leaderLog, k)
    ensures var merged := Merged(log, next, leaderLog[next..next + count]);
            Agree(merged, leaderLog, next + count) && Matching(merged, leaderLog) && Agree(merged, leaderLog, k)
  {
    hide HeldCount, Matching, Agree, Consistent;
    var entries := leaderLog[next..next + count];
    HeldAgrees(log, leaderLog, next, count);
    if HeldCount(log, next, entries) < |entries| {
      hide Merged;
      MergedIs(log, leaderLog, next, count);
      HeldCoversAgreement(log, leaderLog, next, count, k);
      PrefixMatches(leaderLog, next + count);
    }
  }

  lemma HeldCoversAgreement(log: seq<Entry>, leaderLog: seq<Entry>, next: nat, count: nat, k: nat)
    requires next + count <= |leaderLog| && next <= |log| && Agree(log, leaderLog, k)
    ensures var entries := leaderLog[next..next + count];
            var held := HeldCount(log, next, entries);
            held < |entries| ==> k <= next + held
  {
    var entries := leaderLog[next..next + count];
    var held := HeldCount(log, next, entries);
    assert held < |entries| ==> entries[held] == leaderLog[next + held];
  }

  lemma PrefixMatches(log: seq<Entry>, m: nat)
    requires m <= |log|
    ensures Matching(log[..m], log) && forall j: nat :: j <= m ==> Agree(log[..m], log, j)
  {
    forall j: nat | j <= m ensures Agree(log[..m], log, j) {
      assert log[..m][..j] == log[..j];
    }
  }

  // ── one attempt ───────────────────────────────────────────────────────────

  /** The follower's answers other than those to requests numbered from `number` on. */
  ghost predicate ToEarlier(msgs: set<Message>, number: nat) {
    forall m :: m in msgs && m.Resp? ==> m.call.number < number
  }

  lemma ReleasedIsEarlier(s: NodeState, number: nat)
    requires OwesEarlier(s, number)
    ensures var out := ReleaseDurableWaiters(s);
            && out.s == s.(journal := out.s.journal) && out.s.journal == s.journal.(waiters := out.s.journal.waiters)
            && OwesEarlier(out.s, number) && ToEarlier(out.msgs, number)
  {
  }

  /** A flush by a replica that does not lead changes nothing but what is durable. */
  lemma FlushedQuietly(cfg: Config, n: NodeId, s: NodeState, number: nat)
    requires WellFormed(s) && s.ballot.role != Leader && OwesEarlier(s, number)
    ensures var out := FlushLog(cfg, n, s);
            && out.s == s.(journal := out.s.journal) && out.s.journal.log == s.journal.log
            && out.s.journal.epoch == s.journal.epoch && out.s.journal.durable == |s.journal.log|
            && OwesEarlier(out.s, number) && ToEarlier(out.msgs, number) && WellFormed(out.s)
  {
    ReleasedIsEarlier(s.(journal := s.journal.(durable := |s.journal.log|)), number);
  }

  lemma AppendedQuietly(cfg: Config, n: NodeId, s: NodeState, entries: seq<Entry>, number: nat)
    requires WellFormed(s) && s.ballot.role != Leader && OwesEarlier(s, number)
    ensures var out := AppendToLog(cfg, n, s, entries);
            && out.s == s.(journal := out.s.journal) && out.s.journal.log == s.journal.log + entries
            && out.s.journal.epoch == s.journal.epoch
            && OwesEarlier(out.s, number) && ToEarlier(out.msgs, number) && WellFormed(out.s)
  {
    hide FlushLog;
    if entries == [] {
      assert s.journal.log + entries == s.journal.log;
    } else {
      FlushedQuietly(cfg, n, s.(journal := s.journal.(log := s.journal.log + entries)), number);
    }
  }

  lemma CutQuietly(s: NodeState, from: nat, entries: seq<Entry>, number: nat)
    requires WellFormed(s) && from <= |s.journal.log| && OwesEarlier(s, number)
    requires s.commitment.index < from + HeldCount(s.journal.log, from, entries)
      || HeldCount(s.journal.log, from, entries) == |entries|
    ensures var held, out := HeldCount(s.journal.log, from, entries), CutConflict(s, from, entries);
            && out.s == s.(journal := out.s.journal) && WellFormed(out.s)
            && OwesEarlier(out.s, number) && ToEarlier(out.msgs, number)
            && out.s.journal.log == if held == |entries| then s.journal.log else s.journal.log[..from + held]
  {
    var held := HeldCount(s.journal.log, from, entries);
    if held < |entries| && from + held < |s.journal.log| {
      ReleasedIsEarlier(s.(journal := Journal(s.journal.log[..from + held], from + held, s.journal.epoch + 1, s.journal.waiters)),
                        number);
    } else if held < |entries| {
      assert s.journal.log[..from + held] == s.journal.log;
    }
  }

  lemma AdoptedQuietly(p: NodeId, f: NodeState, call: Call, number: nat)
    requires WellFormed(f) && f.ballot.term <= call.term && OwesEarlier(f, number)
    ensures var out := AdoptLeader(p, f, call);
            && WellFormed(out.s) && out.s.panicked == f.panicked && out.s.ballot.role == Follower && out.s.ballot.term == call.term
            && out.s.journal.log == f.journal.log && out.s.commitment.index == f.commitment.index
            && OwesEarlier(out.s, number) && ToEarlier(out.msgs, number)
  {
    var stepped := StepDown(p, f, Some(call.caller)).s;
    var persisted := Persist(stepped.(ballot := stepped.ballot.(term := call.term, votedFor := None)));
    ReleasedIsEarlier(persisted, number);
  }

  /**
   * The answer to one attempt: what the handler sends at once, or what it sends when the follower's next
   * flush makes the acknowledged entries durable.
   */
  function Settle(cfg: Config, p: NodeId, handled: Out, call: Call): Out
    requires WellFormed(handled.s)
  {
    if exists w :: w in handled.s.journal.waiters && w.call == call
    then Then(handled, FlushLog(cfg, p, handled.s))
    else handled
  }

  /** The one answer to this call: everything it acknowledges is durable, and no later answer is owed. */
  ghost predicate Answers(out: Out, call: Call, response: Response) {
    && Resp(call, response) in out.msgs
    && (forall m :: m in out.msgs && m.Resp? ==> m == Resp(call, response) || m.call.number < call.number)
    && OwesEarlier(out.s, call.number)
    && (response.AppendOk? ==> response.matchIndex < out.s.journal.durable)
  }

  lemma ReleasedLast(s: NodeState, w: DurableWaiter)
    requires w in s.journal.waiters && IsCurrent(s.ballot.term, s.journal, w) && w.need <= s.journal.durable
    requires forall v :: v in s.journal.waiters ==> v == w || v.call.number < w.call.number
    ensures var out := ReleaseDurableWaiters(s);
            && Resp(w.call, w.response) in out.msgs && OwesEarlier(out.s, w.call.number)
            && forall m :: m in out.msgs && m.Resp? ==> m == Resp(w.call, w.response) || m.call.number < w.call.number
  {
    assert w in Releasable(s.ballot.term, s.journal);
  }

  /** A success is answered once, at once or by the next flush. */
  lemma Acknowledged(cfg: Config, p: NodeId, s: NodeState, call: Call, matchIndex: int)
    requires WellFormed(s) && -1 <= matchIndex < |s.journal.log| && s.ballot.role != Leader && OwesEarlier(s, call.number)
    ensures var out := Acknowledge(s, call, matchIndex);
            && WellFormed(out.s)
            && var settled := Settle(cfg, p, out, call);
            && settled.s == s.(journal := settled.s.journal) && settled.s.journal.log == s.journal.log && WellFormed(settled.s)
            && Answers(settled, call, AppendOk(s.ballot.term, matchIndex, |s.journal.log|))
  {
    var out := Acknowledge(s, call, matchIndex);
    if matchIndex >= s.journal.durable {
      var response := AppendOk(s.ballot.term, matchIndex, |s.journal.log|);
      var w := DurableWaiter(call, matchIndex + 1, s.ballot.term, s.journal.epoch, response);
      assert w in out.s.journal.waiters;
      ReleasedLast(out.s.(journal := out.s.journal.(durable := |s.journal.log|)), w);
    }
  }

  /** What was sent before the answer was owed to earlier requests. */
  lemma SettledAfter(cfg: Config, p: NodeId, first: Out, second: Out, call: Call, response: Response)
    requires WellFormed(second.s) && ToEarlier(first.msgs, call.number) && Answers(Settle(cfg, p, second, call), call, response)
    ensures var settled := Settle(cfg, p, Then(first, second), call);
            settled.s == Settle(cfg, p, second, call).s && Answers(settled, call, response)
  {
    hide FlushLog;
  }

  lemma MergedOwn(log: seq<Entry>, leaderLog: seq<Entry>, next: nat, count: nat, term: Term)
    requires Matching(log, leaderLog) && next + count <= |leaderLog| && next <= |log| && Consistent(log, leaderLog, next)
    requires OwnEntries(log, term, leaderLog)
    ensures OwnEntries(Merged(log, next, leaderLog[next..next + count]), term, leaderLog)
  {
    HeldAgrees(log, leaderLog, next, count);
    if HeldCount(log, next, leaderLog[next..next + count]) < count {
      MergedIs(log, leaderLog, next, count);
    }
  }

  lemma ConsistentAt(log: seq<Entry>, leaderLog: seq<Entry>, next: nat)
    requires next <= |leaderLog| && Consistent(log, leaderLog, next)
    ensures next <= |log| && (next > 0 ==> log[next - 1].term == leaderLog[next - 1].term)
  {
  }

  lemma LearnedAgrees(s: NodeState, leaderLog: seq<Entry>, commit: int, k: nat)
    requires WellFormed(s) && k <= |s.journal.log|
    requires Agree(s.journal.log, leaderLog, k) && Agree(s.journal.log, leaderLog, s.commitment.index + 1)
    ensures var t := LearnCommit(s, commit, k - 1);
            t == s.(commitment := t.commitment) && WellFormed(t) && Agree(t.journal.log, leaderLog, t.commitment.index + 1)
  {
    if commit > s.commitment.index && Min(commit, k - 1) > s.commitment.index {
      AgreeShorter(s.journal.log, leaderLog, k, Min(commit, k - 1) + 1);
    }
  }

  /** What merging leaves: the log is `log`, everything else is the follower's, and the answer is a success. */
  ghost predicate Merges(f: NodeState, log: seq<Entry>, leaderLog: seq<Entry>, matchIndex: int, out: Out, call: Call) {
    && out.s == f.(journal := out.s.journal, commitment := out.s.commitment) && WellFormed(out.s)
    && out.s.journal.log == log && Agree(log, leaderLog, out.s.commitment.index + 1)
    && Answers(out, call, AppendOk(f.ballot.term, matchIndex, |log|))
  }

  lemma Extended(cfg: Config, p: NodeId, s: NodeState, call: Call, request: Request, held: nat, leaderLog: seq<Entry>)
    requires WellFormed(s) && s.ballot.role != Leader && OwesEarlier(s, call.number)
    requires request.AppendEntries? && request.prevLogIndex >= -1 && held <= |request.entries|
    requires held < |request.entries| ==> request.prevLogIndex + 1 + held == |s.journal.log|
    requires request.prevLogIndex + 1 + held <= |s.journal.log|
    requires var log, k := s.journal.log + request.entries[held..], request.prevLogIndex + 1 + |request.entries|;
             Agree(log, leaderLog, k) && Agree(log, leaderLog, s.commitment.index + 1)
    ensures var out := Extend(cfg, p, s, call, request, held);
            && WellFormed(out.s)
            && Merges(s, s.journal.log + request.entries[held..], leaderLog, request.prevLogIndex + |request.entries|,
                      Settle(cfg, p, out, call), call)
  {
    hide AppendToLog, Agree, Acknowledge, LearnCommit, Settle, Answers, ToEarlier;
    var lastVerified := request.prevLogIndex + |request.entries|;
    AppendedQuietly(cfg, p, s, request.entries[held..], call.number);
    var appended := AppendToLog(cfg, p, s, request.entries[held..]);
    LearnedAgrees(appended.s, leaderLog, request.leaderCommit, lastVerified + 1);
    var learned := LearnCommit(appended.s, request.leaderCommit, lastVerified);
    Acknowledged(cfg, p, learned, call, lastVerified);
    SettledAfter(cfg, p, appended, Acknowledge(learned, call, lastVerified), call,
                 AppendOk(s.ballot.term, lastVerified, |learned.journal.log|));
  }

  /** A consistent request is merged and acknowledged; committed entries are never in the way. */
  lemma Accepted(cfg: Config, p: NodeId, f: NodeState, call: Call, leaderLog: seq<Entry>, commit: int, next: nat, count: nat)
    requires Repairable(f, f.ballot.term, leaderLog) && OwesEarlier(f, call.number)
    requires next + count <= |leaderLog| && next <= |f.journal.log| && Consistent(f.journal.log, leaderLog, next)
    ensures var out := AcceptEntries(cfg, p, f, call, AppendRequest(leaderLog, commit, next, count));
            && WellFormed(out.s)
            && Merges(f, Merged(f.journal.log, next, leaderLog[next..next + count]), leaderLog, next + count - 1,
                      Settle(cfg, p, out, call), call)
  {
    hide HeldCount, Matching, Agree, LearnCommit, Consistent, CutConflict, AppendToLog, Acknowledge, Extend, Settle, Answers,
         OwesEarlier, ToEarlier, OwnEntries;
    var entries, log, request := leaderLog[next..next + count], f.journal.log, AppendRequest(leaderLog, commit, next, count);
    var held := HeldCount(log, next, entries);
    HeldCoversAgreement(log, leaderLog, next, count, f.commitment.index + 1);
    CutQuietly(f, next, entries, call.number);
    MergedAgrees(log, leaderLog, next, count, f.commitment.index + 1);
    var cut := CutConflict(f, next, entries);
    ConsistentAt(log, leaderLog, next);
    assert cut.s.journal.log + entries[held..] == Merged(log, next, entries);
    Extended(cfg, p, cut.s, call, request, held, leaderLog);
    SettledAfter(cfg, p, cut, Extend(cfg, p, cut.s, call, request, held), call,
                 AppendOk(f.ballot.term, next + count - 1, |Merged(log, next, entries)|));
  }

  /** An inconsistent request is answered with a hint strictly below it, and changes no log. */
  lemma Rejected(cfg: Config, p: NodeId, f: NodeState, call: Call, leaderLog: seq<Entry>, commit: int, next: nat, count: nat)
    requires WellFormed(f) && OwesEarlier(f, call.number)
    requires next + count <= |leaderLog| && !Consistent(f.journal.log, leaderLog, next)
    ensures var out := AcceptEntries(cfg, p, f, call, AppendRequest(leaderLog, commit, next, count));
            && out.s == f && Settle(cfg, p, out, call) == out
            && exists hint: nat :: hint < next && Answers(out, call, AppendRejected(f.ballot.term, hint, |f.journal.log|))
  {
    var log := f.journal.log;
    var hint := if next - 1 < |log| then RunStart(log, next - 1) else |log|;
    var out := AcceptEntries(cfg, p, f, call, AppendRequest(leaderLog, commit, next, count));
    assert Answers(out, call, AppendRejected(f.ballot.term, hint, |log|));
  }

  /** The answer to one attempt: a success through the whole request, or a smaller hint. */
  ghost predicate Answered(term: Term, next: nat, count: nat, response: Response) {
    || (response.AppendOk? && response.term == term && response.matchIndex == next + count - 1)
    || (response.AppendRejected? && response.term == term && response.conflictIndex < next)
  }

  /** One attempt of a leader of this term against a repairable follower. */
  ghost predicate Attempted(f: NodeState, leaderLog: seq<Entry>, next: nat, count: nat, out: Out, call: Call, response: Response) {
    && Repairable(out.s, call.term, leaderLog) && out.s.ballot.role != Leader
    && Answered(call.term, next, count, response) && Answers(out, call, response)
    && (response.AppendOk? ==> Agree(out.s.journal.log, leaderLog, next + count))
    && (response.AppendRejected? ==> out.s.journal.log == f.journal.log)
  }

  lemma OneAttempt(cfg: Config, p: NodeId, f: NodeState, call: Call, leaderLog: seq<Entry>, commit: int, next: nat, count: nat)
    returns (response: Response)
    requires Repairable(f, call.term, leaderLog) && OwesEarlier(f, call.number) && next + count <= |leaderLog|
    ensures var handled := HandleAppendEntries(cfg, p, f, call, AppendRequest(leaderLog, commit, next, count));
            && WellFormed(handled.s)
            && Attempted(f, leaderLog, next, count, Settle(cfg, p, handled, call), call, response)
  {
    hide Matching, Agree, AcceptEntries, AdoptLeader, Consistent, Settle, Answers, OwesEarlier, ToEarlier, OwnEntries;
    AdoptedQuietly(p, f, call, call.number);
    var adopted := AdoptLeader(p, f, call);
    var request := AppendRequest(leaderLog, commit, next, count);
    var accepted := AcceptEntries(cfg, p, adopted.s, call, request);
    var log := f.journal.log;
    if Consistent(log, leaderLog, next) {
      ConsistentAt(log, leaderLog, next);
      Accepted(cfg, p, adopted.s, call, leaderLog, commit, next, count);
      MergedAgrees(log, leaderLog, next, count, f.commitment.index + 1);
      MergedOwn(log, leaderLog, next, count, call.term);
      response := AppendOk(call.term, next + count - 1, |Merged(log, next, leaderLog[next..next + count])|);
    } else {
      Rejected(cfg, p, adopted.s, call, leaderLog, commit, next, count);
      var hint: nat :| hint < next && Answers(accepted, call, AppendRejected(call.term, hint, |log|));
      response := AppendRejected(call.term, hint, |log|);
    }
    SettledAfter(cfg, p, adopted, accepted, call, response);
  }

  // ── the loop ──────────────────────────────────────────────────────────────

  /** What happens while an answer is awaited: the leader appends and commits, and the follower may flush. */
  datatype Interlude = Interlude(appended: seq<Entry>, commit: int, flushed: bool)

  /** The leader's log once `attempts` answers have come. */
  function LogAfter(log: seq<Entry>, meanwhile: nat -> Interlude, attempts: nat): seq<Entry> {
    if attempts == 0 then log else LogAfter(log, meanwhile, attempts - 1) + meanwhile(attempts - 1).appended
  }

  /** A leader appends entries of its own term only. */
  ghost predicate OwnTerm(meanwhile: nat -> Interlude, term: Term) {
    forall i: nat, k: nat :: k < |meanwhile(i).appended| ==> meanwhile(i).appended[k].term == term
  }

  lemma GrownMatches(f: NodeState, term: Term, leaderLog: seq<Entry>, more: seq<Entry>)
    requires Repairable(f, term, leaderLog) && forall k :: 0 <= k < |more| ==> more[k].term == term
    ensures Repairable(f, term, leaderLog + more)
  {
    var log, grown := f.journal.log, leaderLog + more;
    GrownAgrees(log, leaderLog, more, f.commitment.index + 1);
    forall i | 0 <= i < |log| && i < |grown| && log[i].term == grown[i].term ensures Agree(log, grown, i + 1) {
      if i < |leaderLog| {
        GrownAgrees(log, leaderLog, more, i + 1);
      }
    }
  }

  lemma GrownAgrees(log: seq<Entry>, leaderLog: seq<Entry>, more: seq<Entry>, k: nat)
    requires Agree(log, leaderLog, k)
    ensures Agree(log, leaderLog + more, k)
  {
    assert (leaderLog + more)[..k] == leaderLog[..k];
  }

  /** Posts one request and takes its answer; `count` entries, as many as the profile's batch allows. */
  method Post(cfg: Config, p: NodeId, call: Call, leaderLog: seq<Entry>, commit: int, next: nat, count: nat, follower: NodeState)
    returns (response: Response, after: NodeState)
    requires Repairable(follower, call.term, leaderLog) && OwesEarlier(follower, call.number) && next + count <= |leaderLog|
    ensures Repairable(after, call.term, leaderLog) && OwesEarlier(after, call.number) && after.ballot.role != Leader
    ensures Answered(call.term, next, count, response)
    ensures response.AppendOk? ==> response.matchIndex < after.journal.durable && Agree(after.journal.log, leaderLog, next + count)
  {
    hide Repairable, Agree, HandleAppendEntries, Settle, Answers, OwesEarlier;
    ghost var expected := OneAttempt(cfg, p, follower, call, leaderLog, commit, next, count);
    Reachable(follower, call.term, leaderLog);
    var handled := HandleAppendEntries(cfg, p, follower, call, AppendRequest(leaderLog, commit, next, count));
    var out := Settle(cfg, p, handled, call);
    TheAnswer(out, call, expected);
    var m :| m in out.msgs && m.Resp? && m.call == call;
    return m.response, out.s;
  }

  /**
   * Repairs one follower, one request at a time, while the leader's log may grow. It always succeeds within
   * the attempts the code allows itself when it starts; what the follower acknowledges is durable there and
   * equal to the leader's log.
   */
  method ReplicateToPeer(cfg: Config, n: NodeId, p: NodeId, term: Term, log: seq<Entry>, commit: int, nextIndex: nat,
                         follower: NodeState, ticket: nat, meanwhile: nat -> Interlude)
    returns (success: bool, attempts: nat, leaderLog: seq<Entry>, repaired: NodeState, acknowledged: int)
    requires Repairable(follower, term, log) && OwesEarlier(follower, ticket) && OwnTerm(meanwhile, term)
    ensures success && 1 <= attempts <= Max(2, |log| + 1) && leaderLog == LogAfter(log, meanwhile, attempts)
    ensures Repairable(repaired, term, leaderLog)
    ensures -1 <= acknowledged < repaired.journal.durable && Agree(repaired.journal.log, leaderLog, acknowledged + 1)
  {
    hide Repairable, Agree, FlushLog, OwesEarlier, OwnTerm, Matching;
    var maxAttempts := Max(2, |log| + 1);
    var next: int, leaderCommit := nextIndex, commit;
    success, attempts, leaderLog, repaired, acknowledged := false, 0, log, follower, -1;
    while attempts < maxAttempts
      invariant attempts <= maxAttempts && !success && leaderLog == LogAfter(log, meanwhile, attempts)
      invariant 0 <= next && |log| <= |leaderLog| && Min(next, |leaderLog|) + attempts <= |log|
      invariant Repairable(repaired, term, leaderLog) && OwesEarlier(repaired, ticket + attempts)
    {
      next := Min(next, |leaderLog|);
      var count: nat :| count <= |leaderLog| - next && (count == 0 <==> next == |leaderLog|);
      var call := Call(ticket + attempts, n, p, term);
      var response, after := Post(cfg, p, call, leaderLog, leaderCommit, next, count, repaired);
      var interlude := meanwhile(attempts);
      OwnTermAt(meanwhile, term, attempts);
      GrownMatches(after, term, leaderLog, interlude.appended);
      attempts, repaired := attempts + 1, after;
      if response.AppendOk? {
        GrownAgrees(repaired.journal.log, leaderLog, interlude.appended, next + count);
        return true, attempts, leaderLog + interlude.appended, repaired, response.matchIndex;
      }
      leaderLog, leaderCommit := leaderLog + interlude.appended, interlude.commit;
      next := Max(0, if response.conflictIndex >= next then next - 1 else response.conflictIndex);
      if interlude.flushed {
        FlushedRepairable(cfg, p, repaired, term, leaderLog, call.number);
        repaired := FlushLog(cfg, p, repaired).s;
      }
      OwesLater(repaired, call.number);
    }
  }

  lemma Reachable(f: NodeState, term: Term, leaderLog: seq<Entry>)
    requires Repairable(f, term, leaderLog)
    ensures WellFormed(f) && !f.panicked && f.ballot.term <= term
  {
  }

  lemma TheAnswer(out: Out, call: Call, response: Response)
    requires Answers(out, call, response)
    ensures Resp(call, response) in out.msgs && OwesEarlier(out.s, call.number)
    ensures forall m :: m in out.msgs && m.Resp? && m.call == call ==> m.response == response
    ensures response.AppendOk? ==> response.matchIndex < out.s.journal.durable
  {
  }

  lemma OwnTermAt(meanwhile: nat -> Interlude, term: Term, i: nat)
    requires OwnTerm(meanwhile, term)
    ensures forall k :: 0 <= k < |meanwhile(i).appended| ==> meanwhile(i).appended[k].term == term
  {
  }

  lemma OwesLater(f: NodeState, number: nat)
    requires OwesEarlier(f, number)
    ensures OwesEarlier(f, number + 1)
  {
  }

  lemma FlushedRepairable(cfg: Config, p: NodeId, f: NodeState, term: Term, leaderLog: seq<Entry>, number: nat)
    requires Repairable(f, term, leaderLog) && f.ballot.role != Leader && OwesEarlier(f, number)
    ensures WellFormed(f)
    ensures var t := FlushLog(cfg, p, f).s; Repairable(t, term, leaderLog) && OwesEarlier(t, number)
  {
    hide FlushLog, Matching, Agree, OwnEntries;
    FlushedQuietly(cfg, p, f, number);
  }

  // ── every follower is repairable ──────────────────────────────────────────

  lemma OwnEntriesOf(cfg: Config, h: History, n: NodeId, leader: NodeState, p: NodeId, f: NodeState)
    requires NodeOk(cfg, h, n, leader) && leader.ballot.role == Leader && NodeOk(cfg, h, p, f)
    ensures OwnEntries(f.journal.log, leader.ballot.term, leader.journal.log)
  {
    NodeFacts(cfg, h, n, leader);
    NodeFacts(cfg, h, p, f);
    forall i | |leader.journal.log| <= i < |f.journal.log| ensures f.journal.log[i].term != leader.ballot.term {
      assert EntryKnown(h, f.journal.log, i);
    }
  }

  /** An entry this replica applied, in another log. */
  ghost predicate HeldAt(applied: seq<Entry>, log: seq<Entry>, k: nat) {
    k < |applied| && k < |log| && applied[k] == log[k]
  }

  lemma AppliedAgrees(f: NodeState, leaderLog: seq<Entry>)
    requires WellFormed(f) && f.commitment.applied == f.journal.log[..f.commitment.index + 1]
    requires forall k: nat :: k < |f.commitment.applied| ==> HeldAt(f.commitment.applied, leaderLog, k)
    ensures Agree(f.journal.log, leaderLog, f.commitment.index + 1)
  {
    var k := f.commitment.index + 1;
    assert k > 0 ==> HeldAt(f.commitment.applied, leaderLog, k - 1);
    assert |leaderLog[..k]| == |f.commitment.applied|;
    forall j: nat | j < k ensures leaderLog[..k][j] == f.commitment.applied[j] {
      assert HeldAt(f.commitment.applied, leaderLog, j);
    }
    assert leaderLog[..k] == f.commitment.applied;
  }

  lemma LeaderHolds(cfg: Config, run: Run, i: nat, n: NodeId, p: NodeId)
    requires IsRun(cfg, run) && At(run, i, n) && At(run, i, p)
    requires NodeAt(run, i, n).ballot.role == Leader && NodeAt(run, i, p).ballot.term <= NodeAt(run, i, n).ballot.term
    ensures var applied, log := NodeAt(run, i, p).commitment.applied, NodeAt(run, i, n).journal.log;
            forall k: nat :: k < |applied| ==> HeldAt(applied, log, k)
  {
    hide IsRun;
    var applied, log := NodeAt(run, i, p).commitment.applied, NodeAt(run, i, n).journal.log;
    forall k: nat | k < |applied| ensures HeldAt(applied, log, k) {
      RaftCommits.LeadersHoldApplied(cfg, run, i, p, k, i, n);
    }
  }

  /** At every moment of every run, a leader can repair each other replica that is not in a later term. */
  lemma RunsAreRepairable(cfg: Config, run: Run, i: nat, n: NodeId, p: NodeId)
    requires IsRun(cfg, run) && At(run, i, n) && At(run, i, p) && n != p
    requires NodeAt(run, i, n).ballot.role == Leader && NodeAt(run, i, p).ballot.term <= NodeAt(run, i, n).ballot.term
    ensures Repairable(NodeAt(run, i, p), NodeAt(run, i, n).ballot.term, NodeAt(run, i, n).journal.log)
    ensures OwesEarlier(NodeAt(run, i, p), run.states[i].ticket)
  {
    hide IsRun, ClusterOk, NodeOk, HistoryOk, RaftReads.NetNumbers, Matching, OwnEntries;
    var leader, f := NodeAt(run, i, n), NodeAt(run, i, p);
    var h, _ := HistoriesOf(cfg, run, i, i);
    NodeAtOk(cfg, h, run, i, n);
    NodeAtOk(cfg, h, run, i, p);
    OwnEntriesOf(cfg, h, n, leader, p, f);
    AppliedIsLog(cfg, h, p, f);
    if f.ballot.role == Leader && f.ballot.term == leader.ballot.term {
      ElectionSafety(cfg, run, i, i, n, p);
    }
    LeaderHolds(cfg, run, i, n, p);
    AppliedAgrees(f, leader.journal.log);
    LogsMatch(cfg, run, i, n, p);
    RaftReads.AlwaysNumbered(cfg, run, i, p);
    forall w | w in f.journal.waiters ensures w.call.number < run.states[i].ticket {
      assert w.call in WaiterCalls(f.journal.waiters);
    }
  }

  lemma LogsMatch(cfg: Config, run: Run, i: nat, n: NodeId, p: NodeId)
    requires IsRun(cfg, run) && At(run, i, n) && At(run, i, p)
    ensures Matching(NodeAt(run, i, p).journal.log, NodeAt(run, i, n).journal.log)
  {
    hide IsRun, Agree;
    var a, b := NodeAt(run, i, p).journal.log, NodeAt(run, i, n).journal.log;
    forall k: nat | k < |a| && k < |b| && a[k].term == b[k].term ensures Agree(a, b, k + 1) {
      LogMatching(cfg, run, i, i, p, n, k);
    }
  }

  lemma AppliedIsLog(cfg: Config, h: History, p: NodeId, f: NodeState)
    requires NodeOk(cfg, h, p, f)
    ensures WellFormed(f) && !f.panicked && f.commitment.applied == f.journal.log[..f.commitment.index + 1]
  {
  }
}
