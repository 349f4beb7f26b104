/**
 * What the handlers leave alone: which of them can move the term, whom they answer, and
 * that only the explicit sends touch the table of outstanding calls.
 */
module RaftFrames {
  import opened RaftTypes
  import opened RaftEngine

  function WaiterCalls(waiters: set<DurableWaiter>): set<Call> {
    set w | w in waiters :: w.call
  }

  ghost predicate WaitersSane(waiters: set<DurableWaiter>) {
    forall w :: w in waiters ==> w.response.AppendOk? && w.response.term == w.term
  }

  /** Answers go to the calls allowed, and never carry a term older than the replica's own. */
  ghost predicate AnswersOnly(msgs: set<Message>, calls: set<Call>, term: Term) {
    forall m :: m in msgs ==> m.ClientReply? || (m.Resp? && m.call in calls && m.response.term >= term)
  }

  /** A handler that sends no requests, answering only waiting calls and those in `calls`. */
  ghost predicate Frame(s: NodeState, out: Out, calls: set<Call>) {
    && out.s.rpcs == s.rpcs && out.s.pendingReads == s.pendingReads
    && out.s.ballot.preVoteGrants == s.ballot.preVoteGrants
    && out.s.ballot.preVoteRound >= s.ballot.preVoteRound
    && out.s.ballot.term >= s.ballot.term
    && WaitersSane(out.s.journal.waiters)
    && WaiterCalls(out.s.journal.waiters) <= WaiterCalls(s.journal.waiters) + calls
    && AnswersOnly(out.msgs, WaiterCalls(s.journal.waiters) + calls, s.ballot.term)
  }

  lemma FrameThen(s: NodeState, first: Out, second: Out, a: set<Call>, b: set<Call>)
    requires Frame(s, first, a) && Frame(first.s, second, b)
    ensures Frame(s, Then(first, second), a + b)
  {
  }

  lemma ReleaseFrame(s: NodeState)
    requires WaitersSane(s.journal.waiters)
    ensures Frame(s, ReleaseDurableWaiters(s), {})
    ensures ReleaseDurableWaiters(s).s.ballot == s.ballot
  {
    forall m | m in ReleaseDurableWaiters(s).msgs
      ensures m.Resp? && m.call in WaiterCalls(s.journal.waiters) && m.response.term >= s.ballot.term
    {
      var w :| w in s.journal.waiters && m == ReleasedResponse(s.ballot.term, s.journal, w);
    }
  }

  lemma AdvanceFrame(cfg: Config, n: NodeId, s: NodeState)
    requires WellFormed(s) && WaitersSane(s.journal.waiters)
    ensures var out := AdvanceCommit(cfg, n, s);
            Frame(s, out, {}) && out.s.ballot == s.ballot && out.s.journal == s.journal
  {
  }

  lemma FlushFrame(cfg: Config, n: NodeId, s: NodeState)
    requires WellFormed(s) && WaitersSane(s.journal.waiters)
    ensures Frame(s, FlushLog(cfg, n, s), {}) && FlushLog(cfg, n, s).s.ballot == s.ballot
  {
    var flushed := s.(journal := s.journal.(durable := |s.journal.log|));
    ReleaseFrame(flushed);
    AdvanceFrame(cfg, n, ReleaseDurableWaiters(flushed).s);
    FrameThen(flushed, ReleaseDurableWaiters(flushed), AdvanceCommit(cfg, n, ReleaseDurableWaiters(flushed).s), {}, {});
  }

  lemma AppendFrame(cfg: Config, n: NodeId, s: NodeState, entries: seq<Entry>)
    requires WellFormed(s) && WaitersSane(s.journal.waiters)
    ensures Frame(s, AppendToLog(cfg, n, s, entries), {}) && AppendToLog(cfg, n, s, entries).s.ballot == s.ballot
  {
    if entries != [] {
      FlushFrame(cfg, n, s.(journal := s.journal.(log := s.journal.log + entries)));
    }
  }

  lemma CutFrame(s: NodeState, from: nat, entries: seq<Entry>)
    requires WellFormed(s) && from <= |s.journal.log| && WaitersSane(s.journal.waiters)
    ensures Frame(s, CutConflict(s, from, entries), {}) && CutConflict(s, from, entries).s.ballot == s.ballot
  {
    var k := from + HeldCount(s.journal.log, from, entries);
    if s.commitment.index < k < |s.journal.log| {
      ReleaseFrame(s.(journal := Journal(s.journal.log[..k], k, s.journal.epoch + 1, s.journal.waiters)));
    }
  }

  lemma AcknowledgeFrame(s: NodeState, call: Call, matchIndex: int)
    requires WaitersSane(s.journal.waiters)
    ensures Frame(s, Acknowledge(s, call, matchIndex), {call}) && Acknowledge(s, call, matchIndex).s.ballot == s.ballot
  {
  }

  lemma LearnFrame(s: NodeState, leaderCommit: int, last: int)
    requires WellFormed(s) && last < |s.journal.log|
    ensures var t := LearnCommit(s, leaderCommit, last);
            t.ballot == s.ballot && t.journal == s.journal && t.rpcs == s.rpcs && t.pendingReads == s.pendingReads
  {
  }

  lemma ExtendFrame(cfg: Config, n: NodeId, s: NodeState, call: Call, request: Request, held: nat)
    requires WellFormed(s) && WaitersSane(s.journal.waiters)
    requires request.AppendEntries? && held <= |request.entries|
    requires held < |request.entries| ==> request.prevLogIndex + 1 + held == |s.journal.log|
    requires request.prevLogIndex + 1 + held <= |s.journal.log|
    ensures var out := Extend(cfg, n, s, call, request, held); Frame(s, out, {call}) && out.s.ballot == s.ballot
  {
    hide Frame, LearnCommit, Acknowledge, AppendToLog;
    var appended := AppendToLog(cfg, n, s, request.entries[held..]);
    var last := request.prevLogIndex + |request.entries|;
    AppendFrame(cfg, n, s, request.entries[held..]);
    AppendFacts(cfg, n, s, request.entries[held..]);
    var learned := LearnCommit(appended.s, request.leaderCommit, last);
    LearnFrame(appended.s, request.leaderCommit, last);
    AcknowledgeFrame(learned, call, last);
    FrameThen(s, appended, Acknowledge(learned, call, last), {}, {call});
    assert {} + {call} == {call};
  }

  lemma AcceptFrame(cfg: Config, n: NodeId, s: NodeState, call: Call, request: Request)
    requires WellFormed(s) && WaitersSane(s.journal.waiters) && request.AppendEntries? && request.prevLogIndex >= -1
    ensures var out := AcceptEntries(cfg, n, s, call, request); Frame(s, out, {call}) && out.s.ballot == s.ballot
  {
    hide Extend, CutConflict;
    var prev, log := request.prevLogIndex, s.journal.log;
    if prev < |log| && (prev >= 0 ==> log[prev].term == request.prevLogTerm) {
      var cut := CutConflict(s, prev + 1, request.entries);
      var held := HeldCount(log, prev + 1, request.entries);
      CutFrame(s, prev + 1, request.entries);
      CutShape(s, prev + 1, request.entries);
      if !cut.s.panicked {
        ExtendFrame(cfg, n, cut.s, call, request, held);
        FrameThen(s, cut, Extend(cfg, n, cut.s, call, request, held), {}, {call});
      }
    }
  }

  lemma CutShape(s: NodeState, from: nat, entries: seq<Entry>)
    requires WellFormed(s) && from <= |s.journal.log|
    ensures var t := CutConflict(s, from, entries).s;
            var held := HeldCount(s.journal.log, from, entries);
            !t.panicked ==> WellFormed(t) && from + held <= |t.journal.log| && (held < |entries| ==> from + held == |t.journal.log|)
  {
  }

  lemma BecomeFollowerFrame(n: NodeId, s: NodeState, term: Term, leaderId: Option<NodeId>)
    requires WaitersSane(s.journal.waiters)
    ensures var out := BecomeFollower(n, s, term, leaderId);
            Frame(s, out, {}) && out.s.ballot.term == Max(s.ballot.term, term)
  {
    var stepped := StepDown(n, s, leaderId);
    assert Frame(s, stepped, {});
    FrameThen(s, stepped, AdoptTerm(stepped.s, term), {}, {});
  }

  lemma HandleAppendFrame(cfg: Config, n: NodeId, s: NodeState, call: Call, request: Request)
    requires WellFormed(s) && !s.panicked && WaitersSane(s.journal.waiters)
    requires request.AppendEntries? && request.prevLogIndex >= -1
    ensures var out := HandleAppendEntries(cfg, n, s, call, request);
            Frame(s, out, {call}) && out.s.ballot.term == Max(s.ballot.term, call.term)
  {
    if call.term >= s.ballot.term {
      hide Frame, AdoptLeader, AcceptEntries;
      var adopted := AdoptLeader(n, s, call);
      AcceptFrame(cfg, n, adopted.s, call, request);
      FrameThen(s, adopted, AcceptEntries(cfg, n, adopted.s, call, request), {}, {call});
      assert {} + {call} == {call};
    }
  }

  lemma HandleVoteFrame(n: NodeId, s: NodeState, call: Call, request: Request, heardRecently: bool)
    requires WaitersSane(s.journal.waiters) && request.RequestVote?
    ensures var out := HandleRequestVote(n, s, call, request, heardRecently);
            Frame(s, out, {call}) && (out.s.ballot.term == s.ballot.term || out.s.ballot.term == call.term)
  {
    hide BecomeFollower, IsUpToDate;
    if call.term >= s.ballot.term && !(s.ballot.leaderId.Some? && heardRecently) {
      var adopted := if call.term > s.ballot.term then BecomeFollower(n, s, call.term, None) else Out(s, {});
      BecomeFollowerFrame(n, s, call.term, None);
      var granted := MayVote(adopted.s, call.caller, request.lastLogIndex, request.lastLogTerm);
      var voted := Out(if granted then CastVote(adopted.s, call.caller) else adopted.s,
                       {Resp(call, VoteResult(adopted.s.ballot.term, granted))});
      assert Frame(adopted.s, voted, {call});
      FrameThen(s, adopted, voted, {}, {call});
      assert {} + {call} == {call};
    }
  }

  lemma BecomeLeaderFrame(cfg: Config, n: NodeId, s: NodeState)
    requires WellFormed(s) && WaitersSane(s.journal.waiters)
    ensures var out := BecomeLeader(cfg, n, s);
            Frame(s, out, {}) && out.s.ballot.term == s.ballot.term && out.s.ballot.role == Leader
  {
    AppendFrame(cfg, n, TakeLeadership(cfg, n, s), [Entry(s.ballot.term, |s.journal.log|, Noop(n))]);
  }
}
