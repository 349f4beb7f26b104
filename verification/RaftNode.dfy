/**
 * One Raft replica as an object whose handlers update its fields in place. Every handler is
 * proved to compute the function of RaftEngine that the protocol proofs are about. What a
 * handler sends or resolves is returned as a set of messages.
 *
 * `votes` and `granted` are plain counters, incremented by each positive answer. They equal the number of
 * distinct voters counted because a call leaves the table with its first answer.
 */
module RaftNode {
  import opened RaftTypes
  import opened RaftEngine
  import opened RaftCluster

  // ── tallies kept as counters ──────────────────────────────────────────────

  /** A voter asked in this term, or in this pre-vote round, and not yet heard, is not in the tally yet. */
  ghost predicate TalliesOk(b: Ballot, rpcs: map<Call, Rpc>) {
    && (forall c :: c in rpcs && rpcs[c] == VoteRpc ==>
          c.term <= b.term && (c.term == b.term && b.role == Candidate ==> c.callee !in b.votes))
    && (forall c, d :: c in rpcs && d in rpcs && rpcs[c] == rpcs[d] == VoteRpc && c.callee == d.callee && c.term == d.term ==> c == d)
    && (forall c :: c in rpcs && rpcs[c].PreVoteRpc? ==>
          rpcs[c].round <= b.preVoteRound && (rpcs[c].round == b.preVoteRound ==> c.callee !in b.preVoteGrants))
    && (forall c, d :: c in rpcs && d in rpcs && rpcs[c].PreVoteRpc? && rpcs[c] == rpcs[d] && c.callee == d.callee ==> c == d)
  }

  /** Handlers that ask nobody: the tally of a term or a round only goes away when the term or the round does. */
  ghost predicate TallyFrame(b: Ballot, b': Ballot) {
    && b.term <= b'.term && b.preVoteRound <= b'.preVoteRound
    && b'.preVoteGrants == b.preVoteGrants
    && (b'.term == b.term && b'.role == Candidate ==> b.role == Candidate && b'.votes == b.votes)
  }

  lemma TallyKept(b: Ballot, b': Ballot, rpcs: map<Call, Rpc>)
    requires TalliesOk(b, rpcs) && TallyFrame(b, b')
    ensures TalliesOk(b', rpcs)
  {
  }

  /** A new term's candidate has counted only itself, and asks everyone else once. */
  lemma CampaignTally(cfg: Config, n: NodeId, b: Ballot, b': Ballot, rpcs: map<Call, Rpc>, ticket: nat)
    requires TalliesOk(b, rpcs) && b'.term == b.term + 1 && b'.votes == {n}
    requires b'.preVoteRound == b.preVoteRound && b'.preVoteGrants == b.preVoteGrants
    ensures TalliesOk(b', rpcs)
    ensures TalliesOk(b', rpcs + Outstanding(FanOut(cfg, n, ticket, b'.term), VoteRpc))
  {
    hide Outstanding, FanOut;
    OutstandingOnly(cfg, n, rpcs, ticket, b'.term, VoteRpc);
  }

  lemma OutstandingOnly(cfg: Config, n: NodeId, rpcs: map<Call, Rpc>, ticket: nat, term: Term, rpc: Rpc)
    ensures var all := rpcs + Outstanding(FanOut(cfg, n, ticket, term), rpc);
            forall c :: c in all ==>
              || (c in rpcs && all[c] == rpcs[c])
              || (all[c] == rpc && c.term == term && c.callee in Peers(cfg, n) && c == Call(ticket, n, c.callee, term))
  {
  }

  lemma RoundTally(cfg: Config, n: NodeId, b: Ballot, b': Ballot, rpcs: map<Call, Rpc>, ticket: nat)
    requires TalliesOk(b, rpcs) && b'.preVoteRound == b.preVoteRound + 1 && b'.preVoteGrants == {n}
    requires b'.term == b.term && b'.role == b.role && b'.votes == b.votes
    ensures TalliesOk(b', rpcs)
    ensures TalliesOk(b', rpcs + Outstanding(FanOut(cfg, n, ticket, b.term + 1), PreVoteRpc(b'.preVoteRound)))
  {
    hide Outstanding, FanOut;
    OutstandingOnly(cfg, n, rpcs, ticket, b.term + 1, PreVoteRpc(b'.preVoteRound));
  }

  /** The voter behind a settled call has not been counted, and counting it now is counting it once. */
  lemma SettleTally(b: Ballot, rpcs: map<Call, Rpc>, call: Call)
    requires TalliesOk(b, rpcs) && call in rpcs
    ensures TalliesOk(b, rpcs - {call})
    ensures rpcs[call] == VoteRpc && call.term == b.term && b.role == Candidate ==>
      call.callee !in b.votes && TalliesOk(b.(votes := b.votes + {call.callee}), rpcs - {call})
    ensures rpcs[call] == PreVoteRpc(b.preVoteRound) ==>
      call.callee !in b.preVoteGrants && TalliesOk(b.(preVoteGrants := b.preVoteGrants + {call.callee}), rpcs - {call})
  {
  }

  ghost function Requests(calls: set<Call>, request: Request): set<Message> {
    set c | c in calls :: Req(c, request)
  }

  lemma AskNone(rpc: Rpc, request: Request)
    ensures Outstanding({}, rpc) == map[] && Requests({}, request) == {}
  {
  }

  lemma AskOne(calls: set<Call>, call: Call, rpc: Rpc, request: Request)
    ensures Outstanding(calls + {call}, rpc) == Outstanding(calls, rpc)[call := rpc]
    ensures Requests(calls + {call}, request) == Requests(calls, request) + {Req(call, request)}
  {
  }

  lemma AskMore(cfg: Config, n: NodeId, ticket: nat, term: Term, todo: set<NodeId>, p: NodeId)
    requires p in todo && todo <= Peers(cfg, n)
    ensures (set q | q in Peers(cfg, n) - (todo - {p}) :: Call(ticket, n, q, term))
         == (set q | q in Peers(cfg, n) - todo :: Call(ticket, n, q, term)) + {Call(ticket, n, p, term)}
  {
  }

  /** The confirmation round of a read: an empty AppendEntries to every peer, at the index believed to be its next. */
  ghost function Heartbeats(s: NodeState, calls: set<Call>): set<Message> {
    set c | c in calls :: Req(c, AppendRequest(s.journal.log, s.commitment.index, ClampedNext(s, c.callee), 0))
  }

  lemma BeatNone(s: NodeState)
    ensures Heartbeats(s, {}) == {}
  {
  }

  lemma BeatOne(s: NodeState, calls: set<Call>, call: Call)
    ensures Heartbeats(s, calls + {call})
         == Heartbeats(s, calls) + {Req(call, AppendRequest(s.journal.log, s.commitment.index, ClampedNext(s, call.callee), 0))}
  {
  }

  lemma BeatsOfRead(cfg: Config, n: NodeId, s: NodeState, t: NodeState, ticket: nat)
    requires t == s.(pendingReads := t.pendingReads)
    ensures StartRead(cfg, n, s, ticket).msgs == Heartbeats(t, FanOut(cfg, n, ticket, s.ballot.term))
  {
  }

  lemma ReadTally(cfg: Config, n: NodeId, b: Ballot, rpcs: map<Call, Rpc>, ticket: nat)
    requires TalliesOk(b, rpcs)
    ensures TalliesOk(b, rpcs + Outstanding(FanOut(cfg, n, ticket, b.term), ReadRpc(ticket)))
  {
    hide Outstanding, FanOut;
    OutstandingOnly(cfg, n, rpcs, ticket, b.term, ReadRpc(ticket));
  }

  lemma CountOne(counted: set<NodeId>, todo: set<NodeId>, p: NodeId)
    requires p in todo
    ensures |counted - (todo - {p})| == |counted - todo| + (if p in counted then 1 else 0)
  {
    if p in counted {
      assert counted - (todo - {p}) == (counted - todo) + {p};
    } else {
      assert counted - (todo - {p}) == counted - todo;
    }
  }

  lemma PeerCounts(cfg: Config, n: NodeId, journal: Journal, lead: Leadership, index: nat, p: NodeId)
    requires p in Peers(cfg, n)
    ensures p in Replicas(cfg, n, journal, lead, index) <==> Acknowledges(lead, p, index)
  {
  }

  lemma SelfCounts(cfg: Config, n: NodeId, journal: Journal, lead: Leadership, index: nat)
    ensures |Replicas(cfg, n, journal, lead, index) - Peers(cfg, n)| == (if journal.durable > index then 1 else 0)
  {
    assert Replicas(cfg, n, journal, lead, index) - Peers(cfg, n) == if journal.durable > index then {n} else {};
  }

  lemma CutBounds(s: NodeState, from: nat, entries: seq<Entry>)
    requires WellFormed(s) && from <= |s.journal.log|
    ensures var t := CutConflict(s, from, entries).s;
            var held := HeldCount(s.journal.log, from, entries);
            !t.panicked ==> from + held <= |t.journal.log| && (held < |entries| ==> from + held == |t.journal.log|)
  {
  }

  lemma StaysCalm(n: NodeId, s: NodeState, term: Term, leaderId: Option<NodeId>)
    ensures BecomeFollower(n, s, term, leaderId).s.panicked == s.panicked
  {
  }

  lemma AppendTally(b: Ballot, rpcs: map<Call, Rpc>, call: Call, rpc: Rpc)
    requires TalliesOk(b, rpcs) && rpc.AppendRpc?
    ensures TalliesOk(b, rpcs[call := rpc])
  {
  }

  lemma ProbeTally(b: Ballot, rpcs: map<Call, Rpc>, rpcs': map<Call, Rpc>, epoch: nat)
    requires TalliesOk(b, rpcs) && rpcs'.Keys == rpcs.Keys
    requires forall c :: c in rpcs ==> rpcs'[c] == rpcs[c] || rpcs'[c] == Supersede(rpcs[c], epoch)
    ensures TalliesOk(b, rpcs')
  {
  }

  /** A pump is a series of single sends, a heartbeat only as its first. */
  ghost predicate Pumped(cfg: Config, n: NodeId, s: NodeState, p: NodeId, heartbeat: bool, ticket: nat, counts: seq<nat>, out: Out)
    decreases |counts|
  {
    if counts == [] then out == Out(s, {})
    else
      var k := |counts| - 1;
      exists mid :: Pumped(cfg, n, s, p, heartbeat, ticket, counts[..k], mid)
        && MaySend(cfg, n, mid.s, p, heartbeat && k == 0, counts[k])
        && out == Then(mid, SendAppend(n, mid.s, p, counts[k], ticket + k))
  }

  lemma PumpedNone(cfg: Config, n: NodeId, s: NodeState, p: NodeId, heartbeat: bool, ticket: nat)
    ensures Pumped(cfg, n, s, p, heartbeat, ticket, [], Out(s, {}))
  {
  }

  lemma PumpedMore(cfg: Config, n: NodeId, s: NodeState, p: NodeId, heartbeat: bool, ticket: nat, counts: seq<nat>, mid: Out, count: nat)
    requires Pumped(cfg, n, s, p, heartbeat, ticket, counts, mid)
    requires MaySend(cfg, n, mid.s, p, heartbeat && |counts| == 0, count)
    ensures Pumped(cfg, n, s, p, heartbeat, ticket, counts + [count], Then(mid, SendAppend(n, mid.s, p, count, ticket + |counts|)))
  {
    hide MaySend, SendAppend;
    assert (counts + [count])[..|counts|] == counts;
  }

  lemma OneMoreActive(rpcs: map<Call, Rpc>, call: Call, rpc: Rpc)
    requires call !in rpcs && rpc.AppendRpc? && !rpc.superseded
    ensures |Active(rpcs[call := rpc], call.callee, rpc.epoch)| == |Active(rpcs, call.callee, rpc.epoch)| + 1
  {
    assert Active(rpcs[call := rpc], call.callee, rpc.epoch) == Active(rpcs, call.callee, rpc.epoch) + {call};
  }

  /** A send takes up one place of the window; a probe or a heartbeat leaves nothing further to send. */
  lemma SendFacts(cfg: Config, n: NodeId, s: NodeState, p: NodeId, heartbeat: bool, count: nat, ticket: nat)
    requires MaySend(cfg, n, s, p, heartbeat, count) && Call(ticket, n, p, s.ballot.term) !in s.rpcs
    ensures var t := SendAppend(n, s, p, count, ticket).s;
            && |Active(t.rpcs, p, t.lead.epoch)| == |Active(s.rpcs, p, s.lead.epoch)| + 1
            && (forall c :: c in t.rpcs ==> c in s.rpcs || c.number == ticket)
            && |Active(s.rpcs, p, s.lead.epoch)| < (if ModeOf(s.lead, p) == Probe then 1 else cfg.maxInflight)
            && (ModeOf(t.lead, p) == Probe || count == 0 ==> forall k :: !MaySend(cfg, n, t, p, false, k))
  {
    var next := ClampedNext(s, p);
    OneMoreActive(s.rpcs, Call(ticket, n, p, s.ballot.term), AppendRpc(s.lead.epoch, next - 1, next - 1 + count, false));
  }

  lemma NoHeartbeat(cfg: Config, n: NodeId, s: NodeState, p: NodeId, heartbeat: bool)
    requires forall k :: !MaySend(cfg, n, s, p, heartbeat, k)
    ensures forall k :: !MaySend(cfg, n, s, p, false, k)
  {
    forall k ensures !MaySend(cfg, n, s, p, false, k) {
      assert !MaySend(cfg, n, s, p, heartbeat, k);
    }
  }

  /** The calls of `done` to the peer marked as superseded. */
  ghost function Superseding(rpcs: map<Call, Rpc>, peer: NodeId, epoch: nat, done: set<Call>): map<Call, Rpc> {
    map c | c in rpcs :: if c in done && c.callee == peer then Supersede(rpcs[c], epoch) else rpcs[c]
  }

  lemma MarkNone(rpcs: map<Call, Rpc>, peer: NodeId, epoch: nat)
    ensures Superseding(rpcs, peer, epoch, rpcs.Keys - rpcs.Keys) == rpcs
  {
  }

  lemma MarkOne(rpcs: map<Call, Rpc>, peer: NodeId, epoch: nat, todo: set<Call>, c: Call)
    requires c in todo && todo <= rpcs.Keys
    ensures var marked := Superseding(rpcs, peer, epoch, rpcs.Keys - todo);
            c in marked && Superseding(rpcs, peer, epoch, rpcs.Keys - (todo - {c}))
                           == if c.callee == peer then marked[c := Supersede(marked[c], epoch)] else marked
  {
  }

  lemma MarkAll(rpcs: map<Call, Rpc>, peer: NodeId, epoch: nat)
    ensures var marked := Superseding(rpcs, peer, epoch, rpcs.Keys - {});
            && marked.Keys == rpcs.Keys
            && (forall c :: c in rpcs ==> marked[c] == rpcs[c] || marked[c] == Supersede(rpcs[c], epoch))
            && marked == SupersedeAll(rpcs, peer, epoch)
  {
  }

  ghost function Bytes(entries: seq<Entry>, entryLength: Entry -> nat): nat {
    if entries == [] then 0 else Bytes(entries[..|entries| - 1], entryLength) + entryLength(entries[|entries| - 1])
  }

  lemma NoBytes(entries: seq<Entry>, entryLength: Entry -> nat)
    requires entries == []
    ensures Bytes(entries, entryLength) == 0
  {
  }

  lemma OneMoreEntry(log: seq<Entry>, next: nat, count: nat, entryLength: Entry -> nat)
    requires next + count < |log|
    ensures Bytes(log[next..next + count + 1], entryLength) == Bytes(log[next..next + count], entryLength) + entryLength(log[next + count])
  {
    var longer := log[next..next + count + 1];
    assert longer[..count] == log[next..next + count];
  }

  lemma HeldFurther(log: seq<Entry>, from: nat, entries: seq<Entry>, offset: nat)
    requires from <= |log| && offset <= |entries|
    ensures var held := HeldCount(log, from, entries[offset..]);
            if offset == |entries| || from == |log| || log[from].term != entries[offset].term then held == 0
            else held == 1 + HeldCount(log, from + 1, entries[offset + 1..])
  {
    if offset < |entries| {
      assert entries[offset..][0] == entries[offset] && entries[offset..][1..] == entries[offset + 1..];
    }
  }

  class RaftNode {
    const cfg: Config
    const id: NodeId

    var up: bool
    var panicked: bool
    var stored: Stable
    var ballot: Ballot
    var votes: nat
    var granted: nat
    var journal: Journal
    var commitment: Commitment
    var lead: Leadership
    var rpcs: map<Call, Rpc>
    var pendingReads: map<nat, Read>

    ghost function View(): NodeState
      reads this
    {
      NodeState(up, panicked, stored, ballot, journal, commitment, lead, rpcs, pendingReads)
    }

    ghost predicate Valid()
      reads this
    {
      && WellFormed(View())
      && votes == |ballot.votes| && granted == |ballot.preVoteGrants|
      && TalliesOk(ballot, rpcs)
    }

    // ── durability ──────────────────────────────────────────────────────────

    method PersistState()
      modifies `stored, `commitment
      ensures View() == Persist(old(View()))
    {
      commitment := commitment.(dirty := false);
      stored := Stable(ballot.term, ballot.votedFor, commitment.index);
    }

    /** Releases what has become durable and revokes what belongs to an older term or log. */
    method ReleaseDurableWaiters() returns (out: set<Message>)
      modifies `journal
      ensures Out(View(), out) == RaftEngine.ReleaseDurableWaiters(old(View()))
    {
      out := {};
      var waiters := journal.waiters;
      var todo, waiting := waiters, {};
      while todo != {}
        invariant todo <= waiters && waiting <= waiters - todo
        invariant forall w :: w in waiters - todo ==> (w in waiting <==> !IsReleasable(ballot.term, journal, w))
        invariant out == set w | w in waiters - todo && w !in waiting :: ReleasedResponse(ballot.term, journal, w)
        decreases |todo|
      {
        var w :| w in todo;
        var obsolete := w.term != ballot.term || w.epoch != journal.epoch;
        if obsolete {
          out := out + {Resp(w.call, AppendRejected(ballot.term, |journal.log|, |journal.log|))};
        } else if w.need <= journal.durable {
          out := out + {Resp(w.call, w.response)};
        } else {
          waiting := waiting + {w};
        }
        todo := todo - {w};
      }
      assert waiters - Releasable(ballot.term, journal) == waiting;
      journal := journal.(waiters := waiting);
    }

    // ── commit ──────────────────────────────────────────────────────────────

    method ApplyCommittedEntries()
      requires |commitment.applied| <= commitment.index + 1 <= |journal.log|
      modifies `commitment
      ensures commitment == old(commitment).(applied :=
                old(commitment).applied + journal.log[|old(commitment).applied|..old(commitment).index + 1])
    {
      ghost var c := commitment;
      while |commitment.applied| < commitment.index + 1
        invariant |c.applied| <= |commitment.applied| <= c.index + 1
        invariant commitment == c.(applied := c.applied + journal.log[|c.applied|..|commitment.applied|])
      {
        var lastApplied := |commitment.applied|;
        commitment := commitment.(applied := commitment.applied + [journal.log[lastApplied]]);
      }
    }

    method ReleaseCommitWaiters() returns (out: set<Message>)
      modifies `commitment
      ensures commitment == old(commitment).(waiters := old(commitment).waiters - Settled(old(commitment)))
      ensures out == CommitReplies(id, commitment.index, Settled(old(commitment)))
    {
      out := {};
      var waiters := commitment.waiters;
      var todo, waiting := waiters, waiters;
      while todo != {}
        invariant todo <= waiters
        invariant waiting == waiters - (Settled(commitment) - todo)
        invariant out == CommitReplies(id, commitment.index, Settled(commitment) - todo)
        decreases |todo|
      {
        var w :| w in todo;
        todo := todo - {w};
        if commitment.index >= w.index {
          waiting := waiting - {w};
          out := out + {ClientReply(id, w.index, w.entry, true)};
        }
      }
      assert waiting == waiters - Settled(commitment);
      commitment := commitment.(waiters := waiting);
    }

    /** How many voters hold the entry: the leader itself only once its own copy is durable. */
    method CountReplicas(index: nat) returns (replicated: nat)
      ensures replicated == |Replicas(cfg, id, journal, lead, index)|
    {
      replicated := if journal.durable > index then 1 else 0;
      hide Replicas;
      ghost var replicas := Replicas(cfg, id, journal, lead, index);
      var todo := Peers(cfg, id);
      SelfCounts(cfg, id, journal, lead, index);
      while todo != {}
        invariant todo <= Peers(cfg, id)
        invariant replicated == |replicas - todo|
        decreases |todo|
      {
        var p :| p in todo;
        PeerCounts(cfg, id, journal, lead, index, p);
        CountOne(replicas, todo, p);
        todo := todo - {p};
        if p in lead.matched && lead.matched[p] >= index {
          replicated := replicated + 1;
        }
      }
      assert replicas - todo == replicas;
    }

    method AdvanceCommitIndex() returns (out: set<Message>)
      requires Valid()
      modifies `commitment, `lead
      ensures Out(View(), out) == AdvanceCommit(cfg, id, old(View()))
      ensures Valid()
    {
      hide TalliesOk, CommitTo, Replicas;
      out := {};
      if ballot.role != Leader {
        return;
      }
      var index: int := |journal.log| - 1;
      while index > commitment.index
        invariant commitment == old(commitment) && lead == old(lead)
        invariant commitment.index <= index < |journal.log|
        invariant FindCommit(cfg, id, View(), |journal.log| - 1) == FindCommit(cfg, id, View(), index)
      {
        if journal.log[index].term == ballot.term {
          var replicated := CountReplicas(index);
          if replicated >= QuorumSize(cfg) {
            out := CommitThrough(index);
            return;
          }
        }
        index := index - 1;
      }
    }

    method CommitThrough(index: int) returns (out: set<Message>)
      requires Valid() && commitment.index < index < |journal.log|
      modifies `commitment, `lead
      ensures Out(View(), out) == CommitTo(id, old(View()), index)
      ensures Valid()
    {
      hide TalliesOk, CommitReplies, Settled;
      commitment := commitment.(index := index, dirty := true);
      ApplyCommittedEntries();
      out := ReleaseCommitWaiters();
      if lead.broadcast.None? {
        lead := lead.(broadcast := Some(lead.epoch));
      }
    }

    method FlushLog() returns (out: set<Message>)
      requires Valid()
      modifies `journal, `commitment, `lead
      ensures Out(View(), out) == RaftEngine.FlushLog(cfg, id, old(View()))
      ensures Valid()
    {
      hide TalliesOk, AdvanceCommit;
      journal := journal.(durable := |journal.log|);
      var released := ReleaseDurableWaiters();
      var advanced := AdvanceCommitIndex();
      out := released + advanced;
    }

    // ── the log ─────────────────────────────────────────────────────────────

    method AppendToLog(entries: seq<Entry>) returns (out: set<Message>)
      requires Valid()
      modifies `journal, `commitment, `lead
      ensures Out(View(), out) == RaftEngine.AppendToLog(cfg, id, old(View()), entries)
      ensures Valid()
    {
      hide TalliesOk, RaftEngine.FlushLog;
      out := {};
      if |entries| == 0 {
        return;
      }
      journal := journal.(log := journal.log + entries);
      if |journal.log| - journal.durable >= cfg.flushEntries {
        out := FlushLog();
      }
    }

    /** Raises the alarm instead of discarding a committed entry. */
    method TruncateLogFrom(index: nat) returns (out: set<Message>)
      requires Valid()
      modifies `panicked, `journal
      ensures Out(View(), out) == RaftEngine.TruncateLogFrom(old(View()), index)
      ensures Valid()
    {
      hide TalliesOk;
      out := {};
      if index <= commitment.index {
        panicked := true;
      } else if index < |journal.log| {
        journal := journal.(log := journal.log[..index], durable := index, epoch := journal.epoch + 1);
        out := ReleaseDurableWaiters();
      }
    }

    // ── terms and roles ─────────────────────────────────────────────────────

    method FailCommitWaiters() returns (out: set<Message>)
      modifies `commitment
      ensures commitment == old(commitment).(waiters := {})
      ensures out == CommitReplies(id, commitment.index, old(commitment).waiters)
    {
      out := {};
      var waiters := commitment.waiters;
      var todo := waiters;
      while todo != {}
        invariant todo <= waiters
        invariant out == CommitReplies(id, commitment.index, waiters - todo)
        decreases |todo|
      {
        var w :| w in todo;
        assert waiters - (todo - {w}) == (waiters - todo) + {w};
        todo := todo - {w};
        out := out + {ClientReply(id, w.index, w.entry, commitment.index >= w.index)};
      }
      assert waiters - todo == waiters;
      commitment := commitment.(waiters := {});
    }

    method BecomeFollower(term: Term, leaderId: Option<NodeId>) returns (out: set<Message>)
      requires Valid()
      modifies `stored, `ballot, `votes, `journal, `commitment, `lead
      ensures Out(View(), out) == RaftEngine.BecomeFollower(id, old(View()), term, leaderId)
      ensures Valid()
    {
      hide TalliesOk, RaftEngine.StepDown, RaftEngine.AdoptTerm;
      var failed := StepDown(leaderId);
      var revoked := AdoptTerm(term);
      out := failed + revoked;
    }

    method StepDown(leaderId: Option<NodeId>) returns (out: set<Message>)
      requires Valid()
      modifies `ballot, `votes, `commitment, `lead
      ensures Out(View(), out) == RaftEngine.StepDown(id, old(View()), leaderId)
      ensures Valid() && ballot.role == Follower
    {
      hide TalliesOk, CommitReplies;
      if ballot.role == Leader {
        lead := lead.(epoch := lead.epoch + 1);
      }
      ballot := ballot.(preVoteRound := ballot.preVoteRound + 1, role := Follower, votes := {}, leaderId := leaderId);
      votes := 0;
      out := FailCommitWaiters();
      TallyKept(old(ballot), ballot, rpcs);
    }

    method AdoptTerm(term: Term) returns (out: set<Message>)
      requires Valid() && ballot.role != Candidate
      modifies `stored, `ballot, `journal, `commitment
      ensures Out(View(), out) == RaftEngine.AdoptTerm(old(View()), term)
      ensures Valid()
    {
      hide TalliesOk;
      out := {};
      if term > ballot.term {
        ballot := ballot.(term := term, votedFor := None);
        PersistState();
        out := ReleaseDurableWaiters();
        TallyKept(old(ballot), ballot, rpcs);
      }
    }

    method BecomeLeader() returns (out: set<Message>)
      requires Valid()
      modifies `ballot, `votes, `journal, `commitment, `lead
      ensures Out(View(), out) == RaftEngine.BecomeLeader(cfg, id, old(View()))
      ensures Valid()
    {
      hide TalliesOk, RaftEngine.AppendToLog;
      var length := |journal.log|;
      ballot := ballot.(role := Leader, leaderId := Some(id), votes := {});
      votes := 0;
      lead := Leadership(lead.epoch + 1, map p | p in Peers(cfg, id) :: length, map p | p in Peers(cfg, id) :: -1,
                         map[], Some(length), lead.broadcast);
      TallyKept(old(ballot), ballot, rpcs);
      out := AppendToLog([Entry(ballot.term, length, Noop(id))]);
    }

    // ── elections ───────────────────────────────────────────────────────────

    /** One request to every other voter. */
    method AskAll(ticket: nat, term: Term, rpc: Rpc, request: Request) returns (out: set<Message>)
      modifies `rpcs
      ensures rpcs == old(rpcs) + Outstanding(FanOut(cfg, id, ticket, term), rpc)
      ensures out == Requests(FanOut(cfg, id, ticket, term), request)
    {
      out := {};
      var todo := Peers(cfg, id);
      ghost var asked: set<Call> := {};
      hide Outstanding, Requests;
      AskNone(rpc, request);
      while todo != {}
        invariant todo <= Peers(cfg, id)
        invariant asked == set p | p in Peers(cfg, id) - todo :: Call(ticket, id, p, term)
        invariant rpcs == old(rpcs) + Outstanding(asked, rpc)
        invariant out == Requests(asked, request)
        decreases |todo|
      {
        var p :| p in todo;
        var call := Call(ticket, id, p, term);
        AskOne(asked, call, rpc, request);
        AskMore(cfg, id, ticket, term, todo, p);
        todo := todo - {p};
        asked := asked + {call};
        rpcs := rpcs[call := rpc];
        out := out + {Req(call, request)};
      }
      assert asked == FanOut(cfg, id, ticket, term);
    }

    method StartElection(ticket: nat) returns (out: set<Message>)
      requires Valid()
      modifies `stored, `ballot, `votes, `journal, `commitment, `lead, `rpcs
      ensures Out(View(), out) == RaftEngine.StartElection(cfg, id, old(View()), ticket)
      ensures Valid()
    {
      hide TalliesOk, RaftEngine.BecomeLeader, FanOut;
      ballot := ballot.(term := ballot.term + 1, role := Candidate, votedFor := Some(id), votes := {id}, leaderId := None);
      votes := 1;
      PersistState();
      CampaignTally(cfg, id, old(ballot), ballot, rpcs, ticket);
      if votes >= QuorumSize(cfg) {
        out := BecomeLeader();
      } else {
        out := AskAll(ticket, ballot.term, VoteRpc, RequestVote(|journal.log| - 1, LastTerm(journal.log)));
      }
    }

    method StartPreVote(ticket: nat) returns (out: set<Message>)
      requires Valid()
      modifies this
      ensures Out(View(), out) == RaftEngine.StartPreVote(cfg, id, old(View()), ticket)
      ensures Valid()
    {
      hide TalliesOk, RaftEngine.StartElection, FanOut;
      ballot := ballot.(preVoteRound := ballot.preVoteRound + 1, preVoteGrants := {id});
      granted := 1;
      RoundTally(cfg, id, old(ballot), ballot, rpcs, ticket);
      if granted >= QuorumSize(cfg) {
        out := StartElection(ticket);
      } else {
        out := AskAll(ticket, ballot.term + 1, PreVoteRpc(ballot.preVoteRound), PreVote(|journal.log| - 1, LastTerm(journal.log)));
      }
    }

    method HandlePreVote(call: Call, request: Request, heardRecently: bool) returns (response: Response)
      requires request.PreVote?
      ensures response == RaftEngine.HandlePreVote(cfg, View(), call, request, heardRecently)
    {
      if call.term < ballot.term + 1 {
        return PreVoteResult(ballot.term, false);
      }
      var myLastTerm := LastTerm(journal.log);
      var candidateIsUpToDate := request.lastLogTerm > myLastTerm
        || (request.lastLogTerm == myLastTerm && request.lastLogIndex >= |journal.log| - 1);
      response := PreVoteResult(ballot.term,
        ballot.role != Leader && call.caller in cfg.voters && !(ballot.leaderId.Some? && heardRecently) && candidateIsUpToDate);
    }

    method HandleRequestVote(call: Call, request: Request, heardRecently: bool) returns (out: set<Message>)
      requires Valid() && request.RequestVote?
      modifies `stored, `ballot, `votes, `journal, `commitment, `lead
      ensures Out(View(), out) == RaftEngine.HandleRequestVote(id, old(View()), call, request, heardRecently)
      ensures Valid()
    {
      hide TalliesOk, RaftEngine.BecomeFollower;
      out := {};
      if call.term < ballot.term || (ballot.leaderId.Some? && heardRecently) {
        return {Resp(call, VoteResult(ballot.term, false))};
      }
      if call.term > ballot.term {
        out := BecomeFollower(call.term, None);
      }
      var upToDate := request.lastLogTerm > LastTerm(journal.log)
        || (request.lastLogTerm == LastTerm(journal.log) && request.lastLogIndex >= |journal.log| - 1);
      var granted := (ballot.votedFor == None || ballot.votedFor == Some(call.caller)) && upToDate;
      if granted {
        CastVote(call.caller);
      }
      out := out + {Resp(call, VoteResult(ballot.term, granted))};
    }

    method CastVote(candidate: NodeId)
      requires Valid()
      modifies `stored, `ballot, `commitment
      ensures View() == RaftEngine.CastVote(old(View()), candidate)
      ensures Valid()
    {
      hide TalliesOk;
      ballot := ballot.(votedFor := Some(candidate), preVoteRound := ballot.preVoteRound + 1);
      PersistState();
      TallyKept(old(ballot), ballot, rpcs);
    }

    method OnPreVoteResponse(call: Call, response: Response, ticket: nat) returns (out: set<Message>)
      requires Valid() && call in rpcs && rpcs[call].PreVoteRpc?
      modifies `stored, `ballot, `votes, `granted, `journal, `commitment, `lead, `rpcs
      ensures Out(View(), out) == RaftEngine.OnPreVoteResponse(cfg, id, old(View()).(rpcs := old(rpcs) - {call}), call, old(rpcs)[call], response, ticket)
      ensures Valid()
    {
      hide TalliesOk, RaftEngine.BecomeFollower, RaftEngine.StartElection;
      var round := rpcs[call].round;
      SettleTally(ballot, rpcs, call);
      rpcs := rpcs - {call};
      out := {};
      if response.term > ballot.term {
        out := BecomeFollower(response.term, None);
      } else if response.PreVoteResult? && response.granted && ballot.preVoteRound == round
             && ballot.term + 1 == call.term && ballot.role != Leader {
        ballot := ballot.(preVoteGrants := ballot.preVoteGrants + {call.callee});
        granted := granted + 1;
        if granted >= QuorumSize(cfg) {
          out := StartElection(ticket);
        }
      }
    }

    method OnVoteResponse(call: Call, response: Response) returns (out: set<Message>)
      requires Valid() && call in rpcs && rpcs[call].VoteRpc?
      modifies `stored, `ballot, `votes, `journal, `commitment, `lead, `rpcs
      ensures Out(View(), out) == RaftEngine.OnVoteResponse(cfg, id, old(View()).(rpcs := old(rpcs) - {call}), call, response)
      ensures Valid()
    {
      hide TalliesOk, RaftEngine.BecomeFollower, RaftEngine.BecomeLeader;
      SettleTally(ballot, rpcs, call);
      rpcs := rpcs - {call};
      out := {};
      if response.term > ballot.term {
        out := BecomeFollower(response.term, None);
      } else if response.VoteResult? && response.granted && ballot.role == Candidate && ballot.term == call.term {
        ballot := ballot.(votes := ballot.votes + {call.callee});
        votes := votes + 1;
        if votes >= QuorumSize(cfg) {
          out := BecomeLeader();
        }
      }
    }

    // ── AppendEntries, the follower's side ──────────────────────────────────

    /** The start of the conflicting term's run of entries: the hint a rejection carries. */
    method ConflictStart(prevLogIndex: nat) returns (conflictIndex: nat)
      requires prevLogIndex < |journal.log|
      ensures conflictIndex == RunStart(journal.log, prevLogIndex)
    {
      var conflictingTerm := journal.log[prevLogIndex].term;
      conflictIndex := prevLogIndex;
      while conflictIndex > 0 && journal.log[conflictIndex - 1].term == conflictingTerm
        invariant conflictIndex <= prevLogIndex && journal.log[conflictIndex].term == conflictingTerm
        invariant RunStart(journal.log, conflictIndex) == RunStart(journal.log, prevLogIndex)
      {
        conflictIndex := conflictIndex - 1;
      }
    }

    /** Walks past the entries already held, and cuts the log where it first disagrees. */
    method DropConflict(from: nat, entries: seq<Entry>) returns (offset: nat, out: set<Message>)
      requires Valid() && from <= |journal.log| && !panicked
      modifies `panicked, `journal
      ensures offset == HeldCount(old(journal).log, from, entries)
      ensures Out(View(), out) == CutConflict(old(View()), from, entries)
      ensures Valid()
    {
      hide TalliesOk, RaftEngine.TruncateLogFrom, HeldCount;
      out := {};
      offset := 0;
      assert entries[0..] == entries;
      var insertionIndex := from;
      while offset < |entries| && insertionIndex < |journal.log|
        invariant offset <= |entries| && insertionIndex == from + offset <= |journal.log|
        invariant panicked == old(panicked) && journal == old(journal)
        invariant HeldCount(journal.log, from, entries) == offset + HeldCount(journal.log, insertionIndex, entries[offset..])
      {
        HeldFurther(journal.log, insertionIndex, entries, offset);
        if journal.log[insertionIndex].term != entries[offset].term {
          out := TruncateLogFrom(insertionIndex);
          return;
        }
        offset := offset + 1;
        insertionIndex := insertionIndex + 1;
      }
      HeldFurther(journal.log, insertionIndex, entries, offset);
    }

    /** Never past the last entry this request verified, whatever the leader has committed. */
    method LearnCommit(leaderCommit: int, lastVerified: int)
      requires Valid() && lastVerified < |journal.log|
      modifies `commitment
      ensures View() == RaftEngine.LearnCommit(old(View()), leaderCommit, lastVerified)
      ensures Valid()
    {
      hide TalliesOk;
      if leaderCommit > commitment.index {
        var next := Min(leaderCommit, lastVerified);
        if next > commitment.index {
          commitment := commitment.(index := next, dirty := true);
          ApplyCommittedEntries();
        }
      }
    }

    method AcknowledgeWhenDurable(call: Call, matchIndex: int) returns (out: set<Message>)
      requires Valid()
      modifies `journal
      ensures Out(View(), out) == Acknowledge(old(View()), call, matchIndex)
      ensures Valid()
    {
      hide TalliesOk;
      var response := AppendOk(ballot.term, matchIndex, |journal.log|);
      if matchIndex >= journal.durable {
        var waiter := DurableWaiter(call, matchIndex + 1, ballot.term, journal.epoch, response);
        journal := journal.(waiters := journal.waiters + {waiter});
        out := {};
      } else {
        out := {Resp(call, response)};
      }
    }

    method AcceptEntries(call: Call, request: Request) returns (out: set<Message>)
      requires Valid() && !panicked && request.AppendEntries? && request.prevLogIndex >= -1
      modifies `panicked, `journal, `commitment, `lead
      ensures Out(View(), out) == RaftEngine.AcceptEntries(cfg, id, old(View()), call, request)
      ensures Valid()
    {
      hide TalliesOk, CutConflict, RaftEngine.LearnCommit, Acknowledge, RaftEngine.AppendToLog, HeldCount, RunStart;
      var prev := request.prevLogIndex;
      if prev >= |journal.log| {
        return {Resp(call, AppendRejected(ballot.term, |journal.log|, |journal.log|))};
      }
      if prev >= 0 && journal.log[prev].term != request.prevLogTerm {
        var conflictIndex := ConflictStart(prev);
        return {Resp(call, AppendRejected(ballot.term, conflictIndex, |journal.log|))};
      }
      ghost var s := View();
      var offset, revoked := DropConflict(prev + 1, request.entries);
      if panicked {
        return revoked;
      }
      CutBounds(s, prev + 1, request.entries);
      var extended := ExtendLog(call, request, offset);
      out := revoked + extended;
    }

    method ExtendLog(call: Call, request: Request, held: nat) returns (out: set<Message>)
      requires Valid() && request.AppendEntries? && held <= |request.entries|
      requires held < |request.entries| ==> request.prevLogIndex + 1 + held == |journal.log|
      requires request.prevLogIndex + 1 + held <= |journal.log|
      modifies `journal, `commitment, `lead
      ensures Out(View(), out) == Extend(cfg, id, old(View()), call, request, held)
      ensures Valid()
    {
      hide TalliesOk, RaftEngine.LearnCommit, Acknowledge, RaftEngine.AppendToLog;
      AppendFacts(cfg, id, View(), request.entries[held..]);
      var appended := AppendToLog(request.entries[held..]);
      LearnCommit(request.leaderCommit, request.prevLogIndex + |request.entries|);
      var answered := AcknowledgeWhenDurable(call, request.prevLogIndex + |request.entries|);
      out := appended + answered;
    }

    method HandleAppendEntries(call: Call, request: Request) returns (out: set<Message>)
      requires Valid() && !panicked && request.AppendEntries? && request.prevLogIndex >= -1
      modifies `panicked, `stored, `ballot, `votes, `journal, `commitment, `lead
      ensures Out(View(), out) == RaftEngine.HandleAppendEntries(cfg, id, old(View()), call, request)
      ensures Valid()
    {
      hide TalliesOk, RaftEngine.BecomeFollower, RaftEngine.AcceptEntries;
      if call.term < ballot.term {
        return {Resp(call, AppendRejected(ballot.term, |journal.log|, |journal.log|))};
      }
      var adopted: set<Message> := {};
      if call.term > ballot.term || ballot.role != Follower {
        StaysCalm(id, View(), call.term, Some(call.caller));
        adopted := BecomeFollower(call.term, Some(call.caller));
      } else {
        ballot := ballot.(preVoteRound := ballot.preVoteRound + 1, leaderId := Some(call.caller));
        TallyKept(old(ballot), ballot, rpcs);
      }
      var answered := AcceptEntries(call, request);
      out := adopted + answered;
    }

    // ── AppendEntries, the leader's side ────────────────────────────────────

    /** Requests of this leadership that still occupy the follower's window. */
    method CountActive(peer: NodeId) returns (active: nat)
      ensures active == |Active(rpcs, peer, lead.epoch)|
    {
      active := 0;
      ghost var all := Active(rpcs, peer, lead.epoch);
      var todo := rpcs.Keys;
      assert all - todo == {};
      while todo != {}
        invariant todo <= rpcs.Keys
        invariant active == |all - todo|
        decreases |todo|
      {
        var c :| c in todo;
        if c.callee == peer && InFlight(rpcs[c], lead.epoch) && !rpcs[c].superseded {
          assert all - (todo - {c}) == (all - todo) + {c};
          active := active + 1;
        } else {
          assert all - (todo - {c}) == all - todo;
        }
        todo := todo - {c};
      }
      assert all - todo == all;
    }

    /**
     * As many entries as one request may carry: up to maxEntries, and up to maxBytes unless the
     * first entry alone exceeds it.
     */
    method BatchCount(next: nat, maxBytes: nat, entryLength: Entry -> nat) returns (count: nat)
      requires next <= |journal.log| && ValidConfig(cfg)
      ensures count <= |journal.log| - next && count <= cfg.maxEntries
      ensures count == 0 <==> next == |journal.log|
      ensures count <= 1 || Bytes(journal.log[next..next + count], entryLength) <= maxBytes
      ensures count == |journal.log| - next || count == cfg.maxEntries
        || Bytes(journal.log[next..next + count + 1], entryLength) > maxBytes
    {
      hide Bytes;
      NoBytes(journal.log[next..next], entryLength);
      var limit := Min(|journal.log| - next, cfg.maxEntries);
      var bytes := 0;
      count := 0;
      while count < limit
        invariant 0 <= count <= limit
        invariant bytes == Bytes(journal.log[next..next + count], entryLength)
        invariant count <= 1 || bytes <= maxBytes
      {
        OneMoreEntry(journal.log, next, count, entryLength);
        bytes := bytes + entryLength(journal.log[next + count]);
        if bytes > maxBytes && count > 0 {
          return;
        }
        count := count + 1;
      }
    }

    method SendAppend(peer: NodeId, count: nat, ticket: nat) returns (out: set<Message>)
      requires Valid() && ClampedNext(View(), peer) + count <= |journal.log|
      requires Call(ticket, id, peer, ballot.term) !in rpcs
      modifies `rpcs, `lead
      ensures Out(View(), out) == RaftEngine.SendAppend(id, old(View()), peer, count, ticket)
      ensures Valid()
    {
      hide TalliesOk;
      var next := if peer in lead.next && lead.next[peer] <= |journal.log| then lead.next[peer] else |journal.log|;
      var call := Call(ticket, id, peer, ballot.term);
      AppendTally(ballot, rpcs, call, AppendRpc(lead.epoch, next - 1, next - 1 + count, false));
      rpcs := rpcs[call := AppendRpc(lead.epoch, next - 1, next - 1 + count, false)];
      out := {Req(call, AppendEntries(next - 1, if next > 0 then journal.log[next - 1].term else 0,
                                      journal.log[next..next + count], commitment.index))};
      if (peer in lead.modes && lead.modes[peer] == Replicate) && count > 0 {
        lead := lead.(next := lead.next[peer := next + count]);
      }
    }

    /**
     * Sends as much as the window allows: one request while probing, several once the follower is known
     * to match. What it does is a series of single sends, and afterwards no further send is due.
     */
    method PumpPeer(peer: NodeId, heartbeat: bool, ticket: nat, maxBytes: nat, entryLength: Entry -> nat)
      returns (out: set<Message>, counts: seq<nat>)
      requires Valid() && ValidConfig(cfg) && peer in Peers(cfg, id)
      requires forall c :: c in rpcs ==> c.number < ticket
      modifies `rpcs, `lead
      ensures Pumped(cfg, id, old(View()), peer, heartbeat, ticket, counts, Out(View(), out))
      ensures forall count :: !MaySend(cfg, id, View(), peer, false, count)
      ensures Valid()
    {
      hide TalliesOk, RaftEngine.SendAppend, Pumped, MaySend, WellFormed;
      out, counts := {}, [];
      ghost var s := View();
      PumpedNone(cfg, id, s, peer, heartbeat, ticket);
      while true
        invariant Valid() && Pumped(cfg, id, s, peer, heartbeat, ticket, counts, Out(View(), out))
        invariant forall c :: c in rpcs ==> c.number < ticket + |counts|
        decreases cfg.maxInflight - |Active(rpcs, peer, lead.epoch)|
      {
        ghost var before := Out(View(), out);
        var sent, count, request := SendNext(peer, heartbeat && |counts| == 0, ticket + |counts|, maxBytes, entryLength);
        if !sent {
          NoHeartbeat(cfg, id, View(), peer, heartbeat && |counts| == 0);
          return;
        }
        SendFacts(cfg, id, before.s, peer, heartbeat && |counts| == 0, count, ticket + |counts|);
        PumpedMore(cfg, id, s, peer, heartbeat, ticket, counts, before, count);
        out := out + request;
        counts := counts + [count];
        if !(peer in lead.modes && lead.modes[peer] == Replicate) || count == 0 {
          return;
        }
      }
    }

    method SendNext(peer: NodeId, heartbeat: bool, ticket: nat, maxBytes: nat, entryLength: Entry -> nat)
      returns (sent: bool, count: nat, out: set<Message>)
      requires Valid() && ValidConfig(cfg) && peer in Peers(cfg, id)
      requires Call(ticket, id, peer, ballot.term) !in rpcs
      modifies `rpcs, `lead
      ensures sent ==> MaySend(cfg, id, old(View()), peer, heartbeat, count)
      ensures sent ==> Out(View(), out) == RaftEngine.SendAppend(id, old(View()), peer, count, ticket)
      ensures !sent ==> View() == old(View()) && forall k :: !MaySend(cfg, id, View(), peer, heartbeat, k)
      ensures Valid()
    {
      hide TalliesOk, RaftEngine.SendAppend;
      sent, count, out := false, 0, {};
      if ballot.role != Leader {
        return;
      }
      var active := CountActive(peer);
      var probing := !(peer in lead.modes && lead.modes[peer] == Replicate);
      if active >= (if probing then 1 else cfg.maxInflight) {
        return;
      }
      var next := if peer in lead.next && lead.next[peer] <= |journal.log| then lead.next[peer] else |journal.log|;
      count := BatchCount(next, maxBytes, entryLength);
      if count == 0 && !(heartbeat && active == 0) {
        return;
      }
      sent := true;
      out := SendAppend(peer, count, ticket);
    }

    /** Requests already sent keep their answers but no longer occupy the window. */
    method EnterProbe(peer: NodeId, next: nat)
      requires Valid()
      modifies `rpcs, `lead
      ensures View() == RaftEngine.EnterProbe(old(View()), peer, next)
      ensures Valid()
    {
      hide TalliesOk;
      lead := lead.(next := lead.next[peer := next], modes := lead.modes[peer := Probe]);
      ghost var before := rpcs;
      var todo := rpcs.Keys;
      hide Superseding;
      MarkNone(before, peer, lead.epoch);
      while todo != {}
        invariant todo <= before.Keys && rpcs == Superseding(before, peer, old(lead).epoch, before.Keys - todo)
        invariant lead == old(lead).(next := old(lead).next[peer := next], modes := old(lead).modes[peer := Probe])
        decreases |todo|
      {
        var c :| c in todo;
        MarkOne(before, peer, lead.epoch, todo, c);
        todo := todo - {c};
        if c.callee == peer {
          rpcs := rpcs[c := Supersede(rpcs[c], lead.epoch)];
        }
      }
      MarkAll(before, peer, lead.epoch);
      ProbeTally(ballot, before, rpcs, lead.epoch);
    }

    method OnAppendRejected(peer: NodeId, rpc: Rpc, conflictIndex: nat)
      requires Valid() && rpc.AppendRpc? && rpc.prevLogIndex >= -1
      modifies `rpcs, `lead
      ensures View() == RaftEngine.OnAppendRejected(old(View()), peer, rpc, conflictIndex)
      ensures Valid()
    {
      hide TalliesOk, RaftEngine.EnterProbe;
      var matched := if peer in lead.matched then lead.matched[peer] else -1;
      if rpc.prevLogIndex <= matched {
        return;
      }
      var next := rpc.prevLogIndex + 1;
      EnterProbe(peer, Max(Max(matched + 1, 0), if conflictIndex >= next then next - 1 else conflictIndex));
    }

    method OnAppendError(call: Call)
      requires Valid() && call in rpcs && rpcs[call].AppendRpc? && rpcs[call].prevLogIndex >= -1
      modifies `rpcs, `lead
      ensures View() == HandleError(old(View()), call)
      ensures Valid()
    {
      hide TalliesOk, RaftEngine.EnterProbe;
      var rpc, peer := rpcs[call], call.callee;
      SettleTally(ballot, rpcs, call);
      rpcs := rpcs - {call};
      if rpc.epoch != lead.epoch || ballot.role != Leader || rpc.superseded {
        return;
      }
      var matched := if peer in lead.matched then lead.matched[peer] else -1;
      var next := if peer in lead.next then lead.next[peer] else |journal.log|;
      EnterProbe(peer, Max(Max(matched + 1, 0), Min(next, rpc.prevLogIndex + 1)));
    }

    method OnAppendResponse(call: Call, response: Response) returns (out: set<Message>)
      requires Valid() && call in rpcs && rpcs[call].AppendRpc? && rpcs[call].prevLogIndex >= -1
      requires SensibleResponse(response)
      modifies `stored, `ballot, `votes, `journal, `commitment, `lead, `rpcs
      ensures Out(View(), out) == RaftEngine.OnAppendResponse(cfg, id, old(View()).(rpcs := old(rpcs) - {call}), call, old(rpcs)[call], response)
      ensures Valid()
    {
      hide TalliesOk, RaftEngine.BecomeFollower, RaftEngine.OnAppendRejected, AdvanceCommit;
      var rpc, peer := rpcs[call], call.callee;
      SettleTally(ballot, rpcs, call);
      rpcs := rpcs - {call};
      out := {};
      if response.term > ballot.term {
        out := BecomeFollower(response.term, None);
      } else if rpc.epoch != lead.epoch || call.term != ballot.term || ballot.role != Leader {
        // Fenced: the answer belongs to an earlier leadership.
      } else if response.AppendOk? {
        RecordProgress(peer, response.matchIndex);
        out := AdvanceCommitIndex();
      } else if response.AppendRejected? {
        OnAppendRejected(peer, rpc, response.conflictIndex);
      }
    }

    method RecordProgress(peer: NodeId, matchIndex: int)
      requires Valid() && matchIndex >= -1
      modifies `lead
      ensures View() == old(View()).(lead := Progress(old(lead), peer, matchIndex))
      ensures Valid()
    {
      hide TalliesOk;
      var acknowledged := if peer in lead.matched then lead.matched[peer] else -1;
      if matchIndex > acknowledged {
        acknowledged := matchIndex;
      }
      lead := lead.(matched := lead.matched[peer := acknowledged]);
      var next := if peer in lead.next then lead.next[peer] else 0;
      if next < acknowledged + 1 {
        next := acknowledged + 1;
      }
      lead := lead.(next := lead.next[peer := next], modes := lead.modes[peer := Replicate]);
    }

    // ── clients ─────────────────────────────────────────────────────────────

    /** Position of an earlier entry of the same client request, or the length of the log. */
    method FindDuplicate(data: Command) returns (i: nat)
      ensures i == DuplicateOf(journal.log, data)
    {
      if !(data.Client? && data.key.Some?) {
        return |journal.log|;
      }
      ghost var key := data.key.value;
      i := 0;
      while i < |journal.log|
        invariant i <= |journal.log|
        invariant RaftEngine.FindDuplicate(journal.log, key) == i + RaftEngine.FindDuplicate(journal.log[i..], key)
      {
        var entry := journal.log[i];
        assert journal.log[i..][0] == entry && journal.log[i..][1..] == journal.log[i + 1..];
        if entry.data.Client? && entry.data.key == data.key {
          return;
        }
        i := i + 1;
      }
    }

    method AwaitCommit(index: nat, entry: Entry, ticket: nat) returns (out: set<Message>)
      requires Valid()
      modifies `commitment
      ensures Out(View(), out) == RaftEngine.AwaitCommit(id, old(View()), index, entry, ticket)
      ensures Valid()
    {
      hide TalliesOk;
      out := {};
      if commitment.index >= index {
        out := {ClientReply(id, index, entry, true)};
      } else if ballot.role != Leader {
        out := {ClientReply(id, index, entry, false)};
      } else {
        commitment := commitment.(waiters := commitment.waiters + {CommitWaiter(ticket, index, entry)});
      }
    }

    method ClientAppend(data: Command, ticket: nat) returns (out: set<Message>)
      requires Valid()
      modifies `journal, `commitment, `lead
      ensures Out(View(), out) == RaftEngine.ClientAppend(cfg, id, old(View()), data, ticket)
      ensures Valid()
    {
      hide TalliesOk, RaftEngine.AwaitCommit, RaftEngine.AppendToLog, DuplicateOf;
      var duplicateIndex := FindDuplicate(data);
      if duplicateIndex < |journal.log| {
        out := AwaitCommit(duplicateIndex, journal.log[duplicateIndex], ticket);
        return;
      }
      var entry := Entry(ballot.term, |journal.log|, data);
      var appended := AppendToLog([entry]);
      var awaited := AwaitCommit(entry.index, entry, ticket);
      out := appended + awaited;
    }

    // ── ReadIndex ───────────────────────────────────────────────────────────

    /** Opens a read, or refuses it: when not leading, and until the term's no-op has committed. */
    method StartRead(ticket: nat) returns (started: bool, out: set<Message>)
      requires Valid()
      modifies `rpcs, `pendingReads
      ensures Valid() && started == MayStartRead(old(View()))
      ensures Out(View(), out) == if started then RaftEngine.StartRead(cfg, id, old(View()), ticket) else Out(old(View()), {})
    {
      hide TalliesOk, ClampedNext;
      started, out := false, {};
      if ballot.role != Leader {
        return;
      }
      if lead.noopIndex.Some? && commitment.index < lead.noopIndex.value {
        return;
      }
      started := true;
      ReadTally(cfg, id, ballot, rpcs, ticket);
      pendingReads := pendingReads[ticket := Read(ballot.term, commitment.index, {})];
      BeatsOfRead(cfg, id, old(View()), View(), ticket);
      out := ConfirmLeadership(ticket);
    }

    method ConfirmLeadership(ticket: nat) returns (out: set<Message>)
      modifies `rpcs
      ensures rpcs == old(rpcs) + Outstanding(FanOut(cfg, id, ticket, ballot.term), ReadRpc(ticket))
      ensures out == Heartbeats(old(View()), FanOut(cfg, id, ticket, ballot.term))
    {
      hide Outstanding, Heartbeats, Requests;
      ghost var s := View();
      out := {};
      var todo := Peers(cfg, id);
      ghost var asked: set<Call> := {};
      AskNone(ReadRpc(ticket), PreVote(0, 0));
      BeatNone(s);
      while todo != {}
        invariant todo <= Peers(cfg, id)
        invariant asked == set p | p in Peers(cfg, id) - todo :: Call(ticket, id, p, ballot.term)
        invariant rpcs == old(rpcs) + Outstanding(asked, ReadRpc(ticket))
        invariant out == Heartbeats(s, asked)
        decreases |todo|
      {
        var p :| p in todo;
        var call := Call(ticket, id, p, ballot.term);
        AskOne(asked, call, ReadRpc(ticket), PreVote(0, 0));
        BeatOne(s, asked, call);
        AskMore(cfg, id, ticket, ballot.term, todo, p);
        todo := todo - {p};
        asked := asked + {call};
        var next := if p in lead.next && lead.next[p] <= |journal.log| then lead.next[p] else |journal.log|;
        rpcs := rpcs[call := ReadRpc(ticket)];
        out := out + {Req(call, AppendEntries(next - 1, if next > 0 then journal.log[next - 1].term else 0,
                                              journal.log[next..next], commitment.index))};
      }
      assert asked == FanOut(cfg, id, ticket, ballot.term);
    }

    /** Any answer in the read's own term confirms the leadership, a rejection too. */
    method OnReadResponse(call: Call, response: Response) returns (out: set<Message>)
      requires Valid() && call in rpcs && rpcs[call].ReadRpc?
      modifies `stored, `ballot, `votes, `journal, `commitment, `lead, `rpcs, `pendingReads
      ensures Out(View(), out) == RaftEngine.OnReadResponse(id, old(View()).(rpcs := old(rpcs) - {call}), call, old(rpcs)[call], response)
      ensures Valid()
    {
      hide TalliesOk, RaftEngine.BecomeFollower;
      var readId := rpcs[call].readId;
      SettleTally(ballot, rpcs, call);
      rpcs := rpcs - {call};
      out := {};
      if response.term > ballot.term {
        out := BecomeFollower(response.term, None);
      } else if response.term == call.term && readId in pendingReads {
        var read := pendingReads[readId];
        pendingReads := pendingReads[readId := read.(confirmed := read.confirmed + {call.callee})];
      }
    }

    /** Answers a confirmed read from the applied state, or refuses. */
    method AnswerRead(readId: nat) returns (out: set<Message>)
      requires Valid() && readId in pendingReads
      modifies `pendingReads
      ensures Valid()
      ensures Out(View(), out) == if MayAnswerRead(cfg, old(View()), readId) then RaftEngine.AnswerRead(id, old(View()), readId)
                                  else Out(old(View()), {})
    {
      hide TalliesOk;
      out := {};
      var read := pendingReads[readId];
      if 1 + |read.confirmed| >= QuorumSize(cfg) && ballot.term == read.term && ballot.role == Leader
         && |commitment.applied| - 1 >= read.readIndex {
        pendingReads := pendingReads - {readId};
        out := {ReadAnswer(id, readId, commitment.applied)};
      }
    }

    /** The zero-delay callback after a commit. It does not look at which leadership queued it. */
    method FireBroadcast()
      requires Valid()
      modifies `lead
      ensures Valid() && View() == RaftEngine.FireBroadcast(old(View()))
    {
      lead := lead.(noopIndex := None, broadcast := None);
    }

    /** A client's wait times out: it is told whether its entry is committed by now. */
    method ExpireCommitWaiter(waiter: CommitWaiter) returns (out: set<Message>)
      requires Valid() && waiter in commitment.waiters
      modifies `commitment
      ensures Valid() && Out(View(), out) == RaftEngine.ExpireCommitWaiter(id, old(View()), waiter)
    {
      hide TalliesOk;
      out := {ClientReply(id, waiter.index, waiter.entry, commitment.index >= waiter.index)};
      commitment := commitment.(waiters := commitment.waiters - {waiter});
    }

    /** A request of whatever kind fails: only an AppendEntries leaves more behind than a call settled. */
    method OnRpcError(call: Call)
      requires Valid() && call in rpcs && SensibleRpc(rpcs[call])
      modifies `rpcs, `lead
      ensures Valid() && View() == HandleError(old(View()), call)
    {
      hide TalliesOk, RaftEngine.OnAppendError;
      if rpcs[call].AppendRpc? {
        OnAppendError(call);
      } else {
        SettleTally(ballot, rpcs, call);
        rpcs := rpcs - {call};
      }
    }

    // ── restart ─────────────────────────────────────────────────────────────

    /** A process starting over what an earlier one left on disk replays its committed prefix. */
    constructor (cfg: Config, id: NodeId, stable: Stable, entries: seq<Entry>, ghost crashed: NodeState)
      requires -1 <= stable.commit && WellFormed(crashed) && !crashed.panicked
      requires crashed.stable == stable && crashed.journal.log == entries
      ensures Valid() && this.cfg == cfg && this.id == id && View() == Restart(crashed)
    {
      this.cfg, this.id := cfg, id;
      up, panicked, stored := true, false, stable;
      ballot := EmptyBallot(stable.term, stable.votedFor);
      votes, granted := 0, 0;
      journal := Journal(entries, |entries|, 0, {});
      commitment := Commitment(Min(stable.commit, |entries| - 1), [], false, {});
      lead, rpcs, pendingReads := NO_LEADERSHIP, map[], map[];
      new;
      ApplyCommittedEntries();
    }
  }
}
