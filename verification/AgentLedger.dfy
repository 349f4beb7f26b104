/**
 * What replaying a log of agent commands guarantees: resource authorizations serialize in log order,
 * no resource version is produced twice, and the effect ledger only moves forward.
 */
module AgentLedger {
  import opened AgentModel

  // ── the resource history of a log ─────────────────────────────────────────

  datatype Event =
    | Created(resourceId: Id, resource: Resource)
    | Transaction(executionId: Id, effectId: Id, readSet: ReadSet, writeSet: WriteSet)

  function EventOf(s: State, c: Command, index: nat): seq<Event> {
    if Apply(s, c, index).reply != Mutated then []
    else match c
      case CreateResource(resourceId, _, _) => [Created(resourceId, Apply(s, c, index).state.resources[resourceId])]
      case AuthorizeResource(executionId, effectId, _, _, _) =>
        var x := s.executions[executionId];
        [Transaction(executionId, effectId, x.readSet, x.writeSet)]
      case _ => []
  }

  function History(log: seq<Command>): seq<Event> {
    if log == [] then []
    else
      var n := |log| - 1;
      History(log[..n]) + EventOf(Replay(log[..n]), log[n], n)
  }

  /**
   * One agent at a time: each transaction finds every resource it read at the version it read,
   * applies its operations, and moves what it wrote to the next version.
   */
  function Serial(history: seq<Event>): Option<map<Id, Resource>> {
    if history == [] then Some(map[])
    else
      var n := |history| - 1;
      match Serial(history[..n])
      case None => None
      case Some(resources) => SerialStep(resources, history[n])
  }

  function SerialStep(resources: map<Id, Resource>, event: Event): Option<map<Id, Resource>> {
    match event
    case Created(resourceId, resource) => if resourceId in resources then None else Some(resources[resourceId := resource])
    case Transaction(_, _, readSet, writeSet) =>
      if VersionsCurrent(resources, readSet) && WritesFit(resources, writeSet) && writeSet.Keys <= readSet.Keys
      then Some(Written(resources, writeSet)) else None
  }

  lemma StepSerializes(s: State, c: Command, index: nat)
    requires PlansOk(s)
    ensures var events := EventOf(s, c, index);
            var s' := Apply(s, c, index).state;
            if events == [] then s'.resources == s.resources
            else |events| == 1 && SerialStep(s.resources, events[0]) == Some(s'.resources)
  {
  }

  /** A recorded plan writes only what it read. */
  ghost predicate PlansOk(s: State) {
    forall x :: x in s.executions ==> s.executions[x].writeSet.Keys <= s.executions[x].readSet.Keys
  }

  lemma {:induction false} PlansAreOk(log: seq<Command>)
    ensures PlansOk(Replay(log))
  {
    if log != [] {
      var n := |log| - 1;
      PlansAreOk(log[..n]);
      PlansStep(Replay(log[..n]), log[n], n);
    }
  }

  lemma PlansStep(s: State, c: Command, index: nat)
    requires PlansOk(s)
    ensures PlansOk(Apply(s, c, index).state)
  {
    hide PlansOk;
    match c
    case Plan(_, _, _) => PlanPlans(s, c);
    case CreateExecution(_, _, _, _) => CreatePlans(s, c);
    case _ => OtherPlans(s, c, index);
  }

  lemma PlanPlans(s: State, c: Command)
    requires PlansOk(s) && c.Plan?
    ensures PlansOk(ApplyPlan(s, c).state)
  {
  }

  lemma CreatePlans(s: State, c: Command)
    requires PlansOk(s) && c.CreateExecution?
    ensures PlansOk(ApplyCreateExecution(s, c).state)
  {
  }

  lemma OtherPlans(s: State, c: Command, index: nat)
    requires PlansOk(s) && !c.Plan? && !c.CreateExecution?
    ensures PlansOk(Apply(s, c, index).state)
  {
    hide PlansOk, ApplyPlan, ApplyCreateExecution, VersionsCurrent, WritesFit, SameAuthorization, Written, VersionsOf;
    PlansCarried(s, Apply(s, c, index).state);
  }

  ghost predicate PlanOf(s: State, s': State, x: Id) {
    && (x in s'.executions <==> x in s.executions)
    && (x in s.executions ==>
          s'.executions[x].readSet == s.executions[x].readSet && s'.executions[x].writeSet == s.executions[x].writeSet)
  }

  lemma PlansCarried(s: State, s': State)
    requires PlansOk(s) && forall x :: PlanOf(s, s', x)
    ensures PlansOk(s')
  {
    forall x | x in s'.executions ensures s'.executions[x].writeSet.Keys <= s'.executions[x].readSet.Keys {
      assert PlanOf(s, s', x);
    }
  }

  /** The concurrent agents of any log are serialized, in log order, and their resources are the serial result. */
  lemma {:induction false} Serializable(log: seq<Command>)
    ensures Serial(History(log)) == Some(Replay(log).resources)
  {
    if log != [] {
      var n := |log| - 1;
      Serializable(log[..n]);
      PlansAreOk(log[..n]);
      StepSerializes(Replay(log[..n]), log[n], n);
      var events := EventOf(Replay(log[..n]), log[n], n);
      if events != [] {
        assert History(log)[..|History(log)| - 1] == History(log[..n]);
      } else {
        assert History(log) == History(log[..n]);
      }
    }
  }

  // ── one resource ──────────────────────────────────────────────────────────

  /** A resource's life on its own: created once, then the writes addressed to it, in order. */
  function Fold(history: seq<Event>, r: Id): Option<Resource> {
    if history == [] then None
    else
      var n := |history| - 1;
      var before := Fold(history[..n], r);
      match history[n]
      case Created(resourceId, resource) => if resourceId == r then Some(resource) else before
      case Transaction(_, _, _, writeSet) =>
        if r !in writeSet || before.None? then before
        else
          match ApplyOperations(before.value.state, writeSet[r])
          case None => before
          case Some(state) => Some(Resource(before.value.version + 1, state))
  }

  lemma {:induction false} SerialIsFold(history: seq<Event>, r: Id)
    requires Serial(history).Some?
    ensures Fold(history, r) == if r in Serial(history).value then Some(Serial(history).value[r]) else None
  {
    if history != [] {
      var n := |history| - 1;
      SerialIsFold(history[..n], r);
    }
  }

  /** Each resource is the fold of the write sets authorized on it. */
  lemma ResourceIsFold(log: seq<Command>, r: Id)
    ensures Fold(History(log), r) == if r in Replay(log).resources then Some(Replay(log).resources[r]) else None
  {
    Serializable(log);
    SerialIsFold(History(log), r);
  }

  // ── versions ──────────────────────────────────────────────────────────────

  lemma {:induction false} SerialPrefix(history: seq<Event>, k: nat)
    requires k <= |history| && Serial(history).Some?
    ensures Serial(history[..k]).Some?
    decreases |history|
  {
    if k < |history| {
      var n := |history| - 1;
      SerialPrefix(history[..n], k);
      assert history[..n][..k] == history[..k];
    } else {
      assert history[..k] == history;
    }
  }

  /** The version resource r has once event i has happened. */
  ghost function VersionAfter(history: seq<Event>, i: nat, r: Id): int
    requires i < |history|
  {
    var serial := Serial(history[..i + 1]);
    if serial.Some? && r in serial.value then serial.value[r].version else -1
  }

  ghost predicate Writes(event: Event, r: Id) {
    event.Transaction? && r in event.writeSet
  }

  lemma SerialStepVersion(resources: map<Id, Resource>, event: Event, r: Id)
    requires SerialStep(resources, event).Some?
    ensures var after := SerialStep(resources, event).value;
            && (r in resources ==> r in after && after[r].version >= resources[r].version)
            && (r !in resources && r in after ==> event.Created?)
            && (Writes(event, r) ==> r in resources && after[r].version == resources[r].version + 1)
  {
  }

  lemma StepVersion(history: seq<Event>, i: nat, r: Id)
    requires 0 < i < |history| && Serial(history).Some?
    ensures VersionAfter(history, i, r) >= VersionAfter(history, i - 1, r)
    ensures Writes(history[i], r) ==> VersionAfter(history, i, r) == VersionAfter(history, i - 1, r) + 1 && VersionAfter(history, i - 1, r) >= 0
  {
    hide SerialStep;
    SerialPrefix(history, i + 1);
    assert history[..i + 1][..i] == history[..i];
    SerialStepVersion(Serial(history[..i]).value, history[i], r);
  }

  lemma {:induction false} VersionsRise(history: seq<Event>, i: nat, j: nat, r: Id)
    requires i <= j < |history| && Serial(history).Some?
    ensures VersionAfter(history, i, r) <= VersionAfter(history, j, r)
    ensures i < j && Writes(history[j], r) ==> VersionAfter(history, i, r) < VersionAfter(history, j, r)
    decreases j
  {
    if i < j {
      StepVersion(history, j, r);
      VersionsRise(history, i, j - 1, r);
    }
  }

  // ── effects ───────────────────────────────────────────────────────────────

  function Rank(status: Status): nat {
    match status
    case IntentRecorded => 0
    case ReconciliationRequired => 1
    case ResultRecorded => 2
    case EffectCommitted => 3
  }

  ghost predicate MovedForward(before: Effect, after: Effect) {
    && after.intent == before.intent && Rank(after.status) >= Rank(before.status) && after.attempts >= before.attempts
    && (before.result != Null ==> after.result == before.result)
  }

  /** A result is recorded exactly from the status that says so. */
  predicate ResultMatches(e: Effect) {
    e.result != Null <==> Rank(e.status) >= 2
  }

  ghost predicate ResultsMatch(s: State) {
    forall x, f :: HasEffect(s, x, f) ==> ResultMatches(s.executions[x].effects[f])
  }

  /** What one command can do to an effect: nothing, one step forward, or record it. */
  ghost predicate EffectStep(s: State, s': State, x: Id, f: Id) {
    && (HasEffect(s, x, f) ==>
          && HasEffect(s', x, f)
          && (ResultMatches(s.executions[x].effects[f]) ==>
                && MovedForward(s.executions[x].effects[f], s'.executions[x].effects[f])
                && ResultMatches(s'.executions[x].effects[f])))
    && (HasEffect(s', x, f) && !HasEffect(s, x, f) ==> ResultMatches(s'.executions[x].effects[f]))
  }

  lemma LedgerCommands(s: State, c: Command, index: nat, x: Id, f: Id)
    requires c.AuthorizeResource? || c.RecordIntent? || c.Dispatch? || c.RequireReconciliation? || c.RecordResult? || c.CommitEffect?
    ensures EffectStep(s, Apply(s, c, index).state, x, f)
  {
    hide EffectStep, ApplyAuthorize, ApplyIntent, ApplyDispatch, ApplyReconciliation, ApplyResult, ApplyCommit;
    match c
    case AuthorizeResource(_, _, _, _, _) => AuthorizeEffects(s, c, index, x, f);
    case RecordIntent(_, _, _, _, _) => IntentEffects(s, c, x, f);
    case _ =>
      AttemptEffects(s, c, x, f);
      ResultEffects(s, c, x, f);
  }

  lemma AttemptEffects(s: State, c: Command, x: Id, f: Id)
    ensures c.Dispatch? ==> EffectStep(s, ApplyDispatch(s, c).state, x, f)
    ensures c.RequireReconciliation? ==> EffectStep(s, ApplyReconciliation(s, c).state, x, f)
  {
  }

  lemma ResultEffects(s: State, c: Command, x: Id, f: Id)
    ensures c.RecordResult? ==> EffectStep(s, ApplyResult(s, c).state, x, f)
    ensures c.CommitEffect? ==> EffectStep(s, ApplyCommit(s, c).state, x, f)
  {
  }

  lemma AuthorizeEffects(s: State, c: Command, index: nat, x: Id, f: Id)
    requires c.AuthorizeResource?
    ensures EffectStep(s, ApplyAuthorize(s, c, index).state, x, f)
  {
    hide VersionsCurrent, WritesFit, SameAuthorization, Written, VersionsOf;
  }

  lemma IntentEffects(s: State, c: Command, x: Id, f: Id)
    requires c.RecordIntent?
    ensures EffectStep(s, ApplyIntent(s, c).state, x, f)
  {
    hide SameAuthorization;
  }

  lemma OtherCommands(s: State, c: Command, index: nat, x: Id, f: Id)
    requires !(c.AuthorizeResource? || c.RecordIntent? || c.Dispatch? || c.RequireReconciliation? || c.RecordResult? || c.CommitEffect?)
    ensures EffectStep(s, Apply(s, c, index).state, x, f)
  {
    hide ReadSetOf, WriteSetOf, ValidReads, ValidWrites;
  }

  lemma StepMovesForward(s: State, c: Command, index: nat, x: Id, f: Id)
    ensures EffectStep(s, Apply(s, c, index).state, x, f)
  {
    hide Apply, EffectStep;
    if c.AuthorizeResource? || c.RecordIntent? || c.Dispatch? || c.RequireReconciliation? || c.RecordResult? || c.CommitEffect? {
      LedgerCommands(s, c, index, x, f);
    } else {
      OtherCommands(s, c, index, x, f);
    }
  }

  lemma {:induction false} ResultsAlwaysMatch(log: seq<Command>)
    ensures ResultsMatch(Replay(log))
  {
    if log != [] {
      hide Apply;
      var n := |log| - 1;
      ResultsAlwaysMatch(log[..n]);
      forall x, f | HasEffect(Replay(log), x, f) ensures ResultMatches(Replay(log).executions[x].effects[f]) {
        StepMovesForward(Replay(log[..n]), log[n], n, x, f);
      }
    }
  }

  /** Over any log, an effect never disappears, its status and attempts never regress, and a recorded result stays. */
  lemma {:induction false} EffectsNeverRegress(log: seq<Command>, k: nat, x: Id, f: Id)
    requires k <= |log| && HasEffect(Replay(log[..k]), x, f)
    ensures HasEffect(Replay(log), x, f)
    ensures MovedForward(Replay(log[..k]).executions[x].effects[f], Replay(log).executions[x].effects[f])
    decreases |log|
  {
    if k == |log| {
      assert log[..k] == log;
    } else {
      var n := |log| - 1;
      assert log[..n][..k] == log[..k];
      EffectsNeverRegress(log[..n], k, x, f);
      ResultsAlwaysMatch(log[..n]);
      StepMovesForward(Replay(log[..n]), log[n], n, x, f);
    }
  }

  // ── one effect per version ────────────────────────────────────────────────

  /** The authorization recorded with an effect is transaction i of the history, and its versions are that moment's. */
  ghost predicate LoggedAt(history: seq<Event>, i: nat, x: Id, f: Id, a: Authorization) {
    && i < |history| && history[i] == Transaction(x, f, a.readSet, a.writeSet)
    && a.resultingVersions.Keys == a.writeSet.Keys
    && forall r :: r in a.writeSet ==> a.resultingVersions[r] == VersionAfter(history, i, r)
  }

  lemma LoggedStays(history: seq<Event>, more: seq<Event>, i: nat, x: Id, f: Id, a: Authorization)
    requires LoggedAt(history, i, x, f, a)
    ensures LoggedAt(history + more, i, x, f, a)
  {
    assert (history + more)[..i + 1] == history[..i + 1];
  }

  lemma {:induction false} EffectsAreLogged(log: seq<Command>, x: Id, f: Id) returns (i: nat)
    requires HasEffect(Replay(log), x, f) && Replay(log).executions[x].effects[f].intent.authorization.Some?
    ensures LoggedAt(History(log), i, x, f, Replay(log).executions[x].effects[f].intent.authorization.value)
  {
    hide Apply, EventOf;
    assert log != [];
    var n := |log| - 1;
    var before := Replay(log[..n]);
    var events := EventOf(before, log[n], n);
    if HasEffect(before, x, f) {
      ResultsAlwaysMatch(log[..n]);
      StepMovesForward(before, log[n], n, x, f);
      i := EffectsAreLogged(log[..n], x, f);
      LoggedStays(History(log[..n]), events, i, x, f, Replay(log).executions[x].effects[f].intent.authorization.value);
    } else {
      NewlyAuthorized(before, log[n], n, x, f);
      i := |History(log)| - 1;
      Serializable(log);
      assert History(log)[..i + 1] == History(log);
    }
  }

  lemma NewlyAuthorized(s: State, c: Command, index: nat, x: Id, f: Id)
    requires !HasEffect(s, x, f) && HasEffect(Apply(s, c, index).state, x, f)
    requires Apply(s, c, index).state.executions[x].effects[f].intent.authorization.Some?
    ensures var a := Apply(s, c, index).state.executions[x].effects[f].intent.authorization.value;
            && EventOf(s, c, index) == [Transaction(x, f, a.readSet, a.writeSet)]
            && a.resultingVersions.Keys == a.writeSet.Keys && a.committedAtIndex == index
            && forall r :: r in a.writeSet ==>
                 r in Apply(s, c, index).state.resources && a.resultingVersions[r] == Apply(s, c, index).state.resources[r].version
  {
    match c
    case AuthorizeResource(_, _, _, _, _) => hide SameAuthorization;
    case _ => OnlyAuthorizationsAuthorize(s, c, index, x, f);
  }

  lemma OnlyAuthorizationsAuthorize(s: State, c: Command, index: nat, x: Id, f: Id)
    requires !c.AuthorizeResource? && !HasEffect(s, x, f)
    ensures HasEffect(Apply(s, c, index).state, x, f) ==>
              Apply(s, c, index).state.executions[x].effects[f].intent.authorization.None?
  {
    hide VersionsCurrent, WritesFit, SameAuthorization, Written, VersionsOf;
  }

  /** For each resource and version, at most one effect of the whole cluster of agents moved it there. */
  lemma OneEffectPerVersion(log: seq<Command>, x: Id, f: Id, y: Id, g: Id, r: Id)
    requires HasEffect(Replay(log), x, f) && HasEffect(Replay(log), y, g)
    requires var a, b := Replay(log).executions[x].effects[f].intent.authorization, Replay(log).executions[y].effects[g].intent.authorization;
             && a.Some? && b.Some? && r in a.value.resultingVersions && r in b.value.resultingVersions
             && a.value.resultingVersions[r] == b.value.resultingVersions[r]
    ensures x == y && f == g
  {
    hide Replay, History, Serial, Apply;
    var i := EffectsAreLogged(log, x, f);
    var j := EffectsAreLogged(log, y, g);
    Serializable(log);
    if i < j {
      VersionsRise(History(log), i, j, r);
    } else if j < i {
      VersionsRise(History(log), j, i, r);
    }
  }

  // ── failures and repetitions ──────────────────────────────────────────────

  /** Whatever is not accepted as a mutation leaves no trace. */
  lemma OnlyMutationsChange(s: State, c: Command, index: nat)
    ensures Apply(s, c, index).reply != Mutated ==> Apply(s, c, index).state == s
  {
  }

  /** What an effect is recorded with is never empty. */
  ghost predicate IntentOk(f: Id, intent: Intent) {
    && f != "" && intent.logicalAction != ""
    && (intent.authorization.Some? ==> intent.authorization.value.readSet != map[] && intent.authorization.value.writeSet != map[])
  }

  lemma NewIntent(s: State, c: Command, index: nat, x: Id, f: Id)
    requires !HasEffect(s, x, f) && HasEffect(Apply(s, c, index).state, x, f)
    ensures IntentOk(f, Apply(s, c, index).state.executions[x].effects[f].intent)
  {
    hide VersionsCurrent, WritesFit, SameAuthorization, Written, VersionsOf, ReadSetOf, WriteSetOf, ValidReads, ValidWrites;
  }

  lemma {:induction false} IntentsAreOk(log: seq<Command>, x: Id, f: Id)
    requires HasEffect(Replay(log), x, f)
    ensures IntentOk(f, Replay(log).executions[x].effects[f].intent)
    decreases |log|
  {
    hide Apply, IntentOk;
    assert log != [];
    var n := |log| - 1;
    if HasEffect(Replay(log[..n]), x, f) {
      IntentsAreOk(log[..n], x, f);
      ResultsAlwaysMatch(log[..n]);
      StepMovesForward(Replay(log[..n]), log[n], n, x, f);
    } else {
      NewIntent(Replay(log[..n]), log[n], n, x, f);
    }
  }

  /** The execution runs, on the snapshot and the plan that were recorded, and the command asks for what was recorded. */
  predicate Recognised(x: Execution, intent: Intent, c: Command)
    requires c.AuthorizeResource?
  {
    && x.status == Running && x.snapshot.id == intent.snapshotId
    && intent.authorization.Some?
    && x.readSet == intent.authorization.value.readSet && x.writeSet == intent.authorization.value.writeSet
    && c.snapshotId == intent.snapshotId && c.logicalAction == intent.logicalAction && c.parameters == intent.parameters
  }

  lemma KnownEffect(s: State, c: Command, index: nat)
    requires c.AuthorizeResource? && HasEffect(s, c.executionId, c.effectId)
    requires IntentOk(c.effectId, s.executions[c.executionId].effects[c.effectId].intent)
    ensures var x := s.executions[c.executionId];
            Apply(s, c, index) == Outcome(s, if Recognised(x, x.effects[c.effectId].intent, c) then Duplicate else Failed)
  {
    hide VersionsCurrent, WritesFit, Written, VersionsOf;
  }

  /**
   * Once an effect is recorded, no authorization of it changes anything ever again. It is answered as a duplicate
   * exactly when it is recognised, and as a conflict otherwise.
   */
  lemma RepeatedAuthorization(log: seq<Command>, k: nat, c: Command, index: nat)
    requires k <= |log| && c.AuthorizeResource? && HasEffect(Replay(log[..k]), c.executionId, c.effectId)
    ensures var s, intent := Replay(log), Replay(log[..k]).executions[c.executionId].effects[c.effectId].intent;
            && HasEffect(s, c.executionId, c.effectId)
            && Apply(s, c, index) == Outcome(s, if Recognised(s.executions[c.executionId], intent, c) then Duplicate else Failed)
  {
    hide Apply, Replay, Recognised;
    EffectsNeverRegress(log, k, c.executionId, c.effectId);
    IntentsAreOk(log, c.executionId, c.effectId);
    KnownEffect(Replay(log), c, index);
  }

  lemma AcceptedIsRecorded(s: State, c: Command, index: nat)
    requires c.AuthorizeResource? && Apply(s, c, index).reply == Mutated
    ensures c.executionId in s.executions && HasEffect(Apply(s, c, index).state, c.executionId, c.effectId)
    ensures var x, intent := s.executions[c.executionId], Apply(s, c, index).state.executions[c.executionId].effects[c.effectId].intent;
            && intent.logicalAction == c.logicalAction && intent.parameters == c.parameters && intent.snapshotId == c.snapshotId == x.snapshot.id
            && intent.authorization.Some?
            && intent.authorization.value.readSet == x.readSet && intent.authorization.value.writeSet == x.writeSet
  {
    hide SameAuthorization;
  }

  /** Where the plan, the snapshot and the phase that a command was accepted under stand as they did. */
  predicate StandsAs(x: Execution, earlier: Execution) {
    x.status == Running && x.snapshot.id == earlier.snapshot.id && x.readSet == earlier.readSet && x.writeSet == earlier.writeSet
  }

  /** An accepted authorization repeated at any later index: a duplicate exactly while what it was accepted under stands. */
  lemma AcceptedThenRepeated(log: seq<Command>, i: nat, index: nat)
    requires i < |log| && log[i].AuthorizeResource? && Apply(Replay(log[..i]), log[i], i).reply == Mutated
    ensures var s, before, id := Replay(log), Replay(log[..i]), log[i].executionId;
            && id in before.executions && id in s.executions
            && Apply(s, log[i], index) == Outcome(s, if StandsAs(s.executions[id], before.executions[id]) then Duplicate else Failed)
  {
    hide Apply;
    AcceptedIsRecorded(Replay(log[..i]), log[i], i);
    assert log[..i + 1][..i] == log[..i];
    RepeatedAuthorization(log, i + 1, log[i], index);
  }

  const SNAPSHOT := Snapshot("s", Null)
  const REPETITION := AuthorizeResource("x", "e", "charge", map[], "s")

  function Writing(field: string, version: int): Command {
    Plan("x", [ReadEntry("r", version)], [WriteEntry("r", [Set(field, Some(Null))])])
  }

  /** An execution and a resource, a plan, its authorization, and another plan. */
  const REPLANNED: seq<Command> := [
    CreateExecution("x", "w", Some(SNAPSHOT), map[]), CreateResource("r", None, None),
    Writing("f", 1), REPETITION, Writing("g", 2)]

  function Planned(observed: ReadSet, writes: WriteSet, version: nat): Execution {
    Execution("w", SNAPSHOT, 0, version, map[], Running, None, observed, writes, map[])
  }

  lemma OneWriting(field: string, version: nat, s: State, x: Execution, index: nat)
    requires SafeField(field) && "x" in s.executions && s.executions["x"] == x && x.status == Running && "r" in s.resources
    ensures Apply(s, Writing(field, version), index)
            == WithExecution(s, "x", x.(readSet := map["r" := version], writeSet := map["r" := [Set(field, Some(Null))]]))
  {
    var c := Writing(field, version);
    assert c.observed[..0] == [] && c.writes[..0] == [];
    assert ReadSetOf(c.observed) == map["r" := version] && WriteSetOf(c.writes) == map["r" := [Set(field, Some(Null))]];
  }

  lemma BeforeRepetition()
    ensures Replay(REPLANNED[..3])
            == State(map["x" := Planned(map["r" := 1], map["r" := [Set("f", Some(Null))]], 2)], map["r" := Resource(1, map[])])
  {
    var created := State(map["x" := Planned(map[], map[], 1)], map[]);
    var stocked := created.(resources := map["r" := Resource(1, map[])]);
    assert Replay(REPLANNED[..1]) == created by {
      assert REPLANNED[..1][..0] == [];
    }
    assert Replay(REPLANNED[..2]) == stocked by {
      assert REPLANNED[..2][..1] == REPLANNED[..1];
    }
    assert REPLANNED[..3][..2] == REPLANNED[..2];
    OneWriting("f", 1, stocked, stocked.executions["x"], 2);
  }

  lemma AcceptedFirst(s: State)
    requires s == State(map["x" := Planned(map["r" := 1], map["r" := [Set("f", Some(Null))]], 2)], map["r" := Resource(1, map[])])
    ensures var t := Apply(s, REPETITION, 3);
            t.reply == Mutated && "x" in t.state.executions && t.state.executions["x"].status == Running && "r" in t.state.resources
  {
    hide ApplyOperations;
    SetMeans(map[], "f", Some(Null));
    var x := s.executions["x"];
    assert "r" in x.readSet && "r" in x.writeSet;
    assert VersionsCurrent(s.resources, x.readSet) && WritesFit(s.resources, x.writeSet);
  }

  /** After another plan, the repetition of an accepted authorization is refused. */
  lemma ReplannedIsRefused()
    ensures Apply(Replay(REPLANNED[..3]), REPETITION, 3).reply == Mutated
    ensures Apply(Replay(REPLANNED), REPETITION, 5) == Outcome(Replay(REPLANNED), Failed)
  {
    hide Apply, Replay;
    BeforeRepetition();
    var s := Replay(REPLANNED[..3]);
    AcceptedFirst(s);
    var t := Apply(s, REPETITION, 3).state;
    assert REPLANNED[..4][..3] == REPLANNED[..3] && REPLANNED[..5] == REPLANNED && REPLANNED[..5][..4] == REPLANNED[..4];
    LastCommand(REPLANNED[..4]);
    LastCommand(REPLANNED);
    OneWriting("g", 2, t, t.executions["x"], 4);
    AcceptedThenRepeated(REPLANNED, 3, 5);
    var f, g := Set("f", Some(Null)), Set("g", Some(Null));
    assert s.executions["x"].writeSet["r"] == [f] && Replay(REPLANNED).executions["x"].writeSet["r"] == [g] && [f][0] != [g][0];
  }

  lemma LastCommand(log: seq<Command>)
    requires log != []
    ensures Replay(log) == Apply(Replay(log[..|log| - 1]), log[|log| - 1], |log| - 1).state
  {
  }

  // ── stale readers ─────────────────────────────────────────────────────────

  /** The command writes r: an authorization that is accepted, under a plan that writes it. */
  ghost predicate Moves(s: State, c: Command, index: nat, r: Id) {
    && c.AuthorizeResource? && Apply(s, c, index).reply == Mutated
    && c.executionId in s.executions && r in s.executions[c.executionId].writeSet
  }

  lemma MovedByOne(s: State, c: Command, index: nat, r: Id)
    requires r in s.resources
    ensures r in Apply(s, c, index).state.resources
    ensures Apply(s, c, index).state.resources[r].version == s.resources[r].version + (if Moves(s, c, index, r) then 1 else 0)
  {
    hide SameAuthorization, ApplyOperations;
  }

  ghost predicate MovesAt(log: seq<Command>, i: nat, r: Id) {
    i < |log| && Moves(Replay(log[..i]), log[i], i, r)
  }

  /** From command k on, no transaction writes r. */
  ghost predicate Untouched(log: seq<Command>, k: nat, r: Id) {
    forall i: nat :: k <= i < |log| ==> !MovesAt(log, i, r)
  }

  lemma UntouchedFurther(log: seq<Command>, k: nat, r: Id)
    requires k < |log|
    ensures var n := |log| - 1;
            Untouched(log, k, r) <==> Untouched(log[..n], k, r) && !Moves(Replay(log[..n]), log[n], n, r)
  {
    hide Moves, Replay;
    var n := |log| - 1;
    forall i: nat | i < n ensures MovesAt(log[..n], i, r) <==> MovesAt(log, i, r) {
      assert log[..n][..i] == log[..i];
    }
    assert MovesAt(log, n, r) <==> Moves(Replay(log[..n]), log[n], n, r);
  }

  /** The version of r after the log, below every version while there is no r. */
  ghost function VersionOf(log: seq<Command>, r: Id): int {
    if r in Replay(log).resources then Replay(log).resources[r].version else -1
  }

  lemma LastMove(log: seq<Command>, r: Id)
    requires log != [] && VersionOf(log[..|log| - 1], r) >= 0
    ensures var n := |log| - 1;
            VersionOf(log, r) == VersionOf(log[..n], r) + (if Moves(Replay(log[..n]), log[n], n, r) then 1 else 0)
  {
    hide Moves, Apply;
    MovedByOne(Replay(log[..|log| - 1]), log[|log| - 1], |log| - 1, r);
  }

  /** Over any log, a resource's version never falls, and stays the same exactly as long as no transaction writes it. */
  lemma {:induction false} VersionsOverLogs(log: seq<Command>, k: nat, r: Id)
    requires k <= |log| && VersionOf(log[..k], r) >= 0
    ensures VersionOf(log[..k], r) <= VersionOf(log, r)
    ensures VersionOf(log[..k], r) == VersionOf(log, r) <==> Untouched(log, k, r)
    decreases |log|
  {
    if k == |log| {
      assert log[..k] == log;
    } else {
      hide Moves, Untouched, VersionOf;
      var before := log[..|log| - 1];
      assert before[..k] == log[..k];
      VersionsOverLogs(before, k, r);
      LastMove(log, r);
      UntouchedFurther(log, k, r);
    }
  }

  /** A new effect under a plan that read r at another version than r has. */
  lemma StaleIsRefused(s: State, c: Command, index: nat, r: Id)
    requires c.AuthorizeResource? && !HasEffect(s, c.executionId, c.effectId) && c.executionId in s.executions
    requires r in s.executions[c.executionId].readSet && r in s.resources
    requires s.resources[r].version != s.executions[c.executionId].readSet[r]
    ensures Apply(s, c, index) == Outcome(s, Failed)
  {
    hide WritesFit, Written, VersionsOf;
    assert !VersionsCurrent(s.resources, s.executions[c.executionId].readSet);
  }

  /** After a transaction has written r above the version a plan read, no new effect is authorized under that plan. */
  lemma StaleReaderFenced(log: seq<Command>, i: nat, r: Id, c: Command, index: nat)
    requires MovesAt(log, i, r)
    requires c.AuthorizeResource? && c.executionId in Replay(log).executions && !HasEffect(Replay(log), c.executionId, c.effectId)
    requires var plan := Replay(log).executions[c.executionId].readSet; r in plan && plan[r] < VersionOf(log[..i + 1], r)
    ensures Apply(Replay(log), c, index) == Outcome(Replay(log), Failed)
  {
    hide Apply, Moves;
    VersionsOverLogs(log, i + 1, r);
    StaleIsRefused(Replay(log), c, index, r);
  }

  /** Since command k, some transaction has written a resource that this plan reads. */
  ghost predicate Overtaken(log: seq<Command>, k: nat, plan: ReadSet) {
    exists i: nat, r :: k <= i < |log| && r in plan && MovesAt(log, i, r)
  }

  lemma CurrentUnlessOvertaken(log: seq<Command>, k: nat, plan: ReadSet)
    requires k <= |log| && VersionsCurrent(Replay(log[..k]).resources, plan)
    ensures VersionsCurrent(Replay(log).resources, plan) <==> !Overtaken(log, k, plan)
  {
    hide MovesAt, Replay;
    var s, t := Replay(log[..k]), Replay(log);
    forall r | r in plan
      ensures r in t.resources && (t.resources[r].version == plan[r] <==> Untouched(log, k, r))
    {
      VersionsOverLogs(log, k, r);
    }
  }

  /** All that is asked of a new effect besides current versions. */
  predicate Admissible(s: State, c: Command)
    requires c.AuthorizeResource?
  {
    && c.executionId in s.executions && s.executions[c.executionId].status == Running
    && c.effectId != "" && c.logicalAction != "" && c.snapshotId == s.executions[c.executionId].snapshot.id
    && s.executions[c.executionId].readSet != map[] && s.executions[c.executionId].writeSet != map[]
    && WritesFit(s.resources, s.executions[c.executionId].writeSet)
  }

  /**
   * A plan that was current at some moment and still stands: a new effect under it is authorized exactly when it is
   * admissible and no transaction since has written anything the plan reads.
   */
  lemma FencedExactly(log: seq<Command>, k: nat, c: Command, index: nat)
    requires k <= |log| && c.AuthorizeResource? && c.executionId in Replay(log).executions
    requires VersionsCurrent(Replay(log[..k]).resources, Replay(log).executions[c.executionId].readSet)
    requires !HasEffect(Replay(log), c.executionId, c.effectId)
    ensures Apply(Replay(log), c, index).reply == Mutated
            <==> Admissible(Replay(log), c) && !Overtaken(log, k, Replay(log).executions[c.executionId].readSet)
    ensures Apply(Replay(log), c, index).reply != Mutated ==> Apply(Replay(log), c, index) == Outcome(Replay(log), Failed)
  {
    hide Replay, Overtaken, VersionsCurrent, WritesFit;
    CurrentUnlessOvertaken(log, k, Replay(log).executions[c.executionId].readSet);
  }
}
