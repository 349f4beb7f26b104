/**
 * The deterministic reducer for agent executions, as a function from state and command to state and
 * reply. AgentState's methods are proved to compute it.
 */
module AgentModel {

  type Id = string

  datatype Option<+T> = None | Some(value: T)

  datatype Json =
    | Null
    | Bool(flag: bool)
    | Number(number: real)
    | Text(text: string)
    | Array(items: seq<Json>)
    | Object(fields: map<string, Json>)

  type Fields = map<string, Json>

  // ── plans ─────────────────────────────────────────────────────────────────

  /** A value may be missing; only an increment needs one. */
  datatype Operation =
    | Set(field: string, value: Option<Json>)
    | Increment(field: string, amount: Option<real>)
    | AppendUnique(field: string, value: Option<Json>)
    | UnsupportedOperation

  datatype ReadEntry = ReadEntry(resourceId: Id, version: int)
  datatype WriteEntry = WriteEntry(resourceId: Id, operations: seq<Operation>)

  /** Normalised sets: one entry per resource, in resource order. */
  type ReadSet = map<Id, nat>
  type WriteSet = map<Id, seq<Operation>>

  predicate SafeField(field: string) {
    field != "" && field != "__proto__" && field != "constructor" && field != "prototype"
  }

  predicate ValidOperation(op: Operation) {
    match op
    case Set(field, _) => SafeField(field)
    case Increment(field, amount) => SafeField(field) && amount.Some?
    case AppendUnique(field, _) => SafeField(field)
    case UnsupportedOperation => false
  }

  predicate ValidOperations(operations: seq<Operation>) {
    operations != [] && forall k :: 0 <= k < |operations| ==> ValidOperation(operations[k])
  }

  predicate ValidReads(observed: seq<ReadEntry>) {
    && observed != []
    && (forall i :: 0 <= i < |observed| ==> observed[i].resourceId != "" && observed[i].version >= 0)
    && forall i, j :: 0 <= i < j < |observed| ==> observed[i].resourceId != observed[j].resourceId
  }

  predicate ValidWrites(writes: seq<WriteEntry>) {
    && writes != []
    && (forall i :: 0 <= i < |writes| ==> writes[i].resourceId != "" && ValidOperations(writes[i].operations))
    && forall i, j :: 0 <= i < j < |writes| ==> writes[i].resourceId != writes[j].resourceId
  }

  function ReadSetOf(observed: seq<ReadEntry>): ReadSet
    requires forall i :: 0 <= i < |observed| ==> observed[i].version >= 0
  {
    if observed == [] then map[]
    else
      var n := |observed| - 1;
      ReadSetOf(observed[..n])[observed[n].resourceId := observed[n].version]
  }

  function WriteSetOf(writes: seq<WriteEntry>): WriteSet {
    if writes == [] then map[]
    else
      var n := |writes| - 1;
      WriteSetOf(writes[..n])[writes[n].resourceId := writes[n].operations]
  }

  // ── resource operations ───────────────────────────────────────────────────

  /** A field while operations are being applied: an array may for now hold a missing value. */
  datatype Draft = Plain(value: Json) | List(items: seq<Option<Json>>)

  type Drafts = map<string, Draft>

  function Open(items: seq<Json>): seq<Option<Json>> {
    seq(|items|, i requires 0 <= i < |items| => Some(items[i]))
  }

  function Opened(value: Json): Draft {
    if value.Array? then List(Open(value.items)) else Plain(value)
  }

  /** Writing a draft down makes null of what is missing in it. */
  function Closed(draft: Draft): Json {
    match draft
    case Plain(value) => value
    case List(items) => Array(seq(|items|, i requires 0 <= i < |items| => if items[i].Some? then items[i].value else Null))
  }

  function OpenedFields(state: Fields): Drafts {
    map field | field in state :: Opened(state[field])
  }

  function ClosedFields(drafts: Drafts): Fields {
    map field | field in drafts :: Closed(drafts[field])
  }

  /** Setting a field to no value removes it. */
  function ApplyOperation(drafts: Drafts, op: Operation): Option<Drafts> {
    match op
    case Set(field, value) => Some(if value.Some? then drafts[field := Opened(value.value)] else drafts - {field})
    case Increment(field, amount) =>
      var current := if field in drafts then drafts[field] else Plain(Number(0.0));
      if current.Plain? && current.value.Number? && amount.Some?
      then Some(drafts[field := Plain(Number(current.value.number + amount.value))]) else None
    case AppendUnique(field, value) =>
      var current := if field in drafts then drafts[field] else List([]);
      if !current.List? then None
      else Some(drafts[field := if value in current.items then current else List(current.items + [value])])
    case UnsupportedOperation => Some(drafts)
  }

  function DraftOf(state: Fields, ops: seq<Operation>): Option<Drafts>
    decreases |ops|
  {
    if ops == [] then Some(OpenedFields(state))
    else
      var n := |ops| - 1;
      match DraftOf(state, ops[..n])
      case None => None
      case Some(drafts) => ApplyOperation(drafts, ops[n])
  }

  /** All operations in order, or None if one of them does not fit the field it names. */
  function ApplyOperations(state: Fields, ops: seq<Operation>): Option<Fields> {
    match DraftOf(state, ops)
    case None => None
    case Some(drafts) => Some(ClosedFields(drafts))
  }

  // ── what the operations mean ──────────────────────────────────────────────

  lemma ClosedAgain(value: Json)
    ensures Closed(Opened(value)) == value
  {
    if value.Array? {
      assert Closed(Opened(value)).items == value.items;
    }
  }

  lemma OneOperation(state: Fields, op: Operation)
    ensures ApplyOperations(state, [op])
            == match ApplyOperation(OpenedFields(state), op) case None => None case Some(drafts) => Some(ClosedFields(drafts))
  {
    hide ApplyOperation, ClosedFields, OpenedFields;
    assert [op][..0] == [];
    assert DraftOf(state, []) == Some(OpenedFields(state));
  }

  /** A set stores its value, or removes the field, and touches nothing else. */
  lemma SetMeans(state: Fields, field: string, value: Option<Json>)
    ensures ApplyOperations(state, [Set(field, value)]) == Some(if value.Some? then state[field := value.value] else state - {field})
  {
    var after := if value.Some? then state[field := value.value] else state - {field};
    OneOperation(state, Set(field, value));
    var drafts := if value.Some? then OpenedFields(state)[field := Opened(value.value)] else OpenedFields(state) - {field};
    forall other | other in drafts ensures ClosedFields(drafts)[other] == after[other] {
      ClosedAgain(after[other]);
    }
    assert ClosedFields(drafts) == after;
  }

  function ItemsOf(state: Fields, field: string): Option<seq<Json>> {
    if field !in state then Some([]) else if state[field].Array? then Some(state[field].items) else None
  }

  /** An append adds a value that is not there yet; one without a value adds a null, even to an array that has one. */
  lemma AppendMeans(state: Fields, field: string, value: Option<Json>)
    ensures ApplyOperations(state, [AppendUnique(field, value)]) ==
            match ItemsOf(state, field)
            case None => None
            case Some(items) =>
              Some(state[field := Array(if value.None? then items + [Null] else if value.value in items then items else items + [value.value])])
  {
    OneOperation(state, AppendUnique(field, value));
    var before := ItemsOf(state, field);
    if before.Some? {
      var items := before.value;
      var draft := List(if value in Open(items) then Open(items) else Open(items) + [value]);
      AppendedDraft(items, value);
      assert field !in state ==> Open(items) == [];
      assert ApplyOperation(OpenedFields(state), AppendUnique(field, value)) == Some(OpenedFields(state)[field := draft]);
      ClosedWith(state, field, draft);
    }
  }

  /** Closing fields of which one has been changed. */
  lemma ClosedWith(state: Fields, field: string, draft: Draft)
    ensures ClosedFields(OpenedFields(state)[field := draft]) == state[field := Closed(draft)]
  {
    hide Opened, Closed;
    forall other | other in state ensures Closed(Opened(state[other])) == state[other] {
      ClosedAgain(state[other]);
    }
  }

  lemma AppendedDraft(items: seq<Json>, value: Option<Json>)
    ensures Closed(List(if value in Open(items) then Open(items) else Open(items) + [value]))
            == Array(if value.None? then items + [Null] else if value.value in items then items else items + [value.value])
  {
    OpenMembers(items, value);
    var closed := Closed(List(if value in Open(items) then Open(items) else Open(items) + [value])).items;
    assert closed == if value.None? then items + [Null] else if value.value in items then items else items + [value.value];
  }

  lemma OpenMembers(items: seq<Json>, value: Option<Json>)
    ensures value in Open(items) <==> value.Some? && value.value in items
  {
    if value.Some? && value.value in items {
      var i :| 0 <= i < |items| && items[i] == value.value;
      assert Open(items)[i] == value;
    }
  }

  /** Appending in two transactions is appending in one exactly when there is a value to append. */
  lemma AppendedTwice(state: Fields, field: string, value: Option<Json>)
    requires ItemsOf(state, field).Some?
    ensures var append := [AppendUnique(field, value)];
            var once := ApplyOperations(state, append);
            once.Some? && (ApplyOperations(once.value, append) == once <==> value.Some?)
  {
    hide ApplyOperations;
    AppendMeans(state, field, value);
    var once := ApplyOperations(state, [AppendUnique(field, value)]).value;
    AppendMeans(once, field, value);
    if value.None? {
      var twice := ApplyOperations(once, [AppendUnique(field, value)]).value;
      assert |twice[field].items| == |once[field].items| + 1;
    } else {
      var items := once[field].items;
      assert value.value in items && once == once[field := Array(items)];
    }
  }

  // ── state ─────────────────────────────────────────────────────────────────

  datatype Resource = Resource(version: nat, state: Fields)

  datatype Status = IntentRecorded | ReconciliationRequired | ResultRecorded | EffectCommitted

  datatype Authorization = Authorization(readSet: ReadSet, writeSet: WriteSet, resultingVersions: map<Id, nat>, committedAtIndex: nat)

  datatype Intent = Intent(logicalAction: string, parameters: Fields, snapshotId: Id, atStep: nat, authorization: Option<Authorization>)

  datatype Effect = Effect(intent: Intent, status: Status, attempts: nat, result: Json)

  datatype Snapshot = Snapshot(id: Id, body: Json)

  datatype Phase = Running | PausedSemanticConflict | Complete

  datatype Conflict = Conflict(fromSnapshotId: Id, available: Snapshot, decision: string, changed: Json, detectedAtIndex: nat)

  datatype Execution = Execution(
    workflow: string, snapshot: Snapshot, step: nat, version: nat, state: Fields, status: Phase,
    conflict: Option<Conflict>, readSet: ReadSet, writeSet: WriteSet, effects: map<Id, Effect>)

  datatype State = State(executions: map<Id, Execution>, resources: map<Id, Resource>)

  const INITIAL := State(map[], map[])

  datatype Command =
    | CreateExecution(executionId: Id, workflow: string, newSnapshot: Option<Snapshot>, initialState: Fields)
    | CreateResource(resourceId: Id, resourceState: Option<Json>, resourceVersion: Option<int>)
    | Plan(executionId: Id, observed: seq<ReadEntry>, writes: seq<WriteEntry>)
    | AuthorizeResource(executionId: Id, effectId: Id, logicalAction: string, parameters: Fields, snapshotId: Id)
    | RecordIntent(executionId: Id, effectId: Id, logicalAction: string, parameters: Fields, snapshotId: Id)
    | Dispatch(executionId: Id, effectId: Id)
    | RequireReconciliation(executionId: Id, effectId: Id)
    | RecordResult(executionId: Id, effectId: Id, result: Json)
    | CommitEffect(executionId: Id, effectId: Id)
    | Advance(executionId: Id, expectedStep: int, stepLabel: string, patch: Option<Json>)
    | CompleteExecution(executionId: Id, expectedStep: int)
    | DetectConflict(executionId: Id, available: Option<Snapshot>, decision: string, changed: Json)
    | Transition(executionId: Id, fromSnapshotId: Id, to: Option<Snapshot>, approvedBy: Option<string>)

  datatype Reply = Mutated | Duplicate | Failed | Threw

  datatype Outcome = Outcome(state: State, reply: Reply)

  function Unchanged(s: State, reply: Reply): Outcome {
    Outcome(s, reply)
  }

  /** Every accepted mutation of an execution raises its version. */
  function WithExecution(s: State, id: Id, x: Execution): Outcome {
    Outcome(s.(executions := s.executions[id := x.(version := x.version + 1)]), Mutated)
  }

  function WithEffect(s: State, id: Id, x: Execution, effectId: Id, effect: Effect): Outcome {
    WithExecution(s, id, x.(effects := x.effects[effectId := effect]))
  }

  // ── executions and resources ──────────────────────────────────────────────

  function ApplyCreateExecution(s: State, c: Command): Outcome
    requires c.CreateExecution?
  {
    if c.executionId == "" || c.workflow == "" || c.newSnapshot.None? || c.newSnapshot.value.id == "" then Unchanged(s, Failed)
    else if c.executionId in s.executions then
      var x := s.executions[c.executionId];
      Unchanged(s, if x.workflow == c.workflow && x.snapshot == c.newSnapshot.value && x.state == c.initialState then Duplicate else Failed)
    else
      var x := Execution(c.workflow, c.newSnapshot.value, 0, 1, c.initialState, Running, None, map[], map[], map[]);
      Outcome(s.(executions := s.executions[c.executionId := x]), Mutated)
  }

  function ApplyCreateResource(s: State, c: Command): Outcome
    requires c.CreateResource?
  {
    var version := if c.resourceVersion.None? then 1 else c.resourceVersion.value;
    if c.resourceId == "" || (c.resourceState.Some? && !c.resourceState.value.Object?) || version < 0 then Unchanged(s, Failed)
    else
      var candidate := Resource(version, if c.resourceState.None? then map[] else c.resourceState.value.fields);
      if c.resourceId in s.resources then Unchanged(s, if s.resources[c.resourceId] == candidate then Duplicate else Failed)
      else Outcome(s.(resources := s.resources[c.resourceId := candidate]), Mutated)
  }

  function ApplyPlan(s: State, c: Command): Outcome
    requires c.Plan?
  {
    if c.executionId !in s.executions || s.executions[c.executionId].status != Running then Unchanged(s, Failed)
    else if !ValidReads(c.observed) || !ValidWrites(c.writes) then Unchanged(s, Failed)
    else
      var readSet, writeSet := ReadSetOf(c.observed), WriteSetOf(c.writes);
      if !(writeSet.Keys <= readSet.Keys) || !(readSet.Keys <= s.resources.Keys) then Unchanged(s, Failed)
      else WithExecution(s, c.executionId, s.executions[c.executionId].(readSet := readSet, writeSet := writeSet))
  }

  // ── authorizing against versioned resources ───────────────────────────────

  predicate VersionsCurrent(resources: map<Id, Resource>, readSet: ReadSet) {
    forall r :: r in readSet ==> r in resources && resources[r].version == readSet[r]
  }

  predicate WritesFit(resources: map<Id, Resource>, writeSet: WriteSet) {
    forall r :: r in writeSet ==> r in resources && ApplyOperations(resources[r].state, writeSet[r]).Some?
  }

  /** All writes at once; every written resource moves to its next version. */
  function Written(resources: map<Id, Resource>, writeSet: WriteSet): map<Id, Resource>
    requires WritesFit(resources, writeSet)
  {
    map r | r in resources :: if r in writeSet
                              then Resource(resources[r].version + 1, ApplyOperations(resources[r].state, writeSet[r]).value)
                              else resources[r]
  }

  function VersionsOf(resources: map<Id, Resource>, writeSet: WriteSet): map<Id, nat>
    requires writeSet.Keys <= resources.Keys
  {
    map r | r in writeSet :: resources[r].version
  }

  function SameAuthorization(x: Execution, effect: Effect, c: Command): bool
    requires c.AuthorizeResource?
  {
    && effect.intent.logicalAction == c.logicalAction && effect.intent.snapshotId == c.snapshotId
    && effect.intent.parameters == c.parameters && effect.intent.authorization.Some?
    && effect.intent.authorization.value.readSet == x.readSet && effect.intent.authorization.value.writeSet == x.writeSet
  }

  function ApplyAuthorize(s: State, c: Command, index: nat): Outcome
    requires c.AuthorizeResource?
  {
    if c.executionId !in s.executions || s.executions[c.executionId].status != Running then Unchanged(s, Failed)
    else
      var x := s.executions[c.executionId];
      if c.effectId == "" || c.logicalAction == "" || c.snapshotId != x.snapshot.id then Unchanged(s, Failed)
      else if x.readSet == map[] || x.writeSet == map[] then Unchanged(s, Failed)
      else if c.effectId in x.effects then
        Unchanged(s, if SameAuthorization(x, x.effects[c.effectId], c) then Duplicate else Failed)
      else if !VersionsCurrent(s.resources, x.readSet) || !WritesFit(s.resources, x.writeSet) then Unchanged(s, Failed)
      else Authorized(s, c, index)
  }

  function Authorized(s: State, c: Command, index: nat): Outcome
    requires c.AuthorizeResource? && c.executionId in s.executions
    requires WritesFit(s.resources, s.executions[c.executionId].writeSet)
  {
    var x := s.executions[c.executionId];
    var resources := Written(s.resources, x.writeSet);
    var authorization := Authorization(x.readSet, x.writeSet, VersionsOf(resources, x.writeSet), index);
    var intent := Intent(c.logicalAction, c.parameters, c.snapshotId, x.step, Some(authorization));
    WithEffect(s.(resources := resources), c.executionId, x, c.effectId, Effect(intent, IntentRecorded, 0, Null))
  }

  // ── the effect ledger ─────────────────────────────────────────────────────

  function ApplyIntent(s: State, c: Command): Outcome
    requires c.RecordIntent?
  {
    if c.executionId !in s.executions || s.executions[c.executionId].status != Running then Unchanged(s, Failed)
    else
      var x := s.executions[c.executionId];
      if c.effectId == "" || c.logicalAction == "" || c.snapshotId != x.snapshot.id then Unchanged(s, Failed)
      else if c.effectId in x.effects then
        var known := x.effects[c.effectId].intent;
        Unchanged(s, if known.logicalAction == c.logicalAction && known.snapshotId == c.snapshotId && known.parameters == c.parameters
                     then Duplicate else Failed)
      else
        WithEffect(s, c.executionId, x, c.effectId,
                   Effect(Intent(c.logicalAction, c.parameters, c.snapshotId, x.step, None), IntentRecorded, 0, Null))
  }

  predicate HasEffect(s: State, executionId: Id, effectId: Id) {
    executionId in s.executions && effectId in s.executions[executionId].effects
  }

  function ApplyDispatch(s: State, c: Command): Outcome
    requires c.Dispatch?
  {
    if !HasEffect(s, c.executionId, c.effectId) || s.executions[c.executionId].status != Running then Unchanged(s, Failed)
    else
      var x := s.executions[c.executionId];
      var e := x.effects[c.effectId];
      if e.status != IntentRecorded && e.status != ReconciliationRequired then Unchanged(s, Failed)
      else WithEffect(s, c.executionId, x, c.effectId, e.(attempts := e.attempts + 1))
  }

  function ApplyReconciliation(s: State, c: Command): Outcome
    requires c.RequireReconciliation?
  {
    if !HasEffect(s, c.executionId, c.effectId) then Unchanged(s, Failed)
    else
      var x := s.executions[c.executionId];
      var e := x.effects[c.effectId];
      if e.status != IntentRecorded then Unchanged(s, Duplicate)
      else WithEffect(s, c.executionId, x, c.effectId, e.(status := ReconciliationRequired))
  }

  function ApplyResult(s: State, c: Command): Outcome
    requires c.RecordResult?
  {
    if !HasEffect(s, c.executionId, c.effectId) || c.result == Null then Unchanged(s, Failed)
    else
      var x := s.executions[c.executionId];
      var e := x.effects[c.effectId];
      if e.status == ResultRecorded || e.status == EffectCommitted then Unchanged(s, if e.result == c.result then Duplicate else Failed)
      else WithEffect(s, c.executionId, x, c.effectId, e.(result := c.result, status := ResultRecorded))
  }

  function ApplyCommit(s: State, c: Command): Outcome
    requires c.CommitEffect?
  {
    if !HasEffect(s, c.executionId, c.effectId) then Unchanged(s, Failed)
    else
      var x := s.executions[c.executionId];
      var e := x.effects[c.effectId];
      if e.status == EffectCommitted then Unchanged(s, Duplicate)
      else if e.status != ResultRecorded || e.result == Null then Unchanged(s, Failed)
      else WithEffect(s, c.executionId, x, c.effectId, e.(status := EffectCommitted))
  }

  // ── progress of an execution ──────────────────────────────────────────────

  function ApplyAdvance(s: State, c: Command): Outcome
    requires c.Advance?
  {
    if c.executionId !in s.executions then Unchanged(s, Failed)
    else
      var x := s.executions[c.executionId];
      if c.expectedStep != x.step || c.stepLabel == "" || x.status != Running then Unchanged(s, Failed)
      else if c.patch.Some? && !c.patch.value.Object? then Unchanged(s, Failed)
      else
        var state := x.state + (if c.patch.Some? then c.patch.value.fields else map[]);
        WithExecution(s, c.executionId, x.(step := x.step + 1, state := state))
  }

  function ApplyComplete(s: State, c: Command): Outcome
    requires c.CompleteExecution?
  {
    if c.executionId !in s.executions then Unchanged(s, Failed)
    else
      var x := s.executions[c.executionId];
      if c.expectedStep != x.step then Unchanged(s, Failed)
      else if x.status == Complete then Unchanged(s, Duplicate)
      else if x.status != Running || exists f :: f in x.effects && x.effects[f].status != EffectCommitted then Unchanged(s, Failed)
      else WithExecution(s, c.executionId, x.(status := Complete))
  }

  function ApplyDetect(s: State, c: Command, index: nat): Outcome
    requires c.DetectConflict?
  {
    if c.executionId !in s.executions || c.available.None? || c.available.value.id == "" then Unchanged(s, Failed)
    else
      var x := s.executions[c.executionId];
      var conflict := Conflict(x.snapshot.id, c.available.value, c.decision, c.changed, index);
      if c.available.value.id == x.snapshot.id || x.conflict == Some(conflict) then Unchanged(s, Duplicate)
      else WithExecution(s, c.executionId, x.(conflict := Some(conflict), status := PausedSemanticConflict))
  }

  /** As written: an unapproved transition with no recorded conflict dereferences nothing, and throws. */
  function ApplyTransition(s: State, c: Command): Outcome
    requires c.Transition?
  {
    if c.executionId !in s.executions then Unchanged(s, Failed)
    else
      var x := s.executions[c.executionId];
      if c.fromSnapshotId != x.snapshot.id || c.to.None? || c.to.value.id == "" then Unchanged(s, Failed)
      else if c.approvedBy.None? || c.approvedBy.value == "" then Unchanged(s, if x.conflict.None? then Threw else Failed)
      else WithExecution(s, c.executionId, x.(snapshot := c.to.value, conflict := None, status := Running))
  }

  function Apply(s: State, c: Command, index: nat): Outcome {
    match c
    case CreateExecution(_, _, _, _) => ApplyCreateExecution(s, c)
    case CreateResource(_, _, _) => ApplyCreateResource(s, c)
    case Plan(_, _, _) => ApplyPlan(s, c)
    case AuthorizeResource(_, _, _, _, _) => ApplyAuthorize(s, c, index)
    case RecordIntent(_, _, _, _, _) => ApplyIntent(s, c)
    case Dispatch(_, _) => ApplyDispatch(s, c)
    case RequireReconciliation(_, _) => ApplyReconciliation(s, c)
    case RecordResult(_, _, _) => ApplyResult(s, c)
    case CommitEffect(_, _) => ApplyCommit(s, c)
    case Advance(_, _, _, _) => ApplyAdvance(s, c)
    case CompleteExecution(_, _) => ApplyComplete(s, c)
    case DetectConflict(_, _, _, _) => ApplyDetect(s, c, index)
    case Transition(_, _, _, _) => ApplyTransition(s, c)
  }

  /** Replaying a committed log from the start. */
  function Replay(log: seq<Command>): State {
    if log == [] then INITIAL else Apply(Replay(log[..|log| - 1]), log[|log| - 1], |log| - 1).state
  }
}
