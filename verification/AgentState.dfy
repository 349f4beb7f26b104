/** The agent reducer as an object over two maps, its methods proved to compute AgentModel's functions. */
module AgentState {
  import opened AgentModel

  // ── normalising plans ─────────────────────────────────────────────────────

  method NormalizeReadSet(observed: seq<ReadEntry>) returns (readSet: Option<ReadSet>)
    ensures readSet.Some? <==> ValidReads(observed)
    ensures readSet.Some? ==> readSet.value == ReadSetOf(observed)
  {
    if |observed| == 0 {
      return None;
    }
    var seen: ReadSet := map[];
    var n := 0;
    while n < |observed|
      invariant n <= |observed|
      invariant forall i :: 0 <= i < n ==> observed[i].resourceId != "" && observed[i].version >= 0
      invariant forall i, j :: 0 <= i < j < n ==> observed[i].resourceId != observed[j].resourceId
      invariant forall r :: r in seen <==> exists i :: 0 <= i < n && observed[i].resourceId == r
      invariant seen == ReadSetOf(observed[..n])
    {
      var entry := observed[n];
      if entry.resourceId == "" || entry.version < 0 || entry.resourceId in seen {
        return None;
      }
      assert observed[..n + 1][..n] == observed[..n];
      seen := seen[entry.resourceId := entry.version];
      n := n + 1;
    }
    assert observed[..n] == observed;
    return Some(seen);
  }

  method OperationsAreValid(operations: seq<Operation>) returns (valid: bool)
    ensures valid <==> ValidOperations(operations)
  {
    if |operations| == 0 {
      return false;
    }
    var k := 0;
    while k < |operations|
      invariant k <= |operations| && forall i :: 0 <= i < k ==> ValidOperation(operations[i])
    {
      if !ValidOperation(operations[k]) {
        return false;
      }
      k := k + 1;
    }
    return true;
  }

  method NormalizeWriteSet(writes: seq<WriteEntry>) returns (writeSet: Option<WriteSet>)
    ensures writeSet.Some? <==> ValidWrites(writes)
    ensures writeSet.Some? ==> writeSet.value == WriteSetOf(writes)
  {
    if |writes| == 0 {
      return None;
    }
    hide ValidOperations;
    var seen: WriteSet := map[];
    var n := 0;
    while n < |writes|
      invariant n <= |writes|
      invariant forall i :: 0 <= i < n ==> writes[i].resourceId != "" && ValidOperations(writes[i].operations)
      invariant forall i, j :: 0 <= i < j < n ==> writes[i].resourceId != writes[j].resourceId
      invariant forall r :: r in seen <==> exists i :: 0 <= i < n && writes[i].resourceId == r
      invariant seen == WriteSetOf(writes[..n])
    {
      var entry := writes[n];
      if entry.resourceId == "" || entry.resourceId in seen {
        return None;
      }
      var valid := OperationsAreValid(entry.operations);
      if !valid {
        return None;
      }
      assert writes[..n + 1][..n] == writes[..n];
      seen := seen[entry.resourceId := entry.operations];
      n := n + 1;
    }
    assert writes[..n] == writes;
    return Some(seen);
  }

  // ── resource operations ───────────────────────────────────────────────────

  method ApplyResourceOperations(state: Fields, operations: seq<Operation>) returns (result: Option<Fields>)
    ensures result == ApplyOperations(state, operations)
  {
    var next := OpenedFields(state);
    var n := 0;
    while n < |operations|
      invariant n <= |operations| && DraftOf(state, operations[..n]) == Some(next)
    {
      var operation := operations[n];
      assert operations[..n + 1][..n] == operations[..n];
      match operation {
        case Set(field, value) =>
          if value.Some? {
            next := next[field := Opened(value.value)];
          } else {
            next := next - {field};
          }
        case Increment(field, amount) =>
          var current := if field in next then next[field] else Plain(Number(0.0));
          if !current.Plain? || !current.value.Number? || amount.None? {
            FailsOnwards(state, operations, n + 1);
            return None;
          }
          next := next[field := Plain(Number(current.value.number + amount.value))];
        case AppendUnique(field, value) =>
          var current := if field in next then next[field] else List([]);
          if !current.List? {
            FailsOnwards(state, operations, n + 1);
            return None;
          }
          if value !in current.items {
            current := List(current.items + [value]);
          }
          next := next[field := current];
        case UnsupportedOperation =>
      }
      n := n + 1;
    }
    assert operations[..n] == operations;
    return Some(ClosedFields(next));
  }

  lemma {:induction false} FailsOnwards(state: Fields, operations: seq<Operation>, n: nat)
    requires n <= |operations| && DraftOf(state, operations[..n]).None?
    ensures DraftOf(state, operations).None?
    decreases |operations|
  {
    if n < |operations| {
      var m := |operations| - 1;
      assert operations[..m][..n] == operations[..n];
      FailsOnwards(state, operations[..m], n);
    } else {
      assert operations[..n] == operations;
    }
  }

  class AgentState {
    var executions: map<Id, Execution>
    var resources: map<Id, Resource>

    constructor ()
      ensures View() == INITIAL
    {
      executions, resources := map[], map[];
    }

    function View(): State
      reads this
    {
      State(executions, resources)
    }

    /** Every accepted mutation raises the execution's version. */
    method Mutate(executionId: Id, execution: Execution)
      modifies `executions
      ensures Outcome(View(), Mutated) == WithExecution(old(View()), executionId, execution)
    {
      executions := executions[executionId := execution.(version := execution.version + 1)];
    }

    method Plan(c: Command) returns (reply: Reply)
      requires c.Plan?
      modifies this
      ensures Outcome(View(), reply) == ApplyPlan(old(View()), c)
    {
      if c.executionId !in executions || executions[c.executionId].status != Running {
        return Failed;
      }
      var execution := executions[c.executionId];
      var readSet := NormalizeReadSet(c.observed);
      var writeSet := NormalizeWriteSet(c.writes);
      if readSet.None? || writeSet.None? {
        return Failed;
      }
      if !(writeSet.value.Keys <= readSet.value.Keys) || !(readSet.value.Keys <= resources.Keys) {
        return Failed;
      }
      Mutate(c.executionId, execution.(readSet := readSet.value, writeSet := writeSet.value));
      return Mutated;
    }

    /** Compares every version the plan read with the current one. */
    method HasConflict(readSet: ReadSet) returns (conflict: bool)
      ensures conflict <==> !VersionsCurrent(resources, readSet)
    {
      var todo := readSet.Keys;
      conflict := false;
      while todo != {}
        invariant todo <= readSet.Keys
        invariant conflict <==> exists r :: r in readSet.Keys - todo && !(r in resources && resources[r].version == readSet[r])
        decreases |todo|
      {
        var r :| r in todo;
        todo := todo - {r};
        if r !in resources || resources[r].version != readSet[r] {
          conflict := true;
        }
      }
    }

    /** Computes every write before making any. */
    method Project(writeSet: WriteSet) returns (projected: Option<map<Id, Fields>>)
      requires writeSet.Keys <= resources.Keys
      ensures projected.Some? <==> WritesFit(resources, writeSet)
      ensures projected.Some? ==> projected.value.Keys == writeSet.Keys
      ensures projected.Some? ==> forall r :: r in writeSet ==> ApplyOperations(resources[r].state, writeSet[r]) == Some(projected.value[r])
    {
      var result: map<Id, Fields> := map[];
      var todo := writeSet.Keys;
      while todo != {}
        invariant todo <= writeSet.Keys && result.Keys == writeSet.Keys - todo
        invariant forall r :: r in result ==> ApplyOperations(resources[r].state, writeSet[r]) == Some(result[r])
        decreases |todo|
      {
        var r :| r in todo;
        todo := todo - {r};
        var next := ApplyResourceOperations(resources[r].state, writeSet[r]);
        if next.None? {
          return None;
        }
        result := result[r := next.value];
      }
      return Some(result);
    }

    /** Installs the projected states, each under the next version. */
    method Install(writeSet: WriteSet, projected: map<Id, Fields>) returns (resultingVersions: map<Id, nat>)
      requires WritesFit(resources, writeSet) && projected.Keys == writeSet.Keys
      requires forall r :: r in writeSet ==> ApplyOperations(resources[r].state, writeSet[r]) == Some(projected[r])
      modifies `resources
      ensures resources == Written(old(resources), writeSet) && resultingVersions == VersionsOf(resources, writeSet)
    {
      var updated, versions := InstallAll(resources, projected);
      resources := updated;
      resultingVersions := versions;
    }

    /** Fences the plan against the current versions, then writes all or nothing. */
    method AuthorizeResourceEffect(c: Command, index: nat) returns (reply: Reply)
      requires c.AuthorizeResource?
      modifies this
      ensures Outcome(View(), reply) == ApplyAuthorize(old(View()), c, index)
    {
      hide VersionsCurrent, WritesFit, Written, VersionsOf;
      if c.executionId !in executions || executions[c.executionId].status != Running {
        return Failed;
      }
      var execution := executions[c.executionId];
      if c.effectId == "" || c.logicalAction == "" || c.snapshotId != execution.snapshot.id {
        return Failed;
      }
      if execution.readSet == map[] || execution.writeSet == map[] {
        return Failed;
      }
      if c.effectId in execution.effects {
        return if SameAuthorization(execution, execution.effects[c.effectId], c) then Duplicate else Failed;
      }
      var conflict := HasConflict(execution.readSet);
      if conflict {
        return Failed;
      }
      if !(execution.writeSet.Keys <= resources.Keys) {
        MissingDoesNotFit(resources, execution.writeSet);
        return Failed;
      }
      var projected := Project(execution.writeSet);
      if projected.None? {
        return Failed;
      }
      var resultingVersions := Install(execution.writeSet, projected.value);
      var authorization := Authorization(execution.readSet, execution.writeSet, resultingVersions, index);
      var intent := Intent(c.logicalAction, c.parameters, c.snapshotId, execution.step, Some(authorization));
      var effect := Effect(intent, IntentRecorded, 0, Null);
      Mutate(c.executionId, execution.(effects := execution.effects[c.effectId := effect]));
      return Mutated;
    }

    method RecordIntent(c: Command) returns (reply: Reply)
      requires c.RecordIntent?
      modifies this
      ensures Outcome(View(), reply) == ApplyIntent(old(View()), c)
    {
      if c.executionId !in executions || executions[c.executionId].status != Running {
        return Failed;
      }
      var execution := executions[c.executionId];
      if c.effectId == "" || c.logicalAction == "" || c.snapshotId != execution.snapshot.id {
        return Failed;
      }
      if c.effectId in execution.effects {
        var known := execution.effects[c.effectId].intent;
        var sameIntent := known.logicalAction == c.logicalAction && known.snapshotId == c.snapshotId && known.parameters == c.parameters;
        return if sameIntent then Duplicate else Failed;
      }
      var effect := Effect(Intent(c.logicalAction, c.parameters, c.snapshotId, execution.step, None), IntentRecorded, 0, Null);
      Mutate(c.executionId, execution.(effects := execution.effects[c.effectId := effect]));
      return Mutated;
    }

    method UpdateEffect(executionId: Id, effectId: Id, effect: Effect)
      requires executionId in executions
      modifies `executions
      ensures Outcome(View(), Mutated) == WithEffect(old(View()), executionId, old(executions)[executionId], effectId, effect)
    {
      var execution := executions[executionId];
      Mutate(executionId, execution.(effects := execution.effects[effectId := effect]));
    }

    method Dispatch(c: Command) returns (reply: Reply)
      requires c.Dispatch?
      modifies this
      ensures Outcome(View(), reply) == ApplyDispatch(old(View()), c)
    {
      if !HasEffect(View(), c.executionId, c.effectId) || executions[c.executionId].status != Running {
        return Failed;
      }
      var effect := executions[c.executionId].effects[c.effectId];
      if effect.status != IntentRecorded && effect.status != ReconciliationRequired {
        return Failed;
      }
      UpdateEffect(c.executionId, c.effectId, effect.(attempts := effect.attempts + 1));
      return Mutated;
    }

    method RequireReconciliation(c: Command) returns (reply: Reply)
      requires c.RequireReconciliation?
      modifies this
      ensures Outcome(View(), reply) == ApplyReconciliation(old(View()), c)
    {
      if !HasEffect(View(), c.executionId, c.effectId) {
        return Failed;
      }
      var effect := executions[c.executionId].effects[c.effectId];
      if effect.status == ResultRecorded || effect.status == EffectCommitted || effect.status == ReconciliationRequired {
        return Duplicate;
      }
      UpdateEffect(c.executionId, c.effectId, effect.(status := ReconciliationRequired));
      return Mutated;
    }

    method RecordResult(c: Command) returns (reply: Reply)
      requires c.RecordResult?
      modifies this
      ensures Outcome(View(), reply) == ApplyResult(old(View()), c)
    {
      if !HasEffect(View(), c.executionId, c.effectId) || c.result == Null {
        return Failed;
      }
      var effect := executions[c.executionId].effects[c.effectId];
      if effect.status == ResultRecorded || effect.status == EffectCommitted {
        return if effect.result == c.result then Duplicate else Failed;
      }
      UpdateEffect(c.executionId, c.effectId, effect.(result := c.result, status := ResultRecorded));
      return Mutated;
    }

    method CommitEffect(c: Command) returns (reply: Reply)
      requires c.CommitEffect?
      modifies this
      ensures Outcome(View(), reply) == ApplyCommit(old(View()), c)
    {
      if !HasEffect(View(), c.executionId, c.effectId) {
        return Failed;
      }
      var effect := executions[c.executionId].effects[c.effectId];
      if effect.status == EffectCommitted {
        return Duplicate;
      }
      if effect.status != ResultRecorded || effect.result == Null {
        return Failed;
      }
      UpdateEffect(c.executionId, c.effectId, effect.(status := EffectCommitted));
      return Mutated;
    }
  }

  /** The resources with the projected states of `done` installed. */
  ghost function Installed(before: map<Id, Resource>, projected: map<Id, Fields>, done: set<Id>): map<Id, Resource> {
    map r | r in before :: if r in done && r in projected then Resource(before[r].version + 1, projected[r]) else before[r]
  }

  lemma InstalledNone(before: map<Id, Resource>, projected: map<Id, Fields>)
    requires projected.Keys <= before.Keys
    ensures Installed(before, projected, projected.Keys - projected.Keys) == before
    ensures NextVersions(before, projected.Keys - projected.Keys) == map[]
  {
  }

  ghost function NextVersions(before: map<Id, Resource>, done: set<Id>): map<Id, nat>
    requires done <= before.Keys
  {
    map r | r in done :: before[r].version + 1
  }

  method InstallAll(before: map<Id, Resource>, projected: map<Id, Fields>) returns (after: map<Id, Resource>, versions: map<Id, nat>)
    requires projected.Keys <= before.Keys
    ensures after == Installed(before, projected, projected.Keys)
    ensures versions == NextVersions(before, projected.Keys)
  {
    after, versions := before, map[];
    var todo := projected.Keys;
    InstalledNone(before, projected);
    hide Installed, NextVersions;
    while todo != {}
      invariant todo <= projected.Keys
      invariant after == Installed(before, projected, projected.Keys - todo)
      invariant versions == NextVersions(before, projected.Keys - todo)
      decreases |todo|
    {
      var r :| r in todo;
      after := after[r := Resource(after[r].version + 1, projected[r])];
      versions := versions[r := after[r].version];
      todo := todo - {r};
    }
    assert projected.Keys - todo == projected.Keys;
  }

  lemma MissingDoesNotFit(resources: map<Id, Resource>, writeSet: WriteSet)
    requires !(writeSet.Keys <= resources.Keys)
    ensures !WritesFit(resources, writeSet)
  {
    var r :| r in writeSet && r !in resources;
  }
}
