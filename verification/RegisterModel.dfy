/** The key-value register the checker is used with: write, read, compare-and-swap, delete. */
module RegisterModel {
  import opened Linearizability
  import Histories

  type Key = nat

  /** A missing key reads as null, and null can also be stored. */
  datatype Value = Null | Val(value: int)

  datatype Outcome = Done(ok: bool) | Got(value: Value)

  /** `result` is what the client observed, unless it never heard back. */
  datatype RegisterOp =
    | Write(key: Key, value: Value, result: Option<Outcome>)
    | Read(key: Key, result: Option<Outcome>)
    | Cas(key: Key, expected: Value, value: Value, result: Option<Outcome>)
    | Delete(key: Key, result: Option<Outcome>)
    | Unsupported(result: Option<Outcome>)

  type Registers = map<Key, Value>

  function Current(state: Registers, key: Key): Value {
    if key in state then state[key] else Null
  }

  /** Whether the observed result is consistent with the operation taking effect here, and its effect. */
  function Apply(state: Registers, op: RegisterOp): Option<Registers> {
    match op
    case Write(key, value, result) =>
      if result != None && result != Some(Done(true)) then None else Some(state[key := value])
    case Read(key, result) =>
      var actual := Current(state, key);
      if result == None then Some(state) else if Got(actual) == result.value then Some(state) else None
    case Cas(key, expected, value, result) =>
      var succeeds := Current(state, key) == expected;
      if result != None && result != Some(Done(succeeds)) then None
      else if succeeds then Some(state[key := value]) else Some(state)
    case Delete(key, _) => Some(state - {key})
    case Unsupported(_) => None
  }

  function WithResult(op: RegisterOp, result: Outcome): RegisterOp {
    op.(result := Some(result))
  }

  // ── the register as a program ─────────────────────────────────────────────

  datatype Execution = Execution(state: Registers, returned: Outcome)

  /** Running the operation, whatever the client saw. */
  function Execute(state: Registers, op: RegisterOp): Execution {
    match op
    case Write(key, value, _) => Execution(state[key := value], Done(true))
    case Read(key, _) => Execution(state, Got(Current(state, key)))
    case Cas(key, expected, value, _) =>
      if Current(state, key) == expected then Execution(state[key := value], Done(true)) else Execution(state, Done(false))
    case Delete(key, _) => Execution(state - {key}, Done(true))
    case Unsupported(_) => Execution(state, Done(false))
  }

  /** What the client saw is what running the operation here returns; a delete's result is not looked at. */
  predicate Agrees(state: Registers, op: RegisterOp) {
    !op.Unsupported? && (op.Delete? || op.result == None || op.result == Some(Execute(state, op).returned))
  }

  /** The store before the k-th operation, when they are run one after the other. */
  function StoreAt(state: Registers, order: seq<Operation<RegisterOp>>, k: nat): Registers
    requires k <= |order|
  {
    if k == 0 then state else Execute(StoreAt(state, order, k - 1), order[k - 1].op).state
  }

  lemma {:induction false} StoreShifts(state: Registers, order: seq<Operation<RegisterOp>>, k: nat)
    requires 1 <= k <= |order|
    ensures StoreAt(state, order, k) == StoreAt(Execute(state, order[0].op).state, order[1..], k - 1)
    decreases k
  {
    if k > 1 {
      StoreShifts(state, order, k - 1);
      assert order[1..][k - 2] == order[k - 1];
    }
  }

  ghost predicate AllAgree(state: Registers, order: seq<Operation<RegisterOp>>) {
    forall k: nat :: k < |order| ==> Agrees(StoreAt(state, order, k), order[k].op)
  }

  lemma OneMoreAgrees(state: Registers, order: seq<Operation<RegisterOp>>)
    requires order != []
    ensures AllAgree(state, order) <==> Agrees(state, order[0].op) && AllAgree(Execute(state, order[0].op).state, order[1..])
  {
    hide Agrees, Execute;
    var next, rest := Execute(state, order[0].op).state, order[1..];
    assert StoreAt(state, order, 0) == state;
    forall k: nat | k < |rest| ensures StoreAt(next, rest, k) == StoreAt(state, order, k + 1) && rest[k] == order[k + 1] {
      StoreShifts(state, order, k + 1);
    }
    if AllAgree(state, order) {
      assert Agrees(StoreAt(state, order, 0), order[0].op);
      forall k: nat | k < |rest| ensures Agrees(StoreAt(next, rest, k), rest[k].op) {
        assert Agrees(StoreAt(state, order, k + 1), order[k + 1].op);
      }
    }
    if Agrees(state, order[0].op) && AllAgree(next, rest) {
      forall k: nat | k < |order| ensures Agrees(StoreAt(state, order, k), order[k].op) {
        if k > 0 {
          assert Agrees(StoreAt(next, rest, k - 1), rest[k - 1].op);
        }
      }
    }
  }

  lemma AcceptsOne(state: Registers, op: RegisterOp)
    ensures Apply(state, op) == if Agrees(state, op) then Some(Execute(state, op).state) else None
  {
  }

  /** The model accepts an order exactly when running it returns what each client saw; it ends in the store that leaves. */
  lemma {:induction false} AcceptsWhatRuns(state: Registers, order: seq<Operation<RegisterOp>>)
    ensures RunFrom(Apply, state, order) == if AllAgree(state, order) then Some(StoreAt(state, order, |order|)) else None
    decreases |order|
  {
    if order != [] {
      hide Agrees, Execute, Apply, AllAgree;
      var op := order[0].op;
      AcceptsOne(state, op);
      OneMoreAgrees(state, order);
      if Agrees(state, op) {
        AcceptsWhatRuns(Execute(state, op).state, order[1..]);
        StoreShifts(state, order, |order|);
      }
    }
  }

  // ── hashing states ────────────────────────────────────────────────────────

  predicate IsSmallest(keys: set<Key>, first: Key) {
    first in keys && forall k :: k in keys ==> first <= k
  }

  function SortedKeys(keys: set<Key>): (sorted: seq<Key>)
    ensures forall k :: k in sorted <==> k in keys
    decreases |keys|
  {
    if keys == {} then []
    else
      SmallestExists(keys);
      var first :| IsSmallest(keys, first);
      [first] + SortedKeys(keys - {first})
  }

  lemma {:induction false} SmallestExists(keys: set<Key>)
    requires keys != {}
    ensures exists first :: IsSmallest(keys, first)
    decreases |keys|
  {
    var x :| x in keys;
    var others := keys - {x};
    assert keys == others + {x};
    if others != {} {
      SmallestExists(others);
      var y :| IsSmallest(others, y);
      assert IsSmallest(keys, if x < y then x else y);
    } else {
      assert IsSmallest(keys, x);
    }
  }

  /** Keys in order, each with its value: equal states hash equally however they were built. */
  function Hash(state: Registers): seq<(Key, Value)> {
    var keys := SortedKeys(state.Keys);
    seq(|keys|, i requires 0 <= i < |keys| => assert keys[i] in keys; (keys[i], state[keys[i]]))
  }

  lemma HashHolds(state: Registers, key: Key, value: Value)
    ensures (key, value) in Hash(state) <==> key in state && state[key] == value
  {
    var keys := SortedKeys(state.Keys);
    if key in state {
      assert key in keys;
      var i :| 0 <= i < |keys| && keys[i] == key;
      assert Hash(state)[i] == (key, state[key]);
    }
    if (key, value) in Hash(state) {
      var i :| 0 <= i < |Hash(state)| && Hash(state)[i] == (key, value);
      assert keys[i] in keys;
    }
  }

  /** Distinct states never share a hash, so the memo never confuses two configurations. */
  lemma HashIsInjective()
    ensures Injective(Hash)
  {
    forall s: Registers, t: Registers | Hash(s) == Hash(t) ensures s == t {
      forall key ensures key in s <==> key in t {
        SharedKey(s, t, key);
        SharedKey(t, s, key);
      }
      forall key | key in s ensures s[key] == t[key] {
        SharedKey(s, t, key);
      }
    }
  }

  lemma SharedKey(s: Registers, t: Registers, key: Key)
    requires Hash(s) == Hash(t)
    ensures key in s ==> key in t && s[key] == t[key]
  {
    if key in s {
      HashHolds(s, key, s[key]);
      HashHolds(t, key, s[key]);
    }
  }

  /** The verdict on a register history. */
  method CheckRegisters(history: seq<Histories.Event<RegisterOp, Outcome>>, maxSteps: nat) returns (verdict: Histories.Verdict<RegisterOp>)
    requires Histories.Timed(history)
    ensures verdict.linearizable ==> Histories.Explains(Apply, WithResult, history, map[], verdict.order)
    ensures !verdict.linearizable && !verdict.exhausted ==>
      forall order :: !Histories.Explains(Apply, WithResult, history, map[], order)
  {
    HashIsInjective();
    verdict := Histories.Check(Apply, Hash, WithResult, map[], maxSteps, history);
  }
}
