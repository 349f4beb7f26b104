/**
 * The linearizability checker: a backtracking search with a memo, an early break, operations
 * that may or may not have happened, and a step budget. It is proved sound and complete
 * against the definition of a linearization, for any deterministic model.
 */
module Linearizability {

  datatype Option<+T> = None | Some(value: T)

  /** An invocation and, unless it is pending, its response. */
  datatype Operation<+O> = Operation(id: nat, op: O, invokedAt: int, returnedAt: int, pending: bool)

  // ── what a linearization is ───────────────────────────────────────────────

  /** Real time: a returned before b was invoked. */
  predicate Precedes<O>(a: Operation<O>, b: Operation<O>) {
    !a.pending && a.returnedAt < b.invokedAt
  }

  function RunFrom<S, O>(apply: (S, O) -> Option<S>, state: S, order: seq<Operation<O>>): Option<S> {
    if order == [] then Some(state)
    else
      match apply(state, order[0].op)
      case None => None
      case Some(next) => RunFrom(apply, next, order[1..])
  }

  ghost predicate Distinct<O>(ops: seq<Operation<O>>) {
    forall i, j :: 0 <= i < j < |ops| ==> ops[i].id != ops[j].id
  }

  /**
   * An order of operations that explains a history: every completed operation once, pending ones at most
   * once, real time respected, and every result accepted by the model in that order.
   */
  ghost predicate Linearizes<S, O>(apply: (S, O) -> Option<S>, ops: seq<Operation<O>>, state: S, order: seq<Operation<O>>) {
    && Distinct(order)
    && (forall a :: a in order ==> a in ops)
    && (forall a :: a in ops && !a.pending ==> a in order)
    && (forall i, j :: 0 <= i < j < |order| ==> !Precedes(order[j], order[i]))
    && RunFrom(apply, state, order).Some?
  }

  ghost predicate Linearizable<S, O(!new)>(apply: (S, O) -> Option<S>, ops: seq<Operation<O>>, state: S) {
    exists order :: Linearizes(apply, ops, state, order)
  }

  // ── what the search relies on ─────────────────────────────────────────────

  /** In order of invocation, each operation once, and no response before its invocation. */
  ghost predicate Ordered<O>(ops: seq<Operation<O>>) {
    && Distinct(ops)
    && (forall i, j :: 0 <= i < j < |ops| ==> ops[i].invokedAt <= ops[j].invokedAt)
    && (forall i :: 0 <= i < |ops| && !ops[i].pending ==> ops[i].invokedAt <= ops[i].returnedAt)
  }

  predicate AllPending<O>(ops: seq<Operation<O>>) {
    forall i :: 0 <= i < |ops| ==> ops[i].pending
  }

  function Without<O>(ops: seq<Operation<O>>, i: nat): seq<Operation<O>>
    requires i < |ops|
  {
    ops[..i] + ops[i + 1..]
  }

  predicate Blocked<O>(ops: seq<Operation<O>>, i: nat)
    requires i < |ops|
  {
    exists j :: 0 <= j < i && Precedes(ops[j], ops[i])
  }

  lemma WithoutOrdered<O>(ops: seq<Operation<O>>, i: nat)
    requires Ordered(ops) && i < |ops|
    ensures Ordered(Without(ops, i))
  {
  }

  lemma WithoutMembers<O>(ops: seq<Operation<O>>, i: nat, a: Operation<O>)
    requires Distinct(ops) && i < |ops|
    ensures a in Without(ops, i) <==> a in ops && a != ops[i]
  {
    if a in ops && a != ops[i] {
      var j :| 0 <= j < |ops| && ops[j] == a;
      assert if j < i then Without(ops, i)[j] == a else Without(ops, i)[j - 1] == a;
    }
  }

  /** The early break: nothing at or after a blocked position may come first. */
  lemma BlockedOnwards<O>(ops: seq<Operation<O>>, i: nat, k: nat)
    requires Ordered(ops) && i <= k < |ops| && Blocked(ops, i)
    ensures Blocked(ops, k)
  {
    var j :| 0 <= j < i && Precedes(ops[j], ops[i]);
    assert Precedes(ops[j], ops[k]);
  }

  /** Only operations invoked earlier can have returned before this one was invoked. */
  lemma UnblockedIsFree<O>(ops: seq<Operation<O>>, i: nat, j: nat)
    requires Ordered(ops) && i < |ops| && j < |ops| && !Blocked(ops, i)
    ensures !Precedes(ops[j], ops[i])
  {
  }

  lemma NothingLeft<S, O>(apply: (S, O) -> Option<S>, ops: seq<Operation<O>>, state: S)
    ensures Linearizes(apply, ops, state, []) <==> AllPending(ops)
  {
  }

  /** Lifting a free operation that the model accepts, then explaining the rest. */
  lemma Lifted<S, O>(apply: (S, O) -> Option<S>, ops: seq<Operation<O>>, state: S, i: nat, next: S, order: seq<Operation<O>>)
    requires Ordered(ops) && i < |ops| && !Blocked(ops, i) && apply(state, ops[i].op) == Some(next)
    requires Linearizes(apply, Without(ops, i), next, order)
    ensures Linearizes(apply, ops, state, [ops[i]] + order)
  {
    var whole := [ops[i]] + order;
    assert whole[1..] == order;
    forall a ensures a in Without(ops, i) <==> a in ops && a != ops[i] {
      WithoutMembers(ops, i, a);
    }
    forall j | 0 <= j < |order| ensures !Precedes(order[j], ops[i]) && order[j].id != ops[i].id {
      assert order[j] in ops;
      var k :| 0 <= k < |ops| && ops[k] == order[j];
      UnblockedIsFree(ops, i, k);
    }
  }

  /** The first operation of any linearization is free and accepted, and the rest explains what is left. */
  lemma FirstIsLiftable<S, O>(apply: (S, O) -> Option<S>, ops: seq<Operation<O>>, state: S, i: nat, order: seq<Operation<O>>)
    requires Ordered(ops) && i < |ops| && order != [] && order[0] == ops[i] && Linearizes(apply, ops, state, order)
    ensures !Blocked(ops, i) && apply(state, ops[i].op).Some?
    ensures Linearizes(apply, Without(ops, i), apply(state, ops[i].op).value, order[1..])
  {
    forall j | 0 <= j < i ensures !Precedes(ops[j], ops[i]) {
      if !ops[j].pending {
        assert ops[j] in order;
        var k :| 0 <= k < |order| && order[k] == ops[j];
        assert k > 0;
      }
    }
    forall a ensures a in Without(ops, i) <==> a in ops && a != ops[i] {
      WithoutMembers(ops, i, a);
    }
    var rest := order[1..];
    assert order == [order[0]] + rest;
  }

  /** No linearization starts with operation i. */
  ghost predicate NeverFirst<S, O(!new)>(apply: (S, O) -> Option<S>, ops: seq<Operation<O>>, state: S, i: nat)
    requires i < |ops|
  {
    forall order :: order != [] && order[0] == ops[i] ==> !Linearizes(apply, ops, state, order)
  }

  lemma BlockedNeverFirst<S, O(!new)>(apply: (S, O) -> Option<S>, ops: seq<Operation<O>>, state: S, i: nat)
    requires Ordered(ops) && i < |ops| && Blocked(ops, i)
    ensures forall k :: i <= k < |ops| ==> NeverFirst(apply, ops, state, k)
  {
    forall k | i <= k < |ops| ensures NeverFirst(apply, ops, state, k) {
      BlockedOnwards(ops, i, k);
      BlockedIsNeverFirst(apply, ops, state, k);
    }
  }

  lemma BlockedIsNeverFirst<S, O(!new)>(apply: (S, O) -> Option<S>, ops: seq<Operation<O>>, state: S, i: nat)
    requires Ordered(ops) && i < |ops| && Blocked(ops, i)
    ensures NeverFirst(apply, ops, state, i)
  {
    forall order | order != [] && order[0] == ops[i] ensures !Linearizes(apply, ops, state, order) {
      if Linearizes(apply, ops, state, order) {
        FirstIsLiftable(apply, ops, state, i, order);
      }
    }
  }

  lemma RejectedNeverFirst<S, O(!new)>(apply: (S, O) -> Option<S>, ops: seq<Operation<O>>, state: S, i: nat)
    requires Ordered(ops) && i < |ops| && apply(state, ops[i].op).None?
    ensures NeverFirst(apply, ops, state, i)
  {
  }

  lemma FailedNeverFirst<S, O(!new)>(apply: (S, O) -> Option<S>, ops: seq<Operation<O>>, state: S, i: nat)
    requires Ordered(ops) && i < |ops| && apply(state, ops[i].op).Some?
    requires !Linearizable(apply, Without(ops, i), apply(state, ops[i].op).value)
    ensures NeverFirst(apply, ops, state, i)
  {
    forall order | order != [] && order[0] == ops[i] ensures !Linearizes(apply, ops, state, order) {
      if Linearizes(apply, ops, state, order) {
        FirstIsLiftable(apply, ops, state, i, order);
      }
    }
  }

  lemma NoneFirst<S, O(!new)>(apply: (S, O) -> Option<S>, ops: seq<Operation<O>>, state: S)
    requires Ordered(ops) && !AllPending(ops)
    requires forall k :: 0 <= k < |ops| ==> NeverFirst(apply, ops, state, k)
    ensures !Linearizable(apply, ops, state)
  {
    forall order ensures !Linearizes(apply, ops, state, order) {
      if order == [] {
        NothingLeft(apply, ops, state);
      } else if order[0] in ops {
        var i :| 0 <= i < |ops| && ops[i] == order[0];
        assert NeverFirst(apply, ops, state, i);
      }
    }
  }

  lemma WithoutWithin<O>(ops: seq<Operation<O>>, i: nat, all: seq<Operation<O>>)
    requires Distinct(ops) && i < |ops| && Within(ops, all)
    ensures Within(Without(ops, i), all)
  {
    forall a | a in Without(ops, i) ensures a in all {
      WithoutMembers(ops, i, a);
    }
  }

  lemma OrderedIsDistinct<O>(ops: seq<Operation<O>>)
    requires Ordered(ops)
    ensures Distinct(ops)
  {
  }

  // ── the search ────────────────────────────────────────────────────────────

  function Ids<O>(ops: seq<Operation<O>>): seq<nat> {
    seq(|ops|, i requires 0 <= i < |ops| => ops[i].id)
  }

  ghost predicate Within<O>(ops: seq<Operation<O>>, all: seq<Operation<O>>) {
    forall a :: a in ops ==> a in all
  }

  /** Among the operations of one history, the remaining ids determine what remains. */
  lemma SameIds<O>(a: seq<Operation<O>>, b: seq<Operation<O>>, all: seq<Operation<O>>)
    requires Distinct(all) && Within(a, all) && Within(b, all) && Ids(a) == Ids(b)
    ensures a == b
  {
    forall i | 0 <= i < |a| ensures |a| == |b| && a[i] == b[i] {
      assert |Ids(a)| == |Ids(b)| && Ids(a)[i] == Ids(b)[i];
      assert a[i] in all && b[i] in all;
    }
    assert |Ids(a)| == |Ids(b)|;
  }

  ghost predicate Injective<S(!new), K>(hash: S -> K) {
    forall s, t :: hash(s) == hash(t) ==> s == t
  }

  class Search<S(!new), O(!new), K(==)> {
    const apply: (S, O) -> Option<S>
    const hash: S -> K
    const maxSteps: nat
    ghost const operations: seq<Operation<O>>

    var memo: set<(seq<nat>, K)>
    var placed: seq<Operation<O>>
    var steps: nat
    var exhausted: bool

    constructor (apply: (S, O) -> Option<S>, hash: S -> K, maxSteps: nat, operations: seq<Operation<O>>)
      ensures this.apply == apply && this.hash == hash && this.maxSteps == maxSteps && this.operations == operations
      ensures memo == {} && placed == [] && steps == 0 && !exhausted
    {
      this.apply, this.hash, this.maxSteps, this.operations := apply, hash, maxSteps, operations;
      memo, placed, steps, exhausted := {}, [], 0, false;
    }

    ghost predicate Remembered(keys: set<(seq<nat>, K)>, ops: seq<Operation<O>>, state: S) {
      (Ids(ops), hash(state)) in keys
    }

    /** Every configuration in `keys` is known to have no linearization, as far as those of fewer than n operations go. */
    ghost predicate Refuted(keys: set<(seq<nat>, K)>, n: nat) {
      forall ops: seq<Operation<O>>, state ::
        Within(ops, operations) && |ops| < n && Remembered(keys, ops, state) ==> !Linearizable(apply, ops, state)
    }

    ghost predicate KeysBelow(keys: set<(seq<nat>, K)>, n: nat) {
      forall k :: k in keys ==> |k.0| < n
    }

    lemma MemoRefutes(keys: set<(seq<nat>, K)>, remaining: seq<Operation<O>>, state: S)
      requires Refuted(keys, |remaining| + 1) && Within(remaining, operations) && (Ids(remaining), hash(state)) in keys
      ensures !Linearizable(apply, remaining, state)
    {
      assert Remembered(keys, remaining, state);
    }

    /** What was known before and what the failed branches have added hold together, below the current size. */
    lemma RefutedTogether(before: set<(seq<nat>, K)>, now: set<(seq<nat>, K)>, key: (seq<nat>, K), n: nat)
      requires |key.0| == n && Refuted(before, n + 1) && Refuted(now - before - {key}, n)
      ensures Refuted(now, n)
    {
      forall ops: seq<Operation<O>>, state | Within(ops, operations) && |ops| < n && Remembered(now, ops, state)
        ensures !Linearizable(apply, ops, state)
      {
        assert |Ids(ops)| == |ops|;
        assert Remembered(before, ops, state) || Remembered(now - before - {key}, ops, state);
      }
    }

    lemma RefutedMore(before: set<(seq<nat>, K)>, mid: set<(seq<nat>, K)>, now: set<(seq<nat>, K)>, key: (seq<nat>, K), n: nat)
      requires Refuted(mid - before - {key}, n) && Refuted(now - mid, n)
      ensures Refuted(now - before - {key}, n)
    {
      forall ops: seq<Operation<O>>, state | Within(ops, operations) && |ops| < n && Remembered(now - before - {key}, ops, state)
        ensures !Linearizable(apply, ops, state)
      {
        assert Remembered(mid - before - {key}, ops, state) || Remembered(now - mid, ops, state);
      }
    }

    lemma RefutedWithKey(before: set<(seq<nat>, K)>, now: set<(seq<nat>, K)>, remaining: seq<Operation<O>>, state: S)
      requires Injective(hash) && Distinct(operations) && Within(remaining, operations)
      requires !Linearizable(apply, remaining, state)
      requires var others := now - before - {(Ids(remaining), hash(state))};
               Refuted(others, |remaining|) && KeysBelow(others, |remaining|)
      ensures Refuted(now - before, |remaining| + 1)
    {
      var key := (Ids(remaining), hash(state));
      forall ops: seq<Operation<O>>, t | Within(ops, operations) && |ops| < |remaining| + 1 && Remembered(now - before, ops, t)
        ensures !Linearizable(apply, ops, t)
      {
        assert |Ids(ops)| == |ops|;
        if (Ids(ops), hash(t)) == key {
          SameIds(ops, remaining, operations);
        } else {
          assert Remembered(now - before - {key}, ops, t);
        }
      }
    }

    lemma KeysMore(before: set<(seq<nat>, K)>, mid: set<(seq<nat>, K)>, now: set<(seq<nat>, K)>, key: (seq<nat>, K), n: nat)
      requires KeysBelow(mid - before - {key}, n) && KeysBelow(now - mid, n)
      ensures KeysBelow(now - before - {key}, n)
    {
    }

    lemma KeysWithKey(before: set<(seq<nat>, K)>, now: set<(seq<nat>, K)>, key: (seq<nat>, K), n: nat)
      requires KeysBelow(now - before - {key}, n) && |key.0| == n
      ensures KeysBelow(now - before, n + 1)
    {
    }

    lemma NothingNew(n: nat)
      ensures Refuted({}, n) && KeysBelow({}, n)
    {
    }

    /** Real-time order: something still to be placed returned before this candidate was invoked. */
    method IsBlocked(remaining: seq<Operation<O>>, i: nat) returns (blocked: bool)
      requires i < |remaining|
      ensures blocked == Blocked(remaining, i)
    {
      blocked := false;
      var j := 0;
      while j < i
        invariant j <= i
        invariant forall k :: 0 <= k < j ==> !Precedes(remaining[k], remaining[i])
      {
        if !remaining[j].pending && remaining[j].returnedAt < remaining[i].invokedAt {
          return true;
        }
        j := j + 1;
      }
    }

    /** Searches for an order of the remaining operations, from the given model state. */
    method Explain(remaining: seq<Operation<O>>, state: S) returns (found: bool)
      requires Injective(hash) && Distinct(operations)
      requires Ordered(remaining) && Within(remaining, operations)
      requires steps <= maxSteps + 1
      requires !exhausted ==> Refuted(memo, |remaining| + 1)
      modifies this
      ensures old(steps) <= steps <= maxSteps + 1 && (old(exhausted) ==> exhausted) && old(memo) <= memo
      ensures exhausted ==> old(exhausted) || steps == maxSteps + 1
      ensures KeysBelow(memo - old(memo), |remaining| + 1)
      ensures found ==> old(placed) <= placed && Linearizes(apply, remaining, state, placed[|old(placed)|..])
      ensures !found ==> placed == old(placed)
      ensures !found && !exhausted ==> !Linearizable(apply, remaining, state) && Refuted(memo - old(memo), |remaining| + 1)
      decreases |remaining|, 1
    {
      hide Linearizes, Ordered, Within, Refuted, KeysBelow, Blocked, NeverFirst, AllPending, Injective, Distinct, Linearizable;
      NothingNew(|remaining| + 1);
      NothingNew(|remaining|);
      assert old(memo) - old(memo) == {};
      if steps > maxSteps {
        exhausted := true;
        return false;
      }
      steps := steps + 1;
      if AllPending(remaining) {
        NothingLeft(apply, remaining, state);
        assert placed[|old(placed)|..] == [];
        return true;
      }
      var key := (Ids(remaining), hash(state));
      if key in memo {
        if !exhausted {
          MemoRefutes(memo, remaining, state);
        }
        return false;
      }
      memo := memo + {key};
      assert memo - old(memo) - {key} == {};
      var i := 0;
      while i < |remaining|
        invariant i <= |remaining| && placed == old(placed)
        invariant old(steps) <= steps <= maxSteps + 1 && (old(exhausted) ==> exhausted)
        invariant exhausted ==> old(exhausted) || steps == maxSteps + 1
        invariant old(memo) + {key} <= memo && KeysBelow(memo - old(memo) - {key}, |remaining|)
        invariant !exhausted ==> Refuted(memo - old(memo) - {key}, |remaining|)
        invariant !exhausted ==> forall k :: 0 <= k < i ==> NeverFirst(apply, remaining, state, k)
      {
        var blocked := IsBlocked(remaining, i);
        if blocked {
          BlockedNeverFirst(apply, remaining, state, i);
          break;
        }
        var outcome := apply(state, remaining[i].op);
        if outcome.None? {
          RejectedNeverFirst(apply, remaining, state, i);
        } else {
          ghost var before := memo;
          if !exhausted {
            RefutedTogether(old(memo), memo, key, |remaining|);
          }
          var lifted := Lift(remaining, state, i, outcome.value);
          KeysMore(old(memo), before, memo, key, |remaining|);
          KeysWithKey(old(memo), memo, key, |remaining|);
          if lifted {
            return true;
          }
          if !exhausted {
            RefutedMore(old(memo), before, memo, key, |remaining|);
          }
        }
        i := i + 1;
      }
      KeysWithKey(old(memo), memo, key, |remaining|);
      if !exhausted {
        NoneFirst(apply, remaining, state);
        RefutedWithKey(old(memo), memo, remaining, state);
      }
      return false;
    }

    /** Places one free, accepted operation and tries the rest; takes it back when the rest fails. */
    method Lift(remaining: seq<Operation<O>>, state: S, i: nat, next: S) returns (found: bool)
      requires Injective(hash) && Distinct(operations)
      requires Ordered(remaining) && Within(remaining, operations)
      requires i < |remaining| && !Blocked(remaining, i) && apply(state, remaining[i].op) == Some(next)
      requires steps <= maxSteps + 1
      requires !exhausted ==> Refuted(memo, |remaining|)
      modifies this
      ensures old(steps) <= steps <= maxSteps + 1 && (old(exhausted) ==> exhausted) && old(memo) <= memo
      ensures exhausted ==> old(exhausted) || steps == maxSteps + 1
      ensures KeysBelow(memo - old(memo), |remaining|)
      ensures found ==> old(placed) <= placed && Linearizes(apply, remaining, state, placed[|old(placed)|..])
      ensures !found ==> placed == old(placed)
      ensures !found && !exhausted ==> NeverFirst(apply, remaining, state, i) && Refuted(memo - old(memo), |remaining|)
      decreases |remaining|, 0
    {
      hide Linearizes, Ordered, Within, Refuted, KeysBelow, Blocked, NeverFirst, Injective, Distinct, Linearizable;
      OrderedIsDistinct(remaining);
      WithoutOrdered(remaining, i);
      WithoutWithin(remaining, i, operations);
      placed := placed + [remaining[i]];
      found := Explain(remaining[..i] + remaining[i + 1..], next);
      if found {
        var order := placed[|old(placed)| + 1..];
        Lifted(apply, remaining, state, i, next, order);
        assert placed[|old(placed)|..] == [remaining[i]] + order;
      } else {
        placed := placed[..|placed| - 1];
        if !exhausted {
          FailedNeverFirst(apply, remaining, state, i);
        }
      }
    }
  }
}
