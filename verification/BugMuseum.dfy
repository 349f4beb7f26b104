/** The Bug Museum's schedule shrinker: what it leaves is exactly the witness, action for action. */
module BugMuseum {

  type Kind = string

  datatype Action = Action(kind: Kind, actor: string, atMs: nat)

  function Kinds(actions: seq<Action>): seq<Kind> {
    seq(|actions|, i requires 0 <= i < |actions| => actions[i].kind)
  }

  // ── witnesses ─────────────────────────────────────────────────────────────

  /** The witness occurs in the schedule, in order, perhaps with other actions in between. */
  ghost predicate Embeds(at: seq<nat>, wanted: seq<Kind>, kinds: seq<Kind>) {
    && |at| == |wanted|
    && (forall i :: 0 <= i < |at| ==> at[i] < |kinds| && kinds[at[i]] == wanted[i])
    && forall i, j :: 0 <= i < j < |at| ==> at[i] < at[j]
  }

  /** Greedy matching from the front. */
  predicate Contains(wanted: seq<Kind>, kinds: seq<Kind>) {
    if wanted == [] then true
    else if kinds == [] then false
    else if kinds[0] == wanted[0] then Contains(wanted[1..], kinds[1..])
    else Contains(wanted, kinds[1..])
  }

  lemma {:induction false} ContainsEmbeds(wanted: seq<Kind>, kinds: seq<Kind>) returns (at: seq<nat>)
    requires Contains(wanted, kinds)
    ensures Embeds(at, wanted, kinds)
    decreases |kinds|
  {
    if wanted == [] {
      at := [];
    } else {
      var rest: seq<nat>;
      var first := kinds[0] == wanted[0];
      if first {
        rest := ContainsEmbeds(wanted[1..], kinds[1..]);
      } else {
        rest := ContainsEmbeds(wanted, kinds[1..]);
      }
      var shifted := seq(|rest|, i requires 0 <= i < |rest| => rest[i] + 1);
      at := if first then [0] + shifted else shifted;
      forall i | 0 <= i < |at| ensures at[i] < |kinds| && kinds[at[i]] == wanted[i] {
        if first && i > 0 {
          assert at[i] == rest[i - 1] + 1 && wanted[1..][i - 1] == wanted[i];
        }
      }
    }
  }

  lemma {:induction false} EmbedsContains(at: seq<nat>, wanted: seq<Kind>, kinds: seq<Kind>)
    requires Embeds(at, wanted, kinds)
    ensures Contains(wanted, kinds)
    decreases |kinds|
  {
    if wanted != [] {
      assert kinds[at[0]] == wanted[0];
      if kinds[0] == wanted[0] {
        var rest := seq(|at| - 1, i requires 0 <= i < |at| - 1 => at[i + 1] - 1);
        forall i | 0 <= i < |rest| ensures rest[i] < |kinds[1..]| && kinds[1..][rest[i]] == wanted[1..][i] {
          assert at[0] < at[i + 1];
        }
        EmbedsContains(rest, wanted[1..], kinds[1..]);
      } else {
        var rest := seq(|at|, i requires 0 <= i < |at| && at[i] > 0 => at[i] - 1);
        EmbedsContains(rest, wanted, kinds[1..]);
      }
    }
  }

  /** Greedy matching finds the witness exactly when it occurs. */
  lemma GreedyIsExact(wanted: seq<Kind>, kinds: seq<Kind>)
    ensures Contains(wanted, kinds) <==> exists at :: Embeds(at, wanted, kinds)
  {
    if Contains(wanted, kinds) {
      var at := ContainsEmbeds(wanted, kinds);
    }
    if at :| Embeds(at, wanted, kinds) {
      EmbedsContains(at, wanted, kinds);
    }
  }

  function Without<T>(s: seq<T>, k: nat): seq<T>
    requires k < |s|
  {
    s[..k] + s[k + 1..]
  }

  lemma {:induction false} ShorterWitness(wanted: seq<Kind>, kinds: seq<Kind>)
    requires wanted != [] && Contains(wanted, kinds)
    ensures Contains(wanted[1..], kinds)
    decreases |kinds|
  {
    if kinds[0] == wanted[0] {
      OneMoreInFront(wanted[1..], kinds);
    } else {
      ShorterWitness(wanted, kinds[1..]);
      OneMoreInFront(wanted[1..], kinds);
    }
  }

  lemma {:induction false} OneMoreInFront(wanted: seq<Kind>, kinds: seq<Kind>)
    requires kinds != [] && Contains(wanted, kinds[1..])
    ensures Contains(wanted, kinds)
    decreases |kinds|, 0
  {
    if wanted != [] && kinds[0] == wanted[0] {
      ShorterWitness(wanted, kinds[1..]);
    }
  }

  /** Putting an action back never loses the witness. */
  lemma {:induction false} Monotone(wanted: seq<Kind>, kinds: seq<Kind>, k: nat)
    requires k < |kinds| && Contains(wanted, Without(kinds, k))
    ensures Contains(wanted, kinds)
    decreases k
  {
    if k == 0 {
      assert Without(kinds, 0) == kinds[1..];
      OneMoreInFront(wanted, kinds);
    } else if wanted != [] {
      var less := Without(kinds, k);
      assert less[0] == kinds[0] && less[1..] == Without(kinds[1..], k - 1);
      if kinds[0] == wanted[0] {
        Monotone(wanted[1..], kinds[1..], k - 1);
      } else {
        Monotone(wanted, kinds[1..], k - 1);
      }
    }
  }

  /** A schedule longer than the witness it contains has an action to spare. */
  lemma {:induction false} SpareAction(wanted: seq<Kind>, kinds: seq<Kind>) returns (k: nat)
    requires Contains(wanted, kinds) && |kinds| > |wanted|
    ensures k < |kinds| && Contains(wanted, Without(kinds, k))
    decreases |kinds|
  {
    if wanted != [] && kinds[0] == wanted[0] {
      k := SpareAction(wanted[1..], kinds[1..]);
      assert Without(kinds, k + 1)[0] == kinds[0] && Without(kinds, k + 1)[1..] == Without(kinds[1..], k);
      k := k + 1;
    } else {
      k := 0;
      assert Without(kinds, 0) == kinds[1..];
    }
  }

  lemma {:induction false} WitnessFits(wanted: seq<Kind>, kinds: seq<Kind>)
    requires Contains(wanted, kinds)
    ensures |wanted| <= |kinds| && (|wanted| == |kinds| ==> wanted == kinds)
    decreases |kinds|
  {
    if wanted != [] {
      if kinds[0] == wanted[0] {
        WitnessFits(wanted[1..], kinds[1..]);
        assert wanted == [wanted[0]] + wanted[1..] && kinds == [kinds[0]] + kinds[1..];
      } else {
        WitnessFits(wanted, kinds[1..]);
      }
    }
  }

  /** The kept actions are these of the schedule, in the same order. */
  ghost predicate Picks(at: seq<nat>, kept: seq<Action>, schedule: seq<Action>) {
    && |at| == |kept|
    && (forall i :: 0 <= i < |at| ==> at[i] < |schedule| && kept[i] == schedule[at[i]])
    && forall i, j :: 0 <= i < j < |at| ==> at[i] < at[j]
  }

  ghost predicate Selected(kept: seq<Action>, schedule: seq<Action>) {
    exists at :: Picks(at, kept, schedule)
  }

  /** Cutting a chunk out of a selection leaves a selection. */
  lemma CutStaysSelected(kept: seq<Action>, schedule: seq<Action>, from: nat, to: nat)
    requires Selected(kept, schedule) && from <= to <= |kept|
    ensures Selected(kept[..from] + kept[to..], schedule)
  {
    var at :| Picks(at, kept, schedule);
    assert Picks(at[..from] + at[to..], kept[..from] + kept[to..], schedule);
  }

  lemma AllSelected(schedule: seq<Action>)
    ensures Selected(schedule, schedule)
  {
    assert Picks(seq(|schedule|, i requires 0 <= i < |schedule| => i), schedule, schedule);
  }

  /** Every action is needed. */
  ghost predicate Minimal(wanted: seq<Kind>, actions: seq<Action>) {
    Contains(wanted, Kinds(actions)) && NeededFrom(wanted, actions, 0)
  }

  ghost predicate NeededFrom(wanted: seq<Kind>, actions: seq<Action>, from: nat) {
    forall k :: from <= k < |actions| ==> !Contains(wanted, Kinds(Without(actions, k)))
  }

  lemma KindsWithout(actions: seq<Action>, k: nat)
    requires k < |actions|
    ensures Kinds(Without(actions, k)) == Without(Kinds(actions), k)
  {
  }

  /** A 1-minimal schedule is the witness itself. */
  lemma MinimalIsWitness(wanted: seq<Kind>, actions: seq<Action>)
    requires Minimal(wanted, actions)
    ensures Kinds(actions) == wanted
  {
    WitnessFits(wanted, Kinds(actions));
    if |actions| > |wanted| {
      var k := SpareAction(wanted, Kinds(actions));
      KindsWithout(actions, k);
    }
  }

  // ── the shrinker ──────────────────────────────────────────────────────────

  method ContainsWitness(required: seq<Kind>, actions: seq<Action>) returns (found: bool)
    requires required != []
    ensures found == Contains(required, Kinds(actions))
  {
    var cursor, n := 0, 0;
    while n < |actions|
      invariant n <= |actions| && cursor < |required|
      invariant Contains(required, Kinds(actions)) == Contains(required[cursor..], Kinds(actions)[n..])
    {
      var kinds := Kinds(actions);
      assert kinds[n..][0] == actions[n].kind && kinds[n..][1..] == kinds[n + 1..];
      assert required[cursor..][0] == required[cursor] && required[cursor..][1..] == required[cursor + 1..];
      if actions[n].kind == required[cursor] {
        cursor := cursor + 1;
      }
      n := n + 1;
      if cursor == |required| {
        return true;
      }
    }
    return false;
  }

  /** One round of cutting chunks: the first candidate that still fails, if there is one. */
  method TryChunks(required: seq<Kind>, actions: seq<Action>, chunkSize: nat, ghost schedule: seq<Action>)
    returns (reduced: bool, smaller: seq<Action>)
    requires required != [] && chunkSize > 0 && Contains(required, Kinds(actions)) && Selected(actions, schedule)
    ensures Selected(smaller, schedule)
    ensures Contains(required, Kinds(smaller))
    ensures if reduced then |smaller| < |actions| else smaller == actions
  {
    reduced, smaller := false, actions;
    var start := 0;
    while start < |actions|
      invariant !reduced && smaller == actions
      decreases |actions| - start
    {
      var next := if start + chunkSize < |actions| then start + chunkSize else |actions|;
      var candidate := actions[..start] + actions[next..];
      var preserved := ContainsWitness(required, candidate);
      if |candidate| > 0 && preserved {
        CutStaysSelected(actions, schedule, start, next);
        return true, candidate;
      }
      start := start + chunkSize;
    }
  }

  /** Removing an action below leaves those above as needed as they were. */
  lemma StillNeeded(wanted: seq<Kind>, actions: seq<Action>, index: nat)
    requires index < |actions| && NeededFrom(wanted, actions, index + 1)
    ensures NeededFrom(wanted, Without(actions, index), index)
  {
    var fewer := Without(actions, index);
    forall k | index <= k < |fewer| ensures !Contains(wanted, Kinds(Without(fewer, k))) {
      var other := Without(actions, k + 1);
      assert Without(fewer, k) == Without(other, index);
      KindsWithout(other, index);
      if Contains(wanted, Kinds(Without(fewer, k))) {
        Monotone(wanted, Kinds(other), index);
      }
    }
  }

  /** The backward pass: one look at each action suffices, because putting actions back never hides the witness. */
  method DropSingles(required: seq<Kind>, actions: seq<Action>, ghost schedule: seq<Action>)
    returns (minimal: seq<Action>)
    requires required != [] && Contains(required, Kinds(actions)) && Selected(actions, schedule)
    ensures Minimal(required, minimal) && Selected(minimal, schedule)
  {
    minimal := actions;
    var index: nat := |actions|;
    while index > 0
      invariant index <= |minimal| && Contains(required, Kinds(minimal)) && NeededFrom(required, minimal, index)
      invariant Selected(minimal, schedule)
    {
      index := index - 1;
      var candidate := minimal[..index] + minimal[index + 1..];
      var preserved := ContainsWitness(required, candidate);
      if |candidate| > 0 && preserved {
        StillNeeded(required, minimal, index);
        CutStaysSelected(minimal, schedule, index, index + 1);
        minimal := candidate;
      }
    }
  }

  function Retimed(actions: seq<Action>): seq<Action> {
    seq(|actions|, i requires 0 <= i < |actions| => actions[i].(atMs := i * 125))
  }

  lemma RetimedKinds(actions: seq<Action>)
    ensures Kinds(Retimed(actions)) == Kinds(actions)
  {
  }

  function CeilDiv(a: nat, b: nat): nat
    requires b > 0
  {
    (a + b - 1) / b
  }

  lemma ChunksArePositive(a: nat, b: nat)
    requires a > 0 && b > 0
    ensures CeilDiv(a, b) > 0
  {
    assert a + b - 1 == (a - 1) + 1 * b;
  }

  /**
   * Shrinks any failing schedule. It terminates with exactly the witness: as many actions as it has,
   * of its kinds, in its order, each one an action of the schedule, re-timed at even intervals.
   */
  method Shrink(required: seq<Kind>, schedule: seq<Action>) returns (minimized: seq<Action>)
    requires required != [] && Contains(required, Kinds(schedule))
    ensures Kinds(minimized) == required
    ensures exists kept :: Selected(kept, schedule) && minimized == Retimed(kept)
  {
    hide Contains, Selected, Kinds, Retimed, Minimal, CeilDiv;
    AllSelected(schedule);
    var actions := schedule;
    var granularity := 2;
    while |actions| > 1
      invariant granularity >= 2 && Contains(required, Kinds(actions)) && Selected(actions, schedule)
      decreases |actions|, |actions| - granularity
    {
      ChunksArePositive(|actions|, granularity);
      var reduced, smaller := TryChunks(required, actions, CeilDiv(|actions|, granularity), schedule);
      if reduced {
        actions := smaller;
        granularity := if granularity - 1 > 2 then granularity - 1 else 2;
      } else {
        if granularity >= |actions| {
          break;
        }
        granularity := if 2 * granularity < |actions| then 2 * granularity else |actions|;
      }
    }
    actions := DropSingles(required, actions, schedule);
    MinimalIsWitness(required, actions);
    minimized := Retimed(actions);
    RetimedKinds(actions);
  }
}
