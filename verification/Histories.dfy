/**
 * From a recorded history to a verdict: invocations are paired with their outcomes, sorted by
 * invocation, and searched. The verdict is about the history itself.
 */
module Histories {
  import opened Linearizability

  /** What a client recorded. `Info` is a timeout: nobody knows whether the operation happened. */
  datatype Event<+O, +R> =
    | Invoke(process: nat, op: O, at: int)
    | Ok(process: nat, result: Option<R>, at: int)
    | Fail(process: nat, at: int)
    | Info(process: nat, at: int)

  ghost predicate Timed<O, R>(history: seq<Event<O, R>>) {
    forall i, j :: 0 <= i < j < |history| ==> history[i].at <= history[j].at
  }

  function InvokesBefore<O, R>(history: seq<Event<O, R>>, n: nat): nat
    requires n <= |history|
  {
    if n == 0 then 0 else InvokesBefore(history, n - 1) + (if history[n - 1].Invoke? then 1 else 0)
  }

  /** Event k is the next of event e's process. */
  ghost predicate Follows<O, R>(history: seq<Event<O, R>>, e: nat, k: nat) {
    && e < k < |history| && history[k].process == history[e].process
    && forall j :: e < j < k ==> history[j].process != history[e].process
  }

  function Started<O, R>(history: seq<Event<O, R>>, e: nat): Operation<O>
    requires e < |history| && history[e].Invoke?
  {
    Operation(InvokesBefore(history, e), history[e].op, history[e].at, 0, true)
  }

  function Completed<O, R>(fold: (O, R) -> O, a: Operation<O>, result: Option<R>, at: int): Operation<O> {
    a.(op := if result.Some? then fold(a.op, result.value) else a.op, returnedAt := at, pending := false)
  }

  /** What the process's next event makes of a started operation: `Fail` leaves nothing. */
  ghost predicate Settles<O, R>(fold: (O, R) -> O, event: Event<O, R>, started: Operation<O>, a: Operation<O>) {
    match event
    case Ok(_, result, at) => a == Completed(fold, started, result, at)
    case Fail(_, _) => false
    case _ => a == started
  }

  /**
   * The invocation at e, read with the first n events: completed by an `Ok`, dropped by a `Fail`, and
   * otherwise pending, also when its process went on to invoke something else.
   */
  ghost predicate Recorded<O, R>(fold: (O, R) -> O, history: seq<Event<O, R>>, n: nat, e: nat, a: Operation<O>)
    requires n <= |history|
  {
    && e < n && history[e].Invoke?
    && ((exists k: nat :: k < n && Follows(history, e, k) && Settles(fold, history[k], Started(history, e), a))
        || (a == Started(history, e) && forall k: nat :: k < n ==> !Follows(history, e, k)))
  }

  ghost predicate IsOperation<O, R>(fold: (O, R) -> O, history: seq<Event<O, R>>, n: nat, a: Operation<O>)
    requires n <= |history|
  {
    exists e: nat :: Recorded(fold, history, n, e, a)
  }

  /** An order of the operations of a history that explains it. */
  ghost predicate Explains<S, O(!new), R>(apply: (S, O) -> Option<S>, fold: (O, R) -> O, history: seq<Event<O, R>>, init: S, order: seq<Operation<O>>) {
    && Distinct(order)
    && (forall a :: a in order ==> IsOperation(fold, history, |history|, a))
    && (forall e: nat, a :: Recorded(fold, history, |history|, e, a) && !a.pending ==> a in order)
    && (forall i, j :: 0 <= i < j < |order| ==> !Precedes(order[j], order[i]))
    && RunFrom(apply, init, order).Some?
  }

  // ── pairing ───────────────────────────────────────────────────────────────

  lemma {:induction false} InvokesGrow<O, R>(history: seq<Event<O, R>>, d: nat, e: nat)
    requires d <= e <= |history|
    ensures InvokesBefore(history, d) <= InvokesBefore(history, e)
    ensures d < e && history[d].Invoke? ==> InvokesBefore(history, d) < InvokesBefore(history, e)
    decreases e
  {
    if d < e {
      InvokesGrow(history, d, e - 1);
    }
  }

  /** One more event changes only the operation it answers. */
  lemma OneMoreEvent<O, R>(fold: (O, R) -> O, history: seq<Event<O, R>>, n: nat, e: nat, a: Operation<O>)
    requires n < |history| && e < n && history[e].Invoke?
    ensures Recorded(fold, history, n + 1, e, a) <==>
            if Follows(history, e, n) then Settles(fold, history[n], Started(history, e), a) else Recorded(fold, history, n, e, a)
    ensures Follows(history, e, n) ==> (Recorded(fold, history, n, e, a) <==> a == Started(history, e))
  {
  }

  lemma NewInvocation<O, R>(fold: (O, R) -> O, history: seq<Event<O, R>>, n: nat, a: Operation<O>)
    requires n < |history|
    ensures Recorded(fold, history, n + 1, n, a) <==> history[n].Invoke? && a == Started(history, n)
  {
  }

  /** Process p's last event is the invocation at e. */
  ghost predicate IsOpen<O, R>(history: seq<Event<O, R>>, n: nat, p: nat, e: nat)
    requires n <= |history|
  {
    && e < n && history[e].Invoke? && history[e].process == p
    && forall j :: e < j < n ==> history[j].process != p
  }

  /** The state of the pairing loop after n events. */
  ghost predicate PairedUpTo<O(!new), R>(fold: (O, R) -> O, history: seq<Event<O, R>>, n: nat, operations: seq<Operation<O>>, open: map<nat, nat>)
    requires n <= |history|
  {
    && Distinct(operations)
    && (forall a :: a in operations <==> IsOperation(fold, history, n, a))
    && OpenUpTo(history, n, open)
  }

  ghost predicate OpenAs<O, R>(history: seq<Event<O, R>>, n: nat, p: nat, e: nat, id: nat)
    requires n <= |history|
  {
    IsOpen(history, n, p, e) && id == InvokesBefore(history, e)
  }

  /** The table of open invocations: per process, the id of an invocation that is its last event. */
  ghost predicate OpenUpTo<O, R>(history: seq<Event<O, R>>, n: nat, open: map<nat, nat>)
    requires n <= |history|
  {
    && (forall p :: p in open ==> exists e: nat :: OpenAs(history, n, p, e, open[p]))
    && (forall p, e: nat, id :: OpenAs(history, n, p, e, id) ==> p in open && open[p] == id)
  }

  lemma RecordedId<O, R>(fold: (O, R) -> O, history: seq<Event<O, R>>, n: nat, e: nat, a: Operation<O>)
    requires n <= |history| && Recorded(fold, history, n, e, a)
    ensures a.id == InvokesBefore(history, e) && a.invokedAt == history[e].at
  {
  }

  /** Records with one id stem from one invocation. */
  lemma SameInvocation<O, R>(history: seq<Event<O, R>>, d: nat, e: nat)
    requires d < |history| && e < |history| && history[d].Invoke? && history[e].Invoke?
    requires InvokesBefore(history, d) == InvokesBefore(history, e)
    ensures d == e
  {
    if d < e {
      InvokesGrow(history, d, e);
    } else if e < d {
      InvokesGrow(history, e, d);
    }
  }

  lemma PairInvoke<O(!new), R>(fold: (O, R) -> O, history: seq<Event<O, R>>, n: nat, operations: seq<Operation<O>>, open: map<nat, nat>)
    requires n < |history| && PairedUpTo(fold, history, n, operations, open) && history[n].Invoke?
    ensures PairedUpTo(fold, history, n + 1, operations + [Started(history, n)],
                       open[history[n].process := InvokesBefore(history, n)])
  {
    var started := Started(history, n);
    var open' := open[history[n].process := InvokesBefore(history, n)];
    forall a ensures a in operations + [started] <==> IsOperation(fold, history, n + 1, a) {
      NewInvocation(fold, history, n, a);
      StillOperation(fold, history, n, a);
    }
    forall i | 0 <= i < |operations| ensures operations[i].id != started.id {
      assert operations[i] in operations;
      var e: nat :| Recorded(fold, history, n, e, operations[i]);
      RecordedId(fold, history, n, e, operations[i]);
      InvokesGrow(history, e, n);
    }
    OpenOthers(history, n, open, open');
  }

  /** An invocation, or the news that an outcome is unknown, leaves every earlier operation as it was. */
  lemma StillOperation<O(!new), R>(fold: (O, R) -> O, history: seq<Event<O, R>>, n: nat, a: Operation<O>)
    requires n < |history| && (history[n].Invoke? || history[n].Info?)
    ensures IsOperation(fold, history, n + 1, a) <==>
            IsOperation(fold, history, n, a) || Recorded(fold, history, n + 1, n, a)
  {
    if e: nat :| Recorded(fold, history, n, e, a) {
      OneMoreEvent(fold, history, n, e, a);
      assert Recorded(fold, history, n + 1, e, a);
    }
    var m := n + 1;
    if e: nat :| Recorded(fold, history, m, e, a) && e < n {
      OneMoreEvent(fold, history, n, e, a);
      assert Recorded(fold, history, n, e, a);
    }
  }

  /** The processes other than the event's own keep their open invocations. */
  lemma OpenOthers<O, R>(history: seq<Event<O, R>>, n: nat, open: map<nat, nat>, open': map<nat, nat>)
    requires n < |history| && OpenUpTo(history, n, open)
    requires forall p :: p != history[n].process ==> (p in open' <==> p in open) && (p in open ==> open'[p] == open[p])
    requires var p := history[n].process;
             if history[n].Invoke? then p in open' && open'[p] == InvokesBefore(history, n) else p !in open'
    ensures OpenUpTo(history, n + 1, open')
  {
    hide InvokesBefore, OpenAs;
    var m := n + 1;
    forall p | p in open' ensures exists e: nat :: OpenAs(history, m, p, e, open'[p]) {
      if p != history[n].process {
        var e: nat :| OpenAs(history, n, p, e, open[p]);
        OpenStays(history, n, p, e, open[p]);
      } else {
        OpenStays(history, n, p, n, open'[p]);
      }
    }
    forall p, e: nat, id | OpenAs(history, m, p, e, id) ensures p in open' && open'[p] == id {
      OpenStays(history, n, p, e, id);
    }
  }

  lemma OpenStays<O, R>(history: seq<Event<O, R>>, n: nat, p: nat, e: nat, id: nat)
    requires n < |history|
    ensures if history[n].process != p then OpenAs(history, n + 1, p, e, id) <==> OpenAs(history, n, p, e, id)
            else OpenAs(history, n + 1, p, e, id) <==> e == n && history[n].Invoke? && id == InvokesBefore(history, n)
  {
  }

  /** A response of a process with nothing open, or the news that an outcome is unknown. */
  lemma PairNothing<O(!new), R>(fold: (O, R) -> O, history: seq<Event<O, R>>, n: nat, operations: seq<Operation<O>>, open: map<nat, nat>)
    requires n < |history| && PairedUpTo(fold, history, n, operations, open) && !history[n].Invoke?
    requires history[n].Info? || history[n].process !in open
    ensures PairedUpTo(fold, history, n + 1, operations, open - {history[n].process})
  {
    forall a ensures a in operations <==> IsOperation(fold, history, n + 1, a) {
      NewInvocation(fold, history, n, a);
      if history[n].Info? {
        StillOperation(fold, history, n, a);
      } else {
        NotAnswered(fold, history, n, operations, open, a);
      }
    }
    OpenOthers(history, n, open, open - {history[n].process});
  }

  lemma NotAnswered<O(!new), R>(fold: (O, R) -> O, history: seq<Event<O, R>>, n: nat, operations: seq<Operation<O>>, open: map<nat, nat>, a: Operation<O>)
    requires n < |history| && PairedUpTo(fold, history, n, operations, open) && !history[n].Invoke?
    requires history[n].process !in open
    ensures IsOperation(fold, history, n + 1, a) <==> IsOperation(fold, history, n, a)
  {
    forall e: nat | e < n && history[e].Invoke? ensures Recorded(fold, history, n + 1, e, a) <==> Recorded(fold, history, n, e, a) {
      OneMoreEvent(fold, history, n, e, a);
      if Follows(history, e, n) {
        assert OpenAs(history, n, history[n].process, e, InvokesBefore(history, e));
      }
    }
  }

  /** The operation at position i of the list is the one that event n answers. */
  ghost predicate Answers<O, R>(history: seq<Event<O, R>>, n: nat, operations: seq<Operation<O>>, open: map<nat, nat>, i: nat)
    requires n < |history|
  {
    i < |operations| && history[n].process in open && operations[i].id == open[history[n].process]
  }

  lemma AnsweredInvocation<O(!new), R>(fold: (O, R) -> O, history: seq<Event<O, R>>, n: nat, operations: seq<Operation<O>>, open: map<nat, nat>, i: nat)
    returns (e: nat)
    requires n < |history| && PairedUpTo(fold, history, n, operations, open) && !history[n].Invoke?
    requires Answers(history, n, operations, open, i)
    ensures e < n && history[e].Invoke? && Follows(history, e, n) && operations[i] == Started(history, e)
  {
    e :| OpenAs(history, n, history[n].process, e, open[history[n].process]);
    assert operations[i] in operations;
    var d: nat :| Recorded(fold, history, n, d, operations[i]);
    RecordedId(fold, history, n, d, operations[i]);
    SameInvocation(history, d, e);
    OneMoreEvent(fold, history, n, e, operations[i]);
  }

  /** After the answer: the answered operation as settled, and every other operation as before. */
  lemma AnsweredOperations<O(!new), R>(fold: (O, R) -> O, history: seq<Event<O, R>>, n: nat, operations: seq<Operation<O>>, open: map<nat, nat>, i: nat, a: Operation<O>)
    requires n < |history| && PairedUpTo(fold, history, n, operations, open) && !history[n].Invoke?
    requires Answers(history, n, operations, open, i)
    ensures IsOperation(fold, history, n + 1, a) <==>
            Settles(fold, history[n], operations[i], a) || (a in operations && a != operations[i])
  {
    var e := AnsweredInvocation(fold, history, n, operations, open, i);
    forall d: nat | d < n && history[d].Invoke?
      ensures Recorded(fold, history, n + 1, d, a) <==>
              if d == e then Settles(fold, history[n], operations[i], a) else Recorded(fold, history, n, d, a)
    {
      OneMoreEvent(fold, history, n, d, a);
    }
    OneMoreEvent(fold, history, n, e, a);
    if d: nat :| Recorded(fold, history, n, d, a) {
      if d != e {
        RecordedId(fold, history, n, d, a);
        if operations[i] == a {
          SameInvocation(history, d, e);
        }
        assert Recorded(fold, history, n + 1, d, a);
      }
    }
    var m := n + 1;
    if d: nat :| Recorded(fold, history, m, d, a) && d != e {
      RecordedId(fold, history, n, d, a);
      if operations[i] == a {
        SameInvocation(history, d, e);
      }
      assert Recorded(fold, history, n, d, a);
    }
    if Settles(fold, history[n], operations[i], a) {
      assert Recorded(fold, history, n + 1, e, a);
    }
  }

  lemma Replaced<O>(operations: seq<Operation<O>>, i: nat, b: Operation<O>)
    requires Distinct(operations) && i < |operations| && b.id == operations[i].id
    ensures Distinct(operations[i := b])
    ensures forall a :: a in operations[i := b] <==> a == b || (a in operations && a != operations[i])
  {
    forall a ensures a in operations[i := b] <==> a == b || (a in operations && a != operations[i]) {
      if a in operations && a != operations[i] {
        var j :| 0 <= j < |operations| && operations[j] == a;
        assert operations[i := b][j] == a;
      }
      assert operations[i := b][i] == b;
    }
  }

  lemma Removed<O>(operations: seq<Operation<O>>, i: nat)
    requires Distinct(operations) && i < |operations|
    ensures Distinct(Without(operations, i))
    ensures forall a :: a in Without(operations, i) <==> a in operations && a != operations[i]
  {
    forall a ensures a in Without(operations, i) <==> a in operations && a != operations[i] {
      WithoutMembers(operations, i, a);
    }
  }

  lemma PairOk<O(!new), R>(fold: (O, R) -> O, history: seq<Event<O, R>>, n: nat, operations: seq<Operation<O>>, open: map<nat, nat>, i: nat)
    requires n < |history| && PairedUpTo(fold, history, n, operations, open) && history[n].Ok?
    requires Answers(history, n, operations, open, i)
    ensures PairedUpTo(fold, history, n + 1, operations[i := Completed(fold, operations[i], history[n].result, history[n].at)],
                       open - {history[n].process})
  {
    var b := Completed(fold, operations[i], history[n].result, history[n].at);
    var operations' := operations[i := b];
    Replaced(operations, i, b);
    forall a ensures a in operations' <==> IsOperation(fold, history, n + 1, a) {
      AnsweredOperations(fold, history, n, operations, open, i, a);
      assert Settles(fold, history[n], operations[i], a) <==> a == b;
      assert a in operations[i := b] <==> a == b || (a in operations && a != operations[i]);
    }
    OpenOthers(history, n, open, open - {history[n].process});
  }

  lemma PairFail<O(!new), R>(fold: (O, R) -> O, history: seq<Event<O, R>>, n: nat, operations: seq<Operation<O>>, open: map<nat, nat>, i: nat)
    requires n < |history| && PairedUpTo(fold, history, n, operations, open) && history[n].Fail?
    requires Answers(history, n, operations, open, i)
    ensures PairedUpTo(fold, history, n + 1, Without(operations, i), open - {history[n].process})
  {
    Removed(operations, i);
    forall a ensures a in Without(operations, i) <==> IsOperation(fold, history, n + 1, a) {
      AnsweredOperations(fold, history, n, operations, open, i, a);
    }
    OpenOthers(history, n, open, open - {history[n].process});
  }

  /** The open invocation is answered by its process's event, unless it failed before being listed. */
  lemma OpenIsListed<O(!new), R>(fold: (O, R) -> O, history: seq<Event<O, R>>, n: nat, operations: seq<Operation<O>>, open: map<nat, nat>)
    requires n < |history| && PairedUpTo(fold, history, n, operations, open) && !history[n].Invoke? && history[n].process in open
    ensures exists i :: Answers(history, n, operations, open, i)
  {
    var e: nat :| OpenAs(history, n, history[n].process, e, open[history[n].process]);
    var started := Started(history, e);
    OneMoreEvent(fold, history, n, e, started);
    assert Recorded(fold, history, n, e, started) && started in operations;
    var i :| 0 <= i < |operations| && operations[i] == started;
    assert Answers(history, n, operations, open, i);
  }

  lemma PairNone<O(!new), R>(fold: (O, R) -> O, history: seq<Event<O, R>>)
    ensures PairedUpTo(fold, history, 0, [], map[])
  {
  }

  lemma AllPaired<O(!new), R>(fold: (O, R) -> O, history: seq<Event<O, R>>, operations: seq<Operation<O>>, open: map<nat, nat>)
    requires PairedUpTo(fold, history, |history|, operations, open)
    ensures Distinct(operations) && forall a :: a in operations <==> IsOperation(fold, history, |history|, a)
  {
  }

  method IndexOf<O>(operations: seq<Operation<O>>, id: nat) returns (i: nat)
    requires exists j :: 0 <= j < |operations| && operations[j].id == id
    ensures i < |operations| && operations[i].id == id
  {
    i := 0;
    while operations[i].id != id
      invariant i < |operations| && exists j :: i <= j < |operations| && operations[j].id == id
      decreases |operations| - i
    {
      i := i + 1;
    }
  }

  /** Matches invocations to their completions and folds the results in. */
  method Pair<O(!new), R>(fold: (O, R) -> O, history: seq<Event<O, R>>) returns (sorted: seq<Operation<O>>)
    requires Timed(history)
    ensures Ordered(sorted)
    ensures forall a :: a in sorted <==> IsOperation(fold, history, |history|, a)
  {
    hide Timed, Ordered, PairedUpTo, IsOperation;
    var open: map<nat, nat> := map[];
    var operations: seq<Operation<O>> := [];
    PairNone(fold, history);
    var id := 0;
    var n := 0;
    while n < |history|
      invariant n <= |history| && id == InvokesBefore(history, n)
      invariant PairedUpTo(fold, history, n, operations, open)
    {
      var event := history[n];
      if event.Invoke? {
        PairInvoke(fold, history, n, operations, open);
        operations := operations + [Operation(id, event.op, event.at, 0, true)];
        open := open[event.process := id];
        id := id + 1;
      } else if event.process !in open || event.Info? {
        PairNothing(fold, history, n, operations, open);
        open := open - {event.process};
      } else {
        OpenIsListed(fold, history, n, operations, open);
        var i := IndexOf(operations, open[event.process]);
        if event.Ok? {
          PairOk(fold, history, n, operations, open, i);
          var op := if event.result.Some? then fold(operations[i].op, event.result.value) else operations[i].op;
          operations := operations[i := operations[i].(op := op, returnedAt := event.at, pending := false)];
        } else {
          PairFail(fold, history, n, operations, open, i);
          operations := operations[..i] + operations[i + 1..];
        }
        open := open - {event.process};
      }
      n := n + 1;
    }
    AllPaired(fold, history, operations, open);
    ReturnsAfterInvoking(fold, history, operations);
    sorted := SortByInvocation(operations);
  }

  lemma ReturnsAfterInvoking<O(!new), R>(fold: (O, R) -> O, history: seq<Event<O, R>>, operations: seq<Operation<O>>)
    requires Timed(history) && forall a :: a in operations ==> IsOperation(fold, history, |history|, a)
    ensures forall a :: a in operations && !a.pending ==> a.invokedAt <= a.returnedAt
  {
    forall a | a in operations && !a.pending ensures a.invokedAt <= a.returnedAt {
      var e: nat :| Recorded(fold, history, |history|, e, a);
      var k: nat :| k < |history| && Follows(history, e, k) && Settles(fold, history[k], Started(history, e), a);
    }
  }

  predicate Earlier<O>(a: Operation<O>, b: Operation<O>) {
    a.invokedAt < b.invokedAt || (a.invokedAt == b.invokedAt && a.id <= b.id)
  }

  ghost predicate Sorted<O>(ops: seq<Operation<O>>) {
    forall i, j :: 0 <= i < j < |ops| ==> Earlier(ops[i], ops[j])
  }

  method InsertByInvocation<O(!new)>(ops: seq<Operation<O>>, a: Operation<O>) returns (more: seq<Operation<O>>)
    requires Sorted(ops)
    ensures Sorted(more) && |more| == |ops| + 1
    ensures exists i :: 0 <= i <= |ops| && more == ops[..i] + [a] + ops[i..]
  {
    var i := |ops|;
    while i > 0 && !Earlier(ops[i - 1], a)
      invariant 0 <= i <= |ops| && forall k :: i <= k < |ops| ==> !Earlier(ops[k], a)
    {
      i := i - 1;
    }
    more := ops[..i] + [a] + ops[i..];
  }

  lemma Inserted<O>(ops: seq<Operation<O>>, a: Operation<O>, i: nat)
    requires i <= |ops| && Distinct(ops) && forall b :: b in ops ==> b.id != a.id
    ensures Distinct(ops[..i] + [a] + ops[i..])
    ensures forall b :: b in ops[..i] + [a] + ops[i..] <==> b == a || b in ops
  {
    var more := ops[..i] + [a] + ops[i..];
    assert ops == ops[..i] + ops[i..];
    forall j, k | 0 <= j < k < |more| ensures more[j].id != more[k].id {
      var j' := if j <= i then j else j - 1;
      var k' := if k <= i then k else k - 1;
      assert j != i ==> more[j] == ops[j'] && ops[j'] in ops;
      assert k != i ==> more[k] == ops[k'] && ops[k'] in ops;
    }
  }

  method SortByInvocation<O(!new)>(operations: seq<Operation<O>>) returns (sorted: seq<Operation<O>>)
    requires Distinct(operations)
    requires forall a :: a in operations && !a.pending ==> a.invokedAt <= a.returnedAt
    ensures Ordered(sorted) && forall a :: a in sorted <==> a in operations
  {
    sorted := [];
    var n := 0;
    while n < |operations|
      invariant n <= |operations| && Sorted(sorted) && Distinct(sorted)
      invariant forall a :: a in sorted <==> a in operations[..n]
    {
      var more := InsertByInvocation(sorted, operations[n]);
      ghost var i :| 0 <= i <= |sorted| && more == sorted[..i] + [operations[n]] + sorted[i..];
      Inserted(sorted, operations[n], i);
      assert operations[..n + 1] == operations[..n] + [operations[n]];
      sorted := more;
      n := n + 1;
    }
    assert operations[..n] == operations;
  }

  // ── the verdict ───────────────────────────────────────────────────────────

  datatype Verdict<+O> = Verdict(linearizable: bool, exhausted: bool, steps: nat, checked: nat, order: seq<Operation<O>>)

  /** Explaining a history is linearizing its operations. */
  lemma ExplainsIsLinearizes<S, O(!new), R>(apply: (S, O) -> Option<S>, fold: (O, R) -> O, history: seq<Event<O, R>>, init: S,
                                            operations: seq<Operation<O>>, order: seq<Operation<O>>)
    requires forall a :: a in operations <==> IsOperation(fold, history, |history|, a)
    ensures Explains(apply, fold, history, init, order) <==> Linearizes(apply, operations, init, order)
  {
  }

  /**
   * The checker is sound and complete: `linearizable` comes with an order that explains the history;
   * otherwise, unless the step budget ran out, no order does.
   */
  method Check<S(!new), O(!new), R, K(==)>(apply: (S, O) -> Option<S>, hash: S -> K, fold: (O, R) -> O, init: S, maxSteps: nat,
                                           history: seq<Event<O, R>>) returns (verdict: Verdict<O>)
    requires Timed(history) && Injective(hash)
    ensures verdict.linearizable ==> Explains(apply, fold, history, init, verdict.order)
    ensures !verdict.linearizable && !verdict.exhausted ==> forall order :: !Explains(apply, fold, history, init, order)
    ensures verdict.steps <= maxSteps + 1 && (verdict.exhausted ==> verdict.steps == maxSteps + 1)
  {
    hide Linearizes, Explains, Ordered;
    var operations := Pair(fold, history);
    forall order ensures Explains(apply, fold, history, init, order) <==> Linearizes(apply, operations, init, order) {
      ExplainsIsLinearizes(apply, fold, history, init, operations, order);
    }
    if |operations| == 0 {
      NothingLeft(apply, operations, init);
      return Verdict(true, false, 0, 0, []);
    }
    var search := new Search(apply, hash, maxSteps, operations);
    OrderedIsDistinct(operations);
    search.NothingNew(|operations| + 1);
    var linearizable := search.Explain(operations, init);
    assert search.placed[0..] == search.placed;
    verdict := Verdict(linearizable, search.exhausted, search.steps, |operations|, if linearizable then search.placed else []);
  }
}
