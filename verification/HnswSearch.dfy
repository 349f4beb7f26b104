/** Best-first search within one layer of the graph. */
module HnswSearch {
  import opened HnswOrder
  import opened HnswHeap

  /** What one search is asked: distances, which labels may be returned, and how many. */
  datatype Query = Query(ids: seq<Id>, distance: Label -> real, admits: Label -> bool, ef: nat)

  /** The neighbour lists of one layer; empty for labels that do not reach it. */
  type Layer = seq<seq<Label>>

  ghost predicate EdgesInside(layer: Layer) {
    forall u, k :: 0 <= u < |layer| && 0 <= k < |layer[u]| ==> layer[u][k] < |layer|
  }

  function Cand(q: Query, v: Label): Candidate
    requires v < |q.ids|
  {
    Candidate(v, q.ids[v], q.distance(v))
  }

  // ── reachability ──────────────────────────────────────────────────────────

  ghost predicate IsPath(layer: Layer, path: seq<Label>) {
    && path != []
    && (forall i :: 0 <= i < |path| ==> path[i] < |layer|)
    && forall i :: 0 < i < |path| ==> path[i] in layer[path[i - 1]]
  }

  ghost predicate Reaches(layer: Layer, from: Label, to: Label) {
    exists path :: IsPath(layer, path) && path[0] == from && path[|path| - 1] == to
  }

  ghost function Reachable(layer: Layer, from: Label): set<Label> {
    set v | 0 <= v < |layer| && Reaches(layer, from, v)
  }

  lemma EntryReached(layer: Layer, entry: Label)
    requires entry < |layer|
    ensures entry in Reachable(layer, entry)
  {
    assert IsPath(layer, [entry]);
  }

  lemma NeighbourReached(layer: Layer, entry: Label, u: Label, v: Label)
    requires u in Reachable(layer, entry) && v in layer[u] && v < |layer|
    ensures v in Reachable(layer, entry)
  {
    var path :| IsPath(layer, path) && path[0] == entry && path[|path| - 1] == u;
    assert IsPath(layer, path + [v]);
  }

  ghost predicate Explored(layer: Layer, expanded: set<Label>, visited: set<Label>) {
    forall u, v :: u in expanded && u < |layer| && v in layer[u] ==> v in visited
  }

  lemma {:induction false} ClosedCoversPath(layer: Layer, closed: set<Label>, path: seq<Label>)
    requires Explored(layer, closed, closed) && IsPath(layer, path) && path[0] in closed
    ensures path[|path| - 1] in closed
    decreases |path|
  {
    if |path| > 1 {
      var shorter := path[..|path| - 1];
      assert IsPath(layer, shorter);
      ClosedCoversPath(layer, closed, shorter);
      assert path[|path| - 1] in layer[shorter[|shorter| - 1]];
    }
  }

  lemma ClosedCovers(layer: Layer, entry: Label, closed: set<Label>)
    requires Explored(layer, closed, closed) && entry in closed
    ensures Reachable(layer, entry) <= closed
  {
    forall v | v in Reachable(layer, entry) ensures v in closed {
      var path :| IsPath(layer, path) && path[0] == entry && path[|path| - 1] == v;
      ClosedCoversPath(layer, closed, path);
    }
  }

  // ── the search state, as sets of labels ───────────────────────────────────

  ghost predicate Known(q: Query, labels: set<Label>) {
    forall v :: v in labels ==> v < |q.ids|
  }

  /** Every kept result comes before v. */
  ghost predicate BeyondAll(q: Query, kept: set<Label>, v: Label)
    requires Known(q, kept) && v < |q.ids|
  {
    forall r :: r in kept ==> Before(Cand(q, r), Cand(q, v))
  }

  /** No better answer is possible among the visited labels. */
  ghost predicate BestOf(q: Query, kept: set<Label>, visited: set<Label>)
    requires Known(q, kept) && Known(q, visited)
  {
    && kept <= visited && |kept| <= q.ef
    && (forall v :: v in kept ==> q.admits(v))
    && (forall v :: v in visited && v !in kept && q.admits(v) ==> |kept| == q.ef && BeyondAll(q, kept, v))
  }

  /** A visited label is expanded, waiting, or was already beyond a full set of results. */
  ghost predicate Accounted(q: Query, visited: set<Label>, expanded: set<Label>, waiting: set<Label>, kept: set<Label>)
    requires Known(q, kept) && Known(q, visited)
  {
    && expanded <= visited && waiting <= visited
    && (forall v :: v in visited ==> v in expanded || v in waiting || (|kept| == q.ef && BeyondAll(q, kept, v)))
  }

  lemma SkipVisited(q: Query, visited: set<Label>, expanded: set<Label>, waiting: set<Label>, kept: set<Label>, v: Label)
    requires Known(q, visited) && Known(q, kept) && v < |q.ids| && v !in visited
    requires BestOf(q, kept, visited) && Accounted(q, visited, expanded, waiting, kept)
    requires |kept| == q.ef && BeyondAll(q, kept, v)
    ensures Known(q, visited + {v}) && BestOf(q, kept, visited + {v}) && Accounted(q, visited + {v}, expanded, waiting, kept)
  {
  }

  lemma WaitVisited(q: Query, visited: set<Label>, expanded: set<Label>, waiting: set<Label>, kept: set<Label>, v: Label)
    requires Known(q, visited) && Known(q, kept) && v < |q.ids| && v !in visited && !q.admits(v)
    requires BestOf(q, kept, visited) && Accounted(q, visited, expanded, waiting, kept)
    ensures Known(q, visited + {v}) && BestOf(q, kept, visited + {v}) && Accounted(q, visited + {v}, expanded, waiting + {v}, kept)
  {
  }

  lemma KeepVisited(q: Query, visited: set<Label>, expanded: set<Label>, waiting: set<Label>, kept: set<Label>, v: Label)
    requires Known(q, visited) && Known(q, kept) && v < |q.ids| && v !in visited && q.admits(v) && |kept| < q.ef
    requires BestOf(q, kept, visited) && Accounted(q, visited, expanded, waiting, kept)
    ensures Known(q, visited + {v}) && Known(q, kept + {v})
    ensures BestOf(q, kept + {v}, visited + {v}) && Accounted(q, visited + {v}, expanded, waiting + {v}, kept + {v})
  {
  }

  /** Keeping a nearer label in a full set and letting the furthest go. */
  lemma ReplaceFurthest(q: Query, visited: set<Label>, expanded: set<Label>, waiting: set<Label>, kept: set<Label>, v: Label, w: Label)
    requires Known(q, visited) && Known(q, kept) && v < |q.ids| && v !in visited && q.admits(v) && |kept| == q.ef
    requires BestOf(q, kept, visited) && Accounted(q, visited, expanded, waiting, kept)
    requires w in kept + {v} && forall r :: r in kept + {v} ==> AtMost(Cand(q, r), Cand(q, w))
    ensures var kept' := kept + {v} - {w};
            && Known(q, visited + {v}) && Known(q, kept')
            && BestOf(q, kept', visited + {v}) && Accounted(q, visited + {v}, expanded, waiting + {v}, kept')
  {
    var kept' := kept + {v} - {w};
    assert |kept'| == q.ef;
    forall u | u < |q.ids| && (u == w || (u in visited && BeyondAll(q, kept, u))) ensures BeyondAll(q, kept', u) {
      forall r | r in kept' ensures Before(Cand(q, r), Cand(q, u)) {
        BeforeTotal(Cand(q, r), Cand(q, w));
        if u != w && w in kept {
          AtMostTransitive(Cand(q, r), Cand(q, w), Cand(q, u));
        }
      }
    }
  }

  // ── heaps that hold sets of labels ────────────────────────────────────────

  ghost function Cands(q: Query, labels: set<Label>): set<Candidate>
    requires Known(q, labels)
  {
    set v | v in labels :: Cand(q, v)
  }

  ghost predicate Holds(q: Query, items: seq<Candidate>, labels: set<Label>) {
    Known(q, labels) && multiset(items) == multiset(Cands(q, labels))
  }

  lemma HoldsMember(q: Query, items: seq<Candidate>, labels: set<Label>, c: Candidate)
    requires Holds(q, items, labels)
    ensures c in items <==> c in Cands(q, labels)
    ensures c in items <==> c.node in labels && c == Cand(q, c.node)
  {
    assert c in items <==> c in multiset(items);
  }

  lemma {:induction false} HoldsSize(q: Query, items: seq<Candidate>, labels: set<Label>)
    requires Holds(q, items, labels)
    ensures |items| == |labels|
  {
    CandsSize(q, labels);
    assert |multiset(items)| == |items|;
  }

  lemma {:induction false} CandsSize(q: Query, labels: set<Label>)
    requires Known(q, labels)
    ensures |Cands(q, labels)| == |labels|
    decreases |labels|
  {
    if labels != {} {
      var v :| v in labels;
      CandsSize(q, labels - {v});
      assert Cands(q, labels) == Cands(q, labels - {v}) + {Cand(q, v)};
    }
  }

  lemma HoldsMore(q: Query, items: seq<Candidate>, labels: set<Label>, v: Label, items': seq<Candidate>)
    requires Holds(q, items, labels) && v < |q.ids| && v !in labels
    requires multiset(items') == multiset(items) + multiset{Cand(q, v)}
    ensures Holds(q, items', labels + {v})
  {
    assert Cands(q, labels + {v}) == Cands(q, labels) + {Cand(q, v)};
    assert Cand(q, v) !in Cands(q, labels);
  }

  lemma HoldsFewer(q: Query, items: seq<Candidate>, labels: set<Label>, top: Candidate, items': seq<Candidate>)
    requires Holds(q, items, labels) && top in items && multiset(items) == multiset(items') + multiset{top}
    ensures top.node in labels && top == Cand(q, top.node) && Holds(q, items', labels - {top.node})
  {
    HoldsMember(q, items, labels, top);
    assert Cands(q, labels) == Cands(q, labels - {top.node}) + {top};
    var fewer := Cands(q, labels - {top.node});
    assert top !in fewer;
    assert multiset(fewer + {top}) == multiset(fewer) + multiset{top};
    assert multiset(items') == multiset(items) - multiset{top};
    assert multiset(fewer) == multiset(Cands(q, labels)) - multiset{top};
  }

  // ── the search ────────────────────────────────────────────────────────────

  /** What holds between the steps of the walk. */
  ghost predicate Walking(q: Query, candidates: seq<Candidate>, results: seq<Candidate>,
                          visited: set<Label>, expanded: set<Label>, waiting: set<Label>, kept: set<Label>) {
    && Holds(q, candidates, waiting) && Holds(q, results, kept) && Known(q, visited)
    && BestOf(q, kept, visited) && Accounted(q, visited, expanded, waiting, kept)
  }

  /** Looks at one neighbour for the first time. */
  method Visit(q: Query, candidates: Heap, results: Heap, v: Label,
               ghost visited: set<Label>, ghost expanded: set<Label>, ghost waiting: set<Label>, ghost kept: set<Label>)
    returns (ghost waiting': set<Label>, ghost kept': set<Label>)
    requires candidates != results && candidates.Valid() && results.Valid() && !candidates.invert && results.invert
    requires Walking(q, candidates.items, results.items, visited, expanded, waiting, kept)
    requires v < |q.ids| && v !in visited && q.ef >= 1
    modifies candidates, results
    ensures candidates.Valid() && results.Valid()
    ensures Walking(q, candidates.items, results.items, visited + {v}, expanded, waiting', kept')
  {
    hide BestOf, Accounted, Holds, BeyondAll;
    waiting', kept' := waiting, kept;
    var candidate := Candidate(v, q.ids[v], q.distance(v));
    WalkFacts(q, candidates.items, results.items, visited, expanded, waiting, kept);
    var admissible := |results.items| < q.ef || |results.items| == 0 || Before(candidate, results.items[0]);
    if !admissible {
      WorstIsFurthest(q, results, kept, v);
      SkipVisited(q, visited, expanded, waiting, kept, v);
      return;
    }
    ghost var before := candidates.items;
    candidates.Push(candidate);
    HoldsMore(q, before, waiting, v, candidates.items);
    waiting' := waiting + {v};
    if !q.admits(v) {
      WaitVisited(q, visited, expanded, waiting, kept, v);
      return;
    }
    before := results.items;
    results.Push(candidate);
    HoldsMore(q, before, kept, v, results.items);
    HoldsSize(q, results.items, kept + {v});
    kept' := kept + {v};
    if |results.items| > q.ef {
      before := results.items;
      var furthest := results.Pop();
      HoldsFewer(q, before, kept + {v}, furthest, results.items);
      FurthestOf(q, before, kept + {v}, furthest);
      ReplaceFurthest(q, visited, expanded, waiting, kept, v, furthest.node);
      kept' := kept + {v} - {furthest.node};
    } else {
      KeepVisited(q, visited, expanded, waiting, kept, v);
    }
  }

  lemma WalkFacts(q: Query, candidates: seq<Candidate>, results: seq<Candidate>,
                  visited: set<Label>, expanded: set<Label>, waiting: set<Label>, kept: set<Label>)
    requires Walking(q, candidates, results, visited, expanded, waiting, kept)
    ensures Known(q, visited) && Known(q, waiting) && Known(q, kept) && waiting <= visited && kept <= visited && expanded <= visited
    ensures |results| == |kept| <= q.ef && |candidates| == |waiting|
  {
    HoldsSize(q, results, kept);
    HoldsSize(q, candidates, waiting);
  }

  lemma WorstIsFurthest(q: Query, results: Heap, kept: set<Label>, v: Label)
    requires results.Valid() && results.invert && Holds(q, results.items, kept) && results.items != []
    requires v < |q.ids| && v !in kept && !Before(Cand(q, v), results.items[0])
    ensures BeyondAll(q, kept, v)
  {
    var worst := results.items[0];
    HoldsMember(q, results.items, kept, worst);
    forall r | r in kept ensures Before(Cand(q, r), Cand(q, v)) {
      HoldsMember(q, results.items, kept, Cand(q, r));
      var k :| 0 <= k < |results.items| && results.items[k] == Cand(q, r);
      RootIsFirst(true, results.items, k);
      NotBefore(worst, Cand(q, r));
      NotBefore(Cand(q, v), worst);
      AtMostTransitive(Cand(q, r), worst, Cand(q, v));
      BeforeTotal(Cand(q, r), Cand(q, v));
    }
  }

  lemma FurthestOf(q: Query, items: seq<Candidate>, labels: set<Label>, furthest: Candidate)
    requires Holds(q, items, labels) && furthest in items && forall c :: c in items ==> !First(true, c, furthest)
    ensures furthest.node in labels && forall r :: r in labels ==> AtMost(Cand(q, r), Cand(q, furthest.node))
  {
    HoldsMember(q, items, labels, furthest);
    forall r | r in labels ensures AtMost(Cand(q, r), Cand(q, furthest.node)) {
      HoldsMember(q, items, labels, Cand(q, r));
      NotBefore(furthest, Cand(q, r));
    }
  }

  // ── the whole walk ────────────────────────────────────────────────────────

  /** Every label of `expanded` but the one in progress has had all its neighbours visited, and that one its first k. */
  ghost predicate Progress(layer: Layer, expanded: set<Label>, visited: set<Label>, current: Label, k: nat)
    requires current < |layer| && k <= |layer[current]|
  {
    && Explored(layer, expanded - {current}, visited)
    && forall i :: 0 <= i < k ==> layer[current][i] in visited
  }

  /** Takes the nearest waiting label and visits its neighbours. */
  method Expand(q: Query, layer: Layer, entry: Label, candidates: Heap, results: Heap, nearest: Label, seen: set<Label>,
                ghost expanded: set<Label>, ghost waiting: set<Label>, ghost kept: set<Label>)
    returns (visited: set<Label>, ghost waiting': set<Label>, ghost kept': set<Label>)
    requires candidates != results && candidates.Valid() && results.Valid() && !candidates.invert && results.invert
    requires q.ef >= 1 && |layer| == |q.ids| && EdgesInside(layer) && nearest < |layer|
    requires Walking(q, candidates.items, results.items, seen, expanded, waiting, kept)
    requires nearest in expanded && Explored(layer, expanded - {nearest}, seen) && seen <= Reachable(layer, entry)
    modifies candidates, results
    ensures candidates.Valid() && results.Valid()
    ensures Walking(q, candidates.items, results.items, visited, expanded, waiting', kept')
    ensures seen <= visited <= Reachable(layer, entry) && Explored(layer, expanded, visited)
    ensures visited == seen ==> waiting' == waiting
  {
    hide Walking, Reachable, Reaches;
    visited, waiting', kept' := seen, waiting, kept;
    var neighbours := layer[nearest];
    var k := 0;
    while k < |neighbours|
      invariant k <= |neighbours| && candidates.Valid() && results.Valid()
      invariant Walking(q, candidates.items, results.items, visited, expanded, waiting', kept')
      invariant seen <= visited <= Reachable(layer, entry) && Progress(layer, expanded, visited, nearest, k)
      invariant visited == seen ==> waiting' == waiting
    {
      var neighbour := neighbours[k];
      if neighbour !in visited {
        ExpandedIsReached(q, candidates.items, results.items, visited, expanded, waiting', kept', nearest);
        NeighbourReached(layer, entry, nearest, neighbour);
        waiting', kept' := Visit(q, candidates, results, neighbour, visited, expanded, waiting', kept');
        visited := visited + {neighbour};
      }
      k := k + 1;
    }
  }

  lemma ExpandedIsReached(q: Query, candidates: seq<Candidate>, results: seq<Candidate>,
                          visited: set<Label>, expanded: set<Label>, waiting: set<Label>, kept: set<Label>, u: Label)
    requires Walking(q, candidates, results, visited, expanded, waiting, kept) && u in expanded
    ensures u in visited
  {
  }

  /** Taking a label out of the waiting set is expanding it. */
  lemma StartExpanding(q: Query, candidates: seq<Candidate>, candidates': seq<Candidate>, results: seq<Candidate>,
                       visited: set<Label>, expanded: set<Label>, waiting: set<Label>, kept: set<Label>, nearest: Candidate)
    requires Walking(q, candidates, results, visited, expanded, waiting, kept)
    requires nearest in candidates && multiset(candidates) == multiset(candidates') + multiset{nearest}
    ensures nearest.node in waiting && nearest == Cand(q, nearest.node)
    ensures Walking(q, candidates', results, visited, expanded + {nearest.node}, waiting - {nearest.node}, kept)
  {
    HoldsFewer(q, candidates, waiting, nearest, candidates');
  }

  /** Everything kept has been expanded once the nearest waiting label is beyond it, or nothing waits. */
  lemma KeptExpanded(q: Query, candidates: seq<Candidate>, results: seq<Candidate>,
                     visited: set<Label>, expanded: set<Label>, waiting: set<Label>, kept: set<Label>)
    requires Walking(q, candidates, results, visited, expanded, waiting, kept)
    requires forall w, r :: w in waiting && r in kept ==> Before(Cand(q, r), Cand(q, w))
    ensures kept <= expanded
  {
    forall r | r in kept ensures r in expanded {
      BeforeTotal(Cand(q, r), Cand(q, r));
    }
  }

  lemma NearestBeyond(q: Query, candidates: seq<Candidate>, results: Heap,
                      visited: set<Label>, expanded: set<Label>, waiting: set<Label>, kept: set<Label>, nearest: Candidate)
    requires results.Valid() && results.invert && results.items != []
    requires Walking(q, candidates, results.items, visited, expanded, waiting, kept)
    requires nearest in candidates && (forall c :: c in candidates ==> !First(false, c, nearest))
    requires Before(results.items[0], nearest)
    ensures forall w, r :: w in waiting && r in kept ==> Before(Cand(q, r), Cand(q, w))
  {
    forall w, r | w in waiting && r in kept ensures Before(Cand(q, r), Cand(q, w)) {
      HoldsMember(q, candidates, waiting, Cand(q, w));
      HoldsMember(q, results.items, kept, Cand(q, r));
      var k :| 0 <= k < |results.items| && results.items[k] == Cand(q, r);
      RootIsFirst(true, results.items, k);
      NotBefore(results.items[0], Cand(q, r));
      NotBefore(Cand(q, w), nearest);
      AtMostTransitive(Cand(q, r), results.items[0], nearest);
      AtMostTransitive(Cand(q, r), nearest, Cand(q, w));
    }
  }

  /** With room for every reachable label, nothing reachable is missed. */
  lemma NothingMissed(q: Query, layer: Layer, entry: Label, candidates: seq<Candidate>, results: seq<Candidate>,
                      visited: set<Label>, expanded: set<Label>, waiting: set<Label>, kept: set<Label>)
    requires Walking(q, candidates, results, visited, expanded, waiting, kept)
    requires entry in visited && visited <= Reachable(layer, entry) && Explored(layer, expanded, visited)
    requires |Reachable(layer, entry)| <= q.ef && (waiting == {} || |kept| >= q.ef)
    ensures visited == Reachable(layer, entry)
  {
    SubsetSize(kept, visited);
    SubsetSize(visited, Reachable(layer, entry));
    if |kept| >= q.ef {
      SameSize(visited, Reachable(layer, entry));
    } else {
      assert visited == expanded;
      ClosedCovers(layer, entry, visited);
    }
  }

  lemma SubsetSize(a: set<Label>, b: set<Label>)
    requires a <= b
    ensures |a| <= |b|
  {
    assert b == a + (b - a);
  }

  lemma SameSize(a: set<Label>, b: set<Label>)
    requires a <= b && |a| >= |b|
    ensures a == b
  {
    assert b == a + (b - a);
    assert |b - a| == 0;
  }

  /** The labels of a result list. */
  function NodesOf(found: seq<Candidate>): set<Label> {
    set c | c in found :: c.node
  }

  /** What a finished walk leaves: results that cannot be bettered among the labels it visited. */
  ghost predicate Found(q: Query, layer: Layer, entry: Label, found: seq<Candidate>, visited: set<Label>) {
    && Sorted(found) && Known(q, visited) && Known(q, NodesOf(found))
    && (forall c :: c in found ==> c.node < |q.ids| && c == Cand(q, c.node))
    && |found| == |NodesOf(found)| && BestOf(q, NodesOf(found), visited)
    && entry in visited && visited <= Reachable(layer, entry)
    && Explored(layer, NodesOf(found), visited)
    && (|Reachable(layer, entry)| <= q.ef ==> visited == Reachable(layer, entry))
  }

  lemma Collected(q: Query, layer: Layer, entry: Label, results: seq<Candidate>, visited: set<Label>, expanded: set<Label>, kept: set<Label>)
    requires Known(q, visited) && Holds(q, results, kept) && BestOf(q, kept, visited)
    requires entry in visited && visited <= Reachable(layer, entry)
    requires kept <= expanded && Explored(layer, expanded, visited)
    requires |Reachable(layer, entry)| <= q.ef ==> visited == Reachable(layer, entry)
    ensures Found(q, layer, entry, SortCandidates(results), visited)
  {
    var found := SortCandidates(results);
    HoldsNoRepeats(q, results, kept);
    SortedCandidates(results);
    MultisetMembers(found, results);
    HoldsSize(q, results, kept);
    forall c ensures c in found <==> c in Cands(q, kept) {
      HoldsMember(q, results, kept, c);
    }
    forall v ensures v in kept <==> v in NodesOf(found) {
      if v in kept {
        assert Cand(q, v) in found;
      }
    }
    assert NodesOf(found) == kept;
  }

  lemma HoldsNoRepeats(q: Query, items: seq<Candidate>, labels: set<Label>)
    requires Holds(q, items, labels)
    ensures NoRepeats(items)
  {
    forall i, j | 0 <= i < j < |items| ensures items[i] != items[j] {
      assert items == items[..j] + [items[j]] + items[j + 1..];
      assert items[i] in items[..j];
      assert multiset(Cands(q, labels))[items[j]] <= 1;
    }
  }

  lemma FirstStep(q: Query, layer: Layer, entry: Label, candidates: seq<Candidate>, results: seq<Candidate>)
    requires entry < |q.ids| == |layer| && q.ef >= 1 && candidates == [Cand(q, entry)]
    requires results == if q.admits(entry) then [Cand(q, entry)] else []
    ensures Walking(q, candidates, results, {entry}, {}, {entry}, if q.admits(entry) then {entry} else {})
    ensures {entry} <= Reachable(layer, entry) && Explored(layer, {}, {entry})
  {
    EntryReached(layer, entry);
    assert Cands(q, {entry}) == {Cand(q, entry)};
    assert Cands(q, {}) == {};
  }

  /** The answer itself: sorted, none twice, reachable and admitted, and all of those when there is room for what is reachable. */
  ghost predicate AnswersQuery(q: Query, layer: Layer, entry: Label, found: seq<Candidate>) {
    && Sorted(found) && |found| == |NodesOf(found)| <= q.ef
    && (forall c :: c in found ==> c.node < |q.ids| && c == Cand(q, c.node) && q.admits(c.node) && c.node in Reachable(layer, entry))
    && (|Reachable(layer, entry)| <= q.ef ==> forall v :: v in Reachable(layer, entry) && q.admits(v) ==> v in NodesOf(found))
  }

  /** Best-first search from one entry. */
  method SearchLayer(q: Query, layer: Layer, entry: Label) returns (found: seq<Candidate>, ghost visited: set<Label>)
    requires q.ef >= 1 && |layer| == |q.ids| && EdgesInside(layer) && entry < |layer|
    ensures Found(q, layer, entry, found, visited)
    ensures AnswersQuery(q, layer, entry, found)
  {
    hide Walking, Reachable, Found, AnswersQuery;
    var candidates := new Heap(false);
    var results := new Heap(true);
    var entryCandidate := Candidate(entry, q.ids[entry], q.distance(entry));
    candidates.Push(entryCandidate);
    SinglePushed(candidates.items, entryCandidate);
    if q.admits(entry) {
      results.Push(entryCandidate);
      SinglePushed(results.items, entryCandidate);
    }
    var seen: set<Label> := {entry};
    ghost var expanded: set<Label> := {};
    ghost var waiting: set<Label> := {entry};
    ghost var kept: set<Label> := if q.admits(entry) then {entry} else {};
    FirstStep(q, layer, entry, candidates.items, results.items);
    while |candidates.items| > 0
      invariant candidates != results && candidates.Valid() && results.Valid()
      invariant Walking(q, candidates.items, results.items, seen, expanded, waiting, kept)
      invariant entry in seen && seen <= Reachable(layer, entry) && Explored(layer, expanded, seen)
      decreases Reachable(layer, entry) - seen, waiting
    {
      ghost var before := candidates.items;
      var nearest := candidates.Pop();
      WalkFacts(q, before, results.items, seen, expanded, waiting, kept);
      if |results.items| >= q.ef && |results.items| > 0 && Before(results.items[0], nearest) {
        NearestBeyond(q, before, results, seen, expanded, waiting, kept, nearest);
        Finish(q, layer, entry, before, results.items, seen, expanded, waiting, kept);
        return SortCandidates(results.items), seen;
      }
      StartExpanding(q, before, candidates.items, results.items, seen, expanded, waiting, kept, nearest);
      var more, waiting', kept' := Expand(q, layer, entry, candidates, results, nearest.node, seen,
                                          expanded + {nearest.node}, waiting - {nearest.node}, kept);
      assert more != seen ==> Reachable(layer, entry) - more < Reachable(layer, entry) - seen;
      seen, waiting, kept := more, waiting', kept';
      expanded := expanded + {nearest.node};
    }
    WalkFacts(q, candidates.items, results.items, seen, expanded, waiting, kept);
    Finish(q, layer, entry, candidates.items, results.items, seen, expanded, waiting, kept);
    return SortCandidates(results.items), seen;
  }

  lemma FoundMeans(q: Query, layer: Layer, entry: Label, found: seq<Candidate>, visited: set<Label>)
    requires Found(q, layer, entry, found, visited)
    ensures AnswersQuery(q, layer, entry, found)
  {
    hide Reachable, Before;
    var kept := NodesOf(found);
    forall c | c in found ensures c.node in kept {
      var i :| 0 <= i < |found| && found[i] == c;
      assert NodesOf(found) == kept && found[i].node in kept;
    }
    if |Reachable(layer, entry)| <= q.ef {
      forall v | v in Reachable(layer, entry) && q.admits(v) ensures v in kept {
        if v !in kept {
          SubsetSize(kept + {v}, visited);
        }
      }
    }
  }

  lemma SinglePushed(items: seq<Candidate>, c: Candidate)
    requires multiset(items) == multiset([c])
    ensures items == [c]
  {
    MultisetMembers(items, [c]);
    assert items[0] in items;
  }

  lemma Finish(q: Query, layer: Layer, entry: Label, candidates: seq<Candidate>, results: seq<Candidate>,
               visited: set<Label>, expanded: set<Label>, waiting: set<Label>, kept: set<Label>)
    requires Walking(q, candidates, results, visited, expanded, waiting, kept)
    requires forall w, r :: w in waiting && r in kept ==> Before(Cand(q, r), Cand(q, w))
    requires waiting == {} || |kept| >= q.ef
    requires entry in visited && visited <= Reachable(layer, entry) && Explored(layer, expanded, visited)
    ensures Found(q, layer, entry, SortCandidates(results), visited) && AnswersQuery(q, layer, entry, SortCandidates(results))
  {
    hide Reachable, AnswersQuery;
    KeptExpanded(q, candidates, results, visited, expanded, waiting, kept);
    if |Reachable(layer, entry)| <= q.ef {
      NothingMissed(q, layer, entry, candidates, results, visited, expanded, waiting, kept);
    }
    Collected(q, layer, entry, results, visited, expanded, kept);
    FoundMeans(q, layer, entry, SortCandidates(results), visited);
  }
}
