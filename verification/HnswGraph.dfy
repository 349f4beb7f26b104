/** The structural invariants of the index, and the neighbour selection that keeps its degrees bounded. */
module HnswGraph {
  import opened HnswOrder
  import opened HnswSearch

  type Links = seq<seq<seq<Label>>>

  /** Layer 0 has twice the connectivity. */
  function Limit(m: nat, level: nat): nat {
    if level == 0 then 2 * m else m
  }

  // ── invariants ────────────────────────────────────────────────────────────

  /** One neighbour list: canonical, without self edges, ending on labels of the level, within the degree limit. */
  ghost predicate ListOk(ids: seq<Id>, levels: seq<nat>, m: nat, node: Label, level: nat, list: seq<Label>)
    requires |levels| == |ids|
  {
    && InLabelOrder(ids, list) && node !in list && |list| <= Limit(m, level)
    && forall i :: 0 <= i < |list| ==> levels[list[i]] >= level
  }

  ghost predicate LinksOk(ids: seq<Id>, levels: seq<nat>, m: nat, links: Links) {
    && |links| == |levels| == |ids|
    && (forall u :: 0 <= u < |links| ==> |links[u]| == levels[u] + 1)
    && forall u, l :: 0 <= u < |links| && 0 <= l < |links[u]| ==> ListOk(ids, levels, m, u, l, links[u][l])
  }

  /** The entry point is on the top level, and comes first among the labels that are. */
  ghost predicate EntryOk(ids: seq<Id>, levels: seq<nat>, entryPoint: int, maxLevel: int)
    requires |levels| == |ids|
  {
    if ids == [] then entryPoint == -1 && maxLevel == -1
    else
      && 0 <= entryPoint < |ids| && levels[entryPoint] == maxLevel
      && forall u :: 0 <= u < |ids| ==> levels[u] <= maxLevel && (levels[u] == maxLevel && u != entryPoint ==> LabelBefore(ids, entryPoint, u))
  }

  /** Each live label is the one registered under its id. */
  ghost predicate NamesOk(ids: seq<Id>, deleted: seq<bool>, labelOf: map<Id, Label>) {
    && |deleted| == |ids|
    && (forall u :: 0 <= u < |ids| ==> ids[u] != "")
    && (forall id :: id in labelOf ==> labelOf[id] < |ids| && ids[labelOf[id]] == id && !deleted[labelOf[id]])
    && forall u :: 0 <= u < |ids| && !deleted[u] ==> ids[u] in labelOf && labelOf[ids[u]] == u
  }

  /** The deleted labels, ascending. */
  function DeletedLabels(deleted: seq<bool>): (labels: seq<Label>)
    ensures forall u: Label :: u in labels <==> u < |deleted| && deleted[u]
  {
    if deleted == [] then []
    else
      var n := |deleted| - 1;
      DeletedLabels(deleted[..n]) + (if deleted[n] then [n] else [])
  }

  ghost predicate CountsOk(deleted: seq<bool>, size: nat, tombstones: nat) {
    tombstones == |DeletedLabels(deleted)| && size + tombstones == |deleted|
  }

  lemma {:induction false} OneMoreDeleted(deleted: seq<bool>, u: Label)
    requires u < |deleted| && !deleted[u]
    ensures |DeletedLabels(deleted[u := true])| == |DeletedLabels(deleted)| + 1
  {
    var n := |deleted| - 1;
    if u == n {
      assert deleted[u := true][..n] == deleted[..n];
    } else {
      assert deleted[u := true][..n] == deleted[..n][u := true];
      OneMoreDeleted(deleted[..n], u);
    }
  }

  lemma DeletedFit(deleted: seq<bool>)
    ensures |DeletedLabels(deleted)| <= |deleted|
  {
  }

  // ── layers ────────────────────────────────────────────────────────────────

  function LayerAt(links: Links, level: nat): (layer: Layer)
    ensures |layer| == |links|
    ensures forall u :: 0 <= u < |links| ==> layer[u] == if level < |links[u]| then links[u][level] else []
  {
    seq(|links|, u requires 0 <= u < |links| => if level < |links[u]| then links[u][level] else [])
  }

  lemma LayerInside(ids: seq<Id>, levels: seq<nat>, m: nat, links: Links, level: nat)
    requires LinksOk(ids, levels, m, links)
    ensures EdgesInside(LayerAt(links, level))
  {
    var layer := LayerAt(links, level);
    forall u, k | 0 <= u < |layer| && 0 <= k < |layer[u]| ensures layer[u][k] < |layer| {
      assert ListOk(ids, levels, m, u, level, links[u][level]);
    }
  }

  /** The new label is not in any list at this level. */
  ghost predicate Unlinked(links: Links, node: Label, level: nat) {
    forall u :: 0 <= u < |links| && level < |links[u]| ==> node !in links[u][level]
  }

  ghost predicate OnLevel(levels: seq<nat>, node: Label, level: nat, u: Label) {
    u < |levels| && levels[u] >= level && u != node
  }

  /** A walk on a level stays on it, and never meets a label that is not linked there. */
  lemma StaysOnLevel(ids: seq<Id>, levels: seq<nat>, m: nat, links: Links, level: nat, node: Label, entry: Label)
    requires LinksOk(ids, levels, m, links) && Unlinked(links, node, level) && OnLevel(levels, node, level, entry)
    ensures forall u :: u in Reachable(LayerAt(links, level), entry) ==> OnLevel(levels, node, level, u)
  {
    var layer := LayerAt(links, level);
    var on := set u | 0 <= u < |levels| && OnLevel(levels, node, level, u);
    forall u, v | u in on && u < |layer| && v in layer[u] ensures v in on {
      assert ListOk(ids, levels, m, u, level, links[u][level]);
      var k :| 0 <= k < |links[u][level]| && links[u][level][k] == v;
    }
    ClosedCovers(layer, entry, on);
  }

  function WithList(links: Links, u: Label, level: nat, list: seq<Label>): Links
    requires u < |links| && level < |links[u]|
  {
    links[u := links[u][level := list]]
  }

  lemma ListReplaced(ids: seq<Id>, levels: seq<nat>, m: nat, links: Links, u: Label, level: nat, list: seq<Label>)
    requires LinksOk(ids, levels, m, links) && u < |links| && level < |links[u]| && ListOk(ids, levels, m, u, level, list)
    ensures LinksOk(ids, levels, m, WithList(links, u, level, list))
  {
    var links' := WithList(links, u, level, list);
    forall v, l | 0 <= v < |links'| && 0 <= l < |links'[v]| ensures ListOk(ids, levels, m, v, l, links'[v][l]) {
      if v != u || l != level {
        assert links'[v][l] == links[v][l];
      }
    }
  }

  // ── neighbour selection ───────────────────────────────────────────────────

  ghost predicate DistinctNodes(s: seq<Candidate>) {
    forall i, j :: 0 <= i < j < |s| ==> s[i].node != s[j].node
  }

  /** Candidate c is nearer to one already chosen than to the query. */
  predicate Crowded(dist: (Label, Label) -> real, chosen: seq<Label>, c: Candidate) {
    exists i :: 0 <= i < |chosen| && dist(c.node, chosen[i]) < c.distance
  }

  method IsCrowded(dist: (Label, Label) -> real, chosen: seq<Label>, c: Candidate) returns (crowded: bool)
    ensures crowded == Crowded(dist, chosen, c)
  {
    crowded := false;
    var i := 0;
    while i < |chosen|
      invariant i <= |chosen| && forall j :: 0 <= j < i ==> !(dist(c.node, chosen[j]) < c.distance)
    {
      if dist(c.node, chosen[i]) < c.distance {
        return true;
      }
      i := i + 1;
    }
  }

  ghost predicate AmongNodes(chosen: seq<Label>, s: seq<Candidate>) {
    forall v :: v in chosen ==> v in NodesOf(s)
  }

  /** The first pass: nearest first, skipping whatever is crowded by an earlier choice. */
  method SelectDiverse(sorted: seq<Candidate>, limit: nat, dist: (Label, Label) -> real) returns (chosen: seq<Label>)
    requires DistinctNodes(sorted)
    ensures NoRepeats(chosen) && AmongNodes(chosen, sorted) && |chosen| <= limit
    ensures sorted != [] && limit > 0 ==> chosen != [] && chosen[0] == sorted[0].node
    ensures |chosen| < limit ==> forall c :: c in sorted && c.node !in chosen ==> Crowded(dist, chosen, c)
  {
    chosen := [];
    var n := 0;
    assert NodesOf(sorted[..0]) == {};
    while n < |sorted| && |chosen| < limit
      invariant n <= |sorted| && |chosen| <= limit
      invariant NoRepeats(chosen) && AmongNodes(chosen, sorted[..n])
      invariant if n == 0 then chosen == [] else chosen != [] && chosen[0] == sorted[0].node
      invariant forall k :: 0 <= k < n && sorted[k].node !in chosen ==> Crowded(dist, chosen, sorted[k])
    {
      var crowded := IsCrowded(dist, chosen, sorted[n]);
      NextNode(sorted, n);
      if !crowded {
        CrowdedStays(dist, chosen, sorted[n].node);
        chosen := chosen + [sorted[n].node];
      }
      n := n + 1;
    }
  }

  lemma NextNode(s: seq<Candidate>, n: nat)
    requires n < |s| && DistinctNodes(s)
    ensures NodesOf(s[..n + 1]) == NodesOf(s[..n]) + {s[n].node} && s[n].node !in NodesOf(s[..n])
  {
    assert s[..n + 1] == s[..n] + [s[n]];
  }

  lemma CrowdedStays(dist: (Label, Label) -> real, chosen: seq<Label>, v: Label)
    ensures forall c :: Crowded(dist, chosen, c) ==> Crowded(dist, chosen + [v], c)
  {
    forall c | Crowded(dist, chosen, c) ensures Crowded(dist, chosen + [v], c) {
      var i :| 0 <= i < |chosen| && dist(c.node, chosen[i]) < c.distance;
      assert (chosen + [v])[i] == chosen[i];
    }
  }

  /** The second pass: fills up with the nearest of the rest. */
  method Backfill(kept: seq<Label>, sorted: seq<Candidate>, limit: nat) returns (chosen: seq<Label>)
    requires DistinctNodes(sorted) && NoRepeats(kept) && AmongNodes(kept, sorted) && |kept| <= limit
    ensures kept <= chosen && NoRepeats(chosen) && AmongNodes(chosen, sorted)
    ensures |chosen| == if |sorted| < limit then |sorted| else limit
  {
    chosen := kept;
    var i := 0;
    while i < |sorted| && |chosen| < limit
      invariant i <= |sorted| && kept <= chosen && |chosen| <= limit
      invariant NoRepeats(chosen) && AmongNodes(chosen, sorted)
      invariant forall k :: 0 <= k < i ==> sorted[k].node in chosen
    {
      if sorted[i].node !in chosen {
        assert sorted[i].node in NodesOf(sorted);
        chosen := chosen + [sorted[i].node];
      }
      i := i + 1;
    }
    SelectedSize(chosen, sorted);
  }

  /**
   * Chooses up to `limit` labels, preferring those not crowded by an earlier choice, and filling up with the
   * nearest of the rest: exactly as many as there are, and the nearest first.
   */
  method SelectNeighbours(candidates: seq<Candidate>, limit: nat, dist: (Label, Label) -> real) returns (chosen: seq<Label>, ghost diverse: nat)
    requires DistinctNodes(candidates)
    ensures NoRepeats(chosen) && AmongNodes(chosen, candidates)
    ensures |chosen| == if |candidates| < limit then |candidates| else limit
    ensures |SortCandidates(candidates)| == |candidates|
    ensures chosen != [] ==> chosen[0] == SortCandidates(candidates)[0].node
    ensures diverse <= |chosen|
    ensures diverse < limit ==> forall c :: c in candidates && c.node !in chosen[..diverse] ==> Crowded(dist, chosen[..diverse], c)
  {
    hide Crowded;
    var sorted := SortCandidates(candidates);
    SortedNodes(candidates);
    MultisetMembers(sorted, candidates);
    var kept := SelectDiverse(sorted, limit, dist);
    chosen := Backfill(kept, sorted, limit);
    diverse := |kept|;
    assert chosen[..diverse] == kept;
    assert NodesOf(sorted) == NodesOf(candidates);
    assert candidates != [] && limit > 0 ==> chosen[0] == kept[0];
  }

  lemma SortedNodes(s: seq<Candidate>)
    requires DistinctNodes(s)
    ensures DistinctNodes(SortCandidates(s)) && |SortCandidates(s)| == |s|
  {
    MultisetMembers(SortCandidates(s), s);
    SortedCandidates(s);
    var t := SortCandidates(s);
    SortedNoRepeats(t);
    forall i, j | 0 <= i < j < |t| ensures t[i].node != t[j].node {
      assert t[i] in s && t[j] in s;
    }
  }

  function LabelSet(s: seq<Label>): set<Label> {
    set v | v in s
  }

  lemma {:induction false} DistinctSize(s: seq<Label>)
    requires NoRepeats(s)
    ensures |LabelSet(s)| == |s|
  {
    if s == [] {
      assert LabelSet(s) == {};
    } else {
      var n := |s| - 1;
      DistinctSize(s[..n]);
      assert s == s[..n] + [s[n]];
      assert LabelSet(s) == LabelSet(s[..n]) + {s[n]};
    }
  }

  lemma {:induction false} NodesSize(s: seq<Candidate>)
    requires DistinctNodes(s)
    ensures |NodesOf(s)| == |s|
  {
    if s == [] {
      assert NodesOf(s) == {};
    } else {
      var n := |s| - 1;
      NodesSize(s[..n]);
      NextNode(s, n);
      assert s[..n + 1] == s;
    }
  }

  /** As many labels as candidates, when every candidate was taken. */
  lemma SelectedSize(chosen: seq<Label>, s: seq<Candidate>)
    requires NoRepeats(chosen) && DistinctNodes(s) && AmongNodes(chosen, s)
    ensures |chosen| <= |s|
    ensures (forall k :: 0 <= k < |s| ==> s[k].node in chosen) ==> |chosen| == |s|
  {
    DistinctSize(chosen);
    NodesSize(s);
    SubsetSize(LabelSet(chosen), NodesOf(s));
    if forall k :: 0 <= k < |s| ==> s[k].node in chosen {
      assert LabelSet(chosen) == NodesOf(s);
    }
  }

  /** Distinct labels of the level, within the limit, sort into a sound neighbour list. */
  lemma SortedListOk(ids: seq<Id>, levels: seq<nat>, m: nat, node: Label, level: nat, chosen: seq<Label>)
    requires |levels| == |ids| && NoRepeats(chosen) && |chosen| <= Limit(m, level)
    requires forall v :: v in chosen ==> OnLevel(levels, node, level, v)
    ensures LabelsIn(ids, chosen) && ListOk(ids, levels, m, node, level, SortLabels(ids, chosen))
    ensures forall v :: v in SortLabels(ids, chosen) <==> v in chosen
  {
    forall i | 0 <= i < |chosen| ensures chosen[i] < |ids| {
      assert chosen[i] in chosen;
    }
    SortedLabels(ids, chosen);
    var list := SortLabels(ids, chosen);
    forall i | 0 <= i < |list| ensures levels[list[i]] >= level {
      assert list[i] in list;
    }
  }
}
