/** The index as an object: inserting, replacing and deleting vectors keep every structural invariant. */
module HnswIndex {
  import opened HnswOrder
  import opened HnswSearch
  import opened HnswGraph

  /** How vectors are compared, and the level an id hashes to. */
  datatype Space<!V> = Space(acceptable: V -> bool, distance: (V, V) -> real, levelOf: Id -> nat)

  /** The distances of all labels from one query vector. */
  function Distances<V>(space: Space<V>, query: V, vectors: seq<V>): Label -> real {
    (u: Label) => if u < |vectors| then space.distance(query, vectors[u]) else 0.0
  }

  function Between<V>(space: Space<V>, vectors: seq<V>): (Label, Label) -> real {
    (u: Label, v: Label) => if u < |vectors| && v < |vectors| then space.distance(vectors[u], vectors[v]) else 0.0
  }

  /** A walk for building: every label may be returned, deleted or not. */
  function Building<V>(space: Space<V>, ids: seq<Id>, query: V, vectors: seq<V>, ef: nat): Query {
    Query(ids, Distances(space, query, vectors), _ => true, ef)
  }

  // ── greedy descent ────────────────────────────────────────────────────────

  ghost function Nearer(q: Query, current: Label): set<Label>
    requires current < |q.ids|
  {
    set v | 0 <= v < |q.ids| && Before(Cand(q, v), Cand(q, current))
  }

  lemma NearerShrinks(q: Query, current: Label, next: Label)
    requires current < |q.ids| && next < |q.ids| && Before(Cand(q, next), Cand(q, current))
    ensures Nearer(q, next) < Nearer(q, current)
  {
    BeforeTotal(Cand(q, next), Cand(q, next));
    forall v | v in Nearer(q, next) ensures v in Nearer(q, current) {
      BeforeTransitive(Cand(q, v), Cand(q, next), Cand(q, current));
    }
    assert next in Nearer(q, current) && next !in Nearer(q, next);
  }

  /** One pass over the neighbours of a label, keeping the best seen. */
  method Improve(q: Query, neighbours: seq<Label>, start: Label) returns (current: Label, improved: bool)
    requires start < |q.ids| && LabelsIn(q.ids, neighbours)
    ensures current < |q.ids| && (current == start || current in neighbours)
    ensures if improved then Before(Cand(q, current), Cand(q, start)) else current == start
    ensures forall v :: v in neighbours ==> v < |q.ids| && !Before(Cand(q, v), Cand(q, current))
  {
    current, improved := start, false;
    BeforeTotal(Cand(q, start), Cand(q, start));
    var k := 0;
    while k < |neighbours|
      invariant k <= |neighbours| && current < |q.ids| && (current == start || current in neighbours)
      invariant if improved then Before(Cand(q, current), Cand(q, start)) else current == start
      invariant forall i :: 0 <= i < k ==> !Before(Cand(q, neighbours[i]), Cand(q, current))
    {
      var neighbour := neighbours[k];
      BeforeTotal(Cand(q, neighbour), Cand(q, neighbour));
      if Before(Cand(q, neighbour), Cand(q, current)) {
        forall i | 0 <= i < k ensures !Before(Cand(q, neighbours[i]), Cand(q, neighbour)) {
          if Before(Cand(q, neighbours[i]), Cand(q, neighbour)) {
            BeforeTransitive(Cand(q, neighbours[i]), Cand(q, neighbour), Cand(q, current));
          }
        }
        if improved {
          BeforeTransitive(Cand(q, neighbour), Cand(q, current), Cand(q, start));
        }
        current, improved := neighbour, true;
      }
      k := k + 1;
    }
  }

  /** Moves to better neighbours until there is none. Strict improvement, ties broken, so a plateau cannot cycle. */
  method Descend(q: Query, layer: Layer, start: Label) returns (current: Label)
    requires |layer| == |q.ids| && EdgesInside(layer) && start < |layer|
    ensures current in Reachable(layer, start)
    ensures forall v :: v in layer[current] ==> v < |q.ids| && !Before(Cand(q, v), Cand(q, current))
  {
    hide Reachable, Before;
    current := start;
    EntryReached(layer, start);
    var improved := true;
    while improved
      invariant current in Reachable(layer, start) && current < |layer|
      invariant !improved ==> forall v :: v in layer[current] ==> v < |q.ids| && !Before(Cand(q, v), Cand(q, current))
      decreases Nearer(q, current), improved
    {
      var before := current;
      current, improved := Improve(q, layer[current], current);
      if improved {
        NearerShrinks(q, before, current);
      }
      if current != before {
        NeighbourReached(layer, start, before, current);
      }
    }
  }

  // ── linking one level ─────────────────────────────────────────────────────

  /** The candidates a building walk returns are distinct labels of the level, at least one of them. */
  lemma FoundForLinking(q: Query, ids: seq<Id>, levels: seq<nat>, m: nat, links: Links, level: nat, node: Label, entry: Label,
                        found: seq<Candidate>, visited: set<Label>)
    requires LinksOk(ids, levels, m, links) && q.ids == ids && q.ef >= 1 && (forall u :: q.admits(u))
    requires Unlinked(links, node, level) && OnLevel(levels, node, level, entry)
    requires Found(q, LayerAt(links, level), entry, found, visited)
    ensures DistinctNodes(found) && found != [] && forall v :: v in NodesOf(found) ==> OnLevel(levels, node, level, v)
  {
    hide Reachable;
    StaysOnLevel(ids, levels, m, links, level, node, entry);
    SortedNoRepeats(found);
    forall i, j | 0 <= i < j < |found| ensures found[i].node != found[j].node {
      assert found[i] in found && found[j] in found;
    }
    if entry !in NodesOf(found) {
      assert |NodesOf(found)| == q.ef;
    }
    assert entry in visited;
  }

  /** Other lists are left alone; the lists of the chosen gain at most the new label. */
  ghost predicate OnlyChosenGain(before: Links, after: Links, node: Label, level: nat, chosen: set<Label>) {
    && |after| == |before|
    && (forall u :: 0 <= u < |before| ==> |after[u]| == |before[u]|)
    && (forall u, l :: 0 <= u < |before| && 0 <= l < |before[u]| && u != node && (l != level || u !in chosen) ==> after[u][l] == before[u][l])
    && (forall u, v :: 0 <= u < |before| && level < |before[u]| && u != node && v in after[u][level] ==> v == node || v in before[u][level])
  }

  class HnswIndex<!V, P> {
    const space: Space<V>
    const m: nat
    const efConstruction: nat

    var ids: seq<Id>
    var payloads: seq<P>
    var vectors: seq<V>
    var deleted: seq<bool>
    var levels: seq<nat>
    var links: Links
    var entryPoint: int
    var maxLevel: int
    var size: nat
    var tombstones: nat
    var labelOf: map<Id, Label>

    ghost predicate Valid()
      reads this
    {
      && m >= 2 && efConstruction >= m
      && |payloads| == |vectors| == |ids|
      && LinksOk(ids, levels, m, links) && EntryOk(ids, levels, entryPoint, maxLevel)
      && NamesOk(ids, deleted, labelOf) && CountsOk(deleted, size, tombstones)
    }

    constructor (space: Space<V>, m: nat, efConstruction: nat)
      requires m >= 2 && efConstruction >= m
      ensures Valid() && ids == [] && this.space == space && this.m == m && this.efConstruction == efConstruction
    {
      this.space, this.m, this.efConstruction := space, m, efConstruction;
      ids, payloads, vectors, deleted, levels, links := [], [], [], [], [], [];
      entryPoint, maxLevel, size, tombstones, labelOf := -1, -1, 0, 0, map[];
    }

    /** Adds the new label to a chosen neighbour's list, re-selecting when that list is over its limit. */
    method LinkBack(node: Label, level: nat, neighbour: Label)
      requires LinksOk(ids, levels, m, links) && |vectors| == |ids| && node < |ids| && level <= levels[node]
      requires OnLevel(levels, node, level, neighbour) && node !in links[neighbour][level]
      modifies `links
      ensures LinksOk(ids, levels, m, links)
      ensures neighbour < |links| && level < |links[neighbour]| && links == WithList(old(links), neighbour, level, links[neighbour][level])
      ensures forall v :: v in links[neighbour][level] ==> v == node || v in old(links[neighbour][level])
      ensures |old(links[neighbour][level])| < Limit(m, level) ==>
        forall v :: v in links[neighbour][level] <==> v == node || v in old(links[neighbour][level])
    {
      var neighbourLinks := links[neighbour][level] + [node];
      assert ListOk(ids, levels, m, neighbour, level, links[neighbour][level]);
      ListGrows(ids, levels, m, neighbour, level, links[neighbour][level], node);
      var limit := Limit(m, level);
      var list := neighbourLinks;
      if |neighbourLinks| > limit {
        var between := Between(space, vectors);
        var names := ids;
        var candidates := seq(|neighbourLinks|, i requires 0 <= i < |neighbourLinks| && neighbourLinks[i] < |names| =>
          Candidate(neighbourLinks[i], names[neighbourLinks[i]], between(neighbour, neighbourLinks[i])));
        CandidatesOf(ids, neighbourLinks, candidates);
        ghost var diverse;
        list, diverse := SelectNeighbours(candidates, limit, between);
      }
      SortedListOk(ids, levels, m, neighbour, level, list);
      ListReplaced(ids, levels, m, links, neighbour, level, SortLabels(ids, list));
      links := links[neighbour := links[neighbour][level := SortLabels(ids, list)]];
    }

    method LinkBackAll(node: Label, level: nat, chosen: seq<Label>)
      requires LinksOk(ids, levels, m, links) && |vectors| == |ids| && node < |ids| && level <= levels[node]
      requires NoRepeats(chosen) && forall i :: 0 <= i < |chosen| ==> Linkable(levels, links, node, level, chosen[i])
      modifies `links
      ensures LinksOk(ids, levels, m, links) && links[node] == old(links)[node]
      ensures OnlyChosenGain(old(links), links, node, level, LabelSet(chosen))
    {
      var k := 0;
      while k < |chosen|
        invariant k <= |chosen| && LinksOk(ids, levels, m, links) && links[node] == old(links)[node]
        invariant OnlyChosenGain(old(links), links, node, level, LabelSet(chosen))
        invariant forall i :: k <= i < |chosen| ==> Linkable(levels, links, node, level, chosen[i])
      {
        ghost var before := links;
        assert chosen[k] in chosen;
        LinkBack(node, level, chosen[k]);
        k := k + 1;
      }
    }

    /** Walks the level as it is and selects whom to link to. */
    method ChooseNeighbours(node: Label, level: nat, start: Label, query: V) returns (chosen: seq<Label>)
      requires LinksOk(ids, levels, m, links) && |vectors| == |ids| && node < |ids| && efConstruction >= 1 && m >= 1
      requires OnLevel(levels, node, level, start) && Unlinked(links, node, level)
      ensures NoRepeats(chosen) && chosen != [] && |chosen| <= Limit(m, level)
      ensures forall i :: 0 <= i < |chosen| ==> Linkable(levels, links, node, level, chosen[i])
    {
      hide Found, ListOk;
      var layer := LayerAt(links, level);
      LayerInside(ids, levels, m, links, level);
      var q := Building(space, ids, query, vectors, efConstruction);
      var found, visited := SearchLayer(q, layer, start);
      FoundForLinking(q, ids, levels, m, links, level, node, start, found, visited);
      ghost var diverse;
      chosen, diverse := SelectNeighbours(found, Limit(m, level), Between(space, vectors));
      forall i | 0 <= i < |chosen| ensures Linkable(levels, links, node, level, chosen[i]) {
        assert chosen[i] in chosen;
      }
    }

    /** Links the new label on one level, from the given start, and returns where to start on the next. */
    method ConnectLevel(node: Label, level: nat, start: Label, query: V) returns (next: Label)
      requires LinksOk(ids, levels, m, links) && |vectors| == |ids| && node < |ids| && level <= levels[node] && efConstruction >= 1 && m >= 1
      requires OnLevel(levels, node, level, start) && Unlinked(links, node, level)
      modifies `links
      ensures LinksOk(ids, levels, m, links) && OnLevel(levels, node, level, next)
      ensures next in links[node][level]
      ensures OnlyChosenGain(old(links), links, node, level, LabelSet(links[node][level]))
      ensures |links[node]| == |old(links)[node]| && forall l :: 0 <= l < |links[node]| && l != level ==> links[node][l] == old(links)[node][l]
    {
      hide OnlyChosenGain, ListOk, Unlinked;
      var chosen := ChooseNeighbours(node, level, start, query);
      SortedListOk(ids, levels, m, node, level, chosen);
      var mine := SortLabels(ids, chosen);
      ListReplaced(ids, levels, m, links, node, level, mine);
      links := links[node := links[node][level := mine]];
      LinkBackAll(node, level, chosen);
      assert LabelSet(mine) == LabelSet(chosen);
      OwnThenBack(old(links), WithList(old(links), node, level, mine), links, node, level, LabelSet(chosen));
      next := chosen[0];
    }

    /** Walks down from the entry point to the new label's level, then links every level from there on. */
    method Link(node: Label, query: V)
      requires LinksOk(ids, levels, m, links) && |vectors| == |ids| && node < |ids| && efConstruction >= 1 && m >= 1
      requires 0 <= entryPoint && 0 <= maxLevel && OnLevel(levels, node, maxLevel, entryPoint)
      requires forall l :: 0 <= l ==> Unlinked(links, node, l)
      modifies `links
      ensures LinksOk(ids, levels, m, links)
      ensures forall l :: 0 <= l <= levels[node] && l <= maxLevel ==> links[node][l] != []
      ensures forall l :: 0 <= l ==> LevelGrown(old(links), links, node, l)
    {
      hide LinksOk, Unlinked, OnLevel, LevelGrown, Reachable;
      var current: Label := entryPoint;
      var l := maxLevel;
      LinksShape(ids, levels, m, links, node);
      while l > levels[node]
        invariant levels[node] <= l <= maxLevel || l == maxLevel
        invariant OnLevel(levels, node, l, current) && links == old(links)
      {
        LayerInside(ids, levels, m, links, l);
        OnLevelInside(levels, node, l, current);
        StaysOnLevel(ids, levels, m, links, l, node, current);
        current := Descend(Building(space, ids, query, vectors, efConstruction), LayerAt(links, l), current);
        LowerLevel(levels, node, l, l - 1, current);
        l := l - 1;
      }
      l := if levels[node] < maxLevel then levels[node] else maxLevel;
      ghost var top := l;
      NothingGrown(links, node);
      while l >= 0
        invariant -1 <= l <= top <= levels[node] && LinksOk(ids, levels, m, links)
        invariant |links| == |ids| && |links[node]| == levels[node] + 1
        invariant l >= 0 ==> OnLevel(levels, node, l, current)
        invariant forall k :: 0 <= k <= l ==> Unlinked(links, node, k)
        invariant forall k :: l < k <= top ==> links[node][k] != []
        invariant forall k :: 0 <= k ==> LevelGrown(old(links), links, node, k)
        invariant forall k :: 0 <= k <= l ==> LevelSame(old(links), links, k)
      {
        ghost var before := links;
        current := ConnectLevel(node, l, current, query);
        LinksShape(ids, levels, m, links, node);
        LevelsAfter(old(links), before, links, node, l);
        if l > 0 {
          LowerLevel(levels, node, l, l - 1, current);
        }
        l := l - 1;
      }
    }

    method Tombstone(u: Label) returns (removed: bool)
      requires u < |deleted| && CountsOk(deleted, size, tombstones)
      modifies `deleted, `size, `tombstones
      ensures deleted == old(deleted)[u := true] && CountsOk(deleted, size, tombstones) && removed == !old(deleted)[u]
    {
      if deleted[u] {
        assert deleted[u := true] == deleted;
        return false;
      }
      OneMoreDeleted(deleted, u);
      DeletedFit(deleted[u := true]);
      deleted := deleted[u := true];
      size := size - 1;
      tombstones := tombstones + 1;
      return true;
    }

    /** Forgets an id. Its label keeps holding the graph together. */
    method Delete(id: Id) returns (removed: bool)
      requires Valid()
      modifies `deleted, `size, `tombstones, `labelOf
      ensures Valid() && removed == (id in old(labelOf)) && labelOf == old(labelOf) - {id}
      ensures deleted == if removed then old(deleted)[old(labelOf)[id] := true] else old(deleted)
    {
      if id !in labelOf {
        return false;
      }
      var u := labelOf[id];
      removed := Tombstone(u);
      labelOf := labelOf - {id};
    }

    /** Inserts a vector under an id, replacing what the id named before. */
    method Upsert(id: Id, vector: V, payload: P) returns (added: bool)
      requires Valid()
      modifies this
      ensures Valid() && added == (id != "" && space.acceptable(vector))
      ensures !added ==> unchanged(this)
      ensures added ==>
        && ids == old(ids) + [id] && vectors == old(vectors) + [vector] && payloads == old(payloads) + [payload]
        && levels == old(levels) + [space.levelOf(id)] && labelOf == old(labelOf)[id := |old(ids)|]
        && deleted == (if id in old(labelOf) then old(deleted)[old(labelOf)[id] := true] else old(deleted)) + [false]
      ensures added ==> forall l :: 0 <= l ==> LevelGrown(old(links) + [EmptyLists(space.levelOf(id))], links, |old(ids)|, l)
      ensures added ==> forall l :: 0 <= l <= space.levelOf(id) && l <= old(maxLevel) ==> links[|old(ids)|][l] != []
    {
      hide LinksOk, NamesOk, CountsOk, EntryOk, Unlinked, LevelGrown;
      added := id != "" && space.acceptable(vector);
      if !added {
        return;
      }
      Lengths(ids, levels, m, links, deleted, labelOf);
      if id in labelOf {
        var _ := Tombstone(labelOf[id]);
      }
      var node, level := |ids|, space.levelOf(id);
      NamePushed(ids, old(deleted), deleted, labelOf, id);
      CountsPushed(deleted, size, tombstones);
      NodePushed(ids, levels, m, links, id, level);
      EntryMoved(ids, levels, entryPoint, maxLevel, id, level);
      Push(id, vector, payload, level);
      if entryPoint == -1 {
        NothingGrown(links, node);
        EntryOfEmpty(old(ids), old(levels), entryPoint, maxLevel);
        entryPoint := node;
        maxLevel := level;
        return;
      }
      Link(node, vector);
      if level > maxLevel || (level == maxLevel && IdBefore(id, ids[entryPoint])) {
        maxLevel := level;
        entryPoint := node;
      }
    }

    method Push(id: Id, vector: V, payload: P, level: nat)
      modifies `vectors, `ids, `payloads, `deleted, `levels, `links, `labelOf, `size
      ensures ids == old(ids) + [id] && vectors == old(vectors) + [vector] && payloads == old(payloads) + [payload]
      ensures deleted == old(deleted) + [false] && levels == old(levels) + [level] && links == old(links) + [EmptyLists(level)]
      ensures labelOf == old(labelOf)[id := |old(ids)|] && size == old(size) + 1
    {
      labelOf := labelOf[id := |ids|];
      vectors := vectors + [vector];
      ids := ids + [id];
      payloads := payloads + [payload];
      deleted := deleted + [false];
      levels := levels + [level];
      links := links + [seq(level + 1, _ => [])];
      size := size + 1;
    }
  }

  lemma Lengths(ids: seq<Id>, levels: seq<nat>, m: nat, links: Links, deleted: seq<bool>, labelOf: map<Id, Label>)
    requires LinksOk(ids, levels, m, links) && NamesOk(ids, deleted, labelOf)
    ensures |links| == |levels| == |ids| == |deleted| && forall id :: id in labelOf ==> labelOf[id] < |deleted|
  {
  }

  lemma CountsPushed(deleted: seq<bool>, size: nat, tombstones: nat)
    requires CountsOk(deleted, size, tombstones)
    ensures CountsOk(deleted + [false], size + 1, tombstones)
  {
  }

  lemma EntryOfEmpty(ids: seq<Id>, levels: seq<nat>, entryPoint: int, maxLevel: int)
    requires |levels| == |ids| && EntryOk(ids, levels, entryPoint, maxLevel)
    ensures entryPoint == -1 ==> maxLevel == -1
  {
  }

  function EmptyLists(level: nat): seq<seq<Label>> {
    seq(level + 1, _ => [])
  }

  /** A fresh label without edges fits in, and no list mentions it. */
  lemma NodePushed(ids: seq<Id>, levels: seq<nat>, m: nat, links: Links, id: Id, level: nat)
    requires LinksOk(ids, levels, m, links)
    ensures LinksOk(ids + [id], levels + [level], m, links + [EmptyLists(level)])
    ensures forall l :: 0 <= l ==> Unlinked(links + [EmptyLists(level)], |ids|, l)
  {
    var links' := links + [EmptyLists(level)];
    forall u, l | 0 <= u < |links'| && 0 <= l < |links'[u]| ensures ListOk(ids + [id], levels + [level], m, u, l, links'[u][l]) && |ids| !in links'[u][l] {
      if u < |links| {
        assert ListOk(ids, levels, m, u, l, links[u][l]);
      }
    }
  }

  lemma NamePushed(ids: seq<Id>, before: seq<bool>, deleted: seq<bool>, labelOf: map<Id, Label>, id: Id)
    requires NamesOk(ids, before, labelOf) && id != ""
    requires deleted == if id in labelOf then before[labelOf[id] := true] else before
    ensures NamesOk(ids + [id], deleted + [false], labelOf[id := |ids|])
  {
  }

  /** The entry point moves to a new label exactly when that keeps it first on the top level. */
  lemma EntryMoved(ids: seq<Id>, levels: seq<nat>, entryPoint: int, maxLevel: int, id: Id, level: nat)
    requires |levels| == |ids| && EntryOk(ids, levels, entryPoint, maxLevel)
    ensures entryPoint == -1 ==> EntryOk(ids + [id], levels + [level], |ids|, level)
    ensures entryPoint != -1 ==>
      && 0 <= entryPoint < |ids| && 0 <= maxLevel && levels[entryPoint] == maxLevel
      && if level > maxLevel || (level == maxLevel && IdBefore(id, ids[entryPoint]))
         then EntryOk(ids + [id], levels + [level], |ids|, level)
         else EntryOk(ids + [id], levels + [level], entryPoint, maxLevel)
  {
    if entryPoint != -1 {
      IdsTotal(id, ids[entryPoint]);
      forall u | 0 <= u < |ids| && IdBefore(id, ids[entryPoint]) && levels[u] == maxLevel ensures IdBefore(id, ids[u]) {
        if u != entryPoint && IdBefore(ids[entryPoint], ids[u]) {
          IdsTransitive(id, ids[entryPoint], ids[u]);
        }
      }
    }
  }

  /** Every list of the level is as it was. */
  ghost predicate LevelSame(before: Links, after: Links, level: nat) {
    |after| == |before| && forall u :: 0 <= u < |before| ==>
      |after[u]| == |before[u]| && (level < |before[u]| ==> after[u][level] == before[u][level])
  }

  /**
   * What linking a label does to a level: a list that changed belongs to a label the new one links to, and
   * gained at most the new label.
   */
  ghost predicate LevelGrown(before: Links, after: Links, node: Label, level: nat) {
    && |after| == |before| && node < |after|
    && forall u :: 0 <= u < |before| ==>
         && |after[u]| == |before[u]|
         && (level < |before[u]| && u != node && after[u][level] != before[u][level] ==>
               && level < |after[node]| && u in after[node][level]
               && forall v :: v in after[u][level] ==> v == node || v in before[u][level])
  }

  lemma NothingGrown(links: Links, node: Label)
    requires node < |links|
    ensures forall k :: 0 <= k ==> LevelGrown(links, links, node, k) && LevelSame(links, links, k)
  {
  }

  lemma LinksShape(ids: seq<Id>, levels: seq<nat>, m: nat, links: Links, node: Label)
    requires LinksOk(ids, levels, m, links) && node < |ids|
    ensures |links| == |ids| == |levels| && |links[node]| == levels[node] + 1
  {
  }

  lemma OnLevelInside(levels: seq<nat>, node: Label, level: nat, u: Label)
    requires OnLevel(levels, node, level, u)
    ensures u < |levels|
  {
  }

  lemma LowerLevel(levels: seq<nat>, node: Label, level: nat, lower: nat, u: Label)
    requires OnLevel(levels, node, level, u) && lower <= level
    ensures OnLevel(levels, node, lower, u)
  {
  }

  lemma LevelsAfter(start: Links, before: Links, after: Links, node: Label, level: nat)
    requires node < |start| && node < |before| && level < |before[node]|
    requires |after| == |before| && |after[node]| == |before[node]|
    requires OnlyChosenGain(before, after, node, level, LabelSet(after[node][level]))
    requires forall l :: 0 <= l < |after[node]| && l != level ==> after[node][l] == before[node][l]
    requires forall k :: 0 <= k <= level ==> Unlinked(before, node, k) && LevelSame(start, before, k)
    requires forall k :: 0 <= k ==> LevelGrown(start, before, node, k)
    ensures forall k :: 0 <= k < level ==> Unlinked(after, node, k) && LevelSame(start, after, k)
    ensures forall k :: 0 <= k ==> LevelGrown(start, after, node, k)
  {
    forall k | 0 <= k < level ensures Unlinked(after, node, k) && LevelSame(start, after, k) {
      assert Unlinked(before, node, k) && LevelSame(start, before, k);
    }
    assert LevelSame(start, before, level);
    forall k | 0 <= k ensures LevelGrown(start, after, node, k) {
      assert LevelGrown(start, before, node, k);
    }
  }

  ghost predicate Linkable(levels: seq<nat>, links: Links, node: Label, level: nat, v: Label) {
    OnLevel(levels, node, level, v) && v < |links| && level < |links[v]| && node !in links[v][level]
  }

  lemma OwnThenBack(before: Links, mid: Links, after: Links, node: Label, level: nat, chosen: set<Label>)
    requires OnlyChosenGain(before, mid, node, level, chosen) && OnlyChosenGain(mid, after, node, level, chosen)
    ensures OnlyChosenGain(before, after, node, level, chosen)
  {
  }

  lemma ListGrows(ids: seq<Id>, levels: seq<nat>, m: nat, owner: Label, level: nat, list: seq<Label>, node: Label)
    requires |levels| == |ids| && ListOk(ids, levels, m, owner, level, list)
    requires node !in list && node != owner && node < |ids| && levels[node] >= level
    ensures NoRepeats(list + [node]) && forall v :: v in list + [node] ==> OnLevel(levels, owner, level, v)
  {
    InOrderNoRepeats(ids, list);
  }

  lemma CandidatesOf(ids: seq<Id>, labels: seq<Label>, candidates: seq<Candidate>)
    requires |candidates| == |labels| && NoRepeats(labels)
    requires forall i :: 0 <= i < |labels| ==> candidates[i].node == labels[i]
    ensures DistinctNodes(candidates) && forall v :: v in NodesOf(candidates) ==> v in labels
  {
  }
}
