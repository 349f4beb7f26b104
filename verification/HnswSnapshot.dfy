/** Snapshots: what `serialize` writes, every check `deserialize` makes, and that they fit together. */
module HnswSnapshot {
  import opened HnswOrder
  import opened HnswGraph
  import opened HnswIndex

  datatype Option<+T> = None | Some(value: T)

  /** The state of an index as a value. */
  datatype Image<V, P> = Image(
    ids: seq<Id>, payloads: seq<P>, vectors: seq<V>, deleted: seq<bool>, levels: seq<nat>, links: Links,
    entryPoint: int, maxLevel: int, size: nat, tombstones: nat, labelOf: map<Id, Label>)

  /** A parsed snapshot document. Nothing in it can be trusted, so its numbers are plain integers. */
  datatype Snapshot<V, P> = Snapshot(
    ids: seq<Id>, metadata: seq<P>, vectors: seq<V>, deleted: seq<int>, levels: seq<int>, links: seq<seq<seq<int>>>,
    entryPoint: int, maxLevel: int)

  function ImageOf<V, P>(index: HnswIndex<V, P>): Image<V, P>
    reads index
  {
    Image(index.ids, index.payloads, index.vectors, index.deleted, index.levels, index.links,
          index.entryPoint, index.maxLevel, index.size, index.tombstones, index.labelOf)
  }

  ghost predicate ImageOk<V, P>(image: Image<V, P>, m: nat) {
    && |image.payloads| == |image.vectors| == |image.ids|
    && LinksOk(image.ids, image.levels, m, image.links) && EntryOk(image.ids, image.levels, image.entryPoint, image.maxLevel)
    && NamesOk(image.ids, image.deleted, image.labelOf) && CountsOk(image.deleted, image.size, image.tombstones)
  }

  // ── writing ───────────────────────────────────────────────────────────────

  function CanonicalLists(ids: seq<Id>, lists: seq<seq<Label>>): seq<seq<int>>
    requires forall l :: 0 <= l < |lists| ==> LabelsIn(ids, lists[l])
  {
    seq(|lists|, l requires 0 <= l < |lists| => SortLabels(ids, lists[l]))
  }

  function CanonicalLinks(ids: seq<Id>, links: Links): seq<seq<seq<int>>>
    requires forall u, l :: 0 <= u < |links| && 0 <= l < |links[u]| ==> LabelsIn(ids, links[u][l])
  {
    seq(|links|, u requires 0 <= u < |links| => CanonicalLists(ids, links[u]))
  }

  lemma ListsInside(ids: seq<Id>, levels: seq<nat>, m: nat, links: Links)
    requires LinksOk(ids, levels, m, links)
    ensures forall u, l :: 0 <= u < |links| && 0 <= l < |links[u]| ==> LabelsIn(ids, links[u][l]) && InLabelOrder(ids, links[u][l])
  {
    forall u, l | 0 <= u < |links| && 0 <= l < |links[u]| ensures LabelsIn(ids, links[u][l]) && InLabelOrder(ids, links[u][l]) {
      assert ListOk(ids, levels, m, u, l, links[u][l]);
    }
  }

  /** The deleted labels in order, the lists in canonical order, everything else verbatim. */
  function Serialize<V, P>(image: Image<V, P>, m: nat): Snapshot<V, P>
    requires ImageOk(image, m)
  {
    ListsInside(image.ids, image.levels, m, image.links);
    Snapshot(image.ids, image.payloads, image.vectors, DeletedLabels(image.deleted), image.levels,
             CanonicalLinks(image.ids, image.links), image.entryPoint, image.maxLevel)
  }

  // ── the checks ────────────────────────────────────────────────────────────

  ghost predicate NeighboursAccepted(ids: seq<Id>, levels: seq<int>, node: nat, level: nat, list: seq<int>)
    requires |levels| == |ids|
  {
    && (forall i :: 0 <= i < |list| ==> 0 <= list[i] < |ids| && list[i] != node && levels[list[i]] >= level)
    && (forall i, j :: 0 <= i < j < |list| ==> list[i] != list[j])
    && forall i, j :: 0 <= i < j < |list| ==> LabelBefore(ids, list[i], list[j])
  }

  ghost predicate EntryAccepted(levels: seq<int>, entryPoint: int, maxLevel: int) {
    && (forall u :: 0 <= u < |levels| ==> levels[u] <= maxLevel)
    && (levels != [] ==> exists u :: 0 <= u < |levels| && levels[u] == maxLevel)
    && (levels == [] ==> maxLevel == -1)
    && if levels == [] then entryPoint == -1 else 0 <= entryPoint < |levels| && levels[entryPoint] == maxLevel
  }

  /** The list of checks, each in its own words. */
  ghost predicate Accepted<V, P>(s: Snapshot<V, P>) {
    && |s.metadata| == |s.ids| && |s.levels| == |s.ids| && |s.links| == |s.ids| && |s.vectors| == |s.ids|
    && (forall i :: 0 <= i < |s.deleted| ==> 0 <= s.deleted[i] < |s.ids|)
    && (forall i, j :: 0 <= i < j < |s.deleted| ==> s.deleted[i] != s.deleted[j])
    && (forall u :: 0 <= u < |s.ids| ==> s.ids[u] != "" && s.levels[u] >= 0 && |s.links[u]| == s.levels[u] + 1)
    && (forall u, l :: 0 <= u < |s.ids| && 0 <= l < |s.links[u]| ==> NeighboursAccepted(s.ids, s.levels, u, l, s.links[u][l]))
    && EntryAccepted(s.levels, s.entryPoint, s.maxLevel)
    && forall u, v :: 0 <= u < v < |s.ids| && u !in s.deleted && v !in s.deleted ==> s.ids[u] != s.ids[v]
  }

  // ── reading ───────────────────────────────────────────────────────────────

  function Flags(deleted: seq<int>, n: nat): seq<bool> {
    seq(n, u requires 0 <= u < n => u in deleted)
  }

  function NamesUpTo(ids: seq<Id>, deleted: seq<bool>, n: nat): map<Id, Label>
    requires n <= |ids| == |deleted|
  {
    if n == 0 then map[]
    else
      var before := NamesUpTo(ids, deleted, n - 1);
      if deleted[n - 1] then before else before[ids[n - 1] := n - 1]
  }

  /** What an accepted snapshot is loaded as. */
  function Restored<V, P>(s: Snapshot<V, P>): Image<V, P>
    requires Accepted(s)
  {
    var deleted := Flags(s.deleted, |s.ids|);
    AcceptedShape(s);
    DeletedFitIn(s.deleted, |s.ids|);
    Image(s.ids, s.metadata, s.vectors, deleted, s.levels, s.links, s.entryPoint, s.maxLevel,
          |s.ids| - |s.deleted|, |s.deleted|, NamesUpTo(s.ids, deleted, |s.ids|))
  }

  lemma AcceptedShape<V, P>(s: Snapshot<V, P>)
    requires Accepted(s)
    ensures forall u :: 0 <= u < |s.levels| ==> s.levels[u] >= 0
    ensures forall u, l, i :: 0 <= u < |s.links| && 0 <= l < |s.links[u]| && 0 <= i < |s.links[u][l]| ==> s.links[u][l][i] >= 0
  {
    forall u, l, i | 0 <= u < |s.links| && 0 <= l < |s.links[u]| && 0 <= i < |s.links[u][l]| ensures s.links[u][l][i] >= 0 {
      assert NeighboursAccepted(s.ids, s.levels, u, l, s.links[u][l]);
    }
  }

  function Below(n: nat): (all: set<int>)
    ensures |all| == n && forall v :: v in all <==> 0 <= v < n
  {
    if n == 0 then {} else Below(n - 1) + {n - 1}
  }

  lemma {:induction false} DistinctIntsSize(s: seq<int>)
    requires forall i, j :: 0 <= i < j < |s| ==> s[i] != s[j]
    ensures |set v | v in s| == |s|
  {
    if s == [] {
      assert (set v | v in s) == {};
    } else {
      var n := |s| - 1;
      DistinctIntsSize(s[..n]);
      assert s == s[..n] + [s[n]];
      assert (set v | v in s) == (set v | v in s[..n]) + {s[n]};
    }
  }

  /** Distinct numbers below n are at most n many. */
  lemma DeletedFitIn(s: seq<int>, n: nat)
    requires (forall i :: 0 <= i < |s| ==> 0 <= s[i] < n) && forall i, j :: 0 <= i < j < |s| ==> s[i] != s[j]
    ensures |s| <= n
  {
    var all := set v | v in s;
    DistinctIntsSize(s);
    assert Below(n) == all + (Below(n) - all);
  }

  // ── round trip ────────────────────────────────────────────────────────────

  lemma {:induction false} DeletedAscend(deleted: seq<bool>)
    ensures forall i, j :: 0 <= i < j < |DeletedLabels(deleted)| ==> DeletedLabels(deleted)[i] < DeletedLabels(deleted)[j]
    ensures forall i :: 0 <= i < |DeletedLabels(deleted)| ==> DeletedLabels(deleted)[i] < |deleted|
  {
    if deleted != [] {
      var n := |deleted| - 1;
      DeletedAscend(deleted[..n]);
    }
  }

  lemma CanonicalAsIs(ids: seq<Id>, links: Links)
    requires forall u, l :: 0 <= u < |links| && 0 <= l < |links[u]| ==> LabelsIn(ids, links[u][l]) && InLabelOrder(ids, links[u][l])
    ensures CanonicalLinks(ids, links) == links
  {
    forall u | 0 <= u < |links| ensures CanonicalLists(ids, links[u]) == links[u] {
      forall l | 0 <= l < |links[u]| ensures SortLabels(ids, links[u][l]) == links[u][l] {
        SortingCanonical(ids, links[u][l]);
      }
    }
  }

  ghost predicate NamesHold(ids: seq<Id>, deleted: seq<bool>, n: nat, names: map<Id, Label>)
    requires n <= |ids| == |deleted|
  {
    && (forall id :: id in names ==> names[id] < n && ids[names[id]] == id && !deleted[names[id]])
    && (forall u :: 0 <= u < n && !deleted[u] ==> ids[u] in names && names[ids[u]] == u)
  }

  lemma {:induction false} NamesUpToHolds(ids: seq<Id>, deleted: seq<bool>, n: nat)
    requires n <= |ids| == |deleted|
    requires forall u, v :: 0 <= u < v < |ids| && !deleted[u] && !deleted[v] ==> ids[u] != ids[v]
    ensures NamesHold(ids, deleted, n, NamesUpTo(ids, deleted, n))
  {
    if n > 0 {
      NamesUpToHolds(ids, deleted, n - 1);
    }
  }

  lemma NamesAgree(ids: seq<Id>, deleted: seq<bool>, labelOf: map<Id, Label>)
    requires NamesOk(ids, deleted, labelOf)
    ensures NamesUpTo(ids, deleted, |ids|) == labelOf
  {
    NamesUpToHolds(ids, deleted, |ids|);
  }

  lemma EntryIsAccepted(ids: seq<Id>, levels: seq<nat>, entryPoint: int, maxLevel: int)
    requires |levels| == |ids| && EntryOk(ids, levels, entryPoint, maxLevel)
    ensures EntryAccepted(levels, entryPoint, maxLevel)
  {
  }

  lemma ListsAreAccepted(ids: seq<Id>, levels: seq<nat>, m: nat, links: Links)
    requires LinksOk(ids, levels, m, links)
    ensures forall u, l :: 0 <= u < |links| && 0 <= l < |links[u]| ==> NeighboursAccepted(ids, levels, u, l, links[u][l])
  {
    forall u, l | 0 <= u < |links| && 0 <= l < |links[u]| ensures NeighboursAccepted(ids, levels, u, l, links[u][l]) {
      assert ListOk(ids, levels, m, u, l, links[u][l]);
      InOrderNoRepeats(ids, links[u][l]);
    }
  }

  /** Every index that its operations can reach passes all of the loader's checks, and loads back unchanged. */
  lemma RoundTrip<V, P>(image: Image<V, P>, m: nat)
    requires ImageOk(image, m)
    ensures Accepted(Serialize(image, m)) && Restored(Serialize(image, m)) == image
  {
    hide CanonicalLinks, NamesUpTo, EntryAccepted, NeighboursAccepted, ListOk, InLabelOrder;
    var s := Serialize(image, m);
    ListsInside(image.ids, image.levels, m, image.links);
    CanonicalAsIs(image.ids, image.links);
    ListsAreAccepted(image.ids, image.levels, m, image.links);
    EntryIsAccepted(image.ids, image.levels, image.entryPoint, image.maxLevel);
    DeletedAscend(image.deleted);
    assert Flags(s.deleted, |s.ids|) == image.deleted;
    NamesAgree(image.ids, image.deleted, image.labelOf);
  }

  lemma IndexImageOk<V, P>(index: HnswIndex<V, P>)
    requires index.Valid()
    ensures ImageOk(ImageOf(index), index.m)
    ensures var s := Serialize(ImageOf(index), index.m); Accepted(s) && Restored(s) == ImageOf(index)
  {
    RoundTrip(ImageOf(index), index.m);
  }

  // ── what the checks are worth ─────────────────────────────────────────────

  /** The entry point is on the top level; which of several labels there it is, is not checked. */
  ghost predicate OnTop(levels: seq<nat>, entryPoint: int, maxLevel: int) {
    if levels == [] then entryPoint == -1 && maxLevel == -1
    else 0 <= entryPoint < |levels| && levels[entryPoint] == maxLevel && forall u :: 0 <= u < |levels| ==> levels[u] <= maxLevel
  }

  /**
   * A loaded image has every invariant of a built one, except the degree limits and the tie-break of the
   * entry point: each is as good as unlimited connectivity.
   */
  lemma AcceptedIsSound<V, P>(s: Snapshot<V, P>)
    requires Accepted(s)
    ensures var image := Restored(s);
            && |image.payloads| == |image.vectors| == |image.ids|
            && LinksOk(image.ids, image.levels, |image.ids|, image.links) && OnTop(image.levels, image.entryPoint, image.maxLevel)
            && NamesOk(image.ids, image.deleted, image.labelOf) && CountsOk(image.deleted, image.size, image.tombstones)
  {
    var image := Restored(s);
    AcceptedShape(s);
    forall u, l | 0 <= u < |image.links| && 0 <= l < |image.links[u]| ensures ListOk(image.ids, image.levels, |image.ids|, u, l, image.links[u][l]) {
      assert NeighboursAccepted(s.ids, s.levels, u, l, s.links[u][l]);
      DeletedFitIn(image.links[u][l], |s.ids|);
    }
    NamesUpToHolds(image.ids, image.deleted, |image.ids|);
    FlagsCounted(s.deleted, |s.ids|);
    DeletedFitIn(s.deleted, |s.ids|);
  }

  lemma FlagsCounted(deleted: seq<int>, n: nat)
    requires (forall i :: 0 <= i < |deleted| ==> 0 <= deleted[i] < n) && forall i, j :: 0 <= i < j < |deleted| ==> deleted[i] != deleted[j]
    ensures |DeletedLabels(Flags(deleted, n))| == |deleted|
  {
    var labels: seq<int> := DeletedLabels(Flags(deleted, n));
    DeletedAscend(Flags(deleted, n));
    DistinctIntsSize(labels);
    DistinctIntsSize(deleted);
    forall v ensures v in labels <==> v in deleted {
    }
    assert (set v | v in labels) == (set v | v in deleted);
  }

  // ── the loader ────────────────────────────────────────────────────────────

  method CheckDeleted(deleted: seq<int>, capacity: nat) returns (ok: bool)
    ensures ok <==> (forall i :: 0 <= i < |deleted| ==> 0 <= deleted[i] < capacity)
                    && forall i, j :: 0 <= i < j < |deleted| ==> deleted[i] != deleted[j]
  {
    var seen: set<int> := {};
    var k := 0;
    while k < |deleted|
      invariant k <= |deleted| && forall v :: v in seen <==> v in deleted[..k]
      invariant forall i :: 0 <= i < k ==> 0 <= deleted[i] < capacity
      invariant forall i, j :: 0 <= i < j < k ==> deleted[i] != deleted[j]
    {
      if !(0 <= deleted[k] < capacity) || deleted[k] in seen {
        return false;
      }
      assert deleted[..k + 1] == deleted[..k] + [deleted[k]];
      seen := seen + {deleted[k]};
      k := k + 1;
    }
    return true;
  }

  method CheckEdges(levels: seq<int>, node: nat, level: nat, list: seq<int>) returns (ok: bool)
    ensures ok <==> (forall i :: 0 <= i < |list| ==> 0 <= list[i] < |levels| && list[i] != node && levels[list[i]] >= level)
                    && forall i, j :: 0 <= i < j < |list| ==> list[i] != list[j]
  {
    var seen: set<int> := {};
    var k := 0;
    while k < |list|
      invariant k <= |list| && forall v :: v in seen <==> v in list[..k]
      invariant forall i :: 0 <= i < k ==> 0 <= list[i] < |levels| && list[i] != node && levels[list[i]] >= level
      invariant forall i, j :: 0 <= i < j < k ==> list[i] != list[j]
    {
      if !(0 <= list[k] < |levels|) || list[k] == node || levels[list[k]] < level || list[k] in seen {
        return false;
      }
      assert list[..k + 1] == list[..k] + [list[k]];
      seen := seen + {list[k]};
      k := k + 1;
    }
    return true;
  }

  method CheckNeighbours(ids: seq<Id>, levels: seq<int>, node: nat, level: nat, list: seq<int>) returns (ok: bool)
    requires |levels| == |ids|
    ensures ok <==> NeighboursAccepted(ids, levels, node, level, list)
  {
    hide LabelBefore, SortLabels;
    ok := CheckEdges(levels, node, level, list);
    if ok {
      var labels: seq<Label> := list;
      CanonicalMeansOrdered(ids, labels);
      ok := SortLabels(ids, labels) == labels;
    }
  }

  /** Comparing a list with its sorting decides whether it is in canonical order. */
  lemma CanonicalMeansOrdered(ids: seq<Id>, labels: seq<Label>)
    requires NoRepeats(labels) && LabelsIn(ids, labels)
    ensures SortLabels(ids, labels) == labels <==> InLabelOrder(ids, labels)
  {
    SortedLabels(ids, labels);
    if InLabelOrder(ids, labels) {
      SortingCanonical(ids, labels);
    }
  }

  method CheckLists(ids: seq<Id>, levels: seq<int>, node: nat, lists: seq<seq<int>>) returns (ok: bool)
    requires |levels| == |ids|
    ensures ok <==> forall l :: 0 <= l < |lists| ==> NeighboursAccepted(ids, levels, node, l, lists[l])
  {
    var l := 0;
    while l < |lists|
      invariant l <= |lists| && forall k :: 0 <= k < l ==> NeighboursAccepted(ids, levels, node, k, lists[k])
    {
      var good := CheckNeighbours(ids, levels, node, l, lists[l]);
      if !good {
        return false;
      }
      l := l + 1;
    }
    return true;
  }

  method CheckEntry(levels: seq<int>, entryPoint: int, maxLevel: int) returns (ok: bool)
    requires forall u :: 0 <= u < |levels| ==> levels[u] >= 0
    ensures ok <==> EntryAccepted(levels, entryPoint, maxLevel)
  {
    var computedMax := -1;
    var u := 0;
    while u < |levels|
      invariant u <= |levels| && -1 <= computedMax && forall v :: 0 <= v < u ==> levels[v] <= computedMax
      invariant if u == 0 then computedMax == -1 else exists v :: 0 <= v < u && levels[v] == computedMax
    {
      if levels[u] > computedMax {
        computedMax := levels[u];
      }
      u := u + 1;
    }
    ok := maxLevel == computedMax
      && if |levels| == 0 then entryPoint == -1 else 0 <= entryPoint < |levels| && levels[entryPoint] == computedMax;
  }

  /** Registers live ids, refusing a second label under the same id. */
  method RegisterNames(ids: seq<Id>, deleted: seq<bool>) returns (ok: bool, labelOf: map<Id, Label>)
    requires |deleted| == |ids|
    ensures ok <==> forall u, v :: 0 <= u < v < |ids| && !deleted[u] && !deleted[v] ==> ids[u] != ids[v]
    ensures ok ==> labelOf == NamesUpTo(ids, deleted, |ids|)
  {
    labelOf := map[];
    var n := 0;
    while n < |ids|
      invariant n <= |ids| && labelOf == NamesUpTo(ids, deleted, n)
      invariant forall u, v :: 0 <= u < v < n && !deleted[u] && !deleted[v] ==> ids[u] != ids[v]
      invariant forall id :: id in labelOf <==> exists u :: 0 <= u < n && !deleted[u] && ids[u] == id
    {
      if !deleted[n] {
        if ids[n] in labelOf {
          return false, labelOf;
        }
        labelOf := labelOf[ids[n] := n];
      }
      n := n + 1;
    }
    return true, labelOf;
  }

  ghost predicate RowsAccepted<V, P>(s: Snapshot<V, P>, n: nat)
    requires n <= |s.ids| == |s.levels| == |s.links|
  {
    forall u :: 0 <= u < n ==> s.ids[u] != "" && s.levels[u] >= 0 && |s.links[u]| == s.levels[u] + 1
  }

  ghost predicate ListsAccepted<V, P>(s: Snapshot<V, P>, n: nat)
    requires n <= |s.ids| == |s.levels| == |s.links|
  {
    forall u, l :: 0 <= u < n && 0 <= l < |s.links[u]| ==> NeighboursAccepted(s.ids, s.levels, u, l, s.links[u][l])
  }

  method CheckRows<V, P>(s: Snapshot<V, P>) returns (ok: bool)
    requires |s.ids| == |s.levels| == |s.links|
    ensures ok <==> RowsAccepted(s, |s.ids|) && ListsAccepted(s, |s.ids|)
  {
    var u := 0;
    while u < |s.ids|
      invariant u <= |s.ids| && RowsAccepted(s, u)
    {
      if s.ids[u] == "" || s.levels[u] < 0 || |s.links[u]| != s.levels[u] + 1 {
        return false;
      }
      u := u + 1;
    }
    u := 0;
    while u < |s.ids|
      invariant u <= |s.ids| && ListsAccepted(s, u)
    {
      var good := CheckLists(s.ids, s.levels, u, s.links[u]);
      if !good {
        return false;
      }
      u := u + 1;
    }
    return true;
  }

  /** Loads a snapshot, or refuses it: refused exactly when one of the checks fails. */
  method Deserialize<V, P>(s: Snapshot<V, P>) returns (image: Option<Image<V, P>>)
    ensures image.Some? <==> Accepted(s)
    ensures image.Some? ==> image.value == Restored(s)
  {
    hide NeighboursAccepted, EntryAccepted;
    var capacity := |s.ids|;
    if |s.metadata| != capacity || |s.levels| != capacity || |s.links| != capacity || |s.vectors| != capacity {
      return None;
    }
    var deletedOk := CheckDeleted(s.deleted, capacity);
    if !deletedOk {
      return None;
    }
    var rowsOk := CheckRows(s);
    if !rowsOk {
      return None;
    }
    var entryOk := CheckEntry(s.levels, s.entryPoint, s.maxLevel);
    if !entryOk {
      return None;
    }
    var deleted := Flags(s.deleted, capacity);
    var namesOk, labelOf := RegisterNames(s.ids, deleted);
    if !namesOk {
      return None;
    }
    AcceptedShape(s);
    DeletedFitIn(s.deleted, capacity);
    image := Some(Image(s.ids, s.metadata, s.vectors, deleted, s.levels, s.links, s.entryPoint, s.maxLevel,
                        capacity - |s.deleted|, |s.deleted|, labelOf));
  }
}
