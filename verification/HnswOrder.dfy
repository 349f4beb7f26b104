/** The total order that makes the index deterministic: distance, then external id, then internal label. */
module HnswOrder {

  type Label = nat
  type Id = string

  datatype Candidate = Candidate(node: Label, id: Id, distance: real)

  // ── ids, by code units ────────────────────────────────────────────────────

  predicate IdBefore(a: Id, b: Id) {
    if b == "" then false
    else if a == "" then true
    else a[0] < b[0] || (a[0] == b[0] && IdBefore(a[1..], b[1..]))
  }

  lemma {:induction false} IdsTotal(a: Id, b: Id)
    ensures IdBefore(a, b) || a == b || IdBefore(b, a)
    ensures !(IdBefore(a, b) && IdBefore(b, a)) && !IdBefore(a, a)
  {
    if a != "" && b != "" {
      IdsTotal(a[1..], b[1..]);
      IdsTotal(a[1..], a[1..]);
      assert a == [a[0]] + a[1..] && b == [b[0]] + b[1..];
    } else if a != "" {
      IdsTotal(a[1..], a[1..]);
    }
  }

  lemma {:induction false} IdsTransitive(a: Id, b: Id, c: Id)
    requires IdBefore(a, b) && IdBefore(b, c)
    ensures IdBefore(a, c)
  {
    if a != "" && a[0] == b[0] && b[0] == c[0] {
      IdsTransitive(a[1..], b[1..], c[1..]);
    }
  }

  // ── labels and candidates ─────────────────────────────────────────────────

  /** The canonical order of a neighbour list. */
  predicate LabelBefore(ids: seq<Id>, a: Label, b: Label)
    requires a < |ids| && b < |ids|
  {
    IdBefore(ids[a], ids[b]) || (ids[a] == ids[b] && a < b)
  }

  predicate Before(a: Candidate, b: Candidate) {
    || a.distance < b.distance
    || (a.distance == b.distance && (IdBefore(a.id, b.id) || (a.id == b.id && a.node < b.node)))
  }

  lemma LabelsTotal(ids: seq<Id>, a: Label, b: Label)
    requires a < |ids| && b < |ids|
    ensures LabelBefore(ids, a, b) || a == b || LabelBefore(ids, b, a)
    ensures !(LabelBefore(ids, a, b) && LabelBefore(ids, b, a)) && !LabelBefore(ids, a, a)
  {
    IdsTotal(ids[a], ids[b]);
    IdsTotal(ids[a], ids[a]);
  }

  lemma LabelsTransitive(ids: seq<Id>, a: Label, b: Label, c: Label)
    requires a < |ids| && b < |ids| && c < |ids|
    requires LabelBefore(ids, a, b) && LabelBefore(ids, b, c)
    ensures LabelBefore(ids, a, c)
  {
    if IdBefore(ids[a], ids[b]) && IdBefore(ids[b], ids[c]) {
      IdsTransitive(ids[a], ids[b], ids[c]);
    }
  }

  lemma BeforeTotal(a: Candidate, b: Candidate)
    ensures Before(a, b) || a == b || Before(b, a)
    ensures !(Before(a, b) && Before(b, a)) && !Before(a, a)
  {
    IdsTotal(a.id, b.id);
    IdsTotal(a.id, a.id);
  }

  lemma BeforeTransitive(a: Candidate, b: Candidate, c: Candidate)
    requires Before(a, b) && Before(b, c)
    ensures Before(a, c)
  {
    if IdBefore(a.id, b.id) && IdBefore(b.id, c.id) {
      IdsTransitive(a.id, b.id, c.id);
    }
  }

  /** a is not after b. */
  predicate AtMost(a: Candidate, b: Candidate) {
    a == b || Before(a, b)
  }

  lemma AtMostTransitive(a: Candidate, b: Candidate, c: Candidate)
    requires AtMost(a, b) && AtMost(b, c)
    ensures AtMost(a, c)
    ensures Before(a, b) || Before(b, c) ==> Before(a, c)
  {
    if Before(a, b) && Before(b, c) {
      BeforeTransitive(a, b, c);
    }
  }

  lemma NotBefore(a: Candidate, b: Candidate)
    ensures !Before(a, b) <==> AtMost(b, a)
  {
    BeforeTotal(a, b);
  }

  // ── sorting ───────────────────────────────────────────────────────────────

  ghost predicate Sorted(s: seq<Candidate>) {
    forall i, j :: 0 <= i < j < |s| ==> Before(s[i], s[j])
  }

  ghost predicate InLabelOrder(ids: seq<Id>, labels: seq<Label>) {
    && (forall i :: 0 <= i < |labels| ==> labels[i] < |ids|)
    && forall i, j :: 0 <= i < j < |labels| ==> LabelBefore(ids, labels[i], labels[j])
  }

  ghost predicate NoRepeats<T>(s: seq<T>) {
    forall i, j :: 0 <= i < j < |s| ==> s[i] != s[j]
  }

  function InsertCandidate(s: seq<Candidate>, c: Candidate): (r: seq<Candidate>)
    ensures multiset(r) == multiset(s) + multiset{c}
  {
    if s == [] then [c]
    else if Before(c, s[0]) then [c] + s
    else
      assert s == [s[0]] + s[1..];
      [s[0]] + InsertCandidate(s[1..], c)
  }

  /** Candidates in order, nearest first. */
  function SortCandidates(s: seq<Candidate>): (r: seq<Candidate>)
    ensures multiset(r) == multiset(s)
  {
    if s == [] then []
    else
      assert s == [s[0]] + s[1..];
      InsertCandidate(SortCandidates(s[1..]), s[0])
  }

  lemma MultisetMembers<T>(s: seq<T>, t: seq<T>)
    requires multiset(s) == multiset(t)
    ensures |s| == |t| && forall c :: c in s <==> c in t
  {
    assert |multiset(s)| == |s| && |multiset(t)| == |t|;
    forall c ensures c in s <==> c in t {
      assert c in s <==> c in multiset(s);
      assert c in t <==> c in multiset(t);
    }
  }

  lemma {:induction false} InsertedSorted(s: seq<Candidate>, c: Candidate)
    requires Sorted(s) && c !in s
    ensures Sorted(InsertCandidate(s, c))
  {
    if s != [] {
      BeforeTotal(c, s[0]);
      if Before(c, s[0]) {
        forall i | 0 <= i < |s| ensures Before(c, s[i]) {
          if i > 0 {
            BeforeTransitive(c, s[0], s[i]);
          }
        }
      } else {
        InsertedSorted(s[1..], c);
        var rest := InsertCandidate(s[1..], c);
        forall x | x in rest ensures Before(s[0], x) {
          assert x in multiset(rest);
          assert x in s[1..] || x == c;
        }
      }
    }
  }

  lemma {:induction false} SortedCandidates(s: seq<Candidate>)
    requires NoRepeats(s)
    ensures Sorted(SortCandidates(s))
  {
    if s != [] {
      SortedCandidates(s[1..]);
      MultisetMembers(SortCandidates(s[1..]), s[1..]);
      assert s[0] !in s[1..];
      InsertedSorted(SortCandidates(s[1..]), s[0]);
    }
  }

  // ── canonical neighbour lists ─────────────────────────────────────────────

  predicate LabelsIn(ids: seq<Id>, s: seq<Label>) {
    forall i :: 0 <= i < |s| ==> s[i] < |ids|
  }

  lemma LabelsInSame(ids: seq<Id>, s: seq<Label>, t: seq<Label>)
    requires LabelsIn(ids, s) && multiset(s) == multiset(t)
    ensures LabelsIn(ids, t)
  {
    MultisetMembers(s, t);
    forall i | 0 <= i < |t| ensures t[i] < |ids| {
      assert t[i] in s;
    }
  }

  function InsertLabel(ids: seq<Id>, s: seq<Label>, v: Label): (r: seq<Label>)
    requires v < |ids| && LabelsIn(ids, s)
    ensures multiset(r) == multiset(s) + multiset{v}
  {
    if s == [] then [v]
    else if LabelBefore(ids, v, s[0]) then [v] + s
    else
      assert s == [s[0]] + s[1..];
      [s[0]] + InsertLabel(ids, s[1..], v)
  }

  function SortLabels(ids: seq<Id>, s: seq<Label>): (r: seq<Label>)
    requires LabelsIn(ids, s)
    ensures multiset(r) == multiset(s)
  {
    if s == [] then []
    else
      assert s == [s[0]] + s[1..];
      var rest := SortLabels(ids, s[1..]);
      LabelsInSame(ids, s[1..], rest);
      InsertLabel(ids, rest, s[0])
  }

  lemma InsertedMembers(ids: seq<Id>, s: seq<Label>, v: Label)
    requires v < |ids| && LabelsIn(ids, s)
    ensures LabelsIn(ids, InsertLabel(ids, s, v))
    ensures forall x :: x in InsertLabel(ids, s, v) <==> x == v || x in s
  {
    MultisetMembers(InsertLabel(ids, s, v), s + [v]);
    LabelsInSame(ids, s + [v], InsertLabel(ids, s, v));
  }

  lemma {:induction false} InsertedInOrder(ids: seq<Id>, s: seq<Label>, v: Label)
    requires InLabelOrder(ids, s) && LabelsIn(ids, s) && v < |ids| && v !in s
    ensures InLabelOrder(ids, InsertLabel(ids, s, v))
  {
    if s != [] {
      LabelsTotal(ids, v, s[0]);
      if LabelBefore(ids, v, s[0]) {
        forall i | 0 <= i < |s| ensures LabelBefore(ids, v, s[i]) {
          if i > 0 {
            LabelsTransitive(ids, v, s[0], s[i]);
          }
        }
      } else {
        hide LabelBefore;
        InsertedInOrder(ids, s[1..], v);
        InsertedMembers(ids, s[1..], v);
        var rest := InsertLabel(ids, s[1..], v);
        forall i | 0 <= i < |rest| ensures LabelBefore(ids, s[0], rest[i]) {
          assert rest[i] in rest;
          assert rest[i] == v || rest[i] in s[1..];
        }
        assert InsertLabel(ids, s, v) == [s[0]] + rest;
      }
    }
  }

  lemma {:induction false} SortedLabels(ids: seq<Id>, s: seq<Label>)
    requires NoRepeats(s) && LabelsIn(ids, s)
    ensures InLabelOrder(ids, SortLabels(ids, s))
    ensures |SortLabels(ids, s)| == |s| && forall x :: x in SortLabels(ids, s) <==> x in s
  {
    MultisetMembers(SortLabels(ids, s), s);
    if s != [] {
      SortedLabels(ids, s[1..]);
      var rest := SortLabels(ids, s[1..]);
      LabelsInSame(ids, s[1..], rest);
      InsertedInOrder(ids, rest, s[0]);
    }
  }

  /** A canonical list is its own sorting: what makes a snapshot reproduce the lists it was taken from. */
  lemma {:induction false} SortingCanonical(ids: seq<Id>, s: seq<Label>)
    requires InLabelOrder(ids, s) && LabelsIn(ids, s)
    ensures SortLabels(ids, s) == s
  {
    if s != [] {
      SortingCanonical(ids, s[1..]);
      assert s == [s[0]] + s[1..];
    }
  }

  lemma InOrderNoRepeats(ids: seq<Id>, s: seq<Label>)
    requires InLabelOrder(ids, s)
    ensures NoRepeats(s)
  {
    forall i, j | 0 <= i < j < |s| ensures s[i] != s[j] {
      LabelsTotal(ids, s[i], s[j]);
    }
  }

  lemma SortedNoRepeats(s: seq<Candidate>)
    requires Sorted(s)
    ensures NoRepeats(s)
  {
    forall i, j | 0 <= i < j < |s| ensures s[i] != s[j] {
      BeforeTotal(s[i], s[j]);
    }
  }
}
