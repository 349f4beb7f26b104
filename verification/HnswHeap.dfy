/** The binary heap behind the layer search, nearest first or, inverted, furthest first. */
module HnswHeap {
  import opened HnswOrder

  /** Which of two candidates leaves the heap first. */
  predicate First(invert: bool, a: Candidate, b: Candidate) {
    if invert then Before(b, a) else Before(a, b)
  }

  lemma FirstTotal(invert: bool, a: Candidate, b: Candidate)
    ensures First(invert, a, b) || a == b || First(invert, b, a)
    ensures !(First(invert, a, b) && First(invert, b, a)) && !First(invert, a, a)
  {
    BeforeTotal(a, b);
  }

  /** Not coming first is transitive, because the order is total. */
  lemma NotFirstTransitive(invert: bool, a: Candidate, b: Candidate, c: Candidate)
    requires !First(invert, b, a) && !First(invert, c, b)
    ensures !First(invert, c, a)
  {
    FirstTotal(invert, a, b);
    FirstTotal(invert, b, c);
    FirstTotal(invert, a, c);
    if First(invert, a, b) && First(invert, b, c) {
      if invert {
        BeforeTransitive(c, b, a);
      } else {
        BeforeTransitive(a, b, c);
      }
    }
  }

  function Parent(i: nat): nat
    requires i > 0
  {
    (i - 1) / 2
  }

  function Swap(s: seq<Candidate>, i: nat, j: nat): seq<Candidate>
    requires i < |s| && j < |s|
  {
    s[i := s[j]][j := s[i]]
  }

  lemma SwapKeepsItems(s: seq<Candidate>, i: nat, j: nat)
    requires i < |s| && j < |s|
    ensures multiset(Swap(s, i, j)) == multiset(s)
  {
  }

  /** No item comes before its parent, except possibly at position `up`, whose children respect its parent. */
  ghost predicate HeapExceptUp(invert: bool, s: seq<Candidate>, up: nat) {
    && (forall k :: 0 < k < |s| && k != up ==> !First(invert, s[k], s[Parent(k)]))
    && (forall k :: 0 < k < |s| && Parent(k) == up && up > 0 ==> !First(invert, s[k], s[Parent(up)]))
  }

  /** No item comes before its parent, except possibly below position `down`. */
  ghost predicate HeapExceptDown(invert: bool, s: seq<Candidate>, down: nat) {
    && (forall k :: 0 < k < |s| && Parent(k) != down ==> !First(invert, s[k], s[Parent(k)]))
    && (forall k :: 0 < k < |s| && Parent(k) == down && 0 < down < |s| ==> !First(invert, s[k], s[Parent(down)]))
  }

  ghost predicate IsHeap(invert: bool, s: seq<Candidate>) {
    forall k :: 0 < k < |s| ==> !First(invert, s[k], s[Parent(k)])
  }

  lemma SwapUp(invert: bool, s: seq<Candidate>, up: nat)
    requires 0 < up < |s| && HeapExceptUp(invert, s, up) && First(invert, s[up], s[Parent(up)])
    ensures HeapExceptUp(invert, Swap(s, up, Parent(up)), Parent(up))
  {
    var p, t := Parent(up), Swap(s, up, Parent(up));
    forall k | 0 < k < |t| && k != p ensures !First(invert, t[k], t[Parent(k)]) {
      if k == up {
        FirstTotal(invert, s[up], s[p]);
      } else if Parent(k) == p {
        FirstTotal(invert, s[up], s[p]);
        NotFirstTransitive(invert, s[up], s[p], s[k]);
      }
    }
    forall k | 0 < k < |t| && Parent(k) == p && p > 0 ensures !First(invert, t[k], t[Parent(p)]) {
      if k != up {
        NotFirstTransitive(invert, s[Parent(p)], s[p], s[k]);
      }
    }
  }

  lemma SwapDown(invert: bool, s: seq<Candidate>, down: nat, best: nat)
    requires 0 < best < |s| && Parent(best) == down && HeapExceptDown(invert, s, down) && First(invert, s[best], s[down])
    requires forall k :: 0 < k < |s| && Parent(k) == down ==> !First(invert, s[k], s[best])
    ensures HeapExceptDown(invert, Swap(s, down, best), best)
  {
    var t := Swap(s, down, best);
    FirstTotal(invert, s[best], s[down]);
    forall k | 0 < k < |t| && Parent(k) != best ensures !First(invert, t[k], t[Parent(k)]) {
    }
  }

  /** The root of a heap comes before, or is, every item. */
  lemma {:induction false} RootIsFirst(invert: bool, s: seq<Candidate>, k: nat)
    requires IsHeap(invert, s) && k < |s|
    ensures !First(invert, s[k], s[0])
    decreases k
  {
    if k == 0 {
      FirstTotal(invert, s[0], s[0]);
    } else {
      RootIsFirst(invert, s, Parent(k));
      NotFirstTransitive(invert, s[0], s[Parent(k)], s[k]);
    }
  }

  class Heap {
    const invert: bool
    var items: seq<Candidate>

    constructor (invert: bool)
      ensures this.invert == invert && items == [] && Valid()
    {
      this.invert := invert;
      items := [];
    }

    ghost predicate Valid()
      reads this
    {
      IsHeap(invert, items)
    }

    method Push(item: Candidate)
      requires Valid()
      modifies this
      ensures Valid() && multiset(items) == multiset(old(items)) + multiset{item}
    {
      items := items + [item];
      var i := |items| - 1;
      while i > 0
        invariant 0 <= i < |items| && HeapExceptUp(invert, items, i)
        invariant multiset(items) == multiset(old(items)) + multiset{item}
      {
        var parent := (i - 1) / 2;
        if !First(invert, items[i], items[parent]) {
          break;
        }
        SwapUp(invert, items, i);
        SwapKeepsItems(items, i, parent);
        items := items[i := items[parent]][parent := items[i]];
        i := parent;
      }
    }

    /** The last item takes the root's place. */
    method DropRoot() returns (top: Candidate)
      requires Valid() && items != []
      modifies this
      ensures top == old(items)[0] && |items| == |old(items)| - 1
      ensures multiset(old(items)) == multiset(items) + multiset{top}
      ensures items != [] ==> HeapExceptDown(invert, items, 0)
    {
      top := items[0];
      var last := items[|items| - 1];
      assert items == items[..|items| - 1] + [last];
      items := items[..|items| - 1];
      if |items| > 0 {
        assert items == [top] + items[1..];
        var moved := items[0 := last];
        assert moved == [last] + items[1..];
        items := moved;
      }
    }

    /** Removes and returns the item that comes first. */
    method Pop() returns (top: Candidate)
      requires Valid() && items != []
      modifies this
      ensures Valid() && multiset(old(items)) == multiset(items) + multiset{top} && |items| == |old(items)| - 1
      ensures top in old(items) && forall c :: c in old(items) ==> !First(invert, c, top)
    {
      forall k | 0 <= k < |items| ensures !First(invert, items[k], items[0]) {
        RootIsFirst(invert, items, k);
      }
      top := DropRoot();
      if |items| > 0 {
        SiftDown();
      }
    }

    method SiftDown()
      requires items != [] && HeapExceptDown(invert, items, 0)
      modifies this
      ensures Valid() && multiset(items) == multiset(old(items)) && |items| == |old(items)|
    {
      var i := 0;
      while true
        invariant 0 <= i < |items| == |old(items)| && HeapExceptDown(invert, items, i)
        invariant multiset(items) == multiset(old(items))
        decreases |items| - i
      {
        var l := 2 * i + 1;
        var r := l + 1;
        var best := i;
        if l < |items| && First(invert, items[l], items[best]) {
          best := l;
        }
        if r < |items| && First(invert, items[r], items[best]) {
          best := r;
        }
        BestOfChildren(invert, items, i, best);
        if best == i {
          break;
        }
        SwapDown(invert, items, i, best);
        SwapKeepsItems(items, i, best);
        items := items[i := items[best]][best := items[i]];
        i := best;
      }
    }
  }

  lemma BestOfChildren(invert: bool, s: seq<Candidate>, i: nat, best: nat)
    requires i < |s|
    requires var l := 2 * i + 1;
             var first := if l < |s| && First(invert, s[l], s[i]) then l else i;
             best == if l + 1 < |s| && First(invert, s[l + 1], s[first]) then l + 1 else first
    ensures best < |s| && forall k :: 0 < k < |s| && Parent(k) == i ==> !First(invert, s[k], s[best])
    ensures best != i ==> 0 < best && Parent(best) == i && First(invert, s[best], s[i])
  {
    var l := 2 * i + 1;
    FirstTotal(invert, s[i], s[i]);
    if l < |s| {
      FirstTotal(invert, s[l], s[i]);
      if l + 1 < |s| {
        FirstTotal(invert, s[l + 1], s[i]);
        FirstTotal(invert, s[l + 1], s[l]);
        if First(invert, s[l], s[i]) && First(invert, s[l + 1], s[l]) {
          NotFirstTransitive(invert, s[l + 1], s[l], s[i]);
          if s[l + 1] == s[i] {
            assert false;
          }
        }
        if !First(invert, s[l], s[i]) && First(invert, s[l + 1], s[i]) {
          NotFirstTransitive(invert, s[l + 1], s[i], s[l]);
        }
      }
    }
    forall k | 0 < k < |s| && Parent(k) == i ensures k == l || k == l + 1 {
    }
  }
}
