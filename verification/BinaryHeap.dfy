/** The vector-backed heap under the timers: `std::push_heap` and `std::pop_heap` with the (deadline, id) order. */
module BinaryHeap {

  datatype Entry = Entry(deadline: int, id: nat)

  /** `EntryLater`: a fires after b. */
  predicate Later(a: Entry, b: Entry) {
    if a.deadline != b.deadline then a.deadline > b.deadline else a.id > b.id
  }

  function Parent(i: int): (p: nat)
    requires i > 0
    ensures p < i
  {
    (i - 1) / 2
  }

  ghost predicate IsHeap(h: seq<Entry>) {
    forall i :: 0 < i < |h| ==> !Later(h[Parent(i)], h[i])
  }

  /** The front of a heap fires no later than anything in it. */
  lemma {:induction false} FrontIsLeast(h: seq<Entry>, i: nat)
    requires IsHeap(h) && i < |h|
    ensures !Later(h[0], h[i])
    ensures h[0].deadline < h[i].deadline || (h[0].deadline == h[i].deadline && h[0].id <= h[i].id)
  {
    if i > 0 {
      FrontIsLeast(h, Parent(i));
    }
  }

  function Swap(h: seq<Entry>, i: nat, j: nat): (r: seq<Entry>)
    requires i < |h| && j < |h|
    ensures |r| == |h| && r[i] == h[j] && r[j] == h[i]
    ensures forall k :: 0 <= k < |h| && k != i && k != j ==> r[k] == h[k]
    ensures multiset(r) == multiset(h)
  {
    h[i := h[j]][j := h[i]]
  }

  /** Ordered everywhere except between i and its parent, and i's children do not precede that parent. */
  ghost predicate HeapAbove(h: seq<Entry>, i: nat) {
    && i < |h|
    && (forall j :: 0 < j < |h| && j != i ==> !Later(h[Parent(j)], h[j]))
    && (i > 0 ==> forall j :: 0 < j < |h| && Parent(j) == i ==> !Later(h[Parent(i)], h[j]))
  }

  /** Ordered everywhere except between i and its children, which do not precede i's parent. */
  ghost predicate HeapBelow(h: seq<Entry>, i: nat) {
    && (forall j :: 0 < j < |h| && Parent(j) != i ==> !Later(h[Parent(j)], h[j]))
    && (i > 0 ==> forall j :: 0 < j < |h| && Parent(j) == i ==> !Later(h[Parent(i)], h[j]))
  }

  lemma SwapUp(h: seq<Entry>, i: nat)
    requires 0 < i < |h| && HeapAbove(h, i) && Later(h[Parent(i)], h[i])
    ensures HeapAbove(Swap(h, Parent(i), i), Parent(i))
  {
    var p := Parent(i);
    var r := Swap(h, p, i);
    forall j | 0 < j < |h| && j != p
      ensures !Later(r[Parent(j)], r[j])
    {
      assert j != i ==> !Later(h[Parent(j)], h[j]);
    }
    if p > 0 {
      assert !Later(h[Parent(p)], h[p]);
      forall j | 0 < j < |h| && Parent(j) == p
        ensures !Later(r[Parent(p)], r[j])
      {
        assert j != i ==> !Later(h[Parent(j)], h[j]);
      }
    }
  }

  method PushHeap(h: seq<Entry>, e: Entry) returns (r: seq<Entry>)
    requires IsHeap(h)
    ensures IsHeap(r) && multiset(r) == multiset(h) + multiset{e}
  {
    r := h + [e];
    var i: nat := |h|;
    while i > 0 && Later(r[Parent(i)], r[i])
      invariant i < |r| && HeapAbove(r, i)
      invariant multiset(r) == multiset(h) + multiset{e}
    {
      SwapUp(r, i);
      r := Swap(r, Parent(i), i);
      i := Parent(i);
    }
  }

  lemma SwapDown(h: seq<Entry>, i: nat, c: nat)
    requires c < |h| && 0 < c && Parent(c) == i && HeapBelow(h, i) && Later(h[i], h[c])
    requires forall j :: 0 < j < |h| && Parent(j) == i ==> !Later(h[c], h[j])
    ensures HeapBelow(Swap(h, i, c), c)
  {
    var r := Swap(h, i, c);
    forall j | 0 < j < |h| && Parent(j) != c
      ensures !Later(r[Parent(j)], r[j])
    {
      if Parent(j) != i {
        assert !Later(h[Parent(j)], h[j]);
      }
    }
    forall j | 0 < j < |h| && Parent(j) == c
      ensures !Later(r[Parent(c)], r[j])
    {
      assert !Later(h[Parent(j)], h[j]);
    }
  }

  method PopHeap(h: seq<Entry>) returns (r: seq<Entry>)
    requires h != [] && IsHeap(h)
    ensures IsHeap(r) && multiset(r) == multiset(h) - multiset{h[0]}
  {
    var last := |h| - 1;
    if last == 0 {
      return [];
    }
    Dropped(h);
    r := h[..last][0 := h[last]];
    var i := 0;
    while 2 * i + 1 < |r|
      invariant |r| == last && HeapBelow(r, i)
      invariant multiset(r) == multiset(h) - multiset{h[0]}
      decreases |r| - i
    {
      var c := LeastChild(r, i);
      if !Later(r[i], r[c]) {
        Settled(r, i, c);
        return;
      }
      SwapDown(r, i, c);
      r := Swap(r, i, c);
      i := c;
    }
  }

  /** The child of i that fires first. */
  method LeastChild(h: seq<Entry>, i: nat) returns (c: nat)
    requires 2 * i + 1 < |h|
    ensures i < c < |h| && Parent(c) == i
    ensures forall j :: 0 < j < |h| && Parent(j) == i ==> !Later(h[c], h[j])
  {
    c := 2 * i + 1;
    if c + 1 < |h| && Later(h[c], h[c + 1]) { c := c + 1; }
  }

  lemma Settled(h: seq<Entry>, i: nat, c: nat)
    requires i < c < |h| && HeapBelow(h, i) && !Later(h[i], h[c])
    requires forall j :: 0 < j < |h| && Parent(j) == i ==> !Later(h[c], h[j])
    ensures IsHeap(h)
  {
    forall j | 0 < j < |h|
      ensures !Later(h[Parent(j)], h[j])
    {
      if Parent(j) == i { assert !Later(h[c], h[j]); }
    }
  }

  lemma Dropped(h: seq<Entry>)
    requires |h| > 1 && IsHeap(h)
    ensures var r := h[..|h| - 1][0 := h[|h| - 1]];
            HeapBelow(r, 0) && multiset(r) == multiset(h) - multiset{h[0]}
  {
    var last := |h| - 1;
    assert h == h[..last] + [h[last]];
    assert multiset(h) == multiset(h[..last]) + multiset{h[last]};
    var r := h[..last][0 := h[last]];
    forall j | 0 < j < |r| && Parent(j) != 0
      ensures !Later(r[Parent(j)], r[j])
    {
      assert !Later(h[Parent(j)], h[j]);
    }
  }
}
