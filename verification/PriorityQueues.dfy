/** The binary min-heap of tasks (broker/priorityqueue.go), with the sift loops of a textbook
    heap in place of the library's. */
module PriorityQueues {
  import opened Tasks
  import opened QueueMachine

  lemma BeforeIsStrict(a: Item, b: Item)
    ensures Before(a, b) ==> !Before(b, a)
  {
  }

  function Parent(i: nat): nat
    requires i > 0
  {
    (i - 1) / 2
  }

  /** The item at `i` may stay below its parent. */
  predicate InOrder(h: seq<Item>, i: nat)
    requires 0 < i < |h|
  {
    !Before(h[i], h[Parent(i)])
  }

  ghost predicate Heaped(h: seq<Item>) {
    forall i :: 0 < i < |h| ==> InOrder(h, i)
  }

  /** No descendant comes before its ancestor. */
  lemma {:induction false} RootIsFirst(h: seq<Item>, i: nat)
    requires Heaped(h) && i < |h|
    ensures !Before(h[i], h[0])
  {
    if i > 0 {
      RootIsFirst(h, Parent(i));
      assert InOrder(h, i);
    }
  }

  lemma RootIsMin(h: seq<Item>)
    requires Heaped(h) && h != []
    ensures IsMin(multiset(h), h[0])
    ensures forall y :: y in h ==>
              h[0].priority <= y.priority && (h[0].priority == y.priority ==> h[0].createdAt <= y.createdAt)
  {
    forall y | y in multiset(h) ensures !Before(y, h[0]) {
      var i :| 0 <= i < |h| && h[i] == y;
      RootIsFirst(h, i);
    }
    forall y | y in h ensures !Before(y, h[0]) {
      assert y in multiset(h);
    }
  }

  function Swapped(h: seq<Item>, i: nat, j: nat): seq<Item>
    requires i < |h| && j < |h|
  {
    h[i := h[j]][j := h[i]]
  }

  lemma SwapKeeps(h: seq<Item>, i: nat, j: nat)
    requires i < |h| && j < |h|
    ensures |Swapped(h, i, j)| == |h| && Swapped(h, i, j)[j] == h[i]
    ensures multiset(Swapped(h, i, j)) == multiset(h)
  {
  }

  lemma SwapBelow(h: seq<Item>, i: nat, j: nat, n: nat)
    requires i < n && j < n <= |h|
    ensures Swapped(h, i, j)[n..] == h[n..]
  {
  }

  // ---------------------------------------------------------------- sifting

  /** Only the item at `j` may come before its parent, and whatever is below it may stay below
      its parent. */
  ghost predicate HeapedBut(h: seq<Item>, j: nat) {
    && (forall i :: 0 < i < |h| && i != j ==> InOrder(h, i))
    && (forall i :: 0 < i < |h| && Parent(i) == j && j > 0 ==> !Before(h[i], h[Parent(j)]))
  }

  lemma SiftedUp(h: seq<Item>, j: nat)
    requires 0 < j < |h| && HeapedBut(h, j) && Before(h[j], h[Parent(j)])
    ensures HeapedBut(Swapped(h, Parent(j), j), Parent(j))
  {
    var p, h' := Parent(j), Swapped(h, Parent(j), j);
    forall i | 0 < i < |h'| && i != p ensures InOrder(h', i) {
      assert i != j ==> InOrder(h, i);
      assert p > 0 ==> InOrder(h, p);
    }
    forall i | 0 < i < |h'| && Parent(i) == p && p > 0 ensures !Before(h'[i], h'[Parent(p)]) {
      assert InOrder(h, p);
      assert i != j ==> InOrder(h, i);
    }
  }

  /** Among the first `n` items, only the children of the item at `j` may come before it, and
      they may stay below its parent. */
  ghost predicate HeapedAbove(h: seq<Item>, j: nat, n: nat)
    requires n <= |h|
  {
    && (forall i :: 0 < i < n && Parent(i) != j ==> InOrder(h, i))
    && (forall i :: 0 < i < n && Parent(i) == j && j > 0 ==> !Before(h[i], h[Parent(j)]))
  }

  /** `c` is the child of `j` that comes first. */
  predicate FirstChild(h: seq<Item>, j: nat, n: nat, c: nat)
    requires n <= |h|
  {
    && 0 < c < n && Parent(c) == j
    && (2 * j + 1 < n ==> !Before(h[2 * j + 1], h[c]))
    && (2 * j + 2 < n ==> !Before(h[2 * j + 2], h[c]))
  }

  lemma SiftedDown(h: seq<Item>, j: nat, n: nat, c: nat)
    requires j < n <= |h| && HeapedAbove(h, j, n) && FirstChild(h, j, n, c) && Before(h[c], h[j])
    ensures HeapedAbove(Swapped(h, j, c), c, n)
  {
    var h' := Swapped(h, j, c);
    forall i | 0 < i < n && Parent(i) != c ensures InOrder(h', i) {
      assert Parent(i) != j ==> InOrder(h, i);
      assert Parent(i) == j ==> i == 2 * j + 1 || i == 2 * j + 2;
    }
    forall i | 0 < i < n && Parent(i) == c && c > 0 ensures !Before(h'[i], h'[Parent(c)]) {
      assert InOrder(h, i);
    }
  }

  lemma SiftDone(h: seq<Item>, j: nat, n: nat, c: nat)
    requires j < n <= |h| && HeapedAbove(h, j, n)
    requires if 2 * j + 1 < n then FirstChild(h, j, n, c) && !Before(h[c], h[j]) else true
    ensures Heaped(h[..n])
  {
    forall i | 0 < i < n ensures InOrder(h[..n], i) {
      assert Parent(i) == j ==> i == 2 * j + 1 || i == 2 * j + 2;
      assert Parent(i) != j ==> InOrder(h, i);
    }
  }

  lemma LastMayRise(h: seq<Item>, x: Item)
    requires Heaped(h)
    ensures HeapedBut(h + [x], |h|)
  {
    var h' := h + [x];
    forall i | 0 < i < |h'| && i != |h| ensures InOrder(h', i) {
      assert InOrder(h, i);
    }
  }

  lemma LastMaySink(h: seq<Item>)
    requires Heaped(h) && h != []
    ensures HeapedAbove(Swapped(h, 0, |h| - 1), 0, |h| - 1)
  {
    var n, h' := |h| - 1, Swapped(h, 0, |h| - 1);
    forall i | 0 < i < n && Parent(i) != 0 ensures InOrder(h', i) {
      assert InOrder(h, i);
    }
  }

  lemma LastOff(h: seq<Item>)
    requires h != []
    ensures multiset(h[..|h| - 1]) == multiset(h) - multiset{h[|h| - 1]}
  {
    assert h == h[..|h| - 1] + [h[|h| - 1]];
  }

  // ---------------------------------------------------------------- the queue

  class PriorityQueue {
    var h: seq<Item>

    ghost predicate Valid()
      reads this
    {
      Heaped(h)
    }

    ghost function Contents(): multiset<Item>
      reads this
    {
      multiset(h)
    }

    constructor ()
      ensures Valid() && Contents() == multiset{}
    {
      h := [];
    }

    method Push(x: Item)
      requires Valid()
      modifies this
      ensures Valid() && Contents() == old(Contents()) + multiset{x}
    {
      LastMayRise(h, x);
      var j: nat := |h|;
      h := h + [x];
      while j > 0 && Before(h[j], h[Parent(j)])
        invariant j < |h| && HeapedBut(h, j)
        invariant multiset(h) == old(multiset(h)) + multiset{x}
      {
        SiftedUp(h, j);
        SwapKeeps(h, Parent(j), j);
        h := Swapped(h, Parent(j), j);
        j := Parent(j);
      }
      assert forall i :: 0 < i < |h| && i != j ==> InOrder(h, i);
    }

    /** Removes an item that nothing in the queue comes before. */
    method Pop() returns (x: Option<Item>)
      requires Valid()
      modifies this
      ensures Valid()
      ensures x.None? <==> old(Contents()) == multiset{}
      ensures x.None? ==> Contents() == old(Contents())
      ensures x.Some? ==> IsMin(old(Contents()), x.value) && Contents() == old(Contents()) - multiset{x.value}
      ensures x.Some? ==> forall y :: y in old(Contents()) ==>
                x.value.priority <= y.priority && (x.value.priority == y.priority ==> x.value.createdAt <= y.createdAt)
    {
      hide InOrder, HeapedAbove, IsMin, Swapped;
      if h == [] {
        return None;
      }
      RootIsMin(h);
      assert h[0] in multiset(h);
      var n := |h| - 1;
      LastMaySink(h);
      SwapKeeps(h, 0, n);
      h := Swapped(h, 0, n);
      assert h[n] == h[n..][0];
      if n > 0 {
        SiftDown(n);
      }
      assert h[n] == h[n..][0];
      x := Some(h[n]);
      LastOff(h);
      h := h[..n];
    }

    method SiftDown(n: nat)
      requires 0 < n <= |h| && HeapedAbove(h, 0, n)
      modifies this
      ensures |h| == old(|h|) && h[n..] == old(h[n..]) && Heaped(h[..n]) && multiset(h) == old(multiset(h))
    {
      hide InOrder, HeapedAbove, Swapped, Before;
      var i := 0;
      while true
        invariant i < n <= |h| == old(|h|) && h[n..] == old(h[n..])
        invariant HeapedAbove(h, i, n) && multiset(h) == old(multiset(h))
        decreases n - i
      {
        var j := 2 * i + 1;
        if j >= n {
          SiftDone(h, i, n, 0);
          return;
        }
        if j + 1 < n && Before(h[j + 1], h[j]) {
          BeforeIsStrict(h[j + 1], h[j]);
          j := j + 1;
        }
        BeforeIsStrict(h[j], h[j]);
        if !Before(h[j], h[i]) {
          SiftDone(h, i, n, j);
          return;
        }
        SiftedDown(h, i, n, j);
        SwapKeeps(h, i, j);
        SwapBelow(h, i, j, n);
        h := Swapped(h, i, j);
        i := j;
      }
    }
  }
}
