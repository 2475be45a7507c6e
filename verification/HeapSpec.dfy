/**
 * The 4-heap of ev.c on plain sequences. A heap of N entries occupies indices HEAP0 .. HEAP0 + N - 1
 * of its array; here the same entries are a sequence indexed from 0, so HPARENT(k) - HEAP0 is
 * Parent(k - HEAP0).
 */
module HeapSpec {
  import opened Watchers

  const DHEAP := 4
  const HEAP0 := DHEAP - 1

  /** ANHE: a heap element, with the watcher's `at` cached beside it. */
  datatype Entry = Entry(at: real, w: Watcher)

  /** C's integer division, which truncates toward zero. */
  function DivC(a: int, b: nat): int
    requires 0 < b
  {
    if 0 <= a then a / b else -((-a) / b)
  }

  /** HPARENT on array indices, exactly as the macro computes it. */
  function HParent(k: nat): int
  {
    DivC(k - HEAP0 - 1, DHEAP) + HEAP0
  }

  /** The parent on sequence indices; the root is its own parent. */
  function Parent(k: nat): nat {
    if k == 0 then 0 else (k - 1) / 4
  }

  /** Truncation is what makes the root its own parent, which is how upheap knows it is done. */
  lemma HParentIsParent(k: nat)
    requires HEAP0 <= k
    ensures HParent(k) == HEAP0 + Parent(k - HEAP0)
    ensures HParent(k) == k <==> k == HEAP0
  {
  }

  /** The first n entries are in heap order. */
  ghost predicate Ordered(h: seq<Entry>, n: nat) {
    n <= |h| && forall i {:trigger Parent(i)} :: 0 < i < n ==> h[Parent(i)].at <= h[i].at
  }

  /** In heap order except that the entry at k may be too large for its place. */
  ghost predicate OrderedBut(h: seq<Entry>, k: nat) {
    && (forall i {:trigger Parent(i)} :: 0 < i < |h| && Parent(i) != k ==> h[Parent(i)].at <= h[i].at)
    && (forall i {:trigger Parent(i)} :: 0 < i < |h| && Parent(i) == k && 0 < k ==> h[Parent(k)].at <= h[i].at)
  }

  /** The first n entries are in heap order except that the entry at k may be too small for its place. */
  ghost predicate OrderedUpTo(h: seq<Entry>, n: nat, k: nat) {
    && n <= |h|
    && (forall i {:trigger Parent(i)} :: 0 < i < n && i != k ==> h[Parent(i)].at <= h[i].at)
    && (forall i {:trigger Parent(i)} :: 0 < i < n && Parent(i) == k && 0 < k ==> h[Parent(k)].at <= h[i].at)
  }

  /** Out of order at k alone, in the direction that adjustheap's test finds. */
  ghost predicate OutAt(h: seq<Entry>, k: nat) {
    && k < |h|
    && if 0 < k && h[k].at <= h[Parent(k)].at then OrderedUpTo(h, |h|, k) else OrderedBut(h, k)
  }

  /** Replacing any one entry of a heap puts it out of order at that place alone. */
  lemma ReplacedOutAt(h: seq<Entry>, k: nat, e: Entry)
    requires k < |h| && Ordered(h, |h|)
    ensures OutAt(h[k := e], k)
  {
    forall i {:trigger Parent(i)} | 0 < i < |h| && Parent(i) == k && 0 < k
      ensures h[Parent(k)].at <= h[i].at
    {
      assert h[Parent(k)].at <= h[k].at <= h[i].at;
    }
  }

  /** A new root can only be too large for its place. */
  lemma RaisedRoot(h: seq<Entry>, e: Entry)
    requires 0 < |h| && Ordered(h, |h|)
    ensures OrderedBut(h[0 := e], 0)
  {
  }

  /** Removing the last entry of a heap leaves a heap. */
  lemma ShortenedOrdered(h: seq<Entry>)
    requires 0 < |h| && Ordered(h, |h|)
    ensures Ordered(h[..|h| - 1], |h| - 1)
  {
  }

  /** The last entry can be put in the place of any other. */
  lemma MovedOutAt(h: seq<Entry>, n: nat, k: nat, r: seq<Entry>)
    requires k < n - 1 && |h| == n && Ordered(h, n) && r == h[..n - 1][k := h[n - 1]]
    ensures OutAt(r, k)
  {
    var s, e := h[..n - 1], h[n - 1];
    ShortenedOrdered(h);
    assert |s| == n - 1 && Ordered(s, |s|);
    ReplacedOutAt(s, k, e);
  }

  /** Shifting all times alike keeps the order. */
  lemma ShiftedOrdered(h: seq<Entry>, r: seq<Entry>, d: real)
    requires Ordered(h, |h|) && |r| == |h|
    requires forall i :: 0 <= i < |h| ==> r[i].at == h[i].at + d
    ensures Ordered(r, |h|)
  {
    forall i {:trigger Parent(i)} | 0 < i < |h| ensures r[Parent(i)].at <= r[i].at {
      assert h[Parent(i)].at <= h[i].at;
    }
  }

  /** Whatever entry follows a heap, it is out of order there alone. */
  lemma NextOrderedUpTo(h: seq<Entry>, n: nat)
    requires n < |h| && Ordered(h, n)
    ensures OrderedUpTo(h, n + 1, n)
  {
    forall i {:trigger Parent(i)} | 0 < i < n + 1 && i != n ensures h[Parent(i)].at <= h[i].at {
      assert Parent(i) < i;
    }
  }

  /** Appending any entry to a heap puts it out of order at the end alone. */
  lemma AppendedOrderedUpTo(h: seq<Entry>, e: Entry)
    requires Ordered(h, |h|)
    ensures OrderedUpTo(h + [e], |h| + 1, |h|)
  {
    NextOrderedUpTo(h + [e], |h|);
  }

  function Swap(h: seq<Entry>, i: nat, j: nat): (r: seq<Entry>)
    requires i < |h| && j < |h|
    ensures |r| == |h|
  {
    h[i := h[j]][j := h[i]]
  }

  /** c is a child of k, and no child of k has a smaller time. */
  ghost predicate LeastChild(h: seq<Entry>, k: nat, c: nat) {
    && k < c < |h| && Parent(c) == k
    && forall i {:trigger Parent(i)} :: 0 < i < |h| && Parent(i) == k ==> h[c].at <= h[i].at
  }

  /** An entry that has sunk far enough is in place. */
  lemma SinkDone(h: seq<Entry>, k: nat, c: nat)
    requires k < |h| && OrderedBut(h, k)
    requires |h| <= 4 * k + 1 || (LeastChild(h, k, c) && h[k].at <= h[c].at)
    ensures Ordered(h, |h|)
  {
  }

  /** Exchanging a too large entry with its least child moves the fault to the child's place. */
  lemma SinkStep(h: seq<Entry>, k: nat, c: nat)
    requires OrderedBut(h, k) && LeastChild(h, k, c) && h[c].at < h[k].at
    ensures OrderedBut(Swap(h, k, c), c)
  {
    var s := Swap(h, k, c);
    forall i {:trigger Parent(i)} | 0 < i < |s| && Parent(i) != c
      ensures s[Parent(i)].at <= s[i].at
    {
      if i == k {
        assert h[Parent(k)].at <= h[c].at;
      }
    }
  }

  /** An entry that is no less than its parent, or at the root, is in its place. */
  lemma RiseEnds(h: seq<Entry>, n: nat, k: nat)
    requires k < n && OrderedUpTo(h, n, k) && (k == 0 || h[Parent(k)].at <= h[k].at)
    ensures Ordered(h, n)
  {
  }

  /** Exchanging a too small entry with its parent moves the fault to the parent's place. */
  lemma RiseStep(h: seq<Entry>, n: nat, k: nat)
    requires 0 < k < n && OrderedUpTo(h, n, k) && h[k].at < h[Parent(k)].at
    ensures OrderedUpTo(Swap(h, k, Parent(k)), n, Parent(k))
  {
    var p := Parent(k);
    var s := Swap(h, k, p);
    forall i {:trigger Parent(i)} | 0 < i < n && i != p
      ensures s[Parent(i)].at <= s[i].at
    {
      if Parent(i) == k { assert h[p].at <= h[i].at; }
    }
    forall i {:trigger Parent(i)} | 0 < i < n && Parent(i) == p && 0 < p
      ensures s[Parent(p)].at <= s[i].at
    {
      assert h[Parent(p)].at <= h[p].at;
      if i != k { assert h[p].at <= h[i].at; }
    }
  }

  /** The root of a heap is its minimum. */
  lemma {:induction false} RootIsMin(h: seq<Entry>, k: nat)
    requires k < |h| && Ordered(h, |h|)
    ensures h[0].at <= h[k].at
  {
    if k != 0 {
      RootIsMin(h, Parent(k));
    }
  }
}
