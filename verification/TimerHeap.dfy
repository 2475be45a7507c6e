/** The heap routines of ev.c, in place on an array, keeping every watcher's back-index. */
module TimerHeap {
  import opened Watchers
  import opened HeapSpec

  /** Every entry is for a watcher of ws and caches its time, and no watcher has two entries. */
  ghost predicate Distinct(h: seq<Entry>, ws: set<Watcher>)
    reads ws`at
  {
    && (forall i :: 0 <= i < |h| ==> h[i].w in ws && h[i].at == h[i].w.at)
    && (forall i, j :: 0 <= i < j < |h| ==> h[i].w != h[j].w)
  }

  /** The watcher of h[i] has `active` HEAP0 + i, except perhaps at `hole`. */
  ghost predicate Indexed(h: seq<Entry>, ws: set<Watcher>, hole: int)
    requires Distinct(h, ws)
    reads ws`active, ws`at
  {
    forall i :: 0 <= i < |h| && i != hole ==> h[i].w.active == HEAP0 + i
  }

  /** The heap array holds h, except perhaps at `hole`. */
  ghost predicate Holds(heap: array<Entry>, h: seq<Entry>, hole: int)
    reads heap
  {
    && (h == [] || HEAP0 + |h| <= heap.Length)
    && forall i :: 0 <= i < |h| && i != hole ==> heap[HEAP0 + i] == h[i]
  }

  /** The effect common to all heap routines: the array now holds r, with every back-index right. */
  ghost predicate Rearranged(heap: array<Entry>, ws: set<Watcher>, r: seq<Entry>)
    reads heap, ws`active, ws`at
  {
    Holds(heap, r, -1) && Distinct(r, ws) && Indexed(r, ws, -1)
  }

  /** The first child, by index, with the smallest time: the fast path for four children, else the slow path. */
  method FindMinChild(heap: array<Entry>, E: nat, pos: nat, ghost h: seq<Entry>, ghost k: nat) returns (minpos: nat)
    requires k < |h| && Holds(heap, h, k) && E == HEAP0 + |h|
    requires pos == DHEAP * k + HEAP0 + 1 && pos < E
    ensures HEAP0 <= minpos && LeastChild(h, k, minpos - HEAP0)
  {
    minpos := pos;
    if pos + DHEAP - 1 < E {
      if heap[pos + 1].at < heap[minpos].at { minpos := pos + 1; }
      if heap[pos + 2].at < heap[minpos].at { minpos := pos + 2; }
      if heap[pos + 3].at < heap[minpos].at { minpos := pos + 3; }
    } else {
      if pos + 1 < E && heap[pos + 1].at < heap[minpos].at { minpos := pos + 1; }
      if pos + 2 < E && heap[pos + 2].at < heap[minpos].at { minpos := pos + 2; }
      // downheap tests pos + 3 < E as well, which is never true here
    }
    forall i {:trigger Parent(i)} | 0 < i < |h| && Parent(i) == k
      ensures h[minpos - HEAP0].at <= h[i].at
    {
      assert HEAP0 + i == pos || HEAP0 + i == pos + 1 || HEAP0 + i == pos + 2 || HEAP0 + i == pos + 3;
    }
  }

  /** Whether the entry held out at the hole k is in place there, or else which child must move up. */
  method SinkTarget(heap: array<Entry>, E: nat, k: nat, he: Entry, ghost h: seq<Entry>)
    returns (done: bool, minpos: nat)
    requires HEAP0 <= k < E == HEAP0 + |h| && Holds(heap, h, k - HEAP0) && h[k - HEAP0] == he
    requires OrderedBut(h, k - HEAP0)
    ensures if done then Ordered(h, |h|)
            else k < minpos < E && LeastChild(h, k - HEAP0, minpos - HEAP0) && h[minpos - HEAP0].at < he.at
                 && OrderedBut(Swap(h, k - HEAP0, minpos - HEAP0), minpos - HEAP0)
  {
    done, minpos := true, DHEAP * (k - HEAP0) + HEAP0 + 1;
    if minpos < E {
      minpos := FindMinChild(heap, E, minpos, h, k - HEAP0);
      done := he.at <= heap[minpos].at;
    }
    if done {
      SinkDone(h, k - HEAP0, minpos - HEAP0);
    } else {
      SinkStep(h, k - HEAP0, minpos - HEAP0);
    }
  }

  /** r is the heap with `he`, which is held out of the array, put into the hole at index k. */
  ghost predicate Hole(heap: array<Entry>, ws: set<Watcher>, r: seq<Entry>, k: nat, he: Entry)
    reads heap, ws`active, ws`at
  {
    && HEAP0 <= k < HEAP0 + |r| && r[k - HEAP0] == he
    && Holds(heap, r, k - HEAP0) && Distinct(r, ws) && Indexed(r, ws, k - HEAP0)
  }

  /** heap[k] = heap[from], with the moved watcher's index: the hole moves from k to `from`. */
  method ShiftInto(heap: array<Entry>, k: nat, from: nat, ghost ws: set<Watcher>, ghost h: seq<Entry>, ghost he: Entry)
    requires Hole(heap, ws, h, k, he) && HEAP0 <= from < HEAP0 + |h| && k != from
    modifies heap, ws`active
    ensures Hole(heap, ws, Swap(h, k - HEAP0, from - HEAP0), from, he)
  {
    var moved := heap[from];
    assert moved == h[from - HEAP0];
    heap[k] := moved;
    moved.w.active := k;
  }

  /** The moving entry is put into the hole. */
  method Fill(heap: array<Entry>, k: nat, he: Entry, ghost ws: set<Watcher>, ghost h: seq<Entry>)
    requires Hole(heap, ws, h, k, he)
    modifies heap, ws`active
    ensures Rearranged(heap, ws, h)
  {
    heap[k] := he;
    he.w.active := k;
  }

  /** Away from the root. The moving entry is held out while others shift into the hole it leaves. */
  method Downheap(heap: array<Entry>, N: nat, k0: nat, ghost ws: set<Watcher>, ghost h: seq<Entry>)
    returns (ghost r: seq<Entry>)
    requires |h| == N && Holds(heap, h, -1) && HEAP0 <= k0 < HEAP0 + N
    requires Distinct(h, ws) && Indexed(h, ws, k0 - HEAP0) && OrderedBut(h, k0 - HEAP0)
    modifies heap, ws`active
    ensures Rearranged(heap, ws, r) && Ordered(r, |r|) && |r| == |h|
  {
    var k: nat := k0;
    var he := heap[k];
    r := h;
    var done, minpos := SinkTarget(heap, HEAP0 + N, k, he, r);
    while !done
      invariant |r| == N && Hole(heap, ws, r, k, he)
      invariant if done then Ordered(r, |r|)
                else k < minpos < HEAP0 + N && OrderedBut(Swap(r, k - HEAP0, minpos - HEAP0), minpos - HEAP0)
      decreases !done, HEAP0 + N - k
    {
      ShiftInto(heap, k, minpos, ws, r, he);
      r := Swap(r, k - HEAP0, minpos - HEAP0);
      k := minpos;
      done, minpos := SinkTarget(heap, HEAP0 + N, k, he, r);
    }
    Fill(heap, k, he, ws, r);
  }

  /** Whether the entry held out at the hole k is in place there, or else where its parent is. */
  method RiseTarget(heap: array<Entry>, k: nat, he: Entry, ghost h: seq<Entry>, ghost n: nat)
    returns (done: bool, p: nat)
    requires HEAP0 <= k < HEAP0 + n && n <= |h| && Holds(heap, h, k - HEAP0) && h[k - HEAP0] == he
    requires OrderedUpTo(h, n, k - HEAP0)
    ensures if done then Ordered(h, n)
            else HEAP0 <= p < k && p - HEAP0 == Parent(k - HEAP0) && he.at < h[p - HEAP0].at
                 && OrderedUpTo(Swap(h, k - HEAP0, p - HEAP0), n, p - HEAP0)
  {
    HParentIsParent(k);
    p := HParent(k);
    done := p == k || heap[p].at <= he.at;
    if done {
      RiseEnds(h, n, k - HEAP0);
    } else {
      RiseStep(h, n, k - HEAP0);
    }
  }

  /** Towards the root. The first n entries of h become a heap; upheap looks at nothing beyond them. */
  method Upheap(heap: array<Entry>, k0: nat, ghost n: nat, ghost ws: set<Watcher>, ghost h: seq<Entry>)
    returns (ghost r: seq<Entry>)
    requires Holds(heap, h, -1) && HEAP0 <= k0 < HEAP0 + n && n <= |h|
    requires Distinct(h, ws) && Indexed(h, ws, k0 - HEAP0) && OrderedUpTo(h, n, k0 - HEAP0)
    modifies heap, ws`active
    ensures Rearranged(heap, ws, r) && Ordered(r, n) && |r| == |h|
  {
    var k: nat := k0;
    var he := heap[k];
    r := h;
    var done, p := RiseTarget(heap, k, he, r, n);
    while !done
      invariant |r| == |h| && HEAP0 <= k < HEAP0 + n && Hole(heap, ws, r, k, he)
      invariant if done then Ordered(r, n)
                else HEAP0 <= p < k && OrderedUpTo(Swap(r, k - HEAP0, p - HEAP0), n, p - HEAP0)
      decreases !done, k
    {
      ShiftInto(heap, k, p, ws, r, he);
      r := Swap(r, k - HEAP0, p - HEAP0);
      k := p;
      done, p := RiseTarget(heap, k, he, r, n);
    }
    Fill(heap, k, he, ws, r);
  }

  /** Move the element at index k, whose time alone may have changed, to a correct place. */
  method AdjustHeap(heap: array<Entry>, N: nat, k: nat, ghost ws: set<Watcher>, ghost h: seq<Entry>)
    returns (ghost r: seq<Entry>)
    requires |h| == N && HEAP0 <= k < HEAP0 + N && Holds(heap, h, -1)
    requires Distinct(h, ws) && Indexed(h, ws, k - HEAP0) && OutAt(h, k - HEAP0)
    modifies heap, ws`active
    ensures Rearranged(heap, ws, r) && Ordered(r, |r|) && |r| == |h|
  {
    HParentIsParent(k);
    if k > HEAP0 && heap[k].at <= heap[HParent(k)].at {
      r := Upheap(heap, k, N, ws, h);
    } else {
      r := Downheap(heap, N, k, ws, h);
    }
  }

  /** Rebuild the heap after the times changed in any way at all. */
  method Reheap(heap: array<Entry>, N: nat, ghost ws: set<Watcher>, ghost h: seq<Entry>) returns (ghost r: seq<Entry>)
    requires |h| == N && Holds(heap, h, -1) && Distinct(h, ws) && Indexed(h, ws, -1)
    modifies heap, ws`active
    ensures Rearranged(heap, ws, r) && Ordered(r, |r|) && |r| == |h|
  {
    r := h;
    for i := 0 to N
      invariant Rearranged(heap, ws, r) && Ordered(r, i) && |r| == N
    {
      NextOrderedUpTo(r, i);
      r := Upheap(heap, i + HEAP0, i + 1, ws, r);
    }
  }
}
