/**
 * One heap of active watchers, as ev.c keeps for its timers and for its periodics: the array, its
 * count, and the watchers' back-indices. What it stands for is a map from watcher to time: its domain is
 * `members`, and each member's time is its `at`.
 */
module WatcherHeap {
  import opened Watchers
  import opened HeapSpec
  import opened TimerHeap
  import ArrayGrowth

  const ANHE_SIZE := 16  // sizeof (ANHE)

  class Heap {
    var heap: array<Entry>
    var cnt: nat
    ghost var h: seq<Entry>            // the entries in use
    ghost var members: set<Watcher>    // the watchers that have one

    ghost predicate Valid()
      reads this, heap, members`active, members`at
    {
      Rearranged(heap, members, h) && Ordered(h, cnt) && |h| == cnt == |members|
    }

    constructor ()
      ensures Valid() && members == {} && fresh(heap)
    {
      heap := new Entry[0];
      cnt, h, members := 0, [], {};
    }

    /** The back-index of a member leads to its own entry. */
    lemma BackIndex(w: Watcher)
      requires Valid() && w in members
      ensures HEAP0 <= w.active < HEAP0 + cnt && heap[w.active] == Entry(w.at, w) == h[w.active - HEAP0]
    {
      AllPresent(h, members);
      var i :| 0 <= i < |h| && h[i].w == w;
    }

    /** Every member's `active` is a heap index, so not 0. */
    lemma MembersActive()
      requires Valid()
      ensures forall w :: w in members ==> w.active != 0
    {
      forall w | w in members ensures w.active != 0 {
        BackIndex(w);
      }
    }

    /** The root has the least time of all members. */
    lemma RootIsLeast(w: Watcher)
      requires Valid() && w in members
      ensures 0 < cnt && heap[HEAP0].at <= w.at && heap[HEAP0].w in members
    {
      BackIndex(w);
      RootIsMin(h, w.active - HEAP0);
    }

    /** As Valid, but the entry at sequence index k may be out of place and its watcher not indexed. */
    ghost predicate ValidBut(k: nat)
      reads this, heap, members`active, members`at
    {
      && |h| == cnt == |members| && k < cnt
      && Holds(heap, h, -1) && Distinct(h, members) && Indexed(h, members, k)
    }

    /** Room is made for one more entry. */
    method Grow(fill: Entry)
      requires Valid()
      modifies this`heap
      ensures Valid() && HEAP0 + cnt < heap.Length
      ensures heap == old(heap) || fresh(heap)
    {
      heap := ArrayGrowth.NeedSize(heap, ANHE_SIZE, cnt + HEAP0 + 1, fill);
    }

    /** An entry is written behind the others. */
    method Append(w: Watcher, ghost r: seq<Entry>)
      requires Valid() && w !in members && HEAP0 + cnt < heap.Length && r == h + [Entry(w.at, w)]
      modifies this`cnt, this`h, this`members, heap, w`active
      ensures cnt == old(cnt) + 1 && h == r && members == old(members) + {w}
      ensures w.active == cnt + HEAP0 - 1 && ValidBut(cnt - 1)
    {
      cnt := cnt + 1;
      w.active := cnt + HEAP0 - 1;
      heap[w.active] := Entry(w.at, w);
      h, members := r, members + {w};
    }

    /** There is room: the new entry is moved up to its place. */
    method Enter(w: Watcher)
      requires Valid() && w !in members && HEAP0 + cnt < heap.Length
      modifies this`cnt, this`h, this`members, heap, members`active, w`active
      ensures Valid() && members == old(members) + {w}
    {
      ghost var r := h + [Entry(w.at, w)];
      AppendedOrderedUpTo(h, Entry(w.at, w));
      Append(w, r);
      h := Upheap(heap, w.active, cnt, members, h);
    }

    /** A watcher that is not in the heap enters it at its time. */
    method Insert(w: Watcher)
      requires Valid() && w !in members
      modifies this, heap, members`active, w`active
      ensures Valid() && members == old(members) + {w}
      ensures heap == old(heap) || fresh(heap)
    {
      Grow(Entry(w.at, w));
      Enter(w);
    }

    /** The last entry is taken out of the heap's range and put at index `active`, over another one. */
    method MoveLast(active: nat)
      requires Valid() && HEAP0 <= active < HEAP0 + cnt - 1
      modifies this`cnt, this`h, this`members, heap
      ensures members == old(members) - {old(h[active - HEAP0].w)}
      ensures ValidBut(active - HEAP0) && OutAt(h, active - HEAP0)
    {
      ghost var r := h[..cnt - 1][active - HEAP0 := h[cnt - 1]];
      MovedOutAt(h, cnt, active - HEAP0, r);
      PutLast(active, r);
    }

    method PutLast(active: nat, ghost r: seq<Entry>)
      requires Shaped() && HEAP0 <= active < HEAP0 + cnt - 1
      requires r == h[..cnt - 1][active - HEAP0 := h[cnt - 1]]
      modifies this`cnt, this`h, this`members, heap
      ensures cnt == old(cnt) - 1 && h == r
      ensures members == old(members) - {old(h[active - HEAP0].w)} && ValidBut(active - HEAP0)
    {
      MovedDistinct(h, members, active - HEAP0);
      cnt := cnt - 1;
      heap[active] := heap[cnt + HEAP0];
      h, members := r, members - {h[active - HEAP0].w};
    }

    /** A member leaves the heap; the last entry takes its place and is moved where it belongs. */
    method Remove(w: Watcher)
      requires Valid() && w in members
      modifies this`cnt, this`h, this`members, heap, members`active
      ensures Valid() && members == old(members) - {w}
    {
      BackIndex(w);
      var active := w.active;
      if active < cnt - 1 + HEAP0 {
        MoveLast(active);
        h := AdjustHeap(heap, cnt, active, members, h);
      } else {
        DropLast();
      }
    }

    method DropLast()
      requires Valid() && 0 < cnt
      modifies this`cnt, this`h, this`members
      ensures Valid() && members == old(members) - {old(h[cnt - 1].w)}
    {
      cnt := cnt - 1;
      ShortenedOrdered(h);
      h, members := h[..cnt], members - {h[cnt].w};
    }

    /** As Valid, but in any order. */
    ghost predicate Shaped()
      reads this, heap, members`active, members`at
    {
      Rearranged(heap, members, h) && |h| == cnt == |members|
    }

    /** The watcher of one entry gets a new time, and the entry caches it. */
    method SetTime(k: nat, t: real)
      requires Shaped() && HEAP0 <= k < HEAP0 + cnt
      modifies this`h, heap, h[k - HEAP0].w`at
      ensures Shaped() && h == old(h)[k - HEAP0 := Entry(t, old(h)[k - HEAP0].w)]
      ensures h[k - HEAP0].w.at == t
    {
      var w := heap[k].w;
      assert w == h[k - HEAP0].w;
      w.at := t;
      heap[k] := Entry(w.at, w);
      h := h[k - HEAP0 := Entry(t, w)];
    }

    /** A member gets a new time and moves to where that belongs. */
    method Retime(w: Watcher, t: real)
      requires Valid() && w in members
      modifies this`h, heap, w`at, members`active
      ensures Valid() && w.at == t
    {
      BackIndex(w);
      var k := w.active;
      ReplacedOutAt(h, k - HEAP0, Entry(t, w));
      SetTime(k, t);
      h := AdjustHeap(heap, cnt, k, members, h);
    }

    /** The root gets a new time and sinks to where that belongs. */
    method RetimeRoot(t: real)
      requires Valid() && 0 < cnt
      modifies this`h, heap, h[0].w`at, members`active
      ensures Valid() && old(h[0].w).at == t
    {
      RaisedRoot(h, Entry(t, h[0].w));
      SetTime(HEAP0, t);
      h := Downheap(heap, cnt, HEAP0, members, h);
    }

    /** After any change of times, the heap order is restored. */
    method Rebuild()
      requires Shaped()
      modifies this`h, heap, members`active
      ensures Valid()
    {
      h := Reheap(heap, cnt, members, h);
    }
  }

  /** With its last entry in the place of another, a heap has no entry for that one's watcher. */
  lemma MovedDistinct(h: seq<Entry>, ws: set<Watcher>, k: nat)
    requires Distinct(h, ws) && k < |h| - 1
    ensures Distinct(h[..|h| - 1][k := h[|h| - 1]], ws - {h[k].w}) && h[k].w in ws
  {
    var r := h[..|h| - 1][k := h[|h| - 1]];
    assert forall i :: 0 <= i < |r| ==> r[i] == h[if i == k then |h| - 1 else i];
  }

  /** A heap with as many entries as there are members has an entry for each. */
  lemma {:induction false} AllPresent(h: seq<Entry>, ws: set<Watcher>)
    requires Distinct(h, ws) && |h| == |ws|
    ensures forall w :: w in ws ==> exists i :: 0 <= i < |h| && h[i].w == w
  {
    var present := set i | 0 <= i < |h| :: h[i].w;
    PresentCount(h, ws);
    assert present <= ws;
    SubsetSize(present, ws);
  }

  lemma {:induction false} PresentCount(h: seq<Entry>, ws: set<Watcher>)
    requires Distinct(h, ws)
    ensures |set i | 0 <= i < |h| :: h[i].w| == |h|
  {
    if h != [] {
      var g := h[..|h| - 1];
      PresentCount(g, ws);
      assert (set i | 0 <= i < |h| :: h[i].w) == (set i | 0 <= i < |g| :: g[i].w) + {h[|h| - 1].w};
    }
  }

  lemma SubsetSize<T>(a: set<T>, b: set<T>)
    requires a <= b && |a| == |b|
    ensures a == b
  {
    assert b == a + (b - a);
  }
}
