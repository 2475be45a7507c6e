/** The singly-linked lists of active ev_io watchers, one for each descriptor. */
module FdLists {
  import opened Watchers

  /** What the watchers of a list are interested in, together. */
  ghost function Interest(l: seq<Watcher>): Mask
    reads (set w | w in l)`events
  {
    set w, e | w in l && e in w.events :: e
  }

  /** Its interest grows with the list. */
  lemma InterestNext(l: seq<Watcher>, i: nat)
    requires i < |l|
    ensures Interest(l[..i + 1]) == Interest(l[..i]) + l[i].events
  {
    assert l[..i + 1] == l[..i] + [l[i]];
  }

  /** The first element from i on, if there is one. */
  function At(l: seq<Watcher>, i: nat): Watcher? {
    if i < |l| then l[i] else null
  }

  /** The list with w's place in it closed. */
  function Without(l: seq<Watcher>, w: Watcher): seq<Watcher> {
    if l == [] then [] else if l[0] == w then l[1..] else [l[0]] + Without(l[1..], w)
  }

  lemma {:induction false} WithoutAt(l: seq<Watcher>, i: nat)
    requires i < |l| && l[i] !in l[..i]
    ensures Without(l, l[i]) == Closed(l, i)
  {
    if i != 0 {
      assert l[0] in l[..i];
      assert l[1..][..i - 1] == l[..i][1..];
      WithoutAt(l[1..], i - 1);
    }
  }

  /** The list with place i closed. */
  function Closed(l: seq<Watcher>, i: nat): (c: seq<Watcher>)
    requires i < |l|
    ensures |c| == |l| - 1
  {
    l[..i] + l[i + 1..]
  }

  /** What comes after element k when place i has been bypassed. */
  function NextPast(l: seq<Watcher>, i: nat, k: nat): Watcher? {
    At(l, if k + 1 == i then i + 1 else k + 1)
  }

  /** Where element j of the closed list comes from. */
  function Source(i: nat, j: nat): nat {
    if j < i then j else j + 1
  }

  lemma ClosedAt(l: seq<Watcher>, i: nat, j: nat)
    requires i < |l| && j < |l| - 1
    ensures Closed(l, i)[j] == l[Source(i, j)] && At(Closed(l, i), j + 1) == NextPast(l, i, Source(i, j))
  {
  }

  lemma ClosedDistinct(l: seq<Watcher>, i: nat)
    requires i < |l| && NoRepeats(l)
    ensures NoRepeats(Closed(l, i))
  {
  }

  /** The list loses exactly one element. */
  lemma ClosedHas(l: seq<Watcher>, i: nat, w: Watcher)
    requires i < |l| && NoRepeats(l)
    ensures w in Closed(l, i) <==> w in l && w != l[i]
  {
    if w in l && w != l[i] {
      var k :| 0 <= k < |l| && l[k] == w;
      assert Closed(l, i)[if k < i then k else k - 1] == w;
    }
  }

  class IoLists {
    var heads: seq<Watcher?>           // anfds [fd].head
    ghost var lists: seq<seq<Watcher>> // what hangs there, in order
    ghost const watchers: set<Watcher> // every ev_io

    /** An active watcher of descriptor fd, leading on to `next`. */
    ghost predicate LinkOk(w: Watcher, fd: nat, next: Watcher?)
      reads w`next, w`active
    {
      w in watchers && w.fd == fd && w.active == 1 && w.next == next
    }

    ghost predicate ListOk(fd: nat)
      requires fd < |lists|
      reads this, watchers`next, watchers`active
    {
      var l := lists[fd];
      && fd < |heads| && heads[fd] == At(l, 0)
      && (forall w :: w in l ==> w in watchers)
      && (forall i :: 0 <= i < |l| ==> LinkOk(l[i], fd, At(l, i + 1)))
      && NoRepeats(l)
    }

    ghost predicate Valid()
      reads this, watchers`next, watchers`active
    {
      && |heads| == |lists|
      && (forall fd :: 0 <= fd < |lists| ==> ListOk(fd))
      && (forall w :: w in watchers && w.active != 0 ==> w.fd < |lists| && w in lists[w.fd])
    }

    /** A stopped watcher is in no list. */
    lemma Unlisted(w: Watcher, fd: nat)
      requires Valid() && fd < |lists| && w.active == 0
      ensures w !in lists[fd]
    {
      assert ListOk(fd);
      var l := lists[fd];
      forall i | 0 <= i < |l| ensures l[i] != w {
        assert LinkOk(l[i], fd, At(l, i + 1));
      }
    }

    /** A list consists of watchers of its descriptor. */
    lemma Members(fd: nat)
      requires Valid() && fd < |lists|
      ensures ListOk(fd) && forall w :: w in lists[fd] ==> w in watchers && w.fd == fd
    {
      var l := lists[fd];
      assert ListOk(fd);
      forall i | 0 <= i < |l| ensures l[i].fd == fd {
        assert LinkOk(l[i], fd, At(l, i + 1));
      }
    }

    /** When a descriptor's list is empty none of its watchers is active. */
    lemma NoneActive(fd: nat)
      requires Valid() && fd < |lists| && lists[fd] == []
      ensures forall w :: w in watchers && w.fd == fd ==> w.active == 0
    {
    }

    /** A list is intact if neither its head nor any watcher of its descriptor has changed. */
    twostate lemma OtherOk(fd: nat)
      requires old(Valid()) && fd < old(|lists|) && fd < |lists| && fd < |heads|
      requires lists[fd] == old(lists)[fd] && heads[fd] == old(heads)[fd]
      requires forall w :: w in watchers && w.fd == fd ==> unchanged(w`next) && unchanged(w`active)
      ensures ListOk(fd)
    {
      assert old(ListOk(fd));
      var l := lists[fd];
      forall i | 0 <= i < |l| ensures LinkOk(l[i], fd, At(l, i + 1)) {
        assert old(LinkOk(l[i], fd, At(l, i + 1)));
      }
    }

    constructor (ghost watchers: set<Watcher>)
      requires forall w :: w in watchers ==> w.active == 0
      ensures Valid() && heads == [] && this.watchers == watchers
    {
      this.watchers := watchers;
      heads, lists := [], [];
    }

    /** New descriptors have empty lists. */
    method Grow(n: nat)
      requires Valid()
      modifies this
      ensures Valid() && |lists| == if n <= old(|lists|) then old(|lists|) else n
      ensures forall fd :: 0 <= fd < |lists| ==> lists[fd] == if fd < old(|lists|) then old(lists)[fd] else []
    {
      if |heads| < n {
        var more := n - |heads|;
        heads := heads + seq(more, _ => null);
        lists := lists + seq(more, _ => []);
        forall fd | 0 <= fd < |lists| ensures ListOk(fd) {
          if fd < old(|lists|) {
            OtherOk(fd);
          }
        }
      }
    }

    /** wlist_add: the watcher goes to the front of its descriptor's list. */
    method Add(w: Watcher)
      requires Valid() && w in watchers && w.active == 0 && w.fd < |lists|
      modifies this, w`next, w`active
      ensures Valid() && w.active == 1 && lists == old(lists)[w.fd := [w] + old(lists)[w.fd]]
    {
      assert ListOk(w.fd);
      w.next := heads[w.fd];
      heads := heads[w.fd := w];
      w.active := 1;
      ghost var was := lists;
      lists := lists[w.fd := [w] + lists[w.fd]];
      assert ListOk(w.fd) by {
        var l := lists[w.fd];
        forall i | 0 <= i < |l| ensures LinkOk(l[i], w.fd, At(l, i + 1)) {
          assert i == 0 || old(LinkOk(was[w.fd][i - 1], w.fd, At(was[w.fd], i)));
        }
      }
      assert forall fd :: 0 <= fd < |lists| ==> ListOk(fd) by {
        forall fd | 0 <= fd < |lists| && fd != w.fd ensures ListOk(fd) {
          OtherOk(fd);
        }
      }
    }

    /** wlist_del: the pointer that leads to the watcher is made to lead past it. */
    method Del(w: Watcher)
      requires Valid() && w in watchers && w.active != 0
      modifies this, watchers`next, w`active
      ensures Valid() && w.active == 0 && lists == old(lists)[w.fd := Without(old(lists)[w.fd], w)]
    {
      assert ListOk(w.fd);
      var prev, at := null, heads[w.fd];
      ghost var l, i := lists[w.fd], 0;
      while at != null && at != w
        invariant 0 <= i <= |l| && at == At(l, i) && prev == (if i == 0 then null else l[i - 1])
        invariant w !in l[..i]
        decreases |l| - i
      {
        assert LinkOk(l[i], w.fd, At(l, i + 1));
        prev, at := at, at.next;
        i := i + 1;
      }
      WithoutAt(l, i);
      Unlink(w, prev, i);
    }

    method Unlink(w: Watcher, prev: Watcher?, ghost i: nat)
      requires Valid() && w in watchers && w.active != 0
      requires w.fd < |lists| && i < |lists[w.fd]| && lists[w.fd][i] == w
      requires prev == if i == 0 then null else lists[w.fd][i - 1]
      modifies this, watchers`next, w`active
      ensures Valid() && w.active == 0
      ensures lists == old(lists)[w.fd := Closed(old(lists)[w.fd], i)]
    {
      ghost var l := lists[w.fd];
      Bypass(w, prev, i);
      lists := lists[w.fd := Closed(l, i)];
      ClosedOk(w.fd, l, i);
      forall fd | 0 <= fd < |lists| && fd != w.fd ensures ListOk(fd) {
        OtherOk(fd);
      }
      forall v | v in watchers && v.active != 0 ensures v.fd < |lists| && v in lists[v.fd] {
        ClosedHas(l, i, v);
      }
    }

    /** Element k leads past place i. */
    ghost predicate Bypassed(l: seq<Watcher>, fd: nat, i: nat, k: nat)
      requires k < |l|
      reads watchers`next, watchers`active
    {
      l[k] in watchers && LinkOk(l[k], fd, NextPast(l, i, k))
    }

    /** The link to the watcher is made to lead past it, and no other changes. */
    method Bypass(w: Watcher, prev: Watcher?, ghost i: nat)
      requires Valid() && w in watchers && w.active != 0
      requires w.fd < |lists| && i < |lists[w.fd]| && lists[w.fd][i] == w
      requires prev == if i == 0 then null else lists[w.fd][i - 1]
      modifies this`heads, watchers`next, w`active
      ensures w.active == 0 && forall v :: v in watchers && v.fd != w.fd ==> unchanged(v`next)
      ensures var l := lists[w.fd];
              && NoRepeats(l) && heads == old(heads)[w.fd := At(l, if i == 0 then 1 else 0)]
              && (forall k :: 0 <= k < |l| && k != i ==> Bypassed(l, w.fd, i, k))
    {
      assert ListOk(w.fd);
      ghost var l := lists[w.fd];
      assert LinkOk(l[i], w.fd, At(l, i + 1));
      if prev == null {
        heads := heads[w.fd := w.next];
      } else {
        prev.next := w.next;
      }
      w.active := 0;
      forall k | 0 <= k < |l| && k != i ensures Bypassed(l, w.fd, i, k) {
        assert old(LinkOk(l[k], w.fd, At(l, k + 1)));
      }
    }

    /** What is left of a list is linked up when its place i has been bypassed. */
    lemma ClosedOk(fd: nat, l: seq<Watcher>, i: nat)
      requires fd < |lists| && fd < |heads| && i < |l| && NoRepeats(l) && lists[fd] == Closed(l, i)
      requires heads[fd] == At(l, if i == 0 then 1 else 0)
      requires forall k :: 0 <= k < |l| && k != i ==> Bypassed(l, fd, i, k)
      ensures ListOk(fd)
    {
      ClosedDistinct(l, i);
      var c := lists[fd];
      forall j | 0 <= j < |c| ensures c[j] in watchers && LinkOk(c[j], fd, At(c, j + 1)) {
        ClosedAt(l, i, j);
        assert Bypassed(l, fd, i, Source(i, j));
      }
    }

    /** What fd_reify collects from a descriptor's watchers. */
    method Collect(fd: nat) returns (events: Mask)
      requires Valid() && fd < |lists|
      ensures events == Interest(lists[fd])
    {
      events := {};
      assert ListOk(fd);
      var w := heads[fd];
      ghost var l, i := lists[fd], 0;
      while w != null
        invariant 0 <= i <= |l| && w == At(l, i) && events == Interest(l[..i])
        decreases |l| - i
      {
        assert LinkOk(l[i], fd, At(l, i + 1));
        InterestNext(l, i);
        events := events + w.events;
        w := w.next;
        i := i + 1;
      }
      assert l[..i] == l;
    }
  }
}
