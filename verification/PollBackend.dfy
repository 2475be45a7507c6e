/** The poll backend's interest set: the dense array `polls`, and `pollidxs`, which leads into it. */
module PollBackend {
  import opened Watchers
  import ArrayGrowth

  const POLLFD_SIZE := 8
  const INT_SIZE := 4

  /** struct pollfd. POLLIN and POLLOUT stand for EV_READ and EV_WRITE one to one. */
  datatype PollFd = PollFd(fd: nat, events: Mask)

  class PollSet {
    var pollidxs: array<int>   // by descriptor: its index in polls, or -1
    var polls: array<PollFd>
    var pollcnt: nat

    ghost predicate Valid()
      reads this, pollidxs, polls
    {
      && pollcnt <= polls.Length
      && (forall fd :: 0 <= fd < pollidxs.Length && pollidxs[fd] != -1 ==>
            0 <= pollidxs[fd] < pollcnt && polls[pollidxs[fd]].fd == fd)
      && (forall i :: 0 <= i < pollcnt ==>
            polls[i].fd < pollidxs.Length && pollidxs[polls[i].fd] == i && polls[i].events != {})
    }

    /** The events that poll() is asked for on a descriptor. */
    ghost function MaskOf(fd: nat): Mask
      requires Valid()
      reads this, pollidxs, polls
    {
      if fd < pollidxs.Length && pollidxs[fd] != -1 then polls[pollidxs[fd]].events else {}
    }

    constructor ()
      ensures Valid() && forall fd: nat :: MaskOf(fd) == {}
      ensures fresh(pollidxs) && fresh(polls)
    {
      pollidxs := new int[0];
      polls := new PollFd[0];
      pollcnt := 0;
    }

    /** Makes pollidxs long enough for fd. */
    method Reach(fd: nat)
      requires Valid()
      modifies this`pollidxs
      ensures Valid() && fd < pollidxs.Length && forall g: nat :: MaskOf(g) == old(MaskOf(g))
      ensures pollidxs == old(pollidxs) || fresh(pollidxs)
    {
      pollidxs := ArrayGrowth.NeedSize(pollidxs, INT_SIZE, fd + 1, -1);
    }

    /** Puts a descriptor that has no entry at the end of polls. */
    method Add(fd: nat, events: Mask)
      requires Valid() && fd < pollidxs.Length && pollidxs[fd] == -1 && events != {}
      modifies this`polls, this`pollcnt, pollidxs, polls
      ensures Valid() && MaskOf(fd) == events && forall g: nat :: g != fd ==> MaskOf(g) == old(MaskOf(g))
      ensures polls == old(polls) || fresh(polls)
    {
      var idx := pollcnt;
      polls := ArrayGrowth.NeedSize(polls, POLLFD_SIZE, idx + 1, PollFd(fd, events));
      pollidxs[fd] := idx;
      pollcnt := pollcnt + 1;
      polls[idx] := PollFd(fd, events);
    }

    /** Takes a descriptor's entry out; the last entry fills the gap. */
    method Drop(fd: nat)
      requires Valid() && fd < pollidxs.Length && pollidxs[fd] != -1
      modifies this`pollcnt, pollidxs, polls
      ensures Valid() && MaskOf(fd) == {} && forall g: nat :: g != fd ==> MaskOf(g) == old(MaskOf(g))
    {
      var idx := pollidxs[fd];
      pollidxs[fd] := -1;
      pollcnt := pollcnt - 1;
      if idx < pollcnt {
        polls[idx] := polls[pollcnt];
        pollidxs[polls[idx].fd] := idx;
      }
    }

    /**
     * poll_modify: from then on exactly nev is asked for on fd, and the same as before on every other
     * descriptor. (poll_modify allocates a missing entry even to remove it again, but a descriptor
     * whose mask is taken away had one.)
     */
    method Modify(fd: nat, oev: Mask, nev: Mask)
      requires Valid() && oev == MaskOf(fd)
      modifies this, pollidxs, polls
      ensures Valid() && MaskOf(fd) == nev && forall g: nat :: g != fd ==> MaskOf(g) == old(MaskOf(g))
      ensures (pollidxs == old(pollidxs) || fresh(pollidxs)) && (polls == old(polls) || fresh(polls))
    {
      if oev == nev {
        return;
      }
      Reach(fd);
      var idx := pollidxs[fd];
      if nev == {} {
        Drop(fd);
      } else if idx < 0 {
        Add(fd, nev);
      } else {
        polls[idx] := PollFd(fd, nev);
      }
    }
  }

  datatype Revent = In | Out | Err | Hup | Nval

  /** What poll_poll does with one result. */
  datatype Report = Deliver(fd: nat, got: Mask) | Kill(fd: nat)

  /** POLLERR and POLLHUP make a descriptor both readable and writable, so that its watchers find out. */
  function ReportOf(fd: nat, revents: set<Revent>): (r: Report)
    ensures r.fd == fd && (r.Kill? <==> Nval in revents)
    ensures r.Deliver? ==> r.got <= {Read, Write}
    ensures r.Deliver? ==> (Read in r.got <==> In in revents || Err in revents || Hup in revents)
    ensures r.Deliver? ==> (Write in r.got <==> Out in revents || Err in revents || Hup in revents)
  {
    assert forall x :: x in revents * {Out, Err, Hup} <==> x in revents && (x == Out || x == Err || x == Hup);
    assert forall x :: x in revents * {In, Err, Hup} <==> x in revents && (x == In || x == Err || x == Hup);
    if Nval in revents then Kill(fd)
    else Deliver(fd, (if revents * {Out, Err, Hup} != {} then {Write} else {}) +
                     (if revents * {In, Err, Hup} != {} then {Read} else {}))
  }

  function Reports(fds: seq<nat>, revents: seq<set<Revent>>): seq<Report>
    requires |fds| == |revents|
  {
    if fds == [] then []
    else (if revents[0] != {} then [ReportOf(fds[0], revents[0])] else []) + Reports(fds[1..], revents[1..])
  }

  /** How many results are not empty, which is what poll() returns. */
  function Results(revents: seq<set<Revent>>): nat {
    if revents == [] then 0 else (if revents[0] != {} then 1 else 0) + Results(revents[1..])
  }

  /** How many there are of the results before index p. */
  function Before(revents: seq<set<Revent>>, p: nat): nat
    requires p <= |revents|
  {
    Results(revents[..p])
  }

  /** p is the entry of report i. */
  predicate Fills(revents: seq<set<Revent>>, p: nat, i: nat) {
    p < |revents| && revents[p] != {} && Before(revents, p) == i
  }

  /** Report i has an entry. */
  ghost predicate Filled(revents: seq<set<Revent>>, i: nat) {
    exists p: nat :: Fills(revents, p, i)
  }

  /** Each result that is not empty is reported, in the order of the entries, and nothing else is. */
  lemma {:induction false} EachReported(fds: seq<nat>, revents: seq<set<Revent>>)
    requires |fds| == |revents|
    ensures var r := Reports(fds, revents);
            && |r| == Results(revents)
            && (forall p :: 0 <= p < |revents| && revents[p] != {} ==>
                  Before(revents, p) < |r| && r[Before(revents, p)] == ReportOf(fds[p], revents[p]))
            && (forall i: nat :: i < |r| ==> Filled(revents, i))
  {
    if fds != [] {
      EachReported(fds[1..], revents[1..]);
      var first := if revents[0] != {} then 1 else 0;
      forall p | 0 < p < |revents| ensures Before(revents, p) == first + Before(revents[1..], p - 1) {
        assert revents[..p][1..] == revents[1..][..p - 1];
      }
      forall p | 0 <= p < |revents| && revents[p] != {}
        ensures Before(revents, p) < |Reports(fds, revents)|
        ensures Reports(fds, revents)[Before(revents, p)] == ReportOf(fds[p], revents[p])
      {
        assert p != 0 ==> revents[1..][p - 1] == revents[p] && fds[1..][p - 1] == fds[p];
      }
      forall i: nat | i < |Reports(fds, revents)| ensures Filled(revents, i) {
        if i < first {
          assert Fills(revents, 0, i);
        } else {
          assert Filled(revents[1..], i - first);
          var p: nat :| Fills(revents[1..], p, i - first);
          assert Fills(revents, p + 1, i);
        }
      }
    }
  }

  /** The scan of poll_poll stops when it has seen as many results as poll() announced, and misses none. */
  method Scan(fds: seq<nat>, revents: seq<set<Revent>>, res: nat) returns (reports: seq<Report>)
    requires |fds| == |revents| && res == Results(revents)
    ensures reports == Reports(fds, revents)
  {
    reports := [];
    var left, p := res, 0;
    while left != 0
      invariant p <= |fds| && left == Results(revents[p..])
      invariant reports + Reports(fds[p..], revents[p..]) == Reports(fds, revents)
      decreases |fds| - p
    {
      if revents[p] != {} {
        left := left - 1;
        reports := reports + [ReportOf(fds[p], revents[p])];
      }
      p := p + 1;
    }
    NoMoreResults(fds[p..], revents[p..]);
  }

  lemma {:induction false} NoMoreResults(fds: seq<nat>, revents: seq<set<Revent>>)
    requires |fds| == |revents| && Results(revents) == 0
    ensures Reports(fds, revents) == []
  {
    if fds != [] {
      NoMoreResults(fds[1..], revents[1..]);
    }
  }
}
