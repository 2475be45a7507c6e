/** The descriptor table of ev.c: watcher lists, pending changes, and their transfer to the backend. */
module FdTable {
  import opened Watchers
  import opened PendingSpec
  import opened PendingQueues
  import PendingLaws
  import opened FdLists
  import opened Backends
  import ArrayGrowth

  const ANFD_SIZE := 16

  /** EV_ANFD_REIFY and EV__IOFDSET. */
  datatype Flag = Reify | Fdset

  /** The rest of an ANFD. */
  datatype Anfd = Anfd(events: Mask, reify: set<Flag>)

  function Flags(fdset: bool): (r: set<Flag>)
    ensures Reify in r && (Fdset in r <==> fdset)
  {
    if fdset then {Reify, Fdset} else {Reify}
  }

  /** The entries still to be processed are the descriptors with flags, each once. */
  predicate Queued(slots: seq<Anfd>, todo: seq<nat>) {
    && (forall i :: 0 <= i < |todo| ==> todo[i] < |slots| && slots[todo[i]].reify != {})
    && (forall i, j :: 0 <= i < j < |todo| ==> todo[i] != todo[j])
    && (forall fd :: 0 <= fd < |slots| && slots[fd].reify != {} ==> fd in todo)
  }

  /** What killing the watchers of a list does to the pending queues. */
  function FedError(qs: Queues, l: seq<Watcher>, dummy: Watcher): Queues
    decreases |l|
  {
    if l == [] then qs
    else FedError(Feed(Clear(qs, l[0], dummy), l[0], {Error, Read, Write}), l[1..], dummy)
  }

  /** Each of the watchers killed has an error and both directions pending; nothing changes for others. */
  lemma {:induction false} FedErrorTells(qs: Queues, l: seq<Watcher>, dummy: Watcher, w: Watcher)
    requires forall v :: v in l ==> v.priority < |qs|
    requires w != dummy
    ensures var fed := EventsFor(FedError(qs, l, dummy), w);
            if w in l then {Error, Read, Write} <= fed else fed == EventsFor(qs, w)
    decreases |l|
  {
    if l != [] {
      var c := Clear(qs, l[0], dummy);
      var fed := Feed(c, l[0], {Error, Read, Write});
      PendingLaws.FeedExactly(c, l[0], {Error, Read, Write}, w);
      if w != l[0] {
        PendingLaws.ClearOther(qs, l[0], dummy, w);
      } else {
        FedErrorKeeps(fed, l[1..], dummy, w);
      }
      FedErrorTells(fed, l[1..], dummy, w);
    }
  }

  /** Killing more watchers takes the error from none. */
  lemma {:induction false} FedErrorKeeps(qs: Queues, l: seq<Watcher>, dummy: Watcher, w: Watcher)
    requires forall v :: v in l ==> v.priority < |qs|
    requires w != dummy && {Error, Read, Write} <= EventsFor(qs, w)
    ensures {Error, Read, Write} <= EventsFor(FedError(qs, l, dummy), w)
    decreases |l|
  {
    if l != [] {
      var c := Clear(qs, l[0], dummy);
      PendingLaws.FeedExactly(c, l[0], {Error, Read, Write}, w);
      if w != l[0] {
        PendingLaws.ClearOther(qs, l[0], dummy, w);
      }
      FedErrorKeeps(Feed(c, l[0], {Error, Read, Write}), l[1..], dummy, w);
    }
  }

  /** Killing other watchers does not name w. */
  lemma {:induction false} FedErrorUnnamed(qs: Queues, l: seq<Watcher>, dummy: Watcher, w: Watcher)
    requires PendingLaws.Unnamed(qs, w) && w !in l && w != dummy
    ensures PendingLaws.Unnamed(FedError(qs, l, dummy), w)
    decreases |l|
  {
    if l != [] {
      FedErrorUnnamed(Feed(Clear(qs, l[0], dummy), l[0], {Error, Read, Write}), l[1..], dummy, w);
    }
  }

  ghost function Notified(qs: Queues, w: Watcher, revents: Mask): Queues
    reads w`events
  {
    var ev := w.events * revents;
    if ev != {} then Feed(qs, w, ev) else qs
  }

  /** Each watcher of the list gets those of the events that it waits for. */
  ghost function Delivered(qs: Queues, l: seq<Watcher>, revents: Mask): Queues
    reads (set w | w in l)`events
    decreases |l|
  {
    if l == [] then qs else Delivered(Notified(qs, l[0], revents), l[1..], revents)
  }

  /** A watcher is told exactly of the events it waits for, besides what was pending for it already. */
  lemma {:induction false} DeliveredTells(qs: Queues, l: seq<Watcher>, revents: Mask, w: Watcher, e: Event)
    requires forall v :: v in l ==> v.priority < |qs|
    ensures e in EventsFor(Delivered(qs, l, revents), w) <==>
            e in EventsFor(qs, w) || (w in l && e in w.events * revents)
    decreases |l|
  {
    if l != [] {
      var ev := l[0].events * revents;
      if ev != {} {
        PendingLaws.FeedExactly(qs, l[0], ev, w);
      }
      DeliveredTells(Notified(qs, l[0], revents), l[1..], revents, w, e);
    }
  }

  lemma {:induction false} DeliveredSize(qs: Queues, l: seq<Watcher>, revents: Mask)
    ensures |Delivered(qs, l, revents)| == |qs|
    decreases |l|
  {
    if l != [] {
      DeliveredSize(Notified(qs, l[0], revents), l[1..], revents);
    }
  }

  /** Events for other watchers do not name w. */
  lemma {:induction false} DeliveredUnnamed(qs: Queues, l: seq<Watcher>, revents: Mask, w: Watcher)
    requires PendingLaws.Unnamed(qs, w) && w !in l
    ensures PendingLaws.Unnamed(Delivered(qs, l, revents), w)
    decreases |l|
  {
    if l != [] {
      DeliveredUnnamed(Notified(qs, l[0], revents), l[1..], revents, w);
    }
  }

  class Table {
    const queue: Pending
    const lists: IoLists
    const backend: Backend
    var slots: seq<Anfd>
    var fdchanges: seq<nat>

    /** A descriptor that is not queued for change is recorded with the interest of its watchers. */
    ghost predicate Current(fd: nat)
      requires fd < |slots| && fd < |lists.lists|
      reads this`slots, lists`lists, lists.watchers`events
    {
      && (forall w :: w in lists.lists[fd] ==> w in lists.watchers)
      && (slots[fd].reify == {} ==> slots[fd].events == Interest(lists.lists[fd]))
    }

    /** The table, its lists and the changes that remain when `done` of them have been processed. */
    ghost predicate Sound(done: nat)
      reads this, lists, lists.watchers`next, lists.watchers`active, lists.watchers`events
    {
      && done <= |fdchanges| && Queued(slots, fdchanges[done..])
      && lists.Valid() && |slots| == |lists.lists|
      && (forall w :: w in lists.watchers && w.active != 0 ==> w.events <= RW)
      && (forall fd :: 0 <= fd < |slots| ==> slots[fd].events <= RW)
      && (forall fd :: 0 <= fd < |slots| ==> Current(fd))
    }

    /** The watchers all belong to the loop whose pending queues these are. */
    ghost predicate QueueOk()
      reads queue`queues, queue.watchers`pending, queue.dummy`pending
    {
      queue.Valid() && lists.watchers <= queue.watchers
    }

    constructor (queue: Pending, lists: IoLists, backend: Backend)
      requires queue.Valid() && lists.Valid() && lists.watchers <= queue.watchers
      requires lists.lists == [] && backend.Size() == 0 && forall w :: w in lists.watchers ==> w.active == 0
      ensures Sound(0) && QueueOk() && slots == [] && fdchanges == []
      ensures this.queue == queue && this.lists == lists && this.backend == backend
    {
      this.queue, this.lists, this.backend := queue, lists, backend;
      slots, fdchanges := [], [];
    }

    /** fd_change: EV_ANFD_REIFY, perhaps EV__IOFDSET too, is added, and the descriptor is queued if it had no flags. */
    method FdChange(fd: nat, fdset: bool, ghost done: nat)
      requires fd < |slots| && done <= |fdchanges| && Queued(slots, fdchanges[done..])
      modifies this`slots, this`fdchanges
      ensures slots == old(slots)[fd := Anfd(old(slots)[fd].events, old(slots)[fd].reify + Flags(fdset))]
      ensures old(fdchanges) <= fdchanges && Queued(slots, fdchanges[done..])
    {
      var reify := slots[fd].reify;
      slots := slots[fd := Anfd(slots[fd].events, reify + Flags(fdset))];
      if reify == {} {
        fdchanges := fdchanges + [fd];
        assert fdchanges[done..] == old(fdchanges)[done..] + [fd];
      }
    }

    /** ev_io_stop */
    method IoStop(w: Watcher, ghost done: nat)
      requires Sound(done) && QueueOk() && w in lists.watchers
      modifies this`slots, this`fdchanges, lists, lists.watchers`next, w`active, w`pending, queue`queues
      ensures Sound(done) && QueueOk() && old(fdchanges) <= fdchanges
      ensures w.active == 0 && w.pending == 0 && queue.queues == Clear(old(queue.queues), w, queue.dummy)
      ensures old(w.active) == 0 ==> lists.lists == old(lists.lists) && slots == old(slots)
      ensures old(w.active) != 0 ==>
                var fd, l, s := w.fd, old(lists.lists), old(slots);
                && fd < |s| && w in l[fd] && lists.lists == l[fd := Without(l[fd], w)]
                && slots == s[fd := Anfd(s[fd].events, s[fd].reify + {Reify})]
    {
      var _ := queue.ClearPending(w);
      if w.active != 0 {
        Unlist(w, done);
      }
    }

    method Unlist(w: Watcher, ghost done: nat)
      requires Sound(done) && w in lists.watchers && w.active != 0
      modifies this`slots, this`fdchanges, lists, lists.watchers`next, w`active
      ensures Sound(done) && old(fdchanges) <= fdchanges && w.active == 0
      ensures var fd, l, s := w.fd, old(lists.lists), old(slots);
              && fd < |s| && w in l[fd] && lists.lists == l[fd := Without(l[fd], w)]
              && slots == s[fd := Anfd(s[fd].events, s[fd].reify + {Reify})]
    {
      assert lists.ListOk(w.fd);
      lists.Del(w);
      FdChange(w.fd, false, done);
      forall fd | 0 <= fd < |slots| ensures Current(fd) {
        assert lists.ListOk(fd) && old(Current(fd));
      }
    }

    /** What the backend is to ask for on a descriptor. */
    ghost function EventsOn(fd: nat): Mask
      reads this`slots
    {
      if fd < |slots| then slots[fd].events else {}
    }

    /** The backend asks for exactly the events recorded. */
    ghost predicate Synced(fd: nat)
      requires backend.poll.Valid()
      reads this`slots, backend.poll, backend.poll.pollidxs, backend.poll.polls
      reads backend.select, backend.epoll, backend.epoll.kernel
    {
      backend.Serves(fd, EventsOn(fd))
    }

    ghost predicate InSync()
      reads this`slots, backend.poll, backend.poll.pollidxs, backend.poll.polls, backend.select, backend.epoll
      reads backend.epoll.kernel
    {
      backend.Valid() && backend.Size() == |slots| && forall fd: nat :: Synced(fd)
    }

    /** Room for n descriptors; the new ones have no watchers and no events. */
    method Grow(n: nat)
      requires Sound(0) && InSync()
      modifies this`slots, lists, backend.epoll`slots
      ensures Sound(0) && InSync() && n <= |slots| && old(|slots|) <= |slots|
      ensures forall fd :: 0 <= fd < |slots| ==> slots[fd] == if fd < |old(slots)| then old(slots)[fd] else Anfd({}, {})
      ensures forall fd :: 0 <= fd < |slots| ==>
                lists.lists[fd] == if fd < |old(slots)| then old(lists.lists)[fd] else []
    {
      if |slots| < n {
        var size := ArrayGrowth.NextSize(ANFD_SIZE, |slots|, n);
        GrowTo(size);
      }
    }

    method GrowTo(n: nat)
      requires Sound(0) && InSync() && |slots| < n
      modifies this`slots, lists, backend.epoll`slots
      ensures Sound(0) && InSync() && |slots| == n
      ensures forall fd :: 0 <= fd < n ==> slots[fd] == if fd < |old(slots)| then old(slots)[fd] else Anfd({}, {})
      ensures forall fd :: 0 <= fd < n ==> lists.lists[fd] == if fd < |old(slots)| then old(lists.lists)[fd] else []
    {
      ghost var was := slots;
      slots := slots + seq(n - |slots|, _ => Anfd({}, {}));
      lists.Grow(n);
      backend.Grow(n);
      forall fd: nat ensures Synced(fd) && (fd < |slots| ==> Current(fd)) {
        assert old(Synced(fd)) && (fd < |was| ==> old(Current(fd)));
      }
    }

    /** ev_io_start. The FDSET bit goes from the watcher to the flags of the change. */
    method IoStart(w: Watcher)
      requires Sound(0) && InSync() && w in lists.watchers
      requires w.events <= RW + {FdSet}
      modifies this`slots, this`fdchanges, lists, w`next, w`active, w`events, backend.epoll`slots
      ensures Sound(0) && InSync() && w.active != 0 && |slots| >= old(|slots|)
      ensures old(w.active) != 0 ==> w.events == old(w.events) && lists.lists == old(lists.lists) && slots == old(slots)
      ensures old(w.active) == 0 ==>
                var s := if w.fd < |old(slots)| then old(slots)[w.fd] else Anfd({}, {});
                && w.fd < |slots| && w.events == old(w.events) - {FdSet}
                && slots[w.fd] == Anfd(s.events, s.reify + Flags(FdSet in old(w.events)))
                && lists.lists[w.fd] == [w] + if w.fd < |old(slots)| then old(lists.lists)[w.fd] else []
      ensures forall fd :: 0 <= fd < |slots| && fd != w.fd ==>
                if fd < |old(slots)| then slots[fd] == old(slots)[fd] && lists.lists[fd] == old(lists.lists)[fd]
                else slots[fd] == Anfd({}, {}) && lists.lists[fd] == []
    {
      if w.active == 0 {
        Grow(w.fd + 1);
        label L:
        Enlist(w);
        forall fd: nat ensures Synced(fd) {
          assert old@L(Synced(fd));
        }
      }
    }

    method Enlist(w: Watcher)
      requires Sound(0) && w in lists.watchers && w.active == 0 && w.fd < |slots|
      requires w.events <= RW + {FdSet}
      modifies this`slots, this`fdchanges, lists, w`next, w`active, w`events
      ensures Sound(0) && w.active != 0 && w.events == old(w.events) - {FdSet}
      ensures lists.lists == old(lists.lists)[w.fd := [w] + old(lists.lists)[w.fd]]
      ensures var s, more := old(slots)[w.fd], Flags(FdSet in old(w.events));
              slots == old(slots)[w.fd := Anfd(s.events, s.reify + more)]
    {
      ghost var ll := lists.lists;
      forall fd | 0 <= fd < |ll| ensures w !in ll[fd] {
        lists.Unlisted(w, fd);
      }
      EnlistAsIs(w);
      w.events := w.events - {FdSet};
      forall fd | 0 <= fd < |slots| ensures Current(fd) {
        assert old(Current(fd));
      }
    }

    /** The watcher is listed and its descriptor queued. */
    method EnlistAsIs(w: Watcher)
      requires lists.Valid() && |slots| == |lists.lists| && Queued(slots, fdchanges[0..])
      requires w in lists.watchers && w.active == 0 && w.fd < |slots|
      modifies this`slots, this`fdchanges, lists, w`next, w`active
      ensures lists.Valid() && |slots| == |lists.lists| && Queued(slots, fdchanges[0..]) && w.active != 0
      ensures lists.lists == old(lists.lists)[w.fd := [w] + old(lists.lists)[w.fd]]
      ensures var s, more := old(slots)[w.fd], Flags(FdSet in w.events);
              slots == old(slots)[w.fd := Anfd(s.events, s.reify + more)]
    {
      lists.Add(w);
      FdChange(w.fd, w.events * {FdSet} != {}, 0);
    }

    /** fd_kill: every watcher of the descriptor is stopped and told of an error. */
    method FdKill(fd: nat, ghost done: nat)
      requires Sound(done) && QueueOk() && fd < |slots|
      modifies this`slots, this`fdchanges, lists, lists.watchers`next, lists.watchers`active
      modifies queue`queues, queue`pendingpri, queue.watchers`pending
      ensures Sound(done) && QueueOk() && old(fdchanges) <= fdchanges
      ensures lists.lists == old(lists.lists)[fd := []]
      ensures forall w :: w in old(lists.lists)[fd] ==> w.active == 0
      ensures queue.queues == FedError(old(queue.queues), old(lists.lists)[fd], queue.dummy)
      ensures if old(lists.lists)[fd] == [] then slots == old(slots)
              else slots == old(slots)[fd := Anfd(old(slots)[fd].events, old(slots)[fd].reify + {Reify})]
    {
      ghost var ll, l, s, qs := lists.lists, lists.lists[fd], slots, queue.queues;
      ghost var i, killed := 0, s[fd := Anfd(s[fd].events, s[fd].reify + {Reify})];
      lists.Members(fd);
      while lists.heads[fd] != null
        invariant 0 <= i <= |l| && lists.lists == ll[fd := l[i..]]
        invariant Sound(done) && QueueOk() && old(fdchanges) <= fdchanges
        invariant fd < |lists.heads| && lists.heads[fd] == FdLists.At(l[i..], 0)
        invariant FedError(queue.queues, l[i..], queue.dummy) == FedError(qs, l, queue.dummy)
        invariant slots == if i == 0 then s else killed
        decreases |l| - i
      {
        KillFirst(fd, done);
        i := i + 1;
      }
      lists.NoneActive(fd);
    }

    /** The first watcher of a list is stopped and told of an error. */
    method KillFirst(fd: nat, ghost done: nat)
      requires Sound(done) && QueueOk() && fd < |slots| && fd < |lists.heads|
      requires lists.heads[fd] != null
      modifies this`slots, this`fdchanges, lists, lists.watchers`next, lists.watchers`active
      modifies queue`queues, queue`pendingpri, queue.watchers`pending
      ensures Sound(done) && QueueOk() && old(fdchanges) <= fdchanges
      ensures var l := old(lists.lists)[fd];
              && l != [] && lists.lists == old(lists.lists)[fd := l[1..]]
              && |lists.heads| == |lists.lists| && lists.heads[fd] == FdLists.At(l[1..], 0)
              && queue.queues == Feed(Clear(old(queue.queues), l[0], queue.dummy), l[0], {Error, Read, Write})
      ensures var s := old(slots)[fd]; slots == old(slots)[fd := Anfd(s.events, s.reify + {Reify})]
    {
      assert lists.ListOk(fd);
      var w := lists.heads[fd];
      assert lists.LinkOk(w, fd, FdLists.At(lists.lists[fd], 1));
      IoStop(w, done);
      assert lists.ListOk(fd);
      queue.FeedEvent(w, {Error, Read, Write});
    }

    /** Active watchers wait for nothing but reading and writing. */
    lemma InterestOk(fd: nat, done: nat)
      requires Sound(done) && fd < |slots|
      ensures Interest(lists.lists[fd]) <= RW
    {
      assert lists.ListOk(fd);
      var l := lists.lists[fd];
      forall w | w in l ensures w.events <= RW {
        var i :| 0 <= i < |l| && l[i] == w;
        assert lists.LinkOk(w, fd, FdLists.At(l, i + 1));
      }
    }

    /**
     * A descriptor whose watchers have all been stopped because epoll could not use it. It will be processed once
     * more.
     */
    ghost predicate Dead(fd: nat)
      reads this`slots, lists`lists
    {
      fd < |slots| && fd < |lists.lists| && slots[fd].reify != {} && lists.lists[fd] == [] && backend.kind == Epoll
    }

    /** In sync but for such descriptors. */
    ghost predicate Settling()
      reads this`slots, lists`lists, backend.poll, backend.poll.pollidxs, backend.poll.polls, backend.select
      reads backend.epoll, backend.epoll.kernel
    {
      backend.Valid() && backend.Size() == |slots| && forall fd: nat :: Synced(fd) || Dead(fd)
    }

    /**
     * Compared with the lists ll: a list is complete, or epoll refused its descriptor and its watchers have been
     * told.
     */
    ghost predicate Told(ll: seq<seq<Watcher>>)
      reads lists`lists, queue`queues, backend.epoll.kernel`refused
    {
      && |lists.lists| == |ll|
      && forall fd :: 0 <= fd < |ll| ==>
           && (forall w :: w in ll[fd] ==> w in lists.watchers)
           && (|| lists.lists[fd] == ll[fd]
               || (backend.kind == Epoll && backend.Refused(fd) && lists.lists[fd] == [] &&
                   forall w :: w in ll[fd] ==> {Error, Read, Write} <= EventsFor(queue.queues, w)))
    }

    /** A descriptor has been reopened, or its interest has changed, and this is still to be transferred. */
    ghost predicate Untransferred(fd: nat)
      requires fd < |slots| && fd < |lists.lists|
      reads this`slots, lists`lists, lists.watchers`events
    {
      (forall w :: w in lists.lists[fd] ==> w in lists.watchers) &&
      (Fdset in slots[fd].reify || slots[fd].events != Interest(lists.lists[fd]))
    }

    /** With epoll, those of `fds` in which there is interest are registered anew, or are still to be. */
    ghost predicate Rearmed(fds: set<nat>)
      reads this`slots, lists`lists, lists.watchers`events, backend.epoll, backend.epoll.kernel
    {
      backend.kind == Epoll ==>
        forall fd :: fd in fds ==>
          && fd < |slots| && fd < |lists.lists| && (forall w :: w in lists.lists[fd] ==> w in lists.watchers)
          && (|| Untransferred(fd) || Interest(lists.lists[fd]) == {}
              || backend.epoll.Armed(fd, Interest(lists.lists[fd])))
    }

    /** The descriptors that have watchers. */
    ghost function Watched(): set<nat>
      reads lists`lists
    {
      set fd | 0 <= fd < |lists.lists| && lists.lists[fd] != []
    }

    /** Settling, but for descriptor fd. */
    ghost predicate SettlingBut(fd: nat)
      reads this`slots, lists`lists, backend.poll, backend.poll.pollidxs, backend.poll.polls, backend.select
      reads backend.epoll, backend.epoll.kernel
    {
      backend.Valid() && backend.Size() == |slots| && forall g: nat :: g != fd ==> Synced(g) || Dead(g)
    }

    /**
     * One entry of fd_reify: the events are computed anew, and handed to the backend if they differ or the descriptor
     * does.
     */
    method ReifyNext(done: nat, ghost ll: seq<seq<Watcher>>, ghost fds: set<nat>)
      requires Sound(done) && QueueOk() && Settling() && done < |fdchanges| && Told(ll) && Rearmed(fds)
      modifies this`slots, this`fdchanges, lists, lists.watchers`next, lists.watchers`active
      modifies queue`queues, queue`pendingpri, queue.watchers`pending, backend.poll, backend.poll.pollidxs
      modifies backend.poll.polls, backend.select, backend.epoll, backend.epoll.kernel
      ensures Sound(done + 1) && QueueOk() && Settling() && backend.Kept()
      ensures Told(ll) && Rearmed(fds)
      ensures Watched() < old(Watched()) || (Watched() == old(Watched()) && fdchanges == old(fdchanges))
    {
      var fd, o_events, transfer := Recompute(done, fds);
      if transfer {
        TransferOrKill(fd, o_events, done + 1, ll, fds);
      }
    }

    /** backend_modify, and fd_kill when the backend cannot use the descriptor. */
    method TransferOrKill(fd: nat, o_events: Mask, ghost done: nat, ghost ll: seq<seq<Watcher>>, ghost fds: set<nat>)
      requires Sound(done) && QueueOk() && fd < |slots| && slots[fd].reify == {} && SettlingBut(fd) && Told(ll)
      requires Rearmed(fds - {fd})
      requires backend.kind != Epoll ==> backend.Serves(fd, o_events)
      modifies this`slots, this`fdchanges, lists, lists.watchers`next, lists.watchers`active
      modifies queue`queues, queue`pendingpri, queue.watchers`pending
      modifies backend.poll, backend.poll.pollidxs, backend.poll.polls, backend.select, backend.epoll
      modifies backend.epoll.kernel
      ensures Sound(done) && QueueOk() && Settling() && backend.Kept()
      ensures Told(ll) && Rearmed(fds)
      ensures Watched() < old(Watched()) || (Watched() == old(Watched()) && fdchanges == old(fdchanges))
    {
      var kill := Transfer(fd, o_events, done, ll, fds);
      KillIf(kill, fd, done, ll, fds);
    }

    /**
     * The next entry's descriptor gets the events of its watchers, and no flags. They are to be transferred if they
     * differ or the descriptor does.
     */
    method Recompute(done: nat, ghost fds: set<nat>) returns (fd: nat, o_events: Mask, transfer: bool)
      requires Sound(done) && Settling() && done < |fdchanges| && Rearmed(fds)
      modifies this`slots
      ensures Sound(done + 1) && fd == fdchanges[done] < |slots| && slots[fd].reify == {}
      ensures transfer <==> o_events != slots[fd].events || Fdset in old(slots[fd].reify)
      ensures SettlingBut(fd) && o_events == old(slots[fd].events)
      ensures backend.kind != Epoll ==> backend.Serves(fd, o_events)
      ensures !transfer ==> Settling()
      ensures Rearmed(if transfer then fds - {fd} else fds)
    {
      fd, o_events, transfer := RecomputeNext(done);
      assert fd in fds && !transfer ==> !old(Untransferred(fdchanges[done]));
    }

    method RecomputeNext(done: nat) returns (fd: nat, o_events: Mask, transfer: bool)
      requires Sound(done) && Settling() && done < |fdchanges|
      modifies this`slots
      ensures Sound(done + 1) && fd == fdchanges[done] < |slots|
      ensures slots == old(slots)[fd := Anfd(Interest(lists.lists[fd]), {})]
      ensures transfer <==> o_events != slots[fd].events || Fdset in old(slots[fd].reify)
      ensures SettlingBut(fd) && o_events == old(slots[fd].events)
      ensures backend.kind != Epoll ==> backend.Serves(fd, o_events)
      ensures !transfer ==> Settling()
    {
      fd := fdchanges[done];
      assert fdchanges[done..][0] == fd && fdchanges[done..][1..] == fdchanges[done + 1..];
      var o_reify;
      o_events, o_reify := slots[fd].events, slots[fd].reify;
      InterestOk(fd, done);
      var events := lists.Collect(fd);
      assert Current(fd) && (Synced(fd) || Dead(fd));
      slots := slots[fd := Anfd(events, {})];
      forall g | 0 <= g < |slots| ensures Current(g) {
        assert old(Current(g));
      }
      forall g: nat | g != fd ensures Synced(g) || Dead(g) {
        assert old(Synced(g)) || old(Dead(g));
      }
      if o_events != events {
        o_reify := {Fdset};
      }
      transfer := Fdset in o_reify;
      assert !transfer ==> Synced(fd);
    }

    /** backend_modify for one entry. */
    method Transfer(fd: nat, o_events: Mask, ghost done: nat, ghost ll: seq<seq<Watcher>>, ghost fds: set<nat>)
      returns (kill: bool)
      requires Sound(done) && QueueOk() && fd < |slots| && slots[fd].reify == {} && SettlingBut(fd) && Told(ll)
      requires Rearmed(fds - {fd})
      requires backend.kind != Epoll ==> backend.Serves(fd, o_events)
      modifies backend.poll, backend.poll.pollidxs, backend.poll.polls, backend.select, backend.epoll
      modifies backend.epoll.kernel
      ensures Sound(done) && QueueOk() && backend.Kept()
      ensures if kill then SettlingBut(fd) && backend.kind == Epoll && slots[fd].events != {} && backend.Refused(fd)
              else Settling()
      ensures Told(ll) && Rearmed(if kill then fds - {fd} else fds)
    {
      assert Current(fd);
      kill := backend.Modify(fd, o_events, slots[fd].events);
      forall g: nat | g != fd ensures Synced(g) || Dead(g) {
        assert old(Synced(g)) || old(Dead(g));
      }
      assert kill || Synced(fd);
      assert Rearmed(fds - {fd}) by {
        if backend.kind == Epoll {
          forall g | g in fds - {fd}
            ensures Untransferred(g) || Interest(lists.lists[g]) == {}
                    || backend.epoll.Armed(g, Interest(lists.lists[g]))
          {
            assert old(Untransferred(g)) || old(backend.epoll.Armed(g, Interest(lists.lists[g])))
                   || old(Interest(lists.lists[g])) == {};
          }
        }
      }
      assert slots[fd].events == Interest(lists.lists[fd]);
      assert forall g :: g in fds ==> g == fd || g in fds - {fd};
    }

    /** fd_kill, if the backend cannot use the descriptor. */
    method KillIf(kill: bool, fd: nat, ghost done: nat, ghost ll: seq<seq<Watcher>>, ghost fds: set<nat>)
      requires Sound(done) && QueueOk() && fd < |slots| && slots[fd].reify == {} && Told(ll)
      requires Rearmed(if kill then fds - {fd} else fds)
      requires if kill then SettlingBut(fd) && backend.kind == Epoll && slots[fd].events != {} && backend.Refused(fd)
               else Settling()
      modifies this`slots, this`fdchanges, lists, lists.watchers`next, lists.watchers`active
      modifies queue`queues, queue`pendingpri, queue.watchers`pending
      ensures Sound(done) && QueueOk() && Settling() && Told(ll) && Rearmed(fds)
      ensures Watched() < old(Watched()) || (Watched() == old(Watched()) && fdchanges == old(fdchanges))
    {
      if kill {
        KillUnusable(fd, done, ll);
        assert Rearmed(fds) by {
          assert Interest(lists.lists[fd]) == {};
        }
      }
    }

    method KillUnusable(fd: nat, ghost done: nat, ghost ll: seq<seq<Watcher>>)
      requires Sound(done) && QueueOk() && fd < |slots| && slots[fd].reify == {} && SettlingBut(fd) && Told(ll)
      requires backend.kind == Epoll && slots[fd].events != {} && backend.Refused(fd)
      modifies this`slots, this`fdchanges, lists, lists.watchers`next, lists.watchers`active
      modifies queue`queues, queue`pendingpri, queue.watchers`pending
      ensures Sound(done) && QueueOk() && Settling() && old(fdchanges) <= fdchanges && Told(ll)
      ensures lists.lists == old(lists.lists)[fd := []]
      ensures |slots| == |old(slots)| && forall g :: 0 <= g < |slots| && g != fd ==> slots[g] == old(slots)[g]
      ensures Watched() < old(Watched())
    {
      assert Current(fd);
      ghost var l, qs := lists.lists[fd], queue.queues;
      FdKill(fd, done);
      forall g: nat ensures Synced(g) || Dead(g) {
        assert g != fd ==> old(Synced(g)) || old(Dead(g));
      }
      forall g, w | 0 <= g < |ll| && w in ll[g] && (g == fd || {Error, Read, Write} <= EventsFor(qs, w))
        ensures {Error, Read, Write} <= EventsFor(queue.queues, w)
      {
        FedErrorTells(qs, l, queue.dummy, w);
      }
      assert fd in old(Watched()) && fd !in Watched();
    }

    /**
     * fd_reify, which goes on while killed descriptors are added to the changes. Afterwards there is
     * nothing left to change, every descriptor is recorded with exactly the interest of its watchers,
     * and the backend asks for exactly that; a list is complete, or all of its watchers have been told
     * that epoll cannot use the descriptor. With epoll, a descriptor that has been reopened (EV__IOFDSET), or
     * whose interest has changed, is registered anew, even if the kernel had lost it.
     */
    method FdReify()
      requires Sound(0) && QueueOk() && InSync()
      modifies this`slots, this`fdchanges, lists, lists.watchers`next, lists.watchers`active
      modifies queue`queues, queue`pendingpri, queue.watchers`pending
      modifies backend.poll, backend.poll.pollidxs, backend.poll.polls, backend.select, backend.epoll
      modifies backend.epoll.kernel
      ensures Sound(0) && QueueOk() && InSync() && backend.Kept() && fdchanges == []
      ensures |slots| == |old(slots)| == |lists.lists| == |old(lists.lists)|
      ensures forall fd :: 0 <= fd < |slots| ==> slots[fd] == Anfd(Interest(lists.lists[fd]), {})
      ensures forall fd, e :: 0 <= fd < |slots| ==>
                (e in slots[fd].events <==> exists w :: w in lists.lists[fd] && e in w.events)
      ensures Told(old(lists.lists))
      ensures backend.kind == Epoll ==>
                forall fd :: 0 <= fd < |slots| && slots[fd].events != {} && Fdset in old(slots)[fd].reify ==>
                  backend.epoll.Armed(fd, slots[fd].events)
      ensures backend.kind == Epoll ==>
                forall fd :: 0 <= fd < |slots| && old(slots[fd].events != Interest(lists.lists[fd])) ==>
                  slots[fd].events == {} || backend.epoll.Armed(fd, slots[fd].events)
    {
      ghost var fds := ToTransfer();
      ToldAtFirst();
      ReifyAll(lists.lists, fds);
      Settled();
      fdchanges := [];
    }

    /** The descriptors that fd_reify has to hand to the backend. */
    ghost function ToTransfer(): (r: set<nat>)
      requires Sound(0)
      reads this, lists, lists.watchers`next, lists.watchers`active, lists.watchers`events
      reads backend.epoll, backend.epoll.kernel
      ensures Rearmed(r)
      ensures forall fd :: fd in r <==> 0 <= fd < |slots| && Untransferred(fd)
    {
      set fd | 0 <= fd < |slots| && Untransferred(fd)
    }

    method ReifyAll(ghost ll: seq<seq<Watcher>>, ghost fds: set<nat>)
      requires Sound(0) && QueueOk() && Settling() && Told(ll) && Rearmed(fds)
      modifies this`slots, this`fdchanges, lists, lists.watchers`next, lists.watchers`active
      modifies queue`queues, queue`pendingpri, queue.watchers`pending
      modifies backend.poll, backend.poll.pollidxs, backend.poll.polls, backend.select, backend.epoll
      modifies backend.epoll.kernel
      ensures Sound(|fdchanges|) && QueueOk() && Settling() && Told(ll) && Rearmed(fds) && backend.Kept()
    {
      var i := 0;
      while i < |fdchanges|
        invariant 0 <= i <= |fdchanges| && Sound(i) && QueueOk() && Settling() && Told(ll) && Rearmed(fds)
        invariant backend.Kept()
        decreases Watched(), |fdchanges| - i
      {
        ReifyNext(i, ll, fds);
        i := i + 1;
      }
    }

    lemma ToldAtFirst()
      requires lists.Valid()
      ensures Told(lists.lists)
    {
      forall fd | 0 <= fd < |lists.lists| ensures forall w :: w in lists.lists[fd] ==> w in lists.watchers {
        assert lists.ListOk(fd);
      }
    }

    /** When nothing is queued any more, everything is in sync. */
    lemma Settled()
      requires Sound(|fdchanges|) && Settling()
      ensures InSync() && forall fd :: 0 <= fd < |slots| ==> slots[fd].reify == {} && Current(fd)
    {
      assert fdchanges[|fdchanges|..] == [];
    }

    /** fd_event_nocheck: each watcher of the descriptor gets those of the events that it waits for. */
    method FdEventNocheck(fd: nat, revents: Mask)
      requires Sound(0) && QueueOk() && fd < |slots|
      modifies queue`queues, queue`pendingpri, queue.watchers`pending
      ensures QueueOk() && queue.queues == Delivered(old(queue.queues), lists.lists[fd], revents)
    {
      assert lists.ListOk(fd);
      var w := lists.heads[fd];
      ghost var l, i, qs := lists.lists[fd], 0, queue.queues;
      while w != null
        invariant 0 <= i <= |l| && w == FdLists.At(l, i) && QueueOk()
        invariant Delivered(queue.queues, l[i..], revents) == Delivered(qs, l, revents)
        decreases |l| - i
      {
        assert lists.LinkOk(l[i], fd, FdLists.At(l, i + 1)) && l[i..][1..] == l[i + 1..];
        Notify(w, revents);
        w := w.next;
        i := i + 1;
      }
    }

    method Notify(w: Watcher, revents: Mask)
      requires QueueOk() && w in lists.watchers
      modifies queue`queues, queue`pendingpri, w`pending
      ensures QueueOk() && queue.queues == Notified(old(queue.queues), w, revents)
    {
      var ev := w.events * revents;
      if ev != {} {
        queue.FeedEvent(w, ev);
      }
    }

    /** What fd_event does to the pending queues: nothing while a change of the descriptor is waiting. */
    ghost function AfterEvent(qs: Queues, fd: nat, revents: Mask): Queues
      reads this`slots, lists`lists, lists.watchers`events
    {
      if fd < |slots| && fd < |lists.lists| && slots[fd].reify == {} &&
         forall w :: w in lists.lists[fd] ==> w in lists.watchers
      then Delivered(qs, lists.lists[fd], revents)
      else qs
    }

    /**
     * fd_event: the descriptor's watchers are told what they wait for, unless a change of it is waiting; no others
     * are.
     */
    method FdEvent(fd: nat, revents: Mask)
      requires Sound(0) && QueueOk() && fd < |slots|
      modifies queue`queues, queue`pendingpri, queue.watchers`pending
      ensures QueueOk() && queue.queues == AfterEvent(old(queue.queues), fd, revents)
      ensures slots[fd].reify != {} ==> queue.queues == old(queue.queues)
      ensures slots[fd].reify == {} ==>
                forall w: Watcher, e :: e in EventsFor(queue.queues, w) <==>
                  e in EventsFor(old(queue.queues), w) || (w in lists.lists[fd] && e in w.events && e in revents)
    {
      assert Current(fd);
      AfterEventTells(queue.queues, fd, revents);
      if slots[fd].reify == {} {
        FdEventNocheck(fd, revents);
      }
    }

    /** Who hears of an event. */
    ghost predicate Hears(fd: nat, revents: Mask, w: Watcher, e: Event)
      reads this`slots, lists`lists, w`events
    {
      && fd < |slots| && fd < |lists.lists| && slots[fd].reify == {}
      && w in lists.lists[fd] && e in w.events && e in revents
    }

    lemma AfterEventTells(qs: Queues, fd: nat, revents: Mask)
      requires Sound(0) && fd < |slots| && forall v :: v in lists.watchers ==> v.priority < |qs|
      ensures |AfterEvent(qs, fd, revents)| == |qs|
      ensures forall w: Watcher, e ::
                e in EventsFor(AfterEvent(qs, fd, revents), w) <==> e in EventsFor(qs, w) || Hears(fd, revents, w, e)
    {
      assert Current(fd);
      if slots[fd].reify == {} {
        DeliveredSize(qs, lists.lists[fd], revents);
        forall w: Watcher, e
          ensures e in EventsFor(AfterEvent(qs, fd, revents), w) <==> e in EventsFor(qs, w) || Hears(fd, revents, w, e)
        {
          DeliveredTells(qs, lists.lists[fd], revents, w, e);
        }
      }
    }

    /** The events recorded, by descriptor. */
    function AllEvents(): (r: seq<Mask>)
      reads this`slots
      ensures |r| == |slots| && forall fd :: 0 <= fd < |slots| ==> r[fd] == slots[fd].events
    {
      var s := slots;
      seq(|s|, fd requires 0 <= fd < |s| => s[fd].events)
    }

    /** What fd_rearm_all does with a descriptor that has events. */
    method Rearm(fd: nat)
      requires Sound(0) && backend.Valid() && backend.Size() == |slots| && fd < |slots|
      modifies this`slots, this`fdchanges, backend.epoll`slots
      ensures Sound(0) && backend.Valid() && backend.Size() == |slots| && old(fdchanges) <= fdchanges
      ensures slots == old(slots)[fd := Anfd({}, old(slots)[fd].reify + {Reify, Fdset})]
    {
      ghost var was := slots;
      slots := slots[fd := Anfd({}, slots[fd].reify)];
      backend.epoll.Forget(fd);
      FdChange(fd, true, 0);
      forall g | 0 <= g < |slots| ensures Current(g) {
        assert old(Current(g));
      }
    }
  }
}
