/** What epoll_poll and epoll_fork do to the descriptor table. */
module EpollLoop {
  import opened Watchers
  import opened PendingSpec
  import opened FdLists
  import opened Backends
  import opened EpollBackend
  import opened FdTable

  /** Descriptors with events, in the order in which fd_event is told of them. */
  type Reports = seq<(nat, Mask)>

  ghost function AfterReports(t: Table, qs: Queues, r: Reports): Queues
    reads t`slots, t.lists`lists, t.lists.watchers`events
    decreases |r|
  {
    if r == [] then qs
    else t.AfterEvent(AfterReports(t, qs, r[..|r| - 1]), r[|r| - 1].0, r[|r| - 1].1)
  }

  function ReportOf(n: Notification): (nat, Mask) {
    (n.fd, Got(n.conditions))
  }

  function ReportsOf(ns: seq<Notification>): (r: Reports)
    ensures |r| == |ns|
  {
    seq(|ns|, i requires 0 <= i < |ns| => ReportOf(ns[i]))
  }

  /** The events synthesized for descriptors that are always ready. */
  function Synthesized(ready: seq<nat>, events: seq<Mask>): (r: Reports)
    requires forall i :: 0 <= i < |ready| ==> ready[i] < |events|
    ensures |r| == |ready|
  {
    seq(|ready|, i requires 0 <= i < |ready| => (ready[i], events[ready[i]]))
  }

  ghost predicate Ready(t: Table)
    reads t, t.lists, t.lists.watchers`next, t.lists.watchers`active, t.lists.watchers`events
    reads t.queue`queues, t.queue.watchers`pending, t.queue.dummy`pending
    reads t.backend.poll, t.backend.poll.pollidxs, t.backend.poll.polls
    reads t.backend.select, t.backend.epoll, t.backend.epoll.kernel
  {
    t.Sound(0) && t.QueueOk() && t.InSync() && t.backend.kind == Epoll
  }

  ghost function Gen(t: Table, fd: nat): int
    requires fd < |t.backend.epoll.slots|
    reads t.backend.epoll`slots
  {
    t.backend.epoll.slots[fd].egen
  }

  /** The descriptors that the kernel has. */
  ghost function Keys(t: Table): set<nat>
    reads t.backend.epoll.kernel`registered
  {
    t.backend.epoll.kernel.registered.Keys
  }

  /** A notification of a registration that has been replaced, or is gone. */
  ghost predicate Stale(t: Table, n: Notification)
    reads t.backend.epoll`slots, t.backend.epoll.kernel`registered
  {
    n.fd < |t.backend.epoll.slots| && (n.gen != Gen(t, n.fd) || n.fd !in Keys(t))
  }

  /** The generations of the descriptors. */
  ghost function Gens(t: Table): (r: seq<int>)
    reads t.backend.epoll`slots
    ensures |r| == |t.backend.epoll.slots|
  {
    var s := t.backend.epoll.slots;
    seq(|s|, fd requires 0 <= fd < |s| => s[fd].egen)
  }

  // ---------- What is to be delivered ----------

  /** Every notification is of a descriptor in the table. */
  predicate InRange(ns: seq<Notification>, gens: seq<int>, events: seq<Mask>) {
    |gens| == |events| && forall i :: 0 <= i < |ns| ==> ns[i].fd < |gens|
  }

  /**
   * It carries the current generation, and the kernel has the descriptor if it has to be told that it reports too
   * much.
   */
  predicate Deliverable(n: Notification, gen: int, want: Mask, keys: set<nat>) {
    n.gen == gen && (Got(n.conditions) - want == {} || n.fd in keys)
  }

  /** A current notification of a descriptor without interest makes epoll_poll take it out of the kernel's set. */
  function KeysAfter(n: Notification, gen: int, want: Mask, keys: set<nat>): set<nat> {
    if n.gen == gen && Got(n.conditions) - want != {} && want == {} then keys - {n.fd} else keys
  }

  /** What is reported, in order, and the descriptors that the kernel is left with. */
  function Handling(ns: seq<Notification>, gens: seq<int>, events: seq<Mask>, keys: set<nat>): (Reports, set<nat>)
    requires InRange(ns, gens, events)
  {
    if ns == [] then ([], keys)
    else
      var n := ns[0];
      var rest := Handling(ns[1..], gens, events, KeysAfter(n, gens[n.fd], events[n.fd], keys));
      (if Deliverable(n, gens[n.fd], events[n.fd], keys) then [ReportOf(n)] + rest.0 else rest.0, rest.1)
  }

  /** Either everything is reported, or something is stale: its registration has been replaced or is gone. */
  lemma {:induction false} HandlingDrops(ns: seq<Notification>, gens: seq<int>, events: seq<Mask>, keys: set<nat>)
    requires InRange(ns, gens, events)
    ensures var (r, left) := Handling(ns, gens, events, keys);
            && |r| <= |ns| && left <= keys && (|r| == |ns| ==> r == ReportsOf(ns))
            && (|r| < |ns| ==> exists n :: n in ns && (n.gen != gens[n.fd] || n.fd !in left))
  {
    if ns != [] {
      var n := ns[0];
      HandlingDrops(ns[1..], gens, events, KeysAfter(n, gens[n.fd], events[n.fd], keys));
      assert n in ns && forall m :: m in ns[1..] ==> m in ns;
    }
  }

  /** After r there is still the rest to be handled. */
  lemma HandlingNext(ns: seq<Notification>, i: nat, r: Reports, gens: seq<int>, events: seq<Mask>, keys: set<nat>)
    requires InRange(ns, gens, events) && i < |ns|
    ensures var n := ns[i];
            var r' := if Deliverable(n, gens[n.fd], events[n.fd], keys) then r + [ReportOf(n)] else r;
            var left := KeysAfter(n, gens[n.fd], events[n.fd], keys);
            var was, rest := Handling(ns[i..], gens, events, keys), Handling(ns[i + 1..], gens, events, left);
            r + was.0 == r' + rest.0 && was.1 == rest.1
  {
    assert ns[i..][0] == ns[i] && ns[i..][1..] == ns[i + 1..];
  }

  /** The check of one result. */
  method CheckOne(t: Table, n: Notification) returns (deliver: bool)
    requires Ready(t) && n.fd < |t.slots|
    modifies t.backend.epoll, t.backend.epoll.kernel
    ensures Ready(t) && (t.backend.epoll.postfork <==> old(t.backend.epoll.postfork) || !deliver)
    ensures deliver == Deliverable(n, Gen(t, n.fd), t.slots[n.fd].events, old(Keys(t)))
    ensures Gens(t) == old(Gens(t)) && Keys(t) == KeysAfter(n, Gen(t, n.fd), t.slots[n.fd].events, old(Keys(t)))
  {
    deliver := t.backend.epoll.Check(n.fd, n.gen, Got(n.conditions), t.slots[n.fd].events);
    forall fd: nat ensures t.Synced(fd) {
      assert old(t.Synced(fd));
    }
  }

  /** One result of epoll_wait. */
  method Handle(t: Table, n: Notification) returns (delivered: bool)
    requires Ready(t) && n.fd < |t.slots|
    modifies t.queue`queues, t.queue`pendingpri, t.queue.watchers`pending, t.backend.epoll, t.backend.epoll.kernel
    ensures Ready(t) && (t.backend.epoll.postfork <==> old(t.backend.epoll.postfork) || !delivered)
    ensures delivered == Deliverable(n, Gen(t, n.fd), t.slots[n.fd].events, old(Keys(t)))
    ensures Gens(t) == old(Gens(t)) && Keys(t) == KeysAfter(n, Gen(t, n.fd), t.slots[n.fd].events, old(Keys(t)))
    ensures t.queue.queues ==
            if delivered then t.AfterEvent(old(t.queue.queues), n.fd, Got(n.conditions)) else old(t.queue.queues)
  {
    delivered := CheckOne(t, n);
    if delivered {
      t.FdEvent(n.fd, Got(n.conditions));
    }
  }

  /** A descriptor that is closed elsewhere goes without notice, and nothing is out of order. */
  method VanishKeepsReady(t: Table, fd: nat)
    requires Ready(t)
    modifies t.backend.epoll.kernel
    ensures Ready(t) && fd !in Keys(t)
  {
    t.backend.epoll.Vanish(fd);
    forall g: nat ensures t.Synced(g) {
      assert old(t.Synced(g));
    }
  }

  /** fd_event for each report in order. */
  method ReportAll(t: Table, r: Reports)
    requires Ready(t) && forall i :: 0 <= i < |r| ==> r[i].0 < |t.slots|
    modifies t.queue`queues, t.queue`pendingpri, t.queue.watchers`pending
    ensures Ready(t) && t.queue.queues == AfterReports(t, old(t.queue.queues), r)
  {
    ghost var qs := t.queue.queues;
    for i := 0 to |r|
      invariant Ready(t) && t.queue.queues == AfterReports(t, qs, r[..i])
    {
      assert r[..i + 1][..i] == r[..i];
      t.FdEvent(r[i].0, r[i].1);
    }
    assert r[..|r|] == r;
  }

  /**
   * What epoll_poll tells fd_event after the wait. Reported are exactly those notifications, in order, that
   * carry the current generation of their descriptor and whose unwanted part can be taken back, followed by
   * the descriptors that are always ready; if any is dropped, the whole interest set is going to be rebuilt.
   */
  method PollReports(t: Table, ns: seq<Notification>) returns (ghost r: Reports, ghost sweep: Reports)
    requires Ready(t) && InRange(ns, Gens(t), t.AllEvents())
    modifies t.queue`queues, t.queue`pendingpri, t.queue.watchers`pending, t.backend.epoll, t.backend.epoll.kernel
    ensures Ready(t) && t.queue.queues == AfterReports(t, AfterReports(t, old(t.queue.queues), r), sweep)
    ensures InRange(ns, Gens(t), t.AllEvents()) && (r, Keys(t)) == Handling(ns, Gens(t), t.AllEvents(), old(Keys(t)))
    ensures t.backend.epoll.postfork <==> old(t.backend.epoll.postfork) || |r| < |ns|
    ensures if |r| < |ns| then exists n :: n in ns && Stale(t, n) else r == ReportsOf(ns)
    ensures forall x :: x in sweep ==>
              x.0 in t.backend.epoll.eperms && x.0 < |t.slots| && x.1 == t.slots[x.0].events != {}
    ensures forall fd :: fd in t.backend.epoll.eperms ==> fd < |t.slots| && (fd, t.slots[fd].events) in sweep
  {
    ghost var keys := Keys(t);
    r := HandleAll(t, ns);
    sweep := SweepAll(t);
    DropsStale(t, ns, keys, r);
  }

  lemma DropsStale(t: Table, ns: seq<Notification>, keys: set<nat>, r: Reports)
    requires InRange(ns, Gens(t), t.AllEvents()) && (r, Keys(t)) == Handling(ns, Gens(t), t.AllEvents(), keys)
    ensures if |r| < |ns| then exists n :: n in ns && Stale(t, n) else r == ReportsOf(ns)
  {
    HandlingDrops(ns, Gens(t), t.AllEvents(), keys);
    if |r| < |ns| {
      var n :| n in ns && (n.gen != Gens(t)[n.fd] || n.fd !in Keys(t));
      assert Stale(t, n);
    }
  }

  /** Some report tells w of e. */
  ghost predicate Told(t: Table, r: Reports, w: Watcher, e: Event)
    reads t`slots, t.lists`lists, w`events
  {
    exists i :: 0 <= i < |r| && t.Hears(r[i].0, r[i].1, w, e)
  }

  /** A watcher has pending what was pending for it and what some report tells it, no more and no less. */
  lemma {:induction false} ReportsTell(t: Table, qs: Queues, r: Reports)
    requires t.Sound(0) && (forall v :: v in t.lists.watchers ==> v.priority < |qs|)
    requires forall i :: 0 <= i < |r| ==> r[i].0 < |t.slots|
    ensures |AfterReports(t, qs, r)| == |qs|
    ensures forall w: Watcher, e ::
              e in EventsFor(AfterReports(t, qs, r), w) <==> e in EventsFor(qs, w) || Told(t, r, w, e)
    decreases |r|
  {
    if r != [] {
      var n := |r| - 1;
      ReportsTell(t, qs, r[..n]);
      t.AfterEventTells(AfterReports(t, qs, r[..n]), r[n].0, r[n].1);
      forall w: Watcher, e ensures Told(t, r, w, e) <==> Told(t, r[..n], w, e) || t.Hears(r[n].0, r[n].1, w, e) {
        ToldMore(t, r, w, e);
      }
    }
  }

  lemma ToldMore(t: Table, r: Reports, w: Watcher, e: Event)
    requires r != []
    ensures var n := |r| - 1; Told(t, r, w, e) <==> Told(t, r[..n], w, e) || t.Hears(r[n].0, r[n].1, w, e)
  {
    var n := |r| - 1;
    if Told(t, r[..n], w, e) {
      var i :| 0 <= i < n && t.Hears(r[..n][i].0, r[..n][i].1, w, e);
      assert r[i] == r[..n][i];
    }
    if Told(t, r, w, e) {
      var i :| 0 <= i < |r| && t.Hears(r[i].0, r[i].1, w, e);
      assert i < n ==> r[..n][i] == r[i];
    }
  }

  /** The conditions in which a descriptor can be read, or written. */
  predicate Readable(n: Notification) {
    In in n.conditions || Err in n.conditions || Hup in n.conditions
  }

  predicate Writable(n: Notification) {
    Out in n.conditions || Err in n.conditions || Hup in n.conditions
  }

  /** It tells of nothing that is not asked for. */
  predicate Wanted(n: Notification, events: Mask) {
    (Readable(n) ==> Read in events) && (Writable(n) ==> Write in events)
  }

  /** What watcher w, on a descriptor of which no change is waiting, has to hear of a notification. */
  ghost predicate Heard(t: Table, n: Notification, w: Watcher)
    requires n.fd < |t.slots| && n.fd < |t.lists.lists|
    reads t`slots, t.lists`lists, w`events, t.queue`queues
  {
    t.slots[n.fd].reify == {} && w in t.lists.lists[n.fd] ==>
      && (Readable(n) && Read in w.events ==> Read in EventsFor(t.queue.queues, w))
      && (Writable(n) && Write in w.events ==> Write in EventsFor(t.queue.queues, w))
  }

  lemma ReportHeard(t: Table, r: Reports, n: Notification, w: Watcher, sweep: Reports, qs: Queues)
    requires n.fd < |t.slots| && n.fd < |t.lists.lists| && ReportOf(n) in r
    requires forall v: Watcher, e :: e in EventsFor(t.queue.queues, v) <==>
               e in EventsFor(qs, v) || Told(t, r, v, e) || Told(t, sweep, v, e)
    ensures Heard(t, n, w)
  {
    var i :| 0 <= i < |r| && r[i] == ReportOf(n);
    if t.slots[n.fd].reify == {} && w in t.lists.lists[n.fd] {
      assert Readable(n) && Read in w.events ==> t.Hears(r[i].0, r[i].1, w, Read);
      assert Writable(n) && Write in w.events ==> t.Hears(r[i].0, r[i].1, w, Write);
    }
  }

  /** A notification of the current generation that tells of nothing unwanted is reported. */
  lemma {:induction false} WantedReported(ns: seq<Notification>, gens: seq<int>, events: seq<Mask>, keys: set<nat>,
          n: Notification)
    requires InRange(ns, gens, events) && n in ns && n.gen == gens[n.fd]
    requires Wanted(n, events[n.fd])
    ensures ReportOf(n) in Handling(ns, gens, events, keys).0
  {
    if ns[0] == n {
      assert Got(n.conditions) - events[n.fd] == {};
    } else {
      WantedReported(ns[1..], gens, events, KeysAfter(ns[0], gens[ns[0].fd], events[ns[0].fd], keys), n);
    }
  }

  /**
   * epoll_poll after the wait: every notification that is current and tells of nothing unwanted is reported; each
   * watcher of a descriptor that is reported readable or writable, and is not about to change, has that pending if
   * it waits for it; and nothing becomes pending but what reports tell.
   */
  method Poll(t: Table, ns: seq<Notification>) returns (ghost r: Reports, ghost sweep: Reports)
    requires Ready(t) && InRange(ns, Gens(t), t.AllEvents())
    modifies t.queue`queues, t.queue`pendingpri, t.queue.watchers`pending, t.backend.epoll, t.backend.epoll.kernel
    ensures Ready(t) && InRange(ns, Gens(t), t.AllEvents())
    ensures (r, Keys(t)) == Handling(ns, Gens(t), t.AllEvents(), old(Keys(t)))
    ensures t.backend.epoll.postfork <==> old(t.backend.epoll.postfork) || |r| < |ns|
    ensures if |r| < |ns| then exists n :: n in ns && Stale(t, n) else r == ReportsOf(ns)
    ensures forall x :: x in sweep ==>
              x.0 in t.backend.epoll.eperms && x.0 < |t.slots| && x.1 == t.slots[x.0].events != {}
    ensures forall fd :: fd in t.backend.epoll.eperms ==> fd < |t.slots| && (fd, t.slots[fd].events) in sweep
    ensures forall w: Watcher, e :: e in EventsFor(t.queue.queues, w) <==>
              e in EventsFor(old(t.queue.queues), w) || Told(t, r, w, e) || Told(t, sweep, w, e)
    ensures forall n, w :: n in ns && ReportOf(n) in r && w in t.lists.watchers ==> Heard(t, n, w)
    ensures forall n :: n in ns && n.gen == Gens(t)[n.fd] && Wanted(n, t.slots[n.fd].events) ==> ReportOf(n) in r
  {
    ghost var qs, keys := t.queue.queues, Keys(t);
    assert forall v :: v in t.lists.watchers ==> t.queue.WatcherOk(v);
    r, sweep := PollReports(t, ns);
    PollTells(t, ns, keys, qs, r, sweep);
  }

  lemma PollTells(t: Table, ns: seq<Notification>, keys: set<nat>, qs: Queues, r: Reports, sweep: Reports)
    requires Ready(t) && InRange(ns, Gens(t), t.AllEvents())
    requires forall v :: v in t.lists.watchers ==> v.priority < |qs|
    requires (r, Keys(t)) == Handling(ns, Gens(t), t.AllEvents(), keys)
    requires t.queue.queues == AfterReports(t, AfterReports(t, qs, r), sweep)
    requires forall x :: x in sweep ==> x.0 < |t.slots|
    ensures forall w: Watcher, e :: e in EventsFor(t.queue.queues, w) <==>
              e in EventsFor(qs, w) || Told(t, r, w, e) || Told(t, sweep, w, e)
    ensures forall n, w :: n in ns && ReportOf(n) in r && w in t.lists.watchers ==> Heard(t, n, w)
    ensures forall n :: n in ns && n.gen == Gens(t)[n.fd] && Wanted(n, t.slots[n.fd].events) ==> ReportOf(n) in r
  {
    ReportedInRange(ns, Gens(t), t.AllEvents(), keys);
    ReportsTell(t, qs, r);
    ReportsTell(t, AfterReports(t, qs, r), sweep);
    forall n, w | n in ns && ReportOf(n) in r && w in t.lists.watchers ensures Heard(t, n, w) {
      ReportHeard(t, r, n, w, sweep, qs);
    }
    forall n | n in ns && n.gen == Gens(t)[n.fd] && Wanted(n, t.slots[n.fd].events)
      ensures ReportOf(n) in r
    {
      WantedReported(ns, Gens(t), t.AllEvents(), keys, n);
    }
  }

  lemma {:induction false} ReportedInRange(ns: seq<Notification>, gens: seq<int>, events: seq<Mask>, keys: set<nat>)
    requires InRange(ns, gens, events)
    ensures forall x :: x in Handling(ns, gens, events, keys).0 ==> x.0 < |gens|
  {
    if ns != [] {
      ReportedInRange(ns[1..], gens, events, KeysAfter(ns[0], gens[ns[0].fd], events[ns[0].fd], keys));
    }
  }

  method SweepAll(t: Table) returns (ghost sweep: Reports)
    requires Ready(t)
    modifies t.queue`queues, t.queue`pendingpri, t.queue.watchers`pending, t.backend.epoll`slots, t.backend.epoll`eperms
    ensures Ready(t) && Gens(t) == old(Gens(t)) && t.queue.queues == AfterReports(t, old(t.queue.queues), sweep)
    ensures forall x :: x in sweep ==>
              x.0 in t.backend.epoll.eperms && x.0 < |t.slots| && x.1 == t.slots[x.0].events != {}
    ensures forall fd :: fd in t.backend.epoll.eperms ==> fd < |t.slots| && (fd, t.slots[fd].events) in sweep
  {
    var events := t.AllEvents();
    var ready := SweepOnly(t, events);
    assert forall i :: 0 <= i < |ready| ==> ready[i] in ready;
    ReportAll(t, Synthesized(ready, events));
    sweep := Synthesized(ready, events);
    forall fd | fd in ready ensures (fd, events[fd]) in sweep {
      var i :| 0 <= i < |ready| && ready[i] == fd;
      assert sweep[i] == (fd, events[fd]);
    }
  }

  method SweepOnly(t: Table, events: seq<Mask>) returns (ready: seq<nat>)
    requires Ready(t) && events == t.AllEvents()
    modifies t.backend.epoll`slots, t.backend.epoll`eperms
    ensures Ready(t) && Gens(t) == old(Gens(t)) && forall fd :: fd in ready <==> fd in t.backend.epoll.eperms
    ensures forall fd :: fd in ready ==> fd < |events| && events[fd] != {}
    ensures ready == ReadyOf(old(t.backend.epoll.eperms), old(t.backend.epoll.slots), events)
  {
    forall fd | 0 <= fd < |events| ensures events[fd] <= RW && t.backend.epoll.Serves(fd, events[fd]) {
      assert t.Synced(fd);
    }
    ReadyOnes(t.backend.epoll.eperms, t.backend.epoll.slots, events);
    ready := t.backend.epoll.Sweep(events);
    forall fd: nat ensures t.Synced(fd) {
      assert old(t.Synced(fd)) && (fd < |events| ==> t.backend.epoll.Serves(fd, events[fd]));
    }
  }

  lemma {:induction false} ReadyOnes(list: seq<nat>, slots: seq<EpollSlot>, events: seq<Mask>)
    requires |slots| == |events| && forall i :: 0 <= i < |list| ==> list[i] < |slots|
    ensures forall fd :: fd in ReadyOf(list, slots, events) <==> fd in list && AlwaysReady(fd, slots, events)
    decreases |list|
  {
    if list != [] {
      ReadyOnes(list[..|list| - 1], slots, events);
      assert list == list[..|list| - 1] + [list[|list| - 1]];
    }
  }

  method HandleAll(t: Table, ns: seq<Notification>) returns (ghost r: Reports)
    requires Ready(t) && InRange(ns, Gens(t), t.AllEvents())
    modifies t.queue`queues, t.queue`pendingpri, t.queue.watchers`pending, t.backend.epoll, t.backend.epoll.kernel
    ensures Ready(t) && t.queue.queues == AfterReports(t, old(t.queue.queues), r)
    ensures Gens(t) == old(Gens(t))
    ensures (r, Keys(t)) == Handling(ns, Gens(t), t.AllEvents(), old(Keys(t)))
    ensures t.backend.epoll.postfork <==> old(t.backend.epoll.postfork) || |r| < |ns|
  {
    ghost var start := Start(t.queue.queues, Gens(t), t.backend.epoll.postfork);
    ghost var all := Handling(ns, Gens(t), t.AllEvents(), Keys(t));
    HandledFirst(t, ns, all);
    r := HandleEach(t, ns, start, all);
    HandledLast(t, ns, start, all, r);
  }

  method HandleEach(t: Table, ns: seq<Notification>, ghost start: Start, ghost all: (Reports, set<nat>))
    returns (ghost r: Reports)
    requires Ready(t) && Handled(t, ns, 0, start, all, [])
    modifies t.queue`queues, t.queue`pendingpri, t.queue.watchers`pending, t.backend.epoll, t.backend.epoll.kernel
    ensures Ready(t) && Handled(t, ns, |ns|, start, all, r)
  {
    r := [];
    for i := 0 to |ns|
      invariant Ready(t) && Handled(t, ns, i, start, all, r)
    {
      r := HandleNext(t, ns, i, start, all, r);
    }
  }

  /** How epoll_poll finds the queues, the generations and `postfork`. */
  datatype Start = Start(qs: Queues, gens: seq<int>, postfork: bool)

  /**
   * The first i notifications have been handled, r has been reported, and what is still to be reported completes
   * `all`.
   */
  ghost predicate Handled(t: Table, ns: seq<Notification>, i: nat, start: Start, all: (Reports, set<nat>), r: Reports)
    reads t`slots, t.lists`lists, t.lists.watchers`events, t.queue`queues
    reads t.backend.epoll`slots, t.backend.epoll`postfork, t.backend.epoll.kernel`registered
  {
    && |r| <= i <= |ns| && InRange(ns, start.gens, t.AllEvents()) && Gens(t) == start.gens
    && t.queue.queues == AfterReports(t, start.qs, r)
    && (t.backend.epoll.postfork <==> start.postfork || |r| < i)
    && var rest := Handling(ns[i..], start.gens, t.AllEvents(), Keys(t)); (r + rest.0, rest.1) == all
  }

  lemma HandledFirst(t: Table, ns: seq<Notification>, all: (Reports, set<nat>))
    requires InRange(ns, Gens(t), t.AllEvents()) && all == Handling(ns, Gens(t), t.AllEvents(), Keys(t))
    ensures Handled(t, ns, 0, Start(t.queue.queues, Gens(t), t.backend.epoll.postfork), all, [])
  {
    assert ns[0..] == ns && [] + all.0 == all.0;
  }

  lemma HandledLast(t: Table, ns: seq<Notification>, start: Start, all: (Reports, set<nat>), r: Reports)
    requires Handled(t, ns, |ns|, start, all, r)
    ensures (r, Keys(t)) == all && t.queue.queues == AfterReports(t, start.qs, r)
    ensures Gens(t) == start.gens && (t.backend.epoll.postfork <==> start.postfork || |r| < |ns|)
  {
    assert ns[|ns|..] == [] && r + [] == r;
  }

  method HandleNext(t: Table, ns: seq<Notification>, i: nat, ghost start: Start, ghost all: (Reports, set<nat>),
          ghost r: Reports)
    returns (ghost r': Reports)
    requires Ready(t) && i < |ns| && Handled(t, ns, i, start, all, r)
    modifies t.queue`queues, t.queue`pendingpri, t.queue.watchers`pending, t.backend.epoll, t.backend.epoll.kernel
    ensures Ready(t) && Handled(t, ns, i + 1, start, all, r')
  {
    HandlingNext(ns, i, r, start.gens, t.AllEvents(), Keys(t));
    var delivered := Handle(t, ns[i]);
    ReportNext(t, start.qs, r, ReportOf(ns[i]));
    r' := if delivered then r + [ReportOf(ns[i])] else r;
  }

  lemma ReportNext(t: Table, qs: Queues, r: Reports, x: (nat, Mask))
    ensures AfterReports(t, qs, r + [x]) == t.AfterEvent(AfterReports(t, qs, r), x.0, x.1)
  {
    assert (r + [x])[..|r|] == r;
  }

  /** epoll_fork with fd_rearm_all: the interest in every descriptor is dropped, and queued to be asked for afresh. */
  method Fork(t: Table)
    requires Ready(t)
    modifies t`slots, t`fdchanges, t.backend.epoll, t.backend.epoll.kernel
    ensures Ready(t) && t.backend.Exact() && old(t.fdchanges) <= t.fdchanges
    ensures |t.slots| == old(|t.slots|) && forall fd :: 0 <= fd < |t.slots| ==>
              && t.slots[fd].events == {}
              && t.slots[fd].reify ==
                 old(t.slots)[fd].reify + if old(t.slots)[fd].events != {} then {Reify, Fdset} else {}
  {
    t.backend.epoll.Renew();
    RearmAll(t);
    forall fd: nat ensures t.Synced(fd) {
      assert fd < |t.slots| ==> t.slots[fd].events == {};
    }
  }

  /** fd_rearm_all */
  method RearmAll(t: Table)
    requires t.Sound(0) && t.backend.Valid() && t.backend.Size() == |t.slots| && t.backend.Exact()
    modifies t`slots, t`fdchanges, t.backend.epoll`slots
    ensures t.Sound(0) && t.backend.Valid() && t.backend.Size() == |t.slots| && t.backend.Exact()
    ensures old(t.fdchanges) <= t.fdchanges && |t.slots| == |old(t.slots)|
    ensures forall fd :: 0 <= fd < |t.slots| ==> t.slots[fd] == Dropped(old(t.slots)[fd])
  {
    ghost var s := t.slots;
    var fd := 0;
    while fd < |t.slots|
      invariant 0 <= fd <= |t.slots| == |s| && t.Sound(0)
      invariant t.backend.Valid() && t.backend.Size() == |s| && t.backend.Exact()
      invariant forall g :: 0 <= g < |s| ==> t.slots[g] == if g < fd then Dropped(s[g]) else s[g]
      invariant old(t.fdchanges) <= t.fdchanges
    {
      if t.slots[fd].events != {} {
        t.Rearm(fd);
      }
      fd := fd + 1;
    }
  }

  /** What becomes of a descriptor that has events. */
  function Dropped(a: Anfd): Anfd {
    if a.events != {} then Anfd({}, a.reify + {Reify, Fdset}) else a
  }

  /** loop_fork followed by fd_reify, as ev_run does when it finds postfork set: nothing is missing any more. */
  method Rebuild(t: Table)
    requires Ready(t)
    modifies t`slots, t`fdchanges, t.lists, t.lists.watchers`next, t.lists.watchers`active
    modifies t.queue`queues, t.queue`pendingpri, t.queue.watchers`pending
    modifies t.backend.poll, t.backend.poll.pollidxs, t.backend.poll.polls
    modifies t.backend.select, t.backend.epoll, t.backend.epoll.kernel
    ensures Ready(t) && t.Told(old(t.lists.lists))
    ensures forall fd :: 0 <= fd < |t.slots| && Interest(t.lists.lists[fd]) != {} ==>
              t.backend.epoll.Armed(fd, Interest(t.lists.lists[fd]))
  {
    Fork(t);
    t.FdReify();
    forall fd | 0 <= fd < |t.slots| && Interest(t.lists.lists[fd]) != {}
      ensures t.backend.epoll.Armed(fd, Interest(t.lists.lists[fd]))
    {
      assert t.Synced(fd);
    }
  }
}
