/** ev_once: an io watcher and a timer of which whichever comes first ends both. */
module Once {
  import opened Watchers
  import opened PendingSpec
  import opened PendingLaws
  import opened FdLists
  import opened FdTable
  import opened Timers
  import DeadlineOrder
  import Expiry
  import O = OnceLaws

  class Watch {
    const io: Watcher
    const to: Watcher
    const table: Table
    const loop: TimerLoop
    var live: bool   // the structure has not been freed
    var calls: nat   // of the user's callback
    var got: Mask    // what it was last called with

    constructor (io: Watcher, to: Watcher, table: Table, loop: TimerLoop)
      ensures this.io == io && this.to == to && this.table == table && this.loop == loop && live && Counted()
    {
      this.io, this.to, this.table, this.loop := io, to, table, loop;
      live, calls, got := true, 0, {};
    }

    /** Descriptors and timers of one loop, with one set of pending queues. */
    ghost predicate Linked() {
      && table.queue == loop.queue
      && io in table.lists.watchers && to in loop.watchers && table.lists.watchers !! loop.watchers
    }

    ghost predicate Valid()
      reads table, table.lists, table.lists.watchers`next, table.lists.watchers`active, table.lists.watchers`events
      reads loop, loop.timers, loop.timers.heap, loop.watchers`active, loop.watchers`at
      reads loop.timers.members`active, loop.timers.members`at
      reads loop.queue`queues, loop.queue.watchers`pending, loop.queue.dummy`pending
      reads table.queue`queues, table.queue.watchers`pending, table.queue.dummy`pending
    {
      && Linked() && table.Sound(0) && table.QueueOk() && loop.Valid()
    }

    /** The user's callback has been called if the structure has been freed, and only then. */
    ghost predicate Counted()
      reads this
    {
      calls == if live then 0 else 1
    }

    function Both(): O.Pair {
      O.Pair(io, to)
    }

    /** No list, no heap slot and no pending slot refers to either watcher. */
    ghost predicate Gone()
      reads table.lists, loop.timers, loop.queue`queues
    {
      && (forall l :: l in table.lists.lists ==> io !in l)
      && to !in loop.timers.members
      && O.Gone(loop.queue.queues, Both())
    }

    /** A watcher that is neither active nor pending is referred to nowhere. */
    lemma GoneWhenStopped()
      requires Valid() && io.active == 0 && io.pending == 0 && to.active == 0 && to.pending == 0
      ensures Gone()
    {
      forall l | l in table.lists.lists ensures io !in l {
        var fd :| 0 <= fd < |table.lists.lists| && table.lists.lists[fd] == l;
        assert table.lists.ListOk(fd);
        assert forall i :: 0 <= i < |l| ==> table.lists.LinkOk(l[i], fd, FdLists.At(l, i + 1));
      }
      NotPending(io);
      NotPending(to);
    }

    lemma NotPending(w: Watcher)
      requires loop.queue.Valid() && w in loop.queue.watchers && w.pending == 0
      ensures Unnamed(loop.queue.queues, w)
    {
      var qs: Queues := loop.queue.queues;
      forall p, i | 0 <= p < |qs| && 0 <= i < |qs[p]| ensures qs[p][i].w != w {
        assert loop.queue.SlotOk(qs[p][i], p, i);
      }
    }

    method StopIo()
      requires Valid()
      modifies table`slots, table`fdchanges, table.lists, table.lists.watchers`next, io`active, io`pending
      modifies loop.queue`queues
      ensures Valid() && io.active == 0 && io.pending == 0
      ensures loop.queue.queues == Clear(old(loop.queue.queues), io, loop.queue.dummy)
    {
      table.IoStop(io, 0);
    }

    method StopTimer()
      requires Valid() && io.active == 0 && io.pending == 0
      modifies loop.timers`cnt, loop.timers`h, loop.timers`members, loop.timers.heap
      modifies loop.watchers`active, to`at, to`pending, loop.queue`queues
      ensures Valid() && Gone()
      ensures loop.queue.queues == Clear(old(loop.queue.queues), to, loop.queue.dummy)
    {
      loop.TimerStop(to);
      GoneWhenStopped();
    }

    method StopBoth()
      requires Valid()
      modifies table`slots, table`fdchanges, table.lists, table.lists.watchers`next, io`active, io`pending
      modifies loop.timers`cnt, loop.timers`h, loop.timers`members, loop.timers.heap
      modifies loop.watchers`active, to`at, to`pending, loop.queue`queues
      ensures Valid() && Gone()
      ensures loop.queue.queues == Clear(Clear(old(loop.queue.queues), io, loop.queue.dummy), to, loop.queue.dummy)
    {
      StopIo();
      StopTimer();
    }

    /** once_cb, up to the end of the user's callback. */
    method OnceCb(revents: Mask)
      requires Valid() && Counted() && live
      modifies this`live, this`calls, this`got, table`slots, table`fdchanges, table.lists, table.lists.watchers`next
      modifies io`active, io`pending
      modifies loop.timers`cnt, loop.timers`h, loop.timers`members, loop.timers.heap
      modifies loop.watchers`active, to`at, to`pending, loop.queue`queues
      ensures Valid() && Gone() && Counted() && !live && calls == 1 && got == revents
      ensures loop.queue.queues == Clear(Clear(old(loop.queue.queues), io, loop.queue.dummy), to, loop.queue.dummy)
    {
      StopBoth();
      FreeAndCall(revents);
    }

    /** The structure is freed and the user's callback called. */
    method FreeAndCall(revents: Mask)
      requires Counted() && live
      modifies this`live, this`calls, this`got
      ensures Counted() && !live && calls == 1 && got == revents
    {
      live := false;
      calls, got := calls + 1, revents;
    }

    /** once_cb_io: the io watcher's pending slot has been taken off, and what is pending for the timer is added. */
    method OnceCbIo(revents: Mask)
      requires Valid() && Counted() && live
      modifies this`live, this`calls, this`got, table`slots, table`fdchanges, table.lists, table.lists.watchers`next
      modifies io`active, io`pending
      modifies loop.timers`cnt, loop.timers`h, loop.timers`members, loop.timers.heap
      modifies loop.watchers`active, to`at, to`pending, loop.queue`queues
      ensures Valid() && Gone() && Counted() && !live && calls == 1
      ensures got == O.Report(old(loop.queue.queues), Both(), io, revents)
      ensures loop.queue.queues == Perform(O.OnceActs(Both(), io), old(loop.queue.queues), loop.queue.dummy, []).qs
    {
      ghost var qs: Queues := loop.queue.queues;
      var more := loop.queue.ClearPending(to);
      OnceCb(revents + more);
      O.OnceActsAlone(qs, loop.queue.dummy, Both(), io);
    }

    /** once_cb_to */
    method OnceCbTo(revents: Mask)
      requires Valid() && Counted() && live
      modifies this`live, this`calls, this`got, table`slots, table`fdchanges, table.lists, table.lists.watchers`next
      modifies io`active, io`pending
      modifies loop.timers`cnt, loop.timers`h, loop.timers`members, loop.timers.heap
      modifies loop.watchers`active, to`at, to`pending, loop.queue`queues
      ensures Valid() && Gone() && Counted() && !live && calls == 1
      ensures got == O.Report(old(loop.queue.queues), Both(), to, revents)
      ensures loop.queue.queues == Perform(O.OnceActs(Both(), to), old(loop.queue.queues), loop.queue.dummy, []).qs
    {
      ghost var qs: Queues := loop.queue.queues;
      var more := loop.queue.ClearPending(io);
      OnceCb(revents + more);
      O.OnceActsAlone(qs, loop.queue.dummy, Both(), to);
    }

    // ---------- Exactly once ----------

    /**
     * When either watcher is pending, or callbacks feed it, ev_invoke_pending calls the user back exactly once, with
     * all that is pending for both and all that they are fed, and leaves neither pending; otherwise it does not
     * call the user back. The other callbacks may feed any watchers, these two until the call, clear any others,
     * and may re-enter.
     */
    lemma CalledOnce(script: Script)
      requires Valid() && O.Orderly(Happens(script))
      requires O.Obeys(Drain(loop.queue.queues, loop.queue.dummy, script).log, script, Both())
      ensures O.ToldOnce(EventsFor(loop.queue.queues, io) + EventsFor(loop.queue.queues, to),
                         io.pending != 0 || to.pending != 0, Happens(script))
      ensures O.Gone(Drain(loop.queue.queues, loop.queue.dummy, script).qs, Both())
    {
      loop.queue.OneSlotEach();
      loop.queue.PendingIsPosition(io);
      loop.queue.PendingIsPosition(to);
      O.CalledOnce(loop.queue.queues, loop.queue.dummy, script, Both());
    }

    /** What happens to the two while ev_invoke_pending runs. */
    ghost function Happens(script: Script): seq<O.Happening>
      reads loop.queue`queues
    {
      O.Trace(loop.queue.queues, loop.queue.dummy, script, Both())
    }

    // ---------- Never again ----------

    /** Once both are gone, no event of any descriptor makes either pending. */
    lemma EventLeavesGone(fd: nat, revents: Mask)
      requires Valid() && Gone()
      ensures O.Gone(table.AfterEvent(loop.queue.queues, fd, revents), Both())
    {
      if fd < |table.slots| && fd < |table.lists.lists| {
        assert table.Current(fd);
        DeliveredUnnamed(loop.queue.queues, table.lists.lists[fd], revents, io);
        DeliveredUnnamed(loop.queue.queues, table.lists.lists[fd], revents, to);
      }
    }

    /** Nor does the killing of any descriptor. */
    lemma KillLeavesGone(fd: nat)
      requires Valid() && Gone() && fd < |table.lists.lists|
      ensures O.Gone(FedError(loop.queue.queues, table.lists.lists[fd], loop.queue.dummy), Both())
    {
      assert table.Current(fd);
      FedErrorUnnamed(loop.queue.queues, table.lists.lists[fd], loop.queue.dummy, io);
      FedErrorUnnamed(loop.queue.queues, table.lists.lists[fd], loop.queue.dummy, to);
    }

    /** Nor does timers_reify. */
    lemma ExpiryLeavesGone(s: Expiry.Snapshot, fired: seq<Watcher>, r: Expiry.Snapshot)
      requires Valid() && Gone() && loop.Shows(s) && Expiry.Processed(s, fired, r, loop.mn_now, loop.queue.dummy)
      ensures O.Gone(Expiry.FeedReverse(r.qs, fired, {Timer}), Both())
    {
      DeadlineOrder.ExpiryLeavesUnnamed(s, fired, r, loop.mn_now, loop.queue.dummy, io);
      DeadlineOrder.ExpiryLeavesUnnamed(s, fired, r, loop.mn_now, loop.queue.dummy, to);
    }

    /** So nothing feeds them, and ev_invoke_pending does not call the user back any more. */
    lemma NotCalledAgain(script: Script)
      requires Valid() && Gone() && O.NoneFed(Happens(script))
      ensures Happens(script) == []
      ensures O.Gone(Drain(loop.queue.queues, loop.queue.dummy, script).qs, Both())
    {
      O.GoneNotCalled(loop.queue.queues, loop.queue.dummy, script, Both());
    }
  }
}
