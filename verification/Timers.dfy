/** Relative timers: ev_timer_start, ev_timer_stop, ev_timer_again and timers_reify. */
module Timers {
  import opened Watchers
  import opened HeapSpec
  import opened WatcherHeap
  import opened PendingSpec
  import opened PendingQueues
  import opened Expiry
  import DeadlineOrder
  import PendingLaws

  /** When a timer that expired at `at` is due next, at loop time `now`: late repeats are not made up for. */
  function NextAt(at: real, repeat: real, now: real): real {
    if at + repeat < now then now else at + repeat
  }

  /** A repeating timer is rescheduled; another one stops and keeps the time it is overdue by. */
  function AfterTimer(at: real, repeat: real, now: real): After {
    if repeat != 0.0 then After(NextAt(at, repeat, now), false) else After(at - now, true)
  }

  class TimerLoop {
    const timers: Heap
    const queue: Pending
    ghost const watchers: set<Watcher>  // every ev_timer
    var mn_now: real

    /** A timer is active exactly when it is in the heap. */
    ghost predicate Valid()
      reads this, timers, timers.heap, queue`queues, watchers`active, watchers`at
      reads timers.members`active, timers.members`at, queue.watchers`pending, queue.dummy`pending
    {
      && timers.Valid() && queue.Valid()
      && timers.members <= watchers <= queue.watchers
      && (forall w :: w in watchers ==> (w.active != 0 <==> w in timers.members))
    }

    constructor (timers: Heap, queue: Pending, ghost watchers: set<Watcher>, now: real)
      requires timers.Valid() && timers.members == {} && queue.Valid() && watchers <= queue.watchers
      requires forall w :: w in watchers ==> w.active == 0
      ensures Valid() && this.timers == timers && this.queue == queue && this.watchers == watchers
      ensures mn_now == now
    {
      this.timers := timers;
      this.queue := queue;
      this.watchers := watchers;
      mn_now := now;
    }

    /** Starting an inactive timer makes it due `at` seconds from now; an active one is left alone. */
    method TimerStart(w: Watcher)
      requires Valid() && w in watchers
      modifies timers, timers.heap, watchers`active, w`at
      ensures Valid() && w.active != 0
      ensures timers.heap == old(timers.heap) || fresh(timers.heap)
      ensures timers.members == old(timers.members) + {w}
      ensures w.at == if old(w.active) != 0 then old(w.at) else mn_now + old(w.at)
    {
      if w.active != 0 {
        return;
      }
      w.at := w.at + mn_now;
      timers.Insert(w);
      timers.MembersActive();
    }

    /** Stopping a timer also withdraws its pending event; its time becomes relative again. */
    method TimerStop(w: Watcher)
      requires Valid() && w in watchers
      modifies timers`cnt, timers`h, timers`members, timers.heap, watchers`active, w`at, queue`queues, w`pending
      ensures Valid() && w.active == 0 && w.pending == 0
      ensures queue.queues == Clear(old(queue.queues), w, queue.dummy)
      ensures timers.members == old(timers.members) - {w}
      ensures w.at == if old(w.active) != 0 then old(w.at) - mn_now else old(w.at)
    {
      var _ := queue.ClearPending(w);
      if w.active == 0 {
        return;
      }
      Detach(w);
    }

    /** An active timer leaves the heap. */
    method Detach(w: Watcher)
      requires Valid() && w in watchers && w.active != 0
      modifies timers`cnt, timers`h, timers`members, timers.heap, watchers`active, w`at
      ensures Valid() && w.active == 0 && w.at == old(w.at) - mn_now
      ensures timers.members == old(timers.members) - {w}
    {
      timers.Remove(w);
      timers.MembersActive();
      w.at := w.at - mn_now;
      w.active := 0;
    }

    /** An active timer gets a new time. */
    method Postpone(w: Watcher, t: real)
      requires Valid() && w in timers.members
      modifies timers`h, timers.heap, watchers`active, w`at
      ensures Valid() && w.at == t && w.active != 0
    {
      timers.Retime(w, t);
      timers.MembersActive();
    }

    /** ev_timer_again: due `repeat` seconds from now, or stopped when there is no repeat. */
    method TimerAgain(w: Watcher)
      requires Valid() && w in watchers
      modifies timers, timers.heap, watchers`active, w`at, queue`queues, w`pending
      ensures Valid() && w.pending == 0
      ensures timers.heap == old(timers.heap) || fresh(timers.heap)
      ensures queue.queues == Clear(old(queue.queues), w, queue.dummy)
      ensures timers.members == if w.repeat != 0.0 then old(timers.members) + {w} else old(timers.members) - {w}
      ensures w.at == if w.repeat != 0.0 then mn_now + w.repeat
                      else if old(w.active) != 0 then old(w.at) - mn_now else old(w.at)
    {
      var _ := queue.ClearPending(w);
      if w.active != 0 {
        if w.repeat != 0.0 {
          Postpone(w, mn_now + w.repeat);
        } else {
          queue.ClearTwice(old(queue.queues), w);
          TimerStop(w);
        }
      } else if w.repeat != 0.0 {
        StartIn(w, w.repeat);
      }
    }

    method StartIn(w: Watcher, after: real)
      requires Valid() && w in watchers && w.active == 0
      modifies timers, timers.heap, watchers`active, w`at
      ensures Valid() && timers.members == old(timers.members) + {w} && w.at == mn_now + after
      ensures timers.heap == old(timers.heap) || fresh(timers.heap)
    {
      w.at := after;
      TimerStart(w);
    }

    /** The snapshot s shows this loop as it is now. */
    ghost predicate Shows(s: Snapshot)
      reads this, timers, queue`queues, watchers`at, watchers`repeat
    {
      && s.Ok(mn_now) && s.at.Keys == watchers && s.members == timers.members && s.qs == queue.queues
      && (forall w :: w in watchers ==> s.at[w] == w.at)
      && (forall w :: w in s.Expired(mn_now) ==> s.next[w] == AfterTimer(w.at, w.repeat, mn_now))
    }

    /** Reschedule the timer at the root of the heap, or stop it when it does not repeat. */
    method ReifyRoot(ghost s: Snapshot) returns (w: Watcher)
      requires Valid() && Shows(s) && 0 < timers.cnt && timers.heap[HEAP0].at < mn_now
      modifies timers`cnt, timers`h, timers`members, timers.heap
      modifies watchers`active, timers.h[0].w`at, queue`queues, timers.h[0].w`pending
      ensures Valid() && w == old(timers.h[0].w) && w in s.members
      ensures Step(s, w, s.Process(w, mn_now, queue.dummy), mn_now, queue.dummy)
      ensures Shows(s.Process(w, mn_now, queue.dummy))
    {
      w := timers.heap[HEAP0].w;
      RootFacts(s);
      if w.repeat != 0.0 {
        RepeatRoot(s);
      } else {
        StopRoot(s);
      }
    }

    method StopRoot(ghost s: Snapshot)
      requires Valid() && Shows(s) && 0 < timers.cnt && timers.h[0].w.repeat == 0.0
      requires timers.h[0].w in s.Expired(mn_now)
      modifies timers`cnt, timers`h, timers`members, timers.heap
      modifies watchers`active, timers.h[0].w`at, queue`queues, timers.h[0].w`pending
      ensures Valid()
      ensures Shows(s.Process(old(timers.h[0].w), mn_now, queue.dummy))
    {
      FewerExpired(s, timers.h[0].w, mn_now, queue.dummy);
      TimerStop(timers.heap[HEAP0].w);
    }

    method RepeatRoot(ghost s: Snapshot)
      requires Valid() && Shows(s) && 0 < timers.cnt && timers.h[0].w.repeat != 0.0
      requires timers.h[0].w in s.Expired(mn_now)
      modifies timers`h, timers.heap, watchers`active, timers.h[0].w`at
      ensures Valid()
      ensures Shows(s.Process(old(timers.h[0].w), mn_now, queue.dummy))
    {
      var w := timers.heap[HEAP0].w;
      var at := w.at + w.repeat;
      if at < mn_now {
        at := mn_now;
      }
      RenewRoot(s, at);
    }

    method RenewRoot(ghost s: Snapshot, at: real)
      requires Valid() && Shows(s) && 0 < timers.cnt
      requires timers.h[0].w in s.Expired(mn_now) && s.next[timers.h[0].w] == After(at, false)
      modifies timers`h, timers.heap, watchers`active, timers.h[0].w`at
      ensures Valid()
      ensures Shows(s.Process(old(timers.h[0].w), mn_now, queue.dummy))
    {
      FewerExpired(s, timers.h[0].w, mn_now, queue.dummy);
      PostponeRoot(at);
    }

    method PostponeRoot(t: real)
      requires Valid() && 0 < timers.cnt
      modifies timers`h, timers.heap, watchers`active, timers.h[0].w`at
      ensures Valid() && old(timers.h[0].w).at == t
    {
      timers.RetimeRoot(t);
      timers.MembersActive();
    }

    lemma RootFacts(s: Snapshot)
      requires Valid() && Shows(s) && 0 < timers.cnt && timers.heap[HEAP0].at < mn_now
      ensures timers.heap[HEAP0].w == timers.h[0].w && timers.h[0].w in s.Expired(mn_now)
      ensures forall v :: v in s.members ==> s.at[timers.h[0].w] <= s.at[v]
    {
      forall v | v in timers.members ensures timers.h[0].w.at <= v.at {
        timers.RootIsLeast(v);
      }
    }

    lemma NoneExpired(s: Snapshot)
      requires Valid() && Shows(s) && !(0 < timers.cnt && timers.heap[HEAP0].at < mn_now)
      ensures s.Expired(mn_now) == {}
    {
      forall w | w in timers.members ensures !(w.at < mn_now) {
        timers.RootIsLeast(w);
      }
    }

    /** The root is rescheduled or stopped, and noted in rfeeds. */
    method CollectOne(ghost run: seq<Snapshot>) returns (ghost run': seq<Snapshot>)
      requires Run(run, queue.rfeeds, mn_now, queue.dummy)
      requires Valid() && Shows(run[|queue.rfeeds|]) && 0 < timers.cnt && timers.heap[HEAP0].at < mn_now
      modifies queue`rfeeds, timers`cnt, timers`h, timers`members, timers.heap
      modifies watchers`active, watchers`at, queue`queues, watchers`pending
      ensures Run(run', queue.rfeeds, mn_now, queue.dummy) && run'[0] == run[0]
      ensures Valid() && Shows(run'[|queue.rfeeds|])
      ensures run'[|queue.rfeeds|].Expired(mn_now) < run[|old(queue.rfeeds)|].Expired(mn_now)
    {
      ghost var r := run[|queue.rfeeds|];
      var w := ReifyRoot(r);
      run' := Note(w, run, r.Process(w, mn_now, queue.dummy));
    }

    /** feed_reverse touches nothing but rfeeds. */
    method Note(w: Watcher, ghost run: seq<Snapshot>, ghost r: Snapshot) returns (ghost run': seq<Snapshot>)
      requires Run(run, queue.rfeeds, mn_now, queue.dummy) && Step(run[|queue.rfeeds|], w, r, mn_now, queue.dummy)
      requires Valid() && Shows(r)
      modifies queue`rfeeds
      ensures |queue.rfeeds| == |old(queue.rfeeds)| + 1
      ensures Run(run', queue.rfeeds, mn_now, queue.dummy) && run'[0] == run[0] && run'[|queue.rfeeds|] == r
      ensures Valid() && Shows(r) && r.Expired(mn_now) < run[|old(queue.rfeeds)|].Expired(mn_now)
    {
      run' := queue.Note(w, run, r, mn_now);
    }

    /** Timers are taken off the root while it is expired. */
    method CollectExpired(ghost s: Snapshot) returns (ghost run: seq<Snapshot>)
      requires Valid() && Shows(s) && queue.rfeeds == []
      modifies queue`rfeeds, timers`cnt, timers`h, timers`members, timers.heap
      modifies watchers`active, watchers`at, queue`queues, watchers`pending
      ensures Run(run, queue.rfeeds, mn_now, queue.dummy) && run[0] == s
      ensures Valid() && Shows(run[|queue.rfeeds|]) && run[|queue.rfeeds|].Expired(mn_now) == {}
    {
      run := [s];
      while 0 < timers.cnt && timers.heap[HEAP0].at < mn_now
        invariant Run(run, queue.rfeeds, mn_now, queue.dummy) && run[0] == s
        invariant Valid() && Shows(run[|queue.rfeeds|])
        decreases run[|queue.rfeeds|].Expired(mn_now)
      {
        run := CollectOne(run);
      }
      NoneExpired(run[|queue.rfeeds|]);
    }

    /** The noted timers are fed, and nothing else changes. */
    method FeedCollected(ghost r: Snapshot)
      requires Valid() && Shows(r) && forall w :: w in queue.rfeeds ==> w in watchers
      modifies queue, queue.watchers`pending
      ensures Valid() && queue.rfeeds == []
      ensures Shows(r.(qs := FeedReverse(r.qs, old(queue.rfeeds), {Timer})))
    {
      queue.FeedReverseDone({Timer});
    }

    /** The snapshot of this loop. */
    ghost function Snap(): (s: Snapshot)
      requires Valid()
      reads this, timers, timers.heap, queue`queues, watchers`active, watchers`at, watchers`repeat
      reads timers.members`active, timers.members`at, queue.watchers`pending, queue.dummy`pending
      ensures Shows(s)
    {
      Snapshot(map w | w in watchers :: w.at, timers.members, queue.queues,
               map w | w in watchers :: AfterTimer(w.at, w.repeat, mn_now))
    }

    /** timers_reify collects the expired timers, reschedules or stops each, and feeds them in reverse. */
    method CollectAndFeed(ghost s: Snapshot) returns (ghost fired: seq<Watcher>, ghost r: Snapshot)
      requires Valid() && Shows(s) && queue.rfeeds == []
      modifies timers`cnt, timers`h, timers`members, timers.heap
      modifies watchers`active, watchers`at, queue, queue.watchers`pending
      ensures Valid() && queue.rfeeds == []
      ensures Processed(s, fired, r, mn_now, queue.dummy) && r.Expired(mn_now) == {}
      ensures (set w | w in fired) == s.Expired(mn_now)
      ensures Shows(r.(qs := FeedReverse(r.qs, fired, {Timer})))
    {
      // timers_reify tests once before a do-while over the same condition
      ghost var run := CollectExpired(s);
      fired, r := queue.rfeeds, run[|queue.rfeeds|];
      RunProcesses(run, fired, mn_now, queue.dummy);
      FiredAreExpired(s, fired, r, mn_now, queue.dummy);
      FeedCollected(r);
    }

    /**
     * What has become of a timer that expired at `was`: one that repeats is due a `repeat` later, or at
     * once when that has passed too; another one has stopped and keeps the time it was overdue by.
     */
    ghost predicate Settled(w: Watcher, was: real)
      reads this, timers, w`at, w`repeat
    {
      if w.repeat != 0.0 then
        && w in timers.members && mn_now <= w.at && was + w.repeat <= w.at
        && (w.at == mn_now || w.at == was + w.repeat)
      else w !in timers.members && w.at == was - mn_now
    }

    /** What is pending for a timer that expired: EV_TIMER, and what was pending before unless it stopped. */
    ghost predicate Fed(w: Watcher, was: Queues)
      reads queue`queues, w`repeat
    {
      EventsFor(queue.queues, w) == (if w.repeat != 0.0 then EventsFor(was, w) else {}) + {Timer}
    }

    lemma TimesSettled(s: Snapshot, fired: seq<Watcher>, r: Snapshot)
      requires Processed(s, fired, r, mn_now, queue.dummy) && r.Expired(mn_now) == {}
      requires s.at.Keys == watchers && r.members == timers.members
      requires forall w :: w in watchers ==> r.at[w] == w.at && s.next[w] == AfterTimer(s.at[w], w.repeat, mn_now)
      ensures forall w :: w in fired <==> w in s.members && s.at[w] < mn_now
      ensures forall w :: w in fired ==> Settled(w, s.at[w])
      ensures forall w :: w in timers.members ==> mn_now <= w.at
      ensures forall w :: w in watchers && w !in fired ==>
                w.at == s.at[w] && (w in timers.members <==> w in s.members)
    {
      ExpiryOutcome(s, fired, r, mn_now, queue.dummy);
    }

    lemma EventsFed(s: Snapshot, fired: seq<Watcher>, r: Snapshot)
      requires Processed(s, fired, r, mn_now, queue.dummy) && queue.queues == FeedReverse(r.qs, fired, {Timer})
      requires forall w :: w in queue.watchers ==> w != queue.dummy && PendingLaws.Lone(s.qs, w)
      requires s.at.Keys == watchers <= queue.watchers && forall w :: w in queue.watchers ==> w.priority < |s.qs|
      requires forall w :: w in watchers ==> s.next[w] == AfterTimer(s.at[w], w.repeat, mn_now)
      ensures forall w :: w in fired ==> Fed(w, s.qs)
      ensures forall w :: w in queue.watchers && w !in fired ==> EventsFor(queue.queues, w) == EventsFor(s.qs, w)
    {
      DeadlineOrder.ExpiryEvents(s, fired, r, mn_now, queue.dummy, {Timer}, queue.watchers);
    }

    /**
     * timers_reify: exactly the expired timers have EV_TIMER fed and are renewed or stopped; then none
     * is expired. `fired` is the order in which they came off the heap; they are fed in reverse.
     */
    method TimersReify() returns (ghost s: Snapshot, ghost fired: seq<Watcher>, ghost r: Snapshot)
      requires Valid() && queue.rfeeds == []
      modifies timers`cnt, timers`h, timers`members, timers.heap
      modifies watchers`active, watchers`at, queue, queue.watchers`pending
      ensures Valid() && queue.rfeeds == []
      ensures s == old(Snap()) && Processed(s, fired, r, mn_now, queue.dummy)
      ensures queue.queues == FeedReverse(r.qs, fired, {Timer})
      ensures forall w :: w in fired <==> w in old(timers.members) && old(w.at) < mn_now
      ensures forall w :: w in fired ==> Settled(w, old(w.at)) && Fed(w, old(queue.queues))
      ensures forall w :: w in timers.members ==> mn_now <= w.at
      ensures forall w :: w in watchers && w !in fired ==>
                w.at == old(w.at) && (w in timers.members <==> w in old(timers.members))
      ensures forall w :: w in queue.watchers && w !in fired ==>
                EventsFor(queue.queues, w) == EventsFor(old(queue.queues), w)
    {
      s := Snap();
      queue.OneSlotEach();
      fired, r := CollectAndFeed(s);
      TimesSettled(s, fired, r);
      EventsFed(s, fired, r);
    }

    method ShiftOne(i: nat, adjust: real)
      requires timers.Shaped() && HEAP0 <= i < HEAP0 + timers.cnt
      modifies timers`h, timers.heap, timers.h[i - HEAP0].w`at
      ensures timers.Shaped()
      ensures timers.h == var e := old(timers.h[i - HEAP0]); old(timers.h)[i - HEAP0 := Entry(e.at + adjust, e.w)]
    {
      var w := timers.heap[i].w;
      timers.SetTime(i, w.at + adjust);
    }

    /** Every entry's time is shifted. */
    method ShiftAll(adjust: real)
      requires timers.Shaped() && timers.members <= watchers
      modifies timers`h, timers.heap, watchers`at
      ensures timers.Shaped() && |timers.h| == old(|timers.h|)
      ensures forall k :: 0 <= k < |timers.h| ==> var e := old(timers.h)[k]; timers.h[k] == Entry(e.at + adjust, e.w)
    {
      ghost var was := timers.h;
      assert forall k :: 0 <= k < |was| ==> was[k].w in timers.members;
      for i := 0 to timers.cnt
        invariant timers.Shaped() && |timers.h| == |was|
        invariant forall k :: i <= k < |was| ==> timers.h[k] == was[k]
        invariant forall k :: 0 <= k < i ==> timers.h[k] == Entry(was[k].at + adjust, was[k].w)
      {
        ShiftOne(i + HEAP0, adjust);
      }
    }

    /**
     * timers_reschedule: every active timer's time is shifted by the same amount. The heap is left in
     * order, though it is not rebuilt.
     */
    method TimersReschedule(adjust: real)
      requires Valid()
      modifies timers`h, timers.heap, watchers`at
      ensures Valid() && timers.members == old(timers.members)
      ensures forall w :: w in timers.members ==> w.at == old(w.at) + adjust
    {
      ghost var was := timers.h;
      AllPresent(was, timers.members);
      ShiftAll(adjust);
      ShiftedOrdered(was, timers.h, adjust);
    }
  }
}
