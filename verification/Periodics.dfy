/** Absolute timers: ev_periodic_start, _stop, _again, periodics_reify and periodics_reschedule. */
module Periodics {
  import opened Watchers
  import opened HeapSpec
  import opened WatcherHeap
  import opened PendingSpec
  import opened PendingQueues
  import opened Expiry
  import opened LoopTime
  import DeadlineOrder
  import PendingLaws

  /** The time a repeating periodic gets at loop time `now`: from its callback or from its interval. */
  function Renewed(cb: map<Watcher, real -> real>, w: Watcher, offset: real, interval: real, now: real): real
    requires w in cb || 0.0 < interval
  {
    if w in cb then cb[w](now) else RecalcTime(offset, interval, now)
  }

  class PeriodicLoop {
    const periodics: Heap
    const queue: Pending
    const reschedule: map<Watcher, real -> real>  // the watchers that have a reschedule_cb, and it
    ghost const watchers: set<Watcher>            // every ev_periodic
    var ev_rt_now: real

    /** A periodic is active exactly when it is in the heap. */
    ghost predicate Valid()
      reads this, periodics, periodics.heap, queue`queues, watchers`active, watchers`at, watchers`interval
      reads periodics.members`active, periodics.members`at, queue.watchers`pending, queue.dummy`pending
    {
      && periodics.Valid() && queue.Valid()
      && periodics.members <= watchers <= queue.watchers
      && (forall w :: w in watchers ==> (w.active != 0 <==> w in periodics.members) && 0.0 <= w.interval)
    }

    constructor (periodics: Heap, queue: Pending, reschedule: map<Watcher, real -> real>,
            ghost watchers: set<Watcher>, now: real)
      requires periodics.Valid() && periodics.members == {} && queue.Valid() && watchers <= queue.watchers
      requires forall w :: w in watchers ==> w.active == 0 && 0.0 <= w.interval
      ensures Valid() && this.periodics == periodics && this.queue == queue && this.watchers == watchers
      ensures this.reschedule == reschedule && ev_rt_now == now
    {
      this.periodics := periodics;
      this.queue := queue;
      this.reschedule := reschedule;
      this.watchers := watchers;
      ev_rt_now := now;
    }

    predicate Repeats(w: Watcher)
      reads w`interval
    {
      w in reschedule || w.interval != 0.0
    }

    /**
     * `at` is a repeating periodic's next time: what its callback says, if it has one, whatever its
     * interval. Otherwise it is after the loop's time and at most one interval away, and the first such
     * time congruent to the offset when the interval is at least MIN_INTERVAL.
     */
    ghost predicate NextTime(w: Watcher, at: real)
      reads this`ev_rt_now, w`offset, w`interval
    {
      if w in reschedule then at == reschedule[w](ev_rt_now)
      else
        && 0.0 < w.interval && ev_rt_now < at <= ev_rt_now + w.interval
        && (MIN_INTERVAL <= w.interval ==> FirstAfter(at, ev_rt_now, w.offset, w.interval))
    }

    lemma RenewedIsNext(w: Watcher)
      requires 0.0 <= w.interval && Repeats(w)
      ensures NextTime(w, Renewed(reschedule, w, w.offset, w.interval, ev_rt_now))
    {
      if w !in reschedule {
        RecalcIsFirst(w.offset, w.interval, ev_rt_now);
      }
    }

    /** ev_at (w) is computed anew for a periodic that repeats. */
    method Renew(w: Watcher) returns (at: real)
      requires 0.0 <= w.interval && Repeats(w)
      ensures at == Renewed(reschedule, w, w.offset, w.interval, ev_rt_now) && NextTime(w, at)
    {
      RenewedIsNext(w);
      if w in reschedule {
        at := reschedule[w](ev_rt_now);
      } else {
        at := PeriodicRecalc(w.offset, w.interval, ev_rt_now);
      }
    }

    /** Starting an inactive periodic makes it due at its next time, or at its offset if it is a one-shot. */
    method PeriodicStart(w: Watcher)
      requires Valid() && w in watchers
      modifies periodics, periodics.heap, watchers`active, w`at
      ensures Valid() && w.active != 0
      ensures periodics.heap == old(periodics.heap) || fresh(periodics.heap)
      ensures periodics.members == old(periodics.members) + {w}
      ensures old(w.active) != 0 ==> w.at == old(w.at)
      ensures old(w.active) == 0 ==> if Repeats(w) then NextTime(w, w.at) else w.at == w.offset
    {
      if w.active != 0 {
        return;
      }
      var at := w.offset;
      if Repeats(w) {
        at := Renew(w);
      }
      StartAt(w, at);
    }

    method StartAt(w: Watcher, at: real)
      requires Valid() && w in watchers && w.active == 0
      modifies periodics, periodics.heap, watchers`active, w`at
      ensures Valid() && w.active != 0 && w.at == at && periodics.members == old(periodics.members) + {w}
      ensures periodics.heap == old(periodics.heap) || fresh(periodics.heap)
    {
      w.at := at;
      periodics.Insert(w);
      periodics.MembersActive();
    }

    method PeriodicStop(w: Watcher)
      requires Valid() && w in watchers
      modifies periodics`cnt, periodics`h, periodics`members, periodics.heap, watchers`active, queue`queues, w`pending
      ensures Valid() && w.active == 0 && w.pending == 0
      ensures queue.queues == Clear(old(queue.queues), w, queue.dummy)
      ensures periodics.members == old(periodics.members) - {w}
    {
      var _ := queue.ClearPending(w);
      if w.active == 0 {
        return;
      }
      Detach(w);
    }

    /** An active periodic leaves the heap. */
    method Detach(w: Watcher)
      requires Valid() && w in watchers && w.active != 0
      modifies periodics`cnt, periodics`h, periodics`members, periodics.heap, watchers`active
      ensures Valid() && w.active == 0 && periodics.members == old(periodics.members) - {w}
    {
      periodics.Remove(w);
      periodics.MembersActive();
      w.active := 0;
    }

    /** ev_periodic_again: stopped and started. */
    method PeriodicAgain(w: Watcher)
      requires Valid() && w in watchers
      modifies periodics, periodics.heap, watchers`active, w`at, queue`queues, w`pending
      ensures Valid() && w.active != 0 && w.pending == 0
      ensures periodics.heap == old(periodics.heap) || fresh(periodics.heap)
      ensures queue.queues == Clear(old(queue.queues), w, queue.dummy)
      ensures periodics.members == old(periodics.members) + {w}
      ensures if Repeats(w) then NextTime(w, w.at) else w.at == w.offset
    {
      PeriodicStop(w);
      PeriodicStart(w);
    }

    /** What becomes of an expired periodic: a repeating one is renewed, another one stops as it is. */
    ghost function AfterPeriodic(w: Watcher): After
      requires 0.0 <= w.interval
      reads this`ev_rt_now, w`offset, w`interval, w`at
    {
      if Repeats(w) then After(Renewed(reschedule, w, w.offset, w.interval, ev_rt_now), false) else After(w.at, true)
    }

    /** The snapshot s shows this loop as it is now. */
    ghost predicate Shows(s: Snapshot)
      reads this, periodics, queue`queues, watchers`at, watchers`offset, watchers`interval
    {
      && s.Ok(ev_rt_now) && s.at.Keys == watchers && s.members == periodics.members && s.qs == queue.queues
      && (forall w :: w in watchers ==> s.at[w] == w.at)
      && (forall w :: w in s.Expired(ev_rt_now) ==> 0.0 <= w.interval && s.next[w] == AfterPeriodic(w))
    }

    /** Reschedule the periodic at the root of the heap, or stop it when it does not repeat. */
    method ReifyRoot(ghost s: Snapshot) returns (w: Watcher)
      requires Valid() && Shows(s) && 0 < periodics.cnt && periodics.heap[HEAP0].at < ev_rt_now
      modifies periodics`cnt, periodics`h, periodics`members, periodics.heap
      modifies watchers`active, periodics.h[0].w`at, queue`queues, periodics.h[0].w`pending
      ensures Valid() && w == old(periodics.h[0].w) && w in s.members
      ensures Step(s, w, s.Process(w, ev_rt_now, queue.dummy), ev_rt_now, queue.dummy)
      ensures Shows(s.Process(w, ev_rt_now, queue.dummy))
    {
      w := periodics.heap[HEAP0].w;
      RootFacts(s);
      if Repeats(w) {
        var at := Renew(w);
        RenewRoot(s, at);
      } else {
        StopRoot(s);
      }
    }

    method StopRoot(ghost s: Snapshot)
      requires Valid() && Shows(s) && 0 < periodics.cnt && !Repeats(periodics.h[0].w)
      requires periodics.h[0].w in s.Expired(ev_rt_now)
      modifies periodics`cnt, periodics`h, periodics`members, periodics.heap
      modifies watchers`active, queue`queues, periodics.h[0].w`pending
      ensures Valid()
      ensures Shows(s.Process(old(periodics.h[0].w), ev_rt_now, queue.dummy))
    {
      FewerExpired(s, periodics.h[0].w, ev_rt_now, queue.dummy);
      PeriodicStop(periodics.heap[HEAP0].w);
    }

    method RenewRoot(ghost s: Snapshot, at: real)
      requires Valid() && Shows(s) && 0 < periodics.cnt
      requires periodics.h[0].w in s.Expired(ev_rt_now) && s.next[periodics.h[0].w] == After(at, false)
      modifies periodics`h, periodics.heap, watchers`active, periodics.h[0].w`at
      ensures Valid()
      ensures Shows(s.Process(old(periodics.h[0].w), ev_rt_now, queue.dummy))
    {
      FewerExpired(s, periodics.h[0].w, ev_rt_now, queue.dummy);
      PostponeRoot(at);
    }

    method PostponeRoot(t: real)
      requires Valid() && 0 < periodics.cnt
      modifies periodics`h, periodics.heap, watchers`active, periodics.h[0].w`at
      ensures Valid() && old(periodics.h[0].w).at == t
    {
      periodics.RetimeRoot(t);
      periodics.MembersActive();
    }

    lemma RootFacts(s: Snapshot)
      requires Valid() && Shows(s) && 0 < periodics.cnt && periodics.heap[HEAP0].at < ev_rt_now
      ensures periodics.heap[HEAP0].w == periodics.h[0].w && periodics.h[0].w in s.Expired(ev_rt_now)
      ensures forall v :: v in s.members ==> s.at[periodics.h[0].w] <= s.at[v]
    {
      LeastOfAll(periodics);
    }

    lemma NoneExpired(s: Snapshot)
      requires Valid() && Shows(s) && !(0 < periodics.cnt && periodics.heap[HEAP0].at < ev_rt_now)
      ensures s.Expired(ev_rt_now) == {}
    {
      if periodics.cnt == 0 {
        NoMembers(periodics);
      } else {
        LeastOfAll(periodics);
      }
    }

    /** The root is rescheduled or stopped, and noted in rfeeds. */
    method CollectOne(ghost run: seq<Snapshot>) returns (ghost run': seq<Snapshot>)
      requires Run(run, queue.rfeeds, ev_rt_now, queue.dummy)
      requires Valid() && Shows(run[|queue.rfeeds|]) && 0 < periodics.cnt && periodics.heap[HEAP0].at < ev_rt_now
      modifies queue`rfeeds, periodics`cnt, periodics`h, periodics`members, periodics.heap
      modifies watchers`active, watchers`at, queue`queues, watchers`pending
      ensures Run(run', queue.rfeeds, ev_rt_now, queue.dummy) && run'[0] == run[0]
      ensures Valid() && Shows(run'[|queue.rfeeds|])
      ensures run'[|queue.rfeeds|].Expired(ev_rt_now) < run[|old(queue.rfeeds)|].Expired(ev_rt_now)
    {
      ghost var r := run[|queue.rfeeds|];
      var w := ReifyRoot(r);
      run' := Note(w, run, r.Process(w, ev_rt_now, queue.dummy));
    }

    /** feed_reverse touches nothing but rfeeds. */
    method Note(w: Watcher, ghost run: seq<Snapshot>, ghost r: Snapshot) returns (ghost run': seq<Snapshot>)
      requires Run(run, queue.rfeeds, ev_rt_now, queue.dummy) && Step(run[|queue.rfeeds|], w, r, ev_rt_now, queue.dummy)
      requires Valid() && Shows(r)
      modifies queue`rfeeds
      ensures |queue.rfeeds| == |old(queue.rfeeds)| + 1
      ensures Run(run', queue.rfeeds, ev_rt_now, queue.dummy) && run'[0] == run[0] && run'[|queue.rfeeds|] == r
      ensures Valid() && Shows(r) && r.Expired(ev_rt_now) < run[|old(queue.rfeeds)|].Expired(ev_rt_now)
    {
      run' := queue.Note(w, run, r, ev_rt_now);
    }

    /** Periodics are taken off the root while it is expired. */
    method CollectExpired(ghost s: Snapshot) returns (ghost run: seq<Snapshot>)
      requires Valid() && Shows(s) && queue.rfeeds == []
      modifies queue`rfeeds, periodics`cnt, periodics`h, periodics`members, periodics.heap
      modifies watchers`active, watchers`at, queue`queues, watchers`pending
      ensures Run(run, queue.rfeeds, ev_rt_now, queue.dummy) && run[0] == s
      ensures Valid() && Shows(run[|queue.rfeeds|]) && run[|queue.rfeeds|].Expired(ev_rt_now) == {}
    {
      run := [s];
      while 0 < periodics.cnt && periodics.heap[HEAP0].at < ev_rt_now
        invariant Run(run, queue.rfeeds, ev_rt_now, queue.dummy) && run[0] == s
        invariant Valid() && Shows(run[|queue.rfeeds|])
        decreases run[|queue.rfeeds|].Expired(ev_rt_now)
      {
        run := CollectOne(run);
      }
      NoneExpired(run[|queue.rfeeds|]);
    }

    /** The noted periodics are fed, and nothing else changes. */
    method FeedCollected(ghost r: Snapshot)
      requires Valid() && Shows(r) && forall w :: w in queue.rfeeds ==> w in watchers
      modifies queue, queue.watchers`pending
      ensures Valid() && queue.rfeeds == []
      ensures Shows(r.(qs := FeedReverse(r.qs, old(queue.rfeeds), {Periodic})))
    {
      queue.FeedReverseDone({Periodic});
    }

    /** periodics_reify collects the expired periodics, renews or stops each, and feeds them in reverse. */
    method CollectAndFeed(ghost s: Snapshot) returns (ghost fired: seq<Watcher>, ghost r: Snapshot)
      requires Valid() && Shows(s) && queue.rfeeds == []
      modifies periodics`cnt, periodics`h, periodics`members, periodics.heap
      modifies watchers`active, watchers`at, queue, queue.watchers`pending
      ensures Valid() && queue.rfeeds == []
      ensures Processed(s, fired, r, ev_rt_now, queue.dummy) && r.Expired(ev_rt_now) == {}
      ensures (set w | w in fired) == s.Expired(ev_rt_now)
      ensures Shows(r.(qs := FeedReverse(r.qs, fired, {Periodic})))
    {
      // the outer loop of periodics_reify would go round again only if one were still expired
      ghost var run := CollectExpired(s);
      fired, r := queue.rfeeds, run[|queue.rfeeds|];
      RunProcesses(run, fired, ev_rt_now, queue.dummy);
      FiredAreExpired(s, fired, r, ev_rt_now, queue.dummy);
      FeedCollected(r);
    }

    /** The callbacks of expired periodics return a time that is not in the past, as periodics_reify asserts. */
    ghost predicate CallbacksAdvance()
      reads this, periodics`members, watchers`at
    {
      forall w :: w in periodics.members && w in watchers && w.at < ev_rt_now && w in reschedule ==>
                    ev_rt_now <= reschedule[w](ev_rt_now)
    }

    /** `a` is what becomes of a periodic that expires at `was`. */
    ghost predicate Due(w: Watcher, a: After, was: real)
      reads this`ev_rt_now, w`offset, w`interval
    {
      if Repeats(w) then !a.stops && NextTime(w, a.at) else a == After(was, true)
    }

    /** The snapshot of this loop. */
    ghost function Snap(): (s: Snapshot)
      requires Valid() && CallbacksAdvance()
      reads this, periodics, periodics.heap, queue`queues, watchers`active, watchers`at, watchers`offset
      reads watchers`interval
      reads periodics.members`active, periodics.members`at, queue.watchers`pending, queue.dummy`pending
      ensures Shows(s) && forall w :: w in s.Expired(ev_rt_now) ==> Due(w, s.next[w], s.at[w])
    {
      RenewedAdvance();
      Snapshot(map w | w in watchers :: w.at, periodics.members, queue.queues,
               map w | w in watchers ::
                 if w in periodics.members && w.at < ev_rt_now then AfterPeriodic(w) else After(w.at, true))
    }

    lemma RenewedAdvance()
      requires Valid() && CallbacksAdvance()
      ensures forall w :: w in periodics.members && w.at < ev_rt_now && Repeats(w) ==>
                var at := Renewed(reschedule, w, w.offset, w.interval, ev_rt_now); ev_rt_now <= at && NextTime(w, at)
    {
      forall w | w in periodics.members && w.at < ev_rt_now && Repeats(w)
        ensures var at := Renewed(reschedule, w, w.offset, w.interval, ev_rt_now); ev_rt_now <= at && NextTime(w, at)
      {
        RenewedIsNext(w);
      }
    }

    /** What has become of a periodic that expired at `was`: it has its next time, or it has stopped. */
    ghost predicate Settled(w: Watcher, was: real)
      reads this, periodics, w`at, w`offset, w`interval
    {
      if Repeats(w) then w in periodics.members && NextTime(w, w.at)
      else w !in periodics.members && w.at == was
    }

    /** What is pending for a periodic that expired: EV_PERIODIC, and what was pending before unless it stopped. */
    ghost predicate Fed(w: Watcher, was: Queues)
      reads queue`queues, w`interval
    {
      EventsFor(queue.queues, w) == (if Repeats(w) then EventsFor(was, w) else {}) + {Periodic}
    }

    lemma TimesSettled(s: Snapshot, fired: seq<Watcher>, r: Snapshot)
      requires Processed(s, fired, r, ev_rt_now, queue.dummy) && r.Expired(ev_rt_now) == {}
      requires s.at.Keys == watchers && r.members == periodics.members
      requires forall w :: w in watchers ==> 0.0 <= w.interval && r.at[w] == w.at
      requires forall w :: w in s.Expired(ev_rt_now) ==> Due(w, s.next[w], s.at[w])
      ensures forall w :: w in fired <==> w in s.members && s.at[w] < ev_rt_now
      ensures forall w :: w in fired ==> Settled(w, s.at[w])
      ensures forall w :: w in periodics.members ==> ev_rt_now <= w.at
      ensures forall w :: w in watchers && w !in fired ==>
                w.at == s.at[w] && (w in periodics.members <==> w in s.members)
    {
      ExpiryOutcome(s, fired, r, ev_rt_now, queue.dummy);
    }

    lemma EventsFed(s: Snapshot, fired: seq<Watcher>, r: Snapshot)
      requires Processed(s, fired, r, ev_rt_now, queue.dummy) && queue.queues == FeedReverse(r.qs, fired, {Periodic})
      requires forall w :: w in queue.watchers ==> w != queue.dummy && PendingLaws.Lone(s.qs, w)
      requires s.at.Keys == watchers <= queue.watchers && forall w :: w in queue.watchers ==> w.priority < |s.qs|
      requires forall w :: w in s.Expired(ev_rt_now) ==> Due(w, s.next[w], s.at[w])
      ensures forall w :: w in fired ==> Fed(w, s.qs)
      ensures forall w :: w in queue.watchers && w !in fired ==> EventsFor(queue.queues, w) == EventsFor(s.qs, w)
    {
      DeadlineOrder.ExpiryEvents(s, fired, r, ev_rt_now, queue.dummy, {Periodic}, queue.watchers);
    }

    /**
     * periodics_reify: exactly the expired periodics have EV_PERIODIC fed and are renewed or stopped;
     * then none is expired.
     */
    method PeriodicsReify() returns (ghost s: Snapshot, ghost fired: seq<Watcher>, ghost r: Snapshot)
      requires Valid() && CallbacksAdvance() && queue.rfeeds == []
      modifies periodics`cnt, periodics`h, periodics`members, periodics.heap
      modifies watchers`active, watchers`at, queue, queue.watchers`pending
      ensures Valid() && queue.rfeeds == []
      ensures s == old(Snap()) && Processed(s, fired, r, ev_rt_now, queue.dummy)
      ensures queue.queues == FeedReverse(r.qs, fired, {Periodic})
      ensures forall w :: w in fired <==> w in old(periodics.members) && old(w.at) < ev_rt_now
      ensures forall w :: w in fired ==> Settled(w, old(w.at)) && Fed(w, old(queue.queues))
      ensures forall w :: w in periodics.members ==> ev_rt_now <= w.at
      ensures forall w :: w in watchers && w !in fired ==>
                w.at == old(w.at) && (w in periodics.members <==> w in old(periodics.members))
      ensures forall w :: w in queue.watchers && w !in fired ==>
                EventsFor(queue.queues, w) == EventsFor(old(queue.queues), w)
    {
      s := Snap();
      queue.OneSlotEach();
      fired, r := CollectAndFeed(s);
      TimesSettled(s, fired, r);
      EventsFed(s, fired, r);
    }

    /** The time a periodic with time `at` gets when all are rescheduled: a one-shot keeps its own. */
    ghost function Rescheduled(at: real, w: Watcher): real
      requires 0.0 <= w.interval
      reads this`ev_rt_now, w`offset, w`interval
    {
      if Repeats(w) then Renewed(reschedule, w, w.offset, w.interval, ev_rt_now) else at
    }

    method RescheduleOne(i: nat)
      requires periodics.Shaped() && HEAP0 <= i < HEAP0 + periodics.cnt && 0.0 <= periodics.h[i - HEAP0].w.interval
      modifies periodics`h, periodics.heap, periodics.h[i - HEAP0].w`at
      ensures periodics.Shaped()
      ensures var e := old(periodics.h[i - HEAP0]);
              periodics.h == old(periodics.h)[i - HEAP0 := Entry(Rescheduled(e.at, e.w), e.w)]
    {
      var w := periodics.heap[i].w;
      var at := w.at;
      if Repeats(w) {
        at := Renew(w);
      }
      periodics.SetTime(i, at);
    }

    /** Every active periodic gets its new time, in whatever order that leaves them. */
    method RescheduleAll()
      requires periodics.Shaped() && periodics.members <= watchers
      requires forall w :: w in periodics.members ==> 0.0 <= w.interval
      modifies periodics`h, periodics.heap, watchers`at
      ensures periodics.Shaped() && |periodics.h| == old(|periodics.h|)
      ensures forall k :: 0 <= k < |periodics.h| ==> var e := old(periodics.h)[k];
                0.0 <= e.w.interval && periodics.h[k] == Entry(Rescheduled(e.at, e.w), e.w)
    {
      ghost var was := periodics.h;
      assert forall k :: 0 <= k < |was| ==> was[k].w in periodics.members;
      for i := HEAP0 to periodics.cnt + HEAP0
        invariant periodics.Shaped() && |periodics.h| == |was|
        invariant forall k :: i - HEAP0 <= k < |was| ==> periodics.h[k] == was[k]
        invariant forall k :: 0 <= k < i - HEAP0 ==> periodics.h[k] == Entry(Rescheduled(was[k].at, was[k].w), was[k].w)
      {
        RescheduleOne(i);
      }
    }

    method RescheduleMembers()
      requires periodics.Shaped() && periodics.members <= watchers
      requires forall w :: w in periodics.members ==> 0.0 <= w.interval
      modifies periodics`h, periodics.heap, watchers`at
      ensures periodics.Shaped() && forall w :: w in periodics.members ==> w.at == Rescheduled(old(w.at), w)
    {
      RescheduleAll();
      AllPresent(periodics.h, periodics.members);
    }

    /**
     * periodics_reschedule, after the clock jumped: every active periodic that repeats is renewed, a
     * one-shot keeps its time, and the heap is rebuilt.
     */
    method PeriodicsReschedule()
      requires Valid()
      modifies periodics`h, periodics.heap, watchers`active, watchers`at
      ensures Valid()
      ensures periodics.members == old(periodics.members)
      ensures forall w :: w in periodics.members ==> if Repeats(w) then NextTime(w, w.at) else w.at == old(w.at)
    {
      RescheduleMembers();
      periodics.Rebuild();
      periodics.MembersActive();
      forall w | w in periodics.members && Repeats(w) ensures NextTime(w, w.at) {
        RenewedIsNext(w);
      }
    }
  }
}
