/** The reverse feed of timers_reify and the last-in-first-out queues together invoke timers in order. */
module DeadlineOrder {
  import opened Watchers
  import opened PendingSpec
  import opened PendingLaws
  import opened Expiry

  lemma ClearedStaysCleared(qs: Queues, v: Watcher, dummy: Watcher, w: Watcher)
    requires !IsPending(qs, w) && w != dummy
    ensures !IsPending(Clear(qs, v, dummy), w)
  {
    if w.priority < |qs| {
      NotInQueue(qs[w.priority], w);
    }
  }

  lemma {:induction false} NotInQueue(q: seq<Slot>, w: Watcher)
    requires Position(q, w) == |q|
    ensures forall i :: 0 <= i < |q| ==> q[i].w != w
  {
  }

  /** Processing expired timers makes nothing pending. */
  lemma {:induction false} ProcessingKeepsQuiet(s: Snapshot, fired: seq<Watcher>, now: real, dummy: Watcher, p: nat,
          d: map<Watcher, real>)
    requires s.Ok(now) && NoRepeats(fired) && forall w :: w in fired ==> w in s.members
    requires InOrder(s.qs, dummy, p, d) && forall w :: w in d ==> !IsPending(s.qs, w)
    ensures var r := ProcessAll(s, fired, now, dummy);
            InOrder(r.qs, dummy, p, d) && |r.qs| == |s.qs| && forall w :: w in d ==> !IsPending(r.qs, w)
  {
    if fired != [] {
      var n := |fired| - 1;
      assert fired[n] !in fired[..n];
      ProcessingKeepsQuiet(s, fired[..n], now, dummy, p, d);
      var r := ProcessAll(s, fired[..n], now, dummy);
      ClearInOrder(r.qs, fired[n], dummy, p, d);
      forall w | w in d ensures !IsPending(Clear(r.qs, fired[n], dummy), w) {
        ClearedStaysCleared(r.qs, fired[n], dummy, w);
      }
    }
  }

  /** The events that are pending for w in the end: a watcher that stops loses those it had. */
  ghost function FedEvents(s: Snapshot, fired: seq<Watcher>, events: Mask, w: Watcher): Mask
    requires w in fired ==> w in s.next
  {
    (if w in fired && s.next[w].stops then {} else EventsFor(s.qs, w)) + (if w in fired then events else {})
  }

  /** What is pending once the expired watchers have been collected and fed. */
  lemma ExpiryEvents(s: Snapshot, fired: seq<Watcher>, r: Snapshot, now: real, dummy: Watcher, events: Mask,
          ws: set<Watcher>)
    requires Processed(s, fired, r, now, dummy) && forall v :: v in s.members ==> v.priority < |s.qs|
    requires forall w :: w in ws ==> w != dummy && Lone(s.qs, w)
    ensures forall w :: w in fired ==> w in s.members
    ensures forall w :: w in ws ==>
              EventsFor(FeedReverse(r.qs, fired, events), w) == FedEvents(s, fired, events, w)
  {
    FiredAreExpired(s, fired, r, now, dummy);
    forall w | w in ws
      ensures EventsFor(FeedReverse(r.qs, fired, events), w) == FedEvents(s, fired, events, w)
    {
      ProcessedEvents(s, fired, now, dummy, w);
      RowFedExactly(r.qs, fired, events, w);
    }
  }

  /** ws are distinct and in order of d. */
  ghost predicate Ascending(ws: seq<Watcher>, d: map<Watcher, real>) {
    && (forall i :: 0 <= i < |ws| ==> ws[i] in d)
    && forall i, j :: 0 <= i < j < |ws| ==> ws[i] != ws[j] && d[ws[i]] <= d[ws[j]]
  }

  /** Feeding an ascending row last one first leaves every queue latest first. */
  lemma {:induction false} FedLatestFirst(qs: Queues, ws: seq<Watcher>, events: Mask, dummy: Watcher, p: nat,
          d: map<Watcher, real>)
    requires InOrder(qs, dummy, p, d) && Ascending(ws, d)
    requires forall i :: 0 <= i < |ws| ==> !IsPending(qs, ws[i])
    requires forall i, u :: 0 <= i < |ws| && u in Timed(qs[p], p, d) ==> d[ws[i]] <= d[u]
    ensures InOrder(FeedReverse(qs, ws, events), dummy, p, d)
    decreases |ws|
  {
    if ws != [] {
      var n := |ws| - 1;
      var w := ws[n];
      var fed := Feed(qs, w, events);
      FeedKeepsOrder(qs, w, events, dummy, p, d);
      forall i | 0 <= i < n ensures !IsPending(fed, ws[i]) {
        if w.priority < |qs| {
          FeedExactly(qs, w, events, ws[i]);
        }
      }
      FedLatestFirst(fed, ws[..n], events, dummy, p, d);
    }
  }

  /** Feeding a watcher that is earlier than all that are queued. */
  lemma FeedKeepsOrder(qs: Queues, w: Watcher, events: Mask, dummy: Watcher, p: nat, d: map<Watcher, real>)
    requires InOrder(qs, dummy, p, d) && w in d && !IsPending(qs, w)
    requires forall u :: u in Timed(qs[p], p, d) ==> d[w] <= d[u]
    ensures InOrder(Feed(qs, w, events), dummy, p, d)
    ensures Timed(Feed(qs, w, events)[p], p, d) <= Timed(qs[p], p, d) + {w}
  {
    if w.priority == p {
      TimedAppend(qs[p], [Slot(w, events)], p, d);
      AppendedLatestFirst(qs[p], Slot(w, events), p, d);
    }
  }

  lemma AppendedLatestFirst(q: seq<Slot>, s: Slot, p: nat, d: map<Watcher, real>)
    requires LatestFirst(q, p, d) && At(s, p, d) && forall u :: u in Timed(q, p, d) ==> d[s.w] <= d[u]
    ensures LatestFirst(q + [s], p, d)
  {
    forall i | 0 <= i < |q| && At(q[i], p, d) ensures d[s.w] <= d[q[i].w] {
      assert q[i].w in Timed(q, p, d);
    }
  }

  /** Feeding a row adds the events to those of each of its watchers, and to no other. */
  lemma {:induction false} RowFedExactly(qs: Queues, ws: seq<Watcher>, events: Mask, w: Watcher)
    requires forall i :: 0 <= i < |ws| ==> ws[i].priority < |qs|
    ensures EventsFor(FeedReverse(qs, ws, events), w) == EventsFor(qs, w) + (if w in ws then events else {})
    decreases |ws|
  {
    if ws != [] {
      var n := |ws| - 1;
      assert ws == ws[..n] + [ws[n]];
      FeedExactly(qs, ws[n], events, w);
      RowFedExactly(Feed(qs, ws[n], events), ws[..n], events, w);
    }
  }

  /** Processing an expired watcher withdraws what was pending for it if it stops, and nothing else. */
  lemma {:induction false} ProcessedEvents(s: Snapshot, fired: seq<Watcher>, now: real, dummy: Watcher, w: Watcher)
    requires s.Ok(now) && NoRepeats(fired) && forall v :: v in fired ==> v in s.members
    requires w != dummy && Lone(s.qs, w)
    ensures var r := ProcessAll(s, fired, now, dummy);
            && Lone(r.qs, w) && |r.qs| == |s.qs|
            && EventsFor(r.qs, w) == if w in fired && s.next[w].stops then {} else EventsFor(s.qs, w)
  {
    if fired != [] {
      var n := |fired| - 1;
      var v := fired[n];
      assert v !in fired[..n];
      assert fired == fired[..n] + [v];
      ProcessedEvents(s, fired[..n], now, dummy, w);
      var r := ProcessAll(s, fired[..n], now, dummy);
      if s.next[v].stops {
        if v == w {
          ClearUnnames(r.qs, dummy, w);
        } else {
          ClearSame(r.qs, v, dummy, w);
        }
      }
    }
  }

  /**
   * Timers that expire together are all invoked with EV_TIMER unless a callback clears them, and
   * those of one priority are invoked in order of their deadlines, whatever callbacks clear, feed to
   * other watchers or re-enter. (Given that none of them was pending before.)
   */
  lemma TimersFireInDeadlineOrder(s: Snapshot, fired: seq<Watcher>, r: Snapshot, now: real, dummy: Watcher,
          script: Script, p: nat)
    requires Processed(s, fired, r, now, dummy) && Homed(s.qs, dummy) && p < |s.qs|
    requires forall w :: w in s.Expired(now) ==> w != dummy && w.priority < |s.qs| && !IsPending(s.qs, w)
    ensures var d := map w | w in s.Expired(now) :: s.at[w];
            var log := Drain(FeedReverse(r.qs, fired, {Timer}), dummy, script).log;
            && (NeverFeeds(script, d) ==> EarliestFirst(log, p, d))
            && (forall w :: w in fired && NeverClears(script, w) ==> Reported(log, w, Timer))
  {
    var d := map w | w in s.Expired(now) :: s.at[w];
    var qs := FeedReverse(r.qs, fired, {Timer});
    forall w | w in fired ensures w in s.members && w in d {
      var i :| 0 <= i < |fired| && fired[i] == w;
    }
    NotTimed(s.qs, p, d);
    ProcessingKeepsQuiet(s, fired, now, dummy, p, d);
    NotTimed(r.qs, p, d);
    FedLatestFirst(r.qs, fired, {Timer}, dummy, p, d);
    if NeverFeeds(script, d) {
      InvokedEarliestFirst(qs, dummy, script, p, d);
    }
    forall w | w in fired && NeverClears(script, w)
      ensures Reported(Drain(qs, dummy, script).log, w, Timer)
    {
      RowFedExactly(r.qs, fired, {Timer}, w);
      EventsAreDelivered(qs, dummy, script, w, Timer);
    }
  }

  lemma NotTimed(qs: Queues, p: nat, d: map<Watcher, real>)
    requires p < |qs| && forall w :: w in d ==> !IsPending(qs, w)
    ensures Timed(qs[p], p, d) == {} && LatestFirst(qs[p], p, d)
  {
    forall i | 0 <= i < |qs[p]| ensures !At(qs[p][i], p, d) {
      if At(qs[p][i], p, d) {
        NotInQueue(qs[p], qs[p][i].w);
      }
    }
  }

  // ---------- Watchers that do not expire ----------

  /** Feeding others does not name w. */
  lemma {:induction false} FedUnnamed(qs: Queues, ws: seq<Watcher>, events: Mask, w: Watcher)
    requires Unnamed(qs, w) && w !in ws
    ensures Unnamed(FeedReverse(qs, ws, events), w)
    decreases |ws|
  {
    if ws != [] {
      FedUnnamed(Feed(qs, ws[|ws| - 1], events), ws[..|ws| - 1], events, w);
    }
  }

  lemma {:induction false} ProcessingLeavesUnnamed(s: Snapshot, fired: seq<Watcher>, now: real, dummy: Watcher,
          w: Watcher)
    requires s.Ok(now) && NoRepeats(fired) && forall v :: v in fired ==> v in s.members
    requires Unnamed(s.qs, w) && w != dummy
    ensures Unnamed(ProcessAll(s, fired, now, dummy).qs, w)
  {
    if fired != [] {
      var n := |fired| - 1;
      assert fired[n] !in fired[..n];
      ProcessingLeavesUnnamed(s, fired[..n], now, dummy, w);
    }
  }

  /** Collecting and feeding the expired watchers names none but these. */
  lemma ExpiryLeavesUnnamed(s: Snapshot, fired: seq<Watcher>, r: Snapshot, now: real, dummy: Watcher, w: Watcher)
    requires Processed(s, fired, r, now, dummy) && Unnamed(s.qs, w) && w !in s.members && w != dummy
    ensures Unnamed(FeedReverse(r.qs, fired, {Timer}), w)
  {
    forall v | v in fired ensures v in s.members {
      var i :| 0 <= i < |fired| && fired[i] == v;
    }
    ProcessingLeavesUnnamed(s, fired, now, dummy, w);
    FedUnnamed(r.qs, fired, {Timer}, w);
  }
}
