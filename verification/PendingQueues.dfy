/** The pending queues of ev.c: ev_feed_event, clear_pending and ev_invoke_pending. */
module PendingQueues {
  import opened Watchers
  import opened PendingSpec
  import opened Expiry
  import PendingLaws

  class Pending {
    const dummy: Watcher               // pending_w, whose callback does nothing
    ghost const watchers: set<Watcher> // every watcher of the loop
    var queues: Queues                 // pendings [pri][0 .. pendingcnt [pri])
    var pendingpri: nat
    var rfeeds: seq<Watcher>           // watchers noted by feed_reverse

    /** The slot at index i of priority p is cleared, or its watcher points back at it. */
    ghost predicate SlotOk(s: Slot, p: nat, i: nat)
      reads watchers`pending
    {
      s.w == dummy || (s.w in watchers && s.w.priority == p && s.w.pending == i + 1)
    }

    /** If w is pending, the slot it points at is its own. */
    ghost predicate WatcherOk(w: Watcher)
      reads this`queues, w`pending
    {
      && w.priority < |queues|
      && (w.pending != 0 ==> w.pending <= |queues[w.priority]| && queues[w.priority][w.pending - 1].w == w)
    }

    ghost predicate Valid()
      reads this`queues, watchers`pending, dummy`pending
    {
      && 0 < |queues| && dummy !in watchers && dummy.pending == 0
      && (forall p, i :: 0 <= p < |queues| && 0 <= i < |queues[p]| ==> SlotOk(queues[p][i], p, i))
      && (forall w :: w in watchers ==> WatcherOk(w))
    }

    constructor (numpri: nat, dummy: Watcher, ghost watchers: set<Watcher>)
      requires 0 < numpri && dummy !in watchers && dummy.pending == 0
      requires forall w :: w in watchers ==> w.priority < numpri && w.pending == 0
      ensures Valid() && this.dummy == dummy && this.watchers == watchers
      ensures queues == seq(numpri, _ => []) && rfeeds == []
    {
      this.dummy := dummy;
      this.watchers := watchers;
      queues := seq(numpri, _ => []);
      pendingpri := 0;
      rfeeds := [];
    }

    /** What feeding or clearing w comes to, given its `pending` field. */
    lemma PendingIsWhere(w: Watcher, events: Mask)
      requires Valid() && w in watchers
      ensures var q := queues[w.priority];
              if w.pending != 0 then
                var was := q[w.pending - 1].events;
                && Feed(queues, w, events) == queues[w.priority := q[w.pending - 1 := Slot(w, was + events)]]
                && Clear(queues, w, dummy) == queues[w.priority := q[w.pending - 1 := Slot(dummy, was)]]
                && EventsFor(queues, w) == was
              else
                && Feed(queues, w, events) == queues[w.priority := q + [Slot(w, events)]]
                && Clear(queues, w, dummy) == queues && EventsFor(queues, w) == {}
    {
      PendingIsPosition(w);
    }

    /** A watcher's `pending` field tells exactly whether and where it is queued. */
    lemma PendingIsPosition(w: Watcher)
      requires Valid() && w in watchers
      ensures w.pending != 0 <==> IsPending(queues, w)
      ensures w.pending != 0 ==> Position(queues[w.priority], w) == w.pending - 1
    {
    }

    /** No watcher has two slots. */
    lemma OneSlotEach()
      requires Valid()
      ensures forall w :: w in watchers ==> w != dummy && w.priority < |queues| && PendingLaws.Lone(queues, w)
    {
      forall w | w in watchers ensures PendingLaws.Lone(queues, w) {
        PendingIsPosition(w);
        forall p, i | 0 <= p < |queues| && 0 <= i < |queues[p]| && queues[p][i].w == w
          ensures p == w.priority && i == Position(queues[p], w)
        {
          assert SlotOk(queues[p][i], p, i);
        }
      }
    }

    /** Clearing a watcher again changes nothing. */
    lemma ClearTwice(qs: Queues, w: Watcher)
      requires Valid() && w in watchers
      requires queues == Clear(qs, w, dummy) && w.pending == 0
      ensures Clear(queues, w, dummy) == queues
    {
      PendingIsWhere(w, {});
    }

    method FeedEvent(w: Watcher, revents: Mask)
      requires Valid() && w in watchers
      modifies this`queues, this`pendingpri, w`pending
      ensures Valid() && queues == Feed(old(queues), w, revents) && pendingpri == |queues| - 1
    {
      PendingIsWhere(w, revents);
      var pri := w.priority;
      if w.pending != 0 {
        AddEvents(pri, w.pending - 1, revents);
      } else {
        w.pending := |queues[pri]| + 1;
        queues := queues[pri := queues[pri] + [Slot(w, revents)]];
      }
      pendingpri := |queues| - 1;
    }

    method AddEvents(pri: nat, i: nat, revents: Mask)
      requires Valid() && pri < |queues| && i < |queues[pri]|
      modifies this`queues
      ensures Valid()
      ensures queues == var q := old(queues)[pri]; old(queues)[pri := q[i := q[i].(events := q[i].events + revents)]]
    {
      ghost var was: Queues := queues;
      var q := queues[pri];
      assert SlotOk(q[i], pri, i);
      queues := queues[pri := q[i := q[i].(events := q[i].events + revents)]];
      forall p: nat, j: nat | p < |queues| && j < |queues[p]| ensures SlotOk(queues[p][j], p, j) {
        assert queues[p][j].w == was[p][j].w && SlotOk(was[p][j], p, j);
      }
    }

    /** clear_pending and ev_clear_pending: the events that were pending are returned. */
    method ClearPending(w: Watcher) returns (events: Mask)
      requires Valid() && w in watchers
      modifies this`queues, w`pending
      ensures Valid() && queues == Clear(old(queues), w, dummy)
      ensures events == EventsFor(old(queues), w) && w.pending == 0
    {
      PendingIsWhere(w, {});
      events := {};
      if w.pending != 0 {
        var pri, i := w.priority, w.pending - 1;
        var q := queues[pri];
        events := q[i].events;
        queues := queues[pri := q[i := Slot(dummy, events)]];
        w.pending := 0;
      }
    }

    /** feed_reverse: an expired watcher is noted, to be fed later. */
    method Note(w: Watcher, ghost run: seq<Snapshot>, ghost r: Snapshot, ghost now: real)
      returns (ghost run': seq<Snapshot>)
      requires Run(run, rfeeds, now, dummy) && Step(run[|rfeeds|], w, r, now, dummy)
      modifies this`rfeeds
      ensures rfeeds == old(rfeeds) + [w] && run' == run + [r] && Run(run', rfeeds, now, dummy)
      ensures r.Expired(now) < run[|old(rfeeds)|].Expired(now)
    {
      ExtendRun(run, rfeeds, w, r, now, dummy);
      rfeeds := rfeeds + [w];
      run' := run + [r];
    }

    /** feed_reverse_done: the last watcher noted is fed first. */
    method FeedReverseDone(revents: Mask)
      requires Valid() && forall w :: w in rfeeds ==> w in watchers
      modifies this, watchers`pending
      ensures Valid() && rfeeds == []
      ensures queues == FeedReverse(old(queues), old(rfeeds), revents)
    {
      ghost var goal := FeedReverse(queues, rfeeds, revents);
      while rfeeds != []
        invariant Valid() && forall w :: w in rfeeds ==> w in watchers
        invariant FeedReverse(queues, rfeeds, revents) == goal
        decreases |rfeeds|
      {
        var w := rfeeds[|rfeeds| - 1];
        rfeeds := rfeeds[..|rfeeds| - 1];
        FeedEvent(w, revents);
      }
    }

    /** Every watcher a callback names belongs to this loop. */
    ghost predicate Known(script: Script) {
      forall acts :: acts in script ==> KnownActions(acts)
    }

    ghost predicate KnownActions(acts: seq<Action>) {
      forall a :: a in acts ==> a.Reenter? || a.w in watchers
    }

    /** The last slot of a queue is taken off, and its watcher is no longer pending. */
    method TakeLast(pri: nat) returns (s: Slot)
      requires Valid() && pri < |queues| && queues[pri] != []
      modifies this`queues, watchers`pending, dummy`pending
      ensures Valid() && s == old(queues)[pri][|old(queues)[pri]| - 1]
      ensures queues == old(queues)[pri := old(queues)[pri][..|old(queues)[pri]| - 1]]
    {
      var q := queues[pri];
      s := q[|q| - 1];
      assert SlotOk(s, pri, |q| - 1);
      queues := queues[pri := q[..|q| - 1]];
      s.w.pending := 0;
    }

    /**
     * ev_invoke_pending, with callbacks that feed, clear and re-enter as `script` says. `pendingpri`
     * remembers how far down the priorities the search has come, and feeding resets it; the effect
     * is always to invoke the last slot of the highest priority, until nothing is pending.
     */
    method InvokePending(script: Script) returns (rest: Script, log: seq<Slot>)
      requires Valid() && Known(script)
      modifies this`queues, this`pendingpri, watchers`pending, dummy`pending
      ensures Valid() && Known(rest)
      ensures Outcome(queues, rest, log) == Drain(old(queues), dummy, script)
      ensures pendingpri == 0 && EmptyAbove(-1)
      decreases |script|, 1, 0
    {
      pendingpri := |queues|;
      rest, log := script, [];
      ghost var goal := Drain(queues, dummy, script);
      while pendingpri != 0
        invariant Valid() && Known(rest) && |rest| <= |script|
        invariant pendingpri <= |queues| && EmptyAbove(pendingpri - 1)
        invariant goal == Follow(log, Drain(queues, dummy, rest))
        decreases |rest|, Total(queues), pendingpri
      {
        pendingpri := pendingpri - 1;
        rest, log := InvokeLevel(rest, log);
      }
    }

    /** The inner loop: everything of this priority is invoked, and whatever of higher ones that is fed meanwhile. */
    method InvokeLevel(script: Script, log: seq<Slot>) returns (rest: Script, log': seq<Slot>)
      requires Valid() && Known(script) && pendingpri < |queues| && EmptyAbove(pendingpri)
      modifies this`queues, this`pendingpri, watchers`pending, dummy`pending
      ensures Valid() && Known(rest) && pendingpri < |queues| && EmptyAbove(pendingpri - 1)
      ensures |rest| < |script| || (|rest| == |script| && Total(queues) <= Total(old(queues)))
      ensures pendingpri == old(pendingpri) || Less(rest, script, old(queues))
      ensures Follow(log, Drain(old(queues), dummy, script)) == Follow(log', Drain(queues, dummy, rest))
      decreases |script|, 0, 1
    {
      rest, log' := script, log;
      ghost var goal := Follow(log, Drain(queues, dummy, script));
      while queues[pendingpri] != []
        invariant Valid() && Known(rest) && pendingpri < |queues| && EmptyAbove(pendingpri)
        invariant goal == Follow(log', Drain(queues, dummy, rest))
        invariant Less(rest, script, old(queues)) ||
                  (|rest| == |script| && Total(queues) == Total(old(queues)) && pendingpri == old(pendingpri))
        decreases |rest|, Total(queues)
      {
        rest, log' := InvokeOne(rest, log');
      }
    }

    /** Less is left to do than with the script and the queues before. */
    ghost predicate Less(rest: Script, script: Script, qs: Queues)
      reads this`queues
    {
      |rest| < |script| || (|rest| == |script| && Total(queues) < Total(qs))
    }

    /** Nothing is queued above priority p. */
    ghost predicate EmptyAbove(p: int)
      reads this`queues
    {
      forall i :: 0 <= i < |queues| && p < i ==> queues[i] == []
    }

    /** One turn of the inner loop: the last slot of this priority is taken off and its callback runs. */
    method InvokeOne(script: Script, log: seq<Slot>) returns (rest: Script, log': seq<Slot>)
      requires Valid() && Known(script)
      requires pendingpri < |queues| && queues[pendingpri] != [] && EmptyAbove(pendingpri)
      modifies this`queues, this`pendingpri, watchers`pending, dummy`pending
      ensures Valid() && Known(rest)
      ensures pendingpri < |queues| && EmptyAbove(pendingpri)
      ensures Less(rest, script, old(queues))
      ensures Follow(log, Drain(old(queues), dummy, script)) == Follow(log', Drain(queues, dummy, rest))
      decreases |script|, 0, 0
    {
      ghost var was := queues;
      var s := TakeLast(pendingpri);
      DrainTurn(log, was, pendingpri, dummy, script, queues, s);
      rest, log' := script, log;
      if s.w != dummy {
        log' := log + [s];
        if script != [] {
          var more;
          rest, more := RunCallback(script[0], script[1..]);
          log' := log' + more;
        }
      }
    }

    /** One callback, action by action. */
    method RunCallback(acts: seq<Action>, script: Script) returns (rest: Script, log: seq<Slot>)
      requires Valid() && Known(script) && KnownActions(acts)
      requires pendingpri < |queues| && EmptyAbove(pendingpri)
      modifies this`queues, this`pendingpri, watchers`pending, dummy`pending
      ensures Valid() && Known(rest)
      ensures Outcome(queues, rest, log) == Perform(acts, old(queues), dummy, script)
      ensures pendingpri < |queues| && EmptyAbove(pendingpri)
      decreases |script|, 2, |acts|
    {
      if acts == [] {
        return script, [];
      }
      match acts[0] {
        case FeedIt(w, events) =>
          FeedEvent(w, events);
          rest, log := RunCallback(acts[1..], script);
        case ClearIt(w) =>
          var _ := ClearPending(w);
          ClearKeepsEmpty(acts[0].w, old(queues));
          rest, log := RunCallback(acts[1..], script);
        case Reenter =>
          var first, more := InvokePending(script);
          rest, log := RunCallback(acts[1..], first);
          log := more + log;
      }
    }

    lemma ClearKeepsEmpty(w: Watcher, qs: Queues)
      requires queues == Clear(qs, w, dummy)
      requires forall i :: 0 <= i < |qs| && pendingpri < i ==> qs[i] == []
      ensures EmptyAbove(pendingpri)
    {
    }
  }
}
