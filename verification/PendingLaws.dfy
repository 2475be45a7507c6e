/** What invoking pending watchers guarantees, whatever the callbacks do meanwhile. */
module PendingLaws {
  import opened Watchers
  import opened PendingSpec

  // ---------- No event is lost ----------

  ghost predicate NeverClears(script: Script, w: Watcher) {
    forall acts :: acts in script ==> ClearIt(w) !in acts
  }

  ghost predicate Reported(log: seq<Slot>, w: Watcher, e: Event) {
    exists i :: 0 <= i < |log| && log[i].w == w && e in log[i].events
  }

  lemma ReportedLater(a: seq<Slot>, b: seq<Slot>, w: Watcher, e: Event)
    requires Reported(a, w, e) || Reported(b, w, e)
    ensures Reported(a + b, w, e)
  {
    if Reported(a, w, e) {
      var i :| 0 <= i < |a| && a[i].w == w && e in a[i].events;
      assert (a + b)[i] == a[i];
    } else {
      var i :| 0 <= i < |b| && b[i].w == w && e in b[i].events;
      assert (a + b)[|a| + i] == b[i];
    }
  }

  lemma {:induction false} PositionAfter(q: seq<Slot>, i: nat, s: Slot, w: Watcher)
    requires i < |q| && Position(q, w) < |q| && (i != Position(q, w) || s.w == w)
    requires i < Position(q, w) ==> s.w != w
    ensures Position(q[i := s], w) == Position(q, w)
  {
    if i != 0 && q[0].w != w {
      assert q[i := s][1..] == q[1..][i - 1 := s];
      PositionAfter(q[1..], i - 1, s, w);
    } else if i == 0 && q[0].w != w {
      assert q[i := s][1..] == q[1..];
    }
  }

  lemma {:induction false} PositionPrefix(q: seq<Slot>, n: nat, w: Watcher)
    requires n <= |q| && Position(q, w) < n
    ensures Position(q[..n], w) == Position(q, w)
  {
    if q[0].w != w {
      assert q[..n][1..] == q[1..][..n - 1];
      PositionPrefix(q[1..], n - 1, w);
    }
  }

  /** Changing a slot that is not w's does not move w. */
  lemma {:induction false} PositionStays(q: seq<Slot>, i: nat, s: Slot, w: Watcher)
    requires i < |q| && (q[i].w == w <==> s.w == w)
    ensures Position(q[i := s], w) == Position(q, w)
  {
    if i != 0 && q[0].w != w {
      assert q[i := s][1..] == q[1..][i - 1 := s];
      PositionStays(q[1..], i - 1, s, w);
    } else if i == 0 && q[0].w != w {
      assert q[i := s][1..] == q[1..];
    }
  }

  lemma {:induction false} PositionAppended(q: seq<Slot>, s: Slot, w: Watcher)
    ensures Position(q + [s], w) == if Position(q, w) < |q| || s.w == w then Position(q, w) else |q| + 1
  {
    if q != [] && q[0].w != w {
      assert (q + [s])[1..] == q[1..] + [s];
      PositionAppended(q[1..], s, w);
    }
  }

  /** Feeding adds the events to those of the watcher fed, and to no other. */
  lemma FeedExactly(qs: Queues, v: Watcher, events: Mask, w: Watcher)
    requires v.priority < |qs|
    ensures EventsFor(Feed(qs, v, events), w) == EventsFor(qs, w) + (if w == v then events else {})
    ensures IsPending(Feed(qs, v, events), w) == (IsPending(qs, w) || w == v)
  {
    var q := qs[v.priority];
    if IsPending(qs, v) {
      PositionStays(q, Position(q, v), Slot(v, EventsFor(qs, v) + events), w);
    } else {
      PositionAppended(q, Slot(v, events), w);
    }
  }

  lemma FeedKeeps(qs: Queues, v: Watcher, events: Mask, w: Watcher, e: Event)
    requires e in EventsFor(qs, w)
    ensures e in EventsFor(Feed(qs, v, events), w)
  {
    if v.priority < |qs| {
      FeedExactly(qs, v, events, w);
    }
  }

  lemma ClearKeeps(qs: Queues, v: Watcher, dummy: Watcher, w: Watcher, e: Event)
    requires e in EventsFor(qs, w) && v != w && w != dummy
    ensures e in EventsFor(Clear(qs, v, dummy), w)
  {
    var q := qs[w.priority];
    if v.priority == w.priority && IsPending(qs, v) {
      PositionAfter(q, Position(q, v), Slot(dummy, EventsFor(qs, v)), w);
    }
  }

  /** Clearing a watcher changes nothing for another. */
  lemma ClearOther(qs: Queues, v: Watcher, dummy: Watcher, w: Watcher)
    requires v != w && w != dummy
    ensures EventsFor(Clear(qs, v, dummy), w) == EventsFor(qs, w)
    ensures IsPending(Clear(qs, v, dummy), w) == IsPending(qs, w)
  {
    if IsPending(qs, v) {
      var q := qs[v.priority];
      PositionStays(q, Position(q, v), Slot(dummy, EventsFor(qs, v)), w);
    }
  }

  /** Taking off the next slot either invokes w with the event or leaves it pending. */
  lemma PopKeeps(qs: Queues, w: Watcher, e: Event)
    requires e in EventsFor(qs, w)
    ensures Highest(qs) != -1
    ensures (Top(qs).w == w && e in Top(qs).events) || e in EventsFor(Pop(qs), w)
  {
    var h := Highest(qs);
    var q := qs[w.priority];
    if h == w.priority && Position(q, w) < |q| - 1 {
      PositionPrefix(q, |q| - 1, w);
    }
  }

  /**
   * An event that is pending is delivered: unless some callback clears the watcher, the drain invokes
   * it with that event, whatever else callbacks feed, clear or re-enter.
   */
  lemma {:induction false} EventsAreDelivered(qs: Queues, dummy: Watcher, script: Script, w: Watcher, e: Event)
    requires e in EventsFor(qs, w) && w != dummy && NeverClears(script, w)
    ensures Reported(Drain(qs, dummy, script).log, w, e)
    decreases |script|, 0, Total(qs)
  {
    PopKeeps(qs, w, e);
    var s := Top(qs);
    if s.w == dummy {
      EventsAreDelivered(Pop(qs), dummy, script, w, e);
    } else if script == [] {
      if s.w == w && e in s.events {
        assert [s][0] == s;
      } else {
        EventsAreDelivered(Pop(qs), dummy, [], w, e);
      }
      ReportedLater([s], Drain(Pop(qs), dummy, []).log, w, e);
    } else {
      var c := Perform(script[0], Pop(qs), dummy, script[1..]);
      var first := [s] + c.log;
      if s.w == w && e in s.events {
        assert [s][0] == s;
        ReportedLater([s], c.log, w, e);
      } else {
        CallbacksKeepOrDeliver(script[0], Pop(qs), dummy, script[1..], w, e);
        if Reported(c.log, w, e) {
          ReportedLater([s], c.log, w, e);
        } else {
          EventsAreDelivered(c.qs, dummy, c.rest, w, e);
        }
      }
      ReportedLater(first, Drain(c.qs, dummy, c.rest).log, w, e);
    }
  }

  lemma {:induction false} CallbacksKeepOrDeliver(acts: seq<Action>, qs: Queues, dummy: Watcher, script: Script,
          w: Watcher, e: Event)
    requires e in EventsFor(qs, w) && w != dummy && NeverClears(script, w) && ClearIt(w) !in acts
    ensures var o := Perform(acts, qs, dummy, script);
            NeverClears(o.rest, w) && (Reported(o.log, w, e) || e in EventsFor(o.qs, w))
    decreases |script|, 1, |acts|
  {
    RestIsSuffix(acts, qs, dummy, script);
    if acts != [] {
      match acts[0] {
        case FeedIt(v, events) =>
          FeedKeeps(qs, v, events, w, e);
          CallbacksKeepOrDeliver(acts[1..], Feed(qs, v, events), dummy, script, w, e);
        case ClearIt(v) =>
          ClearKeeps(qs, v, dummy, w, e);
          CallbacksKeepOrDeliver(acts[1..], Clear(qs, v, dummy), dummy, script, w, e);
        case Reenter =>
          EventsAreDelivered(qs, dummy, script, w, e);
          var d := Drain(qs, dummy, script);
          ReportedLater(d.log, Perform(acts[1..], d.qs, dummy, d.rest).log, w, e);
      }
    }
  }

  /** Callbacks use the script from its front. */
  lemma {:induction false} RestIsSuffix(acts: seq<Action>, qs: Queues, dummy: Watcher, script: Script)
    ensures forall a :: a in Perform(acts, qs, dummy, script).rest ==> a in script
    decreases |script|, 1, |acts|
  {
    if acts != [] {
      match acts[0] {
        case FeedIt(v, events) => RestIsSuffix(acts[1..], Feed(qs, v, events), dummy, script);
        case ClearIt(v) => RestIsSuffix(acts[1..], Clear(qs, v, dummy), dummy, script);
        case Reenter =>
          DrainRestIsSuffix(qs, dummy, script);
          var d := Drain(qs, dummy, script);
          RestIsSuffix(acts[1..], d.qs, dummy, d.rest);
      }
    }
  }

  lemma {:induction false} DrainRestIsSuffix(qs: Queues, dummy: Watcher, script: Script)
    ensures forall a :: a in Drain(qs, dummy, script).rest ==> a in script
    decreases |script|, 0, Total(qs)
  {
    if Highest(qs) != -1 {
      if Top(qs).w == dummy || script == [] {
        DrainRestIsSuffix(Pop(qs), dummy, script);
      } else {
        RestIsSuffix(script[0], Pop(qs), dummy, script[1..]);
        var c := Perform(script[0], Pop(qs), dummy, script[1..]);
        DrainRestIsSuffix(c.qs, dummy, c.rest);
      }
    }
  }

  // ---------- Order within a priority ----------

  /** A slot whose watcher has priority p and a deadline. */
  ghost predicate At(s: Slot, p: nat, d: map<Watcher, real>) {
    s.w in d && s.w.priority == p
  }

  ghost function Timed(q: seq<Slot>, p: nat, d: map<Watcher, real>): set<Watcher> {
    set i | 0 <= i < |q| && At(q[i], p, d) :: q[i].w
  }

  /** In a queue, the watchers with a deadline stand latest first. */
  ghost predicate LatestFirst(q: seq<Slot>, p: nat, d: map<Watcher, real>) {
    forall i, j :: 0 <= i < j < |q| && At(q[i], p, d) && At(q[j], p, d) ==> d[q[j].w] <= d[q[i].w]
  }

  /** The invocations of priority p that have a deadline happen earliest first. */
  ghost predicate EarliestFirst(log: seq<Slot>, p: nat, d: map<Watcher, real>) {
    forall i, j :: 0 <= i < j < |log| && At(log[i], p, d) && At(log[j], p, d) ==> d[log[i].w] <= d[log[j].w]
  }

  ghost predicate Before(a: set<Watcher>, b: set<Watcher>, d: map<Watcher, real>)
    requires a <= d.Keys && b <= d.Keys
  {
    forall u, v :: u in a && v in b ==> d[u] <= d[v]
  }

  lemma TimedAppend(a: seq<Slot>, b: seq<Slot>, p: nat, d: map<Watcher, real>)
    ensures Timed(a + b, p, d) == Timed(a, p, d) + Timed(b, p, d)
    ensures EarliestFirst(a, p, d) && EarliestFirst(b, p, d) && Before(Timed(a, p, d), Timed(b, p, d), d) ==>
              EarliestFirst(a + b, p, d)
  {
    var c := a + b;
    forall w | w in Timed(a, p, d) + Timed(b, p, d) ensures w in Timed(c, p, d) {
      if w in Timed(a, p, d) {
        var i :| 0 <= i < |a| && At(a[i], p, d) && a[i].w == w;
        assert c[i] == a[i];
      } else {
        var i :| 0 <= i < |b| && At(b[i], p, d) && b[i].w == w;
        assert c[|a| + i] == b[i];
      }
    }
    if EarliestFirst(a, p, d) && EarliestFirst(b, p, d) && Before(Timed(a, p, d), Timed(b, p, d), d) {
      forall i, j | 0 <= i < j < |c| && At(c[i], p, d) && At(c[j], p, d) ensures d[c[i].w] <= d[c[j].w] {
        if i < |a| <= j {
          assert c[i].w in Timed(a, p, d) && c[j].w in Timed(b, p, d);
        }
      }
    }
  }

  /** Every slot stands in the queue of its watcher's priority. */
  ghost predicate Homed(qs: Queues, dummy: Watcher) {
    forall p, i :: 0 <= p < |qs| && 0 <= i < |qs[p]| ==> qs[p][i].w == dummy || qs[p][i].w.priority == p
  }

  ghost predicate NotFed(acts: seq<Action>, d: map<Watcher, real>) {
    forall a :: a in acts && a.FeedIt? ==> a.w !in d
  }

  /** No callback feeds a watcher that has a deadline. */
  ghost predicate NeverFeeds(script: Script, d: map<Watcher, real>) {
    forall acts :: acts in script ==> NotFed(acts, d)
  }

  /** A queue in order, of slots where they belong. */
  ghost predicate InOrder(qs: Queues, dummy: Watcher, p: nat, d: map<Watcher, real>) {
    p < |qs| && dummy !in d && Homed(qs, dummy) && LatestFirst(qs[p], p, d)
  }

  lemma FeedInOrder(qs: Queues, w: Watcher, events: Mask, dummy: Watcher, p: nat, d: map<Watcher, real>)
    requires InOrder(qs, dummy, p, d) && w !in d
    ensures InOrder(Feed(qs, w, events), dummy, p, d)
    ensures Timed(Feed(qs, w, events)[p], p, d) <= Timed(qs[p], p, d)
  {
  }

  lemma ClearInOrder(qs: Queues, w: Watcher, dummy: Watcher, p: nat, d: map<Watcher, real>)
    requires InOrder(qs, dummy, p, d)
    ensures InOrder(Clear(qs, w, dummy), dummy, p, d)
    ensures Timed(Clear(qs, w, dummy)[p], p, d) <= Timed(qs[p], p, d)
  {
  }

  lemma PopInOrder(qs: Queues, dummy: Watcher, p: nat, d: map<Watcher, real>)
    requires InOrder(qs, dummy, p, d) && 0 <= Highest(qs)
    ensures InOrder(Pop(qs), dummy, p, d)
    ensures Timed([Top(qs)], p, d) + Timed(Pop(qs)[p], p, d) <= Timed(qs[p], p, d)
    ensures Before(Timed([Top(qs)], p, d), Timed(Pop(qs)[p], p, d), d)
  {
    var h := Highest(qs);
    var q := qs[h];
    assert Top(qs).w == dummy || Top(qs).w.priority == h;
    assert h == p ==> q == q[..|q| - 1] + [Top(qs)];
  }

  /**
   * Watchers of one priority that stand latest first are invoked earliest first, whatever callbacks
   * clear, feed to others or re-enter.
   */
  lemma {:induction false} InvokedEarliestFirst(qs: Queues, dummy: Watcher, script: Script, p: nat, d: map<Watcher,
          real>)
    requires InOrder(qs, dummy, p, d) && NeverFeeds(script, d)
    ensures var log := Drain(qs, dummy, script).log;
            EarliestFirst(log, p, d) && Timed(log, p, d) <= Timed(qs[p], p, d)
    decreases |script|, 0, Total(qs)
  {
    if Highest(qs) != -1 {
      PopInOrder(qs, dummy, p, d);
      var s := Top(qs);
      if s.w == dummy {
        InvokedEarliestFirst(Pop(qs), dummy, script, p, d);
      } else if script == [] {
        InvokedEarliestFirst(Pop(qs), dummy, [], p, d);
        TimedAppend([s], Drain(Pop(qs), dummy, []).log, p, d);
      } else {
        var c := Perform(script[0], Pop(qs), dummy, script[1..]);
        CallbackInOrder(script[0], Pop(qs), dummy, script[1..], p, d);
        InvokedEarliestFirst(c.qs, dummy, c.rest, p, d);
        TimedAppend([s], c.log, p, d);
        TimedAppend([s] + c.log, Drain(c.qs, dummy, c.rest).log, p, d);
      }
    }
  }

  lemma {:induction false} CallbackInOrder(acts: seq<Action>, qs: Queues, dummy: Watcher, script: Script, p: nat,
          d: map<Watcher, real>)
    requires InOrder(qs, dummy, p, d) && NeverFeeds(script, d) && NotFed(acts, d)
    ensures var o := Perform(acts, qs, dummy, script);
            && InOrder(o.qs, dummy, p, d) && NeverFeeds(o.rest, d)
            && EarliestFirst(o.log, p, d)
            && Timed(o.log, p, d) + Timed(o.qs[p], p, d) <= Timed(qs[p], p, d)
            && Before(Timed(o.log, p, d), Timed(o.qs[p], p, d), d)
    decreases |script|, 1, |acts|
  {
    if acts != [] {
      match acts[0] {
        case FeedIt(v, events) =>
          FeedInOrder(qs, v, events, dummy, p, d);
          CallbackInOrder(acts[1..], Feed(qs, v, events), dummy, script, p, d);
        case ClearIt(v) =>
          ClearInOrder(qs, v, dummy, p, d);
          CallbackInOrder(acts[1..], Clear(qs, v, dummy), dummy, script, p, d);
        case Reenter =>
          InvokedEarliestFirst(qs, dummy, script, p, d);
          DrainRestIsSuffix(qs, dummy, script);
          var e := Drain(qs, dummy, script);
          CallbackInOrder(acts[1..], e.qs, dummy, e.rest, p, d);
          TimedAppend(e.log, Perform(acts[1..], e.qs, dummy, e.rest).log, p, d);
      }
    }
  }

  // ---------- What no slot names ----------

  /** No slot names the watcher. */
  predicate Unnamed(qs: Queues, w: Watcher) {
    forall p, i :: 0 <= p < |qs| && 0 <= i < |qs[p]| ==> qs[p][i].w != w
  }

  lemma NoneNamed(qs: Queues, w: Watcher)
    requires Highest(qs) == -1
    ensures Unnamed(qs, w)
  {
  }

  ghost predicate NeverFed(script: Script, w: Watcher) {
    forall acts, a :: acts in script && a in acts && a.FeedIt? ==> a.w != w
  }

  /** Once nothing refers to a watcher it is never invoked again, whatever other callbacks do. */
  lemma {:induction false} GoneForGood(qs: Queues, dummy: Watcher, script: Script, w: Watcher)
    requires Unnamed(qs, w) && NeverFed(script, w) && w != dummy
    ensures var o := Drain(qs, dummy, script);
            Unnamed(o.qs, w) && NeverFed(o.rest, w) && forall i :: 0 <= i < |o.log| ==> o.log[i].w != w
    decreases |script|, 0, Total(qs)
  {
    if Highest(qs) != -1 {
      if Top(qs).w == dummy {
        GoneForGood(Pop(qs), dummy, script, w);
      } else if script == [] {
        GoneForGood(Pop(qs), dummy, [], w);
      } else {
        CallbackLeavesGone(script[0], Pop(qs), dummy, script[1..], w);
        var c := Perform(script[0], Pop(qs), dummy, script[1..]);
        GoneForGood(c.qs, dummy, c.rest, w);
      }
    }
  }

  lemma {:induction false} CallbackLeavesGone(acts: seq<Action>, qs: Queues, dummy: Watcher, script: Script, w: Watcher)
    requires Unnamed(qs, w) && NeverFed([acts], w) && NeverFed(script, w) && w != dummy
    ensures var o := Perform(acts, qs, dummy, script);
            Unnamed(o.qs, w) && NeverFed(o.rest, w) && forall i :: 0 <= i < |o.log| ==> o.log[i].w != w
    decreases |script|, 1, |acts|
  {
    if acts != [] {
      assert acts in [acts] && acts[0] in acts;
      assert NeverFed([acts[1..]], w) by {
        assert forall a :: a in acts[1..] ==> a in acts;
      }
      match acts[0] {
        case FeedIt(v, events) => CallbackLeavesGone(acts[1..], Feed(qs, v, events), dummy, script, w);
        case ClearIt(v) => CallbackLeavesGone(acts[1..], Clear(qs, v, dummy), dummy, script, w);
        case Reenter =>
          GoneForGood(qs, dummy, script, w);
          var d := Drain(qs, dummy, script);
          CallbackLeavesGone(acts[1..], d.qs, dummy, d.rest, w);
      }
    }
  }

  // ---------- Each watcher has one slot at most ----------

  /** No slot names the watcher but the one that counts. */
  ghost predicate Lone(qs: Queues, w: Watcher) {
    forall p, i :: 0 <= p < |qs| && 0 <= i < |qs[p]| && qs[p][i].w == w ==>
      p == w.priority && i == Position(qs[p], w)
  }

  /** What is pending for the watcher is the same. */
  ghost predicate Same(qs: Queues, qs': Queues, w: Watcher) {
    Lone(qs', w) && IsPending(qs', w) == IsPending(qs, w) && EventsFor(qs', w) == EventsFor(qs, w)
  }

  /** Feeding leaves every watcher one slot. */
  lemma FeedLone(qs: Queues, v: Watcher, events: Mask, w: Watcher)
    requires Lone(qs, w)
    ensures Lone(Feed(qs, v, events), w)
  {
    if v != w {
      FeedSame(qs, v, events, w);
    } else if IsPending(qs, w) {
      PositionStays(qs[w.priority], Position(qs[w.priority], w), Slot(w, EventsFor(qs, w) + events), w);
    } else if w.priority < |qs| {
      PositionAppended(qs[w.priority], Slot(w, events), w);
    }
  }

  lemma FeedSame(qs: Queues, v: Watcher, events: Mask, w: Watcher)
    requires Lone(qs, w) && v != w
    ensures Same(qs, Feed(qs, v, events), w)
  {
    if IsPending(qs, v) {
      var q := qs[v.priority];
      PositionStays(q, Position(q, v), Slot(v, EventsFor(qs, v) + events), w);
    } else if v.priority < |qs| {
      AppendSame(qs, v.priority, Slot(v, events), w);
    }
  }

  lemma AppendSame(qs: Queues, p: nat, s: Slot, w: Watcher)
    requires Lone(qs, w) && s.w != w && p < |qs|
    ensures Same(qs, qs[p := qs[p] + [s]], w)
  {
    PositionAppended(qs[p], s, w);
  }

  lemma ClearSame(qs: Queues, v: Watcher, dummy: Watcher, w: Watcher)
    requires Lone(qs, w) && v != w && w != dummy
    ensures Same(qs, Clear(qs, v, dummy), w)
  {
    if IsPending(qs, v) {
      var q := qs[v.priority];
      PositionStays(q, Position(q, v), Slot(dummy, EventsFor(qs, v)), w);
    }
  }

  lemma ClearUnnames(qs: Queues, dummy: Watcher, w: Watcher)
    requires Lone(qs, w) && w != dummy
    ensures Unnamed(Clear(qs, w, dummy), w)
  {
  }

  lemma PopSame(qs: Queues, w: Watcher)
    requires Lone(qs, w) && 0 <= Highest(qs) && Top(qs).w != w
    ensures Same(qs, Pop(qs), w)
  {
    var h := Highest(qs);
    var q := qs[h];
    ShorterSame(qs, h, q[..|q| - 1], Top(qs), w);
  }

  lemma ShorterSame(qs: Queues, p: nat, q: seq<Slot>, s: Slot, w: Watcher)
    requires Lone(qs, w) && s.w != w && p < |qs| && qs[p] == q + [s]
    ensures Same(qs, qs[p := q], w)
  {
    PositionAppended(q, s, w);
    assert forall i :: 0 <= i < |q| ==> qs[p][i] == q[i];
  }

  lemma PopUnnames(qs: Queues, w: Watcher)
    requires Lone(qs, w) && 0 <= Highest(qs) && Top(qs).w == w
    ensures Unnamed(Pop(qs), w) && IsPending(qs, w) && EventsFor(qs, w) == Top(qs).events
  {
    var q := qs[Highest(qs)];
    assert q[|q| - 1].w == w;
  }

  // ---------- Which callback runs ----------

  function Left(script: Script, n: nat): Script {
    if n <= |script| then script[n..] else []
  }

  /** Invocations use up the script one entry each, in the order of the log. */
  lemma {:induction false} DrainUses(qs: Queues, dummy: Watcher, script: Script)
    ensures var o := Drain(qs, dummy, script); o.rest == Left(script, |o.log|)
    decreases |script|, 0, Total(qs)
  {
    if Highest(qs) != -1 {
      if Top(qs).w == dummy {
        DrainUses(Pop(qs), dummy, script);
      } else if script == [] {
        DrainUses(Pop(qs), dummy, []);
      } else {
        var p := Perform(script[0], Pop(qs), dummy, script[1..]);
        PerformUses(script[0], Pop(qs), dummy, script[1..]);
        DrainUses(p.qs, dummy, p.rest);
        assert p.rest == Left(script, 1 + |p.log|);
      }
    }
  }

  lemma {:induction false} PerformUses(acts: seq<Action>, qs: Queues, dummy: Watcher, script: Script)
    ensures var o := Perform(acts, qs, dummy, script); o.rest == Left(script, |o.log|)
    decreases |script|, 1, |acts|
  {
    if acts != [] {
      match acts[0] {
        case FeedIt(w, events) => PerformUses(acts[1..], Feed(qs, w, events), dummy, script);
        case ClearIt(w) => PerformUses(acts[1..], Clear(qs, w, dummy), dummy, script);
        case Reenter =>
          var d := Drain(qs, dummy, script);
          DrainUses(qs, dummy, script);
          PerformUses(acts[1..], d.qs, dummy, d.rest);
      }
    }
  }

  lemma LeftLeft(script: Script, m: nat, n: nat)
    ensures Left(Left(script, m), n) == Left(script, m + n)
  {
  }

  // ---------- What callbacks do to the queues ----------

  /** What a drain has used of its script. */
  function Used(script: Script, rest: Script): Script
    requires |rest| <= |script|
  {
    script[..|script| - |rest|]
  }

  predicate Feeds(a: Action, w: Watcher, e: Event) {
    a.FeedIt? && a.w == w && e in a.events
  }

  /** One of these callbacks feeds the event to the watcher. */
  ghost predicate FedBy(used: Script, w: Watcher, e: Event) {
    exists n, i :: 0 <= n < |used| && 0 <= i < |used[n]| && Feeds(used[n][i], w, e)
  }

  lemma UsedInTurn(script: Script, middle: Script, rest: Script, w: Watcher, e: Event)
    requires |rest| <= |middle| <= |script| && middle == script[|script| - |middle|..]
    requires FedBy(Used(script, rest), w, e)
    ensures FedBy(Used(script, middle), w, e) || FedBy(Used(middle, rest), w, e)
  {
    var n, i :| 0 <= n < |Used(script, rest)| && 0 <= i < |Used(script, rest)[n]| &&
                Feeds(Used(script, rest)[n][i], w, e);
    var m := |script| - |middle|;
    if n < m {
      assert Used(script, middle)[n] == script[n];
    } else {
      assert Used(middle, rest)[n - m] == script[n];
    }
  }

  /** The first callback, or a later one. */
  lemma FirstOrLater(script: Script, rest: Script, w: Watcher, e: Event)
    requires |rest| < |script| && FedBy(Used(script, rest), w, e)
    ensures FedBy([script[0]], w, e) || FedBy(Used(script[1..], rest), w, e)
  {
    UsedInTurn(script, script[1..], rest, w, e);
    assert Used(script, script[1..]) == [script[0]];
  }

  lemma RestIsLeft(acts: seq<Action>, qs: Queues, dummy: Watcher, script: Script)
    ensures var o := Perform(acts, qs, dummy, script); o.rest == script[|script| - |o.rest|..]
  {
    PerformUses(acts, qs, dummy, script);
  }

  lemma DrainRestIsLeft(qs: Queues, dummy: Watcher, script: Script)
    ensures var o := Drain(qs, dummy, script); o.rest == script[|script| - |o.rest|..]
  {
    DrainUses(qs, dummy, script);
  }

  /** What any callback feeds in the course of a drain is delivered in it too, if no callback clears the watcher. */
  lemma {:induction false} FedIsDelivered(qs: Queues, dummy: Watcher, script: Script, w: Watcher, e: Event)
    requires w.priority < |qs| && w != dummy && NeverClears(script, w)
    requires FedBy(Used(script, Drain(qs, dummy, script).rest), w, e)
    ensures Reported(Drain(qs, dummy, script).log, w, e)
    decreases |script|, 0, Total(qs)
  {
    if Top(qs).w == dummy {
      FedIsDelivered(Pop(qs), dummy, script, w, e);
    } else {
      var p := Perform(script[0], Pop(qs), dummy, script[1..]);
      var o := Drain(p.qs, dummy, p.rest);
      var first := [Top(qs)] + p.log;
      FirstOrLater(script, o.rest, w, e);
      RestIsLeft(script[0], Pop(qs), dummy, script[1..]);
      if !FedBy([script[0]], w, e) {
        UsedInTurn(script[1..], p.rest, o.rest, w, e);
      }
      RestIsSuffix(script[0], Pop(qs), dummy, script[1..]);
      if FedBy([script[0]], w, e) || FedBy(Used(script[1..], p.rest), w, e) {
        FedInCallback(script[0], Pop(qs), dummy, script[1..], w, e);
        if Reported(p.log, w, e) {
          ReportedLater([Top(qs)], p.log, w, e);
        } else {
          EventsAreDelivered(p.qs, dummy, p.rest, w, e);
        }
      } else {
        FedIsDelivered(p.qs, dummy, p.rest, w, e);
      }
      ReportedLater(first, o.log, w, e);
    }
  }

  lemma {:induction false} FedInCallback(acts: seq<Action>, qs: Queues, dummy: Watcher, script: Script, w: Watcher,
          e: Event)
    requires w.priority < |qs| && w != dummy && NeverClears(script, w) && ClearIt(w) !in acts
    requires FedBy([acts], w, e) || FedBy(Used(script, Perform(acts, qs, dummy, script).rest), w, e)
    ensures var o := Perform(acts, qs, dummy, script); Reported(o.log, w, e) || e in EventsFor(o.qs, w)
    decreases |script|, 1, |acts|
  {
    if acts != [] {
      if FedBy([acts], w, e) && !Feeds(acts[0], w, e) {
        FedByRest(acts, w, e);
      }
      match acts[0] {
        case FeedIt(v, events) =>
          if Feeds(acts[0], w, e) {
            FeedExactly(qs, v, events, w);
            CallbacksKeepOrDeliver(acts[1..], Feed(qs, v, events), dummy, script, w, e);
          } else {
            FedInCallback(acts[1..], Feed(qs, v, events), dummy, script, w, e);
          }
        case ClearIt(v) => FedInCallback(acts[1..], Clear(qs, v, dummy), dummy, script, w, e);
        case Reenter => FedAround(acts, qs, dummy, script, w, e);
      }
    }
  }

  lemma FedAround(acts: seq<Action>, qs: Queues, dummy: Watcher, script: Script, w: Watcher, e: Event)
    requires w.priority < |qs| && w != dummy && NeverClears(script, w) && acts != [] && ClearIt(w) !in acts[1..]
    requires acts[0] == Reenter
    requires FedBy([acts[1..]], w, e) || FedBy(Used(script, Perform(acts, qs, dummy, script).rest), w, e)
    ensures var o := Perform(acts, qs, dummy, script); Reported(o.log, w, e) || e in EventsFor(o.qs, w)
    decreases |script|, 1, |acts|, 0
  {
    var d := Drain(qs, dummy, script);
    var o := Perform(acts[1..], d.qs, dummy, d.rest);
    DrainRestIsLeft(qs, dummy, script);
    DrainRestIsSuffix(qs, dummy, script);
    if !FedBy([acts[1..]], w, e) {
      UsedInTurn(script, d.rest, o.rest, w, e);
    }
    if FedBy(Used(script, d.rest), w, e) {
      FedIsDelivered(qs, dummy, script, w, e);
    } else {
      FedInCallback(acts[1..], d.qs, dummy, d.rest, w, e);
    }
    if Reported(d.log, w, e) || Reported(o.log, w, e) {
      ReportedLater(d.log, o.log, w, e);
    }
  }

  lemma FedByRest(acts: seq<Action>, w: Watcher, e: Event)
    requires acts != [] && FedBy([acts], w, e) && !Feeds(acts[0], w, e)
    ensures FedBy([acts[1..]], w, e)
  {
    var n, i :| 0 <= n < |[acts]| && 0 <= i < |[acts][n]| && Feeds([acts][n][i], w, e);
    assert [acts[1..]][0][i - 1] == acts[i];
  }

  /** A watcher that a callback clears is not invoked any more, unless it is fed again. */
  lemma ClearingWithdraws(acts: seq<Action>, qs: Queues, dummy: Watcher, script: Script, w: Watcher)
    requires acts != [] && acts[0] == ClearIt(w) && Lone(qs, w) && w != dummy
    requires NeverFed([acts], w) && NeverFed(script, w)
    ensures var c := Perform(acts, qs, dummy, script);
            var o := Drain(c.qs, dummy, c.rest);
            forall i :: 0 <= i < |c.log + o.log| ==> (c.log + o.log)[i].w != w
  {
    ClearUnnames(qs, dummy, w);
    assert NeverFed([acts[1..]], w) by {
      assert acts in [acts] && forall a :: a in acts[1..] ==> a in acts;
    }
    CallbackLeavesGone(acts[1..], Clear(qs, w, dummy), dummy, script, w);
    var c := Perform(acts, qs, dummy, script);
    GoneForGood(c.qs, dummy, c.rest, w);
  }

  /** ev_invoke_pending leaves nothing pending, called from a callback too. */
  lemma {:induction false} ReenterDrains(acts: seq<Action>, qs: Queues, dummy: Watcher, script: Script)
    requires acts != [] && acts[|acts| - 1] == Reenter
    ensures forall w :: !IsPending(Perform(acts, qs, dummy, script).qs, w)
    decreases |acts|
  {
    if |acts| == 1 {
      var d := Drain(qs, dummy, script);
      assert Perform(acts, qs, dummy, script).qs == Perform([], d.qs, dummy, d.rest).qs;
      NoneNamed(d.qs, dummy);
    } else {
      match acts[0] {
        case FeedIt(v, events) => ReenterDrains(acts[1..], Feed(qs, v, events), dummy, script);
        case ClearIt(v) => ReenterDrains(acts[1..], Clear(qs, v, dummy), dummy, script);
        case Reenter => ReenterDrains(acts[1..], Drain(qs, dummy, script).qs, dummy, Drain(qs, dummy, script).rest);
      }
    }
  }

  // ---------- Order of priorities ----------

  ghost predicate FeedsNothing(script: Script) {
    forall acts, a :: acts in script && a in acts ==> !a.FeedIt?
  }

  /** The invocations are in order of priority, and none has a higher one than p. */
  ghost predicate Descending(log: seq<Slot>, p: int) {
    && (forall i :: 0 <= i < |log| ==> log[i].w.priority <= p)
    && (forall i, j :: 0 <= i < j < |log| ==> log[j].w.priority <= log[i].w.priority)
  }

  /** A slot's watcher is invoked before those of lower priority, while callbacks feed nothing. */
  lemma {:induction false} HighestFirst(qs: Queues, dummy: Watcher, script: Script)
    requires Homed(qs, dummy) && FeedsNothing(script)
    ensures Descending(Drain(qs, dummy, script).log, Highest(qs))
    decreases |script|, 0, Total(qs)
  {
    if Highest(qs) != -1 {
      PopHomed(qs, dummy);
      if Top(qs).w == dummy {
        HighestFirst(Pop(qs), dummy, script);
      } else if script == [] {
        HighestFirst(Pop(qs), dummy, []);
        NextDescends(Top(qs), Drain(Pop(qs), dummy, []).log, Highest(qs), Highest(Pop(qs)));
      } else {
        var c := Perform(script[0], Pop(qs), dummy, script[1..]);
        assert script[0] in script;
        CallbackDescends(script[0], Pop(qs), dummy, script[1..]);
        HighestFirst(c.qs, dummy, c.rest);
        JoinDescending(Top(qs), c.log, Drain(c.qs, dummy, c.rest).log, Highest(qs), Highest(c.qs));
        assert Drain(qs, dummy, script).log == [Top(qs)] + c.log + Drain(c.qs, dummy, c.rest).log;
      }
    }
  }

  lemma PopHomed(qs: Queues, dummy: Watcher)
    requires Homed(qs, dummy) && 0 <= Highest(qs)
    ensures Homed(Pop(qs), dummy) && Highest(Pop(qs)) <= Highest(qs)
    ensures Top(qs).w == dummy || Top(qs).w.priority == Highest(qs)
  {
  }

  /** What a callback invokes, and what is invoked after it, follows it in order. */
  lemma JoinDescending(s: Slot, a: seq<Slot>, b: seq<Slot>, p: int, q: int)
    requires s.w.priority == p && Descending(a, p) && Descending(b, q) && q <= p && (a == [] || q == -1)
    ensures Descending([s] + a + b, p)
  {
    PriorityBelow(b, q);
  }

  lemma NextDescends(s: Slot, b: seq<Slot>, p: int, q: int)
    requires s.w.priority == p && Descending(b, q) && q <= p
    ensures Descending([s] + b, p)
  {
  }

  lemma ClearHomed(qs: Queues, v: Watcher, dummy: Watcher)
    requires Homed(qs, dummy)
    ensures Homed(Clear(qs, v, dummy), dummy) && Highest(Clear(qs, v, dummy)) <= Highest(qs)
  {
    var h := Highest(Clear(qs, v, dummy));
    assert 0 <= h ==> qs[h] != [];
  }

  ghost predicate NothingFed(acts: seq<Action>) {
    forall i :: 0 <= i < |acts| ==> !acts[i].FeedIt?
  }

  /** A callback that re-enters empties the queues; another one invokes nothing. */
  ghost predicate Descends(qs: Queues, o: Outcome, dummy: Watcher) {
    && Homed(o.qs, dummy) && Descending(o.log, Highest(qs))
    && Highest(o.qs) <= Highest(qs) && (o.log == [] || Highest(o.qs) == -1)
  }

  lemma {:induction false} CallbackDescends(acts: seq<Action>, qs: Queues, dummy: Watcher, script: Script)
    requires Homed(qs, dummy) && NothingFed(acts) && FeedsNothing(script)
    ensures var o := Perform(acts, qs, dummy, script); Descends(qs, o, dummy) && FeedsNothing(o.rest)
    decreases |script|, 1, |acts|
  {
    RestIsSuffix(acts, qs, dummy, script);
    if acts != [] {
      if acts[0].ClearIt? {
        ClearHomed(qs, acts[0].w, dummy);
        CallbackDescends(acts[1..], Clear(qs, acts[0].w, dummy), dummy, script);
      } else {
        ReentryDescends(acts, qs, dummy, script);
      }
    }
  }

  lemma ReentryDescends(acts: seq<Action>, qs: Queues, dummy: Watcher, script: Script)
    requires Homed(qs, dummy) && NothingFed(acts) && FeedsNothing(script) && acts != [] && acts[0].Reenter?
    ensures Descends(qs, Perform(acts, qs, dummy, script), dummy)
    decreases |script|, 1, |acts|, 0
  {
    var d := Drain(qs, dummy, script);
    HighestFirst(qs, dummy, script);
    DrainRestIsSuffix(qs, dummy, script);
    CallbackDescends(acts[1..], d.qs, dummy, d.rest);
    PriorityBelow(Perform(acts[1..], d.qs, dummy, d.rest).log, -1);
    assert d.log + [] == d.log;
  }

  /** No priority is below 0. */
  lemma PriorityBelow(log: seq<Slot>, p: int)
    requires Descending(log, p)
    ensures log == [] || 0 <= p
  {
    assert log != [] ==> 0 <= log[0].w.priority <= p;
  }
}
