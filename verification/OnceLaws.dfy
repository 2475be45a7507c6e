/**
 * How often ev_once calls back: its io watcher and its timer may both be pending, and whichever is invoked
 * first withdraws the other.
 */
module OnceLaws {
  import opened Watchers
  import opened PendingSpec
  import opened PendingLaws

  /** The two watchers of an ev_once. */
  datatype Pair = Pair(io: Watcher, to: Watcher) {
    predicate Has(w: Watcher) {
      w == io || w == to
    }

    function Other(w: Watcher): Watcher {
      if w == io then to else io
    }
  }

  /** What once_cb_io and once_cb_to do to the queues before they call the user's callback. */
  function OnceActs(c: Pair, w: Watcher): seq<Action> {
    [ClearIt(c.Other(w)), ClearIt(c.io), ClearIt(c.to)]
  }

  /** What they call it with, when w is invoked with these events and its slot has been taken off. */
  function Report(qs: Queues, c: Pair, w: Watcher, events: Mask): Mask {
    events + EventsFor(qs, c.Other(w))
  }

  function Named(log: seq<Slot>, c: Pair): nat {
    if log == [] then 0 else (if c.Has(log[0].w) then 1 else 0) + Named(log[1..], c)
  }

  lemma {:induction false} NamedSum(a: seq<Slot>, b: seq<Slot>, c: Pair)
    ensures Named(a + b, c) == Named(a, c) + Named(b, c)
  {
    if a == [] {
      assert a + b == b;
    } else {
      assert (a + b)[1..] == a[1..] + b;
      NamedSum(a[1..], b, c);
    }
  }

  // ---------- What happens to the pair ----------

  /** A callback feeds one of the two (ev_feed_fd_event needs no pointer to it), or the user's callback is called. */
  datatype Happening = Fed(events: Mask) | Called(events: Mask)

  function CallsIn(t: seq<Happening>): nat {
    if t == [] then 0 else (if t[0].Called? then 1 else 0) + CallsIn(t[1..])
  }

  lemma {:induction false} CallsSum(a: seq<Happening>, b: seq<Happening>)
    ensures CallsIn(a + b) == CallsIn(a) + CallsIn(b)
  {
    if a == [] {
      assert a + b == b;
    } else {
      assert (a + b)[1..] == a[1..] + b;
      CallsSum(a[1..], b);
    }
  }

  /** What invoking the slot s means to the pair. */
  function CallOf(s: Slot, qs: Queues, c: Pair): seq<Happening> {
    if c.Has(s.w) then [Called(Report(qs, c, s.w, s.events))] else []
  }

  /** What feeding w means to it. */
  function FeedOf(w: Watcher, events: Mask, c: Pair): seq<Happening> {
    if c.Has(w) then [Fed(events)] else []
  }

  /** What happens to the pair while Drain invokes, in order. Each invocation of either calls the user's callback. */
  function Trace(qs: Queues, dummy: Watcher, script: Script, c: Pair): (t: seq<Happening>)
    ensures CallsIn(t) == Named(Drain(qs, dummy, script).log, c)
    decreases |script|, 0, Total(qs)
  {
    if Highest(qs) == -1 then []
    else
      var s := Top(qs);
      var call := CallOf(s, Pop(qs), c);
      if s.w == dummy then Trace(Pop(qs), dummy, script, c)
      else if script == [] then
        var rest := Trace(Pop(qs), dummy, [], c);
        NamedSum([s], Drain(Pop(qs), dummy, []).log, c);
        CallsSum(call, rest);
        call + rest
      else
        var p := Perform(script[0], Pop(qs), dummy, script[1..]);
        var inside, rest := TraceIn(script[0], Pop(qs), dummy, script[1..], c), Trace(p.qs, dummy, p.rest, c);
        NamedSum([s], p.log, c);
        NamedSum([s] + p.log, Drain(p.qs, dummy, p.rest).log, c);
        CallsSum(call, inside);
        CallsSum(call + inside, rest);
        call + inside + rest
  }

  /** The same while one callback performs its actions. */
  function TraceIn(acts: seq<Action>, qs: Queues, dummy: Watcher, script: Script, c: Pair): (t: seq<Happening>)
    ensures CallsIn(t) == Named(Perform(acts, qs, dummy, script).log, c)
    decreases |script|, 1, |acts|
  {
    if acts == [] then []
    else match acts[0]
      case FeedIt(w, events) =>
        var rest := TraceIn(acts[1..], Feed(qs, w, events), dummy, script, c);
        CallsSum(FeedOf(w, events, c), rest);
        FeedOf(w, events, c) + rest
      case ClearIt(w) => TraceIn(acts[1..], Clear(qs, w, dummy), dummy, script, c)
      case Reenter =>
        var d := Drain(qs, dummy, script);
        var first, rest := Trace(qs, dummy, script, c), TraceIn(acts[1..], d.qs, dummy, d.rest, c);
        NamedSum(d.log, Perform(acts[1..], d.qs, dummy, d.rest).log, c);
        CallsSum(first, rest);
        first + rest
  }

  predicate OnlyFed(t: seq<Happening>) {
    forall n :: 0 <= n < |t| ==> t[n].Fed?
  }

  predicate NoneFed(t: seq<Happening>) {
    forall n :: 0 <= n < |t| ==> t[n].Called?
  }

  /** Once the user has been called neither watcher is fed: both have been stopped, and the structure freed. */
  predicate Orderly(t: seq<Happening>) {
    forall m, n :: 0 <= m < n < |t| && t[m].Called? ==> t[n].Called?
  }

  /** All that the pair has been fed. */
  function FedAll(t: seq<Happening>): Mask {
    if t == [] then {} else (if t[0].Fed? then t[0].events else {}) + FedAll(t[1..])
  }

  lemma {:induction false} FedSum(a: seq<Happening>, b: seq<Happening>)
    ensures FedAll(a + b) == FedAll(a) + FedAll(b)
  {
    if a == [] {
      assert a + b == b;
    } else {
      assert (a + b)[1..] == a[1..] + b;
      FedSum(a[1..], b);
    }
  }

  lemma OrderlyParts(a: seq<Happening>, b: seq<Happening>)
    requires Orderly(a + b)
    ensures Orderly(a) && Orderly(b) && (OnlyFed(a) || NoneFed(b))
  {
    var t := a + b;
    assert forall n :: 0 <= n < |a| ==> t[n] == a[n];
    assert forall n :: 0 <= n < |b| ==> t[|a| + n] == b[n];
  }

  lemma NoneFedParts(a: seq<Happening>, b: seq<Happening>)
    requires NoneFed(a + b)
    ensures NoneFed(a) && NoneFed(b)
  {
    var t := a + b;
    assert forall n :: 0 <= n < |a| ==> t[n] == a[n];
    assert forall n :: 0 <= n < |b| ==> t[|a| + n] == b[n];
  }

  // ---------- What the callbacks are ----------

  predicate Ignores(acts: seq<Action>, c: Pair) {
    ClearIt(c.io) !in acts && ClearIt(c.to) !in acts
  }

  predicate EntryOk(w: Watcher, script: Script, n: nat, c: Pair) {
    if n < |script| then if c.Has(w) then OnceActs(c, w) <= script[n] else Ignores(script[n], c)
    else !c.Has(w)
  }

  /**
   * The invocations of the two watchers are those of once_cb_io and once_cb_to, and no other callback clears either
   * watcher.
   */
  ghost predicate Obeys(log: seq<Slot>, script: Script, c: Pair) {
    forall n :: 0 <= n < |log| ==> EntryOk(log[n].w, script, n, c)
  }

  lemma ObeysParts(a: seq<Slot>, b: seq<Slot>, script: Script, c: Pair)
    requires Obeys(a + b, script, c)
    ensures Obeys(a, script, c) && Obeys(b, Left(script, |a|), c)
  {
    forall n | 0 <= n < |a| ensures EntryOk(a[n].w, script, n, c) {
      assert (a + b)[n] == a[n] && EntryOk((a + b)[n].w, script, n, c);
    }
    forall n | 0 <= n < |b| ensures EntryOk(b[n].w, Left(script, |a|), n, c) {
      assert (a + b)[|a| + n] == b[n] && EntryOk((a + b)[|a| + n].w, script, |a| + n, c);
    }
  }

  // ---------- Called exactly once ----------

  predicate Waiting(qs: Queues, c: Pair) {
    IsPending(qs, c.io) || IsPending(qs, c.to)
  }

  /** What is pending for the two together. */
  function Union(qs: Queues, c: Pair): Mask {
    EventsFor(qs, c.io) + EventsFor(qs, c.to)
  }

  predicate Gone(qs: Queues, c: Pair) {
    Unnamed(qs, c.io) && Unnamed(qs, c.to)
  }

  ghost predicate Proper(qs: Queues, dummy: Watcher, c: Pair) {
    && Lone(qs, c.io) && Lone(qs, c.to) && c.io != c.to && c.io != dummy && c.to != dummy
    && c.io.priority < |qs| && c.to.priority < |qs|
  }

  /** The user has not been called, and what the pair has been fed meanwhile is pending for it too. */
  ghost predicate Gathered(qs: Queues, qs': Queues, t: seq<Happening>, c: Pair) {
    && |qs'| == |qs| && Lone(qs', c.io) && Lone(qs', c.to) && OnlyFed(t)
    && Union(qs', c) == Union(qs, c) + FedAll(t) && (Waiting(qs', c) <==> Waiting(qs, c) || t != [])
  }

  /** The user has been called once, with all that was pending and all that the pair had been fed. */
  ghost predicate Finished(qs: Queues, qs': Queues, t: seq<Happening>, c: Pair) {
    && t != [] && var fed := t[..|t| - 1];
    OnlyFed(fed) && t[|t| - 1] == Called(Union(qs, c) + FedAll(fed)) && (Waiting(qs, c) || fed != []) && Gone(qs', c)
  }

  ghost predicate Resolved(qs: Queues, qs': Queues, t: seq<Happening>, c: Pair) {
    Gathered(qs, qs', t, c) || Finished(qs, qs', t, c)
  }

  lemma GatherMore(qs: Queues, q1: Queues, q2: Queues, a: seq<Happening>, b: seq<Happening>, c: Pair)
    requires Gathered(qs, q1, a, c) && Resolved(q1, q2, b, c)
    ensures Resolved(qs, q2, a + b, c)
  {
    FedSum(a, b);
    if Finished(q1, q2, b, c) {
      var fed := b[..|b| - 1];
      FedSum(a, fed);
      assert (a + b)[..|a + b| - 1] == a + fed;
    }
  }

  /** Nothing happens any more. */
  lemma FinishedStays(qs: Queues, q1: Queues, q2: Queues, a: seq<Happening>, b: seq<Happening>, c: Pair)
    requires Finished(qs, q1, a, c) && b == [] && Gone(q2, c)
    ensures Resolved(qs, q2, a + b, c)
  {
    assert a + b == a;
  }

  lemma ClearKeepsUnnamed(qs: Queues, v: Watcher, dummy: Watcher, w: Watcher)
    requires Unnamed(qs, w) && w != dummy
    ensures Unnamed(Clear(qs, v, dummy), w)
  {
  }

  lemma FeedKeepsUnnamed(qs: Queues, v: Watcher, events: Mask, w: Watcher)
    requires Unnamed(qs, w) && v != w
    ensures Unnamed(Feed(qs, v, events), w)
  {
  }

  lemma NotOurs(v: Watcher, events: Mask, c: Pair)
    ensures NoneFed(FeedOf(v, events, c)) <==> !c.Has(v)
  {
    if c.Has(v) {
      assert FeedOf(v, events, c)[0].Fed?;
    }
  }

  /** The invocation of another watcher means nothing to the pair but by what its callback does. */
  lemma OtherTrace(qs: Queues, dummy: Watcher, script: Script, c: Pair)
    requires 0 <= Highest(qs) && Top(qs).w != dummy && !c.Has(Top(qs).w) && script != []
    ensures var p := Perform(script[0], Pop(qs), dummy, script[1..]);
            && Trace(qs, dummy, script, c) ==
               TraceIn(script[0], Pop(qs), dummy, script[1..], c) + Trace(p.qs, dummy, p.rest, c)
            && Drain(qs, dummy, script).qs == Drain(p.qs, dummy, p.rest).qs
  {
    var inside := TraceIn(script[0], Pop(qs), dummy, script[1..], c);
    assert [] + inside == inside;
  }

  lemma IdleTrace(qs: Queues, dummy: Watcher, c: Pair)
    requires 0 <= Highest(qs) && Top(qs).w != dummy && !c.Has(Top(qs).w)
    ensures Trace(qs, dummy, [], c) == Trace(Pop(qs), dummy, [], c)
    ensures Drain(qs, dummy, []).qs == Drain(Pop(qs), dummy, []).qs
  {
    assert [] + Trace(Pop(qs), dummy, [], c) == Trace(Pop(qs), dummy, [], c);
  }

  /** Once both are withdrawn, and if they are not fed, the user's callback is not called any more. */
  lemma {:induction false} GoneNotCalled(qs: Queues, dummy: Watcher, script: Script, c: Pair)
    requires Gone(qs, c) && c.io != dummy && c.to != dummy && NoneFed(Trace(qs, dummy, script, c))
    ensures Trace(qs, dummy, script, c) == [] && Gone(Drain(qs, dummy, script).qs, c)
    decreases |script|, 0, Total(qs)
  {
    if Highest(qs) != -1 {
      assert Gone(Pop(qs), c) && !c.Has(Top(qs).w);
      if Top(qs).w == dummy {
        GoneNotCalled(Pop(qs), dummy, script, c);
      } else if script == [] {
        IdleTrace(qs, dummy, c);
        GoneNotCalled(Pop(qs), dummy, [], c);
      } else {
        OtherTrace(qs, dummy, script, c);
        GoneNotCalledAfter(Pop(qs), dummy, script, c);
      }
    }
  }

  /** A callback, and what is invoked after it. */
  lemma GoneNotCalledAfter(qs: Queues, dummy: Watcher, script: Script, c: Pair)
    requires Gone(qs, c) && c.io != dummy && c.to != dummy && script != []
    requires var p := Perform(script[0], qs, dummy, script[1..]);
             NoneFed(TraceIn(script[0], qs, dummy, script[1..], c) + Trace(p.qs, dummy, p.rest, c))
    ensures var p := Perform(script[0], qs, dummy, script[1..]);
            && TraceIn(script[0], qs, dummy, script[1..], c) + Trace(p.qs, dummy, p.rest, c) == []
            && Gone(Drain(p.qs, dummy, p.rest).qs, c)
    decreases |script| - 1, 2
  {
    var p := Perform(script[0], qs, dummy, script[1..]);
    NoneFedParts(TraceIn(script[0], qs, dummy, script[1..], c), Trace(p.qs, dummy, p.rest, c));
    GoneNotCalledIn(script[0], qs, dummy, script[1..], c);
    GoneNotCalled(p.qs, dummy, p.rest, c);
  }

  lemma {:induction false} GoneNotCalledIn(acts: seq<Action>, qs: Queues, dummy: Watcher, script: Script, c: Pair)
    requires Gone(qs, c) && c.io != dummy && c.to != dummy && NoneFed(TraceIn(acts, qs, dummy, script, c))
    ensures TraceIn(acts, qs, dummy, script, c) == [] && Gone(Perform(acts, qs, dummy, script).qs, c)
    decreases |script|, 1, |acts|
  {
    if acts != [] {
      match acts[0] {
        case FeedIt(v, events) =>
          var rest := TraceIn(acts[1..], Feed(qs, v, events), dummy, script, c);
          NoneFedParts(FeedOf(v, events, c), rest);
          NotOurs(v, events, c);
          assert [] + rest == rest;
          FeedKeepsUnnamed(qs, v, events, c.io);
          FeedKeepsUnnamed(qs, v, events, c.to);
          GoneNotCalledIn(acts[1..], Feed(qs, v, events), dummy, script, c);
        case ClearIt(v) =>
          ClearKeepsUnnamed(qs, v, dummy, c.io);
          ClearKeepsUnnamed(qs, v, dummy, c.to);
          GoneNotCalledIn(acts[1..], Clear(qs, v, dummy), dummy, script, c);
        case Reenter =>
          var d := Drain(qs, dummy, script);
          NoneFedParts(Trace(qs, dummy, script, c), TraceIn(acts[1..], d.qs, dummy, d.rest, c));
          GoneNotCalled(qs, dummy, script, c);
          GoneNotCalledIn(acts[1..], d.qs, dummy, d.rest, c);
      }
    }
  }

  lemma ClearFirst(acts: seq<Action>, qs: Queues, dummy: Watcher, script: Script, c: Pair)
    requires acts != [] && acts[0].ClearIt?
    ensures var cleared := Clear(qs, acts[0].w, dummy);
            && Perform(acts, qs, dummy, script) == Perform(acts[1..], cleared, dummy, script)
            && TraceIn(acts, qs, dummy, script, c) == TraceIn(acts[1..], cleared, dummy, script, c)
  {
  }

  /** once_cb_io and once_cb_to withdraw both watchers first. */
  lemma OnceActsFirst(acts: seq<Action>, qs: Queues, dummy: Watcher, script: Script, c: Pair, w: Watcher)
    requires OnceActs(c, w) <= acts
    ensures var cleared := Clear(Clear(Clear(qs, c.Other(w), dummy), c.io, dummy), c.to, dummy);
            && Perform(acts, qs, dummy, script) == Perform(acts[3..], cleared, dummy, script)
            && TraceIn(acts, qs, dummy, script, c) == TraceIn(acts[3..], cleared, dummy, script, c)
  {
    assert acts[0] == ClearIt(c.Other(w)) && acts[1] == ClearIt(c.io) && acts[2] == ClearIt(c.to);
    assert acts[1..][1..] == acts[2..] && acts[2..][1..] == acts[3..];
    var q1 := Clear(qs, c.Other(w), dummy);
    var q2 := Clear(q1, c.io, dummy);
    ClearFirst(acts, qs, dummy, script, c);
    ClearFirst(acts[1..], q1, dummy, script, c);
    ClearFirst(acts[2..], q2, dummy, script, c);
  }

  /** What they come to when the user's callback does nothing to the queues. */
  lemma OnceActsAlone(qs: Queues, dummy: Watcher, c: Pair, w: Watcher)
    ensures Perform(OnceActs(c, w), qs, dummy, []).qs ==
            Clear(Clear(Clear(qs, c.Other(w), dummy), c.io, dummy), c.to, dummy)
  {
    OnceActsFirst(OnceActs(c, w), qs, dummy, [], c, w);
  }

  /** The slot invoked is one of the two: without it and the other's, neither is named. */
  lemma BothCleared(qs: Queues, dummy: Watcher, c: Pair)
    requires Proper(qs, dummy, c) && 0 <= Highest(qs) && c.Has(Top(qs).w)
    ensures Gone(Clear(Clear(Clear(Pop(qs), c.Other(Top(qs).w), dummy), c.io, dummy), c.to, dummy), c)
    ensures Waiting(qs, c) && Report(Pop(qs), c, Top(qs).w, Top(qs).events) == Union(qs, c)
  {
    var w := Top(qs).w;
    var v := c.Other(w);
    PopUnnames(qs, w);
    PopSame(qs, v);
    var q1 := Clear(Pop(qs), v, dummy);
    ClearUnnames(Pop(qs), dummy, v);
    ClearKeepsUnnamed(Pop(qs), v, dummy, w);
    var q2 := Clear(q1, c.io, dummy);
    ClearKeepsUnnamed(q1, c.io, dummy, c.io);
    ClearKeepsUnnamed(q1, c.io, dummy, c.to);
    ClearKeepsUnnamed(q2, c.to, dummy, c.io);
    ClearKeepsUnnamed(q2, c.to, dummy, c.to);
  }

  lemma ObeysTurn(qs: Queues, dummy: Watcher, script: Script, c: Pair)
    requires 0 <= Highest(qs) && Top(qs).w != dummy && script != []
    requires Obeys(Drain(qs, dummy, script).log, script, c)
    ensures var p := Perform(script[0], Pop(qs), dummy, script[1..]);
            && EntryOk(Top(qs).w, script, 0, c) && Obeys(p.log, script[1..], c)
            && Obeys(Drain(p.qs, dummy, p.rest).log, p.rest, c)
  {
    var s, p := Top(qs), Perform(script[0], Pop(qs), dummy, script[1..]);
    PerformUses(script[0], Pop(qs), dummy, script[1..]);
    LeftLeft(script, 1, |p.log|);
    ObeysParts([s] + p.log, Drain(p.qs, dummy, p.rest).log, script, c);
    ObeysParts([s], p.log, script, c);
    assert EntryOk([s][0].w, script, 0, c);
  }

  lemma ObeysIdle(qs: Queues, dummy: Watcher, c: Pair)
    requires 0 <= Highest(qs) && Top(qs).w != dummy && Obeys(Drain(qs, dummy, []).log, [], c)
    ensures !c.Has(Top(qs).w) && Obeys(Drain(Pop(qs), dummy, []).log, [], c)
  {
    ObeysParts([Top(qs)], Drain(Pop(qs), dummy, []).log, [], c);
    assert EntryOk([Top(qs)][0].w, [], 0, c);
  }

  lemma ObeysReenter(acts: seq<Action>, qs: Queues, dummy: Watcher, script: Script, c: Pair)
    requires acts != [] && acts[0].Reenter? && Obeys(Perform(acts, qs, dummy, script).log, script, c)
    ensures var d := Drain(qs, dummy, script);
            Obeys(d.log, script, c) && Obeys(Perform(acts[1..], d.qs, dummy, d.rest).log, d.rest, c)
  {
    var d := Drain(qs, dummy, script);
    DrainUses(qs, dummy, script);
    ObeysParts(d.log, Perform(acts[1..], d.qs, dummy, d.rest).log, script, c);
  }

  /** Changing nothing about the pair. */
  lemma SameGathered(qs: Queues, qs': Queues, c: Pair)
    requires Same(qs, qs', c.io) && Same(qs, qs', c.to) && |qs'| == |qs|
    ensures Gathered(qs, qs', [], c)
  {
  }

  lemma FedGathered(qs: Queues, v: Watcher, events: Mask, dummy: Watcher, c: Pair)
    requires Proper(qs, dummy, c)
    ensures Gathered(qs, Feed(qs, v, events), FeedOf(v, events, c), c)
  {
    if c.Has(v) {
      OursGathered(qs, v, events, dummy, c);
    } else {
      FeedSame(qs, v, events, c.io);
      FeedSame(qs, v, events, c.to);
      SameGathered(qs, Feed(qs, v, events), c);
    }
  }

  lemma OursGathered(qs: Queues, v: Watcher, events: Mask, dummy: Watcher, c: Pair)
    requires Proper(qs, dummy, c) && c.Has(v)
    ensures Gathered(qs, Feed(qs, v, events), [Fed(events)], c)
  {
    FeedLone(qs, v, events, c.io);
    FeedLone(qs, v, events, c.to);
    FeedExactly(qs, v, events, c.io);
    FeedExactly(qs, v, events, c.to);
    FedOne(events);
  }

  lemma FedOne(events: Mask)
    ensures FedAll([Fed(events)]) == events
  {
    assert [Fed(events)][1..] == [];
  }

  lemma {:induction false} DrainResolves(qs: Queues, dummy: Watcher, script: Script, c: Pair)
    requires Proper(qs, dummy, c) && Obeys(Drain(qs, dummy, script).log, script, c)
    requires Orderly(Trace(qs, dummy, script, c))
    ensures Resolved(qs, Drain(qs, dummy, script).qs, Trace(qs, dummy, script, c), c)
    decreases |script|, 0, Total(qs)
  {
    if Highest(qs) != -1 {
      if Top(qs).w == dummy {
        SkipResolves(qs, dummy, script, c);
      } else if script == [] {
        ObeysIdle(qs, dummy, c);
        IdleTrace(qs, dummy, c);
        SkipResolves(qs, dummy, [], c);
      } else {
        ObeysTurn(qs, dummy, script, c);
        if c.Has(Top(qs).w) {
          OnceResolves(qs, dummy, script, c);
        } else {
          OtherResolves(qs, dummy, script, c);
        }
      }
    }
  }

  /** An invocation that does nothing, of another watcher. */
  lemma SkipResolves(qs: Queues, dummy: Watcher, script: Script, c: Pair)
    requires Proper(qs, dummy, c) && 0 <= Highest(qs) && !c.Has(Top(qs).w)
    requires Top(qs).w == dummy || script == []
    requires Obeys(Drain(Pop(qs), dummy, script).log, script, c) && Orderly(Trace(Pop(qs), dummy, script, c))
    ensures Resolved(qs, Drain(Pop(qs), dummy, script).qs, Trace(Pop(qs), dummy, script, c), c)
    decreases |script|, 0, Total(qs), 0
  {
    PopSame(qs, c.io);
    PopSame(qs, c.to);
    SameGathered(qs, Pop(qs), c);
    DrainResolves(Pop(qs), dummy, script, c);
    var t := Trace(Pop(qs), dummy, script, c);
    GatherMore(qs, Pop(qs), Drain(Pop(qs), dummy, script).qs, [], t, c);
    assert [] + t == t;
  }

  /** The invocation of one of the two. */
  lemma OnceResolves(qs: Queues, dummy: Watcher, script: Script, c: Pair)
    requires Proper(qs, dummy, c) && 0 <= Highest(qs) && script != []
    requires c.Has(Top(qs).w) && EntryOk(Top(qs).w, script, 0, c) && Orderly(Trace(qs, dummy, script, c))
    ensures Resolved(qs, Drain(qs, dummy, script).qs, Trace(qs, dummy, script, c), c)
  {
    var p := Perform(script[0], Pop(qs), dummy, script[1..]);
    var call := CallOf(Top(qs), Pop(qs), c);
    var inside, rest := TraceIn(script[0], Pop(qs), dummy, script[1..], c), Trace(p.qs, dummy, p.rest, c);
    OrderlyParts(call + inside, rest);
    OrderlyParts(call, inside);
    assert call[0].Called? && !OnlyFed(call) && (call + inside)[0].Called?;
    BothCleared(qs, dummy, c);
    OnceActsFirst(script[0], Pop(qs), dummy, script[1..], c, Top(qs).w);
    var cleared := Clear(Clear(Clear(Pop(qs), c.Other(Top(qs).w), dummy), c.io, dummy), c.to, dummy);
    GoneNotCalledIn(script[0][3..], cleared, dummy, script[1..], c);
    GoneNotCalled(p.qs, dummy, p.rest, c);
    CalledNow(qs, Drain(p.qs, dummy, p.rest).qs, c);
    assert call + inside + rest == [Called(Union(qs, c))];
  }

  lemma CalledNow(qs: Queues, qs': Queues, c: Pair)
    requires Waiting(qs, c) && Gone(qs', c)
    ensures Finished(qs, qs', [Called(Union(qs, c))], c)
  {
    var t := [Called(Union(qs, c))];
    assert t[..|t| - 1] == [];
  }

  /** The invocation of another watcher: its callback may feed the two, or come to invoke one of them by re-entering. */
  lemma OtherResolves(qs: Queues, dummy: Watcher, script: Script, c: Pair)
    requires Proper(qs, dummy, c) && 0 <= Highest(qs) && script != []
    requires Top(qs).w != dummy && !c.Has(Top(qs).w) && EntryOk(Top(qs).w, script, 0, c)
    requires var p := Perform(script[0], Pop(qs), dummy, script[1..]);
             Obeys(p.log, script[1..], c) && Obeys(Drain(p.qs, dummy, p.rest).log, p.rest, c)
    requires Orderly(Trace(qs, dummy, script, c))
    ensures Resolved(qs, Drain(qs, dummy, script).qs, Trace(qs, dummy, script, c), c)
    decreases |script|, 0, Total(qs), 0
  {
    var p := Perform(script[0], Pop(qs), dummy, script[1..]);
    var inside, rest := TraceIn(script[0], Pop(qs), dummy, script[1..], c), Trace(p.qs, dummy, p.rest, c);
    OtherTrace(qs, dummy, script, c);
    OrderlyParts(inside, rest);
    InsideResolves(qs, dummy, script, c);
    RestResolves(qs, p, inside, dummy, c);
  }

  lemma InsideResolves(qs: Queues, dummy: Watcher, script: Script, c: Pair)
    requires Proper(qs, dummy, c) && 0 <= Highest(qs) && script != []
    requires !c.Has(Top(qs).w) && Ignores(script[0], c)
    requires Obeys(Perform(script[0], Pop(qs), dummy, script[1..]).log, script[1..], c)
    requires Orderly(TraceIn(script[0], Pop(qs), dummy, script[1..], c))
    ensures var p := Perform(script[0], Pop(qs), dummy, script[1..]);
            Resolved(qs, p.qs, TraceIn(script[0], Pop(qs), dummy, script[1..], c), c)
    decreases |script| - 1, 2
  {
    var p := Perform(script[0], Pop(qs), dummy, script[1..]);
    var inside := TraceIn(script[0], Pop(qs), dummy, script[1..], c);
    PopSame(qs, c.io);
    PopSame(qs, c.to);
    SameGathered(qs, Pop(qs), c);
    PerformResolves(script[0], Pop(qs), dummy, script[1..], c);
    GatherMore(qs, Pop(qs), p.qs, [], inside, c);
    assert [] + inside == inside;
  }

  /** After a callback p, with what has happened inside it, the drain goes on. */
  lemma RestResolves(qs: Queues, p: Outcome, inside: seq<Happening>, dummy: Watcher, c: Pair)
    requires Proper(qs, dummy, c) && Resolved(qs, p.qs, inside, c)
    requires Obeys(Drain(p.qs, dummy, p.rest).log, p.rest, c)
    requires Orderly(Trace(p.qs, dummy, p.rest, c)) && (OnlyFed(inside) || NoneFed(Trace(p.qs, dummy, p.rest, c)))
    ensures Resolved(qs, Drain(p.qs, dummy, p.rest).qs, inside + Trace(p.qs, dummy, p.rest, c), c)
    decreases |p.rest|, 2
  {
    var rest, end := Trace(p.qs, dummy, p.rest, c), Drain(p.qs, dummy, p.rest).qs;
    if Gathered(qs, p.qs, inside, c) {
      DrainResolves(p.qs, dummy, p.rest, c);
      GatherMore(qs, p.qs, end, inside, rest, c);
    } else {
      NotOnlyFed(qs, p.qs, inside, c);
      GoneNotCalled(p.qs, dummy, p.rest, c);
      FinishedStays(qs, p.qs, end, inside, rest, c);
    }
  }

  lemma NotOnlyFed(qs: Queues, qs': Queues, t: seq<Happening>, c: Pair)
    requires Finished(qs, qs', t, c)
    ensures !OnlyFed(t)
  {
    assert t[|t| - 1].Called?;
  }

  lemma {:induction false} PerformResolves(acts: seq<Action>, qs: Queues, dummy: Watcher, script: Script, c: Pair)
    requires Proper(qs, dummy, c) && Ignores(acts, c) && Orderly(TraceIn(acts, qs, dummy, script, c))
    requires Obeys(Perform(acts, qs, dummy, script).log, script, c)
    ensures Resolved(qs, Perform(acts, qs, dummy, script).qs, TraceIn(acts, qs, dummy, script, c), c)
    decreases |script|, 1, |acts|
  {
    if acts != [] {
      IgnoresRest(acts, c);
      match acts[0] {
        case FeedIt(v, events) =>
          var fed, rest := FeedOf(v, events, c), TraceIn(acts[1..], Feed(qs, v, events), dummy, script, c);
          OrderlyParts(fed, rest);
          FedGathered(qs, v, events, dummy, c);
          PerformResolves(acts[1..], Feed(qs, v, events), dummy, script, c);
          GatherMore(qs, Feed(qs, v, events), Perform(acts[1..], Feed(qs, v, events), dummy, script).qs, fed, rest, c);
        case ClearIt(v) =>
          var rest := TraceIn(acts[1..], Clear(qs, v, dummy), dummy, script, c);
          ClearSame(qs, v, dummy, c.io);
          ClearSame(qs, v, dummy, c.to);
          SameGathered(qs, Clear(qs, v, dummy), c);
          PerformResolves(acts[1..], Clear(qs, v, dummy), dummy, script, c);
          GatherMore(qs, Clear(qs, v, dummy), Perform(acts[1..], Clear(qs, v, dummy), dummy, script).qs, [], rest, c);
          assert [] + rest == rest;
        case Reenter =>
          ObeysReenter(acts, qs, dummy, script, c);
          ReenterResolves(acts, qs, dummy, script, c);
      }
    }
  }

  lemma IgnoresRest(acts: seq<Action>, c: Pair)
    requires acts != [] && Ignores(acts, c)
    ensures Ignores(acts[1..], c) && (acts[0].ClearIt? ==> !c.Has(acts[0].w))
  {
    assert acts[0] in acts && forall a :: a in acts[1..] ==> a in acts;
  }

  lemma ReenterResolves(acts: seq<Action>, qs: Queues, dummy: Watcher, script: Script, c: Pair)
    requires Proper(qs, dummy, c) && acts != [] && acts[0].Reenter? && Ignores(acts[1..], c)
    requires Orderly(TraceIn(acts, qs, dummy, script, c))
    requires var d := Drain(qs, dummy, script);
             Obeys(d.log, script, c) && Obeys(Perform(acts[1..], d.qs, dummy, d.rest).log, d.rest, c)
    ensures Resolved(qs, Perform(acts, qs, dummy, script).qs, TraceIn(acts, qs, dummy, script, c), c)
    decreases |script|, 1, |acts|, 0
  {
    var d := Drain(qs, dummy, script);
    var first, rest := Trace(qs, dummy, script, c), TraceIn(acts[1..], d.qs, dummy, d.rest, c);
    OrderlyParts(first, rest);
    DrainResolves(qs, dummy, script, c);
    if Gathered(qs, d.qs, first, c) {
      PerformResolves(acts[1..], d.qs, dummy, d.rest, c);
      GatherMore(qs, d.qs, Perform(acts[1..], d.qs, dummy, d.rest).qs, first, rest, c);
    } else {
      NotOnlyFed(qs, d.qs, first, c);
      GoneNotCalledIn(acts[1..], d.qs, dummy, d.rest, c);
      FinishedStays(qs, d.qs, Perform(acts[1..], d.qs, dummy, d.rest).qs, first, rest, c);
    }
  }

  /** If anything is or comes to be pending, the user is told at the end of `told` and all that has been fed. */
  predicate ToldOnce(told: Mask, waiting: bool, t: seq<Happening>) {
    waiting || t != [] ==> t != [] && OnlyFed(t[..|t| - 1]) && t[|t| - 1] == Called(told + FedAll(t[..|t| - 1]))
  }

  /**
   * ev_once calls back exactly once: whatever the two watchers' priorities and whatever other callbacks feed, also
   * to these two, clear or re-enter, if either watcher is pending or comes to be, the drain invokes exactly one of
   * them, last of all that happens to the pair, and the user is told all that was pending for both and all that
   * they were fed; otherwise none is invoked.
   */
  lemma CalledOnce(qs: Queues, dummy: Watcher, script: Script, c: Pair)
    requires Proper(qs, dummy, c) && Obeys(Drain(qs, dummy, script).log, script, c)
    requires Orderly(Trace(qs, dummy, script, c))
    ensures ToldOnce(Union(qs, c), Waiting(qs, c), Trace(qs, dummy, script, c))
    ensures Named(Drain(qs, dummy, script).log, c) == if Trace(qs, dummy, script, c) != [] then 1 else 0
    ensures Gone(Drain(qs, dummy, script).qs, c)
  {
    DrainResolves(qs, dummy, script, c);
    var t := Trace(qs, dummy, script, c);
    if t != [] {
      var n := |t| - 1;
      CallsSum(t[..n], [t[n]]);
      assert t == t[..n] + [t[n]] && [t[n]][1..] == [];
      OnlyFedNoCalls(t[..n]);
    }
  }

  lemma {:induction false} OnlyFedNoCalls(t: seq<Happening>)
    requires OnlyFed(t)
    ensures CallsIn(t) == 0
  {
    if t != [] {
      assert OnlyFed(t[1..]);
      OnlyFedNoCalls(t[1..]);
    }
  }
}
