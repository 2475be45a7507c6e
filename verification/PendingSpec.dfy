/**
 * What the pending queues mean: the events waiting for each watcher, per priority, in the order they
 * were queued. No indices and no remembered priority: a watcher's slot is found by looking for it, and
 * the next invocation is the last slot of the highest priority that has any.
 */
module PendingSpec {
  import opened Watchers

  /** ANPENDING. A cleared slot names the dummy watcher. */
  datatype Slot = Slot(w: Watcher, events: Mask)

  type Queues = seq<seq<Slot>>

  /**
   * What one callback does to the queues: ev_feed_event, ev_clear_pending (also part of every stop),
   * ev_invoke_pending.
   */
  datatype Action = FeedIt(w: Watcher, events: Mask) | ClearIt(w: Watcher) | Reenter

  /** The behaviour of callbacks: the n-th invocation performs the n-th entry, and later ones do nothing. */
  type Script = seq<seq<Action>>

  /** The index of w's slot, or |q| when it has none. */
  function Position(q: seq<Slot>, w: Watcher): (i: nat)
    ensures i <= |q|
    ensures i < |q| ==> q[i].w == w
    ensures forall j :: 0 <= j < i ==> q[j].w != w
  {
    if q == [] || q[0].w == w then 0 else 1 + Position(q[1..], w)
  }

  predicate IsPending(qs: Queues, w: Watcher) {
    w.priority < |qs| && Position(qs[w.priority], w) < |qs[w.priority]|
  }

  function EventsFor(qs: Queues, w: Watcher): Mask {
    if IsPending(qs, w) then qs[w.priority][Position(qs[w.priority], w)].events else {}
  }

  function SetSlot(qs: Queues, w: Watcher, s: Slot): (r: Queues)
    requires IsPending(qs, w)
    ensures |r| == |qs|
  {
    qs[w.priority := qs[w.priority][Position(qs[w.priority], w) := s]]
  }

  function Feed(qs: Queues, w: Watcher, events: Mask): (r: Queues)
    ensures |r| == |qs|
  {
    if IsPending(qs, w) then SetSlot(qs, w, Slot(w, EventsFor(qs, w) + events))
    else if w.priority < |qs| then qs[w.priority := qs[w.priority] + [Slot(w, events)]]
    else qs
  }

  function Clear(qs: Queues, w: Watcher, dummy: Watcher): (r: Queues)
    ensures |r| == |qs|
  {
    if IsPending(qs, w) then SetSlot(qs, w, Slot(dummy, EventsFor(qs, w))) else qs
  }

  /** The highest priority with a slot, or -1. */
  function Highest(qs: Queues): (p: int)
    ensures -1 <= p < |qs|
    ensures 0 <= p ==> qs[p] != []
    ensures forall i :: p < i < |qs| ==> qs[i] == []
  {
    if qs == [] then -1
    else if qs[|qs| - 1] != [] then |qs| - 1
    else Highest(qs[..|qs| - 1])
  }

  function Total(qs: Queues): nat {
    if qs == [] then 0 else |qs[0]| + Total(qs[1..])
  }

  lemma {:induction false} TotalShrinks(qs: Queues, p: nat, q: seq<Slot>)
    requires p < |qs| && |q| < |qs[p]|
    ensures Total(qs[p := q]) < Total(qs)
  {
    if p == 0 {
      assert qs[p := q][1..] == qs[1..];
    } else {
      assert qs[p := q][1..] == qs[1..][p - 1 := q];
      TotalShrinks(qs[1..], p - 1, q);
    }
  }

  /** Queues, unused script and invocations so far. */
  datatype Outcome = Outcome(qs: Queues, rest: Script, log: seq<Slot>)

  /** The outcome of going on to `o` after the invocations in `log`. */
  function Follow(log: seq<Slot>, o: Outcome): Outcome {
    Outcome(o.qs, o.rest, log + o.log)
  }

  /** The slot invoked next, and the queues without it. */
  function Top(qs: Queues): Slot
    requires 0 <= Highest(qs)
  {
    var q := qs[Highest(qs)];
    q[|q| - 1]
  }

  function Pop(qs: Queues): (r: Queues)
    requires 0 <= Highest(qs)
    ensures |r| == |qs| && Total(r) < Total(qs)
  {
    var q := qs[Highest(qs)];
    TotalShrinks(qs, Highest(qs), q[..|q| - 1]);
    qs[Highest(qs) := q[..|q| - 1]]
  }

  /** Invoking until nothing is pending. */
  function Drain(qs: Queues, dummy: Watcher, script: Script): (o: Outcome)
    ensures |o.qs| == |qs| && |o.rest| <= |script| && Highest(o.qs) == -1
    decreases |script|, 0, Total(qs)
  {
    if Highest(qs) == -1 then Outcome(qs, script, [])
    else if Top(qs).w == dummy then Drain(Pop(qs), dummy, script)
    else if script == [] then Follow([Top(qs)], Drain(Pop(qs), dummy, []))
    else
      var c := Perform(script[0], Pop(qs), dummy, script[1..]);
      Follow([Top(qs)] + c.log, Drain(c.qs, dummy, c.rest))
  }

  /** One callback performing its actions in order. */
  function Perform(acts: seq<Action>, qs: Queues, dummy: Watcher, script: Script): (o: Outcome)
    ensures |o.qs| == |qs| && |o.rest| <= |script|
    decreases |script|, 1, |acts|
  {
    if acts == [] then Outcome(qs, script, [])
    else match acts[0]
      case FeedIt(w, events) => Perform(acts[1..], Feed(qs, w, events), dummy, script)
      case ClearIt(w) => Perform(acts[1..], Clear(qs, w, dummy), dummy, script)
      case Reenter =>
        var d := Drain(qs, dummy, script);
        Follow(d.log, Perform(acts[1..], d.qs, dummy, d.rest))
  }

  lemma FollowFollow(a: seq<Slot>, b: seq<Slot>, o: Outcome)
    ensures Follow(a, Follow(b, o)) == Follow(a + b, o)
  {
    assert a + (b + o.log) == a + b + o.log;
  }

  /** One turn of Drain after some invocations, in terms of the slot the implementation has found. */
  lemma DrainTurn(log: seq<Slot>, qs: Queues, p: nat, dummy: Watcher, script: Script, popped: Queues, s: Slot)
    requires p < |qs| && qs[p] != [] && forall i :: p < i < |qs| ==> qs[i] == []
    requires s == qs[p][|qs[p]| - 1] && popped == qs[p := qs[p][..|qs[p]| - 1]]
    ensures Total(popped) < Total(qs)
    ensures s.w == dummy ==> Drain(qs, dummy, script) == Drain(popped, dummy, script)
    ensures s.w != dummy && script == [] ==>
              Follow(log, Drain(qs, dummy, script)) == Follow(log + [s], Drain(popped, dummy, []))
    ensures s.w != dummy && script != [] ==>
              var c := Perform(script[0], popped, dummy, script[1..]);
              Follow(log, Drain(qs, dummy, script)) == Follow(log + [s] + c.log, Drain(c.qs, dummy, c.rest))
  {
    assert Highest(qs) == p && Top(qs) == s && Pop(qs) == popped;
    if s.w != dummy {
      if script == [] {
        FollowFollow(log, [s], Drain(popped, dummy, []));
      } else {
        var c := Perform(script[0], popped, dummy, script[1..]);
        FollowFollow(log, [s] + c.log, Drain(c.qs, dummy, c.rest));
        assert log + ([s] + c.log) == log + [s] + c.log;
      }
    }
  }
}
