/**
 * What timers_reify and periodics_reify do to the times of their watchers and to the pending queues,
 * on plain values: the expired watchers are taken off in order of time, and each is rescheduled or
 * stopped.
 */
module Expiry {
  import opened Watchers
  import opened PendingSpec

  /** What becomes of a watcher that expires: its next time, or, when it stops, the time it is left with. */
  datatype After = After(at: real, stops: bool)

  /** Every watcher's time, which watchers are active, what is pending, and what expiry would lead to. */
  datatype Snapshot = Snapshot(at: map<Watcher, real>, members: set<Watcher>, qs: Queues, next: map<Watcher, After>) {
    ghost predicate Ok(now: real) {
      && members <= at.Keys == next.Keys
      && forall w :: w in next ==> next[w].stops || now <= next[w].at
    }

    /** The active watchers whose time has passed. */
    ghost function Expired(now: real): set<Watcher>
      requires Ok(now)
    {
      set w | w in members && at[w] < now
    }

    /** One watcher is rescheduled, or stopped. */
    ghost function Process(w: Watcher, now: real, dummy: Watcher): (s: Snapshot)
      requires Ok(now) && w in members
      ensures s.Ok(now) && s.next == next && s.at.Keys == at.Keys
    {
      if next[w].stops then this.(at := at[w := next[w].at], members := members - {w}, qs := Clear(qs, w, dummy))
      else this.(at := at[w := next[w].at])
    }
  }

  /** Processing the watchers of `fired` one after another. */
  ghost function ProcessAll(s: Snapshot, fired: seq<Watcher>, now: real, dummy: Watcher): (r: Snapshot)
    requires s.Ok(now) && NoRepeats(fired) && forall w :: w in fired ==> w in s.members
    ensures r.Ok(now) && r.at.Keys == s.at.Keys && r.next == s.next
    ensures forall w :: w in s.members && w !in fired ==> w in r.members
  {
    if fired == [] then s
    else
      var n := |fired| - 1;
      assert fired[n] !in fired[..n];
      ProcessAll(s, fired[..n], now, dummy).Process(fired[n], now, dummy)
  }

  /** What has become of each watcher once `fired` have been processed. */
  lemma {:induction false} ProcessedAll(s: Snapshot, fired: seq<Watcher>, now: real, dummy: Watcher)
    requires s.Ok(now) && NoRepeats(fired) && forall w :: w in fired ==> w in s.members
    ensures var r := ProcessAll(s, fired, now, dummy);
            && (forall w :: w in s.at ==> r.at[w] == if w in fired then s.next[w].at else s.at[w])
            && (forall w :: w in r.members <==> w in s.members && !(w in fired && s.next[w].stops))
  {
    if fired != [] {
      var n := |fired| - 1;
      assert fired[n] !in fired[..n];
      assert fired == fired[..n] + [fired[n]];
      ProcessedAll(s, fired[..n], now, dummy);
    }
  }

  /** A processed watcher is not expired any more, so what is left expired is what has not been processed. */
  lemma StillExpired(s: Snapshot, fired: seq<Watcher>, now: real, dummy: Watcher)
    requires s.Ok(now) && NoRepeats(fired) && forall w :: w in fired ==> w in s.members
    ensures ProcessAll(s, fired, now, dummy).Expired(now) == s.Expired(now) - set w | w in fired
  {
    ProcessedAll(s, fired, now, dummy);
  }

  /** `fired` are expired watchers of s, in order of time, and no later than those that are left out. */
  ghost predicate Collected(s: Snapshot, fired: seq<Watcher>, now: real)
    requires s.Ok(now)
  {
    && NoRepeats(fired) && (forall i :: 0 <= i < |fired| ==> fired[i] in s.Expired(now))
    && (forall i, j :: 0 <= i < j < |fired| ==> s.at[fired[i]] <= s.at[fired[j]])
    && (forall i, w :: 0 <= i < |fired| && w in s.members && w !in fired ==> s.at[fired[i]] <= s.at[w])
  }

  /** r is what s has become once the watchers of `fired`, expired ones in order, have been processed. */
  ghost predicate Processed(s: Snapshot, fired: seq<Watcher>, r: Snapshot, now: real, dummy: Watcher) {
    && s.Ok(now) && Collected(s, fired, now)
    && r.Ok(now) && r == ProcessAll(s, fired, now, dummy)
    && r.Expired(now) == s.Expired(now) - set w | w in fired
  }

  /** w is expired in r and has the least time of all, and processing it makes r'. */
  ghost predicate Step(r: Snapshot, w: Watcher, r': Snapshot, now: real, dummy: Watcher) {
    && r.Ok(now) && w in r.Expired(now) && (forall v :: v in r.members ==> r.at[w] <= r.at[v])
    && r' == r.Process(w, now, dummy)
  }

  /** Each step makes fewer watchers expired. */
  lemma FewerExpired(r: Snapshot, w: Watcher, now: real, dummy: Watcher)
    requires r.Ok(now) && w in r.Expired(now)
    ensures r.Process(w, now, dummy).Expired(now) < r.Expired(now)
  {
    assert w !in r.Process(w, now, dummy).Expired(now);
  }

  /** The least of those that are left is the next in order. */
  lemma CollectNext(s: Snapshot, fired: seq<Watcher>, r: Snapshot, w: Watcher, now: real, dummy: Watcher)
    requires Processed(s, fired, r, now, dummy)
    requires w in r.Expired(now) && forall v :: v in r.members ==> r.at[w] <= r.at[v]
    ensures Collected(s, fired + [w], now)
  {
    ProcessedAll(s, fired, now, dummy);
    assert w !in fired && w in s.Expired(now) && s.at[w] == r.at[w];
    forall v | v in s.members && v !in fired ensures s.at[w] <= s.at[v] {
      assert v in r.members && r.at[v] == s.at[v];
    }
  }

  /** Taking the least of the watchers that are left goes on in order. */
  lemma ProcessNext(s: Snapshot, fired: seq<Watcher>, r: Snapshot, w: Watcher, now: real, dummy: Watcher)
    requires Processed(s, fired, r, now, dummy)
    requires w in r.Expired(now) && forall v :: v in r.members ==> r.at[w] <= r.at[v]
    ensures Processed(s, fired + [w], r.Process(w, now, dummy), now, dummy)
  {
    CollectNext(s, fired, r, w, now, dummy);
    assert (fired + [w])[..|fired|] == fired && (fired + [w])[|fired|] == w;
    assert forall v :: v in fired + [w] ==> v in s.members;
    StillExpired(s, fired + [w], now, dummy);
  }

  ghost predicate Run(run: seq<Snapshot>, ws: seq<Watcher>, now: real, dummy: Watcher) {
    |run| == |ws| + 1 && forall i :: 0 <= i < |ws| ==> Step(run[i], ws[i], run[i + 1], now, dummy)
  }

  lemma ExtendRun(run: seq<Snapshot>, ws: seq<Watcher>, w: Watcher, r: Snapshot, now: real, dummy: Watcher)
    requires Run(run, ws, now, dummy) && Step(run[|ws|], w, r, now, dummy)
    ensures Run(run + [r], ws + [w], now, dummy)
    ensures r.Expired(now) < run[|ws|].Expired(now)
  {
    FewerExpired(run[|ws|], w, now, dummy);
  }

  /** Always taking the least expired watcher collects expired watchers in order of time. */
  lemma {:induction false} RunProcesses(run: seq<Snapshot>, ws: seq<Watcher>, now: real, dummy: Watcher)
    requires Run(run, ws, now, dummy) && run[0].Ok(now)
    ensures Processed(run[0], ws, run[|ws|], now, dummy)
    decreases |ws|
  {
    if ws != [] {
      var n := |ws| - 1;
      RunProcesses(run[..n + 1], ws[..n], now, dummy);
      assert Step(run[n], ws[n], run[n + 1], now, dummy);
      ProcessNext(run[0], ws[..n], run[n], ws[n], now, dummy);
      assert ws == ws[..n] + [ws[n]];
    }
  }

  /** Once none is left expired, exactly the expired watchers have been collected. */
  lemma FiredAreExpired(s: Snapshot, fired: seq<Watcher>, r: Snapshot, now: real, dummy: Watcher)
    requires Processed(s, fired, r, now, dummy)
    ensures forall w :: w in fired ==> w in s.members
    ensures r.Expired(now) == {} ==> (set w | w in fired) == s.Expired(now)
  {
    if r.Expired(now) == {} {
      forall w | w in s.Expired(now) ensures w in fired {
        assert w in r.Expired(now) || w in fired;
      }
    }
  }

  /** When none is left expired: who expired, what has become of them, and that the others are as before. */
  lemma ExpiryOutcome(s: Snapshot, fired: seq<Watcher>, r: Snapshot, now: real, dummy: Watcher)
    requires Processed(s, fired, r, now, dummy) && r.Expired(now) == {}
    ensures forall w :: w in fired <==> w in s.members && s.at[w] < now
    ensures forall w :: w in r.members ==> now <= r.at[w]
    ensures forall w :: w in r.members <==> w in s.members && (w in fired ==> !s.next[w].stops)
    ensures forall w :: w in s.at ==> r.at[w] == if w in fired then s.next[w].at else s.at[w]
  {
    FiredAreExpired(s, fired, r, now, dummy);
    ProcessedAll(s, fired, now, dummy);
    assert forall w :: w in fired <==> w in (set v | v in fired);
    forall w | w in r.members ensures now <= r.at[w] {
      assert w !in r.Expired(now);
    }
  }

  /** feed_reverse_done: feeding each watcher of ws, the last one first. */
  function FeedReverse(qs: Queues, ws: seq<Watcher>, events: Mask): (r: Queues)
    ensures |r| == |qs|
    decreases |ws|
  {
    if ws == [] then qs else FeedReverse(Feed(qs, ws[|ws| - 1], events), ws[..|ws| - 1], events)
  }
}
