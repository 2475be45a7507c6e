/**
 * Every timer that a thread starts is called back, unless it is stopped: in runs in which time passes, threads that
 * have the lock go on, and so does the loop whenever it can time and again.
 */
module TimerProgress {
  import W = Wakeup
  import P = PendingSpec
  import opened Watchers
  import opened CrossThreadTimers
  import DeadlineOrder
  import EarlyTimers
  import PendingLaws

  // ---------- What is kept ----------

  /** While anything is pending no timer is expired: nothing is collected before all has been invoked. */
  predicate CollectOk(s: State)
    requires s.members <= s.at.Keys
  {
    0 <= P.Highest(s.qs) ==> NoneExpired(s)
  }

  ghost predicate Good(s: State, e: Env) {
    Inv(s, e) && CollectOk(s)
  }

  lemma CollectStays(s: State, a: Action, e: Env)
    requires Good(s, e) && Enabled(s, a, e) && Inv(Do(s, a, e), e)
    ensures CollectOk(Do(s, a, e))
  {
    if a.Advance? {
      LoopMoves(s.wake, a.nowait);
      AdvanceCollects(s, a, e);
    } else if a.Step? {
      StepCollects(s, a.t, e);
    } else {
      OthersCollect(s, a, e);
    }
  }

  lemma AdvanceCollects(s: State, a: Action, e: Env)
    requires Good(s, e) && a.Advance? && Enabled(s, a, e)
    ensures s.members <= s.at.Keys && CollectOk(Do(s, a, e))
  {
  }

  lemma StepCollects(s: State, t: nat, e: Env)
    requires Good(s, e) && StepEnabled(s, t) && Inv(ClientStep(s, t, e), e)
    ensures CollectOk(ClientStep(s, t, e))
  {
  }

  lemma OthersCollect(s: State, a: Action, e: Env)
    requires Good(s, e) && Enabled(s, a, e) && !a.Advance? && !a.Step?
    requires Inv(Do(s, a, e), e)
    ensures CollectOk(Do(s, a, e))
  {
  }

  lemma StepGood(s: State, a: Action, e: Env)
    requires Good(s, e) && Enabled(s, a, e)
    ensures Good(Do(s, a, e), e)
  {
    StepInv(s, a, e);
    CollectStays(s, a, e);
  }

  // ---------- Where a timer is ----------

  /** A started timer that is due at `due`, or that has been collected since and not yet called. */
  predicate Tracked(s: State, w: Watcher, due: real) {
    Timer in P.EventsFor(s.qs, w) || w in s.rfeeds || (w in s.members && w in s.at && s.at[w] == due)
  }

  predicate Stops(s: State, a: Action, w: Watcher) {
    Does(s, a, Stop(w))
  }

  lemma TrackedStays(s: State, a: Action, w: Watcher, due: real, e: Env)
    requires Good(s, e) && Enabled(s, a, e) && Tracked(s, w, due) && !Stops(s, a, w) && !Fires(s, a, w)
    ensures Tracked(Do(s, a, e), w, due)
  {
    match a
    case Begin => BeginTracks(s, w, due, e);
    case FeedExpired => FeedTracks(s, w, due, e);
    case Expire(v) => ExpireTracks(s, v, w, due, e);
    case Step(t) => ClientTracks(s, t, w, due, e);
    case _ =>
  }

  lemma BeginTracks(s: State, w: Watcher, due: real, e: Env)
    requires Good(s, e) && Enabled(s, Begin, e) && Tracked(s, w, due) && !Fires(s, Begin, w)
    ensures Tracked(Do(s, Begin, e), w, due)
    ensures Timer in P.EventsFor(s.qs, w) ==> Timer in P.EventsFor(Do(s, Begin, e).qs, w)
  {
    if Timer in P.EventsFor(s.qs, w) {
      PendingLaws.PopKeeps(s.qs, w, Timer);
    }
  }

  lemma FeedTracks(s: State, w: Watcher, due: real, e: Env)
    requires Good(s, e) && Enabled(s, FeedExpired, e) && Tracked(s, w, due)
    ensures Tracked(Do(s, FeedExpired, e), w, due)
    ensures Timer in P.EventsFor(s.qs, w) || w in s.rfeeds ==> Timer in P.EventsFor(Do(s, FeedExpired, e).qs, w)
  {
    if Timer in P.EventsFor(s.qs, w) || w in s.rfeeds {
      DeadlineOrder.RowFedExactly(s.qs, s.rfeeds, {Timer}, w);
    }
  }

  /** What is collected is not pending, and neither is anything else then. */
  lemma ExpireTracks(s: State, v: Watcher, w: Watcher, due: real, e: Env)
    requires Good(s, e) && Enabled(s, Expire(v), e) && Tracked(s, w, due)
    ensures Tracked(Do(s, Expire(v), e), w, due) && Do(s, Expire(v), e).qs == s.qs
    ensures Timer !in P.EventsFor(s.qs, w)
  {
    assert P.Highest(s.qs) == -1;
    NonePending(s.qs, v);
    NonePending(s.qs, w);
  }

  lemma NonePending(qs: P.Queues, w: Watcher)
    requires P.Highest(qs) == -1
    ensures !P.IsPending(qs, w) && P.EventsFor(qs, w) == {}
  {
  }

  lemma ClientTracks(s: State, t: nat, w: Watcher, due: real, e: Env)
    requires Good(s, e) && StepEnabled(s, t) && Tracked(s, w, due) && !Stops(s, Step(t), w)
    ensures Tracked(ClientStep(s, t, e), w, due)
  {
    if s.clients[t].Change? {
      assert s.lock == Client(t) && P.Highest(s.qs) == -1;
      NonePending(s.qs, w);
      NonePending(s.qs, s.clients[t].op.w);
    }
  }

  // ---------- How far it is from being called ----------

  /**
   * The stage (0 pending, 1 noted, 2 expired where the loop collects, 3 due), how far the loop is from taking the
   * time before it collects, and, while it invokes, how much it has still to do there.
   */
  datatype Place = Place(stage: nat, rank: nat, expired: nat, noted: nat, queued: nat, pending: nat,
                         channels: nat, steps: nat, running: nat)

  function Stage(s: State, w: Watcher): nat
    requires s.members <= s.at.Keys
  {
    if Timer in P.EventsFor(s.qs, w) then 0
    else if w in s.rfeeds then 1
    else if !BetweenInvocations(s.wake.loop) && w in s.members && s.at[w] < s.mn then 2
    else 3
  }

  function Rank(p: W.LoopPc, lock: Owner): nat {
    match p
    case Recheck => 0
    case ClearWanted => if lock == Loop then 1 else 2
    case Poll(_) => if lock == Loop then 4 else 3
    case TestSkipped => 5
    case SetWanted => 6
    case _ => 7
  }

  function ExpiredNow(s: State): set<Watcher>
    requires s.members <= s.at.Keys
  {
    set w | w in s.members && s.at[w] < s.mn
  }

  function One(b: bool): nat {
    if b then 1 else 0
  }

  function PlaceOf(s: State, w: Watcher): Place
    requires s.members <= s.at.Keys && W.Shaped(s.wake)
  {
    var stage, rank := Stage(s, w), Rank(s.wake.loop, s.lock);
    if rank < 7 then Place(stage, rank, 0, 0, 0, 0, 0, 0, 0)
    else
      Place(stage, rank, |ExpiredNow(s)|, One(s.rfeeds != []), P.Total(s.qs), One(s.wake.pending),
            W.ChannelsToGo(s.wake), W.StepsToGo(s.wake), One(s.running.Callback?))
  }

  ghost predicate Nearer(p: Place, q: Place) {
    (q.stage, q.rank, q.expired, q.noted, q.queued, q.pending, q.channels, q.steps, q.running decreases to
       p.stage, p.rank, p.expired, p.noted, p.queued, p.pending, p.channels, p.steps, p.running)
  }

  predicate LoopActs(a: Action) {
    || a.Advance? || a.Wake? || a.Release? || a.Acquire?
    || a.Expire? || a.FeedExpired? || a.Begin? || a.End?
  }

  /** A timer that is due and waits for the loop. */
  ghost predicate Due(s: State, w: Watcher, due: real, e: Env) {
    Good(s, e) && Tracked(s, w, due) && due < s.now
  }

  /** Steps of other threads change nothing about it. */
  lemma OthersSame(s: State, a: Action, w: Watcher, due: real, e: Env)
    requires Due(s, w, due, e) && Enabled(s, a, e) && !LoopActs(a) && !Stops(s, a, w)
    ensures Shaped(Do(s, a, e), e) && PlaceOf(Do(s, a, e), w) == PlaceOf(s, w)
  {
    StepInv(s, a, e);
    match a
    case Step(t) => ClientSame(s, t, w, due, e);
    case Other(b) => OtherSame(s, b, w, due, e);
    case _ =>
  }

  lemma OtherSame(s: State, b: W.Action, w: Watcher, due: real, e: Env)
    requires Due(s, w, due, e) && Enabled(s, Other(b), e) && Shaped(Do(s, Other(b), e), e)
    ensures PlaceOf(Do(s, Other(b), e), w) == PlaceOf(s, w)
  {
    W.SenderLocal(s.wake, b);
    W.SizesKept(s.wake, b);
  }

  lemma ClientSame(s: State, t: nat, w: Watcher, due: real, e: Env)
    requires Due(s, w, due, e) && StepEnabled(s, t) && !Stops(s, Step(t), w) && Shaped(ClientStep(s, t, e), e)
    ensures PlaceOf(ClientStep(s, t, e), w) == PlaceOf(s, w)
  {
    NonePending(s.qs, w);
    if s.clients[t].Change? {
      assert s.lock == Client(t);
      NonePending(s.qs, s.clients[t].op.w);
    } else if s.clients[t] == Sending && s.wake.senders[t] != W.Idle {
      W.SenderLocal(s.wake, W.Continue(t));
    }
  }

  lemma ExpireNearer(s: State, v: Watcher, w: Watcher, due: real, e: Env)
    requires Due(s, w, due, e) && Enabled(s, Expire(v), e)
    ensures Shaped(Do(s, Expire(v), e), e) && Nearer(PlaceOf(Do(s, Expire(v), e), w), PlaceOf(s, w))
  {
    StepInv(s, Expire(v), e);
    ExpireTracks(s, v, w, due, e);
    assert ExpiredNow(Do(s, Expire(v), e)) == ExpiredNow(s) - {v};
  }

  lemma FeedNearer(s: State, w: Watcher, due: real, e: Env)
    requires Due(s, w, due, e) && Enabled(s, FeedExpired, e)
    ensures Shaped(Do(s, FeedExpired, e), e) && Nearer(PlaceOf(Do(s, FeedExpired, e), w), PlaceOf(s, w))
  {
    StepInv(s, FeedExpired, e);
    FeedTracks(s, w, due, e);
    assert ExpiredNow(Do(s, FeedExpired, e)) == ExpiredNow(s);
  }

  lemma BeginNearer(s: State, w: Watcher, due: real, e: Env)
    requires Due(s, w, due, e) && Enabled(s, Begin, e) && !Fires(s, Begin, w)
    ensures Shaped(Do(s, Begin, e), e) && Nearer(PlaceOf(Do(s, Begin, e), w), PlaceOf(s, w))
  {
    StepInv(s, Begin, e);
    BeginTracks(s, w, due, e);
    assert ExpiredNow(Do(s, Begin, e)) == ExpiredNow(s);
  }

  lemma EndNearer(s: State, w: Watcher, due: real, e: Env)
    requires Due(s, w, due, e) && Enabled(s, End, e)
    ensures Shaped(Do(s, End, e), e) && Nearer(PlaceOf(Do(s, End, e), w), PlaceOf(s, w))
  {
    StepInv(s, End, e);
    assert ExpiredNow(Do(s, End, e)) == ExpiredNow(s);
  }

  lemma LockNearer(s: State, a: Action, w: Watcher, due: real, e: Env)
    requires Due(s, w, due, e) && Enabled(s, a, e) && (a.Release? || a.Acquire? || a.Wake?)
    ensures Shaped(Do(s, a, e), e) && Nearer(PlaceOf(Do(s, a, e), w), PlaceOf(s, w))
  {
    StepInv(s, a, e);
  }

  lemma AdvanceNearer(s: State, a: Action, w: Watcher, due: real, e: Env)
    requires Due(s, w, due, e) && a.Advance? && Enabled(s, a, e)
    ensures Shaped(Do(s, a, e), e) && Nearer(PlaceOf(Do(s, a, e), w), PlaceOf(s, w))
  {
    StepInv(s, a, e);
    if W.InPipecb(s.wake.loop) {
      PipecbNearer(s, a, w, due, e);
    } else if s.wake.loop.Invoke? {
      InvokeNearer(s, a, w, due, e);
    } else {
      RunNearer(s, a, w, due, e);
    }
  }

  lemma PipecbNearer(s: State, a: Action, w: Watcher, due: real, e: Env)
    requires Due(s, w, due, e) && a.Advance? && Enabled(s, a, e) && W.InPipecb(s.wake.loop) && Shaped(Do(s, a, e), e)
    ensures Nearer(PlaceOf(Do(s, a, e), w), PlaceOf(s, w))
  {
    W.PipecbGoesOn(s.wake);
    assert ExpiredNow(Do(s, a, e)) == ExpiredNow(s);
  }

  lemma InvokeNearer(s: State, a: Action, w: Watcher, due: real, e: Env)
    requires Due(s, w, due, e) && a.Advance? && Enabled(s, a, e) && s.wake.loop.Invoke? && Shaped(Do(s, a, e), e)
    ensures Nearer(PlaceOf(Do(s, a, e), w), PlaceOf(s, w))
  {
    if s.wake.pending {
      assert ExpiredNow(Do(s, a, e)) == ExpiredNow(s);
    } else {
      NonePending(s.qs, w);
    }
  }

  lemma RunNearer(s: State, a: Action, w: Watcher, due: real, e: Env)
    requires Due(s, w, due, e) && a.Advance? && Enabled(s, a, e) && BetweenInvocations(s.wake.loop)
    requires Shaped(Do(s, a, e), e)
    ensures Nearer(PlaceOf(Do(s, a, e), w), PlaceOf(s, w))
  {
    NonePending(s.qs, w);
    if s.wake.loop == W.Recheck {
      RecheckNearer(s, a, w, due, e);
    } else {
      RankFalls(s, a, e);
    }
  }

  /** The time is taken, and the timer is expired. */
  lemma RecheckNearer(s: State, a: Action, w: Watcher, due: real, e: Env)
    requires Due(s, w, due, e) && a.Advance? && Enabled(s, a, e) && s.wake.loop == W.Recheck && Shaped(Do(s, a, e), e)
    requires P.EventsFor(s.qs, w) == {}
    ensures Stage(s, w) == 3 && Stage(Do(s, a, e), w) == 2
  {
  }

  lemma RankFalls(s: State, a: Action, e: Env)
    requires Inv(s, e) && a.Advance? && Enabled(s, a, e) && BetweenInvocations(s.wake.loop) && s.wake.loop != W.Recheck
    ensures var s' := Do(s, a, e);
            && Rank(s'.wake.loop, s'.lock) < Rank(s.wake.loop, s.lock) && BetweenInvocations(s'.wake.loop)
            && s'.qs == s.qs && s'.rfeeds == s.rfeeds
  {
    RunRankFalls(s.wake, a.nowait);
  }

  lemma RunRankFalls(w: W.State, nowait: bool)
    requires BetweenInvocations(w.loop) && !w.loop.Poll? && w.loop != W.Recheck
    ensures var p := W.RunStep(w, nowait).loop; Rank(p, Loop) < Rank(w.loop, Loop) && BetweenInvocations(p)
  {
  }

  /** Every step of the loop brings a timer that is due nearer to being called. */
  lemma LoopNearer(s: State, a: Action, w: Watcher, due: real, e: Env)
    requires Due(s, w, due, e) && Enabled(s, a, e) && LoopActs(a) && !Fires(s, a, w)
    ensures Shaped(Do(s, a, e), e) && Nearer(PlaceOf(Do(s, a, e), w), PlaceOf(s, w))
  {
    match a
    case Expire(v) => ExpireNearer(s, v, w, due, e);
    case FeedExpired => FeedNearer(s, w, due, e);
    case Begin => BeginNearer(s, w, due, e);
    case End => EndNearer(s, w, due, e);
    case Advance(_, _) => AdvanceNearer(s, a, w, due, e);
    case _ => LockNearer(s, a, w, due, e);
  }

  // ---------- Infinite runs ----------

  ghost predicate StepAt(run: nat -> State, acts: nat -> Action, e: Env, k: nat) {
    StepsTo(run(k), acts(k), run(k + 1), e)
  }

  /** Any interleaving of the loop with threads that start and stop timers, and with other senders. */
  ghost predicate Runs(run: nat -> State, acts: nat -> Action, e: Env) {
    CrossThreadTimers.Init(run(0), e) && forall k: nat :: StepAt(run, acts, e, k)
  }

  /** The loop is not kept waiting: it has the lock or can have it, or the kernel wait is over. */
  predicate LoopReady(s: State) {
    || s.lock == Loop
    || (if s.wake.loop.Poll? then !s.wake.loop.block || 0 < s.wake.pipe || s.until <= s.now else s.lock == Free)
  }

  ghost predicate ActsAt(acts: nat -> Action, k: nat, m: nat) {
    k <= m && LoopActs(acts(m))
  }

  ghost predicate NeverReady(run: nat -> State, k: nat, m: nat) {
    k <= m && forall n: nat :: m <= n ==> !LoopReady(run(n))
  }

  /**
   * The loop goes on later, unless it cannot from some time on: strong fairness, as the lock may be taken from it
   * again and again.
   */
  ghost predicate LoopGoesOn(run: nat -> State, acts: nat -> Action, k: nat) {
    (exists m: nat :: ActsAt(acts, k, m)) || (exists m: nat :: NeverReady(run, k, m))
  }

  ghost predicate StepsAt(acts: nat -> Action, k: nat, m: nat, t: nat) {
    k <= m && acts(m) == Step(t)
  }

  /** A thread that has the lock goes on. */
  ghost predicate ClientGoesOn(run: nat -> State, acts: nat -> Action, k: nat, t: nat) {
    run(k).lock == Client(t) ==> exists m: nat :: StepsAt(acts, k, m, t)
  }

  ghost predicate LateAt(run: nat -> State, k: nat, m: nat, time: real) {
    k <= m && time <= run(m).now
  }

  ghost predicate TimeComes(run: nat -> State, k: nat, time: real) {
    exists m: nat :: LateAt(run, k, m, time)
  }

  ghost predicate Fair(run: nat -> State, acts: nat -> Action) {
    && (forall k: nat :: LoopGoesOn(run, acts, k))
    && (forall k: nat, t: nat :: ClientGoesOn(run, acts, k, t))
    && (forall k: nat, time: real :: TimeComes(run, k, time))
  }

  lemma {:induction false} RunsGood(run: nat -> State, acts: nat -> Action, e: Env, k: nat)
    requires Runs(run, acts, e)
    ensures Good(run(k), e)
  {
    if k == 0 {
      InitInv(run(0), e);
    } else {
      RunsGood(run, acts, e, k - 1);
      assert StepAt(run, acts, e, k - 1);
      StepGood(run(k - 1), acts(k - 1), e);
    }
  }

  // ---------- The loop goes on ----------

  /** Without its own steps the loop stays where it is, and does not get the lock. */
  lemma LoopStays(s: State, a: Action, e: Env)
    requires Inv(s, e) && Enabled(s, a, e) && !LoopActs(a)
    ensures var s' := Do(s, a, e);
            s'.wake.loop == s.wake.loop && s'.until == s.until && (s'.lock == Loop <==> s.lock == Loop)
  {
    match a
    case Other(b) => W.SenderLocal(s.wake, b);
    case Step(t) =>
      if s.clients[t] == Sending && s.wake.senders[t] != W.Idle {
        W.SenderLocal(s.wake, W.Continue(t));
      }
    case _ =>
  }

  ghost predicate NoActs(acts: nat -> Action, k: nat) {
    forall n: nat :: k <= n ==> !LoopActs(acts(n))
  }

  lemma {:induction false} LoopFixed(run: nat -> State, acts: nat -> Action, e: Env, k: nat, n: nat)
    requires Runs(run, acts, e) && NoActs(acts, k) && k <= n
    ensures run(n).wake.loop == run(k).wake.loop && run(n).until == run(k).until
    ensures run(n).lock == Loop <==> run(k).lock == Loop
    decreases n
  {
    if k < n {
      LoopFixed(run, acts, e, k, n - 1);
      RunsGood(run, acts, e, n - 1);
      assert StepAt(run, acts, e, n - 1);
      LoopStays(run(n - 1), acts(n - 1), e);
    }
  }

  /** A thread that has the lock keeps it until it has made its steps. */
  lemma HolderStep(s: State, a: Action, t: nat, e: Env)
    requires Inv(s, e) && Enabled(s, a, e) && !LoopActs(a) && s.lock == Client(t)
    ensures var s' := Do(s, a, e);
            && t < |s.clients| && t < |s.wake.senders| && t < |s'.clients| && t < |s'.wake.senders|
            && (a != Step(t) ==> s'.lock == s.lock && Left(s', t) == Left(s, t))
            && (a == Step(t) ==> s'.lock == Free || (s'.lock == s.lock && Left(s', t) < Left(s, t)))
  {
    match a
    case Other(b) =>
      W.SenderLocal(s.wake, b);
    case Step(u) =>
      if s.clients[u] == Sending && s.wake.senders[u] != W.Idle {
        W.SenderLocal(s.wake, W.Continue(u));
        EarlyTimers.SenderGoesOn(s.wake, u);
      }
    case _ =>
  }

  /** Until the holder's next step it has as far to go. */
  lemma {:induction false} ToHolder(run: nat -> State, acts: nat -> Action, e: Env, k: nat, m: nat, t: nat)
    returns (n: nat)
    requires Runs(run, acts, e) && NoActs(acts, k) && run(k).lock == Client(t) && StepsAt(acts, k, m, t)
    requires t < |run(k).clients| && t < |run(k).wake.senders|
    ensures k < n && t < |run(n).clients| && t < |run(n).wake.senders|
    ensures run(n).lock == Free || (run(n).lock == Client(t) && Left(run(n), t) < Left(run(k), t))
    decreases m - k
  {
    RunsGood(run, acts, e, k);
    assert StepAt(run, acts, e, k);
    HolderStep(run(k), acts(k), t, e);
    n := k + 1;
    if acts(k) != Step(t) {
      n := ToHolder(run, acts, e, k + 1, m, t);
    }
  }

  lemma {:induction false} LockFreed(run: nat -> State, acts: nat -> Action, e: Env, k: nat, t: nat) returns (n: nat)
    requires Runs(run, acts, e) && Fair(run, acts) && NoActs(acts, k) && run(k).lock == Client(t)
    requires t < |run(k).clients| && t < |run(k).wake.senders|
    ensures k <= n && run(n).lock == Free
    decreases Left(run(k), t)
  {
    assert ClientGoesOn(run, acts, k, t);
    var m: nat :| StepsAt(acts, k, m, t);
    n := ToHolder(run, acts, e, k, m, t);
    if run(n).lock != Free {
      n := LockFreed(run, acts, e, n, t);
    }
  }

  /** While the loop does nothing, it can sooner or later do something. */
  lemma ReadySooner(run: nat -> State, acts: nat -> Action, e: Env, k: nat) returns (n: nat)
    requires Runs(run, acts, e) && Fair(run, acts) && NoActs(acts, k)
    ensures k <= n && LoopReady(run(n))
  {
    RunsGood(run, acts, e, k);
    n := k;
    if !LoopReady(run(k)) {
      if run(k).wake.loop.Poll? {
        assert TimeComes(run, k, run(k).until);
        n :| LateAt(run, k, n, run(k).until);
      } else {
        n := LockFreed(run, acts, e, k, run(k).lock.t);
      }
      LoopFixed(run, acts, e, k, n);
    }
  }

  lemma LoopWillAct(run: nat -> State, acts: nat -> Action, e: Env, k: nat) returns (m: nat)
    requires Runs(run, acts, e) && Fair(run, acts)
    ensures k <= m && LoopActs(acts(m))
  {
    assert LoopGoesOn(run, acts, k);
    if exists m: nat :: ActsAt(acts, k, m) {
      m :| ActsAt(acts, k, m);
    } else {
      m :| NeverReady(run, k, m);
      if NoActs(acts, m) {
        var n := ReadySooner(run, acts, e, m);
        assert false;
      } else {
        m :| m >= k && LoopActs(acts(m));
      }
    }
  }

  // ---------- Called back ----------

  /** The timer's callback is called, or a thread stops it. */
  predicate Ends(s: State, a: Action, w: Watcher) {
    Fires(s, a, w) || Stops(s, a, w)
  }

  /** With the loop's next step the timer is called or comes nearer to it, if it is not stopped before. */
  lemma {:induction false} ToAct(run: nat -> State, acts: nat -> Action, e: Env, k: nat, m: nat, w: Watcher, due: real)
    returns (n: nat, done: bool)
    requires Runs(run, acts, e) && k <= m && LoopActs(acts(m)) && Due(run(k), w, due, e)
    ensures k <= n
    ensures if done then Ends(run(n), acts(n), w)
            else Due(run(n), w, due, e) && Nearer(PlaceOf(run(n), w), PlaceOf(run(k), w))
    decreases m - k
  {
    n, done := k, Ends(run(k), acts(k), w);
    if !done {
      DueStays(run, acts, e, k, w, due);
      assert StepAt(run, acts, e, k);
      if LoopActs(acts(k)) {
        LoopNearer(run(k), acts(k), w, due, e);
        n := k + 1;
      } else {
        OthersSame(run(k), acts(k), w, due, e);
        n, done := ToAct(run, acts, e, k + 1, m, w, due);
      }
    }
  }

  lemma DueStays(run: nat -> State, acts: nat -> Action, e: Env, k: nat, w: Watcher, due: real)
    requires Runs(run, acts, e) && Due(run(k), w, due, e) && !Ends(run(k), acts(k), w)
    ensures Due(run(k + 1), w, due, e)
  {
    assert StepAt(run, acts, e, k);
    RunsGood(run, acts, e, k + 1);
    TrackedStays(run(k), acts(k), w, due, e);
    EarlyTimers.TimePasses(run(k), acts(k), e);
  }

  lemma {:induction false} DueIsCalled(run: nat -> State, acts: nat -> Action, e: Env, k: nat, w: Watcher, due: real)
    returns (n: nat)
    requires Runs(run, acts, e) && Fair(run, acts) && Due(run(k), w, due, e)
    ensures k <= n && Ends(run(n), acts(n), w)
    decreases PlaceOf(run(k), w).stage, PlaceOf(run(k), w).rank, PlaceOf(run(k), w).expired,
              PlaceOf(run(k), w).noted, PlaceOf(run(k), w).queued, PlaceOf(run(k), w).pending,
              PlaceOf(run(k), w).channels, PlaceOf(run(k), w).steps, PlaceOf(run(k), w).running
  {
    var m := LoopWillAct(run, acts, e, k);
    var done;
    n, done := ToAct(run, acts, e, k, m, w, due);
    if !done {
      n := DueIsCalled(run, acts, e, n, w, due);
    }
  }

  /** Until time m it is called or stopped, or it is still tracked. */
  lemma {:induction false} Waits(run: nat -> State, acts: nat -> Action, e: Env, k: nat, m: nat, w: Watcher, due: real)
    returns (n: nat)
    requires Runs(run, acts, e) && k <= m && Tracked(run(k), w, due)
    ensures k <= n && (Ends(run(n), acts(n), w) || (n == m && Tracked(run(n), w, due)))
    decreases m - k
  {
    n := k;
    if k < m && !Ends(run(k), acts(k), w) {
      RunsGood(run, acts, e, k);
      assert StepAt(run, acts, e, k);
      TrackedStays(run(k), acts(k), w, due, e);
      n := Waits(run, acts, e, k + 1, m, w, due);
    }
  }

  /**
   * Every started timer is called back sooner or later, unless a thread stops it first: in every run in which time
   * passes, threads that have the lock go on, and the loop goes on when it can time and again.
   */
  lemma StartedIsCalled(run: nat -> State, acts: nat -> Action, e: Env, k: nat, w: Watcher) returns (n: nat)
    requires Runs(run, acts, e) && Fair(run, acts) && w in run(k).members
    ensures k <= n && Ends(run(n), acts(n), w)
  {
    RunsGood(run, acts, e, k);
    var due := run(k).at[w];
    assert TimeComes(run, k, due + 1.0);
    var m: nat :| LateAt(run, k, m, due + 1.0);
    n := Waits(run, acts, e, k, m, w, due);
    if !Ends(run(n), acts(n), w) {
      RunsGood(run, acts, e, n);
      n := DueIsCalled(run, acts, e, n, w, due);
    }
  }
}
