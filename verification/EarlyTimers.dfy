/**
 * When a timer that another thread starts can be called back, for bf_sys_timer_start counts from the loop's idea of
 * the time; and what it resumes with when it is started again.
 */
module EarlyTimers {
  import W = Wakeup
  import opened Watchers
  import P = PendingSpec
  import PendingLaws
  import Expiry
  import opened CrossThreadTimers
  import DeadlineOrder

  /** Step i of the run starts a timer that is not active and is to fire after `after` seconds. */
  ghost predicate StartsAt(run: seq<State>, acts: seq<Action>, e: Env, i: nat, w: Watcher, after: real) {
    && Run(run, acts, e) && i < |acts| && Does(run[i], acts[i], Start(w))
    && w in run[i].at && w !in run[i].members && run[i].at[w] == after
  }

  predicate Touches(s: State, a: Action, w: Watcher) {
    Does(s, a, Start(w)) || Does(s, a, Stop(w))
  }

  /** Between steps i and j no thread starts or stops the timer. */
  predicate Undisturbed(run: seq<State>, acts: seq<Action>, i: nat, j: nat, w: Watcher)
    requires j <= |acts| < |run|
  {
    forall k :: i < k < j ==> !Touches(run[k], acts[k], w)
  }

  // ---------- Not before it is due by the loop's time ----------

  /** The timer is due at `due` and has not been collected, or it is later than that. */
  predicate Waits(s: State, w: Watcher, due: real) {
    w in s.at && ((w in s.members && s.at[w] == due && Silent(s, w)) || due < s.now)
  }

  lemma StartWaits(s: State, a: Action, s': State, w: Watcher, e: Env)
    requires Inv(s, e) && StepsTo(s, a, s', e) && Does(s, a, Start(w)) && w in s.at && w !in s.members
    ensures Waits(s', w, s.mn + s.at[w])
  {
    assert s.lock == Client(a.t);
    SilentOutside(s, w, e);
    StaysSilent(s, a, w, e);
  }

  lemma TimePasses(s: State, a: Action, e: Env)
    requires Shaped(s, e) && Enabled(s, a, e)
    ensures s.now <= Do(s, a, e).now
  {
  }

  lemma StaysDue(s: State, a: Action, w: Watcher, e: Env)
    requires Inv(s, e) && Enabled(s, a, e) && !Touches(s, a, w) && w in s.members && a != Expire(w)
    ensures var s' := Do(s, a, e); w in s'.members && w in s'.at && s'.at[w] == s.at[w]
  {
  }

  lemma StaysWaiting(s: State, a: Action, s': State, w: Watcher, due: real, e: Env)
    requires Inv(s, e) && StepsTo(s, a, s', e) && Waits(s, w, due) && !Touches(s, a, w)
    ensures Waits(s', w, due) && (Fires(s, a, w) ==> due < s.now)
  {
    TimePasses(s, a, e);
    if s.now <= due {
      StaysDue(s, a, w, e);
      StaysSilent(s, a, w, e);
    } else {
      StaysTimer(s, a, w, e);
    }
  }

  lemma StaysTimer(s: State, a: Action, w: Watcher, e: Env)
    requires Shaped(s, e) && Enabled(s, a, e) && w in s.at
    ensures w in Do(s, a, e).at
  {
  }

  lemma WaitsAt(run: seq<State>, acts: seq<Action>, e: Env, i: nat, w: Watcher, after: real)
    requires StartsAt(run, acts, e, i, w, after)
    ensures Waits(run[i + 1], w, run[i].mn + after)
  {
    ReachableInv(run, acts, e, i);
    assert StepsTo(run[i], acts[i], run[i + 1], e);
    StartWaits(run[i], acts[i], run[i + 1], w, e);
  }

  lemma StaysWaitingAt(run: seq<State>, acts: seq<Action>, e: Env, k: nat, w: Watcher, due: real)
    requires Run(run, acts, e) && k < |acts| && Waits(run[k], w, due) && !Touches(run[k], acts[k], w)
    ensures Waits(run[k + 1], w, due) && (Fires(run[k], acts[k], w) ==> due < run[k].now)
  {
    ReachableInv(run, acts, e, k);
    assert StepsTo(run[k], acts[k], run[k + 1], e);
    StaysWaiting(run[k], acts[k], run[k + 1], w, due, e);
  }

  lemma {:induction false} WaitsUntil(run: seq<State>, acts: seq<Action>, e: Env, i: nat, j: nat, w: Watcher,
          after: real)
    requires StartsAt(run, acts, e, i, w, after) && i < j <= |acts| && Undisturbed(run, acts, i, j, w)
    ensures Waits(run[j], w, run[i].mn + after)
    decreases j
  {
    if i < j - 1 {
      WaitsUntil(run, acts, e, i, j - 1, w, after);
      StaysWaitingAt(run, acts, e, j - 1, w, run[i].mn + after);
    } else {
      WaitsAt(run, acts, e, i, w, after);
    }
  }

  /**
   * In no run is the callback of a started timer called before its time has passed since the loop last took
   * the time, unless the timer is started or stopped again.
   */
  lemma NotBeforeDue(run: seq<State>, acts: seq<Action>, e: Env, i: nat, j: nat, w: Watcher, after: real)
    requires StartsAt(run, acts, e, i, w, after) && i < j < |acts| && Undisturbed(run, acts, i, j, w)
    requires Fires(run[j], acts[j], w)
    ensures run[i].mn + after < run[j].now
  {
    WaitsUntil(run, acts, e, i, j, w, after);
    ReachableInv(run, acts, e, j);
    assert StepsTo(run[j], acts[j], run[j + 1], e);
    if run[j].now <= run[i].mn + after {
      PopUnnamed(run[j].qs, w);
    }
  }

  // ---------- A run that goes on to call a timer back ----------

  /** These steps lead from s to s' and neither start nor stop w. */
  ghost predicate Leads(s: State, acts: seq<Action>, s': State, w: Watcher, e: Env)
    decreases |acts|
  {
    if acts == [] then s' == s
    else Passes(s, acts[0], w, e) && Leads(Do(s, acts[0], e), acts[1..], s', w, e)
  }

  ghost predicate Passes(s: State, a: Action, w: Watcher, e: Env) {
    Shaped(s, e) && Enabled(s, a, e) && !Touches(s, a, w)
  }

  /** One more step in front. */
  lemma First(s: State, a: Action, b: seq<Action>, s': State, w: Watcher, e: Env)
    requires Passes(s, a, w, e) && Leads(Do(s, a, e), b, s', w, e)
    ensures Leads(s, [a] + b, s', w, e)
  {
    assert ([a] + b)[1..] == b;
  }

  /** What timers_reify and ev_invoke_pending work on. */
  predicate SameTimers(s: State, s': State) {
    && s'.at == s.at && s'.members == s.members && s'.qs == s.qs && s'.rfeeds == s.rfeeds && s'.running == s.running
  }

  lemma ClientGoesOn(s: State, t: nat, w: Watcher, e: Env)
    requires Inv(s, e) && s.lock == Client(t) && 0 < Left(s, t) < 10
    ensures var s' := ClientStep(s, t, e);
            && Passes(s, Step(t), w, e) && SameTimers(s, s') && s'.mn == s.mn && s'.now == s.now
            && t < |s'.clients| && t < |s'.wake.senders| && Left(s', t) < Left(s, t)
            && (if s.clients[t] == Unlock then s'.lock == Free else s'.lock == Client(t) && 0 < Left(s', t))
  {
    assert OpOk(s.clients[t], s.at.Keys);
    if s.clients[t] == Sending && s.wake.senders[t] != W.Idle {
      SenderGoesOn(s.wake, t);
    }
  }

  lemma SenderGoesOn(w: W.State, t: nat)
    requires W.Shaped(w) && t < |w.senders| && w.senders[t] != W.Idle
    ensures var p, p' := w.senders[t], W.SenderStep(w, t).senders[t];
            && t < |W.SenderStep(w, t).senders|
            && (p.TestFlag? ==> p'.SetFlag? || p'.Idle?) && (p.SetFlag? ==> p'.SetSkipped?)
            && (p.SetSkipped? ==> p'.TestWanted?) && (p.TestWanted? ==> p'.ClearSkipped? || p'.Idle?)
            && (p.ClearSkipped? ==> p'.WritePipe?) && (p.WritePipe? ==> p'.Idle?)
  {
  }

  /** The next step calls w back, at the given time. */
  ghost predicate CallsNow(s: State, w: Watcher, time: real, e: Env) {
    Shaped(s, e) && Enabled(s, Begin, e) && Fires(s, Begin, w) && s.now == time
  }

  /** ev_invoke_pending comes to the timer. */
  lemma {:induction false} Invokes(s: State, w: Watcher, e: Env) returns (acts: seq<Action>, s': State)
    requires Inv(s, e) && Invoking(s) && s.rfeeds == [] && CrossThreadTimers.NoneExpired(s)
    requires Timer in P.EventsFor(s.qs, w)
    ensures Leads(s, acts, s', w, e) && CallsNow(s', w, s.now, e)
    decreases P.Total(s.qs)
  {
    PendingLaws.PopKeeps(s.qs, w, Timer);
    acts, s' := [], s;
    if P.Top(s.qs).w != w {
      var begun := Begun(s, e.dummy);
      StepInv(s, Begin, e);
      if begun.running == Nothing {
        acts, s' := Invokes(begun, w, e);
      } else {
        StepInv(begun, End, e);
        acts, s' := Invokes(begun.(running := Nothing), w, e);
        First(begun, End, acts, s', w, e);
        acts := [End] + acts;
      }
      First(s, Begin, acts, s', w, e);
      acts := [Begin] + acts;
    }
  }

  lemma Feeds(s: State, w: Watcher, e: Env) returns (acts: seq<Action>, s': State)
    requires Inv(s, e) && Invoking(s) && CrossThreadTimers.NoneExpired(s) && w in s.rfeeds
    ensures Leads(s, acts, s', w, e) && CallsNow(s', w, s.now, e)
  {
    StepInv(s, FeedExpired, e);
    DeadlineOrder.RowFedExactly(s.qs, s.rfeeds, {Timer}, w);
    acts, s' := Invokes(Do(s, FeedExpired, e), w, e);
    First(s, FeedExpired, acts, s', w, e);
    acts := [FeedExpired] + acts;
  }

  lemma {:induction false} Least(ws: set<Watcher>, at: map<Watcher, real>) returns (v: Watcher)
    requires ws != {} && ws <= at.Keys
    ensures v in ws && forall u :: u in ws ==> at[v] <= at[u]
    decreases ws
  {
    v :| v in ws;
    if ws != {v} {
      assert ws - {v} != {};
      var u := Least(ws - {v}, at);
      if at[u] < at[v] {
        v := u;
      }
    }
  }

  /** Collecting one timer makes fewer expired, and does nothing to the others. */
  lemma SnapAfter(s: State, v: Watcher, e: Env)
    requires TimersOk(s, e) && v in s.members && s.at[v] < s.mn && TimersOk(Expired(s, v, e), e)
    ensures Snap(Expired(s, v, e), e).Expired(s.mn) == Snap(s, e).Process(v, s.mn, e.dummy).Expired(s.mn)
    ensures forall w :: w in s.members && w != v ==> w in Expired(s, v, e).members && Expired(s, v, e).at[w] == s.at[w]
  {
  }

  /** timers_reify collects every expired timer. */
  lemma {:induction false} Collects(s: State, w: Watcher, e: Env) returns (acts: seq<Action>, s': State)
    requires Inv(s, e) && Invoking(s) && w in s.at
    requires (w in s.members && s.at[w] < s.mn) || w in s.rfeeds
    ensures Leads(s, acts, s', w, e) && CallsNow(s', w, s.now, e)
    decreases Snap(s, e).Expired(s.mn)
  {
    if CrossThreadTimers.NoneExpired(s) {
      acts, s' := Feeds(s, w, e);
    } else {
      var v := Least(s.members, s.at);
      StepInv(s, Expire(v), e);
      Expiry.FewerExpired(Snap(s, e), v, s.mn, e.dummy);
      SnapAfter(s, v, e);
      acts, s' := Collects(Expired(s, v, e), w, e);
      First(s, Expire(v), acts, s', w, e);
      acts := [Expire(v)] + acts;
    }
  }

  /** ev_run takes the time before it collects timers. */
  lemma Rechecks(s: State, w: Watcher, e: Env) returns (acts: seq<Action>, s': State)
    requires Inv(s, e) && s.lock == Loop && s.wake.loop == W.Recheck && w in s.members && s.at[w] < s.now
    ensures Leads(s, acts, s', w, e) && CallsNow(s', w, s.now, e)
  {
    var on := Advance(true, 0.0);
    StepInv(s, on, e);
    acts, s' := Collects(Do(s, on, e), w, e);
    First(s, on, acts, s', w, e);
    acts := [on] + acts;
  }

  lemma GoesOn(s: State, w: Watcher, e: Env) returns (acts: seq<Action>, s': State)
    requires Inv(s, e) && s.lock == Loop && s.wake.loop == W.ClearWanted && w in s.members && s.at[w] < s.now
    ensures Leads(s, acts, s', w, e) && CallsNow(s', w, s.now, e)
  {
    var on := Advance(true, 0.0);
    StepInv(s, on, e);
    acts, s' := Rechecks(Do(s, on, e), w, e);
    First(s, on, acts, s', w, e);
    acts := [on] + acts;
  }

  lemma TakesLock(s: State, w: Watcher, e: Env) returns (acts: seq<Action>, s': State)
    requires Inv(s, e) && s.lock == Free && s.wake.loop == W.ClearWanted && w in s.members && s.at[w] < s.now
    ensures Leads(s, acts, s', w, e) && CallsNow(s', w, s.now, e)
  {
    StepInv(s, Acquire, e);
    acts, s' := GoesOn(Do(s, Acquire, e), w, e);
    First(s, Acquire, acts, s', w, e);
    acts := [Acquire] + acts;
  }

  /** The kernel wait may end at any time. */
  lemma Wakes(s: State, w: Watcher, e: Env) returns (acts: seq<Action>, s': State)
    requires Inv(s, e) && s.lock == Free && w in s.members && s.at[w] < s.now
    ensures Leads(s, acts, s', w, e) && CallsNow(s', w, s.now, e)
  {
    if s.wake.loop.Poll? {
      StepInv(s, Wake(false, true), e);
      acts, s' := TakesLock(Do(s, Wake(false, true), e), w, e);
      First(s, Wake(false, true), acts, s', w, e);
      acts := [Wake(false, true)] + acts;
    } else {
      acts, s' := TakesLock(s, w, e);
    }
  }

  lemma TimeComes(s: State, w: Watcher, time: real, e: Env) returns (acts: seq<Action>, s': State)
    requires Inv(s, e) && s.lock == Free && w in s.members && s.at[w] < time && s.now <= time
    ensures Leads(s, acts, s', w, e) && CallsNow(s', w, time, e)
  {
    StepInv(s, Tick(time), e);
    acts, s' := Wakes(Do(s, Tick(time), e), w, e);
    First(s, Tick(time), acts, s', w, e);
    acts := [Tick(time)] + acts;
  }

  /** A timer that has just been started can be called at any time after it is due. */
  lemma {:induction false} CanBeCalledAt(s: State, t: nat, w: Watcher, time: real, e: Env)
    returns (acts: seq<Action>, s': State)
    requires Inv(s, e) && s.lock == Client(t) && 0 < Left(s, t) < 10
    requires w in s.members && s.at[w] < time && s.now <= time
    ensures Leads(s, acts, s', w, e) && CallsNow(s', w, time, e)
    decreases Left(s, t)
  {
    ClientGoesOn(s, t, w, e);
    StepInv(s, Step(t), e);
    if s.clients[t] == Unlock {
      acts, s' := TimeComes(ClientStep(s, t, e), w, time, e);
    } else {
      acts, s' := CanBeCalledAt(ClientStep(s, t, e), t, w, time, e);
    }
    First(s, Step(t), acts, s', w, e);
    acts := [Step(t)] + acts;
  }

  // ---------- Fires too early unless the loop's time is current ----------

  lemma {:induction false} RunOn(run: seq<State>, acts: seq<Action>, more: seq<Action>, s: State, w: Watcher, e: Env)
    returns (run': seq<State>)
    requires Run(run, acts, e) && Leads(run[|acts|], more, s, w, e)
    ensures Run(run', acts + more, e) && run <= run' && run'[|acts + more|] == s
    ensures forall k :: |acts| <= k < |acts + more| ==> !Touches(run'[k], (acts + more)[k], w)
    decreases |more|
  {
    run' := run;
    assert acts + [] == acts;
    if more != [] {
      var on, acting := run + [Do(run[|acts|], more[0], e)], acts + [more[0]];
      OneMore(run, acts, more[0], e);
      run' := RunOn(on, acting, more[1..], s, w, e);
      assert acts + more == acting + more[1..];
    }
  }

  lemma OneMore(run: seq<State>, acts: seq<Action>, a: Action, e: Env)
    requires Run(run, acts, e) && Shaped(run[|acts|], e) && Enabled(run[|acts|], a, e)
    ensures Run(run + [Do(run[|acts|], a, e)], acts + [a], e)
  {
    var run', acts' := run + [Do(run[|acts|], a, e)], acts + [a];
    forall k | 0 <= k < |acts'| ensures StepsTo(run'[k], acts'[k], run'[k + 1], e) {
      if k < |acts| {
        assert StepsTo(run[k], acts[k], run[k + 1], e);
      }
    }
  }

  /** The run goes on after step i up to a step j that calls w back, without w being started or stopped meanwhile. */
  ghost predicate CallsBack(run: seq<State>, acts: seq<Action>, run': seq<State>, acts': seq<Action>, i: nat, j: nat,
          w: Watcher, e: Env)
  {
    && |run| == |acts| + 1 == i + 2 && run <= run' && acts <= acts' && Run(run', acts', e)
    && i < j < |acts'| && Undisturbed(run', acts', i, j, w) && Fires(run'[j], acts'[j], w)
  }

  /** Such a run does so only when more than `after` has passed since the start. */
  ghost predicate OnlyAfter(run: seq<State>, acts: seq<Action>, run': seq<State>, acts': seq<Action>, i: nat, j: nat,
          w: Watcher, e: Env, after: real)
  {
    CallsBack(run, acts, run', acts', i, j, w, e) ==> run[i].now + after < run'[j].now
  }

  /** When the loop's time is not current, the run can go on so that the timer is called before its time has passed. */
  lemma CanFireEarly(run: seq<State>, acts: seq<Action>, e: Env, i: nat, w: Watcher, after: real)
    returns (run': seq<State>, acts': seq<Action>, j: nat)
    requires StartsAt(run, acts, e, i, w, after) && |acts| == i + 1 && 0.0 < after && run[i].mn < run[i].now
    ensures CallsBack(run, acts, run', acts', i, j, w, e) && run'[j].now < run[i].now + after
  {
    ReachableInv(run, acts, e, i);
    ReachableInv(run, acts, e, i + 1);
    assert StepsTo(run[i], acts[i], run[i + 1], e);
    var due, latest := run[i].mn + after, run[i].now + after;
    var time := if run[i].now <= due then (due + latest) / 2.0 else run[i].now;
    var more, s := CanBeCalledAt(run[i + 1], acts[i].t, w, time, e);
    var r := RunOn(run, acts, more, s, w, e);
    var a := acts + more;
    OneMore(r, a, Begin, e);
    run', acts', j := r + [Do(s, Begin, e)], a + [Begin], |a|;
    assert Undisturbed(run', acts', i, j, w);
  }

  /**
   * A timer that bf_sys_timer_start starts is never called before its time has passed since then, however the run
   * goes on, exactly when the loop's idea of the time was current.
   */
  lemma EarlyUnlessCurrent(run: seq<State>, acts: seq<Action>, e: Env, i: nat, w: Watcher, after: real)
    requires StartsAt(run, acts, e, i, w, after) && |acts| == i + 1 && 0.0 < after
    ensures (forall run', acts', j :: OnlyAfter(run, acts, run', acts', i, j, w, e, after)) <==>
            run[i].mn == run[i].now
  {
    ReachableInv(run, acts, e, i);
    if run[i].mn == run[i].now {
      forall run', acts', j ensures OnlyAfter(run, acts, run', acts', i, j, w, e, after) {
        if CallsBack(run, acts, run', acts', i, j, w, e) {
          assert StartsAt(run', acts', e, i, w, after);
          NotBeforeDue(run', acts', e, i, j, w, after);
        }
      }
    } else {
      var run', acts', j := CanFireEarly(run, acts, e, i, w, after);
      assert !OnlyAfter(run, acts, run', acts', i, j, w, e, after);
    }
  }

  // ---------- For example ----------

  /** A loop with one timer that is to fire after a second, and one thread. */
  function OneTimer(w: Watcher): State {
    var marks := [[], [W.Mark(false, 0)]];
    var wake := W.State([false, false], marks, false, false, 0, true, false, false, W.SetWanted, [W.Idle]);
    State(wake, Loop, [Out], map[w := 1.0], {}, [[]], [], Nothing, 0.0, 0.0, 0.0)
  }

  function OneShot(w: Watcher, dummy: Watcher): Env {
    Env(dummy, map[w := 0.0], 0.001)
  }

  /** The loop sleeps. */
  function Asleep(w: Watcher): State {
    var s := OneTimer(w);
    s.(wake := s.wake.(wanted := true, loop := W.Poll(true)), lock := Free)
  }

  /** Ten seconds later a thread has called bf_sys_timer_start and has the lock. */
  function AboutToStart(w: Watcher): State {
    Asleep(w).(lock := Client(0), clients := [Change(Start(w))], now := 10.0)
  }

  lemma IsCalled(w: Watcher, dummy: Watcher) returns (acts: seq<Action>)
    requires w != dummy && w.priority == 0
    ensures Leads(Asleep(w), acts, AboutToStart(w), w, OneShot(w, dummy)) && |acts| == 3
  {
    var s, e := Asleep(w), OneShot(w, dummy);
    var later := s.(now := 10.0);
    acts := TakesClientLock(w, dummy);
    First(later, Call(0, Start(w)), acts, AboutToStart(w), w, e);
    acts := [Call(0, Start(w))] + acts;
    First(s, Tick(10.0), acts, AboutToStart(w), w, e);
    acts := [Tick(10.0)] + acts;
  }

  lemma TakesClientLock(w: Watcher, dummy: Watcher) returns (acts: seq<Action>)
    requires w != dummy && w.priority == 0
    ensures Leads(Asleep(w).(now := 10.0, clients := [Lock(Start(w))]), acts, AboutToStart(w), w, OneShot(w, dummy))
    ensures acts == [Step(0)]
  {
    var called, e := Asleep(w).(now := 10.0, clients := [Lock(Start(w))]), OneShot(w, dummy);
    assert Do(called, Step(0), e) == AboutToStart(w);
    First(called, Step(0), [], AboutToStart(w), w, e);
    assert [Step(0)] + [] == [Step(0)];
    acts := [Step(0)];
  }

  /** About to decide whether to sleep. */
  function Deciding(w: Watcher): State {
    var s := OneTimer(w);
    s.(wake := s.wake.(wanted := true, loop := W.TestSkipped))
  }

  lemma WantsWakeup(w: Watcher, dummy: Watcher)
    requires w != dummy && w.priority == 0
    ensures var s, e, on := OneTimer(w), OneShot(w, dummy), Advance(false, 0.0);
            Passes(s, on, w, e) && Do(s, on, e) == Deciding(w)
  {
  }

  lemma DecidesToSleep(w: Watcher, dummy: Watcher)
    requires w != dummy && w.priority == 0
    ensures var e, on := OneShot(w, dummy), Advance(false, 0.0);
            Passes(Deciding(w), on, w, e) && Do(Deciding(w), on, e) == Asleep(w).(lock := Loop)
  {
  }

  lemma Releases(w: Watcher, dummy: Watcher)
    requires w != dummy && w.priority == 0
    ensures var s, e := Asleep(w).(lock := Loop), OneShot(w, dummy);
            Passes(s, Release, w, e) && Do(s, Release, e) == Asleep(w)
  {
  }

  lemma FallsAsleep(w: Watcher, dummy: Watcher) returns (acts: seq<Action>)
    requires w != dummy && w.priority == 0
    ensures Leads(OneTimer(w), acts, AboutToStart(w), w, OneShot(w, dummy)) && |acts| == 6
  {
    var e, on := OneShot(w, dummy), Advance(false, 0.0);
    acts := IsCalled(w, dummy);
    Releases(w, dummy);
    First(Asleep(w).(lock := Loop), Release, acts, AboutToStart(w), w, e);
    DecidesToSleep(w, dummy);
    First(Deciding(w), on, [Release] + acts, AboutToStart(w), w, e);
    WantsWakeup(w, dummy);
    First(OneTimer(w), on, [on] + ([Release] + acts), AboutToStart(w), w, e);
    acts := [on] + ([on] + ([Release] + acts));
  }

  /** A thread starts a timer of one second ten seconds after the loop has gone to sleep: it can be called at once. */
  lemma StaleExample(w: Watcher, dummy: Watcher)
    returns (run: seq<State>, acts: seq<Action>, run': seq<State>, acts': seq<Action>, j: nat)
    requires w != dummy && w.priority == 0
    ensures StartsAt(run, acts, OneShot(w, dummy), 6, w, 1.0) && run[6].now == 10.0
    ensures CallsBack(run, acts, run', acts', 6, j, w, OneShot(w, dummy)) && run'[j].now < 11.0
  {
    var e := OneShot(w, dummy);
    acts := FallsAsleep(w, dummy);
    assert [] + acts == acts;
    run := RunOn([OneTimer(w)], [], acts, AboutToStart(w), w, e);
    run, acts := StartsThere(run, acts, w, dummy);
    run', acts', j := CanFireEarly(run, acts, e, 6, w, 1.0);
  }

  lemma StartsThere(run: seq<State>, acts: seq<Action>, w: Watcher, dummy: Watcher)
    returns (run': seq<State>, acts': seq<Action>)
    requires w != dummy && w.priority == 0
    requires Run(run, acts, OneShot(w, dummy)) && run[|acts|] == AboutToStart(w)
    ensures StartsAt(run', acts', OneShot(w, dummy), |acts|, w, 1.0) && |acts'| == |acts| + 1
    ensures run'[|acts|] == AboutToStart(w)
  {
    OneMore(run, acts, Step(0), OneShot(w, dummy));
    run', acts' := run + [Do(AboutToStart(w), Step(0), OneShot(w, dummy))], acts + [Step(0)];
  }

  // ---------- Started again ----------

  /** An active timer is stopped by a thread, or is collected and does not repeat. */
  predicate Ends(s: State, a: Action, w: Watcher, e: Env) {
    w in s.members && (Does(s, a, Stop(w)) || (a == Expire(w) && w in e.repeat && e.repeat[w] == 0.0))
  }

  /** The timer is not active, and due `left` after it is started. */
  predicate Idle(s: State, w: Watcher, left: real) {
    w in s.at && w !in s.members && s.at[w] == left
  }

  lemma EndsIdle(s: State, a: Action, s': State, w: Watcher, e: Env)
    requires Inv(s, e) && StepsTo(s, a, s', e) && Ends(s, a, w, e)
    ensures Idle(s', w, s.at[w] - s.mn)
  {
  }

  lemma StaysIdle(s: State, a: Action, s': State, w: Watcher, left: real, e: Env)
    requires Inv(s, e) && StepsTo(s, a, s', e) && Idle(s, w, left) && !Does(s, a, Start(w))
    ensures Idle(s', w, left)
  {
  }

  lemma EndsAt(run: seq<State>, acts: seq<Action>, e: Env, k: nat, w: Watcher)
    requires Run(run, acts, e) && k < |acts| && Ends(run[k], acts[k], w, e) && w in run[k].at
    ensures Idle(run[k + 1], w, run[k].at[w] - run[k].mn)
  {
    ReachableInv(run, acts, e, k);
    assert StepsTo(run[k], acts[k], run[k + 1], e);
    EndsIdle(run[k], acts[k], run[k + 1], w, e);
  }

  lemma StaysIdleAt(run: seq<State>, acts: seq<Action>, e: Env, k: nat, w: Watcher, left: real)
    requires Run(run, acts, e) && k < |acts| && Idle(run[k], w, left) && !Does(run[k], acts[k], Start(w))
    ensures Idle(run[k + 1], w, left)
  {
    ReachableInv(run, acts, e, k);
    assert StepsTo(run[k], acts[k], run[k + 1], e);
    StaysIdle(run[k], acts[k], run[k + 1], w, left, e);
  }

  lemma {:induction false} IdleUntil(run: seq<State>, acts: seq<Action>, e: Env, i: nat, j: nat, w: Watcher, left: real)
    requires Run(run, acts, e) && i <= j <= |acts| && Idle(run[i], w, left)
    requires forall k :: i <= k < j ==> !Does(run[k], acts[k], Start(w))
    ensures Idle(run[j], w, left)
    decreases j
  {
    if i < j {
      IdleUntil(run, acts, e, i, j - 1, w, left);
      StaysIdleAt(run, acts, e, j - 1, w, left);
    }
  }

  /**
   * A timer that is started again goes on where it was: its time has moved by the loop time that has passed
   * meanwhile. A one-shot that has been collected, and is not given a new time, is then due at once.
   */
  lemma ResumesWithRemaining(run: seq<State>, acts: seq<Action>, e: Env, i: nat, j: nat, w: Watcher)
    requires Run(run, acts, e) && i < j < |acts| && w in run[i].at && Ends(run[i], acts[i], w, e)
    requires NotStarted(run, acts, i, j, w) && Does(run[j], acts[j], Start(w))
    ensures w in run[j + 1].members && w in run[j + 1].at
    ensures run[j + 1].at[w] == run[i].at[w] + (run[j].mn - run[i].mn)
    ensures acts[i] == Expire(w) ==> run[j + 1].at[w] < run[j + 1].mn
  {
    EndsAt(run, acts, e, i, w);
    IdleUntil(run, acts, e, i + 1, j, w, run[i].at[w] - run[i].mn);
    assert StepsTo(run[i], acts[i], run[i + 1], e);
    assert StepsTo(run[j], acts[j], run[j + 1], e);
  }
}
