/**
 * bf_sys_timer.c: threads that start and stop timers under a lock which the loop gives up only around
 * the kernel wait, waking it through an async watcher. The heap, the pending queues and the collecting of
 * expired timers are those that Timers and PendingQueues specify.
 */
module CrossThreadTimers {
  import W = Wakeup
  import opened Watchers
  import opened PendingSpec
  import opened PendingLaws
  import opened Expiry
  import DeadlineOrder
  import Timers

  /** The async watcher u.async_w is the only one, on the channel of asyncs. */
  const ASYNC: nat := 1

  /** What does not change: pending_w, how each timer repeats, and the least time the loop ever waits. */
  datatype Env = Env(dummy: Watcher, repeat: map<Watcher, real>, grain: real)

  datatype Op = Start(w: Watcher) | Stop(w: Watcher)

  /** A thread in bf_sys_timer_start, or in bf_sys_timer_stop or _del: about to do what the name says. */
  datatype ClientPc = Out | Lock(op: Op) | Change(op: Op) | Send | Sending | Unlock

  datatype Owner = Free | Loop | Client(t: nat)

  /** The timer whose callback the loop is in. */
  datatype Running = Nothing | Callback(w: Watcher)

  datatype State = State(
    wake: W.State,
    lock: Owner,
    clients: seq<ClientPc>,   // the first senders; the others are threads and signal handlers that only send
    at: map<Watcher, real>,   // of every ev_timer; relative while it is not active
    members: set<Watcher>,    // the active timers, which are those in the heap
    qs: Queues,               // pendings
    rfeeds: seq<Watcher>,     // timers noted by feed_reverse
    running: Running,
    until: real,              // when the kernel wait ends at the latest
    mn: real,                 // mn_now
    now: real)

  datatype Action =
    | Call(t: nat, op: Op)
    | Step(t: nat)                         // a client goes on
    | Other(a: W.Action)                   // a step of another sender
    | Release                              // EV_RELEASE_CB
    | Wake(notice: bool, other: bool)
    | Acquire                              // EV_ACQUIRE_CB
    | Advance(nowait: bool, until: real)   // ev_run, which computes the time to wait when it decides to block
    | Expire(w: Watcher)                   // timers_reify, one timer
    | FeedExpired                          // feed_reverse_done
    | Begin                                // ev_invoke_pending takes off a slot and calls its callback
    | End                                  // the callback returns
    | Tick(now: real)

  predicate InCall(p: ClientPc) {
    p.Change? || p.Send? || p.Sending? || p.Unlock?
  }

  predicate OpOk(p: ClientPc, timers: set<Watcher>) {
    p.Lock? || p.Change? ==> p.op.w in timers
  }

  predicate ClientsOk(s: State) {
    && |s.clients| <= |s.wake.senders|
    && (forall t :: 0 <= t < |s.clients| && s.wake.senders[t] != W.Idle ==> s.clients[t] == Sending)
    && (forall t :: 0 <= t < |s.clients| ==> OpOk(s.clients[t], s.at.Keys))
  }

  predicate WakeOk(w: W.State) {
    W.Shaped(w) && |w.flags| == 2 && |w.marks[ASYNC]| == 1
  }

  predicate TimersOk(s: State, e: Env) {
    && s.members <= s.at.Keys == e.repeat.Keys && e.dummy !in s.at
    && (forall w :: w in s.at ==> w.priority < |s.qs|)
    && (forall w :: w in s.rfeeds ==> w in s.at)
  }

  predicate Shaped(s: State, e: Env) {
    WakeOk(s.wake) && ClientsOk(s) && TimersOk(s, e)
  }

  /** Nothing is waited for beyond a timer's time, except for the least time the loop ever waits. */
  predicate InTime(members: set<Watcher>, at: map<Watcher, real>, until: real, earliest: real)
    requires members <= at.Keys
  {
    forall w :: w in members ==> until <= at[w] || until <= earliest
  }

  predicate NoneExpired(s: State)
    requires s.members <= s.at.Keys
  {
    forall w :: w in s.members ==> s.mn <= s.at[w]
  }

  /** The timers as timers_reify finds them. */
  ghost function Snap(s: State, e: Env): (r: Snapshot)
    requires TimersOk(s, e)
    ensures r.Ok(s.mn)
  {
    Snapshot(s.at, s.members, s.qs, map w | w in s.at :: Timers.AfterTimer(s.at[w], e.repeat[w], s.mn))
  }

  /** The loop is in ev_run between the kernel waits, outside of a callback. */
  predicate Invoking(s: State) {
    s.lock == Loop && s.wake.loop.Invoke? && s.running == Nothing
  }

  predicate StepEnabled(s: State, t: nat) {
    t < |s.clients| && match s.clients[t] {
      case Out => false
      case Lock(_) => s.lock == Free
      case _ => true
    }
  }

  predicate AdvanceEnabled(s: State, nowait: bool, until: real, e: Env)
    requires Shaped(s, e)
  {
    && s.lock == Loop && s.running == Nothing && W.Enabled(s.wake, W.Advance(nowait))
    && (s.wake.loop.TestSkipped? ==> InTime(s.members, s.at, until, s.mn + e.grain))
    && (s.wake.loop.Invoke? ==> s.rfeeds == [] && NoneExpired(s) && (!s.wake.pending ==> Highest(s.qs) == -1))
  }

  ghost predicate Enabled(s: State, a: Action, e: Env)
    requires Shaped(s, e)
  {
    match a
    case Call(t, op) => t < |s.clients| && s.clients[t] == Out && op.w in s.at
    case Step(t) => StepEnabled(s, t)
    case Other(b) => (b.Begin? || b.Continue?) && |s.clients| <= b.t && W.Enabled(s.wake, b)
    case Release => s.wake.loop.Poll? && s.lock == Loop
    case Wake(notice, other) => s.lock != Loop && W.Enabled(s.wake, W.Wake(notice, other))
    case Acquire => !s.wake.loop.Poll? && s.lock == Free
    case Advance(nowait, until) => AdvanceEnabled(s, nowait, until, e)
    case Expire(w) =>
      Invoking(s) && w in s.members && s.at[w] < s.mn && forall v :: v in s.members ==> s.at[w] <= s.at[v]
    case FeedExpired => Invoking(s) && s.rfeeds != [] && NoneExpired(s)
    case Begin => Invoking(s) && s.rfeeds == [] && NoneExpired(s) && 0 <= Highest(s.qs)
    case End => s.running.Callback?
    case Tick(now) => s.now <= now
  }

  /** ev_timer_start and ev_timer_stop, as Timers.TimerLoop specifies them. */
  function Changed(s: State, op: Op, dummy: Watcher): State
    requires op.w in s.at
  {
    var w := op.w;
    match op
    case Start(_) => if w in s.members then s else s.(at := s.at[w := s.mn + s.at[w]], members := s.members + {w})
    case Stop(_) =>
      s.(at := if w in s.members then s.at[w := s.at[w] - s.mn] else s.at,
         members := s.members - {w}, qs := Clear(s.qs, w, dummy))
  }

  function ClientStep(s: State, t: nat, e: Env): State
    requires Shaped(s, e) && t < |s.clients| && s.clients[t] != Out
  {
    match s.clients[t]
    case Lock(op) => s.(lock := Client(t), clients := s.clients[t := Change(op)])
    case Change(op) => Changed(s, op, e.dummy).(clients := s.clients[t := Send])
    case Send => s.(wake := W.Do(s.wake, W.Begin(t, ASYNC, 0)), clients := s.clients[t := Sending])
    case Sending =>
      if s.wake.senders[t] == W.Idle then s.(clients := s.clients[t := Unlock])
      else s.(wake := W.Do(s.wake, W.Continue(t)))
    case Unlock => s.(lock := Free, clients := s.clients[t := Out])
  }

  /** timers_reify, one timer: it is rescheduled or stopped, and noted. */
  ghost function Expired(s: State, w: Watcher, e: Env): State
    requires TimersOk(s, e) && w in s.members
  {
    var r := Snap(s, e).Process(w, s.mn, e.dummy);
    s.(at := r.at, members := r.members, qs := r.qs, rfeeds := s.rfeeds + [w])
  }

  function Begun(s: State, dummy: Watcher): State
    requires 0 <= Highest(s.qs)
  {
    var w := Top(s.qs).w;
    s.(qs := Pop(s.qs), running := if w == dummy then Nothing else Callback(w))
  }

  ghost function Do(s: State, a: Action, e: Env): State
    requires Shaped(s, e) && Enabled(s, a, e)
  {
    match a
    case Call(t, op) => s.(clients := s.clients[t := Lock(op)])
    case Step(t) => ClientStep(s, t, e)
    case Other(b) => s.(wake := W.Do(s.wake, b))
    case Release => s.(lock := Free)
    case Wake(notice, other) => s.(wake := W.Do(s.wake, W.Wake(notice, other)))
    case Acquire => s.(lock := Loop)
    case Advance(nowait, until) =>
      s.(wake := W.Do(s.wake, W.Advance(nowait)),
         until := if s.wake.loop.TestSkipped? then until else s.until,
         mn := if s.wake.loop.SetWanted? || s.wake.loop.Recheck? then s.now else s.mn)
    case Expire(w) => Expired(s, w, e)
    case FeedExpired => s.(qs := FeedReverse(s.qs, s.rfeeds, {Timer}), rfeeds := [])
    case Begin => Begun(s, e.dummy)
    case End => s.(running := Nothing)
    case Tick(now) => s.(now := now)
  }

  // ---------- The invariant ----------

  predicate Raising(p: W.SendPc) {
    p == W.TestFlag(ASYNC) || p == W.SetFlag(ASYNC)
  }

  /** The holder of the lock has still to raise the flag, or the flag is raised. */
  predicate Alarm(s: State)
    requires WakeOk(s.wake) && ClientsOk(s)
  {
    || s.wake.flags[ASYNC]
    || (s.lock.Client? && s.lock.t < |s.clients| &&
        (s.clients[s.lock.t] == Send ||
         (s.clients[s.lock.t] == Sending && Raising(s.wake.senders[s.lock.t]))))
  }

  predicate LockOk(s: State) {
    && (s.lock.Client? ==> s.lock.t < |s.clients|)
    && (forall t :: 0 <= t < |s.clients| ==> InCall(s.clients[t]) == (s.lock == Client(t)))
    && (s.lock != Loop ==> s.wake.loop.Poll? || s.wake.loop.ClearWanted?)
  }

  predicate BetweenInvocations(p: W.LoopPc) {
    !p.Invoke? && !W.InPipecb(p)
  }

  /** Timers are collected, pending or called back only while the loop invokes. */
  predicate QuietOk(s: State) {
    && (s.running.Callback? ==> s.wake.loop.Invoke?)
    && (!s.wake.loop.Invoke? ==> s.rfeeds == [])
    && (BetweenInvocations(s.wake.loop) ==> Highest(s.qs) == -1)
  }

  predicate InvAt(s: State, e: Env)
    requires Shaped(s, e)
  {
    && LockOk(s) && QuietOk(s) && s.mn <= s.now
    && (s.wake.loop == W.Poll(true) ==> InTime(s.members, s.at, s.until, s.mn + e.grain) || Alarm(s))
  }

  predicate Inv(s: State, e: Env) {
    Shaped(s, e) && W.Inv(s.wake) && InvAt(s, e)
  }

  predicate Init(s: State, e: Env) {
    && Shaped(s, e) && W.Init(s.wake) && s.lock == Loop && s.mn <= s.now
    && s.running == Nothing && s.rfeeds == [] && Highest(s.qs) == -1
    && forall t :: 0 <= t < |s.clients| ==> s.clients[t] == Out
  }

  lemma InitInv(s: State, e: Env)
    requires Init(s, e)
    ensures Inv(s, e)
  {
    W.InitInv(s.wake);
  }

  lemma WStep(w: W.State, b: W.Action)
    requires WakeOk(w) && W.Inv(w) && W.Enabled(w, b)
    ensures W.Inv(W.Do(w, b)) && WakeOk(W.Do(w, b)) && |W.Do(w, b).senders| == |w.senders|
  {
    W.StepInv(w, b);
    W.SizesKept(w, b);
  }

  lemma ClientInv(s: State, t: nat, e: Env)
    requires Inv(s, e) && StepEnabled(s, t)
    ensures Inv(ClientStep(s, t, e), e)
  {
    if s.clients[t] == Send {
      SendInv(s, t, e);
    } else if s.clients[t] == Sending {
      SendingInv(s, t, e);
    } else if s.clients[t].Change? {
      ChangeInv(s, t, e);
    } else {
      LockInv(s, t, e);
    }
  }

  lemma SendInv(s: State, t: nat, e: Env)
    requires Inv(s, e) && t < |s.clients| && s.clients[t] == Send
    ensures Inv(ClientStep(s, t, e), e)
  {
    assert s.lock == Client(t);
    WStep(s.wake, W.Begin(t, ASYNC, 0));
  }

  /** A sender ends its call with the flag raised. */
  lemma KeepsRaising(w: W.State, t: nat)
    requires WakeOk(w) && t < |w.senders| && w.senders[t] != W.Idle
    ensures var w' := W.Do(w, W.Continue(t));
            && W.Local(w, w', t)
            && (w.flags[ASYNC] || Raising(w.senders[t]) ==> w'.flags[ASYNC] || Raising(w'.senders[t]))
  {
    W.SenderLocal(w, W.Continue(t));
  }

  lemma SendingInv(s: State, t: nat, e: Env)
    requires Inv(s, e) && t < |s.clients| && s.clients[t] == Sending
    ensures Inv(ClientStep(s, t, e), e)
  {
    assert s.lock == Client(t);
    if s.wake.senders[t] != W.Idle {
      WStep(s.wake, W.Continue(t));
      KeepsRaising(s.wake, t);
      SendingInvIn(s, t, W.Do(s.wake, W.Continue(t)), e);
    }
  }

  lemma SendingInvIn(s: State, t: nat, w: W.State, e: Env)
    requires Inv(s, e) && W.Inv(w) && WakeOk(w) && W.Local(s.wake, w, t)
    requires t < |s.clients| && s.clients[t] == Sending && s.lock == Client(t)
    requires s.wake.flags[ASYNC] || Raising(s.wake.senders[t]) ==> w.flags[ASYNC] || Raising(w.senders[t])
    ensures Inv(s.(wake := w), e)
  {
  }

  /** No slot is there to be cleared while another thread has the lock. */
  lemma ChangeInv(s: State, t: nat, e: Env)
    requires Inv(s, e) && t < |s.clients| && s.clients[t].Change?
    ensures Inv(ClientStep(s, t, e), e)
  {
    assert s.lock == Client(t);
    assert !IsPending(s.qs, s.clients[t].op.w);
  }

  lemma LockInv(s: State, t: nat, e: Env)
    requires Inv(s, e) && StepEnabled(s, t) && (s.clients[t].Lock? || s.clients[t].Unlock?)
    ensures Inv(ClientStep(s, t, e), e)
  {
  }

  /** How the loop goes on, as far as timers are concerned. */
  predicate Moves(w: W.State, w': W.State) {
    && w'.senders == w.senders && (w'.loop.Poll? ==> w.loop.TestSkipped?)
    && (BetweenInvocations(w'.loop) ==> BetweenInvocations(w.loop) || (w.loop.Invoke? && !w.pending))
  }

  lemma RunMoves(w: W.State, nowait: bool)
    requires !w.loop.Poll? && !W.InPipecb(w.loop)
    ensures Moves(w, W.RunStep(w, nowait))
  {
  }

  lemma PipecbMoves(w: W.State)
    requires W.Shaped(w) && W.InPipecb(w.loop)
    ensures Moves(w, W.PipecbStep(w))
  {
  }

  lemma LoopMoves(w: W.State, nowait: bool)
    requires W.Shaped(w) && W.Enabled(w, W.Advance(nowait))
    ensures Moves(w, W.Do(w, W.Advance(nowait)))
  {
    if W.InPipecb(w.loop) {
      PipecbMoves(w);
    } else {
      RunMoves(w, nowait);
    }
  }

  lemma AdvanceInv(s: State, nowait: bool, until: real, e: Env)
    requires Inv(s, e) && Enabled(s, Advance(nowait, until), e)
    ensures Inv(Do(s, Advance(nowait, until), e), e)
  {
    WStep(s.wake, W.Advance(nowait));
    LoopMoves(s.wake, nowait);
    var s' := Do(s, Advance(nowait, until), e);
    AdvanceInvIn(s, s'.wake, s'.until, s'.mn, e);
  }

  lemma AdvanceInvIn(s: State, w: W.State, until: real, mn: real, e: Env)
    requires Inv(s, e) && W.Inv(w) && WakeOk(w) && w.senders == s.wake.senders
    requires s.lock == Loop && s.running == Nothing && mn <= s.now && (s.wake.loop.Invoke? ==> s.rfeeds == [])
    requires w.loop.Poll? ==> InTime(s.members, s.at, until, mn + e.grain)
    requires BetweenInvocations(w.loop) ==> Highest(s.qs) == -1
    ensures Inv(s.(wake := w, until := until, mn := mn), e)
  {
  }

  lemma OtherInv(s: State, b: W.Action, e: Env)
    requires Inv(s, e) && Enabled(s, Other(b), e)
    ensures Inv(Do(s, Other(b), e), e)
  {
    WStep(s.wake, b);
    W.SenderLocal(s.wake, b);
    OtherInvIn(s, b.t, W.Do(s.wake, b), e);
  }

  lemma OtherInvIn(s: State, t: nat, w: W.State, e: Env)
    requires Inv(s, e) && W.Inv(w) && |s.clients| <= t
    requires WakeOk(w) && |w.senders| == |s.wake.senders|
    requires w.loop == s.wake.loop && (s.wake.flags[ASYNC] ==> w.flags[ASYNC])
    requires forall u :: 0 <= u < |w.senders| && u != t ==> w.senders[u] == s.wake.senders[u]
    ensures Inv(s.(wake := w), e)
  {
  }

  lemma WakeInv(s: State, notice: bool, other: bool, e: Env)
    requires Inv(s, e) && Enabled(s, Wake(notice, other), e)
    ensures Inv(Do(s, Wake(notice, other), e), e)
  {
    WStep(s.wake, W.Wake(notice, other));
  }

  /** Steps of the loop between kernel waits that do not concern the wakeup. */
  lemma InvokeInv(s: State, a: Action, e: Env)
    requires Inv(s, e) && Enabled(s, a, e) && (a.Expire? || a.FeedExpired? || a.Begin? || a.End?)
    ensures Inv(Do(s, a, e), e)
  {
  }

  lemma OwnerInv(s: State, a: Action, e: Env)
    requires Inv(s, e) && Enabled(s, a, e) && (a.Call? || a.Release? || a.Acquire? || a.Tick?)
    ensures Inv(Do(s, a, e), e)
  {
  }

  lemma StepInv(s: State, a: Action, e: Env)
    requires Inv(s, e) && Enabled(s, a, e)
    ensures Inv(Do(s, a, e), e)
  {
    match a
    case Step(t) => ClientInv(s, t, e);
    case Other(b) => OtherInv(s, b, e);
    case Wake(notice, other) => WakeInv(s, notice, other, e);
    case Advance(nowait, until) => AdvanceInv(s, nowait, until, e);
    case Call(_, _) => OwnerInv(s, a, e);
    case Release => OwnerInv(s, a, e);
    case Acquire => OwnerInv(s, a, e);
    case Tick(_) => OwnerInv(s, a, e);
    case _ => InvokeInv(s, a, e);
  }

  /** How many steps a thread that has the lock has still to make. */
  function Left(s: State, t: nat): nat
    requires t < |s.clients| && t < |s.wake.senders|
  {
    match s.clients[t]
    case Change(_) => 10
    case Send => 9
    case Sending =>
      (match s.wake.senders[t]
       case TestFlag(_) => 8
       case SetFlag(_) => 7
       case SetSkipped => 6
       case TestWanted => 5
       case ClearSkipped => 4
       case WritePipe => 3
       case Idle => 2)
    case Unlock => 1
    case _ => 0
  }

  // ---------- Runs ----------

  ghost predicate Run(run: seq<State>, acts: seq<Action>, e: Env) {
    && |run| == |acts| + 1 && Init(run[0], e)
    && forall k :: 0 <= k < |acts| ==> StepsTo(run[k], acts[k], run[k + 1], e)
  }

  ghost predicate StepsTo(s: State, a: Action, s': State, e: Env) {
    Shaped(s, e) && Enabled(s, a, e) && s' == Do(s, a, e)
  }

  lemma {:induction false} ReachableInv(run: seq<State>, acts: seq<Action>, e: Env, k: nat)
    requires Run(run, acts, e) && k < |run|
    ensures Inv(run[k], e)
  {
    if k == 0 {
      InitInv(run[0], e);
    } else {
      ReachableInv(run, acts, e, k - 1);
      RunStepInv(run, acts, e, k - 1);
    }
  }

  lemma RunStepInv(run: seq<State>, acts: seq<Action>, e: Env, k: nat)
    requires Run(run, acts, e) && k < |acts| && Inv(run[k], e)
    ensures Inv(run[k + 1], e)
  {
    assert StepsTo(run[k], acts[k], run[k + 1], e);
    StepsToInv(run[k], acts[k], run[k + 1], e);
  }

  lemma StepsToInv(s: State, a: Action, s': State, e: Env)
    requires Inv(s, e) && StepsTo(s, a, s', e)
    ensures Inv(s', e)
  {
    StepInv(s, a, e);
  }

  predicate NoneWaking(senders: seq<W.SendPc>) {
    forall t :: 0 <= t < |senders| ==> !W.Waking(senders[t])
  }

  /**
   * Whenever the loop is about to sleep or asleep, while no thread is between taking and giving back the
   * lock or still to wake the loop: either it is going to wake in time for every active timer, also one
   * that was started after the time to wait was computed, or the kernel wait returns at once.
   */
  lemma WokenInTime(run: seq<State>, acts: seq<Action>, e: Env, k: nat)
    requires Run(run, acts, e) && k < |run| && run[k].wake.loop == W.Poll(true)
    requires !run[k].lock.Client? && NoneWaking(run[k].wake.senders)
    ensures run[k].members <= run[k].at.Keys
    ensures InTime(run[k].members, run[k].at, run[k].until, run[k].mn + e.grain) || 0 < run[k].wake.pipe
  {
    ReachableInv(run, acts, e, k);
    if run[k].wake.pipe == 0 && run[k].wake.flags[ASYNC] {
      W.StillWaking(run[k].wake, ASYNC, 0);
    }
  }

  // ---------- After a timer has been stopped ----------

  /** The step in which bf_sys_timer_start, or bf_sys_timer_stop or _del, changes a timer. */
  predicate Does(s: State, a: Action, op: Op) {
    a.Step? && a.t < |s.clients| && s.clients[a.t] == Change(op)
  }

  /** The loop is about to call the timer's callback. */
  predicate Fires(s: State, a: Action, w: Watcher) {
    a.Begin? && 0 <= Highest(s.qs) && Top(s.qs).w == w
  }

  /** The timer is not pending, not about to be, and its callback is not running. */
  predicate Silent(s: State, w: Watcher) {
    Unnamed(s.qs, w) && w !in s.rfeeds && s.running != Callback(w)
  }

  lemma PopUnnamed(qs: Queues, w: Watcher)
    requires Unnamed(qs, w) && 0 <= Highest(qs)
    ensures Unnamed(Pop(qs), w) && Top(qs).w != w
  {
  }

  /** A timer is silent while another thread has the lock: no callback is under way then, nor waiting to be called. */
  lemma SilentOutside(s: State, w: Watcher, e: Env)
    requires Inv(s, e) && s.lock != Loop
    ensures Silent(s, w)
  {
    NoneNamed(s.qs, w);
  }

  /** A silent timer stays silent unless it is collected. */
  lemma StaysSilent(s: State, a: Action, w: Watcher, e: Env)
    requires Inv(s, e) && Enabled(s, a, e) && w in s.at && Silent(s, w) && a != Expire(w)
    ensures Silent(Do(s, a, e), w) && !Fires(s, a, w)
  {
    if a.Begin? {
      PopUnnamed(s.qs, w);
    } else if a.FeedExpired? {
      DeadlineOrder.FedUnnamed(s.qs, s.rfeeds, {Timer}, w);
    } else if a.Expire? {
      ExpireStaysSilent(s, a.w, w, e);
    } else {
      OthersStaySilent(s, a, w, e);
    }
  }

  lemma ExpireStaysSilent(s: State, v: Watcher, w: Watcher, e: Env)
    requires TimersOk(s, e) && v in s.members && w in s.at && Silent(s, w) && v != w
    ensures Silent(Expired(s, v, e), w)
  {
  }

  lemma OthersStaySilent(s: State, a: Action, w: Watcher, e: Env)
    requires Inv(s, e) && Enabled(s, a, e) && w in s.at && Silent(s, w)
    requires !a.Begin? && !a.FeedExpired? && !a.Expire?
    ensures Silent(Do(s, a, e), w)
  {
  }

  /** Only an active timer is collected, and it is only started by being started. */
  lemma StaysInactive(s: State, a: Action, w: Watcher, e: Env)
    requires Inv(s, e) && Enabled(s, a, e) && w in s.at && w !in s.members && !Does(s, a, Start(w))
    ensures w in Do(s, a, e).at && w !in Do(s, a, e).members && a != Expire(w)
  {
  }

  /** Stopped for good, as far as the loop is concerned. */
  predicate Stopped(s: State, w: Watcher) {
    w in s.at && w !in s.members && Silent(s, w)
  }

  lemma StaysStopped(s: State, a: Action, s': State, w: Watcher, e: Env)
    requires Inv(s, e) && StepsTo(s, a, s', e) && Stopped(s, w) && !Does(s, a, Start(w))
    ensures Stopped(s', w) && !Fires(s, a, w)
  {
    StaysInactive(s, a, w, e);
    StaysSilent(s, a, w, e);
  }

  lemma StopStops(s: State, a: Action, s': State, w: Watcher, e: Env)
    requires Inv(s, e) && StepsTo(s, a, s', e) && Does(s, a, Stop(w))
    ensures Stopped(s', w)
  {
    assert s.lock == Client(a.t);
    SilentOutside(s, w, e);
    StaysSilent(s, a, w, e);
  }

  lemma StopsAt(run: seq<State>, acts: seq<Action>, e: Env, k: nat, w: Watcher)
    requires Run(run, acts, e) && k < |acts| && Does(run[k], acts[k], Stop(w))
    ensures Stopped(run[k + 1], w)
  {
    ReachableInv(run, acts, e, k);
    assert StepsTo(run[k], acts[k], run[k + 1], e);
    StopStops(run[k], acts[k], run[k + 1], w, e);
  }

  lemma StaysStoppedAt(run: seq<State>, acts: seq<Action>, e: Env, k: nat, w: Watcher)
    requires Run(run, acts, e) && k < |acts| && Stopped(run[k], w) && !Does(run[k], acts[k], Start(w))
    ensures Stopped(run[k + 1], w) && !Fires(run[k], acts[k], w)
  {
    ReachableInv(run, acts, e, k);
    assert StepsTo(run[k], acts[k], run[k + 1], e);
    StaysStopped(run[k], acts[k], run[k + 1], w, e);
  }

  /** Between steps i and j no thread starts the timer. */
  predicate NotStarted(run: seq<State>, acts: seq<Action>, i: nat, j: nat, w: Watcher)
    requires j <= |acts| < |run|
  {
    forall k :: i < k < j ==> !Does(run[k], acts[k], Start(w))
  }

  /** Nor is its callback called. */
  predicate NotFired(run: seq<State>, acts: seq<Action>, i: nat, j: nat, w: Watcher)
    requires j <= |acts| < |run|
  {
    forall k :: i < k < j ==> !Fires(run[k], acts[k], w)
  }

  /**
   * Once a timer has been stopped or deleted it is not in the heap, not pending and not noted to be, its
   * callback is not running, and it is not called, in any run, until the timer is started again.
   */
  lemma {:induction false} StopIsFinal(run: seq<State>, acts: seq<Action>, e: Env, i: nat, j: nat, w: Watcher)
    requires Run(run, acts, e) && i < j <= |acts| && Does(run[i], acts[i], Stop(w))
    requires NotStarted(run, acts, i, j, w)
    ensures Stopped(run[j], w) && NotFired(run, acts, i, j, w)
    decreases j
  {
    if i < j - 1 {
      StopIsFinal(run, acts, e, i, j - 1, w);
      StaysStoppedAt(run, acts, e, j - 1, w);
    } else {
      StopsAt(run, acts, e, i, w);
    }
  }
}
