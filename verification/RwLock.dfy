/**
 * The reader/writer lock of bf_sys_sem.c, made of one mutex, two condition variables and four counters,
 * as interleaved steps of any number of threads, with spurious wakeups.
 */
module RwLock {

  /** Where a thread is. `counted` says that r_wait or w_wait includes it. */
  datatype Pc =
    | Out                                        // in no call, holding nothing
    | RdCall | WrCall | RdEndCall | WrEndCall | DelCall  // about to lock the mutex
    | RdTest(counted: bool) | WrTest(counted: bool)      // with the mutex, about to test the loop condition
    | RdAsleep | WrAsleep                        // in pthread_cond_wait
    | RdAwake | WrAwake                          // woken, about to lock the mutex again
    | RdExit | WrExit | EndExit                  // with the mutex, about to unlock it and return
    | Reading | Writing                          // in no call, holding the lock
    | RdEnd | WrEnd | DelTest                    // with the mutex

  datatype Owner = Free | By(t: nat)

  datatype State = State(
    valid: bool, r_active: int, w_active: int, r_wait: int, w_wait: int, mutex: Owner, pcs: seq<Pc>)

  datatype Call = RdLock | WrLock | Unlock | Del

  /** `wake` is the writer that pthread_cond_signal chooses, if the step signals. */
  datatype Action = Enter(t: nat, call: Call) | Step(t: nat, wake: nat) | Spurious(t: nat)

  predicate HasMutex(p: Pc) {
    p.RdTest? || p.WrTest? || p.RdExit? || p.WrExit? || p.EndExit? || p.RdEnd? || p.WrEnd? || p.DelTest?
  }

  predicate WantsMutex(p: Pc) {
    p.RdCall? || p.WrCall? || p.RdEndCall? || p.WrEndCall? || p.DelCall? || p.RdAwake? || p.WrAwake?
  }

  predicate Asleep(p: Pc) {
    p.RdAsleep? || p.WrAsleep?
  }

  predicate SomeAsleepWriter(pcs: seq<Pc>) {
    exists u :: 0 <= u < |pcs| && pcs[u] == WrAsleep
  }

  ghost predicate Enabled(s: State, a: Action) {
    match a
    case Enter(t, call) =>
      t < |s.pcs| && s.valid && match call {
        case RdLock => s.pcs[t] == Out
        case WrLock => s.pcs[t] == Out
        case Unlock => s.pcs[t] == Reading || s.pcs[t] == Writing
        case Del => s.pcs[t] == Out
      }
    case Step(t, wake) =>
      && t < |s.pcs|
      && (WantsMutex(s.pcs[t]) ==> s.mutex == Free)
      && (WantsMutex(s.pcs[t]) || HasMutex(s.pcs[t]))
      && (SomeAsleepWriter(s.pcs) ==> wake < |s.pcs| && s.pcs[wake] == WrAsleep)
    case Spurious(t) => t < |s.pcs| && Asleep(s.pcs[t])
  }

  function Woken(p: Pc): Pc {
    if p == RdAsleep then RdAwake else if p == WrAsleep then WrAwake else p
  }

  /** pthread_cond_signal on `write`. */
  function Signal(pcs: seq<Pc>, wake: nat): (r: seq<Pc>)
    ensures |r| == |pcs|
  {
    if wake < |pcs| && pcs[wake] == WrAsleep then pcs[wake := WrAwake] else pcs
  }

  /** pthread_cond_broadcast on `read`. */
  function Broadcast(pcs: seq<Pc>): (r: seq<Pc>)
    ensures |r| == |pcs|
  {
    seq(|pcs|, i requires 0 <= i < |pcs| => if pcs[i] == RdAsleep then RdAwake else pcs[i])
  }

  /** The mutex is locked. */
  function Locked(p: Pc): Pc
    requires WantsMutex(p)
  {
    match p
    case RdCall => RdTest(false)
    case WrCall => WrTest(false)
    case RdAwake => RdTest(true)
    case WrAwake => WrTest(true)
    case RdEndCall => RdEnd
    case WrEndCall => WrEnd
    case DelCall => DelTest
  }

  /** What a thread does with the mutex. */
  function Inside(s: State, t: nat, wake: nat): State
    requires t < |s.pcs| && HasMutex(s.pcs[t])
  {
    match s.pcs[t]
    case RdTest(counted) =>
      if s.w_active != 0 || s.w_wait != 0 then
        s.(r_wait := if counted then s.r_wait else s.r_wait + 1, mutex := Free, pcs := s.pcs[t := RdAsleep])
      else
        s.(r_wait := if counted then s.r_wait - 1 else s.r_wait, r_active := s.r_active + 1, pcs := s.pcs[t := RdExit])
    case WrTest(counted) =>
      if s.w_active != 0 || s.r_active != 0 then
        s.(w_wait := if counted then s.w_wait else s.w_wait + 1, mutex := Free, pcs := s.pcs[t := WrAsleep])
      else
        s.(w_wait := if counted then s.w_wait - 1 else s.w_wait, w_active := s.w_active + 1, pcs := s.pcs[t := WrExit])
    case RdEnd =>
      var pcs := s.pcs[t := EndExit];
      s.(r_active := s.r_active - 1, pcs := if s.r_active - 1 == 0 && s.w_wait > 0 then Signal(pcs, wake) else pcs)
    case WrEnd =>
      var pcs := s.pcs[t := EndExit];
      s.(w_active := 0, pcs := if s.w_wait > 0 then Signal(pcs, wake) else if s.r_wait > 0 then Broadcast(pcs) else pcs)
    case DelTest =>
      var busy := s.r_active > 0 || s.w_active > 0 || s.r_wait > 0 || s.w_wait > 0;
      s.(valid := s.valid && busy, pcs := s.pcs[t := EndExit])
    case RdExit => s.(mutex := Free, pcs := s.pcs[t := Reading])
    case WrExit => s.(mutex := Free, pcs := s.pcs[t := Writing])
    case EndExit => s.(mutex := Free, pcs := s.pcs[t := Out])
  }

  ghost function Do(s: State, a: Action): State
    requires Enabled(s, a)
  {
    match a
    case Enter(t, call) =>
      s.(pcs := s.pcs[t := match call
                           case RdLock => RdCall
                           case WrLock => WrCall
                           case Unlock => if s.pcs[t] == Reading then RdEndCall else WrEndCall
                           case Del => DelCall])
    case Step(t, wake) =>
      if WantsMutex(s.pcs[t]) then s.(mutex := By(t), pcs := s.pcs[t := Locked(s.pcs[t])]) else Inside(s, t, wake)
    case Spurious(t) => s.(pcs := s.pcs[t := Woken(s.pcs[t])])
  }

  // ---------- Counting threads ----------

  /** Those that hold the lock for reading or writing, and those that wait for it. */
  datatype Role = Reader | Writer | RdWaiter | WrWaiter

  predicate Plays(r: Role, p: Pc) {
    match r
    case Reader => p.RdExit? || p.Reading? || p.RdEndCall? || p.RdEnd?
    case Writer => p.WrExit? || p.Writing? || p.WrEndCall? || p.WrEnd?
    case RdWaiter => p.RdAsleep? || p.RdAwake? || p == RdTest(true)
    case WrWaiter => p.WrAsleep? || p.WrAwake? || p == WrTest(true)
  }

  function One(r: Role, p: Pc): nat {
    if Plays(r, p) then 1 else 0
  }

  function Count(r: Role, pcs: seq<Pc>): nat {
    if pcs == [] then 0 else One(r, pcs[0]) + Count(r, pcs[1..])
  }

  lemma {:induction false} CountUpdate(r: Role, pcs: seq<Pc>, t: nat, p: Pc)
    requires t < |pcs|
    ensures Count(r, pcs[t := p]) == Count(r, pcs) - One(r, pcs[t]) + One(r, p)
  {
    if t == 0 {
      assert pcs[t := p][1..] == pcs[1..];
    } else {
      assert pcs[t := p][1..] == pcs[1..][t - 1 := p];
      CountUpdate(r, pcs[1..], t - 1, p);
    }
  }

  lemma {:induction false} CountBroadcast(r: Role, pcs: seq<Pc>)
    ensures Count(r, Broadcast(pcs)) == Count(r, pcs)
  {
    if pcs != [] {
      assert Broadcast(pcs)[1..] == Broadcast(pcs[1..]);
      CountBroadcast(r, pcs[1..]);
    }
  }

  lemma CountSignal(r: Role, pcs: seq<Pc>, wake: nat)
    ensures Count(r, Signal(pcs, wake)) == Count(r, pcs)
  {
    if wake < |pcs| {
      CountUpdate(r, pcs, wake, WrAwake);
    }
  }

  lemma {:induction false} CountSome(r: Role, pcs: seq<Pc>)
    ensures 0 < Count(r, pcs) <==> exists t :: 0 <= t < |pcs| && Plays(r, pcs[t])
  {
    if pcs != [] {
      CountSome(r, pcs[1..]);
      if Plays(r, pcs[0]) {
      } else if t :| 0 <= t < |pcs| && Plays(r, pcs[t]) {
        assert pcs[1..][t - 1] == pcs[t];
      }
      if t :| 0 <= t < |pcs[1..]| && Plays(r, pcs[1..][t]) {
        assert pcs[t + 1] == pcs[1..][t];
      }
    }
  }

  // ---------- The invariant ----------

  predicate AwakeWriter(pcs: seq<Pc>) {
    exists t :: 0 <= t < |pcs| && (pcs[t] == WrAwake || pcs[t] == WrTest(true))
  }

  predicate CountersOk(s: State) {
    && s.r_active == Count(Reader, s.pcs) && s.w_active == Count(Writer, s.pcs)
    && s.r_wait == Count(RdWaiter, s.pcs) && s.w_wait == Count(WrWaiter, s.pcs)
  }

  predicate MutexOk(s: State) {
    forall t :: 0 <= t < |s.pcs| ==> (HasMutex(s.pcs[t]) <==> s.mutex == By(t))
  }

  predicate Inv(s: State) {
    && CountersOk(s) && MutexOk(s)
    && s.w_active <= 1 && (s.w_active == 1 ==> s.r_active == 0)
    && (s.w_active == 0 && s.r_active == 0 && 0 < s.w_wait ==> AwakeWriter(s.pcs))
    && (s.w_active == 0 && s.w_wait == 0 ==> RdAsleep !in s.pcs)
  }

  predicate Init(s: State) {
    && s.valid && s.r_active == s.w_active == s.r_wait == s.w_wait == 0 && s.mutex == Free
    && forall t :: 0 <= t < |s.pcs| ==> s.pcs[t] == Out
  }

  lemma InitInv(s: State)
    requires Init(s)
    ensures Inv(s)
  {
    CountSome(Reader, s.pcs);
    CountSome(Writer, s.pcs);
    CountSome(RdWaiter, s.pcs);
    CountSome(WrWaiter, s.pcs);
  }

  lemma Update(s: State, t: nat, p: Pc)
    requires t < |s.pcs|
    ensures forall r :: Count(r, s.pcs[t := p]) == Count(r, s.pcs) - One(r, s.pcs[t]) + One(r, p)
  {
    forall r ensures Count(r, s.pcs[t := p]) == Count(r, s.pcs) - One(r, s.pcs[t]) + One(r, p) {
      CountUpdate(r, s.pcs, t, p);
    }
  }

  /** A thread's moves other than tests of the condition and releases do not change its roles. */
  lemma MovesKeepRoles(s: State, a: Action)
    requires Enabled(s, a)
    requires !(a.Step? && (s.pcs[a.t].RdTest? || s.pcs[a.t].WrTest? || s.pcs[a.t] == RdEnd || s.pcs[a.t] == WrEnd))
    ensures Do(s, a).pcs == s.pcs[a.t := Do(s, a).pcs[a.t]]
    ensures forall r :: One(r, Do(s, a).pcs[a.t]) == One(r, s.pcs[a.t])
  {
  }

  lemma TestsCount(s: State, t: nat, wake: nat)
    requires CountersOk(s) && t < |s.pcs| && (s.pcs[t].RdTest? || s.pcs[t].WrTest?)
    ensures CountersOk(Inside(s, t, wake))
  {
    Update(s, t, Inside(s, t, wake).pcs[t]);
  }

  lemma ReleasesCount(s: State, t: nat, wake: nat)
    requires Inv(s) && t < |s.pcs| && (s.pcs[t] == RdEnd || s.pcs[t] == WrEnd)
    ensures CountersOk(Inside(s, t, wake))
  {
    var pcs := s.pcs[t := EndExit];
    Update(s, t, EndExit);
    CountSome(Writer, pcs);
    forall r ensures Count(r, Signal(pcs, wake)) == Count(r, pcs) == Count(r, Broadcast(pcs)) {
      CountSignal(r, pcs, wake);
      CountBroadcast(r, pcs);
    }
  }

  lemma CountersKept(s: State, a: Action)
    requires Inv(s) && Enabled(s, a)
    ensures CountersOk(Do(s, a))
  {
    if a.Step? && (s.pcs[a.t].RdTest? || s.pcs[a.t].WrTest?) {
      TestsCount(s, a.t, a.wake);
    } else if a.Step? && (s.pcs[a.t] == RdEnd || s.pcs[a.t] == WrEnd) {
      ReleasesCount(s, a.t, a.wake);
    } else {
      MovesKeepRoles(s, a);
      Update(s, a.t, Do(s, a).pcs[a.t]);
    }
  }

  lemma MutexKept(s: State, a: Action)
    requires Inv(s) && Enabled(s, a)
    ensures MutexOk(Do(s, a))
  {
    if a.Step? && HasMutex(s.pcs[a.t]) {
      InsideMutex(s, a.t, a.wake);
    }
  }

  lemma InsideMutex(s: State, t: nat, wake: nat)
    requires Inv(s) && t < |s.pcs| && HasMutex(s.pcs[t])
    ensures MutexOk(Inside(s, t, wake))
  {
    if s.pcs[t].RdTest? || s.pcs[t].WrTest? {
      TestMutex(s, t, wake);
    } else {
      var s' := Inside(s, t, wake);
      assert forall u :: 0 <= u < |s.pcs| && u != t ==> !HasMutex(s.pcs[u]) && !HasMutex(s'.pcs[u]);
    }
  }

  lemma TestMutex(s: State, t: nat, wake: nat)
    requires Inv(s) && t < |s.pcs| && (s.pcs[t].RdTest? || s.pcs[t].WrTest?)
    ensures MutexOk(Inside(s, t, wake))
  {
  }

  /** A writer that has been woken stays awake until it takes the lock. */
  lemma AwakeKept(s: State, a: Action)
    requires Inv(s) && Enabled(s, a)
    ensures var s' := Do(s, a);
            s'.w_active == 0 && s'.r_active == 0 && 0 < s'.w_wait ==> AwakeWriter(s'.pcs)
  {
    if a.Step? && (s.pcs[a.t] == RdEnd || s.pcs[a.t] == WrEnd) {
      ReleaseWakes(s, a.t, a.wake);
    } else if s.w_active == 0 && s.r_active == 0 && 0 < s.w_wait {
      var u :| 0 <= u < |s.pcs| && (s.pcs[u] == WrAwake || s.pcs[u] == WrTest(true));
      assert Do(s, a).pcs[u] == s.pcs[u] || u == a.t;
    }
  }

  /** Whoever leaves the lock free while writers wait has woken one, unless one is awake anyway. */
  lemma ReleaseWakes(s: State, t: nat, wake: nat)
    requires Inv(s) && Enabled(s, Step(t, wake)) && (s.pcs[t] == RdEnd || s.pcs[t] == WrEnd)
    ensures var s' := Inside(s, t, wake);
            s'.w_active == 0 && s'.r_active == 0 && 0 < s'.w_wait ==> AwakeWriter(s'.pcs)
  {
    if 0 < s.w_wait {
      CountSome(WrWaiter, s.pcs);
      var u :| 0 <= u < |s.pcs| && Plays(WrWaiter, s.pcs[u]);
      var pcs := s.pcs[t := EndExit];
      assert pcs[u] == s.pcs[u];
      if SomeAsleepWriter(s.pcs) {
        assert Signal(pcs, wake)[wake] == WrAwake;
      } else {
        assert s.pcs[u] != WrAsleep;
        assert Signal(pcs, wake)[u] == s.pcs[u];
      }
    }
  }

  lemma ReadersKept(s: State, a: Action)
    requires Inv(s) && Enabled(s, a)
    ensures var s' := Do(s, a); s'.w_active == 0 && s'.w_wait == 0 ==> RdAsleep !in s'.pcs
  {
    if a.Step? && s.pcs[a.t] == WrEnd {
      if s.w_wait == 0 {
        BroadcastWakes(s, a.t, a.wake);
      }
    } else if s.w_active == 0 && s.w_wait == 0 {
      assert forall u :: 0 <= u < |s.pcs| ==> s.pcs[u] != RdAsleep;
    }
  }

  /** When no writer is left waiting, the releasing writer leaves no reader asleep. */
  lemma BroadcastWakes(s: State, t: nat, wake: nat)
    requires Inv(s) && t < |s.pcs| && s.pcs[t] == WrEnd && s.w_wait == 0
    ensures RdAsleep !in Inside(s, t, wake).pcs
  {
    CountSome(RdWaiter, s.pcs);
    assert forall u :: 0 <= u < |s.pcs| && s.pcs[u] == RdAsleep ==> Plays(RdWaiter, s.pcs[u]);
  }

  lemma HoldersKept(s: State, a: Action)
    requires Inv(s) && Enabled(s, a)
    ensures var s' := Do(s, a); s'.w_active <= 1 && (s'.w_active == 1 ==> s'.r_active == 0)
  {
    CountSome(Reader, s.pcs);
    CountSome(Writer, s.pcs);
    assert a.Step? && s.pcs[a.t] == RdEnd ==> Plays(Reader, s.pcs[a.t]);
  }

  /** Every step keeps the invariant. */
  lemma StepInv(s: State, a: Action)
    requires Inv(s) && Enabled(s, a)
    ensures Inv(Do(s, a))
  {
    CountersKept(s, a);
    MutexKept(s, a);
    HoldersKept(s, a);
    AwakeKept(s, a);
    ReadersKept(s, a);
  }

  // ---------- Runs ----------

  ghost predicate Run(run: seq<State>, acts: seq<Action>) {
    && |run| == |acts| + 1 && Init(run[0])
    && forall k :: 0 <= k < |acts| ==> StepsTo(run[k], acts[k], run[k + 1])
  }

  ghost predicate StepsTo(s: State, a: Action, s': State) {
    Enabled(s, a) && s' == Do(s, a)
  }

  lemma {:induction false} ReachableInv(run: seq<State>, acts: seq<Action>, k: nat)
    requires Run(run, acts) && k < |run|
    ensures Inv(run[k])
  {
    if k == 0 {
      InitInv(run[0]);
    } else {
      ReachableInv(run, acts, k - 1);
      assert StepsTo(run[k - 1], acts[k - 1], run[k - 1 + 1]);
      StepInv(run[k - 1], acts[k - 1]);
    }
  }

  predicate Holds(p: Pc) {
    Plays(Reader, p) || Plays(Writer, p)
  }

  /** A thread that holds the lock for writing is alone with it. */
  lemma WriterExcludes(run: seq<State>, acts: seq<Action>, k: nat, t: nat, u: nat)
    requires Run(run, acts) && k < |run| && t < |run[k].pcs| && u < |run[k].pcs| && t != u
    requires Plays(Writer, run[k].pcs[t])
    ensures !Holds(run[k].pcs[u])
  {
    ReachableInv(run, acts, k);
    var pcs := run[k].pcs;
    CountSome(Reader, pcs);
    // without t there would be no writer
    CountUpdate(Writer, pcs, t, Out);
    CountSome(Writer, pcs[t := Out]);
    assert pcs[t := Out][u] == pcs[u];
  }

  /** The counters say how many threads hold the lock and how many wait for it. */
  lemma CountersAreThreads(run: seq<State>, acts: seq<Action>, k: nat)
    requires Run(run, acts) && k < |run|
    ensures CountersOk(run[k])
  {
    ReachableInv(run, acts, k);
  }

  /**
   * No waiter is stranded: when the lock is free and writers wait, one of them has been woken; when no
   * writer holds the lock or waits, no reader is asleep.
   */
  lemma NoneStranded(run: seq<State>, acts: seq<Action>, k: nat)
    requires Run(run, acts) && k < |run|
    requires forall t :: 0 <= t < |run[k].pcs| ==> !Plays(Writer, run[k].pcs[t])
    ensures (exists t :: 0 <= t < |run[k].pcs| && Plays(WrWaiter, run[k].pcs[t])) ==>
              (exists t :: 0 <= t < |run[k].pcs| && Plays(Reader, run[k].pcs[t])) || AwakeWriter(run[k].pcs)
    ensures (forall t :: 0 <= t < |run[k].pcs| ==> !Plays(WrWaiter, run[k].pcs[t])) ==> RdAsleep !in run[k].pcs
  {
    ReachableInv(run, acts, k);
    CountSome(Reader, run[k].pcs);
    CountSome(Writer, run[k].pcs);
    CountSome(WrWaiter, run[k].pcs);
  }

  /** The threads are never all asleep: one that sleeps can count on another that holds the lock or is on its way. */
  lemma NeverAllAsleep(run: seq<State>, acts: seq<Action>, k: nat, t: nat)
    requires Run(run, acts) && k < |run| && t < |run[k].pcs| && Asleep(run[k].pcs[t])
    ensures exists u :: 0 <= u < |run[k].pcs| &&
              (Holds(run[k].pcs[u]) || run[k].pcs[u] == WrAwake || run[k].pcs[u] == WrTest(true))
  {
    ReachableInv(run, acts, k);
    var pcs := run[k].pcs;
    CountSome(Reader, pcs);
    CountSome(Writer, pcs);
    CountSome(WrWaiter, pcs);
    assert pcs[t] == WrAsleep ==> Plays(WrWaiter, pcs[t]);
    assert AwakeWriter(pcs) ==> exists u :: 0 <= u < |pcs| && (pcs[u] == WrAwake || pcs[u] == WrTest(true));
  }

  /** Writers have preference: no thread comes to hold the lock for reading while a writer holds it or waits. */
  lemma NoReaderOvertakes(run: seq<State>, acts: seq<Action>, k: nat)
    requires Run(run, acts) && k < |acts| && run[k + 1].r_active > run[k].r_active
    ensures forall t :: 0 <= t < |run[k].pcs| ==> !Plays(Writer, run[k].pcs[t]) && !Plays(WrWaiter, run[k].pcs[t])
  {
    ReachableInv(run, acts, k);
    assert StepsTo(run[k], acts[k], run[k + 1]);
    CountSome(Writer, run[k].pcs);
    CountSome(WrWaiter, run[k].pcs);
  }

  /**
   * The lock is only ever deleted, rather than reported busy, when no thread holds it or waits for it; and then it
   * is.
   */
  lemma DeletedWhenUnused(run: seq<State>, acts: seq<Action>, k: nat)
    requires Run(run, acts) && k < |acts| && acts[k].Step? && acts[k].t < |run[k].pcs|
    requires run[k].pcs[acts[k].t] == DelTest && run[k].valid
    ensures !run[k + 1].valid <==>
              forall t, r :: 0 <= t < |run[k].pcs| ==> !Plays(r, run[k].pcs[t])
  {
    ReachableInv(run, acts, k);
    assert StepsTo(run[k], acts[k], run[k + 1]);
    forall r ensures 0 < Count(r, run[k].pcs) <==> exists t :: 0 <= t < |run[k].pcs| && Plays(r, run[k].pcs[t]) {
      CountSome(r, run[k].pcs);
    }
    var s := run[k];
    var waiting := 0 < Count(RdWaiter, s.pcs) || 0 < Count(WrWaiter, s.pcs);
    assert run[k + 1].valid <==> 0 < Count(Reader, s.pcs) || 0 < Count(Writer, s.pcs) || waiting;
  }
}
