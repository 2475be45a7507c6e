/**
 * Calls on the reader/writer lock return: some call does, again and again, however often threads that
 * sleep wake up for nothing, provided that the mutex is fair and those who hold the lock give it back.
 */
module RwLockProgress {
  import opened RwLock

  /** In a call, and so not at liberty to leave the lock alone. */
  predicate InCall(p: Pc) {
    !p.Out? && !p.Reading? && !p.Writing?
  }

  /** A call of thread t returns. */
  predicate Returns(s: State, s': State, t: nat) {
    t < |s.pcs| && t < |s'.pcs| && InCall(s.pcs[t]) && !InCall(s'.pcs[t])
  }

  ghost predicate StepAt(run: nat -> State, acts: nat -> Action, k: nat) {
    StepsTo(run(k), acts(k), run(k + 1))
  }

  ghost predicate Runs(run: nat -> State, acts: nat -> Action) {
    Inv(run(0)) && forall k: nat :: StepAt(run, acts, k)
  }

  ghost predicate Turn(acts: nat -> Action, k: nat, m: nat, t: nat) {
    k <= m && acts(m).t == t
  }

  /** A thread that has or wants the mutex, or holds the lock, goes on sooner or later. */
  ghost predicate GoesOn(run: nat -> State, acts: nat -> Action, k: nat, t: nat) {
    t < |run(k).pcs| && run(k).pcs[t] != Out && !Asleep(run(k).pcs[t]) ==> exists m: nat :: Turn(acts, k, m, t)
  }

  ghost predicate Fair(run: nat -> State, acts: nat -> Action) {
    forall k: nat, t: nat :: GoesOn(run, acts, k, t)
  }

  lemma {:induction false} RunsInv(run: nat -> State, acts: nat -> Action, k: nat)
    requires Runs(run, acts)
    ensures Inv(run(k))
  {
    if k != 0 {
      RunsInv(run, acts, k - 1);
      assert StepAt(run, acts, k - 1);
      StepInv(run(k - 1), acts(k - 1));
    }
  }

  /** Only its own steps move a thread that is not asleep. */
  lemma OthersStay(s: State, a: Action, t: nat)
    requires Enabled(s, a) && t < |s.pcs| && a.t != t && !Asleep(s.pcs[t])
    ensures t < |Do(s, a).pcs| && Do(s, a).pcs[t] == s.pcs[t]
  {
  }

  /** A thread's next step finds it where it is. */
  lemma {:induction false} NextTurn(run: nat -> State, acts: nat -> Action, k: nat, m: nat, t: nat) returns (n: nat)
    requires Runs(run, acts) && Turn(acts, k, m, t) && t < |run(k).pcs| && !Asleep(run(k).pcs[t])
    ensures k <= n && acts(n).t == t && t < |run(n).pcs| && run(n).pcs[t] == run(k).pcs[t]
    decreases m - k
  {
    n := k;
    if acts(k).t != t {
      assert StepAt(run, acts, k);
      OthersStay(run(k), acts(k), t);
      n := NextTurn(run, acts, k + 1, m, t);
    }
  }

  lemma TakesTurn(run: nat -> State, acts: nat -> Action, k: nat, t: nat) returns (n: nat)
    requires Runs(run, acts) && Fair(run, acts)
    requires t < |run(k).pcs| && run(k).pcs[t] != Out && !Asleep(run(k).pcs[t])
    ensures k <= n && acts(n).t == t && t < |run(n).pcs| && run(n).pcs[t] == run(k).pcs[t]
    ensures Enabled(run(n), acts(n)) && run(n + 1) == Do(run(n), acts(n)) && Inv(run(n))
  {
    assert GoesOn(run, acts, k, t);
    var m: nat :| Turn(acts, k, m, t);
    n := NextTurn(run, acts, k, m, t);
    assert StepAt(run, acts, n);
    RunsInv(run, acts, n);
  }

  /** How many steps a thread is from the end of a call that nothing holds up any more; 0 when something may. */
  function ToReturn(p: Pc): nat {
    match p
    case RdExit => 1
    case WrExit => 1
    case EndExit => 1
    case RdEnd => 2
    case WrEnd => 2
    case DelTest => 2
    case RdEndCall => 3
    case WrEndCall => 3
    case DelCall => 3
    case Reading => 4
    case Writing => 4
    case _ => 0
  }

  predicate Committed(s: State, t: nat) {
    t < |s.pcs| && 0 < ToReturn(s.pcs[t])
  }

  /** Such a thread's own step ends the call or brings it nearer to its end. */
  lemma CommittedStep(s: State, a: Action)
    requires Enabled(s, a) && Committed(s, a.t)
    ensures a.t < |Do(s, a).pcs|
    ensures Returns(s, Do(s, a), a.t) || 0 < ToReturn(Do(s, a).pcs[a.t]) < ToReturn(s.pcs[a.t])
  {
  }

  lemma {:induction false} CommittedReturns(run: nat -> State, acts: nat -> Action, k: nat, t: nat) returns (n: nat)
    requires Runs(run, acts) && Fair(run, acts) && Committed(run(k), t)
    ensures k <= n && Returns(run(n), run(n + 1), t)
    decreases ToReturn(run(k).pcs[t])
  {
    n := TakesTurn(run, acts, k, t);
    CommittedStep(run(n), acts(n));
    if !Returns(run(n), run(n + 1), t) {
      n := CommittedReturns(run, acts, n + 1, t);
    }
  }

  predicate NoneCommitted(s: State) {
    forall t :: 0 <= t < |s.pcs| ==> !Committed(s, t)
  }

  /** Whoever holds the lock is committed to give it back. */
  lemma NoHolders(s: State)
    requires Inv(s) && NoneCommitted(s)
    ensures s.r_active == s.w_active == 0
  {
    CountSome(Reader, s.pcs);
    CountSome(Writer, s.pcs);
    assert forall t :: 0 <= t < |s.pcs| && (Plays(Reader, s.pcs[t]) || Plays(Writer, s.pcs[t])) ==> Committed(s, t);
  }

  predicate WriterOnItsWay(p: Pc) {
    p.WrCall? || p.WrAwake? || p.WrTest?
  }

  predicate ReaderOnItsWay(p: Pc) {
    p.RdCall? || p.RdAwake? || p.RdTest?
  }

  /** With nobody holding the lock, a writer that comes to test the condition gets it. */
  lemma WriterStep(s: State, a: Action, s': State)
    requires Inv(s) && StepsTo(s, a, s') && NoneCommitted(s) && a.t < |s.pcs| && WriterOnItsWay(s.pcs[a.t])
    ensures a.t < |s'.pcs|
    ensures if s.pcs[a.t].WrTest? then Committed(s', a.t) else s'.pcs[a.t].WrTest?
  {
    NoHolders(s);
  }

  /** A thread takes its turn, or a call returns before. */
  lemma TurnOrReturn(run: nat -> State, acts: nat -> Action, k: nat, u: nat) returns (m: nat, t: nat)
    requires Runs(run, acts) && Fair(run, acts)
    requires u < |run(k).pcs| && run(k).pcs[u] != Out && !Asleep(run(k).pcs[u])
    ensures k <= m
    ensures Returns(run(m), run(m + 1), t) ||
            (u < |run(m).pcs| && run(m).pcs[u] == run(k).pcs[u] && acts(m).t == u && NoneCommitted(run(m)) &&
             Inv(run(m)))
  {
    t := u;
    m := TakesTurn(run, acts, k, u);
    if c: nat :| Committed(run(m), c) {
      t := c;
      m := CommittedReturns(run, acts, m, c);
    }
  }

  lemma {:induction false} WriterGoesOn(run: nat -> State, acts: nat -> Action, k: nat, u: nat)
    returns (n: nat, t: nat)
    requires Runs(run, acts) && Fair(run, acts) && u < |run(k).pcs| && WriterOnItsWay(run(k).pcs[u])
    ensures k <= n && Returns(run(n), run(n + 1), t)
    decreases !run(k).pcs[u].WrTest?
  {
    n, t := TurnOrReturn(run, acts, k, u);
    if !Returns(run(n), run(n + 1), t) {
      assert StepAt(run, acts, n);
      WriterStep(run(n), acts(n), run(n + 1));
      if Committed(run(n + 1), u) {
        t := u;
        n := CommittedReturns(run, acts, n + 1, u);
      } else {
        n, t := WriterGoesOn(run, acts, n + 1, u);
      }
    }
  }

  lemma AwakeWriterGoesOn(run: nat -> State, acts: nat -> Action, k: nat) returns (n: nat, t: nat)
    requires Runs(run, acts) && Fair(run, acts) && AwakeWriter(run(k).pcs)
    ensures k <= n && Returns(run(n), run(n + 1), t)
  {
    var u: nat :| u < |run(k).pcs| && (run(k).pcs[u] == WrAwake || run(k).pcs[u] == WrTest(true));
    n, t := WriterGoesOn(run, acts, k, u);
  }

  /** A reader that comes to test the condition gets the lock, or a writer is on its way to it. */
  lemma ReaderStep(s: State, a: Action, s': State)
    requires Inv(s) && StepsTo(s, a, s') && NoneCommitted(s) && a.t < |s.pcs| && ReaderOnItsWay(s.pcs[a.t])
    ensures a.t < |s'.pcs|
    ensures if s.pcs[a.t].RdTest? then Committed(s', a.t) || AwakeWriter(s.pcs) else s'.pcs[a.t].RdTest?
  {
    NoHolders(s);
    CountSome(WrWaiter, s.pcs);
  }

  lemma {:induction false} ReaderGoesOn(run: nat -> State, acts: nat -> Action, k: nat, u: nat)
    returns (n: nat, t: nat)
    requires Runs(run, acts) && Fair(run, acts) && u < |run(k).pcs| && ReaderOnItsWay(run(k).pcs[u])
    ensures k <= n && Returns(run(n), run(n + 1), t)
    decreases !run(k).pcs[u].RdTest?
  {
    n, t := TurnOrReturn(run, acts, k, u);
    if !Returns(run(n), run(n + 1), t) {
      assert StepAt(run, acts, n);
      ReaderStep(run(n), acts(n), run(n + 1));
      if Committed(run(n + 1), u) {
        t := u;
        n := CommittedReturns(run, acts, n + 1, u);
      } else if AwakeWriter(run(n).pcs) {
        n, t := AwakeWriterGoesOn(run, acts, n);
      } else {
        n, t := ReaderGoesOn(run, acts, n + 1, u);
      }
    }
  }

  /** Who sleeps while nobody holds the lock can count on a writer that has been woken. */
  lemma SleepersCountOn(s: State, u: nat)
    requires Inv(s) && NoneCommitted(s) && u < |s.pcs| && Asleep(s.pcs[u])
    ensures AwakeWriter(s.pcs)
  {
    NoHolders(s);
    CountSome(WrWaiter, s.pcs);
    assert s.pcs[u] == WrAsleep ==> Plays(WrWaiter, s.pcs[u]);
  }

  /**
   * While a thread is in a call, sooner or later some call returns: the lock is never stuck, neither the
   * mutex nor the conditions, in any run in which whoever has or wants the mutex goes on sooner or later
   * and whoever holds the lock gives it back.
   */
  lemma SomeCallReturns(run: nat -> State, acts: nat -> Action, k: nat, u: nat) returns (n: nat, t: nat)
    requires Runs(run, acts) && Fair(run, acts) && u < |run(k).pcs| && InCall(run(k).pcs[u])
    ensures k <= n && Returns(run(n), run(n + 1), t)
  {
    RunsInv(run, acts, k);
    if c: nat :| Committed(run(k), c) {
      t := c;
      n := CommittedReturns(run, acts, k, c);
    } else if WriterOnItsWay(run(k).pcs[u]) {
      n, t := WriterGoesOn(run, acts, k, u);
    } else if ReaderOnItsWay(run(k).pcs[u]) {
      n, t := ReaderGoesOn(run, acts, k, u);
    } else {
      assert !Committed(run(k), u);
      SleepersCountOn(run(k), u);
      n, t := AwakeWriterGoesOn(run, acts, k);
    }
  }
}
