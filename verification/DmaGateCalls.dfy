/**
 * What one call of bf_pop_free_buf or bf_push_free_buf amounts to: it takes effect exactly once, its
 * answer is that effect, and while threads are in calls some call returns.
 */
module DmaGateCalls {
  import opened Wrappers
  import opened DmaGate

  // ---------- One effect each ----------

  predicate Begins(a: Action, t: nat) {
    a == Alloc(t) || (a.Release? && a.t == t)
  }

  /** The last call that thread t has begun. */
  function LastCall(acts: seq<Action>, t: nat): Option<Action> {
    if acts == [] then None
    else if Begins(acts[|acts| - 1], t) then Some(acts[|acts| - 1])
    else LastCall(acts[..|acts| - 1], t)
  }

  /** What thread t has done to the stack since then. */
  function Since(run: seq<State>, acts: seq<Action>, k: nat, t: nat): seq<StackOp>
    requires k <= |acts| < |run|
  {
    if k == 0 || Begins(acts[k - 1], t) then []
    else Since(run, acts, k - 1, t) + if acts[k - 1] == Step(t) then Effect(run[k - 1], acts[k - 1]) else []
  }

  /** The effects `done` are what a finished call comes to. */
  predicate Whole(call: Option<Action>, done: seq<StackOp>) {
    match call
    case None => done == []
    case Some(Alloc(_)) => |done| == 1 && !done[0].Push?
    case Some(Release(_, b)) => done == [Push(b)]
    case Some(Step(_)) => false
  }

  /** A thread's place fits its call and what it has done. */
  predicate Fits(p: Pc, call: Option<Action>, done: seq<StackOp>) {
    match p
    case Out => Whole(call, done)
    case PopOpen(b) => call.Some? && call.value.Alloc? && done == [Pop(b)]
    case PopFail => call.Some? && call.value.Alloc? && done == [PopNone]
    case PushSpin(b) => call.Some? && call.value.Release? && call.value.b == b && done == []
    case PushTest(b) => call.Some? && call.value.Release? && call.value.b == b && done == []
    case PushBack(b) => call.Some? && call.value.Release? && call.value.b == b && done == []
    case PushStore(b) => call.Some? && call.value.Release? && call.value.b == b && done == []
    case PushOpen => call.Some? && call.value.Release? && done == [Push(call.value.b)]
    case PushFail(_) => false
    case _ => call.Some? && call.value.Alloc? && done == []
  }

  lemma StepFits(s: State, t: nat, call: Option<Action>, done: seq<StackOp>)
    requires Inv(s) && Enabled(s, Step(t)) && Fits(s.pcs[t], call, done)
    requires s.pcs[t].PushTest? ==> 0 < s.offset
    ensures t < |StepOf(s, t).pcs| && Fits(StepOf(s, t).pcs[t], call, done + Effect(s, Step(t)))
  {
    assert ThreadOk(s, s.pcs[t]);
    assert done + [] == done;
  }

  lemma {:induction false} CallsFit(run: seq<State>, acts: seq<Action>, k: nat, t: nat)
    requires Run(run, acts) && k < |run| && t < |run[k].pcs|
    ensures Fits(run[k].pcs[t], LastCall(acts[..k], t), Since(run, acts, k, t))
  {
    if k != 0 {
      var s, a := run[k - 1], acts[k - 1];
      assert StepsTo(run[k - 1], acts[k - 1], run[k - 1 + 1]);
      assert acts[..k][..k - 1] == acts[..k - 1] && acts[..k][k - 1] == a;
      CallsFit(run, acts, k - 1, t);
      ReachableInv(run, acts, k - 1);
      if a == Step(t) {
        if s.pcs[t].PushTest? {
          RoomForBuffer(s, t);
        }
        StepFits(s, t, LastCall(acts[..k - 1], t), Since(run, acts, k - 1, t));
      } else {
        assert Since(run, acts, k - 1, t) + [] == Since(run, acts, k - 1, t);
      }
    }
  }

  /**
   * When a call returns it has taken effect exactly once, and that is what its caller learns: a buffer
   * it holds from then on is the one popped, none means that nothing was left, and the buffer given back
   * is the one pushed.
   */
  lemma CallTakesEffectOnce(run: seq<State>, acts: seq<Action>, k: nat, t: nat)
    requires Run(run, acts) && k < |acts| && acts[k] == Step(t) && t < |run[k + 1].pcs| && run[k + 1].pcs[t] == Out
    ensures var call, done := LastCall(acts[..k], t), Since(run, acts, k, t);
            && call.Some? && Whole(call, done)
            && run[k + 1].held == run[k].held + (if done[0].Pop? then {done[0].b} else {})
  {
    assert StepsTo(run[k], acts[k], run[k + 1]);
    CallsFit(run, acts, k, t);
  }

  // ---------- Some call returns ----------

  /** A call of thread t returns. */
  predicate Returns(s: State, s': State, t: nat) {
    t < |s.pcs| && t < |s'.pcs| && s.pcs[t] != Out && s'.pcs[t] == Out
  }

  ghost predicate StepAt(run: nat -> State, acts: nat -> Action, k: nat) {
    StepsTo(run(k), acts(k), run(k + 1))
  }

  ghost predicate Runs(run: nat -> State, acts: nat -> Action) {
    Inv(run(0)) && forall k: nat :: StepAt(run, acts, k)
  }

  ghost predicate Turn(acts: nat -> Action, k: nat, m: nat, t: nat) {
    k <= m && acts(m) == Step(t)
  }

  ghost predicate GoesOn(run: nat -> State, acts: nat -> Action, k: nat, t: nat) {
    t < |run(k).pcs| && run(k).pcs[t] != Out ==> exists m: nat :: Turn(acts, k, m, t)
  }

  /** A thread in a call goes on sooner or later. */
  ghost predicate Fair(run: nat -> State, acts: nat -> Action) {
    forall k: nat, t: nat :: GoesOn(run, acts, k, t)
  }

  lemma {:induction false} RunsInv(run: nat -> State, acts: nat -> Action, k: nat)
    requires Runs(run, acts)
    ensures Inv(run(k))
  {
    if k != 0 {
      RunsInv(run, acts, k - 1);
      assert StepAt(run, acts, k - 1);
      StepInv(run(k - 1), acts(k - 1));
    }
  }

  lemma OthersStay(s: State, a: Action, t: nat)
    requires Enabled(s, a) && t < |s.pcs| && a != Step(t) && s.pcs[t] != Out
    ensures t < |Do(s, a).pcs| && Do(s, a).pcs[t] == s.pcs[t]
  {
  }

  /** A thread's next step finds it where it is. */
  lemma {:induction false} NextTurn(run: nat -> State, acts: nat -> Action, k: nat, m: nat, t: nat) returns (n: nat)
    requires Runs(run, acts) && Turn(acts, k, m, t) && t < |run(k).pcs| && run(k).pcs[t] != Out
    ensures k <= n && acts(n) == Step(t) && t < |run(n).pcs| && run(n).pcs[t] == run(k).pcs[t]
    decreases m - k
  {
    n := k;
    if acts(k) != Step(t) {
      assert StepAt(run, acts, k);
      OthersStay(run(k), acts(k), t);
      n := NextTurn(run, acts, k + 1, m, t);
    }
  }

  lemma TakesTurn(run: nat -> State, acts: nat -> Action, k: nat, t: nat) returns (n: nat)
    requires Runs(run, acts) && Fair(run, acts) && t < |run(k).pcs| && run(k).pcs[t] != Out
    ensures k <= n && acts(n) == Step(t) && t < |run(n).pcs| && run(n).pcs[t] == run(k).pcs[t]
    ensures Inv(run(n)) && StepsTo(run(n), Step(t), run(n + 1))
  {
    assert GoesOn(run, acts, k, t);
    var m: nat :| Turn(acts, k, m, t);
    n := NextTurn(run, acts, k, m, t);
    assert StepAt(run, acts, n);
    RunsInv(run, acts, n);
  }

  /** How many steps a thread that is inside has still to make at most. */
  function ToOpen(p: Pc): nat
    requires Inside(p)
  {
    match p
    case PopTest => 4
    case PopRead => 3
    case PopAdvance(_) => 2
    case PushTest(_) => 4
    case PushBack(_) => 3
    case PushStore(_) => 2
    case _ => 1
  }

  /** A thread inside the gate never waits: it leaves and opens the gate, or comes nearer to that. */
  lemma InsideStep(s: State, t: nat)
    requires Enabled(s, Step(t)) && Inside(s.pcs[t])
    ensures var s' := StepOf(s, t);
            && t < |s'.pcs|
            && if Inside(s'.pcs[t]) then ToOpen(s'.pcs[t]) < ToOpen(s.pcs[t]) else s'.pcs[t] == Out && !s'.gate
  {
  }

  lemma {:induction false} InsideReturns(run: nat -> State, acts: nat -> Action, k: nat, t: nat) returns (n: nat)
    requires Runs(run, acts) && Fair(run, acts) && t < |run(k).pcs| && Inside(run(k).pcs[t])
    ensures k <= n && Returns(run(n), run(n + 1), t) && !run(n + 1).gate
    decreases ToOpen(run(k).pcs[t])
  {
    n := TakesTurn(run, acts, k, t);
    InsideStep(run(n), t);
    if Inside(run(n + 1).pcs[t]) {
      n := InsideReturns(run, acts, n + 1, t);
    }
  }

  /**
   * While a thread is in a call, sooner or later some call returns and opens the gate: a spinning thread
   * enters an open gate, and the gate does not stay closed.
   */
  lemma SomeCallReturns(run: nat -> State, acts: nat -> Action, k: nat, u: nat) returns (n: nat, t: nat)
    requires Runs(run, acts) && Fair(run, acts) && u < |run(k).pcs| && run(k).pcs[u] != Out
    ensures k <= n && Returns(run(n), run(n + 1), t) && !run(n + 1).gate
  {
    var m := TakesTurn(run, acts, k, u);
    t := u;
    if Inside(run(k).pcs[u]) {
      n := InsideReturns(run, acts, k, u);
    } else if run(m).gate {
      t :| t < |run(m).pcs| && Inside(run(m).pcs[t]);
      n := InsideReturns(run, acts, m, t);
    } else {
      n := InsideReturns(run, acts, m + 1, u);
    }
  }
}
