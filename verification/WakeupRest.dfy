/**
 * The loop comes to rest: once nothing more is sent and nothing else keeps it from blocking, it has fed
 * every watcher, has emptied the pipe and sleeps, however many bytes were in the pipe and wherever the
 * senders were.
 */
module WakeupRest {
  import opened Wakeup
  import opened WakeupProgress

  /** pipecb resets an eventfd, and takes up to four bytes from a pipe, all of them if there are no more. */
  lemma ReadEmpties(s: State)
    requires Shaped(s) && s.loop == ReadPipe(true)
    ensures var left := PipecbStep(s).pipe;
            && (s.eventfd || s.pipe <= 4 ==> left == 0) && (0 < s.pipe ==> left < s.pipe)
            && (!s.eventfd && 4 <= s.pipe ==> left + 4 == s.pipe)
  {
  }

  // ---------- What a call costs ----------

  /** A call that finds the flag of its channel raised ends at once, and has only marked its watcher. */
  lemma RaisedIsEnough(s: State, t: nat, c: nat, i: nat)
    requires Shaped(s) && Enabled(s, Begin(t, c, i)) && s.flags[c]
    ensures var b := Do(s, Begin(t, c, i));
            && Shaped(b) && Enabled(b, Continue(t)) && Do(b, Continue(t)) == s.(marks := b.marks)
            && b.marks[c][i].sent
            && (forall d, j :: 0 <= d < |s.marks| && 0 <= j < |s.marks[d]| && !(d == c && j == i) ==>
                  b.marks[d][j] == s.marks[d][j])
  {
    var b := Do(s, Begin(t, c, i));
    assert b.senders[t := Idle] == s.senders;
  }

  predicate Writes(p: SendPc) {
    p == ClearSkipped || p == WritePipe
  }

  /** How many senders are about to write. */
  function Writers(senders: seq<SendPc>): nat {
    if senders == [] then 0 else One(Writes(senders[0])) + Writers(senders[1..])
  }

  lemma {:induction false} WritersAfter(senders: seq<SendPc>, t: nat, p: SendPc)
    requires t < |senders|
    ensures Writers(senders[t := p]) == Writers(senders) - One(Writes(senders[t])) + One(Writes(p))
  {
    if t == 0 {
      assert senders[t := p][1..] == senders[1..];
    } else {
      assert senders[t := p][1..] == senders[1..][t - 1 := p];
      WritersAfter(senders[1..], t - 1, p);
    }
  }

  lemma SenderWrites(s: State, t: nat)
    requires Shaped(s) && t < |s.senders| && s.senders[t] != Idle
    ensures var s' := SenderStep(s, t);
            s'.pipe + Writers(s'.senders) <= s.pipe + Writers(s.senders) + One(s.wanted)
  {
    var p := SenderStep(s, t).senders[t];
    assert SenderStep(s, t).senders == s.senders[t := p];
    WritersAfter(s.senders, t, p);
  }

  lemma PipecbLeavesSenders(s: State)
    requires Shaped(s) && InPipecb(s.loop)
    ensures PipecbStep(s).senders == s.senders && PipecbStep(s).pipe <= s.pipe
  {
  }

  lemma RunLeavesSenders(s: State, nowait: bool)
    requires !s.loop.Poll? && !InPipecb(s.loop)
    ensures RunStep(s, nowait).senders == s.senders && RunStep(s, nowait).pipe == s.pipe
  {
  }

  lemma LoopLeavesSenders(s: State, a: Action)
    requires Shaped(s) && Enabled(s, a) && LoopActs(a)
    ensures Do(s, a).senders == s.senders && Do(s, a).pipe <= s.pipe
  {
    if a.Advance? {
      if InPipecb(s.loop) {
        PipecbLeavesSenders(s);
      } else {
        RunLeavesSenders(s, a.nowait);
      }
    }
  }

  /**
   * The bytes in the pipe and those still to be written become more only while the loop is about to
   * block, blocks or has just woken, and then by one: otherwise nobody writes.
   */
  lemma WrittenWhenWanted(s: State, a: Action)
    requires Inv(s) && Enabled(s, a)
    ensures var s' := Do(s, a);
            s'.pipe + Writers(s'.senders) <= s.pipe + Writers(s.senders) +
              One(s.loop.TestSkipped? || s.loop.Poll? || s.loop.ClearWanted?)
  {
    match a
    case Begin(t, c, _) => WritersAfter(s.senders, t, TestFlag(c));
    case Continue(t) => SenderWrites(s, t);
    case _ => LoopLeavesSenders(s, a);
  }

  // ---------- The senders finish ----------

  /** How many steps a sender has still to make at most. */
  function CallLeft(p: SendPc): nat {
    match p
    case Idle => 0
    case WritePipe => 1
    case ClearSkipped => 2
    case TestWanted => 3
    case SetSkipped => 4
    case SetFlag(_) => 5
    case TestFlag(_) => 6
  }

  function CallsLeft(senders: seq<SendPc>): nat {
    if senders == [] then 0 else CallLeft(senders[0]) + CallsLeft(senders[1..])
  }

  lemma {:induction false} OneFurther(senders: seq<SendPc>, t: nat, p: SendPc)
    requires t < |senders|
    ensures CallsLeft(senders[t := p]) == CallsLeft(senders) - CallLeft(senders[t]) + CallLeft(p)
  {
    if t == 0 {
      assert senders[t := p][1..] == senders[1..];
    } else {
      assert senders[t := p][1..] == senders[1..][t - 1 := p];
      OneFurther(senders[1..], t - 1, p);
    }
  }

  predicate AllIdle(s: State) {
    forall t :: 0 <= t < |s.senders| ==> s.senders[t] == Idle
  }

  /** From k on no call begins, and the loop has no other reason not to block. */
  ghost predicate Quiet(run: nat -> State, acts: nat -> Action, k: nat) {
    forall j: nat :: k <= j ==> QuietStep(run(j), acts(j))
  }

  predicate QuietStep(s: State, a: Action) {
    !a.Begin? && (s.loop == TestSkipped ==> a != Advance(true))
  }

  lemma CallFinishes(s: State, t: nat)
    requires Shaped(s) && t < |s.senders| && s.senders[t] != Idle
    ensures CallsLeft(SenderStep(s, t).senders) < CallsLeft(s.senders)
  {
    var p := SenderStep(s, t).senders[t];
    assert CallLeft(p) < CallLeft(s.senders[t]);
    assert SenderStep(s, t).senders == s.senders[t := p];
    OneFurther(s.senders, t, p);
  }

  /** A step that begins no call brings the senders no further from their ends, and one of theirs brings them nearer. */
  lemma CallsFinish(s: State, a: Action)
    requires Shaped(s) && Enabled(s, a) && !a.Begin?
    ensures CallsLeft(Do(s, a).senders) <= CallsLeft(s.senders)
    ensures a.Continue? ==> CallsLeft(Do(s, a).senders) < CallsLeft(s.senders)
    ensures AllIdle(s) ==> AllIdle(Do(s, a)) && LoopActs(a)
  {
    if a.Continue? {
      CallFinishes(s, a.t);
    } else {
      LoopLeavesSenders(s, a);
    }
  }

  lemma {:induction false} CallsFinishUntil(run: nat -> State, acts: nat -> Action, k: nat, m: nat)
    requires Runs(run, acts) && Quiet(run, acts, k) && k <= m
    ensures CallsLeft(run(m).senders) <= CallsLeft(run(k).senders)
    decreases m - k
  {
    if k < m {
      assert StepAt(run, acts, k) && QuietStep(run(k), acts(k));
      CallsFinish(run(k), acts(k));
      CallsFinishUntil(run, acts, k + 1, m);
    }
  }

  lemma {:induction false} SendersFinish(run: nat -> State, acts: nat -> Action, k: nat) returns (n: nat)
    requires Runs(run, acts) && Fair(run, acts) && Quiet(run, acts, k)
    ensures k <= n && AllIdle(run(n))
    decreases CallsLeft(run(k).senders)
  {
    n := k;
    if !AllIdle(run(k)) {
      var t: nat :| t < |run(k).senders| && run(k).senders[t] != Idle;
      assert SenderGoesOn(run, acts, k, t);
      var m: nat :| SenderTurn(acts, k, m, t);
      CallsFinishUntil(run, acts, k, m);
      assert StepAt(run, acts, m) && QuietStep(run(m), acts(m));
      CallsFinish(run(m), acts(m));
      n := SendersFinish(run, acts, m + 1);
    }
  }

  // ---------- The loop empties the pipe and blocks ----------

  /** The loop sleeps, and nothing is left that would wake it or that it should have woken for. */
  predicate Resting(s: State) {
    && AllIdle(s) && s.loop == Poll(true) && s.pipe == 0 && !s.skipped
    && (forall c :: 0 <= c < |s.flags| ==> !s.flags[c])
    && (forall c, i :: 0 <= c < |s.marks| && 0 <= i < |s.marks[c]| ==> !s.marks[c][i].sent)
  }

  /** How far the loop is from reading a pipe that is not empty. */
  function ToRead(s: State): nat {
    match s.loop
    case ReadPipe(readable) => if readable then 0 else 8
    case Invoke => if !s.pending then 7 else if s.readable then 1 else 9
    case Recheck => if s.pending && s.readable then 2 else 10
    case ClearWanted => if s.pending && s.readable then 3 else 11
    case Poll(_) => 4
    case TestSkipped => 5
    case SetWanted => 6
    case _ => 8
  }

  /** How far it is from clearing `skipped`, when the pipe is empty. */
  function ToReset(s: State): nat {
    match s.loop
    case ResetSkipped => 0
    case ReadPipe(_) => 1
    case Invoke => if s.pending then 2 else 8
    case Recheck => 3
    case ClearWanted => 4
    case Poll(_) => 5
    case TestSkipped => 6
    case SetWanted => 7
    case _ => 9
  }

  /** How far it is from blocking, when there is neither. */
  function ToBlock(s: State): nat {
    match s.loop
    case Poll(block) => if block then 0 else 8
    case TestSkipped => 1
    case SetWanted => 2
    case Invoke => if s.pending then 5 else 3
    case Recheck => 6
    case ClearWanted => 7
    case _ => 4
  }

  function Rank(s: State): nat {
    if 0 < s.pipe then ToRead(s) else if s.skipped then ToReset(s) else ToBlock(s)
  }

  function One(b: bool): nat {
    if b then 1 else 0
  }

  ghost predicate Calmer(s': State, s: State)
    requires Shaped(s) && Shaped(s')
  {
    (s.pipe, One(s.skipped), Rank(s), ChannelsToGo(s), StepsToGo(s) decreases to
       s'.pipe, One(s'.skipped), Rank(s'), ChannelsToGo(s'), StepsToGo(s'))
  }

  /** Where nothing is left to wake it, the loop rests only when nothing is left to feed. */
  lemma NothingLeft(s: State)
    requires Inv(s) && AllIdle(s) && s.loop == Poll(true) && s.pipe == 0
    ensures Resting(s)
  {
    forall c | 0 <= c < |s.flags| ensures !s.flags[c] {
      assert s.flags[c] ==> FlagSafe(s, c);
    }
    forall c, i | 0 <= c < |s.marks| && 0 <= i < |s.marks[c]| ensures !s.marks[c][i].sent {
      assert s.marks[c][i].sent ==> MarkSafe(s, c, i);
    }
  }

  lemma LoopCalms(s: State, a: Action)
    requires Inv(s) && AllIdle(s) && !(s.loop == Poll(true) && s.pipe == 0)
    requires LoopActs(a) && Enabled(s, a) && Prompt(s, a) && QuietStep(s, a)
    ensures Shaped(Do(s, a)) && Calmer(Do(s, a), s)
  {
    StepInv(s, a);
    if a.Advance? && InPipecb(s.loop) {
      PipecbGoesOn(s);
    }
  }

  lemma {:induction false} RestFrom(run: nat -> State, acts: nat -> Action, k: nat) returns (n: nat)
    requires Runs(run, acts) && Quiet(run, acts, k) && AllIdle(run(k)) && Inv(run(k))
    ensures k <= n && Resting(run(n))
    decreases run(k).pipe, One(run(k).skipped), Rank(run(k)), ChannelsToGo(run(k)), StepsToGo(run(k))
  {
    n := k;
    if run(k).loop == Poll(true) && run(k).pipe == 0 {
      NothingLeft(run(k));
    } else {
      assert StepAt(run, acts, k) && QuietStep(run(k), acts(k));
      CallsFinish(run(k), acts(k));
      LoopCalms(run(k), acts(k));
      StepInv(run(k), acts(k));
      n := RestFrom(run, acts, k + 1);
    }
  }

  /**
   * When no call begins any more and nothing else keeps the loop from blocking, it comes to rest again
   * and again: it sleeps, the pipe is empty, and no flag is raised and no watcher marked.
   */
  lemma ComesToRest(run: nat -> State, acts: nat -> Action, k: nat) returns (n: nat)
    requires Runs(run, acts) && Fair(run, acts) && Quiet(run, acts, k)
    ensures k <= n && Resting(run(n))
  {
    var m := SendersFinish(run, acts, k);
    RunsInv(run, acts, m);
    n := RestFrom(run, acts, m);
  }

  /** At rest, nothing but a new call or another reason than the pipe makes a difference. */
  lemma RestsUntilSent(s: State, a: Action)
    requires Shaped(s) && Resting(s) && Enabled(s, a) && Prompt(s, a)
    ensures a.Begin? || a == Wake(false, true)
  {
    if a.Continue? {
      assert s.senders[a.t] == Idle;
    }
  }
}
