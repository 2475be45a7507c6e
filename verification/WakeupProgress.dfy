/**
 * Every watcher that is sent is fed, while any number of senders go on sending: how far a sent watcher is
 * from being fed never grows, and shrinks whenever the loop, or the sender it depends on, goes on.
 */
module WakeupProgress {
  import opened Wakeup

  predicate SomeAt(senders: seq<SendPc>, p: SendPc) {
    exists t :: 0 <= t < |senders| && senders[t] == p
  }

  /**
   * How far a sent watcher is from being fed: 0 pipecb will visit it, 1 pipecb will test its flag, 2 pipecb
   * is pending, 3 the pipe can be read, 4 a sender will write, 5 `skipped` is set, 6 a sender will set it,
   * 7 a sender will raise the flag, 8 a sender will test the flag.
   */
  function Stage(s: State, c: nat, i: nat): nat
    requires c < |s.flags|
  {
    if WillVisit(s, c, i) then 0
    else if s.flags[c] then RaisedStage(WillTest(s, c), s.pending, s.pipe, SomeAt(s.senders, WritePipe), s.skipped)
    else if SomeAt(s.senders, SetFlag(c)) then 7
    else 8
  }

  /** The stages of a watcher whose flag is raised. */
  function RaisedStage(test: bool, pending: bool, pipe: nat, write: bool, skipped: bool): nat {
    if test then 1
    else if pending then 2
    else if 0 < pipe then 3
    else if write then 4
    else if skipped then 5
    else 6
  }

  /** Whether a stage ends by the loop's going on. */
  predicate ByLoop(stage: nat) {
    stage <= 3 || stage == 5
  }

  /** Where the loop is on its way through such a stage. */
  function Phase(stage: nat, p: LoopPc): nat {
    match p
    case ReadPipe(_) => 8
    case ResetSkipped => 7
    case Invoke => if stage == 5 then 5 else if stage == 3 then 3 else 0
    case SetWanted => if stage == 5 then 4 else 2
    case TestSkipped => if stage == 5 then 3 else 1
    case Poll(_) => if stage == 5 then 2 else 0
    case ClearWanted => if stage == 5 then 1 else if stage == 3 then 5 else 2
    case Recheck => if stage == 5 then 0 else if stage == 3 then 4 else 1
    case _ => 6
  }

  /** The place within the stage, in three parts. */
  function PhaseLeft(s: State, c: nat, i: nat): nat
    requires c < |s.flags|
  {
    if ByLoop(Stage(s, c, i)) then Phase(Stage(s, c, i), s.loop) else 0
  }

  function ChannelsLeft(s: State, c: nat, i: nat): nat
    requires Shaped(s) && c < |s.flags|
  {
    if ByLoop(Stage(s, c, i)) then ChannelsToGo(s) else 0
  }

  function StepsLeft(s: State, c: nat, i: nat): nat
    requires Shaped(s) && c < |s.flags|
  {
    if ByLoop(Stage(s, c, i)) then StepsToGo(s) else 0
  }

  ghost predicate Nearer(s': State, s: State, c: nat, i: nat)
    requires Shaped(s) && Shaped(s') && c < |s.flags| && c < |s'.flags|
  {
    (Stage(s, c, i), PhaseLeft(s, c, i), ChannelsLeft(s, c, i), StepsLeft(s, c, i) decreases to
       Stage(s', c, i), PhaseLeft(s', c, i), ChannelsLeft(s', c, i), StepsLeft(s', c, i))
  }

  predicate SamePlace(s': State, s: State, c: nat, i: nat)
    requires Shaped(s) && Shaped(s') && c < |s.flags| && c < |s'.flags|
  {
    && Stage(s', c, i) == Stage(s, c, i) && PhaseLeft(s', c, i) == PhaseLeft(s, c, i)
    && ChannelsLeft(s', c, i) == ChannelsLeft(s, c, i) && StepsLeft(s', c, i) == StepsLeft(s, c, i)
  }

  /** A watcher that has been sent and not yet been fed. */
  predicate Marked(s: State, c: nat, i: nat) {
    c < |s.marks| && i < |s.marks[c]| && s.marks[c][i].sent
  }

  /** In a state in which this is sure to be noticed. */
  predicate Sent(s: State, c: nat, i: nat) {
    Inv(s) && c < |s.flags| && Marked(s, c, i)
  }

  predicate Fed(s: State, s': State, c: nat, i: nat) {
    c < |s.marks| && c < |s'.marks| && i < |s.marks[c]| && i < |s'.marks[c]| && s.marks[c][i].fed < s'.marks[c][i].fed
  }

  /** Still waiting to be fed, and no further away. */
  ghost predicate Kept(s: State, s': State, c: nat, i: nat)
    requires Sent(s, c, i)
  {
    && Sent(s', c, i) && s'.marks[c][i] == s.marks[c][i]
    && (Nearer(s', s, c, i) || SamePlace(s', s, c, i))
  }

  // ---------- One step ----------

  /** The sender on which a stage depends. */
  predicate Helps(s: State, t: nat, c: nat, i: nat)
    requires c < |s.flags|
  {
    t < |s.senders| &&
    match Stage(s, c, i)
    case 4 => s.senders[t] == WritePipe
    case 5 => s.senders[t] == ClearSkipped
    case 6 => s.senders[t] == SetSkipped
    case 7 => s.senders[t] == SetFlag(c)
    case 8 => s.senders[t] == TestFlag(c)
    case _ => false
  }

  lemma OthersAt(senders: seq<SendPc>, t: nat, p: SendPc, q: SendPc)
    requires t < |senders|
    ensures SomeAt(senders, q) && senders[t] != q ==> SomeAt(senders[t := p], q)
    ensures p == q ==> SomeAt(senders[t := p], q)
    ensures SomeAt(senders[t := p], q) ==> p == q || SomeAt(senders, q)
  {
    var after := senders[t := p];
    assert after[t] == p;
    if SomeAt(senders, q) {
      var u :| 0 <= u < |senders| && senders[u] == q;
      assert u == t || after[u] == q;
    }
  }

  /** A sender's step leaves the loop and the marks alone. */
  lemma SenderFrame(s: State, t: nat, c: nat, i: nat)
    requires Sent(s, c, i) && t < |s.senders| && s.senders[t] != Idle
    ensures var s' := SenderStep(s, t);
            Sent(s', c, i) && s'.loop == s.loop && s'.marks == s.marks && |s'.flags| == |s.flags|
  {
    SenderInv(s, t);
    SenderSizes(s, t);
  }

  /** The sender takes the watcher no further away, and nearer if the watcher's stage depends on it. */
  predicate NoFurther(s: State, t: nat, c: nat, i: nat)
    requires Shaped(s) && t < |s.senders| && s.senders[t] != Idle && c < |s.flags| && c < |SenderStep(s, t).flags|
  {
    && Stage(SenderStep(s, t), c, i) <= Stage(s, c, i)
    && (Helps(s, t, c, i) ==> Stage(SenderStep(s, t), c, i) < Stage(s, c, i))
  }

  lemma SenderStage(s: State, t: nat, c: nat, i: nat)
    requires Shaped(s) && c < |s.flags| && t < |s.senders| && s.senders[t] != Idle
    ensures c < |SenderStep(s, t).flags| && NoFurther(s, t, c, i)
  {
    match s.senders[t]
    case TestFlag(_) => TestFlagStage(s, t, c, i);
    case SetFlag(_) => SetFlagStage(s, t, c, i);
    case SetSkipped => SetSkippedStage(s, t, c, i);
    case TestWanted => TestWantedStage(s, t, c, i);
    case ClearSkipped => ClearSkippedStage(s, t, c, i);
    case WritePipe => WritePipeStage(s, t, c, i);
  }

  lemma TestFlagStage(s: State, t: nat, c: nat, i: nat)
    requires Shaped(s) && c < |s.flags| && t < |s.senders| && s.senders[t].TestFlag?
    ensures c < |SenderStep(s, t).flags| && NoFurther(s, t, c, i)
  {
    OthersAt(s.senders, t, SenderStep(s, t).senders[t], WritePipe);
    OthersAt(s.senders, t, SenderStep(s, t).senders[t], SetFlag(c));
  }

  lemma SetFlagStage(s: State, t: nat, c: nat, i: nat)
    requires Shaped(s) && c < |s.flags| && t < |s.senders| && s.senders[t].SetFlag?
    ensures c < |SenderStep(s, t).flags| && NoFurther(s, t, c, i)
  {
    OthersAt(s.senders, t, SenderStep(s, t).senders[t], WritePipe);
    OthersAt(s.senders, t, SenderStep(s, t).senders[t], SetFlag(c));
  }

  lemma SetSkippedStage(s: State, t: nat, c: nat, i: nat)
    requires Shaped(s) && c < |s.flags| && t < |s.senders| && s.senders[t] == SetSkipped
    ensures c < |SenderStep(s, t).flags| && NoFurther(s, t, c, i)
  {
    OthersAt(s.senders, t, SenderStep(s, t).senders[t], WritePipe);
    OthersAt(s.senders, t, SenderStep(s, t).senders[t], SetFlag(c));
  }

  lemma TestWantedStage(s: State, t: nat, c: nat, i: nat)
    requires Shaped(s) && c < |s.flags| && t < |s.senders| && s.senders[t] == TestWanted
    ensures c < |SenderStep(s, t).flags| && NoFurther(s, t, c, i)
  {
    OthersAt(s.senders, t, SenderStep(s, t).senders[t], WritePipe);
    OthersAt(s.senders, t, SenderStep(s, t).senders[t], SetFlag(c));
  }

  lemma ClearSkippedStage(s: State, t: nat, c: nat, i: nat)
    requires Shaped(s) && c < |s.flags| && t < |s.senders| && s.senders[t] == ClearSkipped
    ensures c < |SenderStep(s, t).flags| && NoFurther(s, t, c, i)
  {
    OthersAt(s.senders, t, SenderStep(s, t).senders[t], WritePipe);
    OthersAt(s.senders, t, SenderStep(s, t).senders[t], SetFlag(c));
  }

  lemma WritePipeStage(s: State, t: nat, c: nat, i: nat)
    requires Shaped(s) && c < |s.flags| && t < |s.senders| && s.senders[t] == WritePipe
    ensures c < |SenderStep(s, t).flags| && NoFurther(s, t, c, i)
  {
    OthersAt(s.senders, t, SenderStep(s, t).senders[t], WritePipe);
    OthersAt(s.senders, t, SenderStep(s, t).senders[t], SetFlag(c));
  }

  lemma BeginStage(s: State, a: Action, c: nat, i: nat)
    requires Sent(s, c, i) && a.Begin? && Enabled(s, a)
    ensures Sent(Do(s, a), c, i) && Do(s, a).loop == s.loop && Do(s, a).marks[c][i] == s.marks[c][i]
    ensures SameSizes(s, Do(s, a)) && Stage(Do(s, a), c, i) == Stage(s, c, i)
  {
    BeginInv(s, a.t, a.c, a.i);
    OthersAt(s.senders, a.t, TestFlag(a.c), WritePipe);
    OthersAt(s.senders, a.t, TestFlag(a.c), SetFlag(c));
  }

  /**
   * A sender that goes on or comes in takes the watcher no further away, and the one it depends on brings it nearer.
   */
  lemma SenderAdvances(s: State, a: Action, c: nat, i: nat)
    requires Sent(s, c, i) && (a.Begin? || a.Continue?) && Enabled(s, a)
    ensures Kept(s, Do(s, a), c, i)
    ensures a.Continue? && Helps(s, a.t, c, i) ==> Nearer(Do(s, a), s, c, i)
  {
    if a.Begin? {
      BeginStage(s, a, c, i);
    } else {
      SenderFrame(s, a.t, c, i);
      SenderStage(s, a.t, c, i);
    }
  }

  /** The loop goes on; the kernel reports the pipe whenever it can be read. */
  predicate Prompt(s: State, a: Action) {
    a.Wake? ==> a.notice == (0 < s.pipe)
  }

  predicate LoopActs(a: Action) {
    a.Advance? || a.Wake?
  }

  lemma WakeAdvances(s: State, a: Action, c: nat, i: nat)
    requires Sent(s, c, i) && a.Wake? && Enabled(s, a) && Prompt(s, a)
    ensures Kept(s, Do(s, a), c, i) && (ByLoop(Stage(s, c, i)) ==> Nearer(Do(s, a), s, c, i))
  {
    StepInv(s, a);
  }

  /** The watcher is fed, or the loop goes on towards it or to the end of the stage. */
  ghost predicate Advances(s: State, s': State, c: nat, i: nat)
    requires Shaped(s) && Shaped(s') && c < |s.flags| && c < |s'.flags|
  {
    Fed(s, s', c, i) ||
    (i < |s.marks[c]| && i < |s'.marks[c]| && s'.marks[c][i] == s.marks[c][i] &&
     (Nearer(s', s, c, i) || (SamePlace(s', s, c, i) && !ByLoop(Stage(s, c, i)))))
  }

  lemma PipecbAdvances(s: State, c: nat, i: nat)
    requires Sent(s, c, i) && InPipecb(s.loop)
    ensures Fed(s, PipecbStep(s), c, i) ||
            (Kept(s, PipecbStep(s), c, i) && (ByLoop(Stage(s, c, i)) ==> Nearer(PipecbStep(s), s, c, i)))
  {
    PipecbInv(s);
    PipecbSizes(s);
    if s.loop.Scan? {
      ScanAdvances(s, c, i);
    } else if s.loop.ClearMark? {
      ClearAdvances(s, c, i);
    } else {
      TestAdvances(s, c, i);
    }
  }

  /** pipecb makes a step, and watcher i of channel c has been sent. */
  predicate Steps(s: State, c: nat, i: nat) {
    && Shaped(s) && InPipecb(s.loop) && Shaped(PipecbStep(s)) && SameSizes(s, PipecbStep(s))
    && c < |s.flags| && i < |s.marks[c]| && s.marks[c][i].sent
  }

  lemma ScanAdvances(s: State, c: nat, i: nat)
    requires Steps(s, c, i) && s.loop.Scan?
    ensures Advances(s, PipecbStep(s), c, i)
  {
    if s.loop.left == 0 {
      ScanEnds(s, c, i);
    } else if s.marks[s.loop.c][s.loop.left - 1].sent {
      ScanFinds(s, c, i);
    } else {
      ScanSkips(s, c, i);
    }
  }

  lemma ScanEnds(s: State, c: nat, i: nat)
    requires Steps(s, c, i) && s.loop.Scan? && s.loop.left == 0
    ensures Advances(s, PipecbStep(s), c, i)
  {
  }

  lemma ScanFinds(s: State, c: nat, i: nat)
    requires Steps(s, c, i) && s.loop.Scan? && 0 < s.loop.left && s.marks[s.loop.c][s.loop.left - 1].sent
    ensures Advances(s, PipecbStep(s), c, i)
  {
  }

  lemma ScanSkips(s: State, c: nat, i: nat)
    requires Steps(s, c, i) && s.loop.Scan? && 0 < s.loop.left && !s.marks[s.loop.c][s.loop.left - 1].sent
    ensures Advances(s, PipecbStep(s), c, i)
  {
  }

  lemma ClearAdvances(s: State, c: nat, i: nat)
    requires Steps(s, c, i) && s.loop.ClearMark?
    ensures Advances(s, PipecbStep(s), c, i)
  {
  }

  lemma TestAdvances(s: State, c: nat, i: nat)
    requires Steps(s, c, i) && LoopOk(s) && !s.loop.Scan? && !s.loop.ClearMark?
    ensures Advances(s, PipecbStep(s), c, i)
  {
    if s.loop.TestChannel? {
      ChannelAdvances(s, c, i);
    } else {
      EntryAdvances(s, c, i);
    }
  }

  lemma ChannelAdvances(s: State, c: nat, i: nat)
    requires Steps(s, c, i) && LoopOk(s) && s.loop.TestChannel?
    ensures Advances(s, PipecbStep(s), c, i)
  {
  }

  lemma EntryAdvances(s: State, c: nat, i: nat)
    requires Steps(s, c, i) && LoopOk(s) && (s.loop.ReadPipe? || s.loop.ResetSkipped? || s.loop.ClearFlag?)
    ensures Advances(s, PipecbStep(s), c, i)
  {
  }

  lemma RunAdvances(s: State, nowait: bool, c: nat, i: nat)
    requires Sent(s, c, i) && !s.loop.Poll? && !InPipecb(s.loop)
    ensures Kept(s, RunStep(s, nowait), c, i) && (ByLoop(Stage(s, c, i)) ==> Nearer(RunStep(s, nowait), s, c, i))
  {
    RunInv(s, nowait);
    if s.loop.Invoke? {
      InvokeAdvances(s, nowait, c, i);
    } else {
      OthersAdvance(s, nowait, c, i);
    }
  }

  lemma InvokeAdvances(s: State, nowait: bool, c: nat, i: nat)
    requires Shaped(s) && LoopOk(s) && s.loop.Invoke? && c < |s.flags| && i < |s.marks[c]|
    ensures Shaped(RunStep(s, nowait)) && Advances(s, RunStep(s, nowait), c, i)
  {
  }

  lemma OthersAdvance(s: State, nowait: bool, c: nat, i: nat)
    requires Shaped(s) && LoopOk(s) && !s.loop.Poll? && !InPipecb(s.loop) && !s.loop.Invoke?
    requires c < |s.flags| && i < |s.marks[c]|
    ensures Shaped(RunStep(s, nowait)) && Advances(s, RunStep(s, nowait), c, i)
  {
  }

  lemma LoopAdvances(s: State, a: Action, c: nat, i: nat)
    requires Sent(s, c, i) && LoopActs(a) && Enabled(s, a) && Prompt(s, a)
    ensures Fed(s, Do(s, a), c, i) ||
            (Kept(s, Do(s, a), c, i) && (ByLoop(Stage(s, c, i)) ==> Nearer(Do(s, a), s, c, i)))
  {
    if a.Wake? {
      WakeAdvances(s, a, c, i);
    } else if InPipecb(s.loop) {
      PipecbAdvances(s, c, i);
    } else {
      RunAdvances(s, a.nowait, c, i);
    }
  }

  // ---------- Infinite runs ----------

  ghost predicate StepAt(run: nat -> State, acts: nat -> Action, k: nat) {
    Shaped(run(k)) && Enabled(run(k), acts(k)) && Prompt(run(k), acts(k)) && run(k + 1) == Do(run(k), acts(k))
  }

  /** Any interleaving of the loop's steps with those of any number of senders, who may start new calls at any time. */
  ghost predicate Runs(run: nat -> State, acts: nat -> Action) {
    Inv(run(0)) && forall k: nat :: StepAt(run, acts, k)
  }

  /** The loop need not wait for anything: in particular not for another reason to wake than the pipe. */
  predicate LoopReady(s: State) {
    s.loop == Poll(true) ==> 0 < s.pipe
  }

  ghost predicate LoopTurn(run: nat -> State, acts: nat -> Action, k: nat, m: nat) {
    k <= m && (LoopActs(acts(m)) || !LoopReady(run(m)))
  }

  ghost predicate SenderTurn(acts: nat -> Action, k: nat, m: nat, t: nat) {
    k <= m && acts(m) == Continue(t)
  }

  ghost predicate LoopGoesOn(run: nat -> State, acts: nat -> Action, k: nat) {
    exists m: nat :: LoopTurn(run, acts, k, m)
  }

  ghost predicate SenderGoesOn(run: nat -> State, acts: nat -> Action, k: nat, t: nat) {
    t < |run(k).senders| && run(k).senders[t] != Idle ==> exists m: nat :: SenderTurn(acts, k, m, t)
  }

  /** The loop goes on sooner or later, unless it comes to wait, and so does every sender in a call. */
  ghost predicate Fair(run: nat -> State, acts: nat -> Action) {
    && (forall k: nat :: LoopGoesOn(run, acts, k))
    && (forall k: nat, t: nat :: SenderGoesOn(run, acts, k, t))
  }

  /** From k to n the watcher has been fed or come nearer to it. */
  ghost predicate Progress(s: State, s': State, c: nat, i: nat)
    requires Sent(s, c, i)
  {
    Fed(s, s', c, i) || (Sent(s', c, i) && s'.marks[c][i] == s.marks[c][i] && Nearer(s', s, c, i))
  }

  lemma AnyStep(run: nat -> State, acts: nat -> Action, k: nat, c: nat, i: nat)
    requires Runs(run, acts) && Sent(run(k), c, i)
    ensures Fed(run(k), run(k + 1), c, i) || Kept(run(k), run(k + 1), c, i)
    ensures LoopActs(acts(k)) && ByLoop(Stage(run(k), c, i)) ==> Progress(run(k), run(k + 1), c, i)
    ensures acts(k).Continue? && Helps(run(k), acts(k).t, c, i) ==> Progress(run(k), run(k + 1), c, i)
  {
    assert StepAt(run, acts, k);
    if LoopActs(acts(k)) {
      LoopAdvances(run(k), acts(k), c, i);
    } else {
      SenderAdvances(run(k), acts(k), c, i);
    }
  }

  lemma ProgressOn(s: State, s': State, s'': State, c: nat, i: nat)
    requires Sent(s, c, i) && Kept(s, s', c, i) && Progress(s', s'', c, i)
    ensures Progress(s, s'', c, i)
  {
  }

  lemma OtherSenders(s: State, a: Action, t: nat)
    requires Shaped(s) && Enabled(s, a) && t < |s.senders| && a != Continue(t) && s.senders[t] != Idle
    ensures t < |Do(s, a).senders| && Do(s, a).senders[t] == s.senders[t]
    ensures !LoopActs(a) ==> Do(s, a).loop == s.loop
  {
    if a.Begin? || a.Continue? {
      SenderLocal(s, a);
    }
  }

  /** While the loop's turn is still to come it stays where it is, and is ready. */
  lemma {:induction false} ToLoop(run: nat -> State, acts: nat -> Action, k: nat, m: nat, c: nat, i: nat)
    returns (n: nat)
    requires Runs(run, acts) && Sent(run(k), c, i) && LoopTurn(run, acts, k, m)
    requires ByLoop(Stage(run(k), c, i)) && (Stage(run(k), c, i) == 5 ==> run(k).loop != Poll(true))
    ensures k < n && Progress(run(k), run(n), c, i)
    decreases m - k
  {
    AnyStep(run, acts, k, c, i);
    assert StepAt(run, acts, k);
    n := k + 1;
    if !Progress(run(k), run(n), c, i) {
      WaitsReady(run(k), c, i);
      StaysThere(run(k), acts(k));
      n := ToLoop(run, acts, k + 1, m, c, i);
      ProgressOn(run(k), run(k + 1), run(n), c, i);
    }
  }

  lemma WaitsReady(s: State, c: nat, i: nat)
    requires Sent(s, c, i) && ByLoop(Stage(s, c, i)) && (Stage(s, c, i) == 5 ==> s.loop != Poll(true))
    ensures LoopReady(s)
  {
  }

  lemma StaysThere(s: State, a: Action)
    requires Shaped(s) && Enabled(s, a) && !LoopActs(a)
    ensures Do(s, a).loop == s.loop
  {
    SenderLocal(s, a);
  }

  /** Until the sender on which a stage depends goes on, either something else helps or it stays there. */
  lemma {:induction false} ToSender(run: nat -> State, acts: nat -> Action, k: nat, m: nat, t: nat, c: nat, i: nat)
    returns (n: nat)
    requires Runs(run, acts) && Sent(run(k), c, i) && SenderTurn(acts, k, m, t) && Helps(run(k), t, c, i)
    ensures k < n && Progress(run(k), run(n), c, i)
    decreases m - k
  {
    AnyStep(run, acts, k, c, i);
    assert StepAt(run, acts, k);
    n := k + 1;
    if !Progress(run(k), run(n), c, i) {
      OtherSenders(run(k), acts(k), t);
      n := ToSender(run, acts, k + 1, m, t, c, i);
      ProgressOn(run(k), run(k + 1), run(n), c, i);
    }
  }

  /** The same for a sender that finds, while the loop sleeps, that a wakeup is wanted. */
  lemma {:induction false} ToWanted(run: nat -> State, acts: nat -> Action, k: nat, m: nat, t: nat, c: nat, i: nat)
    returns (n: nat)
    requires Runs(run, acts) && Sent(run(k), c, i) && SenderTurn(acts, k, m, t)
    requires Stage(run(k), c, i) == 5 && run(k).loop == Poll(true)
    requires t < |run(k).senders| && run(k).senders[t] == TestWanted
    ensures k < n
    ensures Progress(run(k), run(n), c, i) || (Kept(run(k), run(n), c, i) && Helps(run(n), t, c, i))
    decreases m - k
  {
    AnyStep(run, acts, k, c, i);
    assert StepAt(run, acts, k);
    n := k + 1;
    if !Progress(run(k), run(n), c, i) && acts(k) != Continue(t) {
      OtherSenders(run(k), acts(k), t);
      n := ToWanted(run, acts, k + 1, m, t, c, i);
    }
  }

  /** Sooner or later there is progress. */
  lemma Sooner(run: nat -> State, acts: nat -> Action, k: nat, c: nat, i: nat) returns (n: nat)
    requires Runs(run, acts) && Fair(run, acts) && Sent(run(k), c, i)
    ensures k < n && Progress(run(k), run(n), c, i)
  {
    var s := run(k);
    var stage := Stage(s, c, i);
    if ByLoop(stage) && (stage == 5 ==> s.loop != Poll(true)) {
      assert LoopGoesOn(run, acts, k);
      var m: nat :| LoopTurn(run, acts, k, m);
      n := ToLoop(run, acts, k, m, c, i);
    } else if stage == 5 {
      var t: nat :| t < |s.senders| && (s.senders[t] == TestWanted || s.senders[t] == ClearSkipped);
      assert SenderGoesOn(run, acts, k, t);
      var m: nat :| SenderTurn(acts, k, m, t);
      if s.senders[t] == ClearSkipped {
        n := ToSender(run, acts, k, m, t, c, i);
      } else {
        var h := ToWanted(run, acts, k, m, t, c, i);
        n := h;
        if !Progress(s, run(h), c, i) {
          assert SenderGoesOn(run, acts, h, t);
          var l: nat :| SenderTurn(acts, h, l, t);
          n := ToSender(run, acts, h, l, t, c, i);
          ProgressOn(s, run(h), run(n), c, i);
        }
      }
    } else {
      var t := Helper(s, c, i);
      assert SenderGoesOn(run, acts, k, t);
      var m: nat :| SenderTurn(acts, k, m, t);
      n := ToSender(run, acts, k, m, t, c, i);
    }
  }

  lemma Helper(s: State, c: nat, i: nat) returns (t: nat)
    requires Sent(s, c, i) && !ByLoop(Stage(s, c, i))
    ensures Helps(s, t, c, i) && s.senders[t] != Idle
  {
    assert MarkSafe(s, c, i) && (s.flags[c] ==> FlagSafe(s, c));
    var p := match Stage(s, c, i)
             case 4 => WritePipe
             case 6 => SetSkipped
             case 7 => SetFlag(c)
             case _ => TestFlag(c);
    t :| t < |s.senders| && s.senders[t] == p;
  }

  lemma {:induction false} RunsInv(run: nat -> State, acts: nat -> Action, k: nat)
    requires Runs(run, acts)
    ensures Inv(run(k))
  {
    if k != 0 {
      RunsInv(run, acts, k - 1);
      assert StepAt(run, acts, k - 1);
      StepInv(run(k - 1), acts(k - 1));
    }
  }

  lemma {:induction false} FedFrom(run: nat -> State, acts: nat -> Action, k: nat, c: nat, i: nat) returns (n: nat)
    requires Runs(run, acts) && Fair(run, acts) && Sent(run(k), c, i)
    ensures k < n && Fed(run(k), run(n), c, i)
    decreases Stage(run(k), c, i), PhaseLeft(run(k), c, i), ChannelsLeft(run(k), c, i), StepsLeft(run(k), c, i)
  {
    n := Sooner(run, acts, k, c, i);
    if !Fed(run(k), run(n), c, i) {
      n := FedFrom(run, acts, n, c, i);
    }
  }

  /**
   * Every watcher that has been sent is fed, whatever else is sent meanwhile: in every interleaving in which
   * senders that are in a call go on sooner or later, and so does the loop whenever it is not waiting.
   */
  lemma SentIsFed(run: nat -> State, acts: nat -> Action, k: nat, c: nat, i: nat) returns (n: nat)
    requires Runs(run, acts) && Fair(run, acts) && Marked(run(k), c, i)
    ensures k < n && Fed(run(k), run(n), c, i)
  {
    RunsInv(run, acts, k);
    n := FedFrom(run, acts, k, c, i);
  }

  /** Nor is such a run ever at its end: the loop or a sender can go on, without another reason to wake. */
  lemma NeverStuck(s: State, c: nat, i: nat)
    requires Sent(s, c, i)
    ensures LoopReady(s) || exists t :: 0 <= t < |s.senders| && s.senders[t] != Idle
  {
    if !LoopReady(s) {
      if s.flags[c] || !FlagComing(s.senders, c) {
        StillWaking(s, c, i);
      }
    }
  }
}
