/**
 * How other threads and signal handlers wake the loop: evpipe_write, pipecb and the part of ev_run that
 * decides whether to block, as interleaved atomic steps of any number of senders and one loop.
 */
module Wakeup {

  /**
   * Where a sender is. It has marked its watcher (`sent`, or the `pending` of a signal) before it tests
   * the flag of its channel.
   */
  datatype SendPc = Idle | TestFlag(c: nat) | SetFlag(c: nat) | SetSkipped | TestWanted | ClearSkipped | WritePipe

  /** Where the loop is: about to do what the name says. */
  datatype LoopPc =
    | SetWanted
    | TestSkipped
    | Poll(block: bool)
    | ClearWanted
    | Recheck
    | Invoke
    | ReadPipe(readable: bool)      // from here on, pipecb
    | ResetSkipped
    | TestChannel(c: nat)
    | ClearFlag(c: nat)
    | Scan(c: nat, left: nat)       // so many watchers are still to be looked at, from the last one down
    | ClearMark(c: nat, i: nat)

  /** signals [i].pending or asyncs [i]->sent, and how often ev_feed_event has been called for it. */
  datatype Mark = Mark(sent: bool, fed: nat)

  /**
   * The channels are signals and asyncs; nothing depends on there being two. `pending` is the pending
   * status of pipe_w, with EV_READ set (`readable`) when the kernel has reported the pipe.
   */
  datatype State = State(
    flags: seq<bool>,            // sig_pending, async_pending
    marks: seq<seq<Mark>>,       // signals, asyncs
    skipped: bool,               // pipe_write_skipped
    wanted: bool,                // pipe_write_wanted
    pipe: nat,                   // unread bytes, or the count of the eventfd
    eventfd: bool,
    pending: bool,
    readable: bool,
    loop: LoopPc,
    senders: seq<SendPc>)

  datatype Action =
    | Begin(t: nat, c: nat, i: nat)               // a sender marks watcher i of channel c
    | Continue(t: nat)                            // a sender goes on
    | Wake(notice: bool, other: bool)             // the kernel wait returns, perhaps for other reasons
    | Advance(nowait: bool)                       // the loop goes on; nowait: it has other reasons not to block

  predicate Shaped(s: State) {
    && |s.flags| == |s.marks|
    && (forall t :: 0 <= t < |s.senders| ==> SenderOk(s.senders[t], |s.flags|))
    && LoopPcOk(s.loop, s.marks)
  }

  predicate LoopPcOk(p: LoopPc, marks: seq<seq<Mark>>) {
    && (p.TestChannel? ==> p.c <= |marks|)
    && (p.ClearFlag? || p.Scan? || p.ClearMark? ==> p.c < |marks|)
    && (p.Scan? ==> p.left <= |marks[p.c]|)
    && (p.ClearMark? ==> p.i < |marks[p.c]| && marks[p.c][p.i].sent)
  }

  predicate SenderOk(p: SendPc, channels: nat) {
    p.TestFlag? || p.SetFlag? ==> p.c < channels
  }

  predicate Enabled(s: State, a: Action)
    requires Shaped(s)
  {
    match a
    case Begin(t, c, i) => t < |s.senders| && s.senders[t] == Idle && c < |s.marks| && i < |s.marks[c]|
    case Continue(t) => t < |s.senders| && s.senders[t] != Idle
    case Wake(notice, other) =>
      s.loop.Poll? && (notice ==> 0 < s.pipe) && (s.loop.block ==> 0 < s.pipe || other)
    case Advance(_) => !s.loop.Poll?
  }

  /** evpipe_write after the mark. */
  function SenderStep(s: State, t: nat): State
    requires Shaped(s) && t < |s.senders| && s.senders[t] != Idle
  {
    match s.senders[t]
    case TestFlag(c) => s.(senders := s.senders[t := if s.flags[c] then Idle else SetFlag(c)])
    case SetFlag(c) => s.(senders := s.senders[t := SetSkipped], flags := s.flags[c := true])
    case SetSkipped => s.(senders := s.senders[t := TestWanted], skipped := true)
    case TestWanted => s.(senders := s.senders[t := if s.wanted then ClearSkipped else Idle])
    case ClearSkipped => s.(senders := s.senders[t := WritePipe], skipped := false)
    case WritePipe => s.(senders := s.senders[t := Idle], pipe := s.pipe + 1)
  }

  /** What read() leaves: an eventfd is reset, a pipe loses up to four bytes. */
  function AfterRead(s: State): nat {
    if s.eventfd || s.pipe < 4 then 0 else s.pipe - 4
  }

  predicate InPipecb(p: LoopPc) {
    p.ReadPipe? || p.ResetSkipped? || p.TestChannel? || p.ClearFlag? || p.Scan? || p.ClearMark?
  }

  /** ev_run outside of the kernel wait. */
  function RunStep(s: State, nowait: bool): State
    requires !s.loop.Poll? && !InPipecb(s.loop)
  {
    match s.loop
    case SetWanted => s.(wanted := true, loop := TestSkipped)
    case TestSkipped => s.(loop := Poll(!(nowait || s.skipped)))
    case ClearWanted => s.(wanted := false, loop := Recheck)
    case Recheck => s.(pending := s.pending || s.skipped, loop := Invoke)
    case Invoke =>
      if s.pending then s.(pending := false, readable := false, loop := ReadPipe(s.readable))
      else s.(loop := SetWanted)
  }

  function PipecbStep(s: State): State
    requires Shaped(s) && InPipecb(s.loop)
  {
    match s.loop
    case ReadPipe(readable) => s.(pipe := if readable then AfterRead(s) else s.pipe, loop := ResetSkipped)
    case ResetSkipped => s.(skipped := false, loop := TestChannel(0))
    case TestChannel(c) =>
      if c == |s.flags| then s.(loop := Invoke)
      else if s.flags[c] then s.(loop := ClearFlag(c))
      else s.(loop := TestChannel(c + 1))
    case ClearFlag(c) => s.(flags := s.flags[c := false], loop := Scan(c, |s.marks[c]|))
    case Scan(c, left) =>
      if left == 0 then s.(loop := TestChannel(c + 1))
      else if s.marks[c][left - 1].sent then s.(loop := ClearMark(c, left - 1))
      else s.(loop := Scan(c, left - 1))
    case ClearMark(c, i) =>
      s.(marks := s.marks[c := s.marks[c][i := Mark(false, s.marks[c][i].fed + 1)]], loop := Scan(c, i))
  }

  function Do(s: State, a: Action): State
    requires Shaped(s) && Enabled(s, a)
  {
    match a
    case Begin(t, c, i) =>
      s.(marks := s.marks[c := s.marks[c][i := s.marks[c][i].(sent := true)]],
         senders := s.senders[t := TestFlag(c)])
    case Continue(t) => SenderStep(s, t)
    case Wake(notice, _) => s.(pending := s.pending || notice, readable := s.readable || notice, loop := ClearWanted)
    case Advance(nowait) => if InPipecb(s.loop) then PipecbStep(s) else RunStep(s, nowait)
  }

  // ---------- The invariant ----------

  /** pipecb is running and has yet to test channel c. */
  predicate WillTest(s: State, c: nat) {
    || s.loop.ReadPipe? || s.loop.ResetSkipped?
    || (s.loop.TestChannel? && s.loop.c <= c)
    || (s.loop.ClearFlag? && s.loop.c <= c)
    || ((s.loop.Scan? || s.loop.ClearMark?) && s.loop.c < c)
  }

  /** pipecb is scanning channel c and has yet to look at watcher i. */
  predicate WillVisit(s: State, c: nat, i: nat) {
    || (s.loop.Scan? && s.loop.c == c && i < s.loop.left)
    || (s.loop.ClearMark? && s.loop.c == c && i <= s.loop.i)
  }

  /** Some sender is about to set `skipped`, or to write after it has cleared it. */
  predicate WriteComing(senders: seq<SendPc>) {
    exists t :: 0 <= t < |senders| && (senders[t] == SetSkipped || senders[t] == WritePipe)
  }

  /**
   * Some sender that has set `skipped` has not yet passed the test of `wanted`, or has passed it and not yet cleared
   * `skipped`.
   */
  predicate TestComing(senders: seq<SendPc>) {
    exists t :: 0 <= t < |senders| && (senders[t] == TestWanted || senders[t] == ClearSkipped)
  }

  /** Some sender on channel c is about to find its flag set or to set it. */
  predicate FlagComing(senders: seq<SendPc>, c: nat) {
    exists t :: 0 <= t < |senders| && (senders[t] == TestFlag(c) || senders[t] == SetFlag(c))
  }

  /** A raised flag is on its way to the loop. */
  predicate FlagSafe(s: State, c: nat) {
    s.skipped || 0 < s.pipe || s.pending || WillTest(s, c) || WriteComing(s.senders)
  }

  /** A marked watcher will be fed when its flag is noticed, or is about to be visited. */
  predicate MarkSafe(s: State, c: nat, i: nat)
    requires c < |s.flags|
  {
    s.flags[c] || WillVisit(s, c, i) || FlagComing(s.senders, c)
  }

  /** What holds at particular places of the loop. */
  predicate LoopOk(s: State) {
    && s.wanted == (s.loop.TestSkipped? || s.loop.Poll? || s.loop.ClearWanted?)
    && (s.pending ==> s.loop.ClearWanted? || s.loop.Recheck? || s.loop.Invoke?)
    && (s.loop == Poll(true) && s.skipped ==> TestComing(s.senders))
  }

  predicate Inv(s: State) {
    && Shaped(s) && LoopOk(s)
    && (forall c :: 0 <= c < |s.flags| && s.flags[c] ==> FlagSafe(s, c))
    && (forall c, i :: 0 <= c < |s.marks| && 0 <= i < |s.marks[c]| && s.marks[c][i].sent ==> MarkSafe(s, c, i))
  }

  predicate Init(s: State) {
    && Shaped(s) && s.loop == SetWanted
    && !s.skipped && !s.wanted && s.pipe == 0 && !s.pending && !s.readable
    && (forall c :: 0 <= c < |s.flags| ==> !s.flags[c] && forall i :: 0 <= i < |s.marks[c]| ==> !s.marks[c][i].sent)
    && (forall t :: 0 <= t < |s.senders| ==> s.senders[t] == Idle)
  }

  lemma InitInv(s: State)
    requires Init(s)
    ensures Inv(s)
  {
  }

  lemma SenderInv(s: State, t: nat)
    requires Inv(s) && t < |s.senders| && s.senders[t] != Idle
    ensures Inv(SenderStep(s, t))
  {
    SenderKeepsShape(s, t);
    SenderKeepsLoop(s, t);
    forall c | 0 <= c < |SenderStep(s, t).flags| && SenderStep(s, t).flags[c] ensures FlagSafe(SenderStep(s, t), c) {
      SenderKeepsFlag(s, t, c);
    }
    forall c, i | 0 <= c < |s.marks| && 0 <= i < |s.marks[c]| && s.marks[c][i].sent
      ensures MarkSafe(SenderStep(s, t), c, i)
    {
      SenderKeepsMark(s, t, c, i);
    }
  }

  lemma SenderKeepsShape(s: State, t: nat)
    requires Shaped(s) && t < |s.senders| && s.senders[t] != Idle
    ensures Shaped(SenderStep(s, t)) && SenderStep(s, t).marks == s.marks
  {
    assert SenderOk(s.senders[t], |s.flags|);
  }

  lemma SenderKeepsLoop(s: State, t: nat)
    requires Inv(s) && t < |s.senders| && s.senders[t] != Idle
    ensures LoopOk(SenderStep(s, t))
  {
    KeepsComing(s.senders, t, SenderStep(s, t).senders[t], 0);
  }

  lemma SenderKeepsFlag(s: State, t: nat, c: nat)
    requires Inv(s) && t < |s.senders| && s.senders[t] != Idle
    requires c < |SenderStep(s, t).flags| && SenderStep(s, t).flags[c]
    ensures FlagSafe(SenderStep(s, t), c)
  {
    KeepsComing(s.senders, t, SenderStep(s, t).senders[t], c);
  }

  lemma SenderKeepsMark(s: State, t: nat, c: nat, i: nat)
    requires Inv(s) && t < |s.senders| && s.senders[t] != Idle
    requires c < |s.flags| && i < |s.marks[c]| && s.marks[c][i].sent
    ensures MarkSafe(SenderStep(s, t), c, i)
  {
    assert MarkSafe(s, c, i);
    KeepsComing(s.senders, t, SenderStep(s, t).senders[t], c);
  }

  /** What other senders are about to do does not depend on sender t. */
  lemma KeepsComing(senders: seq<SendPc>, t: nat, p: SendPc, c: nat)
    requires t < |senders|
    ensures WriteComing(senders) && senders[t] != SetSkipped && senders[t] != WritePipe ==> WriteComing(senders[t := p])
    ensures TestComing(senders) && senders[t] != TestWanted && senders[t] != ClearSkipped ==>
              TestComing(senders[t := p])
    ensures FlagComing(senders, c) && senders[t] != TestFlag(c) && senders[t] != SetFlag(c) ==>
              FlagComing(senders[t := p], c)
    ensures p == SetSkipped || p == WritePipe ==> WriteComing(senders[t := p])
    ensures p == TestWanted || p == ClearSkipped ==> TestComing(senders[t := p])
    ensures p == TestFlag(c) || p == SetFlag(c) ==> FlagComing(senders[t := p], c)
  {
    var after := senders[t := p];
    assert after[t] == p;
    if WriteComing(senders) {
      var u :| 0 <= u < |senders| && (senders[u] == SetSkipped || senders[u] == WritePipe);
      assert u == t || after[u] == senders[u];
    }
    if TestComing(senders) {
      var u :| 0 <= u < |senders| && (senders[u] == TestWanted || senders[u] == ClearSkipped);
      assert u == t || after[u] == senders[u];
    }
    if FlagComing(senders, c) {
      var u :| 0 <= u < |senders| && (senders[u] == TestFlag(c) || senders[u] == SetFlag(c));
      assert u == t || after[u] == senders[u];
    }
  }

  lemma RunInv(s: State, nowait: bool)
    requires Inv(s) && !s.loop.Poll? && !InPipecb(s.loop)
    ensures Inv(RunStep(s, nowait))
  {
    RunKeepsShape(s, nowait);
    RunKeepsFlags(s, nowait);
    forall c, i | 0 <= c < |s.marks| && 0 <= i < |s.marks[c]| && s.marks[c][i].sent
      ensures MarkSafe(RunStep(s, nowait), c, i)
    {
      assert MarkSafe(s, c, i);
    }
  }

  lemma RunKeepsShape(s: State, nowait: bool)
    requires Shaped(s) && LoopOk(s) && !s.loop.Poll? && !InPipecb(s.loop)
    ensures var s' := RunStep(s, nowait);
            Shaped(s') && LoopOk(s') && s'.flags == s.flags && s'.marks == s.marks && s'.senders == s.senders
  {
  }

  lemma RunKeepsFlags(s: State, nowait: bool)
    requires Inv(s) && !s.loop.Poll? && !InPipecb(s.loop)
    ensures forall c :: 0 <= c < |s.flags| && s.flags[c] ==> FlagSafe(RunStep(s, nowait), c)
  {
    forall c | 0 <= c < |s.flags| && s.flags[c] ensures FlagSafe(RunStep(s, nowait), c) {
      assert FlagSafe(s, c);
    }
  }

  lemma PipecbInv(s: State)
    requires Inv(s) && InPipecb(s.loop)
    ensures Inv(PipecbStep(s))
  {
    PipecbKeepsShape(s);
    PipecbKeepsLoop(s);
    var flags: seq<bool>, marks: seq<seq<Mark>> := PipecbStep(s).flags, PipecbStep(s).marks;
    forall c | 0 <= c < |flags| && flags[c] ensures FlagSafe(PipecbStep(s), c) {
      PipecbKeepsFlag(s, c);
    }
    forall c, i | 0 <= c < |marks| && 0 <= i < |marks[c]| && marks[c][i].sent ensures MarkSafe(PipecbStep(s), c, i) {
      PipecbKeepsMark(s, c, i);
    }
  }

  lemma PipecbKeepsShape(s: State)
    requires Shaped(s) && InPipecb(s.loop)
    ensures Shaped(PipecbStep(s))
  {
    if s.loop.Scan? || s.loop.ClearMark? {
      ScanKeepsShape(s);
    } else {
      OthersKeepShape(s);
    }
  }

  lemma ScanKeepsShape(s: State)
    requires Shaped(s) && (s.loop.Scan? || s.loop.ClearMark?)
    ensures Shaped(PipecbStep(s))
  {
  }

  lemma OthersKeepShape(s: State)
    requires Shaped(s) && InPipecb(s.loop) && !s.loop.Scan? && !s.loop.ClearMark?
    ensures Shaped(PipecbStep(s))
  {
    if s.loop.ClearFlag? {
      ClearFlagKeepsShape(s);
    }
  }

  lemma ClearFlagKeepsShape(s: State)
    requires Shaped(s) && s.loop.ClearFlag?
    ensures Shaped(PipecbStep(s))
  {
  }

  lemma PipecbKeepsLoop(s: State)
    requires Inv(s) && InPipecb(s.loop)
    ensures LoopOk(PipecbStep(s))
  {
  }

  lemma PipecbKeepsFlag(s: State, c: nat)
    requires Inv(s) && InPipecb(s.loop) && c < |s.flags| && PipecbStep(s).flags[c]
    ensures FlagSafe(PipecbStep(s), c)
  {
    assert s.flags[c] && FlagSafe(s, c);
  }

  lemma PipecbKeepsMark(s: State, c: nat, i: nat)
    requires Inv(s) && InPipecb(s.loop) && c < |s.flags|
    requires i < |s.marks[c]| && PipecbStep(s).marks[c][i].sent
    ensures MarkSafe(PipecbStep(s), c, i)
  {
    assert s.marks[c][i].sent && MarkSafe(s, c, i);
  }

  lemma BeginInv(s: State, t: nat, c: nat, i: nat)
    requires Inv(s) && Enabled(s, Begin(t, c, i))
    ensures Inv(Do(s, Begin(t, c, i)))
  {
    var s' := Do(s, Begin(t, c, i));
    KeepsComing(s.senders, t, TestFlag(c), 0);
    forall d | 0 <= d < |s'.flags| && s'.flags[d] ensures FlagSafe(s', d) {
    }
    forall d, j | 0 <= d < |s'.marks| && 0 <= j < |s'.marks[d]| && s'.marks[d][j].sent ensures MarkSafe(s', d, j) {
      KeepsComing(s.senders, t, TestFlag(c), d);
      assert s.marks[d][j].sent ==> MarkSafe(s, d, j);
    }
  }

  /** Every step keeps the invariant. */
  lemma StepInv(s: State, a: Action)
    requires Inv(s) && Enabled(s, a)
    ensures Inv(Do(s, a))
  {
    match a
    case Begin(t, c, i) => BeginInv(s, t, c, i);
    case Continue(t) => SenderInv(s, t);
    case Wake(_, _) =>
    case Advance(nowait) =>
      if InPipecb(s.loop) {
        PipecbInv(s);
      } else {
        RunInv(s, nowait);
      }
  }

  // ---------- Runs ----------

  ghost predicate Next(s: State, s': State) {
    Shaped(s) && exists a :: Enabled(s, a) && s' == Do(s, a)
  }

  ghost predicate Run(run: seq<State>) {
    && run != [] && Init(run[0])
    && forall k :: 0 < k < |run| ==> Next(run[k - 1], run[k])
  }

  /** Every state of every run satisfies the invariant, however the steps are interleaved. */
  lemma {:induction false} ReachableInv(run: seq<State>, k: nat)
    requires Run(run) && k < |run|
    ensures Inv(run[k])
  {
    if k == 0 {
      InitInv(run[0]);
    } else {
      ReachableInv(run, k - 1);
      assert Next(run[k - 1], run[k]);
      var a :| Enabled(run[k - 1], a) && run[k] == Do(run[k - 1], a);
      StepInv(run[k - 1], a);
    }
  }

  predicate SameSizes(s: State, s': State) {
    && |s'.flags| == |s.flags| && |s'.marks| == |s.marks| && |s'.senders| == |s.senders|
    && (forall c :: 0 <= c < |s.marks| ==> |s'.marks[c]| == |s.marks[c]|)
  }

  /** No step changes how many channels, watchers and senders there are. */
  lemma SizesKept(s: State, a: Action)
    requires Shaped(s) && Enabled(s, a)
    ensures SameSizes(s, Do(s, a))
  {
    if a.Advance? && InPipecb(s.loop) {
      PipecbSizes(s);
    } else if a.Continue? {
      SenderSizes(s, a.t);
    }
  }

  /** A sender's step does not touch the loop or other senders, and lowers no flag. */
  predicate Local(s: State, s': State, t: nat) {
    && s'.loop == s.loop && s'.pending == s.pending
    && |s'.flags| == |s.flags| && (forall c :: 0 <= c < |s.flags| && s.flags[c] ==> s'.flags[c])
    && |s'.senders| == |s.senders| && (forall u :: 0 <= u < |s.senders| && u != t ==> s'.senders[u] == s.senders[u])
  }

  lemma SenderLocal(s: State, a: Action)
    requires Shaped(s) && Enabled(s, a) && (a.Begin? || a.Continue?)
    ensures Local(s, Do(s, a), a.t)
  {
    if a.Continue? {
      ContinueLocal(s, a.t);
    }
  }

  lemma ContinueLocal(s: State, t: nat)
    requires Shaped(s) && t < |s.senders| && s.senders[t] != Idle
    ensures Local(s, SenderStep(s, t), t)
  {
  }

  lemma PipecbSizes(s: State)
    requires Shaped(s) && InPipecb(s.loop)
    ensures SameSizes(s, PipecbStep(s))
  {
  }

  lemma SenderSizes(s: State, t: nat)
    requires Shaped(s) && t < |s.senders| && s.senders[t] != Idle
    ensures SameSizes(s, SenderStep(s, t))
  {
  }

  /** How many channels pipecb has still to look at. */
  function ChannelsToGo(s: State): nat
    requires Shaped(s)
  {
    match s.loop
    case ReadPipe(_) => |s.flags| + 2
    case ResetSkipped => |s.flags| + 1
    case TestChannel(c) => |s.flags| - c
    case ClearFlag(c) => |s.flags| - c
    case Scan(c, _) => |s.flags| - c
    case ClearMark(c, _) => |s.flags| - c
    case _ => 0
  }

  /** How many steps it has still to make on this channel. */
  function StepsToGo(s: State): nat
    requires Shaped(s)
  {
    match s.loop
    case TestChannel(c) => if c < |s.marks| then 2 * |s.marks[c]| + 3 else 1
    case ClearFlag(c) => 2 * |s.marks[c]| + 2
    case Scan(_, left) => 2 * left + 1
    case ClearMark(_, i) => 2 * i + 2
    case _ => 0
  }

  /** pipecb comes nearer to its end. */
  predicate GoesOn(s: State, s': State)
    requires Shaped(s) && Shaped(s')
  {
    && (InPipecb(s'.loop) || s'.loop == Invoke) && s'.pending == s.pending
    && (ChannelsToGo(s') < ChannelsToGo(s) || (ChannelsToGo(s') == ChannelsToGo(s) && StepsToGo(s') < StepsToGo(s)))
  }

  lemma PipecbGoesOn(s: State)
    requires Shaped(s) && InPipecb(s.loop) && Shaped(PipecbStep(s))
    ensures GoesOn(s, PipecbStep(s))
  {
    if s.loop.Scan? {
      ScanGoesOn(s);
    } else if s.loop.TestChannel? {
      TestGoesOn(s);
    } else {
      OthersGoOn(s);
    }
  }

  lemma ScanGoesOn(s: State)
    requires Shaped(s) && s.loop.Scan? && Shaped(PipecbStep(s))
    ensures GoesOn(s, PipecbStep(s))
  {
  }

  lemma TestGoesOn(s: State)
    requires Shaped(s) && s.loop.TestChannel? && Shaped(PipecbStep(s))
    ensures GoesOn(s, PipecbStep(s))
  {
  }

  lemma OthersGoOn(s: State)
    requires Shaped(s) && InPipecb(s.loop) && !s.loop.Scan? && !s.loop.TestChannel? && Shaped(PipecbStep(s))
    ensures GoesOn(s, PipecbStep(s))
  {
  }

  /** A sender that has raised its flag and may have to write. */
  predicate Waking(p: SendPc) {
    p.SetSkipped? || p.TestWanted? || p.ClearSkipped? || p.WritePipe?
  }

  /**
   * No wakeup is lost: when the loop sleeps with nothing to read, although a flag is raised, some sender
   * is still between raising a flag and the end of its call; and although a watcher has been sent, some sender
   * is, or is about to test or raise the watcher's flag. Senders elsewhere do not matter.
   */
  lemma NoLostWakeup(run: seq<State>, k: nat, c: nat, i: nat)
    requires Run(run) && k < |run| && run[k].loop == Poll(true) && run[k].pipe == 0
    requires c < |run[k].flags| == |run[k].marks| && i < |run[k].marks[c]|
    requires run[k].flags[c] || (run[k].marks[c][i].sent && !FlagComing(run[k].senders, c))
    ensures exists t :: 0 <= t < |run[k].senders| && Waking(run[k].senders[t])
  {
    ReachableInv(run, k);
    StillWaking(run[k], c, i);
  }

  lemma StillWaking(s: State, c: nat, i: nat)
    requires Inv(s) && s.loop == Poll(true) && s.pipe == 0 && c < |s.flags|
    requires s.flags[c] || (i < |s.marks[c]| && s.marks[c][i].sent && !FlagComing(s.senders, c))
    ensures exists t :: 0 <= t < |s.senders| && Waking(s.senders[t])
  {
    assert !s.flags[c] ==> MarkSafe(s, c, i);
    assert FlagSafe(s, c);
    if s.skipped {
      var t :| 0 <= t < |s.senders| && (s.senders[t] == TestWanted || s.senders[t] == ClearSkipped);
      assert Waking(s.senders[t]);
    } else {
      var t :| 0 <= t < |s.senders| && (s.senders[t] == SetSkipped || s.senders[t] == WritePipe);
      assert Waking(s.senders[t]);
    }
  }
}
