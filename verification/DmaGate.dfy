/**
 * The free list of a DMA pool under concurrent use: any number of threads in bf_pop_free_buf and
 * bf_push_free_buf, step by step, with the compare-and-swap gate. Buffers are numbered.
 */
module DmaGate {
  import opened Wrappers

  /** Where a thread is; a number is the buffer it carries. */
  datatype Pc =
    | Out
    | PopSpin | PopTest | PopRead | PopAdvance(b: nat) | PopOpen(b: nat) | PopFail
    | PushSpin(b: nat) | PushTest(b: nat) | PushBack(b: nat) | PushStore(b: nat) | PushOpen | PushFail(b: nat)

  /** pool_gate, pool_buf_offset, pool_buf_ptr, and the buffers handed out and not given back. */
  datatype State = State(gate: bool, offset: nat, queue: seq<nat>, held: set<nat>, pcs: seq<Pc>)

  datatype Action = Alloc(t: nat) | Release(t: nat, b: nat) | Step(t: nat)

  predicate Inside(p: Pc) {
    p.PopTest? || p.PopRead? || p.PopAdvance? || p.PopOpen? || p.PopFail? ||
    p.PushTest? || p.PushBack? || p.PushStore? || p.PushOpen? || p.PushFail?
  }

  /** A caller gives back only what it has been given. */
  predicate Enabled(s: State, a: Action) {
    match a
    case Alloc(t) => t < |s.pcs| && s.pcs[t] == Out
    case Release(t, b) => t < |s.pcs| && s.pcs[t] == Out && b in s.held
    case Step(t) =>
      && t < |s.pcs| && s.pcs[t] != Out
      && (s.pcs[t].PopRead? ==> s.offset < |s.queue|)
      && (s.pcs[t].PushBack? ==> 0 < s.offset)
      && (s.pcs[t].PushStore? ==> s.offset < |s.queue|)
  }

  /** A thread's next step. Spinning goes on while the gate is closed. */
  function StepOf(s: State, t: nat): State
    requires Enabled(s, Step(t))
  {
    match s.pcs[t]
    case PopSpin => if s.gate then s else s.(gate := true, pcs := s.pcs[t := PopTest])
    case PopTest => s.(pcs := s.pcs[t := if s.offset >= |s.queue| then PopFail else PopRead])
    case PopRead => s.(pcs := s.pcs[t := PopAdvance(s.queue[s.offset])])
    case PopAdvance(b) => s.(offset := s.offset + 1, pcs := s.pcs[t := PopOpen(b)])
    case PopOpen(b) => s.(gate := false, held := s.held + {b}, pcs := s.pcs[t := Out])
    case PopFail => s.(gate := false, pcs := s.pcs[t := Out])
    case PushSpin(b) => if s.gate then s else s.(gate := true, pcs := s.pcs[t := PushTest(b)])
    case PushTest(b) =>
      s.(pcs := s.pcs[t := if s.offset == 0 || s.offset > |s.queue| then PushFail(b) else PushBack(b)])
    case PushBack(b) => s.(offset := s.offset - 1, pcs := s.pcs[t := PushStore(b)])
    case PushStore(b) => s.(queue := s.queue[s.offset := b], pcs := s.pcs[t := PushOpen])
    case PushOpen => s.(gate := false, pcs := s.pcs[t := Out])
    case PushFail(_) => s.(gate := false, pcs := s.pcs[t := Out])
  }

  function Do(s: State, a: Action): State
    requires Enabled(s, a)
  {
    match a
    case Alloc(t) => s.(pcs := s.pcs[t := PopSpin])
    case Release(t, b) => s.(held := s.held - {b}, pcs := s.pcs[t := PushSpin(b)])
    case Step(t) => StepOf(s, t)
  }

  // ---------- What is where ----------

  /** A thread is between moving the offset back and storing its buffer there. */
  predicate Storing(pcs: seq<Pc>) {
    exists t :: 0 <= t < |pcs| && pcs[t].PushStore?
  }

  /** The free buffers, the next one to be handed out first. */
  function FreeList(s: State): seq<nat> {
    var from := s.offset + if Storing(s.pcs) then 1 else 0;
    if from <= |s.queue| then s.queue[from..] else []
  }

  /** The buffer a thread carries between the free list and its holder. */
  predicate Carries(p: Pc, b: nat) {
    p == PopOpen(b) || p == PushSpin(b) || p == PushTest(b) || p == PushBack(b) || p == PushStore(b) || p == PushFail(b)
  }

  function Occurrences(l: seq<nat>, b: nat): nat {
    if l == [] then 0 else (if l[0] == b then 1 else 0) + Occurrences(l[1..], b)
  }

  function One(p: Pc, b: nat): nat {
    if Carries(p, b) then 1 else 0
  }

  function Carriers(pcs: seq<Pc>, b: nat): nat {
    if pcs == [] then 0 else One(pcs[0], b) + Carriers(pcs[1..], b)
  }

  /** In how many places a buffer is. */
  function Places(s: State, b: nat): nat {
    Occurrences(FreeList(s), b) + (if b in s.held then 1 else 0) + Carriers(s.pcs, b)
  }

  lemma {:induction false} CarriersUpdate(pcs: seq<Pc>, t: nat, p: Pc, b: nat)
    requires t < |pcs|
    ensures Carriers(pcs[t := p], b) == Carriers(pcs, b) - One(pcs[t], b) + One(p, b)
  {
    if t == 0 {
      assert pcs[t := p][1..] == pcs[1..];
    } else {
      assert pcs[t := p][1..] == pcs[1..][t - 1 := p];
      CarriersUpdate(pcs[1..], t - 1, p, b);
    }
  }

  predicate GateOk(s: State) {
    && (forall t, u :: 0 <= t < u < |s.pcs| ==> !(Inside(s.pcs[t]) && Inside(s.pcs[u])))
    && (s.gate <==> exists t :: 0 <= t < |s.pcs| && Inside(s.pcs[t]))
  }

  /** What a thread inside the gate has found out stays true. */
  predicate ThreadOk(s: State, p: Pc) {
    && s.offset <= |s.queue| && !p.PushFail?
    && (p.PopRead? ==> s.offset < |s.queue|)
    && (p.PopAdvance? ==> s.offset < |s.queue| && s.queue[s.offset] == p.b)
    && (p.PushBack? ==> 0 < s.offset)
    && (p.PushStore? ==> s.offset < |s.queue|)
  }

  ghost predicate Inv(s: State) {
    && GateOk(s) && s.offset <= |s.queue|
    && (forall t :: 0 <= t < |s.pcs| ==> ThreadOk(s, s.pcs[t]))
    && (forall b: nat :: Places(s, b) == if b < |s.queue| then 1 else 0)
  }

  predicate Init(s: State) {
    && !s.gate && s.offset == 0 && s.held == {}
    && (forall t :: 0 <= t < |s.pcs| ==> s.pcs[t] == Out)
    && (forall i :: 0 <= i < |s.queue| ==> s.queue[i] == i)
  }

  lemma InitInv(s: State)
    requires Init(s)
    ensures Inv(s) && FreeList(s) == s.queue
  {
    assert !Storing(s.pcs);
    forall b: nat ensures Places(s, b) == if b < |s.queue| then 1 else 0 {
      InitPlaces(s, b);
    }
  }

  lemma InitPlaces(s: State, b: nat)
    requires Init(s)
    ensures FreeList(s) == s.queue && Places(s, b) == if b < |s.queue| then 1 else 0
  {
    assert FreeList(s) == s.queue[0..] == s.queue;
    AscendingOccurs(s.queue, 0, b);
    NoneCarries(s.pcs, b);
  }

  lemma {:induction false} AscendingOccurs(l: seq<nat>, from: nat, b: nat)
    requires forall i :: 0 <= i < |l| ==> l[i] == from + i
    ensures Occurrences(l, b) == if from <= b < from + |l| then 1 else 0
  {
    if l != [] {
      AscendingOccurs(l[1..], from + 1, b);
    }
  }

  lemma {:induction false} NoneCarries(pcs: seq<Pc>, b: nat)
    requires forall t :: 0 <= t < |pcs| ==> !Carries(pcs[t], b)
    ensures Carriers(pcs, b) == 0
  {
    if pcs != [] {
      NoneCarries(pcs[1..], b);
    }
  }

  // ---------- One step ----------

  /** At most one thread is inside the gate, and the gate says whether one is. */
  lemma GateKept(s: State, a: Action)
    requires GateOk(s) && Enabled(s, a)
    ensures GateOk(Do(s, a))
  {
    var s', t := Do(s, a), a.t;
    assert forall u :: 0 <= u < |s.pcs| && u != t ==> s'.pcs[u] == s.pcs[u];
    if s'.gate {
      var u :| 0 <= u < |s.pcs| && (Inside(s.pcs[u]) || (u == t && Inside(s'.pcs[t])));
      assert u == t || Inside(s'.pcs[u]);
      assert Inside(s'.pcs[u]);
    }
  }

  /** Buffers below n that occur at most once, and of which one does not occur, are fewer than n. */
  lemma FewerThanAll(l: seq<nat>, n: nat, b: nat)
    requires b < n && Occurrences(l, b) == 0
    requires forall x: nat :: Occurrences(l, x) <= if x < n then 1 else 0
    ensures |l| < n
  {
    SumIsLength(l, n);
    SumBelow(l, n, b);
  }

  function Sum(l: seq<nat>, n: nat): nat {
    if n == 0 then 0 else Sum(l, n - 1) + Occurrences(l, n - 1)
  }

  lemma {:induction false} SumIsLength(l: seq<nat>, n: nat)
    requires forall x: nat :: n <= x ==> Occurrences(l, x) == 0
    ensures Sum(l, n) == |l|
  {
    if l == [] {
      SumOfNone(n);
    } else {
      assert Occurrences(l, l[0]) >= 1;
      forall x: nat | n <= x ensures Occurrences(l[1..], x) == 0 {
        assert Occurrences(l, x) == 0;
      }
      SumIsLength(l[1..], n);
      SumOfCons(l, n);
    }
  }

  lemma {:induction false} SumOfNone(n: nat)
    ensures Sum([], n) == 0
  {
    if n != 0 {
      SumOfNone(n - 1);
    }
  }

  lemma {:induction false} SumOfCons(l: seq<nat>, n: nat)
    requires l != []
    ensures Sum(l, n) == Sum(l[1..], n) + if l[0] < n then 1 else 0
  {
    if n != 0 {
      SumOfCons(l, n - 1);
    }
  }

  lemma {:induction false} SumBelow(l: seq<nat>, n: nat, b: nat)
    requires forall x: nat :: Occurrences(l, x) <= 1
    requires Occurrences(l, b) == 0
    ensures Sum(l, n) <= n && (b < n ==> Sum(l, n) < n)
  {
    if n != 0 {
      SumBelow(l, n - 1, b);
      assert Occurrences(l, n - 1) <= 1;
    }
  }

  /** A thread that gives back a buffer finds room for it. */
  lemma RoomForBuffer(s: State, t: nat)
    requires Inv(s) && t < |s.pcs| && s.pcs[t].PushTest?
    ensures 0 < s.offset
  {
    var b := s.pcs[t].b;
    CarriersUpdate(s.pcs, t, Out, b);
    assert Inside(s.pcs[t]);
    assert !Storing(s.pcs);
    forall x: nat ensures Occurrences(FreeList(s), x) <= if x < |s.queue| then 1 else 0 {
      assert Places(s, x) == if x < |s.queue| then 1 else 0;
    }
    assert Places(s, b) == if b < |s.queue| then 1 else 0;
    FewerThanAll(FreeList(s), |s.queue|, b);
  }

  /** Only a thread inside the gate changes the offset or the queue, and then no other is inside. */
  lemma ThreadsKept(s: State, a: Action)
    requires Inv(s) && Enabled(s, a)
    requires a.Step? && s.pcs[a.t].PushTest? ==> 0 < s.offset
    ensures var s' := Do(s, a);
            s'.offset <= |s'.queue| == |s.queue| && forall t :: 0 <= t < |s'.pcs| ==> ThreadOk(s', s'.pcs[t])
  {
    var s', t := Do(s, a), a.t;
    forall u | 0 <= u < |s'.pcs| ensures ThreadOk(s', s'.pcs[u]) {
      assert ThreadOk(s, s.pcs[u]) && ThreadOk(s, s.pcs[t]);
    }
  }

  /**
   * The free list changes as a stack does, at the step that advances the offset and at the one that stores a buffer.
   */
  lemma StepRefines(s: State, t: nat)
    requires Inv(s) && Enabled(s, Step(t))
    ensures var free, free' := FreeList(s), FreeList(StepOf(s, t));
            match s.pcs[t]
            case PopAdvance(b) => free == [b] + free'
            case PushStore(b) => free' == [b] + free
            case _ => free' == free
    ensures s.pcs[t] == PopTest ==> (StepOf(s, t).pcs[t] == PopFail <==> FreeList(s) == [])
  {
    assert ThreadOk(s, s.pcs[t]);
    StoringAfter(s, t);
    if Inside(s.pcs[t]) && !s.pcs[t].PushStore? {
      assert !Storing(s.pcs);
    }
  }

  lemma StoringAfter(s: State, t: nat)
    requires GateOk(s) && Enabled(s, Step(t))
    ensures Inside(s.pcs[t]) ==> (Storing(s.pcs) <==> s.pcs[t].PushStore?)
    ensures var pcs := StepOf(s, t).pcs;
            Storing(pcs) <==> pcs[t].PushStore? || (Storing(s.pcs) && !s.pcs[t].PushStore?)
  {
    var pcs := StepOf(s, t).pcs;
    assert forall u :: 0 <= u < |s.pcs| && u != t ==> pcs[u] == s.pcs[u];
    if u :| 0 <= u < |s.pcs| && s.pcs[u].PushStore? {
      assert u == t || pcs[u].PushStore?;
    }
  }

  /** No step makes or loses a buffer. */
  lemma PlacesKept(s: State, a: Action, b: nat)
    requires Inv(s) && Enabled(s, a)
    requires a.Step? && s.pcs[a.t].PushTest? ==> 0 < s.offset
    ensures Places(Do(s, a), b) == Places(s, b)
  {
    CarriersUpdate(s.pcs, a.t, Do(s, a).pcs[a.t], b);
    assert Do(s, a).pcs == s.pcs[a.t := Do(s, a).pcs[a.t]];
    if a.Step? {
      StepPlaces(s, a.t, b);
    } else {
      CallLeavesList(s, a);
    }
  }

  lemma StepCarriers(s: State, t: nat, b: nat)
    requires Enabled(s, Step(t))
    ensures t < |StepOf(s, t).pcs|
    ensures Carriers(StepOf(s, t).pcs, b) == Carriers(s.pcs, b) - One(s.pcs[t], b) + One(StepOf(s, t).pcs[t], b)
  {
    assert StepOf(s, t).pcs == s.pcs[t := StepOf(s, t).pcs[t]];
    CarriersUpdate(s.pcs, t, StepOf(s, t).pcs[t], b);
  }

  lemma StepPlaces(s: State, t: nat, b: nat)
    requires Inv(s) && Enabled(s, Step(t)) && (s.pcs[t].PushTest? ==> 0 < s.offset)
    ensures Places(StepOf(s, t), b) == Places(s, b)
  {
    StepCarriers(s, t, b);
    StepRefines(s, t);
    CarriedOnce(s, t);
    assert ThreadOk(s, s.pcs[t]);
  }

  lemma CallLeavesList(s: State, a: Action)
    requires Enabled(s, a) && !a.Step?
    ensures FreeList(Do(s, a)) == FreeList(s)
  {
    var s' := Do(s, a);
    assert forall u :: 0 <= u < |s.pcs| && u != a.t ==> s'.pcs[u] == s.pcs[u];
    if u :| 0 <= u < |s.pcs| && s.pcs[u].PushStore? {
      assert s'.pcs[u].PushStore?;
    }
    assert Storing(s'.pcs) <==> Storing(s.pcs);
  }

  /** A buffer that is carried is not held. */
  lemma CarriedOnce(s: State, t: nat)
    requires Inv(s) && t < |s.pcs|
    ensures s.pcs[t].PopOpen? ==> s.pcs[t].b !in s.held
  {
    if s.pcs[t].PopOpen? {
      var b := s.pcs[t].b;
      CarriersUpdate(s.pcs, t, Out, b);
      assert Places(s, b) == if b < |s.queue| then 1 else 0;
    }
  }

  lemma StepInv(s: State, a: Action)
    requires Inv(s) && Enabled(s, a)
    ensures Inv(Do(s, a))
  {
    if a.Step? && s.pcs[a.t].PushTest? {
      RoomForBuffer(s, a.t);
    }
    GateKept(s, a);
    ThreadsKept(s, a);
    forall b: nat ensures Places(Do(s, a), b) == if b < |Do(s, a).queue| then 1 else 0 {
      PlacesKept(s, a, b);
    }
  }

  // ---------- Runs ----------

  ghost predicate Run(run: seq<State>, acts: seq<Action>) {
    && |run| == |acts| + 1 && Init(run[0])
    && forall k :: 0 <= k < |acts| ==> StepsTo(run[k], acts[k], run[k + 1])
  }

  ghost predicate StepsTo(s: State, a: Action, s': State) {
    Enabled(s, a) && s' == Do(s, a)
  }

  lemma {:induction false} ReachableInv(run: seq<State>, acts: seq<Action>, k: nat)
    requires Run(run, acts) && k < |run|
    ensures Inv(run[k]) && |run[k].queue| == |run[0].queue|
  {
    if k == 0 {
      InitInv(run[0]);
    } else {
      ReachableInv(run, acts, k - 1);
      assert StepsTo(run[k - 1], acts[k - 1], run[k - 1 + 1]);
      StepInv(run[k - 1], acts[k - 1]);
    }
  }

  /** The gate excludes: no two threads are ever between closing and opening it. */
  lemma OneInside(run: seq<State>, acts: seq<Action>, k: nat, t: nat, u: nat)
    requires Run(run, acts) && k < |run| && t < |run[k].pcs| && u < |run[k].pcs|
    requires Inside(run[k].pcs[t]) && Inside(run[k].pcs[u])
    ensures t == u
  {
    ReachableInv(run, acts, k);
  }

  /** No thread is ever where the array would be indexed out of bounds; each can go on. */
  lemma NeverOutOfBounds(run: seq<State>, acts: seq<Action>, k: nat, t: nat)
    requires Run(run, acts) && k < |run| && t < |run[k].pcs| && run[k].pcs[t] != Out
    ensures Enabled(run[k], Step(t))
  {
    ReachableInv(run, acts, k);
    assert ThreadOk(run[k], run[k].pcs[t]);
  }

  /**
   * Buffers are conserved: each of the pool's is in one place only, in the free list or with one caller
   * or on the way between them, and no others appear. So none is ever handed out twice.
   */
  lemma BuffersConserved(run: seq<State>, acts: seq<Action>, k: nat, b: nat)
    requires Run(run, acts) && k < |run|
    ensures Places(run[k], b) == if b < |run[0].queue| then 1 else 0
    ensures forall t :: 0 <= t < |run[k].pcs| && run[k].pcs[t] == PopOpen(b) ==>
              b !in run[k].held && b !in FreeList(run[k])
  {
    ReachableInv(run, acts, k);
    var s := run[k];
    forall t | 0 <= t < |s.pcs| && s.pcs[t] == PopOpen(b) ensures b !in s.held && b !in FreeList(s) {
      CarriersUpdate(s.pcs, t, Out, b);
      assert Places(s, b) == if b < |s.queue| then 1 else 0;
      OccursIfIn(FreeList(s), b);
    }
  }

  lemma {:induction false} OccursIfIn(l: seq<nat>, b: nat)
    ensures b in l <==> 0 < Occurrences(l, b)
  {
    if l != [] {
      OccursIfIn(l[1..], b);
      assert l == [l[0]] + l[1..];
    }
  }

  /** Giving back a buffer never fails. */
  lemma PushNeverFails(run: seq<State>, acts: seq<Action>, k: nat, t: nat)
    requires Run(run, acts) && k < |run| && t < |run[k].pcs|
    ensures !run[k].pcs[t].PushFail?
  {
    ReachableInv(run, acts, k);
    assert ThreadOk(run[k], run[k].pcs[t]);
  }

  // ---------- Linearizability ----------

  datatype StackOp = Pop(b: nat) | Push(b: nat) | PopNone

  /** The operations of a run, each at the step where it takes effect. */
  function Effects(run: seq<State>, acts: seq<Action>, k: nat): seq<StackOp>
    requires k <= |acts| < |run|
  {
    if k == 0 then [] else Effects(run, acts, k - 1) + Effect(run[k - 1], acts[k - 1])
  }

  function Effect(s: State, a: Action): seq<StackOp> {
    if a.Step? && a.t < |s.pcs| then
      match s.pcs[a.t]
      case PopAdvance(b) => [Pop(b)]
      case PushStore(b) => [Push(b)]
      case PopTest => if s.offset >= |s.queue| then [PopNone] else []
      case _ => []
    else []
  }

  /** What a stack holds after operations with these results, if it can give them. */
  function Replay(stack: seq<nat>, ops: seq<StackOp>): Option<seq<nat>> {
    if ops == [] then Some(stack)
    else match Replay(stack, ops[..|ops| - 1])
      case None => None
      case Some(mid) => ReplayOne(mid, ops[|ops| - 1])
  }

  function ReplayOne(stack: seq<nat>, op: StackOp): Option<seq<nat>> {
    match op
    case Pop(b) => if stack != [] && stack[0] == b then Some(stack[1..]) else None
    case Push(b) => Some([b] + stack)
    case PopNone => if stack == [] then Some([]) else None
  }

  lemma ReplayMore(stack: seq<nat>, ops: seq<StackOp>, e: seq<StackOp>, free: seq<nat>, free': seq<nat>)
    requires Replay(stack, ops) == Some(free)
    requires if e == [] then free' == free else |e| == 1 && ReplayOne(free, e[0]) == Some(free')
    ensures Replay(stack, ops + e) == Some(free')
  {
    if e == [] {
      assert ops + e == ops;
    } else {
      assert (ops + e)[..|ops + e| - 1] == ops;
    }
  }

  lemma EffectIsStackStep(s: State, a: Action)
    requires Inv(s) && Enabled(s, a)
    ensures var e, free, free' := Effect(s, a), FreeList(s), FreeList(Do(s, a));
            if e == [] then free' == free else |e| == 1 && ReplayOne(free, e[0]) == Some(free')
  {
    if a.Step? {
      StepRefines(s, a.t);
    } else {
      CallLeavesList(s, a);
    }
  }

  lemma EffectInRun(run: seq<State>, acts: seq<Action>, k: nat)
    requires Run(run, acts) && k < |acts| && Inv(run[k])
    ensures var e, free, free' := Effect(run[k], acts[k]), FreeList(run[k]), FreeList(run[k + 1]);
            if e == [] then free' == free else |e| == 1 && ReplayOne(free, e[0]) == Some(free')
  {
    assert StepsTo(run[k], acts[k], run[k + 1]);
    EffectIsStackStep(run[k], acts[k]);
  }

  lemma LinearFirst(run: seq<State>, acts: seq<Action>)
    requires Run(run, acts)
    ensures Explains(run, acts, 0)
  {
    InitInv(run[0]);
  }

  /** The effects of the first k steps, replayed on one stack, leave the free list. */
  predicate Explains(run: seq<State>, acts: seq<Action>, k: nat)
    requires k <= |acts| < |run|
  {
    Replay(run[0].queue, Effects(run, acts, k)) == Some(FreeList(run[k]))
  }

  lemma LinearStep(run: seq<State>, acts: seq<Action>, k: nat)
    requires Run(run, acts) && k < |acts| && Explains(run, acts, k)
    ensures Explains(run, acts, k + 1)
  {
    ReachableInv(run, acts, k);
    EffectInRun(run, acts, k);
    var e := Effect(run[k], acts[k]);
    ReplayMore(run[0].queue, Effects(run, acts, k), e, FreeList(run[k]), FreeList(run[k + 1]));
    assert Effects(run, acts, k + 1) == Effects(run, acts, k) + e;
  }

  /**
   * However the threads are interleaved, their operations, in the order in which they take effect, are
   * those of one stack: a pop returns what was pushed last, and fails exactly when nothing is left.
   */
  lemma {:induction false} Linearizable(run: seq<State>, acts: seq<Action>, k: nat)
    requires Run(run, acts) && k < |run|
    ensures Explains(run, acts, k)
  {
    if k == 0 {
      LinearFirst(run, acts);
    } else {
      Linearizable(run, acts, k - 1);
      LinearStep(run, acts, k - 1);
    }
  }
}
