/** The arithmetic of libev's clock: ev_floor, the next time of a periodic, and how long a loop blocks. */
module LoopTime {
  import opened HeapSpec
  import opened WatcherHeap

  const SHIFT := 18446744073709551616.0   // 2**64, where `unsigned long` ends
  const MIN_INTERVAL := 1.0 / 8192.0
  const MAX_BLOCKTIME := 59.743

  /** Splitting off whole multiples of SHIFT: what is left is small, and the floors add up. */
  lemma SplitByShift(v: real)
    requires SHIFT <= v
    ensures var n := (v * (1.0 / SHIFT)).Floor; var f := SHIFT * n as real;
            0 <= n < v.Floor && 0.0 <= v - f < SHIFT && f + (v - f).Floor as real == v.Floor as real
  {
    var n := (v * (1.0 / SHIFT)).Floor;
    var k := 18446744073709551616 * n;
    assert SHIFT * n as real == k as real;
    FloorShift(v - k as real, k);
  }

  lemma FloorShift(x: real, k: int)
    ensures (x + k as real).Floor == x.Floor + k
  {
  }

  lemma FloorOfNegative(v: real)
    ensures var f := -((-v).Floor as real); v.Floor as real == f - (if f == v then 0.0 else 1.0)
  {
    var g := (-v).Floor;
    FloorIs(v, if -g as real == v then -g else -g - 1);
  }

  lemma FloorIs(v: real, n: int)
    requires n as real <= v < (n + 1) as real
    ensures v.Floor == n
  {
  }

  /** The floor() replacement, on exact numbers: it is the floor. */
  function EvFloor(v: real): (f: real)
    ensures f == v.Floor as real
    decreases v < 0.0, if v < 0.0 then (-v).Floor else v.Floor
  {
    if v >= SHIFT then
      if v == v - 1.0 then v
      else
        SplitByShift(v);
        var f := SHIFT * EvFloor(v * (1.0 / SHIFT));
        f + EvFloor(v - f)
    else if v < 0.0 then
      FloorOfNegative(v);
      var f := -EvFloor(-v);
      f - (if f == v then 0.0 else 1.0)
    else v.Floor as real
  }

  // ---------- Periodics ----------

  /** The n-th time of a periodic. */
  function Nth(n: int, offset: real, interval: real): real {
    offset + n as real * interval
  }

  ghost predicate OnGrid(t: real, offset: real, interval: real) {
    exists n :: t == Nth(n, offset, interval)
  }

  /** t is the first of those times after now. */
  ghost predicate FirstAfter(t: real, now: real, offset: real, interval: real) {
    OnGrid(t, offset, interval) && now < t && forall u :: OnGrid(u, offset, interval) && now < u ==> t <= u
  }

  /** The interval that periodic_recalc divides by. */
  function Divisor(interval: real): real {
    if interval > MIN_INTERVAL then interval else MIN_INTERVAL
  }

  /** Where periodic_recalc starts looking. */
  function Base(offset: real, interval: real, now: real): real {
    offset + Divisor(interval) * EvFloor((now - offset) / Divisor(interval))
  }

  lemma FloorOfQuotient(x: real, d: real)
    requires 0.0 < d
    ensures d * (x / d).Floor as real <= x < d * (x / d).Floor as real + d
  {
    Bracket(x, d, x / d, (x / d).Floor as real);
  }

  lemma Bracket(x: real, d: real, q: real, n: real)
    requires 0.0 < d && x == d * q && n <= q < n + 1.0
    ensures d * n <= x < d * n + d
  {
    MulLe(d, n, q);
    BracketAbove(x, d, q, n);
  }

  lemma BracketAbove(x: real, d: real, q: real, n: real)
    requires 0.0 < d && x == d * q && q < n + 1.0
    ensures x < d * n + d
  {
    MulLt(d, q, n + 1.0);
    assert x < d * (n + 1.0);
    Distribute(d, n);
  }

  lemma Distribute(d: real, a: real)
    ensures d * (a + 1.0) == d * a + d
  {
  }

  lemma MulLe(d: real, a: real, b: real)
    requires 0.0 < d && a <= b
    ensures d * a <= d * b
  {
  }

  lemma MulLt(d: real, a: real, b: real)
    requires 0.0 < d && a < b
    ensures d * a < d * b
  {
  }

  /** periodic_recalc starts at or before now, less than one divisor away. */
  lemma BaseNear(offset: real, interval: real, now: real)
    ensures Base(offset, interval, now) <= now < Base(offset, interval, now) + Divisor(interval)
  {
    FloorOfQuotient(now - offset, Divisor(interval));
  }

  lemma NonNegative(a: real, d: real, p: real)
    requires 0.0 < d && 0.0 <= a && p == a * d
    ensures 0.0 <= p
  {
  }

  /** Multiples of d that are at least one apart. */
  lemma Apart(d: real, a: real, b: real, p: real, q: real)
    requires 0.0 < d && b + 1.0 <= a && p == a * d && q == b * d
    ensures q + d <= p
  {
    var c := a - b - 1.0;
    NonNegative(c, d, c * d);
    assert c * d == a * d - b * d - d;
  }

  /** Two grid times less than an interval apart are the same. */
  lemma GridGap(t: real, u: real, offset: real, interval: real)
    requires 0.0 < interval && OnGrid(t, offset, interval) && OnGrid(u, offset, interval) && u < t
    ensures u <= t - interval
  {
    var n :| t == Nth(n, offset, interval);
    var m :| u == Nth(m, offset, interval);
    if m < n {
      NthApart(n, m, offset, interval);
    } else if n < m {
      NthApart(m, n, offset, interval);
    }
  }

  lemma NthApart(n: int, m: int, offset: real, interval: real)
    requires 0.0 < interval && m < n
    ensures Nth(m, offset, interval) + interval <= Nth(n, offset, interval)
  {
    Apart(interval, n as real, m as real, Nth(n, offset, interval) - offset, Nth(m, offset, interval) - offset);
  }

  /** Whole steps of the interval lead from grid time to grid time, and from no other time to one. */
  lemma GridStep(t: real, offset: real, interval: real)
    ensures OnGrid(t, offset, interval) <==> OnGrid(t + interval, offset, interval)
  {
    if OnGrid(t, offset, interval) {
      var n :| t == Nth(n, offset, interval);
      assert t + interval == Nth(n + 1, offset, interval);
    }
    if OnGrid(t + interval, offset, interval) {
      var n :| t + interval == Nth(n, offset, interval);
      assert t == Nth(n - 1, offset, interval);
    }
  }

  /** A grid time at most one interval after now is the first one. */
  lemma SoonIsFirst(t: real, now: real, offset: real, interval: real)
    requires 0.0 < interval && OnGrid(t, offset, interval) && now < t <= now + interval
    ensures FirstAfter(t, now, offset, interval)
  {
    forall u | OnGrid(u, offset, interval) && now < u ensures t <= u {
      if u < t {
        GridGap(t, u, offset, interval);
      }
    }
  }

  /** An interval longer than MIN_INTERVAL, or equal to it, makes periodic_recalc start on the grid. */
  lemma BaseOnGrid(offset: real, interval: real, now: real)
    requires MIN_INTERVAL <= interval
    ensures OnGrid(Base(offset, interval, now), offset, interval)
  {
    var n := ((now - offset) / interval).Floor;
    assert Base(offset, interval, now) == Nth(n, offset, interval);
  }

  /** How many whole intervals lie between t and now. */
  function StepsLeft(t: real, now: real, interval: real): int
    requires 0.0 < interval
  {
    ((now - t) / interval).Floor
  }

  lemma OneStepFewer(t: real, now: real, interval: real)
    requires 0.0 < interval
    ensures StepsLeft(t + interval, now, interval) == StepsLeft(t, now, interval) - 1
    ensures t <= now ==> 0 <= StepsLeft(t, now, interval)
  {
    var q := (now - t) / interval;
    assert interval * q == now - t;
    QuotientIs(now - (t + interval), interval, q - 1.0);
    FloorShift(q, -1);
    if t <= now && q < 0.0 {
      MulLt(interval, q, 0.0);
    }
  }

  lemma QuotientIs(x: real, d: real, q: real)
    requires 0.0 < d && x == d * q
    ensures x / d == q
  {
  }

  /** The first of t, t + interval, t + 2 * interval, ... that is after now. */
  function StepPast(t: real, interval: real, now: real): real
    requires 0.0 < interval
    decreases if t <= now then StepsLeft(t, now, interval) + 1 else 0
  {
    OneStepFewer(t, now, interval);
    if t <= now then StepPast(t + interval, interval, now) else t
  }

  /** The time periodic_recalc computes. */
  function RecalcTime(offset: real, interval: real, now: real): real
    requires 0.0 < interval
  {
    StepPast(Base(offset, interval, now), interval, now)
  }

  lemma {:induction false} SteppedPast(t: real, interval: real, now: real, offset: real)
    requires 0.0 < interval && t <= now + interval
    ensures now < StepPast(t, interval, now) <= now + interval
    ensures OnGrid(StepPast(t, interval, now), offset, interval) <==> OnGrid(t, offset, interval)
    decreases if t <= now then StepsLeft(t, now, interval) + 1 else 0
  {
    if t <= now {
      OneStepFewer(t, now, interval);
      GridStep(t, offset, interval);
      SteppedPast(t + interval, interval, now, offset);
    }
  }

  /**
   * periodic_recalc finds a time after now, at most one interval away. It is the first grid time
   * after now exactly when the search starts on the grid, which every interval of at least
   * MIN_INTERVAL ensures.
   */
  lemma RecalcIsFirst(offset: real, interval: real, now: real)
    requires 0.0 < interval
    ensures now < RecalcTime(offset, interval, now) <= now + interval
    ensures FirstAfter(RecalcTime(offset, interval, now), now, offset, interval) ==
            OnGrid(Base(offset, interval, now), offset, interval)
    ensures MIN_INTERVAL <= interval ==> FirstAfter(RecalcTime(offset, interval, now), now, offset, interval)
  {
    var at := RecalcTime(offset, interval, now);
    BaseNear(offset, interval, now);
    SteppedPast(Base(offset, interval, now), interval, now, offset);
    if OnGrid(at, offset, interval) {
      SoonIsFirst(at, now, offset, interval);
    }
    if MIN_INTERVAL <= interval {
      BaseOnGrid(offset, interval, now);
    }
  }

  /** periodic_recalc. On exact numbers a positive interval always makes a difference. */
  method PeriodicRecalc(offset: real, interval: real, now: real) returns (at: real)
    requires 0.0 < interval
    ensures at == RecalcTime(offset, interval, now)
  {
    var divisor := if interval > MIN_INTERVAL then interval else MIN_INTERVAL;
    at := offset + divisor * EvFloor((now - offset) / divisor);
    assert at == Base(offset, interval, now);
    while at <= now
      invariant StepPast(at, interval, now) == RecalcTime(offset, interval, now)
      decreases if at <= now then StepsLeft(at, now, interval) + 1 else 0
    {
      var next := at + interval;
      if next == at {
        at := now;
        break;
      }
      OneStepFewer(at, now, interval);
      at := next;
    }
  }

  /**
   * A shorter interval can leave its grid: with three quarters of MIN_INTERVAL, at one MIN_INTERVAL past the offset,
   * the time computed is not the first one after now.
   */
  lemma ShortIntervalLeavesGrid()
    ensures !OnGrid(Base(0.0, 0.75 * MIN_INTERVAL, MIN_INTERVAL), 0.0, 0.75 * MIN_INTERVAL)
    ensures !FirstAfter(RecalcTime(0.0, 0.75 * MIN_INTERVAL, MIN_INTERVAL), MIN_INTERVAL, 0.0, 0.75 * MIN_INTERVAL)
  {
    RecalcIsFirst(0.0, 0.75 * MIN_INTERVAL, MIN_INTERVAL);
    assert (MIN_INTERVAL - 0.0) / MIN_INTERVAL == 1.0;
    forall n {:trigger Nth(n, 0.0, 0.75 * MIN_INTERVAL)}
      ensures MIN_INTERVAL != Nth(n, 0.0, 0.75 * MIN_INTERVAL)
    {
      if n <= 1 {
        assert n as real * (0.75 * MIN_INTERVAL) <= 0.75 * MIN_INTERVAL;
      } else {
        assert n as real * (0.75 * MIN_INTERVAL) >= 1.5 * MIN_INTERVAL;
      }
    }
  }

  /** periodic_recalc finds the first grid time. */
  ghost predicate FindsFirst(offset: real, interval: real, now: real)
    requires 0.0 < interval
  {
    FirstAfter(RecalcTime(offset, interval, now), now, offset, interval)
  }

  function Times(m: int, interval: real): real {
    m as real * interval
  }

  /** MIN_INTERVAL is a whole number of intervals. */
  ghost predicate DividesMinimum(interval: real) {
    exists m: int :: Times(m, interval) == MIN_INTERVAL
  }

  /** Steps of MIN_INTERVAL are steps of an interval that divides it. */
  lemma DividingOnGrid(offset: real, interval: real, now: real)
    requires 0.0 < interval < MIN_INTERVAL && DividesMinimum(interval)
    ensures OnGrid(Base(offset, interval, now), offset, interval)
  {
    var m: int :| Times(m, interval) == MIN_INTERVAL;
    var k := ((now - offset) / MIN_INTERVAL).Floor;
    ProductOfSteps(m, k, interval);
    assert Base(offset, interval, now) == Nth(m * k, offset, interval);
  }

  lemma ProductOfSteps(m: int, k: int, interval: real)
    ensures Times(m, interval) * k as real == (m * k) as real * interval
  {
    assert (m * k) as real == m as real * k as real;
  }

  /** One MIN_INTERVAL after its offset, an interval that does not divide it is not searched from a grid time. */
  lemma OtherOffGrid(offset: real, interval: real)
    requires 0.0 < interval < MIN_INTERVAL && !DividesMinimum(interval)
    ensures !OnGrid(Base(offset, interval, offset + MIN_INTERVAL), offset, interval)
  {
    assert (offset + MIN_INTERVAL - offset) / MIN_INTERVAL == 1.0;
    forall n {:trigger Nth(n, offset, interval)} ensures offset + MIN_INTERVAL != Nth(n, offset, interval) {
      assert Times(n, interval) != MIN_INTERVAL;
    }
  }

  /**
   * periodic_recalc finds the first time after now that is congruent to the offset, whatever the time is, exactly
   * when the interval is at least MIN_INTERVAL or divides it.
   */
  lemma AlwaysFirst(offset: real, interval: real)
    requires 0.0 < interval
    ensures (forall now :: FindsFirst(offset, interval, now)) <==> MIN_INTERVAL <= interval || DividesMinimum(interval)
  {
    if MIN_INTERVAL <= interval || DividesMinimum(interval) {
      forall now ensures FindsFirst(offset, interval, now) {
        RecalcIsFirst(offset, interval, now);
        if interval < MIN_INTERVAL {
          DividingOnGrid(offset, interval, now);
        }
      }
    } else {
      RecalcIsFirst(offset, interval, offset + MIN_INTERVAL);
      OtherOffGrid(offset, interval);
      assert !FindsFirst(offset, interval, offset + MIN_INTERVAL);
    }
  }

  // ---------- Blocking ----------

  function Max(a: real, b: real): real {
    if a < b then b else a
  }

  function Min(a: real, b: real): real {
    if a < b then a else b
  }

  /**
   * How long ev_run may block: `sleeptime` asleep first, when that is positive, and then `waittime` in
   * the backend. mayWait is false when something is already there to do.
   */
  method BlockingTime(mayWait: bool, timers: Heap, periodics: Heap, mn_now: real, ev_rt_now: real, prev_mn_now: real,
                      timeout_blocktime: real, io_blocktime: real, backend_mintime: real)
    returns (waittime: real, sleeptime: real)
    requires timers.Valid() && periodics.Valid()
    ensures !mayWait ==> waittime == sleeptime == 0.0
    ensures mayWait ==> backend_mintime <= waittime
    // nothing is waited for beyond its time, the configured granularity and the backend's least wait
    ensures mayWait ==> forall w :: w in timers.members ==>
              waittime + Max(sleeptime, 0.0) <=
                Max(backend_mintime, Max(timeout_blocktime, Min(MAX_BLOCKTIME, w.at - mn_now)))
    ensures mayWait ==> forall w :: w in periodics.members ==>
              waittime + Max(sleeptime, 0.0) <=
                Max(backend_mintime, Max(timeout_blocktime, Min(MAX_BLOCKTIME, w.at - ev_rt_now)))
    // and nothing is cut short
    ensures mayWait ==>
              || waittime + Max(sleeptime, 0.0) == Max(backend_mintime, Max(timeout_blocktime, MAX_BLOCKTIME))
              || (exists w :: w in timers.members && waittime + Max(sleeptime, 0.0) ==
                    Max(backend_mintime, Max(timeout_blocktime, w.at - mn_now)))
              || (exists w :: w in periodics.members && waittime + Max(sleeptime, 0.0) ==
                    Max(backend_mintime, Max(timeout_blocktime, w.at - ev_rt_now)))
    // the sleep is what io_blocktime still asks for since the last poll, as far as the backend's least wait allows
    ensures mayWait && io_blocktime != 0.0 ==>
              sleeptime == Min(io_blocktime - (mn_now - prev_mn_now),
                               waittime + Max(sleeptime, 0.0) - backend_mintime)
    ensures io_blocktime == 0.0 ==> sleeptime == 0.0
  {
    waittime, sleeptime := 0.0, 0.0;
    if mayWait {
      waittime := MAX_BLOCKTIME;
      if timers.cnt != 0 {
        LeastOfAll(timers);
        var to := timers.heap[HEAP0].at - mn_now;
        if waittime > to { waittime := to; }
      } else {
        NoMembers(timers);
      }
      if periodics.cnt != 0 {
        LeastOfAll(periodics);
        var to := periodics.heap[HEAP0].at - ev_rt_now;
        if waittime > to { waittime := to; }
      } else {
        NoMembers(periodics);
      }
      if waittime < timeout_blocktime { waittime := timeout_blocktime; }
      if waittime < backend_mintime { waittime := backend_mintime; }
      if io_blocktime != 0.0 {
        sleeptime := io_blocktime - (mn_now - prev_mn_now);
        if sleeptime > waittime - backend_mintime {
          sleeptime := waittime - backend_mintime;
        }
        if sleeptime > 0.0 {
          waittime := waittime - sleeptime;
        }
      }
    }
  }

  lemma LeastOfAll(heap: Heap)
    requires heap.Valid() && heap.cnt != 0
    ensures heap.heap[HEAP0].w in heap.members && heap.heap[HEAP0].w.at == heap.heap[HEAP0].at
    ensures forall w :: w in heap.members ==> heap.heap[HEAP0].at <= w.at
  {
    assert heap.heap[HEAP0] == heap.h[0];
    forall w | w in heap.members ensures heap.heap[HEAP0].at <= w.at {
      heap.RootIsLeast(w);
    }
  }

  lemma NoMembers(heap: Heap)
    requires heap.Valid() && heap.cnt == 0
    ensures heap.members == {}
  {
  }
}
