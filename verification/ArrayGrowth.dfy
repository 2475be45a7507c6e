/** Growth of libev's dynamic arrays: array_nextsize, array_realloc and array_needsize. */
module ArrayGrowth {
  import opened Arithmetic

  const MALLOC_ROUND := 4096
  const LONG_SIZE := 8  // sizeof (void *)

  /** `x & ~(MALLOC_ROUND - 1)` for a nonnegative x. */
  function RoundDown(x: nat): nat {
    x / MALLOC_ROUND * MALLOC_ROUND
  }

  /** What is left after rounding ncur elements up to whole allocation chunks and dividing again. */
  function RoundedCount(elem: nat, ncur: nat): nat
    requires 0 < elem
  {
    var bytes := RoundDown(ncur * elem + elem + (MALLOC_ROUND - 1) + LONG_SIZE * 4);
    if bytes < LONG_SIZE * 4 then 0 else (bytes - LONG_SIZE * 4) / elem
  }

  /** The detour through bytes never loses an element: it gains at least one. */
  lemma RoundedCountGrows(elem: nat, ncur: nat)
    requires 0 < elem
    ensures ncur * elem + elem + LONG_SIZE * 4 <= RoundDown(ncur * elem + elem + (MALLOC_ROUND - 1) + LONG_SIZE * 4)
    ensures RoundedCount(elem, ncur) >= ncur + 1
  {
    var want := ncur * elem + elem;
    var bytes := RoundDown(want + (MALLOC_ROUND - 1) + LONG_SIZE * 4);
    assert bytes - LONG_SIZE * 4 >= want;
    assert want == (ncur + 1) * elem;
    DivideAtLeast(bytes - LONG_SIZE * 4, elem, ncur + 1);
  }

  /** So many elements and the allocator's own words fill whole chunks: one element more would not fit. */
  ghost predicate FillsChunks(elem: nat, ncur: nat) {
    exists bytes: nat ::
      bytes % MALLOC_ROUND == 0 && ncur * elem + LONG_SIZE * 4 <= bytes < (ncur + 1) * elem + LONG_SIZE * 4
  }

  /** It gains no more than one element and a chunk, and fills the chunks. */
  lemma RoundedCountFits(elem: nat, ncur: nat)
    requires 0 < elem
    ensures RoundedCount(elem, ncur) * elem <= ncur * elem + elem + (MALLOC_ROUND - 1)
    ensures FillsChunks(elem, RoundedCount(elem, ncur))
  {
    RoundedCountGrows(elem, ncur);
    var bytes := RoundDown(ncur * elem + elem + (MALLOC_ROUND - 1) + LONG_SIZE * 4);
    Quotient(bytes - LONG_SIZE * 4, elem);
    assert bytes % MALLOC_ROUND == 0;
  }

  lemma Quotient(x: nat, d: nat)
    requires 0 < d
    ensures x / d * d <= x < (x / d + 1) * d
  {
  }

  lemma DivideAtLeast(x: nat, d: nat, q: nat)
    requires 0 < d && x >= q * d
    ensures x / d >= q
  {
    var r := x / d;
    assert x < (r + 1) * d;
    if r < q {
      MulLe(r + 1, q, d);
    }
  }

  /**
   * The new capacity of an array that holds `cur` slots of `elem` bytes and needs `cnt`.
   * It is enough, and it at least doubles. It is at most twice what is needed, apart from the rounding,
   * which is there only beyond one chunk, and adds no more than one element and a chunk.
   */
  method NextSize(elem: nat, cur: nat, cnt: nat) returns (ncur: nat)
    requires 0 < elem && cur < cnt
    ensures ncur >= cnt
    ensures ncur >= 2 * (cur + 1)
    ensures ncur * elem <= 2 * cnt * elem + elem + (MALLOC_ROUND - 1)
    ensures if ncur * elem <= MALLOC_ROUND - LONG_SIZE * 4 then ncur <= 2 * cnt else FillsChunks(elem, ncur)
  {
    ncur := cur + 1;
    ncur := 2 * ncur;
    while cnt > ncur
      invariant 2 * (cur + 1) <= ncur <= 2 * cnt
    {
      ncur := 2 * ncur;
    }
    MulLe(ncur, 2 * cnt, elem);
    if elem * ncur > MALLOC_ROUND - LONG_SIZE * 4 {
      RoundedCountGrows(elem, ncur);
      RoundedCountFits(elem, ncur);
      MulLe(ncur, RoundedCount(elem, ncur), elem);
      ncur := ncur * elem;
      ncur := RoundDown(ncur + elem + (MALLOC_ROUND - 1) + LONG_SIZE * 4);
      ncur := ncur - LONG_SIZE * 4;
      ncur := ncur / elem;
    }
  }

  /**
   * array_needsize: makes room for `cnt` slots, keeping every slot already there.
   * The new slots hold `fill`, where array_realloc leaves them uninitialised.
   */
  method NeedSize<T>(base: array<T>, elem: nat, cnt: nat, fill: T) returns (grown: array<T>)
    requires 0 < elem
    ensures cnt <= grown.Length
    ensures base.Length <= grown.Length && forall i :: 0 <= i < base.Length ==> grown[i] == base[i]
    ensures if cnt <= base.Length then grown == base
            else fresh(grown) && 2 * (base.Length + 1) <= grown.Length
    ensures forall i :: base.Length <= i < grown.Length ==> grown[i] == fill
  {
    if cnt <= base.Length {
      return base;
    }
    var size := NextSize(elem, base.Length, cnt);
    grown := new T[size](i requires 0 <= i < size reads base => if i < base.Length then base[i] else fill);
  }
}
