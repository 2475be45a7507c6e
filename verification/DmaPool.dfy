/** A pool of DMA buffers in bf_sys_dma_hugepages.c: where its buffers lie, and its address translations. */
module DmaPool {
  import opened Arithmetic
  import opened DmaRounding

  const HUGE_PAGE: nat := 0x20_0000   // BF_HUGE_PAGE_SIZE, 2 MiB
  const HEADER: nat := 4096           // POOL_HDR_SIZE
  const WORD: nat := 8                // the size_t at the start of the mapping

  // ---------- Layout ----------

  /** The offset of the first buffer: bigger than the header if the pool does not fit into one page. */
  function HeaderOffset(size: nat, cnt: nat): (h: nat)
    requires size <= HUGE_PAGE
  {
    if size * cnt + HEADER > HUGE_PAGE then ConvToNextAligned(size, HEADER) else HEADER
  }

  /** ALIGN_TO_BF_PAGE_SIZE */
  function MappedSize(size: nat, cnt: nat): nat
    requires size <= HUGE_PAGE
  {
    (size * cnt + HeaderOffset(size, cnt) + HUGE_PAGE - 1) / HUGE_PAGE * HUGE_PAGE
  }

  /** Where buffer i starts in the mapping. */
  function Offset(size: nat, cnt: nat, i: nat): nat
    requires size <= HUGE_PAGE
  {
    HeaderOffset(size, cnt) + i * size
  }

  lemma PageIsPow2()
    ensures HEADER == Pow2(12) && HUGE_PAGE == Pow2(21)
  {
    assert Pow2(1) == 2 && Pow2(2) == 4 && Pow2(3) == 8 && Pow2(4) == 16 && Pow2(5) == 32;
    Pow2Sum(4, 4);
    Pow2Sum(8, 4);
    Pow2Sum(8, 8);
    Pow2Sum(16, 5);
  }

  lemma HeaderRounds(size: nat, cnt: nat)
    requires size <= HUGE_PAGE
    ensures var h := HeaderOffset(size, cnt); h % HEADER == 0 && HEADER <= h <= HUGE_PAGE
    ensures if size * cnt + HEADER > HUGE_PAGE then size <= HeaderOffset(size, cnt) < size + HEADER
            else HeaderOffset(size, cnt) == HEADER
  {
    PageIsPow2();
    if size * cnt + HEADER > HUGE_PAGE {
      ConvertsToNextMultiple(size, 12);
      NotAbove(ConvToNextAligned(size, HEADER), HUGE_PAGE, HEADER);
      assert 0 < size;
    }
  }

  /** A multiple of a that is less than a above a multiple of a is not above it. */
  lemma NotAbove(r: nat, p: nat, a: nat)
    requires 0 < a && r % a == 0 && p % a == 0 && r < p + a
    ensures r <= p
  {
    if p < r {
      SumOfMultiples(p, r, a);
      Small(r - p, a);
    }
  }

  /** The alignments the pool is made for: the others that pass its test are 0 and those beyond its assertion. */
  predicate AlignOk(align: nat) {
    0 < align <= HEADER && And(align, align - 1) == 0
  }

  lemma AlignDivides(align: nat) returns (k: nat)
    requires AlignOk(align)
    ensures k <= 12 && align == Pow2(k) && HEADER % align == 0 && HUGE_PAGE % align == 0
  {
    PowerOfTwoTest(align);
    k :| align == Pow2(k);
    PageIsPow2();
    if 12 < k {
      AboveHeader(k);
    }
    Pow2Divides(k, 12);
    Pow2Divides(k, 21);
  }

  lemma AboveHeader(k: nat)
    requires 12 < k
    ensures HEADER < Pow2(k)
  {
    PageIsPow2();
    Pow2Sum(k - 13, 13);
    assert Pow2(13) == 2 * HEADER;
    MulLe(1, Pow2(k - 13), 2 * HEADER);
  }

  /** A buffer gets the size asked for, rounded up to the alignment. */
  lemma SizeRounds(asked: nat, align: nat)
    requires asked <= HUGE_PAGE && AlignOk(align)
    ensures var size := ConvToNextAligned(asked, align);
            asked <= size <= HUGE_PAGE && size < asked + align && size % align == 0
  {
    var k := AlignDivides(align);
    ConvertsToNextMultiple(asked, k);
    NotAbove(ConvToNextAligned(asked, align), HUGE_PAGE, align);
  }

  /** The test for a power of two as bf_sys_dma_pool_create makes it, on 32 bits. */
  predicate PassesTest(align: nat) {
    And(align, (align + UINT32 - 1) % UINT32) == 0
  }

  predicate KeepsSize(asked: nat, align: nat)
    requires asked <= HUGE_PAGE && align <= HEADER
  {
    asked <= ConvToNextAligned(asked, align)
  }

  /**
   * Of the alignments that pass the test and the assertion, exactly the nonzero ones leave every buffer as large as
   * asked.
   */
  lemma SizeKeptUnlessZero(align: nat)
    requires align <= HEADER && PassesTest(align)
    ensures (forall asked :: 0 <= asked <= HUGE_PAGE ==> KeepsSize(asked, align)) <==> align != 0
  {
    if align == 0 {
      ZeroAlignmentLosesSize(1);
      assert !KeepsSize(1, 0);
    } else {
      MaskOf(align);
      forall asked | 0 <= asked <= HUGE_PAGE ensures KeepsSize(asked, align) {
        SizeRounds(asked, align);
      }
    }
  }

  /** Every buffer is aligned as asked, wherever the mapping is, for a mapping starts at a page. */
  lemma BuffersAligned(size: nat, cnt: nat, align: nat, base: nat, i: nat)
    requires AlignOk(align) && size <= HUGE_PAGE && size % align == 0 && base % HUGE_PAGE == 0
    ensures (base + Offset(size, cnt, i)) % align == 0
  {
    var k := AlignDivides(align);
    HeaderRounds(size, cnt);
    AlignedSum(base, HeaderOffset(size, cnt), i, size, align);
  }

  lemma AlignedSum(base: nat, h: nat, i: nat, size: nat, a: nat)
    requires 0 < a && HUGE_PAGE % a == 0 && HEADER % a == 0
    requires base % HUGE_PAGE == 0 && h % HEADER == 0 && size % a == 0
    ensures (base + (h + i * size)) % a == 0
  {
    MultipleOfMultiple(base, HUGE_PAGE, a);
    MultipleOfMultiple(h, HEADER, a);
    TimesMultiple(i, size, a);
    SumOfMultiples(h, i * size, a);
    SumOfMultiples(base, h + i * size, a);
  }

  lemma EndsBefore(i: nat, n: nat, size: nat)
    requires i < n
    ensures i * size + size <= n * size
  {
    assert i * size + size == (i + 1) * size;
    MulLe(i + 1, n, size);
  }

  lemma NextBehind(size: nat, cnt: nat, i: nat, j: nat)
    requires size <= HUGE_PAGE && i < j
    ensures Offset(size, cnt, i) + size <= Offset(size, cnt, j)
  {
    EndsBefore(i, j, size);
  }

  lemma InsideMapping(size: nat, cnt: nat, i: nat)
    requires size <= HUGE_PAGE && i < cnt
    ensures Offset(size, cnt, i) + size <= MappedSize(size, cnt) && MappedSize(size, cnt) % HUGE_PAGE == 0
  {
    EndsBefore(i, cnt, size);
    assert cnt * size == size * cnt;
    MappedEnough(size * cnt + HeaderOffset(size, cnt));
  }

  /**
   * Every buffer leaves the metadata word alone, lies inside the mapping, which is whole pages, and ends before the
   * next ones.
   */
  lemma BuffersSeparate(size: nat, cnt: nat, i: nat)
    requires size <= HUGE_PAGE && i < cnt
    ensures WORD <= Offset(size, cnt, i) && Offset(size, cnt, i) + size <= MappedSize(size, cnt)
    ensures MappedSize(size, cnt) % HUGE_PAGE == 0
    ensures forall j :: i < j < cnt ==> Offset(size, cnt, i) + size <= Offset(size, cnt, j)
  {
    HeaderRounds(size, cnt);
    InsideMapping(size, cnt, i);
    forall j | i < j < cnt ensures Offset(size, cnt, i) + size <= Offset(size, cnt, j) {
      NextBehind(size, cnt, i, j);
    }
  }

  lemma MappedEnough(n: nat)
    ensures var m := (n + HUGE_PAGE - 1) / HUGE_PAGE * HUGE_PAGE; n <= m && m % HUGE_PAGE == 0
  {
    MulMod((n + HUGE_PAGE - 1) / HUGE_PAGE, HUGE_PAGE);
  }

  /** The mapping is the least number of whole pages that holds the header and all buffers. */
  lemma MappedIsLeast(size: nat, cnt: nat, m: nat)
    requires size <= HUGE_PAGE
    ensures MappedSize(size, cnt) % HUGE_PAGE == 0 && Offset(size, cnt, cnt) <= MappedSize(size, cnt)
    ensures m % HUGE_PAGE == 0 && Offset(size, cnt, cnt) <= m ==> MappedSize(size, cnt) <= m
  {
    var n := size * cnt + HeaderOffset(size, cnt);
    assert Offset(size, cnt, cnt) == n;
    MappedEnough(n);
    if m % HUGE_PAGE == 0 && n <= m {
      assert MappedSize(size, cnt) < n + HUGE_PAGE;
      NotAbove(MappedSize(size, cnt), m, HUGE_PAGE);
    }
  }

  // ---------- Buffers and pages ----------

  /** Every byte of every buffer is in the page in which the buffer starts. */
  ghost predicate NoneSpills(size: nat, cnt: nat)
    requires size <= HUGE_PAGE
  {
    forall i, b :: 0 <= i < cnt && 0 <= b < size ==> SamePage(Offset(size, cnt, i), b)
  }

  predicate SamePage(x: nat, b: nat) {
    (x + b) / HUGE_PAGE == x / HUGE_PAGE
  }

  /**
   * What a caller can check: the pool fits into one page with its header; or the size divides a page; or
   * the buffers end exactly with the first page and reach no further than the second.
   */
  predicate Fits(size: nat, cnt: nat)
    requires size <= HUGE_PAGE
  {
    || size * cnt + HEADER <= HUGE_PAGE
    || (0 < size && HUGE_PAGE % size == 0)
    || (0 < size
        && HeaderOffset(size, cnt) <= HUGE_PAGE && (HUGE_PAGE - HeaderOffset(size, cnt)) % size == 0
        && HeaderOffset(size, cnt) + size * cnt <= 2 * HUGE_PAGE)
  }

  /** x / p is the number of whole pages below x. */
  lemma PageOf(x: nat, m: nat, b: nat)
    requires m * HUGE_PAGE <= x && x + b < (m + 1) * HUGE_PAGE
    ensures SamePage(x, b)
  {
  }

  lemma Spills(x: nat, m: nat, b: nat)
    requires x < m * HUGE_PAGE <= x + b
    ensures !SamePage(x, b)
  {
  }

  /** Buffers whose size divides a page, starting at a multiple of it, stay within a page. */
  lemma DividingStays(size: nat, x: nat, b: nat)
    requires 0 < size && HUGE_PAGE % size == 0 && x % size == 0 && b < size
    ensures SamePage(x, b)
  {
    var m := x / HUGE_PAGE;
    var end := (m + 1) * HUGE_PAGE;
    TimesMultiple(m + 1, HUGE_PAGE, size);
    SumOfMultiples(x, end, size);
    if end - x < size {
      Small(end - x, size);
    }
    PageOf(x, m, b);
  }

  lemma HeaderDivides(size: nat, cnt: nat)
    requires 0 < size <= HUGE_PAGE && HUGE_PAGE % size == 0
    requires size * cnt + HEADER > HUGE_PAGE
    ensures HeaderOffset(size, cnt) % size == 0
  {
    PageIsPow2();
    var k := DivisorsOfPow2(size, 21);
    HeaderRounds(size, cnt);
    var h := HeaderOffset(size, cnt);
    if k <= 12 {
      Pow2Divides(k, 12);
      MultipleOfMultiple(h, HEADER, size);
    } else {
      // the size is a multiple of the header's already
      Pow2Divides(12, k);
      NotAbove(h, size, HEADER);
    }
  }

  lemma FitsStays(size: nat, cnt: nat, i: nat, b: nat)
    requires size <= HUGE_PAGE && Fits(size, cnt) && i < cnt && b < size
    ensures SamePage(Offset(size, cnt, i), b)
  {
    var h := HeaderOffset(size, cnt);
    if size * cnt + HEADER <= HUGE_PAGE {
      OnePageStays(size, cnt, i, b);
    } else if HUGE_PAGE % size == 0 {
      HeaderDivides(size, cnt);
      TimesMultiple(i, size, size);
      SumOfMultiples(h, i * size, size);
      DividingStays(size, h + i * size, b);
    } else {
      Exactly(HUGE_PAGE - h, size);
      TwoPagesStay(h, size, cnt, i, b, (HUGE_PAGE - h) / size);
    }
  }

  lemma OnePageStays(size: nat, cnt: nat, i: nat, b: nat)
    requires size * cnt + HEADER <= HUGE_PAGE && i < cnt && b < size
    ensures SamePage(HEADER + i * size, b)
  {
    MulLe(i + 1, cnt, size);
    assert (i + 1) * size == i * size + size;
    PageOf(HEADER + i * size, 0, b);
  }

  /** A buffer ends with the first page. */
  lemma TwoPagesStay(h: nat, size: nat, cnt: nat, i: nat, b: nat, q: nat)
    requires h + q * size == HUGE_PAGE && h + cnt * size <= 2 * HUGE_PAGE
    requires i < cnt && b < size
    ensures SamePage(h + i * size, b)
  {
    NextMultiple(i, size);
    if i < q {
      MulLe(i + 1, q, size);
      PageOf(h + i * size, 0, b);
    } else {
      MulLe(i + 1, cnt, size);
      MulLe(q, i, size);
      PageOf(h + i * size, 1, b);
    }
  }

  lemma NextMultiple(i: nat, size: nat)
    ensures (i + 1) * size == i * size + size
  {
  }

  lemma Exactly(x: nat, size: nat)
    requires 0 < size && x % size == 0
    ensures x == x / size * size
  {
  }

  /** A boundary that lies strictly inside the buffers, but between none of them, is inside one. */
  lemma BoundaryInside(size: nat, cnt: nat, m: nat)
    requires 0 < size <= HUGE_PAGE
    requires var h := HeaderOffset(size, cnt); h <= m * HUGE_PAGE < h + size * cnt && (m * HUGE_PAGE - h) % size != 0
    ensures !NoneSpills(size, cnt)
  {
    var h := HeaderOffset(size, cnt);
    var i, r := BufferAt(m * HUGE_PAGE - h, size, cnt);
    Spills(Offset(size, cnt, i), m, r);
    assert !SamePage(Offset(size, cnt, i), r);
  }

  /** The buffer that byte d of the buffers belongs to. */
  lemma BufferAt(d: nat, size: nat, cnt: nat) returns (i: nat, r: nat)
    requires 0 < size && d < size * cnt
    ensures d == i * size + r && i < cnt && r == d % size < size
  {
    i, r := d / size, d % size;
    if cnt <= i {
      MulLe(cnt, i, size);
    }
  }

  /**
   * No buffer spills over from its page exactly under that condition. The promise that the header is
   * chosen so that none ever does is not kept for other sizes.
   */
  lemma NoneSpillsIff(size: nat, cnt: nat)
    requires size <= HUGE_PAGE
    ensures NoneSpills(size, cnt) <==> Fits(size, cnt)
  {
    if Fits(size, cnt) {
      forall i, b | 0 <= i < cnt && 0 <= b < size ensures SamePage(Offset(size, cnt, i), b) {
        FitsStays(size, cnt, i, b);
      }
    } else {
      HeaderRounds(size, cnt);
      var h := HeaderOffset(size, cnt);
      if (HUGE_PAGE - h) % size != 0 {
        BoundaryInside(size, cnt, 1);
      } else {
        if (2 * HUGE_PAGE - h) % size == 0 {
          SumOfMultiples(HUGE_PAGE - h, 2 * HUGE_PAGE - h, size);
        }
        BoundaryInside(size, cnt, 2);
      }
    }
  }

  /** For instance, the first of two buffers of 1.5 MiB lies in two pages. */
  lemma SpillExample()
    ensures var size := 0x18_0000; !NoneSpills(size, 2) && !SamePage(Offset(size, 2, 0), size - 1)
  {
    var size: nat := 0x18_0000;
    HeaderRounds(size, 2);
    NoneSpillsIff(size, 2);
  }
}
