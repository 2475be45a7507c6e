/** The pool object of bf_sys_dma_hugepages.c: its creation, and translation between virtual and bus addresses. */
module DmaBuffers {
  import opened Wrappers
  import opened Arithmetic
  import opened DmaRounding
  import opened DmaPool

  /** bf_huge_page_info_t */
  datatype Page = Page(dma: nat, virt: nat)

  /** The virtual address of a page within the mapping that starts at `base`. */
  predicate PagesAt(pages: seq<Page>, base: nat) {
    forall i :: 0 <= i < |pages| ==> pages[i].virt == base + i * HUGE_PAGE
  }

  /** The bus addresses of different pages do not overlap. */
  predicate DisjointBus(pages: seq<Page>) {
    forall i, j :: 0 <= i < j < |pages| ==>
      pages[i].dma + HUGE_PAGE <= pages[j].dma || pages[j].dma + HUGE_PAGE <= pages[i].dma
  }

  predicate InPage(p: Page, dma: nat) {
    p.dma <= dma < p.dma + HUGE_PAGE
  }

  /** The bus address of an address of the mapping. */
  function ToDma(pages: seq<Page>, base: nat, v: nat): nat
    requires base <= v < base + |pages| * HUGE_PAGE
  {
    pages[(v - base) / HUGE_PAGE].dma + (v - base) % HUGE_PAGE
  }

  /** The address that the first page with this bus address gives it. */
  function ToVirt(pages: seq<Page>, dma: nat): Option<nat> {
    if pages == [] then None
    else if InPage(pages[0], dma) then Some(pages[0].virt + (dma - pages[0].dma))
    else ToVirt(pages[1..], dma)
  }

  lemma {:induction false} ToVirtAt(pages: seq<Page>, dma: nat, k: nat)
    requires k < |pages| && InPage(pages[k], dma)
    requires forall i :: 0 <= i < k ==> !InPage(pages[i], dma)
    ensures ToVirt(pages, dma) == Some(pages[k].virt + (dma - pages[k].dma))
  {
    if k != 0 {
      ToVirtAt(pages[1..], dma, k - 1);
    }
  }

  lemma {:induction false} ToVirtFinds(pages: seq<Page>, dma: nat) returns (k: nat)
    ensures k <= |pages| && forall i :: 0 <= i < k ==> !InPage(pages[i], dma)
    ensures if k < |pages| then
              InPage(pages[k], dma) && ToVirt(pages, dma) == Some(pages[k].virt + (dma - pages[k].dma))
            else ToVirt(pages, dma) == None
  {
    k := 0;
    if pages != [] && !InPage(pages[0], dma) {
      k := ToVirtFinds(pages[1..], dma);
      k := k + 1;
    }
  }

  /** An address is what its bus address is translated back to. */
  lemma VirtRoundTrip(pages: seq<Page>, base: nat, v: nat)
    requires PagesAt(pages, base) && DisjointBus(pages) && base <= v < base + |pages| * HUGE_PAGE
    ensures ToVirt(pages, ToDma(pages, base, v)) == Some(v)
  {
    ToVirtAt(pages, ToDma(pages, base, v), (v - base) / HUGE_PAGE);
  }

  /** A bus address is what its virtual address is translated back to, if it has one; if not, it is in no page. */
  lemma DmaRoundTrip(pages: seq<Page>, base: nat, dma: nat)
    requires PagesAt(pages, base)
    ensures match ToVirt(pages, dma)
            case Some(v) => base <= v < base + |pages| * HUGE_PAGE && ToDma(pages, base, v) == dma
            case None => forall i :: 0 <= i < |pages| ==> !InPage(pages[i], dma)
  {
    var k := ToVirtFinds(pages, dma);
    if k < |pages| {
      MulLe(k + 1, |pages|, HUGE_PAGE);
      ModUnique(k * HUGE_PAGE + (dma - pages[k].dma), HUGE_PAGE, k, dma - pages[k].dma);
    }
  }

  /** What the device sees of a buffer that stays in its page is in one piece. */
  lemma BufferInOnePiece(pages: seq<Page>, base: nat, x: nat, b: nat)
    requires x + b < |pages| * HUGE_PAGE && SamePage(x, b)
    ensures ToDma(pages, base, base + x + b) == ToDma(pages, base, base + x) + b
  {
  }

  /** bf_sys_dma_buffer_index gives the number of the buffer that an address is in, not only of one's start. */
  lemma IndexOfBuffer(size: nat, i: nat, b: nat)
    requires b < size
    ensures (i * size + b) / size == i
  {
    ModUnique(i * size + b, size, i, b);
  }

  class Pool {
    const buf_start: nat
    const buf_cnt: nat
    const buf_size: nat
    const pool_hdr_offset: nat
    const pages: seq<Page>
    const pool_buf_ptr: array<nat>
    var pool_buf_offset: nat

    /** The start of the mapping. */
    ghost function Base(): int {
      buf_start - pool_hdr_offset
    }

    ghost predicate Valid() {
      && buf_size <= HUGE_PAGE
      && pool_hdr_offset == HeaderOffset(buf_size, buf_cnt)
      && |pages| * HUGE_PAGE == MappedSize(buf_size, buf_cnt)
      && 0 <= Base() && Base() % HUGE_PAGE == 0 && PagesAt(pages, Base())
    }

    constructor (base: nat, size: nat, cnt: nat, hdr: nat, pages: seq<Page>, queue: array<nat>)
      ensures buf_start == base + hdr && buf_cnt == cnt && buf_size == size && pool_hdr_offset == hdr
      ensures this.pages == pages && pool_buf_ptr == queue && pool_buf_offset == 0
    {
      buf_start, buf_cnt, buf_size, pool_hdr_offset := base + hdr, cnt, size, hdr;
      this.pages, pool_buf_ptr, pool_buf_offset := pages, queue, 0;
    }

    /** bf_sys_dma_get_phy_addr_from_pool */
    method GetPhyAddr(v: nat) returns (phy: nat)
      requires Valid() && Base() <= v < Base() + |pages| * HUGE_PAGE
      ensures phy == ToDma(pages, Base(), v)
    {
      var pool_base_vaddr := buf_start - pool_hdr_offset;
      var delta := v - pool_base_vaddr;
      var page_index := delta / HUGE_PAGE;
      var base_phy_addr, base_vaddr := pages[page_index].dma, pages[page_index].virt;
      delta := v - base_vaddr;
      phy := base_phy_addr + delta;
    }

    /** bf_mem_dma2virt */
    method Dma2Virt(dma: nat) returns (v: Option<nat>)
      ensures v == ToVirt(pages, dma)
    {
      var i := 0;
      while i < |pages|
        invariant 0 <= i <= |pages| && forall j :: 0 <= j < i ==> !InPage(pages[j], dma)
      {
        if pages[i].dma <= dma && dma < pages[i].dma + HUGE_PAGE {
          ToVirtAt(pages, dma, i);
          return Some(pages[i].virt + (dma - pages[i].dma));
        }
        i := i + 1;
      }
      var _ := ToVirtFinds(pages, dma);
      return None;
    }

    /** bf_sys_dma_buffer_index, for an address in buffer i */
    method BufferIndex(v: nat, ghost i: nat) returns (idx: nat)
      requires i < buf_cnt && buf_start + i * buf_size <= v < buf_start + i * buf_size + buf_size
      ensures idx == i
    {
      idx := (v - buf_start) / buf_size;
      IndexOfBuffer(buf_size, i, v - buf_start - i * buf_size);
    }
  }

  /** mmap's result; a mapping starts at a huge page. */
  datatype Mapping = Failed | Mapped(base: nat)

  /** log_virt_dma_addr; `bus` gives the bus address of each page. */
  method LogVirtDmaAddr(base: nat, cnt: nat, bus: nat -> nat) returns (pages: seq<Page>)
    ensures |pages| == cnt && PagesAt(pages, base)
    ensures forall i :: 0 <= i < cnt ==> pages[i].dma == bus(base + i * HUGE_PAGE)
  {
    pages := [];
    var huge_ptr := base;
    for i := 0 to cnt
      invariant |pages| == i && huge_ptr == base + i * HUGE_PAGE && PagesAt(pages, base)
      invariant forall j :: 0 <= j < i ==> pages[j].dma == bus(base + j * HUGE_PAGE)
    {
      pages := pages + [Page(bus(huge_ptr), huge_ptr)];
      huge_ptr := huge_ptr + HUGE_PAGE;
    }
  }

  /**
   * bf_sys_dma_pool_create. It refuses alignments that are not powers of two (or 0), and buffers bigger than a
   * page; only then it asserts that the alignment is no more than the header. Otherwise, and if the mapping
   * succeeds, the free list holds every buffer, in order.
   */
  method PoolCreate(size: nat, cnt: nat, align: nat, mapping: Mapping, bus: nat -> nat) returns (pool: Pool?)
    requires align < UINT32 && (PassesTest(align) && size <= HUGE_PAGE ==> align <= HEADER)
    requires mapping.Mapped? ==> mapping.base % HUGE_PAGE == 0
    ensures pool == null <==> !(align == 0 || AlignOk(align)) || size > HUGE_PAGE || mapping.Failed?
    ensures pool != null ==>
              && pool.Valid() && fresh(pool) && fresh(pool.pool_buf_ptr) && pool.Base() == mapping.base
              && pool.buf_cnt == cnt && pool.buf_size == ConvToNextAligned(size, align)
              && pool.pool_buf_offset == 0 && pool.pool_buf_ptr.Length == cnt
              && (forall i :: 0 <= i < cnt ==> pool.pool_buf_ptr[i] == pool.Base() + Offset(pool.buf_size, cnt, i))
              && (forall i :: 0 <= i < |pool.pages| ==> pool.pages[i].dma == bus(pool.pages[i].virt))
  {
    if align <= HEADER {
      AlignmentTest(align);
    }
    if !PassesTest(align) || size > HUGE_PAGE {
      return null;
    }
    RoundedSizeFits(size, align);
    if mapping.Failed? {
      return null;
    }
    pool := Fill(ConvToNextAligned(size, align), cnt, mapping.base, bus);
  }

  /** The part of bf_sys_dma_pool_create after the size has been rounded. */
  method Fill(size: nat, cnt: nat, base: nat, bus: nat -> nat) returns (pool: Pool)
    requires size <= HUGE_PAGE && base % HUGE_PAGE == 0
    ensures pool.Valid() && fresh(pool) && fresh(pool.pool_buf_ptr) && pool.Base() == base
    ensures pool.buf_cnt == cnt && pool.buf_size == size && pool.pool_buf_offset == 0 && pool.pool_buf_ptr.Length == cnt
    ensures forall i :: 0 <= i < cnt ==> pool.pool_buf_ptr[i] == base + Offset(size, cnt, i)
    ensures forall i :: 0 <= i < |pool.pages| ==> pool.pages[i].dma == bus(pool.pages[i].virt)
  {
    var header_offset := HEADER;
    if size * cnt + header_offset > HUGE_PAGE {
      header_offset := ConvToNextAligned(size, HEADER);
    }
    var alloced_size := (size * cnt + header_offset + HUGE_PAGE - 1) / HUGE_PAGE * HUGE_PAGE;
    var num_huge_pages := alloced_size / HUGE_PAGE;
    WholePages(size * cnt + header_offset);
    var pages := LogVirtDmaAddr(base, num_huge_pages, bus);
    var queue := FillQueue(base + header_offset, cnt, size);
    pool := new Pool(base, size, cnt, header_offset, pages, queue);
  }

  /** The test of the alignment lets 0 and the powers of two pass. */
  lemma AlignmentTest(align: nat)
    requires align <= HEADER
    ensures PassesTest(align) <==> align == 0 || AlignOk(align)
  {
    if align != 0 {
      MaskOf(align);
    }
  }

  lemma RoundedSizeFits(size: nat, align: nat)
    requires size <= HUGE_PAGE && (align == 0 || AlignOk(align))
    ensures ConvToNextAligned(size, align) <= HUGE_PAGE
  {
    if align == 0 {
      ZeroAlignmentLosesSize(size);
    } else {
      SizeRounds(size, align);
    }
  }

  lemma WholePages(n: nat)
    ensures var alloced := (n + HUGE_PAGE - 1) / HUGE_PAGE * HUGE_PAGE; alloced / HUGE_PAGE * HUGE_PAGE == alloced
  {
    MulMod((n + HUGE_PAGE - 1) / HUGE_PAGE, HUGE_PAGE);
  }

  method FillQueue(start: nat, cnt: nat, size: nat) returns (queue: array<nat>)
    ensures fresh(queue) && queue.Length == cnt && forall i :: 0 <= i < cnt ==> queue[i] == start + i * size
  {
    queue := new nat[cnt];
    var buf_ptr := start;
    for i := 0 to cnt
      invariant buf_ptr == start + i * size && forall j :: 0 <= j < i ==> queue[j] == start + j * size
    {
      queue[i] := buf_ptr;
      buf_ptr := buf_ptr + size;
    }
  }
}
