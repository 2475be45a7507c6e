/** The select backend: bit vectors in words of NFDBITS bits, changed and read back bit by bit. */
module SelectBackend {
  import opened Watchers

  const NFDBITS: nat := 64

  /** An fd_mask, as its bits from the lowest up. */
  type Word = w: seq<bool> | |w| == NFDBITS witness seq(NFDBITS, _ => false)

  const ZERO: Word := seq(NFDBITS, _ => false)

  /** 1UL << n */
  function BitMask(n: nat): Word
    requires n < NFDBITS
  {
    seq(NFDBITS, i => i == n)
  }

  function Or(a: Word, b: Word): Word {
    seq(NFDBITS, i requires 0 <= i < NFDBITS => a[i] || b[i])
  }

  function And(a: Word, b: Word): Word {
    seq(NFDBITS, i requires 0 <= i < NFDBITS => a[i] && b[i])
  }

  function Not(a: Word): Word {
    seq(NFDBITS, i requires 0 <= i < NFDBITS => !a[i])
  }

  /** Whether descriptor fd's bit is set; beyond the vector it is not. */
  predicate IsSet(v: seq<Word>, fd: nat) {
    fd / NFDBITS < |v| && v[fd / NFDBITS][fd % NFDBITS]
  }

  /** The events two vectors have for a descriptor. */
  function MaskIn(r: seq<Word>, w: seq<Word>, fd: nat): (m: Mask)
    ensures (Read in m <==> IsSet(r, fd)) && (Write in m <==> IsSet(w, fd)) && m <= {Read, Write}
  {
    (if IsSet(r, fd) then {Read} else {}) + (if IsSet(w, fd) then {Write} else {})
  }

  lemma WordAndBit(word: nat, bit: nat)
    requires bit < NFDBITS
    ensures (word * NFDBITS + bit) / NFDBITS == word && (word * NFDBITS + bit) % NFDBITS == bit
    ensures word * NFDBITS + NFDBITS == (word + 1) * NFDBITS
  {
  }

  /** Two descriptors share both word and bit only if they are the same. */
  lemma SameBit(fd: nat, g: nat)
    requires fd / NFDBITS == g / NFDBITS && fd % NFDBITS == g % NFDBITS
    ensures fd == g
  {
  }

  /** One vector's word is changed: the bit is set, and cleared again unless it is wanted. */
  function Changed(v: seq<Word>, fd: nat, wanted: bool): (r: seq<Word>)
    requires fd / NFDBITS < |v|
    ensures |r| == |v|
  {
    var word, mask := fd / NFDBITS, BitMask(fd % NFDBITS);
    var on := v[word := Or(v[word], mask)];
    if wanted then on else on[word := And(on[word], Not(mask))]
  }

  lemma ChangedBit(v: seq<Word>, fd: nat, wanted: bool, g: nat)
    requires fd / NFDBITS < |v|
    ensures IsSet(Changed(v, fd, wanted), g) == if g == fd then wanted else IsSet(v, g)
  {
    if g != fd && g / NFDBITS == fd / NFDBITS && g % NFDBITS == fd % NFDBITS {
      SameBit(fd, g);
    }
  }

  /** A ready descriptor as reported to the loop. */
  datatype Ready = Ready(fd: nat, got: Mask)

  /** The events of every descriptor. */
  function Masks(r: seq<Word>, w: seq<Word>): nat -> Mask {
    (fd: nat) => MaskIn(r, w, fd)
  }

  /** The descriptors below n with any events in m, from the highest down, each with its events. */
  function ReadyBelow(m: nat -> Mask, n: nat): seq<Ready> {
    if n == 0 then [] else (if m(n - 1) != {} then [Ready(n - 1, m(n - 1))] else []) + ReadyBelow(m, n - 1)
  }

  /** The same for the descriptors of the first words. */
  function ReadyInWords(m: nat -> Mask, words: nat): seq<Ready> {
    ReadyBelow(m, words * NFDBITS)
  }

  /** The same for those words and some bits of the next. */
  function ReadyInBits(m: nat -> Mask, word: nat, bits: nat): seq<Ready> {
    ReadyBelow(m, word * NFDBITS + bits)
  }

  /** Every descriptor that has events is reported exactly once, with exactly its events. */
  lemma {:induction false} EachReadyOnce(m: nat -> Mask, n: nat)
    ensures var l := ReadyBelow(m, n);
            && (forall i :: 0 <= i < |l| ==> l[i].fd < n && l[i].got == m(l[i].fd) != {})
            && (forall i, j :: 0 <= i < j < |l| ==> l[j].fd < l[i].fd)
            && (forall fd :: 0 <= fd < n && m(fd) != {} ==> Ready(fd, m(fd)) in l)
  {
    if n != 0 {
      EachReadyOnce(m, n - 1);
    }
  }

  class SelectSet {
    var vec_ri: seq<Word>
    var vec_wi: seq<Word>

    ghost predicate Valid()
      reads this
    {
      |vec_ri| == |vec_wi|
    }

    ghost function MaskOf(fd: nat): Mask
      reads this
    {
      MaskIn(vec_ri, vec_wi, fd)
    }

    constructor ()
      ensures Valid() && forall fd: nat :: MaskOf(fd) == {}
    {
      vec_ri, vec_wi := [], [];
    }

    /** Zero words are appended until there are `words` of them. */
    method Grow(words: nat)
      requires Valid()
      modifies this
      ensures Valid() && words <= |vec_ri| && forall g: nat :: MaskOf(g) == old(MaskOf(g))
    {
      while |vec_ri| < words
        invariant Valid() && forall g: nat :: MaskOf(g) == old(MaskOf(g))
        decreases words - |vec_ri|
      {
        vec_ri, vec_wi := vec_ri + [ZERO], vec_wi + [ZERO];
      }
    }

    /** select_modify: exactly fd's bits change, whether or not the vectors have to grow. */
    method Modify(fd: nat, oev: Mask, nev: Mask)
      requires Valid() && oev == MaskOf(fd) && nev <= {Read, Write}
      modifies this
      ensures Valid() && MaskOf(fd) == nev && forall g: nat :: g != fd ==> MaskOf(g) == old(MaskOf(g))
    {
      if oev == nev {
        return;
      }
      var word := fd / NFDBITS;
      var mask := BitMask(fd % NFDBITS);
      if |vec_ri| <= word {
        Grow(word + 1);
      }
      ghost var r, w := vec_ri, vec_wi;
      vec_ri := vec_ri[word := Or(vec_ri[word], mask)];
      if Read !in nev {
        vec_ri := vec_ri[word := And(vec_ri[word], Not(mask))];
      }
      vec_wi := vec_wi[word := Or(vec_wi[word], mask)];
      if Write !in nev {
        vec_wi := vec_wi[word := And(vec_wi[word], Not(mask))];
      }
      assert vec_ri == Changed(r, fd, Read in nev) && vec_wi == Changed(w, fd, Write in nev);
      forall g: nat ensures MaskOf(g) == if g == fd then nev else MaskIn(r, w, g) {
        ChangedBit(r, fd, Read in nev, g);
        ChangedBit(w, fd, Write in nev, g);
      }
    }

    /** The decode loop of select_poll, over the vectors select() has left: from the last word and bit down. */
    static method Decode(vec_ro: seq<Word>, vec_wo: seq<Word>) returns (ready: seq<Ready>)
      requires |vec_ro| == |vec_wo|
      ensures ready == ReadyInWords(Masks(vec_ro, vec_wo), |vec_ro|)
    {
      ready := [];
      var word := |vec_ro|;
      ghost var all := ReadyInWords(Masks(vec_ro, vec_wo), |vec_ro|);
      while word != 0
        invariant 0 <= word <= |vec_ro|
        invariant ready + ReadyInWords(Masks(vec_ro, vec_wo), word) == all
      {
        word := word - 1;
        ready := DecodeWord(vec_ro, vec_wo, word, ready);
      }
    }

    /** One word: unless it is empty in both vectors, its bits from the highest down. */
    static method DecodeWord(vec_ro: seq<Word>, vec_wo: seq<Word>, word: nat, before: seq<Ready>)
      returns (ready: seq<Ready>)
      requires word < |vec_ro| == |vec_wo|
      ensures var m := Masks(vec_ro, vec_wo);
              ready + ReadyInWords(m, word) == before + ReadyInWords(m, word + 1)
    {
      WordAndBit(word, 0);
      ready := before;
      if vec_ro[word] != ZERO || vec_wo[word] != ZERO {
        ready := DecodeBits(vec_ro, vec_wo, word, before);
      } else {
        NoneReady(vec_ro, vec_wo, word, NFDBITS);
      }
    }

    static method DecodeBits(vec_ro: seq<Word>, vec_wo: seq<Word>, word: nat, before: seq<Ready>)
      returns (ready: seq<Ready>)
      requires word < |vec_ro| == |vec_wo|
      ensures var m := Masks(vec_ro, vec_wo);
              ready + ReadyInBits(m, word, 0) == before + ReadyInBits(m, word, NFDBITS)
    {
      var word_r, word_w := vec_ro[word], vec_wo[word];
      ready := before;
      var bit := NFDBITS;
      ghost var m := Masks(vec_ro, vec_wo);
      ghost var all := ready + ReadyInBits(m, word, NFDBITS);
      while bit != 0
        invariant 0 <= bit <= NFDBITS
        invariant ready + ReadyInBits(m, word, bit) == all
      {
        bit := bit - 1;
        var events: Mask := {};
        if word_r[bit] { events := events + {Read}; }
        if word_w[bit] { events := events + {Write}; }
        BitStep(vec_ro, vec_wo, word, bit, events, ready);
        if events != {} {
          ready := ready + [Ready(word * NFDBITS + bit, events)];
        }
      }
    }

    static lemma BitStep(r: seq<Word>, w: seq<Word>, word: nat, bit: nat, events: Mask, ready: seq<Ready>)
      requires word < |r| == |w| && bit < NFDBITS
      requires events == (if r[word][bit] then {Read} else {}) + (if w[word][bit] then {Write} else {})
      ensures var m, fd := Masks(r, w), word * NFDBITS + bit;
              ready + ReadyInBits(m, word, bit + 1) ==
                (if events != {} then ready + [Ready(fd, events)] else ready) + ReadyInBits(m, word, bit)
    {
      BitReady(r, w, word, bit, events);
      OneMore(Masks(r, w), word * NFDBITS + bit, ready);
    }

    /** Reading one bit of each vector gives the descriptor's events. */
    static lemma BitReady(r: seq<Word>, w: seq<Word>, word: nat, bit: nat, events: Mask)
      requires word < |r| == |w| && bit < NFDBITS
      requires events == (if r[word][bit] then {Read} else {}) + (if w[word][bit] then {Write} else {})
      ensures Masks(r, w)(word * NFDBITS + bit) == events
    {
      WordAndBit(word, bit);
    }

    static lemma OneMore(m: nat -> Mask, fd: nat, ready: seq<Ready>)
      ensures ready + ReadyBelow(m, fd + 1) ==
                (if m(fd) != {} then ready + [Ready(fd, m(fd))] else ready) + ReadyBelow(m, fd)
    {
      if m(fd) != {} {
        var x := [Ready(fd, m(fd))];
        assert ready + (x + ReadyBelow(m, fd)) == ready + x + ReadyBelow(m, fd);
      }
    }

    /** A word without bits adds nothing. */
    static lemma {:induction false} NoneReady(r: seq<Word>, w: seq<Word>, word: nat, bit: nat)
      requires word < |r| == |w| && bit <= NFDBITS && r[word] == ZERO && w[word] == ZERO
      ensures ReadyBelow(Masks(r, w), word * NFDBITS + bit) == ReadyBelow(Masks(r, w), word * NFDBITS)
      decreases bit
    {
      if bit != 0 {
        BitReady(r, w, word, bit - 1, {});
        NoneReady(r, w, word, bit - 1);
      }
    }
  }
}
