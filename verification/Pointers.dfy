/**
 * Pointers into a page: the 64-bit sum of an address and an offset, and the page and the low bits that
 * the sum has.
 */
module Pointers {
  import opened Words
  import opened PageTables
  import opened Addresses
  import opened Ranges

  function Sum(v: bv64, w: bv64): bv64 { v + w }

  function Unsigned(n: nat): bv64
    requires n < WORD
  {
    n as bv64
  }

  /** `v + n` for a 64-bit n. */
  function Plus(v: bv64, n: nat): bv64 { if n < WORD then Sum(v, Unsigned(n)) else v }

  function Wide(x: bv12): bv64 { x as bv64 }

  lemma PlusBits(v: bv64, n: nat)
    ensures n < WORD ==> Plus(v, n) == Sum(v, Unsigned(n))
  {
    hide Sum, Unsigned;
  }

  lemma BitsBack(w: bv64)
    ensures w as int < WORD && Unsigned(w as int) == w
  {
  }

  lemma PlusIs(v: bv64, w: bv64)
    ensures Plus(v, w as int) == Sum(v, w)
  {
    hide *;
    BitsBack(w);
    PlusBits(v, w as int);
  }

  lemma PlusNone(v: bv64)
    ensures Plus(v, 0) == v
  {
  }

  function Next(x: bv12): bv12 { x + 1 }

  /** An offset into a page as the low bits of an address. */
  function Low(n: nat): bv12 { if n == 0 then 0 else Next(Low(n - 1)) }

  lemma NextIs(b: bv12)
    ensures Next(b) as int == if b as int == 4095 then 0 else b as int + 1
  {
  }

  lemma LowStep(n: nat)
    ensures Low(0) as int == 0 && Low(n + 1) == Next(Low(n))
  {
  }

  lemma {:induction false} LowIs(n: nat)
    requires n < 4096
    ensures Low(n) as int == n
  {
    hide *;
    if n == 0 {
      LowStep(0);
    } else {
      LowStep(n - 1);
      LowIs(n - 1);
      NextIs(Low(n - 1));
    }
  }

  lemma WideIs(b: bv12)
    ensures Wide(b) as int == b as int
  {
  }

  /** Adding an offset into a page is adding its twelve bits. */
  lemma Small(v: bv64, n: nat)
    requires n < 4096
    ensures Plus(v, n) == Sum(v, Wide(Low(n)))
  {
    hide *;
    LowIs(n);
    WideIs(Low(n));
    PlusIs(v, Wide(Low(n)));
  }

  lemma AlignedIs(v: bv64)
    ensures v & 0xfff == 0 ==> v == (v >> 12) << 12
  {
  }

  lemma SlotBits(v: bv64, w: bv64)
    ensures w >> 12 == v >> 12 ==> IndexBits(w, 4) == IndexBits(v, 4) && IndexBits(w, 3) == IndexBits(v, 3)
    ensures w >> 12 == v >> 12 ==> IndexBits(w, 2) == IndexBits(v, 2) && IndexBits(w, 1) == IndexBits(v, 1)
    ensures w >> 12 == v >> 12 ==> w >> 47 == v >> 47
  {
  }

  /** The next byte. */
  function Up(v: bv64): bv64 { v + 1 }

  /** The byte n steps on. */
  function Stepped(v: bv64, n: nat): bv64 { if n == 0 then v else Up(Stepped(v, n - 1)) }

  /** Byte x of page h. */
  function In(h: bv64, x: bv12): bv64 { (h << 12) + (x as bv64) }

  lemma UpIn(h: bv64, x: bv12)
    ensures x != 0xfff ==> Up(In(h, x)) == In(h, Next(x))
  {
  }

  lemma NotLast(x: bv12)
    ensures x == 0xfff ==> x as int == 4095
  {
  }

  lemma InIs(h: bv64, x: bv12)
    ensures In(h, x) == Sum(h << 12, Wide(x))
  {
  }

  lemma PlusIn(v: bv64, n: nat)
    requires Aligned(v) && n < 4096
    ensures Plus(v, n) == In(v >> 12, Low(n))
  {
    hide *;
    AlignedBits(v);
    AlignedIs(v);
    Small((v >> 12) << 12, n);
    InIs(v >> 12, Low(n));
  }

  /** A byte of a page has the page's address and its own twelve bits. */
  lemma InBits(h: bv64, x: bv12)
    ensures In(h, x) & 0xfff == Wide(x)
  {
  }

  lemma InPage(v: bv64, x: bv12)
    ensures In(v >> 12, x) >> 12 == v >> 12
  {
  }

  lemma PlusStep(v: bv64, n: nat)
    requires Aligned(v) && n + 1 < 4096
    ensures Plus(v, n + 1) == Up(Plus(v, n))
  {
    hide *;
    LowIs(n);
    NotLast(Low(n));
    LowStep(n);
    PlusIn(v, n);
    PlusIn(v, n + 1);
    UpIn(v >> 12, Low(n));
  }

  lemma SteppedStep(v: bv64, n: nat)
    ensures Stepped(v, 0) == v && Stepped(v, n + 1) == Up(Stepped(v, n))
  {
  }

  /** Going on byte by byte from a pointer into a page. */
  lemma {:induction false} PlusStepped(v: bv64, a: nat, b: nat)
    requires Aligned(v) && a + b < 4096
    ensures Stepped(Plus(v, a), b) == Plus(v, a + b)
    decreases b
  {
    hide *;
    if b == 0 {
      SteppedStep(Plus(v, a), 0);
    } else {
      PlusStepped(v, a, b - 1);
      SteppedStep(Plus(v, a), b - 1);
      PlusStep(v, a + b - 1);
    }
  }

  lemma AlignedBits(v: bv64)
    ensures Aligned(v) ==> v & 0xfff == 0
  {
  }

  /**
   * A pointer into a page: it lies on the same page, its low twelve bits are the offset, and it is
   * an address the hardware accepts if the page's is.
   */
  lemma PlusInPage(v: bv64, n: nat)
    requires Aligned(v) && n < 4096
    ensures PathOf(Plus(v, n)) == PathOf(v) && (Plus(v, n) & 0xfff) as int == n
    ensures Canonical(v) ==> Canonical(Plus(v, n))
  {
    hide *;
    PlusIn(v, n);
    LowIs(n);
    WideIs(Low(n));
    InBits(v >> 12, Low(n));
    InPage(v, Low(n));
    SamePage(v, Plus(v, n));
  }

  lemma SamePage(v: bv64, w: bv64)
    ensures w >> 12 == v >> 12 ==> PathOf(w) == PathOf(v) && (Canonical(v) ==> Canonical(w))
  {
    hide PathOf, PathFrom;
    SlotBits(v, w);
    PathSlots(v);
    PathSlots(w);
  }

  lemma AlignedNext(v: bv64)
    ensures Aligned(v) ==> Aligned(v + 4096)
  {
  }

  lemma {:induction false} AlignedFurther(v: bv64, d: nat)
    requires Aligned(v)
    ensures Aligned(Further(v, d))
    decreases d
  {
    AlignedNext(v);
    hide Aligned;
    if d > 0 { AlignedFurther(v + 4096, d - 1); }
  }
}
