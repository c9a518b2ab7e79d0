/** Machine words seen as page-table entries. */
module Words {
  /** A page frame number: bits 12..51 of a physical address. */
  datatype Frame = Frame(number: bv40)

  /** An index into one of the 512-entry tables. */
  type Index = i: int | 0 <= i < 512

  /**
   * A 64-bit word, split at the bit positions that the paging hardware and the
   * kernel look at.  `Encode` below is a bijection with bv64, so nothing is lost.
   */
  datatype Word = Word(hi: bv12, frame: Frame, avl: bv2, cow: bool, mid: bv6,
                       user: bool, writable: bool, present: bool)

  const ZERO := Word(0, Frame(0), 0, false, 0, false, false, false)

  const PRESENT: bv64 := 1
  const READ_WRITE: bv64 := 2
  const USER_ACCESSIBLE: bv64 := 4
  const COW: bv64 := 0x200
  const FRAME_MASK: bv64 := 0xf_ffff_ffff_f000

  function Bit(b: bool, mask: bv64): bv64 { if b then mask else 0 }

  /** The physical address at which a frame starts (`mem_page.base`). */
  function Base(f: Frame): bv64 { (f.number as bv64) << 12 }

  function Encode(w: Word): bv64 {
    ((w.hi as bv64) << 52) | Base(w.frame) | ((w.avl as bv64) << 10) | Bit(w.cow, COW)
    | ((w.mid as bv64) << 3) | Bit(w.user, USER_ACCESSIBLE) | Bit(w.writable, READ_WRITE) | Bit(w.present, PRESENT)
  }

  function Decode(b: bv64): Word {
    Word((b >> 52) as bv12, Frame(((b >> 12) & 0xff_ffff_ffff) as bv40), ((b >> 10) & 3) as bv2, b & COW != 0,
         ((b >> 3) & 0x3f) as bv6, b & USER_ACCESSIBLE != 0, b & READ_WRITE != 0, b & PRESENT != 0)
  }

  lemma DecodeHigh(w: Word)
    ensures Decode(Encode(w)).hi == w.hi && Decode(Encode(w)).frame == w.frame
  {
  }

  lemma DecodeMiddle(w: Word)
    ensures Decode(Encode(w)).avl == w.avl && Decode(Encode(w)).mid == w.mid
  {
  }

  lemma DecodeFlags(w: Word)
    ensures var d := Decode(Encode(w)); d.cow == w.cow && d.user == w.user && d.writable == w.writable && d.present == w.present
  {
  }

  lemma DecodeEncode(w: Word)
    ensures Decode(Encode(w)) == w
  {
    DecodeHigh(w);
    DecodeMiddle(w);
    DecodeFlags(w);
  }

  lemma EncodeDecode(b: bv64)
    ensures Encode(Decode(b)) == b
  {
  }

  /** How the kernel writes a link to a lower table. */
  function Link(f: Frame): Word { Word(0, f, 0, false, 0, true, true, true) }

  /** `(phys & 0xffffffffff000) | flags` as a table entry. */
  function LeafWord(phys: bv64, flags: bv64): Word { Decode((phys & FRAME_MASK) | flags) }

  /** The leaf `k_map_v` writes: a kernel page, not accessible from user mode. */
  function KernelLeaf(f: Frame): Word { Word(0, f, 0, false, 0, false, true, true) }

  /** The leaf of a page mapped for a process: it has the rights of a link. */
  function UserLeaf(f: Frame): Word { Link(f) }

  /** PRESENT | READ_WRITE */
  const KERNEL_PAGE: bv64 := 3

  /** PRESENT | READ_WRITE | USER_ACCESSIBLE */
  const USER_PAGE: bv64 := 7

  lemma PageFlags()
    ensures KERNEL_PAGE == PRESENT | READ_WRITE && USER_PAGE == PRESENT | READ_WRITE | USER_ACCESSIBLE
    ensures PRESENT == 0x1 && READ_WRITE == 0x2 && USER_ACCESSIBLE == 0x4 && COW == 0x200
  {
  }

  /** The bits that the processor looks at, and the frame in bits 12 to 51. */
  lemma FieldBits(b: bv64)
    ensures Decode(b).present <==> b & 0x1 != 0
    ensures Decode(b).writable <==> b & 0x2 != 0
    ensures Decode(b).user <==> b & 0x4 != 0
    ensures Base(Decode(b).frame) == b & 0xf_ffff_ffff_f000
  {
  }

  lemma LeafPatterns(f: Frame)
    ensures Decode((Base(f) & FRAME_MASK) | 3) == KernelLeaf(f)
    ensures Decode((Base(f) & FRAME_MASK) | 7) == UserLeaf(f)
  {
  }

  /** The flag arithmetic on 64-bit words yields these entries. */
  lemma LeafBits(f: Frame)
    ensures LeafWord(Base(f), KERNEL_PAGE) == KernelLeaf(f)
    ensures LeafWord(Base(f), USER_PAGE) == UserLeaf(f)
  {
    LeafPatterns(f);
  }

  lemma LinkBits(f: Frame)
    ensures Decode(Base(f) | USER_PAGE) == Link(f)
  {
  }

  /** `& ~READ_WRITE`, then `| COW`: what fork does to a leaf. */
  function Marked(w: Word): Word { w.(writable := false, cow := true) }

  lemma MarkedBits(b: bv64)
    ensures Decode((b & !READ_WRITE) | COW) == Marked(Decode(b))
  {
  }

  /** `& ~COW`, then `| READ_WRITE`: what a resolved fault does to the partner's leaf. */
  function Crossed(w: Word): Word { w.(cow := false, writable := true) }

  lemma CrossedBits(b: bv64)
    ensures Decode((b & !COW) | READ_WRITE) == Crossed(Decode(b))
  {
  }

  lemma ZeroBits(b: bv64)
    ensures b == 0 <==> Decode(b) == ZERO
  {
    EncodeDecode(b);
  }
}
