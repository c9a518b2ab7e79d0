/**
 * Virtual addresses as 64-bit words: the four table indices the hardware cuts out of an
 * address, and what the kernel's shift-and-mask arithmetic does to them.
 */
module Addresses {
  import opened Words
  import opened PageTables

  /** The 9-bit index an address holds for the table at a level. */
  function IndexBits(v: bv64, level: Level): bv64 {
    if level == 4 then (v >> 39) & 0x1ff
    else if level == 3 then (v >> 30) & 0x1ff
    else if level == 2 then (v >> 21) & 0x1ff
    else (v >> 12) & 0x1ff
  }

  function Slot(v: bv64, level: Level): bv9 { IndexBits(v, level) as bv9 }

  function At(v: bv64, level: Level): (i: Index) { Slot(v, level) as int }

  lemma IndexBitsAt(v: bv64, level: Level)
    ensures IndexBits(v, level) <= 0x1ff && IndexBits(v, level) as int == At(v, level)
  {
    SlotAsInt(IndexBits(v, level));
  }

  /** The indices of v from the given level downwards. */
  function PathFrom(v: bv64, level: Level): (p: Path)
    ensures p.Step? && p.idx == At(v, level)
    ensures p.Len() == level
  {
    Step(At(v, level), if level == 1 then End else PathFrom(v, level - 1))
  }

  function PathOf(v: bv64): Path { PathFrom(v, 4) }

  /** Bits 47 to 63 all equal: the hardware accepts the address. */
  predicate Canonical(v: bv64) { v >> 47 == 0 || v >> 47 == 0x1ffff }

  predicate Aligned(v: bv64) { v & 0xfff == 0 }

  /** The active top-level table, read through its own slot 510 four times. */
  const PML4: bv64 := 0xffff_ff7f_bfdf_e000

  /** The partner's top-level table, read through slot 509 of the active one. */
  const PARTNER_PML4: bv64 := 0xffff_ff7f_bfdf_d000

  /** The address of the next lower table. */
  function Deeper(table: bv64, index: bv64): bv64 {
    (table | 0xffff_ff80_0000_0000 | (index << 3)) << 9
  }

  lemma DeeperSlots(table: bv64, index: bv64)
    requires Aligned(table) && index <= 0x1ff
    ensures Slot(Deeper(table, index), 4) == Slot(table, 3)
    ensures Slot(Deeper(table, index), 3) == Slot(table, 2)
    ensures Slot(Deeper(table, index), 2) == Slot(table, 1)
    ensures Slot(Deeper(table, index), 1) == index as bv9
    ensures Aligned(Deeper(table, index))
    ensures Slot(table, 3) >= 0x100 ==> Canonical(Deeper(table, index))
  {
  }

  lemma SlotAsInt(i: bv64)
    requires i <= 0x1ff
    ensures (i as bv9) as int == i as int
  {
  }

  /** A loop counter over a table, as the operand of a shift. */
  function Bits(i: int): (b: bv64)
    requires 0 <= i < 512
    ensures b as int == i && b <= 0x1ff
  {
    if i == 0 then 0 else Bits(i - 1) + 1
  }

  /** p with i added at its far end. */
  function Append(p: Path, i: Index): Path {
    match p case End => Step(i, End) case Step(j, r) => Step(j, Append(r, i))
  }

  lemma PathSlots(v: bv64)
    ensures PathOf(v) == Step(At(v, 4), Step(At(v, 3), Step(At(v, 2), Step(At(v, 1), End))))
  {
    assert PathFrom(v, 1) == Step(At(v, 1), End);
    assert PathFrom(v, 2) == Step(At(v, 2), PathFrom(v, 1));
    assert PathFrom(v, 3) == Step(At(v, 3), PathFrom(v, 2));
  }

  /** One iteration of the address arithmetic drops the first index and appends a new last one. */
  lemma DeeperPath(table: bv64, index: bv64)
    requires Aligned(table) && index <= 0x1ff
    ensures PathOf(Deeper(table, index)) == Append(PathOf(table).rest, index as int)
    ensures Aligned(Deeper(table, index))
    ensures PathOf(table).rest.idx >= 256 ==> Canonical(Deeper(table, index))
  {
    DeeperSlots(table, index);
    SlotAsInt(index);
    PathSlots(table);
    PathSlots(Deeper(table, index));
    var r1 := Step(At(table, 1), End);
    assert Append(r1, index as int) == Step(At(table, 1), Step(index as int, End));
    var r2 := Step(At(table, 2), r1);
    assert Append(r2, index as int) == Step(At(table, 2), Append(r1, index as int));
  }

  lemma RootSlots()
    ensures Aligned(PML4) && Canonical(PML4) && Aligned(PARTNER_PML4) && Canonical(PARTNER_PML4)
    ensures PathOf(PML4) == Step(510, Step(510, Step(510, Step(510, End))))
    ensures PathOf(PARTNER_PML4) == Step(510, Step(510, Step(510, Step(509, End))))
  {
    PathSlots(PML4);
    PathSlots(PARTNER_PML4);
  }

  /** `map_page_COW`: where the leaf entry of virt is found in the active table tree. */
  function OwnEntry(virt: bv64): bv64 {
    var page := ((virt & 0xffff_ffff_ffff_f000) | 0xffff_0000_0000_0000) & 0xfffe_ffff_ffff_ffff;
    (page >> 9) | 0xffff_0000_0000_0000
  }

  /** `cross_off_COW`: where the leaf entry of virt is found in the partner's table tree. */
  function PartnerEntry(virt: bv64): bv64 {
    var page := ((virt & 0xffff_ffff_ffff_f000) | 0xffff_0000_0000_0000) & 0xfffd_ffff_ffff_ffff;
    (page >> 9) | 0xffff_0000_0000_0000
  }

  /** The word within its page that an 8-byte aligned address names. */
  function WordSlot(v: bv64): bv9 { ((v >> 3) & 0x1ff) as bv9 }

  function WordAt(v: bv64): (i: Index) { WordSlot(v) as int }

  lemma EntrySlots(virt: bv64)
    ensures Slot(OwnEntry(virt), 4) == 510 && Slot(PartnerEntry(virt), 4) == 509
    ensures Slot(OwnEntry(virt), 3) == Slot(PartnerEntry(virt), 3) == Slot(virt, 4)
    ensures Slot(OwnEntry(virt), 2) == Slot(PartnerEntry(virt), 2) == Slot(virt, 3)
    ensures Slot(OwnEntry(virt), 1) == Slot(PartnerEntry(virt), 1) == Slot(virt, 2)
    ensures WordSlot(OwnEntry(virt)) == WordSlot(PartnerEntry(virt)) == Slot(virt, 1)
    ensures OwnEntry(virt) & 7 == PartnerEntry(virt) & 7 == 0
    ensures Canonical(OwnEntry(virt)) && Canonical(PartnerEntry(virt))
  {
  }

  /** The two entry addresses walk the own and the partner's tree down to the page table of virt. */
  lemma EntryPaths(virt: bv64)
    ensures PathOf(OwnEntry(virt)) == Step(510, Step(At(virt, 4), Step(At(virt, 3), Step(At(virt, 2), End))))
    ensures PathOf(PartnerEntry(virt)) == Step(509, Step(At(virt, 4), Step(At(virt, 3), Step(At(virt, 2), End))))
    ensures WordAt(OwnEntry(virt)) == WordAt(PartnerEntry(virt)) == At(virt, 1)
    ensures Canonical(OwnEntry(virt)) && Canonical(PartnerEntry(virt))
  {
    EntrySlots(virt);
    PathSlots(OwnEntry(virt));
    PathSlots(PartnerEntry(virt));
  }
}
