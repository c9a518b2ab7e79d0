/** `k_mem_map_v`: mapping a physical range page by page. */
module Ranges {
  import opened Words
  import opened PageTables
  import opened Addresses
  import opened Hardware
  import opened Mapping

  /** How many virtual pages there are. */
  const VIRTUAL_PAGES := 0x10_0000_0000

  /** p names a page of the virtual space: one index for each of the four levels. */
  predicate IsPage(p: Path) {
    p.Step? && p.rest.Step? && p.rest.rest.Step? && p.rest.rest.rest.Step? && p.rest.rest.rest.rest.End?
  }

  function Page4(i4: Index, i3: Index, i2: Index, i1: Index): Path { Step(i4, Step(i3, Step(i2, Step(i1, End)))) }

  function Up(i: Index): Index { if i == 511 then 0 else i + 1 }

  /** The following page, with carries between the indices. */
  function NextPage(p: Path): (q: Path)
    requires IsPage(p)
    ensures IsPage(q)
  {
    var i4, i3, i2, i1 := p.idx, p.rest.idx, p.rest.rest.idx, p.rest.rest.rest.idx;
    if i1 < 511 then Page4(i4, i3, i2, Up(i1))
    else if i2 < 511 then Page4(i4, i3, Up(i2), 0)
    else if i3 < 511 then Page4(i4, Up(i3), 0, 0)
    else Page4(Up(i4), 0, 0, 0)
  }

  function Advance(p: Path, d: nat): (q: Path)
    requires IsPage(p)
    ensures IsPage(q)
    decreases d
  {
    if d == 0 then p else Advance(NextPage(p), d - 1)
  }

  lemma NextSlots(v: bv64)
    ensures Slot(v + 4096, 1) == Slot(v, 1) + 1
    ensures Slot(v + 4096, 2) == Slot(v, 2) + (if Slot(v, 1) == 511 then 1 else 0)
    ensures Slot(v + 4096, 3) == Slot(v, 3) + (if Slot(v, 1) == 511 && Slot(v, 2) == 511 then 1 else 0)
    ensures Slot(v + 4096, 4) == Slot(v, 4) + (if Slot(v, 1) == 511 && Slot(v, 2) == 511 && Slot(v, 3) == 511 then 1 else 0)
  {
  }

  lemma SlotUp(b: bv9, c: bv9, carry: bool)
    requires c == b + if carry then 1 else 0
    ensures c as int == if carry then Up(b as int) else b as int
  {
  }

  lemma SlotTop(b: bv9)
    ensures b == 511 <==> b as int == 511
  {
  }

  lemma AtIs(v: bv64, level: Level)
    ensures At(v, level) == Slot(v, level) as int
  {
  }

  /** A slot that is moved up exactly if there is a carry into it. */
  lemma NextAt(v: bv64, level: Level, carry: bool)
    requires Slot(v + 4096, level) == Slot(v, level) + if carry then 1 else 0
    ensures At(v + 4096, level) == if carry then Up(At(v, level)) else At(v, level)
  {
    hide *;
    AtIs(v, level);
    AtIs(v + 4096, level);
    SlotUp(Slot(v, level), Slot(v + 4096, level), carry);
  }

  lemma AtTop(v: bv64, level: Level)
    ensures Slot(v, level) == 511 <==> At(v, level) == 511
  {
    hide *;
    AtIs(v, level);
    SlotTop(Slot(v, level));
  }

  lemma NextAt1(v: bv64)
    ensures At(v + 4096, 1) == Up(At(v, 1))
  {
    hide *;
    NextSlots(v);
    NextAt(v, 1, true);
  }

  lemma NextAt2(v: bv64)
    ensures At(v + 4096, 2) == if At(v, 1) == 511 then Up(At(v, 2)) else At(v, 2)
  {
    hide *;
    NextSlots(v);
    AtTop(v, 1);
    NextAt(v, 2, At(v, 1) == 511);
  }

  lemma NextAt3(v: bv64)
    ensures At(v + 4096, 3) == if At(v, 1) == At(v, 2) == 511 then Up(At(v, 3)) else At(v, 3)
  {
    hide *;
    NextSlots(v);
    AtTop(v, 1);
    AtTop(v, 2);
    NextAt(v, 3, At(v, 1) == At(v, 2) == 511);
  }

  lemma NextAt4(v: bv64)
    ensures At(v + 4096, 4) == if At(v, 1) == At(v, 2) == At(v, 3) == 511 then Up(At(v, 4)) else At(v, 4)
  {
    hide *;
    NextSlots(v);
    AtTop(v, 1);
    AtTop(v, 2);
    AtTop(v, 3);
    NextAt(v, 4, At(v, 1) == At(v, 2) == At(v, 3) == 511);
  }

  lemma NextPage4(i4: Index, i3: Index, i2: Index, i1: Index)
    ensures NextPage(Page4(i4, i3, i2, i1)) == Page4(
      if i1 == i2 == i3 == 511 then Up(i4) else i4, if i1 == i2 == 511 then Up(i3) else i3,
      if i1 == 511 then Up(i2) else i2, Up(i1))
  {
  }

  /** `+= PAGESIZE` on a 64-bit address moves to the next page. */
  lemma AddressNext(v: bv64)
    ensures IsPage(PathOf(v)) && PathOf(v + 4096) == NextPage(PathOf(v))
  {
    PathSlots(v);
    PathSlots(v + 4096);
    NextAt1(v);
    NextAt2(v);
    NextAt3(v);
    NextAt4(v);
    NextPage4(At(v, 4), At(v, 3), At(v, 2), At(v, 1));
  }

  /** The indices as digits of a page number. */
  function PageNo(p: Path): nat
    requires IsPage(p)
  {
    ((p.idx * 512 + p.rest.idx) * 512 + p.rest.rest.idx) * 512 + p.rest.rest.rest.idx
  }

  lemma NextPageNo(p: Path)
    requires IsPage(p)
    ensures PageNo(p) < VIRTUAL_PAGES
    ensures PageNo(NextPage(p)) == if PageNo(p) == VIRTUAL_PAGES - 1 then 0 else PageNo(p) + 1
  {
  }

  lemma {:induction false} AdvanceNo(p: Path, d: nat)
    requires IsPage(p) && d < VIRTUAL_PAGES
    ensures var n := PageNo(p) + d; PageNo(Advance(p, d)) == if n < VIRTUAL_PAGES then n else n - VIRTUAL_PAGES
    decreases d
  {
    NextPageNo(p);
    if d > 0 { AdvanceNo(NextPage(p), d - 1); }
  }

  lemma {:induction false} AdvanceTwice(p: Path, d: nat, e: nat)
    requires IsPage(p)
    ensures Advance(Advance(p, d), e) == Advance(p, d + e)
    decreases d
  {
    if d > 0 { AdvanceTwice(NextPage(p), d - 1, e); }
  }

  /** The address d pages on, with the wrap-around of 64 bits. */
  function Further(v: bv64, d: nat): bv64
    decreases d
  {
    if d == 0 then v else Further(v + 4096, d - 1)
  }

  /** Moving an address and moving its path agree. */
  lemma {:induction false} FurtherPath(v: bv64, d: nat)
    ensures IsPage(PathOf(v)) && PathOf(Further(v, d)) == Advance(PathOf(v), d)
    decreases d
  {
    AddressNext(v);
    hide PathOf, NextPage, IsPage;
    if d > 0 { FurtherPath(v + 4096, d - 1); }
  }

  lemma FurtherStep(v: bv64, d: nat)
    ensures d > 0 ==> Further(v, d) == Further(v + 4096, d - 1)
    ensures d == 0 ==> Further(v, d) == v
  {
  }

  /** Pages less than the whole space apart are different. */
  lemma PagesApart(p: Path, d: nat, e: nat)
    requires IsPage(p) && d < e && e - d < VIRTUAL_PAGES
    ensures Advance(p, d) != Advance(p, e)
  {
    AdvanceTwice(p, d, e - d);
    AdvanceNo(Advance(p, d), e - d);
    NextPageNo(Advance(p, d));
  }

  /** A path and the leaf to be written at its end. */
  datatype Maplet = Maplet(path: Path, leaf: Word)

  /** A free frame is there each time one of the mappings asks for one. */
  predicate Fit(v: Vm, root: Frame, ms: seq<Maplet>)
    decreases |ms|
  {
    ms != [] ==>
      && ms[0].path.Step? && Missing(v.mem, root, ms[0].path) <= |v.free|
      && Fit(Mapped(v, root, ms[0].path, ms[0].leaf), root, ms[1..])
  }

  function MapAll(v: Vm, root: Frame, ms: seq<Maplet>): Vm
    requires Fit(v, root, ms)
    decreases |ms|
  {
    if ms == [] then v else MapAll(Mapped(v, root, ms[0].path, ms[0].leaf), root, ms[1..])
  }

  ghost predicate AllUnder(ms: seq<Maplet>, top: set<Index>) { forall m | m in ms :: Under(m.path, 4, top) }

  lemma {:induction false} MapAllSound(v: Vm, root: Frame, ms: seq<Maplet>, top: set<Index>)
    requires Fit(v, root, ms) && AllUnder(ms, top) && Sound(v, root, 4, top)
    ensures Sound(MapAll(v, root, ms), root, 4, top)
    decreases |ms|
  {
    if ms != [] {
      MappedGrows(v, root, ms[0].path, ms[0].leaf, 4, top);
      MapAllSound(Mapped(v, root, ms[0].path, ms[0].leaf), root, ms[1..], top);
    }
  }

  /** Paths that are not mentioned keep their translation. */
  lemma {:induction false} MapAllOther(v: Vm, root: Frame, ms: seq<Maplet>, top: set<Index>, q: Path)
    requires Fit(v, root, ms) && AllUnder(ms, top) && Sound(v, root, 4, top)
    requires Under(q, 4, top) && forall m | m in ms :: m.path != q
    ensures Entry(MapAll(v, root, ms).mem, root, q) == Entry(v.mem, root, q)
    decreases |ms|
  {
    if ms != [] {
      MappedGrows(v, root, ms[0].path, ms[0].leaf, 4, top);
      MappedOther(v, root, ms[0].path, q, ms[0].leaf, 4, top);
      MapAllOther(Mapped(v, root, ms[0].path, ms[0].leaf), root, ms[1..], top, q);
    }
  }

  /** A path mentioned once ends up at its leaf. */
  lemma {:induction false} MapAllAt(v: Vm, root: Frame, ms: seq<Maplet>, top: set<Index>, d: nat)
    requires Fit(v, root, ms) && AllUnder(ms, top) && Sound(v, root, 4, top)
    requires d < |ms| && forall e | d < e < |ms| :: ms[e].path != ms[d].path
    ensures Entry(MapAll(v, root, ms).mem, root, ms[d].path) == ms[d].leaf
    decreases |ms|
  {
    MappedGrows(v, root, ms[0].path, ms[0].leaf, 4, top);
    var w := Mapped(v, root, ms[0].path, ms[0].leaf);
    if d > 0 {
      assert ms[1..][d - 1] == ms[d];
      MapAllAt(w, root, ms[1..], top, d - 1);
    } else {
      MapAllOther(w, root, ms[1..], top, ms[0].path);
    }
  }

  /** The pages a byte range touches, counted from its base. */
  function Pages(base: nat, end: nat): nat { if base < end then (end - base + 4095) / 4096 else 0 }

  const WORD: nat := 0x1_0000_0000_0000_0000

  /** The counter of the loop of `k_mem_map_v` after n rounds, in 64 bits. */
  function Counter(base: nat, n: nat): nat { (base + 4096 * n) % WORD }

  lemma WithinPage(x: nat, k: nat)
    requires x >= k * WORD
    ensures (x - k * WORD) % 4096 == x % 4096
  {
    assert x - k * WORD == 4096 * (x / 4096 - k * 0x10_0000_0000_0000) + x % 4096;
  }

  lemma CounterInPage(base: nat, n: nat)
    ensures Counter(base, n) % 4096 == base % 4096 && Counter(base, n) < WORD
  {
    hide *;
    var x := base + 4096 * n;
    CounterIs(base, n);
    WholeWords(x);
    WithinPage(x, x / WORD);
    PagesOn(base, n);
  }

  lemma CounterIs(base: nat, n: nat)
    ensures Counter(base, n) == (base + 4096 * n) % WORD
  {
  }

  lemma WholeWords(x: nat)
    ensures x % WORD == x - x / WORD * WORD && x >= x / WORD * WORD && x % WORD < WORD
  {
  }

  lemma PagesOn(base: nat, n: nat)
    ensures (base + 4096 * n) % 4096 == base % 4096
  {
    assert base + 4096 * n == 4096 * (base / 4096 + n) + base % 4096;
  }

  /** The last value of the counter before it would wrap is the largest it can ever have. */
  lemma CounterBelow(base: nat, end: nat, n: nat)
    requires base < end < WORD && base + 4096 * Pages(base, end) >= WORD
    ensures Counter(base, n) < end
  {
    CounterInPage(base, n);
    var last, c := base + 4096 * (Pages(base, end) - 1), Counter(base, n);
    assert last < end && last + 4096 >= WORD;
    assert last == 4096 * (base / 4096 + Pages(base, end) - 1) + base % 4096;
    assert c == 4096 * (c / 4096) + base % 4096;
    hide *;
    assert c <= last;
  }

  /** The loop over a range ends if and only if its counter does not wrap around before the end of the range. */
  lemma RangeEndsIff(base: nat, end: nat)
    requires base < WORD && end < WORD
    ensures (exists n: nat :: Counter(base, n) >= end) <==> base + 4096 * Pages(base, end) < WORD
  {
    if base + 4096 * Pages(base, end) < WORD {
      assert Counter(base, Pages(base, end)) >= end;
    } else {
      forall n: nat ensures Counter(base, n) < end { CounterBelow(base, end, n); }
    }
  }

  /** The mappings of a byte range, page by page; frame tells the frame a physical address lies in. */
  function RangeMaplets(base: nat, end: nat, p: Path, frame: nat -> Frame): (ms: seq<Maplet>)
    requires IsPage(p)
    ensures |ms| == Pages(base, end)
    decreases end - base
  {
    if base < end then [Maplet(p, KernelLeaf(frame(base)))] + RangeMaplets(base + 4096, end, NextPage(p), frame)
    else []
  }

  lemma {:induction false} RangeMapletAt(base: nat, end: nat, p: Path, frame: nat -> Frame, d: nat)
    requires d < Pages(base, end) && IsPage(p)
    ensures RangeMaplets(base, end, p, frame)[d] == Maplet(Advance(p, d), KernelLeaf(frame(base + 4096 * d)))
    decreases d
  {
    if d > 0 { RangeMapletAt(base + 4096, end, NextPage(p), frame, d - 1); }
  }

  lemma RangeUnfold(base: nat, end: nat, p: Path, frame: nat -> Frame)
    requires base < end && IsPage(p)
    ensures var ms := RangeMaplets(base, end, p, frame);
      && ms[0] == Maplet(p, KernelLeaf(frame(base)))
      && ms[1..] == RangeMaplets(base + 4096, end, NextPage(p), frame)
  {
  }

  /** The loop body of `k_mem_map_v`. */
  method MapOne(k: Machine, phys: Frame, virt: bv64, table: Frame, ghost p: Path) returns (next: bv64)
    requires p == PathOf(virt) && Missing(k.mem, table, p) <= |k.free|
    modifies k`mem, k`free
    ensures k.State() == Mapped(old(k.State()), table, p, KernelLeaf(phys))
    ensures IsPage(p) && PathOf(next) == NextPage(p)
    ensures forall d: nat :: d > 0 ==> Further(virt, d) == Further(next, d - 1)
  {
    KMapV(k, phys, virt, table, 4);
    AddressNext(virt);
    next := virt + 4096;
    forall d: nat ensures d > 0 ==> Further(virt, d) == Further(next, d - 1) { FurtherStep(virt, d); }
  }

  /** Carrying out ms from here ends in the state goal. */
  ghost predicate Leading(v: Vm, root: Frame, ms: seq<Maplet>, goal: Vm) {
    Fit(v, root, ms) && MapAll(v, root, ms) == goal
  }

  lemma LeadingStep(v: Vm, root: Frame, ms: seq<Maplet>, goal: Vm)
    requires Leading(v, root, ms, goal) && ms != []
    ensures ms[0].path.Step? && Missing(v.mem, root, ms[0].path) <= |v.free|
    ensures Leading(Mapped(v, root, ms[0].path, ms[0].leaf), root, ms[1..], goal)
  {
  }

  lemma LeadingEnds(v: Vm, root: Frame, goal: Vm)
    requires Leading(v, root, [], goal)
    ensures v == goal
  {
  }

  /** `k_mem_map_v` */
  method KMemMapV(k: Machine, base0: nat, end: nat, vrtlmm: bv64, table: Frame, frame: nat -> Frame,
                  ghost p0: Path) returns (res: bv64)
    requires p0 == PathOf(vrtlmm) && IsPage(p0)
    requires base0 + 4096 * Pages(base0, end) < WORD
    requires Fit(k.State(), table, RangeMaplets(base0, end, p0, frame))
    modifies k`mem, k`free
    ensures k.State() == old(MapAll(k.State(), table, RangeMaplets(base0, end, p0, frame)))
    ensures res == Further(vrtlmm, Pages(base0, end))
  {
    hide Further, PathOf, NextPage, IsPage, MapAll, Fit, Mapped, Missing, RangeMaplets;
    var base := base0;
    res := vrtlmm;
    ghost var p, ms := p0, RangeMaplets(base0, end, p0, frame);
    ghost var goal := MapAll(k.State(), table, ms);
    while base < end
      invariant p == PathOf(res) && IsPage(p)
      invariant ms == RangeMaplets(base, end, p, frame)
      invariant Leading(k.State(), table, ms, goal)
      invariant Further(res, |ms|) == Further(vrtlmm, Pages(base0, end))
      invariant base + 4096 * Pages(base, end) == base0 + 4096 * Pages(base0, end)
      decreases end - base
    {
      RangeUnfold(base, end, p, frame);
      LeadingStep(k.State(), table, ms, goal);
      res := MapOne(k, frame(base), res, table, p);
      base := (base + 4096) % WORD;
      p := NextPage(p);
      ms := ms[1..];
    }
    assert ms == [];
    LeadingEnds(k.State(), table, goal);
    FurtherStep(res, 0);
  }

  lemma RangeUnder(base: nat, end: nat, p: Path, frame: nat -> Frame, top: set<Index>)
    requires IsPage(p) && forall d | 0 <= d < Pages(base, end) :: Advance(p, d).idx in top
    ensures AllUnder(RangeMaplets(base, end, p, frame), top)
    ensures forall d | 0 <= d < Pages(base, end) :: RangeMaplets(base, end, p, frame)[d].path == Advance(p, d)
  {
    var ms := RangeMaplets(base, end, p, frame);
    forall d | 0 <= d < |ms|
      ensures Under(ms[d].path, 4, top) && ms[d].path == Advance(p, d)
    {
      RangeMapletAt(base, end, p, frame, d);
      PageUnder(ms[d].path, top);
    }
  }

  lemma PageUnder(p: Path, top: set<Index>)
    requires IsPage(p) && p.idx in top
    ensures Under(p, 4, top)
  {
    assert Under(p.rest.rest.rest, 1, top);
    assert Under(p.rest.rest, 2, top);
    assert Under(p.rest, 3, top);
  }

  /** After `k_mem_map_v` page d of the range leads to frame d of the physical range. */
  lemma RangeTranslates(v: Vm, root: Frame, base: nat, end: nat, p: Path, frame: nat -> Frame, top: set<Index>, d: nat)
    requires Pages(base, end) <= VIRTUAL_PAGES && IsPage(p)
    requires Sound(v, root, 4, top) && Fit(v, root, RangeMaplets(base, end, p, frame))
    requires forall d | 0 <= d < Pages(base, end) :: Advance(p, d).idx in top
    requires d < Pages(base, end)
    ensures KernelWalk(MapAll(v, root, RangeMaplets(base, end, p, frame)).mem, root, Advance(p, d)) == Hit(frame(base + 4096 * d))
  {
    var ms := RangeMaplets(base, end, p, frame);
    RangeUnder(base, end, p, frame, top);
    RangeMapletAt(base, end, p, frame, d);
    forall e | d < e < |ms| ensures ms[e].path != ms[d].path {
      RangeMapletAt(base, end, p, frame, e);
      PagesApart(p, d, e);
    }
    MapAllSound(v, root, ms, top);
    MapAllAt(v, root, ms, top, d);
    KernelWalkEntry(MapAll(v, root, ms).mem, root, ms[d].path, 4, top);
  }

  /** Every page outside the range is translated as before, and the tables still form a tree. */
  lemma RangeKeeps(v: Vm, root: Frame, base: nat, end: nat, p: Path, frame: nat -> Frame, top: set<Index>, q: Path)
    requires IsPage(p)
    requires Sound(v, root, 4, top) && Fit(v, root, RangeMaplets(base, end, p, frame))
    requires forall d | 0 <= d < Pages(base, end) :: Advance(p, d).idx in top
    requires Under(q, 4, top) && forall d | 0 <= d < Pages(base, end) :: q != Advance(p, d)
    ensures Sound(MapAll(v, root, RangeMaplets(base, end, p, frame)), root, 4, top)
    ensures KernelWalk(MapAll(v, root, RangeMaplets(base, end, p, frame)).mem, root, q) == KernelWalk(v.mem, root, q)
  {
    var ms := RangeMaplets(base, end, p, frame);
    RangeUnder(base, end, p, frame, top);
    MapAllSound(v, root, ms, top);
    assert forall m | m in ms :: m.path != q;
    MapAllOther(v, root, ms, top, q);
    KernelWalkEntry(MapAll(v, root, ms).mem, root, q, 4, top);
    KernelWalkEntry(v.mem, root, q, 4, top);
  }
}
