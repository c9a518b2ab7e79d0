/**
 * The page-fault handler on the machine, for pages of the process's half and of the kernel's: each
 * part is proved to be the step that modules CopyOnWrite and KernelHalf reason about.
 */
module PageFaults {
  import opened Sequences
  import opened Words
  import opened PageTables
  import opened Addresses
  import opened Hardware
  import opened Mapping
  import opened Fork
  import opened CopyOnWrite
  import opened AddressSpaces
  import opened Forking
  import opened KernelHalf

  /** q without its last index: the way to the page table. */
  function Front(q: Path): Path
    decreases q
  {
    if q.Step? && q.rest.Step? then Step(q.idx, Front(q.rest)) else End
  }

  /** Where nothing is missing, mapping is one store in the page table at the end of the way. */
  lemma {:induction false} MappedStore(v: Vm, t: Frame, q: Path, leaf: Word, n: Level, top: set<Index>)
    requires Under(q, n, top) && Tree(v.mem, t, n, top) && Missing(v.mem, t, q) == 0
    ensures KernelWalk(v.mem, t, Front(q)).Hit?
    ensures Mapped(v, t, q, leaf) == Vm(Store(v.mem, KernelWalk(v.mem, t, Front(q)).frame, Last(q), leaf), v.free)
    ensures Entry(v.mem, t, q) == v.mem[KernelWalk(v.mem, t, Front(q)).frame][Last(q)]
    decreases q
  {
    if n > 1 {
      assert Kid(v.mem, t, n, q.idx, top);
      MappedStore(v, Sub(v.mem, t, q.idx), q.rest, leaf, n - 1, top);
    }
  }

  lemma PageBits(v: bv64)
    ensures IndexBits(v & 0xffff_ffff_ffff_f000, 4) == IndexBits(v, 4)
    ensures IndexBits(v & 0xffff_ffff_ffff_f000, 3) == IndexBits(v, 3)
    ensures IndexBits(v & 0xffff_ffff_ffff_f000, 2) == IndexBits(v, 2)
    ensures IndexBits(v & 0xffff_ffff_ffff_f000, 1) == IndexBits(v, 1)
    ensures Canonical(v) ==> Canonical(v & 0xffff_ffff_ffff_f000)
  {
  }

  function PageBase(v: bv64): bv64 { v & 0xffff_ffff_ffff_f000 }

  /** Clearing the offset leaves the page. */
  lemma PageBasePath(v: bv64)
    ensures PathOf(PageBase(v)) == PathOf(v) && (Canonical(v) ==> Canonical(PageBase(v)))
  {
    PageBits(v);
    PathSlots(v);
    PathSlots(PageBase(v));
  }

  /** The entry addresses lead to the page tables of the two processes. */
  lemma EntryWalks(s: Pair, who: Who, virt: bv64)
    requires Linked2(s) && PathOf(virt).Step?
    ensures KernelWalk(s.vm.mem, s.Root(who), PathOf(OwnEntry(virt))) == KernelWalk(s.vm.mem, s.Root(who), Front(PathOf(virt)))
    ensures KernelWalk(s.vm.mem, s.Root(who), PathOf(PartnerEntry(virt)))
         == KernelWalk(s.vm.mem, s.Root(Other(who)), Front(PathOf(virt)))
    ensures WordAt(OwnEntry(virt)) == WordAt(PartnerEntry(virt)) == Last(PathOf(virt))
    ensures Canonical(OwnEntry(virt)) && Canonical(PartnerEntry(virt))
  {
    EntryPaths(virt);
    PathSlots(virt);
    FrontOf(At(virt, 4), At(virt, 3), At(virt, 2), At(virt, 1));
    Linked2Parts(s, who);
  }

  lemma FrontOf(i4: Index, i3: Index, i2: Index, i1: Index)
    ensures var q := Step(i4, Step(i3, Step(i2, Step(i1, End))));
      Front(q) == Step(i4, Step(i3, Step(i2, End))) && Last(q) == i1
  {
    var q1 := Step(i1, End);
    var q2 := Step(i2, q1);
    var q3 := Step(i3, q2);
    assert Front(q1) == End && Front(q2) == Step(i2, End) && Front(q3) == Step(i3, Front(q2));
    assert Last(q1) == i1 && Last(q2) == i1 && Last(q3) == i1;
  }

  lemma CrossOffStore(s: Pair, who: Who, virt: bv64)
    requires Linked2(s) && UserPage(PathOf(virt)) && s.Leaf(Other(who), PathOf(virt)) != ZERO
    ensures Missing(s.vm.mem, s.Root(Other(who)), PathOf(virt)) == 0
    ensures var w := KernelWalk(s.vm.mem, s.Root(who), PathOf(PartnerEntry(virt)));
      && w.Hit? && s.vm.mem[w.frame][WordAt(PartnerEntry(virt))] == s.Leaf(Other(who), PathOf(virt))
      && CrossOff(s, who, PathOf(virt)) == Pair(Vm(Store(s.vm.mem, w.frame, WordAt(PartnerEntry(virt)),
                                                        Crossed(s.Leaf(Other(who), PathOf(virt)))), s.vm.free), s.parent, s.child)
  {
    var q := PathOf(virt);
    UsedNotMissing(s.vm.mem, s.Root(Other(who)), q);
    EntryWalks(s, who, virt);
    Linked2Parts(s, who);
    SideParts(s, Other(who));
    MappedStore(s.vm, s.Root(Other(who)), q, Crossed(s.Leaf(Other(who), q)), 4, UserSlots());
  }

  /** Slot 509 of the active tables, as the kernel reads it. */
  lemma CrossSlot(s: Pair, who: Who)
    requires Linked2(s)
    ensures KernelWalk(s.vm.mem, s.Root(who), PathOf(PML4)) == Hit(s.Root(who)) && Canonical(PML4)
    ensures s.vm.mem[s.Root(who)][509] != ZERO
  {
    RootSlots();
    Linked2Parts(s, who);
  }

  /** A page of the process's own half, or one of a kernel half that both processes share. */
  ghost predicate EitherPage(s: Pair, q: Path) { UserPage(q) || (KernelPage(q) && SharedHalf(s)) }

  lemma EitherIs(s: Pair, q: Path)
    requires EitherPage(s, q)
    ensures q.Step? && (UserPage(q) || (KernelPage(q) && SharedHalf(s))) && (KernelPage(q) ==> !UserPage(q))
  {
    if UserPage(q) { PathStep(q); } else { KernelStep(q); }
    if KernelPage(q) { KernelStep(q); }
  }

  /** The entry of a page of the kernel's half, found through slot 509; crossing it off changes nothing. */
  lemma KernelCrossStore(s: Pair, who: Who, virt: bv64)
    requires SharedHalf(s) && KernelPage(PathOf(virt)) && s.Leaf(Other(who), PathOf(virt)) != ZERO
    ensures var w := KernelWalk(s.vm.mem, s.Root(who), PathOf(PartnerEntry(virt)));
      && w.Hit? && s.vm.mem[w.frame][WordAt(PartnerEntry(virt))] == s.Leaf(Other(who), PathOf(virt))
      && Store(s.vm.mem, w.frame, WordAt(PartnerEntry(virt)), Crossed(s.Leaf(Other(who), PathOf(virt)))) == s.vm.mem
  {
    hide *;
    var q, o := PathOf(virt), Other(who);
    HalfStep(q);
    HighUnder(q);
    SharedParts(s, o);
    CowParts(s);
    HalfWalk(s, o, q);
    LeafIs(s, o, q);
    UsedNotMissing(s.vm.mem, s.Root(o), q);
    EntryWalks(s, who, virt);
    HighTree(s, o);
    SoundParts(s.vm, s.Root(o), 4, {511});
    MappedStore(s.vm, s.Root(o), q, s.Leaf(o, q), 4, {511});
    KindCrossed(s, q.rest);
    StoredSame(s.vm.mem, KernelWalk(s.vm.mem, s.Root(o), Front(q)).frame, Last(q));
  }

  lemma HighUnder(q: Path)
    requires KernelPage(q)
    ensures Under(q, 4, {511})
  {
    HalfStep(q);
    MoreHigh(q.rest, 3);
  }

  lemma {:induction false} MoreHigh(r: Path, n: Level)
    requires n < 4 && Under(r, n, AllSlots())
    ensures Under(r, n, {511})
    decreases n
  {
    if n > 1 { MoreHigh(r.rest, n - 1); }
  }

  lemma KindCrossed(s: Pair, r: Path)
    requires HalfOk(s) && Under(r, 3, AllSlots()) && HalfLeaf(s, r) != ZERO
    ensures Crossed(HalfLeaf(s, r)) == HalfLeaf(s, r) && HalfLeaf(s, r).present
  {
    assert KernelKind(HalfLeaf(s, r));
  }

  lemma StoredSame(m: Memory, t: Frame, i: Index)
    ensures Store(m, t, i, m[t][i]) == m
  {
    assert m[t][i := m[t][i]] == m[t];
  }

  /** `cross_off_COW` */
  method CrossOffCow(k: Machine, virt: bv64, ghost parent: Frame, ghost child: Frame, ghost who: Who)
    requires Linked2(Both(k, parent, child)) && k.cr3 == Both(k, parent, child).Root(who)
    requires EitherPage(Both(k, parent, child), PathOf(virt)) && Both(k, parent, child).Leaf(Other(who), PathOf(virt)) != ZERO
    modifies k`mem
    ensures UserPage(PathOf(virt)) ==>
      && Missing(old(k.mem), old(Both(k, parent, child)).Root(Other(who)), PathOf(virt)) == 0
      && Both(k, parent, child) == CrossOff(old(Both(k, parent, child)), who, PathOf(virt))
    ensures KernelPage(PathOf(virt)) ==> Both(k, parent, child) == old(Both(k, parent, child))
  {
    hide *;
    ghost var s := Pair(Vm(k.mem, k.free), parent, child);
    BothIs(k, parent, child);
    CrossSlot(s, who);
    Denotes(k, PML4, k.cr3);
    var cross := k.Read(PML4, 509);
    EitherIs(s, PathOf(virt));
    if UserPage(PathOf(virt)) {
      CrossOffStore(s, who, virt);
    } else {
      KernelCrossStore(s, who, virt);
    }
    EntryWalks(s, who, virt);
    if cross == ZERO { return; }
    Denotes(k, PartnerEntry(virt), KernelWalk(k.mem, k.cr3, PathOf(PartnerEntry(virt))).frame);
    var temp := k.Read(PartnerEntry(virt), WordAt(PartnerEntry(virt)));
    k.Write(PartnerEntry(virt), WordAt(PartnerEntry(virt)), Crossed(temp));
    BothIs(k, parent, child);
  }

  /** The entry that `do_COW` writes, and the walks before and after. */
  lemma OwnCopyStore(s: Pair, who: Who, virt: bv64)
    requires Linked2(s) && UserPage(PathOf(virt)) && |s.vm.free| > 0
    requires s.Leaf(who, PathOf(virt)) != ZERO && s.Leaf(who, PathOf(virt)).present
    ensures Missing(s.vm.mem, s.Root(who), PathOf(virt)) == 0
    ensures KernelWalk(s.vm.mem, s.Root(who), PathOf(virt)) == Hit(s.Leaf(who, PathOf(virt)).frame)
    ensures var f, w := s.vm.free[0], KernelWalk(s.vm.mem, s.Root(who), PathOf(OwnEntry(virt)));
      && w.Hit?
      && var m := Store(s.vm.mem, w.frame, WordAt(OwnEntry(virt)), UserLeaf(f));
        && KernelWalk(m, s.Root(who), PathOf(virt)) == Hit(f) && f !in Passed(m, s.Root(who), PathOf(virt))
        && OwnCopy(s, who, PathOf(virt)) ==
           SetPage(Pair(Vm(m, s.vm.free[1..]), s.parent, s.child), f, s.vm.mem[s.Leaf(who, PathOf(virt)).frame])
  {
    var q, f, s1 := PathOf(virt), s.vm.free[0], TakeFrame(s);
    UsedNotMissing(s.vm.mem, s.Root(who), q);
    TakeFrameOk(s);
    EntryWalks(s, who, virt);
    Linked2Parts(s, who);
    SideParts(s, who);
    KernelWalkEntry(s.vm.mem, s.Root(who), q, 4, UserSlots());
    MappedStore(s1.vm, s.Root(who), q, UserLeaf(f), 4, UserSlots());
    OwnWalkAfter(s1, who, q, f);
  }

  lemma OwnWalkAfter(s1: Pair, who: Who, q: Path, f: Frame)
    requires Linked2(s1) && UserPage(q) && Missing(s1.vm.mem, s1.Root(who), q) == 0 && DataFrame(s1, f)
    ensures var m := WithLeaf(s1, who, q, UserLeaf(f)).vm.mem;
      KernelWalk(m, s1.Root(who), q) == Hit(f) && f !in Passed(m, s1.Root(who), q)
  {
    var s2 := WithLeaf(s1, who, q, UserLeaf(f));
    WithLeafLinked(s1, who, q, UserLeaf(f));
    WithLeafOnly(s1, who, q, UserLeaf(f));
    WithLeafData(s1, who, q, UserLeaf(f));
    OwnWalkIs(s2, who, q, f);
  }

  lemma OwnWalkIs(s: Pair, who: Who, q: Path, f: Frame)
    requires Linked2(s) && UserPage(q) && s.Leaf(who, q) == UserLeaf(f) && DataFrame(s, f)
    ensures KernelWalk(s.vm.mem, s.Root(who), q) == Hit(f) && f !in Passed(s.vm.mem, s.Root(who), q)
  {
    Linked2Parts(s, who);
    SideParts(s, who);
    hide Linked2, SideOk;
    KernelWalkEntry(s.vm.mem, s.Root(who), q, 4, UserSlots());
    PassedReach(s.vm.mem, s.Root(who), q, 4, UserSlots());
  }

  /** The same for a page of the kernel's half. */
  lemma KernelCopyStore(s: Pair, who: Who, virt: bv64)
    requires SharedHalf(s) && KernelPage(PathOf(virt)) && PathOf(virt).Step? && |s.vm.free| > 0
    requires s.Leaf(who, PathOf(virt)) != ZERO
    ensures Missing(s.vm.mem, s.Root(who), PathOf(virt)) == 0
    ensures KernelWalk(s.vm.mem, s.Root(who), PathOf(virt)) == Hit(s.Leaf(who, PathOf(virt)).frame)
    ensures var f, w := s.vm.free[0], KernelWalk(s.vm.mem, s.Root(who), PathOf(OwnEntry(virt)));
      && w.Hit?
      && var m := Store(s.vm.mem, w.frame, WordAt(OwnEntry(virt)), UserLeaf(f));
        && KernelWalk(m, s.Root(who), PathOf(virt)) == Hit(f) && f !in Passed(m, s.Root(who), PathOf(virt))
        && KernelCopy(s, who, PathOf(virt))
           == SetPage(Pair(Vm(m, s.vm.free[1..]), s.parent, s.child), f, s.vm.mem[s.Leaf(who, PathOf(virt)).frame])
  {
    hide *;
    var q, f, v1 := PathOf(virt), s.vm.free[0], Vm(s.vm.mem, s.vm.free[1..]);
    HighUnder(q);
    HalfStep(q);
    SharedParts(s, who);
    CowParts(s);
    LeafIs(s, who, q);
    UsedNotMissing(s.vm.mem, s.Root(who), q);
    EntryWalks(s, who, virt);
    HighTree(s, who);
    SoundParts(s.vm, s.Root(who), 4, {511});
    HalfWalk(s, who, q);
    KindCrossed(s, q.rest);
    KernelWalkEntry(s.vm.mem, s.Root(who), q, 4, {511});
    MappedStore(v1, s.Root(who), q, UserLeaf(f), 4, {511});
    DemandIs(s, who, q);
    CopyIs(s, who, q);
    KernelWalkAfter(s, who, q);
  }

  /** After the copy has been mapped the pointer denotes its frame, which no table on the way is. */
  lemma KernelWalkAfter(s: Pair, who: Who, q: Path)
    requires SharedHalf(s) && KernelPage(q) && q.Step? && 1 + Missing(s.vm.mem, s.Root(who), q) <= |s.vm.free|
    ensures var m, f := KernelDemand(s, who, q).vm.mem, s.vm.free[0];
      KernelWalk(m, s.Root(who), q) == Hit(f) && f !in Passed(m, s.Root(who), q)
  {
    hide *;
    var s1, f := KernelDemand(s, who, q), s.vm.free[0];
    DemandChanges(s, who, q);
    KernelDemandSeen(s, who, q);
    DemandIs(s, who, q);
    SameRoots(s, s1, who);
    HighUnder(q);
    HighTree(s1, who);
    SoundParts(s1.vm, s1.Root(who), 4, {511});
    GrantedPresent(s1, who, q, f);
    UserKind(f);
    HalfKept(s, s1, q.rest, UserLeaf(f));
    TableOf(s1, who);
    RootNotFree(s, who, f);
    PassedReach(s1.vm.mem, s1.Root(who), q, 4, {511});
  }

  lemma GrantedPresent(s: Pair, who: Who, q: Path, f: Frame)
    requires Under(q, 4, {511}) && Tree(s.vm.mem, s.Root(who), 4, {511})
    requires UserWalk(s.vm.mem, s.Root(who), q, false) == Granted(f)
    ensures KernelWalk(s.vm.mem, s.Root(who), q) == Hit(f)
  {
    UserWalkEntry(s.vm.mem, s.Root(who), q, 4, {511}, false);
    KernelWalkEntry(s.vm.mem, s.Root(who), q, 4, {511});
  }

  lemma TableOf(s: Pair, who: Who)
    ensures HalfTables(s) == Reach(s.vm.mem, Half(s), 3, AllSlots())
  {
  }

  lemma RootNotFree(s: Pair, who: Who, f: Frame)
    requires SharedHalf(s) && f in Frames(s.vm.free)
    ensures f != s.Root(who)
  {
    assert s.Root(who) in s.Tables(who);
    SharedParts(s, who);
    Linked2Parts(s, who);
    SideParts(s, who);
  }

  /** `do_COW`, with the copying that `map_page_COW` does through a buffer. */
  method DoCow(k: Machine, virt: bv64, ghost parent: Frame, ghost child: Frame, ghost who: Who)
    requires Linked2(Both(k, parent, child)) && k.cr3 == Both(k, parent, child).Root(who)
    requires Canonical(virt) && EitherPage(Both(k, parent, child), PathOf(virt)) && |k.free| > 0
    requires Both(k, parent, child).Leaf(who, PathOf(virt)) != ZERO
    requires UserPage(PathOf(virt)) ==> Both(k, parent, child).Leaf(who, PathOf(virt)).present
    modifies k`mem, k`free
    ensures PathOf(virt).Step? && Missing(old(k.mem), old(Both(k, parent, child)).Root(who), PathOf(virt)) == 0
    ensures UserPage(PathOf(virt)) ==> Both(k, parent, child) == OwnCopy(old(Both(k, parent, child)), who, PathOf(virt))
    ensures KernelPage(PathOf(virt)) ==> Both(k, parent, child) == KernelCopy(old(Both(k, parent, child)), who, PathOf(virt))
  {
    hide *;
    ghost var s := Pair(Vm(k.mem, k.free), parent, child);
    BothIs(k, parent, child);
    EitherIs(s, PathOf(virt));
    if UserPage(PathOf(virt)) {
      OwnCopyStore(s, who, virt);
    } else {
      SharedParts(s, who);
      KernelCopyStore(s, who, virt);
    }
    EntryWalks(s, who, virt);
    PageBasePath(virt);
    var page := k.GetFreePage();
    Denotes(k, PageBase(virt), s.Leaf(who, PathOf(virt)).frame);
    var buffer := k.ReadPage(PageBase(virt));
    Denotes(k, OwnEntry(virt), KernelWalk(k.mem, k.cr3, PathOf(OwnEntry(virt))).frame);
    k.Write(OwnEntry(virt), WordAt(OwnEntry(virt)), UserLeaf(page));
    DenotesApart(k, PageBase(virt), page);
    k.WritePage(PageBase(virt), buffer);
    BothIs(k, parent, child);
    SetPageIs(Pair(Vm(Store(s.vm.mem, KernelWalk(s.vm.mem, s.Root(who), PathOf(OwnEntry(virt))).frame,
                            WordAt(OwnEntry(virt)), UserLeaf(page)), k.free), parent, child), page, buffer);
  }

  lemma SetPageIs(s: Pair, f: Frame, page: Page)
    ensures SetPage(s, f, page) == Pair(Vm(s.vm.mem[f := page], s.vm.free), s.parent, s.child)
  {
  }

  /** `handle_COW`; partnerFound is the outcome of looking the partner up in the process queue. */
  method HandleCowFault(k: Machine, virt: bv64, partnerFound: bool, ghost parent: Frame, ghost child: Frame, ghost who: Who)
    requires Linked2(Both(k, parent, child)) && k.cr3 == Both(k, parent, child).Root(who)
    requires Canonical(virt) && EitherPage(Both(k, parent, child), PathOf(virt)) && |k.free| > 0
    requires Both(k, parent, child).Leaf(who, PathOf(virt)) != ZERO
    requires UserPage(PathOf(virt)) ==> HandlePre(Both(k, parent, child), who, PathOf(virt))
    modifies k`mem, k`free
    ensures UserPage(PathOf(virt)) ==>
      Both(k, parent, child) == HandleCow(old(Both(k, parent, child)), who, PathOf(virt), partnerFound)
    ensures KernelPage(PathOf(virt)) ==>
      && PathOf(virt).Step? && Missing(old(k.mem), old(Both(k, parent, child)).Root(who), PathOf(virt)) == 0
      && Both(k, parent, child) ==
         if partnerFound then KernelCopy(old(Both(k, parent, child)), who, PathOf(virt)) else old(Both(k, parent, child))
  {
    hide *;
    ghost var s, q := Both(k, parent, child), PathOf(virt);
    BothIs(k, parent, child);
    EitherIs(s, q);
    if UserPage(q) { HandleParts(s, who, q); } else { KernelUsed(s, who, q); }
    if !partnerFound {
      CrossOffCow(k, virt, parent, child, who);
      if UserPage(q) { HandleCowAlone(s, who, q); }
      return;
    }
    DoCow(k, virt, parent, child, who);
    BothIs(k, parent, child);
    if UserPage(q) { OwnCopied(s, who, q); } else { KernelCopied(s, who, q); }
    CrossOffCow(k, virt, parent, child, who);
    if UserPage(q) { HandleCowIs(s, who, q); }
  }

  lemma HandleParts(s: Pair, who: Who, q: Path)
    requires HandlePre(s, who, q)
    ensures UserPage(q) && |s.vm.free| > 0 && Linked2(s) && EitherPage(s, q)
    ensures s.Leaf(who, q) != ZERO && s.Leaf(who, q).present && s.Leaf(Other(who), q) != ZERO
    ensures DataFrame(s, s.Leaf(who, q).frame)
  {
  }

  /** A page of the kernel's half that one process uses is there for the other. */
  lemma KernelUsed(s: Pair, who: Who, q: Path)
    requires SharedHalf(s) && KernelPage(q) && q.Step? && s.Leaf(who, q) != ZERO
    ensures s.Leaf(Other(who), q) == s.Leaf(who, q) && Linked2(s) && Missing(s.vm.mem, s.Root(who), q) == 0
  {
    hide *;
    SharedParts(s, who);
    CowParts(s);
    HalfWalk(s, who, q);
    HalfWalk(s, Other(who), q);
    LeafIs(s, who, q);
    UsedNotMissing(s.vm.mem, s.Root(who), q);
  }

  lemma OwnCopied(s: Pair, who: Who, q: Path)
    requires HandlePre(s, who, q) && q.Step? && Missing(s.vm.mem, s.Root(who), q) == 0
    ensures var s1 := OwnCopy(s, who, q);
      && Linked2(s1) && EitherPage(s1, q) && s1.Leaf(Other(who), q) != ZERO
      && (s1.parent == s.parent && s1.child == s.child ==> s1.Root(who) == s.Root(who))
  {
    hide *;
    HandleParts(s, who, q);
    OwnCopyEffect(s, who, q);
    OnlyLeafOther(s, OwnCopy(s, who, q), who, q);
    UserEither(OwnCopy(s, who, q), q);
    if OwnCopy(s, who, q).parent == s.parent && OwnCopy(s, who, q).child == s.child { SameRoots(s, OwnCopy(s, who, q), who); }
  }

  lemma UserEither(s: Pair, q: Path)
    ensures UserPage(q) ==> EitherPage(s, q)
    ensures KernelPage(q) && SharedHalf(s) ==> EitherPage(s, q)
  {
  }

  lemma KernelCopied(s: Pair, who: Who, q: Path)
    requires SharedHalf(s) && KernelPage(q) && q.Step? && |s.vm.free| > 0 && Missing(s.vm.mem, s.Root(who), q) == 0
    ensures var s1 := KernelCopy(s, who, q);
      && Linked2(s1) && EitherPage(s1, q) && s1.Leaf(Other(who), q) != ZERO && s1.Root(who) == s.Root(who)
  {
    hide *;
    var s1, o := KernelCopy(s, who, q), Other(who);
    KernelCopySeen(s, who, q);
    CopyChanges(s, who, q);
    ChangedParts(s, s1, q.rest, UserLeaf(s.vm.free[0]));
    SameRoots(s, s1, who);
    UserEither(s1, q);
    SharedParts(s1, o);
    CowParts(s1);
    KernelAccess(s1, o, q, false);
  }

  lemma SameRoots(s: Pair, s': Pair, who: Who)
    requires s'.parent == s.parent && s'.child == s.child
    ensures s'.Root(who) == s.Root(who) && s'.Root(Other(who)) == s.Root(Other(who))
  {
  }

  lemma DemandReady(s: Pair, who: Who, q: Path)
    requires Linked2(s) && UserPage(q) && 1 + Missing(s.vm.mem, s.Root(who), q) <= |s.vm.free|
    ensures var v1 := TakeFrame(s).vm;
      && v1 == Vm(s.vm.mem, s.vm.free[1..])
      && SelfMapped(v1.mem, s.Root(who)) && Sound(v1, s.Root(who), 4, UserSlots())
      && Missing(v1.mem, s.Root(who), q) <= |v1.free|
      && LateCleared(v1, s.Root(who), q, UserLeaf(s.vm.free[0]), false) == Demand(s, who, q).vm
      && Demand(s, who, q) == Pair(Demand(s, who, q).vm, s.parent, s.child)
  {
    TakeFrameOk(s);
    Linked2Parts(TakeFrame(s), who);
    MapDirect(TakeFrame(s).vm, s.Root(who), q, UserLeaf(s.vm.free[0]), UserSlots());
  }

  /** `add_physical_page_in` */
  method AddPhysicalPageIn(k: Machine, virt: bv64, ghost parent: Frame, ghost child: Frame, ghost who: Who)
    requires Linked2(Both(k, parent, child)) && k.cr3 == Both(k, parent, child).Root(who)
    requires EitherPage(Both(k, parent, child), PathOf(virt)) && PathOf(virt).Step?
    requires 1 + Missing(k.mem, k.cr3, PathOf(virt)) <= |k.free|
    modifies k`mem, k`free
    ensures UserPage(PathOf(virt)) ==> Both(k, parent, child) == Demand(old(Both(k, parent, child)), who, PathOf(virt))
    ensures KernelPage(PathOf(virt)) ==> Both(k, parent, child) == KernelDemand(old(Both(k, parent, child)), who, PathOf(virt))
  {
    hide *;
    ghost var s := Pair(Vm(k.mem, k.free), parent, child);
    BothIs(k, parent, child);
    EitherIs(s, PathOf(virt));
    ghost var top := if UserPage(PathOf(virt)) then UserSlots() else {511};
    if UserPage(PathOf(virt)) {
      DemandReady(s, who, PathOf(virt));
    } else {
      KernelDemandReady(s, who, PathOf(virt));
    }
    PageBasePath(virt);
    UserTop(PageBase(virt));
    var page := k.GetFreePage();
    LeafBits(page);
    StateIs(k);
    var next := MapPage(k, Base(page), PageBase(virt), USER_PAGE, top);
    StateIs(k);
    BothIs(k, parent, child);
  }

  lemma UserTop(virt: bv64)
    ensures UserPage(PathOf(virt)) ==> At(virt, 4) in UserSlots()
    ensures KernelPage(PathOf(virt)) ==> At(virt, 4) in {511}
    ensures 510 !in UserSlots() && 510 !in {511}
  {
  }

  lemma KernelDemandReady(s: Pair, who: Who, q: Path)
    requires SharedHalf(s) && KernelPage(q) && q.Step? && 1 + Missing(s.vm.mem, s.Root(who), q) <= |s.vm.free|
    ensures var v1 := Vm(s.vm.mem, s.vm.free[1..]);
      && SelfMapped(v1.mem, s.Root(who)) && Sound(v1, s.Root(who), 4, {511})
      && Missing(v1.mem, s.Root(who), q) <= |v1.free|
      && LateCleared(v1, s.Root(who), q, UserLeaf(s.vm.free[0]), false) == KernelDemand(s, who, q).vm
      && KernelDemand(s, who, q) == Pair(KernelDemand(s, who, q).vm, s.parent, s.child)
  {
    hide *;
    var v1 := Vm(s.vm.mem, s.vm.free[1..]);
    HighUnder(q);
    HighTree(s, who);
    RestSound(s.vm, s.Root(who));
    DemandIs(s, who, q);
    MapDirect(v1, s.Root(who), q, UserLeaf(s.vm.free[0]), {511});
  }

  lemma RestSound(v: Vm, root: Frame)
    requires Sound(v, root, 4, {511}) && Zeroed(v) && |v.free| > 0
    ensures Sound(Vm(v.mem, v.free[1..]), root, 4, {511}) && Zeroed(Vm(v.mem, v.free[1..]))
  {
    assert Frames(v.free[1..]) <= Frames(v.free);
  }

  /**
   * `int_pgflt_srv` for every error code that a user-mode access can raise, in the process's half and
   * in the kernel's.  It halts at address 0 and on code 5, a read of one of the kernel's own pages.
   */
  method PageFault(k: Machine, address: bv64, error: nat, partnerFound: bool, ghost parent: Frame,
                   ghost child: Frame, ghost who: Who)
    returns (halted: bool)
    requires CowInv(Both(k, parent, child)) && k.cr3 == Both(k, parent, child).Root(who)
    requires Canonical(address) && EitherPage(Both(k, parent, child), PathOf(address)) && PathOf(address).Step?
    requires exists write :: UserWalk(k.mem, k.cr3, PathOf(address), write) == Access.PageFault(error)
    requires error == 7 ==> |k.free| > 0
    requires error % 2 == 0 ==> 1 + Missing(k.mem, k.cr3, PathOf(address)) <= |k.free|
    modifies k`mem, k`free
    ensures halted <==> address == 0 || error == 5
    ensures error == 5 ==> KernelPage(PathOf(address))
    ensures halted ==> k.mem == old(k.mem) && k.free == old(k.free)
    ensures !halted && error == 7 && UserPage(PathOf(address)) ==>
      HandlePre(old(Both(k, parent, child)), who, PathOf(address))
      && Both(k, parent, child) == HandleCow(old(Both(k, parent, child)), who, PathOf(address), partnerFound)
    ensures !halted && error == 7 && KernelPage(PathOf(address)) ==>
      Missing(old(k.mem), old(Both(k, parent, child)).Root(who), PathOf(address)) == 0
      && Both(k, parent, child) ==
         if partnerFound then KernelCopy(old(Both(k, parent, child)), who, PathOf(address)) else old(Both(k, parent, child))
    ensures !halted && error != 7 && UserPage(PathOf(address)) ==>
      error % 2 == 0 && Both(k, parent, child) == Demand(old(Both(k, parent, child)), who, PathOf(address))
    ensures !halted && error != 7 && KernelPage(PathOf(address)) ==>
      error % 2 == 0 && Both(k, parent, child) == KernelDemand(old(Both(k, parent, child)), who, PathOf(address))
  {
    hide *;
    ghost var s, q := Both(k, parent, child), PathOf(address);
    BothIs(k, parent, child);
    EitherIs(s, q);
    FaultKind(s, who, q, error);
    CowParts(s);
    NullIsUser(address);
    if address == 0 { return true; }
    if error == 7 {
      HandleCowFault(k, address, partnerFound, parent, child, who);
      return false;
    }
    if error % 2 == 0 {
      AddPhysicalPageIn(k, address, parent, child, who);
      return false;
    }
    return true;
  }

  /** The halting access is the one at address 0. */
  lemma NullAddress(address: bv64, who: Who)
    requires Canonical(address) && address & 7 == 0
    ensures IsNull(Load(who, PathOf(address), WordAt(address))) <==> address == 0
  {
    PathSlots(address);
    hide PathOf, PathFrom, Canonical;
    ZeroBitsOnly(address);
    forall level: Level ensures At(address, level) == 0 <==> IndexBits(address, level) == 0 { IndexBitsAt(address, level); }
  }

  lemma ZeroBitsOnly(v: bv64)
    ensures Canonical(v) && v & 7 == 0 ==>
      (v == 0 <==>
        IndexBits(v, 4) == 0 && IndexBits(v, 3) == 0 && IndexBits(v, 2) == 0 && IndexBits(v, 1) == 0 && WordSlot(v) == 0)
  {
  }

  lemma NullIsUser(address: bv64)
    ensures address == 0 ==> !KernelPage(PathOf(address))
  {
    if KernelPage(PathOf(address)) { KernelNotNull(address); }
  }

  /**
   * A user page faults as not present or as shared.  In the kernel's half a missing page faults as
   * not present, and one of the kernel's own with code 5 or 7.
   */
  lemma FaultKind(s: Pair, who: Who, q: Path, error: nat)
    requires CowInv(s) && EitherPage(s, q)
    requires exists write :: UserWalk(s.vm.mem, s.Root(who), q, write) == Access.PageFault(error)
    ensures UserPage(q) ==> error in {4, 6, 7} && (error == 7 && |s.vm.free| > 0 ==> HandlePre(s, who, q))
    ensures KernelPage(q) ==> error in {4, 5, 6, 7}
    ensures KernelPage(q) && error in {4, 6} ==> s.Leaf(who, q) == ZERO
    ensures KernelPage(q) && error in {5, 7} ==> s.Leaf(who, q) != ZERO && s.Leaf(who, q) == KernelLeaf(s.Leaf(who, q).frame)
    ensures error == 7 ==> s.Leaf(who, q) != ZERO
  {
    hide *;
    var write :| UserWalk(s.vm.mem, s.Root(who), q, write) == Access.PageFault(error);
    EitherIs(s, q);
    if UserPage(q) {
      UserFault(s, who, q, error, write);
    } else {
      SharedParts(s, who);
      KernelAccess(s, who, q, write);
    }
  }

  lemma UserFault(s: Pair, who: Who, q: Path, error: nat, write: bool)
    requires CowInv(s) && UserPage(q) && UserWalk(s.vm.mem, s.Root(who), q, write) == Access.PageFault(error)
    ensures error in {4, 6, 7} && (error == 7 ==> s.Leaf(who, q) != ZERO)
    ensures error == 7 && |s.vm.free| > 0 ==> HandlePre(s, who, q)
  {
    var op := if write then Save(who, q, 0, ZERO) else Load(who, q, 0);
    WriteFault(s, op, error);
    if error == 7 {
      CowParts(s);
      UsedLeaf(s, who, q);
    }
  }

  ghost predicate HandlePre(s: Pair, who: Who, q: Path) {
    UserPage(q) && |s.vm.free| > 0 && Linked2(s)
    && s.Leaf(who, q) != ZERO && s.Leaf(who, q).present && s.Leaf(Other(who), q) != ZERO && DataFrame(s, s.Leaf(who, q).frame)
  }
}
