/**
 * The kernel's half of a forked pair: both roots link to the same tables in slot 511, so what a
 * fault does to a page of that half is seen by both processes.
 */
module KernelHalf {
  import opened Sequences
  import opened Words
  import opened PageTables
  import opened Addresses
  import opened Hardware
  import opened Mapping
  import opened Fork
  import opened CopyOnWrite
  import opened Forking
  import opened AddressSpaces

  /** An entry through which a walk goes on to a table with all rights. */
  predicate LinksTo(w: Word, table: Frame) { IsLink(w) && w.frame == table }

  /** The table that slot 511 of the roots leads to. */
  function Half(s: Pair): Frame { Sub(s.vm.mem, s.parent, 511) }

  ghost function HalfTables(s: Pair): iset<Frame> { Reach(s.vm.mem, Half(s), 3, AllSlots()) }

  /** The entry of a page of the kernel's half, q without its first index. */
  function HalfLeaf(s: Pair, r: Path): Word { Entry(s.vm.mem, Half(s), r) }

  /** The kernel's tables are a tree of their own with entries of the kernel's kinds. */
  ghost predicate HalfOk(s: Pair) {
    Sound(s.vm, Half(s), 3, AllSlots()) && forall r | Under(r, 3, AllSlots()) :: KernelKind(HalfLeaf(s, r))
  }

  /** A process's own tables and pages are apart from the kernel's tables. */
  ghost predicate HalfApart(s: Pair, who: Who) {
    && LinksTo(s.vm.mem[s.Root(who)][511], Half(s)) && s.Tables(who) !! HalfTables(s)
    && forall q | UserPage(q) && s.Leaf(who, q) != ZERO :: s.Leaf(who, q).frame !in HalfTables(s)
  }

  /** A forked pair over one kernel half. */
  ghost predicate SharedHalf(s: Pair) { CowInv(s) && HalfOk(s) && HalfApart(s, Parent) && HalfApart(s, Child) }

  lemma SharedParts(s: Pair, who: Who)
    ensures SharedHalf(s) <==> CowInv(s) && HalfOk(s) && HalfApart(s, who) && HalfApart(s, Other(who))
  {
  }

  lemma HalfStep(q: Path)
    requires KernelPage(q)
    ensures q.Step? && q.idx == 511 && q.rest.Step? && Under(q.rest, 3, AllSlots()) && q == Step(511, q.rest)
  {
  }

  /** The way into the kernel's half is the same from both roots. */
  lemma HalfWalk(s: Pair, who: Who, q: Path)
    requires HalfApart(s, who) && KernelPage(q)
    ensures s.Leaf(who, q) == HalfLeaf(s, q.rest)
    ensures Missing(s.vm.mem, s.Root(who), q) == Missing(s.vm.mem, Half(s), q.rest)
    ensures KernelWalk(s.vm.mem, s.Root(who), q) == KernelWalk(s.vm.mem, Half(s), q.rest)
    ensures forall write :: UserWalk(s.vm.mem, s.Root(who), q, write) == UserWalk(s.vm.mem, Half(s), q.rest, write)
  {
    HalfStep(q);
  }

  /**
   * What a user access to the kernel's half meets: a page of the kernel's own is refused with code
   * 5 or 7, a missing one is reported as in the process's half, the others are open.
   */
  lemma KernelAccess(s: Pair, who: Who, q: Path, write: bool)
    requires HalfOk(s) && HalfApart(s, who) && KernelPage(q)
    ensures UserWalk(s.vm.mem, s.Root(who), q, write) ==
      var e := s.Leaf(who, q);
      if e == ZERO then Access.PageFault(if write then 6 else 4)
      else if e == KernelLeaf(e.frame) then Access.PageFault(if write then 7 else 5)
      else Granted(e.frame)
  {
    HalfStep(q);
    HalfWalk(s, who, q);
    UserWalkEntry(s.vm.mem, Half(s), q.rest, 3, AllSlots(), write);
    assert KernelKind(HalfLeaf(s, q.rest));
  }

  /** One entry of the kernel's half has changed, with tables made of free frames where it needed them. */
  ghost predicate HalfChanged(s: Pair, s': Pair, r: Path, leaf: Word) {
    && s'.parent == s.parent && s'.child == s.child
    && Changed(s.vm.mem, s'.vm.mem, HalfTables(s) + Frames(s.vm.free))
    && Frames(s'.vm.free) <= Frames(s.vm.free) && Zeroed(s'.vm) && Sound(s'.vm, Half(s), 3, AllSlots())
    && Reach(s'.vm.mem, Half(s), 3, AllSlots()) <= HalfTables(s) + Frames(s.vm.free)
    && Entry(s'.vm.mem, Half(s), r) == leaf
    && forall r' | Under(r', 3, AllSlots()) && r' != r :: Entry(s'.vm.mem, Half(s), r') == HalfLeaf(s, r')
  }

  /** The process's own tables are untouched. */
  lemma SideUntouched(s: Pair, s': Pair, r: Path, leaf: Word, who: Who)
    requires SideOk(s, who) && HalfApart(s, who) && HalfChanged(s, s', r, leaf)
    ensures SideOk(s', who) && s'.Tables(who) == s.Tables(who) && s'.vm.mem[s.Root(who)] == s.vm.mem[s.Root(who)]
    ensures s'.Root(who) == s.Root(who)
    ensures forall q | UserPage(q) :: s'.Leaf(who, q) == s.Leaf(who, q)
  {
    assert s.Root(who) in s.Tables(who);
    hide HalfTables, SelfMapped, Half;
    assert Agree(s.vm.mem, s'.vm.mem, s.Tables(who)) by { hide Reach; }
    AgreeReach(s.vm.mem, s'.vm.mem, s.Root(who), 4, UserSlots());
    forall q | UserPage(q) ensures s'.Leaf(who, q) == s.Leaf(who, q) {
      AgreeEntry(s.vm.mem, s'.vm.mem, s.Root(who), q, 4, UserSlots());
    }
  }

  /** Below slot 511 alone, a root is the root of a tree. */
  lemma HighTree(s: Pair, who: Who)
    requires SharedHalf(s)
    ensures Sound(s.vm, s.Root(who), 4, {511}) && Zeroed(s.vm) && SelfMapped(s.vm.mem, s.Root(who))
    ensures Reach(s.vm.mem, s.Root(who), 4, {511}) == iset{s.Root(who)} + HalfTables(s)
  {
    hide *;
    SharedParts(s, who);
    CowParts(s);
    Linked2Parts(s, who);
    SideParts(s, who);
    HighIs(s, who);
    forall f: Frame ensures f in Reach(s.vm.mem, s.Root(who), 4, {511}) <==> f == s.Root(who) || f in HalfTables(s) {
      OnlyBelow(s.vm.mem, s.Root(who), f);
    }
    assert Reach(s.vm.mem, s.Root(who), 4, {511}) == iset{s.Root(who)} + HalfTables(s);
    HighSound(s, who);
  }

  lemma HighIs(s: Pair, who: Who)
    requires HalfApart(s, who)
    ensures forall i: Index :: Kid(s.vm.mem, s.Root(who), 4, i, {511}) <==> i == 511
    ensures Sub(s.vm.mem, s.Root(who), 511) == Half(s) && IsLink(s.vm.mem[s.Root(who)][511])
    ensures Below(s.vm.mem, s.Root(who), 4, 511, {511}) == HalfTables(s)
    ensures forall i: Index | i != 511 :: Below(s.vm.mem, s.Root(who), 4, i, {511}) == iset{}
  {
    TopIrrelevant(s.vm.mem, Half(s), 3, {511}, AllSlots());
  }

  lemma OnlyBelow(m: Memory, t: Frame, f: Frame)
    requires forall i: Index | i != 511 :: Below(m, t, 4, i, {511}) == iset{}
    ensures f in Reach(m, t, 4, {511}) <==> f == t || f in Below(m, t, 4, 511, {511})
  {
    hide Reach, Below;
    ReachBelow(m, t, 4, {511}, f);
  }

  lemma HighSound(s: Pair, who: Who)
    requires HalfApart(s, who) && HalfOk(s) && s.Tables(who) !! Frames(s.vm.free)
    requires Reach(s.vm.mem, s.Root(who), 4, {511}) == iset{s.Root(who)} + HalfTables(s)
    requires forall i: Index :: Kid(s.vm.mem, s.Root(who), 4, i, {511}) <==> i == 511
    ensures Sound(s.vm, s.Root(who), 4, {511})
  {
    TopIrrelevant(s.vm.mem, Half(s), 3, {511}, AllSlots());
    assert s.Root(who) in s.Tables(who);
  }

  lemma PagesKept(s: Pair, s': Pair)
    requires LeavesOk(s) && Frames(s'.vm.free) <= Frames(s.vm.free)
    requires s'.Tables(Parent) == s.Tables(Parent) && s'.Tables(Child) == s.Tables(Child)
    requires forall who, q | UserPage(q) :: s'.Leaf(who, q) == s.Leaf(who, q)
    ensures LeavesOk(s')
  {
    hide UserPage, Pair.Leaf, Pair.Tables;
    forall who, q | UserPage(q) ensures LeafOk(s', who, q) && SharedOk(s', who, q) {
      assert LeafOk(s, who, q) && SharedOk(s, who, q);
    }
    forall who, q, who', q' | UserPage(q) && UserPage(q') ensures FrameOk(s', who, q, who', q') {
      assert FrameOk(s, who, q, who', q');
    }
  }

  lemma ContentsKept(s: Pair, s': Pair, r: Path, leaf: Word, who: Who)
    requires LeavesOk(s) && HalfApart(s, who) && HalfChanged(s, s', r, leaf)
    requires forall q | UserPage(q) :: s'.Leaf(who, q) == s.Leaf(who, q)
    ensures Seen(s', who) == Seen(s, who)
  {
    forall q | UserPage(q) && s.Leaf(who, q) != ZERO ensures s'.vm.mem[s.Leaf(who, q).frame] == s.vm.mem[s.Leaf(who, q).frame] {
      assert LeafOk(s, who, q);
    }
    hide UserPage, Pair.Leaf;
    SameSeen(s, s', who);
  }

  lemma HalfFound(s: Pair, s': Pair, r: Path, leaf: Word)
    requires HalfOk(s) && HalfChanged(s, s', r, leaf) && KernelKind(leaf) && s'.vm.mem[s.parent] == s.vm.mem[s.parent]
    ensures Half(s') == Half(s) && HalfOk(s') && HalfTables(s') <= HalfTables(s) + Frames(s.vm.free)
  {
    forall r' | Under(r', 3, AllSlots()) ensures KernelKind(HalfLeaf(s', r')) {
      assert KernelKind(HalfLeaf(s, r'));
    }
  }

  lemma StillApart(s: Pair, s': Pair, r: Path, leaf: Word, who: Who)
    requires LeavesOk(s) && HalfApart(s, who) && SideOk(s, who) && HalfChanged(s, s', r, leaf)
    requires Half(s') == Half(s) && HalfTables(s') <= HalfTables(s) + Frames(s.vm.free)
    requires s'.Tables(who) == s.Tables(who) && s'.vm.mem[s.Root(who)] == s.vm.mem[s.Root(who)]
    requires forall q | UserPage(q) :: s'.Leaf(who, q) == s.Leaf(who, q)
    ensures HalfApart(s', who)
  {
    SideParts(s, who);
    forall q | UserPage(q) && s'.Leaf(who, q) != ZERO ensures s'.Leaf(who, q).frame !in HalfTables(s') {
      assert LeafOk(s, who, q);
    }
  }

  lemma ChangedParts(s: Pair, s': Pair, r: Path, leaf: Word)
    requires HalfChanged(s, s', r, leaf)
    ensures s'.parent == s.parent && s'.child == s.child && Frames(s'.vm.free) <= Frames(s.vm.free) && Zeroed(s'.vm)
  {
  }

  /**
   * A change of one entry of the kernel's half keeps the invariant of the pair and is seen in
   * neither process's own pages.
   */
  lemma HalfKept(s: Pair, s': Pair, r: Path, leaf: Word)
    requires SharedHalf(s) && HalfChanged(s, s', r, leaf) && KernelKind(leaf)
    ensures SharedHalf(s') && View(s') == View(s) && Half(s') == Half(s)
  {
    hide *;
    SharedParts(s, Parent);
    CowParts(s);
    Linked2Parts(s, Parent);
    OtherSide();
    ChangedParts(s, s', r, leaf);
    SideUntouched(s, s', r, leaf, Parent);
    SideUntouched(s, s', r, leaf, Child);
    RootsAre(s);
    RootsAre(s');
    BothLeaves(s, s');
    PagesKept(s, s');
    HalfFound(s, s', r, leaf);
    StillApart(s, s', r, leaf, Parent);
    StillApart(s, s', r, leaf, Child);
    ContentsKept(s, s', r, leaf, Parent);
    ContentsKept(s, s', r, leaf, Child);
    Linked2Parts(s', Parent);
    CowParts(s');
    SharedParts(s', Parent);
    ViewIs(s);
    ViewIs(s');
  }

  lemma OtherSide()
    ensures Other(Parent) == Child && Other(Child) == Parent
  {
  }

  lemma RootsAre(s: Pair)
    ensures s.Root(Parent) == s.parent && s.Root(Child) == s.child
  {
  }

  lemma BothLeaves(s: Pair, s': Pair)
    requires forall q | UserPage(q) :: s'.Leaf(Parent, q) == s.Leaf(Parent, q)
    requires forall q | UserPage(q) :: s'.Leaf(Child, q) == s.Leaf(Child, q)
    ensures forall who, q | UserPage(q) :: s'.Leaf(who, q) == s.Leaf(who, q)
  {
  }

  lemma ViewIs(s: Pair)
    ensures View(s) == Eager(Seen(s, Parent), Seen(s, Child))
  {
  }

  /** `add_physical_page_in` on a page of the kernel's half. */
  function KernelDemand(s: Pair, who: Who, q: Path): Pair
    requires q.Step? && 1 + Missing(s.vm.mem, s.Root(who), q) <= |s.vm.free|
  {
    Pair(PageMapped(s.vm, s.Root(who), q, true), s.parent, s.child)
  }

  /** `do_COW` on such a page: the next free frame takes its place and its contents. */
  function KernelCopy(s: Pair, who: Who, q: Path): Pair
    requires q.Step? && 1 + Missing(s.vm.mem, s.Root(who), q) <= |s.vm.free|
  {
    SetPage(KernelDemand(s, who, q), s.vm.free[0], s.vm.mem[s.Leaf(who, q).frame])
  }

  /** Mapping below slot 511 of a root is mapping below the kernel's table. */
  lemma MappedHalf(v: Vm, root: Frame, half: Frame, q: Path, leaf: Word)
    requires KernelPage(q) && LinksTo(v.mem[root][511], half) && q.Step? && q.rest.Step?
    ensures Missing(v.mem, root, q) == Missing(v.mem, half, q.rest)
    ensures Missing(v.mem, root, q) <= |v.free| ==> Mapped(v, root, q, leaf) == Mapped(v, half, q.rest, leaf)
  {
    assert q.idx == 511;
  }

  lemma TakenSound(v: Vm, half: Frame)
    requires Sound(v, half, 3, AllSlots()) && Zeroed(v) && |v.free| > 0
    ensures var v1 := Vm(v.mem, v.free[1..]);
      && Sound(v1, half, 3, AllSlots()) && Zeroed(v1) && Frames(v1.free) <= Frames(v.free)
      && v.free[0] in Frames(v.free) && v.free[0] !in Frames(v1.free) && v.free[0] !in Reach(v.mem, half, 3, AllSlots())
  {
    assert v.free[0] in Frames(v.free);
    forall f | f in Frames(v.free[1..]) ensures f in Frames(v.free) && f != v.free[0] {
      var i :| 0 <= i < |v.free[1..]| && v.free[1..][i] == f;
      assert v.free[i + 1] == f;
    }
  }

  lemma GrownHalf(v: Vm, w: Vm, half: Frame, r: Path, leaf: Word, k: nat)
    requires Grown(v, w, half, r, leaf, 3, AllSlots(), k) && Sound(v, half, 3, AllSlots()) && Zeroed(v)
    ensures Entry(w.mem, half, r) == leaf && Sound(w, half, 3, AllSlots()) && Frames(w.free) <= Frames(v.free) && Zeroed(w)
    ensures Reach(w.mem, half, 3, AllSlots()) <= Reach(v.mem, half, 3, AllSlots()) + Frames(v.free)
    ensures Changed(v.mem, w.mem, Reach(v.mem, half, 3, AllSlots()) + Frames(v.free))
    ensures k <= |v.free| && |w.free| == |v.free| - k
  {
    SplitFrames(v.free, k);
  }

  lemma HalfLeaves(s: Pair, who: Who, q: Path)
    requires SharedHalf(s) && KernelPage(q) && q.Step?
    ensures Sound(s.vm, Half(s), 3, AllSlots()) && Zeroed(s.vm) && LinksTo(s.vm.mem[s.Root(who)][511], Half(s))
    ensures Missing(s.vm.mem, s.Root(who), q) == Missing(s.vm.mem, Half(s), q.rest) && q.rest.Step?
    ensures HalfTables(s) == Reach(s.vm.mem, Half(s), 3, AllSlots())
    ensures forall r :: HalfLeaf(s, r) == Entry(s.vm.mem, Half(s), r)
  {
    SharedParts(s, who);
    HalfWalk(s, who, q);
  }

  /** Demand paging in the kernel's half changes one entry of it. */
  lemma DemandChanges(s: Pair, who: Who, q: Path)
    requires SharedHalf(s) && KernelPage(q) && q.Step? && 1 + Missing(s.vm.mem, s.Root(who), q) <= |s.vm.free|
    ensures HalfChanged(s, KernelDemand(s, who, q), q.rest, UserLeaf(s.vm.free[0]))
    ensures var s', f := KernelDemand(s, who, q), s.vm.free[0];
      && f !in Frames(s'.vm.free) && f !in Reach(s'.vm.mem, Half(s), 3, AllSlots()) && f in Frames(s.vm.free)
      && s'.vm.mem[f] == ZeroPage() && |s'.vm.free| == |s.vm.free| - 1 - Missing(s.vm.mem, s.Root(who), q)
  {
    hide *;
    HalfStep(q);
    HalfLeaves(s, who, q);
    TakenSound(s.vm, Half(s));
    var v, half, f, r := s.vm, Half(s), s.vm.free[0], q.rest;
    var v1, leaf, k := Vm(v.mem, v.free[1..]), UserLeaf(v.free[0]), Missing(v.mem, half, r);
    DemandIs(s, who, q);
    MappedHalf(v1, s.Root(who), half, q, leaf);
    MappedGrows(v1, half, r, leaf, 3, AllSlots());
    var w := Mapped(v1, half, r, leaf);
    GrownHalf(v1, w, half, r, leaf, k);
    FreshIsZero(v);
    PageApart(v, v1, w, half, f);
    forall r' | Under(r', 3, AllSlots()) && r' != r ensures Entry(w.mem, half, r') == HalfLeaf(s, r') {
      MappedOther(v1, half, r, r', leaf, 3, AllSlots());
    }
    MakeChanged(s, KernelDemand(s, who, q), r, leaf);
  }

  lemma DemandIs(s: Pair, who: Who, q: Path)
    requires q.Step? && 1 + Missing(s.vm.mem, s.Root(who), q) <= |s.vm.free|
    ensures KernelDemand(s, who, q).parent == s.parent && KernelDemand(s, who, q).child == s.child
    ensures KernelDemand(s, who, q).vm == Mapped(Vm(s.vm.mem, s.vm.free[1..]), s.Root(who), q, UserLeaf(s.vm.free[0]))
    ensures Missing(Vm(s.vm.mem, s.vm.free[1..]).mem, s.Root(who), q) <= |s.vm.free[1..]|
  {
  }

  /** A frame taken for a page is no table afterwards. */
  lemma PageApart(v: Vm, v1: Vm, w: Vm, half: Frame, f: Frame)
    requires f in Frames(v.free) && f !in Frames(v1.free) && f !in Reach(v.mem, half, 3, AllSlots())
    requires v1.mem == v.mem && Frames(v1.free) <= Frames(v.free) && Frames(w.free) <= Frames(v1.free)
    requires Reach(w.mem, half, 3, AllSlots()) <= Reach(v1.mem, half, 3, AllSlots()) + Frames(v1.free)
    requires Changed(v1.mem, w.mem, Reach(v1.mem, half, 3, AllSlots()) + Frames(v1.free))
    ensures f !in Frames(w.free) && f !in Reach(w.mem, half, 3, AllSlots()) && w.mem[f] == v.mem[f]
    ensures Frames(w.free) <= Frames(v.free)
    ensures Reach(w.mem, half, 3, AllSlots()) <= Reach(v.mem, half, 3, AllSlots()) + Frames(v.free)
    ensures Changed(v.mem, w.mem, Reach(v.mem, half, 3, AllSlots()) + Frames(v.free))
  {
  }

  lemma MakeChanged(s: Pair, s': Pair, r: Path, leaf: Word)
    requires s'.parent == s.parent && s'.child == s.child
    requires Changed(s.vm.mem, s'.vm.mem, HalfTables(s) + Frames(s.vm.free))
    requires Frames(s'.vm.free) <= Frames(s.vm.free) && Zeroed(s'.vm) && Sound(s'.vm, Half(s), 3, AllSlots())
    requires Reach(s'.vm.mem, Half(s), 3, AllSlots()) <= HalfTables(s) + Frames(s.vm.free)
    requires Entry(s'.vm.mem, Half(s), r) == leaf
    requires forall r' | Under(r', 3, AllSlots()) && r' != r :: Entry(s'.vm.mem, Half(s), r') == HalfLeaf(s, r')
    ensures HalfChanged(s, s', r, leaf)
  {
  }

  /** So does the copy. */
  lemma CopyChanges(s: Pair, who: Who, q: Path)
    requires SharedHalf(s) && KernelPage(q) && q.Step? && 1 + Missing(s.vm.mem, s.Root(who), q) <= |s.vm.free|
    ensures HalfChanged(s, KernelCopy(s, who, q), q.rest, UserLeaf(s.vm.free[0]))
  {
    hide *;
    var s1, f, page := KernelDemand(s, who, q), s.vm.free[0], s.vm.mem[s.Leaf(who, q).frame];
    HalfStep(q);
    DemandChanges(s, who, q);
    CopyIs(s, who, q);
    FrameFilled(s, s1, q.rest, UserLeaf(f), f, page);
  }

  lemma CopyIs(s: Pair, who: Who, q: Path)
    requires q.Step? && 1 + Missing(s.vm.mem, s.Root(who), q) <= |s.vm.free|
    ensures KernelCopy(s, who, q) == SetPage(KernelDemand(s, who, q), s.vm.free[0], s.vm.mem[s.Leaf(who, q).frame])
    ensures KernelCopy(s, who, q).vm.free == KernelDemand(s, who, q).vm.free
    ensures KernelCopy(s, who, q).vm.mem[s.vm.free[0]] == s.vm.mem[s.Leaf(who, q).frame]
  {
  }

  lemma FrameFilled(s: Pair, s1: Pair, r: Path, leaf: Word, f: Frame, page: Page)
    requires HalfChanged(s, s1, r, leaf) && Under(r, 3, AllSlots())
    requires f in Frames(s.vm.free) && f !in Frames(s1.vm.free) && f !in Reach(s1.vm.mem, Half(s), 3, AllSlots())
    ensures HalfChanged(s, SetPage(s1, f, page), r, leaf)
  {
    var s2 := SetPage(s1, f, page);
    hide HalfTables, HalfLeaf;
    AgreeReach(s1.vm.mem, s2.vm.mem, Half(s), 3, AllSlots());
    forall r' | Under(r', 3, AllSlots()) ensures Entry(s2.vm.mem, Half(s), r') == Entry(s1.vm.mem, Half(s), r') {
      AgreeEntry(s1.vm.mem, s2.vm.mem, Half(s), r', 3, AllSlots());
    }
  }

  /**
   * A page that is missing in the kernel's half is given to both processes, empty, and to either's
   * user mode.
   */
  lemma KernelDemandSeen(s: Pair, who: Who, q: Path)
    requires SharedHalf(s) && KernelPage(q) && q.Step? && 1 + Missing(s.vm.mem, s.Root(who), q) <= |s.vm.free|
    ensures var s' := KernelDemand(s, who, q);
      && SharedHalf(s') && View(s') == View(s)
      && (forall one, write :: UserWalk(s'.vm.mem, s'.Root(one), q, write) == Granted(s.vm.free[0]))
      && s'.vm.mem[s.vm.free[0]] == ZeroPage()
      && (forall one, q' | KernelPage(q') && q' != q :: s'.Leaf(one, q') == s.Leaf(one, q'))
  {
    hide *;
    DemandChanges(s, who, q);
    UserKind(s.vm.free[0]);
    HalfKept(s, KernelDemand(s, who, q), q.rest, UserLeaf(s.vm.free[0]));
    EntrySeen(s, KernelDemand(s, who, q), q, s.vm.free[0]);
  }

  /**
   * Code 7 on a page of the kernel's, with a partner: for both processes a copy takes its place, with
   * the same contents, which user mode may write to.  The processes' own pages stay as they are.
   */
  lemma KernelCopySeen(s: Pair, who: Who, q: Path)
    requires SharedHalf(s) && KernelPage(q) && q.Step? && 1 + Missing(s.vm.mem, s.Root(who), q) <= |s.vm.free|
    ensures var s' := KernelCopy(s, who, q);
      && SharedHalf(s') && View(s') == View(s)
      && (forall one, write :: UserWalk(s'.vm.mem, s'.Root(one), q, write) == Granted(s.vm.free[0]))
      && s'.vm.mem[s.vm.free[0]] == s.vm.mem[s.Leaf(who, q).frame]
      && (forall one, q' | KernelPage(q') && q' != q :: s'.Leaf(one, q') == s.Leaf(one, q'))
  {
    hide *;
    CopyChanges(s, who, q);
    CopyIs(s, who, q);
    UserKind(s.vm.free[0]);
    HalfKept(s, KernelCopy(s, who, q), q.rest, UserLeaf(s.vm.free[0]));
    EntrySeen(s, KernelCopy(s, who, q), q, s.vm.free[0]);
  }

  lemma UserKind(f: Frame)
    ensures KernelKind(UserLeaf(f)) && UserLeaf(f) != ZERO && UserLeaf(f) != KernelLeaf(f) && UserLeaf(f).frame == f
  {
  }

  lemma EntrySeen(s: Pair, s': Pair, q: Path, f: Frame)
    requires SharedHalf(s) && SharedHalf(s') && Half(s') == Half(s) && KernelPage(q) && q.Step?
    requires HalfChanged(s, s', q.rest, UserLeaf(f))
    ensures forall one, write :: UserWalk(s'.vm.mem, s'.Root(one), q, write) == Granted(f)
    ensures forall one, q' | KernelPage(q') && q' != q :: s'.Leaf(one, q') == s.Leaf(one, q')
  {
    hide *;
    UserKind(f);
    forall one, write ensures UserWalk(s'.vm.mem, s'.Root(one), q, write) == Granted(f) {
      SharedParts(s', one);
      KernelAccess(s', one, q, write);
      HalfWalk(s', one, q);
      ChangedEntry(s, s', q, UserLeaf(f), q);
    }
    forall one, q' | KernelPage(q') && q' != q ensures s'.Leaf(one, q') == s.Leaf(one, q') {
      SharedParts(s, one);
      SharedParts(s', one);
      HalfStep(q');
      HalfWalk(s, one, q');
      HalfWalk(s', one, q');
      ChangedEntry(s, s', q, UserLeaf(f), q');
    }
  }

  lemma ChangedEntry(s: Pair, s': Pair, q: Path, leaf: Word, q': Path)
    requires KernelPage(q) && KernelPage(q') && q.Step? && q'.Step? && Half(s') == Half(s) && HalfChanged(s, s', q.rest, leaf)
    ensures HalfLeaf(s', q'.rest) == if q' == q then leaf else HalfLeaf(s, q'.rest)
  {
    HalfStep(q);
    HalfStep(q');
  }

  /** The kernel's table and what hangs below it, in the tree of a process alone. */
  lemma HalfOfAlone(v: Vm, root: Frame, half: Frame)
    requires Alone(v, root) && v.mem[root][511] != ZERO && half == Sub(v.mem, root, 511)
    ensures LinksTo(v.mem[root][511], half) && Tree(v.mem, half, 3, AllSlots())
    ensures Reach(v.mem, half, 3, AllSlots()) <= Reach(v.mem, root, 4, AllSlots()) && root !in Reach(v.mem, half, 3, AllSlots())
    ensures Reach(v.mem, half, 3, AllSlots()) !! Reach(v.mem, root, 4, UserSlots())
    ensures Reach(v.mem, half, 3, AllSlots()) !! Frames(v.free)
    ensures forall r | Under(r, 3, AllSlots()) :: KernelKind(Entry(v.mem, half, r))
  {
    assert Kid(v.mem, root, 4, 511, AllSlots());
    SubReach(v.mem, root, 4, 511, AllSlots());
    forall f | f in Reach(v.mem, root, 4, UserSlots()) ensures f !in Reach(v.mem, half, 3, AllSlots()) {
      UserTableApart(v, root, half, f);
    }
    forall r | Under(r, 3, AllSlots()) ensures KernelKind(Entry(v.mem, half, r)) {
      assert KernelPage(Step(511, r));
      assert KindOk(v, root, Step(511, r));
    }
  }

  lemma UserTableApart(v: Vm, root: Frame, half: Frame, f: Frame)
    requires Tree(v.mem, root, 4, AllSlots()) && v.mem[root][511] != ZERO && half == Sub(v.mem, root, 511)
    requires f in Reach(v.mem, root, 4, UserSlots())
    ensures f !in Reach(v.mem, half, 3, AllSlots())
  {
    hide *;
    HighBelow(v.mem, root, half);
    if f != root {
      var i := UserSlotOf(v.mem, root, f);
      KidBelow(v.mem, root, i);
      BelowApart(v.mem, root, 4, i, 511, AllSlots());
    }
  }

  lemma HighBelow(m: Memory, root: Frame, half: Frame)
    requires Tree(m, root, 4, AllSlots()) && m[root][511] != ZERO && half == Sub(m, root, 511)
    ensures Below(m, root, 4, 511, AllSlots()) == Reach(m, half, 3, AllSlots()) && root !in Reach(m, half, 3, AllSlots())
  {
    assert Kid(m, root, 4, 511, AllSlots());
  }

  lemma KidBelow(m: Memory, t: Frame, i: Index)
    requires Kid(m, t, 4, i, AllSlots())
    ensures Below(m, t, 4, i, AllSlots()) == Reach(m, Sub(m, t, i), 3, AllSlots())
  {
  }

  /** Fork gives the pair one kernel half: that of the parent. */
  lemma ForkShares(v: Vm, w: Vm, parent: Frame, child: Frame)
    requires Alone(v, parent) && Spare(v, parent, child) && v.mem[child] == v.mem[parent][510 := Link(child)]
    requires v.mem[parent][511] != ZERO && ForkedFrom(v, w, parent, child) && CowInv(Pair(w, parent, child))
    ensures SharedHalf(Pair(w, parent, child))
  {
    hide *;
    var s, half := Pair(w, parent, child), Sub(v.mem, parent, 511);
    HalfOfAlone(v, parent, half);
    SpareParts(v, parent, child);
    HalfUnforked(v, w, parent, child, half);
    CowParts(s);
    Linked2Parts(s, Parent);
    OtherSide();
    RootsAre(s);
    SideParts(s, Parent);
    HalfKinds(v, s, half);
    ForkedApart(v, s, half, Parent);
    ForkedApart(v, s, half, Child);
    SharedParts(s, Parent);
  }

  /** The fork does not touch the kernel's tables. */
  lemma HalfUnforked(v: Vm, w: Vm, parent: Frame, child: Frame, half: Frame)
    requires ForkedFrom(v, w, parent, child) && half == Sub(v.mem, parent, 511)
    requires v.mem[child] == v.mem[parent][510 := Link(child)] && LinksTo(v.mem[parent][511], half)
    requires Tree(v.mem, half, 3, AllSlots()) && Reach(v.mem, half, 3, AllSlots()) !! Reach(v.mem, parent, 4, UserSlots())
    requires child !in Reach(v.mem, half, 3, AllSlots()) && Reach(v.mem, half, 3, AllSlots()) !! Frames(v.free)
    ensures Half(Pair(w, parent, child)) == half && LinksTo(w.mem[parent][511], half) && LinksTo(w.mem[child][511], half)
    ensures Reach(w.mem, half, 3, AllSlots()) == Reach(v.mem, half, 3, AllSlots()) && Tree(w.mem, half, 3, AllSlots())
    ensures forall r | Under(r, 3, AllSlots()) :: Entry(w.mem, half, r) == Entry(v.mem, half, r)
  {
    AgreeReach(v.mem, w.mem, half, 3, AllSlots());
    forall r | Under(r, 3, AllSlots()) ensures Entry(w.mem, half, r) == Entry(v.mem, half, r) {
      AgreeEntry(v.mem, w.mem, half, r, 3, AllSlots());
    }
  }

  lemma HalfKinds(v: Vm, s: Pair, half: Frame)
    requires Half(s) == half && Tree(s.vm.mem, half, 3, AllSlots()) && ForkedFrom(v, s.vm, s.parent, s.child)
    requires Reach(s.vm.mem, half, 3, AllSlots()) == Reach(v.mem, half, 3, AllSlots())
    requires Reach(v.mem, half, 3, AllSlots()) !! Frames(v.free) && Distinct(s.vm.free)
    requires forall r | Under(r, 3, AllSlots()) :: Entry(s.vm.mem, half, r) == Entry(v.mem, half, r)
    requires forall r | Under(r, 3, AllSlots()) :: KernelKind(Entry(v.mem, half, r))
    ensures HalfOk(s)
  {
  }

  lemma ForkedApart(v: Vm, s: Pair, half: Frame, who: Who)
    requires Alone(v, s.parent) && Half(s) == half && ForkedFrom(v, s.vm, s.parent, s.child)
    requires LinksTo(s.vm.mem[s.parent][511], half) && LinksTo(s.vm.mem[s.child][511], half)
    requires Reach(s.vm.mem, half, 3, AllSlots()) == Reach(v.mem, half, 3, AllSlots())
    requires Reach(v.mem, half, 3, AllSlots()) <= Reach(v.mem, s.parent, 4, AllSlots())
    requires Reach(v.mem, half, 3, AllSlots()) !! Reach(v.mem, s.parent, 4, UserSlots())
    requires s.child !in Reach(v.mem, half, 3, AllSlots()) && Reach(v.mem, half, 3, AllSlots()) !! Frames(v.free)
    ensures HalfApart(s, who)
  {
    hide Reach, Running;
    forall q | UserPage(q) && s.Leaf(who, q) != ZERO ensures s.Leaf(who, q).frame !in HalfTables(s) {
      ForkedLeaf(v, s, who, q);
      assert PageOwned(v, s.parent, q);
    }
  }

  lemma ForkedLeaf(v: Vm, s: Pair, who: Who, q: Path)
    requires ForkedFrom(v, s.vm, s.parent, s.child) && UserPage(q) && s.Leaf(who, q) != ZERO
    ensures Entry(v.mem, s.parent, q) != ZERO && s.Leaf(who, q).frame == Entry(v.mem, s.parent, q).frame
  {
  }
}
