/**
 * `get_new_page_table` and the pages behind it: what the kernel does to the tables when it takes a
 * page for itself, and the root it makes for a new process.
 */
module NewTables {
  import opened Words
  import opened PageTables
  import opened Addresses
  import opened Hardware
  import opened Mapping
  import opened Fork
  import opened CopyOnWrite
  import opened Forking
  import opened AddressSpaces

  /** The new root: all entries of the active one, except that slot 510 leads to the new root itself. */
  function RootCopy(m: Memory, root: Frame, page: Frame): Memory { m[page := m[root][510 := Link(page)]] }

  /** What `get_new_page_table` does when the next kernel page is q. */
  function WithNewRoot(v: Vm, root: Frame, q: Path): Vm
    requires q.Step? && 1 + Missing(v.mem, root, q) <= |v.free|
  {
    var w := PageMapped(v, root, q, true);
    Vm(RootCopy(w.mem, root, v.free[0]), w.free)
  }

  lemma KernelTop(available: bv64)
    requires KernelPage(PathOf(available))
    ensures At(available, 4) in AllSlots() && PathOf(available).Step?
  {
  }

  lemma PageFlagsOf(f: Frame, user: bool)
    ensures LeafWord(Base(f), if user then USER_PAGE else KERNEL_PAGE) == PageLeaf(f, user)
  {
    LeafBits(f);
  }

  /** The next free frame, mapped at the next kernel page: what the three allocators have in common. */
  method MapKernelPage(k: Machine, available: bv64, user: bool) returns (page: Frame, next: bv64)
    requires Running(Vm(k.mem, k.free), k.cr3) && Canonical(available) && KernelPage(PathOf(available))
    requires 1 + Missing(k.mem, k.cr3, PathOf(available)) <= |k.free|
    modifies k`mem, k`free
    ensures page == old(k.free)[0] && next == available + 4096
    ensures Vm(k.mem, k.free) == PageMapped(old(Vm(k.mem, k.free)), k.cr3, PathOf(available), user)
  {
    hide *;
    ghost var v, q, root := Vm(k.mem, k.free), PathOf(available), k.cr3;
    ghost var v1 := Vm(v.mem, v.free[1..]);
    KernelTop(available);
    SlotsDiffer();
    FirstTaken(v, root);
    RunningParts(v1, root);
    PageMappedIs(v, root, q, user);
    page := k.GetFreePage();
    PageFlagsOf(page, user);
    StateIs(k);
    KernelStep(q);
    AnyStep(q);
    MapDirect(v1, root, q, PageLeaf(page, user), AllSlots());
    next := MapPage(k, Base(page), available, if user then USER_PAGE else KERNEL_PAGE, AllSlots());
    StateIs(k);
  }

  /** Writing to a frame that is no table does not disturb the walk to it, nor the root. */
  lemma NewRootStays(m: Memory, m': Memory, root: Frame, q: Path, page: Frame)
    requires KernelPage(q) && Tree(m, root, 4, AllSlots()) && page !in Reach(m, root, 4, AllSlots())
    requires forall f | f != page :: m'[f] == m[f]
    ensures KernelWalk(m', root, q) == KernelWalk(m, root, q) && m'[root] == m[root]
  {
    assert root in Reach(m, root, 4, AllSlots());
    AgreeReach(m, m', root, 4, AllSlots());
    AgreeEntry(m, m', root, q, 4, AllSlots());
    KernelWalkEntry(m, root, q, 4, AllSlots());
    KernelWalkEntry(m', root, q, 4, AllSlots());
  }

  /** `copy_kernel_pml4` into a page that has been cleared, seen at the address available. */
  method CopyKernelPml4(k: Machine, available: bv64, ghost m: Memory, ghost page: Frame)
    requires Canonical(available) && KernelPage(PathOf(available)) && SelfMapped(m, k.cr3)
    requires Tree(m, k.cr3, 4, AllSlots()) && page !in Reach(m, k.cr3, 4, AllSlots()) && page != k.cr3
    requires KernelWalk(m, k.cr3, PathOf(available)) == Hit(page) && k.mem == Clear(m, page)
    modifies k`mem
    ensures k.mem == m[page := m[k.cr3]]
  {
    hide *;
    ghost var m0 := Clear(m, page);
    ClearIs(m, page);
    SplicedNone(m0, page, m[k.cr3]);
    RootSlots();
    var i := 0;
    while i < 512
      invariant i <= 512 && k.mem == m0[page := Spliced(m[k.cr3], m0[page], i)]
    {
      NewRootStays(m, k.mem, k.cr3, PathOf(available), page);
      RootWalk(m, k.mem, k.cr3);
      Denotes(k, PML4, k.cr3);
      var entry := k.Read(PML4, i);
      Denotes(k, available, page);
      k.Write(available, i, entry);
      SplicedMore(m0, page, m[k.cr3], i);
      i := i + 1;
    }
    SplicedAll(m0, page, m[k.cr3]);
    Overwritten(m, page, ZeroPage(), m[k.cr3]);
  }

  lemma Overwritten(m: Memory, f: Frame, a: Page, b: Page)
    ensures m[f := a][f := b] == m[f := b]
  {
  }

  lemma StoreIs(m: Memory, page: Frame, i: Index, w: Word)
    ensures Store(m, page, i, w) == m[page := m[page][i := w]]
  {
  }

  lemma RootWalk(m: Memory, m': Memory, root: Frame)
    requires SelfMapped(m, root) && m'[root] == m[root]
    ensures KernelWalk(m', root, Step(510, Step(510, Step(510, Step(510, End))))) == Hit(root)
  {
  }

  lemma AddedTree(v: Vm, v': Vm, root: Frame, q: Path, leaf: Word)
    requires PageAdded(v, v', root, q, leaf)
    ensures Tree(v'.mem, root, 4, AllSlots()) && SelfMapped(v'.mem, root) && leaf.frame != root
    ensures leaf.frame !in Reach(v'.mem, root, 4, AllSlots())
  {
    assert root in Reach(v'.mem, root, 4, AllSlots());
  }

  /** `get_new_page_table` */
  method GetNewPageTable(k: Machine, available: bv64) returns (page: Frame, next: bv64)
    requires Running(Vm(k.mem, k.free), k.cr3) && Canonical(available) && KernelPage(PathOf(available))
    requires 1 + Missing(k.mem, k.cr3, PathOf(available)) <= |k.free|
    modifies k`mem, k`free
    ensures page == old(k.free)[0] && next == available + 4096
    ensures Vm(k.mem, k.free) == WithNewRoot(old(Vm(k.mem, k.free)), k.cr3, PathOf(available))
  {
    hide *;
    ghost var v, q, root := Vm(k.mem, k.free), PathOf(available), k.cr3;
    KernelStep(q);
    PageMappedAdds(v, root, q, true);
    page, next := MapKernelPage(k, available, true);
    ghost var w := Vm(k.mem, k.free);
    UserLeafIs(page);
    AddedTree(v, w, root, q, PageLeaf(page, true));
    AnyStep(q);
    PassedReach(k.mem, root, q, 4, AllSlots());
    DenotesApart(k, available, page);
    k.ZeroOut(available);
    CopyKernelPml4(k, available, w.mem, page);
    NewRootStays(w.mem, k.mem, root, q, page);
    Denotes(k, available, page);
    k.Write(available, 510, Link(page));
    StoreIs(w.mem[page := w.mem[root]], page, 510, Link(page));
    Overwritten(w.mem, page, w.mem[root], w.mem[root][510 := Link(page)]);
    NewRootIs(v, root, q);
  }

  lemma NewRootIs(v: Vm, root: Frame, q: Path)
    requires q.Step? && 1 + Missing(v.mem, root, q) <= |v.free|
    ensures var w := PageMapped(v, root, q, true);
      WithNewRoot(v, root, q) == Vm(w.mem[v.free[0] := w.mem[root][510 := Link(v.free[0])]], w.free)
  {
  }

  /** The copy of the tables that a fork makes needs as many frames as before. */
  ghost predicate SameLinks(v: Vm, v': Vm, root: Frame) {
    Links(v'.mem, root, 4, 509) == Links(v.mem, root, 4, 509)
  }

  /** A page for the kernel does not touch the tables of the process's own half. */
  lemma KernelPageBeyond(v: Vm, root: Frame, q: Path, user: bool)
    requires Running(v, root) && KernelPage(q) && 1 + Missing(v.mem, root, q) <= |v.free|
    ensures BeyondUser(v.mem, PageMapped(v, root, q, user).mem, root) && Tree(v.mem, root, 4, UserSlots())
  {
    hide *;
    KernelStep(q);
    AnyStep(q);
    var v1, leaf := Vm(v.mem, v.free[1..]), PageLeaf(v.free[0], user);
    FirstTaken(v, root);
    RunningParts(v, root);
    RunningParts(v1, root);
    SoundParts(v, root, 4, AllSlots());
    FewerSlots(v.mem, root);
    PageMappedIs(v, root, q, user);
    MapsSlot(v1, root, q, leaf);
    forall f | f in Reach(v.mem, root, 4, UserSlots()) && f != root
      ensures PageMapped(v, root, q, user).mem[f] == v.mem[f]
    {
      MapsElsewhere(v1, root, q, leaf, f);
    }
    MakeBeyond(v.mem, PageMapped(v, root, q, user).mem, root, 511);
  }

  lemma MapsSlot(v: Vm, root: Frame, q: Path, leaf: Word)
    requires KernelPage(q) && Sound(v, root, 4, AllSlots()) && Missing(v.mem, root, q) <= |v.free|
    ensures forall j: Index | j != 511 :: Mapped(v, root, q, leaf).mem[root][j] == v.mem[root][j]
  {
    MappedSlots(v, root, q, leaf, 4, AllSlots());
  }

  lemma MapsElsewhere(v: Vm, root: Frame, q: Path, leaf: Word, f: Frame)
    requires KernelPage(q) && Sound(v, root, 4, AllSlots()) && Missing(v.mem, root, q) <= |v.free|
    requires f in Reach(v.mem, root, 4, UserSlots()) && f != root
    ensures Mapped(v, root, q, leaf).mem[f] == v.mem[f]
  {
    hide *;
    KernelStep(q);
    AnyStep(q);
    var i := UserSlotOf(v.mem, root, f);
    MappedAgree(v, root, q, leaf, 4, AllSlots(), i);
    AgreeAt(v.mem, Mapped(v, root, q, leaf).mem, Reach(v.mem, Sub(v.mem, root, i), 3, AllSlots()), f);
  }

  lemma AgreeAt(m: Memory, m': Memory, s: iset<Frame>, f: Frame)
    requires Agree(m, m', s) && f in s
    ensures m'[f] == m[f]
  {
  }

  lemma MakeBeyond(m: Memory, m': Memory, root: Frame, i: Index)
    requires i >= 509 && forall j: Index | j != i :: m'[root][j] == m[root][j]
    requires forall f | f in Reach(m, root, 4, UserSlots()) && f != root :: m'[f] == m[f]
    ensures BeyondUser(m, m', root)
  {
  }

  /** What taking a page for the kernel keeps of a process alone, and how many frames it takes. */
  ghost predicate Undisturbed(v: Vm, v': Vm, root: Frame) {
    Alone(v', root) && SamePages(v, v', root) && SameLinks(v, v', root)
  }

  lemma KernelPageUndisturbed(v: Vm, root: Frame, q: Path, user: bool)
    requires Alone(v, root) && KernelPage(q) && 1 + Missing(v.mem, root, q) <= |v.free|
    ensures var v' := PageMapped(v, root, q, user);
      && Undisturbed(v, v', root) && Spare(v', root, v.free[0])
      && |v'.free| == |v.free| - 1 - Missing(v.mem, root, q)
  {
    hide *;
    KernelStep(q);
    AloneParts(v, root);
    KernelPageKeeps(v, root, q, user);
    KernelPageBeyond(v, root, q, user);
    BeyondUserLinks(v.mem, PageMapped(v, root, q, user).mem, root, 509);
    MakeUndisturbed(v, PageMapped(v, root, q, user), root);
  }

  lemma MakeUndisturbed(v: Vm, v': Vm, root: Frame)
    requires Alone(v', root) && SamePages(v, v', root) && Links(v'.mem, root, 4, 509) == Links(v.mem, root, 4, 509)
    ensures Undisturbed(v, v', root)
  {
  }

  lemma UndisturbedTwice(v: Vm, v1: Vm, v2: Vm, root: Frame)
    requires Undisturbed(v, v1, root) && Undisturbed(v1, v2, root)
    ensures Undisturbed(v, v2, root)
  {
  }

  lemma SpareUndisturbed(v: Vm, root: Frame, f: Frame, contents: Page)
    requires Alone(v, root) && Spare(v, root, f)
    ensures Undisturbed(v, Vm(v.mem[f := contents], v.free), root) && Spare(Vm(v.mem[f := contents], v.free), root, f)
  {
    var v' := Vm(v.mem[f := contents], v.free);
    SpareKeeps(v, root, f, contents);
    OffTablesKeeps(v, root, f, contents);
    FewerSlots(v.mem, root);
    assert root in Reach(v.mem, root, 4, AllSlots());
    assert BeyondUser(v.mem, v'.mem, root);
    BeyondUserLinks(v.mem, v'.mem, root, 509);
  }

  /** A new root leaves the process as it is. */
  lemma NewRootUndisturbed(v: Vm, root: Frame, q: Path)
    requires Alone(v, root) && KernelPage(q) && 1 + Missing(v.mem, root, q) <= |v.free|
    ensures var v' := WithNewRoot(v, root, q);
      && Undisturbed(v, v', root) && Spare(v', root, v.free[0])
      && v'.mem[v.free[0]] == v'.mem[root][510 := Link(v.free[0])]
      && |v'.free| == |v.free| - 1 - Missing(v.mem, root, q)
  {
    hide *;
    KernelStep(q);
    var w, page := PageMapped(v, root, q, true), v.free[0];
    KernelPageUndisturbed(v, root, q, true);
    UndisturbedParts(v, w, root);
    SpareUndisturbed(w, root, page, w.mem[root][510 := Link(page)]);
    NewRootIs(v, root, q);
    UndisturbedTwice(v, w, WithNewRoot(v, root, q), root);
    SpareRoot(w, root, page);
  }

  lemma UndisturbedParts(v: Vm, v': Vm, root: Frame)
    requires Undisturbed(v, v', root)
    ensures Alone(v', root) && SamePages(v, v', root) && Links(v'.mem, root, 4, 509) == Links(v.mem, root, 4, 509)
  {
  }

  lemma SpareRoot(v: Vm, root: Frame, f: Frame)
    requires Spare(v, root, f)
    ensures f != root
  {
    assert root in Reach(v.mem, root, 4, AllSlots());
  }

  /** The new root is what the copy of fork needs as the child's. */
  lemma NewRootReady(v: Vm, root: Frame, page: Frame)
    requires Alone(v, root) && Spare(v, root, page) && v.mem[page] == v.mem[root][510 := Link(page)]
    requires Links(v.mem, root, 4, 509) <= |v.free|
    ensures Ready(v, root, page, 4) && Owner(v, root, page) && SelfMapped(v.mem, root) && SelfMapped(v.mem, page)
  {
    AloneOwner(v, root);
    FewerSlots(v.mem, root);
    assert root in Reach(v.mem, root, 4, AllSlots());
  }

  /** The tables below a root depend on its live slots only. */
  lemma SameSlots(m: Memory, root: Frame, page: Frame)
    requires Tree(m, root, 4, AllSlots()) && page !in Reach(m, root, 4, AllSlots())
    requires forall i: Index | i in AllSlots() :: m[page][i] == m[root][i]
    ensures Tree(m, page, 4, AllSlots())
    ensures Reach(m, page, 4, AllSlots()) == Reach(m, root, 4, AllSlots()) - iset{root} + iset{page}
    ensures forall q | AnyPage(q) :: Entry(m, page, q) == Entry(m, root, q)
  {
    forall i: Index
      ensures Kid(m, page, 4, i, AllSlots()) <==> Kid(m, root, 4, i, AllSlots())
      ensures Below(m, page, 4, i, AllSlots()) == Below(m, root, 4, i, AllSlots())
      ensures Kid(m, root, 4, i, AllSlots()) ==> Sub(m, page, i) == Sub(m, root, i) && IsLink(m[page][i])
      ensures page !in Below(m, root, 4, i, AllSlots()) && root !in Below(m, root, 4, i, AllSlots())
    {
      if Kid(m, root, 4, i, AllSlots()) { SubReach(m, root, 4, i, AllSlots()); }
    }
    forall f: Frame ensures f in Reach(m, page, 4, AllSlots()) <==> f in Reach(m, root, 4, AllSlots()) - iset{root} + iset{page} {
      ReachBelow(m, root, 4, AllSlots(), f);
      ReachBelow(m, page, 4, AllSlots(), f);
    }
  }

  /**
   * A root copied from the active one is a root of the same address space: a process alone under the
   * one is alone under the other and sees the same pages.
   */
  lemma NewRootAlone(v: Vm, root: Frame, page: Frame)
    requires Alone(v, root) && Spare(v, root, page) && v.mem[page] == v.mem[root][510 := Link(page)]
    ensures Alone(v, page) && SeenAlone(v, page) == SeenAlone(v, root) && root != page
    ensures forall q | AnyPage(q) :: Entry(v.mem, page, q) == Entry(v.mem, root, q)
    ensures forall f | Reserved(v, root, f) :: Reserved(v, page, f)
  {
    hide *;
    AloneParts(v, root);
    CopyRunning(v, root, page);
    SpareRoot(v, root, page);
    CopyPages(v, root, page);
    CopySeen(v, root, page);
    forall f | Reserved(v, root, f) ensures Reserved(v, page, f) { CopyReserved(v, root, page, f); }
  }

  lemma CopyRunning(v: Vm, root: Frame, page: Frame)
    requires Running(v, root) && Spare(v, root, page) && v.mem[page] == v.mem[root][510 := Link(page)]
    ensures Running(v, page)
    ensures Reach(v.mem, page, 4, AllSlots()) == Reach(v.mem, root, 4, AllSlots()) - iset{root} + iset{page}
    ensures forall q | AnyPage(q) :: Entry(v.mem, page, q) == Entry(v.mem, root, q)
    ensures forall q | UserPage(q) :: Entry(v.mem, page, q) == Entry(v.mem, root, q)
  {
    SlotsDiffer();
    SameSlots(v.mem, root, page);
    forall q | UserPage(q) ensures AnyPage(q) { UserIsAny(q); }
  }

  lemma CopyPages(v: Vm, root: Frame, page: Frame)
    requires Alone(v, root) && Running(v, page) && Spare(v, root, page)
    requires Reach(v.mem, page, 4, AllSlots()) == Reach(v.mem, root, 4, AllSlots()) - iset{root} + iset{page}
    requires forall q | AnyPage(q) :: Entry(v.mem, page, q) == Entry(v.mem, root, q)
    ensures Alone(v, page)
  {
    hide *;
    forall q | UserPage(q) ensures Entry(v.mem, page, q) == Entry(v.mem, root, q) {
      UserIsAny(q);
    }
    forall q | KernelPage(q) ensures KindOk(v, page, q) {
      KernelStep(q);
      CopyKind(v, root, page, q);
    }
    forall q | UserPage(q) ensures PageOwned(v, page, q) {
      CopyOwned(v, root, page, q);
    }
    forall q1, q2 | UserPage(q1) && UserPage(q2) ensures PagesDiffer(v, page, q1, q2) {
      CopyDiffer(v, root, page, q1, q2);
    }
    MakeAlone(v, page);
  }

  lemma CopyOwned(v: Vm, root: Frame, page: Frame, q: Path)
    requires Alone(v, root) && Spare(v, root, page) && UserPage(q)
    requires Reach(v.mem, page, 4, AllSlots()) == Reach(v.mem, root, 4, AllSlots()) - iset{root} + iset{page}
    requires Entry(v.mem, page, q) == Entry(v.mem, root, q)
    ensures PageOwned(v, page, q)
  {
    assert PageOwned(v, root, q);
  }

  lemma CopyDiffer(v: Vm, root: Frame, page: Frame, q1: Path, q2: Path)
    requires Alone(v, root) && UserPage(q1) && UserPage(q2)
    requires Entry(v.mem, page, q1) == Entry(v.mem, root, q1) && Entry(v.mem, page, q2) == Entry(v.mem, root, q2)
    ensures PagesDiffer(v, page, q1, q2)
  {
    assert PagesDiffer(v, root, q1, q2);
  }

  lemma CopyKind(v: Vm, root: Frame, page: Frame, q: Path)
    requires Alone(v, root) && KernelPage(q) && Entry(v.mem, page, q) == Entry(v.mem, root, q)
    ensures KindOk(v, page, q)
  {
    assert KindOk(v, root, q);
  }

  lemma MakeAlone(v: Vm, root: Frame)
    requires Running(v, root) && forall q | UserPage(q) :: PageOwned(v, root, q)
    requires forall q1, q2 | UserPage(q1) && UserPage(q2) :: PagesDiffer(v, root, q1, q2)
    requires forall q | KernelPage(q) :: KindOk(v, root, q)
    ensures Alone(v, root)
  {
  }

  lemma CopySeen(v: Vm, root: Frame, page: Frame)
    requires forall q | UserPage(q) :: Entry(v.mem, page, q) == Entry(v.mem, root, q)
    ensures SeenAlone(v, page) == SeenAlone(v, root)
  {
    hide UserPage, Entry;
    var a, b := SeenAlone(v, page), SeenAlone(v, root);
    forall p ensures p in a <==> p in b {}
    forall p | p in a ensures a[p] == b[p] {}
  }

  lemma CopyReserved(v: Vm, root: Frame, page: Frame, f: Frame)
    requires Alone(v, root) && Spare(v, root, page) && Reserved(v, root, f)
    requires Reach(v.mem, page, 4, AllSlots()) == Reach(v.mem, root, 4, AllSlots()) - iset{root} + iset{page}
    requires forall q | UserPage(q) :: Entry(v.mem, page, q) == Entry(v.mem, root, q)
    ensures Reserved(v, page, f)
  {
    assert root in Reach(v.mem, root, 4, AllSlots());
    forall q | UserPage(q) && Entry(v.mem, root, q) != ZERO ensures Entry(v.mem, root, q).frame != root {
      assert PageOwned(v, root, q);
    }
  }

  lemma SamePagesSeen(v: Vm, v': Vm, root: Frame)
    requires SamePages(v, v', root)
    ensures SeenAlone(v', root) == SeenAlone(v, root)
  {
    SeenAloneSame(v, v', root);
  }
}
