/**
 * The address space of a process that runs alone: its own pages and the kernel's half, and how
 * both grow by pages taken from the free frames.
 */
module AddressSpaces {
  import opened Sequences
  import opened Words
  import opened PageTables
  import opened Addresses
  import opened Hardware
  import opened Mapping
  import opened Fork
  import opened CopyOnWrite
  import opened Forking

  /** The slots of a process together with the kernel's. */
  function AllSlots(): set<Index> { UserSlots() + {511} }

  /** A page of either half. */
  predicate AnyPage(q: Path) { Under(q, 4, AllSlots()) }

  /** A page of the kernel's half. */
  predicate KernelPage(q: Path) { AnyPage(q) && q.idx == 511 }

  /** One tree of tables, linked to itself, and free frames that read as zero. */
  ghost predicate Running(v: Vm, root: Frame) {
    SelfMapped(v.mem, root) && Sound(v, root, 4, AllSlots()) && Zeroed(v)
  }

  /** The frame of a page of the process is neither free nor a table of either half. */
  ghost predicate PageOwned(v: Vm, root: Frame, q: Path) {
    var e := Entry(v.mem, root, q);
    e != ZERO ==> e.present && e.user && e.frame !in Reach(v.mem, root, 4, AllSlots()) && e.frame !in Frames(v.free)
  }

  ghost predicate PagesDiffer(v: Vm, root: Frame, q: Path, q': Path) {
    q != q' && Entry(v.mem, root, q) != ZERO && Entry(v.mem, root, q') != ZERO ==>
      Entry(v.mem, root, q).frame != Entry(v.mem, root, q').frame
  }

  /** The entries that the kernel makes in its half. */
  predicate KernelKind(e: Word) { e == ZERO || e == KernelLeaf(e.frame) || e == UserLeaf(e.frame) }

  predicate KindOk(v: Vm, root: Frame, q: Path) { KernelKind(Entry(v.mem, root, q)) }

  /** A process that shares no page: each has a frame of its own. */
  ghost predicate Alone(v: Vm, root: Frame) {
    && Running(v, root)
    && (forall q | UserPage(q) :: PageOwned(v, root, q))
    && (forall q, q' | UserPage(q) && UserPage(q') :: PagesDiffer(v, root, q, q'))
    && (forall q | KernelPage(q) :: KindOk(v, root, q))
  }

  lemma RunningParts(v: Vm, root: Frame)
    ensures Running(v, root) <==> SelfMapped(v.mem, root) && Sound(v, root, 4, AllSlots()) && Zeroed(v)
  {
  }

  lemma SlotsDiffer()
    ensures 510 !in AllSlots() && forall i: Index :: i in AllSlots() <==> i < 509 || i == 511
  {
  }

  lemma UserIsAny(q: Path)
    requires UserPage(q)
    ensures AnyPage(q) && q.Step? && q.idx < 509
  {
    MoreSlots(q, 4);
  }

  lemma {:induction false} MoreSlots(q: Path, n: Level)
    requires Under(q, n, UserSlots())
    ensures Under(q, n, AllSlots())
    decreases n
  {
    if n > 1 { MoreSlots(q.rest, n - 1); }
  }

  lemma KernelStep(q: Path)
    requires KernelPage(q)
    ensures q.Step? && q.idx == 511 && AnyPage(q) && !UserPage(q)
  {
    SlotsDiffer();
  }

  lemma AnyStep(q: Path)
    requires AnyPage(q)
    ensures q.Step? && q.rest.Step? && q.idx != 510 && Under(q, 4, AllSlots())
  {
    SlotsDiffer();
  }

  lemma KernelNotNull(v: bv64)
    requires KernelPage(PathOf(v))
    ensures v != 0
  {
    assert At(0, 4) == 0;
  }

  /** Fewer live slots: still a tree. */
  lemma FewerSlots(m: Memory, t: Frame)
    requires Tree(m, t, 4, AllSlots())
    ensures Tree(m, t, 4, UserSlots()) && Reach(m, t, 4, UserSlots()) <= Reach(m, t, 4, AllSlots())
  {
    forall i: Index | Kid(m, t, 4, i, UserSlots())
      ensures Kid(m, t, 4, i, AllSlots())
      ensures Reach(m, Sub(m, t, i), 3, UserSlots()) == Reach(m, Sub(m, t, i), 3, AllSlots())
      ensures Tree(m, Sub(m, t, i), 3, UserSlots()) == Tree(m, Sub(m, t, i), 3, AllSlots())
    {
      TopIrrelevant(m, Sub(m, t, i), 3, UserSlots(), AllSlots());
    }
    forall f | f in Reach(m, t, 4, UserSlots()) ensures f in Reach(m, t, 4, AllSlots()) {
      ReachBelow(m, t, 4, UserSlots(), f);
      ReachBelow(m, t, 4, AllSlots(), f);
    }
  }

  /** The slot of the root below which a table of the process hangs. */
  lemma UserSlotOf(m: Memory, root: Frame, f: Frame) returns (i: Index)
    requires f in Reach(m, root, 4, UserSlots()) && f != root
    ensures i != 511 && Kid(m, root, 4, i, AllSlots()) && f in Reach(m, Sub(m, root, i), 3, AllSlots())
  {
    ReachBelow(m, root, 4, UserSlots(), f);
    i :| f in Below(m, root, 4, i, UserSlots());
    TopIrrelevant(m, Sub(m, root, i), 3, UserSlots(), AllSlots());
  }

  /** A process alone owns its pages in the sense that fork needs. */
  lemma AloneOwner(v: Vm, root: Frame)
    requires Alone(v, root)
    ensures Owner(v, root, root) && Sound(v, root, 4, UserSlots())
  {
    FewerSlots(v.mem, root);
    assert root in Reach(v.mem, root, 4, AllSlots());
    forall q | UserPage(q) && Entry(v.mem, root, q) != ZERO
      ensures var e := Entry(v.mem, root, q);
        e.present && e.user && e.frame !in Reach(v.mem, root, 4, UserSlots()) && e.frame != root && e.frame !in Frames(v.free)
    {
      assert PageOwned(v, root, q);
    }
    forall q, q' | UserPage(q) && UserPage(q') && q != q' && Entry(v.mem, root, q) != ZERO && Entry(v.mem, root, q') != ZERO
      ensures Entry(v.mem, root, q).frame != Entry(v.mem, root, q').frame
    {
      assert PagesDiffer(v, root, q, q');
    }
  }

  /** The leaf for a page of the user or of the kernel alone. */
  function PageLeaf(f: Frame, user: bool): Word { if user then UserLeaf(f) else KernelLeaf(f) }

  /** Taking the next free frame and mapping it at q. */
  function PageMapped(v: Vm, root: Frame, q: Path, user: bool): Vm
    requires q.Step? && 1 + Missing(v.mem, root, q) <= |v.free|
  {
    Mapped(Vm(v.mem, v.free[1..]), root, q, PageLeaf(v.free[0], user))
  }

  lemma PageMappedIs(v: Vm, root: Frame, q: Path, user: bool)
    requires q.Step? && 1 + Missing(v.mem, root, q) <= |v.free|
    ensures PageMapped(v, root, q, user) == Mapped(Vm(v.mem, v.free[1..]), root, q, PageLeaf(v.free[0], user))
    ensures Missing(Vm(v.mem, v.free[1..]).mem, root, q) <= |Vm(v.mem, v.free[1..]).free|
    ensures PageLeaf(v.free[0], user).present && PageLeaf(v.free[0], user).frame == v.free[0]
  {
  }

  lemma FirstTaken(v: Vm, root: Frame)
    requires Running(v, root) && |v.free| > 0
    ensures Running(Vm(v.mem, v.free[1..]), root) && v.free[0] !in Reach(v.mem, root, 4, AllSlots())
    ensures v.free[0] in Frames(v.free) && v.free[0] !in Frames(v.free[1..]) && Frames(v.free[1..]) <= Frames(v.free)
  {
    assert v.free[0] in Frames(v.free);
    forall f | f in Frames(v.free[1..]) ensures f in Frames(v.free) && f != v.free[0] {
      var i :| 0 <= i < |v.free[1..]| && v.free[1..][i] == f;
      assert v.free[i + 1] == f;
    }
  }

  lemma GrownAll(v: Vm, w: Vm, root: Frame, q: Path, leaf: Word, k: nat)
    requires Grown(v, w, root, q, leaf, 4, AllSlots(), k) && Sound(v, root, 4, AllSlots())
    ensures k <= |v.free| && w.free == v.free[k..] && Frames(w.free) <= Frames(v.free)
    ensures Entry(w.mem, root, q) == leaf && Sound(w, root, 4, AllSlots())
    ensures Reach(w.mem, root, 4, AllSlots()) <= Reach(v.mem, root, 4, AllSlots()) + Frames(v.free)
    ensures Changed(v.mem, w.mem, Reach(v.mem, root, 4, AllSlots()) + Frames(v.free[..k]))
    ensures Frames(v.free[..k]) <= Frames(v.free) && Frames(v.free[..k]) !! Frames(w.free)
  {
    SplitFrames(v.free, k);
  }

  lemma StillZeroed(v: Vm, w: Vm, reach: iset<Frame>, taken: iset<Frame>)
    requires Zeroed(v) && Frames(w.free) <= Frames(v.free) && Changed(v.mem, w.mem, reach + taken)
    requires reach !! Frames(v.free) && taken !! Frames(w.free)
    ensures Zeroed(w)
  {
  }

  /** With free frames that read as zero, `map_page` does what the direct walk does. */
  lemma MapDirect(v: Vm, root: Frame, q: Path, leaf: Word, top: set<Index>)
    requires Under(q, 4, top) && Sound(v, root, 4, top) && Zeroed(v) && Missing(v.mem, root, q) <= |v.free|
    ensures LateCleared(v, root, q, leaf, false) == Mapped(v, root, q, leaf)
  {
    SoundOffFree(v, root, q, 4, top);
    var k := Missing(v.mem, root, q);
    if k > 0 { assert v.free[k - 1] in Frames(v.free); }
    LateClearedIff(v, root, q, leaf);
  }

  /** What taking and mapping a page does to the address space. */
  ghost predicate PageAdded(v: Vm, v': Vm, root: Frame, q: Path, leaf: Word) {
    && Running(v', root) && Frames(v'.free) <= Frames(v.free) && leaf.frame in Frames(v.free) && leaf.frame !in Frames(v'.free)
    && leaf.frame !in Reach(v'.mem, root, 4, AllSlots())
    && Reach(v'.mem, root, 4, AllSlots()) <= Reach(v.mem, root, 4, AllSlots()) + Frames(v.free)
    && Changed(v.mem, v'.mem, Reach(v.mem, root, 4, AllSlots()) + Frames(v.free))
    && Entry(v'.mem, root, q) == leaf
    && forall q' | AnyPage(q') && q' != q :: Entry(v'.mem, root, q') == Entry(v.mem, root, q')
  }

  lemma PageMappedAdds(v: Vm, root: Frame, q: Path, user: bool)
    requires Running(v, root) && AnyPage(q) && 1 + Missing(v.mem, root, q) <= |v.free|
    ensures var v' := PageMapped(v, root, q, user);
      && PageAdded(v, v', root, q, PageLeaf(v.free[0], user))
      && v'.free == v.free[1 + Missing(v.mem, root, q)..]
      && v'.mem[v.free[0]] == ZeroPage()
      && KernelWalk(v'.mem, root, q) == Hit(v.free[0])
  {
    hide *;
    AnyStep(q);
    var v1, page, k := Vm(v.mem, v.free[1..]), v.free[0], Missing(v.mem, root, q);
    var v', leaf := PageMapped(v, root, q, user), PageLeaf(page, user);
    FirstTaken(v, root);
    PageMappedIs(v, root, q, user);
    RunningParts(v1, root);
    SoundParts(v1, root, 4, AllSlots());
    MappedGrows(v1, root, q, leaf, 4, AllSlots());
    GrownAll(v1, v', root, q, leaf, k);
    SoundParts(v', root, 4, AllSlots());
    StillZeroed(v1, v', Reach(v.mem, root, 4, AllSlots()), Frames(v1.free[..k]));
    MappedSlots(v1, root, q, leaf, 4, AllSlots());
    KeepsSelf(v.mem, v'.mem, root, q.idx, v'.mem[root][q.idx]);
    RunningParts(v', root);
    RunningParts(v, root);
    FreshIsZero(v);
    ChangedAt(v1.mem, v'.mem, Reach(v.mem, root, 4, AllSlots()) + Frames(v1.free[..k]), page);
    MappedTranslates(v1, root, q, leaf, AllSlots(), q, true);
    forall q' | AnyPage(q') && q' != q ensures Entry(v'.mem, root, q') == Entry(v.mem, root, q') {
      AnyStep(q');
      MappedOther(v1, root, q, q', leaf, 4, AllSlots());
    }
    MakeAdded(v, v1, v', root, q, leaf, k);
    assert v1.free[k..] == v.free[1 + k..];
  }

  lemma KeepsSelf(m: Memory, m': Memory, root: Frame, i: Index, w: Word)
    requires SelfMapped(m, root) && i != 510 && m'[root] == m[root][i := w]
    ensures SelfMapped(m', root)
  {
  }

  lemma FreshIsZero(v: Vm)
    requires Zeroed(v) && |v.free| > 0
    ensures v.mem[v.free[0]] == ZeroPage()
  {
    assert v.free[0] in Frames(v.free);
  }

  lemma MakeAdded(v: Vm, v1: Vm, v': Vm, root: Frame, q: Path, leaf: Word, k: nat)
    requires |v.free| > 0 && v1 == Vm(v.mem, v.free[1..]) && k <= |v1.free| && leaf.frame == v.free[0]
    requires Running(v', root) && Frames(v'.free) <= Frames(v1.free) <= Frames(v.free)
    requires Frames(v1.free[..k]) <= Frames(v1.free)
    requires v.free[0] in Frames(v.free) && v.free[0] !in Frames(v1.free) && v.free[0] !in Reach(v.mem, root, 4, AllSlots())
    requires Reach(v'.mem, root, 4, AllSlots()) <= Reach(v.mem, root, 4, AllSlots()) + Frames(v1.free)
    requires Changed(v.mem, v'.mem, Reach(v.mem, root, 4, AllSlots()) + Frames(v1.free[..k]))
    requires Entry(v'.mem, root, q) == leaf
    requires forall q' | AnyPage(q') && q' != q :: Entry(v'.mem, root, q') == Entry(v.mem, root, q')
    ensures PageAdded(v, v', root, q, leaf)
  {
  }

  /** The leaves and the contents of the process's pages are the same. */
  ghost predicate SamePages(v: Vm, v': Vm, root: Frame) {
    && (forall q | UserPage(q) :: Entry(v'.mem, root, q) == Entry(v.mem, root, q))
    && (forall q | UserPage(q) && Entry(v.mem, root, q) != ZERO ::
          v'.mem[Entry(v.mem, root, q).frame] == v.mem[Entry(v.mem, root, q).frame])
  }

  /** A page for the kernel leaves the process alone with its pages. */
  lemma KernelPageKeeps(v: Vm, root: Frame, q: Path, user: bool)
    requires Alone(v, root) && KernelPage(q) && 1 + Missing(v.mem, root, q) <= |v.free|
    ensures var v' := PageMapped(v, root, q, user);
      && Alone(v', root) && SamePages(v, v', root) && Spare(v', root, v.free[0])
      && |v'.free| == |v.free| - 1 - Missing(v.mem, root, q)
  {
    hide *;
    KernelStep(q);
    var v', leaf := PageMapped(v, root, q, user), PageLeaf(v.free[0], user);
    AloneParts(v, root);
    PageMappedAdds(v, root, q, user);
    PageMappedIs(v, root, q, user);
    forall q' | UserPage(q') ensures Entry(v'.mem, root, q') == Entry(v.mem, root, q') {
      UserIsAny(q');
      AddedOther(v, v', root, q, leaf, q');
    }
    LeafKinds(v.free[0]);
    AddedKeeps(v, v', root, q, leaf);
  }

  lemma AloneParts(v: Vm, root: Frame)
    requires Alone(v, root)
    ensures Running(v, root)
  {
  }

  lemma AddedOther(v: Vm, v': Vm, root: Frame, q: Path, leaf: Word, q': Path)
    requires PageAdded(v, v', root, q, leaf) && AnyPage(q') && q' != q
    ensures Entry(v'.mem, root, q') == Entry(v.mem, root, q')
  {
  }

  /** A frame that is neither free, nor a table, nor under a page of the process. */
  ghost predicate Spare(v: Vm, root: Frame, f: Frame) {
    && f !in Frames(v.free) && f !in Reach(v.mem, root, 4, AllSlots())
    && forall q | UserPage(q) && Entry(v.mem, root, q) != ZERO :: Entry(v.mem, root, q).frame != f
  }

  lemma SpareParts(v: Vm, root: Frame, f: Frame)
    requires Spare(v, root, f)
    ensures f !in Frames(v.free) && f !in Reach(v.mem, root, 4, AllSlots())
  {
  }

  /** Spare, or the root that the process runs under, which has a page of the kernel's too. */
  ghost predicate Reserved(v: Vm, root: Frame, f: Frame) { f == root || Spare(v, root, f) }

  lemma AddedKeeps(v: Vm, v': Vm, root: Frame, q: Path, leaf: Word)
    requires Alone(v, root) && PageAdded(v, v', root, q, leaf)
    requires forall q' | UserPage(q') :: Entry(v'.mem, root, q') == Entry(v.mem, root, q')
    requires KernelKind(leaf)
    ensures Alone(v', root) && SamePages(v, v', root) && Spare(v', root, leaf.frame)
  {
    forall q' | KernelPage(q') ensures KindOk(v', root, q') {
      assert KindOk(v, root, q');
    }
    GrownKeeps(v, v', root);
    forall q' | UserPage(q') && Entry(v.mem, root, q') != ZERO ensures Entry(v.mem, root, q').frame != leaf.frame {
      assert PageOwned(v, root, q');
    }
  }

  /** More tables elsewhere, made of free frames, leave a process alone with its pages. */
  lemma GrownKeeps(v: Vm, v': Vm, root: Frame)
    requires Alone(v, root) && Running(v', root) && Frames(v'.free) <= Frames(v.free)
    requires Reach(v'.mem, root, 4, AllSlots()) <= Reach(v.mem, root, 4, AllSlots()) + Frames(v.free)
    requires Changed(v.mem, v'.mem, Reach(v.mem, root, 4, AllSlots()) + Frames(v.free))
    requires forall q | UserPage(q) :: Entry(v'.mem, root, q) == Entry(v.mem, root, q)
    requires forall q | KernelPage(q) :: KindOk(v', root, q)
    ensures Alone(v', root) && SamePages(v, v', root)
  {
    hide Running, Entry, Reach, UserPage;
    forall q | UserPage(q)
      ensures PageOwned(v', root, q)
      ensures Entry(v.mem, root, q) != ZERO ==> v'.mem[Entry(v.mem, root, q).frame] == v.mem[Entry(v.mem, root, q).frame]
    {
      assert PageOwned(v, root, q);
    }
    forall q1, q2 | UserPage(q1) && UserPage(q2) ensures PagesDiffer(v', root, q1, q2) {
      assert PagesDiffer(v, root, q1, q2);
    }
  }

  lemma LeafKinds(f: Frame)
    ensures KernelKind(KernelLeaf(f)) && KernelKind(UserLeaf(f)) && KernelKind(PageLeaf(f, true))
    ensures KernelKind(PageLeaf(f, false))
  {
  }

  /** A mapping in the kernel's half, of whatever frame, leaves a process alone with its pages. */
  lemma KernelMapKeeps(v: Vm, root: Frame, q: Path, leaf: Word)
    requires Alone(v, root) && KernelPage(q) && Missing(v.mem, root, q) <= |v.free| && KernelKind(leaf)
    ensures Alone(Mapped(v, root, q, leaf), root) && SamePages(v, Mapped(v, root, q, leaf), root)
  {
    hide *;
    KernelStep(q);
    AnyStep(q);
    var v', k := Mapped(v, root, q, leaf), Missing(v.mem, root, q);
    AloneParts(v, root);
    RunningParts(v, root);
    SoundParts(v, root, 4, AllSlots());
    MappedGrows(v, root, q, leaf, 4, AllSlots());
    GrownAll(v, v', root, q, leaf, k);
    StillZeroed(v, v', Reach(v.mem, root, 4, AllSlots()), Frames(v.free[..k]));
    MappedSlots(v, root, q, leaf, 4, AllSlots());
    KeepsSelf(v.mem, v'.mem, root, q.idx, v'.mem[root][q.idx]);
    RunningParts(v', root);
    forall q' | UserPage(q') ensures Entry(v'.mem, root, q') == Entry(v.mem, root, q') {
      UserIsAny(q');
      AnyStep(q');
      MappedOther(v, root, q, q', leaf, 4, AllSlots());
    }
    forall q' | KernelPage(q') ensures KindOk(v', root, q') {
      if q' != q {
        KernelStep(q');
        AnyStep(q');
        MappedOther(v, root, q, q', leaf, 4, AllSlots());
      }
      KindIs(v, v', root, q');
    }
    ChangedMore(v.mem, v'.mem, Reach(v.mem, root, 4, AllSlots()), Frames(v.free[..k]), Frames(v.free));
    GrownKeeps(v, v', root);
  }

  lemma KindIs(v: Vm, v': Vm, root: Frame, q: Path)
    requires Alone(v, root) && KernelPage(q)
    ensures Entry(v'.mem, root, q) == Entry(v.mem, root, q) ==> KindOk(v', root, q)
    ensures KindOk(v', root, q) <==> KernelKind(Entry(v'.mem, root, q))
  {
    assert KindOk(v, root, q);
  }

  lemma ChangedMore(m: Memory, m': Memory, reach: iset<Frame>, taken: iset<Frame>, free: iset<Frame>)
    requires Changed(m, m', reach + taken) && taken <= free
    ensures Changed(m, m', reach + free)
  {
  }

  /** Writing to a spare frame changes nothing for the process. */
  lemma SpareKeeps(v: Vm, root: Frame, f: Frame, contents: Page)
    requires Alone(v, root) && Spare(v, root, f)
    ensures Alone(Vm(v.mem[f := contents], v.free), root) && SamePages(v, Vm(v.mem[f := contents], v.free), root)
  {
    OffTablesKeeps(v, root, f, contents);
  }

  /** Demand paging: the process stays alone, and sees one more page, of zeros. */
  lemma DemandKeeps(v: Vm, root: Frame, q: Path)
    requires Alone(v, root) && UserPage(q) && Entry(v.mem, root, q) == ZERO && 1 + Missing(v.mem, root, q) <= |v.free|
    ensures var v' := PageMapped(v, root, q, true);
      && Alone(v', root) && SeenAlone(v', root) == SeenAlone(v, root)[q := ZeroPage()]
      && |v'.free| == |v.free| - 1 - Missing(v.mem, root, q)
  {
    hide *;
    UserIsAny(q);
    var v' := PageMapped(v, root, q, true);
    AloneParts(v, root);
    PageMappedAdds(v, root, q, true);
    PageMappedIs(v, root, q, true);
    UserLeafIs(v.free[0]);
    forall q' | UserPage(q') && q' != q ensures Entry(v'.mem, root, q') == Entry(v.mem, root, q') {
      UserIsAny(q');
      AddedOther(v, v', root, q, UserLeaf(v.free[0]), q');
    }
    AddedGrows(v, v', root, q, v.free[0]);
    AddedSeen(v, v', root, q, v.free[0]);
  }

  lemma UserLeafIs(f: Frame)
    ensures PageLeaf(f, true) == UserLeaf(f) && UserLeaf(f) != ZERO && UserLeaf(f).frame == f
    ensures UserLeaf(f).present && UserLeaf(f).user
  {
  }

  lemma AddedGrows(v: Vm, v': Vm, root: Frame, q: Path, f: Frame)
    requires Alone(v, root) && UserPage(q) && PageAdded(v, v', root, q, UserLeaf(f)) && UserLeaf(f).frame == f
    requires forall q' | UserPage(q') && q' != q :: Entry(v'.mem, root, q') == Entry(v.mem, root, q')
    ensures Alone(v', root)
  {
    forall q' | UserPage(q') ensures PageOwned(v', root, q') {
      assert PageOwned(v, root, q');
    }
    forall q1, q2 | UserPage(q1) && UserPage(q2) ensures PagesDiffer(v', root, q1, q2) {
      assert PagesDiffer(v, root, q1, q2) && PageOwned(v, root, q1) && PageOwned(v, root, q2);
    }
    forall q' | KernelPage(q') ensures KindOk(v', root, q') {
      KernelStep(q');
      assert KindOk(v, root, q');
    }
  }

  lemma AddedSeen(v: Vm, v': Vm, root: Frame, q: Path, f: Frame)
    requires Alone(v, root) && UserPage(q) && PageAdded(v, v', root, q, UserLeaf(f)) && UserLeaf(f).frame == f
    requires UserLeaf(f) != ZERO && v'.mem[f] == ZeroPage()
    requires forall q' | UserPage(q') && q' != q :: Entry(v'.mem, root, q') == Entry(v.mem, root, q')
    ensures SeenAlone(v', root) == SeenAlone(v, root)[q := ZeroPage()]
  {
    forall q' | UserPage(q') && Entry(v.mem, root, q') != ZERO
      ensures v'.mem[Entry(v.mem, root, q').frame] == v.mem[Entry(v.mem, root, q').frame]
    {
      assert PageOwned(v, root, q');
    }
    assert Entry(v'.mem, root, q) == UserLeaf(f);
    hide *;
    SeenWith(v, v', root, q, ZeroPage());
  }

  lemma SeenWith(v: Vm, v': Vm, root: Frame, q: Path, contents: Page)
    requires UserPage(q) && Entry(v'.mem, root, q) != ZERO && v'.mem[Entry(v'.mem, root, q).frame] == contents
    requires forall q' | UserPage(q') && q' != q :: Entry(v'.mem, root, q') == Entry(v.mem, root, q')
    requires forall q' | UserPage(q') && q' != q && Entry(v.mem, root, q') != ZERO ::
      v'.mem[Entry(v.mem, root, q').frame] == v.mem[Entry(v.mem, root, q').frame]
    ensures SeenAlone(v', root) == SeenAlone(v, root)[q := contents]
  {
    hide UserPage, Entry;
    var a, b := SeenAlone(v', root), SeenAlone(v, root)[q := contents];
    forall p ensures p in a <==> p in b {}
    forall p | p in a ensures a[p] == b[p] {}
  }

  /** A write to one of its pages: the process stays alone and sees what it wrote. */
  lemma StoreKeeps(v: Vm, root: Frame, q: Path, contents: Page)
    requires Alone(v, root) && UserPage(q) && Entry(v.mem, root, q) != ZERO
    ensures var v' := Vm(v.mem[Entry(v.mem, root, q).frame := contents], v.free);
      && Alone(v', root) && SeenAlone(v', root) == SeenAlone(v, root)[q := contents]
  {
    var f := Entry(v.mem, root, q).frame;
    var v' := Vm(v.mem[f := contents], v.free);
    assert PageOwned(v, root, q);
    forall q' | UserPage(q') && q' != q && Entry(v.mem, root, q') != ZERO ensures Entry(v.mem, root, q').frame != f {
      assert PagesDiffer(v, root, q, q');
    }
    hide *;
    OffTablesKeeps(v, root, f, contents);
    SeenWith(v, v', root, q, contents);
  }

  /** Writing to a frame that is neither free nor a table leaves the process alone. */
  lemma OffTablesKeeps(v: Vm, root: Frame, f: Frame, contents: Page)
    requires Alone(v, root) && f !in Frames(v.free) && f !in Reach(v.mem, root, 4, AllSlots())
    ensures var v' := Vm(v.mem[f := contents], v.free);
      && Alone(v', root)
      && Reach(v'.mem, root, 4, AllSlots()) == Reach(v.mem, root, 4, AllSlots())
      && (forall q | UserPage(q) :: Entry(v'.mem, root, q) == Entry(v.mem, root, q))
      && (forall q | AnyPage(q) :: Entry(v'.mem, root, q) == Entry(v.mem, root, q))
  {
    var v' := Vm(v.mem[f := contents], v.free);
    assert root in Reach(v.mem, root, 4, AllSlots());
    AgreeReach(v.mem, v'.mem, root, 4, AllSlots());
    forall q | AnyPage(q) ensures Entry(v'.mem, root, q) == Entry(v.mem, root, q) {
      AgreeEntry(v.mem, v'.mem, root, q, 4, AllSlots());
    }
    forall q | UserPage(q)
      ensures PageOwned(v', root, q) && Entry(v'.mem, root, q) == Entry(v.mem, root, q)
    {
      UserIsAny(q);
      assert PageOwned(v, root, q);
    }
    forall q1, q2 | UserPage(q1) && UserPage(q2) ensures PagesDiffer(v', root, q1, q2) {
      assert PagesDiffer(v, root, q1, q2);
    }
    forall q | KernelPage(q) ensures KindOk(v', root, q) {
      assert KindOk(v, root, q);
    }
  }

  datatype Fill = Fill(page: Path, contents: Page)

  /** A process alone fills a page, which is mapped on demand. */
  ghost function Filled(v: Vm, root: Frame, op: Fill): Vm
    requires UserPage(op.page) && |v.free| >= 4
  {
    FourFrames(v, root, op.page);
    var v1 := if Entry(v.mem, root, op.page) == ZERO then PageMapped(v, root, op.page, true) else v;
    Vm(v1.mem[Entry(v1.mem, root, op.page).frame := op.contents], v1.free)
  }

  lemma FilledIs(v: Vm, root: Frame, op: Fill)
    requires UserPage(op.page) && |v.free| >= 4
    requires op.page.Step? && 1 + Missing(v.mem, root, op.page) <= |v.free|
    ensures var v1 := if Entry(v.mem, root, op.page) == ZERO then PageMapped(v, root, op.page, true) else v;
      Filled(v, root, op) == Vm(v1.mem[Entry(v1.mem, root, op.page).frame := op.contents], v1.free)
  {
  }

  lemma FourFrames(v: Vm, root: Frame, q: Path)
    requires UserPage(q) && |v.free| >= 4
    ensures q.Step? && 1 + Missing(v.mem, root, q) <= |v.free| && Missing(v.mem, root, q) <= 3
  {
    UnderLength(q, 4, UserSlots());
  }

  lemma FilledKeeps(v: Vm, root: Frame, op: Fill)
    requires Alone(v, root) && UserPage(op.page) && |v.free| >= 4
    ensures var v' := Filled(v, root, op);
      && Alone(v', root) && SeenAlone(v', root) == SeenAlone(v, root)[op.page := op.contents]
      && |v'.free| + 4 >= |v.free|
  {
    FourFrames(v, root, op.page);
    hide Alone, SeenAlone, UserPage, PageMapped, Missing;
    if Entry(v.mem, root, op.page) == ZERO {
      var v1 := PageMapped(v, root, op.page, true);
      DemandKeeps(v, root, op.page);
      DemandUsed(v, root, op.page);
      StoreKeeps(v1, root, op.page, op.contents);
      Repaint(SeenAlone(v, root), op.page, ZeroPage(), op.contents);
    } else {
      StoreKeeps(v, root, op.page, op.contents);
    }
  }

  lemma DemandUsed(v: Vm, root: Frame, q: Path)
    requires Alone(v, root) && UserPage(q) && 1 + Missing(v.mem, root, q) <= |v.free|
    ensures Entry(PageMapped(v, root, q, true).mem, root, q) != ZERO
  {
    UserIsAny(q);
    PageMappedAdds(v, root, q, true);
  }

  lemma Repaint(s: Space, q: Path, a: Page, b: Page)
    ensures s[q := a][q := b] == s[q := b]
  {
  }

  /** The pages that a run of such steps leaves. */
  ghost function Painted(s: Space, ops: seq<Fill>): Space
    decreases |ops|
  {
    if ops == [] then s else Painted(s[ops[0].page := ops[0].contents], ops[1..])
  }

  /** The first root, cleared and linked to itself: an address space in which nothing is mapped. */
  lemma FirstRoot(v: Vm)
    requires |v.free| > 0 && Distinct(v.free) && Zeroed(v)
    ensures var root := v.free[0];
      var w := Vm(Store(Clear(v.mem, root), root, 510, Link(root)), v.free[1..]);
      Alone(w, root) && SeenAlone(w, root) == imap[]
  {
    var root := v.free[0];
    var w := Vm(Store(Clear(v.mem, root), root, 510, Link(root)), v.free[1..]);
    SlotsDiffer();
    assert forall i: Index :: !Kid(w.mem, root, 4, i, AllSlots());
    assert Reach(w.mem, root, 4, AllSlots()) == iset{root};
    forall f | f in Frames(w.free) ensures f in Frames(v.free) && f != root {
      var i :| 0 <= i < |w.free| && w.free[i] == f;
      assert v.free[i + 1] == f;
    }
    forall q | UserPage(q) ensures Entry(w.mem, root, q) == ZERO {
      UserIsAny(q);
      assert w.mem[root][q.idx] == ZERO;
    }
    forall q | KernelPage(q) ensures KindOk(w, root, q) {
      KernelStep(q);
      assert w.mem[root][511] == ZERO;
    }
  }
}
