/**
 * Fork as the kernel's memory goes through it: the cross links between the two roots, the marked deep
 * copy, and the state of the pair that they establish.
 */
module Forking {
  import opened Sequences
  import opened Words
  import opened PageTables
  import opened Addresses
  import opened Hardware
  import opened Mapping
  import opened Fork
  import opened CopyOnWrite

  /** A process before its fork: each page has a frame of its own that is neither table nor free. */
  ghost predicate Owner(v: Vm, root: Frame, child: Frame) {
    && (forall q | UserPage(q) && Entry(v.mem, root, q) != ZERO ::
          var e := Entry(v.mem, root, q);
          e.present && e.user && e.frame !in Reach(v.mem, root, 4, UserSlots()) && e.frame != child && e.frame !in Frames(v.free))
    && (forall q, q' |
          UserPage(q) && UserPage(q') && q != q' && Entry(v.mem, root, q) != ZERO && Entry(v.mem, root, q') != ZERO ::
          Entry(v.mem, root, q).frame != Entry(v.mem, root, q').frame)
  }

  /** The pages a process sees before the fork. */
  ghost function SeenAlone(v: Vm, root: Frame): Space {
    imap q: Path | UserPage(q) && Entry(v.mem, root, q) != ZERO :: v.mem[Entry(v.mem, root, q).frame]
  }

  /** Slots 509 and 510 of the two roots, as `mark_fork_cross_entry` leaves them. */
  ghost predicate CrossLinked(m: Memory, parent: Frame, child: Frame) {
    && SelfMapped(m, parent) && SelfMapped(m, child)
    && m[parent][509] == Link(child) && m[child][509] == Link(parent)
  }

  lemma TakenApart(v0: Vm, v: Vm, k: nat)
    requires Taken(v0, v, k) && Distinct(v0.free)
    ensures First(v0, k) <= Frames(v0.free) && Frames(v.free) <= Frames(v0.free) && First(v0, k) !! Frames(v.free)
    ensures Distinct(v.free)
  {
    SplitFrames(v0.free, k);
  }

  /** The facts about the two trees that the copy leaves behind, as sets. */
  lemma ForkTables(v0: Vm, v: Vm, parent: Frame, child: Frame, k: nat)
    requires k == Links(v0.mem, parent, 4, 509)
    requires Ready(v0, parent, child, 4) && Copied(v0, v, parent, child, 4, 509)
    ensures Distinct(v0.free) && Taken(v0, v, k) && Zeroed(v) && parent != child
    ensures Tree(v.mem, parent, 4, UserSlots()) && Tree(v.mem, child, 4, UserSlots())
    ensures Reach(v.mem, parent, 4, UserSlots()) == Reach(v0.mem, parent, 4, UserSlots())
    ensures Reach(v.mem, child, 4, UserSlots()) == iset{child} + First(v0, k)
    ensures Changed(v0.mem, v.mem, Reach(v0.mem, parent, 4, UserSlots()) + iset{child} + First(v0, k))
    ensures child !in Reach(v0.mem, parent, 4, UserSlots()) && child !in Frames(v0.free)
    ensures Reach(v0.mem, parent, 4, UserSlots()) !! Frames(v0.free)
    ensures v.mem[parent] == v0.mem[parent] && forall j: Index | 509 <= j :: v.mem[child][j] == v0.mem[child][j]
  {
    hide *;
    CountBelow(4);
    ReadyParts(v0, parent, child, 4);
    SoundParts(v0, parent, 4, UserSlots());
    CopiedParts(v0, v, parent, child, 4, 509, k);
    ParentParts(v0, v, parent, 4);
    ChildParts(v0, v, child, 4, 509, k);
    RestParts(v0, v, parent, child, 4, k);
    FreeKept(v0, v, parent, child, 4, k);
    Different(v0, parent, child, 4);
    UserSlotsAre();
    PendingRoot(v0, v, parent, child);
  }

  lemma UserSlotsAre()
    ensures UserSlots() == Slots(509)
  {
  }

  lemma PendingRoot(v0: Vm, v: Vm, parent: Frame, child: Frame)
    requires Pending(v0, v, parent, child, 4, 509)
    ensures forall j: Index | 509 <= j :: v.mem[child][j] == v0.mem[child][j]
  {
  }

  lemma ForkLinked(v0: Vm, v: Vm, parent: Frame, child: Frame)
    requires Ready(v0, parent, child, 4) && Copied(v0, v, parent, child, 4, 509) && CrossLinked(v0.mem, parent, child)
    ensures Linked2(Pair(v, parent, child))
  {
    hide *;
    CountBelow(4);
    var s, k := Pair(v, parent, child), Links(v0.mem, parent, 4, 509);
    ForkTables(v0, v, parent, child, k);
    TakenApart(v0, v, k);
    MakeLinked(v0, v, parent, child, First(v0, k));
  }

  lemma MakeLinked(v0: Vm, v: Vm, parent: Frame, child: Frame, taken: iset<Frame>)
    requires CrossLinked(v0.mem, parent, child) && Distinct(v.free) && Zeroed(v)
    requires v.mem[parent] == v0.mem[parent] && forall j: Index | 509 <= j :: v.mem[child][j] == v0.mem[child][j]
    requires Tree(v.mem, parent, 4, UserSlots()) && Tree(v.mem, child, 4, UserSlots())
    requires Reach(v.mem, parent, 4, UserSlots()) !! Frames(v0.free)
    requires Reach(v.mem, child, 4, UserSlots()) == iset{child} + taken && child !in Frames(v0.free)
    requires child !in Reach(v.mem, parent, 4, UserSlots())
    requires taken <= Frames(v0.free) && Frames(v.free) <= Frames(v0.free) && taken !! Frames(v.free)
    ensures Linked2(Pair(v, parent, child))
  {
    var s := Pair(v, parent, child);
    SideParts(s, Parent);
    SideParts(s, Child);
  }

  /** Frames of pages are out of the copy's reach. */
  lemma ForkData(v0: Vm, v: Vm, parent: Frame, child: Frame, f: Frame)
    requires Ready(v0, parent, child, 4) && Copied(v0, v, parent, child, 4, 509)
    requires f !in Reach(v0.mem, parent, 4, UserSlots()) && f != child && f !in Frames(v0.free)
    ensures DataFrame(Pair(v, parent, child), f) && v.mem[f] == v0.mem[f]
  {
    hide *;
    CountBelow(4);
    var k := Links(v0.mem, parent, 4, 509);
    ForkTables(v0, v, parent, child, k);
    TakenApart(v0, v, k);
    ChangedAt(v0.mem, v.mem, Reach(v0.mem, parent, 4, UserSlots()) + iset{child} + First(v0, k), f);
    DataFrameIs(Pair(v, parent, child), f);
  }

  lemma DataFrameIs(s: Pair, f: Frame)
    ensures DataFrame(s, f) <==>
      f !in Reach(s.vm.mem, s.parent, 4, UserSlots()) && f !in Reach(s.vm.mem, s.child, 4, UserSlots()) && f !in Frames(s.vm.free)
  {
  }

  lemma ForkLeaf(v0: Vm, v: Vm, parent: Frame, child: Frame, who: Who, q: Path)
    requires SameLeaves(v0, v, parent, child, 4, 509) && UserPage(q)
    ensures Pair(v, parent, child).Leaf(who, q) == MarkedOrZero(Entry(v0.mem, parent, q))
  {
  }

  lemma ForkLeavesOk(v0: Vm, v: Vm, parent: Frame, child: Frame)
    requires Owner(v0, parent, child)
    requires forall who, q | UserPage(q) :: Pair(v, parent, child).Leaf(who, q) == MarkedOrZero(Entry(v0.mem, parent, q))
    requires forall f | f !in Reach(v0.mem, parent, 4, UserSlots()) && f != child && f !in Frames(v0.free) ::
      DataFrame(Pair(v, parent, child), f)
    ensures LeavesOk(Pair(v, parent, child))
  {
    var s := Pair(v, parent, child);
    forall who, q | UserPage(q) ensures LeafOk(s, who, q) && SharedOk(s, who, q) {
      assert s.Leaf(who, q) == s.Leaf(Other(who), q) == MarkedOrZero(Entry(v0.mem, parent, q));
    }
    forall who, q, who', q' | UserPage(q) && UserPage(q') ensures FrameOk(s, who, q, who', q') {
      assert s.Leaf(who, q) == MarkedOrZero(Entry(v0.mem, parent, q));
      assert s.Leaf(who', q') == MarkedOrZero(Entry(v0.mem, parent, q'));
    }
  }

  /**
   * Fork's marking establishes the invariant, and both processes see exactly what the parent
   * saw before.
   */
  lemma ForkEstablishes(v0: Vm, v: Vm, parent: Frame, child: Frame)
    requires Ready(v0, parent, child, 4) && Owner(v0, parent, child) && CrossLinked(v0.mem, parent, child)
    requires Copied(v0, v, parent, child, 4, 509) && SameLeaves(v0, v, parent, child, 4, 509)
    ensures CowInv(Pair(v, parent, child))
    ensures View(Pair(v, parent, child)) == Eager(SeenAlone(v0, parent), SeenAlone(v0, parent))
  {
    hide *;
    var s := Pair(v, parent, child);
    CountBelow(4);
    ForkLinked(v0, v, parent, child);
    forall f | f !in Reach(v0.mem, parent, 4, UserSlots()) && f != child && f !in Frames(v0.free)
      ensures DataFrame(s, f) && v.mem[f] == v0.mem[f]
    {
      ForkData(v0, v, parent, child, f);
    }
    forall who, q | UserPage(q) ensures s.Leaf(who, q) == MarkedOrZero(Entry(v0.mem, parent, q)) {
      ForkLeaf(v0, v, parent, child, who, q);
    }
    ForkLeavesOk(v0, v, parent, child);
    CowParts(s);
    ForkSeen(v0, v, parent, child);
  }

  lemma ForkSeen(v0: Vm, v: Vm, parent: Frame, child: Frame)
    requires Owner(v0, parent, child)
    requires forall who, q | UserPage(q) :: Pair(v, parent, child).Leaf(who, q) == MarkedOrZero(Entry(v0.mem, parent, q))
    requires forall f | f !in Reach(v0.mem, parent, 4, UserSlots()) && f != child && f !in Frames(v0.free) ::
      v.mem[f] == v0.mem[f]
    ensures View(Pair(v, parent, child)) == Eager(SeenAlone(v0, parent), SeenAlone(v0, parent))
  {
    var s := Pair(v, parent, child);
    assert Seen(s, Parent) == SeenAlone(v0, parent);
    assert Seen(s, Child) == SeenAlone(v0, parent);
  }

  /** The machine's memory as that of a pair. */
  ghost function Both(k: Machine, parent: Frame, child: Frame): Pair
    reads k
  {
    Pair(Vm(k.mem, k.free), parent, child)
  }

  lemma BothIs(k: Machine, parent: Frame, child: Frame)
    ensures Both(k, parent, child) == Pair(Vm(k.mem, k.free), parent, child)
  {
  }

  /** Memory that differs from m in slots 509 and up of table t, and perhaps in frames outside t's tree. */
  ghost predicate BeyondUser(m: Memory, m': Memory, t: Frame) {
    && (forall j: Index | j < 509 :: m'[t][j] == m[t][j])
    && (forall f | f in Reach(m, t, 4, UserSlots()) && f != t :: m'[f] == m[f])
  }

  /** The tree of user pages does not depend on the slots beyond them. */
  lemma BeyondUserTree(m: Memory, m': Memory, t: Frame)
    requires Tree(m, t, 4, UserSlots()) && BeyondUser(m, m', t)
    ensures Reach(m', t, 4, UserSlots()) == Reach(m, t, 4, UserSlots()) && Tree(m', t, 4, UserSlots())
    ensures forall i: Index | Kid(m, t, 4, i, UserSlots()) ::
      Agree(m, m', Reach(m, Sub(m, t, i), 3, UserSlots())) && Kid(m', t, 4, i, UserSlots()) && Sub(m', t, i) == Sub(m, t, i)
  {
    forall i: Index
      ensures Kid(m', t, 4, i, UserSlots()) == Kid(m, t, 4, i, UserSlots())
      ensures Kid(m, t, 4, i, UserSlots()) ==> Sub(m', t, i) == Sub(m, t, i) && Tree(m', Sub(m, t, i), 3, UserSlots())
      ensures Kid(m, t, 4, i, UserSlots()) ==> Agree(m, m', Reach(m, Sub(m, t, i), 3, UserSlots()))
      ensures Below(m', t, 4, i, UserSlots()) == Below(m, t, 4, i, UserSlots())
    {
      if Kid(m, t, 4, i, UserSlots()) {
        SubReach(m, t, 4, i, UserSlots());
        AgreeReach(m, m', Sub(m, t, i), 3, UserSlots());
      }
    }
    forall f: Frame ensures f in Reach(m', t, 4, UserSlots()) <==> f in Reach(m, t, 4, UserSlots()) {
      ReachBelow(m, t, 4, UserSlots(), f);
      ReachBelow(m', t, 4, UserSlots(), f);
    }
  }

  lemma BeyondUserEntry(m: Memory, m': Memory, t: Frame, q: Path)
    requires Tree(m, t, 4, UserSlots()) && BeyondUser(m, m', t) && UserPage(q)
    ensures Entry(m', t, q) == Entry(m, t, q)
  {
    BeyondUserTree(m, m', t);
    if m[t][q.idx] != ZERO {
      assert Kid(m, t, 4, q.idx, UserSlots());
      AgreeEntry(m, m', Sub(m, t, q.idx), q.rest, 3, UserSlots());
    }
  }

  lemma {:induction false} BeyondUserLinks(m: Memory, m': Memory, t: Frame, i: nat)
    requires Tree(m, t, 4, UserSlots()) && BeyondUser(m, m', t) && i <= 509
    ensures Links(m', t, 4, i) == Links(m, t, 4, i)
    decreases i
  {
    BeyondUserTree(m, m', t);
    if i > 0 {
      BeyondUserLinks(m, m', t, i - 1);
      if m[t][i - 1] != ZERO {
        assert Kid(m, t, 4, i - 1, UserSlots());
        AgreeLinks(m, m', Sub(m, t, i - 1), 3, 512);
      }
    }
  }

  /** What `mark_fork_cross_entry` writes. */
  function CrossEntries(m: Memory, parent: Frame, child: Frame): Memory {
    Store(Store(m, parent, 509, Link(child)), child, 509, Link(parent))
  }

  lemma CrossEntriesReady(v: Vm, parent: Frame, child: Frame)
    requires Ready(v, parent, child, 4) && Owner(v, parent, child)
    requires SelfMapped(v.mem, parent) && SelfMapped(v.mem, child)
    ensures var w := Vm(CrossEntries(v.mem, parent, child), v.free);
      && Ready(w, parent, child, 4) && CrossLinked(w.mem, parent, child)
  {
    hide *;
    var w := Vm(CrossEntries(v.mem, parent, child), v.free);
    CountBelow(4);
    ReadyParts(v, parent, child, 4);
    Different(v, parent, child, 4);
    CrossEntriesBeyond(v.mem, parent, child);
    BeyondUserTree(v.mem, w.mem, parent);
    BeyondUserLinks(v.mem, w.mem, parent, 509);
    SoundParts(v, parent, 4, UserSlots());
    SoundParts(w, parent, 4, UserSlots());
    CrossEntriesFree(v, w, parent, child);
    MakeRootReady(v, w, parent, child);
  }

  lemma CrossEntriesBeyond(m: Memory, parent: Frame, child: Frame)
    requires child !in Reach(m, parent, 4, UserSlots()) && parent != child
    ensures var m' := CrossEntries(m, parent, child);
      && BeyondUser(m, m', parent)
      && (SelfMapped(m, parent) && SelfMapped(m, child) ==> CrossLinked(m', parent, child))
      && m'[child] == m[child][509 := Link(parent)]
      && Changed(m, m', iset{parent} + iset{child})
  {
  }

  lemma CrossEntriesFree(v: Vm, w: Vm, parent: Frame, child: Frame)
    requires Ready(v, parent, child, 4) && w.free == v.free && Changed(v.mem, w.mem, iset{parent} + iset{child})
    ensures Zeroed(w)
  {
    assert parent in Reach(v.mem, parent, 4, UserSlots());
  }

  lemma MakeRootReady(v: Vm, w: Vm, parent: Frame, child: Frame)
    requires Ready(v, parent, child, 4) && w.free == v.free && Zeroed(w)
    requires BeyondUser(v.mem, w.mem, parent) && w.mem[child] == v.mem[child][509 := Link(parent)]
    requires Sound(w, parent, 4, UserSlots()) && Reach(w.mem, parent, 4, UserSlots()) == Reach(v.mem, parent, 4, UserSlots())
    requires Links(w.mem, parent, 4, 509) == Links(v.mem, parent, 4, 509)
    ensures Ready(w, parent, child, 4)
  {
  }

  lemma OwnerKept(v: Vm, w: Vm, parent: Frame, child: Frame)
    requires Owner(v, parent, child) && w.free == v.free
    requires Reach(w.mem, parent, 4, UserSlots()) == Reach(v.mem, parent, 4, UserSlots())
    requires forall q | UserPage(q) :: Entry(w.mem, parent, q) == Entry(v.mem, parent, q)
    ensures Owner(w, parent, child)
  {
  }

  lemma SeenKept(v: Vm, w: Vm, parent: Frame, child: Frame)
    requires Owner(v, parent, child) && parent in Reach(v.mem, parent, 4, UserSlots())
    requires Changed(v.mem, w.mem, iset{parent} + iset{child})
    requires forall q | UserPage(q) :: Entry(w.mem, parent, q) == Entry(v.mem, parent, q)
    ensures SeenAlone(w, parent) == SeenAlone(v, parent)
  {
    forall q | UserPage(q) && Entry(v.mem, parent, q) != ZERO
      ensures w.mem[Entry(v.mem, parent, q).frame] == v.mem[Entry(v.mem, parent, q).frame]
    {
      OwnedFrame(v, parent, child, q);
    }
    hide *;
    SeenAloneSame(v, w, parent);
  }

  lemma OwnedFrame(v: Vm, parent: Frame, child: Frame, q: Path)
    requires Owner(v, parent, child) && UserPage(q) && Entry(v.mem, parent, q) != ZERO
    ensures var f := Entry(v.mem, parent, q).frame;
      f !in Reach(v.mem, parent, 4, UserSlots()) && f != child && f !in Frames(v.free)
  {
  }

  lemma SeenAloneSame(v: Vm, w: Vm, parent: Frame)
    requires forall q | UserPage(q) :: Entry(w.mem, parent, q) == Entry(v.mem, parent, q)
    requires forall q | UserPage(q) && Entry(v.mem, parent, q) != ZERO ::
      w.mem[Entry(v.mem, parent, q).frame] == v.mem[Entry(v.mem, parent, q).frame]
    ensures SeenAlone(w, parent) == SeenAlone(v, parent)
  {
  }

  lemma CrossEntriesOwner(v: Vm, parent: Frame, child: Frame)
    requires Ready(v, parent, child, 4) && Owner(v, parent, child)
    ensures var w := Vm(CrossEntries(v.mem, parent, child), v.free);
      Owner(w, parent, child) && SeenAlone(w, parent) == SeenAlone(v, parent)
  {
    hide *;
    var w := Vm(CrossEntries(v.mem, parent, child), v.free);
    ReadyParts(v, parent, child, 4);
    Different(v, parent, child, 4);
    OwnReach(v.mem, parent);
    CrossEntriesBeyond(v.mem, parent, child);
    BeyondUserTree(v.mem, w.mem, parent);
    forall q | UserPage(q) ensures Entry(w.mem, parent, q) == Entry(v.mem, parent, q) {
      BeyondUserEntry(v.mem, w.mem, parent, q);
    }
    OwnerKept(v, w, parent, child);
    SeenKept(v, w, parent, child);
  }

  lemma OwnReach(m: Memory, t: Frame)
    ensures t in Reach(m, t, 4, UserSlots())
  {
  }

  /** `mark_fork_cross_entry` */
  method MarkForkCrossEntry(k: Machine, parent: Frame, child: Frame)
    requires k.cr3 == parent && parent != child && SelfMapped(k.mem, parent)
    modifies k`mem
    ensures k.mem == CrossEntries(old(k.mem), parent, child)
  {
    RootSlots();
    k.Write(PML4, 509, Link(child));
    assert KernelWalk(k.mem, k.cr3, PathOf(PARTNER_PML4)) == Hit(child);
    k.Write(PARTNER_PML4, 509, Link(parent));
  }

  lemma RootCrossing(v: Vm, parent: Frame, child: Frame)
    requires Ready(v, parent, child, 4) && CrossLinked(v.mem, parent, child)
    ensures CrossPoints(PML4, PARTNER_PML4, End, 4) && Crossing(v, parent, End, parent, child, 4, iset{parent})
  {
    RootSlots();
    assert Padded(End, 1) == Step(510, End);
    assert Padded(End, 2) == Step(510, Padded(End, 1));
    assert Padded(End, 3) == Step(510, Padded(End, 2));
    var c := Step(509, End);
    assert Padded(c, 1) == Step(510, c);
    assert Padded(c, 2) == Step(510, Padded(c, 1));
    assert parent in Reach(v.mem, parent, 4, UserSlots());
    assert Passed(v.mem, parent, c) == iset{parent};
  }

  /** What a fork leaves outside the process's own tables, and what it makes of these. */
  ghost predicate ForkedFrom(v: Vm, w: Vm, parent: Frame, child: Frame) {
    && w.mem[parent][511] == v.mem[parent][511] && w.mem[child][511] == v.mem[child][511]
    && Reach(w.mem, parent, 4, UserSlots()) == Reach(v.mem, parent, 4, UserSlots())
    && Reach(w.mem, child, 4, UserSlots()) <= iset{child} + Frames(v.free)
    && Frames(w.free) <= Frames(v.free)
    && Changed(v.mem, w.mem, Reach(v.mem, parent, 4, UserSlots()) + iset{child} + Frames(v.free))
    && forall q | UserPage(q) ::
         Entry(w.mem, parent, q) == Entry(w.mem, child, q) == MarkedOrZero(Entry(v.mem, parent, q))
  }

  lemma CopiedFrom(v: Vm, v0: Vm, w: Vm, parent: Frame, child: Frame)
    requires Ready(v, parent, child, 4) && Ready(v0, parent, child, 4) && Copied(v0, w, parent, child, 4, 509)
    requires SameLeaves(v0, w, parent, child, 4, 509) && v0 == Vm(CrossEntries(v.mem, parent, child), v.free)
    ensures ForkedFrom(v, w, parent, child)
  {
    hide *;
    CountBelow(4);
    var k := Links(v0.mem, parent, 4, 509);
    Different(v, parent, child, 4);
    ReadyParts(v, parent, child, 4);
    OwnReach(v.mem, parent);
    CrossEntriesBeyond(v.mem, parent, child);
    CrossSlots(v.mem, parent, child);
    BeyondUserTree(v.mem, v0.mem, parent);
    ForkTables(v0, w, parent, child, k);
    TakenApart(v0, w, k);
    forall q | UserPage(q)
      ensures Entry(w.mem, parent, q) == Entry(w.mem, child, q) == MarkedOrZero(Entry(v.mem, parent, q))
    {
      BeyondUserEntry(v.mem, v0.mem, parent, q);
      ForkLeaf(v0, w, parent, child, Parent, q);
      ForkLeaf(v0, w, parent, child, Child, q);
      PairLeaves(w, parent, child, q);
    }
    MoreChanged(v.mem, v0.mem, w.mem, parent, child, Reach(v.mem, parent, 4, UserSlots()), First(v0, k), Frames(v.free));
    MakeForked(v, w, parent, child, First(v0, k));
  }

  lemma CrossSlots(m: Memory, parent: Frame, child: Frame)
    ensures CrossEntries(m, parent, child)[parent][511] == m[parent][511]
    ensures CrossEntries(m, parent, child)[child][511] == m[child][511]
  {
  }

  lemma PairLeaves(w: Vm, parent: Frame, child: Frame, q: Path)
    ensures Pair(w, parent, child).Leaf(Parent, q) == Entry(w.mem, parent, q)
    ensures Pair(w, parent, child).Leaf(Child, q) == Entry(w.mem, child, q)
  {
  }

  lemma MoreChanged(m: Memory, m0: Memory, w: Memory, parent: Frame, child: Frame, p: iset<Frame>,
                    taken: iset<Frame>, free: iset<Frame>)
    requires Changed(m, m0, iset{parent} + iset{child}) && Changed(m0, w, p + iset{child} + taken)
    requires parent in p && taken <= free
    ensures Changed(m, w, p + iset{child} + free)
  {
  }

  lemma MakeForked(v: Vm, w: Vm, parent: Frame, child: Frame, taken: iset<Frame>)
    requires w.mem[parent][511] == v.mem[parent][511] && w.mem[child][511] == v.mem[child][511]
    requires Reach(w.mem, parent, 4, UserSlots()) == Reach(v.mem, parent, 4, UserSlots())
    requires Reach(w.mem, child, 4, UserSlots()) == iset{child} + taken && taken <= Frames(v.free)
    requires Frames(w.free) <= Frames(v.free)
    requires Changed(v.mem, w.mem, Reach(v.mem, parent, 4, UserSlots()) + iset{child} + Frames(v.free))
    requires forall q | UserPage(q) ::
      Entry(w.mem, parent, q) == Entry(w.mem, child, q) == MarkedOrZero(Entry(v.mem, parent, q))
    ensures ForkedFrom(v, w, parent, child)
  {
  }

  /** The memory half of `get_forked_pcb`: link the two roots, then copy and mark. */
  method ForkMemory(k: Machine, parent: Frame, child: Frame)
    requires k.cr3 == parent && SelfMapped(k.mem, parent) && SelfMapped(k.mem, child)
    requires Ready(Vm(k.mem, k.free), parent, child, 4) && Owner(Vm(k.mem, k.free), parent, child)
    modifies k`mem, k`free
    ensures CowInv(Both(k, parent, child))
    ensures View(Both(k, parent, child)) ==
      Eager(SeenAlone(old(Vm(k.mem, k.free)), parent), SeenAlone(old(Vm(k.mem, k.free)), parent))
    ensures |k.free| == |old(k.free)| - Links(old(k.mem), parent, 4, 509)
    ensures ForkedFrom(old(Vm(k.mem, k.free)), Vm(k.mem, k.free), parent, child)
  {
    hide *;
    ghost var v := Vm(k.mem, k.free);
    Different(v, parent, child, 4);
    MarkForkCrossEntry(k, parent, child);
    ghost var v0 := Vm(k.mem, k.free);
    CrossEntriesReady(v, parent, child);
    CrossEntriesOwner(v, parent, child);
    RootCrossing(v0, parent, child);
    DoMarkCow(k, PML4, PARTNER_PML4, 4, End, parent, child, iset{parent});
    CountBelow(4);
    ForkEstablishes(v0, Vm(k.mem, k.free), parent, child);
    BothIs(k, parent, child);
    FramesUsed(v, v0, Vm(k.mem, k.free), parent, child);
    CopiedFrom(v, v0, Vm(k.mem, k.free), parent, child);
  }

  lemma FramesUsed(v: Vm, v0: Vm, w: Vm, parent: Frame, child: Frame)
    requires Ready(v, parent, child, 4) && v0 == Vm(CrossEntries(v.mem, parent, child), v.free)
    requires Copied(v0, w, parent, child, 4, 509)
    ensures |w.free| == |v.free| - Links(v.mem, parent, 4, 509)
  {
    hide *;
    ReadyParts(v, parent, child, 4);
    Different(v, parent, child, 4);
    CrossEntriesBeyond(v.mem, parent, child);
    BeyondUserLinks(v.mem, v0.mem, parent, 509);
    CopiedFree(v0, w, parent, child);
  }

  lemma CopiedFree(v0: Vm, w: Vm, parent: Frame, child: Frame)
    requires Copied(v0, w, parent, child, 4, 509)
    ensures |w.free| == |v0.free| - Links(v0.mem, parent, 4, 509)
  {
  }
}
