/**
 * Copy-on-write between a forked pair: what a page fault does to the two table trees, and why
 * parent and child see what they would see had fork copied every page.
 */
module CopyOnWrite {
  import opened Sequences
  import opened Words
  import opened PageTables
  import opened Hardware
  import opened Mapping
  import opened Fork

  datatype Who = Parent | Child

  function Other(who: Who): Who { if who == Parent then Child else Parent }

  /** Memory with the two top-level tables of a forked pair. */
  datatype Pair = Pair(vm: Vm, parent: Frame, child: Frame) {
    function Root(who: Who): Frame { if who == Parent then parent else child }

    /** The leaf entry of a page. */
    function Leaf(who: Who, q: Path): Word { Entry(vm.mem, Root(who), q) }

    ghost function Tables(who: Who): iset<Frame> { Reach(vm.mem, Root(who), 4, UserSlots()) }
  }

  /** A page of the process: its top index is below 509. */
  predicate UserPage(q: Path) { Under(q, 4, UserSlots()) }

  /** One process's tree, with slot 510 leading back to its root and slot 509 to the partner's. */
  ghost predicate SideOk(s: Pair, who: Who) {
    && SelfMapped(s.vm.mem, s.Root(who)) && s.vm.mem[s.Root(who)][509] == Link(s.Root(Other(who)))
    && Sound(s.vm, s.Root(who), 4, UserSlots())
  }

  /** The two trees and the free frames. */
  ghost predicate Linked2(s: Pair) {
    SideOk(s, Parent) && SideOk(s, Child) && s.Tables(Parent) !! s.Tables(Child) && Zeroed(s.vm)
  }

  /** No frame of a page is a table or free. */
  ghost predicate DataFrame(s: Pair, f: Frame) {
    f !in s.Tables(Parent) && f !in s.Tables(Child) && f !in Frames(s.vm.free)
  }

  /** Unused, or present for the process on a frame of its own kind. */
  ghost predicate LeafOk(s: Pair, who: Who, q: Path) {
    s.Leaf(who, q) != ZERO ==> s.Leaf(who, q).present && s.Leaf(who, q).user && DataFrame(s, s.Leaf(who, q).frame)
  }

  /** A page that cannot be written is shared: the partner has the same entry, marked. */
  ghost predicate SharedOk(s: Pair, who: Who, q: Path) {
    s.Leaf(who, q) != ZERO && !s.Leaf(who, q).writable ==>
      s.Leaf(who, q).cow && s.Leaf(Other(who), q) == s.Leaf(who, q)
  }

  /** Two pages on one frame are the two views of one shared page. */
  ghost predicate FrameOk(s: Pair, who: Who, q: Path, who': Who, q': Path) {
    s.Leaf(who, q) != ZERO && s.Leaf(who', q') != ZERO && s.Leaf(who, q).frame == s.Leaf(who', q').frame ==>
      q == q' && (who == who' || (!s.Leaf(who, q).writable && !s.Leaf(who', q').writable))
  }

  ghost predicate LeavesOk(s: Pair) {
    && (forall who, q | UserPage(q) :: LeafOk(s, who, q))
    && (forall who, q | UserPage(q) :: SharedOk(s, who, q))
    && (forall who, q, who', q' | UserPage(q) && UserPage(q') :: FrameOk(s, who, q, who', q'))
  }

  /** Holds from the fork on. */
  ghost predicate CowInv(s: Pair) { Linked2(s) && LeavesOk(s) }

  /** Writing one leaf of one process, creating the tables that are missing on the way. */
  function WithLeaf(s: Pair, who: Who, q: Path, leaf: Word): Pair
    requires q.Step? && Missing(s.vm.mem, s.Root(who), q) <= |s.vm.free|
  {
    Pair(Mapped(s.vm, s.Root(who), q, leaf), s.parent, s.child)
  }

  /** Nothing but the leaf at (who, q) differs in what the walks find. */
  ghost predicate OnlyLeaf(s: Pair, s': Pair, who: Who, q: Path) {
    forall who', q' | UserPage(q') && (who' != who || q' != q) :: s'.Leaf(who', q') == s.Leaf(who', q')
  }

  /** Frames that are neither tables nor free keep their contents. */
  ghost predicate DataKept(s: Pair, s': Pair) {
    forall f | DataFrame(s, f) :: DataFrame(s', f) && s'.vm.mem[f] == s.vm.mem[f]
  }

  lemma OtherTree(s: Pair, s': Pair, who: Who, k: nat)
    requires SideOk(s, Other(who)) && s.Tables(who) !! s.Tables(Other(who))
    requires s'.parent == s.parent && s'.child == s.child && k <= |s.vm.free|
    requires Changed(s.vm.mem, s'.vm.mem, s.Tables(who) + Frames(s.vm.free[..k]))
    ensures Agree(s.vm.mem, s'.vm.mem, s.Tables(Other(who)))
    ensures s'.Tables(Other(who)) == s.Tables(Other(who)) && Tree(s'.vm.mem, s.Root(Other(who)), 4, UserSlots())
    ensures s'.vm.mem[s.Root(Other(who))] == s.vm.mem[s.Root(Other(who))]
  {
    var o := Other(who);
    PartsWithin(s.vm.free, k);
    assert s.Tables(who) !! s.Tables(o);
    assert s.Root(o) in s.Tables(o);
    AgreeReach(s.vm.mem, s'.vm.mem, s.Root(o), 4, UserSlots());
  }

  lemma SoundParts(v: Vm, t: Frame, n: Level, top: set<Index>)
    ensures Sound(v, t, n, top) <==> Tree(v.mem, t, n, top) && Reach(v.mem, t, n, top) !! Frames(v.free) && Distinct(v.free)
  {
  }

  lemma GrownParts(v: Vm, w: Vm, t: Frame, p: Path, leaf: Word, k: nat)
    requires Grown(v, w, t, p, leaf, 4, UserSlots(), k)
    ensures k <= |v.free| && w.free == v.free[k..] && Entry(w.mem, t, p) == leaf && Sound(w, t, 4, UserSlots())
    ensures Reach(w.mem, t, 4, UserSlots()) == Reach(v.mem, t, 4, UserSlots()) + Frames(v.free[..k])
    ensures Changed(v.mem, w.mem, Reach(v.mem, t, 4, UserSlots()) + Frames(v.free[..k]))
  {
  }

  /** What Mapped does to the process's own tree. */
  lemma WithLeafGrows(s: Pair, who: Who, q: Path, leaf: Word, s': Pair, k: nat)
    requires Sound(s.vm, s.Root(who), 4, UserSlots()) && UserPage(q) && k == Missing(s.vm.mem, s.Root(who), q) <= |s.vm.free|
    requires s' == WithLeaf(s, who, q, leaf)
    ensures s'.vm.free == s.vm.free[k..] && s'.Leaf(who, q) == leaf && Sound(s'.vm, s.Root(who), 4, UserSlots())
    ensures s'.Tables(who) == s.Tables(who) + Frames(s.vm.free[..k])
    ensures Changed(s.vm.mem, s'.vm.mem, s.Tables(who) + Frames(s.vm.free[..k]))
    ensures forall j: Index | j >= 509 :: s'.vm.mem[s.Root(who)][j] == s.vm.mem[s.Root(who)][j]
  {
    MappedGrows(s.vm, s.Root(who), q, leaf, 4, UserSlots());
    GrownParts(s.vm, s'.vm, s.Root(who), q, leaf, k);
    MappedSlots(s.vm, s.Root(who), q, leaf, 4, UserSlots());
    assert q.idx < 509;
  }

  lemma ZeroedRest(v: Vm, w: Vm, k: nat, x: iset<Frame>)
    requires Zeroed(v) && k <= |v.free| && w.free == v.free[k..] && Distinct(v.free)
    requires Changed(v.mem, w.mem, x + Frames(v.free[..k])) && x !! Frames(v.free)
    ensures Zeroed(w) && Distinct(w.free)
  {
    SplitFrames(v.free, k);
  }

  lemma Linked2Parts(s: Pair, who: Who)
    ensures Linked2(s) <==> SideOk(s, who) && SideOk(s, Other(who)) && s.Tables(who) !! s.Tables(Other(who)) && Zeroed(s.vm)
  {
  }

  lemma SideParts(s: Pair, who: Who)
    ensures SideOk(s, who) <==>
      && SelfMapped(s.vm.mem, s.Root(who)) && s.vm.mem[s.Root(who)][509] == Link(s.Root(Other(who)))
      && Sound(s.vm, s.Root(who), 4, UserSlots())
    ensures Sound(s.vm, s.Root(who), 4, UserSlots()) <==>
      Tree(s.vm.mem, s.Root(who), 4, UserSlots()) && s.Tables(who) !! Frames(s.vm.free) && Distinct(s.vm.free)
  {
  }

  lemma SameSide(s: Pair, s': Pair, who: Who)
    requires SideOk(s, who) && s'.Root(who) == s.Root(who) && s'.Root(Other(who)) == s.Root(Other(who))
    requires forall j: Index | j >= 509 :: s'.vm.mem[s.Root(who)][j] == s.vm.mem[s.Root(who)][j]
    ensures SelfMapped(s'.vm.mem, s'.Root(who)) && s'.vm.mem[s'.Root(who)][509] == Link(s'.Root(Other(who)))
  {
  }

  lemma WithLeafLinked(s: Pair, who: Who, q: Path, leaf: Word)
    requires Linked2(s) && UserPage(q) && Missing(s.vm.mem, s.Root(who), q) <= |s.vm.free|
    ensures Linked2(WithLeaf(s, who, q, leaf))
  {
    hide *;
    PathStep(q);
    var s', k, o := WithLeaf(s, who, q, leaf), Missing(s.vm.mem, s.Root(who), q), Other(who);
    WithLeafRoots(s, who, q, leaf);
    Linked2Parts(s, who);
    SideParts(s, who);
    SideParts(s, o);
    WithLeafGrows(s, who, q, leaf, s', k);
    OtherTree(s, s', who, k);
    ZeroedRest(s.vm, s'.vm, k, s.Tables(who));
    FreeSplit(s.vm.free, k);
    SameSide(s, s', who);
    SameSide(s, s', o);
    SidesApart(s, s', who, k);
    SideParts(s', who);
    SideParts(s', o);
    Linked2Parts(s', who);
  }

  lemma PathStep(q: Path)
    requires UserPage(q)
    ensures q.Step?
  {
  }

  lemma WithLeafRoots(s: Pair, who: Who, q: Path, leaf: Word)
    requires q.Step? && Missing(s.vm.mem, s.Root(who), q) <= |s.vm.free|
    ensures var s' := WithLeaf(s, who, q, leaf);
      && s'.parent == s.parent && s'.child == s.child
      && forall who :: s'.Root(who) == s.Root(who)
    ensures Other(Other(who)) == who && Other(who) != who
  {
  }

  lemma FreeSplit(s: seq<Frame>, k: nat)
    requires Distinct(s) && k <= |s|
    ensures Frames(s[..k]) !! Frames(s[k..]) && Frames(s[k..]) <= Frames(s) && Frames(s[..k]) <= Frames(s)
  {
    SplitFrames(s, k);
  }

  lemma SidesApart(s: Pair, s': Pair, who: Who, k: nat)
    requires s.Tables(who) !! s.Tables(Other(who)) && s.Tables(Other(who)) !! Frames(s.vm.free) && k <= |s.vm.free|
    requires s'.vm.free == s.vm.free[k..] && Frames(s.vm.free[..k]) <= Frames(s.vm.free)
    requires Frames(s.vm.free[k..]) <= Frames(s.vm.free)
    requires s'.Tables(who) == s.Tables(who) + Frames(s.vm.free[..k])
    requires s'.Tables(Other(who)) == s.Tables(Other(who))
    ensures s'.Tables(who) !! s'.Tables(Other(who)) && s'.Tables(Other(who)) !! Frames(s'.vm.free)
  {
  }

  lemma WithLeafData(s: Pair, who: Who, q: Path, leaf: Word)
    requires Linked2(s) && UserPage(q) && Missing(s.vm.mem, s.Root(who), q) <= |s.vm.free|
    ensures DataKept(s, WithLeaf(s, who, q, leaf))
  {
    var s', k := WithLeaf(s, who, q, leaf), Missing(s.vm.mem, s.Root(who), q);
    WithLeafGrows(s, who, q, leaf, s', k);
    OtherTree(s, s', who, k);
    PartsWithin(s.vm.free, k);
  }

  lemma WithLeafOnly(s: Pair, who: Who, q: Path, leaf: Word)
    requires Linked2(s) && UserPage(q) && Missing(s.vm.mem, s.Root(who), q) <= |s.vm.free|
    ensures WithLeaf(s, who, q, leaf).Leaf(who, q) == leaf
    ensures OnlyLeaf(s, WithLeaf(s, who, q, leaf), who, q)
  {
    var s', k := WithLeaf(s, who, q, leaf), Missing(s.vm.mem, s.Root(who), q);
    WithLeafGrows(s, who, q, leaf, s', k);
    OtherTree(s, s', who, k);
    forall who', q' | UserPage(q') && (who' != who || q' != q)
      ensures s'.Leaf(who', q') == s.Leaf(who', q')
    {
      if who' == who {
        MappedOther(s.vm, s.Root(who), q, q', leaf, 4, UserSlots());
      } else {
        AgreeEntry(s.vm.mem, s'.vm.mem, s.Root(who'), q', 4, UserSlots());
      }
    }
  }

  /** `get_free_page`: the first free frame becomes an ordinary one. */
  function TakeFrame(s: Pair): Pair
    requires |s.vm.free| > 0
  {
    Pair(Vm(s.vm.mem, s.vm.free[1..]), s.parent, s.child)
  }

  function SetPage(s: Pair, f: Frame, page: Page): Pair {
    Pair(Vm(s.vm.mem[f := page], s.vm.free), s.parent, s.child)
  }

  /** `add_physical_page_in`: a page that is not there gets a frame of its own. */
  function Demand(s: Pair, who: Who, q: Path): Pair
    requires UserPage(q) && 1 + Missing(s.vm.mem, s.Root(who), q) <= |s.vm.free|
  {
    WithLeaf(TakeFrame(s), who, q, UserLeaf(s.vm.free[0]))
  }

  /** `do_COW`: the faulting process gets a writable copy. */
  function OwnCopy(s: Pair, who: Who, q: Path): Pair
    requires UserPage(q) && |s.vm.free| > 0 && Missing(s.vm.mem, s.Root(who), q) == 0
  {
    SetPage(WithLeaf(TakeFrame(s), who, q, UserLeaf(s.vm.free[0])), s.vm.free[0], s.vm.mem[s.Leaf(who, q).frame])
  }

  /** `cross_off_COW`: the partner's entry becomes writable. */
  function CrossOff(s: Pair, who: Who, q: Path): Pair
    requires UserPage(q) && Missing(s.vm.mem, s.Root(Other(who)), q) == 0
  {
    WithLeaf(s, Other(who), q, Crossed(s.Leaf(Other(who), q)))
  }

  /** A page in use lies below existing tables. */
  lemma {:induction false} UsedNotMissing(m: Memory, t: Frame, q: Path)
    requires q.Step? && Entry(m, t, q) != ZERO
    ensures Missing(m, t, q) == 0
    decreases q
  {
    if q.rest.Step? { UsedNotMissing(m, Sub(m, t, q.idx), q.rest); }
  }

  lemma TakeFrameOk(s: Pair)
    requires Linked2(s) && |s.vm.free| > 0
    ensures Linked2(TakeFrame(s)) && DataFrame(TakeFrame(s), s.vm.free[0]) && !DataFrame(s, s.vm.free[0])
    ensures s.vm.mem[s.vm.free[0]] == ZeroPage()
    ensures DataKept(s, TakeFrame(s))
    ensures forall who, q :: TakeFrame(s).Leaf(who, q) == s.Leaf(who, q)
  {
    var f, s' := s.vm.free[0], TakeFrame(s);
    assert f in Frames(s.vm.free);
    forall who ensures s'.Leaf(who, End) == s.Leaf(who, End) && s'.Tables(who) == s.Tables(who) {}
    assert Frames(s'.vm.free) <= Frames(s.vm.free);
  }

  lemma SetPageOk(s: Pair, f: Frame, page: Page)
    requires Linked2(s) && DataFrame(s, f)
    ensures var s' := SetPage(s, f, page);
      && Linked2(s')
      && (forall who, q | UserPage(q) :: s'.Leaf(who, q) == s.Leaf(who, q))
      && (forall g :: DataFrame(s', g) == DataFrame(s, g))
  {
    var s' := SetPage(s, f, page);
    forall who
      ensures s'.Tables(who) == s.Tables(who) && Tree(s'.vm.mem, s.Root(who), 4, UserSlots())
      ensures forall q | UserPage(q) :: s'.Leaf(who, q) == s.Leaf(who, q)
    {
      AgreeReach(s.vm.mem, s'.vm.mem, s.Root(who), 4, UserSlots());
      forall q | UserPage(q) ensures s'.Leaf(who, q) == s.Leaf(who, q) {
        AgreeEntry(s.vm.mem, s'.vm.mem, s.Root(who), q, 4, UserSlots());
      }
      assert s.Root(who) in s.Tables(who);
    }
  }

  /** A free frame was put under page q of one process, with the given contents. */
  ghost predicate NewFrame(s: Pair, s': Pair, who: Who, q: Path, f: Frame, page: Page) {
    s'.Leaf(who, q) == UserLeaf(f) && !DataFrame(s, f) && DataFrame(s', f) && s'.vm.mem[f] == page
  }

  lemma DemandEffect(s: Pair, who: Who, q: Path)
    requires Linked2(s) && UserPage(q) && 1 + Missing(s.vm.mem, s.Root(who), q) <= |s.vm.free|
    ensures var s' := Demand(s, who, q);
      Linked2(s') && OnlyLeaf(s, s', who, q) && DataKept(s, s') && NewFrame(s, s', who, q, s.vm.free[0], ZeroPage())
  {
    var s1, leaf := TakeFrame(s), UserLeaf(s.vm.free[0]);
    TakeFrameOk(s);
    WithLeafLinked(s1, who, q, leaf);
    WithLeafOnly(s1, who, q, leaf);
    WithLeafData(s1, who, q, leaf);
  }

  lemma OwnCopyEffect(s: Pair, who: Who, q: Path)
    requires Linked2(s) && UserPage(q) && |s.vm.free| > 0 && Missing(s.vm.mem, s.Root(who), q) == 0
    requires DataFrame(s, s.Leaf(who, q).frame)
    ensures var s' := OwnCopy(s, who, q);
      && Linked2(s') && OnlyLeaf(s, s', who, q) && DataKept(s, s')
      && NewFrame(s, s', who, q, s.vm.free[0], s.vm.mem[s.Leaf(who, q).frame])
  {
    var f, s1, leaf := s.vm.free[0], TakeFrame(s), UserLeaf(s.vm.free[0]);
    TakeFrameOk(s);
    WithLeafLinked(s1, who, q, leaf);
    WithLeafOnly(s1, who, q, leaf);
    WithLeafData(s1, who, q, leaf);
    SetPageOk(WithLeaf(s1, who, q, leaf), f, s.vm.mem[s.Leaf(who, q).frame]);
  }

  lemma CrossOffEffect(s: Pair, who: Who, q: Path)
    requires Linked2(s) && UserPage(q) && s.Leaf(Other(who), q) != ZERO
    ensures Missing(s.vm.mem, s.Root(Other(who)), q) == 0
    ensures var s' := CrossOff(s, who, q);
      && Linked2(s') && OnlyLeaf(s, s', Other(who), q) && DataKept(s, s')
      && s'.Leaf(Other(who), q) == Crossed(s.Leaf(Other(who), q))
  {
    UsedNotMissing(s.vm.mem, s.Root(Other(who)), q);
    WithLeafLinked(s, Other(who), q, Crossed(s.Leaf(Other(who), q)));
    WithLeafOnly(s, Other(who), q, Crossed(s.Leaf(Other(who), q)));
    WithLeafData(s, Other(who), q, Crossed(s.Leaf(Other(who), q)));
  }

  /** `handle_COW`: with a living partner both steps, without one only the second. */
  function HandleCow(s: Pair, who: Who, q: Path, partner: bool): Pair
    requires UserPage(q) && |s.vm.free| > 0 && Linked2(s)
    requires s.Leaf(who, q) != ZERO && s.Leaf(Other(who), q) != ZERO && DataFrame(s, s.Leaf(who, q).frame)
  {
    UsedNotMissing(s.vm.mem, s.Root(who), q);
    var s1 := if partner then OwnCopy(s, who, q) else s;
    assert Linked2(s1) && s1.Leaf(Other(who), q) != ZERO by {
      OwnCopyEffect(s, who, q);
      assert Other(who) != who;
    }
    CrossOffEffect(s1, who, q);
    CrossOff(s1, who, q)
  }

  /** Both processes end up with a writable frame of their own, with the shared page's contents. */
  ghost predicate Split(s: Pair, s': Pair, who: Who, q: Path) {
    && Linked2(s') && DataKept(s, s')
    && s'.Leaf(Other(who), q) == Crossed(s.Leaf(Other(who), q))
    && NewFrame(s, s', who, q, s'.Leaf(who, q).frame, s.vm.mem[s.Leaf(who, q).frame])
    && forall who', q' | UserPage(q') && q' != q :: s'.Leaf(who', q') == s.Leaf(who', q')
  }

  lemma HandleCowSplits(s: Pair, who: Who, q: Path)
    requires UserPage(q) && |s.vm.free| > 0 && Linked2(s)
    requires s.Leaf(who, q) != ZERO && s.Leaf(Other(who), q) != ZERO && DataFrame(s, s.Leaf(who, q).frame)
    ensures Split(s, HandleCow(s, who, q, true), who, q)
  {
    hide *;
    PathStep(q);
    LeafIs(s, who, q);
    UsedNotMissing(s.vm.mem, s.Root(who), q);
    OwnCopyEffect(s, who, q);
    var s1 := OwnCopy(s, who, q);
    OnlyLeafOther(s, s1, who, q);
    CrossOffEffect(s1, who, q);
    HandleCowIs(s, who, q);
    MakeSplit(s, s1, CrossOff(s1, who, q), who, q, s.vm.free[0]);
  }

  lemma LeafIs(s: Pair, who: Who, q: Path)
    ensures s.Leaf(who, q) == Entry(s.vm.mem, s.Root(who), q)
  {
  }

  lemma OnlyLeafOther(s: Pair, s': Pair, who: Who, q: Path)
    requires OnlyLeaf(s, s', who, q) && UserPage(q)
    ensures s'.Leaf(Other(who), q) == s.Leaf(Other(who), q)
  {
  }

  /** With the partner found, `handle_COW` is the copy and then the crossing-off. */
  lemma HandleCowIs(s: Pair, who: Who, q: Path)
    requires UserPage(q) && |s.vm.free| > 0 && Linked2(s)
    requires s.Leaf(who, q) != ZERO && s.Leaf(Other(who), q) != ZERO && DataFrame(s, s.Leaf(who, q).frame)
    requires Missing(s.vm.mem, s.Root(who), q) == 0
    requires Missing(OwnCopy(s, who, q).vm.mem, OwnCopy(s, who, q).Root(Other(who)), q) == 0
    ensures HandleCow(s, who, q, true) == CrossOff(OwnCopy(s, who, q), who, q)
  {
    hide OwnCopy, CrossOff, Linked2;
  }

  /** Without it, the crossing-off alone. */
  lemma HandleCowAlone(s: Pair, who: Who, q: Path)
    requires UserPage(q) && |s.vm.free| > 0 && Linked2(s)
    requires s.Leaf(who, q) != ZERO && s.Leaf(Other(who), q) != ZERO && DataFrame(s, s.Leaf(who, q).frame)
    requires Missing(s.vm.mem, s.Root(Other(who)), q) == 0
    ensures HandleCow(s, who, q, false) == CrossOff(s, who, q)
  {
    hide OwnCopy, CrossOff, Linked2;
  }

  lemma MakeSplit(s: Pair, s1: Pair, s2: Pair, who: Who, q: Path, f: Frame)
    requires UserPage(q) && DataKept(s, s1) && DataKept(s1, s2) && Linked2(s2)
    requires OnlyLeaf(s, s1, who, q) && OnlyLeaf(s1, s2, Other(who), q)
    requires NewFrame(s, s1, who, q, f, s.vm.mem[s.Leaf(who, q).frame])
    requires s2.Leaf(Other(who), q) == Crossed(s.Leaf(Other(who), q))
    ensures Split(s, s2, who, q)
  {
    hide Linked2, DataFrame, UserPage, Pair.Leaf;
    assert Other(who) != who && Other(Other(who)) == who;
  }

  /** Demand paging keeps the invariant. */
  lemma DemandInv(s: Pair, s': Pair, who: Who, q: Path, f: Frame)
    requires LeavesOk(s) && UserPage(q) && s.Leaf(who, q) == ZERO
    requires OnlyLeaf(s, s', who, q) && DataKept(s, s') && NewFrame(s, s', who, q, f, ZeroPage())
    ensures LeavesOk(s')
  {
    forall who', q' | UserPage(q') ensures LeafOk(s', who', q') && SharedOk(s', who', q') {
      assert LeafOk(s, who', q') && SharedOk(s, who', q') && SharedOk(s, Other(who'), q');
    }
    forall who1, q1, who2, q2 | UserPage(q1) && UserPage(q2) ensures FrameOk(s', who1, q1, who2, q2) {
      assert FrameOk(s, who1, q1, who2, q2) && LeafOk(s, who1, q1) && LeafOk(s, who2, q2);
    }
  }

  /** Splitting a shared page keeps the invariant. */
  lemma SplitInv(s: Pair, s': Pair, who: Who, q: Path)
    requires LeavesOk(s) && UserPage(q) && s.Leaf(who, q) != ZERO && !s.Leaf(who, q).writable
    requires Split(s, s', who, q)
    ensures LeavesOk(s')
  {
    hide *;
    forall who', q' | UserPage(q') ensures LeafOk(s', who', q') && SharedOk(s', who', q') {
      SplitLeafOk(s, s', who, q, who', q');
    }
    forall who1, q1, who2, q2 | UserPage(q1) && UserPage(q2) ensures FrameOk(s', who1, q1, who2, q2) {
      SplitFrameOk(s, s', who, q, who1, q1, who2, q2);
    }
    MakeLeavesOk(s');
  }

  lemma MakeLeavesOk(s: Pair)
    requires forall who, q | UserPage(q) :: LeafOk(s, who, q) && SharedOk(s, who, q)
    requires forall who, q, who', q' | UserPage(q) && UserPage(q') :: FrameOk(s, who, q, who', q')
    ensures LeavesOk(s)
  {
  }

  lemma SplitLeafOk(s: Pair, s': Pair, who: Who, q: Path, who': Who, q': Path)
    requires LeavesOk(s) && UserPage(q) && s.Leaf(who, q) != ZERO && !s.Leaf(who, q).writable
    requires Split(s, s', who, q) && UserPage(q')
    ensures LeafOk(s', who', q') && SharedOk(s', who', q')
  {
    hide UserPage, Linked2, DataFrame, Pair.Leaf;
    assert SharedOk(s, who, q) && LeafOk(s, Other(who), q);
    assert LeafOk(s, who', q') && SharedOk(s, who', q');
    assert who' == who || who' == Other(who);
  }

  lemma SplitFrameOk(s: Pair, s': Pair, who: Who, q: Path, who1: Who, q1: Path, who2: Who, q2: Path)
    requires LeavesOk(s) && UserPage(q) && s.Leaf(who, q) != ZERO && !s.Leaf(who, q).writable
    requires Split(s, s', who, q) && UserPage(q1) && UserPage(q2)
    ensures FrameOk(s', who1, q1, who2, q2)
  {
    hide UserPage, Linked2, DataFrame, Pair.Leaf;
    assert SharedOk(s, who, q) && LeafOk(s, Other(who), q);
    assert FrameOk(s, who1, q1, who2, q2) && LeafOk(s, who1, q1) && LeafOk(s, who2, q2);
    assert who1 == who || who1 == Other(who);
    assert who2 == who || who2 == Other(who);
  }

  lemma SameLeavesInv(s: Pair, s': Pair)
    requires LeavesOk(s)
    requires forall who, q | UserPage(q) :: s'.Leaf(who, q) == s.Leaf(who, q)
    requires forall g :: DataFrame(s', g) == DataFrame(s, g)
    ensures LeavesOk(s')
  {
    forall who', q' | UserPage(q') ensures LeafOk(s', who', q') && SharedOk(s', who', q') {
      assert LeafOk(s, who', q') && SharedOk(s, who', q');
    }
    forall who1, q1, who2, q2 | UserPage(q1) && UserPage(q2) ensures FrameOk(s', who1, q1, who2, q2) {
      assert FrameOk(s, who1, q1, who2, q2);
    }
  }

  /** The pages a process sees, and what they hold. */
  type Space = imap<Path, Page>

  ghost function Seen(s: Pair, who: Who): Space {
    imap q: Path | UserPage(q) && s.Leaf(who, q) != ZERO :: s.vm.mem[s.Leaf(who, q).frame]
  }

  /** A process whose leaves lead to the same contents sees the same. */
  lemma SameSeen(s: Pair, s': Pair, who: Who)
    requires forall q | UserPage(q) :: s'.Leaf(who, q) == ZERO <==> s.Leaf(who, q) == ZERO
    requires forall q | UserPage(q) && s.Leaf(who, q) != ZERO ::
      s'.vm.mem[s'.Leaf(who, q).frame] == s.vm.mem[s.Leaf(who, q).frame]
    ensures Seen(s', who) == Seen(s, who)
  {
  }

  lemma OneMoreSeen(s: Pair, s': Pair, who: Who, q: Path, page: Page)
    requires UserPage(q) && s'.Leaf(who, q) != ZERO && s'.vm.mem[s'.Leaf(who, q).frame] == page
    requires forall q' | UserPage(q') && q' != q :: s'.Leaf(who, q') == s.Leaf(who, q')
    requires forall q' | UserPage(q') && q' != q && s.Leaf(who, q') != ZERO ::
      s'.vm.mem[s.Leaf(who, q').frame] == s.vm.mem[s.Leaf(who, q').frame]
    ensures Seen(s', who) == Seen(s, who)[q := page]
  {
  }

  lemma UsedKept(s: Pair, s': Pair, who: Who)
    requires LeavesOk(s) && DataKept(s, s')
    ensures forall q | UserPage(q) && s.Leaf(who, q) != ZERO :: s'.vm.mem[s.Leaf(who, q).frame] == s.vm.mem[s.Leaf(who, q).frame]
  {
    forall q | UserPage(q) && s.Leaf(who, q) != ZERO
      ensures s'.vm.mem[s.Leaf(who, q).frame] == s.vm.mem[s.Leaf(who, q).frame]
    {
      UsedLeaf(s, who, q);
    }
  }

  lemma NewFrameLeaf(s: Pair, s': Pair, who: Who, q: Path, f: Frame, page: Page)
    requires NewFrame(s, s', who, q, f, page)
    ensures s'.Leaf(who, q) != ZERO && s'.vm.mem[s'.Leaf(who, q).frame] == page
  {
  }

  lemma OnlyParts(s: Pair, s': Pair, who: Who, q: Path)
    requires OnlyLeaf(s, s', who, q)
    ensures forall q' | UserPage(q') && q' != q :: s'.Leaf(who, q') == s.Leaf(who, q')
    ensures forall q' | UserPage(q') :: s'.Leaf(Other(who), q') == s.Leaf(Other(who), q')
  {
    assert Other(who) != who;
  }

  lemma DemandSeen(s: Pair, s': Pair, who: Who, q: Path, f: Frame)
    requires LeavesOk(s) && UserPage(q)
    requires OnlyLeaf(s, s', who, q) && DataKept(s, s') && NewFrame(s, s', who, q, f, ZeroPage())
    ensures Seen(s', who) == Seen(s, who)[q := ZeroPage()]
    ensures Seen(s', Other(who)) == Seen(s, Other(who))
  {
    hide *;
    UsedKept(s, s', who);
    UsedKept(s, s', Other(who));
    NewFrameLeaf(s, s', who, q, f, ZeroPage());
    OnlyParts(s, s', who, q);
    OneMoreSeen(s, s', who, q, ZeroPage());
    SameSeen(s, s', Other(who));
  }

  lemma SplitLeaf(s: Pair, s': Pair, who: Who, q: Path, who': Who, q': Path)
    requires LeavesOk(s) && UserPage(q) && UserPage(q') && s.Leaf(who, q) != ZERO && !s.Leaf(who, q).writable
    requires Split(s, s', who, q)
    ensures s'.Leaf(who', q') == ZERO <==> s.Leaf(who', q') == ZERO
    ensures s.Leaf(who', q') != ZERO ==> s'.vm.mem[s'.Leaf(who', q').frame] == s.vm.mem[s.Leaf(who', q').frame]
  {
    assert SharedOk(s, who, q) && LeafOk(s, who', q') && LeafOk(s, who, q);
    assert who' == who || who' == Other(who);
  }

  /** Splitting a page is not seen by either process. */
  lemma SplitSeen(s: Pair, s': Pair, who: Who, q: Path)
    requires LeavesOk(s) && UserPage(q) && s.Leaf(who, q) != ZERO && !s.Leaf(who, q).writable
    requires Split(s, s', who, q)
    ensures Seen(s', Parent) == Seen(s, Parent) && Seen(s', Child) == Seen(s, Child)
  {
    hide *;
    forall who', q' | UserPage(q')
      ensures s'.Leaf(who', q') == ZERO <==> s.Leaf(who', q') == ZERO
      ensures s.Leaf(who', q') != ZERO ==> s'.vm.mem[s'.Leaf(who', q').frame] == s.vm.mem[s.Leaf(who', q').frame]
    {
      SplitLeaf(s, s', who, q, who', q');
    }
    SameSeen(s, s', Parent);
    SameSeen(s, s', Child);
  }

  lemma WriteOthers(s: Pair, s': Pair, who: Who, q: Path, page: Page)
    requires LeavesOk(s) && UserPage(q) && s.Leaf(who, q) != ZERO && s.Leaf(who, q).writable
    requires s' == SetPage(s, s.Leaf(who, q).frame, page)
    requires forall who', q' | UserPage(q') :: s'.Leaf(who', q') == s.Leaf(who', q')
    ensures Seen(s', who) == Seen(s, who)[q := page] && Seen(s', Other(who)) == Seen(s, Other(who))
  {
    hide *;
    SetPageMem(s, s.Leaf(who, q).frame, page);
    forall who', q' | UserPage(q') && s.Leaf(who', q') != ZERO && (who' != who || q' != q)
      ensures s'.vm.mem[s.Leaf(who', q').frame] == s.vm.mem[s.Leaf(who', q').frame]
    {
      FramesDiffer(s, who, q, who', q');
    }
    OtherDiffers(who);
    OneMoreSeen(s, s', who, q, page);
    SameSeen(s, s', Other(who));
  }

  lemma OtherDiffers(who: Who)
    ensures Other(who) != who && Other(Other(who)) == who
  {
  }

  lemma SetPageMem(s: Pair, f: Frame, page: Page)
    ensures SetPage(s, f, page).vm.mem == s.vm.mem[f := page]
  {
  }

  lemma FramesDiffer(s: Pair, who: Who, q: Path, who': Who, q': Path)
    requires LeavesOk(s) && UserPage(q) && UserPage(q') && (who' != who || q' != q)
    requires s.Leaf(who, q) != ZERO && s.Leaf(who, q).writable && s.Leaf(who', q') != ZERO
    ensures s.Leaf(who', q').frame != s.Leaf(who, q).frame
  {
    assert FrameOk(s, who, q, who', q');
  }

  /** A write through a writable leaf is seen by its process alone. */
  lemma WriteSeen(s: Pair, who: Who, q: Path, page: Page)
    requires CowInv(s) && UserPage(q) && s.Leaf(who, q) != ZERO && s.Leaf(who, q).writable
    ensures var s' := SetPage(s, s.Leaf(who, q).frame, page);
      && CowInv(s') && Seen(s', who) == Seen(s, who)[q := page] && Seen(s', Other(who)) == Seen(s, Other(who))
      && s'.Leaf(who, q) == s.Leaf(who, q)
  {
    hide *;
    var s' := SetPage(s, s.Leaf(who, q).frame, page);
    CowParts(s);
    UsedLeaf(s, who, q);
    SetPageOk(s, s.Leaf(who, q).frame, page);
    SameLeavesInv(s, s');
    WriteOthers(s, s', who, q, page);
    CowParts(s');
  }

  lemma CowParts(s: Pair)
    ensures CowInv(s) <==> Linked2(s) && LeavesOk(s)
  {
  }

  lemma UsedLeaf(s: Pair, who: Who, q: Path)
    requires LeavesOk(s) && UserPage(q) && s.Leaf(who, q) != ZERO
    ensures s.Leaf(who, q).present && s.Leaf(who, q).user && DataFrame(s, s.Leaf(who, q).frame)
    ensures !s.Leaf(who, q).writable ==> s.Leaf(who, q).cow && s.Leaf(Other(who), q) == s.Leaf(who, q)
  {
    assert LeafOk(s, who, q) && SharedOk(s, who, q);
  }

  /** An 8-byte aligned access of one of the two processes in user mode. */
  datatype Op = Load(who: Who, page: Path, word: Index) | Save(who: Who, page: Path, word: Index, value: Word)

  /** The access at virtual address 0, which the fault handler answers by halting. */
  predicate IsNull(op: Op) {
    op.page == Step(0, Step(0, Step(0, Step(0, End)))) && op.word == 0
  }

  /** What the page-fault handler leads to; Halted is its endless loop. */
  datatype Handled = Resumed(s: Pair) | Halted

  /** A free frame is there each time the handling of a fault asks for one. */
  predicate FaultFits(s: Pair, op: Op) {
    UserPage(op.page) &&
    match UserWalk(s.vm.mem, s.Root(op.who), op.page, op.Save?)
    case Granted(_) => true
    case PageFault(code) =>
      if code == 7 then |s.vm.free| > 0 else 1 + Missing(s.vm.mem, s.Root(op.who), op.page) <= |s.vm.free|
  }

  /** `int_pgflt_srv` on a user-mode fault; partner tells whether `handle_COW` finds the other process. */
  function PageFaultHandler(s: Pair, op: Op, code: nat, partner: bool): Handled
    requires CowInv(s) && FaultFits(s, op) && UserWalk(s.vm.mem, s.Root(op.who), op.page, op.Save?) == PageFault(code)
  {
    if IsNull(op) then Halted
    else if code == 7 then
      assert s.Leaf(op.who, op.page) != ZERO && !s.Leaf(op.who, op.page).writable by { WriteFault(s, op, code); }
      UsedLeaf(s, op.who, op.page);
      Resumed(HandleCow(s, op.who, op.page, partner))
    else if code == 4 || code == 6 then Resumed(Demand(s, op.who, op.page))
    else Halted
  }

  lemma WriteFault(s: Pair, op: Op, code: nat)
    requires CowInv(s) && UserPage(op.page)
    requires UserWalk(s.vm.mem, s.Root(op.who), op.page, op.Save?) == PageFault(code)
    ensures code == if s.Leaf(op.who, op.page) != ZERO then 7 else if op.Save? then 6 else 4
    ensures code == 7 ==> op.Save? && !s.Leaf(op.who, op.page).writable
  {
    UserWalkEntry(s.vm.mem, s.Root(op.who), op.page, 4, UserSlots(), op.Save?);
    assert LeafOk(s, op.who, op.page);
    assert Sound(s.vm, s.Root(op.who), 4, UserSlots()) by { Linked2Parts(s, op.who); }
  }

  lemma HandlerResumes(s: Pair, op: Op, code: nat)
    requires CowInv(s) && FaultFits(s, op) && !IsNull(op)
    requires UserWalk(s.vm.mem, s.Root(op.who), op.page, op.Save?) == PageFault(code)
    ensures PageFaultHandler(s, op, code, true).Resumed?
    ensures var s' := PageFaultHandler(s, op, code, true).s;
      && CowInv(s') && s'.Leaf(op.who, op.page) != ZERO && s'.Leaf(op.who, op.page).writable
      && Seen(s', Other(op.who)) == Seen(s, Other(op.who))
      && Seen(s', op.who) == (if code == 7 then Seen(s, op.who) else Seen(s, op.who)[op.page := ZeroPage()])
      && (code == 7 <==> s.Leaf(op.who, op.page) != ZERO)
  {
    WriteFault(s, op, code);
    var s', who, q := PageFaultHandler(s, op, code, true).s, op.who, op.page;
    if code == 7 {
      UsedLeaf(s, who, q);
      HandleCowSplits(s, who, q);
      SplitInv(s, s', who, q);
      SplitSeen(s, s', who, q);
    } else {
      DemandEffect(s, who, q);
      DemandInv(s, s', who, q, s.vm.free[0]);
      DemandSeen(s, s', who, q, s.vm.free[0]);
    }
  }

  datatype Result = Completed(s: Pair, out: Word) | Hangs | FaultsForever

  /** The access itself, on the frame it was granted. */
  function Perform(s: Pair, op: Op, f: Frame): Result {
    match op
    case Load(_, _, i) => Completed(s, s.vm.mem[f][i])
    case Save(_, _, i, w) => Completed(SetPage(s, f, s.vm.mem[f][i := w]), w)
  }

  /** An access, its fault if there is one, and the access again. */
  function Execute(s: Pair, op: Op, partner: bool): Result
    requires CowInv(s) && FaultFits(s, op)
  {
    match UserWalk(s.vm.mem, s.Root(op.who), op.page, op.Save?)
    case Granted(f) => Perform(s, op, f)
    case PageFault(code) =>
      match PageFaultHandler(s, op, code, partner)
      case Halted => Hangs
      case Resumed(s1) =>
        match UserWalk(s1.vm.mem, s1.Root(op.who), op.page, op.Save?)
        case Granted(f) => Perform(s1, op, f)
        case PageFault(_) => FaultsForever
  }

  /** Two separate memories: what parent and child have after a fork that copies every page. */
  datatype Eager = Eager(parent: Space, child: Space) {
    function Of(who: Who): Space { if who == Parent then parent else child }

    function With(who: Who, q: Path, page: Page): Eager {
      if who == Parent then Eager(parent[q := page], child) else Eager(parent, child[q := page])
    }

    /** A page that was never used reads as zeros. */
    function At(who: Who, q: Path): Page { if q in Of(who) then Of(who)[q] else ZeroPage() }

    function Step(op: Op): (Eager, Word) {
      var page := At(op.who, op.page);
      match op
      case Load(who, q, i) => (With(who, q, page), page[i])
      case Save(who, q, i, w) => (With(who, q, page[i := w]), w)
    }
  }

  ghost function View(s: Pair): Eager { Eager(Seen(s, Parent), Seen(s, Child)) }

  lemma PerformLoad(s: Pair, op: Op)
    requires LeavesOk(s) && UserPage(op.page) && s.Leaf(op.who, op.page) != ZERO && op.Load?
    ensures var r := Perform(s, op, s.Leaf(op.who, op.page).frame);
      r.s == s && View(s).Step(op) == (View(s), r.out)
  {
    var who, q, f := op.who, op.page, s.Leaf(op.who, op.page).frame;
    assert View(s).At(who, q) == s.vm.mem[f];
    assert Seen(s, who)[q := s.vm.mem[f]] == Seen(s, who);
  }

  lemma PerformSave(s: Pair, op: Op)
    requires CowInv(s) && UserPage(op.page) && s.Leaf(op.who, op.page) != ZERO && op.Save?
    requires s.Leaf(op.who, op.page).writable
    ensures var r := Perform(s, op, s.Leaf(op.who, op.page).frame);
      CowInv(r.s) && View(s).Step(op) == (View(r.s), r.out)
  {
    var who, q, f := op.who, op.page, s.Leaf(op.who, op.page).frame;
    assert View(s).At(who, q) == s.vm.mem[f];
    hide UserPage, CowInv, UserWalk;
    WriteSeen(s, who, q, s.vm.mem[f][op.word := op.value]);
  }

  /** A usable leaf grants the access. */
  lemma UsableLeaf(s: Pair, op: Op)
    requires CowInv(s) && UserPage(op.page) && s.Leaf(op.who, op.page) != ZERO
    requires op.Save? ==> s.Leaf(op.who, op.page).writable
    ensures UserWalk(s.vm.mem, s.Root(op.who), op.page, op.Save?) == Granted(s.Leaf(op.who, op.page).frame)
  {
    CowParts(s);
    Linked2Parts(s, op.who);
    UsedLeaf(s, op.who, op.page);
    UserWalkEntry(s.vm.mem, s.Root(op.who), op.page, 4, UserSlots(), op.Save?);
  }

  /** With a usable leaf in place the access does to the views what it does to separate memories. */
  lemma PerformRefines(s: Pair, op: Op)
    requires CowInv(s) && UserPage(op.page) && s.Leaf(op.who, op.page) != ZERO
    requires op.Save? ==> s.Leaf(op.who, op.page).writable
    ensures UserWalk(s.vm.mem, s.Root(op.who), op.page, op.Save?) == Granted(s.Leaf(op.who, op.page).frame)
    ensures var r := Perform(s, op, s.Leaf(op.who, op.page).frame);
      CowInv(r.s) && View(s).Step(op) == (View(r.s), r.out)
  {
    hide *;
    CowParts(s);
    UsableLeaf(s, op);
    if op.Save? {
      PerformSave(s, op);
    } else {
      PerformLoad(s, op);
    }
  }

  /** An access that only splitting a shared page can serve. */
  predicate NeedsPartner(s: Pair, op: Op) {
    op.Save? && s.Leaf(op.who, op.page) != ZERO && !s.Leaf(op.who, op.page).writable
  }

  /** Fault code 7 is raised exactly by these accesses. */
  lemma NeedsPartnerIs(s: Pair, op: Op)
    requires CowInv(s) && UserPage(op.page)
    ensures NeedsPartner(s, op) <==> UserWalk(s.vm.mem, s.Root(op.who), op.page, op.Save?) == PageFault(7)
  {
    CowParts(s);
    Linked2Parts(s, op.who);
    UserWalkEntry(s.vm.mem, s.Root(op.who), op.page, 4, UserSlots(), op.Save?);
    if s.Leaf(op.who, op.page) != ZERO { UsedLeaf(s, op.who, op.page); }
  }

  /** One access, with whatever fault it takes, is one step of the separate memories. */
  lemma ExecuteRefines(s: Pair, op: Op, partner: bool)
    requires CowInv(s) && FaultFits(s, op) && !IsNull(op) && (NeedsPartner(s, op) ==> partner)
    ensures var r := Execute(s, op, partner);
      r.Completed? && CowInv(r.s) && View(s).Step(op) == (View(r.s), r.out)
  {
    hide *;
    FitsUser(s, op);
    NeedsPartnerIs(s, op);
    match UserWalk(s.vm.mem, s.Root(op.who), op.page, op.Save?)
    case Granted(f) =>
      GrantedLeaf(s, op, f);
      PerformRefines(s, op);
      Performs(s, op, f);
      ExecuteGranted(s, op, partner, f);
    case PageFault(code) =>
      HandlerResumes(s, op, code);
      HandlerPartner(s, op, code, partner);
      var s1 := PageFaultHandler(s, op, code, true).s;
      PerformRefines(s1, op);
      StepAfterFault(s, s1, op, code);
      Performs(s1, op, s1.Leaf(op.who, op.page).frame);
      ExecuteFault(s, op, partner, code, s1, s1.Leaf(op.who, op.page).frame);
  }

  lemma FitsUser(s: Pair, op: Op)
    requires FaultFits(s, op)
    ensures UserPage(op.page)
  {
  }

  lemma Performs(s: Pair, op: Op, f: Frame)
    ensures Perform(s, op, f).Completed?
  {
  }

  lemma ExecuteGranted(s: Pair, op: Op, partner: bool, f: Frame)
    requires CowInv(s) && FaultFits(s, op) && UserWalk(s.vm.mem, s.Root(op.who), op.page, op.Save?) == Granted(f)
    ensures Execute(s, op, partner) == Perform(s, op, f)
  {
    hide CowInv, FaultFits, Perform;
  }

  lemma ExecuteFault(s: Pair, op: Op, partner: bool, code: nat, s1: Pair, f: Frame)
    requires CowInv(s) && FaultFits(s, op) && UserWalk(s.vm.mem, s.Root(op.who), op.page, op.Save?) == PageFault(code)
    requires PageFaultHandler(s, op, code, partner) == Resumed(s1)
    requires UserWalk(s1.vm.mem, s1.Root(op.who), op.page, op.Save?) == Granted(f)
    ensures Execute(s, op, partner) == Perform(s1, op, f)
  {
    hide CowInv, FaultFits, Perform, PageFaultHandler;
  }

  /** The partner matters for code 7 alone. */
  lemma HandlerPartner(s: Pair, op: Op, code: nat, partner: bool)
    requires CowInv(s) && FaultFits(s, op) && UserWalk(s.vm.mem, s.Root(op.who), op.page, op.Save?) == PageFault(code)
    requires code == 7 ==> partner
    ensures PageFaultHandler(s, op, code, partner) == PageFaultHandler(s, op, code, true)
  {
    hide CowInv, FaultFits;
  }

  /**
   * An access completes if and only if it does not need the partner or the partner is found;
   * otherwise it faults over and over.
   */
  lemma CompletesIff(s: Pair, op: Op, partner: bool)
    requires CowInv(s) && FaultFits(s, op) && !IsNull(op)
    ensures Execute(s, op, partner).Completed? <==> (NeedsPartner(s, op) ==> partner)
    ensures NeedsPartner(s, op) && !partner ==> Execute(s, op, partner) == FaultsForever
  {
    NeedsPartnerIs(s, op);
    if NeedsPartner(s, op) && !partner {
      UsedLeaf(s, op.who, op.page);
      HandleCowResolves(s, op.who, op.page, false);
    } else {
      ExecuteRefines(s, op, partner);
    }
  }

  lemma GrantedLeaf(s: Pair, op: Op, f: Frame)
    requires CowInv(s) && UserPage(op.page) && UserWalk(s.vm.mem, s.Root(op.who), op.page, op.Save?) == Granted(f)
    ensures s.Leaf(op.who, op.page) != ZERO && s.Leaf(op.who, op.page).frame == f
    ensures op.Save? ==> s.Leaf(op.who, op.page).writable
  {
    Linked2Parts(s, op.who);
    UserWalkEntry(s.vm.mem, s.Root(op.who), op.page, 4, UserSlots(), op.Save?);
  }

  /** Giving a page its zeros beforehand makes no difference to the step. */
  lemma ZerosFirst(a: Eager, b: Eager, op: Op)
    requires b.Of(Other(op.who)) == a.Of(Other(op.who)) && op.page !in a.Of(op.who)
    requires b.Of(op.who) == a.Of(op.who)[op.page := ZeroPage()]
    ensures b.Step(op) == a.Step(op)
  {
    var page := if op.Save? then ZeroPage()[op.word := op.value] else ZeroPage();
    assert a.Of(op.who)[op.page := page] == b.Of(op.who)[op.page := page];
  }

  /** The step of the separate memories is the same from either side of the fault. */
  lemma StepAfterFault(s: Pair, s1: Pair, op: Op, code: nat)
    requires UserPage(op.page) && (code == 7 <==> s.Leaf(op.who, op.page) != ZERO)
    requires Seen(s1, Other(op.who)) == Seen(s, Other(op.who))
    requires Seen(s1, op.who) == (if code == 7 then Seen(s, op.who) else Seen(s, op.who)[op.page := ZeroPage()])
    ensures View(s1).Step(op) == View(s).Step(op)
  {
    if code != 7 {
      assert op.page !in Seen(s, op.who);
      ZerosFirst(View(s), View(s1), op);
    }
  }

  lemma FitsParts(s: Pair, op: Op)
    requires FaultFits(s, op)
    ensures UserPage(op.page)
  {
  }

  lemma {:induction false} UnderLength(q: Path, n: Level, top: set<Index>)
    requires Under(q, n, top)
    ensures q.Len() == n
    decreases q
  {
    if n > 1 { UnderLength(q.rest, n - 1, top); }
  }

  /** Handling a fault takes at most the page's frame and the three tables on the way to it. */
  lemma HandlerFrames(s: Pair, op: Op, code: nat)
    requires CowInv(s) && FaultFits(s, op) && !IsNull(op)
    requires UserWalk(s.vm.mem, s.Root(op.who), op.page, op.Save?) == PageFault(code)
    ensures PageFaultHandler(s, op, code, true).Resumed?
    ensures |PageFaultHandler(s, op, code, true).s.vm.free| + 4 >= |s.vm.free|
  {
    hide *;
    FitsParts(s, op);
    HandlerResumes(s, op, code);
    WriteFault(s, op, code);
    CowParts(s);
    if code == 7 {
      UsedLeaf(s, op.who, op.page);
      HandlerSplits(s, op);
      HandleCowFrames(s, op.who, op.page);
    } else {
      HandlerDemands(s, op, code);
      DemandFrames(s, op.who, op.page);
    }
  }

  lemma HandlerSplits(s: Pair, op: Op)
    requires CowInv(s) && FaultFits(s, op) && !IsNull(op)
    requires UserWalk(s.vm.mem, s.Root(op.who), op.page, op.Save?) == PageFault(7)
    requires s.Leaf(op.who, op.page) != ZERO && !s.Leaf(op.who, op.page).writable
    ensures UserPage(op.page) && |s.vm.free| > 0
    ensures s.Leaf(Other(op.who), op.page) != ZERO && DataFrame(s, s.Leaf(op.who, op.page).frame)
    ensures PageFaultHandler(s, op, 7, true) == Resumed(HandleCow(s, op.who, op.page, true))
  {
    UsedLeaf(s, op.who, op.page);
  }

  lemma HandlerDemands(s: Pair, op: Op, code: nat)
    requires CowInv(s) && FaultFits(s, op) && !IsNull(op) && code in {4, 6}
    requires UserWalk(s.vm.mem, s.Root(op.who), op.page, op.Save?) == PageFault(code)
    ensures UserPage(op.page) && 1 + Missing(s.vm.mem, s.Root(op.who), op.page) <= |s.vm.free|
    ensures PageFaultHandler(s, op, code, true) == Resumed(Demand(s, op.who, op.page))
  {
  }

  lemma {:induction false} MappedFrames(v: Vm, t: Frame, p: Path, leaf: Word)
    requires p.Step? && Missing(v.mem, t, p) <= |v.free|
    ensures |Mapped(v, t, p, leaf).free| + p.Len() > |v.free|
    decreases p
  {
    if p.rest.Step? {
      if v.mem[t][p.idx] == ZERO {
        MappedFrames(Created(v, t, p.idx), v.free[0], p.rest, leaf);
      } else {
        MappedFrames(v, v.mem[t][p.idx].frame, p.rest, leaf);
      }
    }
  }

  lemma {:induction false} MappedNoFrames(v: Vm, t: Frame, p: Path, leaf: Word)
    requires p.Step? && Missing(v.mem, t, p) == 0
    ensures Mapped(v, t, p, leaf).free == v.free
    decreases p
  {
    if p.rest.Step? { MappedNoFrames(v, v.mem[t][p.idx].frame, p.rest, leaf); }
  }

  lemma DemandFrames(s: Pair, who: Who, q: Path)
    requires UserPage(q) && 1 + Missing(s.vm.mem, s.Root(who), q) <= |s.vm.free|
    ensures |Demand(s, who, q).vm.free| + 4 >= |s.vm.free|
  {
    UnderLength(q, 4, UserSlots());
    MappedFrames(TakeFrame(s).vm, s.Root(who), q, UserLeaf(s.vm.free[0]));
  }

  lemma HandleCowFrames(s: Pair, who: Who, q: Path)
    requires UserPage(q) && |s.vm.free| > 0 && Linked2(s)
    requires s.Leaf(who, q) != ZERO && s.Leaf(Other(who), q) != ZERO && DataFrame(s, s.Leaf(who, q).frame)
    ensures HandleCow(s, who, q, true).vm.free == s.vm.free[1..]
  {
    UsedNotMissing(s.vm.mem, s.Root(who), q);
    OwnCopyEffect(s, who, q);
    var s1 := OwnCopy(s, who, q);
    assert Other(who) != who && s1.Leaf(Other(who), q) == s.Leaf(Other(who), q);
    CrossOffEffect(s1, who, q);
    hide Linked2, DataFrame, OnlyLeaf, DataKept;
    MappedNoFrames(TakeFrame(s).vm, s.Root(who), q, UserLeaf(s.vm.free[0]));
    MappedNoFrames(s1.vm, s.Root(Other(who)), q, Crossed(s1.Leaf(Other(who), q)));
  }

  /** One access takes at most four frames. */
  lemma ExecuteFrames(s: Pair, op: Op)
    requires CowInv(s) && UserPage(op.page) && !IsNull(op) && |s.vm.free| >= 4
    ensures FaultFits(s, op) && Execute(s, op, true).Completed?
    ensures |Execute(s, op, true).s.vm.free| + 4 >= |s.vm.free|
  {
    hide *;
    FourFit(s, op);
    ExecuteRefines(s, op, true);
    if UserWalk(s.vm.mem, s.Root(op.who), op.page, op.Save?).PageFault? {
      var code := UserWalk(s.vm.mem, s.Root(op.who), op.page, op.Save?).code;
      HandlerFrames(s, op, code);
    }
    ExecuteFree(s, op);
  }

  /** The access itself takes no frame. */
  lemma ExecuteFree(s: Pair, op: Op)
    requires CowInv(s) && FaultFits(s, op) && Execute(s, op, true).Completed?
    ensures Execute(s, op, true).s.vm.free ==
      match UserWalk(s.vm.mem, s.Root(op.who), op.page, op.Save?)
      case Granted(_) => s.vm.free
      case PageFault(code) => PageFaultHandler(s, op, code, true).s.vm.free
  {
    hide CowInv, FaultFits, UserWalk, PageFaultHandler;
  }

  lemma FourFit(s: Pair, op: Op)
    requires UserPage(op.page) && |s.vm.free| >= 4
    ensures FaultFits(s, op)
  {
    UnderLength(op.page, 4, UserSlots());
  }

  /**
   * The words that the accesses of a run deliver; nothing further once one does not complete or
   * finds no free frame.
   */
  ghost function Outputs(s: Pair, ops: seq<Op>): seq<Word>
    decreases |ops|
  {
    if ops == [] || !CowInv(s) || !FaultFits(s, ops[0]) || !Execute(s, ops[0], true).Completed? then []
    else [Execute(s, ops[0], true).out] + Outputs(Execute(s, ops[0], true).s, ops[1..])
  }

  /** Accesses to pages of the process other than the one at address 0. */
  predicate Proper(ops: seq<Op>) { forall i | 0 <= i < |ops| :: UserPage(ops[i].page) && !IsNull(ops[i]) }

  function EagerOutputs(e: Eager, ops: seq<Op>): seq<Word>
    decreases |ops|
  {
    if ops == [] then [] else [e.Step(ops[0]).1] + EagerOutputs(e.Step(ops[0]).0, ops[1..])
  }

  lemma ProperParts(ops: seq<Op>)
    requires Proper(ops) && ops != []
    ensures UserPage(ops[0].page) && !IsNull(ops[0]) && Proper(ops[1..])
  {
  }

  lemma OutputsStep(s: Pair, ops: seq<Op>)
    ensures ops == [] ==> Outputs(s, ops) == []
    ensures ops != [] && CowInv(s) && FaultFits(s, ops[0]) && Execute(s, ops[0], true).Completed? ==>
      Outputs(s, ops) == [Execute(s, ops[0], true).out] + Outputs(Execute(s, ops[0], true).s, ops[1..])
    ensures ops == [] ==> forall e :: EagerOutputs(e, ops) == []
    ensures ops != [] ==>
      forall e :: EagerOutputs(e, ops) == [e.Step(ops[0]).1] + EagerOutputs(e.Step(ops[0]).0, ops[1..])
  {
    hide CowInv, FaultFits, Execute, Eager.Step;
  }

  /**
   * Copy-on-write refines eager copying: for every interleaving of accesses by parent and child,
   * each access delivers what it delivers when fork copies every page, while four frames an access
   * are free and each process is found by the other.
   */
  lemma {:induction false} CowRefinesEagerCopy(s: Pair, ops: seq<Op>)
    requires CowInv(s) && Proper(ops) && 4 * |ops| <= |s.vm.free|
    ensures Outputs(s, ops) == EagerOutputs(View(s), ops)
    decreases |ops|
  {
    hide *;
    if ops != [] {
      ProperParts(ops);
      ExecuteFrames(s, ops[0]);
      ExecuteRefines(s, ops[0], true);
      CowRefinesEagerCopy(Execute(s, ops[0], true).s, ops[1..]);
    }
    OutputsStep(s, ops);
  }

  /** The access at address 0 halts the machine exactly when it faults, be the page mapped or not. */
  lemma NullHangs(s: Pair, op: Op, partner: bool)
    requires CowInv(s) && FaultFits(s, op) && IsNull(op)
    ensures Execute(s, op, partner) == Hangs <==>
      s.Leaf(op.who, op.page) == ZERO || (op.Save? && !s.Leaf(op.who, op.page).writable)
    ensures Execute(s, op, partner) != FaultsForever
  {
    Linked2Parts(s, op.who);
    UserWalkEntry(s.vm.mem, s.Root(op.who), op.page, 4, UserSlots(), op.Save?);
    assert LeafOk(s, op.who, op.page);
  }

  /**
   * `handle_COW` lets the faulting write succeed exactly when the partner was found: without
   * one, only the partner's entry is changed and the write faults again with the same code.
   */
  lemma HandleCowResolves(s: Pair, who: Who, q: Path, partner: bool)
    requires CowInv(s) && UserPage(q) && |s.vm.free| > 0 && s.Leaf(who, q) != ZERO && !s.Leaf(who, q).writable
    requires s.Leaf(Other(who), q) != ZERO && DataFrame(s, s.Leaf(who, q).frame)
    ensures var again := UserWalk(HandleCow(s, who, q, partner).vm.mem, s.Root(who), q, true);
      && (partner <==> again.Granted?)
      && (!partner ==> again == PageFault(7))
  {
    var s' := HandleCow(s, who, q, partner);
    UsedLeaf(s, who, q);
    CrossOffEffect(s, who, q);
    if partner {
      HandleCowSplits(s, who, q);
    } else {
      assert Other(who) != who && s'.Leaf(who, q) == s.Leaf(who, q);
    }
    assert Linked2(s');
    Linked2Parts(s', who);
    UserWalkEntry(s'.vm.mem, s'.Root(who), q, 4, UserSlots(), true);
  }

  /**
   * In either case the other process gets write access to the frame that was shared; where no
   * partner was found, that is all that happens.
   */
  lemma HandleCowOpens(s: Pair, who: Who, q: Path, partner: bool)
    requires UserPage(q) && |s.vm.free| > 0 && Linked2(s)
    requires s.Leaf(who, q) != ZERO && s.Leaf(Other(who), q) != ZERO && DataFrame(s, s.Leaf(who, q).frame)
    ensures var s', other := HandleCow(s, who, q, partner), Other(who);
      && s'.Leaf(other, q) == s.Leaf(other, q).(cow := false, writable := true)
      && (!partner ==> OnlyLeaf(s, s', other, q) && DataKept(s, s') && s'.vm.free == s.vm.free)
  {
    hide HandleCow, OwnCopy, CrossOff, DataFrame, Linked2, UserPage;
    CrossOffEffect(s, who, q);
    if partner {
      HandleCowSplits(s, who, q);
    } else {
      HandleCowAlone(s, who, q);
      CrossOffFree(s, who, q);
    }
  }

  /** So a write of the other process then goes to the shared frame, and both see it. */
  lemma PartnerlessLeaks(s: Pair, who: Who, q: Path, i: Index, w: Word)
    requires CowInv(s) && UserPage(q) && |s.vm.free| > 0 && s.Leaf(who, q) != ZERO && !s.Leaf(who, q).writable
    requires s.Leaf(Other(who), q) != ZERO && DataFrame(s, s.Leaf(who, q).frame)
    ensures var s', f, other := HandleCow(s, who, q, false), s.Leaf(who, q).frame, Other(who);
      && UserWalk(s'.vm.mem, s'.Root(other), q, true) == Granted(f)
      && var s2 := SetPage(s', f, s.vm.mem[f][i := w]);
      && Perform(s', Save(other, q, i, w), f) == Completed(s2, w)
      && q in Seen(s2, who) && Seen(s2, who)[q] == s.vm.mem[f][i := w]
      && q in Seen(s2, other) && Seen(s2, other)[q] == s.vm.mem[f][i := w]
  {
    var s', other, f := HandleCow(s, who, q, false), Other(who), s.Leaf(who, q).frame;
    hide *;
    Opened(s, who, q);
    var page := s.vm.mem[f][i := w];
    var s2 := SetPage(s', f, page);
    SetPageOk(s', f, page);
    PageSet(s', f, page);
    SavePerforms(s', other, q, i, w, f);
    SeenAt(s2, who, q);
    SeenAt(s2, other, q);
  }

  /** Both leaves lead to the shared frame, and the other one is open for writing. */
  lemma Opened(s: Pair, who: Who, q: Path)
    requires CowInv(s) && UserPage(q) && |s.vm.free| > 0 && s.Leaf(who, q) != ZERO && !s.Leaf(who, q).writable
    requires s.Leaf(Other(who), q) != ZERO && DataFrame(s, s.Leaf(who, q).frame)
    ensures var s', f, other := HandleCow(s, who, q, false), s.Leaf(who, q).frame, Other(who);
      && UserWalk(s'.vm.mem, s'.Root(other), q, true) == Granted(f) && Linked2(s') && DataFrame(s', f)
      && s'.Leaf(who, q) != ZERO && s'.Leaf(who, q).frame == f && s'.vm.mem[f] == s.vm.mem[f]
      && s'.Leaf(other, q) != ZERO && s'.Leaf(other, q).frame == f
  {
    var s', other, f := HandleCow(s, who, q, false), Other(who), s.Leaf(who, q).frame;
    hide *;
    CowParts(s);
    UsedLeaf(s, who, q);
    HandleCowOpens(s, who, q, false);
    CrossOffEffect(s, who, q);
    HandleCowAlone(s, who, q);
    OpenedLeaf(s, s', who, q);
    OpenedWalk(s', other, q);
    DataKeptAt(s, s', f);
  }

  lemma OthersAre(who: Who)
    ensures Other(who) != who
  {
  }

  lemma OpenedLeaf(s: Pair, s': Pair, who: Who, q: Path)
    requires CowInv(s) && UserPage(q) && s.Leaf(who, q) != ZERO && !s.Leaf(who, q).writable
    requires OnlyLeaf(s, s', Other(who), q)
    requires s'.Leaf(Other(who), q) == s.Leaf(Other(who), q).(cow := false, writable := true)
    ensures s'.Leaf(who, q) == s.Leaf(who, q)
    ensures var e := s'.Leaf(Other(who), q); e != ZERO && e.present && e.user && e.writable && e.frame == s.Leaf(who, q).frame
  {
    OthersAre(who);
    assert SharedOk(s, who, q) && LeafOk(s, who, q);
  }

  lemma OpenedWalk(s: Pair, who: Who, q: Path)
    requires Linked2(s) && UserPage(q) && s.Leaf(who, q).present && s.Leaf(who, q).user && s.Leaf(who, q).writable
    ensures UserWalk(s.vm.mem, s.Root(who), q, true) == Granted(s.Leaf(who, q).frame)
  {
    Linked2Parts(s, who);
    UserWalkEntry(s.vm.mem, s.Root(who), q, 4, UserSlots(), true);
  }

  lemma DataKeptAt(s: Pair, s': Pair, f: Frame)
    requires DataKept(s, s') && DataFrame(s, f)
    ensures DataFrame(s', f) && s'.vm.mem[f] == s.vm.mem[f]
  {
  }

  lemma SavePerforms(s: Pair, who: Who, q: Path, i: Index, w: Word, f: Frame)
    ensures Perform(s, Save(who, q, i, w), f) == Completed(SetPage(s, f, s.vm.mem[f][i := w]), w)
  {
  }

  lemma SeenAt(s: Pair, who: Who, q: Path)
    requires UserPage(q) && s.Leaf(who, q) != ZERO
    ensures q in Seen(s, who) && Seen(s, who)[q] == s.vm.mem[s.Leaf(who, q).frame]
  {
  }

  lemma PageSet(s: Pair, f: Frame, page: Page)
    ensures SetPage(s, f, page).vm.mem[f] == page
  {
  }

  lemma CrossOffFree(s: Pair, who: Who, q: Path)
    requires UserPage(q) && Missing(s.vm.mem, s.Root(Other(who)), q) == 0
    ensures CrossOff(s, who, q).vm.free == s.vm.free
  {
    MappedNoFrames(s.vm, s.Root(Other(who)), q, Crossed(s.Leaf(Other(who), q)));
  }
}
