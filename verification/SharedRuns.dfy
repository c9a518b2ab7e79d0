/**
 * The kernel's half over runs of the pair: accesses to the processes' own pages leave its tables and
 * its entries as they are.
 */
module SharedRuns {
  import opened Sequences
  import opened Words
  import opened PageTables
  import opened Hardware
  import opened Mapping
  import opened Fork
  import opened CopyOnWrite
  import opened AddressSpaces
  import opened KernelHalf

  /** The two trees with the kernel's tables beside them. */
  ghost predicate Beside(s: Pair) { Linked2(s) && HalfOk(s) && HalfApart(s, Parent) && HalfApart(s, Child) }

  /** The kernel's half is the same: its table, the tables below it and all its entries. */
  ghost predicate SameHalf(s: Pair, s': Pair) {
    && Half(s') == Half(s) && HalfTables(s') == HalfTables(s)
    && forall r | Under(r, 3, AllSlots()) :: HalfLeaf(s', r) == HalfLeaf(s, r)
  }

  lemma BesideParts(s: Pair, who: Who)
    ensures Beside(s) <==> Linked2(s) && HalfOk(s) && HalfApart(s, who) && HalfApart(s, Other(who))
  {
  }

  lemma SharedBeside(s: Pair)
    ensures SharedHalf(s) <==> CowInv(s) && Beside(s)
  {
  }

  lemma SameTwice(s: Pair, s1: Pair, s2: Pair)
    requires SameHalf(s, s1) && SameHalf(s1, s2)
    ensures SameHalf(s, s2)
  {
    hide HalfTables, Half, HalfLeaf;
  }

  /** Memory that is changed off the kernel's tables, with its roots still leading to them. */
  lemma HalfStays(s: Pair, s': Pair, frames: iset<Frame>)
    requires Beside(s) && Linked2(s') && s'.parent == s.parent && s'.child == s.child
    requires Changed(s.vm.mem, s'.vm.mem, frames) && frames !! HalfTables(s) && Frames(s'.vm.free) <= Frames(s.vm.free)
    requires s'.vm.mem[s.parent][511] == s.vm.mem[s.parent][511]
    ensures SameHalf(s, s') && HalfOk(s')
  {
    var half := Half(s);
    assert Agree(s.vm.mem, s'.vm.mem, HalfTables(s));
    AgreeReach(s.vm.mem, s'.vm.mem, half, 3, AllSlots());
    forall r | Under(r, 3, AllSlots()) ensures HalfLeaf(s', r) == HalfLeaf(s, r) && KernelKind(HalfLeaf(s', r)) {
      AgreeEntry(s.vm.mem, s'.vm.mem, half, r, 3, AllSlots());
      assert KernelKind(HalfLeaf(s, r));
    }
    Linked2Parts(s', Parent);
    SideParts(s', Parent);
  }

  /** A leaf on a frame that is none of the kernel's tables. */
  lemma WithLeafBeside(s: Pair, who: Who, q: Path, leaf: Word)
    requires Beside(s) && UserPage(q) && q.Step? && Missing(s.vm.mem, s.Root(who), q) <= |s.vm.free|
    requires leaf.frame !in HalfTables(s)
    ensures Beside(WithLeaf(s, who, q, leaf)) && SameHalf(s, WithLeaf(s, who, q, leaf))
  {
    hide *;
    var s', k, o := WithLeaf(s, who, q, leaf), Missing(s.vm.mem, s.Root(who), q), Other(who);
    BesideParts(s, who);
    Linked2Parts(s, who);
    SideParts(s, who);
    SideParts(s, o);
    WithLeafRoots(s, who, q, leaf);
    WithLeafLinked(s, who, q, leaf);
    WithLeafOnly(s, who, q, leaf);
    WithLeafGrows(s, who, q, leaf, s', k);
    OtherTree(s, s', who, k);
    FreeSplit(s.vm.free, k);
    HalfOffFree(s);
    ApartFrom(s, who);
    ApartFrom(s, o);
    RootSlotKept(s, s', who);
    HalfStays(s, s', s.Tables(who) + Frames(s.vm.free[..k]));
    ApartStays(s, s', who, who, q, leaf, Frames(s.vm.free[..k]));
    ApartStays(s, s', o, who, q, leaf, iset{});
    BesideParts(s', who);
  }

  lemma HalfOffFree(s: Pair)
    requires HalfOk(s)
    ensures HalfTables(s) !! Frames(s.vm.free)
  {
  }

  lemma ApartFrom(s: Pair, who: Who)
    requires HalfApart(s, who)
    ensures s.Tables(who) !! HalfTables(s)
  {
  }

  lemma RootSlotKept(s: Pair, s': Pair, who: Who)
    requires s'.parent == s.parent && s'.child == s.child
    requires forall j: Index | j >= 509 :: s'.vm.mem[s.Root(who)][j] == s.vm.mem[s.Root(who)][j]
    requires s'.vm.mem[s.Root(Other(who))] == s.vm.mem[s.Root(Other(who))]
    ensures s'.vm.mem[s.parent][511] == s.vm.mem[s.parent][511]
    ensures forall one :: s'.vm.mem[s.Root(one)][511] == s.vm.mem[s.Root(one)][511] && s'.Root(one) == s.Root(one)
  {
    forall one ensures s'.vm.mem[s.Root(one)][511] == s.vm.mem[s.Root(one)][511] && s'.Root(one) == s.Root(one) {
      if one != who { assert one == Other(who); }
    }
    assert s.parent == s.Root(Parent);
  }

  lemma ApartStays(s: Pair, s': Pair, one: Who, who: Who, q: Path, leaf: Word, more: iset<Frame>)
    requires HalfApart(s, one) && SameHalf(s, s') && OnlyLeaf(s, s', who, q) && s'.Leaf(who, q) == leaf
    requires leaf.frame !in HalfTables(s) && s'.Tables(one) == s.Tables(one) + more && more !! HalfTables(s)
    requires s'.vm.mem[s.Root(one)][511] == s.vm.mem[s.Root(one)][511] && s'.Root(one) == s.Root(one)
    ensures HalfApart(s', one)
  {
    hide Half, HalfTables, Pair.Leaf, Pair.Tables, UserPage;
    forall q' | UserPage(q') && s'.Leaf(one, q') != ZERO ensures s'.Leaf(one, q').frame !in HalfTables(s') {
      if one != who || q' != q { assert s'.Leaf(one, q') == s.Leaf(one, q'); }
    }
  }

  lemma TakeFrameBeside(s: Pair)
    requires Beside(s) && |s.vm.free| > 0
    ensures Beside(TakeFrame(s)) && SameHalf(s, TakeFrame(s)) && s.vm.free[0] !in HalfTables(s)
  {
    assert s.vm.free[0] in Frames(s.vm.free);
    TakeFrameOk(s);
    assert Frames(TakeFrame(s).vm.free) <= Frames(s.vm.free);
    HalfStays(s, TakeFrame(s), iset{});
  }

  /** Writing to a page that is none of the kernel's tables. */
  lemma SetPageBeside(s: Pair, f: Frame, page: Page)
    requires Beside(s) && DataFrame(s, f) && f !in HalfTables(s)
    ensures Beside(SetPage(s, f, page)) && SameHalf(s, SetPage(s, f, page))
  {
    hide *;
    var s' := SetPage(s, f, page);
    BesideParts(s, Parent);
    SetPageOk(s, f, page);
    SetPageFrames(s, f, page);
    OtherSide();
    HalfStays(s, s', iset{f});
    PageApartStays(s, s', f, Parent);
    PageApartStays(s, s', f, Child);
    BesideParts(s', Parent);
  }

  lemma SetPageFrames(s: Pair, f: Frame, page: Page)
    requires Linked2(s) && DataFrame(s, f)
    ensures var s' := SetPage(s, f, page);
      && s'.parent == s.parent && s'.child == s.child && s'.vm.free == s.vm.free && Changed(s.vm.mem, s'.vm.mem, iset{f})
      && s'.vm.mem[s.parent] == s.vm.mem[s.parent] && s'.vm.mem[s.child] == s.vm.mem[s.child]
      && forall who :: s'.Tables(who) == s.Tables(who)
  {
    assert s.Root(Parent) in s.Tables(Parent) && s.Root(Child) in s.Tables(Child);
    forall who ensures SetPage(s, f, page).Tables(who) == s.Tables(who) {
      AgreeReach(s.vm.mem, SetPage(s, f, page).vm.mem, s.Root(who), 4, UserSlots());
    }
  }

  lemma PageApartStays(s: Pair, s': Pair, f: Frame, who: Who)
    requires HalfApart(s, who) && SameHalf(s, s') && s'.parent == s.parent && s'.child == s.child
    requires s'.vm.mem[s.parent] == s.vm.mem[s.parent] && s'.vm.mem[s.child] == s.vm.mem[s.child]
    requires s'.Tables(who) == s.Tables(who) && forall q | UserPage(q) :: s'.Leaf(who, q) == s.Leaf(who, q)
    ensures HalfApart(s', who)
  {
    hide Half, HalfTables, Pair.Leaf, Pair.Tables, UserPage;
  }

  lemma LeafApart(s: Pair, who: Who, q: Path)
    requires Beside(s) && UserPage(q)
    ensures s.Leaf(who, q) != ZERO ==> s.Leaf(who, q).frame !in HalfTables(s) && Crossed(s.Leaf(who, q)).frame !in HalfTables(s)
  {
    BesideParts(s, who);
  }

  lemma LeafFrames(f: Frame, w: Word)
    ensures UserLeaf(f).frame == f && Crossed(w).frame == w.frame
  {
  }

  lemma TakenRoots(s: Pair, who: Who)
    requires |s.vm.free| > 0
    ensures TakeFrame(s).Root(who) == s.Root(who) && TakeFrame(s).vm.mem == s.vm.mem && |TakeFrame(s).vm.free| == |s.vm.free| - 1
  {
  }

  lemma TablesSame(s: Pair, s': Pair)
    requires SameHalf(s, s')
    ensures HalfTables(s') == HalfTables(s)
  {
  }

  /** Demand paging for one of the processes. */
  lemma DemandBeside(s: Pair, who: Who, q: Path)
    requires Beside(s) && UserPage(q) && q.Step? && 1 + Missing(s.vm.mem, s.Root(who), q) <= |s.vm.free|
    ensures Beside(Demand(s, who, q)) && SameHalf(s, Demand(s, who, q))
  {
    hide *;
    var s1, leaf := TakeFrame(s), UserLeaf(s.vm.free[0]);
    TakenRoots(s, who);
    TakeFrameBeside(s);
    TablesSame(s, s1);
    LeafFrames(s.vm.free[0], leaf);
    WithLeafBeside(s1, who, q, leaf);
    UserDemandIs(s, who, q);
    SameTwice(s, s1, Demand(s, who, q));
  }

  lemma UserDemandIs(s: Pair, who: Who, q: Path)
    requires UserPage(q) && q.Step? && 1 + Missing(s.vm.mem, s.Root(who), q) <= |s.vm.free|
    requires Missing(TakeFrame(s).vm.mem, TakeFrame(s).Root(who), q) <= |TakeFrame(s).vm.free|
    ensures Demand(s, who, q) == WithLeaf(TakeFrame(s), who, q, UserLeaf(s.vm.free[0]))
  {
  }

  /** The copy of a shared page. */
  lemma OwnCopyBeside(s: Pair, who: Who, q: Path)
    requires Beside(s) && UserPage(q) && q.Step? && |s.vm.free| > 0 && Missing(s.vm.mem, s.Root(who), q) == 0
    ensures Beside(OwnCopy(s, who, q)) && SameHalf(s, OwnCopy(s, who, q))
  {
    hide *;
    var s1, f := Demand(s, who, q), s.vm.free[0];
    DemandBeside(s, who, q);
    TakeFrameBeside(s);
    TablesSame(s, s1);
    BesideParts(s, who);
    DemandEffect(s, who, q);
    NewFrameIs(s, s1, who, q, f);
    SetPageBeside(s1, f, s.vm.mem[s.Leaf(who, q).frame]);
    OwnCopyIs(s, who, q);
    SameTwice(s, s1, OwnCopy(s, who, q));
  }

  lemma NewFrameIs(s: Pair, s': Pair, who: Who, q: Path, f: Frame)
    requires NewFrame(s, s', who, q, f, ZeroPage())
    ensures DataFrame(s', f)
  {
  }

  lemma OwnCopyIs(s: Pair, who: Who, q: Path)
    requires UserPage(q) && q.Step? && |s.vm.free| > 0 && Missing(s.vm.mem, s.Root(who), q) == 0
    ensures OwnCopy(s, who, q) == SetPage(Demand(s, who, q), s.vm.free[0], s.vm.mem[s.Leaf(who, q).frame])
  {
  }

  /** The partner's entry crossed off. */
  lemma CrossOffBeside(s: Pair, who: Who, q: Path)
    requires Beside(s) && UserPage(q) && q.Step? && s.Leaf(Other(who), q) != ZERO
    requires Missing(s.vm.mem, s.Root(Other(who)), q) == 0
    ensures Beside(CrossOff(s, who, q)) && SameHalf(s, CrossOff(s, who, q))
  {
    hide *;
    LeafApart(s, Other(who), q);
    WithLeafBeside(s, Other(who), q, Crossed(s.Leaf(Other(who), q)));
    CrossOffIs(s, who, q);
  }

  lemma CrossOffIs(s: Pair, who: Who, q: Path)
    requires UserPage(q) && q.Step? && Missing(s.vm.mem, s.Root(Other(who)), q) == 0
    ensures CrossOff(s, who, q) == WithLeaf(s, Other(who), q, Crossed(s.Leaf(Other(who), q)))
  {
  }

  /** `handle_COW` on a page of the processes' own. */
  lemma HandleCowBeside(s: Pair, who: Who, q: Path, partner: bool)
    requires Beside(s) && UserPage(q) && |s.vm.free| > 0 && Linked2(s)
    requires s.Leaf(who, q) != ZERO && s.Leaf(Other(who), q) != ZERO && DataFrame(s, s.Leaf(who, q).frame)
    ensures Beside(HandleCow(s, who, q, partner)) && SameHalf(s, HandleCow(s, who, q, partner))
  {
    hide *;
    PathStep(q);
    LeafIs(s, who, q);
    LeafIs(s, Other(who), q);
    UsedNotMissing(s.vm.mem, s.Root(who), q);
    UsedNotMissing(s.vm.mem, s.Root(Other(who)), q);
    if partner {
      var s1 := OwnCopy(s, who, q);
      OwnCopyBeside(s, who, q);
      OwnCopyEffect(s, who, q);
      OnlyLeafOther(s, s1, who, q);
      LeafIs(s1, Other(who), q);
      UsedNotMissing(s1.vm.mem, s1.Root(Other(who)), q);
      CrossOffBeside(s1, who, q);
      HandleCowIs(s, who, q);
      SameTwice(s, s1, CrossOff(s1, who, q));
    } else {
      CrossOffBeside(s, who, q);
      HandleCowAlone(s, who, q);
    }
  }

  /** An access of one of the processes to its own pages, with whatever fault it takes. */
  lemma ExecuteBeside(s: Pair, op: Op, partner: bool)
    requires SharedHalf(s) && FaultFits(s, op) && !IsNull(op) && (NeedsPartner(s, op) ==> partner)
    ensures var r := Execute(s, op, partner);
      r.Completed? && SharedHalf(r.s) && SameHalf(s, r.s) && View(s).Step(op) == (View(r.s), r.out)
  {
    hide *;
    SharedBeside(s);
    FitsUser(s, op);
    ExecuteRefines(s, op, partner);
    SharedBeside(Execute(s, op, partner).s);
    NeedsPartnerIs(s, op);
    CowParts(s);
    match UserWalk(s.vm.mem, s.Root(op.who), op.page, op.Save?)
    case Granted(f) =>
      GrantedLeaf(s, op, f);
      PerformBeside(s, op, f);
      Performs(s, op, f);
      ExecuteGranted(s, op, partner, f);
    case PageFault(code) =>
      HandlerResumes(s, op, code);
      HandlerPartner(s, op, code, partner);
      HandlerBeside(s, op, code);
      var s1 := PageFaultHandler(s, op, code, true).s;
      var f := s1.Leaf(op.who, op.page).frame;
      PerformRefines(s1, op);
      ExecuteFault(s, op, partner, code, s1, f);
      PerformBeside(s1, op, f);
      Performs(s1, op, f);
      SameTwice(s, s1, Perform(s1, op, f).s);
  }

  lemma PerformBeside(s: Pair, op: Op, f: Frame)
    requires Beside(s) && CowInv(s) && UserPage(op.page) && s.Leaf(op.who, op.page) != ZERO && s.Leaf(op.who, op.page).frame == f
    ensures Perform(s, op, f).Completed? && Beside(Perform(s, op, f).s) && SameHalf(s, Perform(s, op, f).s)
  {
    CowParts(s);
    UsedLeaf(s, op.who, op.page);
    LeafApart(s, op.who, op.page);
    hide Beside, CowInv, DataFrame, HalfTables;
    if op.Save? {
      SetPageBeside(s, f, s.vm.mem[f][op.word := op.value]);
    }
  }

  lemma HandlerBeside(s: Pair, op: Op, code: nat)
    requires SharedHalf(s) && FaultFits(s, op) && !IsNull(op)
    requires UserWalk(s.vm.mem, s.Root(op.who), op.page, op.Save?) == PageFault(code)
    requires PageFaultHandler(s, op, code, true).Resumed?
    ensures var s' := PageFaultHandler(s, op, code, true).s; Beside(s') && SameHalf(s, s')
  {
    SharedBeside(s);
    WriteFault(s, op, code);
    CowParts(s);
    PathStep(op.page);
    hide Beside, SameHalf, Linked2, HandleCow, Demand, DataFrame, LeavesOk, UserWalk, UserPage, Missing;
    if code == 7 {
      UsedLeaf(s, op.who, op.page);
      HandleCowBeside(s, op.who, op.page, true);
    } else {
      DemandBeside(s, op.who, op.page);
    }
  }

  /** The pair after a run of accesses to the processes' own pages. */
  ghost function After(s: Pair, ops: seq<Op>): Pair
    decreases |ops|
  {
    if ops == [] || !CowInv(s) || !FaultFits(s, ops[0]) || !Execute(s, ops[0], true).Completed? then s
    else After(Execute(s, ops[0], true).s, ops[1..])
  }

  function EagerAfter(e: Eager, ops: seq<Op>): Eager
    decreases |ops|
  {
    if ops == [] then e else EagerAfter(e.Step(ops[0]).0, ops[1..])
  }

  lemma AfterStep(s: Pair, ops: seq<Op>)
    ensures ops == [] ==> After(s, ops) == s
    ensures ops != [] && CowInv(s) && FaultFits(s, ops[0]) && Execute(s, ops[0], true).Completed? ==>
      After(s, ops) == After(Execute(s, ops[0], true).s, ops[1..])
    ensures ops == [] ==> forall e :: EagerAfter(e, ops) == e
    ensures ops != [] ==> forall e :: EagerAfter(e, ops) == EagerAfter(e.Step(ops[0]).0, ops[1..])
  {
    hide CowInv, FaultFits, Execute, Eager.Step;
  }

  lemma SameSelf(s: Pair)
    ensures SameHalf(s, s)
  {
  }

  /**
   * Over every interleaving of accesses to the processes' own pages the kernel's half is the same
   * for both and keeps all its entries, and what both see is what separate memories hold.
   */
  lemma {:induction false} RunsShare(s: Pair, ops: seq<Op>)
    requires SharedHalf(s) && Proper(ops) && 4 * |ops| <= |s.vm.free|
    ensures SharedHalf(After(s, ops)) && SameHalf(s, After(s, ops)) && View(After(s, ops)) == EagerAfter(View(s), ops)
    decreases |ops|
  {
    hide *;
    AfterStep(s, ops);
    if ops == [] {
      SameSelf(s);
    } else {
      ProperParts(ops);
      SharedBeside(s);
      ExecuteFrames(s, ops[0]);
      ExecuteBeside(s, ops[0], true);
      var s1 := Execute(s, ops[0], true).s;
      RunsShare(s1, ops[1..]);
      SameTwice(s, s1, After(s1, ops[1..]));
    }
  }
}
