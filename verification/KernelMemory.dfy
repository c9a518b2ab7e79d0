/**
 * The memory behind the kernel's allocators: the frame under each page they hand out, what their
 * calls keep of the running process, and fork as the sequence of these calls and the copy.
 */
module KernelMemory {
  import opened Sequences
  import opened Words
  import opened PageTables
  import opened Addresses
  import opened Hardware
  import opened Mapping
  import opened Ranges
  import opened Pointers
  import opened Fork
  import opened CopyOnWrite
  import opened Forking
  import opened AddressSpaces
  import opened NewTables
  import opened KernelHeap
  import opened KernelHalf

  /** The way to page n of the kernel's heap. */
  function HeapPath(start: bv64, n: nat): Path { PathOf(Further(start, n)) }

  /** Page n of the heap is an address of the kernel's half. */
  predicate Usable(start: bv64, n: nat) { Canonical(Further(start, n)) && KernelPage(HeapPath(start, n)) && n < VIRTUAL_PAGES }

  /** Each page handed out has a frame of its own, found at its address. */
  ghost predicate Backed(v: Vm, root: Frame, start: bv64, frames: seq<Frame>) {
    && Distinct(frames)
    && (forall i | 0 <= i < |frames| :: Usable(start, i) && Reserved(v, root, frames[i]))
    && (forall i | 0 <= i < |frames| :: KernelWalk(v.mem, root, HeapPath(start, i)) == Hit(frames[i]))
  }

  lemma HeapPathsDiffer(start: bv64, i: nat, j: nat)
    requires i < j < VIRTUAL_PAGES
    ensures HeapPath(start, i) != HeapPath(start, j)
  {
    hide *;
    HeapPathIs(start, i);
    HeapPathIs(start, j);
    FurtherPath(start, i);
    FurtherPath(start, j);
    PagesApart(PathOf(start), i, j);
  }

  lemma HeapPathIs(start: bv64, n: nat)
    ensures HeapPath(start, n) == PathOf(Further(start, n)) && IsPage(PathOf(start))
  {
    AddressNext(start);
  }

  /** A walk that ends at an entry that stays the same stays the same. */
  lemma EntryWalk(v: Vm, v': Vm, root: Frame, q: Path)
    requires Running(v, root) && Running(v', root) && AnyPage(q) && Entry(v'.mem, root, q) == Entry(v.mem, root, q)
    ensures KernelWalk(v'.mem, root, q) == KernelWalk(v.mem, root, q)
  {
    KernelWalkEntry(v.mem, root, q, 4, AllSlots());
    KernelWalkEntry(v'.mem, root, q, 4, AllSlots());
  }

  lemma ReservedKept(v: Vm, v': Vm, root: Frame, q: Path, leaf: Word, f: Frame)
    requires Running(v, root) && Reserved(v, root, f) && PageAdded(v, v', root, q, leaf)
    requires forall q' | UserPage(q') :: Entry(v'.mem, root, q') == Entry(v.mem, root, q')
    ensures Reserved(v', root, f) && f != leaf.frame
  {
    assert root in Reach(v.mem, root, 4, AllSlots());
  }

  lemma BackedAt(v: Vm, root: Frame, start: bv64, frames: seq<Frame>, i: nat)
    requires Backed(v, root, start, frames) && i < |frames|
    ensures Usable(start, i) && Reserved(v, root, frames[i]) && KernelWalk(v.mem, root, HeapPath(start, i)) == Hit(frames[i])
  {
  }

  lemma UsableStep(start: bv64, n: nat)
    requires Usable(start, n)
    ensures KernelPage(HeapPath(start, n)) && n < VIRTUAL_PAGES && Canonical(Further(start, n))
    ensures HeapPath(start, n).Step? && AnyPage(HeapPath(start, n))
  {
    KernelStep(HeapPath(start, n));
  }

  /** The next page of the heap gets a frame that no other page has. */
  lemma BackedMapped(v: Vm, root: Frame, start: bv64, frames: seq<Frame>, user: bool)
    requires Alone(v, root) && Backed(v, root, start, frames) && Usable(start, |frames|)
    requires HeapPath(start, |frames|).Step? && 1 + Missing(v.mem, root, HeapPath(start, |frames|)) <= |v.free|
    ensures Backed(PageMapped(v, root, HeapPath(start, |frames|), user), root, start, frames + [v.free[0]])
  {
    hide *;
    var n := |frames|;
    var q, page := HeapPath(start, n), v.free[0];
    var v' := PageMapped(v, root, q, user);
    UsableStep(start, n);
    AloneParts(v, root);
    PageMappedAdds(v, root, q, user);
    PageMappedIs(v, root, q, user);
    KernelPageKeeps(v, root, q, user);
    AloneParts(v', root);
    SamePagesEntry(v, v', root);
    forall i | 0 <= i < n
      ensures Usable(start, i) && Reserved(v', root, frames[i]) && frames[i] != page
      ensures KernelWalk(v'.mem, root, HeapPath(start, i)) == Hit(frames[i])
    {
      BackedAt(v, root, start, frames, i);
      UsableStep(start, i);
      ReservedKept(v, v', root, q, PageLeaf(page, user), frames[i]);
      HeapPathsDiffer(start, i, n);
      AddedOther(v, v', root, q, PageLeaf(page, user), HeapPath(start, i));
      EntryWalk(v, v', root, HeapPath(start, i));
    }
    BackedParts(v, root, start, frames);
    SpareReserved(v', root, page);
    MakeBacked(v', root, start, frames, page);
  }

  lemma SamePagesEntry(v: Vm, v': Vm, root: Frame)
    requires SamePages(v, v', root)
    ensures forall q | UserPage(q) :: Entry(v'.mem, root, q) == Entry(v.mem, root, q)
  {
  }

  lemma BackedParts(v: Vm, root: Frame, start: bv64, frames: seq<Frame>)
    requires Backed(v, root, start, frames)
    ensures Distinct(frames)
  {
  }

  lemma SpareReserved(v: Vm, root: Frame, f: Frame)
    requires Spare(v, root, f)
    ensures Reserved(v, root, f)
  {
  }

  lemma MakeBacked(v: Vm, root: Frame, start: bv64, frames: seq<Frame>, page: Frame)
    requires Distinct(frames) && Usable(start, |frames|) && Reserved(v, root, page)
    requires KernelWalk(v.mem, root, HeapPath(start, |frames|)) == Hit(page)
    requires forall i | 0 <= i < |frames| :: Usable(start, i) && Reserved(v, root, frames[i]) && frames[i] != page
    requires forall i | 0 <= i < |frames| :: KernelWalk(v.mem, root, HeapPath(start, i)) == Hit(frames[i])
    ensures Backed(v, root, start, frames + [page])
  {
  }

  /** Writing to a frame that is neither free nor a table keeps the heap where it is. */
  lemma BackedWritten(v: Vm, root: Frame, start: bv64, frames: seq<Frame>, f: Frame, contents: Page)
    requires Alone(v, root) && Backed(v, root, start, frames)
    requires f !in Frames(v.free) && f !in Reach(v.mem, root, 4, AllSlots())
    ensures Backed(Vm(v.mem[f := contents], v.free), root, start, frames)
  {
    var v' := Vm(v.mem[f := contents], v.free);
    OffTablesKeeps(v, root, f, contents);
    forall i | 0 <= i < |frames|
      ensures Reserved(v', root, frames[i]) && KernelWalk(v'.mem, root, HeapPath(start, i)) == Hit(frames[i])
    {
      BackedAt(v, root, start, frames, i);
      hide HeapPath, KernelWalk, Running;
      UsableStep(start, i);
      AloneParts(v, root);
      AloneParts(v', root);
      EntryWalk(v, v', root, HeapPath(start, i));
    }
  }

  /** Frames are there for the next page and the tables on the way to it. */
  predicate Fits(v: Vm, root: Frame, start: bv64, n: nat) {
    Usable(start, n) && HeapPath(start, n).Step? && 1 + Missing(v.mem, root, HeapPath(start, n)) <= |v.free|
  }

  /** What a request does to the memory. */
  function Allocated(v: Vm, root: Frame, start: bv64, h: Heap, r: Request): Vm
    requires Cost(h, r) == 1 ==> Fits(v, root, start, h.pages)
  {
    if Cost(h, r) == 0 then v
    else if r.PageTable? then WithNewRoot(v, root, HeapPath(start, h.pages))
    else PageMapped(v, root, HeapPath(start, h.pages), r.PageForProcess?)
  }

  /** The frames behind the heap after a request. */
  function FramesAfter(v: Vm, h: Heap, r: Request, frames: seq<Frame>): seq<Frame>
    requires Cost(h, r) == 1 ==> |v.free| > 0
  {
    if Cost(h, r) == 0 then frames else frames + [v.free[0]]
  }

  lemma FourFit(v: Vm, root: Frame, start: bv64, n: nat)
    requires Usable(start, n) && |v.free| >= 4
    ensures Fits(v, root, start, n) && Missing(v.mem, root, HeapPath(start, n)) <= 3
  {
    UsableStep(start, n);
    hide Usable, HeapPath, KernelPage;
    UnderLength(HeapPath(start, n), 4, AllSlots());
  }

  /** One request: the process is undisturbed, the new page has a frame of its own, and at most four frames go. */
  lemma AllocatedKeeps(v: Vm, root: Frame, start: bv64, h: Heap, r: Request, frames: seq<Frame>)
    requires Alone(v, root) && Backed(v, root, start, frames) && |frames| == h.pages
    requires Cost(h, r) == 1 ==> Fits(v, root, start, h.pages)
    ensures Cost(h, r) == 1 ==> |v.free| > 0
    ensures var v' := Allocated(v, root, start, h, r);
      && Undisturbed(v, v', root) && Backed(v', root, start, FramesAfter(v, h, r, frames))
      && (Cost(h, r) == 1 ==> |v'.free| == |v.free| - 1 - Missing(v.mem, root, HeapPath(start, h.pages)))
      && (Cost(h, r) == 0 ==> v' == v)
      && (r.PageTable? ==> Spare(v', root, v.free[0]) && v'.mem[v.free[0]] == v'.mem[root][510 := Link(v.free[0])])
  {
    hide *;
    AllocatedIs(v, root, start, h, r, frames);
    if Cost(h, r) == 0 {
      UndisturbedSelf(v, root);
    } else {
      var q, page := HeapPath(start, h.pages), v.free[0];
      UsableStep(start, h.pages);
      if r.PageTable? {
        var w := PageMapped(v, root, q, true);
        KernelPageUndisturbed(v, root, q, true);
        UndisturbedParts(v, w, root);
        BackedMapped(v, root, start, frames, true);
        NewRootUndisturbed(v, root, q);
        NewRootIs(v, root, q);
        SpareParts(w, root, page);
        BackedWritten(w, root, start, frames + [page], page, w.mem[root][510 := Link(page)]);
      } else {
        KernelPageUndisturbed(v, root, q, r.PageForProcess?);
        BackedMapped(v, root, start, frames, r.PageForProcess?);
      }
    }
  }

  /** A page that `kmalloc` opens is closed to user mode; the pages of the other two are open to it. */
  lemma AllocatedRights(v: Vm, root: Frame, start: bv64, h: Heap, r: Request, frames: seq<Frame>, write: bool)
    requires Alone(v, root) && Backed(v, root, start, frames) && |frames| == h.pages
    requires Cost(h, r) == 1 && Fits(v, root, start, h.pages)
    ensures |v.free| > 0
    ensures UserWalk(Allocated(v, root, start, h, r).mem, root, HeapPath(start, h.pages), write) ==
      if r.Bytes? then Access.PageFault(if write then 7 else 5) else Granted(v.free[0])
  {
    hide *;
    FitsIs(v, root, start, h.pages);
    var q, page, user := HeapPath(start, h.pages), v.free[0], !r.Bytes?;
    AllocatedIs(v, root, start, h, r, frames);
    UsableStep(start, h.pages);
    AloneParts(v, root);
    PageMappedAdds(v, root, q, user);
    RightsOf(PageMapped(v, root, q, user), v, root, q, page, user, write);
    if r.PageTable? {
      KernelPageKeeps(v, root, q, true);
      SpareParts(PageMapped(v, root, q, true), root, page);
      var w := PageMapped(v, root, q, true);
      OffTablesKeeps(w, root, page, w.mem[root][510 := Link(page)]);
      NewRootIs(v, root, q);
      SameRights(w, WithNewRoot(v, root, q), root, q, write);
    }
  }

  lemma RightsOf(w: Vm, v: Vm, root: Frame, q: Path, page: Frame, user: bool, write: bool)
    requires PageAdded(v, w, root, q, PageLeaf(page, user)) && AnyPage(q)
    ensures UserWalk(w.mem, root, q, write) == if user then Granted(page) else Access.PageFault(if write then 7 else 5)
  {
    UserWalkEntry(w.mem, root, q, 4, AllSlots(), write);
  }

  lemma SameRights(w: Vm, w': Vm, root: Frame, q: Path, write: bool)
    requires Alone(w, root) && Alone(w', root) && AnyPage(q) && Entry(w'.mem, root, q) == Entry(w.mem, root, q)
    ensures UserWalk(w'.mem, root, q, write) == UserWalk(w.mem, root, q, write)
  {
    UserWalkEntry(w.mem, root, q, 4, AllSlots(), write);
    UserWalkEntry(w'.mem, root, q, 4, AllSlots(), write);
  }

  lemma UndisturbedSelf(v: Vm, root: Frame)
    requires Alone(v, root)
    ensures Undisturbed(v, v, root)
  {
  }

  lemma AllocatedIs(v: Vm, root: Frame, start: bv64, h: Heap, r: Request, frames: seq<Frame>)
    requires Cost(h, r) == 1 ==> Fits(v, root, start, h.pages)
    ensures Cost(h, r) == 1 ==>
      Usable(start, h.pages) && HeapPath(start, h.pages).Step? && 1 + Missing(v.mem, root, HeapPath(start, h.pages)) <= |v.free|
    ensures Allocated(v, root, start, h, r) ==
      if Cost(h, r) == 0 then v
      else if r.PageTable? then WithNewRoot(v, root, HeapPath(start, h.pages))
      else PageMapped(v, root, HeapPath(start, h.pages), r.PageForProcess?)
    ensures FramesAfter(v, h, r, frames) == if Cost(h, r) == 0 then frames else frames + [v.free[0]]
    ensures r.PageTable? ==> Cost(h, r) == 1
  {
  }

  /** A run of requests, as long as frames are there. */
  function AllocatedAll(v: Vm, root: Frame, start: bv64, h: Heap, rs: seq<Request>): Vm
    decreases |rs|
  {
    if rs == [] || (Cost(h, rs[0]) == 1 && !Fits(v, root, start, h.pages)) then v
    else AllocatedAll(Allocated(v, root, start, h, rs[0]), root, start, Serve(h, rs[0]).0, rs[1..])
  }

  /** The frames behind the heap after a run. */
  function FramesAll(v: Vm, root: Frame, start: bv64, h: Heap, rs: seq<Request>, frames: seq<Frame>): seq<Frame>
    decreases |rs|
  {
    if rs == [] || (Cost(h, rs[0]) == 1 && !Fits(v, root, start, h.pages)) then frames
    else
      FramesAll(Allocated(v, root, start, h, rs[0]), root, start, Serve(h, rs[0]).0, rs[1..], FramesAfter(v, h, rs[0], frames))
  }

  /** Frames are there for each request of a run. */
  predicate AllFit(v: Vm, root: Frame, start: bv64, h: Heap, rs: seq<Request>)
    decreases |rs|
  {
    rs == [] || ((Cost(h, rs[0]) == 1 ==> Fits(v, root, start, h.pages))
                 && AllFit(Allocated(v, root, start, h, rs[0]), root, start, Serve(h, rs[0]).0, rs[1..]))
  }

  /**
   * Over every run of requests the process is undisturbed, and every page of the heap, old and
   * new, is found at its address on a frame that no other page and no table has.
   */
  lemma {:induction false} RunKeeps(v: Vm, root: Frame, start: bv64, h: Heap, rs: seq<Request>, frames: seq<Frame>)
    requires Alone(v, root) && Backed(v, root, start, frames) && |frames| == h.pages && KernelHeap.Ready(h)
    requires AllFit(v, root, start, h, rs)
    ensures var (v', frames') := (AllocatedAll(v, root, start, h, rs), FramesAll(v, root, start, h, rs, frames));
      && Undisturbed(v, v', root) && Backed(v', root, start, frames') && |frames'| == Serves(h, rs).0.pages
    decreases |rs|
  {
    hide *;
    if rs == [] {
      UndisturbedSelf(v, root);
      RunNone(v, root, start, h, frames);
    } else {
      var r := rs[0];
      RunStep(v, root, start, h, rs, frames);
      AllocatedKeeps(v, root, start, h, r, frames);
      AllocatedIs(v, root, start, h, r, frames);
      ServeStep(h, r);
      var v1, h1, frames1 := Allocated(v, root, start, h, r), Serve(h, r).0, FramesAfter(v, h, r, frames);
      UndisturbedParts(v, v1, root);
      RunKeeps(v1, root, start, h1, rs[1..], frames1);
      UndisturbedTwice(v, v1, AllocatedAll(v1, root, start, h1, rs[1..]), root);
    }
  }

  /** Four frames a request are enough, as a page takes at most three tables. */
  lemma {:induction false} FourEach(v: Vm, root: Frame, start: bv64, h: Heap, rs: seq<Request>, frames: seq<Frame>)
    requires Alone(v, root) && Backed(v, root, start, frames) && |frames| == h.pages && KernelHeap.Ready(h)
    requires forall n | h.pages <= n < h.pages + |rs| :: Usable(start, n)
    requires 4 * |rs| <= |v.free|
    ensures AllFit(v, root, start, h, rs)
    ensures |AllocatedAll(v, root, start, h, rs).free| + 4 * Costs(h, rs) >= |v.free|
    decreases |rs|
  {
    hide *;
    if rs == [] {
      RunNone(v, root, start, h, frames);
    } else {
      var r := rs[0];
      assert Usable(start, h.pages);
      FourFit(v, root, start, h.pages);
      AllocatedKeeps(v, root, start, h, r, frames);
      AllocatedIs(v, root, start, h, r, frames);
      ServeStep(h, r);
      var v1, h1, frames1 := Allocated(v, root, start, h, r), Serve(h, r).0, FramesAfter(v, h, r, frames);
      UndisturbedParts(v, v1, root);
      FourEach(v1, root, start, h1, rs[1..], frames1);
      RunMore(v, root, start, h, rs);
      RunStep(v, root, start, h, rs, frames);
    }
  }

  lemma RunNone(v: Vm, root: Frame, start: bv64, h: Heap, frames: seq<Frame>)
    ensures AllocatedAll(v, root, start, h, []) == v && FramesAll(v, root, start, h, [], frames) == frames
    ensures Serves(h, []).0 == h && Costs(h, []) == 0 && AllFit(v, root, start, h, [])
  {
  }

  lemma RunMore(v: Vm, root: Frame, start: bv64, h: Heap, rs: seq<Request>)
    requires rs != [] && (Cost(h, rs[0]) == 1 ==> Fits(v, root, start, h.pages))
    requires AllFit(Allocated(v, root, start, h, rs[0]), root, start, Serve(h, rs[0]).0, rs[1..])
    ensures AllFit(v, root, start, h, rs)
  {
  }

  lemma RunStep(v: Vm, root: Frame, start: bv64, h: Heap, rs: seq<Request>, frames: seq<Frame>)
    requires rs != [] && AllFit(v, root, start, h, rs)
    ensures Cost(h, rs[0]) == 1 ==> Fits(v, root, start, h.pages) && |v.free| > 0
    ensures AllFit(Allocated(v, root, start, h, rs[0]), root, start, Serve(h, rs[0]).0, rs[1..])
    ensures AllocatedAll(v, root, start, h, rs) ==
      AllocatedAll(Allocated(v, root, start, h, rs[0]), root, start, Serve(h, rs[0]).0, rs[1..])
    ensures FramesAll(v, root, start, h, rs, frames) == FramesAll(Allocated(v, root, start, h, rs[0]), root, start,
      Serve(h, rs[0]).0, rs[1..], FramesAfter(v, h, rs[0], frames))
    ensures Serves(h, rs).0 == Serves(Serve(h, rs[0]).0, rs[1..]).0
    ensures Costs(h, rs) == Cost(h, rs[0]) + Costs(Serve(h, rs[0]).0, rs[1..])
  {
  }

  lemma ReservedUsed(v: Vm, v': Vm, root: Frame, q: Path, leaf: Word, f: Frame)
    requires Reserved(v, root, f) && PageAdded(v, v', root, q, leaf)
    requires forall q' | UserPage(q') && q' != q :: Entry(v'.mem, root, q') == Entry(v.mem, root, q')
    ensures Reserved(v', root, f)
  {
  }

  lemma UserOrKernel(q: Path, n: Path)
    requires UserPage(q) && KernelPage(n)
    ensures q != n
  {
    UserIsAny(q);
    KernelStep(n);
  }

  /** Demand paging for the process leaves the heap where it is. */
  lemma BackedDemand(v: Vm, root: Frame, start: bv64, frames: seq<Frame>, q: Path)
    requires Alone(v, root) && Backed(v, root, start, frames) && UserPage(q) && q.Step?
    requires 1 + Missing(v.mem, root, q) <= |v.free|
    ensures Backed(PageMapped(v, root, q, true), root, start, frames)
  {
    hide *;
    var v', leaf := PageMapped(v, root, q, true), PageLeaf(v.free[0], true);
    UserIsAny(q);
    AloneParts(v, root);
    PageMappedAdds(v, root, q, true);
    AddedRunning(v, v', root, q, leaf);
    forall q' | UserPage(q') && q' != q ensures Entry(v'.mem, root, q') == Entry(v.mem, root, q') {
      UserIsAny(q');
      AddedOther(v, v', root, q, leaf, q');
    }
    forall i | 0 <= i < |frames|
      ensures Usable(start, i) && Reserved(v', root, frames[i]) && KernelWalk(v'.mem, root, HeapPath(start, i)) == Hit(frames[i])
    {
      BackedAt(v, root, start, frames, i);
      UsableStep(start, i);
      ReservedUsed(v, v', root, q, leaf, frames[i]);
      UserOrKernel(q, HeapPath(start, i));
      AddedOther(v, v', root, q, leaf, HeapPath(start, i));
      EntryWalk(v, v', root, HeapPath(start, i));
    }
    BackedParts(v, root, start, frames);
    StillBacked(v', root, start, frames);
  }

  lemma AddedRunning(v: Vm, v': Vm, root: Frame, q: Path, leaf: Word)
    requires PageAdded(v, v', root, q, leaf)
    ensures Running(v', root)
  {
  }

  lemma StillBacked(v: Vm, root: Frame, start: bv64, frames: seq<Frame>)
    requires Distinct(frames)
    requires forall i | 0 <= i < |frames| :: Usable(start, i) && Reserved(v, root, frames[i])
    requires forall i | 0 <= i < |frames| :: KernelWalk(v.mem, root, HeapPath(start, i)) == Hit(frames[i])
    ensures Backed(v, root, start, frames)
  {
  }

  /** The process uses a page of its own: the heap stays where it is. */
  lemma BackedFilled(v: Vm, root: Frame, start: bv64, frames: seq<Frame>, op: Fill)
    requires Alone(v, root) && Backed(v, root, start, frames) && UserPage(op.page) && |v.free| >= 4
    ensures Backed(Filled(v, root, op), root, start, frames)
  {
    hide *;
    FourFrames(v, root, op.page);
    FilledIs(v, root, op);
    if Entry(v.mem, root, op.page) == ZERO {
      var v1 := PageMapped(v, root, op.page, true);
      BackedDemand(v, root, start, frames, op.page);
      DemandKeeps(v, root, op.page);
      DemandUsed(v, root, op.page);
      BackedStored(v1, root, start, frames, op.page, op.contents);
    } else {
      BackedStored(v, root, start, frames, op.page, op.contents);
    }
  }

  lemma BackedStored(v: Vm, root: Frame, start: bv64, frames: seq<Frame>, q: Path, contents: Page)
    requires Alone(v, root) && Backed(v, root, start, frames) && UserPage(q) && Entry(v.mem, root, q) != ZERO
    ensures Backed(Vm(v.mem[Entry(v.mem, root, q).frame := contents], v.free), root, start, frames)
  {
    assert PageOwned(v, root, q);
    hide *;
    BackedWritten(v, root, start, frames, Entry(v.mem, root, q).frame, contents);
  }

  /** The kernel asks for memory, or the process uses a page of its own. */
  datatype Act = Ask(request: Request) | Use(fill: Fill)

  /** The memory, the heap and the frames behind it. */
  datatype Life = Life(v: Vm, h: Heap, frames: seq<Frame>)

  predicate CanAct(l: Life, start: bv64, act: Act) {
    |l.v.free| >= 4 && if act.Ask? then Usable(start, l.h.pages) else UserPage(act.fill.page)
  }

  ghost function Acted(l: Life, root: Frame, start: bv64, act: Act): Life
    requires CanAct(l, start, act)
  {
    match act
    case Ask(r) =>
      FourFit(l.v, root, start, l.h.pages);
      Life(Allocated(l.v, root, start, l.h, r), Serve(l.h, r).0, FramesAfter(l.v, l.h, r, l.frames))
    case Use(op) => l.(v := Filled(l.v, root, op))
  }

  ghost function ActedAll(l: Life, root: Frame, start: bv64, acts: seq<Act>): Life
    decreases |acts|
  {
    if acts == [] || !CanAct(l, start, acts[0]) then l else ActedAll(Acted(l, root, start, acts[0]), root, start, acts[1..])
  }

  /** What the process did, without the kernel's requests. */
  function Uses(acts: seq<Act>): seq<Fill>
    decreases |acts|
  {
    if acts == [] then [] else (if acts[0].Use? then [acts[0].fill] else []) + Uses(acts[1..])
  }

  /** A process alone, and a heap whose pages each have a frame of their own. */
  ghost predicate Sane(l: Life, root: Frame, start: bv64) {
    Alone(l.v, root) && Backed(l.v, root, start, l.frames) && |l.frames| == l.h.pages && KernelHeap.Ready(l.h)
  }

  lemma ActKeeps(l: Life, root: Frame, start: bv64, act: Act)
    requires Sane(l, root, start) && CanAct(l, start, act)
    ensures var l' := Acted(l, root, start, act);
      && Sane(l', root, start) && |l'.v.free| + 4 >= |l.v.free| && l.h.pages <= l'.h.pages <= l.h.pages + 1
      && SeenAlone(l'.v, root) ==
         if act.Ask? then SeenAlone(l.v, root) else SeenAlone(l.v, root)[act.fill.page := act.fill.contents]
  {
    hide *;
    var v, h, l' := l.v, l.h, Acted(l, root, start, act);
    SaneParts(l, root, start);
    SaneParts(l', root, start);
    ActedIs(l, root, start, act);
    if act.Ask? {
      FourFit(v, root, start, h.pages);
      AllocatedKeeps(v, root, start, h, act.request, l.frames);
      AllocatedIs(v, root, start, h, act.request, l.frames);
      UndisturbedParts(v, l'.v, root);
      SamePagesSeen(v, l'.v, root);
      ServeStep(h, act.request);
    } else {
      FilledKeeps(v, root, act.fill);
      BackedFilled(v, root, start, l.frames, act.fill);
    }
  }

  lemma SaneParts(l: Life, root: Frame, start: bv64)
    ensures Sane(l, root, start) <==>
      Alone(l.v, root) && Backed(l.v, root, start, l.frames) && |l.frames| == l.h.pages && KernelHeap.Ready(l.h)
  {
  }

  lemma ActedIs(l: Life, root: Frame, start: bv64, act: Act)
    requires CanAct(l, start, act)
    ensures |l.v.free| >= 4 && (act.Ask? ==> Usable(start, l.h.pages) && Fits(l.v, root, start, l.h.pages))
    ensures act.Ask? ==> Acted(l, root, start, act) == Life(Allocated(l.v, root, start, l.h, act.request),
                                  Serve(l.h, act.request).0, FramesAfter(l.v, l.h, act.request, l.frames))
    ensures act.Use? ==> UserPage(act.fill.page) && Acted(l, root, start, act) == l.(v := Filled(l.v, root, act.fill))
  {
    hide Usable, UserPage, Fits, Allocated, FramesAfter, Serve, Filled, Missing, HeapPath, Cost;
    if act.Ask? { FourFit(l.v, root, start, l.h.pages); }
  }

  lemma ActsStep(l: Life, root: Frame, start: bv64, acts: seq<Act>, s: Space)
    requires acts != [] && CanAct(l, start, acts[0])
    ensures ActedAll(l, root, start, acts) == ActedAll(Acted(l, root, start, acts[0]), root, start, acts[1..])
    ensures Painted(s, Uses(acts)) ==
      Painted(if acts[0].Ask? then s else s[acts[0].fill.page := acts[0].fill.contents], Uses(acts[1..]))
  {
    hide Acted;
    var rest := Uses(acts[1..]);
    if acts[0].Use? {
      assert ([acts[0].fill] + rest)[1..] == rest;
    } else {
      assert [] + rest == rest;
    }
  }

  /**
   * Over every interleaving of the kernel's requests and the process's use of its pages, the
   * process stays alone and sees exactly what it wrote itself, and every page of the heap stays
   * where it is on a frame of its own.
   */
  lemma {:induction false} ActsKeep(l: Life, root: Frame, start: bv64, acts: seq<Act>)
    requires Sane(l, root, start) && 4 * |acts| <= |l.v.free|
    requires forall n | l.h.pages <= n < l.h.pages + |acts| :: Usable(start, n)
    requires forall i | 0 <= i < |acts| && acts[i].Use? :: UserPage(acts[i].fill.page)
    ensures var l' := ActedAll(l, root, start, acts);
      Sane(l', root, start) && SeenAlone(l'.v, root) == Painted(SeenAlone(l.v, root), Uses(acts))
    decreases |acts|
  {
    hide *;
    if acts == [] {
      NoActs(l, root, start);
    } else {
      assert Usable(start, l.h.pages);
      MakeCanAct(l, start, acts[0]);
      ActKeeps(l, root, start, acts[0]);
      ActsStep(l, root, start, acts, SeenAlone(l.v, root));
      ActsKeep(Acted(l, root, start, acts[0]), root, start, acts[1..]);
    }
  }

  lemma NoActs(l: Life, root: Frame, start: bv64)
    ensures ActedAll(l, root, start, []) == l && forall s: Space :: Painted(s, Uses([])) == s
  {
  }

  lemma MakeCanAct(l: Life, start: bv64, act: Act)
    requires |l.v.free| >= 4 && Usable(start, l.h.pages) && (act.Use? ==> UserPage(act.fill.page))
    ensures CanAct(l, start, act)
  {
  }

  /** Two blocks that do not overlap as stretches of pages lie apart in memory too. */
  lemma BlocksApart(v: Vm, root: Frame, start: bv64, frames: seq<Frame>, a: Block, b: Block)
    requires Backed(v, root, start, frames) && a.Block? && b.Block? && a.page < |frames| && b.page < |frames|
    requires a.Apart(b)
    ensures KernelWalk(v.mem, root, HeapPath(start, a.page)) == Hit(frames[a.page])
    ensures KernelWalk(v.mem, root, HeapPath(start, b.page)) == Hit(frames[b.page])
    ensures frames[a.page] != frames[b.page] || a.offset + a.length <= b.offset || b.offset + b.length <= a.offset
  {
    BackedAt(v, root, start, frames, a.page);
    BackedAt(v, root, start, frames, b.page);
  }

  /** The pointer to a block; a refused request yields NULL. */
  function Address(start: bv64, b: Block): bv64 {
    if b.Refused? then 0 else Plus(Further(start, b.page), b.offset)
  }

  /**
   * Byte j of a block, j steps of one byte from the pointer to it: it lies on the block's page of the
   * heap, at the block's offset and j.
   */
  lemma BlockByte(start: bv64, b: Block, j: nat)
    requires Aligned(start) && b.Block? && b.InPage() && j < b.length
    ensures PathOf(Stepped(Address(start, b), j)) == HeapPath(start, b.page)
    ensures (Stepped(Address(start, b), j) & 0xfff) as int == b.offset + j
    ensures Canonical(Further(start, b.page)) ==> Canonical(Stepped(Address(start, b), j))
  {
    hide *;
    var page := Further(start, b.page);
    InPageIs(b);
    AddressIs(start, b);
    HeapPathIs(start, b.page);
    AlignedFurther(start, b.page);
    PlusStepped(page, b.offset, j);
    PlusInPage(page, b.offset + j);
  }

  lemma InPageIs(b: Block)
    ensures b.InPage() && b.Block? ==> b.offset + b.length <= 4096
  {
  }

  lemma ApartIs(a: Block, b: Block)
    ensures a.Apart(b) <==>
      (a.Refused? || b.Refused? || a.page != b.page
       || a.offset + a.length <= b.offset || b.offset + b.length <= a.offset)
  {
  }

  /** Blocks that are apart have no address in common. */
  lemma BytesDiffer(start: bv64, a: Block, b: Block, i: nat, j: nat)
    requires Aligned(start) && a.Apart(b)
    requires a.Block? && a.InPage() && i < a.length && a.page < VIRTUAL_PAGES
    requires b.Block? && b.InPage() && j < b.length && b.page < VIRTUAL_PAGES
    ensures Stepped(Address(start, a), i) != Stepped(Address(start, b), j)
  {
    hide *;
    ApartIs(a, b);
    BlockByte(start, a, i);
    BlockByte(start, b, j);
    if a.page < b.page { HeapPathsDiffer(start, a.page, b.page); }
    if b.page < a.page { HeapPathsDiffer(start, b.page, a.page); }
  }

  lemma {:induction false} ServedPage(h: Heap, rs: seq<Request>, i: nat)
    requires KernelHeap.Ready(h) && i < |rs|
    ensures Serves(h, rs).0.pages >= h.pages
    ensures Serves(h, rs).1[i].Block? ==> Serves(h, rs).1[i].page < Serves(h, rs).0.pages
    decreases |rs|
  {
    ServeStep(h, rs[0]);
    ServesGrow(Serve(h, rs[0]).0, rs[1..]);
    if i > 0 { ServedPage(Serve(h, rs[0]).0, rs[1..], i - 1); }
  }

  /**
   * Whatever the allocators are asked for and in whatever order: the 64-bit addresses of the bytes
   * of any two blocks are different, while the heap is smaller than the address space.
   */
  lemma AddressesDisjoint(start: bv64, h: Heap, rs: seq<Request>, i: nat, j: nat, m: nat, n: nat)
    requires Aligned(start) && KernelHeap.Ready(h) && i < j < |rs| && Serves(h, rs).0.pages <= VIRTUAL_PAGES
    requires Serves(h, rs).1[i].Block? && m < Serves(h, rs).1[i].length
    requires Serves(h, rs).1[j].Block? && n < Serves(h, rs).1[j].length
    ensures Stepped(Address(start, Serves(h, rs).1[i]), m) != Stepped(Address(start, Serves(h, rs).1[j]), n)
  {
    hide *;
    RegionsDisjoint(h, rs, i, j);
    ServedPage(h, rs, i);
    ServedPage(h, rs, j);
    BytesDiffer(start, Serves(h, rs).1[i], Serves(h, rs).1[j], m, n);
  }

  /** Only a refused request yields NULL. */
  lemma NullIff(start: bv64, b: Block)
    requires Aligned(start) && (b.Block? ==> b.offset < 4096 && Usable(start, b.page))
    ensures Address(start, b) == 0 <==> b.Refused?
  {
    if b.Block? {
      hide *;
      UsableStep(start, b.page);
      AddressIs(start, b);
      HeapPathIs(start, b.page);
      AlignedFurther(start, b.page);
      PlusInPage(Further(start, b.page), b.offset);
      KernelNotNull(Address(start, b));
    }
  }
  /** The fields of the allocators stand for the heap, and a process alone runs under the active tables. */
  ghost predicate Held(v: Vm, root: Frame, start: bv64, h: Heap, frames: seq<Frame>, available: bv64, page: bv64, index: nat) {
    && available == Further(start, h.pages) && index == h.index && KernelHeap.Ready(h)
    && page == (if h.current.NoPage? then 0 else Further(start, h.current.number))
    && (h.current.Page? ==> page != 0)
    && |frames| == h.pages && Backed(v, root, start, frames) && Alone(v, root)
  }

  lemma HeldParts(v: Vm, root: Frame, start: bv64, h: Heap, frames: seq<Frame>, available: bv64, page: bv64, index: nat)
    requires Held(v, root, start, h, frames, available, page, index)
    ensures available == Further(start, h.pages) && index == h.index && KernelHeap.Ready(h)
    ensures |frames| == h.pages && Backed(v, root, start, frames) && Alone(v, root)
    ensures page == 0 <==> h.current.NoPage?
    ensures h.current.Page? ==> page == Further(start, h.current.number) && h.index <= 4096
  {
  }

  lemma MakeHeld(v: Vm, root: Frame, start: bv64, h: Heap, frames: seq<Frame>, available: bv64, page: bv64)
    requires available == Further(start, h.pages) && KernelHeap.Ready(h)
    requires page == (if h.current.NoPage? then 0 else Further(start, h.current.number)) && (h.current.Page? ==> page != 0)
    requires |frames| == h.pages && Backed(v, root, start, frames) && Alone(v, root)
    ensures Held(v, root, start, h, frames, available, page, h.index)
  {
  }

  /** The heap is found where it was under a root that is a copy of the active one. */
  lemma HeldSwitched(v: Vm, root: Frame, start: bv64, h: Heap, frames: seq<Frame>, available: bv64, page: bv64,
                     index: nat, next: Frame)
    requires Held(v, root, start, h, frames, available, page, index)
    requires Spare(v, root, next) && v.mem[next] == v.mem[root][510 := Link(next)]
    ensures Held(v, next, start, h, frames, available, page, index) && SeenAlone(v, next) == SeenAlone(v, root)
  {
    hide *;
    HeldParts(v, root, start, h, frames, available, page, index);
    NewRootAlone(v, root, next);
    AloneParts(v, root);
    AloneParts(v, next);
    BackedParts(v, root, start, frames);
    forall i | 0 <= i < |frames|
      ensures Usable(start, i) && Reserved(v, next, frames[i]) && KernelWalk(v.mem, next, HeapPath(start, i)) == Hit(frames[i])
    {
      BackedAt(v, root, start, frames, i);
      UsableStep(start, i);
      SameEntryWalk(v, root, next, HeapPath(start, i));
    }
    StillBacked(v, next, start, frames);
    HeldUnder(v, root, next, start, h, frames, available, page, index);
  }

  lemma SameEntryWalk(v: Vm, root: Frame, next: Frame, q: Path)
    requires Running(v, root) && Running(v, next) && AnyPage(q) && Entry(v.mem, next, q) == Entry(v.mem, root, q)
    ensures KernelWalk(v.mem, next, q) == KernelWalk(v.mem, root, q)
  {
    KernelWalkEntry(v.mem, root, q, 4, AllSlots());
    KernelWalkEntry(v.mem, next, q, 4, AllSlots());
  }

  lemma HeldUnder(v: Vm, root: Frame, next: Frame, start: bv64, h: Heap, frames: seq<Frame>, available: bv64,
                  page: bv64, index: nat)
    requires Held(v, root, start, h, frames, available, page, index) && Backed(v, next, start, frames) && Alone(v, next)
    ensures Held(v, next, start, h, frames, available, page, index)
  {
    hide Backed, Alone;
  }

  /** Taking the next page for a request, seen from the fields. */
  lemma PageTaken(v: Vm, root: Frame, start: bv64, h: Heap, r: Request, frames: seq<Frame>)
    requires Alone(v, root) && Backed(v, root, start, frames) && |frames| == h.pages && KernelHeap.Ready(h)
    requires Cost(h, r) == 1 && Fits(v, root, start, h.pages)
    ensures Running(v, root) && Canonical(Further(start, h.pages)) && KernelPage(PathOf(Further(start, h.pages)))
    ensures HeapPath(start, h.pages).Step? && 1 + Missing(v.mem, root, PathOf(Further(start, h.pages))) <= |v.free|
    ensures HeapPath(start, h.pages) == PathOf(Further(start, h.pages))
  {
    hide *;
    FitsIs(v, root, start, h.pages);
    UsableStep(start, h.pages);
    HeapPathIs(start, h.pages);
    AloneParts(v, root);
  }

  lemma HeapNotNull(start: bv64, n: nat)
    requires Usable(start, n)
    ensures Further(start, n) != 0
  {
    hide *;
    UsableStep(start, n);
    HeapPathIs(start, n);
    KernelNotNull(Further(start, n));
  }

  lemma FitsIs(v: Vm, root: Frame, start: bv64, n: nat)
    requires Fits(v, root, start, n)
    ensures Usable(start, n) && HeapPath(start, n).Step? && 1 + Missing(v.mem, root, HeapPath(start, n)) <= |v.free|
  {
  }

  /** The fields after a request that took a page. */
  lemma HeldAfter(v: Vm, root: Frame, start: bv64, h: Heap, r: Request, frames: seq<Frame>, available: bv64, page: bv64)
    requires Held(v, root, start, h, frames, available, page, h.index)
    requires Cost(h, r) == 1 && Fits(v, root, start, h.pages)
    ensures |v.free| > 0
    ensures var page' := if r.Bytes? then available else page;
      Held(Allocated(v, root, start, h, r), root, start, Serve(h, r).0, FramesAfter(v, h, r, frames), available + 4096, page',
        Serve(h, r).0.index)
  {
    hide *;
    HeldParts(v, root, start, h, frames, available, page, h.index);
    FitsIs(v, root, start, h.pages);
    HeapNotNull(start, h.pages);
    FurtherStep(start, h.pages);
    AllocatedKeeps(v, root, start, h, r, frames);
    AllocatedIs(v, root, start, h, r, frames);
    UndisturbedParts(v, Allocated(v, root, start, h, r), root);
    ServeStep(h, r);
    Serving(h, r);
    MakeHeld(Allocated(v, root, start, h, r), root, start, Serve(h, r).0, FramesAfter(v, h, r, frames), available + 4096,
      if r.Bytes? then available else page);
  }

  lemma Serving(h: Heap, r: Request)
    requires Cost(h, r) == 1
    ensures Serve(h, r).0.current == (if r.Bytes? then Page(h.pages) else h.current)
    ensures Serve(h, r).0.index == (if r.Bytes? then r.count else h.index)
    ensures Serve(h, r).1 == Block(h.pages, 0, if r.Bytes? then r.count else 4096)
  {
  }

  /** The fields after `kmalloc` refuses or cuts the current page. */
  lemma HeldCut(v: Vm, root: Frame, start: bv64, h: Heap, count: nat, frames: seq<Frame>, available: bv64, page: bv64)
    requires Held(v, root, start, h, frames, available, page, h.index) && Cost(h, Bytes(count)) == 0
    ensures var (h', b) := Serve(h, Bytes(count));
      && Held(v, root, start, h', frames, available, page, h'.index)
      && h'.index == (if count > 4096 then h.index else h.index + count)
      && Address(start, b) == (if count > 4096 then 0 else Plus(page, h.index))
    ensures Allocated(v, root, start, h, Bytes(count)) == v && FramesAfter(v, h, Bytes(count), frames) == frames
    ensures count > 4096 ==> Serve(h, Bytes(count)).0 == h
  {
    hide Backed, Alone, Further, Plus;
  }

  /** The fields after `kmalloc` opens the next page. */
  lemma HeldOpened(v: Vm, root: Frame, start: bv64, h: Heap, count: nat, frames: seq<Frame>, available: bv64, page: bv64)
    requires Held(v, root, start, h, frames, available, page, h.index)
    requires Cost(h, Bytes(count)) == 1 && Fits(v, root, start, h.pages)
    ensures Running(v, root) && Canonical(available) && KernelPage(PathOf(available)) && PathOf(available).Step?
    ensures 1 + Missing(v.mem, root, PathOf(available)) <= |v.free| && |v.free| > 0
    ensures var (h', b) := Serve(h, Bytes(count));
      && Held(PageMapped(v, root, PathOf(available), false), root, start, h', FramesAfter(v, h, Bytes(count), frames),
              available + 4096, available, count)
      && h'.index == count && Address(start, b) == Plus(available, 0)
    ensures Allocated(v, root, start, h, Bytes(count)) == PageMapped(v, root, PathOf(available), false)
  {
    hide *;
    var r := Bytes(count);
    HeldParts(v, root, start, h, frames, available, page, h.index);
    PageTaken(v, root, start, h, r, frames);
    HeldAfter(v, root, start, h, r, frames, available, page);
    AllocatedIs(v, root, start, h, r, frames);
    Serving(h, r);
    AddressIs(start, Serve(h, r).1);
  }

  /** Which requests take a page, seen from the fields. */
  lemma HeldCost(v: Vm, root: Frame, start: bv64, h: Heap, r: Request, frames: seq<Frame>, available: bv64,
                 page: bv64, index: nat)
    requires Held(v, root, start, h, frames, available, page, index)
    ensures index == h.index && Cost(h, r) <= 1
    ensures Cost(h, r) == 1 <==> (r.Bytes? ==> r.count <= 4096 && (page == 0 || index + r.count >= 4096))
  {
    hide Backed, Alone, Further;
  }

  lemma {:induction false} FurtherStep(start: bv64, n: nat)
    ensures Further(start, n + 1) == Further(start, n) + 4096
    decreases n
  {
    if n > 0 { FurtherStep(start + 4096, n - 1); }
  }

  lemma FirstHeld(v: Vm, root: Frame, start: bv64)
    requires Alone(v, root)
    ensures Held(v, root, start, Heap(0, NoPage, 0), [], start, 0, 0)
  {
  }

  lemma AddressIs(start: bv64, b: Block)
    requires b.Block?
    ensures Address(start, b) == Plus(Further(start, b.page), b.offset)
    ensures b.offset == 0 ==> Address(start, b) == Further(start, b.page)
  {
    hide Further, Plus;
    PlusNone(Further(start, b.page));
  }

  /** What `_get_new_pcb` allocates: the control block, the kernel stack and a root. */
  function ForNewPcb(size: nat): seq<Request> { [Bytes(size), PageForProcess, PageTable] }

  /** What `get_forked_pcb` allocates: all that, and the root that the child will have. */
  function ForForkedPcb(size: nat): seq<Request> { ForNewPcb(size) + [PageTable] }

  lemma PcbRequests(size: nat)
    ensures ForNewPcb(size) != [] && ForNewPcb(size)[0] == Bytes(size) && ForNewPcb(size)[1..] == [PageForProcess, PageTable]
    ensures [PageForProcess, PageTable][1..] == [PageTable] && [PageTable][1..] == []
    ensures ForForkedPcb(size) == ForNewPcb(size) + [PageTable]
  {
  }

  /** One request more. */
  lemma {:induction false} RunLast(v: Vm, root: Frame, start: bv64, h: Heap, rs: seq<Request>, r: Request)
    requires AllFit(v, root, start, h, rs + [r])
    ensures AllFit(v, root, start, h, rs)
    ensures var (v', h') := (AllocatedAll(v, root, start, h, rs), Serves(h, rs).0);
      && (Cost(h', r) == 1 ==> Fits(v', root, start, h'.pages))
      && AllocatedAll(v, root, start, h, rs + [r]) == Allocated(v', root, start, h', r)
      && Serves(h, rs + [r]).0 == Serve(h', r).0
    decreases |rs|
  {
    hide Fits, Allocated, Serve, Cost;
    var all := rs + [r];
    if rs == [] {
      assert all[1..] == [];
    } else {
      assert all[0] == rs[0] && all[1..] == rs[1..] + [r];
      RunLast(Allocated(v, root, start, h, rs[0]), root, start, Serve(h, rs[0]).0, rs[1..], r);
    }
  }

  /** The uppermost word of a new stack is 0 already. */
  lemma StackEnd(v: Vm, root: Frame, start: bv64, h: Heap, frames: seq<Frame>)
    requires Alone(v, root) && Backed(v, root, start, frames) && |frames| == h.pages
    requires Fits(v, root, start, h.pages)
    ensures |v.free| > 0
    ensures var v' := Allocated(v, root, start, h, PageForProcess);
      && Address(start, Serve(h, PageForProcess).1) == Further(start, h.pages) && Canonical(Further(start, h.pages))
      && KernelWalk(v'.mem, root, PathOf(Further(start, h.pages))) == Hit(v.free[0])
      && Store(v'.mem, v.free[0], 511, ZERO) == v'.mem
  {
    hide *;
    var q := HeapPath(start, h.pages);
    FitsIs(v, root, start, h.pages);
    UsableStep(start, h.pages);
    HeapPathIs(start, h.pages);
    PageCosts(h, PageForProcess);
    Serving(h, PageForProcess);
    AddressIs(start, Serve(h, PageForProcess).1);
    AllocatedIs(v, root, start, h, PageForProcess, frames);
    AloneParts(v, root);
    PageMappedAdds(v, root, q, true);
    ZeroStored(PageMapped(v, root, q, true).mem, v.free[0]);
  }

  lemma ZeroStored(m: Memory, f: Frame)
    requires m[f] == ZeroPage()
    ensures Store(m, f, 511, ZERO) == m
  {
    assert m[f][511 := ZERO] == m[f];
  }

  /** The last request of the four leaves a root ready for the copy. */
  lemma ChildReady(v: Vm, v3: Vm, v4: Vm, root: Frame, start: bv64, h3: Heap, frames3: seq<Frame>)
    requires Undisturbed(v, v3, root) && Backed(v3, root, start, frames3) && |frames3| == h3.pages
    requires Fits(v3, root, start, h3.pages) && v4 == Allocated(v3, root, start, h3, PageTable)
    requires Links(v.mem, root, 4, 509) <= |v4.free|
    ensures |v3.free| > 0
    ensures var child := v3.free[0];
      && Fork.Ready(v4, root, child, 4) && Owner(v4, root, child) && SelfMapped(v4.mem, root) && SelfMapped(v4.mem, child)
      && SeenAlone(v4, root) == SeenAlone(v, root) && Links(v4.mem, root, 4, 509) == Links(v.mem, root, 4, 509)
      && Alone(v4, root) && Spare(v4, root, child) && v4.mem[child] == v4.mem[root][510 := Link(child)]
  {
    hide *;
    FitsIs(v3, root, start, h3.pages);
    PageCosts(h3, PageTable);
    UndisturbedParts(v, v3, root);
    AllocatedKeeps(v3, root, start, h3, PageTable, frames3);
    UndisturbedTwice(v, v3, v4, root);
    UndisturbedParts(v, v4, root);
    NewRootReady(v4, root, v3.free[0]);
    SamePagesSeen(v, v4, root);
  }

  /** Where a page of the heap is mapped, slot 511 is in use. */
  lemma HeapLinked(v: Vm, root: Frame, start: bv64, frames: seq<Frame>)
    requires Backed(v, root, start, frames) && frames != []
    ensures v.mem[root][511] != ZERO
  {
    BackedAt(v, root, start, frames, 0);
    UsableStep(start, 0);
    KernelStep(HeapPath(start, 0));
    hide HeapPath;
  }

  lemma PageCosts(h: Heap, r: Request)
    requires !r.Bytes?
    ensures Cost(h, r) == 1
  {
  }

  lemma StackServed(h: Heap, size: nat)
    ensures |Serves(h, ForNewPcb(size)).1| == 3
    ensures Serves(h, ForNewPcb(size)).1[1] == Serve(Serve(h, Bytes(size)).0, PageForProcess).1
  {
    PcbRequests(size);
  }

  /** The three requests for a control block, one after the other. */
  lemma PcbAllocates(v: Vm, root: Frame, start: bv64, h: Heap, frames: seq<Frame>, size: nat)
    requires AllFit(v, root, start, h, ForNewPcb(size))
    ensures Cost(h, Bytes(size)) == 1 ==> Fits(v, root, start, h.pages) && |v.free| > 0
    ensures var (v1, h1) := (Allocated(v, root, start, h, Bytes(size)), Serve(h, Bytes(size)).0);
      && Fits(v1, root, start, h1.pages)
      && var (v2, h2) := (Allocated(v1, root, start, h1, PageForProcess), Serve(h1, PageForProcess).0);
      && Fits(v2, root, start, h2.pages)
      && AllocatedAll(v, root, start, h, ForNewPcb(size)) == Allocated(v2, root, start, h2, PageTable)
      && Serves(h, ForNewPcb(size)).0 == Serve(h2, PageTable).0
      && Serves(h, ForNewPcb(size)).1[1] == Serve(h1, PageForProcess).1
  {
    hide *;
    PcbRequests(size);
    StackServed(h, size);
    RunStep(v, root, start, h, ForNewPcb(size), frames);
    var v1, h1 := Allocated(v, root, start, h, Bytes(size)), Serve(h, Bytes(size)).0;
    var frames1 := FramesAfter(v, h, Bytes(size), frames);
    PageCosts(h1, PageForProcess);
    RunStep(v1, root, start, h1, [PageForProcess, PageTable], frames1);
    var v2, h2 := Allocated(v1, root, start, h1, PageForProcess), Serve(h1, PageForProcess).0;
    var frames2 := FramesAfter(v1, h1, PageForProcess, frames1);
    PageCosts(h2, PageTable);
    RunStep(v2, root, start, h2, [PageTable], frames2);
    RunNone(Allocated(v2, root, start, h2, PageTable), root, start, Serve(h2, PageTable).0, frames2);
  }

  class Kernel {
    const k: Machine
    ghost const start: bv64
    var available: bv64
    var kmallocPage: bv64
    var kmallocIndex: nat
    ghost var heap: Heap
    ghost var frames: seq<Frame>

    ghost function Memory(): Vm reads this, k { Vm(k.mem, k.free) }

    ghost predicate Valid() reads this, k {
      Held(Memory(), k.cr3, start, heap, frames, available, kmallocPage, kmallocIndex)
    }

    lemma ValidIs()
      ensures Memory() == Vm(k.mem, k.free)
      ensures Valid() <==> Held(Memory(), k.cr3, start, heap, frames, available, kmallocPage, kmallocIndex)
    {
    }

    constructor (machine: Machine, first: bv64)
      requires Alone(Vm(machine.mem, machine.free), machine.cr3)
      ensures Valid() && k == machine && start == first && heap == Heap(0, NoPage, 0) && Memory() == Vm(k.mem, k.free)
    {
      k, start, available, kmallocPage, kmallocIndex := machine, first, first, 0, 0;
      heap, frames := Heap(0, NoPage, 0), [];
      new;
      hide *;
      FirstHeld(Vm(k.mem, k.free), k.cr3, start);
      ValidIs();
    }

    /** `kmalloc` */
    method Kmalloc(count: nat) returns (p: bv64)
      requires Valid() && (Cost(heap, Bytes(count)) == 1 ==> Fits(Memory(), k.cr3, start, heap.pages))
      modifies this, k`mem, k`free
      ensures Valid() && heap == Serve(old(heap), Bytes(count)).0 && p == Address(start, Serve(old(heap), Bytes(count)).1)
      ensures Memory() == Allocated(old(Memory()), k.cr3, start, old(heap), Bytes(count))
      ensures frames == FramesAfter(old(Memory()), old(heap), Bytes(count), old(frames))
    {
      hide *;
      ValidIs();
      ghost var v, h, was := Memory(), heap, frames;
      HeldCost(v, k.cr3, start, h, Bytes(count), frames, available, kmallocPage, kmallocIndex);
      if count > 4096 {
        HeldCut(v, k.cr3, start, h, count, frames, available, kmallocPage);
        return 0;
      }
      if kmallocPage == 0 || kmallocIndex + count >= 4096 {
        OpenPage(count);
        ValidIs();
      } else {
        HeldCut(v, k.cr3, start, h, count, frames, available, kmallocPage);
      }
      p := Plus(kmallocPage, kmallocIndex);
      kmallocIndex := kmallocIndex + count;
      heap, frames := Serve(h, Bytes(count)).0, FramesAfter(v, h, Bytes(count), was);
      ValidIs();
    }

    /** The next page becomes the one that `kmalloc` cuts. */
    method OpenPage(ghost count: nat)
      requires Valid() && Cost(heap, Bytes(count)) == 1 && Fits(Memory(), k.cr3, start, heap.pages)
      modifies this`available, this`kmallocPage, this`kmallocIndex, k`mem, k`free
      ensures |old(k.free)| > 0 && kmallocIndex == 0
      ensures var (h', b) := Serve(heap, Bytes(count));
        && Held(Memory(), k.cr3, start, h', FramesAfter(old(Memory()), heap, Bytes(count), frames), available, kmallocPage, count)
        && h'.index == count && Address(start, b) == Plus(kmallocPage, 0)
      ensures Memory() == Allocated(old(Memory()), k.cr3, start, heap, Bytes(count))
    {
      hide *;
      ValidIs();
      HeldCost(Memory(), k.cr3, start, heap, Bytes(count), frames, available, kmallocPage, kmallocIndex);
      HeldOpened(Memory(), k.cr3, start, heap, count, frames, available, kmallocPage);
      kmallocPage := available;
      var _, next := MapKernelPage(k, available, false);
      available, kmallocIndex := next, 0;
      ValidIs();
    }

    /** `get_new_page_v` */
    method GetNewPageV() returns (p: bv64)
      requires Valid() && Fits(Memory(), k.cr3, start, heap.pages)
      modifies this, k`mem, k`free
      ensures Valid() && heap == Serve(old(heap), PageForProcess).0 && p == Address(start, Serve(old(heap), PageForProcess).1)
      ensures Memory() == Allocated(old(Memory()), k.cr3, start, old(heap), PageForProcess)
      ensures frames == FramesAfter(old(Memory()), old(heap), PageForProcess, old(frames))
    {
      hide *;
      ValidIs();
      ghost var v, h, r := Memory(), heap, PageForProcess;
      HeldParts(v, k.cr3, start, h, frames, available, kmallocPage, kmallocIndex);
      HeldCost(v, k.cr3, start, h, r, frames, available, kmallocPage, kmallocIndex);
      AllocatedIs(v, k.cr3, start, h, r, frames);
      PageTaken(v, k.cr3, start, h, r, frames);
      HeldAfter(v, k.cr3, start, h, r, frames, available, kmallocPage);
      Serving(h, r);
      AddressIs(start, Serve(h, r).1);
      p := available;
      heap, frames := Serve(h, r).0, FramesAfter(v, h, r, frames);
      var _, next := MapKernelPage(k, available, true);
      available := next;
      ValidIs();
    }

    /** `get_new_page_table`: the frame of the new root, which is also mapped at the next kernel page. */
    method GetNewPageTable() returns (root: Frame)
      requires Valid() && Fits(Memory(), k.cr3, start, heap.pages)
      modifies this, k`mem, k`free
      ensures Valid() && heap == Serve(old(heap), PageTable).0
      ensures |old(k.free)| > 0 && root == old(k.free)[0]
      ensures Memory() == Allocated(old(Memory()), k.cr3, start, old(heap), PageTable)
      ensures frames == FramesAfter(old(Memory()), old(heap), PageTable, old(frames))
    {
      hide *;
      ValidIs();
      ghost var v, h, r := Memory(), heap, PageTable;
      HeldParts(v, k.cr3, start, h, frames, available, kmallocPage, kmallocIndex);
      HeldCost(v, k.cr3, start, h, r, frames, available, kmallocPage, kmallocIndex);
      AllocatedIs(v, k.cr3, start, h, r, frames);
      PageTaken(v, k.cr3, start, h, r, frames);
      HeldAfter(v, k.cr3, start, h, r, frames, available, kmallocPage);
      Serving(h, r);
      heap, frames := Serve(h, r).0, FramesAfter(v, h, r, frames);
      var next;
      root, next := NewTables.GetNewPageTable(k, available);
      available := next;
      ValidIs();
    }

    /** `_set_cr3` with a root from `get_new_page_table`: the process goes on under tables of its own. */
    method SwitchTo(root: Frame)
      requires Valid() && Spare(Memory(), k.cr3, root) && k.mem[root] == k.mem[k.cr3][510 := Link(root)]
      modifies k`cr3
      ensures Valid() && k.cr3 == root && Memory() == old(Memory())
      ensures SeenAlone(Memory(), root) == old(SeenAlone(Memory(), k.cr3))
    {
      hide *;
      ValidIs();
      HeldSwitched(Memory(), k.cr3, start, heap, frames, available, kmallocPage, kmallocIndex, root);
      k.cr3 := root;
      ValidIs();
    }

    /** `_get_new_pcb`, as far as memory goes, with the 0 that is pushed on the new kernel stack. */
    method GetNewPcb(size: nat) returns (stack: bv64, root: Frame)
      requires Valid() && AllFit(Memory(), k.cr3, start, heap, ForNewPcb(size))
      modifies this, k`mem, k`free
      ensures Valid() && heap == Serves(old(heap), ForNewPcb(size)).0
      ensures Memory() == AllocatedAll(old(Memory()), k.cr3, start, old(heap), ForNewPcb(size))
      ensures stack == Address(start, Serves(old(heap), ForNewPcb(size)).1[1])
      ensures Spare(Memory(), k.cr3, root) && k.mem[root] == k.mem[k.cr3][510 := Link(root)]
    {
      hide *;
      ValidIs();
      PcbAllocates(Memory(), k.cr3, start, heap, frames, size);
      var _ := Kmalloc(size);
      ValidIs();
      HeldParts(Memory(), k.cr3, start, heap, frames, available, kmallocPage, kmallocIndex);
      StackEnd(Memory(), k.cr3, start, heap, frames);
      ghost var top := Memory().free[0];
      stack := GetNewPageV();
      ValidIs();
      Denotes(k, stack, top);
      k.Write(stack, 511, ZERO);
      ValidIs();
      HeldParts(Memory(), k.cr3, start, heap, frames, available, kmallocPage, kmallocIndex);
      PageCosts(heap, PageTable);
      AllocatedKeeps(Memory(), k.cr3, start, heap, PageTable, frames);
      root := GetNewPageTable();
      ValidIs();
    }

    /** `get_forked_pcb`: a new control block, the child's root, and the copy. */
    method GetForkedPcb(size: nat) returns (stack: bv64, child: Frame)
      requires Valid() && AllFit(Memory(), k.cr3, start, heap, ForForkedPcb(size))
      requires Links(k.mem, k.cr3, 4, 509) <= |AllocatedAll(Memory(), k.cr3, start, heap, ForForkedPcb(size)).free|
      modifies this, k`mem, k`free
      ensures heap == Serves(old(heap), ForForkedPcb(size)).0 && stack == Address(start, Serves(old(heap), ForNewPcb(size)).1[1])
      ensures SharedHalf(Both(k, k.cr3, child)) && CowInv(Both(k, k.cr3, child))
      ensures View(Both(k, k.cr3, child)) == Eager(SeenAlone(old(Memory()), k.cr3), SeenAlone(old(Memory()), k.cr3))
      ensures |k.free| == |AllocatedAll(old(Memory()), k.cr3, start, old(heap), ForForkedPcb(size)).free|
                          - Links(old(k.mem), k.cr3, 4, 509)
      ensures forall ops | Proper(ops) && 4 * |ops| <= |k.free| ::
        (Outputs(Both(k, k.cr3, child), ops) ==
         EagerOutputs(Eager(SeenAlone(old(Memory()), k.cr3), SeenAlone(old(Memory()), k.cr3)), ops))
    {
      hide *;
      ValidIs();
      ghost var v, h, root := Memory(), heap, k.cr3;
      HeldParts(v, root, start, h, frames, available, kmallocPage, kmallocIndex);
      PcbRequests(size);
      RunLast(v, root, start, h, ForNewPcb(size), PageTable);
      RunKeeps(v, root, start, h, ForNewPcb(size), frames);
      stack, child := GetNewPcb(size);
      ValidIs();
      HeldParts(Memory(), root, start, heap, frames, available, kmallocPage, kmallocIndex);
      PageCosts(heap, PageTable);
      ServeStep(heap, PageTable);
      ChildReady(v, Memory(), Allocated(Memory(), root, start, heap, PageTable), root, start, heap, frames);
      child := GetNewPageTable();
      ValidIs();
      HeldParts(Memory(), root, start, heap, frames, available, kmallocPage, kmallocIndex);
      HeapLinked(Memory(), root, start, frames);
      ghost var v4 := Memory();
      ForkMemory(k, k.cr3, child);
      BothIs(k, root, child);
      ForkShares(v4, Vm(k.mem, k.free), root, child);
      forall ops | Proper(ops) && 4 * |ops| <= |k.free|
        ensures Outputs(Both(k, root, child), ops) == EagerOutputs(Eager(SeenAlone(v, root), SeenAlone(v, root)), ops)
      {
        BothIs(k, root, child);
        CowRefinesEagerCopy(Both(k, root, child), ops);
      }
    }
  }
}
