/**
 * `setup_paging`: the kernel's first root and its own mappings, from which the allocators start.
 */
module Booting {
  import opened Sequences
  import opened Words
  import opened PageTables
  import opened Addresses
  import opened Hardware
  import opened Mapping
  import opened Ranges
  import opened Fork
  import opened CopyOnWrite
  import opened Forking
  import opened AddressSpaces
  import opened KernelHeap
  import opened KernelMemory

  /** All pages of a list lie in the kernel's half and get entries of the kernel's kinds. */
  ghost predicate KernelPages(ms: seq<Maplet>) { forall m | m in ms :: KernelPage(m.path) && KernelKind(m.leaf) }

  /** A run of mappings in the kernel's half leaves a process alone with its pages. */
  lemma {:induction false} KernelMapsKeep(v: Vm, root: Frame, ms: seq<Maplet>)
    requires Alone(v, root) && KernelPages(ms) && Fit(v, root, ms)
    ensures Alone(MapAll(v, root, ms), root) && SeenAlone(MapAll(v, root, ms), root) == SeenAlone(v, root)
    decreases |ms|
  {
    hide *;
    MapsStep(v, root, ms);
    if ms != [] {
      var w := Mapped(v, root, ms[0].path, ms[0].leaf);
      KernelMapKeeps(v, root, ms[0].path, ms[0].leaf);
      SeenAloneOf(v, w, root);
      KernelMapsKeep(w, root, ms[1..]);
    }
  }

  lemma MapsStep(v: Vm, root: Frame, ms: seq<Maplet>)
    requires KernelPages(ms) && Fit(v, root, ms)
    ensures ms == [] ==> MapAll(v, root, ms) == v
    ensures ms != [] ==>
      && ms[0].path.Step? && Missing(v.mem, root, ms[0].path) <= |v.free| && KernelPage(ms[0].path)
      && KernelKind(ms[0].leaf) && KernelPages(ms[1..])
      && Fit(Mapped(v, root, ms[0].path, ms[0].leaf), root, ms[1..])
      && MapAll(v, root, ms) == MapAll(Mapped(v, root, ms[0].path, ms[0].leaf), root, ms[1..])
  {
  }

  lemma SeenAloneOf(v: Vm, v': Vm, root: Frame)
    requires SamePages(v, v', root)
    ensures SeenAlone(v', root) == SeenAlone(v, root)
  {
    SeenAloneSame(v, v', root);
  }

  /** Three frames a page are enough for any list of pages. */
  lemma {:induction false} ThreeEach(v: Vm, root: Frame, ms: seq<Maplet>)
    requires Alone(v, root) && KernelPages(ms) && 3 * |ms| <= |v.free|
    ensures Fit(v, root, ms) && |MapAll(v, root, ms).free| + 3 * |ms| >= |v.free|
    decreases |ms|
  {
    hide *;
    if ms == [] {
      NoMaps(v, root);
    } else {
      FirstPage(ms);
      var q, leaf := ms[0].path, ms[0].leaf;
      KernelStep(q);
      UnderKernel(q);
      UnderLength(q, 4, AllSlots());
      var w := Mapped(v, root, q, leaf);
      KernelMapKeeps(v, root, q, leaf);
      AloneParts(v, root);
      RunningParts(v, root);
      MappedGrows(v, root, q, leaf, 4, AllSlots());
      GrownAll(v, w, root, q, leaf, Missing(v.mem, root, q));
      ThreeEach(w, root, ms[1..]);
      FitMore(v, root, ms);
    }
  }

  lemma NoMaps(v: Vm, root: Frame)
    ensures Fit(v, root, []) && MapAll(v, root, []) == v
  {
  }

  lemma FirstPage(ms: seq<Maplet>)
    requires KernelPages(ms) && ms != []
    ensures KernelPage(ms[0].path) && KernelKind(ms[0].leaf) && KernelPages(ms[1..])
  {
  }

  lemma UnderKernel(q: Path)
    requires KernelPage(q)
    ensures Under(q, 4, AllSlots())
  {
  }

  lemma FitMore(v: Vm, root: Frame, ms: seq<Maplet>)
    requires ms != [] && ms[0].path.Step? && Missing(v.mem, root, ms[0].path) <= |v.free|
    requires Fit(Mapped(v, root, ms[0].path, ms[0].leaf), root, ms[1..])
    ensures Fit(v, root, ms)
    ensures MapAll(v, root, ms) == MapAll(Mapped(v, root, ms[0].path, ms[0].leaf), root, ms[1..])
  {
  }

  /** Pages of a range that starts with slot 511 and stays there are pages of the kernel. */
  lemma RangeInKernel(base: nat, end: nat, p: Path, frame: nat -> Frame)
    requires IsPage(p) && forall d | 0 <= d < Pages(base, end) :: Advance(p, d).idx == 511
    ensures KernelPages(RangeMaplets(base, end, p, frame))
  {
    RangeUnder(base, end, p, frame, {511});
    var ms := RangeMaplets(base, end, p, frame);
    forall m | m in ms ensures KernelPage(m.path) && KernelKind(m.leaf) {
      HighSlot(m.path, 4);
      var d :| 0 <= d < |ms| && ms[d] == m;
      RangeMapletAt(base, end, p, frame, d);
      LeafKinds(frame(base + 4096 * d));
    }
  }

  lemma {:induction false} HighSlot(q: Path, n: Level)
    requires Under(q, n, {511})
    ensures Under(q, n, AllSlots()) && (n == 4 ==> q.idx == 511)
    decreases n
  {
    if n > 1 { HighSlot(q.rest, n - 1); }
  }

  /** The tables after the first root has been made of the first free frame. */
  function WithFirstRoot(v: Vm): Vm
    requires |v.free| > 0
  {
    Vm(Store(Clear(v.mem, v.free[0]), v.free[0], 510, Link(v.free[0])), v.free[1..])
  }

  /** The path of an address, which is always that of a page. */
  function PageAt(v: bv64): (p: Path)
    ensures p == PathOf(v) && IsPage(p)
  {
    AddressNext(v);
    PathOf(v)
  }

  /** The two ranges that the kernel maps for itself: its image and the display. */
  datatype Layout = Layout(image: nat, imageEnd: nat, display: nat, displayEnd: nat, virtual: bv64) {
    function Image(frame: nat -> Frame): seq<Maplet>
    {
      RangeMaplets(image, imageEnd, PageAt(virtual), frame)
    }

    function DisplayStart(): bv64 { Further(virtual, Pages(image, imageEnd)) }

    function Display(frame: nat -> Frame): seq<Maplet>
    {
      RangeMaplets(display, displayEnd, PageAt(DisplayStart()), frame)
    }

    function HeapStart(): bv64 { Further(DisplayStart(), Pages(display, displayEnd)) }

    /** Both ranges end before 2^64 and are mapped in the kernel's half. */
    ghost predicate Sensible() {
      && image + 4096 * Pages(image, imageEnd) < WORD && display + 4096 * Pages(display, displayEnd) < WORD
      && (forall d | 0 <= d < Pages(image, imageEnd) :: Advance(PageAt(virtual), d).idx == 511)
      && (forall d | 0 <= d < Pages(display, displayEnd) :: Advance(PageAt(DisplayStart()), d).idx == 511)
    }
  }

  lemma LayoutInKernel(l: Layout, frame: nat -> Frame)
    requires l.Sensible()
    ensures KernelPages(l.Image(frame)) && KernelPages(l.Display(frame))
  {
    RangeInKernel(l.image, l.imageEnd, PageAt(l.virtual), frame);
    RangeInKernel(l.display, l.displayEnd, PageAt(l.DisplayStart()), frame);
  }

  lemma LayoutIs(l: Layout, frame: nat -> Frame)
    ensures l.Image(frame) == RangeMaplets(l.image, l.imageEnd, PageAt(l.virtual), frame)
    ensures l.Display(frame) == RangeMaplets(l.display, l.displayEnd, PageAt(l.DisplayStart()), frame)
    ensures l.DisplayStart() == Further(l.virtual, Pages(l.image, l.imageEnd))
    ensures l.HeapStart() == Further(l.DisplayStart(), Pages(l.display, l.displayEnd))
    ensures l.Sensible() ==> l.image + 4096 * Pages(l.image, l.imageEnd) < WORD
    ensures l.Sensible() ==> l.display + 4096 * Pages(l.display, l.displayEnd) < WORD
  {
  }

  lemma FirstRootIs(v: Vm)
    requires |v.free| > 0
    ensures WithFirstRoot(v) == Vm(Store(Clear(v.mem, v.free[0]), v.free[0], 510, Link(v.free[0])), v.free[1..])
  {
  }

  /**
   * `setup_paging` after the filters: a first root, the kernel's image and the display mapped under
   * it, and an empty heap behind them.  The frame of a physical address is a parameter.
   */
  method SetupPaging(k: Machine, l: Layout, frame: nat -> Frame) returns (kernel: Kernel)
    requires |k.free| > 0 && Distinct(k.free) && Zeroed(Vm(k.mem, k.free)) && l.Sensible()
    requires Fit(WithFirstRoot(Vm(k.mem, k.free)), k.free[0], l.Image(frame))
    requires Fit(MapAll(WithFirstRoot(Vm(k.mem, k.free)), k.free[0], l.Image(frame)), k.free[0], l.Display(frame))
    modifies k
    ensures k.cr3 == old(k.free)[0]
    ensures Vm(k.mem, k.free) ==
      old(MapAll(MapAll(WithFirstRoot(Vm(k.mem, k.free)), k.free[0], l.Image(frame)), k.free[0], l.Display(frame)))
    ensures fresh(kernel) && kernel.k == k && kernel.Valid() && kernel.start == l.HeapStart() && kernel.heap == Heap(0, NoPage, 0)
    ensures SeenAlone(kernel.Memory(), k.cr3) == imap[]
  {
    hide *;
    ghost var v := Vm(k.mem, k.free);
    FirstRootIs(v);
    LayoutIs(l, frame);
    LayoutInKernel(l, frame);
    AddressSpaces.FirstRoot(v);
    var root := k.GetFreePage();
    k.mem := Clear(k.mem, root);
    k.mem := Store(k.mem, root, 510, Link(root));
    StateIs(k);
    ghost var v0 := WithFirstRoot(v);
    KernelMapsKeep(v0, root, l.Image(frame));
    var next := KMemMapV(k, l.image, l.imageEnd, l.virtual, root, frame, PageAt(l.virtual));
    StateIs(k);
    KernelMapsKeep(Vm(k.mem, k.free), root, l.Display(frame));
    next := KMemMapV(k, l.display, l.displayEnd, next, root, frame, PageAt(l.DisplayStart()));
    StateIs(k);
    k.cr3 := root;
    kernel := new Kernel(k, next);
  }

  /** What is mapped afterwards: every page of both ranges, at its place. */
  lemma Mappings(v: Vm, l: Layout, frame: nat -> Frame)
    requires |v.free| > 0 && Distinct(v.free) && Zeroed(v) && l.Sensible()
    requires Fit(WithFirstRoot(v), v.free[0], l.Image(frame))
    requires Fit(MapAll(WithFirstRoot(v), v.free[0], l.Image(frame)), v.free[0], l.Display(frame))
    requires Pages(l.image, l.imageEnd) + Pages(l.display, l.displayEnd) <= VIRTUAL_PAGES
    ensures var w := MapAll(MapAll(WithFirstRoot(v), v.free[0], l.Image(frame)), v.free[0], l.Display(frame));
      && (forall d | 0 <= d < Pages(l.image, l.imageEnd) ::
            KernelWalk(w.mem, v.free[0], Advance(PageAt(l.virtual), d)) == Hit(frame(l.image + 4096 * d)))
      && (forall d | 0 <= d < Pages(l.display, l.displayEnd) ::
            KernelWalk(w.mem, v.free[0], Advance(PageAt(l.DisplayStart()), d)) == Hit(frame(l.display + 4096 * d)))
  {
    hide *;
    FirstRootIs(v);
    LayoutIs(l, frame);
    LayoutInKernel(l, frame);
    AddressSpaces.FirstRoot(v);
    var root, v0 := v.free[0], WithFirstRoot(v);
    var v1 := MapAll(v0, root, l.Image(frame));
    KernelMapsKeep(v0, root, l.Image(frame));
    AloneParts(v0, root);
    AloneParts(v1, root);
    RunningParts(v0, root);
    RunningParts(v1, root);
    InSlots(l);
    var n := Pages(l.image, l.imageEnd);
    forall d | 0 <= d < n
      ensures KernelWalk(MapAll(v1, root, l.Display(frame)).mem, root, Advance(PageAt(l.virtual), d)) ==
        Hit(frame(l.image + 4096 * d))
    {
      RangeTranslates(v0, root, l.image, l.imageEnd, PageAt(l.virtual), frame, AllSlots(), d);
      DisplayApart(l, d);
      RangeKeeps(v1, root, l.display, l.displayEnd, PageAt(l.DisplayStart()), frame, AllSlots(), Advance(PageAt(l.virtual), d));
    }
    forall d | 0 <= d < Pages(l.display, l.displayEnd)
      ensures KernelWalk(MapAll(v1, root, l.Display(frame)).mem, root, Advance(PageAt(l.DisplayStart()), d))
           == Hit(frame(l.display + 4096 * d))
    {
      RangeTranslates(v1, root, l.display, l.displayEnd, PageAt(l.DisplayStart()), frame, AllSlots(), d);
    }
  }

  /** The heap starts behind both ranges: none of its pages is one of theirs. */
  lemma HeapBehind(l: Layout, n: nat)
    requires Pages(l.image, l.imageEnd) + Pages(l.display, l.displayEnd) + n < VIRTUAL_PAGES
    ensures forall d | 0 <= d < Pages(l.image, l.imageEnd) :: Advance(PageAt(l.virtual), d) != HeapPath(l.HeapStart(), n)
    ensures forall d | 0 <= d < Pages(l.display, l.displayEnd) ::
      Advance(PageAt(l.DisplayStart()), d) != HeapPath(l.HeapStart(), n)
  {
    hide *;
    var p, i, j := PageAt(l.virtual), Pages(l.image, l.imageEnd), Pages(l.display, l.displayEnd);
    DisplayStartIs(l);
    HeapStartIs(l);
    FurtherPath(l.virtual, i);
    FurtherPath(l.DisplayStart(), j);
    FurtherPath(l.HeapStart(), n);
    HeapPathIs(l.HeapStart(), n);
    AdvanceTwice(p, i, j);
    AdvanceTwice(p, i + j, n);
    forall d | 0 <= d < i ensures Advance(p, d) != HeapPath(l.HeapStart(), n) {
      PagesApart(p, d, i + j + n);
    }
    forall d | 0 <= d < j ensures Advance(PageAt(l.DisplayStart()), d) != HeapPath(l.HeapStart(), n) {
      AdvanceTwice(p, i, d);
      PagesApart(p, i + d, i + j + n);
    }
  }

  lemma HeapStartIs(l: Layout)
    ensures l.HeapStart() == Further(l.DisplayStart(), Pages(l.display, l.displayEnd))
  {
  }

  /** What is mapped for the kernel is closed to user mode. */
  lemma RangePrivate(v: Vm, root: Frame, base: nat, end: nat, p: Path, frame: nat -> Frame, d: nat, write: bool)
    requires Pages(base, end) <= VIRTUAL_PAGES && IsPage(p) && d < Pages(base, end)
    requires Sound(v, root, 4, AllSlots()) && Fit(v, root, RangeMaplets(base, end, p, frame))
    requires forall e | 0 <= e < Pages(base, end) :: Advance(p, e).idx in AllSlots()
    ensures UserWalk(MapAll(v, root, RangeMaplets(base, end, p, frame)).mem, root, Advance(p, d), write)
         == Access.PageFault(if write then 7 else 5)
  {
    var ms := RangeMaplets(base, end, p, frame);
    var w := MapAll(v, root, ms);
    hide *;
    RangeUnder(base, end, p, frame, AllSlots());
    RangeMapletAt(base, end, p, frame, d);
    forall e | d < e < |ms| ensures ms[e].path != ms[d].path {
      RangeMapletAt(base, end, p, frame, e);
      PagesApart(p, d, e);
    }
    MapAllAt(v, root, ms, AllSlots(), d);
    MapAllSound(v, root, ms, AllSlots());
    PathUnder(ms, AllSlots(), d);
    PrivateLeaf(w, root, Advance(p, d), frame(base + 4096 * d), write);
  }

  lemma PathUnder(ms: seq<Maplet>, top: set<Index>, d: nat)
    requires AllUnder(ms, top) && d < |ms|
    ensures Under(ms[d].path, 4, top)
  {
  }

  lemma PrivateLeaf(w: Vm, root: Frame, q: Path, f: Frame, write: bool)
    requires Sound(w, root, 4, AllSlots()) && Under(q, 4, AllSlots()) && Entry(w.mem, root, q) == KernelLeaf(f)
    ensures UserWalk(w.mem, root, q, write) == Access.PageFault(if write then 7 else 5)
  {
    UserWalkEntry(w.mem, root, q, 4, AllSlots(), write);
  }

  lemma InSlots(l: Layout)
    requires l.Sensible()
    ensures forall d | 0 <= d < Pages(l.image, l.imageEnd) :: Advance(PageAt(l.virtual), d).idx in AllSlots()
    ensures forall d | 0 <= d < Pages(l.display, l.displayEnd) :: Advance(PageAt(l.DisplayStart()), d).idx in AllSlots()
  {
  }

  /** The pages of the display come after those of the image. */
  lemma DisplayApart(l: Layout, d: nat)
    requires l.Sensible() && d < Pages(l.image, l.imageEnd)
    requires Pages(l.image, l.imageEnd) + Pages(l.display, l.displayEnd) <= VIRTUAL_PAGES
    ensures Under(Advance(PageAt(l.virtual), d), 4, AllSlots())
    ensures forall e | 0 <= e < Pages(l.display, l.displayEnd) ::
      Advance(PageAt(l.virtual), d) != Advance(PageAt(l.DisplayStart()), e)
  {
    hide *;
    var n := Pages(l.image, l.imageEnd);
    forall e | 0 <= e < Pages(l.display, l.displayEnd)
      ensures Advance(PageAt(l.virtual), d) != Advance(PageAt(l.DisplayStart()), e)
    {
      FurtherPath(l.virtual, n);
      DisplayStartIs(l);
      AdvanceTwice(PageAt(l.virtual), n, e);
      PagesApart(PageAt(l.virtual), d, n + e);
    }
    ImageUnder(l, d);
  }

  lemma DisplayStartIs(l: Layout)
    ensures l.DisplayStart() == Further(l.virtual, Pages(l.image, l.imageEnd))
  {
  }

  lemma {:induction false} AdvanceTwice(p: Path, n: nat, e: nat)
    requires IsPage(p)
    ensures IsPage(Advance(p, n)) && Advance(Advance(p, n), e) == Advance(p, n + e)
    decreases n
  {
    if n > 0 { AdvanceTwice(NextPage(p), n - 1, e); }
  }

  lemma ImageUnder(l: Layout, d: nat)
    requires l.Sensible() && d < Pages(l.image, l.imageEnd)
    ensures Under(Advance(PageAt(l.virtual), d), 4, AllSlots())
  {
    var any := (n: nat) => Frame(0);
    RangeUnder(l.image, l.imageEnd, PageAt(l.virtual), any, {511});
    RangeMapletAt(l.image, l.imageEnd, PageAt(l.virtual), any, d);
    HighSlot(Advance(PageAt(l.virtual), d), 4);
  }
}
