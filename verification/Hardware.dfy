/**
 * What the processor does with the tables: the four-level walk with its access rights and
 * fault codes (Intel 64 SDM, Volume 3A, sections 4.5 to 4.7), and the machine state that the
 * kernel code works on.
 */
module Hardware {
  import opened Words
  import opened PageTables
  import opened Addresses

  datatype Access = Granted(frame: Frame) | PageFault(code: nat)

  /** Page-fault error code of a user-mode access: P is bit 0, W/R bit 1, U/S bit 2. */
  function FaultCode(protection: bool, write: bool): nat {
    (if protection then 1 else 0) + (if write then 2 else 0) + 4
  }

  /**
   * A user-mode access along p.  Rights are the conjunction of the rights in every entry on
   * the way; a missing entry at any level is reported as not present.
   */
  function UserWalk(m: Memory, t: Frame, p: Path, write: bool, writable: bool := true, user: bool := true): Access
    decreases p
  {
    match p
    case End => if user && (write ==> writable) then Granted(t) else PageFault(FaultCode(true, write))
    case Step(i, rest) =>
      if !m[t][i].present then PageFault(FaultCode(false, write))
      else UserWalk(m, m[t][i].frame, rest, write, writable && m[t][i].writable, user && m[t][i].user)
  }

  datatype Found = Nowhere | Hit(frame: Frame)

  /** A kernel-mode access along p: every entry has to be present. */
  function KernelWalk(m: Memory, t: Frame, p: Path): Found
    decreases p
  {
    match p
    case End => Hit(t)
    case Step(i, rest) => if m[t][i].present then KernelWalk(m, m[t][i].frame, rest) else Nowhere
  }

  /** The walk as decided by the leaf entry alone. */
  function LeafAccess(e: Word, write: bool): Access {
    if !e.present then PageFault(FaultCode(false, write))
    else if e.user && (write ==> e.writable) then Granted(e.frame)
    else PageFault(FaultCode(true, write))
  }

  /** In a tree of kernel-made links, rights and presence are those of the leaf entry. */
  lemma {:induction false} UserWalkEntry(m: Memory, t: Frame, p: Path, n: Level, top: set<Index>, write: bool)
    requires Under(p, n, top) && Tree(m, t, n, top)
    ensures UserWalk(m, t, p, write) == LeafAccess(Entry(m, t, p), write)
    decreases p
  {
    if p.rest.Step? {
      if m[t][p.idx] != ZERO {
        assert Kid(m, t, n, p.idx, top);
        UserWalkEntry(m, Sub(m, t, p.idx), p.rest, n - 1, top, write);
      }
    }
  }

  lemma {:induction false} KernelWalkEntry(m: Memory, t: Frame, p: Path, n: Level, top: set<Index>)
    requires Under(p, n, top) && Tree(m, t, n, top)
    ensures KernelWalk(m, t, p) == if Entry(m, t, p).present then Hit(Entry(m, t, p).frame) else Nowhere
    decreases p
  {
    if p.rest.Step? && m[t][p.idx] != ZERO {
      assert Kid(m, t, n, p.idx, top);
      KernelWalkEntry(m, Sub(m, t, p.idx), p.rest, n - 1, top);
    }
  }

  /** Slot 510 of a top-level table leads back to it. */
  predicate SelfMapped(m: Memory, root: Frame) { m[root][510] == Link(root) }

  /** q, preceded by k visits to slot 510. */
  function Padded(q: Path, k: nat): Path { if k == 0 then q else Step(510, Padded(q, k - 1)) }

  lemma {:induction false} PaddedWalk(m: Memory, root: Frame, q: Path, k: nat)
    requires SelfMapped(m, root)
    ensures KernelWalk(m, root, Padded(q, k)) == KernelWalk(m, root, q)
  {
    if k > 0 { PaddedWalk(m, root, q, k - 1); }
  }

  lemma {:induction false} PaddedAppend(q: Path, k: nat, i: Index)
    ensures Append(Padded(q, k), i) == Padded(Append(q, i), k)
  {
    if k > 0 { PaddedAppend(q, k - 1, i); }
  }

  lemma {:induction false} WalkAppend(m: Memory, t: Frame, q: Path, i: Index)
    requires KernelWalk(m, t, q).Hit?
    ensures KernelWalk(m, t, Append(q, i)) ==
      var last := KernelWalk(m, t, q).frame;
      if m[last][i].present then Hit(m[last][i].frame) else Nowhere
    decreases q
  {
    match q
    case End =>
    case Step(j, rest) => WalkAppend(m, m[t][j].frame, rest, i);
  }

  /** The tables a walk along q passes through before it arrives. */
  ghost function Passed(m: Memory, t: Frame, q: Path): iset<Frame>
    decreases q
  {
    match q
    case End => iset{}
    case Step(i, rest) => iset{t} + Passed(m, m[t][i].frame, rest)
  }

  lemma {:induction false} AgreeWalk(m: Memory, m': Memory, t: Frame, q: Path)
    requires Agree(m, m', Passed(m, t, q))
    ensures KernelWalk(m', t, q) == KernelWalk(m, t, q) && Passed(m', t, q) == Passed(m, t, q)
    decreases q
  {
    match q
    case End =>
    case Step(i, rest) => AgreeWalk(m, m', m[t][i].frame, rest);
  }

  lemma {:induction false} PassedAppend(m: Memory, t: Frame, q: Path, i: Index)
    requires KernelWalk(m, t, q).Hit?
    ensures Passed(m, t, Append(q, i)) == Passed(m, t, q) + iset{KernelWalk(m, t, q).frame}
    decreases q
  {
    match q
    case End =>
    case Step(j, rest) => PassedAppend(m, m[t][j].frame, rest, i);
  }

  /** A walk within a tree passes through tables of the tree. */
  lemma {:induction false} PassedReach(m: Memory, t: Frame, q: Path, n: Level, top: set<Index>)
    requires Under(q, n, top) && Tree(m, t, n, top) && KernelWalk(m, t, q).Hit?
    ensures Passed(m, t, q) <= Reach(m, t, n, top)
    decreases q
  {
    assert t in Reach(m, t, n, top);
    if n > 1 {
      if m[t][q.idx] != ZERO {
        assert Kid(m, t, n, q.idx, top);
        SubReach(m, t, n, q.idx, top);
        PassedReach(m, Sub(m, t, q.idx), q.rest, n - 1, top);
      }
    } else {
      assert Passed(m, t, q) == iset{t} + Passed(m, m[t][q.idx].frame, End);
    }
  }

  lemma {:induction false} PaddedPassed(m: Memory, root: Frame, q: Path, k: nat)
    requires SelfMapped(m, root)
    ensures Passed(m, root, Padded(q, k)) <= iset{root} + Passed(m, root, q)
  {
    if k > 0 { PaddedPassed(m, root, q, k - 1); }
  }

  /** A page of which the first i words have been replaced. */
  function Spliced(front: Page, rest: Page, i: nat): Page
    requires i <= 512
  {
    front[..i] + rest[i..]
  }

  lemma SplicedNone(m: Memory, f: Frame, front: Page)
    ensures m[f := Spliced(front, m[f], 0)] == m
  {
    assert Spliced(front, m[f], 0) == m[f];
  }

  lemma SplicedAll(m: Memory, f: Frame, front: Page)
    ensures m[f := Spliced(front, m[f], 512)] == m[f := front]
  {
    assert Spliced(front, m[f], 512) == front;
  }

  lemma SplicedMore(m: Memory, f: Frame, front: Page, i: Index)
    ensures Store(m[f := Spliced(front, m[f], i)], f, i, front[i]) == m[f := Spliced(front, m[f], i + 1)]
  {
    assert Spliced(front, m[f], i)[i := front[i]] == Spliced(front, m[f], i + 1);
  }

  lemma ZeroAt(i: Index)
    ensures ZeroPage()[i] == ZERO
  {
  }

  lemma ClearIs(m: Memory, f: Frame)
    ensures Clear(m, f) == m[f := ZeroPage()]
  {
  }

  /** Writing to a frame off the walk leaves the walk as it is. */
  lemma WalkStays(m: Memory, root: Frame, q: Path, f: Frame, page: Page)
    requires f !in Passed(m, root, q)
    ensures KernelWalk(m[f := page], root, q) == KernelWalk(m, root, q)
  {
    AgreeWalk(m, m[f := page], root, q);
  }

  /** Physical memory, the chain of free frames and the control register CR3. */
  class Machine {
    var mem: Memory
    var free: seq<Frame>
    var cr3: Frame

    constructor (m: Memory, f: seq<Frame>, root: Frame)
      ensures mem == m && free == f && cr3 == root
    {
      mem, free, cr3 := m, f, root;
    }

    ghost function State(): Vm reads this { Vm(mem, free) }

    /** The frame that a kernel pointer to a page denotes under the current tables. */
    ghost function Frame(page: bv64): Found reads this { KernelWalk(mem, cr3, PathOf(page)) }

    ghost predicate Mapped(page: bv64) reads this { Canonical(page) && Frame(page).Hit? }

    /** `page[i]` read through the current tables. */
    method Read(page: bv64, i: Index) returns (w: Word)
      requires Mapped(page)
      ensures w == mem[Frame(page).frame][i]
    {
      var f := KernelWalk(mem, cr3, PathOf(page));
      w := mem[f.frame][i];
    }

    /** `page[i] = w` through the current tables. */
    method Write(page: bv64, i: Index, w: Word)
      requires Mapped(page)
      modifies this`mem
      ensures mem == Store(old(mem), old(Frame(page)).frame, i, w)
    {
      var f := KernelWalk(mem, cr3, PathOf(page));
      mem := Store(mem, f.frame, i, w);
    }

    /**
     * `zero_out` on a page seen through the current tables, word by word.  The page must be none of
     * the tables it is seen through; then the pointer denotes the same frame throughout.
     */
    method ZeroOut(page: bv64)
      requires Apart(page)
      modifies this`mem
      ensures mem == Clear(old(mem), old(Frame(page)).frame) && Frame(page) == old(Frame(page))
    {
      ghost var m, f := mem, Frame(page).frame;
      hide *;
      SplicedNone(m, f, ZeroPage());
      for i := 0 to 512
        invariant mem == m[f := Spliced(ZeroPage(), m[f], i)]
      {
        StaysMapped(this, m, f, Spliced(ZeroPage(), m[f], i), page);
        Write(page, i, ZERO);
        ZeroAt(i);
        SplicedMore(m, f, ZeroPage(), i);
      }
      SplicedAll(m, f, ZeroPage());
      ClearIs(m, f);
      StaysMapped(this, m, f, ZeroPage(), page);
    }

    /** The page is none of the tables on the way to it. */
    ghost predicate Apart(page: bv64) reads this {
      Mapped(page) && Frame(page).frame !in Passed(mem, cr3, PathOf(page))
    }

    /** The words of a page, read one by one. */
    method ReadPage(page: bv64) returns (contents: Page)
      requires Mapped(page)
      ensures contents == mem[Frame(page).frame]
    {
      contents := ZeroPage();
      for i := 0 to 512
        invariant forall j | 0 <= j < i :: contents[j] == mem[Frame(page).frame][j]
      {
        var w := Read(page, i);
        contents := contents[i := w];
      }
    }

    /** The words of a page, overwritten one by one. */
    method WritePage(page: bv64, contents: Page)
      requires Apart(page)
      modifies this`mem
      ensures mem == old(mem)[old(Frame(page)).frame := contents]
    {
      ghost var m, f := mem, Frame(page).frame;
      hide *;
      SplicedNone(m, f, contents);
      for i := 0 to 512
        invariant mem == m[f := Spliced(contents, m[f], i)]
      {
        StaysMapped(this, m, f, Spliced(contents, m[f], i), page);
        Write(page, i, contents[i]);
        SplicedMore(m, f, contents, i);
      }
      SplicedAll(m, f, contents);
    }

    /** The next free frame. */
    method GetFreePage() returns (f: Frame)
      requires |free| > 0
      modifies this`free
      ensures f == old(free)[0] && free == old(free)[1..]
    {
      f := free[0];
      free := free[1..];
    }
  }

  /** What a pointer denotes, in the machine's terms. */
  lemma Denotes(k: Machine, page: bv64, f: Frame)
    requires KernelWalk(k.mem, k.cr3, PathOf(page)) == Hit(f) && Canonical(page)
    ensures k.Mapped(page) && k.Frame(page) == Hit(f) && k.State() == Vm(k.mem, k.free)
  {
  }

  lemma DenotesApart(k: Machine, page: bv64, f: Frame)
    requires KernelWalk(k.mem, k.cr3, PathOf(page)) == Hit(f) && Canonical(page) && f !in Passed(k.mem, k.cr3, PathOf(page))
    ensures k.Apart(page) && k.Frame(page) == Hit(f)
  {
  }

  /** A pointer to a frame off the walk to it keeps denoting it while the frame is written to. */
  lemma StaysMapped(k: Machine, m: Memory, f: Frame, contents: Page, page: bv64)
    requires k.mem == m[f := contents] && Canonical(page)
    requires KernelWalk(m, k.cr3, PathOf(page)) == Hit(f) && f !in Passed(m, k.cr3, PathOf(page))
    ensures k.Mapped(page) && k.Frame(page) == Hit(f)
  {
    WalkStays(m, k.cr3, PathOf(page), f, contents);
  }

  lemma StateIs(k: Machine)
    ensures k.State() == Vm(k.mem, k.free)
  {
  }
}
