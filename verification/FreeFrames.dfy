/**
 * From page descriptors to frames: the free queue of the allocator, taken as the list of frames
 * that its descriptors describe, is the list of free frames that the page tables are built from.
 */
module FreeFrames {
  import opened Sequences
  import opened Words
  import opened PageTables
  import opened PageAllocator
  import Fork
  import Forking
  import AddressSpaces

  /** Frame i starts where descriptor chain[i] says. */
  ghost predicate Described(frames: seq<Frame>, pages: seq<MemPage>, chain: seq<nat>) {
    && |frames| == |chain|
    && forall i | 0 <= i < |chain| :: chain[i] < |pages| && frames[i].number as int * 4096 == pages[chain[i]].base
  }

  /** No page is described twice. */
  ghost predicate BasesDiffer(pages: seq<MemPage>, chain: seq<nat>) {
    && (forall i | 0 <= i < |chain| :: chain[i] < |pages|)
    && forall i, j | 0 <= i < j < |chain| :: pages[chain[i]].base != pages[chain[j]].base
  }

  lemma DifferentFrames(frames: seq<Frame>, pages: seq<MemPage>, chain: seq<nat>)
    requires Described(frames, pages, chain) && BasesDiffer(pages, chain)
    ensures Distinct(frames)
  {
    forall i, j | 0 <= i < j < |frames| ensures frames[i] != frames[j] {
      assert pages[chain[i]].base != pages[chain[j]].base;
    }
  }

  /** `make_pages` describes different frames. */
  lemma RegionFrames(l: Lists, base: nat, count: nat, frames: seq<Frame>)
    requires Region(l, base, count) && Described(frames, l.pages, FirstIndices(count))
    ensures BasesDiffer(l.pages, FirstIndices(count)) && Distinct(frames)
    ensures forall i | 0 <= i < count :: frames[i].number as int * 4096 == base + i * 4096
  {
    hide Region, BasesDiffer;
    RegionBases(l, base, count);
    DifferentFrames(frames, l.pages, FirstIndices(count));
  }

  lemma RegionBases(l: Lists, base: nat, count: nat)
    requires Region(l, base, count)
    ensures count < |l.pages| && BasesDiffer(l.pages, FirstIndices(count))
    ensures forall i | 0 <= i < count :: l.pages[FirstIndices(count)[i]].base == base + i * 4096
  {
    hide Region;
    RegionAt(l, base, count);
    forall i, j | 0 <= i < j < count
      ensures l.pages[FirstIndices(count)[i]].base != l.pages[FirstIndices(count)[j]].base
    {
      assert FirstIndices(count)[i] == i + 1 && l.pages[i + 1].base == base + i * 4096;
      assert FirstIndices(count)[j] == j + 1 && l.pages[j + 1].base == base + j * 4096;
    }
  }

  lemma RegionAt(l: Lists, base: nat, count: nat)
    requires Region(l, base, count)
    ensures count < |l.pages|
    ensures forall i | 0 <= i < count :: l.pages[i + 1].base == base + i * 4096
  {
    hide Chained;
  }

  /** The frames of the pages that survive a filter, in their order. */
  function FramesLeft(frames: seq<Frame>, pages: seq<MemPage>, chain: seq<nat>, base: nat, top: nat): seq<Frame>
    requires |frames| == |chain|
    decreases |chain|
  {
    if chain == [] then []
    else
      var n := |chain| - 1;
      var left := FramesLeft(frames[..n], pages, chain[..n], base, top);
      if chain[n] < |pages| && Outside(pages[chain[n]], base, top) then left + [frames[n]] else left
  }

  lemma LeftStep(frames: seq<Frame>, pages: seq<MemPage>, chain: seq<nat>, base: nat, top: nat, n: nat)
    requires |frames| == |chain| == n + 1
    ensures FramesLeft(frames, pages, chain, base, top) ==
      FramesLeft(frames[..n], pages, chain[..n], base, top)
      + if chain[n] < |pages| && Outside(pages[chain[n]], base, top) then [frames[n]] else []
    ensures Survivors(pages, chain, base, top) ==
      Survivors(pages, chain[..n], base, top)
      + if chain[n] < |pages| && Outside(pages[chain[n]], base, top) then [chain[n]] else []
  {
  }

  lemma AllButLast(frames: seq<Frame>, pages: seq<MemPage>, chain: seq<nat>, n: nat)
    requires Described(frames, pages, chain) && BasesDiffer(pages, chain) && |chain| == n + 1
    ensures |frames| == n + 1 && chain[n] < |pages| && frames[n].number as int * 4096 == pages[chain[n]].base
    ensures Described(frames[..n], pages, chain[..n]) && BasesDiffer(pages, chain[..n])
    ensures forall x | x in chain[..n] :: x < |pages| && pages[x].base != pages[chain[n]].base
  {
  }

  lemma OneMore(left: seq<Frame>, pages: seq<MemPage>, kept: seq<nat>, f: Frame, x: nat)
    requires Described(left, pages, kept) && BasesDiffer(pages, kept)
    requires x < |pages| && f.number as int * 4096 == pages[x].base
    requires forall y | y in kept :: y < |pages| && pages[y].base != pages[x].base
    ensures Described(left + [f], pages, kept + [x]) && BasesDiffer(pages, kept + [x])
  {
    forall i | 0 <= i < |kept| ensures pages[kept[i]].base != pages[x].base {
      assert kept[i] in kept;
    }
  }

  /** The filter leaves exactly the frames outside the range and describes them as before. */
  lemma {:induction false} SurvivingFrames(frames: seq<Frame>, pages: seq<MemPage>, chain: seq<nat>, base: nat, top: nat)
    requires Described(frames, pages, chain) && BasesDiffer(pages, chain)
    ensures |frames| == |chain|
    ensures var (left, kept) := (FramesLeft(frames, pages, chain, base, top), Survivors(pages, chain, base, top));
      && Described(left, pages, kept) && BasesDiffer(pages, kept)
      && forall f :: f in left <==> f in frames && (f.number as int * 4096 < base || f.number as int * 4096 >= top)
    decreases |chain|
  {
    hide *;
    SameLength(frames, pages, chain);
    if chain == [] {
      NoneLeft(frames, pages, base, top);
    } else {
      var n := |chain| - 1;
      AllButLast(frames, pages, chain, n);
      LeftStep(frames, pages, chain, base, top, n);
      SurvivingFrames(frames[..n], pages, chain[..n], base, top);
      ChainWithin(frames[..n], pages, chain[..n]);
      SurvivorsAre(pages, chain[..n], base, top);
      assert frames == frames[..n] + [frames[n]];
      OutsideIs(pages[chain[n]], base, top);
      var left, kept := FramesLeft(frames[..n], pages, chain[..n], base, top), Survivors(pages, chain[..n], base, top);
      assert left + [] == left && kept + [] == kept;
      if Outside(pages[chain[n]], base, top) {
        OneMore(left, pages, kept, frames[n], chain[n]);
      }
    }
  }

  lemma NoneLeft(frames: seq<Frame>, pages: seq<MemPage>, base: nat, top: nat)
    requires |frames| == 0
    ensures FramesLeft(frames, pages, [], base, top) == [] && Survivors(pages, [], base, top) == []
    ensures Described([], pages, []) && BasesDiffer(pages, [])
  {
  }

  lemma OutsideIs(page: MemPage, base: nat, top: nat)
    ensures Outside(page, base, top) <==> page.base < base || page.base >= top
  {
  }

  lemma SameLength(frames: seq<Frame>, pages: seq<MemPage>, chain: seq<nat>)
    requires Described(frames, pages, chain)
    ensures |frames| == |chain|
  {
  }

  lemma ChainWithin(frames: seq<Frame>, pages: seq<MemPage>, chain: seq<nat>)
    requires Described(frames, pages, chain)
    ensures |frames| == |chain| && forall i | 0 <= i < |chain| :: chain[i] < |pages|
  {
  }

  /** n calls of `get_free_page` take the first n frames of the list and leave the others described. */
  lemma TakesFrames(l: Lists, free: seq<nat>, used: seq<nat>, frames: seq<Frame>, n: nat)
    requires Chains(l, free, used) && n <= |free| && Described(frames, l.pages, free) && BasesDiffer(l.pages, free)
    ensures InBounds(l) && |frames| == |free|
    ensures Described(frames[..n], l.pages, Takes(l, n).0)
    ensures Described(frames[n..], Takes(l, n).1.pages, free[n..]) && BasesDiffer(Takes(l, n).1.pages, free[n..])
  {
    hide *;
    TakesPartition(l, free, used, n);
    SameDescriptions(l.pages, Takes(l, n).1.pages, frames, free);
    DescribedParts(l.pages, frames, free, n);
    DescribedParts(Takes(l, n).1.pages, frames, free, n);
  }

  lemma SameDescriptions(pages: seq<MemPage>, pages': seq<MemPage>, frames: seq<Frame>, chain: seq<nat>)
    requires SameBases(pages, pages') && Described(frames, pages, chain) && BasesDiffer(pages, chain)
    ensures Described(frames, pages', chain) && BasesDiffer(pages', chain)
  {
  }

  lemma DescribedParts(pages: seq<MemPage>, frames: seq<Frame>, chain: seq<nat>, n: nat)
    requires Described(frames, pages, chain) && BasesDiffer(pages, chain) && n <= |chain|
    ensures |frames| == |chain| && Described(frames[..n], pages, chain[..n])
    ensures Described(frames[n..], pages, chain[n..]) && BasesDiffer(pages, chain[n..])
  {
  }

  /**
   * A queue that describes different frames is all that the first root needs of the free frames
   * besides their zeros; what is left is described by the rest of the queue.
   */
  lemma FirstRootTaken(l: Lists, free: seq<nat>, used: seq<nat>, v: Vm)
    requires Chains(l, free, used) && free != [] && Described(v.free, l.pages, free) && BasesDiffer(l.pages, free)
    requires Fork.Zeroed(v)
    ensures |v.free| > 0 && InBounds(l)
    ensures var root := v.free[0];
      var w := Vm(Store(Clear(v.mem, root), root, 510, Link(root)), v.free[1..]);
      && AddressSpaces.Alone(w, root) && Forking.SeenAlone(w, root) == imap[]
      && Described([root], l.pages, [l.freeHead])
      && Described(w.free, Taken(l).pages, free[1..]) && BasesDiffer(Taken(l).pages, free[1..])
  {
    hide *;
    DifferentFrames(v.free, l.pages, free);
    TakesFrames(l, free, used, v.free, 1);
    TakesStep(l, 1);
    TakesStep(Taken(l), 0);
    assert v.free[..1] == [v.free[0]] && [l.freeHead] + [] == [l.freeHead];
    AddressSpaces.FirstRoot(v);
  }
}
