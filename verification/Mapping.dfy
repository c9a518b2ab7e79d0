/**
 * The kernel's two ways to map a page: `k_map_v` follows physical tables, `map_page` reaches
 * the same tables through slot 510 of the active top-level table.
 */
module Mapping {
  import opened Sequences
  import opened Words
  import opened PageTables
  import opened Addresses
  import opened Hardware

  lemma CreatedChanged(v: Vm, t: Frame, i: Index)
    requires |v.free| > 0
    ensures Created(v, t, i).free == v.free[1..] && v.free[0] in Frames(v.free) && Frames(v.free[1..]) <= Frames(v.free)
    ensures Changed(v.mem, Created(v, t, i).mem, iset{t} + iset{v.free[0]})
  {
  }

  lemma GrownChanged(v: Vm, w: Vm, t: Frame, p: Path, leaf: Word, n: Level, top: set<Index>, k: nat)
    requires Grown(v, w, t, p, leaf, n, top, k)
    ensures Changed(v.mem, w.mem, Reach(v.mem, t, n, top) + Frames(v.free))
  {
  }

  lemma MappedNew(v: Vm, t: Frame, p: Path, leaf: Word, n: Level, top: set<Index>)
    requires Under(p, n, top) && n > 1 && v.mem[t][p.idx] == ZERO && Missing(v.mem, t, p) <= |v.free|
    ensures 0 < Missing(v.mem, t, p) && p.rest.Step? && Under(p.rest, n - 1, top)
    ensures var v1 := Created(v, t, p.idx);
      Missing(v1.mem, v.free[0], p.rest) <= |v1.free| && Mapped(v, t, p, leaf) == Mapped(v1, v.free[0], p.rest, leaf)
  {
  }

  /** Where the first table is missing, mapping changes the slot on the path and frames that were free. */
  lemma MapsBelowNew(v: Vm, t: Frame, p: Path, leaf: Word, n: Level, top: set<Index>)
    requires Under(p, n, top) && n > 1 && v.mem[t][p.idx] == ZERO
    requires Sound(v, t, n, top) && Missing(v.mem, t, p) <= |v.free|
    ensures |v.free| > 0
    ensures Mapped(v, t, p, leaf).mem[t] == v.mem[t][p.idx := Link(v.free[0])]
    ensures Changed(v.mem, Mapped(v, t, p, leaf).mem, iset{t} + Frames(v.free))
  {
    hide *;
    UnderStep(p, n, top);
    MappedNew(v, t, p, leaf, n, top);
    var v1, f, w := Created(v, t, p.idx), v.free[0], Mapped(v, t, p, leaf);
    CreatedSound(v, t, n, p.idx, top);
    CreatedChanged(v, t, p.idx);
    RootApart(v, t, n, top, p.idx);
    MappedGrows(v1, f, p.rest, leaf, n - 1, top);
    GrownChanged(v1, w, f, p.rest, leaf, n - 1, top, Missing(v1.mem, f, p.rest));
    ChangedAt(v1.mem, w.mem, iset{f} + Frames(v1.free), t);
    ChangedTwice(v.mem, v1.mem, w.mem, iset{t} + iset{f}, iset{f} + Frames(v1.free), iset{t} + Frames(v.free));
  }

  /** Where it is there, mapping changes the tables below it and frames that were free. */
  lemma MapsBelowOld(v: Vm, t: Frame, p: Path, leaf: Word, n: Level, top: set<Index>)
    requires Under(p, n, top) && n > 1 && v.mem[t][p.idx] != ZERO
    requires Sound(v, t, n, top) && Missing(v.mem, t, p) <= |v.free|
    ensures Changed(v.mem, Mapped(v, t, p, leaf).mem, Reach(v.mem, Sub(v.mem, t, p.idx), n - 1, top) + Frames(v.free))
  {
    SoundSub(v, t, n, p.idx, top);
    MappedGrows(v, Sub(v.mem, t, p.idx), p.rest, leaf, n - 1, top);
  }

  /** The tables below another slot are neither t, nor free, nor below the slot on the path. */
  lemma OtherSlotApart(v: Vm, t: Frame, n: Level, top: set<Index>, i: Index, j: Index)
    requires n > 1 && Sound(v, t, n, top) && i != j && Kid(v.mem, t, n, j, top)
    ensures var other := Reach(v.mem, Sub(v.mem, t, j), n - 1, top);
      && t !in other && other !! Frames(v.free)
      && (Kid(v.mem, t, n, i, top) ==> other !! Reach(v.mem, Sub(v.mem, t, i), n - 1, top))
  {
    SubReach(v.mem, t, n, j, top);
  }

  lemma RootApart(v: Vm, t: Frame, n: Level, top: set<Index>, i: Index)
    requires Sound(v, t, n, top)
    ensures t !in Frames(v.free) && (Kid(v.mem, t, n, i, top) ==> t !in Reach(v.mem, Sub(v.mem, t, i), n - 1, top))
  {
    assert t in Reach(v.mem, t, n, top);
  }

  lemma MappedAgree(v: Vm, t: Frame, p: Path, leaf: Word, n: Level, top: set<Index>, j: Index)
    requires Under(p, n, top) && n > 1
    requires Sound(v, t, n, top) && Missing(v.mem, t, p) <= |v.free|
    requires j != p.idx && Kid(v.mem, t, n, j, top)
    ensures Agree(v.mem, Mapped(v, t, p, leaf).mem, Reach(v.mem, Sub(v.mem, t, j), n - 1, top))
  {
    hide *;
    UnderStep(p, n, top);
    OtherSlotApart(v, t, n, top, p.idx, j);
    var other := Reach(v.mem, Sub(v.mem, t, j), n - 1, top);
    if v.mem[t][p.idx] == ZERO {
      MapsBelowNew(v, t, p, leaf, n, top);
      ChangedAgree(v.mem, Mapped(v, t, p, leaf).mem, iset{t} + Frames(v.free), other);
    } else {
      KidIs(v.mem, t, n, p.idx, top);
      MapsBelowOld(v, t, p, leaf, n, top);
      ChangedAgree(v.mem, Mapped(v, t, p, leaf).mem, Reach(v.mem, Sub(v.mem, t, p.idx), n - 1, top) + Frames(v.free), other);
    }
  }

  lemma UnderStep(p: Path, n: Level, top: set<Index>)
    requires Under(p, n, top)
    ensures p.Step? && Live(n, p.idx, top)
  {
  }

  lemma KidIs(m: Memory, t: Frame, n: Level, i: Index, top: set<Index>)
    ensures Kid(m, t, n, i, top) <==> n > 1 && Live(n, i, top) && m[t][i] != ZERO
  {
  }

  /** Above the last level, mapping changes at most the slot on the path. */
  lemma MappedSlots(v: Vm, t: Frame, p: Path, leaf: Word, n: Level, top: set<Index>)
    requires Under(p, n, top) && n > 1
    requires Sound(v, t, n, top) && Missing(v.mem, t, p) <= |v.free|
    ensures v.mem[t][p.idx] == ZERO ==> |v.free| > 0
    ensures var w := Mapped(v, t, p, leaf);
      && w.mem[t] == v.mem[t][p.idx := if v.mem[t][p.idx] == ZERO then Link(v.free[0]) else v.mem[t][p.idx]]
      && forall j: Index | j != p.idx && Kid(v.mem, t, n, j, top) ::
           Agree(v.mem, w.mem, Reach(v.mem, Sub(v.mem, t, j), n - 1, top))
  {
    hide *;
    UnderStep(p, n, top);
    if v.mem[t][p.idx] == ZERO {
      MapsBelowNew(v, t, p, leaf, n, top);
    } else {
      KidIs(v.mem, t, n, p.idx, top);
      RootApart(v, t, n, top, p.idx);
      MapsBelowOld(v, t, p, leaf, n, top);
      ChangedAt(v.mem, Mapped(v, t, p, leaf).mem, Reach(v.mem, Sub(v.mem, t, p.idx), n - 1, top) + Frames(v.free), t);
      assert v.mem[t][p.idx := v.mem[t][p.idx]] == v.mem[t];
    }
    forall j: Index | j != p.idx && Kid(v.mem, t, n, j, top)
      ensures Agree(v.mem, Mapped(v, t, p, leaf).mem, Reach(v.mem, Sub(v.mem, t, j), n - 1, top))
    {
      MappedAgree(v, t, p, leaf, n, top, j);
    }
  }

  lemma MappedApart(v: Vm, t: Frame, p: Path, q: Path, leaf: Word, n: Level, top: set<Index>)
    requires Under(p, n, top) && Under(q, n, top) && n > 1 && p.idx != q.idx
    requires Sound(v, t, n, top) && Missing(v.mem, t, p) <= |v.free|
    ensures Entry(Mapped(v, t, p, leaf).mem, t, q) == Entry(v.mem, t, q)
  {
    MappedSlots(v, t, p, leaf, n, top);
    if v.mem[t][q.idx] != ZERO {
      assert Kid(v.mem, t, n, q.idx, top);
      AgreeEntry(v.mem, Mapped(v, t, p, leaf).mem, Sub(v.mem, t, q.idx), q.rest, n - 1, top);
    }
  }

  lemma ZeroEntry(m: Memory, t: Frame, q: Path)
    requires m[t] == ZeroPage()
    ensures Entry(m, t, q) == ZERO
  {
  }

  lemma EntryBelow(m: Memory, t: Frame, q: Path)
    requires q.Step? && q.rest.Step?
    ensures Entry(m, t, q) == if m[t][q.idx] == ZERO then ZERO else Entry(m, Sub(m, t, q.idx), q.rest)
  {
  }

  lemma MappedOld(v: Vm, t: Frame, p: Path, leaf: Word, n: Level, top: set<Index>)
    requires Under(p, n, top) && n > 1 && v.mem[t][p.idx] != ZERO && Missing(v.mem, t, p) <= |v.free|
    ensures p.rest.Step? && Under(p.rest, n - 1, top) && Kid(v.mem, t, n, p.idx, top)
    ensures Missing(v.mem, Sub(v.mem, t, p.idx), p.rest) <= |v.free|
    ensures Mapped(v, t, p, leaf) == Mapped(v, Sub(v.mem, t, p.idx), p.rest, leaf)
  {
  }

  /** Mapping a page leaves every other translation of the tree alone. */
  lemma {:induction false} MappedOther(v: Vm, t: Frame, p: Path, q: Path, leaf: Word, n: Level, top: set<Index>)
    requires Under(p, n, top) && Under(q, n, top) && p != q
    requires Sound(v, t, n, top) && Missing(v.mem, t, p) <= |v.free|
    ensures Entry(Mapped(v, t, p, leaf).mem, t, q) == Entry(v.mem, t, q)
    decreases p
  {
    hide *;
    UnderStep(p, n, top);
    UnderStep(q, n, top);
    if n == 1 {
      MappedLeaf(v, t, p, q, leaf, top);
    } else if p.idx != q.idx {
      MappedApart(v, t, p, q, leaf, n, top);
    } else {
      var w := Mapped(v, t, p, leaf);
      UnderRest(p, n, top);
      UnderRest(q, n, top);
      EntryBelow(v.mem, t, q);
      EntryBelow(w.mem, t, q);
      MappedSlots(v, t, p, leaf, n, top);
      if v.mem[t][p.idx] == ZERO {
        var v1, f := Created(v, t, p.idx), v.free[0];
        MappedNew(v, t, p, leaf, n, top);
        CreatedSound(v, t, n, p.idx, top);
        MappedOther(v1, f, p.rest, q.rest, leaf, n - 1, top);
        ZeroEntry(v1.mem, f, q.rest);
        LinkLeads(v.mem, w.mem, t, p.idx, f);
      } else {
        MappedOld(v, t, p, leaf, n, top);
        SoundSub(v, t, n, p.idx, top);
        MappedOther(v, Sub(v.mem, t, p.idx), p.rest, q.rest, leaf, n - 1, top);
        SameLeads(v.mem, w.mem, t, p.idx);
      }
    }
  }

  lemma UnderRest(p: Path, n: Level, top: set<Index>)
    requires Under(p, n, top) && n > 1
    ensures p.Step? && p.rest.Step? && Under(p.rest, n - 1, top)
  {
  }

  lemma MappedLeaf(v: Vm, t: Frame, p: Path, q: Path, leaf: Word, top: set<Index>)
    requires Under(p, 1, top) && Under(q, 1, top) && p != q && Missing(v.mem, t, p) <= |v.free|
    ensures Entry(Mapped(v, t, p, leaf).mem, t, q) == Entry(v.mem, t, q)
  {
  }

  lemma LinkLeads(m: Memory, m': Memory, t: Frame, i: Index, f: Frame)
    requires m'[t] == m[t][i := Link(f)]
    ensures m'[t][i] != ZERO && Sub(m', t, i) == f
  {
  }

  lemma SameLeads(m: Memory, m': Memory, t: Frame, i: Index)
    requires m'[t] == m[t][i := m[t][i]]
    ensures m'[t][i] == m[t][i] && Sub(m', t, i) == Sub(m, t, i)
  {
  }

  /**
   * After mapping p the hardware finds the new frame there, every other page is translated as
   * before with the same rights, and the tables are still a tree apart from the free frames.
   */
  lemma MappedTranslates(v: Vm, root: Frame, p: Path, leaf: Word, top: set<Index>, q: Path, write: bool)
    requires Under(p, 4, top) && Under(q, 4, top) && leaf.present
    requires Sound(v, root, 4, top) && Missing(v.mem, root, p) <= |v.free|
    ensures var w := Mapped(v, root, p, leaf);
      && KernelWalk(w.mem, root, p) == Hit(leaf.frame)
      && (q != p ==> KernelWalk(w.mem, root, q) == KernelWalk(v.mem, root, q))
      && (q != p ==> UserWalk(w.mem, root, q, write) == UserWalk(v.mem, root, q, write))
      && Sound(w, root, 4, top)
  {
    var w := Mapped(v, root, p, leaf);
    MappedGrows(v, root, p, leaf, 4, top);
    KernelWalkEntry(w.mem, root, p, 4, top);
    if q != p {
      MappedOther(v, root, p, q, leaf, 4, top);
      KernelWalkEntry(w.mem, root, q, 4, top);
      KernelWalkEntry(v.mem, root, q, 4, top);
      UserWalkEntry(w.mem, root, q, 4, top, write);
      UserWalkEntry(v.mem, root, q, 4, top, write);
    }
  }

  /**
   * `k_map_v`: the recursive walk over physical tables, with the last `level` indices of virt
   * still to go.
   */
  method KMapV(k: Machine, phys: Frame, virt: bv64, table: Frame, level: Level)
    requires Missing(k.mem, table, PathFrom(virt, level)) <= |k.free|
    modifies k`mem, k`free
    ensures k.State() == old(Mapped(k.State(), table, PathFrom(virt, level), KernelLeaf(phys)))
    decreases level
  {
    hide *;
    var index := At(virt, level);
    ghost var v, p, leaf := Vm(k.mem, k.free), PathFrom(virt, level), KernelLeaf(phys);
    StateIs(k);
    if level == 1 {
      PathFromLast(virt);
      MappedEnd(v, table, p, leaf);
      k.mem := Store(k.mem, table, index, KernelLeaf(phys));
      StateIs(k);
      return;
    }
    PathFromStep(virt, level);
    MappedRound(v, table, p, leaf);
    if k.mem[table][index] == ZERO {
      var next := k.GetFreePage();
      k.mem := Clear(k.mem, next);
      k.mem := Store(k.mem, table, index, Link(next));
    }
    StateIs(k);
    KMapV(k, phys, virt, k.mem[table][index].frame, level - 1);
  }

  lemma MappedEnd(v: Vm, t: Frame, p: Path, leaf: Word)
    requires p.Step? && p.rest.End?
    ensures Missing(v.mem, t, p) == 0 && Mapped(v, t, p, leaf) == Vm(Store(v.mem, t, p.idx, leaf), v.free)
  {
  }

  /** One level of the direct walk. */
  lemma MappedRound(v: Vm, t: Frame, p: Path, leaf: Word)
    requires p.Step? && p.rest.Step? && Missing(v.mem, t, p) <= |v.free|
    ensures v.mem[t][p.idx] == ZERO ==> |v.free| > 0
    ensures var v1 := if v.mem[t][p.idx] == ZERO
                      then Vm(Store(Clear(v.mem, v.free[0]), t, p.idx, Link(v.free[0])), v.free[1..]) else v;
      && Missing(v1.mem, v1.mem[t][p.idx].frame, p.rest) <= |v1.free|
      && Mapped(v, t, p, leaf) == Mapped(v1, v1.mem[t][p.idx].frame, p.rest, leaf)
  {
  }

  lemma PathFromLast(virt: bv64)
    ensures PathFrom(virt, 1) == Step(At(virt, 1), End)
  {
  }

  /**
   * What the loop of `map_page` computes: a table is cleared one iteration after it was linked
   * in, so a new last-level table is not cleared at all.
   */
  function LateCleared(v: Vm, t: Frame, p: Path, leaf: Word, isNew: bool): Vm
    requires p.Step? && (if isNew then p.rest.Len() else Missing(v.mem, t, p)) <= |v.free|
    decreases p
  {
    if p.rest.End? then Vm(Store(v.mem, t, p.idx, leaf), v.free)
    else
      var m := if isNew then Clear(v.mem, t) else v.mem;
      if m[t][p.idx] == ZERO then
        LateCleared(Vm(Store(m, t, p.idx, Link(v.free[0])), v.free[1..]), v.free[0], p.rest, leaf, true)
      else LateCleared(v, v.mem[t][p.idx].frame, p.rest, leaf, false)
  }

  function Last(p: Path): Index
    requires p.Step?
    decreases p
  {
    if p.rest.End? then p.idx else Last(p.rest)
  }

  /** Every word but the one at i is zero. */
  predicate CleanExcept(page: Page, i: Index) { forall j: Index | j != i :: page[j] == ZERO }

  lemma LateLeaf(m: Memory, f: Frame, i: Index, leaf: Word)
    ensures Store(m, f, i, leaf) == Store(Clear(m, f), f, i, leaf) <==> CleanExcept(m[f], i)
  {
    var a, b := Store(m, f, i, leaf), Store(Clear(m, f), f, i, leaf);
    assert forall j: Index | j != i :: a[f][j] == m[f][j] && b[f][j] == ZERO;
    if CleanExcept(m[f], i) {
      assert a[f] == b[f];
      assert a == b;
    }
  }

  lemma LateLink(m: Memory, free: seq<Frame>, p: Path, leaf: Word)
    requires p.Step? && p.rest.Step? && p.rest.Len() < |free| && free[0] != free[1]
    ensures var next := Store(Clear(m, free[0]), free[0], p.idx, Link(free[1]));
      && LateCleared(Vm(m, free[1..]), free[0], p, leaf, true) ==
         LateCleared(Vm(next, free[1..][1..]), free[1], p.rest, leaf, true)
      && Mapped(Vm(Clear(m, free[0]), free[1..]), free[0], p, leaf) ==
         Mapped(Vm(Clear(next, free[1]), free[1..][1..]), free[1], p.rest, leaf)
  {
    var f, g := free[0], free[1];
    var next := Store(Clear(m, f), f, p.idx, Link(g));
    assert Clear(next, g) == Store(Clear(Clear(m, f), g), f, p.idx, Link(g));
  }

  /** The walk through tables that are all new, the first of them free[0]. */
  lemma {:induction false} LateNew(m: Memory, free: seq<Frame>, p: Path, leaf: Word)
    requires p.Step? && p.rest.Len() < |free| && Distinct(free)
    ensures LateCleared(Vm(m, free[1..]), free[0], p, leaf, true) == Mapped(Vm(Clear(m, free[0]), free[1..]), free[0], p, leaf)
       <==> CleanExcept(m[free[p.rest.Len()]], Last(p))
    decreases p
  {
    if p.rest.End? {
      LateLeaf(m, free[0], p.idx, leaf);
    } else {
      LateLink(m, free, p, leaf);
      LateNew(Store(Clear(m, free[0]), free[0], p.idx, Link(free[1])), free[1..], p.rest, leaf);
      assert free[1..][p.rest.rest.Len()] == free[p.rest.Len()] != free[0];
    }
  }

  lemma LateStart(v: Vm, t: Frame, p: Path, leaf: Word)
    requires p.Step? && p.rest.Step? && v.mem[t][p.idx] == ZERO
    requires p.rest.Len() <= |v.free| && Distinct(v.free) && t !in v.free
    ensures LateCleared(v, t, p, leaf, false) == Mapped(v, t, p, leaf)
       <==> CleanExcept(v.mem[v.free[p.rest.Len() - 1]], Last(p))
  {
    hide *;
    RestLength(p);
    var f := v.free[0];
    var next := Store(v.mem, t, p.idx, Link(f));
    LateFirst(v, t, p, leaf);
    MappedFirst(v, t, p, leaf);
    LateNew(next, v.free, p.rest, leaf);
    assert v.free[p.rest.Len() - 1] in v.free;
    StoreApart(v.mem, t, p.idx, Link(f), v.free[p.rest.Len() - 1]);
  }

  lemma RestLength(p: Path)
    requires p.Step? && p.rest.Step?
    ensures p.rest.Len() == 1 + p.rest.rest.Len() && Last(p) == Last(p.rest)
  {
  }

  lemma LateFirst(v: Vm, t: Frame, p: Path, leaf: Word)
    requires p.Step? && p.rest.Step? && v.mem[t][p.idx] == ZERO && 0 < p.rest.Len() <= |v.free|
    ensures p.rest.rest.Len() <= |v.free[1..]|
    ensures LateCleared(v, t, p, leaf, false) ==
      LateCleared(Vm(Store(v.mem, t, p.idx, Link(v.free[0])), v.free[1..]), v.free[0], p.rest, leaf, true)
  {
  }

  lemma MappedFirst(v: Vm, t: Frame, p: Path, leaf: Word)
    requires p.Step? && p.rest.Step? && v.mem[t][p.idx] == ZERO && 0 < p.rest.Len() <= |v.free| && t != v.free[0]
    ensures var m := Clear(Store(v.mem, t, p.idx, Link(v.free[0])), v.free[0]);
      && Missing(m, v.free[0], p.rest) <= |v.free[1..]|
      && Mapped(v, t, p, leaf) == Mapped(Vm(m, v.free[1..]), v.free[0], p.rest, leaf)
  {
    assert Clear(Store(v.mem, t, p.idx, Link(v.free[0])), v.free[0]) == Created(v, t, p.idx).mem;
  }

  lemma StoreApart(m: Memory, t: Frame, i: Index, w: Word, f: Frame)
    requires f != t
    ensures Store(m, t, i, w)[f] == m[f]
  {
  }

  /** The table that mapping along p links in last, if it links in one, is already clear but for the leaf's slot. */
  predicate LastTableClean(v: Vm, t: Frame, p: Path)
    requires p.Step? && Missing(v.mem, t, p) <= |v.free|
  {
    var k := Missing(v.mem, t, p);
    k > 0 ==> CleanExcept(v.mem[v.free[k - 1]], Last(p))
  }

  /** No table on the way down p is a free frame. */
  predicate OffFree(v: Vm, t: Frame, p: Path)
    decreases p
  {
    t !in v.free && (p.Step? && p.rest.Step? && v.mem[t][p.idx] != ZERO ==> OffFree(v, Sub(v.mem, t, p.idx), p.rest))
  }

  lemma {:induction false} SoundOffFree(v: Vm, t: Frame, p: Path, n: Level, top: set<Index>)
    requires Under(p, n, top) && Sound(v, t, n, top)
    ensures OffFree(v, t, p)
    decreases p
  {
    assert t in Reach(v.mem, t, n, top) && t !in Frames(v.free);
    if p.rest.Step? && v.mem[t][p.idx] != ZERO {
      SoundSub(v, t, n, p.idx, top);
      SoundOffFree(v, Sub(v.mem, t, p.idx), p.rest, n - 1, top);
    }
  }

  lemma LateStep(v: Vm, t: Frame, p: Path, leaf: Word)
    requires p.Step? && p.rest.Step? && v.mem[t][p.idx] != ZERO && Missing(v.mem, t, p) <= |v.free|
    ensures LateCleared(v, t, p, leaf, false) == LateCleared(v, Sub(v.mem, t, p.idx), p.rest, leaf, false)
    ensures Mapped(v, t, p, leaf) == Mapped(v, Sub(v.mem, t, p.idx), p.rest, leaf)
    ensures LastTableClean(v, t, p) == LastTableClean(v, Sub(v.mem, t, p.idx), p.rest)
  {
  }

  lemma LateLast(v: Vm, t: Frame, p: Path, leaf: Word)
    requires p.Step? && p.rest.End?
    ensures Missing(v.mem, t, p) == 0 && LateCleared(v, t, p, leaf, false) == Mapped(v, t, p, leaf) && LastTableClean(v, t, p)
  {
  }

  lemma WayDown(v: Vm, t: Frame, p: Path)
    requires p.Step? && p.rest.Step? && OffFree(v, t, p) && Missing(v.mem, t, p) <= |v.free|
    ensures t !in v.free
    ensures v.mem[t][p.idx] == ZERO ==> 0 < p.rest.Len() == Missing(v.mem, t, p)
    ensures v.mem[t][p.idx] == ZERO ==>
      (LastTableClean(v, t, p) <==> CleanExcept(v.mem[v.free[p.rest.Len() - 1]], Last(p)))
    ensures v.mem[t][p.idx] != ZERO ==>
      OffFree(v, Sub(v.mem, t, p.idx), p.rest) && Missing(v.mem, Sub(v.mem, t, p.idx), p.rest) == Missing(v.mem, t, p)
  {
  }

  /**
   * `map_page` builds the tables of the direct walk exactly when the frame it takes for a new
   * page table reads as zero.
   */
  lemma {:induction false} LateClearedIff(v: Vm, t: Frame, p: Path, leaf: Word)
    requires p.Step? && OffFree(v, t, p) && Distinct(v.free) && Missing(v.mem, t, p) <= |v.free|
    ensures LateCleared(v, t, p, leaf, false) == Mapped(v, t, p, leaf) <==> LastTableClean(v, t, p)
    decreases p
  {
    hide *;
    if p.rest.End? {
      LateLast(v, t, p, leaf);
    } else {
      WayDown(v, t, p);
      if v.mem[t][p.idx] == ZERO {
        LateStart(v, t, p, leaf);
      } else {
        LateStep(v, t, p, leaf);
        LateClearedIff(v, Sub(v.mem, t, p.idx), p.rest, leaf);
      }
    }
  }

  /** The pointer `table` is slot 510 visited often enough, then q. */
  predicate Points(table: bv64, q: Path, level: Level) {
    Aligned(table) && Canonical(table) && PathOf(table) == Padded(q, level)
  }

  lemma PointsDeeper(table: bv64, q: Path, level: Level, i: Index, index: bv64)
    requires level > 1 && Points(table, q, level) && index <= 0x1ff && index as int == i
    ensures Points(Deeper(table, index), Append(q, i), level - 1)
  {
    DeeperPath(table, index);
    PaddedAppend(q, level - 1, i);
  }

  /** Where the loop of `map_page` stands: the path q taken so far leads from the root to table t. */
  ghost predicate Standing(v: Vm, root: Frame, q: Path, t: Frame, level: Level, top: set<Index>, isNew: bool) {
    && SelfMapped(v.mem, root) && KernelWalk(v.mem, root, q) == Hit(t)
    && (if level == 4 then q == End && !isNew else root in Passed(v.mem, root, q))
    && t !in Passed(v.mem, root, q) && Passed(v.mem, root, q) !! Frames(v.free) && Distinct(v.free)
    && t !in Frames(v.free)
    && (!isNew ==> Sound(v, t, level, top) && Passed(v.mem, root, q) !! Reach(v.mem, t, level, top))
  }

  lemma StandingOld(v: Vm, root: Frame, q: Path, t: Frame, level: Level, top: set<Index>, i: Index)
    requires level > 1 && Standing(v, root, q, t, level, top, false) && Kid(v.mem, t, level, i, top)
    ensures Standing(v, root, Append(q, i), Sub(v.mem, t, i), level - 1, top, false)
  {
    WalkAppend(v.mem, root, q, i);
    PassedAppend(v.mem, root, q, i);
    SubReach(v.mem, t, level, i, top);
    assert Sub(v.mem, t, i) in Reach(v.mem, Sub(v.mem, t, i), level - 1, top);
  }

  lemma StandingNew(v: Vm, w: Vm, root: Frame, q: Path, t: Frame, level: Level, top: set<Index>, isNew: bool, i: Index)
    requires level > 1 && Standing(v, root, q, t, level, top, isNew) && Live(level, i, top) && 510 !in top
    requires |v.free| > 0
    requires w == Vm(Store(if isNew then Clear(v.mem, t) else v.mem, t, i, Link(v.free[0])), v.free[1..])
    ensures Standing(w, root, Append(q, i), v.free[0], level - 1, top, true)
  {
    assert Agree(v.mem, w.mem, Passed(v.mem, root, q));
    AgreeWalk(v.mem, w.mem, root, q);
    WalkAppend(w.mem, root, q, i);
    PassedAppend(w.mem, root, q, i);
    assert v.free[0] in Frames(v.free);
  }

  /** What is still to be done at table t, and enough free frames to do it. */
  predicate Doable(v: Vm, t: Frame, p: Path, isNew: bool) {
    p.Step? && (if isNew then p.rest.Len() else Missing(v.mem, t, p)) <= |v.free|
  }

  /** One iteration of `map_page`'s loop: clear, look up or create, move the pointer down. */
  method MapPageStep(k: Machine, table: bv64, virt: bv64, level: Level, isNew: bool,
                     ghost q: Path, ghost t: Frame, ghost top: set<Index>, ghost leaf: Word)
    returns (table': bv64, isNew': bool, ghost t': Frame)
    requires level > 1 && 510 !in top && Live(level, At(virt, level), top)
    requires Points(table, q, level) && Standing(k.State(), k.cr3, q, t, level, top, isNew)
    requires Doable(k.State(), t, PathFrom(virt, level), isNew)
    modifies k`mem, k`free
    ensures Points(table', Append(q, At(virt, level)), level - 1)
    ensures Standing(k.State(), k.cr3, Append(q, At(virt, level)), t', level - 1, top, isNew')
    ensures Doable(k.State(), t', PathFrom(virt, level - 1), isNew')
    ensures LateCleared(k.State(), t', PathFrom(virt, level - 1), leaf, isNew')
         == old(LateCleared(k.State(), t, PathFrom(virt, level), leaf, isNew))
  {
    hide *;
    var index := IndexBits(virt, level);
    ghost var v, p := Vm(k.mem, k.free), PathFrom(virt, level);
    StateIs(k);
    IndexBitsAt(virt, level);
    PathFromStep(virt, level);
    StandingReads(v, k.cr3, q, t, level, top, isNew, table);
    PointsDeeper(table, q, level, At(virt, level), index);
    LateRound(v, t, p, leaf, isNew);
    Denotes(k, table, t);
    if isNew {
      DenotesApart(k, table, t);
      k.ZeroOut(table);
      Denotes(k, table, t);
    }
    var entry := k.Read(table, index as int);
    if entry == ZERO {
      var page := k.GetFreePage();
      Denotes(k, table, t);
      k.Write(table, index as int, Link(page));
      StandingNew(v, Vm(k.mem, k.free), k.cr3, q, t, level, top, isNew, index as int);
      isNew', t' := true, page;
    } else {
      StandingKid(v, k.cr3, q, t, level, top, index as int);
      StandingOld(v, k.cr3, q, t, level, top, index as int);
      isNew', t' := false, entry.frame;
    }
    StateIs(k);
    table' := Deeper(table, index);
  }

  lemma PathFromStep(virt: bv64, level: Level)
    requires level > 1
    ensures PathFrom(virt, level) == Step(At(virt, level), PathFrom(virt, level - 1)) && PathFrom(virt, level - 1).Step?
  {
  }

  /** The table pointer denotes the table, also after clearing it. */
  lemma StandingReads(v: Vm, root: Frame, q: Path, t: Frame, level: Level, top: set<Index>, isNew: bool, table: bv64)
    requires Standing(v, root, q, t, level, top, isNew) && Points(table, q, level)
    ensures Canonical(table) && KernelWalk(v.mem, root, PathOf(table)) == Hit(t)
    ensures isNew ==> t !in Passed(v.mem, root, PathOf(table))
    ensures isNew ==> KernelWalk(Clear(v.mem, t), root, PathOf(table)) == Hit(t)
  {
    PaddedWalk(v.mem, root, q, level);
    if isNew {
      PaddedPassed(v.mem, root, q, level);
      assert Agree(v.mem, Clear(v.mem, t), Passed(v.mem, root, q));
      AgreeWalk(v.mem, Clear(v.mem, t), root, q);
      PaddedWalk(Clear(v.mem, t), root, q, level);
    }
  }

  lemma StandingKid(v: Vm, root: Frame, q: Path, t: Frame, level: Level, top: set<Index>, i: Index)
    requires level > 1 && Live(level, i, top) && v.mem[t][i] != ZERO
    ensures Kid(v.mem, t, level, i, top) && Sub(v.mem, t, i) == v.mem[t][i].frame
  {
  }

  /** One round of the loop on the state. */
  lemma LateRound(v: Vm, t: Frame, p: Path, leaf: Word, isNew: bool)
    requires Doable(v, t, p, isNew) && p.rest.Step?
    ensures var m := if isNew then Clear(v.mem, t) else v.mem;
      if m[t][p.idx] == ZERO then
        && |v.free| > 0
        && var v' := Vm(Store(m, t, p.idx, Link(v.free[0])), v.free[1..]);
          Doable(v', v.free[0], p.rest, true)
          && LateCleared(v, t, p, leaf, isNew) == LateCleared(v', v.free[0], p.rest, leaf, true)
      else
        && !isNew && Doable(v, Sub(v.mem, t, p.idx), p.rest, false)
        && LateCleared(v, t, p, leaf, isNew) == LateCleared(v, Sub(v.mem, t, p.idx), p.rest, leaf, false)
  {
  }

  /** `map_page`: the same walk through slot 510 of the active tables. */
  method MapPage(k: Machine, phys: bv64, virt: bv64, flags: bv64, ghost top: set<Index>) returns (next: bv64)
    requires At(virt, 4) in top && 510 !in top
    requires SelfMapped(k.mem, k.cr3) && Sound(k.State(), k.cr3, 4, top)
    requires Missing(k.mem, k.cr3, PathOf(virt)) <= |k.free|
    modifies k`mem, k`free
    ensures k.State() == old(LateCleared(k.State(), k.cr3, PathOf(virt), LeafWord(phys, flags), false))
    ensures next == virt + 4096
  {
    hide Standing, Sound, Tree, Reach, LateCleared, Missing, Passed;
    var table, level, isNew := PML4, 4, false;
    RootSlots();
    ghost var q, t := End, k.cr3;
    StandingStarts(k.State(), k.cr3, top);
    DoableStarts(k.State(), k.cr3, PathOf(virt));
    while level > 1
      invariant 1 <= level <= 4
      invariant Points(table, q, level)
      invariant Standing(k.State(), k.cr3, q, t, level, top, isNew)
      invariant Doable(k.State(), t, PathFrom(virt, level), isNew)
      invariant LateCleared(k.State(), t, PathFrom(virt, level), LeafWord(phys, flags), isNew)
             == old(LateCleared(k.State(), k.cr3, PathOf(virt), LeafWord(phys, flags), false))
    {
      table, isNew, t := MapPageStep(k, table, virt, level, isNew, q, t, top, LeafWord(phys, flags));
      q := Append(q, At(virt, level));
      level := level - 1;
    }
    StandingWalk(k.State(), k.cr3, q, t, level, top, isNew);
    PaddedWalk(k.mem, k.cr3, q, 1);
    IndexBitsAt(virt, 1);
    LateEnds(k.State(), t, PathFrom(virt, 1), LeafWord(phys, flags), isNew);
    k.Write(table, IndexBits(virt, 1) as int, LeafWord(phys, flags));
    next := virt + 4096;
  }

  lemma StandingStarts(v: Vm, root: Frame, top: set<Index>)
    requires SelfMapped(v.mem, root) && Sound(v, root, 4, top)
    ensures Standing(v, root, End, root, 4, top, false)
  {
    assert root in Reach(v.mem, root, 4, top);
  }

  lemma StandingWalk(v: Vm, root: Frame, q: Path, t: Frame, level: Level, top: set<Index>, isNew: bool)
    requires Standing(v, root, q, t, level, top, isNew)
    ensures SelfMapped(v.mem, root) && KernelWalk(v.mem, root, q) == Hit(t)
  {
  }

  lemma DoableStarts(v: Vm, t: Frame, p: Path)
    requires p.Step? && Missing(v.mem, t, p) <= |v.free|
    ensures Doable(v, t, p, false)
  {
  }

  lemma LateEnds(v: Vm, t: Frame, p: Path, leaf: Word, isNew: bool)
    requires p.Step? && p.rest.End? && Doable(v, t, p, isNew)
    ensures LateCleared(v, t, p, leaf, isNew) == Vm(Store(v.mem, t, p.idx, leaf), v.free)
  {
  }
}
