/**
 * `_do_mark_COW`: fork's copy of the table tree, made through slot 510 for the parent and
 * slot 509 for the child.
 */
module Fork {
  import opened Sequences
  import opened Words
  import opened PageTables
  import opened Addresses
  import opened Hardware
  import opened Mapping

  /** The first slots of a table, as the live ones of a top-level table. */
  function Slots(i: nat): set<Index> { set j: Index | Before(j, i) }

  predicate Before(j: Index, i: nat) { j < i }

  /** The slots of a top-level table that belong to the process: 509 and 510 lead back to tables, 511 to the kernel. */
  function UserSlots(): set<Index> { Slots(509) }

  /** How many slots the copy goes through at a level. */
  function Count(n: Level): nat { if n == 4 then 509 else 512 }

  /** A leaf after the marking; an unused one stays unused. */
  function MarkedOrZero(w: Word): Word { if w == ZERO then ZERO else Marked(w) }

  /** The links to tables in slots below i, and all links further down. */
  function Links(m: Memory, t: Frame, n: Level, i: nat): nat
    requires i <= 512
    decreases n, i
  {
    if n == 1 || i == 0 then 0
    else Links(m, t, n, i - 1) + if m[t][i - 1] == ZERO then 0 else 1 + Links(m, Sub(m, t, i - 1), n - 1, 512)
  }

  ghost predicate Zeroed(v: Vm) { forall f | f in Frames(v.free) :: v.mem[f] == ZeroPage() }

  /** What the copy may change: the parent's lower tables, the child's table and free frames. */
  ghost function Touched(v: Vm, tp: Frame, tc: Frame, n: Level): iset<Frame> {
    (Reach(v.mem, tp, n, UserSlots()) - if n > 1 then iset{tp} else iset{}) + iset{tc} + Frames(v.free)
  }

  /** The parent's tree, an empty child table and free frames that read as zero, all apart. */
  ghost predicate Ready(v: Vm, tp: Frame, tc: Frame, n: Level) {
    && Sound(v, tp, n, UserSlots()) && Zeroed(v)
    && tc !in Reach(v.mem, tp, n, UserSlots()) && tc !in Frames(v.free)
    && (forall j: Index | j < Count(n) && v.mem[tp][j] == ZERO :: v.mem[tc][j] == ZERO)
    && (n < 4 ==> v.mem[tc] == ZeroPage())
    && Links(v.mem, tp, n, Count(n)) <= |v.free|
  }

  /** The first k free frames are gone. */
  ghost predicate Taken(v0: Vm, v: Vm, k: nat) { k <= |v0.free| && v.free == v0.free[k..] }

  /** The first k free frames, as a set. */
  ghost function First(v: Vm, k: nat): iset<Frame> { Frames(if k <= |v.free| then v.free[..k] else v.free) }

  /** The parent's tables are the same tree. */
  ghost predicate ParentKept(v0: Vm, v: Vm, tp: Frame, n: Level) {
    && Tree(v.mem, tp, n, UserSlots())
    && Reach(v.mem, tp, n, UserSlots()) == Reach(v0.mem, tp, n, UserSlots())
    && (n > 1 ==> v.mem[tp] == v0.mem[tp])
  }

  /** The child's tables are the frames taken. */
  ghost predicate ChildBuilt(v0: Vm, v: Vm, tc: Frame, n: Level, i: nat, k: nat) {
    Tree(v.mem, tc, n, Slots(i)) && Reach(v.mem, tc, n, Slots(i)) == iset{tc} + First(v0, k)
  }

  /** Frames of neither tree are unchanged. */
  ghost predicate RestKept(v0: Vm, v: Vm, tp: Frame, tc: Frame, n: Level, k: nat) {
    Changed(v0.mem, v.mem, Reach(v0.mem, tp, n, UserSlots()) + iset{tc} + First(v0, k))
  }

  /** The slots from i on, and the parent's tables below them, are unchanged. */
  ghost predicate Pending(v0: Vm, v: Vm, tp: Frame, tc: Frame, n: Level, i: nat) {
    forall j: Index | i <= j ::
      && v.mem[tp][j] == v0.mem[tp][j] && v.mem[tc][j] == v0.mem[tc][j]
      && Agree(v0.mem, v.mem, Below(v0.mem, tp, n, j, UserSlots()))
  }

  /** v is reached from v0 by copying the slots below i of the level-n table tp to tc. */
  ghost predicate Copied(v0: Vm, v: Vm, tp: Frame, tc: Frame, n: Level, i: nat)
    requires i <= Count(n)
  {
    var k := Links(v0.mem, tp, n, i);
    && Taken(v0, v, k) && ParentKept(v0, v, tp, n) && ChildBuilt(v0, v, tc, n, i, k)
    && RestKept(v0, v, tp, tc, n, k) && Pending(v0, v, tp, tc, n, i)
  }

  /** Both walks along q end at the parent's old leaf, marked. */
  ghost predicate SameLeaves(v0: Vm, v: Vm, tp: Frame, tc: Frame, n: Level, i: nat) {
    forall q: Path | q.Step? && q.idx < i && Under(q, n, UserSlots()) ::
      Entry(v.mem, tp, q) == Entry(v.mem, tc, q) == MarkedOrZero(Entry(v0.mem, tp, q))
  }

  lemma {:induction false} AgreeLinks(m: Memory, m': Memory, t: Frame, n: Level, i: nat)
    requires i <= Count(n) && Agree(m, m', Reach(m, t, n, UserSlots()))
    ensures Links(m', t, n, i) == Links(m, t, n, i)
    decreases n, i
  {
    assert t in Reach(m, t, n, UserSlots());
    if n > 1 && i > 0 {
      AgreeLinks(m, m', t, n, i - 1);
      if m[t][i - 1] != ZERO {
        assert Kid(m, t, n, i - 1, UserSlots());
        SubReach(m, t, n, i - 1, UserSlots());
        AgreeLinks(m, m', Sub(m, t, i - 1), n - 1, 512);
      }
    }
  }

  lemma {:induction false} LinksMonotone(m: Memory, t: Frame, n: Level, i: nat, j: nat)
    requires i <= j <= 512
    ensures Links(m, t, n, i) <= Links(m, t, n, j)
    decreases j - i
  {
    if i < j { LinksMonotone(m, t, n, i, j - 1); }
  }

  lemma CopiedNothing(v: Vm, tp: Frame, tc: Frame, n: Level)
    requires Ready(v, tp, tc, n)
    ensures Copied(v, v, tp, tc, n, 0) && SameLeaves(v, v, tp, tc, n, 0)
  {
    hide *;
    CountBelow(n);
    ReadyParts(v, tp, tc, n);
    NoneTaken(v, tp, tc, n);
    CopiedParts(v, v, tp, tc, n, 0, 0);
  }

  lemma NoneTaken(v: Vm, tp: Frame, tc: Frame, n: Level)
    requires (n < 4 ==> v.mem[tc] == ZeroPage()) && Tree(v.mem, tp, n, UserSlots())
    ensures Links(v.mem, tp, n, 0) == 0 && Taken(v, v, 0) && ParentKept(v, v, tp, n) && ChildBuilt(v, v, tc, n, 0, 0)
    ensures RestKept(v, v, tp, tc, n, 0) && Pending(v, v, tp, tc, n, 0) && SameLeaves(v, v, tp, tc, n, 0)
  {
    NoSlots(v.mem, tc, n);
    assert First(v, 0) == iset{};
  }

  lemma NoSlots(m: Memory, t: Frame, n: Level)
    requires n < 4 ==> m[t] == ZeroPage()
    ensures Tree(m, t, n, Slots(0)) && Reach(m, t, n, Slots(0)) == iset{t}
  {
    assert forall j: Index :: !Kid(m, t, n, j, Slots(0));
  }

  /** A slot that is unused in the parent is passed over. */
  lemma CopiedSkip(v0: Vm, v: Vm, tp: Frame, tc: Frame, n: Level, i: Index)
    requires i < Count(n) && Ready(v0, tp, tc, n) && Copied(v0, v, tp, tc, n, i)
    requires v0.mem[tp][i] == ZERO
    ensures Copied(v0, v, tp, tc, n, i + 1)
  {
    assert v.mem[tc][i] == ZERO;
    UnusedSlot(v.mem, tc, n, i, Slots(i), Slots(i + 1));
  }

  lemma LeavesSkip(v0: Vm, v: Vm, tp: Frame, tc: Frame, n: Level, i: Index)
    requires i < Count(n) && Pending(v0, v, tp, tc, n, i) && SameLeaves(v0, v, tp, tc, n, i)
    requires v0.mem[tp][i] == ZERO == v0.mem[tc][i]
    ensures SameLeaves(v0, v, tp, tc, n, i + 1)
  {
    forall q: Path | q.Step? && q.idx < i + 1 && Under(q, n, UserSlots())
      ensures Entry(v.mem, tp, q) == Entry(v.mem, tc, q) == MarkedOrZero(Entry(v0.mem, tp, q))
    {
    }
  }

  lemma LevelOne(m: Memory, t: Frame, top: set<Index>)
    ensures Reach(m, t, 1, top) == iset{t} && Tree(m, t, 1, top)
    ensures forall j: Index :: Below(m, t, 1, j, top) == iset{}
  {
    assert forall j: Index :: !Kid(m, t, 1, j, top);
  }

  /** At level 1 the parent's leaf is marked and copied. */
  lemma CopiedLeaf(v0: Vm, v: Vm, tp: Frame, tc: Frame, i: Index, e: Word, w: Vm)
    requires tp != tc && Copied(v0, v, tp, tc, 1, i)
    requires w == Vm(Store(Store(v.mem, tp, i, e), tc, i, e), v.free)
    ensures Copied(v0, w, tp, tc, 1, i + 1)
  {
    hide *;
    CountBelow(1);
    LinksOne(v0.mem, tp, i);
    LinksOne(v0.mem, tp, i + 1);
    LevelOne(v0.mem, tp, UserSlots());
    LevelOne(w.mem, tp, UserSlots());
    LevelOne(w.mem, tc, Slots(i + 1));
    CopiedParts(v0, v, tp, tc, 1, i, 0);
    CopiedParts(v0, w, tp, tc, 1, i + 1, 0);
    NoneFirst(v0);
    LeafTaken(v0, v, w);
    ParentParts(v0, w, tp, 1);
    ChildParts(v0, w, tc, 1, i + 1, 0);
    RestParts(v0, v, tp, tc, 1, 0);
    RestParts(v0, w, tp, tc, 1, 0);
    LeafRest(v0.mem, v.mem, w.mem, tp, tc, i, e);
    PendingLeaf(v0, v, tp, tc, i, e, w);
  }

  lemma LinksOne(m: Memory, t: Frame, i: nat)
    requires i <= 512
    ensures Links(m, t, 1, i) == 0
  {
  }

  lemma NoneFirst(v: Vm)
    ensures First(v, 0) == iset{}
  {
    assert v.free[..0] == [];
  }

  lemma LeafTaken(v0: Vm, v: Vm, w: Vm)
    requires Taken(v0, v, 0) && w.free == v.free
    ensures Taken(v0, w, 0)
  {
  }

  lemma LeafRest(m0: Memory, m: Memory, w: Memory, tp: Frame, tc: Frame, i: Index, e: Word)
    requires Changed(m0, m, iset{tp} + iset{tc} + iset{}) && w == Store(Store(m, tp, i, e), tc, i, e)
    ensures Changed(m0, w, iset{tp} + iset{tc} + iset{})
  {
  }

  lemma PendingLeaf(v0: Vm, v: Vm, tp: Frame, tc: Frame, i: Index, e: Word, w: Vm)
    requires tp != tc && Pending(v0, v, tp, tc, 1, i) && w == Vm(Store(Store(v.mem, tp, i, e), tc, i, e), v.free)
    ensures Pending(v0, w, tp, tc, 1, i + 1)
  {
    LevelOne(v0.mem, tp, UserSlots());
  }

  lemma LeavesLeaf(v0: Vm, v: Vm, tp: Frame, tc: Frame, i: Index, e: Word, w: Vm)
    requires tp != tc && SameLeaves(v0, v, tp, tc, 1, i)
    requires v0.mem[tp][i] != ZERO && e == Marked(v0.mem[tp][i])
    requires w == Vm(Store(Store(v.mem, tp, i, e), tc, i, e), v.free)
    ensures SameLeaves(v0, w, tp, tc, 1, i + 1)
  {
    forall q: Path | q.Step? && q.idx < i + 1 && Under(q, 1, UserSlots())
      ensures Entry(w.mem, tp, q) == Entry(w.mem, tc, q) == MarkedOrZero(Entry(v0.mem, tp, q))
    {
      if q.idx < i { assert Entry(v.mem, tp, q) == Entry(v.mem, tc, q) == MarkedOrZero(Entry(v0.mem, tp, q)); }
    }
  }

  /** The state in which the copy of slot i's table begins. */
  function Linked(v: Vm, tc: Frame, i: Index): Vm
    requires |v.free| > 0
  {
    Vm(Store(v.mem, tc, i, Link(v.free[0])), v.free[1..])
  }

  lemma FreeKept(v0: Vm, v: Vm, tp: Frame, tc: Frame, n: Level, k: nat)
    requires Ready(v0, tp, tc, n) && Taken(v0, v, k) && RestKept(v0, v, tp, tc, n, k)
    ensures Frames(v.free) <= Frames(v0.free) && Distinct(v.free)
    ensures Zeroed(v)
  {
    SplitFrames(v0.free, k);
  }

  lemma FreeLeft(v0: Vm, v: Vm, tp: Frame, tc: Frame, n: Level, i: Index)
    requires n > 1 && i < Count(n) && Links(v0.mem, tp, n, Count(n)) <= |v0.free|
    requires Taken(v0, v, Links(v0.mem, tp, n, i)) && v0.mem[tp][i] != ZERO
    ensures |v.free| > Links(v0.mem, Sub(v0.mem, tp, i), n - 1, 512)
  {
    LinksMonotone(v0.mem, tp, n, i + 1, Count(n));
  }

  lemma LinkedFree(v: Vm, tc: Frame, i: Index)
    requires |v.free| > 0 && Zeroed(v) && Distinct(v.free) && tc !in Frames(v.free)
    ensures var v1, f := Linked(v, tc, i), v.free[0];
      && Zeroed(v1) && Distinct(v1.free) && Frames(v1.free) <= Frames(v.free)
      && f in Frames(v.free) && f !in Frames(v1.free) && v1.mem[f] == ZeroPage() && |v1.free| + 1 == |v.free|
  {
    assert v.free[0] in Frames(v.free);
  }

  lemma BelowKept(v0: Vm, v: Vm, tp: Frame, tc: Frame, n: Level, i: Index, v1: Vm)
    requires n > 1 && i < Count(n) && Tree(v0.mem, tp, n, UserSlots()) && tc !in Reach(v0.mem, tp, n, UserSlots())
    requires Pending(v0, v, tp, tc, n, i) && v0.mem[tp][i] != ZERO && |v.free| > 0 && v1 == Linked(v, tc, i)
    ensures var s := Sub(v0.mem, tp, i);
      && Reach(v0.mem, s, n - 1, UserSlots()) <= Reach(v0.mem, tp, n, UserSlots())
      && Agree(v0.mem, v1.mem, Reach(v0.mem, s, n - 1, UserSlots()))
      && Reach(v1.mem, s, n - 1, UserSlots()) == Reach(v0.mem, s, n - 1, UserSlots())
      && Tree(v1.mem, s, n - 1, UserSlots())
      && Links(v1.mem, s, n - 1, 512) == Links(v0.mem, s, n - 1, 512)
  {
    var s := Sub(v0.mem, tp, i);
    assert Kid(v0.mem, tp, n, i, UserSlots());
    SubReach(v0.mem, tp, n, i, UserSlots());
    assert Agree(v0.mem, v.mem, Below(v0.mem, tp, n, i, UserSlots()));
    AgreeReach(v0.mem, v1.mem, s, n - 1, UserSlots());
    AgreeLinks(v0.mem, v1.mem, s, n - 1, 512);
  }

  /** The slot's table can be copied in its turn. */
  lemma ReadyBelow(v0: Vm, v: Vm, tp: Frame, tc: Frame, n: Level, i: Index, v1: Vm)
    requires n > 1 && i < Count(n) && Ready(v0, tp, tc, n) && Copied(v0, v, tp, tc, n, i)
    requires v0.mem[tp][i] != ZERO && |v.free| > 0 && v1 == Linked(v, tc, i)
    ensures Ready(v1, Sub(v0.mem, tp, i), v.free[0], n - 1)
  {
    hide *;
    var k := Links(v0.mem, tp, n, i);
    CountBelow(n);
    ReadyParts(v0, tp, tc, n);
    CopiedParts(v0, v, tp, tc, n, i, k);
    FreeLeft(v0, v, tp, tc, n, i);
    FreeKept(v0, v, tp, tc, n, k);
    LinkedFree(v, tc, i);
    BelowKept(v0, v, tp, tc, n, i, v1);
    FreeOutside(v0, v, v1, tp, n, i);
    MakeReady(v1, Sub(v0.mem, tp, i), v.free[0], n - 1);
  }

  lemma FreeOutside(v0: Vm, v: Vm, v1: Vm, tp: Frame, n: Level, i: Index)
    requires n > 1 && Sound(v0, tp, n, UserSlots()) && Frames(v.free) <= Frames(v0.free) && |v.free| > 0
    requires v.free[0] in Frames(v.free) && Frames(v1.free) <= Frames(v.free)
    requires Reach(v0.mem, Sub(v0.mem, tp, i), n - 1, UserSlots()) <= Reach(v0.mem, tp, n, UserSlots())
    ensures Reach(v0.mem, Sub(v0.mem, tp, i), n - 1, UserSlots()) !! Frames(v1.free)
    ensures v.free[0] !in Reach(v0.mem, Sub(v0.mem, tp, i), n - 1, UserSlots())
  {
  }

  lemma MakeReady(v: Vm, tp: Frame, tc: Frame, n: Level)
    requires n < 4 && Tree(v.mem, tp, n, UserSlots()) && Reach(v.mem, tp, n, UserSlots()) !! Frames(v.free)
    requires Distinct(v.free) && Zeroed(v) && v.mem[tc] == ZeroPage()
    requires tc !in Reach(v.mem, tp, n, UserSlots()) && tc !in Frames(v.free)
    requires Links(v.mem, tp, n, 512) <= |v.free|
    ensures Ready(v, tp, tc, n)
  {
  }

  lemma TakeMore(s: seq<Frame>, k: nat, m: nat)
    requires k + 1 + m <= |s|
    ensures s[k..][0] == s[k] && s[k..][1..][m..] == s[k + 1 + m..]
    ensures Frames(s[..k + 1 + m]) == Frames(s[..k]) + iset{s[k]} + Frames(s[k..][1..][..m])
  {
    assert s[..k + 1 + m] == s[..k] + [s[k]] + s[k..][1..][..m];
  }

  lemma SlotTaken(v0: Vm, v: Vm, v1: Vm, w: Vm, k: nat, m: nat, tc: Frame, i: Index)
    requires Taken(v0, v, k) && |v.free| > 0 && v1 == Linked(v, tc, i) && Taken(v1, w, m)
    ensures Taken(v0, w, k + 1 + m)
    ensures First(v0, k + 1 + m) == First(v0, k) + iset{v.free[0]} + First(v1, m)
  {
    TakeMore(v0.free, k, m);
  }

  /**
   * The sets of frames around one slot: the parent's tables p, among them s below the slot,
   * the frames taken so far, the new table f and the frames taken for the tables below it.
   */
  ghost predicate Apart(tp: Frame, tc: Frame, p: iset<Frame>, s: iset<Frame>, taken: iset<Frame>, f: Frame, more: iset<Frame>) {
    && tp in p && s <= p && tp !in s && tc !in p && tc !in taken && tc != f && tc !in more
    && p !! taken && f !in p && f !in taken && p !! more && taken !! more && f !in more
  }

  lemma SlotApart(v0: Vm, v: Vm, v1: Vm, w: Vm, tp: Frame, tc: Frame, n: Level, i: Index, k: nat, m: nat)
    requires n > 1 && i < Count(n) && Sound(v0, tp, n, UserSlots()) && v0.mem[tp][i] != ZERO
    requires tc !in Reach(v0.mem, tp, n, UserSlots()) && tc !in Frames(v0.free)
    requires Taken(v0, v, k) && |v.free| > 0 && v1 == Linked(v, tc, i) && Taken(v1, w, m)
    ensures Kid(v0.mem, tp, n, i, UserSlots())
    ensures Apart(tp, tc, Reach(v0.mem, tp, n, UserSlots()), Reach(v0.mem, Sub(v0.mem, tp, i), n - 1, UserSlots()),
                  First(v0, k), v.free[0], First(v1, m))
  {
    assert Kid(v0.mem, tp, n, i, UserSlots());
    assert tp in Reach(v0.mem, tp, n, UserSlots());
    SubReach(v0.mem, tp, n, i, UserSlots());
    FreeApart(v0.free, k, m);
  }

  lemma FreeApart(s: seq<Frame>, k: nat, m: nat)
    requires Distinct(s) && k + 1 + m <= |s|
    ensures var rest := s[k..][1..][..m];
      && s[k] in Frames(s) && Frames(s[..k]) <= Frames(s) && Frames(rest) <= Frames(s)
      && s[k] !in Frames(s[..k]) && s[k] !in Frames(rest) && Frames(s[..k]) !! Frames(rest)
  {
    assert forall j | 0 <= j < m :: s[k..][1..][..m][j] == s[k + 1 + j];
  }

  /** What copying the slot changed. */
  lemma SlotChanged(m: Memory, m1: Memory, w: Memory, tp: Frame, tc: Frame, i: Index,
                    p: iset<Frame>, s: iset<Frame>, taken: iset<Frame>, f: Frame, more: iset<Frame>)
    requires Apart(tp, tc, p, s, taken, f, more)
    requires m1 == Store(m, tc, i, Link(f)) && Changed(m1, w, s + iset{f} + more)
    ensures w[tc] == m[tc][i := Link(f)] && w[tp] == m[tp]
    ensures Changed(m, w, s + iset{tc} + iset{f} + more)
  {
  }

  lemma ParentSlot(m: Memory, w: Memory, tp: Frame, tc: Frame, n: Level, i: Index,
                   p: iset<Frame>, s: iset<Frame>, taken: iset<Frame>, f: Frame, more: iset<Frame>)
    requires n > 1 && Tree(m, tp, n, UserSlots()) && Reach(m, tp, n, UserSlots()) == p
    requires Kid(m, tp, n, i, UserSlots()) && Below(m, tp, n, i, UserSlots()) == s
    requires Apart(tp, tc, p, s, taken, f, more)
    requires w[tp] == m[tp] && Changed(m, w, s + iset{tc} + iset{f} + more)
    requires Tree(w, Sub(m, tp, i), n - 1, UserSlots()) && Reach(w, Sub(m, tp, i), n - 1, UserSlots()) == s
    ensures Tree(w, tp, n, UserSlots()) && Reach(w, tp, n, UserSlots()) == p
  {
    Graft(m, w, tp, n, i, UserSlots(), UserSlots());
  }

  lemma ChildSlot(m: Memory, w: Memory, tp: Frame, tc: Frame, n: Level, i: Index,
                  p: iset<Frame>, s: iset<Frame>, taken: iset<Frame>, f: Frame, more: iset<Frame>)
    requires n > 1 && Tree(m, tc, n, Slots(i)) && Reach(m, tc, n, Slots(i)) == iset{tc} + taken
    requires !Kid(m, tc, n, i, Slots(i))
    requires Apart(tp, tc, p, s, taken, f, more)
    requires w[tc] == m[tc][i := Link(f)] && Changed(m, w, s + iset{tc} + iset{f} + more)
    requires Tree(w, f, n - 1, Slots(512)) && Reach(w, f, n - 1, Slots(512)) == iset{f} + more
    ensures Tree(w, tc, n, Slots(i + 1)) && Reach(w, tc, n, Slots(i + 1)) == iset{tc} + taken + iset{f} + more
  {
    hide *;
    TopIrrelevant(w, f, n - 1, Slots(512), Slots(i + 1));
    ChildKid(m, w, tc, n, i, f);
    ChildFrames(m, w, tp, tc, p, s, taken, f, more);
    Graft(m, w, tc, n, i, Slots(i), Slots(i + 1));
  }

  lemma ChildKid(m: Memory, w: Memory, tc: Frame, n: Level, i: Index, f: Frame)
    requires n > 1 && !Kid(m, tc, n, i, Slots(i)) && w[tc] == m[tc][i := Link(f)]
    ensures Kid(w, tc, n, i, Slots(i + 1)) && Sub(w, tc, i) == f && IsLink(w[tc][i])
    ensures forall j: Index | j != i :: w[tc][j] == m[tc][j] && Live(n, j, Slots(i)) == Live(n, j, Slots(i + 1))
    ensures Below(m, tc, n, i, Slots(i)) == iset{}
    ensures Below(w, tc, n, i, Slots(i + 1)) == Reach(w, f, n - 1, Slots(i + 1))
  {
  }

  lemma ChildFrames(m: Memory, w: Memory, tp: Frame, tc: Frame, p: iset<Frame>, s: iset<Frame>, taken: iset<Frame>,
                    f: Frame, more: iset<Frame>)
    requires Apart(tp, tc, p, s, taken, f, more) && Changed(m, w, s + iset{tc} + iset{f} + more)
    ensures forall g | g in iset{tc} + taken && g != tc :: w[g] == m[g]
    ensures forall g | g in iset{f} + more :: g !in iset{tc} + taken
  {
  }

  lemma PendingSlot(v0: Vm, v: Vm, w: Vm, tp: Frame, tc: Frame, n: Level, i: Index,
                    p: iset<Frame>, s: iset<Frame>, taken: iset<Frame>, f: Frame, more: iset<Frame>)
    requires Tree(v0.mem, tp, n, UserSlots()) && Kid(v0.mem, tp, n, i, UserSlots())
    requires Reach(v0.mem, tp, n, UserSlots()) == p && Below(v0.mem, tp, n, i, UserSlots()) == s
    requires Apart(tp, tc, p, s, taken, f, more) && Pending(v0, v, tp, tc, n, i)
    requires w.mem[tp] == v.mem[tp] && w.mem[tc] == v.mem[tc][i := Link(f)]
    requires Changed(v.mem, w.mem, s + iset{tc} + iset{f} + more)
    ensures Pending(v0, w, tp, tc, n, i + 1)
  {
    hide *;
    forall j: Index | i + 1 <= j
      ensures w.mem[tp][j] == v0.mem[tp][j] && w.mem[tc][j] == v0.mem[tc][j]
      ensures Agree(v0.mem, w.mem, Below(v0.mem, tp, n, j, UserSlots()))
    {
      PendingFrom(v0, v, tp, tc, n, i, j);
      BelowApart(v0.mem, tp, n, i, j, UserSlots());
      StillAgree(v0.mem, v.mem, w.mem, tp, tc, p, s, taken, f, more, Below(v0.mem, tp, n, j, UserSlots()));
    }
    MakePending(v0, w, tp, tc, n, i + 1);
  }

  lemma PendingFrom(v0: Vm, v: Vm, tp: Frame, tc: Frame, n: Level, i: nat, j: Index)
    requires Pending(v0, v, tp, tc, n, i) && i <= j
    ensures v.mem[tp][j] == v0.mem[tp][j] && v.mem[tc][j] == v0.mem[tc][j]
    ensures Agree(v0.mem, v.mem, Below(v0.mem, tp, n, j, UserSlots()))
  {
  }

  lemma MakePending(v0: Vm, v: Vm, tp: Frame, tc: Frame, n: Level, i: nat)
    requires forall j: Index | i <= j :: v.mem[tp][j] == v0.mem[tp][j] && v.mem[tc][j] == v0.mem[tc][j]
    requires forall j: Index | i <= j :: Agree(v0.mem, v.mem, Below(v0.mem, tp, n, j, UserSlots()))
    ensures Pending(v0, v, tp, tc, n, i)
  {
  }

  /** Tables of the parent away from the copied slot are not touched by its copy. */
  lemma StillAgree(m0: Memory, m: Memory, w: Memory, tp: Frame, tc: Frame, p: iset<Frame>, s: iset<Frame>, taken: iset<Frame>,
                   f: Frame, more: iset<Frame>, below: iset<Frame>)
    requires Apart(tp, tc, p, s, taken, f, more) && Agree(m0, m, below) && below <= p && below !! s
    requires Changed(m, w, s + iset{tc} + iset{f} + more)
    ensures Agree(m0, w, below)
  {
  }

  lemma BelowApart(m: Memory, t: Frame, n: Level, i: Index, j: Index, top: set<Index>)
    requires Tree(m, t, n, top) && i != j
    ensures Below(m, t, n, i, top) !! Below(m, t, n, j, top)
    ensures Below(m, t, n, j, top) <= Reach(m, t, n, top)
  {
    if Kid(m, t, n, j, top) { SubReach(m, t, n, j, top); }
  }

  lemma CopiedParts(v0: Vm, v: Vm, tp: Frame, tc: Frame, n: Level, i: nat, k: nat)
    requires i <= Count(n) && k == Links(v0.mem, tp, n, i)
    ensures Copied(v0, v, tp, tc, n, i) <==>
      Taken(v0, v, k) && ParentKept(v0, v, tp, n) && ChildBuilt(v0, v, tc, n, i, k)
      && RestKept(v0, v, tp, tc, n, k) && Pending(v0, v, tp, tc, n, i)
  {
  }

  lemma PendingBelow(v0: Vm, v: Vm, tp: Frame, tc: Frame, n: Level, i: Index)
    requires Pending(v0, v, tp, tc, n, i) && Kid(v0.mem, tp, n, i, UserSlots())
    ensures Kid(v.mem, tp, n, i, UserSlots()) && Below(v.mem, tp, n, i, UserSlots()) == Below(v0.mem, tp, n, i, UserSlots())
    ensures Sub(v.mem, tp, i) == Sub(v0.mem, tp, i)
  {
    AgreeReach(v0.mem, v.mem, Sub(v0.mem, tp, i), n - 1, UserSlots());
  }

  /** What copying slot i's table changed, given what the slots before it changed. */
  lemma SlotFacts(v0: Vm, v: Vm, v1: Vm, w: Vm, tp: Frame, tc: Frame, n: Level, i: Index, k: nat, m: nat)
    requires n > 1 && i < Count(n) && Ready(v0, tp, tc, n) && Copied(v0, v, tp, tc, n, i)
    requires v0.mem[tp][i] != ZERO && |v.free| > 0 && v1 == Linked(v, tc, i)
    requires Copied(v1, w, Sub(v0.mem, tp, i), v.free[0], n - 1, 512)
    requires k == Links(v0.mem, tp, n, i) && m == Links(v1.mem, Sub(v0.mem, tp, i), n - 1, 512)
    ensures var p, s := Reach(v0.mem, tp, n, UserSlots()), Reach(v0.mem, Sub(v0.mem, tp, i), n - 1, UserSlots());
      && Apart(tp, tc, p, s, First(v0, k), v.free[0], First(v1, m))
      && w.mem[tc] == v.mem[tc][i := Link(v.free[0])] && w.mem[tp] == v.mem[tp]
      && Changed(v.mem, w.mem, s + iset{tc} + iset{v.free[0]} + First(v1, m))
      && Kid(v0.mem, tp, n, i, UserSlots()) && Below(v0.mem, tp, n, i, UserSlots()) == s
      && Reach(v1.mem, Sub(v0.mem, tp, i), n - 1, UserSlots()) == s
    ensures Links(v0.mem, tp, n, i + 1) == k + 1 + m && Taken(v0, w, k + 1 + m)
    ensures First(v0, k + 1 + m) == First(v0, k) + iset{v.free[0]} + First(v1, m)
  {
    hide *;
    var x, f := Sub(v0.mem, tp, i), v.free[0];
    CountBelow(n);
    ReadyParts(v0, tp, tc, n);
    CopiedParts(v0, v, tp, tc, n, i, k);
    CopiedParts(v1, w, x, f, n - 1, 512, m);
    SlotTaken(v0, v, v1, w, k, m, tc, i);
    SlotApart(v0, v, v1, w, tp, tc, n, i, k, m);
    BelowKept(v0, v, tp, tc, n, i, v1);
    LinksStep(v0, v1, tp, n, i);
    LinkedStore(v, v1, tc, i);
    RestParts(v1, w, x, f, n - 1, m);
    SlotChanged(v.mem, v1.mem, w.mem, tp, tc, i, Reach(v0.mem, tp, n, UserSlots()), Reach(v0.mem, x, n - 1, UserSlots()),
                First(v0, k), f, First(v1, m));
    BelowIs(v0.mem, tp, n, i);
  }

  /** A copied table is added to the slots copied before. */
  lemma CopiedSlot(v0: Vm, v: Vm, v1: Vm, w: Vm, tp: Frame, tc: Frame, n: Level, i: Index)
    requires n > 1 && i < Count(n) && Ready(v0, tp, tc, n) && Copied(v0, v, tp, tc, n, i)
    requires v0.mem[tp][i] != ZERO && |v.free| > 0 && v1 == Linked(v, tc, i)
    requires Copied(v1, w, Sub(v0.mem, tp, i), v.free[0], n - 1, 512)
    ensures Copied(v0, w, tp, tc, n, i + 1)
  {
    hide *;
    CountBelow(n);
    var x, f := Sub(v0.mem, tp, i), v.free[0];
    var k, m := Links(v0.mem, tp, n, i), Links(v1.mem, x, n - 1, 512);
    var p, s := Reach(v0.mem, tp, n, UserSlots()), Reach(v0.mem, x, n - 1, UserSlots());
    var taken, more := First(v0, k), First(v1, m);
    SlotFacts(v0, v, v1, w, tp, tc, n, i, k, m);
    ReadyParts(v0, tp, tc, n);
    CopiedParts(v0, v, tp, tc, n, i, k);
    CopiedParts(v1, w, x, f, n - 1, 512, m);
    PendingSlot(v0, v, w, tp, tc, n, i, p, s, taken, f, more);
    PendingBelow(v0, v, tp, tc, n, i);
    ParentParts(v0, v, tp, n);
    ParentParts(v1, w, x, n - 1);
    ParentSlot(v.mem, w.mem, tp, tc, n, i, p, s, taken, f, more);
    ParentParts(v0, w, tp, n);
    NotYetLinked(v0, v, tp, tc, n, i);
    ChildDone(v0, v, v1, w, tp, tc, n, i, k, m, p, s);
    RestParts(v0, v, tp, tc, n, k);
    RestParts(v0, w, tp, tc, n, k + 1 + m);
    SlotRest(v0.mem, v.mem, w.mem, tp, tc, p, s, taken, f, more);
    CopiedParts(v0, w, tp, tc, n, i + 1, k + 1 + m);
  }

  lemma ChildDone(v0: Vm, v: Vm, v1: Vm, w: Vm, tp: Frame, tc: Frame, n: Level, i: Index, k: nat, m: nat,
                  p: iset<Frame>, s: iset<Frame>)
    requires n > 1 && |v.free| > 0 && ChildBuilt(v0, v, tc, n, i, k) && ChildBuilt(v1, w, v.free[0], n - 1, 512, m)
    requires !Kid(v.mem, tc, n, i, Slots(i)) && Apart(tp, tc, p, s, First(v0, k), v.free[0], First(v1, m))
    requires w.mem[tc] == v.mem[tc][i := Link(v.free[0])] && Changed(v.mem, w.mem, s + iset{tc} + iset{v.free[0]} + First(v1, m))
    requires First(v0, k + 1 + m) == First(v0, k) + iset{v.free[0]} + First(v1, m)
    ensures ChildBuilt(v0, w, tc, n, i + 1, k + 1 + m)
  {
    hide *;
    ChildParts(v0, v, tc, n, i, k);
    ChildParts(v1, w, v.free[0], n - 1, 512, m);
    ChildSlot(v.mem, w.mem, tp, tc, n, i, p, s, First(v0, k), v.free[0], First(v1, m));
    ChildParts(v0, w, tc, n, i + 1, k + 1 + m);
  }

  lemma CountBelow(n: Level)
    ensures n > 1 ==> Count(n - 1) == 512
    ensures Count(n) == if n == 4 then 509 else 512
  {
  }

  lemma ReadyParts(v: Vm, tp: Frame, tc: Frame, n: Level)
    requires Ready(v, tp, tc, n)
    ensures Sound(v, tp, n, UserSlots()) && Tree(v.mem, tp, n, UserSlots())
    ensures tc !in Reach(v.mem, tp, n, UserSlots()) && tc !in Frames(v.free)
    ensures Links(v.mem, tp, n, Count(n)) <= |v.free| && (n < 4 ==> v.mem[tc] == ZeroPage())
  {
  }

  lemma ParentParts(v0: Vm, v: Vm, tp: Frame, n: Level)
    ensures ParentKept(v0, v, tp, n) <==>
      && Tree(v.mem, tp, n, UserSlots())
      && Reach(v.mem, tp, n, UserSlots()) == Reach(v0.mem, tp, n, UserSlots())
      && (n > 1 ==> v.mem[tp] == v0.mem[tp])
  {
  }

  lemma ChildParts(v0: Vm, v: Vm, tc: Frame, n: Level, i: nat, k: nat)
    ensures ChildBuilt(v0, v, tc, n, i, k) <==>
      Tree(v.mem, tc, n, Slots(i)) && Reach(v.mem, tc, n, Slots(i)) == iset{tc} + First(v0, k)
  {
  }

  lemma LinksStep(v0: Vm, v1: Vm, tp: Frame, n: Level, i: Index)
    requires n > 1 && v0.mem[tp][i] != ZERO
    ensures Links(v0.mem, tp, n, i + 1) == Links(v0.mem, tp, n, i) + 1 + Links(v0.mem, Sub(v0.mem, tp, i), n - 1, 512)
  {
  }

  lemma LinkedStore(v: Vm, v1: Vm, tc: Frame, i: Index)
    requires |v.free| > 0 && v1 == Linked(v, tc, i)
    ensures v1.mem == Store(v.mem, tc, i, Link(v.free[0]))
  {
  }

  lemma BelowIs(m: Memory, tp: Frame, n: Level, i: Index)
    requires Kid(m, tp, n, i, UserSlots())
    ensures Below(m, tp, n, i, UserSlots()) == Reach(m, Sub(m, tp, i), n - 1, UserSlots())
  {
  }

  lemma RestParts(v0: Vm, v: Vm, tp: Frame, tc: Frame, n: Level, k: nat)
    ensures RestKept(v0, v, tp, tc, n, k) <==>
      Changed(v0.mem, v.mem, Reach(v0.mem, tp, n, UserSlots()) + iset{tc} + First(v0, k))
  {
  }

  lemma SlotRest(m0: Memory, m: Memory, w: Memory, tp: Frame, tc: Frame,
                 p: iset<Frame>, s: iset<Frame>, taken: iset<Frame>, f: Frame, more: iset<Frame>)
    requires Apart(tp, tc, p, s, taken, f, more)
    requires Changed(m0, m, p + iset{tc} + taken) && Changed(m, w, s + iset{tc} + iset{f} + more)
    ensures Changed(m0, w, p + iset{tc} + (taken + iset{f} + more))
  {
  }

  lemma NotYetLinked(v0: Vm, v: Vm, tp: Frame, tc: Frame, n: Level, i: Index)
    requires Ready(v0, tp, tc, n) && Pending(v0, v, tp, tc, n, i)
    ensures !Kid(v.mem, tc, n, i, Slots(i))
  {
    assert v.mem[tc][i] == v0.mem[tc][i];
  }

  /** A slot copied earlier still shows the same leaf. */
  lemma LeafKept(v: Vm, w: Vm, t: Frame, n: Level, q: Path, i: Index, top: set<Index>, x: iset<Frame>)
    requires n > 1 && Under(q, n, top) && q.idx != i && w.mem[t][q.idx] == v.mem[t][q.idx]
    requires Changed(v.mem, w.mem, x) && Below(v.mem, t, n, q.idx, top) !! x
    ensures Entry(w.mem, t, q) == Entry(v.mem, t, q)
  {
    if v.mem[t][q.idx] != ZERO {
      AgreeEntry(v.mem, w.mem, Sub(v.mem, t, q.idx), q.rest, n - 1, top);
    }
  }

  /** The leaves below a slot that was just copied. */
  lemma LeafNew(m0: Memory, w: Memory, tp: Frame, tc: Frame, n: Level, q: Path, x: Frame, f: Frame)
    requires n > 1 && Under(q, n, UserSlots()) && m0[tp][q.idx] != ZERO && Sub(m0, tp, q.idx) == x
    requires w[tp][q.idx] == m0[tp][q.idx] && w[tc][q.idx] == Link(f)
    requires Entry(w, x, q.rest) == Entry(w, f, q.rest) == MarkedOrZero(Entry(m0, x, q.rest))
    ensures Entry(w, tp, q) == Entry(w, tc, q) == MarkedOrZero(Entry(m0, tp, q))
  {
  }

  lemma EntryStep(m: Memory, t: Frame, q: Path, n: Level)
    requires n > 1 && Under(q, n, UserSlots())
    ensures q.Step? && q.rest.Step? && Under(q.rest, n - 1, UserSlots())
    ensures m[t][q.idx] != ZERO ==> Entry(m, t, q) == Entry(m, Sub(m, t, q.idx), q.rest)
  {
  }

  lemma LeavesSlot(v0: Vm, v: Vm, v1: Vm, w: Vm, tp: Frame, tc: Frame, n: Level, i: Index)
    requires n > 1 && i < Count(n) && Ready(v0, tp, tc, n) && Copied(v0, v, tp, tc, n, i) && SameLeaves(v0, v, tp, tc, n, i)
    requires v0.mem[tp][i] != ZERO && |v.free| > 0 && v1 == Linked(v, tc, i)
    requires Copied(v1, w, Sub(v0.mem, tp, i), v.free[0], n - 1, 512)
    requires SameLeaves(v1, w, Sub(v0.mem, tp, i), v.free[0], n - 1, 512)
    ensures SameLeaves(v0, w, tp, tc, n, i + 1)
  {
    hide *;
    var x, f := Sub(v0.mem, tp, i), v.free[0];
    var k, m := Links(v0.mem, tp, n, i), Links(v1.mem, x, n - 1, 512);
    var p, s := Reach(v0.mem, tp, n, UserSlots()), Reach(v0.mem, x, n - 1, UserSlots());
    var taken, more := First(v0, k), First(v1, m);
    CountBelow(n);
    SlotFacts(v0, v, v1, w, tp, tc, n, i, k, m);
    ReadyParts(v0, tp, tc, n);
    CopiedParts(v0, v, tp, tc, n, i, k);
    BelowKept(v0, v, tp, tc, n, i, v1);
    PendingBelow(v0, v, tp, tc, n, i);
    ParentParts(v0, v, tp, n);
    ChildParts(v0, v, tc, n, i, k);
    forall q: Path | q.Step? && q.idx < i + 1 && Under(q, n, UserSlots())
      ensures Entry(w.mem, tp, q) == Entry(w.mem, tc, q) == MarkedOrZero(Entry(v0.mem, tp, q))
    {
      if q.idx == i {
        EntryStep(v0.mem, tp, q, n);
        AgreeEntry(v0.mem, v1.mem, x, q.rest, n - 1, UserSlots());
        LeavesAt(v1, w, x, f, n - 1, 512, q.rest);
        LeafNew(v0.mem, w.mem, tp, tc, n, q, x, f);
      } else {
        OldSlotApart(v, tp, tc, n, i, q.idx, p, s, taken, f, more);
        LeafKept(v, w, tp, n, q, i, UserSlots(), s + iset{tc} + iset{f} + more);
        UnderSlots(q, n, i);
        LeafKept(v, w, tc, n, q, i, Slots(i), s + iset{tc} + iset{f} + more);
        LeavesAt(v0, v, tp, tc, n, i, q);
      }
    }
    MakeLeaves(v0, w, tp, tc, n, i + 1);
  }

  lemma OldSlotApart(v: Vm, tp: Frame, tc: Frame, n: Level, i: Index, j: Index,
                     p: iset<Frame>, s: iset<Frame>, taken: iset<Frame>, f: Frame, more: iset<Frame>)
    requires n > 1 && j != i && Tree(v.mem, tp, n, UserSlots()) && Reach(v.mem, tp, n, UserSlots()) == p
    requires Below(v.mem, tp, n, i, UserSlots()) == s && Apart(tp, tc, p, s, taken, f, more)
    requires Tree(v.mem, tc, n, Slots(i)) && Reach(v.mem, tc, n, Slots(i)) == iset{tc} + taken
    ensures Below(v.mem, tp, n, j, UserSlots()) !! s + iset{tc} + iset{f} + more
    ensures Below(v.mem, tc, n, j, Slots(i)) !! s + iset{tc} + iset{f} + more
  {
    BelowApart(v.mem, tp, n, i, j, UserSlots());
    if Kid(v.mem, tc, n, j, Slots(i)) { SubReach(v.mem, tc, n, j, Slots(i)); }
  }

  lemma {:induction false} UnderAny(q: Path, n: Level, top: set<Index>, top': set<Index>)
    requires Under(q, n, top) && n < 4
    ensures Under(q, n, top')
    decreases n
  {
    if n > 1 { UnderAny(q.rest, n - 1, top, top'); }
  }

  lemma UnderSlots(q: Path, n: Level, i: nat)
    requires Under(q, n, UserSlots()) && q.idx < i
    ensures Under(q, n, Slots(i))
  {
    if n > 1 { UnderAny(q.rest, n - 1, UserSlots(), Slots(i)); }
  }

  lemma LeavesAt(v0: Vm, v: Vm, tp: Frame, tc: Frame, n: Level, i: nat, q: Path)
    requires SameLeaves(v0, v, tp, tc, n, i) && Under(q, n, UserSlots()) && q.idx < i
    ensures Entry(v.mem, tp, q) == Entry(v.mem, tc, q) == MarkedOrZero(Entry(v0.mem, tp, q))
  {
  }

  lemma MakeLeaves(v0: Vm, v: Vm, tp: Frame, tc: Frame, n: Level, i: nat)
    requires forall q: Path | q.Step? && q.idx < i && Under(q, n, UserSlots()) ::
      Entry(v.mem, tp, q) == Entry(v.mem, tc, q) == MarkedOrZero(Entry(v0.mem, tp, q))
    ensures SameLeaves(v0, v, tp, tc, n, i)
  {
  }

  /** Pointers to the parent's and the child's table: slot 510 visited often enough, then q or slot 509 and q. */
  predicate CrossPoints(tableP: bv64, tableC: bv64, q: Path, level: Level) {
    Points(tableP, q, level)
    && Aligned(tableC) && Canonical(tableC) && PathOf(tableC) == Padded(Step(509, q), level - 1)
  }

  lemma CrossDeeper(tableP: bv64, tableC: bv64, q: Path, level: Level, i: Index, index: bv64)
    requires level > 1 && CrossPoints(tableP, tableC, q, level) && index <= 0x1ff && index as int == i
    ensures CrossPoints(Deeper(tableP, index), Deeper(tableC, index), Append(q, i), level - 1)
  {
    PointsDeeper(tableP, q, level, i, index);
    DeeperPath(tableC, index);
    PaddedAppend(Step(509, q), level - 2, i);
    assert Padded(Step(509, q), level - 1) == Step(510, Padded(Step(509, q), level - 2));
  }

  /** The two tables are reached along q, through frames that the copy leaves alone. */
  ghost predicate Crossing(v: Vm, root: Frame, q: Path, tp: Frame, tc: Frame, level: Level, above: iset<Frame>) {
    && SelfMapped(v.mem, root) && root in above
    && KernelWalk(v.mem, root, q) == Hit(tp) && KernelWalk(v.mem, root, Step(509, q)) == Hit(tc)
    && Passed(v.mem, root, q) <= above && Passed(v.mem, root, Step(509, q)) <= above
    && above !! Touched(v, tp, tc, level)
  }

  lemma AboveKept(v0: Vm, v: Vm, tp: Frame, tc: Frame, n: Level, k: nat, above: iset<Frame>)
    requires above !! Touched(v0, tp, tc, n) && Taken(v0, v, k)
    requires ParentKept(v0, v, tp, n) && RestKept(v0, v, tp, tc, n, k)
    ensures Agree(v0.mem, v.mem, above)
  {
    PartsWithin(v0.free, k);
  }

  lemma PartsWithin(s: seq<Frame>, k: nat)
    requires k <= |s|
    ensures Frames(s[..k]) <= Frames(s) && Frames(s[k..]) <= Frames(s)
  {
  }

  /** Both pointers still denote their tables when memory agrees above them. */
  lemma CrossWalks(m0: Memory, m: Memory, root: Frame, tableP: bv64, tableC: bv64, q: Path, tp: Frame, tc: Frame,
                   level: Level, above: iset<Frame>)
    requires CrossPoints(tableP, tableC, q, level) && Agree(m0, m, above)
    requires SelfMapped(m0, root) && root in above
    requires KernelWalk(m0, root, q) == Hit(tp) && KernelWalk(m0, root, Step(509, q)) == Hit(tc)
    requires Passed(m0, root, q) <= above && Passed(m0, root, Step(509, q)) <= above
    ensures SelfMapped(m, root)
    ensures KernelWalk(m, root, PathOf(tableP)) == Hit(tp) && KernelWalk(m, root, PathOf(tableC)) == Hit(tc)
    ensures KernelWalk(m, root, q) == Hit(tp) && KernelWalk(m, root, Step(509, q)) == Hit(tc)
    ensures Passed(m, root, q) <= above && Passed(m, root, Step(509, q)) <= above
  {
    AgreeWalk(m0, m, root, q);
    AgreeWalk(m0, m, root, Step(509, q));
    PaddedWalk(m, root, q, level);
    PaddedWalk(m, root, Step(509, q), level - 1);
  }

  lemma CrossingParts(v: Vm, root: Frame, q: Path, tp: Frame, tc: Frame, level: Level, above: iset<Frame>)
    ensures Crossing(v, root, q, tp, tc, level, above) <==>
      && SelfMapped(v.mem, root) && root in above
      && KernelWalk(v.mem, root, q) == Hit(tp) && KernelWalk(v.mem, root, Step(509, q)) == Hit(tc)
      && Passed(v.mem, root, q) <= above && Passed(v.mem, root, Step(509, q)) <= above
      && above !! Touched(v, tp, tc, level)
  {
  }

  /** In every state of the loop the pointers denote their tables. */
  lemma CrossNow(v0: Vm, v: Vm, root: Frame, tableP: bv64, tableC: bv64, q: Path, tp: Frame, tc: Frame,
                 level: Level, above: iset<Frame>, i: nat)
    requires i <= Count(level) && Copied(v0, v, tp, tc, level, i)
    requires CrossPoints(tableP, tableC, q, level) && Crossing(v0, root, q, tp, tc, level, above)
    ensures KernelWalk(v.mem, root, PathOf(tableP)) == Hit(tp) && KernelWalk(v.mem, root, PathOf(tableC)) == Hit(tc)
    ensures Canonical(tableP) && Canonical(tableC) && SelfMapped(v.mem, root)
    ensures KernelWalk(v.mem, root, q) == Hit(tp) && KernelWalk(v.mem, root, Step(509, q)) == Hit(tc)
    ensures Passed(v.mem, root, q) <= above && Passed(v.mem, root, Step(509, q)) <= above
  {
    hide *;
    CountBelow(level);
    var k := Links(v0.mem, tp, level, i);
    CopiedParts(v0, v, tp, tc, level, i, k);
    CrossingParts(v0, root, q, tp, tc, level, above);
    AboveKept(v0, v, tp, tc, level, k, above);
    CrossWalks(v0.mem, v.mem, root, tableP, tableC, q, tp, tc, level, above);
    CrossCanonical(tableP, tableC, q, level);
  }

  lemma CrossCanonical(tableP: bv64, tableC: bv64, q: Path, level: Level)
    requires CrossPoints(tableP, tableC, q, level)
    ensures Canonical(tableP) && Canonical(tableC)
  {
  }

  lemma WalkLinked(m: Memory, m1: Memory, root: Frame, q: Path, tp: Frame, tc: Frame, i: Index, f: Frame, above: iset<Frame>)
    requires KernelWalk(m, root, q) == Hit(tp) && KernelWalk(m, root, Step(509, q)) == Hit(tc)
    requires Passed(m, root, q) <= above && Passed(m, root, Step(509, q)) <= above
    requires root in above && tc !in above && SelfMapped(m, root)
    requires m1 == Store(m, tc, i, Link(f)) && IsLink(m[tp][i]) && tp != tc
    ensures SelfMapped(m1, root)
    ensures KernelWalk(m1, root, Append(q, i)) == Hit(Sub(m, tp, i)) && KernelWalk(m1, root, Step(509, Append(q, i))) == Hit(f)
    ensures Passed(m1, root, Append(q, i)) <= above + iset{tp} + iset{tc}
    ensures Passed(m1, root, Step(509, Append(q, i))) <= above + iset{tp} + iset{tc}
  {
    AgreeWalk(m, m1, root, q);
    AgreeWalk(m, m1, root, Step(509, q));
    WalkAppend(m1, root, q, i);
    WalkAppend(m1, root, Step(509, q), i);
    PassedAppend(m1, root, q, i);
    PassedAppend(m1, root, Step(509, q), i);
    assert Append(Step(509, q), i) == Step(509, Append(q, i));
  }

  /** The loop enters the recursion for slot i. */
  lemma CrossBelow(v0: Vm, v: Vm, v1: Vm, root: Frame, tableP: bv64, tableC: bv64, q: Path, tp: Frame, tc: Frame,
                   level: Level, above: iset<Frame>, i: Index)
    requires level > 1 && i < Count(level) && Ready(v0, tp, tc, level) && Copied(v0, v, tp, tc, level, i)
    requires CrossPoints(tableP, tableC, q, level) && Crossing(v0, root, q, tp, tc, level, above)
    requires v0.mem[tp][i] != ZERO && |v.free| > 0 && v1 == Linked(v, tc, i)
    ensures Crossing(v1, root, Append(q, i), Sub(v0.mem, tp, i), v.free[0], level - 1, above + iset{tp} + iset{tc})
  {
    hide *;
    CountBelow(level);
    var k := Links(v0.mem, tp, level, i);
    ReadyParts(v0, tp, tc, level);
    CopiedParts(v0, v, tp, tc, level, i, k);
    CrossingParts(v0, root, q, tp, tc, level, above);
    CrossNow(v0, v, root, tableP, tableC, q, tp, tc, level, above, i);
    FreeKept(v0, v, tp, tc, level, k);
    LinkedFree(v, tc, i);
    LinkedStore(v, v1, tc, i);
    BelowKept(v0, v, tp, tc, level, i, v1);
    LinkOf(v0, v, tp, tc, level, i);
    TouchedBelow(v0, v1, tp, tc, level, i, v.free[0], above);
    WalkLinked(v.mem, v1.mem, root, q, tp, tc, i, v.free[0], above);
    CrossingParts(v1, root, Append(q, i), Sub(v0.mem, tp, i), v.free[0], level - 1, above + iset{tp} + iset{tc});
  }

  lemma LinkOf(v0: Vm, v: Vm, tp: Frame, tc: Frame, n: Level, i: Index)
    requires n > 1 && i < Count(n) && Tree(v0.mem, tp, n, UserSlots()) && v0.mem[tp][i] != ZERO
    requires Pending(v0, v, tp, tc, n, i)
    ensures IsLink(v.mem[tp][i]) && Sub(v.mem, tp, i) == Sub(v0.mem, tp, i)
  {
    assert Kid(v0.mem, tp, n, i, UserSlots());
  }

  lemma TouchedBelow(v0: Vm, v1: Vm, tp: Frame, tc: Frame, n: Level, i: Index, f: Frame, above: iset<Frame>)
    requires n > 1 && i < Count(n) && Sound(v0, tp, n, UserSlots()) && v0.mem[tp][i] != ZERO
    requires tc !in Reach(v0.mem, tp, n, UserSlots()) && tc !in Frames(v0.free)
    requires f in Frames(v0.free) && Frames(v1.free) <= Frames(v0.free)
    requires Reach(v1.mem, Sub(v0.mem, tp, i), n - 1, UserSlots()) == Reach(v0.mem, Sub(v0.mem, tp, i), n - 1, UserSlots())
    requires above !! Touched(v0, tp, tc, n)
    ensures above + iset{tp} + iset{tc} !! Touched(v1, Sub(v0.mem, tp, i), f, n - 1)
    ensures tc !in above && tp != tc
  {
    assert Kid(v0.mem, tp, n, i, UserSlots());
    SubReach(v0.mem, tp, n, i, UserSlots());
    assert tp in Reach(v0.mem, tp, n, UserSlots());
  }

  lemma Skip(v0: Vm, v: Vm, tp: Frame, tc: Frame, n: Level, i: Index)
    requires i < Count(n) && Ready(v0, tp, tc, n) && Copied(v0, v, tp, tc, n, i) && SameLeaves(v0, v, tp, tc, n, i)
    requires v.mem[tp][i] == ZERO
    ensures Copied(v0, v, tp, tc, n, i + 1) && SameLeaves(v0, v, tp, tc, n, i + 1)
  {
    hide *;
    CountBelow(n);
    CopiedParts(v0, v, tp, tc, n, i, Links(v0.mem, tp, n, i));
    PendingAt(v0, v, tp, tc, n, i);
    ReadyUnused(v0, tp, tc, n, i);
    CopiedSkip(v0, v, tp, tc, n, i);
    LeavesSkip(v0, v, tp, tc, n, i);
  }

  lemma PendingAt(v0: Vm, v: Vm, tp: Frame, tc: Frame, n: Level, i: Index)
    requires Pending(v0, v, tp, tc, n, i)
    ensures v.mem[tp][i] == v0.mem[tp][i] && v.mem[tc][i] == v0.mem[tc][i]
  {
  }

  lemma ReadyUnused(v0: Vm, tp: Frame, tc: Frame, n: Level, i: Index)
    requires Ready(v0, tp, tc, n) && i < Count(n) && v0.mem[tp][i] == ZERO
    ensures v0.mem[tc][i] == ZERO
  {
  }

  lemma LeafStep(v0: Vm, v: Vm, w: Vm, tp: Frame, tc: Frame, i: Index, e: Word)
    requires Ready(v0, tp, tc, 1) && Copied(v0, v, tp, tc, 1, i) && SameLeaves(v0, v, tp, tc, 1, i)
    requires v.mem[tp][i] != ZERO && e == Marked(v.mem[tp][i])
    requires w == Vm(Store(Store(v.mem, tp, i, e), tc, i, e), v.free)
    ensures Copied(v0, w, tp, tc, 1, i + 1) && SameLeaves(v0, w, tp, tc, 1, i + 1)
  {
    hide *;
    CountOne();
    CopiedParts(v0, v, tp, tc, 1, i, Links(v0.mem, tp, 1, i));
    PendingAt(v0, v, tp, tc, 1, i);
    Different(v0, tp, tc, 1);
    CopiedLeaf(v0, v, tp, tc, i, e, w);
    LeavesLeaf(v0, v, tp, tc, i, e, w);
  }

  lemma CountOne()
    ensures Count(1) == 512
  {
  }

  lemma Different(v: Vm, tp: Frame, tc: Frame, n: Level)
    requires Ready(v, tp, tc, n)
    ensures tp != tc
  {
    assert tp in Reach(v.mem, tp, n, UserSlots());
  }

  /** Marking the parent's leaf does not disturb the pointers. */
  lemma CrossMarked(v0: Vm, v: Vm, root: Frame, tableP: bv64, tableC: bv64, q: Path, tp: Frame, tc: Frame,
                    above: iset<Frame>, i: Index, e: Word)
    requires Ready(v0, tp, tc, 1) && Copied(v0, v, tp, tc, 1, i)
    requires CrossPoints(tableP, tableC, q, 1) && Crossing(v0, root, q, tp, tc, 1, above)
    ensures var m := Store(v.mem, tp, i, e);
      KernelWalk(m, root, PathOf(tableP)) == Hit(tp) && KernelWalk(m, root, PathOf(tableC)) == Hit(tc)
  {
    hide *;
    CountOne();
    var k := Links(v0.mem, tp, 1, i);
    CopiedParts(v0, v, tp, tc, 1, i, k);
    CrossingParts(v0, root, q, tp, tc, 1, above);
    AboveKept(v0, v, tp, tc, 1, k, above);
    AboveLeaf(v0, tp, tc, above);
    AgreeStore(v0.mem, v.mem, tp, i, e, above);
    CrossWalks(v0.mem, Store(v.mem, tp, i, e), root, tableP, tableC, q, tp, tc, 1, above);
  }

  lemma AboveLeaf(v: Vm, tp: Frame, tc: Frame, above: iset<Frame>)
    requires above !! Touched(v, tp, tc, 1)
    ensures tp !in above
  {
    assert tp in Reach(v.mem, tp, 1, UserSlots());
  }

  lemma AgreeStore(m0: Memory, m: Memory, t: Frame, i: Index, e: Word, above: iset<Frame>)
    requires Agree(m0, m, above) && t !in above
    ensures Agree(m0, Store(m, t, i, e), above)
  {
  }

  lemma StoreAt(m: Memory, t: Frame, i: Index, e: Word)
    ensures Store(m, t, i, e)[t][i] == e
  {
  }

  /** `_do_mark_COW` */
  method DoMarkCow(k: Machine, tableP: bv64, tableC: bv64, level: Level,
                   ghost q: Path, ghost tp: Frame, ghost tc: Frame, ghost above: iset<Frame>)
    requires CrossPoints(tableP, tableC, q, level) && Crossing(Vm(k.mem, k.free), k.cr3, q, tp, tc, level, above)
    requires Ready(Vm(k.mem, k.free), tp, tc, level)
    modifies k`mem, k`free
    ensures Copied(old(Vm(k.mem, k.free)), Vm(k.mem, k.free), tp, tc, level, Count(level))
    ensures SameLeaves(old(Vm(k.mem, k.free)), Vm(k.mem, k.free), tp, tc, level, Count(level))
    decreases level, 1
  {
    hide *;
    ghost var v0 := Vm(k.mem, k.free);
    CopiedNothing(v0, tp, tc, level);
    CountBelow(level);
    var count := if level == 4 then 509 else 512;
    var i := 0;
    while i < count
      invariant 0 <= i <= count == Count(level)
      invariant Copied(v0, Vm(k.mem, k.free), tp, tc, level, i)
      invariant SameLeaves(v0, Vm(k.mem, k.free), tp, tc, level, i)
    {
      if level == 1 {
        MarkLeaf(k, tableP, tableC, i, q, tp, tc, above, v0);
      } else {
        CopySlot(k, tableP, tableC, level, i, q, tp, tc, above, v0);
      }
      i := i + 1;
    }
  }

  /** The loop body at level 1. */
  method MarkLeaf(k: Machine, tableP: bv64, tableC: bv64, i: Index,
                  ghost q: Path, ghost tp: Frame, ghost tc: Frame, ghost above: iset<Frame>, ghost v0: Vm)
    requires CrossPoints(tableP, tableC, q, 1) && Crossing(v0, k.cr3, q, tp, tc, 1, above)
    requires Ready(v0, tp, tc, 1)
    requires Copied(v0, Vm(k.mem, k.free), tp, tc, 1, i) && SameLeaves(v0, Vm(k.mem, k.free), tp, tc, 1, i)
    modifies k`mem
    ensures Copied(v0, Vm(k.mem, k.free), tp, tc, 1, i + 1) && SameLeaves(v0, Vm(k.mem, k.free), tp, tc, 1, i + 1)
  {
    hide *;
    CountOne();
    ghost var v := Vm(k.mem, k.free);
    CrossNow(v0, v, k.cr3, tableP, tableC, q, tp, tc, 1, above, i);
    Denotes(k, tableP, tp);
    var entry := k.Read(tableP, i);
    if entry == ZERO {
      Skip(v0, v, tp, tc, 1, i);
      return;
    }
    k.Write(tableP, i, Marked(entry));
    CrossMarked(v0, v, k.cr3, tableP, tableC, q, tp, tc, above, i, Marked(entry));
    Denotes(k, tableP, tp);
    Denotes(k, tableC, tc);
    StoreAt(v.mem, tp, i, Marked(entry));
    var marked := k.Read(tableP, i);
    k.Write(tableC, i, marked);
    LeafStep(v0, v, Vm(k.mem, k.free), tp, tc, i, marked);
  }

  /** The loop body above level 1. */
  method CopySlot(k: Machine, tableP: bv64, tableC: bv64, level: Level, i: Index,
                  ghost q: Path, ghost tp: Frame, ghost tc: Frame, ghost above: iset<Frame>, ghost v0: Vm)
    requires level > 1 && i < Count(level)
    requires CrossPoints(tableP, tableC, q, level) && Crossing(v0, k.cr3, q, tp, tc, level, above)
    requires Ready(v0, tp, tc, level)
    requires Copied(v0, Vm(k.mem, k.free), tp, tc, level, i) && SameLeaves(v0, Vm(k.mem, k.free), tp, tc, level, i)
    modifies k`mem, k`free
    ensures Copied(v0, Vm(k.mem, k.free), tp, tc, level, i + 1) && SameLeaves(v0, Vm(k.mem, k.free), tp, tc, level, i + 1)
    decreases level, 0
  {
    hide *;
    CountBelow(level);
    ghost var v, n := Vm(k.mem, k.free), Links(v0.mem, tp, level, i);
    CrossNow(v0, v, k.cr3, tableP, tableC, q, tp, tc, level, above, i);
    Denotes(k, tableP, tp);
    Denotes(k, tableC, tc);
    var entry := k.Read(tableP, i);
    if entry == ZERO {
      Skip(v0, v, tp, tc, level, i);
      return;
    }
    CopiedParts(v0, v, tp, tc, level, i, n);
    PendingAt(v0, v, tp, tc, level, i);
    ReadyParts(v0, tp, tc, level);
    FreeLeft(v0, v, tp, tc, level, i);
    var next := LinkNext(k, tableC, i, tc);
    ghost var v1 := Vm(k.mem, k.free);
    ReadyBelow(v0, v, tp, tc, level, i, v1);
    CrossBelow(v0, v, v1, k.cr3, tableP, tableC, q, tp, tc, level, above, i);
    CrossDeeper(tableP, tableC, q, level, i, Bits(i));
    DoMarkCow(k, Deeper(tableP, Bits(i)), Deeper(tableC, Bits(i)), level - 1,
              Append(q, i), Sub(v0.mem, tp, i), next, above + iset{tp} + iset{tc});
    CopiedSlot(v0, v, v1, Vm(k.mem, k.free), tp, tc, level, i);
    LeavesSlot(v0, v, v1, Vm(k.mem, k.free), tp, tc, level, i);
  }

  /** The next free frame is linked into slot i of the child's table. */
  method LinkNext(k: Machine, tableC: bv64, i: Index, ghost tc: Frame) returns (next: Frame)
    requires |k.free| > 0 && KernelWalk(k.mem, k.cr3, PathOf(tableC)) == Hit(tc) && Canonical(tableC)
    modifies k`mem, k`free
    ensures next == old(k.free)[0] && Vm(k.mem, k.free) == Linked(old(Vm(k.mem, k.free)), tc, i)
  {
    hide *;
    ghost var v := Vm(k.mem, k.free);
    next := k.GetFreePage();
    Denotes(k, tableC, tc);
    k.Write(tableC, i, Link(next));
    LinkedIs(v, Vm(k.mem, k.free), tc, i);
  }

  lemma LinkedIs(v: Vm, v1: Vm, tc: Frame, i: Index)
    requires |v.free| > 0 && v1 == Vm(Store(v.mem, tc, i, Link(v.free[0])), v.free[1..])
    ensures v1 == Linked(v, tc, i)
  {
  }
}
